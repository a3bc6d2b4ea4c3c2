/**
 * The admin rate editor (src/app/admin/metal-rates/page.tsx): it lists the
 * rate rows, updates one row's rate in place once the server accepts it,
 * and posts new rates from a modal form that it resets after a success.
 */
module MetalRatesPage {
  import opened Wrappers
  import opened Types
  import opened JsStrings
  import opened JsNumbers
  import opened Http
  import MetalRatesStore

  /** The add-rate form's three text fields. */
  datatype RateForm = RateForm(metal_type: string, purity: string, rate_per_gram: string)

  /** The body posted for a new rate. */
  datatype RatePayload = RatePayload(metal_type: string, purity: string, rate_per_gram: JsNumber)

  /** The form as the page opens and as a successful add leaves it. */
  const InitialForm := RateForm("gold", "", "")

  /** The request body for the form's contents: the text fields as entered, the rate through `Number`. */
  function AddPayload(form: RateForm): (p: RatePayload)
    ensures p.metal_type == form.metal_type && p.purity == form.purity
    ensures p.rate_per_gram == NumberOf(form.rate_per_gram)
    ensures form.rate_per_gram == "" ==> p.rate_per_gram == Finite(0.0)
  {
    RatePayload(form.metal_type, form.purity, NumberOf(form.rate_per_gram))
  }

  /** The error toast for a refused request: the server's error, else the handler's own text. */
  function RefusalText(answer: Answer, fallback: string): (text: string)
    ensures Truthy(answer.error) ==> text == answer.error.value
    ensures !Truthy(answer.error) ==> text == fallback
  {
    OrDefault(answer.error, fallback)
  }

  /**
   * `rates.map(...)` after an accepted update: the rows with that id take the
   * new rate and the time of the update, everything else is kept.
   */
  function UpdateRate(rates: seq<MetalRate>, id: string, newRate: real, now: string): (r: seq<MetalRate>)
    ensures |r| == |rates|
    ensures forall i :: 0 <= i < |rates| && rates[i].id == id ==>
      && r[i].rate_per_gram == newRate && r[i].updated_at == now
      && r[i].id == rates[i].id && r[i].metal_type == rates[i].metal_type && r[i].purity == rates[i].purity
    ensures forall i :: 0 <= i < |rates| && rates[i].id != id ==> r[i] == rates[i]
  {
    if rates == [] then []
    else
      var row := rates[|rates| - 1];
      UpdateRate(rates[..|rates| - 1], id, newRate, now)
        + [if row.id == id then row.(rate_per_gram := newRate, updated_at := now) else row]
  }

  /** Without a row of that id the list is unchanged. */
  lemma UpdateRateMissingId(rates: seq<MetalRate>, id: string, newRate: real, now: string)
    requires forall i :: 0 <= i < |rates| ==> rates[i].id != id
    ensures UpdateRate(rates, id, newRate, now) == rates
  {
    var r := UpdateRate(rates, id, newRate, now);
    assert forall i :: 0 <= i < |rates| ==> r[i] == rates[i];
  }

  /** Repeating an update changes nothing more. */
  lemma UpdateRateIdempotent(rates: seq<MetalRate>, id: string, newRate: real, now: string)
    ensures UpdateRate(UpdateRate(rates, id, newRate, now), id, newRate, now) == UpdateRate(rates, id, newRate, now)
  {
    var once := UpdateRate(rates, id, newRate, now);
    var twice := UpdateRate(once, id, newRate, now);
    assert forall i :: 0 <= i < |rates| ==> twice[i] == once[i];
  }

  /**
   * The update keeps every row's metal and purity, so a lookup by metal and
   * purity that first hit the updated row now answers the new rate.
   */
  lemma UpdatedRateIsLookedUp(rates: seq<MetalRate>, id: string, newRate: real, now: string, k: nat)
    requires k < |rates| && rates[k].id == id
    requires forall j :: 0 <= j < k ==> !MetalRatesStore.RowMatches(rates[j], rates[k].metal_type, rates[k].purity)
    ensures MetalRatesStore.RateFor(UpdateRate(rates, id, newRate, now), rates[k].metal_type, rates[k].purity) == newRate
  {
    var r := UpdateRate(rates, id, newRate, now);
    var m, p := rates[k].metal_type, rates[k].purity;
    assert MetalRatesStore.RowMatches(r[k], m, p);
    assert forall j :: 0 <= j < k ==> !MetalRatesStore.RowMatches(r[j], m, p) by {
      forall j | 0 <= j < k
        ensures !MetalRatesStore.RowMatches(r[j], m, p)
      {
        assert r[j].metal_type == rates[j].metal_type && r[j].purity == rates[j].purity;
      }
    }
    MetalRatesStore.RateForFirstMatch(r, m, p, k);
  }

  /** The page's state. */
  class RatesAdmin {
    var rates: seq<MetalRate>
    var loading: bool
    /** The id of the row whose update is in flight, if any. */
    var updating: Option<string>
    var showAddModal: bool
    var newRateData: RateForm
    /** The bodies posted to add a rate, oldest first. */
    var posted: seq<RatePayload>
    /** How many times a refresh of the list was started after an add. */
    var refetches: nat
    var toasts: seq<Toast>

    constructor ()
      ensures rates == [] && !loading && updating == None && !showAddModal
      ensures newRateData == InitialForm && posted == [] && refetches == 0 && toasts == []
    {
      rates, loading, updating, showAddModal := [], false, None, false;
      newRateData, posted, refetches, toasts := InitialForm, [], 0, [];
    }

    /**
     * `fetchRates`, given what the request produced: rows replace the list,
     * a reply without rows keeps it, a failure keeps it and shows a toast;
     * loading is off afterwards.
     */
    method FetchRates(result: Fetch<Option<seq<MetalRate>>>)
      modifies this
      ensures result.Loaded? && result.value.Some? ==> rates == result.value.value
      ensures !(result.Loaded? && result.value.Some?) ==> rates == old(rates)
      ensures result.Threw? ==> toasts == old(toasts) + [Toast("Failed to fetch rates", false)]
      ensures result.Loaded? ==> toasts == old(toasts)
      ensures !loading
      ensures updating == old(updating) && showAddModal == old(showAddModal) && newRateData == old(newRateData)
      ensures posted == old(posted) && refetches == old(refetches)
    {
      loading := true;
      match result {
        case Loaded(data) =>
          if data.Some? {
            rates := data.value;
          }
        case Threw(_) =>
          toasts := toasts + [Toast("Failed to fetch rates", false)];
      }
      loading := false;
    }

    /** The start of `handleUpdate`: the row's button shows it is busy. */
    method StartUpdate(id: string)
      modifies this
      ensures updating == Some(id)
      ensures rates == old(rates) && loading == old(loading) && showAddModal == old(showAddModal)
      ensures newRateData == old(newRateData) && posted == old(posted) && refetches == old(refetches) && toasts == old(toasts)
    {
      updating := Some(id);
    }

    /**
     * The end of `handleUpdate` once the server answered: an accepted update
     * changes that row in the list, a refused one leaves the list alone and
     * shows the error; either way no row is busy any more.
     */
    method FinishUpdate(id: string, newRate: real, answer: Answer, now: string)
      modifies this
      ensures answer.ok ==> rates == UpdateRate(old(rates), id, newRate, now)
      ensures answer.ok ==> toasts == old(toasts) + [Toast("Rate updated successfully!", true)]
      ensures !answer.ok ==> rates == old(rates)
      ensures !answer.ok ==> toasts == old(toasts) + [Toast(RefusalText(answer, "Failed to update rate"), false)]
      ensures updating == None
      ensures loading == old(loading) && showAddModal == old(showAddModal) && newRateData == old(newRateData)
      ensures posted == old(posted) && refetches == old(refetches)
    {
      if answer.ok {
        rates := UpdateRate(rates, id, newRate, now);
        toasts := toasts + [Toast("Rate updated successfully!", true)];
      } else {
        toasts := toasts + [Toast(OrDefault(answer.error, "Failed to update rate"), false)];
      }
      updating := None;
    }

    /** `handleUpdate(id, newRate)` from start to end. */
    method HandleUpdate(id: string, newRate: real, answer: Answer, now: string)
      modifies this
      ensures answer.ok ==> rates == UpdateRate(old(rates), id, newRate, now)
      ensures answer.ok ==> toasts == old(toasts) + [Toast("Rate updated successfully!", true)]
      ensures !answer.ok ==> rates == old(rates)
      ensures !answer.ok ==> toasts == old(toasts) + [Toast(RefusalText(answer, "Failed to update rate"), false)]
      ensures updating == None
      ensures loading == old(loading) && showAddModal == old(showAddModal) && newRateData == old(newRateData)
      ensures posted == old(posted) && refetches == old(refetches)
    {
      StartUpdate(id);
      FinishUpdate(id, newRate, answer, now);
    }

    /** The start of `handleAddRate`: loading is on and the form's contents are posted. */
    method StartAdd()
      modifies this
      ensures loading
      ensures posted == old(posted) + [AddPayload(old(newRateData))]
      ensures rates == old(rates) && updating == old(updating) && showAddModal == old(showAddModal)
      ensures newRateData == old(newRateData) && refetches == old(refetches) && toasts == old(toasts)
    {
      loading := true;
      posted := posted + [AddPayload(newRateData)];
    }

    /**
     * The end of `handleAddRate`: an accepted add closes the modal, resets
     * the form to its initial contents and starts a refresh of the list; a
     * refused one keeps the modal and the form as they are. Loading is off
     * either way, and the list itself is not touched here.
     */
    method FinishAdd(answer: Answer)
      modifies this
      ensures answer.ok ==> !showAddModal && newRateData == InitialForm && refetches == old(refetches) + 1
      ensures answer.ok ==> toasts == old(toasts) + [Toast("New rate added successfully!", true)]
      ensures !answer.ok ==>
        showAddModal == old(showAddModal) && newRateData == old(newRateData) && refetches == old(refetches)
      ensures !answer.ok ==> toasts == old(toasts) + [Toast(RefusalText(answer, "Failed to add rate"), false)]
      ensures !loading
      ensures rates == old(rates) && updating == old(updating) && posted == old(posted)
    {
      if answer.ok {
        toasts := toasts + [Toast("New rate added successfully!", true)];
        showAddModal := false;
        newRateData := InitialForm;
        refetches := refetches + 1;
      } else {
        toasts := toasts + [Toast(OrDefault(answer.error, "Failed to add rate"), false)];
      }
      loading := false;
    }
  }
}
