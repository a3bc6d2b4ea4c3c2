/**
 * The client-side rate repository (src/store/metalRatesStore.ts): the rates
 * last loaded from the `metal_rates` table, a loading flag and an error
 * message, plus the lookup that resolves a (metal type, purity) pair to a
 * per-gram rate, falling back to a fixed table and then to 0.
 */
module MetalRatesStore {
  import opened Wrappers
  import opened Types
  import opened JsStrings
  import opened JsArrays

  /** The historical defaults consulted when no loaded row matches. */
  const FallbackRates: map<string, real> := map[
    "gold-24K" := 7250.0,
    "gold-22K" := 6850.0,
    "gold-18K" := 5600.0,
    "silver-92.5" := 88.0,
    "silver-pure" := 90.0
  ]

  /** `${metalType.toLowerCase()}-${purity}` */
  function FallbackKey(metalType: string, purity: string): (key: string)
    ensures key == ToLower(metalType) + "-" + purity
  {
    ToLower(metalType) + "-" + purity
  }

  /** `FALLBACK_RATES[key] || 0` */
  function FallbackRate(key: string): (rate: real)
    ensures key in FallbackRates ==> rate == FallbackRates[key]
    ensures key !in FallbackRates ==> rate == 0.0
  {
    if key in FallbackRates && FallbackRates[key] != 0.0 then FallbackRates[key] else 0.0
  }

  /** A loaded row matches when its metal type agrees ignoring case and its purity agrees exactly. */
  predicate RowMatches(r: MetalRate, metalType: string, purity: string) {
    ToLower(r.metal_type) == ToLower(metalType) && r.purity == purity
  }

  /** `getRate(metalType, purity)` over the loaded rows `rates`. */
  function RateFor(rates: seq<MetalRate>, metalType: string, purity: string): (rate: real)
    ensures (forall i :: 0 <= i < |rates| ==> !RowMatches(rates[i], metalType, purity)) ==>
      rate == FallbackRate(FallbackKey(metalType, purity))
    ensures (exists i :: 0 <= i < |rates| && RowMatches(rates[i], metalType, purity)) ==>
      exists i :: 0 <= i < |rates| && RowMatches(rates[i], metalType, purity) && rate == rates[i].rate_per_gram
  {
    match Find((r: MetalRate) => RowMatches(r, metalType, purity), rates)
    case Some(row) => row.rate_per_gram
    case None => FallbackRate(FallbackKey(metalType, purity))
  }

  /**
   * When some loaded row matches, the rate is that of the FIRST matching row,
   * whatever its value (a stored 0 wins over the fallback table).
   */
  lemma RateForFirstMatch(rates: seq<MetalRate>, metalType: string, purity: string, k: nat)
    requires k < |rates| && RowMatches(rates[k], metalType, purity)
    requires forall j :: 0 <= j < k ==> !RowMatches(rates[j], metalType, purity)
    ensures RateFor(rates, metalType, purity) == rates[k].rate_per_gram
  {
    FindAt((r: MetalRate) => RowMatches(r, metalType, purity), rates, k);
  }

  /** The metal type is compared ignoring case: "GOLD" and "gold" resolve alike. */
  lemma MetalTypeIgnoresCase(rates: seq<MetalRate>, m1: string, m2: string, purity: string)
    requires ToLower(m1) == ToLower(m2)
    ensures RateFor(rates, m1, purity) == RateFor(rates, m2, purity)
  {
    FindCongruent((r: MetalRate) => RowMatches(r, m1, purity), (r: MetalRate) => RowMatches(r, m2, purity), rates);
  }

  /** With nothing loaded the fallback table answers, whatever the case of the metal type. */
  lemma FallbackIgnoresMetalCase()
    ensures RateFor([], "GOLD", "24K") == 7250.0
    ensures RateFor([], "Silver", "92.5") == 88.0
  {
    assert FallbackKey("GOLD", "24K") == "gold-24K";
    assert FallbackKey("Silver", "92.5") == "silver-92.5";
  }

  /** The purity is part of the fallback key as written: "24k" is not "24K". */
  lemma FallbackPurityIsExact()
    ensures RateFor([], "gold", "24k") == 0.0
    ensures RateFor([], "gold", "24K") == 7250.0
  {
    assert FallbackKey("gold", "24k") == "gold-24k";
    assert FallbackKey("gold", "24K") == "gold-24K";
  }

  /** A pair neither loaded nor in the table resolves to 0: silver 99.9, any diamond. */
  lemma UnknownPairIsZero(purity: string)
    ensures RateFor([], "silver", "99.9") == 0.0
    ensures RateFor([], "diamond", purity) == 0.0
  {
    assert FallbackKey("silver", "99.9") == "silver-99.9";
    var key := FallbackKey("diamond", purity);
    assert ToLower("diamond") == "diamond";
    assert key[0] == 'd';
    assert key !in FallbackRates.Keys;
  }

  /**
   * Loaded rows take precedence over the fallback table: the gold 24K row
   * that the operator script seeds at 7200 is returned, not the table's 7250.
   */
  lemma LoadedRowBeatsFallback(seedGold: MetalRate, rest: seq<MetalRate>)
    requires seedGold.metal_type == "gold" && seedGold.purity == "24K" && seedGold.rate_per_gram == 7200.0
    ensures RateFor([seedGold] + rest, "gold", "24K") == 7200.0
    ensures RateFor([], "gold", "24K") == 7250.0
  {
    RateForFirstMatch([seedGold] + rest, "gold", "24K", 0);
    FallbackPurityIsExact();
  }

  /** A matching row whose stored rate is 0 still wins: the result is 0, not the table's 6850. */
  lemma StoredZeroWins(zeroRow: MetalRate)
    requires zeroRow.metal_type == "Gold" && zeroRow.purity == "22K" && zeroRow.rate_per_gram == 0.0
    ensures RateFor([zeroRow], "gold", "22K") == 0.0
    ensures FallbackRate(FallbackKey("gold", "22K")) == 6850.0
  {
    assert ToLower("Gold") == "gold";
    RateForFirstMatch([zeroRow], "gold", "22K", 0);
    assert FallbackKey("gold", "22K") == "gold-22K";
  }

  /** What the rates query returned: its rows (None for a null `data`) and its error. */
  datatype RatesResponse = RatesResponse(data: Option<seq<MetalRate>>, error: Option<string>)

  /** The zustand store; `getRate` only reads it, `fetchRates` steps it through two states. */
  class MetalRatesState {
    var rates: seq<MetalRate>
    var isLoading: bool
    var error: Option<string>

    constructor ()
      ensures rates == [] && !isLoading && error == None
    {
      rates := [];
      isLoading := false;
      error := None;
    }

    function GetRate(metalType: string, purity: string): real
      reads this
    {
      RateFor(rates, metalType, purity)
    }

    /** The first `set` of `fetchRates`, before the query is awaited. */
    method BeginFetch()
      modifies this
      ensures isLoading && error == None && rates == old(rates)
    {
      isLoading, error := true, None;
    }

    /**
     * The rest of `fetchRates` once the query answers: an error is recorded
     * and the old rows kept; rows replace the old ones wholesale; a reply
     * with neither leaves the store as it is, still loading.
     */
    method CompleteFetch(response: RatesResponse)
      modifies this
      ensures response.error.Some? ==>
        rates == old(rates) && !isLoading && error == response.error
      ensures response.error.None? && response.data.Some? ==>
        rates == response.data.value && !isLoading && error == old(error)
      ensures response.error.None? && response.data.None? ==>
        rates == old(rates) && isLoading == old(isLoading) && error == old(error)
    {
      if response.error.Some? {
        error, isLoading := response.error, false;
      } else if response.data.Some? {
        rates, isLoading := response.data.value, false;
      }
    }

    /** `fetchRates()` */
    method FetchRates(response: RatesResponse)
      modifies this
      ensures response.error.Some? ==> rates == old(rates) && !isLoading && error == response.error
      ensures response.error.None? && response.data.Some? ==>
        rates == response.data.value && !isLoading && error == None
      ensures response.error.None? && response.data.None? ==>
        rates == old(rates) && isLoading && error == None
    {
      BeginFetch();
      CompleteFetch(response);
    }
  }
}
