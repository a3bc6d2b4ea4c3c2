/**
 * A plain JavaScript object used as a `Record<string, number>` dictionary.
 * `Object.keys` lists string keys in insertion order, so the record is a
 * sequence of (key, value) entries in that order.
 */
module JsRecords {

  type Record = seq<(string, real)>

  /** `Object.keys(rec)` */
  function Keys(rec: Record): (ks: seq<string>)
    ensures |ks| == |rec|
    ensures forall i :: 0 <= i < |rec| ==> ks[i] == rec[i].0
  {
    if rec == [] then [] else [rec[0].0] + Keys(rec[1..])
  }

  predicate KeysUnique(rec: Record) {
    forall i, j :: 0 <= i < j < |rec| ==> rec[i].0 != rec[j].0
  }

  /** `rec[k] || 0`: the value stored under k, or 0 when k is absent. */
  function Get(rec: Record, k: string): real {
    if rec == [] then 0.0 else if rec[0].0 == k then rec[0].1 else Get(rec[1..], k)
  }

  /** `rec[k] = (rec[k] || 0) + amount`: an existing key keeps its place, a new one goes last. */
  function AddTo(rec: Record, k: string, amount: real): Record {
    if rec == [] then [(k, amount)]
    else if rec[0].0 == k then [(k, rec[0].1 + amount)] + rec[1..]
    else [rec[0]] + AddTo(rec[1..], k, amount)
  }

  /** The sum of all values stored in the record. */
  function Total(rec: Record): real {
    if rec == [] then 0.0 else rec[0].1 + Total(rec[1..])
  }

  /** Adding an amount under one key raises the record's total by exactly that amount. */
  lemma {:induction false} AddToTotal(rec: Record, k: string, amount: real)
    ensures Total(AddTo(rec, k, amount)) == Total(rec) + amount
  {
    if rec != [] && rec[0].0 != k {
      AddToTotal(rec[1..], k, amount);
    }
  }

  /** Adding under k changes the value read at k by the amount and no other key's value. */
  lemma {:induction false} AddToGet(rec: Record, k: string, amount: real, j: string)
    ensures Get(AddTo(rec, k, amount), j) == Get(rec, j) + (if j == k then amount else 0.0)
  {
    if rec != [] && rec[0].0 != k {
      AddToGet(rec[1..], k, amount, j);
    }
  }

  /** Adding under k keeps the key order; a key not yet present is appended at the end. */
  lemma {:induction false} AddToKeys(rec: Record, k: string, amount: real)
    ensures Keys(AddTo(rec, k, amount)) == if k in Keys(rec) then Keys(rec) else Keys(rec) + [k]
  {
    if rec != [] {
      if rec[0].0 != k {
        AddToKeys(rec[1..], k, amount);
        assert Keys(rec) == [rec[0].0] + Keys(rec[1..]);
      }
    }
  }

  /** Adding under a key never introduces a duplicate key. */
  lemma AddToKeysUnique(rec: Record, k: string, amount: real)
    requires KeysUnique(rec)
    ensures KeysUnique(AddTo(rec, k, amount))
  {
    AddToKeys(rec, k, amount);
    var r := AddTo(rec, k, amount);
    assert forall i :: 0 <= i < |r| ==> Keys(r)[i] == r[i].0;
    assert forall i :: 0 <= i < |rec| ==> Keys(rec)[i] == rec[i].0;
  }

  /** With unique keys, a key's value is the value of the entry that holds it. */
  lemma {:induction false} GetAt(rec: Record, i: nat)
    requires KeysUnique(rec) && i < |rec|
    ensures Get(rec, rec[i].0) == rec[i].1
  {
    if i > 0 {
      GetAt(rec[1..], i - 1);
    }
  }
}
