/** The loop of the session (boschshcpy/session.py) that files rooms
    and scenarios under their ids. */
module SessionRecords {
  import opened PyJson
  import opened PyDicts
  import opened Effects
  import Devices
  import DeviceServices
  import DeviceHelper
  import IntrusionDomain
  import Api
  import ServicesImpl
  import opened Session

  /** The loop that files rooms or scenarios by id: a later record with an
      id seen before replaces the earlier one. */
  function StoreById(m: RecordsById, items: seq<Json>): (r: (RecordsById, Option<Error>))
    ensures Keys(m) <= Keys(r.0)
    decreases |items|
  {
    if |items| == 0 then (m, None)
    else
      match Field(items[0], "id")
      case Fail(e) => (m, Some(e))
      case Ok(id) =>
        if !Hashable(id) then (m, Some(TypeError("unhashable type")))
        else StoreById(Put(m, id, items[0]), items[1..])
  }

  /** Every record has an id that can be a dict key. */
  predicate Identified(items: seq<Json>) {
    forall i | 0 <= i < |items| :: Has(items[i], "id") && Hashable(items[i].fields["id"])
  }

  lemma IdentifiedCons(items: seq<Json>)
    requires |items| > 0
    ensures Identified(items) <==> Has(items[0], "id") && Hashable(items[0].fields["id"]) && Identified(items[1..])
  {
    assert forall i | 0 <= i < |items| - 1 :: items[1..][i] == items[i + 1];
  }

  /** One step of filing: a record with a hashable id is filed under it
      and the rest follow. */
  lemma StoreByIdStep(m: RecordsById, items: seq<Json>)
    requires |items| > 0 && Has(items[0], "id") && Hashable(items[0].fields["id"])
    ensures StoreById(m, items) == StoreById(Put(m, items[0].fields["id"], items[0]), items[1..])
  {
  }

  /** What a key holds after filing the rest is what it holds after
      filing all, once the first record was filed. */
  lemma StoreByIdShift(m: RecordsById, items: seq<Json>, k: Json, v: Option<Json>)
    requires |items| > 0 && Has(items[0], "id") && Hashable(items[0].fields["id"])
    requires Get(StoreById(Put(m, items[0].fields["id"], items[0]), items[1..]).0, k) == v
    ensures Get(StoreById(m, items).0, k) == v
  {
    StoreByIdStep(m, items);
  }

  /** Filing completes iff every record has a hashable id, and then every
      record's id is filed. */
  lemma {:induction false} StoreByIdCompletes(m: RecordsById, items: seq<Json>)
    ensures StoreById(m, items).1.None? <==> Identified(items)
    ensures Identified(items) ==> forall i | 0 <= i < |items| :: items[i].fields["id"] in Keys(StoreById(m, items).0)
    decreases |items|
  {
    if |items| > 0 {
      IdentifiedCons(items);
      if Has(items[0], "id") && Hashable(items[0].fields["id"]) {
        var m' := Put(m, items[0].fields["id"], items[0]);
        StoreByIdStep(m, items);
        StoreByIdCompletes(m', items[1..]);
        if Identified(items) {
          forall i | 0 <= i < |items| ensures items[i].fields["id"] in Keys(StoreById(m, items).0) {
            if i > 0 { assert items[i] == items[1..][i - 1]; }
          }
        }
      }
    }
  }

  /** After a complete pass an id no record carried holds what it held
      before. */
  lemma {:induction false} StoreByIdUntouched(m: RecordsById, items: seq<Json>, k: Json)
    requires Identified(items)
    requires forall i | 0 <= i < |items| :: items[i].fields["id"] != k
    ensures Get(StoreById(m, items).0, k) == Get(m, k)
    decreases |items|
  {
    if |items| > 0 {
      IdentifiedCons(items);
      var m' := Put(m, items[0].fields["id"], items[0]);
      var rest := items[1..];
      StoreByIdStep(m, items);
      forall j | 0 <= j < |rest| ensures rest[j].fields["id"] != k {
        assert rest[j] == items[j + 1];
      }
      StoreByIdUntouched(m', rest, k);
    }
  }

  /** The first record, when no later one carries its id `k`, is what `k`
      holds after a complete pass. */
  lemma StoreByIdHead(m: RecordsById, items: seq<Json>, k: Json)
    requires Identified(items) && |items| > 0 && items[0].fields["id"] == k
    requires forall j | 0 < j < |items| :: items[j].fields["id"] != k
    ensures Get(StoreById(m, items).0, k) == Some(items[0])
  {
    IdentifiedCons(items);
    var rest := items[1..];
    StoreByIdStep(m, items);
    forall j | 0 <= j < |rest| ensures rest[j].fields["id"] != k {
      assert rest[j] == items[j + 1];
    }
    StoreByIdUntouched(Put(m, k, items[0]), rest, k);
  }

  /** Dropping the first record keeps the record at `i` and the records
      after it, one place earlier. */
  lemma LaterRecords(items: seq<Json>, i: nat, k: Json)
    requires Identified(items) && 0 < i < |items| && items[i].fields["id"] == k
    requires forall j | i < j < |items| :: items[j].fields["id"] != k
    ensures Identified(items[1..]) && items[1..][i - 1] == items[i] && items[1..][i - 1].fields["id"] == k
    ensures forall j | i - 1 < j < |items[1..]| :: items[1..][j].fields["id"] != k
  {
    IdentifiedCons(items);
    var rest := items[1..];
    forall j | i - 1 < j < |rest| ensures rest[j].fields["id"] != k {
      assert rest[j] == items[j + 1];
    }
  }

  /** The record at `i`, when no later one carries its id `k`, is what `k`
      holds after a complete pass. */
  lemma {:induction false} StoreByIdLast(m: RecordsById, items: seq<Json>, i: nat, k: Json)
    requires Identified(items) && i < |items| && items[i].fields["id"] == k
    requires forall j | i < j < |items| :: items[j].fields["id"] != k
    ensures Get(StoreById(m, items).0, k) == Some(items[i])
    decreases |items|
  {
    if i == 0 {
      StoreByIdHead(m, items, k);
    } else {
      LaterRecords(items, i, k);
      StoreByIdLast(Put(m, items[0].fields["id"], items[0]), items[1..], i - 1, k);
      StoreByIdShift(m, items, k, Some(items[i]));
    }
  }

  /** After a complete pass every id holds the last record that carried
      it. */
  lemma StoreByIdLatest(m: RecordsById, items: seq<Json>, i: nat)
    requires Identified(items) && i < |items|
    requires forall j | i < j < |items| :: items[j].fields["id"] != items[i].fields["id"]
    ensures Get(StoreById(m, items).0, items[i].fields["id"]) == Some(items[i])
  {
    StoreByIdLast(m, items, i, items[i].fields["id"]);
  }
}
