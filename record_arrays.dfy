/** The array operations the JSON-file stores use on the records they read:
    `find` and `findIndex` with a strict-equality test on one property,
    `splice(i, 1)`, and `filter` with `!==`. */
module RecordArrays {
  import opened Wrappers
  import opened Json

  /** `records.findIndex(r => r[key] === value)`: the first index whose
      record matches, or -1. */
  function IndexOfFirst(records: seq<Object>, key: string, value: Json): (i: int)
    ensures -1 <= i < |records|
    ensures i == -1 <==> forall j :: 0 <= j < |records| ==> !FieldIs(records[j], key, value)
    ensures i >= 0 ==> FieldIs(records[i], key, value) && forall j :: 0 <= j < i ==> !FieldIs(records[j], key, value)
  {
    if |records| == 0 then -1
    else if FieldIs(records[0], key, value) then 0
    else
      var k := IndexOfFirst(records[1..], key, value);
      if k == -1 then -1 else k + 1
  }

  /** `records.find(r => r[key] === value)`: the first matching record, or `undefined`. */
  function FindFirst(records: seq<Object>, key: string, value: Json): (r: Option<Object>)
    ensures r.None? <==> forall j :: 0 <= j < |records| ==> !FieldIs(records[j], key, value)
    ensures r.Some? ==> FieldIs(r.value, key, value)
    ensures r.Some? ==> exists i :: 0 <= i < |records| && records[i] == r.value &&
                                    forall j :: 0 <= j < i ==> !FieldIs(records[j], key, value)
  {
    var i := IndexOfFirst(records, key, value);
    if i == -1 then None else Some(records[i])
  }

  /** `records.splice(i, 1)`: the records without the one at `i`, the others in order. */
  function RemoveAt<T>(records: seq<T>, i: nat): (r: seq<T>)
    requires i < |records|
    ensures |r| == |records| - 1
    ensures forall j :: 0 <= j < i ==> r[j] == records[j]
    ensures forall j :: i <= j < |r| ==> r[j] == records[j + 1]
    ensures multiset(r) + multiset{records[i]} == multiset(records)
  {
    assert records == records[..i] + [records[i]] + records[i + 1..];
    records[..i] + records[i + 1..]
  }

  /** `items.filter(x => x !== v)`. */
  function RemoveAll(items: seq<Json>, v: Json): (r: seq<Json>)
    ensures v !in r
    ensures forall x :: x in r <==> x in items && x != v
    ensures |r| <= |items|
  {
    if items == [] then []
    else if items[0] == v then RemoveAll(items[1..], v)
    else [items[0]] + RemoveAll(items[1..], v)
  }

  /** Filtering keeps the order of what it keeps: filtering a concatenation
      is the concatenation of the filtered parts. */
  lemma {:induction false} RemoveAllDistributes(a: seq<Json>, b: seq<Json>, v: Json)
    ensures RemoveAll(a + b, v) == RemoveAll(a, v) + RemoveAll(b, v)
  {
    if a == [] {
      assert a + b == b;
    } else {
      assert (a + b)[0] == a[0] && (a + b)[1..] == a[1..] + b;
      RemoveAllDistributes(a[1..], b, v);
    }
  }

  /** Filtering out a value the array does not hold changes nothing. */
  lemma {:induction false} RemoveAllAbsent(items: seq<Json>, v: Json)
    requires v !in items
    ensures RemoveAll(items, v) == items
  {
    if items != [] {
      assert items[1..] + [] == items[1..];
      assert v !in items[1..];
      RemoveAllAbsent(items[1..], v);
    }
  }
}
