/** Id allocation for the JSON-file stores (modules/shared/utils/dataHelpers.js):
    `generateNewId` returns one more than the largest `id` in the array, or 1
    for an empty array. `Math.max` over a value that is not a number gives
    `NaN`; the model writes `NaN` as `None`. */
module DataHelpers {
  import opened Wrappers
  import opened Json

  /** The numeric `id` of a record; `None` when it is missing or not a number. */
  function IdOf(record: Object): Option<real>
  {
    if "id" in record && record["id"].Num? then Some(record["id"].n) else None
  }

  predicate AllIdsNumeric(items: seq<Object>)
  {
    forall i :: 0 <= i < |items| ==> IdOf(items[i]).Some?
  }

  /** `Math.max(...items.map(item => item.id))` for a non-empty array:
      `NaN` (here `None`) as soon as one id is not a number. */
  function MaxId(items: seq<Object>): (r: Option<real>)
    requires |items| > 0
    ensures r.Some? <==> AllIdsNumeric(items)
    ensures r.Some? ==> forall i :: 0 <= i < |items| ==> IdOf(items[i]).value <= r.value
    ensures r.Some? ==> exists i :: 0 <= i < |items| && IdOf(items[i]) == r
  {
    var head := IdOf(items[0]);
    if |items| == 1 then head
    else
      var rest := MaxId(items[1..]);
      assert forall i :: 1 <= i < |items| ==> items[i] == items[1..][i - 1];
      if head.None? || rest.None? then None
      else if head.value >= rest.value then head
      else rest
  }

  /** `generateNewId(dataArray)`. */
  function NewId(items: seq<Object>): (r: Option<real>)
    ensures |items| == 0 ==> r == Some(1.0)
    ensures |items| > 0 ==> (r.Some? <==> AllIdsNumeric(items))
    ensures r.Some? ==> forall i :: 0 <= i < |items| ==> IdOf(items[i]).value < r.value
    ensures r.Some? && |items| > 0 ==> exists i :: 0 <= i < |items| && IdOf(items[i]).value + 1.0 == r.value
  {
    if |items| > 0 then
      var m := MaxId(items);
      if m.Some? then Some(m.value + 1.0) else None
    else Some(1.0)
  }

  /** The value the new record's `id` takes in the file: `JSON.stringify` writes `NaN` as `null`. */
  function IdValue(id: Option<real>): Json
  {
    if id.Some? then Num(id.value) else Null
  }

  /** A fresh id collides with no existing record's id. */
  lemma {:induction false} NewIdIsFresh(items: seq<Object>, i: nat)
    requires i < |items| && NewId(items).Some?
    ensures !FieldIs(items[i], "id", IdValue(NewId(items)))
  {
    assert IdOf(items[i]).value < NewId(items).value;
  }

  /** The allocated id depends only on the records, not on their order. */
  lemma {:induction false} NewIdOrderIndependent(a: seq<Object>, b: seq<Object>)
    requires multiset(a) == multiset(b)
    ensures NewId(a) == NewId(b)
  {
    assert |a| == |multiset(a)| == |multiset(b)| == |b|;
    SameElements(a, b);
    if |a| > 0 {
      MaxIdByElements(a, b);
    }
  }

  lemma SameElements(a: seq<Object>, b: seq<Object>)
    requires multiset(a) == multiset(b)
    ensures forall x :: x in a <==> x in b
  {
    forall x ensures x in a <==> x in b {
      assert x in a <==> x in multiset(a);
      assert x in b <==> x in multiset(b);
    }
  }

  /** Two arrays holding the same records have the same maximum id. */
  lemma MaxIdByElements(a: seq<Object>, b: seq<Object>)
    requires |a| > 0 && |b| > 0
    requires forall x :: x in a <==> x in b
    ensures MaxId(a) == MaxId(b)
  {
    if AllIdsNumeric(a) {
      assert AllIdsNumeric(b) by {
        forall j | 0 <= j < |b| ensures IdOf(b[j]).Some? {
          assert b[j] in a;
          var i :| 0 <= i < |a| && a[i] == b[j];
        }
      }
      MaxIdBelow(a, b);
      MaxIdBelow(b, a);
    } else {
      var i :| 0 <= i < |a| && IdOf(a[i]).None?;
      assert a[i] in b;
      var j :| 0 <= j < |b| && b[j] == a[i];
      assert !AllIdsNumeric(b);
    }
  }

  lemma MaxIdBelow(a: seq<Object>, b: seq<Object>)
    requires |a| > 0 && |b| > 0 && AllIdsNumeric(a) && AllIdsNumeric(b)
    requires forall x :: x in a ==> x in b
    ensures MaxId(a).value <= MaxId(b).value
  {
    var ma := MaxId(a);
    var ia :| 0 <= ia < |a| && IdOf(a[ia]) == ma;
    assert a[ia] in b;
    var jb :| 0 <= jb < |b| && b[jb] == a[ia];
    assert IdOf(b[jb]).value <= MaxId(b).value;
  }
}
