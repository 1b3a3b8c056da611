// The byte order of identifiers and sorting by it.
module Orders {
  import opened Logs
  import opened Transition

  lemma {:induction false} BeforeTotal(a: Id, b: Id)
    requires a != b
    ensures Before(a, b) || Before(b, a)
    decreases |a|
  {
    if a != [] && b != [] && a[0] == b[0] {
      assert a == [a[0]] + a[1..] && b == [b[0]] + b[1..];
      BeforeTotal(a[1..], b[1..]);
    }
  }

  lemma {:induction false} BeforeTrans(a: Id, b: Id, c: Id)
    requires Before(a, b) && Before(b, c)
    ensures Before(a, c)
    decreases |a|
  {
    if a != [] && a[0] == b[0] && b[0] == c[0] {
      BeforeTrans(a[1..], b[1..], c[1..]);
    }
  }

  lemma {:induction false} BeforeDiffers(a: Id, b: Id)
    requires Before(a, b)
    ensures a != b
    decreases |a|
  {
    if a != [] && b != [] && a[0] == b[0] {
      BeforeDiffers(a[1..], b[1..]);
    }
  }

  predicate Ascends(ids: seq<Id>) {
    forall k :: 0 <= k < |ids| - 1 ==> Before(ids[k], ids[k + 1])
  }

  lemma {:induction false} InsertAscends(ids: seq<Id>, id: Id)
    requires Ascends(ids)
    ensures Ascends(InsertSorted(ids, id)) && InsertSorted(ids, id) != []
    ensures InsertSorted(ids, id)[0] == id || (ids != [] && InsertSorted(ids, id)[0] == ids[0])
    ensures forall x :: x in InsertSorted(ids, id) <==> x in ids || x == id
    decreases |ids|
  {
    if ids != [] && ids[0] != id && !Before(id, ids[0]) {
      BeforeTotal(id, ids[0]);
      var rest := ids[1..];
      assert forall k :: 0 <= k < |rest| ==> rest[k] == ids[k + 1];
      InsertAscends(rest, id);
      var r := [ids[0]] + InsertSorted(rest, id);
      assert ids == [ids[0]] + rest;
      forall k | 0 <= k < |r| - 1
        ensures Before(r[k], r[k + 1])
      {
        if k > 0 {
          assert r[k] == InsertSorted(rest, id)[k - 1] && r[k + 1] == InsertSorted(rest, id)[k];
        }
      }
    }
  }

  // Sorting lists the same ids in ascending order, each once.
  lemma {:induction false} SortedAscends(ids: seq<Id>)
    ensures Ascends(Sorted(ids)) && forall x :: x in Sorted(ids) <==> x in ids
  {
    if ids != [] {
      SortedAscends(ids[1..]);
      InsertAscends(Sorted(ids[1..]), ids[0]);
      assert ids == [ids[0]] + ids[1..];
    }
  }

  lemma {:induction false} AscendsFar(ids: seq<Id>, j: nat, k: nat)
    requires Ascends(ids) && j < k < |ids|
    ensures Before(ids[j], ids[k])
    decreases k
  {
    if j < k - 1 {
      AscendsFar(ids, j, k - 1);
      assert Before(ids[k - 1], ids[k - 1 + 1]);
      BeforeTrans(ids[j], ids[k - 1], ids[k]);
    }
  }

  lemma AscendsDistinct(ids: seq<Id>)
    requires Ascends(ids)
    ensures Distinct(ids)
  {
    forall j, k | 0 <= j < k < |ids|
      ensures ids[j] != ids[k]
    {
      AscendsFar(ids, j, k);
      BeforeDiffers(ids[j], ids[k]);
    }
  }

  lemma InsertFirst(ids: seq<Id>, id: Id)
    requires ids == [] || (ids[0] != id && Before(id, ids[0]))
    ensures InsertSorted(ids, id) == [id] + ids
  {
    hide Before;
  }

  // What is in order stays as it is.
  lemma {:induction false} SortedStays(ids: seq<Id>)
    requires Ascends(ids)
    ensures Sorted(ids) == ids
  {
    hide Before, InsertSorted;
    if ids != [] {
      var rest := ids[1..];
      forall k | 0 <= k < |rest| - 1
        ensures Before(rest[k], rest[k + 1])
      {
        assert Before(ids[k + 1], ids[k + 1 + 1]);
      }
      SortedStays(rest);
      if rest != [] {
        assert Before(ids[0], ids[0 + 1]);
        BeforeDiffers(ids[0], ids[1]);
      }
      InsertFirst(rest, ids[0]);
      assert ids == [ids[0]] + rest;
    }
  }
}
