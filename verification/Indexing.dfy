/** Indexing a list by a key that some of its elements have; of several elements with one key the last one stays. */
module Indexing {
  import opened Types

  function Index<T>(list: seq<T>, key: T -> Option<string>): map<string, T> {
    if list == [] then map[]
    else
      var init, last := list[..|list| - 1], list[|list| - 1];
      match key(last)
      case Some(k) => Index(init, key)[k := last]
      case None => Index(init, key)
  }

  method IndexBy<T>(list: seq<T>, key: T -> Option<string>) returns (m: map<string, T>)
    ensures m == Index(list, key)
  {
    m := map[];
    for i := 0 to |list|
      invariant m == Index(list[..i], key)
    {
      assert list[..i + 1][..i] == list[..i];
      match key(list[i])
      case Some(k) => m := m[k := list[i]];
      case None =>
    }
    assert list[..|list|] == list;
  }

  ghost predicate IsLast<T>(list: seq<T>, key: T -> Option<string>, k: string, i: int) {
    0 <= i < |list| && key(list[i]) == Some(k) && forall j :: i < j < |list| ==> key(list[j]) != Some(k)
  }

  lemma {:induction false} IndexHoldsTheLast<T>(list: seq<T>, key: T -> Option<string>)
    ensures forall k :: k in Index(list, key) ==> exists i :: IsLast(list, key, k, i) && Index(list, key)[k] == list[i]
    ensures forall i :: 0 <= i < |list| && key(list[i]).Some? ==> key(list[i]).value in Index(list, key)
    decreases |list|
  {
    if list != [] {
      var init, n := list[..|list| - 1], |list| - 1;
      IndexHoldsTheLast(init, key);
      forall k | k in Index(list, key)
        ensures exists i :: IsLast(list, key, k, i) && Index(list, key)[k] == list[i]
      {
        if key(list[n]) == Some(k) {
          assert IsLast(list, key, k, n);
        } else {
          var i :| IsLast(init, key, k, i) && Index(init, key)[k] == init[i];
          assert IsLast(list, key, k, i);
        }
      }
      forall i | 0 <= i < |list| && key(list[i]).Some? ensures key(list[i]).value in Index(list, key) {
        if i < n {
          assert init[i] == list[i];
        }
      }
    }
  }

  /** If no two elements share a key, every element that has one is found under it. */
  lemma IndexOfDistinct<T>(list: seq<T>, key: T -> Option<string>, i: nat)
    requires i < |list| && key(list[i]).Some?
    requires forall j :: 0 <= j < |list| && j != i ==> key(list[j]) != key(list[i])
    ensures key(list[i]).value in Index(list, key) && Index(list, key)[key(list[i]).value] == list[i]
  {
  }
}
