/** Small sequence and option helpers shared by every component. */
module Prelude {

  datatype Option<+T> = None | Some(value: T)

  function Elems<T>(s: seq<T>): set<T> {
    set x | x in s
  }

  ghost predicate NoDup<T>(s: seq<T>) {
    forall i, j :: 0 <= i < j < |s| ==> s[i] != s[j]
  }

  /** `edge_insert`: append unless already present. */
  function EdgeInsert<T(==)>(s: seq<T>, x: T): seq<T> {
    if x in s then s else s + [x]
  }

  function IndexOf<T(==)>(s: seq<T>, x: T): (i: nat)
    requires x in s
    ensures i < |s| && s[i] == x
    ensures forall j :: 0 <= j < i ==> s[j] != x
  {
    if s[0] == x then 0 else 1 + IndexOf(s[1..], x)
  }

  /** `Vec::swap_remove`: the last element moves into the hole. */
  function SwapRemove<T>(s: seq<T>, i: nat): seq<T>
    requires i < |s|
  {
    if i == |s| - 1 then s[..i] else s[..|s| - 1][i := s[|s| - 1]]
  }

  /** `edge_remove`: drop the first occurrence by swapping in the last element. */
  function EdgeRemove<T(==)>(s: seq<T>, x: T): seq<T> {
    if x in s then SwapRemove(s, IndexOf(s, x)) else s
  }

  lemma EdgeInsertFacts<T>(s: seq<T>, x: T)
    ensures Elems(EdgeInsert(s, x)) == Elems(s) + {x}
    ensures NoDup(s) ==> NoDup(EdgeInsert(s, x))
  {
  }

  lemma EdgeRemoveFacts<T>(s: seq<T>, x: T)
    ensures Elems(EdgeRemove(s, x)) <= Elems(s)
    ensures forall y :: y in s && y != x ==> y in EdgeRemove(s, x)
    ensures NoDup(s) ==> NoDup(EdgeRemove(s, x)) && x !in EdgeRemove(s, x)
  {
    if x in s {
      var i := IndexOf(s, x);
      var r := EdgeRemove(s, x);
      forall y | y in s && y != x ensures y in r {
        var k :| 0 <= k < |s| && s[k] == y;
        if k == |s| - 1 {
          assert r[i] == y;
        } else {
          assert r[k] == y;
        }
      }
    }
  }
}
