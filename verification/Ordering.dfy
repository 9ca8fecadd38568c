/** Sets and maps that are iterated in the order of their keys. */
module Ordering {
  import opened Prelude

  ghost predicate TotalOrder<T(!new)>(le: (T, T) -> bool) {
    && (forall x, y :: le(x, y) || le(y, x))
    && (forall x, y :: le(x, y) && le(y, x) ==> x == y)
    && (forall x, y, z :: le(x, y) && le(y, z) ==> le(x, z))
  }

  ghost predicate Sorted<T>(s: seq<T>, le: (T, T) -> bool) {
    forall i, j :: 0 <= i < j < |s| ==> le(s[i], s[j])
  }

  method Least<T(==, !new)>(items: set<T>, le: (T, T) -> bool) returns (m: T)
    requires items != {} && TotalOrder(le)
    ensures m in items && forall x :: x in items ==> le(m, x)
  {
    m :| m in items;
    var todo := items - {m};
    while todo != {}
      invariant m in items && todo <= items
      invariant forall x :: x in items && x !in todo ==> le(m, x)
      decreases todo
    {
      var x :| x in todo;
      todo := todo - {x};
      if !le(m, x) {
        m := x;
      }
    }
  }

  /** The items, each once, in ascending order. */
  method InOrder<T(==, !new)>(items: set<T>, le: (T, T) -> bool) returns (order: seq<T>)
    requires TotalOrder(le)
    ensures NoDup(order) && Elems(order) == items && Sorted(order, le)
  {
    order := [];
    var todo := items;
    while todo != {}
      invariant todo <= items && NoDup(order) && Elems(order) == items - todo && Sorted(order, le)
      invariant forall x, y :: x in order && y in todo ==> le(x, y)
      decreases todo
    {
      var k := Least(todo, le);
      assert k !in Elems(order);
      assert Elems(order + [k]) == Elems(order) + {k};
      order := order + [k];
      todo := todo - {k};
    }
  }

  /** Strings character by character, a prefix first. */
  predicate StringLe(a: string, b: string) {
    a == "" || (b != "" && (a[0] < b[0] || (a[0] == b[0] && StringLe(a[1..], b[1..]))))
  }

  lemma {:induction false} StringLeTotal(a: string, b: string)
    ensures StringLe(a, b) || StringLe(b, a)
    ensures StringLe(a, b) && StringLe(b, a) ==> a == b
    decreases |a|
  {
    if a != "" && b != "" && a[0] == b[0] {
      StringLeTotal(a[1..], b[1..]);
      assert a == [a[0]] + a[1..] && b == [b[0]] + b[1..];
    }
  }

  lemma {:induction false} StringLeTransitive(a: string, b: string, c: string)
    requires StringLe(a, b) && StringLe(b, c)
    ensures StringLe(a, c)
    decreases |a|
  {
    if a != "" && a[0] == b[0] == c[0] {
      StringLeTransitive(a[1..], b[1..], c[1..]);
    }
  }

  lemma StringsAreOrdered()
    ensures TotalOrder(StringLe)
  {
    forall a, b ensures StringLe(a, b) || StringLe(b, a) ensures StringLe(a, b) && StringLe(b, a) ==> a == b {
      StringLeTotal(a, b);
    }
    forall a, b, c | StringLe(a, b) && StringLe(b, c) ensures StringLe(a, c) {
      StringLeTransitive(a, b, c);
    }
  }
}
