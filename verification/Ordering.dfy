/** The order in which stores list ids: by score, ties by the byte order of the id. */
module Ordering {

  /** Byte-wise lexicographic order, as sort.Strings and redis use it. */
  predicate StringLess(a: string, b: string)
    decreases |a|
  {
    b != [] && (a == [] || a[0] < b[0] || (a[0] == b[0] && StringLess(a[1..], b[1..])))
  }

  lemma {:induction false} StringLessTotal(a: string, b: string)
    ensures a == b || StringLess(a, b) || StringLess(b, a)
    ensures !(StringLess(a, b) && StringLess(b, a)) && !StringLess(a, a)
    decreases |a|
  {
    if a != [] {
      StringLessTotal(a[1..], a[1..]);
      if b != [] {
        StringLessTotal(a[1..], b[1..]);
        assert a == [a[0]] + a[1..] && b == [b[0]] + b[1..];
      }
    }
  }

  lemma {:induction false} StringLessTransitive(a: string, b: string, c: string)
    requires StringLess(a, b) && StringLess(b, c)
    ensures StringLess(a, c)
    decreases |a|
  {
    if a != [] && a[0] == b[0] == c[0] { StringLessTransitive(a[1..], b[1..], c[1..]); }
  }

  predicate Before(key: string -> int, a: string, b: string) {
    key(a) < key(b) || (key(a) == key(b) && StringLess(a, b))
  }

  ghost predicate Sorted(key: string -> int, s: seq<string>) {
    forall i, j :: 0 <= i < j < |s| ==> Before(key, s[i], s[j])
  }

  predicate IsFirst(key: string -> int, ids: set<string>, x: string) {
    x in ids && forall y :: y in ids && y != x ==> Before(key, x, y)
  }

  lemma {:induction false} FirstExists(key: string -> int, ids: set<string>)
    requires ids != {}
    ensures exists x :: IsFirst(key, ids, x)
    decreases |ids|
  {
    var y :| y in ids;
    if ids == {y} {
      assert IsFirst(key, ids, y);
    } else {
      FirstExists(key, ids - {y});
      var z :| IsFirst(key, ids - {y}, z);
      StringLessTotal(y, z);
      if Before(key, z, y) {
        assert IsFirst(key, ids, z);
      } else {
        forall w | w in ids && w != y
          ensures Before(key, y, w)
        {
          assert Before(key, y, z);
          if w != z {
            assert w in ids - {y} && Before(key, z, w);
            if key(y) == key(w) { StringLessTransitive(y, z, w); }
          }
        }
        assert IsFirst(key, ids, y);
      }
    }
  }

  lemma FirstUnique(key: string -> int, ids: set<string>, x: string, y: string)
    requires IsFirst(key, ids, x) && IsFirst(key, ids, y)
    ensures x == y
  {
    StringLessTotal(x, y);
  }

  /** s lists the ids in order, each once. */
  ghost predicate Lists(key: string -> int, ids: set<string>, s: seq<string>) {
    |s| == |ids| && (forall x :: x in s <==> x in ids) && Sorted(key, s)
  }

  lemma {:induction false} ListingExists(key: string -> int, ids: set<string>)
    ensures exists s :: Lists(key, ids, s)
    decreases |ids|
  {
    if ids == {} {
      assert Lists(key, ids, []);
    } else {
      FirstExists(key, ids);
      var x :| IsFirst(key, ids, x);
      ListingExists(key, ids - {x});
      var rest :| Lists(key, ids - {x}, rest);
      assert forall y :: y in rest ==> y in ids && y != x;
      assert Lists(key, ids, [x] + rest);
    }
  }

  /** The ids in listing order. */
  ghost function Listed(key: string -> int, ids: set<string>): (s: seq<string>)
    ensures Lists(key, ids, s)
  {
    ListingExists(key, ids);
    var s :| Lists(key, ids, s);
    s
  }

  lemma FirstOfSorted(key: string -> int, s: seq<string>, ids: set<string>)
    requires s != [] && Sorted(key, s) && forall x :: x in s <==> x in ids
    ensures IsFirst(key, ids, s[0])
    ensures forall x :: x in s[1..] <==> x in ids - {s[0]}
  {
    forall y | y in ids && y != s[0]
      ensures Before(key, s[0], y)
    {
      var j :| 0 <= j < |s| && s[j] == y;
    }
    forall x
      ensures x in s[1..] <==> x in ids - {s[0]}
    {
      if x in s[1..] {
        var j :| 1 <= j < |s| && s[j] == x;
        StringLessTotal(s[0], s[0]);
      }
    }
  }

  lemma HeadIn(t: seq<string>)
    requires t != []
    ensures t[0] in t
  {
  }

  lemma {:induction false} SortedUnique(key: string -> int, s: seq<string>, t: seq<string>, ids: set<string>)
    requires Sorted(key, s) && forall x :: x in s <==> x in ids
    requires Sorted(key, t) && forall x :: x in t <==> x in ids
    ensures s == t
    decreases |s|
  {
    if s == [] {
      if t != [] { HeadIn(t); assert false; }
    } else {
      assert s[0] in t;
      FirstOfSorted(key, s, ids);
      FirstOfSorted(key, t, ids);
      FirstUnique(key, ids, s[0], t[0]);
      SortedUnique(key, s[1..], t[1..], ids - {s[0]});
      assert s == [s[0]] + s[1..] && t == [t[0]] + t[1..];
    }
  }

  /** A sorted listing is determined by its elements. */
  lemma ListedUnique(key: string -> int, s: seq<string>, ids: set<string>)
    requires Sorted(key, s) && forall x :: x in s <==> x in ids
    ensures s == Listed(key, ids)
  {
    SortedUnique(key, s, Listed(key, ids), ids);
  }

  /** Sorts the ids; the loop always takes out the first of those left. */
  method List(key: string -> int, ids: set<string>) returns (s: seq<string>)
    ensures s == Listed(key, ids)
  {
    var rest := ids;
    s := [];
    while rest != {}
      invariant rest <= ids
      invariant forall x :: x in s <==> x in ids - rest
      invariant Sorted(key, s)
      invariant forall x, y :: x in s && y in rest ==> Before(key, x, y)
      decreases |rest|
    {
      FirstExists(key, rest);
      var x :| x in rest && IsFirst(key, rest, x);
      s, rest := s + [x], rest - {x};
    }
    ListedUnique(key, s, ids);
  }
}
