// The total order behind every `sorted(...)` of the worker: strings compare by code
// point, and a sort key is a tuple of strings, padded with "" to four components.

module Ordering {

  predicate LexLt(a: string, b: string) {
    if b == [] then false
    else if a == [] then true
    else if a[0] != b[0] then a[0] < b[0]
    else LexLt(a[1..], b[1..])
  }

  lemma {:induction false} LexAsymmetric(a: string, b: string)
    ensures !(LexLt(a, b) && LexLt(b, a))
  {
    if a != [] && b != [] && a[0] == b[0] {
      LexAsymmetric(a[1..], b[1..]);
    }
  }

  lemma {:induction false} LexTotal(a: string, b: string)
    ensures a == b || LexLt(a, b) || LexLt(b, a)
  {
    if a != [] && b != [] && a[0] == b[0] {
      LexTotal(a[1..], b[1..]);
      assert a == [a[0]] + a[1..] && b == [b[0]] + b[1..];
    }
  }

  lemma {:induction false} LexTransitive(a: string, b: string, c: string)
    requires LexLt(a, b) && LexLt(b, c)
    ensures LexLt(a, c)
  {
    if a != [] && a[0] == b[0] == c[0] {
      LexTransitive(a[1..], b[1..], c[1..]);
    }
  }

  /** A sort key: Python compares tuples component by component. */
  datatype Key = Key(a: string, b: string, c: string, d: string)

  predicate KeyLt(k: Key, l: Key) {
    || LexLt(k.a, l.a)
    || (k.a == l.a && LexLt(k.b, l.b))
    || (k.a == l.a && k.b == l.b && LexLt(k.c, l.c))
    || (k.a == l.a && k.b == l.b && k.c == l.c && LexLt(k.d, l.d))
  }

  lemma KeyAsymmetric(k: Key, l: Key)
    ensures !(KeyLt(k, l) && KeyLt(l, k))
  {
    LexAsymmetric(k.a, l.a);
    LexAsymmetric(k.b, l.b);
    LexAsymmetric(k.c, l.c);
    LexAsymmetric(k.d, l.d);
    LexAsymmetric(k.a, k.a);
    LexAsymmetric(k.b, k.b);
    LexAsymmetric(k.c, k.c);
  }

  lemma KeyTotal(k: Key, l: Key)
    ensures k == l || KeyLt(k, l) || KeyLt(l, k)
  {
    LexTotal(k.a, l.a);
    LexTotal(k.b, l.b);
    LexTotal(k.c, l.c);
    LexTotal(k.d, l.d);
  }

  lemma KeyTransitive(k: Key, l: Key, m: Key)
    requires KeyLt(k, l) && KeyLt(l, m)
    ensures KeyLt(k, m)
  {
    if LexLt(k.a, l.a) && LexLt(l.a, m.a) {
      LexTransitive(k.a, l.a, m.a);
    }
    if LexLt(k.b, l.b) && LexLt(l.b, m.b) {
      LexTransitive(k.b, l.b, m.b);
    }
    if LexLt(k.c, l.c) && LexLt(l.c, m.c) {
      LexTransitive(k.c, l.c, m.c);
    }
    if LexLt(k.d, l.d) && LexLt(l.d, m.d) {
      LexTransitive(k.d, l.d, m.d);
    }
  }

  ghost predicate Injective<T(!new)>(s: set<T>, key: T -> Key) {
    forall x, y | x in s && y in s && key(x) == key(y) :: x == y
  }

  function StringKey(s: string): Key {
    Key(s, "", "", "")
  }

  lemma StringKeysInjective(ss: set<string>)
    ensures Injective(ss, StringKey)
  {}

  ghost predicate Ascending<T(!new)>(xs: seq<T>, key: T -> Key) {
    forall i, j | 0 <= i < j < |xs| :: KeyLt(key(xs[i]), key(xs[j]))
  }

  /** `xs` enumerates `s` in strictly ascending key order. */
  ghost predicate Listing<T(!new)>(xs: seq<T>, s: set<T>, key: T -> Key) {
    && Ascending(xs, key)
    && (forall x :: x in xs <==> x in s)
  }

  lemma ListingTail<T(!new)>(xs: seq<T>, s: set<T>, key: T -> Key)
    requires Listing(xs, s, key) && xs != []
    ensures xs[0] in s && Listing(xs[1..], s - {xs[0]}, key)
  {
    KeyAsymmetric(key(xs[0]), key(xs[0]));
    assert xs == [xs[0]] + xs[1..];
    assert Ascending(xs[1..], key);
    forall x ensures x in xs[1..] <==> x in s - {xs[0]} {
      if x in xs[1..] {
        var i :| 0 <= i < |xs[1..]| && xs[1..][i] == x;
        assert xs[i + 1] == x && KeyLt(key(xs[0]), key(xs[i + 1]));
      }
    }
  }

  lemma ListingHead<T(!new)>(xs: seq<T>, ys: seq<T>, s: set<T>, key: T -> Key)
    requires Listing(xs, s, key) && Listing(ys, s, key)
    ensures xs == [] <==> ys == []
    ensures xs != [] ==> xs[0] == ys[0]
  {
    if xs != [] {
      assert xs[0] in ys;
    }
    if ys != [] {
      assert ys[0] in xs;
    }
    if xs != [] && ys != [] {
      KeyAsymmetric(key(xs[0]), key(ys[0]));
    }
  }

  lemma {:induction false} ListingUnique<T(!new)>(xs: seq<T>, ys: seq<T>, s: set<T>, key: T -> Key)
    requires Listing(xs, s, key) && Listing(ys, s, key)
    ensures xs == ys
    decreases |xs|
  {
    ListingHead(xs, ys, s, key);
    if xs != [] {
      ListingTail(xs, s, key);
      ListingTail(ys, s, key);
      ListingUnique(xs[1..], ys[1..], s - {xs[0]}, key);
      assert xs == [xs[0]] + xs[1..] && ys == [ys[0]] + ys[1..];
    }
  }

  /** Puts `x` in front of the first element that is not smaller, as a stable sort does. */
  function Insert<T(!new)>(x: T, ys: seq<T>, key: T -> Key): (r: seq<T>)
    ensures |r| == |ys| + 1
    ensures forall y :: y in r <==> y == x || y in ys
  {
    if ys == [] || !KeyLt(key(ys[0]), key(x)) then [x] + ys
    else
      assert ys == [ys[0]] + ys[1..];
      [ys[0]] + Insert(x, ys[1..], key)
  }

  lemma {:induction false} InsertAscending<T(!new)>(x: T, ys: seq<T>, key: T -> Key)
    requires Ascending(ys, key)
    requires forall y | y in ys :: key(y) != key(x)
    ensures Ascending(Insert(x, ys, key), key)
    decreases |ys|
  {
    var r := Insert(x, ys, key);
    if ys == [] {
    } else if !KeyLt(key(ys[0]), key(x)) {
      KeyTotal(key(ys[0]), key(x));
      forall i, j | 0 <= i < j < |r| ensures KeyLt(key(r[i]), key(r[j])) {
        if i == 0 && j > 1 {
          assert KeyLt(key(ys[0]), key(ys[j - 1]));
          KeyTransitive(key(x), key(ys[0]), key(ys[j - 1]));
        }
      }
    } else {
      var rest := Insert(x, ys[1..], key);
      InsertAscending(x, ys[1..], key);
      forall i, j | 0 <= i < j < |r| ensures KeyLt(key(r[i]), key(r[j])) {
        if i == 0 {
          assert r[j] == rest[j - 1] && rest[j - 1] in rest;
          if rest[j - 1] != x {
            var k :| 0 <= k < |ys[1..]| && ys[1..][k] == rest[j - 1];
            assert ys[k + 1] == r[j];
          }
        } else {
          assert r[i] == rest[i - 1] && r[j] == rest[j - 1];
        }
      }
    }
  }

  lemma InsertListing<T(!new)>(x: T, ys: seq<T>, s: set<T>, key: T -> Key)
    requires Listing(ys, s, key) && x !in s && Injective(s + {x}, key)
    ensures Listing(Insert(x, ys, key), s + {x}, key)
  {
    InsertAscending(x, ys, key);
  }

  lemma {:induction false} ListingExists<T(!new)>(s: set<T>, key: T -> Key)
    requires Injective(s, key)
    ensures exists xs :: Listing(xs, s, key)
    decreases |s|
  {
    if s == {} {
      assert Listing([], s, key);
    } else {
      var x :| x in s;
      ListingExists(s - {x}, key);
      var ys :| Listing(ys, s - {x}, key);
      InsertListing(x, ys, s - {x}, key);
      assert s == s - {x} + {x};
      assert Listing(Insert(x, ys, key), s, key);
    }
  }

  /** The one ascending enumeration of `s`: what `sorted` returns for its elements. */
  ghost function Ordered<T(!new)>(s: set<T>, key: T -> Key): (xs: seq<T>)
    requires Injective(s, key)
    ensures Listing(xs, s, key)
  {
    ListingExists(s, key);
    var xs :| Listing(xs, s, key);
    xs
  }

  /** Sorting a finite set, one insertion at a time. */
  method SortSet<T(==,!new)>(s: set<T>, key: T -> Key) returns (xs: seq<T>)
    requires Injective(s, key)
    ensures xs == Ordered(s, key)
  {
    xs := [];
    var todo, done := s, {};
    while todo != {}
      invariant todo + done == s && todo !! done
      invariant Listing(xs, done, key)
      decreases |todo|
    {
      var x :| x in todo;
      InsertListing(x, xs, done, key);
      xs := Insert(x, xs, key);
      todo, done := todo - {x}, done + {x};
    }
    assert done == s;
    ListingUnique(xs, Ordered(s, key), s, key);
  }
}
