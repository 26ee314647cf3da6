/** Facts about finite collections that the model needs: listings of a set in some
    iteration order, sorted listings, sums over a map, and the order on strings. */
module Collections {
  import opened Wrappers

  ghost predicate NoDuplicates<T>(s: seq<T>) {
    forall i, j :: 0 <= i < j < |s| ==> s[i] != s[j]
  }

  /** `order` visits every element of `s` exactly once: one possible iteration of a hash set. */
  ghost predicate Lists<T(!new)>(order: seq<T>, s: set<T>) {
    NoDuplicates(order) && (forall x :: x in order <==> x in s)
  }

  /** The listing recorded for `k`, if there is one. */
  ghost function Listing<K, V>(listings: map<K, seq<V>>, k: K): seq<V> {
    if k in listings then listings[k] else []
  }

  lemma ListsLength<T(!new)>(order: seq<T>, s: set<T>)
    requires Lists(order, s)
    ensures |order| == |s|
  {
    if order == [] {
      assert s == {};
    } else {
      var x := order[0];
      assert x in s;
      forall y ensures y in order[1..] <==> y in s - {x} {
        if y in order[1..] {
          var i :| 0 <= i < |order[1..]| && order[1..][i] == y;
          assert order[i + 1] == y && order[0] != order[i + 1];
        }
        if y in s - {x} {
          var i :| 0 <= i < |order| && order[i] == y;
          assert order[1..][i - 1] == y;
        }
      }
      ListsLength(order[1..], s - {x});
    }
  }

  lemma {:induction false} ListingExists<T(!new)>(s: set<T>)
    ensures exists order :: Lists(order, s)
    decreases |s|
  {
    if s == {} {
      assert Lists([], s);
    } else {
      var x :| x in s;
      ListingExists(s - {x});
      var rest :| Lists(rest, s - {x});
      ListsSnoc(rest, s - {x}, x);
      assert s - {x} + {x} == s;
    }
  }

  /** Every finite set can be listed. */
  ghost function AnyListing<T(!new)>(s: set<T>): (order: seq<T>)
    ensures Lists(order, s)
  {
    ListingExists(s);
    var order :| Lists(order, s);
    order
  }

  lemma ListsSnoc<T(!new)>(order: seq<T>, s: set<T>, x: T)
    requires Lists(order, s) && x !in s
    ensures Lists(order + [x], s + {x})
  {
  }

  // ---- sorted listings of client ids ----

  ghost predicate Ascending(s: seq<nat>) {
    forall i, j :: 0 <= i < j < |s| ==> s[i] < s[j]
  }

  lemma {:induction false} LeastExists(s: set<nat>)
    requires s != {}
    ensures exists m :: m in s && forall x :: x in s ==> m <= x
  {
    var y :| y in s;
    if s == {y} {
      assert forall x :: x in s ==> y <= x;
    } else {
      LeastExists(s - {y});
      var k :| k in s - {y} && forall x :: x in s - {y} ==> k <= x;
      var m := if y < k then y else k;
      forall x | x in s ensures m <= x {
        if x != y { assert x in s - {y}; }
      }
      assert m in s && forall x :: x in s ==> m <= x;
    }
  }

  ghost function Least(s: set<nat>): (m: nat)
    requires s != {}
    ensures m in s && forall x :: x in s ==> m <= x
  {
    LeastExists(s);
    var m :| m in s && forall x :: x in s ==> m <= x;
    m
  }

  ghost function SortedSeq(s: set<nat>): seq<nat> {
    if s == {} then [] else [Least(s)] + SortedSeq(s - {Least(s)})
  }

  lemma {:induction false} SortedSeqLists(s: set<nat>)
    ensures Lists(SortedSeq(s), s)
    ensures Ascending(SortedSeq(s))
  {
    if s != {} {
      var m := Least(s);
      var rest := SortedSeq(s - {m});
      SortedSeqLists(s - {m});
      assert SortedSeq(s) == [m] + rest;
      forall i | 0 <= i < |rest| ensures m < rest[i] {
        assert rest[i] in rest;
      }
    }
  }

  // ---- sums over the values of a map ----

  ghost function Sum<K(!new), V(!new)>(m: map<K, V>, f: V -> nat): nat
    decreases |m.Keys|
  {
    if m.Keys == {} then 0 else
      var k :| k in m.Keys;
      assert (m - {k}).Keys == m.Keys - {k};
      f(m[k]) + Sum(m - {k}, f)
  }

  lemma {:induction false} SumRemove<K(!new), V(!new)>(m: map<K, V>, f: V -> nat, k: K)
    requires k in m
    ensures Sum(m, f) == f(m[k]) + Sum(m - {k}, f)
    decreases |m.Keys|
  {
    var p :| p in m.Keys && Sum(m, f) == f(m[p]) + Sum(m - {p}, f);
    hide Sum;
    if p != k {
      assert (m - {p}).Keys == m.Keys - {p};
      assert (m - {k}).Keys == m.Keys - {k};
      SumRemove(m - {p}, f, k);
      SumRemove(m - {k}, f, p);
      assert m - {p} - {k} == m - {k} - {p};
    }
  }

  lemma {:induction false} SumZero<K(!new), V(!new)>(m: map<K, V>, f: V -> nat)
    requires forall k :: k in m ==> f(m[k]) == 0
    ensures Sum(m, f) == 0
    decreases |m.Keys|
  {
    if m.Keys != {} {
      var p :| p in m.Keys && Sum(m, f) == f(m[p]) + Sum(m - {p}, f);
      assert (m - {p}).Keys == m.Keys - {p};
      SumZero(m - {p}, f);
    }
  }

  ghost function ValueAt<K, V>(m: map<K, V>, f: V -> nat, k: K): nat {
    if k in m then f(m[k]) else 0
  }

  /** Sums agree when the summands do; an absent key counts nothing. */
  lemma {:induction false} SumPointwise<K(!new), V(!new)>(m: map<K, V>, m': map<K, V>, f: V -> nat)
    requires forall k :: ValueAt(m, f, k) == ValueAt(m', f, k)
    ensures Sum(m, f) == Sum(m', f)
    decreases |m.Keys|
  {
    if m.Keys == {} {
      forall k | k in m' ensures f(m'[k]) == 0 {
        assert ValueAt(m', f, k) == ValueAt(m, f, k);
      }
      SumZero(m', f);
    } else {
      var p :| p in m.Keys;
      SumRemove(m, f, p);
      assert ValueAt(m, f, p) == ValueAt(m', f, p);
      if p in m' { SumRemove(m', f, p); } else { assert m' - {p} == m'; }
      assert (m - {p}).Keys == m.Keys - {p};
      forall k ensures ValueAt(m - {p}, f, k) == ValueAt(m' - {p}, f, k) {
        assert ValueAt(m, f, k) == ValueAt(m', f, k);
      }
      SumPointwise(m - {p}, m' - {p}, f);
    }
  }

  /** A sum does not grow when no summand does, and shrinks when one does. */
  lemma {:induction false} SumShrinks<K(!new), V(!new)>(m: map<K, V>, m': map<K, V>, f: V -> nat)
    requires forall k :: ValueAt(m', f, k) <= ValueAt(m, f, k)
    ensures Sum(m', f) <= Sum(m, f)
    ensures (exists k :: ValueAt(m', f, k) < ValueAt(m, f, k)) ==> Sum(m', f) < Sum(m, f)
    decreases |m.Keys|
  {
    if m.Keys == {} {
      forall k | k in m' ensures f(m'[k]) == 0 {
        assert ValueAt(m', f, k) <= ValueAt(m, f, k);
      }
      SumZero(m', f);
    } else {
      var p :| p in m.Keys;
      SumRemove(m, f, p);
      assert ValueAt(m', f, p) <= ValueAt(m, f, p);
      if p in m' { SumRemove(m', f, p); } else { assert m' - {p} == m'; }
      assert (m - {p}).Keys == m.Keys - {p};
      forall k ensures ValueAt(m' - {p}, f, k) <= ValueAt(m - {p}, f, k) {
        assert ValueAt(m', f, k) <= ValueAt(m, f, k);
      }
      SumShrinks(m - {p}, m' - {p}, f);
      if exists k :: ValueAt(m', f, k) < ValueAt(m, f, k) {
        var k :| ValueAt(m', f, k) < ValueAt(m, f, k);
        if k != p { assert ValueAt(m' - {p}, f, k) < ValueAt(m - {p}, f, k); }
      }
    }
  }

  // ---- the order of instance identifiers ----

  /** Strict lexicographic order on strings. */
  predicate Before(a: string, b: string) {
    b != [] && (a == [] || a[0] < b[0] || (a[0] == b[0] && Before(a[1..], b[1..])))
  }

  lemma {:induction false} BeforeTotal(a: string, b: string)
    ensures a == b || Before(a, b) || Before(b, a)
    ensures !(Before(a, b) && Before(b, a))
    ensures a == b ==> !Before(a, b)
  {
    if a != [] && b != [] && a[0] == b[0] {
      BeforeTotal(a[1..], b[1..]);
      if a[1..] == b[1..] {
        assert a == [a[0]] + a[1..] && b == [b[0]] + b[1..];
      }
    }
  }

  lemma {:induction false} BeforeTransitive(a: string, b: string, c: string)
    requires Before(a, b) && Before(b, c)
    ensures Before(a, c)
  {
    if a != [] && a[0] == b[0] && b[0] == c[0] {
      BeforeTransitive(a[1..], b[1..], c[1..]);
    }
  }
}
