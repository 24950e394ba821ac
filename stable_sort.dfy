// A stable insertion sort by a comparator, the way `Array.prototype.sort`
// orders a list when its comparator is consistent. `before(a, b)` says the
// comparator's answer for (a, b) is not positive, so `a` may stay in front of `b`.
module StableSort {
  import opened Common

  function Insert<T>(before: (T, T) -> bool, x: T, t: seq<T>): (r: seq<T>)
    ensures multiset(r) == multiset(t) + multiset{x}
  {
    if t == [] || before(x, t[0]) then [x] + t
    else
      assert t == [t[0]] + t[1..];
      [t[0]] + Insert(before, x, t[1..])
  }

  function Sort<T>(before: (T, T) -> bool, s: seq<T>): (r: seq<T>)
    ensures multiset(r) == multiset(s)
  {
    if s == [] then []
    else
      assert s == [s[0]] + s[1..];
      Insert(before, s[0], Sort(before, s[1..]))
  }

  predicate Sorted<T>(before: (T, T) -> bool, r: seq<T>)
  {
    forall i, j :: 0 <= i < j < |r| ==> before(r[i], r[j])
  }

  /** On the elements `ok` admits, the comparator is total and transitive. */
  ghost predicate PreorderOn<T(!new)>(before: (T, T) -> bool, ok: T -> bool)
  {
    (forall a, b :: ok(a) && ok(b) ==> before(a, b) || before(b, a))
    && (forall a, b, c :: ok(a) && ok(b) && ok(c) && before(a, b) && before(b, c) ==> before(a, c))
  }

  lemma ConsSorted<T>(before: (T, T) -> bool, h: T, t: seq<T>)
    requires Sorted(before, t) && forall j :: 0 <= j < |t| ==> before(h, t[j])
    ensures Sorted(before, [h] + t)
  {
    var r := [h] + t;
    forall i, j | 0 <= i < j < |r| ensures before(r[i], r[j]) {
      assert r[j] == t[j - 1];
      if i > 0 {
        assert r[i] == t[i - 1];
      }
    }
  }

  lemma {:induction false} InsertElements<T>(before: (T, T) -> bool, x: T, t: seq<T>)
    ensures forall j :: 0 <= j < |Insert(before, x, t)| ==> Insert(before, x, t)[j] == x || Insert(before, x, t)[j] in t
  {
    if t != [] && !before(x, t[0]) {
      InsertElements(before, x, t[1..]);
    }
  }

  lemma {:induction false} InsertSorted<T(!new)>(before: (T, T) -> bool, ok: T -> bool, x: T, t: seq<T>)
    requires PreorderOn(before, ok)
    requires ok(x) && forall j :: 0 <= j < |t| ==> ok(t[j])
    requires Sorted(before, t)
    ensures Sorted(before, Insert(before, x, t))
  {
    if t == [] || before(x, t[0]) {
      ConsSorted(before, x, t);
    } else {
      var tail := t[1..];
      assert forall j :: 0 <= j < |tail| ==> tail[j] == t[j + 1];
      var rest := Insert(before, x, tail);
      InsertSorted(before, ok, x, tail);
      InsertElements(before, x, tail);
      forall j | 0 <= j < |rest| ensures before(t[0], rest[j]) {
        if rest[j] != x {
          var k :| 0 <= k < |tail| && tail[k] == rest[j];
        }
      }
      ConsSorted(before, t[0], rest);
    }
  }

  /** With a consistent comparator the result is sorted (and, by `Sort`'s own
      contract, a permutation of the input). */
  lemma {:induction false} SortSorted<T(!new)>(before: (T, T) -> bool, ok: T -> bool, s: seq<T>)
    requires PreorderOn(before, ok)
    requires forall j :: 0 <= j < |s| ==> ok(s[j])
    ensures Sorted(before, Sort(before, s))
  {
    if s != [] {
      var tail := s[1..];
      assert forall j :: 0 <= j < |tail| ==> tail[j] == s[j + 1];
      SortSorted(before, ok, tail);
      var t := Sort(before, tail);
      forall j | 0 <= j < |t| ensures ok(t[j]) {
        assert t[j] in multiset(t);
        assert t[j] in multiset(tail);
        var k :| 0 <= k < |tail| && tail[k] == t[j];
      }
      InsertSorted(before, ok, s[0], t);
    }
  }

  /** A comparator that always answers 0 leaves the list as it is. */
  lemma {:induction false} AllEqualKeepsOrder<T>(before: (T, T) -> bool, s: seq<T>)
    requires forall a, b :: before(a, b)
    ensures Sort(before, s) == s
  {
    if s != [] {
      AllEqualKeepsOrder(before, s[1..]);
    }
  }

  /** The elements the comparator ties with `e`: it answers 0 both ways. */
  function TiedWith<T>(before: (T, T) -> bool, e: T): T -> bool
  {
    (x: T) => before(x, e) && before(e, x)
  }

  /** The comparator is transitive on the elements `ok` admits. */
  ghost predicate TransitiveOn<T(!new)>(before: (T, T) -> bool, ok: T -> bool)
  {
    forall a, b, c :: ok(a) && ok(b) && ok(c) && before(a, b) && before(b, c) ==> before(a, c)
  }

  /** Inserting an element outside a tie class leaves that class as it was. */
  lemma {:induction false} InsertKeepsOthers<T>(before: (T, T) -> bool, x: T, t: seq<T>, p: T -> bool)
    requires !p(x)
    ensures Filter(Insert(before, x, t), p) == Filter(t, p)
  {
    if t == [] || before(x, t[0]) {
      assert ([x] + t)[1..] == t;
    } else {
      var r := Insert(before, x, t[1..]);
      assert ([t[0]] + r)[1..] == r;
      InsertKeepsOthers(before, x, t[1..], p);
    }
  }

  /** Inserting an element of a tie class puts it in front of the elements of
      that class already there: insertion stops at the first element the new
      one may precede, and every tied element is one. */
  lemma {:induction false} InsertLeadsItsClass<T(!new)>(before: (T, T) -> bool, ok: T -> bool, e: T, x: T, t: seq<T>)
    requires TransitiveOn(before, ok)
    requires ok(e) && ok(x) && forall j :: 0 <= j < |t| ==> ok(t[j])
    requires TiedWith(before, e)(x)
    ensures Filter(Insert(before, x, t), TiedWith(before, e)) == [x] + Filter(t, TiedWith(before, e))
  {
    var p := TiedWith(before, e);
    if t == [] || before(x, t[0]) {
      assert ([x] + t)[1..] == t;
    } else {
      assert !p(t[0]);
      var tail := t[1..];
      assert forall j :: 0 <= j < |tail| ==> tail[j] == t[j + 1];
      var r := Insert(before, x, tail);
      assert ([t[0]] + r)[1..] == r;
      InsertLeadsItsClass(before, ok, e, x, tail);
    }
  }

  /** Stability: with a transitive comparator, the elements it ties with any
      given one come out of the sort in the order they went in. */
  lemma {:induction false} SortStable<T(!new)>(before: (T, T) -> bool, ok: T -> bool, e: T, s: seq<T>)
    requires TransitiveOn(before, ok)
    requires ok(e) && forall j :: 0 <= j < |s| ==> ok(s[j])
    ensures Filter(Sort(before, s), TiedWith(before, e)) == Filter(s, TiedWith(before, e))
  {
    if s != [] {
      var p := TiedWith(before, e);
      var tail := s[1..];
      assert forall j :: 0 <= j < |tail| ==> tail[j] == s[j + 1];
      SortStable(before, ok, e, tail);
      var t := Sort(before, tail);
      forall j | 0 <= j < |t| ensures ok(t[j]) {
        assert t[j] in multiset(t);
        assert t[j] in multiset(tail);
        var k :| 0 <= k < |tail| && tail[k] == t[j];
      }
      if p(s[0]) {
        InsertLeadsItsClass(before, ok, e, s[0], t);
      } else {
        InsertKeepsOthers(before, s[0], t, p);
      }
    }
  }
}
