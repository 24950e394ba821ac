// A JPA repository as the services see it: rows keyed by a generated id that
// starts at 1 and only grows, listed in ascending id order.
module Table {
  import opened Common

  /** The keys of `rows` in `1 .. bound - 1`, ascending. */
  function Keys<R>(rows: map<int, R>, bound: int): (ks: seq<int>)
    ensures forall i, j :: 0 <= i < j < |ks| ==> ks[i] < ks[j]
    ensures forall i :: 0 <= i < |ks| ==> ks[i] in rows && 1 <= ks[i] < bound
    ensures forall k :: k in rows && 1 <= k < bound ==> k in ks
    decreases bound
  {
    if bound <= 1 then []
    else Keys(rows, bound - 1) + (if bound - 1 in rows then [bound - 1] else [])
  }

  /** The keys of `rows` in `1 .. bound - 1` whose row satisfies `p`, ascending. */
  function KeysWhere<R>(rows: map<int, R>, bound: int, p: R -> bool): (ks: seq<int>)
    ensures forall i, j :: 0 <= i < j < |ks| ==> ks[i] < ks[j]
    ensures forall i :: 0 <= i < |ks| ==> ks[i] in rows && 1 <= ks[i] < bound && p(rows[ks[i]])
    ensures forall k :: k in rows && 1 <= k < bound && p(rows[k]) ==> k in ks
    decreases bound
  {
    if bound <= 1 then []
    else KeysWhere(rows, bound - 1, p) + (if bound - 1 in rows && p(rows[bound - 1]) then [bound - 1] else [])
  }

  /** The rows under the given keys, in that order. */
  function RowsAt<R>(rows: map<int, R>, ks: seq<int>): (s: seq<R>)
    requires forall i :: 0 <= i < |ks| ==> ks[i] in rows
  {
    seq(|ks|, i requires 0 <= i < |ks| => rows[ks[i]])
  }

  lemma RowsAtAppend<R>(rows: map<int, R>, a: seq<int>, b: seq<int>)
    requires forall i :: 0 <= i < |a| ==> a[i] in rows
    requires forall i :: 0 <= i < |b| ==> b[i] in rows
    ensures forall i :: 0 <= i < |a + b| ==> (a + b)[i] in rows
    ensures RowsAt(rows, a + b) == RowsAt(rows, a) + RowsAt(rows, b)
  {
    assert forall i :: 0 <= i < |a + b| ==> (a + b)[i] == if i < |a| then a[i] else b[i - |a|];
  }

  /** `findAll()`: the rows with keys in `1 .. bound - 1`; `ListingInKeyOrder`
      says each comes once, in ascending key order. */
  function Listing<R>(rows: map<int, R>, bound: int): (s: seq<R>)
    ensures forall x :: x in s ==> exists k :: k in rows && 1 <= k < bound && rows[k] == x
    ensures forall k :: k in rows && 1 <= k < bound ==> rows[k] in s
    ensures |s| <= if bound < 1 then 0 else bound - 1
    decreases bound
  {
    if bound <= 1 then []
    else
      var init := Listing(rows, bound - 1);
      var r := init + (if bound - 1 in rows then [rows[bound - 1]] else []);
      assert forall x :: x in r ==> x in init || (bound - 1 in rows && x == rows[bound - 1]);
      r
  }

  /** The listing is the row of each key in `1 .. bound - 1`, each key once and
      in ascending order. */
  lemma {:induction false} ListingInKeyOrder<R>(rows: map<int, R>, bound: int)
    ensures Listing(rows, bound) == RowsAt(rows, Keys(rows, bound))
    decreases bound
  {
    if bound > 1 {
      ListingInKeyOrder(rows, bound - 1);
      var lastKey := if bound - 1 in rows then [bound - 1] else [];
      RowsAtAppend(rows, Keys(rows, bound - 1), lastKey);
      assert RowsAt(rows, lastKey) == (if bound - 1 in rows then [rows[bound - 1]] else []);
    }
  }

  /** A filtered listing (`findAllBy...`) holds exactly the rows that satisfy
      the filter, each once, in ascending key order. */
  lemma {:induction false} ListingFilter<R>(rows: map<int, R>, bound: int, p: R -> bool)
    ensures Filter(Listing(rows, bound), p) == RowsAt(rows, KeysWhere(rows, bound, p))
    decreases bound
  {
    if bound > 1 {
      ListingFilter(rows, bound - 1, p);
      var init := Listing(rows, bound - 1);
      var last := if bound - 1 in rows then [rows[bound - 1]] else [];
      var ks := KeysWhere(rows, bound - 1, p);
      var lastKey := if bound - 1 in rows && p(rows[bound - 1]) then [bound - 1] else [];
      ListingStep(rows, bound);
      FilterAppend(init, last, p);
      FilterLast(rows, bound - 1, p);
      RowsAtAppend(rows, ks, lastKey);
      assert KeysWhere(rows, bound, p) == ks + lastKey;
      assert Filter(init, p) == RowsAt(rows, ks);
      assert Filter(last, p) == RowsAt(rows, lastKey);
    }
  }

  lemma ListingStep<R>(rows: map<int, R>, bound: int)
    requires bound > 1
    ensures Listing(rows, bound) == Listing(rows, bound - 1) + (if bound - 1 in rows then [rows[bound - 1]] else [])
  {
  }

  lemma FilterLast<R>(rows: map<int, R>, k: int, p: R -> bool)
    ensures Filter(if k in rows then [rows[k]] else [], p) == RowsAt(rows, if k in rows && p(rows[k]) then [k] else [])
  {
    if k in rows {
      assert [rows[k]][1..] == [];
    }
  }

  /** The key `save` writes: the entity's own id when a stored row has it (the
      entity is merged into that row), a newly generated one otherwise. */
  function SaveKey<R>(rows: map<int, R>, nextId: int, id: Option<int>): (k: int)
    ensures id.Some? && id.value in rows ==> k == id.value
    ensures !(id.Some? && id.value in rows) ==> k == nextId
  {
    if id.Some? && id.value in rows then id.value else nextId
  }
}
