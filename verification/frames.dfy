/**
 * Tables as pandas holds them before any schema is applied (a list of column labels and
 * rows of cells), and pandas' outer merge on a key column, which pairs every left row with
 * every right row of the same key and keeps unmatched rows of either side with the other
 * side missing.
 */
module Frames {
  import opened Wrappers
  import opened Cells

  /** A table as read from a file: column labels in file order and rows of cells. */
  datatype Frame = Frame(columns: seq<string>, rows: seq<seq<Cell>>)

  /** The cell of `row` in column `j`; a short row reads as empty, as pandas pads it with NaN. */
  function CellAt(row: seq<Cell>, j: nat): Cell {
    if j < |row| then row[j] else Blank
  }

  /** The first position of `x` in `xs`. */
  function IndexOf(xs: seq<string>, x: string): (r: Option<nat>)
    ensures r.Some? <==> x in xs
    ensures r.Some? ==> r.value < |xs| && xs[r.value] == x && x !in xs[..r.value]
  {
    if xs == [] then None
    else if xs[0] == x then Some(0)
    else
      var rest := IndexOf(xs[1..], x);
      assert forall y :: y in xs[1..] ==> y in xs;
      if rest.Some? then (assert xs[..rest.value + 1] == [xs[0]] + xs[1..][..rest.value]; Some(rest.value + 1))
      else (assert forall y :: y in xs ==> y == xs[0] || y in xs[1..]; None)
  }

  // ---------------------------------------------------------------------------
  // Keys
  // ---------------------------------------------------------------------------

  /** The keys that occur in `rows`. */
  function KeySet<T(==)>(rows: seq<T>, key: T -> Cell): set<Cell> {
    set r | r in rows :: key(r)
  }

  /** No two rows share a key. */
  predicate UniqueKeys<T(==)>(rows: seq<T>, key: T -> Cell) {
    forall i, j :: 0 <= i < j < |rows| ==> key(rows[i]) != key(rows[j])
  }

  /** The rows whose key is `k`, in table order. */
  function Matching<T(==)>(rows: seq<T>, key: T -> Cell, k: Cell): (r: seq<T>)
    ensures forall x :: x in r ==> x in rows && key(x) == k
    ensures forall x :: x in rows && key(x) == k ==> x in r
    ensures |r| <= |rows|
  {
    if rows == [] then []
    else (if key(rows[0]) == k then [rows[0]] else []) + Matching(rows[1..], key, k)
  }

  /** The first row whose key is `k`. */
  function Lookup<T(==)>(rows: seq<T>, key: T -> Cell, k: Cell): (r: Option<T>)
    ensures r.Some? <==> k in KeySet(rows, key)
    ensures r.Some? ==> r.value in rows && key(r.value) == k
  {
    if rows == [] then None
    else if key(rows[0]) == k then Some(rows[0])
    else
      var rest := Lookup(rows[1..], key, k);
      assert forall x :: x in rows[1..] ==> x in rows;
      assert forall x :: x in rows ==> x == rows[0] || x in rows[1..];
      rest
  }

  /** The row found is the first one in table order with the key, as `.iloc[0]` of a selection reads. */
  lemma {:induction false} LookupFirst<T>(rows: seq<T>, key: T -> Cell, k: Cell)
    requires k in KeySet(rows, key)
    ensures exists i ::
      0 <= i < |rows| && rows[i] == Lookup(rows, key, k).value && forall j :: 0 <= j < i ==> key(rows[j]) != k
  {
    if key(rows[0]) != k {
      assert k in KeySet(rows[1..], key) by {
        assert Lookup(rows[1..], key, k) == Lookup(rows, key, k);
      }
      LookupFirst(rows[1..], key, k);
      var i' :| 0 <= i' < |rows[1..]| && rows[1..][i'] == Lookup(rows, key, k).value &&
        forall j :: 0 <= j < i' ==> key(rows[1..][j]) != k;
      assert rows[i' + 1] == Lookup(rows, key, k).value;
      forall j | 0 <= j < i' + 1 ensures key(rows[j]) != k {
        if j > 0 {
          assert rows[j] == rows[1..][j - 1];
        }
      }
    }
  }

  lemma {:induction false} LookupUnique<T>(rows: seq<T>, key: T -> Cell, x: T)
    requires UniqueKeys(rows, key) && x in rows
    ensures Lookup(rows, key, key(x)) == Some(x)
  {
    if rows[0] != x {
      assert x in rows[1..];
      assert UniqueKeys(rows[1..], key);
      LookupUnique(rows[1..], key, x);
      var i :| 0 <= i < |rows| && rows[i] == x;
      assert key(rows[0]) != key(rows[i]);
    }
  }

  lemma {:induction false} MatchingUnique<T>(rows: seq<T>, key: T -> Cell, k: Cell)
    requires UniqueKeys(rows, key)
    ensures Matching(rows, key, k) == if k in KeySet(rows, key) then [Lookup(rows, key, k).value] else []
  {
    if rows != [] {
      assert UniqueKeys(rows[1..], key);
      MatchingUnique(rows[1..], key, k);
      if key(rows[0]) == k {
        assert k !in KeySet(rows[1..], key) by {
          forall x | x in rows[1..] ensures key(x) != k {
            var i :| 0 <= i < |rows[1..]| && rows[1..][i] == x;
            assert key(rows[0]) != key(rows[i + 1]);
          }
        }
      } else {
        assert (k in KeySet(rows, key)) == (k in KeySet(rows[1..], key)) by {
          assert forall x :: x in rows ==> x == rows[0] || x in rows[1..];
          assert forall x :: x in rows[1..] ==> x in rows;
        }
      }
    }
  }

  // ---------------------------------------------------------------------------
  // Outer merge
  // ---------------------------------------------------------------------------

  /** One row of a merged table: the key and, for each side, the row it came from (None: NaN). */
  datatype Joined<T> = Joined(key: Cell, left: Option<T>, right: Option<T>)

  function JoinedKeys<T(==)>(rows: seq<Joined<T>>): set<Cell> {
    set p | p in rows :: p.key
  }

  predicate DistinctJoinedKeys<T(==)>(rows: seq<Joined<T>>) {
    forall i, j :: 0 <= i < j < |rows| ==> rows[i].key != rows[j].key
  }

  /** One left row paired with each right row of its key, or with nothing. */
  function PairUp<T(==)>(l: T, matches: seq<T>, key: T -> Cell): seq<Joined<T>> {
    if matches == [] then [Joined(key(l), Some(l), None)]
    else seq(|matches|, i requires 0 <= i < |matches| => Joined(key(l), Some(l), Some(matches[i])))
  }

  function LeftRows<T(==)>(left: seq<T>, right: seq<T>, key: T -> Cell): seq<Joined<T>> {
    if left == [] then []
    else PairUp(left[0], Matching(right, key, key(left[0])), key) + LeftRows(left[1..], right, key)
  }

  function RightOnly<T(==)>(left: seq<T>, right: seq<T>, key: T -> Cell): seq<Joined<T>> {
    if right == [] then []
    else
      (if key(right[0]) in KeySet(left, key) then [] else [Joined(key(right[0]), None, Some(right[0]))])
      + RightOnly(left, right[1..], key)
  }

  /** `pd.merge(left, right, on=key, how='outer')`, row order aside. */
  function OuterJoin<T(==)>(left: seq<T>, right: seq<T>, key: T -> Cell): seq<Joined<T>> {
    LeftRows(left, right, key) + RightOnly(left, right, key)
  }

  lemma {:induction false} LeftRowsSound<T>(left: seq<T>, right: seq<T>, key: T -> Cell)
    ensures forall p :: p in LeftRows(left, right, key) ==>
      p.left.Some? && p.left.value in left && key(p.left.value) == p.key &&
      (p.right.Some? ==> p.right.value in right && key(p.right.value) == p.key)
    ensures forall l :: l in left ==> exists p :: p in LeftRows(left, right, key) && p.left == Some(l)
    ensures forall r :: r in right && key(r) in KeySet(left, key) ==>
      exists p :: p in LeftRows(left, right, key) && p.right == Some(r)
  {
    if left != [] {
      LeftRowsSound(left[1..], right, key);
      var l := left[0];
      var ms := Matching(right, key, key(l));
      var head := PairUp(l, ms, key);
      var all := LeftRows(left, right, key);
      assert all == head + LeftRows(left[1..], right, key);
      assert forall p :: p in head ==>
        p.left == Some(l) && p.key == key(l) && (p.right.Some? ==> p.right.value in ms);
      assert head[0] in all;
      forall x | x in left ensures exists p :: p in all && p.left == Some(x) {
        if x == l {
          assert head[0].left == Some(l);
        } else {
          assert x in left[1..];
        }
      }
      forall r | r in right && key(r) in KeySet(left, key)
        ensures exists p :: p in all && p.right == Some(r)
      {
        if key(r) == key(l) {
          assert r in ms;
          var i :| 0 <= i < |ms| && ms[i] == r;
          assert head[i] in all;
        } else {
          var x :| x in left && key(x) == key(r);
          assert x in left[1..];
          assert key(r) in KeySet(left[1..], key);
        }
      }
    }
  }

  lemma {:induction false} RightOnlySound<T>(left: seq<T>, right: seq<T>, key: T -> Cell)
    ensures forall p :: p in RightOnly(left, right, key) ==>
      p.left.None? && p.right.Some? && p.right.value in right && key(p.right.value) == p.key &&
      p.key !in KeySet(left, key)
    ensures forall r :: r in right && key(r) !in KeySet(left, key) ==>
      Joined(key(r), None, Some(r)) in RightOnly(left, right, key)
  {
    if right != [] {
      RightOnlySound(left, right[1..], key);
      forall r | r in right && key(r) !in KeySet(left, key)
        ensures Joined(key(r), None, Some(r)) in RightOnly(left, right, key)
      {
        if r != right[0] {
          assert r in right[1..];
        }
      }
    }
  }

  /** Every merged row comes from rows of the inputs with its key, and every input row is used. */
  lemma OuterJoinSound<T>(left: seq<T>, right: seq<T>, key: T -> Cell)
    ensures forall p :: p in OuterJoin(left, right, key) ==>
      (p.left.Some? || p.right.Some?) &&
      (p.left.Some? ==> p.left.value in left && key(p.left.value) == p.key) &&
      (p.right.Some? ==> p.right.value in right && key(p.right.value) == p.key)
    ensures forall l :: l in left ==> exists p :: p in OuterJoin(left, right, key) && p.left == Some(l)
    ensures forall r :: r in right ==> exists p :: p in OuterJoin(left, right, key) && p.right == Some(r)
  {
    var j := OuterJoin(left, right, key);
    LeftRowsSound(left, right, key);
    RightOnlySound(left, right, key);
    assert forall p :: p in j ==> p in LeftRows(left, right, key) || p in RightOnly(left, right, key);
    forall r | r in right ensures exists p :: p in j && p.right == Some(r) {
      if key(r) in KeySet(left, key) {
        var p :| p in LeftRows(left, right, key) && p.right == Some(r);
        assert p in j;
      } else {
        assert Joined(key(r), None, Some(r)) in j;
      }
    }
    forall l | l in left ensures exists p :: p in j && p.left == Some(l) {
      var p :| p in LeftRows(left, right, key) && p.left == Some(l);
      assert p in j;
    }
  }

  lemma {:induction false} LeftRowsUnique<T>(left: seq<T>, right: seq<T>, key: T -> Cell)
    requires UniqueKeys(right, key)
    ensures |LeftRows(left, right, key)| == |left|
    ensures forall i :: 0 <= i < |left| ==>
      LeftRows(left, right, key)[i] == Joined(key(left[i]), Some(left[i]), Lookup(right, key, key(left[i])))
  {
    if left != [] {
      LeftRowsUnique(left[1..], right, key);
      MatchingUnique(right, key, key(left[0]));
    }
  }

  lemma {:induction false} RightOnlyKeys<T>(left: seq<T>, right: seq<T>, key: T -> Cell)
    ensures JoinedKeys(RightOnly(left, right, key)) == KeySet(right, key) - KeySet(left, key)
  {
    var ro := RightOnly(left, right, key);
    if right != [] {
      var tail := RightOnly(left, right[1..], key);
      RightOnlyKeys(left, right[1..], key);
      assert KeySet(right, key) == {key(right[0])} + KeySet(right[1..], key) by {
        assert forall x :: x in right ==> x == right[0] || x in right[1..];
        assert forall x :: x in right[1..] ==> x in right;
      }
      if key(right[0]) !in KeySet(left, key) {
        assert ro == [Joined(key(right[0]), None, Some(right[0]))] + tail;
        assert JoinedKeys(ro) == {key(right[0])} + JoinedKeys(tail) by {
          assert forall p :: p in ro ==> p == ro[0] || p in tail;
          assert forall p :: p in tail ==> p in ro;
        }
      } else {
        assert ro == tail;
      }
    }
  }

  lemma {:induction false} RightOnlyDistinct<T>(left: seq<T>, right: seq<T>, key: T -> Cell)
    requires UniqueKeys(right, key)
    ensures DistinctJoinedKeys(RightOnly(left, right, key))
  {
    var ro := RightOnly(left, right, key);
    if right != [] {
      var tail := RightOnly(left, right[1..], key);
      assert UniqueKeys(right[1..], key);
      RightOnlyDistinct(left, right[1..], key);
      RightOnlySound(left, right[1..], key);
      if key(right[0]) !in KeySet(left, key) {
        assert ro == [Joined(key(right[0]), None, Some(right[0]))] + tail;
        forall i, j | 0 <= i < j < |ro| ensures ro[i].key != ro[j].key {
          if i == 0 {
            var p := tail[j - 1];
            assert ro[j] == p && p in tail;
            var m :| 0 <= m < |right[1..]| && right[1..][m] == p.right.value;
            assert key(right[0]) != key(right[m + 1]);
          } else {
            assert ro[i] == tail[i - 1] && ro[j] == tail[j - 1];
          }
        }
      } else {
        assert ro == tail;
      }
    }
  }

  /**
   * On inputs with unique keys, the merged table has exactly one row per key of either side,
   * and that row holds, on each side, the row with its key or nothing.
   */
  lemma OuterJoinUnique<T>(left: seq<T>, right: seq<T>, key: T -> Cell)
    requires UniqueKeys(left, key) && UniqueKeys(right, key)
    ensures DistinctJoinedKeys(OuterJoin(left, right, key))
    ensures JoinedKeys(OuterJoin(left, right, key)) == KeySet(left, key) + KeySet(right, key)
    ensures forall p :: p in OuterJoin(left, right, key) ==>
      p.left == Lookup(left, key, p.key) && p.right == Lookup(right, key, p.key)
  {
    OuterJoinDistinct(left, right, key);
    OuterJoinKeys(left, right, key);
    OuterJoinLookups(left, right, key);
  }

  /** The left rows carry the left keys, one per row, in order. */
  lemma LeftRowKeys<T>(left: seq<T>, right: seq<T>, key: T -> Cell)
    requires UniqueKeys(right, key)
    ensures |LeftRows(left, right, key)| == |left|
    ensures forall i :: 0 <= i < |left| ==> LeftRows(left, right, key)[i].key == key(left[i])
    ensures JoinedKeys(LeftRows(left, right, key)) == KeySet(left, key)
  {
    var lr := LeftRows(left, right, key);
    LeftRowsUnique(left, right, key);
    forall k | k in KeySet(left, key) ensures k in JoinedKeys(lr) {
      var x :| x in left && key(x) == k;
      var i :| 0 <= i < |left| && left[i] == x;
      assert lr[i] in lr;
    }
  }

  lemma OuterJoinDistinct<T>(left: seq<T>, right: seq<T>, key: T -> Cell)
    requires UniqueKeys(left, key) && UniqueKeys(right, key)
    ensures DistinctJoinedKeys(OuterJoin(left, right, key))
  {
    var lr := LeftRows(left, right, key);
    var ro := RightOnly(left, right, key);
    var j := OuterJoin(left, right, key);
    LeftRowKeys(left, right, key);
    RightOnlyDistinct(left, right, key);
    RightOnlySound(left, right, key);
    forall a, b | 0 <= a < b < |j| ensures j[a].key != j[b].key {
      if b < |lr| {
        assert j[a] == lr[a] && j[b] == lr[b];
      } else if a >= |lr| {
        assert j[a] == ro[a - |lr|] && j[b] == ro[b - |lr|];
      } else {
        assert j[a] == lr[a] && j[a].key in JoinedKeys(lr);
        assert j[b] == ro[b - |lr|] && j[b] in ro;
      }
    }
  }

  lemma OuterJoinKeys<T>(left: seq<T>, right: seq<T>, key: T -> Cell)
    requires UniqueKeys(right, key)
    ensures JoinedKeys(OuterJoin(left, right, key)) == KeySet(left, key) + KeySet(right, key)
  {
    var lr := LeftRows(left, right, key);
    var ro := RightOnly(left, right, key);
    var j := OuterJoin(left, right, key);
    LeftRowKeys(left, right, key);
    RightOnlyKeys(left, right, key);
    assert JoinedKeys(j) == JoinedKeys(lr) + JoinedKeys(ro) by {
      assert forall p :: p in j <==> p in lr || p in ro;
    }
  }

  /** With unique keys on both sides, each side of a joined row is that side's row for the key. */
  lemma OuterJoinLookups<T>(left: seq<T>, right: seq<T>, key: T -> Cell)
    requires UniqueKeys(left, key) && UniqueKeys(right, key)
    ensures forall p :: p in OuterJoin(left, right, key) ==>
      p.left == Lookup(left, key, p.key) && p.right == Lookup(right, key, p.key)
  {
    var lr := LeftRows(left, right, key);
    var ro := RightOnly(left, right, key);
    var j := OuterJoin(left, right, key);
    LeftRowsUnique(left, right, key);
    RightOnlySound(left, right, key);
    assert forall p :: p in j ==> p in lr || p in ro;
    forall p | p in j ensures p.left == Lookup(left, key, p.key) && p.right == Lookup(right, key, p.key) {
      if p in lr {
        var i :| 0 <= i < |lr| && lr[i] == p;
        LookupUnique(left, key, left[i]);
      } else {
        assert p in ro;
        LookupUnique(right, key, p.right.value);
      }
    }
  }
}
