/** Kuhn's augmenting-path matching (scenarios/fit.py).

  A table says which row may take which column. The search keeps, for every column, the row that
  holds it, and makes room for one row after another by moving rows along an augmenting path.
  When no path exists, the columns it visited are a proof that no one-to-one assignment exists:
  one more row than columns may only use those columns.
 */
module Matching {

  import opened Wrappers

  ghost predicate Square<T>(table: seq<seq<T>>) {
    forall r :: 0 <= r < |table| ==> |table[r]| == |table|
  }

  /** `a` gives every row a column of its own. */
  ghost predicate IsAssignment(size: nat, a: seq<nat>) {
    && |a| == size
    && (forall r :: 0 <= r < size ==> a[r] < size)
    && (forall r, s :: 0 <= r < s < size ==> a[r] != a[s])
  }

  ghost predicate Uses(allowed: seq<seq<bool>>, a: seq<nat>)
    requires Square(allowed) && IsAssignment(|allowed|, a)
  {
    forall r :: 0 <= r < |allowed| ==> allowed[r][a[r]]
  }

  ghost predicate Matches(allowed: seq<seq<bool>>, a: seq<nat>)
    requires Square(allowed)
  {
    IsAssignment(|allowed|, a) && Uses(allowed, a)
  }

  // ----- what the search keeps -----

  /** Every held column is held by a row that may take it. */
  ghost predicate Legal(allowed: seq<seq<bool>>, rowOf: seq<int>)
    requires Square(allowed)
  {
    && |rowOf| == |allowed|
    && forall c :: 0 <= c < |rowOf| && 0 <= rowOf[c] ==> rowOf[c] < |allowed| && allowed[rowOf[c]][c]
  }

  /** No row holds two columns outside `seen`. */
  ghost predicate HoldsOne(rowOf: seq<int>, seen: seq<bool>)
    requires |seen| == |rowOf|
  {
    forall c, d :: 0 <= c < d < |rowOf| && !seen[c] && !seen[d] && 0 <= rowOf[c] ==> rowOf[c] != rowOf[d]
  }

  ghost predicate HoldsAt(rowOf: seq<int>, seen: seq<bool>, row: int, c: int)
    requires |seen| == |rowOf|
  {
    0 <= c < |rowOf| && !seen[c] && rowOf[c] == row
  }

  /** `row` holds a column outside `seen`. */
  ghost predicate Holds(rowOf: seq<int>, seen: seq<bool>, row: int)
    requires |seen| == |rowOf|
  {
    exists c :: HoldsAt(rowOf, seen, row, c)
  }

  ghost predicate Grew(before: seq<bool>, after: seq<bool>) {
    |before| == |after| && forall c :: 0 <= c < |before| && before[c] ==> after[c]
  }

  /** Every column that `row` may take has been seen. */
  ghost predicate Exhausted(allowed: seq<seq<bool>>, row: int, seen: seq<bool>)
    requires Square(allowed) && |seen| == |allowed| && 0 <= row < |allowed|
  {
    forall c :: 0 <= c < |seen| && allowed[row][c] ==> seen[c]
  }

  /** Every column seen since `before` is held, and its row has nowhere else to go. */
  ghost predicate DeadEnds(allowed: seq<seq<bool>>, rowOf: seq<int>, before: seq<bool>, seen: seq<bool>)
    requires Square(allowed) && |before| == |seen| == |rowOf| == |allowed|
  {
    forall c :: 0 <= c < |seen| && seen[c] && !before[c] ==>
      0 <= rowOf[c] < |allowed| && Exhausted(allowed, rowOf[c], seen)
  }

  /** One more row now holds a column outside `seen`, and every row that did still does. */
  ghost predicate Added(before: seq<int>, after: seq<int>, seen: seq<bool>, row: int)
    requires |before| == |after| == |seen|
  {
    && HoldsOne(after, seen)
    && (forall r :: 0 <= r ==> (Holds(after, seen, r) <==> r == row || Holds(before, seen, r)))
    && (forall c :: 0 <= c < |seen| && seen[c] ==> after[c] == before[c])
  }

  ghost function Unseen(seen: seq<bool>): set<int> {
    set c | 0 <= c < |seen| && !seen[c]
  }

  /** Taking a free column adds `row`. */
  lemma TookFreeColumn(before: seq<int>, seen: seq<bool>, column: int, row: int)
    requires |before| == |seen| && 0 <= column < |seen| && !seen[column]
    requires HoldsOne(before, seen) && !Holds(before, seen, row) && 0 <= row && before[column] < 0
    ensures Added(before, before[column := row], seen, row)
  {
    var after := before[column := row];
    forall c | 0 <= c < |seen| && !seen[c] && c != column ensures after[c] != row {
      assert HoldsAt(before, seen, after[c], c);
    }
    assert HoldsAt(after, seen, row, column);
    forall r | 0 <= r && r != row
      ensures Holds(after, seen, r) <==> Holds(before, seen, r)
    {
      if Holds(before, seen, r) {
        var c :| HoldsAt(before, seen, r, c);
        assert HoldsAt(after, seen, r, c);
      }
      if Holds(after, seen, r) {
        var c :| HoldsAt(after, seen, r, c);
        assert HoldsAt(before, seen, r, c);
      }
    }
  }

  /** Moving the row that holds `column` elsewhere, then taking `column`, adds `row`. */
  lemma TookOverColumn(before: seq<int>, moved: seq<int>, first: seq<bool>, seen: seq<bool>, column: int, row: int)
    requires |before| == |moved| == |first| == |seen| && 0 <= column < |seen|
    requires Grew(first, seen) && seen[column] && !first[column]
    requires HoldsOne(before, first) && !Holds(before, first, row) && 0 <= row && 0 <= before[column]
    requires Added(before, moved, seen, before[column])
    ensures Added(before, moved[column := row], first, row)
  {
    var after := moved[column := row];
    forall c | 0 <= c < |seen| && !first[c] && c != column
      ensures after[c] != row
      ensures 0 <= after[c] ==> Holds(before, first, after[c])
    {
      OriginOf(before, moved, first, seen, column, c);
    }
    forall c, d | 0 <= c < d < |seen| && !first[c] && !first[d] && 0 <= after[c]
      ensures after[c] != after[d]
    {
      if c != column && d != column {
        StillApart(before, moved, first, seen, column, c, d);
      }
    }
    assert HoldsAt(after, first, row, column);
    forall r | 0 <= r && r != row
      ensures Holds(after, first, r) <==> Holds(before, first, r)
    {
      if Holds(before, first, r) {
        StillHeld(before, moved, first, seen, column, row, r);
      }
      if Holds(after, first, r) {
        var c :| HoldsAt(after, first, r, c);
        assert after[c] == r;
      }
    }
  }

  /** A row found outside `first` after the move held a column outside `first` before it. */
  lemma OriginOf(before: seq<int>, moved: seq<int>, first: seq<bool>, seen: seq<bool>, column: int, c: int)
    requires |before| == |moved| == |first| == |seen| && 0 <= column < |seen| && 0 <= c < |seen|
    requires Grew(first, seen) && !first[column] && !first[c] && 0 <= before[column]
    requires Added(before, moved, seen, before[column])
    ensures 0 <= moved[c] ==> Holds(before, first, moved[c])
  {
    if 0 <= moved[c] {
      if seen[c] {
        assert HoldsAt(before, first, moved[c], c);
      } else {
        assert HoldsAt(moved, seen, moved[c], c) && Holds(moved, seen, moved[c]);
        if moved[c] == before[column] {
          assert HoldsAt(before, first, moved[c], column);
        } else {
          var d :| HoldsAt(before, seen, moved[c], d);
          assert HoldsAt(before, first, moved[c], d);
        }
      }
    }
  }

  lemma StillApart(before: seq<int>, moved: seq<int>, first: seq<bool>, seen: seq<bool>, column: int, c: int, d: int)
    requires |before| == |moved| == |first| == |seen| && 0 <= column < |seen|
    requires 0 <= c < |seen| && 0 <= d < |seen| && c != d && c != column && d != column
    requires Grew(first, seen) && seen[column] && !first[column] && !first[c] && !first[d]
    requires HoldsOne(before, first) && 0 <= before[column] && 0 <= moved[c]
    requires Added(before, moved, seen, before[column])
    ensures moved[c] != moved[d]
  {
    if moved[c] == moved[d] {
      if seen[c] && !seen[d] {
        NotMovedOnto(before, moved, first, seen, column, c, d);
      } else if seen[d] && !seen[c] {
        NotMovedOnto(before, moved, first, seen, column, d, c);
      }
    }
  }

  /** A row that stayed on the seen column `c` is not found on the unseen column `d`. */
  lemma NotMovedOnto(before: seq<int>, moved: seq<int>, first: seq<bool>, seen: seq<bool>, column: int, c: int, d: int)
    requires |before| == |moved| == |first| == |seen| && 0 <= column < |seen|
    requires 0 <= c < |seen| && 0 <= d < |seen| && c != column
    requires Grew(first, seen) && seen[column] && !first[column]
    requires seen[c] && !first[c] && !seen[d] && 0 <= moved[c]
    requires HoldsOne(before, first) && 0 <= before[column]
    requires Added(before, moved, seen, before[column])
    ensures moved[c] != moved[d]
  {
    if moved[c] == moved[d] {
      assert HoldsAt(moved, seen, moved[d], d) && Holds(moved, seen, moved[d]);
      assert moved[d] == before[c] && moved[d] != before[column];
      var e :| HoldsAt(before, seen, moved[d], e);
      assert false;
    }
  }

  lemma StillHeld(before: seq<int>, moved: seq<int>, first: seq<bool>, seen: seq<bool>, column: int, row: int, r: int)
    requires |before| == |moved| == |first| == |seen| && 0 <= column < |seen| && 0 <= r
    requires Grew(first, seen) && seen[column] && !first[column] && 0 <= before[column]
    requires Holds(before, first, r)
    requires Added(before, moved, seen, before[column])
    ensures Holds(moved[column := row], first, r)
  {
    var after := moved[column := row];
    var c :| HoldsAt(before, first, r, c);
    if c == column || !seen[c] {
      if c != column {
        assert HoldsAt(before, seen, r, c);
      }
      assert Holds(moved, seen, r);
      var d :| HoldsAt(moved, seen, r, d);
      assert HoldsAt(after, first, r, d);
    } else {
      assert HoldsAt(after, first, r, c);
    }
  }

  /** Finds `row` a column, moving other rows if it must; `seen` keeps it from looking twice. */
  method Augment(allowed: seq<seq<bool>>, rowOf: array<int>, seen: array<bool>, row: nat) returns (found: bool)
    requires Square(allowed) && row < |allowed|
    requires rowOf.Length == seen.Length == |allowed|
    requires Legal(allowed, rowOf[..]) && HoldsOne(rowOf[..], seen[..])
    requires !Holds(rowOf[..], seen[..], row)
    modifies rowOf, seen
    ensures Legal(allowed, rowOf[..]) && Grew(old(seen[..]), seen[..])
    ensures found ==> Added(old(rowOf[..]), rowOf[..], old(seen[..]), row)
    ensures !found ==>
      && rowOf[..] == old(rowOf[..])
      && Exhausted(allowed, row, seen[..])
      && DeadEnds(allowed, rowOf[..], old(seen[..]), seen[..])
    decreases Unseen(seen[..])
  {
    ghost var before, first := rowOf[..], seen[..];
    var column := 0;
    while column < |allowed|
      invariant 0 <= column <= |allowed|
      invariant rowOf[..] == before
      invariant Grew(first, seen[..])
      invariant forall c :: 0 <= c < column && allowed[row][c] ==> seen[c]
      invariant DeadEnds(allowed, before, first, seen[..])
    {
      if allowed[row][column] && !seen[column] {
        ghost var at := seen[..];
        seen[column] := true;
        assert Unseen(seen[..]) < Unseen(first) by {
          assert column in Unseen(first) && column !in Unseen(seen[..]);
        }
        if rowOf[column] < 0 {
          rowOf[column] := row;
          TookFreeColumn(before, first, column, row);
          assert rowOf[..] == before[column := row];
          return true;
        }
        ghost var displaced := rowOf[column];
        ghost var started := seen[..];
        MaySearch(before, first, started, column);
        found := Augment(allowed, rowOf, seen, rowOf[column]);
        if found {
          ghost var moved := rowOf[..];
          rowOf[column] := row;
          TookOverColumn(before, moved, first, started, column, row);
          assert rowOf[..] == moved[column := row];
          return true;
        }
        StillDeadEnds(allowed, before, first, at, seen[..], column);
      }
      column := column + 1;
    }
    return false;
  }

  lemma MaySearch(rowOf: seq<int>, first: seq<bool>, seen: seq<bool>, column: int)
    requires |rowOf| == |first| == |seen| && 0 <= column < |seen|
    requires Grew(first, seen) && !first[column] && seen[column]
    requires HoldsOne(rowOf, first) && 0 <= rowOf[column]
    ensures HoldsOne(rowOf, seen) && !Holds(rowOf, seen, rowOf[column])
  {
    forall c ensures !HoldsAt(rowOf, seen, rowOf[column], c) {
      if 0 <= c < |seen| && !seen[c] {
        assert !first[c] && c != column;
        assert rowOf[c] != rowOf[column];
      }
    }
  }

  lemma StillDeadEnds(allowed: seq<seq<bool>>, rowOf: seq<int>, first: seq<bool>, at: seq<bool>, seen: seq<bool>,
                      column: int)
    requires Square(allowed) && |rowOf| == |first| == |at| == |seen| == |allowed|
    requires 0 <= column < |seen| && 0 <= rowOf[column] < |allowed|
    requires Grew(at[column := true], seen)
    requires DeadEnds(allowed, rowOf, first, at)
    requires Exhausted(allowed, rowOf[column], seen)
    requires DeadEnds(allowed, rowOf, at[column := true], seen)
    ensures DeadEnds(allowed, rowOf, first, seen)
  {
    forall c | 0 <= c < |seen| && seen[c] && !first[c]
      ensures 0 <= rowOf[c] < |allowed| && Exhausted(allowed, rowOf[c], seen)
    {
      if c != column && at[c] {
        assert Exhausted(allowed, rowOf[c], at);
      } else if c != column {
        assert !at[column := true][c];
      }
    }
  }

  // ----- counting -----

  ghost function Image(s: set<int>, f: seq<int>): set<int>
    requires forall x :: x in s ==> 0 <= x < |f|
  {
    set x | x in s :: f[x]
  }

  lemma Member<T>(s: set<T>) returns (x: T)
    requires s != {}
    ensures x in s
  {
    x :| x in s;
  }

  lemma {:induction false} ImageSize(s: set<int>, f: seq<int>)
    requires forall x :: x in s ==> 0 <= x < |f|
    requires forall x, y :: x in s && y in s && x != y ==> f[x] != f[y]
    ensures |Image(s, f)| == |s|
  {
    if s != {} {
      var x := Member(s);
      var rest := s - {x};
      ImageSize(rest, f);
      assert f[x] !in Image(rest, f);
      assert Image(s, f) == Image(rest, f) + {f[x]};
    }
  }

  ghost function Below(n: nat): (s: set<int>)
    ensures forall i :: i in s <==> 0 <= i < n
    ensures |s| == n
  {
    if n == 0 then {} else Below(n - 1) + {n - 1}
  }

  lemma SubsetSize(s: set<int>, t: set<int>)
    requires s <= t
    ensures |s| <= |t|
    ensures |s| == |t| ==> s == t
  {
    assert t == s + (t - s);
    assert |t| == |s| + |t - s|;
  }

  function NoneSeen(size: nat): (seen: seq<bool>) {
    seq(size, c => false)
  }

  /** A failed search leaves one more row than columns, and those rows may use only those columns. */
  lemma FailureIsDecisive(allowed: seq<seq<bool>>, rowOf: seq<int>, seen: seq<bool>, row: int, a: seq<nat>)
    requires Square(allowed) && |rowOf| == |seen| == |allowed| && 0 <= row < |allowed|
    requires HoldsOne(rowOf, NoneSeen(|allowed|)) && !Holds(rowOf, NoneSeen(|allowed|), row)
    requires Exhausted(allowed, row, seen)
    requires DeadEnds(allowed, rowOf, NoneSeen(|allowed|), seen)
    ensures !Matches(allowed, a)
  {
    if Matches(allowed, a) {
      var none := NoneSeen(|allowed|);
      var columns := set c | 0 <= c < |seen| && seen[c];
      var holders := Image(columns, rowOf);
      forall c, d | c in columns && d in columns && c != d ensures rowOf[c] != rowOf[d] {
        assert !none[c] && !none[d];
      }
      ImageSize(columns, rowOf);
      assert row !in holders by {
        if row in holders {
          var c :| c in columns && rowOf[c] == row;
          assert HoldsAt(rowOf, none, row, c);
        }
      }
      var rows := holders + {row};
      forall r | r in rows ensures 0 <= r < |allowed| && a[r] in columns {
        if r != row {
          var c :| c in columns && rowOf[c] == r;
          assert !none[c];
        }
        assert Exhausted(allowed, r, seen);
        assert allowed[r][a[r]];
      }
      ImageSize(rows, a);
      SubsetSize(Image(rows, a), columns);
    }
  }

  /** When every row holds a column, every column is held. */
  lemma AllColumnsHeld(allowed: seq<seq<bool>>, rowOf: seq<int>)
    requires Square(allowed) && Legal(allowed, rowOf)
    requires HoldsOne(rowOf, NoneSeen(|allowed|))
    requires forall r :: 0 <= r < |allowed| ==> Holds(rowOf, NoneSeen(|allowed|), r)
    ensures forall c :: 0 <= c < |allowed| ==> 0 <= rowOf[c] < |allowed|
  {
    var n, none := |allowed|, NoneSeen(|allowed|);
    var held := set c | 0 <= c < n && 0 <= rowOf[c];
    assert held == Below(n) by {
      forall r | 0 <= r < n ensures r in Image(held, rowOf) {
        HolderInImage(rowOf, none, held, r);
      }
      forall c, d | c in held && d in held && c != d ensures rowOf[c] != rowOf[d] {
        assert !none[c] && !none[d];
      }
      FullImage(n, held, rowOf);
    }
    forall c | 0 <= c < n ensures 0 <= rowOf[c] < n {
      assert c in held;
    }
  }

  lemma HolderInImage(rowOf: seq<int>, seen: seq<bool>, held: set<int>, r: nat)
    requires |seen| == |rowOf| && Holds(rowOf, seen, r)
    requires held == (set c | 0 <= c < |rowOf| && 0 <= rowOf[c])
    ensures r in Image(held, rowOf)
  {
    var c :| HoldsAt(rowOf, seen, r, c);
    assert c in held;
  }

  lemma FullImage(n: nat, s: set<int>, f: seq<int>)
    requires |f| == n && s <= Below(n)
    requires forall r :: 0 <= r < n ==> r in Image(s, f)
    requires forall x, y :: x in s && y in s && x != y ==> f[x] != f[y]
    ensures s == Below(n)
  {
    ImageSize(s, f);
    SubsetSize(Below(n), Image(s, f));
    SubsetSize(s, Below(n));
  }

  /** A one-to-one assignment of rows to columns over allowed pairs only, exactly when there is one. */
  method PerfectMatching(allowed: seq<seq<bool>>) returns (matching: Option<seq<nat>>)
    requires Square(allowed)
    ensures matching.Some? ==> Matches(allowed, matching.value)
    ensures matching.None? ==> forall a :: !Matches(allowed, a)
  {
    var size := |allowed|;
    var rowOf := new int[size](c => -1);
    ghost var none := NoneSeen(size);
    var row := 0;
    while row < size
      invariant 0 <= row <= size
      invariant Legal(allowed, rowOf[..]) && HoldsOne(rowOf[..], none)
      invariant forall r :: 0 <= r ==> (Holds(rowOf[..], none, r) <==> r < row)
    {
      var seen := new bool[size](c => false);
      assert seen[..] == none;
      ghost var before := rowOf[..];
      var found := Augment(allowed, rowOf, seen, row);
      if !found {
        forall a ensures !Matches(allowed, a) {
          FailureIsDecisive(allowed, before, seen[..], row, a);
        }
        return None;
      }
      row := row + 1;
    }
    AllColumnsHeld(allowed, rowOf[..]);
    ghost var holder := rowOf[..];
    var assignment := new nat[size](r => 0);
    var column := 0;
    while column < size
      invariant 0 <= column <= size && rowOf[..] == holder
      invariant forall c :: 0 <= c < column ==> assignment[holder[c]] == c
    {
      assert rowOf[column] == holder[column];
      assignment[rowOf[column]] := column;
      column := column + 1;
    }
    EveryRowPlaced(allowed, rowOf[..], assignment[..]);
    return Some(assignment[..]);
  }

  lemma EveryRowPlaced(allowed: seq<seq<bool>>, rowOf: seq<int>, a: seq<nat>)
    requires Square(allowed) && Legal(allowed, rowOf) && |a| == |allowed|
    requires forall c :: 0 <= c < |allowed| ==> 0 <= rowOf[c] < |allowed|
    requires forall r :: 0 <= r < |allowed| ==> Holds(rowOf, NoneSeen(|allowed|), r)
    requires forall c :: 0 <= c < |allowed| ==> a[rowOf[c]] == c
    ensures Matches(allowed, a)
  {
    forall r | 0 <= r < |a| ensures a[r] < |a| && rowOf[a[r]] == r {
      assert Holds(rowOf, NoneSeen(|allowed|), r);
      var c :| HoldsAt(rowOf, NoneSeen(|allowed|), r, c);
      assert a[rowOf[c]] == c;
    }
  }
}
