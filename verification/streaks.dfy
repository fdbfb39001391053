/** Longest win and loss streaks (src/utils/bettingCalculations.ts:105-121).

    The source walks the settled bets once, keeping a running and a best
    counter for wins and for losses. A win extends the win run and resets the
    loss run, a loss does the opposite, and anything else (a void) leaves both
    untouched. This module proves that the best counters are the longest runs
    of wins and of losses once voids are struck out.
 */
module Streaks {
  import opened BettingTypes
  import opened Aggregates

  datatype StreakState = StreakState(currentWin: nat, currentLoss: nat, longestWin: nat, longestLoss: nat)

  const Start := StreakState(0, 0, 0, 0)

  function MaxNat(a: nat, b: nat): nat {
    if a >= b then a else b
  }

  /** One iteration of the loop over the settled bets. */
  function Step(st: StreakState, r: BetResult): StreakState {
    match r
    case Win =>
      var run := st.currentWin + 1;
      StreakState(run, 0, MaxNat(st.longestWin, run), st.longestLoss)
    case Loss =>
      var run := st.currentLoss + 1;
      StreakState(0, run, st.longestWin, MaxNat(st.longestLoss, run))
    case _ => st
  }

  /** The loop state after visiting `o` in order, starting from `st`. */
  function Walk(st: StreakState, o: seq<BetResult>): StreakState {
    if |o| == 0 then st else Step(Walk(st, o[..|o| - 1]), o[|o| - 1])
  }

  /** The streak counters over a whole result list. */
  function StreaksOf(o: seq<BetResult>): StreakState {
    Walk(Start, o)
  }

  /** The wins and losses of `o`, in order, voids and pendings struck out. */
  function Decisive(o: seq<BetResult>): (d: seq<BetResult>)
    ensures forall i | 0 <= i < |d| :: d[i] == Win || d[i] == Loss
  {
    if |o| == 0 then []
    else if o[|o| - 1] == Win || o[|o| - 1] == Loss then Decisive(o[..|o| - 1]) + [o[|o| - 1]]
    else Decisive(o[..|o| - 1])
  }

  /** o[i..j] consists of `x` only. */
  ghost predicate RunOf(o: seq<BetResult>, x: BetResult, i: int, j: int) {
    0 <= i <= j <= |o| && forall k | i <= k < j :: o[k] == x
  }

  /** `n` is the length of the longest run of `x` in `o`. */
  ghost predicate IsLongestRun(o: seq<BetResult>, x: BetResult, n: nat) {
    && (exists i, j :: RunOf(o, x, i, j) && j - i == n)
    && (forall i, j :: RunOf(o, x, i, j) ==> j - i <= n)
  }

  /** `o` ends with exactly `n` copies of `x`. */
  ghost predicate TrailingRun(o: seq<BetResult>, x: BetResult, n: nat) {
    n <= |o| && RunOf(o, x, |o| - n, |o|) && (n < |o| ==> o[|o| - n - 1] != x)
  }

  /** The loop invariant: the running counters are the trailing runs and the
      best counters the longest runs of the decisive results seen so far. */
  ghost predicate Tracks(o: seq<BetResult>, st: StreakState) {
    && TrailingRun(o, Win, st.currentWin) && IsLongestRun(o, Win, st.longestWin)
    && TrailingRun(o, Loss, st.currentLoss) && IsLongestRun(o, Loss, st.longestLoss)
  }

  /** Appending `y` to `o` extends a trailing run of `x` when y == x and
      ends it otherwise; the longest run follows. */
  lemma ExtendRun(o: seq<BetResult>, x: BetResult, y: BetResult, cur: nat, best: nat)
    requires TrailingRun(o, x, cur) && IsLongestRun(o, x, best)
    ensures y == x ==> TrailingRun(o + [y], x, cur + 1) && IsLongestRun(o + [y], x, MaxNat(best, cur + 1))
    ensures y != x ==> TrailingRun(o + [y], x, 0) && IsLongestRun(o + [y], x, best)
  {
    var o' := o + [y];
    var n := |o|;
    var i0, j0 :| RunOf(o, x, i0, j0) && j0 - i0 == best;
    assert RunOf(o', x, i0, j0);
    forall i, j | RunOf(o', x, i, j) && j <= n
      ensures j - i <= best
    {
      assert forall k | i <= k < j :: o'[k] == o[k];
      assert RunOf(o, x, i, j);
    }
    if y == x {
      assert RunOf(o', x, n - cur, n + 1);
      forall i, j | RunOf(o', x, i, j)
        ensures j - i <= MaxNat(best, cur + 1)
      {
        if j == n + 1 && cur < n {
          assert o'[n - cur - 1] != x;
        }
      }
    } else {
      assert RunOf(o', x, n + 1, n + 1);
      forall i, j | RunOf(o', x, i, j)
        ensures j - i <= best
      {
        if j == n + 1 {
          assert o'[n] != x;
        }
      }
    }
  }

  /** The loop keeps its invariant over the decisive results. */
  lemma {:induction false} WalkTracks(o: seq<BetResult>)
    ensures Tracks(Decisive(o), StreaksOf(o))
  {
    if |o| == 0 {
      assert RunOf([], Win, 0, 0) && RunOf([], Loss, 0, 0);
    } else {
      var prefix := o[..|o| - 1];
      var y := o[|o| - 1];
      var st := StreaksOf(prefix);
      var d := Decisive(prefix);
      WalkTracks(prefix);
      if y == Win || y == Loss {
        ExtendRun(d, Win, y, st.currentWin, st.longestWin);
        ExtendRun(d, Loss, y, st.currentLoss, st.longestLoss);
      }
    }
  }

  /** The reported streaks are the longest runs of wins and of losses once
      voids are struck out. */
  lemma StreaksAreLongestRuns(o: seq<BetResult>)
    ensures IsLongestRun(Decisive(o), Win, StreaksOf(o).longestWin)
    ensures IsLongestRun(Decisive(o), Loss, StreaksOf(o).longestLoss)
  {
    WalkTracks(o);
  }

  lemma {:induction false} WalkAppend(st: StreakState, a: seq<BetResult>, b: seq<BetResult>)
    ensures Walk(st, a + b) == Walk(Walk(st, a), b)
    decreases |b|
  {
    if |b| == 0 {
      assert a + b == a;
    } else {
      assert (a + b)[..|a + b| - 1] == a + b[..|b| - 1];
      WalkAppend(st, a, b[..|b| - 1]);
    }
  }

  /** A void between two stretches of results neither extends nor resets
      either streak. */
  lemma VoidIsTransparent(a: seq<BetResult>, b: seq<BetResult>)
    ensures StreaksOf(a + [Void] + b) == StreaksOf(a + b)
  {
    WalkAppend(Start, a + [Void], b);
    WalkAppend(Start, a, [Void]);
    WalkAppend(Start, a, b);
    assert Walk(StreaksOf(a), [Void]) == StreaksOf(a);
  }

  /** Neither streak can be longer than the number of its outcomes. */
  lemma {:induction false} StreaksBoundedByCounts(o: seq<BetResult>)
    ensures StreaksOf(o).currentWin <= StreaksOf(o).longestWin <= Occurrences(o, Win)
    ensures StreaksOf(o).currentLoss <= StreaksOf(o).longestLoss <= Occurrences(o, Loss)
  {
    if |o| > 0 {
      StreaksBoundedByCounts(o[..|o| - 1]);
    }
  }

  /** The worked example: W W L W V W W W has a win streak of 4, because the
      void does not break the final run, and a loss streak of 1. */
  lemma StreakExample()
    ensures StreaksOf([Win, Win, Loss, Win, Void, Win, Win, Win]) == StreakState(4, 0, 4, 1)
  {
    var o := [Win, Win, Loss, Win, Void, Win, Win, Win];
    var results := [StreakState(1, 0, 1, 0), StreakState(2, 0, 2, 0), StreakState(0, 1, 2, 1),
                    StreakState(1, 0, 2, 1), StreakState(1, 0, 2, 1), StreakState(2, 0, 2, 1),
                    StreakState(3, 0, 3, 1), StreakState(4, 0, 4, 1)];
    for n := 1 to 9
      invariant forall m | 1 <= m < n :: StreaksOf(o[..m]) == results[m - 1]
    {
      assert o[..n][..n - 1] == o[..n - 1];
      assert StreaksOf(o[..n]) == Step(StreaksOf(o[..n - 1]), o[n - 1]);
      if n == 1 {
        assert StreaksOf(o[..0]) == Start;
      } else {
        assert StreaksOf(o[..n - 1]) == results[n - 2];
      }
    }
    assert o[..8] == o;
  }
}
