/** Folds over bet records shared by the performance aggregator, the record
    store and the charts: the settled sub-list, result counts and sums of a
    numeric field. */
module Aggregates {
  import opened BettingTypes

  /** The numeric record fields that get summed. `Returned` is the gross
      amount paid back to the bettor (stake plus profit). */
  datatype Field = Stake | Profit | Odds | Expected | Returned

  function FieldOf(r: BetRecord, f: Field): real {
    match f
    case Stake => r.stakeAmount
    case Profit => r.netProfit
    case Odds => r.odds
    case Expected => r.expectedValue
    case Returned => r.stakeAmount + r.netProfit
  }

  /** The sum of field `f` over `rs`. */
  function Total(rs: seq<BetRecord>, f: Field): real {
    if |rs| == 0 then 0.0 else Total(rs[..|rs| - 1], f) + FieldOf(rs[|rs| - 1], f)
  }

  /** The results of `rs`, in order. */
  function Results(rs: seq<BetRecord>): (o: seq<BetResult>)
    ensures |o| == |rs|
    ensures forall i | 0 <= i < |rs| :: o[i] == rs[i].result
  {
    if |rs| == 0 then [] else Results(rs[..|rs| - 1]) + [rs[|rs| - 1].result]
  }

  /** How many entries of `o` equal `x`. */
  function Occurrences(o: seq<BetResult>, x: BetResult): (n: nat)
    ensures n <= |o|
  {
    if |o| == 0 then 0
    else Occurrences(o[..|o| - 1], x) + (if o[|o| - 1] == x then 1 else 0)
  }

  /** The records whose bet has been settled (result other than pending),
      in their original order. */
  function Settled(rs: seq<BetRecord>): (s: seq<BetRecord>)
    ensures |s| <= |rs|
    ensures forall i | 0 <= i < |s| :: s[i].result != Pending
  {
    if |rs| == 0 then []
    else
      var prefix := rs[..|rs| - 1];
      var last := rs[|rs| - 1];
      if last.result == Pending then Settled(prefix) else Settled(prefix) + [last]
  }

  /** Exactly the pending records are dropped. */
  lemma {:induction false} SettledCount(rs: seq<BetRecord>)
    ensures |Settled(rs)| + Occurrences(Results(rs), Pending) == |rs|
  {
    if |rs| > 0 {
      var prefix := rs[..|rs| - 1];
      SettledCount(prefix);
      assert Results(rs)[..|rs| - 1] == Results(prefix);
    }
  }

  /** Wins, losses, voids and pendings partition a result list. */
  lemma {:induction false} OccurrencesPartition(o: seq<BetResult>)
    ensures Occurrences(o, Win) + Occurrences(o, Loss) + Occurrences(o, Void) + Occurrences(o, Pending) == |o|
  {
    if |o| > 0 {
      OccurrencesPartition(o[..|o| - 1]);
    }
  }

  /** The settled list holds exactly the records that are not pending. */
  lemma {:induction false} SettledMembers(rs: seq<BetRecord>)
    ensures forall r :: r in Settled(rs) <==> r in rs && r.result != Pending
  {
    if |rs| > 0 {
      var prefix := rs[..|rs| - 1];
      SettledMembers(prefix);
      assert rs == prefix + [rs[|rs| - 1]];
    }
  }

  lemma {:induction false} TotalAppend(a: seq<BetRecord>, b: seq<BetRecord>, f: Field)
    ensures Total(a + b, f) == Total(a, f) + Total(b, f)
    decreases |b|
  {
    if |b| == 0 {
      assert a + b == a;
    } else {
      assert (a + b)[..|a + b| - 1] == a + b[..|b| - 1];
      TotalAppend(a, b[..|b| - 1], f);
    }
  }

  lemma {:induction false} OccurrencesAppend(a: seq<BetResult>, b: seq<BetResult>, x: BetResult)
    ensures Occurrences(a + b, x) == Occurrences(a, x) + Occurrences(b, x)
    decreases |b|
  {
    if |b| == 0 {
      assert a + b == a;
    } else {
      assert (a + b)[..|a + b| - 1] == a + b[..|b| - 1];
      OccurrencesAppend(a, b[..|b| - 1], x);
    }
  }

  lemma {:induction false} ResultsAppend(a: seq<BetRecord>, b: seq<BetRecord>)
    ensures Results(a + b) == Results(a) + Results(b)
  {
  }

  /** Filtering commutes with concatenation. */
  lemma {:induction false} SettledAppend(a: seq<BetRecord>, b: seq<BetRecord>)
    ensures Settled(a + b) == Settled(a) + Settled(b)
    decreases |b|
  {
    if |b| == 0 {
      assert a + b == a;
    } else {
      var b' := b[..|b| - 1];
      assert (a + b)[..|a + b| - 1] == a + b';
      assert (a + b)[|a + b| - 1] == b[|b| - 1];
      SettledAppend(a, b');
      if b[|b| - 1].result != Pending {
        assert Settled(a + b) == Settled(a + b') + [b[|b| - 1]];
        assert Settled(b) == Settled(b') + [b[|b| - 1]];
      }
    }
  }

  /** A pending record contributes nothing to the settled list, wherever it
      sits. */
  lemma SettledIgnoresPending(a: seq<BetRecord>, p: BetRecord, b: seq<BetRecord>)
    requires p.result == Pending
    ensures Settled(a + [p] + b) == Settled(a + b)
  {
    SettledAppend(a + [p], b);
    SettledAppend(a, [p]);
    SettledAppend(a, b);
    assert Settled([p]) == [];
  }

  /** Settling never adds wins or losses beyond those in the full list. */
  lemma {:induction false} SettledOccurrences(rs: seq<BetRecord>, x: BetResult)
    requires x != Pending
    ensures Occurrences(Results(Settled(rs)), x) == Occurrences(Results(rs), x)
  {
    if |rs| > 0 {
      var prefix := rs[..|rs| - 1];
      var last := rs[|rs| - 1];
      SettledOccurrences(prefix, x);
      assert Results(rs) == Results(prefix) + [last.result];
      OccurrencesAppend(Results(prefix), [last.result], x);
      if last.result != Pending {
        assert Settled(rs) == Settled(prefix) + [last];
        ResultsAppend(Settled(prefix), [last]);
        OccurrencesAppend(Results(Settled(prefix)), [last.result], x);
      } else {
        assert Settled(rs) == Settled(prefix);
      }
    }
  }

  /** Bounds that hold of every settled record hold of the settled list. */
  lemma {:induction false} SettledFieldBounds(rs: seq<BetRecord>, f: Field, lo: real, hi: real)
    requires forall i | 0 <= i < |rs| && rs[i].result != Pending :: lo <= FieldOf(rs[i], f) <= hi
    ensures forall j | 0 <= j < |Settled(rs)| :: lo <= FieldOf(Settled(rs)[j], f) <= hi
  {
    if |rs| > 0 {
      SettledFieldBounds(rs[..|rs| - 1], f, lo, hi);
    }
  }

  /** When every value of field `f` lies in [lo, hi], so does their sum scaled
      by the count. */
  lemma {:induction false} TotalBounds(rs: seq<BetRecord>, f: Field, lo: real, hi: real)
    requires forall i | 0 <= i < |rs| :: lo <= FieldOf(rs[i], f) <= hi
    ensures lo * (|rs| as real) <= Total(rs, f) <= hi * (|rs| as real)
  {
    if |rs| > 0 {
      var prefix := rs[..|rs| - 1];
      TotalBounds(prefix, f, lo, hi);
      assert lo * (|rs| as real) == lo * (|prefix| as real) + lo;
      assert hi * (|rs| as real) == hi * (|prefix| as real) + hi;
    }
  }

  /** The mean of field `f` over a non-empty list. */
  function Mean(rs: seq<BetRecord>, f: Field): real
    requires |rs| > 0
  {
    Total(rs, f) / (|rs| as real)
  }

  /** The mean of a non-empty list of values in [lo, hi] lies in [lo, hi]. */
  lemma MeanBounds(rs: seq<BetRecord>, f: Field, lo: real, hi: real)
    requires |rs| > 0
    requires forall i | 0 <= i < |rs| :: lo <= FieldOf(rs[i], f) <= hi
    ensures lo <= Mean(rs, f) <= hi
  {
    TotalBounds(rs, f, lo, hi);
    var n := |rs| as real;
    var mean := Total(rs, f) / n;
    assert mean * n == Total(rs, f);
  }
}
