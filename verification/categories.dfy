/** Profit per bet type and per league (src/utils/bettingCalculations.ts:123-133).

    Each map is built by one pass over the settled bets, adding every bet's
    net profit to the entry of its category (a missing entry counts as 0).
    A JavaScript object lists its keys in insertion order, so the order in
    which the charts see the categories is the order of first occurrence;
    `CategoryKeys` is that order.
 */
module Categories {
  import opened BettingTypes
  import opened Aggregates
  import opened Seqs

  datatype Category = ByBetType | ByLeague

  function CategoryOf(r: BetRecord, c: Category): string {
    match c
    case ByBetType => r.betType
    case ByLeague => r.league
  }

  /** The category of every record, in order. */
  function Labels(rs: seq<BetRecord>, c: Category): (ls: seq<string>)
    ensures |ls| == |rs|
    ensures forall i | 0 <= i < |rs| :: ls[i] == CategoryOf(rs[i], c)
  {
    if |rs| == 0 then [] else Labels(rs[..|rs| - 1], c) + [CategoryOf(rs[|rs| - 1], c)]
  }

  /** The categories in order of first occurrence. */
  function CategoryKeys(rs: seq<BetRecord>, c: Category): seq<string> {
    Dedup(Labels(rs, c))
  }

  /** `m[key] += amount`, with a missing entry read as 0. */
  function AddTo(m: map<string, real>, key: string, amount: real): map<string, real> {
    m[key := (if key in m then m[key] else 0.0) + amount]
  }

  /** The profit map built by the loop. */
  function ProfitBy(rs: seq<BetRecord>, c: Category): (m: map<string, real>)
    ensures forall k :: k in m <==> k in Labels(rs, c)
  {
    if |rs| == 0 then map[]
    else
      var last := rs[|rs| - 1];
      assert Labels(rs, c) == Labels(rs[..|rs| - 1], c) + [CategoryOf(last, c)];
      AddTo(ProfitBy(rs[..|rs| - 1], c), CategoryOf(last, c), last.netProfit)
  }

  /** The records of category `key`, in order. */
  function InCategory(rs: seq<BetRecord>, c: Category, key: string): (s: seq<BetRecord>)
    ensures forall i | 0 <= i < |s| :: CategoryOf(s[i], c) == key
  {
    if |rs| == 0 then []
    else if CategoryOf(rs[|rs| - 1], c) == key then InCategory(rs[..|rs| - 1], c, key) + [rs[|rs| - 1]]
    else InCategory(rs[..|rs| - 1], c, key)
  }

  /** Every entry is the total net profit of the records in its category. */
  lemma {:induction false} ProfitByIsCategoryTotal(rs: seq<BetRecord>, c: Category, key: string)
    requires key in ProfitBy(rs, c)
    ensures ProfitBy(rs, c)[key] == Total(InCategory(rs, c, key), Profit)
  {
    var prefix := rs[..|rs| - 1];
    var last := rs[|rs| - 1];
    var sub := InCategory(prefix, c, key);
    if key in ProfitBy(prefix, c) {
      ProfitByIsCategoryTotal(prefix, c, key);
    } else {
      assert key == CategoryOf(last, c);
      EmptyCategory(prefix, c, key);
    }
    if CategoryOf(last, c) == key {
      assert (sub + [last])[..|sub|] == sub;
    }
  }

  /** A category that never occurs selects no record. */
  lemma {:induction false} EmptyCategory(rs: seq<BetRecord>, c: Category, key: string)
    requires key !in Labels(rs, c)
    ensures InCategory(rs, c, key) == []
  {
    if |rs| > 0 {
      assert Labels(rs, c) == Labels(rs[..|rs| - 1], c) + [CategoryOf(rs[|rs| - 1], c)];
      EmptyCategory(rs[..|rs| - 1], c, key);
    }
  }

  /** The sum of the entries of `m` listed in `ks`. */
  function SumOver(m: map<string, real>, ks: seq<string>): real
    requires forall k | k in ks :: k in m
  {
    if |ks| == 0 then 0.0 else SumOver(m, ks[..|ks| - 1]) + m[ks[|ks| - 1]]
  }

  /** Changing an entry that is not listed leaves the sum alone. */
  lemma {:induction false} SumOverOther(m: map<string, real>, ks: seq<string>, key: string, v: real)
    requires forall k | k in ks :: k in m
    requires key !in ks
    ensures SumOver(m[key := v], ks) == SumOver(m, ks)
  {
    if |ks| > 0 {
      SumOverOther(m, ks[..|ks| - 1], key, v);
    }
  }

  /** Adding `v` to an entry listed once adds `v` to the sum. */
  lemma {:induction false} SumOverAdd(m: map<string, real>, ks: seq<string>, key: string, v: real)
    requires forall k | k in ks :: k in m
    requires Distinct(ks) && key in ks
    ensures SumOver(AddTo(m, key, v), ks) == SumOver(m, ks) + v
  {
    var prefix := ks[..|ks| - 1];
    if ks[|ks| - 1] == key {
      assert key !in prefix;
      SumOverOther(m, prefix, key, m[key] + v);
      assert AddTo(m, key, v)[key] == m[key] + v;
    } else {
      assert key in prefix;
      SumOverAdd(m, prefix, key, v);
    }
    assert AddTo(m, key, v) == m[key := m[key] + v];
  }

  /** The profit map has exactly the listed categories as keys. */
  lemma CategoryKeysOfProfitBy(rs: seq<BetRecord>, c: Category)
    ensures forall k :: k in ProfitBy(rs, c) <==> k in CategoryKeys(rs, c)
  {
  }

  /** One iteration of the loop adds `v` to the sum over the keys, which
      grow by `key` when it is new. */
  lemma SumOverStep(m: map<string, real>, ks: seq<string>, key: string, v: real)
    requires forall k :: k in m <==> k in ks
    requires Distinct(ks)
    ensures var ks' := if key in ks then ks else ks + [key];
      && (forall k | k in ks' :: k in AddTo(m, key, v))
      && SumOver(AddTo(m, key, v), ks') == SumOver(m, ks) + v
  {
    if key in ks {
      SumOverAdd(m, ks, key, v);
    } else {
      var m' := AddTo(m, key, v);
      assert m' == m[key := 0.0 + v];
      SumOverOther(m, ks, key, 0.0 + v);
      assert (ks + [key])[..|ks|] == ks;
    }
  }

  /** The entries of the profit map, one per category, add up to the total
      net profit. */
  lemma {:induction false} CategoryProfitsSumToTotal(rs: seq<BetRecord>, c: Category)
    ensures forall k | k in CategoryKeys(rs, c) :: k in ProfitBy(rs, c)
    ensures SumOver(ProfitBy(rs, c), CategoryKeys(rs, c)) == Total(rs, Profit)
  {
    if |rs| > 0 {
      var prefix := rs[..|rs| - 1];
      var last := rs[|rs| - 1];
      var key := CategoryOf(last, c);
      CategoryProfitsSumToTotal(prefix, c);
      CategoryKeysOfProfitBy(prefix, c);
      assert Labels(rs, c) == Labels(prefix, c) + [key];
      assert Labels(rs, c)[..|rs| - 1] == Labels(prefix, c);
      var m := ProfitBy(prefix, c);
      var ks := CategoryKeys(prefix, c);
      SumOverStep(m, ks, key, last.netProfit);
      assert ProfitBy(rs, c) == AddTo(m, key, last.netProfit);
      assert CategoryKeys(rs, c) == if key in ks then ks else ks + [key];
      assert Total(rs, Profit) == Total(prefix, Profit) + last.netProfit;
    }
  }
}
