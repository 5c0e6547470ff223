/** The tie-aware rank formula for the area under the ROC curve, against the Mann-Whitney count of pairs. */
module RankAuc {
  import opened Envelopes

  /** A target is compared with one and with zero; anything else is neither class. */
  datatype Label = Positive | Negative | Neither

  /** How much of a win a score of `a` has over a score of `b`: ties count one half. */
  function Win(a: real, b: real): real {
    if b < a then 1.0 else if a == b then 0.5 else 0.0
  }

  /** Wins of score `a` over the scores at `indices`. */
  function Wins(a: real, scores: seq<real>, indices: seq<nat>): real
    requires forall q :: 0 <= q < |indices| ==> indices[q] < |scores|
    decreases |indices|
  {
    if indices == [] then 0.0
    else
      var n := |indices| - 1;
      Wins(a, scores, indices[..n]) + Win(a, scores[indices[n]])
  }

  function Iota(n: nat): (s: seq<nat>)
    ensures |s| == n && forall i :: 0 <= i < n ==> s[i] == i
  {
    seq(n, i => i)
  }

  /** `order` lists every index once, by non-decreasing score. */
  ghost predicate Argsort(order: seq<nat>, scores: seq<real>) {
    && multiset(order) == multiset(Iota(|scores|))
    && (forall q :: 0 <= q < |order| ==> order[q] < |scores|)
    && forall p, q :: 0 <= p < q < |order| ==> scores[order[p]] <= scores[order[q]]
  }

  /** The average rank of an entry among all scores, ties sharing theirs. */
  function RankOf(scores: seq<real>, i: nat): real
    requires i < |scores|
  {
    Wins(scores[i], scores, Iota(|scores|)) + 0.5
  }

  // ---------------------------------------------------------------- ranks

  lemma {:induction false} WinsSplit(a: real, scores: seq<real>, xs: seq<nat>, p: nat)
    requires p < |xs| && forall q :: 0 <= q < |xs| ==> xs[q] < |scores|
    ensures Wins(a, scores, xs) == Wins(a, scores, xs[..p] + xs[p + 1..]) + Win(a, scores[xs[p]])
    decreases |xs|
  {
    var n := |xs| - 1;
    if p < n {
      WinsSplit(a, scores, xs[..n], p);
      var rest := xs[..p] + xs[p + 1..];
      assert rest[..n - 1] == xs[..n][..p] + xs[..n][p + 1..];
      assert rest[n - 1] == xs[n];
    } else {
      assert xs[..p] + xs[p + 1..] == xs[..n];
    }
  }

  lemma Removed(xs: seq<nat>, p: nat)
    requires p < |xs|
    ensures multiset(xs[..p] + xs[p + 1..]) == multiset(xs) - multiset{xs[p]}
  {
    assert xs == xs[..p] + [xs[p]] + xs[p + 1..];
  }

  /** Wins do not depend on the order in which the opponents are met. */
  lemma {:induction false} WinsPermuted(a: real, scores: seq<real>, xs: seq<nat>, ys: seq<nat>)
    requires multiset(xs) == multiset(ys)
    requires forall q :: 0 <= q < |xs| ==> xs[q] < |scores|
    requires forall q :: 0 <= q < |ys| ==> ys[q] < |scores|
    ensures Wins(a, scores, xs) == Wins(a, scores, ys)
    decreases |xs|
  {
    if xs == [] {
      assert |ys| == |multiset(ys)| == 0;
    } else {
      var n := |xs| - 1;
      assert xs[n] in multiset(ys);
      var p :| 0 <= p < |ys| && ys[p] == xs[n];
      var rest := ys[..p] + ys[p + 1..];
      WinsSplit(a, scores, ys, p);
      Removed(ys, p);
      Removed(xs, n);
      assert xs[..n] + xs[n + 1..] == xs[..n];
      WinsPermuted(a, scores, xs[..n], rest);
    }
  }

  predicate TieGroup(order: seq<nat>, scores: seq<real>, start: nat, end: nat, a: real)
    requires forall q :: 0 <= q < |order| ==> order[q] < |scores|
  {
    && start <= end <= |order|
    && (forall q :: 0 <= q < start ==> scores[order[q]] < a)
    && (forall q :: start <= q < end ==> scores[order[q]] == a)
    && forall q :: end <= q < |order| ==> a < scores[order[q]]
  }

  lemma {:induction false} WinsInGroup(order: seq<nat>, scores: seq<real>, start: nat, end: nat, a: real, n: nat)
    requires forall q :: 0 <= q < |order| ==> order[q] < |scores|
    requires TieGroup(order, scores, start, end, a) && n <= |order|
    ensures Wins(a, scores, order[..n])
         == if n <= start then n as real else if n <= end then start as real + (n - start) as real / 2.0
            else start as real + (end - start) as real / 2.0
  {
    if n > 0 {
      WinsInGroup(order, scores, start, end, a, n - 1);
      assert order[..n][..n - 1] == order[..n - 1];
    }
  }

  /** Everyone in a tie group has the group's average rank. */
  lemma GroupRank(order: seq<nat>, scores: seq<real>, start: nat, end: nat, q: nat)
    requires Argsort(order, scores) && start <= q < end <= |order|
    requires TieGroup(order, scores, start, end, scores[order[q]])
    ensures RankOf(scores, order[q]) == (start + 1 + end) as real / 2.0
  {
    var a := scores[order[q]];
    WinsInGroup(order, scores, start, end, a, |order|);
    assert order[..|order|] == order;
    WinsPermuted(a, scores, order, Iota(|scores|));
  }

  method AverageRanks(scores: seq<real>, order: seq<nat>) returns (ranks: array<real>)
    requires Argsort(order, scores)
    ensures fresh(ranks) && ranks.Length == |scores|
    ensures forall i :: 0 <= i < |scores| ==> ranks[i] == RankOf(scores, i)
  {
    assert |order| == |multiset(order)| == |multiset(Iota(|scores|))| == |scores|;
    ranks := new real[|scores|];
    var start := 0;
    while start < |scores|
      invariant 0 <= start <= |scores|
      invariant forall q :: 0 <= q < start ==> ranks[order[q]] == RankOf(scores, order[q])
      invariant forall p, q :: 0 <= p < start <= q < |order| ==> scores[order[p]] < scores[order[q]]
      decreases |scores| - start
    {
      var end := start + 1;
      while end < |scores| && scores[order[end]] == scores[order[start]]
        invariant start < end <= |scores|
        invariant forall q :: start <= q < end ==> scores[order[q]] == scores[order[start]]
      {
        end := end + 1;
      }
      assert TieGroup(order, scores, start, end, scores[order[start]]);
      var averageRank := (start + 1 + end) as real / 2.0;
      for k := start to end
        invariant forall q :: 0 <= q < k ==> ranks[order[q]] == RankOf(scores, order[q])
      {
        GroupRank(order, scores, start, end, k);
        ranks[order[k]] := averageRank;
      }
      start := end;
    }
    forall i | 0 <= i < |scores| ensures ranks[i] == RankOf(scores, i) {
      assert Iota(|scores|)[i] == i;
      assert i in multiset(Iota(|scores|));
      assert i in multiset(order);
      var q :| 0 <= q < |order| && order[q] == i;
    }
  }

  // ---------------------------------------------------------------- pairs

  function Count(labels: seq<Label>, which: Label, n: nat): nat
    requires n <= |labels|
  {
    if n == 0 then 0 else Count(labels, which, n - 1) + if labels[n - 1] == which then 1 else 0
  }

  /** Wins of score `a` over the first `n` entries labelled `which`. */
  function WinsOver(a: real, labels: seq<Label>, scores: seq<real>, which: Label, n: nat): real
    requires n <= |labels| == |scores|
  {
    if n == 0 then 0.0
    else WinsOver(a, labels, scores, which, n - 1) + if labels[n - 1] == which then Win(a, scores[n - 1]) else 0.0
  }

  /** The Mann-Whitney count: wins of the first `m` positives over the first `n` entries labelled `which`. */
  function Pairs(labels: seq<Label>, scores: seq<real>, which: Label, m: nat, n: nat): real
    requires m <= |labels| == |scores| && n <= |labels|
  {
    if m == 0 then 0.0
    else
      Pairs(labels, scores, which, m - 1, n) +
      if labels[m - 1].Positive? then WinsOver(scores[m - 1], labels, scores, which, n) else 0.0
  }

  /** The first `n` positives' wins over a score `b`. */
  function WinsAgainst(b: real, labels: seq<Label>, scores: seq<real>, n: nat): real
    requires n <= |labels| == |scores|
  {
    if n == 0 then 0.0
      else WinsAgainst(b, labels, scores, n - 1) + if labels[n - 1].Positive? then Win(scores[n - 1], b) else 0.0
  }

  lemma {:induction false} OneMoreOpponent(labels: seq<Label>, scores: seq<real>, m: nat, n: nat)
    requires m <= |labels| == |scores| && n < |labels| && labels[n].Positive?
    ensures Pairs(labels, scores, Positive, m, n + 1)
      == Pairs(labels, scores, Positive, m, n) + WinsAgainst(scores[n], labels, scores, m)
  {
    if m > 0 { OneMoreOpponent(labels, scores, m - 1, n); }
  }

  lemma {:induction false} WinsBothWays(labels: seq<Label>, scores: seq<real>, b: real, n: nat)
    requires n <= |labels| == |scores|
    ensures WinsAgainst(b, labels, scores, n) + WinsOver(b, labels, scores, Positive, n)
      == Count(labels, Positive, n) as real
  {
    if n > 0 { WinsBothWays(labels, scores, b, n - 1); }
  }

  lemma {:induction false} NotPositiveNoPairs(labels: seq<Label>, scores: seq<real>, m: nat, n: nat)
    requires m <= |labels| == |scores| && n < |labels| && !labels[n].Positive?
    ensures Pairs(labels, scores, Positive, m, n + 1) == Pairs(labels, scores, Positive, m, n)
  {
    if m > 0 { NotPositiveNoPairs(labels, scores, m - 1, n); }
  }

  lemma HalfSquare(c: nat)
    ensures (c * c) as real / 2.0 + c as real + 0.5 == ((c + 1) * (c + 1)) as real / 2.0
  {
    assert (c + 1) * (c + 1) == c * c + 2 * c + 1;
  }

  /** Among themselves the positives win exactly half of their pairs, each paired with itself included. */
  lemma {:induction false} PositivesAmongThemselves(labels: seq<Label>, scores: seq<real>, n: nat)
    requires n <= |labels| == |scores|
    ensures Pairs(labels, scores, Positive, n, n)
         == (Count(labels, Positive, n) * Count(labels, Positive, n)) as real / 2.0
  {
    if n > 0 {
      var m := n - 1;
      PositivesAmongThemselves(labels, scores, m);
      if labels[m].Positive? {
        OneMoreOpponent(labels, scores, m, m);
        WinsBothWays(labels, scores, scores[m], m);
        HalfSquare(Count(labels, Positive, m));
      } else {
        NotPositiveNoPairs(labels, scores, m, m);
      }
    }
  }

  lemma {:induction false} WinsByLabel(a: real, labels: seq<Label>, scores: seq<real>, n: nat)
    requires n <= |labels| == |scores|
    ensures Wins(a, scores, Iota(n))
         == WinsOver(a, labels, scores, Positive, n) + WinsOver(a, labels, scores, Negative, n)
           + WinsOver(a, labels, scores, Neither, n)
  {
    if n > 0 {
      WinsByLabel(a, labels, scores, n - 1);
      assert Iota(n)[..n - 1] == Iota(n - 1);
    }
  }

  function PositiveRanks(labels: seq<Label>, scores: seq<real>, m: nat): real
    requires m <= |labels| == |scores|
  {
    if m == 0 then 0.0
    else PositiveRanks(labels, scores, m - 1) + if labels[m - 1].Positive? then RankOf(scores, m - 1) else 0.0
  }

  lemma {:induction false} RanksArePairs(labels: seq<Label>, scores: seq<real>, m: nat)
    requires m <= |labels| == |scores|
    ensures var n := |labels|;
      PositiveRanks(labels, scores, m) == Pairs(labels, scores, Positive, m, n) + Pairs(labels, scores, Negative, m, n)
        + Pairs(labels, scores, Neither, m, n) + Count(labels, Positive, m) as real / 2.0
  {
    if m > 0 {
      RanksArePairs(labels, scores, m - 1);
      WinsByLabel(scores[m - 1], labels, scores, |labels|);
    }
  }

  /** Pairs a positive wins, over the number of positive-negative pairs. */
  function Fraction(wins: real, positives: nat, negatives: nat): real
    requires positives > 0 && negatives > 0
  {
    ProductPositive(positives, negatives);
    wins / (positives * negatives) as real
  }

  lemma ProductPositive(a: nat, b: nat)
    requires a > 0 && b > 0
    ensures a * b > 0
  {
  }

  lemma RankSumIsPairs(labels: seq<Label>, scores: seq<real>)
    requires |labels| == |scores|
    ensures var n, p := |labels|, Count(labels, Positive, |labels|);
      PositiveRanks(labels, scores, n) - (p * (p + 1)) as real / 2.0
      == Pairs(labels, scores, Negative, n, n) + Pairs(labels, scores, Neither, n, n)
  {
    var n, p := |labels|, Count(labels, Positive, |labels|);
    RanksArePairs(labels, scores, n);
    PositivesAmongThemselves(labels, scores, n);
    assert p * (p + 1) == p * p + p;
  }

  /**
   Undefined unless lengths agree and both classes occur; otherwise the rank formula is the count of
   positive-negative pairs ordered correctly, plus whatever the positives win over entries of neither class.
   */
  method BinaryAuc(labels: seq<Label>, scores: seq<real>, order: seq<nat>) returns (auc: Option<real>)
    requires Argsort(order, scores)
    ensures auc.Some?
      <==> |labels| == |scores| && Count(labels, Positive, |labels|) > 0 && Count(labels, Negative, |labels|) > 0
    ensures auc.Some? ==>
      var n := |labels|;
      auc.value == Fraction(Pairs(labels, scores, Negative, n, n) + Pairs(labels, scores, Neither, n, n),
                            Count(labels, Positive, n), Count(labels, Negative, n))
  {
    if |labels| != |scores| || |labels| == 0 { return None; }
    var positives, negatives := 0, 0;
    for i := 0 to |labels|
      invariant positives == Count(labels, Positive, i) && negatives == Count(labels, Negative, i)
    {
      if labels[i].Positive? { positives := positives + 1; }
      if labels[i].Negative? { negatives := negatives + 1; }
    }
    if positives == 0 || negatives == 0 { return None; }
    var ranks := AverageRanks(scores, order);
    var rankSum := 0.0;
    for i := 0 to |labels|
      invariant rankSum == PositiveRanks(labels, scores, i)
    {
      if labels[i].Positive? { rankSum := rankSum + ranks[i]; }
    }
    RankSumIsPairs(labels, scores);
    return Some(Fraction(rankSum - (positives * (positives + 1)) as real / 2.0, positives, negatives));
  }

  lemma {:induction false} PairsNonNegative(labels: seq<Label>, scores: seq<real>, which: Label, m: nat, n: nat)
    requires m <= |labels| == |scores| && n <= |labels|
    ensures Pairs(labels, scores, which, m, n) >= 0.0
  {
    if m > 0 {
      PairsNonNegative(labels, scores, which, m - 1, n);
      WinsNonNegative(scores[m - 1], labels, scores, which, n);
    }
  }

  lemma {:induction false} WinsNonNegative(a: real, labels: seq<Label>, scores: seq<real>, which: Label, n: nat)
    requires n <= |labels| == |scores|
    ensures WinsOver(a, labels, scores, which, n) >= 0.0
  {
    if n > 0 { WinsNonNegative(a, labels, scores, which, n - 1); }
  }

  /** The formula is the Mann-Whitney fraction if and only if no positive wins or ties against an entry of
      neither class. */
  lemma AucIsMannWhitney(labels: seq<Label>, scores: seq<real>)
    requires |labels| == |scores| && Count(labels, Positive, |labels|) > 0 && Count(labels, Negative, |labels|) > 0
    ensures var n, p, q := |labels|, Count(labels, Positive, |labels|), Count(labels, Negative, |labels|);
      var wins, extra := Pairs(labels, scores, Negative, n, n), Pairs(labels, scores, Neither, n, n);
      && (Fraction(wins + extra, p, q) == Fraction(wins, p, q)
          <==> forall i, j :: 0 <= i < n && 0 <= j < n && labels[i].Positive? && labels[j].Neither? ==>
            scores[i] < scores[j])
  {
    var n, p, q := |labels|, Count(labels, Positive, |labels|), Count(labels, Negative, |labels|);
    var wins, extra := Pairs(labels, scores, Negative, n, n), Pairs(labels, scores, Neither, n, n);
    ProductPositive(p, q);
    SameQuotient(wins + extra, wins, (p * q) as real);
    NoExtra(labels, scores, n);
  }

  lemma SameQuotient(a: real, b: real, d: real)
    requires d > 0.0
    ensures a / d == b / d <==> a == b
  {
    assert a / d * d == a && b / d * d == b;
  }

  lemma {:induction false} NoExtra(labels: seq<Label>, scores: seq<real>, m: nat)
    requires m <= |labels| == |scores|
    ensures Pairs(labels, scores, Neither, m, |labels|) == 0.0
       <==> forall i, j :: 0 <= i < m && 0 <= j < |labels| && labels[i].Positive? && labels[j].Neither? ==>
         scores[i] < scores[j]
  {
    if m > 0 {
      NoExtra(labels, scores, m - 1);
      PairsNonNegative(labels, scores, Neither, m - 1, |labels|);
      WinsNonNegative(scores[m - 1], labels, scores, Neither, |labels|);
      NoExtraWins(scores[m - 1], labels, scores, |labels|);
    }
  }

  lemma {:induction false} NoExtraWins(a: real, labels: seq<Label>, scores: seq<real>, n: nat)
    requires n <= |labels| == |scores|
    ensures WinsOver(a, labels, scores, Neither, n) == 0.0
       <==> forall j :: 0 <= j < n && labels[j].Neither? ==> a < scores[j]
  {
    if n > 0 {
      NoExtraWins(a, labels, scores, n - 1);
      WinsNonNegative(a, labels, scores, Neither, n - 1);
    }
  }

  /** One positive above one negative and one entry of neither class: two "wins" over a single pair. */
  lemma NeitherCounts()
    ensures var labels, scores := [Positive, Negative, Neither], [1.0, 0.0, 0.0];
      && Count(labels, Positive, 3) == Count(labels, Negative, 3) == 1
      && Fraction(Pairs(labels, scores, Negative, 3, 3) + Pairs(labels, scores, Neither, 3, 3), 1, 1) == 2.0
      && Fraction(Pairs(labels, scores, Negative, 3, 3), 1, 1) == 1.0
  {
    var labels, scores := [Positive, Negative, Neither], [1.0, 0.0, 0.0];
    forall which ensures Pairs(labels, scores, which, 3, 3) == WinsOver(1.0, labels, scores, which, 3) {
      assert Pairs(labels, scores, which, 1, 3)
        == Pairs(labels, scores, which, 0, 3) + WinsOver(1.0, labels, scores, which, 3);
      assert Pairs(labels, scores, which, 2, 3) == Pairs(labels, scores, which, 1, 3);
    }
    assert WinsOver(1.0, labels, scores, Negative, 1) == 0.0 && WinsOver(1.0, labels, scores, Neither, 1) == 0.0;
    assert WinsOver(1.0, labels, scores, Negative, 2) == 1.0 && WinsOver(1.0, labels, scores, Neither, 2) == 0.0;
    assert Count(labels, Positive, 1) == 1 && Count(labels, Negative, 1) == 0;
    assert Count(labels, Positive, 2) == 1 && Count(labels, Negative, 2) == 1;
  }
}
