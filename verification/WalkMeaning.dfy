/**
 What the fits and forecasts of a walk are, in terms of the rows they name: which rows train and which calibrate,
 that the model knows nothing but its training rows, and what an eligible forecast promises.
 */
module WalkMeaning {
  import opened Envelopes
  import opened WalkForward

  // ---------------------------------------------------------------- labels

  predicate Earns(entry: real, gain: real, exit: real) {
    entry * (1.0 + gain) == exit
  }

  lemma GainEarns(entry: real, exit: real)
    requires entry > 0.0
    ensures Earns(entry, GrossReturn(entry, exit), exit)
  {
    assert entry * (exit / entry) == exit;
  }

  /** Candles `i` to `j` follow each other without a gap. */
  predicate Unbroken(candles: seq<Candle>, i: nat, j: nat, intervalNs: int)
    requires j < |candles|
  {
    forall k :: i < k <= j ==> Follows(candles, k, intervalNs)
  }

  lemma {:induction false} StartReaches(candles: seq<Candle>, i: nat, j: nat, intervalNs: int)
    requires i <= j < |candles|
    ensures SegmentStart(candles, j, intervalNs) <= i <==> Unbroken(candles, i, j, intervalNs)
    decreases j
  {
    if i < j {
      StartReaches(candles, i, j - 1, intervalNs);
      if !Follows(candles, j, intervalNs) { assert !Unbroken(candles, i, j, intervalNs); }
    }
  }

  lemma {:induction false} UnbrokenTimes(candles: seq<Candle>, i: nat, j: nat, intervalNs: int)
    requires i <= j < |candles| && Unbroken(candles, i, j, intervalNs)
    ensures candles[j].timestamp == candles[i].timestamp + (j - i) * intervalNs
    decreases j
  {
    if i < j {
      UnbrokenTimes(candles, i, j - 1, intervalNs);
      assert Follows(candles, j, intervalNs);
      var steps := j - 1 - i;
      assert (steps + 1) * intervalNs == steps * intervalNs + intervalNs;
    }
  }

  /**
   A row is labelled exactly when the next `horizon + 1` candles follow without a gap; the label is then what buying at
   the next open and selling `horizon` bars later earns, settled when that bar opens.
   */
  lemma LabelMeaning(candles: seq<Candle>, i: nat, c: Config)
    requires ValidCandles(candles) && ValidConfig(c) && i < |candles|
    ensures var exit := i + c.horizon + 1;
      && (LabelAt(candles, i, c).Some? <==> exit < |candles| && Unbroken(candles, i, exit, c.intervalNs))
      && (LabelAt(candles, i, c).Some? ==>
            && Earns(candles[i + 1].open, LabelAt(candles, i, c).value.value, candles[exit].open)
            && LabelAt(candles, i, c).value.endTime == candles[i].timestamp + (c.horizon + 1) * c.intervalNs)
  {
    var exit := i + c.horizon + 1;
    if exit < |candles| {
      StartReaches(candles, i, exit, c.intervalNs);
      GainEarns(candles[i + 1].open, candles[exit].open);
      if Unbroken(candles, i, exit, c.intervalNs) { UnbrokenTimes(candles, i, exit, c.intervalNs); }
    }
  }

  // ---------------------------------------------------------------- which rows train and which calibrate

  /** The row has features and a label that was settled by `now`. */
  predicate Settles(row: Row, now: int) {
    row.features.Some? && row.outcome.Some? && row.outcome.value.endTime <= now
  }

  /** Usable rows from position `from` on. */
  function UsableFrom(past: seq<Row>, from: nat, now: int): (n: nat)
    requires from <= |past|
    decreases |past| - from
  {
    if from == |past| then 0 else (if Settles(past[from], now) then 1 else 0) + UsableFrom(past, from + 1, now)
  }

  predicate Ascending(at: seq<nat>) {
    forall i, j :: 0 <= i < j < |at| ==> at[i] < at[j]
  }

  lemma {:induction false} UsableOneMore(past: seq<Row>, from: nat, now: int)
    requires past != [] && from < |past|
    ensures UsableFrom(past, from, now) ==
      UsableFrom(past[..|past| - 1], from, now) + (if Settles(past[|past| - 1], now) then 1 else 0)
    decreases |past| - from
  {
    if from < |past| - 1 { UsableOneMore(past, from + 1, now); }
  }

  lemma {:induction false} CandidatesAscend(past: seq<Row>, now: int)
    ensures Ascending(Candidates(past, now))
    decreases |past|
  {
    if past != [] { CandidatesAscend(past[..|past| - 1], now); }
  }

  lemma {:induction false} CandidatesComplete(past: seq<Row>, now: int)
    ensures forall j :: 0 <= j < |past| && Settles(past[j], now) ==> j in Candidates(past, now)
    decreases |past|
  {
    if past != [] { CandidatesComplete(past[..|past| - 1], now); }
  }

  /** Each row in the list is followed by as many usable rows as by rows in the list. */
  predicate CountsAfter(past: seq<Row>, at: seq<nat>, now: int) {
    forall q :: 0 <= q < |at| ==> at[q] < |past| && UsableFrom(past, at[q] + 1, now) == |at| - 1 - q
  }

  lemma CountsOneMore(past: seq<Row>, before: seq<nat>, now: int)
    requires past != [] && CountsAfter(past[..|past| - 1], before, now)
    ensures CountsAfter(past, before + if Settles(past[|past| - 1], now) then [|past| - 1] else [], now)
  {
    hide Settles;
    forall q | 0 <= q < |before|
      ensures UsableFrom(past, before[q] + 1, now)
        == |before| - 1 - q + (if Settles(past[|past| - 1], now) then 1 else 0)
    {
      UsableOneMore(past, before[q] + 1, now);
    }
  }

  /** The candidates are the usable rows in order, so each knows how many come after it. */
  lemma {:induction false} CandidatesCounted(past: seq<Row>, now: int)
    ensures CountsAfter(past, Candidates(past, now), now)
    decreases |past|
  {
    hide CountsAfter;
    if past == [] {
      assert CountsAfter(past, [], now) by { NoneCounted(past, now); }
    } else {
      CandidatesCounted(past[..|past| - 1], now);
      CountsOneMore(past, Candidates(past[..|past| - 1], now), now);
    }
  }

  lemma NoneCounted(past: seq<Row>, now: int)
    ensures CountsAfter(past, [], now)
  {
  }

  lemma {:induction false} UsableInAll(past: seq<Row>, now: int)
    ensures UsableFrom(past, 0, now) == |Candidates(past, now)|
    decreases |past|
  {
    if past != [] {
      UsableOneMore(past, 0, now);
      UsableInAll(past[..|past| - 1], now);
    }
  }

  /** `r` usable rows come after row `j`. */
  predicate Rank(past: seq<Row>, j: nat, now: int, low: int, high: int) {
    j < |past| && Settles(past[j], now) && low <= UsableFrom(past, j + 1, now) < high
  }

  /** Position `q` of the list is that of the row with `|all| - 1 - q` usable rows after it. */
  predicate Listed(past: seq<Row>, now: int, all: seq<nat>) {
    && (forall j :: 0 <= j < |past| && Settles(past[j], now) ==> j in all)
    && forall q :: 0 <= q < |all| ==> Rank(past, all[q], now, |all| - 1 - q, |all| - q)
  }

  lemma CandidatesListed(past: seq<Row>, now: int)
    ensures Listed(past, now, Candidates(past, now)) && Ascending(Candidates(past, now))
  {
    CandidatesAscend(past, now);
    CandidatesComplete(past, now);
    CandidatesCounted(past, now);
  }

  lemma InLast(past: seq<Row>, now: int, all: seq<nat>, window: int, j: nat)
    requires window >= 0 && Listed(past, now, all)
    ensures j in Last(all, window) <==> Rank(past, j, now, 0, window)
  {
    hide UsableFrom, Settles;
    var at := Last(all, window);
    var skipped := |all| - |at|;
    if j in at {
      var k :| 0 <= k < |at| && at[k] == j;
      assert Rank(past, all[skipped + k], now, |all| - 1 - (skipped + k), |all| - (skipped + k));
    }
    if Rank(past, j, now, 0, window) {
      var q :| 0 <= q < |all| && all[q] == j;
      assert Rank(past, all[q], now, |all| - 1 - q, |all| - q);
      assert at[q - skipped] == j;
    }
  }

  lemma LastAscends(all: seq<nat>, window: int)
    requires window >= 0 && Ascending(all)
    ensures Ascending(Last(all, window))
  {
  }

  lemma LastRanks(past: seq<Row>, now: int, all: seq<nat>, window: int, q: nat)
    requires window >= 0 && Listed(past, now, all) && q < |Last(all, window)|
    ensures var at := Last(all, window); Rank(past, at[q], now, |at| - 1 - q, |at| - q)
  {
    hide Rank;
    var k := |all| - |Last(all, window)| + q;
    assert Rank(past, all[k], now, |all| - 1 - k, |all| - k);
  }

  lemma LastByRank(past: seq<Row>, now: int, window: int)
    requires window >= 0
    ensures var at := Last(Candidates(past, now), window);
      && Ascending(at) && (forall j: nat :: j in at <==> Rank(past, j, now, 0, window))
      && forall q :: 0 <= q < |at| ==> Rank(past, at[q], now, |at| - 1 - q, |at| - q)
  {
    CandidatesListed(past, now);
    hide Candidates, Settles, UsableFrom, Ascending, Last, Rank, Listed;
    var all := Candidates(past, now);
    var at := Last(all, window);
    LastAscends(all, window);
    forall j: nat ensures j in at <==> Rank(past, j, now, 0, window) { InLast(past, now, all, window, j); }
    forall q | 0 <= q < |at| ensures Rank(past, at[q], now, |at| - 1 - q, |at| - q) {
      LastRanks(past, now, all, window, q);
    }
  }

  lemma {:induction false} SettledByMeaning(past: seq<Row>, base: seq<nat>, close: int)
    requires forall k :: 0 <= k < |base| ==> base[k] < |past| && past[base[k]].outcome.Some?
    ensures forall j :: j in SettledBy(past, base, close) <==> j in base && past[j].outcome.value.endTime <= close
    ensures Ascending(base) ==> Ascending(SettledBy(past, base, close))
    decreases |base|
  {
    if base != [] {
      var m := |base| - 1;
      var front, last := base[..m], base[m];
      SettledByMeaning(past, front, close);
      assert base == front + [last];
      if Ascending(base) { AscendingMore(front, last, SettledBy(past, front, close)); }
    }
  }

  lemma AscendingMore(front: seq<nat>, last: nat, kept: seq<nat>)
    requires Ascending(front + [last]) && (Ascending(front) ==> Ascending(kept)) && forall j :: j in kept ==> j in front
    ensures Ascending(kept) && Ascending(kept + [last])
  {
    assert forall i :: 0 <= i < |front| ==> (front + [last])[i] == front[i];
    assert (front + [last])[|front|] == last;
    assert forall i :: 0 <= i < |front| ==> front[i] < last;
    forall k | 0 <= k < |kept| ensures kept[k] < last { assert kept[k] in front; }
  }

  /**
   The latest `calibrationWindow` usable rows calibrate; of the usable rows before them, those in the training window
   whose label was settled by the first calibration bar's close train.
   */
  ghost predicate SplitReads(c: Config, past: seq<Row>, now: int, base: seq<nat>, calibration: seq<nat>)
    requires ValidConfig(c)
  {
    var n := c.calibrationWindow;
    && Ascending(base) && Ascending(calibration) && |base| >= c.minTrain && c.calibrationMin <= |calibration| == n
    && (forall j: nat :: j in calibration <==> Rank(past, j, now, 0, n))
    && calibration[0] < |past|
    && forall j: nat :: j in base <==>
         Rank(past, j, now, n, c.trainWindow) && past[j].outcome.value.endTime <= CalibrationStart(c, past, calibration)
  }

  lemma {:induction false} AscendingUnique(a: seq<nat>, b: seq<nat>)
    requires Ascending(a) && Ascending(b) && forall j :: j in a <==> j in b
    ensures a == b
    decreases |a|
  {
    assert a != [] ==> a[0] in b && a[|a| - 1] in b;
    assert b != [] ==> b[0] in a && b[|b| - 1] in a;
    if a != [] && b != [] {
      var m, n := |a| - 1, |b| - 1;
      assert a[m] == b[n];
      forall j | j in a[..m] ensures j in b[..n] { assert j in b && j != b[n]; }
      forall j | j in b[..n] ensures j in a[..m] { assert j in a && j != a[m]; }
      AscendingUnique(a[..m], b[..n]);
      assert a == a[..m] + [a[m]] && b == b[..n] + [b[n]];
    }
  }

  lemma SettledByShrinks(past: seq<Row>, base: seq<nat>, close: int)
    requires forall k :: 0 <= k < |base| ==> base[k] < |past| && past[base[k]].outcome.Some?
    ensures |SettledBy(past, base, close)| <= |base|
  {
  }

  /** The candidates of a refit cut in two: the last `n` and those before. */
  lemma CutByRank(past: seq<Row>, now: int, window: int, n: int)
    requires 0 <= n && 0 <= window && n <= |Last(Candidates(past, now), window)|
    ensures var at := Last(Candidates(past, now), window);
      var early, late := at[..|at| - n], at[|at| - n..];
      && Ascending(early) && Ascending(late) && n <= window
      && (forall j: nat :: j in late <==> Rank(past, j, now, 0, n))
      && (forall j: nat :: j in early <==> Rank(past, j, now, n, window))
  {
    hide Candidates, Rank, Last;
    LastByRank(past, now, window);
    var at := Last(Candidates(past, now), window);
    var early, late := at[..|at| - n], at[|at| - n..];
    forall j: nat ensures (j in late <==> Rank(past, j, now, 0, n)) && (j in early <==> Rank(past, j, now, n, window)) {
      RankSplits(past, now, at, j, n, window);
    }
  }

  lemma RankSplits(past: seq<Row>, now: int, at: seq<nat>, j: nat, n: int, window: int)
    requires 0 <= n <= |at| <= window && (forall k: nat :: k in at <==> Rank(past, k, now, 0, window))
    requires forall q :: 0 <= q < |at| ==> Rank(past, at[q], now, |at| - 1 - q, |at| - q)
    ensures j in at[|at| - n..] <==> Rank(past, j, now, 0, n)
    ensures j in at[..|at| - n] <==> Rank(past, j, now, n, window)
  {
    if Rank(past, j, now, 0, window) {
      var q :| 0 <= q < |at| && at[q] == j;
      if q < |at| - n { assert j == at[..|at| - n][q]; } else { assert j == at[|at| - n..][q - (|at| - n)]; }
    }
  }

  /** A split of the candidates whose parts are long enough. */
  predicate Parts(c: Config, past: seq<Row>, at: seq<nat>, base: seq<nat>, calibration: seq<nat>)
    requires ValidConfig(c) && Trainable(past, at)
  {
    && |calibration| == c.calibrationWindow <= |at| && calibration == at[|at| - c.calibrationWindow..]
    && base == SettledBy(past, at[..|at| - c.calibrationWindow], CalibrationStart(c, past, calibration))
    && |base| >= c.minTrain && |calibration| >= c.calibrationMin
  }

  lemma ChosenParts(c: Config, past: seq<Row>, at: seq<nat>, base: seq<nat>, calibration: seq<nat>)
    requires ValidConfig(c) && Trainable(past, at)
    ensures SplitCandidates(c, past, at) == Chosen(base, calibration) <==> Parts(c, past, at, base, calibration)
  {
    hide SettledBy;
    var late := Last(at, c.calibrationWindow);
    var early := at[..|at| - |late|];
    if at != [] { SettledByShrinks(past, early, CalibrationStart(c, past, late)); }
    assert |at| <= c.calibrationWindow ==> early == [];
  }

  /** What is known of the candidates: by rank, and that they can train. */
  lemma CandidatesKnown(c: Config, past: seq<Row>, now: int)
    requires ValidConfig(c)
    ensures Trainable(past, Last(Candidates(past, now), c.trainWindow))
  {
  }

  lemma PartsRead(c: Config, past: seq<Row>, now: int, base: seq<nat>, calibration: seq<nat>)
    requires ValidConfig(c) && Trainable(past, Last(Candidates(past, now), c.trainWindow))
    requires Parts(c, past, Last(Candidates(past, now), c.trainWindow), base, calibration)
    ensures SplitReads(c, past, now, base, calibration)
  {
    hide Candidates, Rank, SettledBy, Last, Settles, UsableFrom, Ascending;
    var at := Last(Candidates(past, now), c.trainWindow);
    CutByRank(past, now, c.trainWindow, c.calibrationWindow);
    SettledByMeaning(past, at[..|at| - c.calibrationWindow], CalibrationStart(c, past, calibration));
  }

  /** A row that trains has all calibration rows after it. */
  lemma EnoughCandidates(c: Config, past: seq<Row>, now: int, j: nat)
    requires ValidConfig(c) && Rank(past, j, now, c.calibrationWindow, c.trainWindow)
    ensures c.calibrationWindow <= |Last(Candidates(past, now), c.trainWindow)|
  {
    hide Candidates, Last, Settles, UsableFrom;
    LastByRank(past, now, c.trainWindow);
    assert j in Last(Candidates(past, now), c.trainWindow);
  }

  lemma SameMembers(past: seq<Row>, now: int, a: seq<nat>, b: seq<nat>, high: int)
    requires Ascending(a) && Ascending(b)
    requires forall j: nat :: j in a <==> Rank(past, j, now, 0, high)
    requires forall j: nat :: j in b <==> Rank(past, j, now, 0, high)
    ensures a == b
  {
    hide Ascending, Rank;
    AscendingUnique(a, b);
  }

  lemma SameSettled(c: Config, past: seq<Row>, now: int, base: seq<nat>, early: seq<nat>, close: int)
    requires ValidConfig(c) && Ascending(base) && Ascending(early) && Trainable(past, early)
    requires forall j: nat :: j in early <==> Rank(past, j, now, c.calibrationWindow, c.trainWindow)
    requires forall j: nat :: j in base <==>
      Rank(past, j, now, c.calibrationWindow, c.trainWindow) && past[j].outcome.value.endTime <= close
    ensures base == SettledBy(past, early, close)
  {
    hide Ascending, SettledBy, UsableFrom;
    SettledByMeaning(past, early, close);
    AscendingUnique(base, SettledBy(past, early, close));
  }

  lemma ReadsAreParts(c: Config, past: seq<Row>, now: int, base: seq<nat>, calibration: seq<nat>)
    requires ValidConfig(c) && Trainable(past, Last(Candidates(past, now), c.trainWindow))
    requires SplitReads(c, past, now, base, calibration)
    ensures Parts(c, past, Last(Candidates(past, now), c.trainWindow), base, calibration)
  {
    hide Candidates, Rank, SettledBy, Last, Settles, UsableFrom, Ascending;
    var at, n := Last(Candidates(past, now), c.trainWindow), c.calibrationWindow;
    assert base[0] in base;
    EnoughCandidates(c, past, now, base[0]);
    CutByRank(past, now, c.trainWindow, n);
    SameMembers(past, now, calibration, at[|at| - n..], n);
    SameSettled(c, past, now, base, at[..|at| - n], CalibrationStart(c, past, calibration));
  }

  /** The rows a refit uses are these and no others, and it happens exactly when there are such rows. */
  lemma SplitExactly(c: Config, past: seq<Row>, now: int, base: seq<nat>, calibration: seq<nat>)
    requires ValidConfig(c)
    ensures ChooseExpected(c, past, now) == Chosen(base, calibration) <==> SplitReads(c, past, now, base, calibration)
  {
    hide SplitReads, Parts, SplitCandidates, Candidates, Last;
    var at := Last(Candidates(past, now), c.trainWindow);
    CandidatesKnown(c, past, now);
    ChosenParts(c, past, at, base, calibration);
    if Parts(c, past, at, base, calibration) { PartsRead(c, past, now, base, calibration); }
    if SplitReads(c, past, now, base, calibration) { ReadsAreParts(c, past, now, base, calibration); }
  }

  /** In probability mode all usable rows of the training window train, if there are enough in all. */
  lemma ProbabilityExactly(c: Config, past: seq<Row>, now: int, base: seq<nat>, calibration: seq<nat>)
    requires ValidConfig(c)
    ensures ChooseProbability(c, past, now) == Chosen(base, calibration) <==>
      && calibration == [] && Ascending(base) && UsableFrom(past, 0, now) >= c.minTrain
      && forall j: nat :: j in base <==> Rank(past, j, now, 0, c.trainWindow)
  {
    hide Candidates, Rank, Last, UsableFrom, Ascending;
    UsableInAll(past, now);
    LastByRank(past, now, c.trainWindow);
    var at := Last(Candidates(past, now), c.trainWindow);
    if Ascending(base) && forall j: nat :: j in base <==> Rank(past, j, now, 0, c.trainWindow) {
      SameMembers(past, now, base, at, c.trainWindow);
    }
  }

  // ---------------------------------------------------------------- what a fit is

  predicate AreSamples(rows: seq<Row>, picked: seq<nat>, samples: seq<Sample>) {
    && |samples| == |picked|
    && forall k :: 0 <= k < |picked| ==>
         && picked[k] < |rows| && rows[picked[k]].features == Some(samples[k].features)
         && rows[picked[k]].outcome.Some? && rows[picked[k]].outcome.value.value == samples[k].value
  }

  /** Side by side: what the model says of each row and what came of it. */
  predicate Compared(r: Routines, rows: seq<Row>, picked: seq<nat>, model: Model, said: seq<real>, came: seq<real>) {
    && |said| == |came| == |picked|
    && forall k :: 0 <= k < |picked| ==>
         && picked[k] < |rows| && rows[picked[k]].features.Some? && rows[picked[k]].outcome.Some?
         && said[k] == r.predict(model, rows[picked[k]].features.value)
         && came[k] == rows[picked[k]].outcome.value.value
  }

  /** A fit is what its recorded rows make of it, and nothing else. */
  ghost predicate FitReads(mode: Mode, c: Config, r: Routines, rows: seq<Row>, f: Fit) {
    var a := f.active;
    && a.id.trainedAt == f.at + c.intervalNs
    && AreSamples(rows, f.base, a.id.base) && AreSamples(rows, f.calibration, a.id.calibration)
    && a.model == r.fit(a.id.base)
    && if mode.ProbabilityMode? then f.calibration == [] && !a.calibration.eligible
       else exists said, came :: Compared(r, rows, f.calibration, a.model, said, came)
                                 && a.calibration == r.calibrate(said, came)
  }

  /** Every `retrainEvery`th interval since the epoch. */
  predicate FallsDue(c: Config, at: int)
    requires ValidConfig(c)
  {
    at / c.intervalNs % c.retrainEvery == 0
  }

  /** Made at row `i`, from the rows a refit there has to use. */
  ghost predicate FitChosen(mode: Mode, c: Config, rows: seq<Row>, f: Fit, i: nat)
    requires ValidConfig(c)
  {
    && i < |rows| && f.at == rows[i].timestamp && FallsDue(c, f.at) && rows[i].features.Some?
    && var past := Past(rows, i, c);
    if mode.ExpectedReturn? then SplitReads(c, past, f.at, f.base, f.calibration)
    else
      && Ascending(f.base) && UsableFrom(past, 0, f.at) >= c.minTrain
      && forall j: nat :: j in f.base <==> Rank(past, j, f.at, 0, c.trainWindow)
  }

  lemma SamplesAre(past: seq<Row>, rows: seq<Row>, picked: seq<nat>)
    requires past <= rows && Trainable(past, picked)
    ensures AreSamples(rows, picked, SamplesOf(past, picked))
  {
  }

  lemma ExpectedReads(c: Config, r: Routines, past: seq<Row>, rows: seq<Row>, now: int, base: seq<nat>,
      calibration: seq<nat>)
    requires past <= rows && Trainable(past, base) && Trainable(past, calibration)
    ensures FitReads(ExpectedReturn, c, r, rows,
      Fit(now, base, calibration, TrainExpected(c, r, past, now, base, calibration)))
  {
    SamplesAre(past, rows, base);
    SamplesAre(past, rows, calibration);
    var held := SamplesOf(past, calibration);
    var model := r.fit(SamplesOf(past, base));
    assert Compared(r, rows, calibration, model, Predictions(r, model, held), Values(held));
  }

  lemma ProbabilityReads(c: Config, r: Routines, past: seq<Row>, rows: seq<Row>, now: int, base: seq<nat>)
    requires past <= rows && Trainable(past, base)
    ensures FitReads(ProbabilityMode, c, r, rows, Fit(now, base, [], TrainProbability(c, r, past, now, base)))
  {
    SamplesAre(past, rows, base);
  }

  lemma EffectReads(mode: Mode, c: Config, r: Routines, rows: seq<Row>, i: nat, active: Option<Active>)
    requires ValidConfig(c) && i < |rows|
    ensures var e := EffectAt(mode, c, r, rows, i, active);
      e.fit.Some? ==> FitReads(mode, c, r, rows, e.fit.value) && FitChosen(mode, c, rows, e.fit.value, i)
  {
    hide FitReads, SplitReads, ChooseExpected, ChooseProbability, TrainExpected, TrainProbability, ForecastFor, Rank;
    var past, now := Past(rows, i, c), rows[i].timestamp;
    if mode.ExpectedReturn? {
      var chosen := ChooseExpected(c, past, now);
      if chosen.Chosen? {
        SplitExactly(c, past, now, chosen.base, chosen.calibration);
        ExpectedReads(c, r, past, rows, now, chosen.base, chosen.calibration);
      }
    } else {
      var chosen := ChooseProbability(c, past, now);
      if chosen.Chosen? {
        ProbabilityExactly(c, past, now, chosen.base, chosen.calibration);
        ProbabilityReads(c, r, past, rows, now, chosen.base);
      }
    }
  }

  /** A refit happens exactly at a due row with features and enough settled rows more than the horizon before it. */
  lemma FitsExactly(mode: Mode, c: Config, r: Routines, rows: seq<Row>, i: nat, active: Option<Active>)
    requires ValidConfig(c) && i < |rows|
    ensures var past, now := Past(rows, i, c), rows[i].timestamp;
      EffectAt(mode, c, r, rows, i, active).fit.Some? <==>
        rows[i].features.Some? && FallsDue(c, now)
        && if mode.ExpectedReturn? then exists base, calibration :: SplitReads(c, past, now, base, calibration)
           else UsableFrom(past, 0, now) >= c.minTrain
  {
    hide SplitReads, ChooseExpected, ChooseProbability, TrainExpected, TrainProbability, ForecastFor, Rank;
    var past, now := Past(rows, i, c), rows[i].timestamp;
    if mode.ExpectedReturn? {
      var chosen := ChooseExpected(c, past, now);
      if chosen.Chosen? { SplitExactly(c, past, now, chosen.base, chosen.calibration); }
      if exists base, calibration :: SplitReads(c, past, now, base, calibration) {
        var base, calibration :| SplitReads(c, past, now, base, calibration);
        SplitExactly(c, past, now, base, calibration);
        SplitNeedsRows(c, past, now, base, calibration);
      }
    } else {
      ProbabilityHappens(c, past, now);
    }
  }

  lemma SplitNeedsRows(c: Config, past: seq<Row>, now: int, base: seq<nat>, calibration: seq<nat>)
    requires ValidConfig(c) && SplitReads(c, past, now, base, calibration)
    ensures past != []
  {
  }

  lemma ProbabilityHappens(c: Config, past: seq<Row>, now: int)
    requires ValidConfig(c)
    ensures ChooseProbability(c, past, now).Chosen? <==> UsableFrom(past, 0, now) >= c.minTrain
    ensures past == [] ==> ChooseProbability(c, past, now).TooFew?
  {
    hide UsableFrom, Last;
    UsableInAll(past, now);
  }

  ghost predicate WasChosen(mode: Mode, c: Config, rows: seq<Row>, f: Fit)
    requires ValidConfig(c)
  {
    exists i :: FitChosen(mode, c, rows, f, i)
  }

  ghost predicate AllRead(mode: Mode, c: Config, r: Routines, rows: seq<Row>, fits: seq<Fit>)
    requires ValidConfig(c)
  {
    forall k :: 0 <= k < |fits| ==>
      FitReads(mode, c, r, rows, fits[k]) && WasChosen(mode, c, rows, fits[k])
  }

  lemma OneMoreRead(mode: Mode, c: Config, r: Routines, rows: seq<Row>, fits: seq<Fit>, f: Option<Fit>, i: nat)
    requires ValidConfig(c) && AllRead(mode, c, r, rows, fits)
    requires f.Some? ==> FitReads(mode, c, r, rows, f.value) && FitChosen(mode, c, rows, f.value, i)
    ensures AllRead(mode, c, r, rows, fits + if f.Some? then [f.value] else [])
  {
    hide FitReads, FitChosen, WasChosen;
    if f.Some? { assert WasChosen(mode, c, rows, f.value) by { ChosenAt(mode, c, rows, f.value, i); } }
  }

  lemma ChosenAt(mode: Mode, c: Config, rows: seq<Row>, f: Fit, i: nat)
    requires ValidConfig(c) && FitChosen(mode, c, rows, f, i)
    ensures WasChosen(mode, c, rows, f)
  {
    hide FitChosen;
  }

  /**
   Every fit of a walk, in either mode, was made from the rows it records: the model and its identity are those of the
   training rows, its calibration compares its predictions on the calibration rows with what came of them, and these
   rows are the ones a refit at that time has to use.
   */
  lemma {:induction false} EveryFitReads(mode: Mode, c: Config, r: Routines, rows: seq<Row>, n: nat)
    requires ValidConfig(c) && n <= |rows|
    ensures AllRead(mode, c, r, rows, Walk(mode, c, r, rows, n).fits)
  {
    hide EffectAt, FitReads, FitChosen, WasChosen;
    if n > 0 {
      EveryFitReads(mode, c, r, rows, n - 1);
      var before := Walk(mode, c, r, rows, n - 1);
      EffectReads(mode, c, r, rows, n - 1, before.active);
      OneMoreRead(mode, c, r, rows, before.fits, EffectAt(mode, c, r, rows, n - 1, before.active).fit, n - 1);
    }
  }

  // ---------------------------------------------------------------- what a fit cannot depend on

  /** The same rows but for the values of their labels. */
  predicate SameShape(p: Row, q: Row) {
    && p.(outcome := None) == q.(outcome := None) && p.outcome.Some? == q.outcome.Some?
    && (p.outcome.Some? ==> p.outcome.value.endTime == q.outcome.value.endTime)
  }

  predicate SameShapes(p: seq<Row>, q: seq<Row>) {
    |p| == |q| && forall j :: 0 <= j < |p| ==> SameShape(p[j], q[j])
  }

  /** The same rows at the same time, perhaps with another model. */
  predicate SameRows(f: Fit, g: Fit) {
    f.at == g.at && f.base == g.base && f.calibration == g.calibration
  }

  lemma {:induction false} ShapesChoose(p: seq<Row>, q: seq<Row>, now: int)
    requires SameShapes(p, q)
    ensures Candidates(p, now) == Candidates(q, now)
    decreases |p|
  {
    if p != [] {
      assert SameShape(p[|p| - 1], q[|q| - 1]);
      ShapesChoose(p[..|p| - 1], q[..|q| - 1], now);
    }
  }

  lemma {:induction false} ShapesSettle(p: seq<Row>, q: seq<Row>, base: seq<nat>, close: int)
    requires SameShapes(p, q) && forall k :: 0 <= k < |base| ==> base[k] < |p| && p[base[k]].outcome.Some?
    requires forall k :: 0 <= k < |base| ==> q[base[k]].outcome.Some?
    ensures SettledBy(p, base, close) == SettledBy(q, base, close)
    decreases |base|
  {
    if base != [] {
      assert SameShape(p[base[|base| - 1]], q[base[|base| - 1]]);
      ShapesSettle(p, q, base[..|base| - 1], close);
    }
  }

  lemma ShapesSplit(c: Config, p: seq<Row>, q: seq<Row>, candidates: seq<nat>)
    requires ValidConfig(c) && SameShapes(p, q) && Trainable(p, candidates) && Trainable(q, candidates)
    ensures SplitCandidates(c, p, candidates) == SplitCandidates(c, q, candidates)
  {
    hide SettledBy;
    if |candidates| >= c.minTrain + c.calibrationMin {
      var calibration := Last(candidates, c.calibrationWindow);
      assert SameShape(p[calibration[0]], q[calibration[0]]);
      var close := CalibrationStart(c, p, calibration);
      ShapesSettle(p, q, candidates[..|candidates| - |calibration|], close);
    }
  }

  predicate SameFits(f: Option<Fit>, g: Option<Fit>) {
    f.Some? == g.Some? && (f.Some? ==> SameRows(f.value, g.value))
  }

  lemma ShapesChosen(c: Config, p: seq<Row>, q: seq<Row>, now: int)
    requires ValidConfig(c) && SameShapes(p, q)
    ensures ChooseExpected(c, p, now) == ChooseExpected(c, q, now)
    ensures ChooseProbability(c, p, now) == ChooseProbability(c, q, now)
  {
    CandidatesKnown(c, p, now);
    CandidatesKnown(c, q, now);
    hide SplitCandidates, SameShapes, Candidates, Last, Trainable;
    ShapesChoose(p, q, now);
    ShapesSplit(c, p, q, Last(Candidates(p, now), c.trainWindow));
  }

  lemma ShapesRefit(mode: Mode, c: Config, r: Routines, p: seq<Row>, q: seq<Row>, now: int)
    requires ValidConfig(c) && SameShapes(p, q)
    ensures SameFits(Refit(mode, c, r, p, now), Refit(mode, c, r, q, now))
  {
    hide TrainExpected, TrainProbability, ChooseExpected, ChooseProbability, SameShapes, Trainable;
    ShapesChosen(c, p, q, now);
  }

  lemma ShapesEffect(mode: Mode, c: Config, r: Routines, p: seq<Row>, q: seq<Row>, i: nat, a: Option<Active>,
      b: Option<Active>)
    requires ValidConfig(c) && i < |p| && SameShapes(p, q) && a.Some? == b.Some?
    ensures var e, f := EffectAt(mode, c, r, p, i, a), EffectAt(mode, c, r, q, i, b);
      e.active.Some? == f.active.Some? && SameFits(e.fit, f.fit)
  {
    hide Refit, ForecastFor;
    assert SameShape(p[i], q[i]);
    assert SameShapes(Past(p, i, c), Past(q, i, c));
    ShapesRefit(mode, c, r, Past(p, i, c), Past(q, i, c), p[i].timestamp);
  }

  predicate AllSame(v: seq<Fit>, w: seq<Fit>) {
    |v| == |w| && forall k :: 0 <= k < |v| ==> SameRows(v[k], w[k])
  }

  lemma OneMoreSame(v: seq<Fit>, w: seq<Fit>, f: Option<Fit>, g: Option<Fit>)
    requires AllSame(v, w) && SameFits(f, g)
    ensures AllSame(v + if f.Some? then [f.value] else [], w + if g.Some? then [g.value] else [])
  {
  }

  /** Walks that make the same fits from the same rows. */
  predicate SameWalks(v: Walked, w: Walked) {
    v.active.Some? == w.active.Some? && AllSame(v.fits, w.fits)
  }

  lemma OneStepSame(v: Walked, w: Walked, e: Effect, f: Effect, a: seq<Option<Prediction>>, b: seq<Option<Prediction>>)
    requires SameWalks(v, w) && SameFits(e.fit, f.fit) && e.active.Some? == f.active.Some?
    ensures SameWalks(Walked(e.active, a, v.fits + if e.fit.Some? then [e.fit.value] else []),
                      Walked(f.active, b, w.fits + if f.fit.Some? then [f.fit.value] else []))
  {
    hide AllSame, SameFits;
    OneMoreSame(v.fits, w.fits, e.fit, f.fit);
  }

  lemma StepSame(mode: Mode, c: Config, r: Routines, p: seq<Row>, q: seq<Row>, i: nat)
    requires ValidConfig(c) && i < |p| == |q| && SameShapes(p, q)
    requires SameWalks(Walk(mode, c, r, p, i), Walk(mode, c, r, q, i))
    ensures SameWalks(Walk(mode, c, r, p, i + 1), Walk(mode, c, r, q, i + 1))
  {
    var v, w := Walk(mode, c, r, p, i), Walk(mode, c, r, q, i);
    var e, f := EffectAt(mode, c, r, p, i, v.active), EffectAt(mode, c, r, q, i, w.active);
    assert v.active.Some? == w.active.Some?;
    hide EffectAt, SameShapes, SameFits, SameWalks;
    ShapesEffect(mode, c, r, p, q, i, v.active, w.active);
    OneStepSame(v, w, e, f, v.outputs + [e.output], w.outputs + [f.output]);
  }

  lemma NothingWalked(mode: Mode, c: Config, r: Routines, p: seq<Row>, q: seq<Row>)
    requires ValidConfig(c)
    ensures SameWalks(Walk(mode, c, r, p, 0), Walk(mode, c, r, q, 0))
  {
  }

  /** Label values never decide when a walk fits or which rows it uses. */
  lemma {:induction false} ValuesNeverChoose(mode: Mode, c: Config, r: Routines, p: seq<Row>, q: seq<Row>, n: nat)
    requires ValidConfig(c) && n <= |p| && SameShapes(p, q)
    ensures SameWalks(Walk(mode, c, r, p, n), Walk(mode, c, r, q, n))
  {
    assert |p| == |q|;
    hide Walk, SameWalks, SameShapes;
    if n == 0 {
      NothingWalked(mode, c, r, p, q);
    } else {
      ValuesNeverChoose(mode, c, r, p, q, n - 1);
      StepSame(mode, c, r, p, q, n - 1);
    }
  }

  /** The latest moment whose labels a fit's model may know. */
  function KnownBy(c: Config, rows: seq<Row>, f: Fit): int
    requires f.calibration != [] ==> f.calibration[0] < |rows|
  {
    if f.calibration == [] then f.at else CalibrationStart(c, rows, f.calibration)
  }

  predicate SameUpTo(p: seq<Row>, q: seq<Row>, time: int) {
    && SameShapes(p, q)
    && forall j :: 0 <= j < |p| && p[j].outcome.Some? && p[j].outcome.value.endTime <= time ==> p[j] == q[j]
  }

  lemma SameSamples(p: seq<Row>, q: seq<Row>, picked: seq<nat>, a: seq<Sample>, b: seq<Sample>, time: int)
    requires SameUpTo(p, q, time) && UsableBy(p, picked, time) && AreSamples(p, picked, a) && AreSamples(q, picked, b)
    ensures a == b
  {
    forall k | 0 <= k < |picked| ensures a[k] == b[k] {
      assert Settled(p, picked[k], time);
      assert p[picked[k]] == q[picked[k]];
    }
  }

  /**
   No model looks ahead: rewrite the value of every label that was not settled when the first calibration bar closed
   (in probability mode, when the fit was made), and the walk still makes the same fit, with the same model.
   */
  lemma LateLabelsDoNotTrain(mode: Mode, c: Config, r: Routines, p: seq<Row>, q: seq<Row>, n: nat, k: nat)
    requires ValidConfig(c) && n <= |p| && SameShapes(p, q) && k < |Walk(mode, c, r, p, n).fits|
    requires var f := Walk(mode, c, r, p, n).fits[k];
      (f.calibration != [] ==> f.calibration[0] < |p|) && SameUpTo(p, q, KnownBy(c, p, f))
    ensures k < |Walk(mode, c, r, q, n).fits|
    ensures var f, g := Walk(mode, c, r, p, n).fits[k], Walk(mode, c, r, q, n).fits[k];
      && SameRows(f, g) && f.active.id.base == g.active.id.base && f.active.model == g.active.model
  {
    assert |p| == |q|;
    hide Walk, WasChosen, SameUpTo, SameShapes;
    ValuesNeverChoose(mode, c, r, p, q, n);
    EveryFitReads(mode, c, r, p, n);
    EveryFitReads(mode, c, r, q, n);
    EveryFitSettled(mode, c, r, p, n);
    var f, g := Walk(mode, c, r, p, n).fits[k], Walk(mode, c, r, q, n).fits[k];
    assert FitReads(mode, c, r, p, f) && FitReads(mode, c, r, q, g) && SettledFit(f, p, c);
    SameSamples(p, q, f.base, f.active.id.base, g.active.id.base, KnownBy(c, p, f));
  }

  // ---------------------------------------------------------------- forecasts

  /** `x` is `raw`, or the end of the calibrated range it lies beyond. */
  predicate IsClamped(x: real, raw: real, low: real, high: real) {
    low <= high ==>
      low <= x <= high && (low <= raw <= high ==> x == raw) && (raw < low ==> x == low) && (raw > high ==> x == high)
  }

  predicate OnLine(y: real, k: Calibration, x: real) {
    y == k.intercept + k.slope * x
  }

  /** A forecast by fit `f`: its calibrated return, what costs and the buffer leave of it, and why not to act. */
  ghost predicate ForecastReads(c: Config, r: Routines, f: Fit, row: Row, p: Prediction) {
    && p.Forecast? && row.features.Some? && p.id == f.active.id
    && var k := f.active.calibration;
    && p.raw == r.predict(f.active.model, row.features.value)
    && (exists x :: IsClamped(x, p.raw, k.rawMin, k.rawMax) && OnLine(p.gross, k, x))
    && p.buffer == k.buffer && p.gross == c.cost + p.buffer + p.netEdge
    && (p.eligible <==> p.reason == Eligible) && (p.reason == CalibrationIneligible <==> !k.eligible)
    && (p.reason == RegimeFilter <==> k.eligible && !(row.regimeGap.Some? && row.regimeGap.value >= c.regimeMin))
    && (p.eligible <==>
          && k.eligible && row.regimeGap.Some? && row.regimeGap.value >= c.regimeMin
          && p.gross >= c.cost + k.buffer + c.minimumEdge)
  }

  lemma ForecastMeaning(c: Config, r: Routines, f: Fit, row: Row)
    requires row.features.Some?
    ensures ForecastReads(c, r, f, row, ForecastFor(c, r, f.active, row.features.value, row.regimeGap))
  {
    var k, raw := f.active.calibration, r.predict(f.active.model, row.features.value);
    var x := Clip(raw, k.rawMin, k.rawMax);
    assert IsClamped(x, raw, k.rawMin, k.rawMax) && OnLine(Line(k.intercept, k.slope, x), k, x);
  }

  /** What row `i` of a walk gets from the last fit made at or before it. */
  ghost predicate OutputReads(mode: Mode, c: Config, r: Routines, rows: seq<Row>, i: nat)
    requires i < |rows| && ValidConfig(c)
  {
    var w := Walk(mode, c, r, rows, i + 1);
    var output := w.outputs[i];
    && (output.Some? ==> rows[i].features.Some? && w.fits != [])
    && match mode
    case ExpectedReturn =>
      && (rows[i].features.Some? && w.fits != [] ==> output.Some?)
      && (output.Some? ==> ForecastReads(c, r, w.fits[|w.fits| - 1], rows[i], output.value))
    case ProbabilityMode =>
      output.Some? ==>
        && var a := w.fits[|w.fits| - 1].active;
        output.value == Probability(a.id, r.predict(a.model, rows[i].features.value))
  }

  predicate ActiveIsLast(w: Walked) {
    && (w.active.Some? <==> w.fits != [])
    && (w.fits != [] ==> w.active == Some(w.fits[|w.fits| - 1].active))
  }

  lemma NoneActive()
    ensures ActiveIsLast(Walked(None, [], []))
  {
  }

  lemma StepReads(mode: Mode, c: Config, r: Routines, rows: seq<Row>, i: nat)
    requires ValidConfig(c) && i < |rows| && ActiveIsLast(Walk(mode, c, r, rows, i))
    ensures ActiveIsLast(Walk(mode, c, r, rows, i + 1)) && OutputReads(mode, c, r, rows, i)
  {
    var before, w := Walk(mode, c, r, rows, i), Walk(mode, c, r, rows, i + 1);
    EffectGives(mode, c, r, rows, i, before.active);
    hide EffectAt, Walk, ForecastFor, ForecastReads;
    assert before.fits + [] == before.fits;
    if rows[i].features.Some? && w.fits != [] { ForecastMeaning(c, r, w.fits[|w.fits| - 1], rows[i]); }
  }

  /** What an effect consists of: a fit brings its model, and the model in use makes the output. */
  lemma EffectGives(mode: Mode, c: Config, r: Routines, rows: seq<Row>, i: nat, active: Option<Active>)
    requires ValidConfig(c) && i < |rows|
    ensures var e, row := EffectAt(mode, c, r, rows, i, active), rows[i];
      && e.active == (if e.fit.Some? then Some(e.fit.value.active) else active)
      && (e.output.Some? ==> row.features.Some? && e.active.Some?)
      && (mode.ExpectedReturn? && row.features.Some? && e.active.Some? ==>
            e.output == Some(ForecastFor(c, r, e.active.value, row.features.value, row.regimeGap)))
      && (mode.ProbabilityMode? && e.output.Some? ==>
            e.output.value
            == Probability(e.active.value.id, r.predict(e.active.value.model, row.features.value)))
  {
    hide Refit, ForecastFor;
  }

  /** Every output of a walk, in either mode, is what the last fit makes of its row. */
  lemma {:induction false} EveryOutputReads(mode: Mode, c: Config, r: Routines, rows: seq<Row>, n: nat)
    requires ValidConfig(c) && n <= |rows|
    ensures ActiveIsLast(Walk(mode, c, r, rows, n))
    ensures forall i :: 0 <= i < n ==> OutputReads(mode, c, r, rows, i)
  {
    hide EffectAt, OutputReads, ActiveIsLast;
    NoneActive();
    if n > 0 {
      EveryOutputReads(mode, c, r, rows, n - 1);
      StepReads(mode, c, r, rows, n - 1);
    }
  }
}
