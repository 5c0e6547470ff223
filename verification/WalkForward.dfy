/**
 Walk-forward prediction over candles: features look backward inside a contiguous segment, labels look forward,
 and a model is refitted on a schedule from settled labels only. Feature windows, fitting, prediction and
 calibration arithmetic are uninterpreted functions of what they are given.
 */
module WalkForward {
  import opened Envelopes

  datatype Candle = Candle(timestamp: int, open: real, high: real, low: real, close: real, volume: real)

  type Features = seq<real>
  type Model = seq<real>

  datatype Label = Label(value: real, endTime: int)

  /** One row of the feature frame; features are present when all their columns are finite. */
  datatype Row = Row(timestamp: int, features: Option<Features>, regimeGap: Option<real>, outcome: Option<Label>)

  datatype Sample = Sample(features: Features, value: real)

  datatype Calibration = Calibration(intercept: real, slope: real, buffer: real, rawMin: real, rawMax: real,
      eligible: bool)

  datatype Routines = Routines(
    features: seq<Candle> -> Option<Features>,
    regimeGap: seq<Candle> -> Option<real>,
    fit: seq<Sample> -> Model,
    predict: (Model, Features) -> real,
    calibrate: (seq<real>, seq<real>) -> Calibration)

  datatype Config = Config(
    intervalNs: int, horizon: int, minTrain: int, trainWindow: int, retrainEvery: int,
    calibrationWindow: int, calibrationMin: int, cost: real, minimumEdge: real, regimeMin: real)

  predicate ValidConfig(c: Config) {
    && c.intervalNs > 0 && c.horizon >= 1 && c.minTrain >= 1 && c.trainWindow >= 1 && c.retrainEvery >= 1
    && c.calibrationWindow >= 1 && c.calibrationMin >= 1
  }

  predicate ValidCandles(candles: seq<Candle>) {
    && (forall i :: 0 <= i < |candles| ==> candles[i].open > 0.0)
    && forall i, j :: 0 <= i < j < |candles| ==> candles[i].timestamp < candles[j].timestamp
  }

  // ---------------------------------------------------------------- the feature frame

  predicate Follows(candles: seq<Candle>, i: nat, intervalNs: int)
    requires 0 < i < |candles|
  {
    candles[i].timestamp - candles[i - 1].timestamp == intervalNs
  }

  /** Where the contiguous segment of position `i` starts. */
  function SegmentStart(candles: seq<Candle>, i: nat, intervalNs: int): (start: nat)
    requires i < |candles|
    ensures start <= i
  {
    if i > 0 && Follows(candles, i, intervalNs) then SegmentStart(candles, i - 1, intervalNs) else i
  }

  function GrossReturn(entry: real, exit: real): real
    requires entry > 0.0
  {
    exit / entry - 1.0
  }

  /** Enter at the next open, leave `horizon` bars later; unknown when the segment ends before that. */
  function LabelAt(candles: seq<Candle>, i: nat, c: Config): Option<Label>
    requires ValidCandles(candles) && ValidConfig(c) && i < |candles|
  {
    var exit := i + c.horizon + 1;
    if exit < |candles| && SegmentStart(candles, exit, c.intervalNs) <= i then
      Some(Label(GrossReturn(candles[i + 1].open, candles[exit].open), candles[exit].timestamp))
    else None
  }

  function RowAt(candles: seq<Candle>, i: nat, c: Config, r: Routines): Row
    requires ValidCandles(candles) && ValidConfig(c) && i < |candles|
  {
    var window := candles[SegmentStart(candles, i, c.intervalNs)..i + 1];
    Row(candles[i].timestamp, r.features(window), r.regimeGap(window), LabelAt(candles, i, c))
  }

  function Dataset(candles: seq<Candle>, c: Config, r: Routines): (rows: seq<Row>)
    requires ValidCandles(candles) && ValidConfig(c)
    ensures |rows| == |candles| && forall i :: 0 <= i < |rows| ==> rows[i] == RowAt(candles, i, c, r)
  {
    seq(|candles|, i requires 0 <= i < |candles| => RowAt(candles, i, c, r))
  }

  /** Positions `start` to `end` form one whole segment. */
  predicate Segment(candles: seq<Candle>, start: nat, end: nat, intervalNs: int) {
    && start < end <= |candles|
    && (start > 0 ==> !Follows(candles, start, intervalNs))
    && (forall k :: start < k < end ==> Follows(candles, k, intervalNs))
    && (end < |candles| ==> !Follows(candles, end, intervalNs))
  }

  lemma {:induction false} StartInSegment(candles: seq<Candle>, start: nat, end: nat, intervalNs: int, i: nat)
    requires Segment(candles, start, end, intervalNs) && start <= i < |candles|
    ensures i < end ==> SegmentStart(candles, i, intervalNs) == start
    ensures i >= end ==> SegmentStart(candles, i, intervalNs) >= end
  {
    if i > start { StartInSegment(candles, start, end, intervalNs, i - 1); }
  }

  /** A row from its segment alone: a backward window, and a label shifted by positions. */
  function RowInSegment(segment: seq<Candle>, k: nat, c: Config, r: Routines): Row
    requires k < |segment| && ValidConfig(c) && forall i :: 0 <= i < |segment| ==> segment[i].open > 0.0
  {
    var exit := k + c.horizon + 1;
    Row(segment[k].timestamp, r.features(segment[..k + 1]), r.regimeGap(segment[..k + 1]),
      LabelInSegment(segment, k, exit))
  }

  function LabelInSegment(segment: seq<Candle>, k: nat, exit: nat): Option<Label>
    requires k < exit && forall i :: 0 <= i < |segment| ==> segment[i].open > 0.0
  {
    if exit < |segment| then Some(Label(GrossReturn(segment[k + 1].open, segment[exit].open), segment[exit].timestamp))
      else None
  }

  lemma SegmentLabel(candles: seq<Candle>, start: nat, end: nat, c: Config, k: nat)
    requires ValidCandles(candles) && ValidConfig(c) && Segment(candles, start, end, c.intervalNs) && start + k < end
    ensures LabelInSegment(candles[start..end], k, k + c.horizon + 1) == LabelAt(candles, start + k, c)
  {
    var exit := start + k + c.horizon + 1;
    if exit < |candles| { StartInSegment(candles, start, end, c.intervalNs, exit); }
  }

  lemma SegmentRow(candles: seq<Candle>, start: nat, end: nat, c: Config, r: Routines, k: nat)
    requires ValidCandles(candles) && ValidConfig(c) && Segment(candles, start, end, c.intervalNs) && start + k < end
    ensures RowInSegment(candles[start..end], k, c, r) == RowAt(candles, start + k, c, r)
  {
    hide LabelInSegment, LabelAt;
    var i := start + k;
    StartInSegment(candles, start, end, c.intervalNs, i);
    SegmentLabel(candles, start, end, c, k);
    assert candles[start..end][..k + 1] == candles[start..i + 1];
  }

  /** One segment at a time, written into the frame in place. */
  method BuildDataset(candles: seq<Candle>, c: Config, r: Routines) returns (rows: array<Row>)
    requires ValidCandles(candles) && ValidConfig(c)
    ensures fresh(rows) && rows[..] == Dataset(candles, c, r)
  {
    rows := new Row[|candles|](_ => Row(0, None, None, None));
    var start := 0;
    while start < |candles|
      invariant 0 <= start <= |candles|
      invariant 0 < start < |candles| ==> !Follows(candles, start, c.intervalNs)
      invariant forall i :: 0 <= i < start ==> rows[i] == RowAt(candles, i, c, r)
      decreases |candles| - start
    {
      var end := start + 1;
      while end < |candles| && Follows(candles, end, c.intervalNs)
        invariant start < end <= |candles|
        invariant forall k :: start < k < end ==> Follows(candles, k, c.intervalNs)
      {
        end := end + 1;
      }
      var segment := candles[start..end];
      for k := 0 to |segment|
        invariant forall i :: 0 <= i < start + k ==> rows[i] == RowAt(candles, i, c, r)
      {
        SegmentRow(candles, start, end, c, r, k);
        rows[start + k] := RowInSegment(segment, k, c, r);
      }
      start := end;
    }
  }

  // ---------------------------------------------------------------- training sets

  predicate Usable(row: Row, now: int) {
    row.features.Some? && row.outcome.Some? && row.outcome.value.endTime <= now
  }

  /** Earlier rows with features and a label settled by `now`, in order. */
  function Candidates(past: seq<Row>, now: int): (picked: seq<nat>)
    ensures forall k :: 0 <= k < |picked| ==> picked[k] < |past| && Usable(past[picked[k]], now)
    decreases |past|
  {
    if past == [] then []
    else
      var m := |past| - 1;
      Candidates(past[..m], now) + if Usable(past[m], now) then [m] else []
  }

  function Last<T>(s: seq<T>, window: int): (t: seq<T>)
    requires window >= 0
    ensures |t| == if |s| <= window then |s| else window
    ensures forall k :: 0 <= k < |t| ==> t[k] == s[|s| - |t| + k]
  {
    if |s| <= window then s else s[|s| - window..]
  }

  /** Of `base`, the rows whose label was settled by `close`. */
  function SettledBy(past: seq<Row>, base: seq<nat>, close: int): (kept: seq<nat>)
    requires forall k :: 0 <= k < |base| ==> base[k] < |past| && past[base[k]].outcome.Some?
    ensures forall k :: 0 <= k < |kept| ==> kept[k] in base && past[kept[k]].outcome.value.endTime <= close
    decreases |base|
  {
    if base == [] then []
    else
      var m := |base| - 1;
      SettledBy(past, base[..m], close) + if past[base[m]].outcome.value.endTime <= close then [base[m]] else []
  }

  function SamplesOf(past: seq<Row>, picked: seq<nat>): (samples: seq<Sample>)
    requires Trainable(past, picked)
    ensures |samples| == |picked|
  {
    seq(|picked|,
      k requires 0 <= k < |picked| => Sample(past[picked[k]].features.value, past[picked[k]].outcome.value.value))
  }

  // ---------------------------------------------------------------- refits

  datatype Mode = ExpectedReturn | ProbabilityMode

  /** The identity of a fitted model: when it was trained and on what. */
  datatype ModelId = ModelId(trainedAt: int, base: seq<Sample>, calibration: seq<Sample>)

  datatype Active = Active(id: ModelId, model: Model, calibration: Calibration)

  /** `base` and `calibration` are the rows used. */
  datatype Fit = Fit(at: int, base: seq<nat>, calibration: seq<nat>, active: Active)

  function Predictions(r: Routines, model: Model, samples: seq<Sample>): (p: seq<real>)
    ensures |p| == |samples|
  {
    seq(|samples|, k requires 0 <= k < |samples| => r.predict(model, samples[k].features))
  }

  function Values(samples: seq<Sample>): (v: seq<real>)
    ensures |v| == |samples|
  {
    seq(|samples|, k requires 0 <= k < |samples| => samples[k].value)
  }

  /** Close of the first calibration bar. */
  function CalibrationStart(c: Config, past: seq<Row>, calibration: seq<nat>): int
    requires calibration != [] && calibration[0] < |past|
  {
    past[calibration[0]].timestamp + c.intervalNs
  }

  /** The rows a refit trains on and calibrates with. */
  datatype Chosen = Chosen(base: seq<nat>, calibration: seq<nat>) | TooFew

  predicate Trainable(past: seq<Row>, picked: seq<nat>) {
    forall k :: 0 <= k < |picked| ==>
      picked[k] < |past| && past[picked[k]].features.Some? && past[picked[k]].outcome.Some?
  }

  /** The latest candidates calibrate; of the others, those settled by the first calibration bar's close train. */
  function SplitCandidates(c: Config, past: seq<Row>, candidates: seq<nat>): (chosen: Chosen)
    requires ValidConfig(c) && Trainable(past, candidates)
    ensures chosen.Chosen? ==> Trainable(past, chosen.base) && Trainable(past, chosen.calibration)
  {
    if |candidates| < c.minTrain + c.calibrationMin then TooFew
    else
      var calibration := Last(candidates, c.calibrationWindow);
      var base := SettledBy(past, candidates[..|candidates| - |calibration|], CalibrationStart(c, past, calibration));
      if |base| < c.minTrain || |calibration| < c.calibrationMin then TooFew else Chosen(base, calibration)
  }

  function ChooseExpected(c: Config, past: seq<Row>, now: int): (chosen: Chosen)
    requires ValidConfig(c)
    ensures chosen.Chosen? ==> Trainable(past, chosen.base) && Trainable(past, chosen.calibration)
  {
    SplitCandidates(c, past, Last(Candidates(past, now), c.trainWindow))
  }

  function ChooseProbability(c: Config, past: seq<Row>, now: int): (chosen: Chosen)
    requires ValidConfig(c)
    ensures chosen.Chosen? ==> Trainable(past, chosen.base) && Trainable(past, chosen.calibration)
  {
    var candidates := Candidates(past, now);
    if |candidates| < c.minTrain then TooFew else Chosen(Last(candidates, c.trainWindow), [])
  }

  function TrainExpected(c: Config, r: Routines, past: seq<Row>, now: int, base: seq<nat>,
      calibration: seq<nat>): Active
    requires Trainable(past, base) && Trainable(past, calibration)
  {
    var fitted, held := SamplesOf(past, base), SamplesOf(past, calibration);
    var model := r.fit(fitted);
    Active(ModelId(now + c.intervalNs, fitted, held), model, r.calibrate(Predictions(r, model, held), Values(held)))
  }

  const NO_CALIBRATION := Calibration(0.0, 0.0, 0.0, 0.0, 0.0, false)

  function TrainProbability(c: Config, r: Routines, past: seq<Row>, now: int, base: seq<nat>): Active
    requires Trainable(past, base)
  {
    var fitted := SamplesOf(past, base);
    Active(ModelId(now + c.intervalNs, fitted, []), r.fit(fitted), NO_CALIBRATION)
  }

  function Refit(mode: Mode, c: Config, r: Routines, past: seq<Row>, now: int): Option<Fit>
    requires ValidConfig(c)
  {
    var chosen := if mode.ExpectedReturn? then ChooseExpected(c, past, now) else ChooseProbability(c, past, now);
    match chosen
    case TooFew => None
    case Chosen(base, calibration) =>
      Some(Fit(now, base, calibration,
               if mode.ExpectedReturn? then TrainExpected(c, r, past, now, base, calibration)
               else TrainProbability(c, r, past, now, base)))
  }

  // ---------------------------------------------------------------- one row

  datatype Reason = CalibrationIneligible | RegimeFilter | EdgeBelowMinimum | Eligible

  datatype Prediction =
    | Probability(id: ModelId, probability: real)
    | Forecast(id: ModelId, raw: real, gross: real, buffer: real, netEdge: real, eligible: bool, reason: Reason)

  function Clip(x: real, low: real, high: real): real {
    var atLeast := if x < low then low else x;
    if atLeast > high then high else atLeast
  }

  function Line(intercept: real, slope: real, x: real): real {
    intercept + slope * x
  }

  function ForecastFor(c: Config, r: Routines, active: Active, features: Features,
      regimeGap: Option<real>): (p: Prediction)
    ensures p.id == active.id
  {
    var raw, k := r.predict(active.model, features), active.calibration;
    var gross := Line(k.intercept, k.slope, Clip(raw, k.rawMin, k.rawMax));
    var netEdge := gross - c.cost - k.buffer;
    var regimeOk := regimeGap.Some? && regimeGap.value >= c.regimeMin;
    Forecast(active.id, raw, gross, k.buffer, netEdge,
             k.eligible && regimeOk && netEdge >= c.minimumEdge,
             if !k.eligible then CalibrationIneligible
             else if !regimeOk then RegimeFilter
             else if netEdge < c.minimumEdge then EdgeBelowMinimum
             else Eligible)
  }

  datatype Walked = Walked(active: Option<Active>, outputs: seq<Option<Prediction>>, fits: seq<Fit>)

  predicate Scheduled(c: Config, now: int)
    requires ValidConfig(c)
  {
    now / c.intervalNs % c.retrainEvery == 0
  }

  /** What a row does: the model after it, its prediction and the fit it made. */
  datatype Effect = Effect(active: Option<Active>, output: Option<Prediction>, fit: Option<Fit>)

  /** With `fit` what a refit at this row would give, if one is due and has rows to train on. */
  function StepExpected(c: Config, r: Routines, fit: Option<Fit>, active: Option<Active>,
                        features: Features, regimeGap: Option<real>): Effect
  {
    var current := if fit.Some? then Some(fit.value.active) else active;
    Effect(current, if current.None? then None else Some(ForecastFor(c, r, current.value, features, regimeGap)), fit)
  }

  /** Unlike expected returns, a scheduled refit that finds too few samples leaves its row without a prediction. */
  function StepProbability(r: Routines, scheduled: bool, fit: Option<Fit>, active: Option<Active>,
      features: Features): Effect
    requires !scheduled ==> active.Some?
  {
    if scheduled && fit.None? then Effect(active, None, None)
    else
      var current := if fit.Some? then fit.value.active else active.value;
      Effect(Some(current), Some(Probability(current.id, r.predict(current.model, features))), fit)
  }

  function EffectOf(mode: Mode, c: Config, r: Routines, past: seq<Row>, active: Option<Active>,
                    now: int, features: Option<Features>, regimeGap: Option<real>): Effect
    requires ValidConfig(c)
  {
    var scheduled := Scheduled(c, now);
    if features.None? || (active.None? && !scheduled) then Effect(active, None, None)
    else
      var fit := if scheduled && past != [] then Refit(mode, c, r, past, now) else None;
      if mode.ExpectedReturn? then StepExpected(c, r, fit, active, features.value, regimeGap)
      else StepProbability(r, scheduled, fit, active, features.value)
  }

  /** Rows a refit at row `i` may train on: one more than the horizon is purged. */
  function Past(rows: seq<Row>, i: nat, c: Config): seq<Row>
    requires i <= |rows| && ValidConfig(c)
  {
    if i <= c.horizon then [] else rows[..i - c.horizon]
  }

  function EffectAt(mode: Mode, c: Config, r: Routines, rows: seq<Row>, i: nat, active: Option<Active>): Effect
    requires i < |rows| && ValidConfig(c)
  {
    EffectOf(mode, c, r, Past(rows, i, c), active, rows[i].timestamp, rows[i].features, rows[i].regimeGap)
  }

  function Walk(mode: Mode, c: Config, r: Routines, rows: seq<Row>, n: nat): (w: Walked)
    requires n <= |rows| && ValidConfig(c)
    ensures |w.outputs| == n
  {
    if n == 0 then Walked(None, [], [])
    else
      var before := Walk(mode, c, r, rows, n - 1);
      var e := EffectAt(mode, c, r, rows, n - 1, before.active);
      Walked(e.active, before.outputs + [e.output], before.fits + if e.fit.Some? then [e.fit.value] else [])
  }

  // ---------------------------------------------------------------- the loops

  method CollectCandidates(rows: seq<Row>, end: nat, now: int) returns (candidates: seq<nat>)
    requires end <= |rows|
    ensures candidates == Candidates(rows[..end], now)
  {
    candidates := [];
    for j := 0 to end
      invariant candidates == Candidates(rows[..j], now)
    {
      assert rows[..j + 1][..j] == rows[..j];
      if Usable(rows[j], now) { candidates := candidates + [j]; }
    }
  }

  method KeepSettled(past: seq<Row>, base: seq<nat>, close: int) returns (kept: seq<nat>)
    requires forall k :: 0 <= k < |base| ==> base[k] < |past| && past[base[k]].outcome.Some?
    ensures kept == SettledBy(past, base, close)
  {
    kept := [];
    for k := 0 to |base|
      invariant kept == SettledBy(past, base[..k], close)
    {
      assert base[..k + 1][..k] == base[..k];
      if past[base[k]].outcome.value.endTime <= close { kept := kept + [base[k]]; }
    }
    assert base[..|base|] == base;
  }

  method SplitForCalibration(c: Config, past: seq<Row>, candidates: seq<nat>) returns (chosen: Chosen)
    requires ValidConfig(c) && Trainable(past, candidates)
    ensures chosen == SplitCandidates(c, past, candidates)
  {
    hide SettledBy;
    if |candidates| < c.minTrain + c.calibrationMin { return TooFew; }
    var calibration := Last(candidates, c.calibrationWindow);
    var close := CalibrationStart(c, past, calibration);
    var base := KeepSettled(past, candidates[..|candidates| - |calibration|], close);
    if |base| < c.minTrain || |calibration| < c.calibrationMin { return TooFew; }
    return Chosen(base, calibration);
  }

  method RefitExpected(c: Config, r: Routines, rows: seq<Row>, trainEnd: nat, now: int) returns (fit: Option<Fit>)
    requires ValidConfig(c) && trainEnd <= |rows|
    ensures fit == Refit(ExpectedReturn, c, r, rows[..trainEnd], now)
  {
    hide TrainExpected, Candidates, SplitCandidates;
    var past := rows[..trainEnd];
    var candidates := CollectCandidates(rows, trainEnd, now);
    candidates := Last(candidates, c.trainWindow);
    var chosen := SplitForCalibration(c, past, candidates);
    if chosen.TooFew? { return None; }
    return Some(Fit(now, chosen.base, chosen.calibration,
      TrainExpected(c, r, past, now, chosen.base, chosen.calibration)));
  }

  method RefitProbability(c: Config, r: Routines, rows: seq<Row>, trainEnd: nat, now: int) returns (fit: Option<Fit>)
    requires ValidConfig(c) && trainEnd <= |rows|
    ensures fit == Refit(ProbabilityMode, c, r, rows[..trainEnd], now)
  {
    hide TrainProbability, Candidates;
    var past := rows[..trainEnd];
    var candidates := CollectCandidates(rows, trainEnd, now);
    if |candidates| < c.minTrain { return None; }
    candidates := Last(candidates, c.trainWindow);
    return Some(Fit(now, candidates, [], TrainProbability(c, r, past, now, candidates)));
  }

  /** Row `i` written into the output series extends the walk by it. */
  lemma WalkOneMore(mode: Mode, c: Config, r: Routines, rows: seq<Row>, i: nat, before: Walked, after: Walked)
    requires ValidConfig(c) && i < |rows| && before == Walk(mode, c, r, rows, i)
    requires var e := EffectAt(mode, c, r, rows, i, before.active);
      after == Walked(e.active, before.outputs + [e.output], before.fits + if e.fit.Some? then [e.fit.value] else [])
    ensures after == Walk(mode, c, r, rows, i + 1)
  {
    hide EffectAt;
  }

  method ExpectedReturnRow(c: Config, r: Routines, rows: seq<Row>, i: nat, before: Option<Active>)
    returns (active: Option<Active>, output: Option<Prediction>, fit: Option<Fit>)
    requires ValidConfig(c) && i < |rows|
    ensures Effect(active, output, fit) == EffectAt(ExpectedReturn, c, r, rows, i, before)
  {
    hide ForecastFor, Refit;
    active, output, fit := before, None, None;
    if rows[i].features.None? { return; }
    var now := rows[i].timestamp;
    var scheduled := Scheduled(c, now);
    if active.None? && !scheduled { return; }
    if scheduled && i > c.horizon {
      fit := RefitExpected(c, r, rows, i - c.horizon, now);
      if fit.Some? { active := Some(fit.value.active); }
    }
    if active.None? { return; }
    output := Some(ForecastFor(c, r, active.value, rows[i].features.value, rows[i].regimeGap));
  }

  method ProbabilityRow(c: Config, r: Routines, rows: seq<Row>, i: nat, before: Option<Active>)
    returns (active: Option<Active>, output: Option<Prediction>, fit: Option<Fit>)
    requires ValidConfig(c) && i < |rows|
    ensures Effect(active, output, fit) == EffectAt(ProbabilityMode, c, r, rows, i, before)
  {
    hide Refit;
    active, output, fit := before, None, None;
    if rows[i].features.None? { return; }
    var now := rows[i].timestamp;
    var scheduled := Scheduled(c, now);
    if active.None? && !scheduled { return; }
    if scheduled {
      if i <= c.horizon { return; }
      fit := RefitProbability(c, r, rows, i - c.horizon, now);
      if fit.None? { return; }
      active := Some(fit.value.active);
    }
    output := Some(Probability(active.value.id, r.predict(active.value.model, rows[i].features.value)));
  }

  /** The walk over all rows, in either mode; a row without a prediction keeps the empty entry it started with. */
  method WalkForward(mode: Mode, c: Config, r: Routines, rows: seq<Row>)
    returns (outputs: array<Option<Prediction>>, fits: seq<Fit>)
    requires ValidConfig(c)
    ensures fresh(outputs) && outputs[..] == Walk(mode, c, r, rows, |rows|).outputs
    ensures fits == Walk(mode, c, r, rows, |rows|).fits
  {
    hide EffectAt;
    outputs := new Option<Prediction>[|rows|](_ => None);
    fits := [];
    var active: Option<Active> := None;
    for i := 0 to |rows|
      invariant Walked(active, outputs[..i], fits) == Walk(mode, c, r, rows, i)
      invariant forall k :: i <= k < |rows| ==> outputs[k] == None
    {
      ghost var before := Walked(active, outputs[..i], fits);
      var output, fit;
      if mode.ExpectedReturn? { active, output, fit := ExpectedReturnRow(c, r, rows, i, active); }
      else { active, output, fit := ProbabilityRow(c, r, rows, i, active); }
      if fit.Some? { fits := fits + [fit.value]; }
      if output.Some? { outputs[i] := output; }
      assert outputs[..i + 1] == before.outputs + [output];
      WalkOneMore(mode, c, r, rows, i, before, Walked(active, outputs[..i + 1], fits));
    }
    assert outputs[..|rows|] == outputs[..];
  }

  // ---------------------------------------------------------------- no look-ahead

  lemma {:induction false} StartOfPrefix(candles: seq<Candle>, n: nat, i: nat, intervalNs: int)
    requires i < n <= |candles|
    ensures SegmentStart(candles[..n], i, intervalNs) == SegmentStart(candles, i, intervalNs)
  {
    if i > 0 { StartOfPrefix(candles, n, i - 1, intervalNs); }
  }

  /** A shorter series knows everything about a row but a label that ends beyond it. */
  lemma RowOfPrefix(candles: seq<Candle>, n: nat, i: nat, c: Config, r: Routines)
    requires ValidCandles(candles) && ValidConfig(c) && i < n <= |candles|
    ensures var short, long := RowAt(candles[..n], i, c, r), RowAt(candles, i, c, r);
      && short.(outcome := None) == long.(outcome := None)
      && (i + c.horizon + 1 < n ==> short == long)
  {
    StartOfPrefix(candles, n, i, c.intervalNs);
    var start := SegmentStart(candles, i, c.intervalNs);
    assert candles[..n][start..i + 1] == candles[start..i + 1];
    if i + c.horizon + 1 < n { StartOfPrefix(candles, n, i + c.horizon + 1, c.intervalNs); }
  }

  lemma PastOfPrefix(candles: seq<Candle>, n: nat, i: nat, c: Config, r: Routines)
    requires ValidCandles(candles) && ValidConfig(c) && i < n <= |candles|
    ensures Past(Dataset(candles[..n], c, r), i, c) == Past(Dataset(candles, c, r), i, c)
  {
    if i > c.horizon {
      forall j | 0 <= j < i - c.horizon ensures RowAt(candles[..n], j, c, r) == RowAt(candles, j, c, r) {
        RowOfPrefix(candles, n, j, c, r);
      }
    }
  }

  /** Rows that agree before `i` but for labels the walk cannot see yet. */
  predicate SeenAlike(p: seq<Row>, q: seq<Row>, n: nat, c: Config)
    requires n <= |p| && n <= |q| && ValidConfig(c)
  {
    forall i :: 0 <= i < n ==> Past(p, i, c) == Past(q, i, c) && p[i].(outcome := None) == q[i].(outcome := None)
  }

  lemma {:induction false} WalkAlike(mode: Mode, c: Config, r: Routines, p: seq<Row>, q: seq<Row>, n: nat)
    requires n <= |p| && n <= |q| && ValidConfig(c) && SeenAlike(p, q, n, c)
    ensures Walk(mode, c, r, p, n) == Walk(mode, c, r, q, n)
  {
    hide EffectAt;
    if n > 0 {
      WalkAlike(mode, c, r, p, q, n - 1);
      SameEffect(mode, c, r, p, q, n - 1, Walk(mode, c, r, q, n - 1).active);
    }
  }

  lemma SameEffect(mode: Mode, c: Config, r: Routines, p: seq<Row>, q: seq<Row>, i: nat, active: Option<Active>)
    requires i < |p| && i < |q| && ValidConfig(c)
    requires Past(p, i, c) == Past(q, i, c) && p[i].(outcome := None) == q[i].(outcome := None)
    ensures EffectAt(mode, c, r, p, i, active) == EffectAt(mode, c, r, q, i, active)
  {
  }

  lemma WalkOfPrefix(mode: Mode, c: Config, r: Routines, candles: seq<Candle>, n: nat)
    requires ValidCandles(candles) && ValidConfig(c) && n <= |candles|
    ensures Walk(mode, c, r, Dataset(candles[..n], c, r), n) == Walk(mode, c, r, Dataset(candles, c, r), n)
  {
    var p, q := Dataset(candles[..n], c, r), Dataset(candles, c, r);
    forall i | 0 <= i < n ensures Past(p, i, c) == Past(q, i, c) && p[i].(outcome := None) == q[i].(outcome := None) {
      PastOfPrefix(candles, n, i, c, r);
      RowOfPrefix(candles, n, i, c, r);
    }
    WalkAlike(mode, c, r, p, q, n);
  }

  lemma {:induction false} WalkGrows(mode: Mode, c: Config, r: Routines, rows: seq<Row>, n: nat, m: nat)
    requires ValidConfig(c) && n <= m <= |rows|
    ensures Walk(mode, c, r, rows, m).outputs[..n] == Walk(mode, c, r, rows, n).outputs
    ensures Walk(mode, c, r, rows, n).fits <= Walk(mode, c, r, rows, m).fits
  {
    hide EffectAt;
    if n < m { WalkGrows(mode, c, r, rows, n, m - 1); }
  }

  /**
   Prefix stability, in both modes and across gaps and refits: the first `n` candles alone give the first `n`
   predictions, model identities and eligibility flags of the whole series, and its fits are the first ones.
   */
  lemma PredictionsArePrefixStable(mode: Mode, c: Config, r: Routines, candles: seq<Candle>, n: nat)
    requires ValidCandles(candles) && ValidConfig(c) && n <= |candles|
    ensures var short := Walk(mode, c, r, Dataset(candles[..n], c, r), n);
      var long := Walk(mode, c, r, Dataset(candles, c, r), |candles|);
      short.outputs == long.outputs[..n] && short.fits <= long.fits
  {
    WalkOfPrefix(mode, c, r, candles, n);
    WalkGrows(mode, c, r, Dataset(candles, c, r), n, |candles|);
  }

  // ---------------------------------------------------------------- settled labels

  /** Every label of the fit was settled by the bar it was made on; base labels by the close of the first
      calibration bar. */
  predicate SettledFit(f: Fit, rows: seq<Row>, c: Config) {
    && UsableBy(rows, f.base, f.at) && UsableBy(rows, f.calibration, f.at)
    && (f.calibration != [] ==>
          f.calibration[0] < |rows| && UsableBy(rows, f.base, CalibrationStart(c, rows, f.calibration)))
  }

  predicate Settled(rows: seq<Row>, j: nat, now: int) {
    j < |rows| && rows[j].outcome.Some? && rows[j].outcome.value.endTime <= now
  }

  predicate UsableBy(past: seq<Row>, picked: seq<nat>, now: int) {
    forall k :: 0 <= k < |picked| ==> Settled(past, picked[k], now)
  }

  lemma ExpectedSettled(c: Config, past: seq<Row>, now: int)
    requires ValidConfig(c) && ChooseExpected(c, past, now).Chosen?
    ensures var chosen := ChooseExpected(c, past, now);
      && |chosen.base| >= c.minTrain && |chosen.calibration| >= c.calibrationMin
      && UsableBy(past, chosen.base, now) && UsableBy(past, chosen.calibration, now)
      && UsableBy(past, chosen.base, CalibrationStart(c, past, chosen.calibration))
  {
    var candidates := Last(Candidates(past, now), c.trainWindow);
    assert UsableBy(past, candidates, now);
    var calibration := Last(candidates, c.calibrationWindow);
    var early, close := candidates[..|candidates| - |calibration|], CalibrationStart(c, past, calibration);
    var base := SettledBy(past, early, close);
    forall k | 0 <= k < |base| ensures Settled(past, base[k], now) && Settled(past, base[k], close) {
      assert base[k] in early;
    }
  }

  lemma ProbabilitySettled(c: Config, past: seq<Row>, now: int)
    requires ValidConfig(c) && ChooseProbability(c, past, now).Chosen?
    ensures var chosen := ChooseProbability(c, past, now);
      && (|chosen.base| >= c.minTrain || |chosen.base| == c.trainWindow)
      && chosen.calibration == [] && UsableBy(past, chosen.base, now)
  {
  }

  lemma SettledInRows(rows: seq<Row>, m: nat, picked: seq<nat>, now: int)
    requires m <= |rows| && UsableBy(rows[..m], picked, now)
    ensures UsableBy(rows, picked, now)
  {
    forall k | 0 <= k < |picked| ensures Settled(rows, picked[k], now) { assert Settled(rows[..m], picked[k], now); }
  }

  lemma RefitSettled(mode: Mode, c: Config, r: Routines, rows: seq<Row>, m: nat, now: int)
    requires ValidConfig(c) && m <= |rows|
    ensures var fit := Refit(mode, c, r, rows[..m], now);
      fit.Some? ==>
        && fit.value.at == now && SettledFit(fit.value, rows, c)
        && (mode.ExpectedReturn? <==> fit.value.calibration != [])
  {
    hide TrainExpected, TrainProbability, ChooseExpected, ChooseProbability;
    var past := rows[..m];
    if mode.ExpectedReturn? {
      var chosen := ChooseExpected(c, past, now);
      if chosen.Chosen? {
        ExpectedSettled(c, past, now);
        SettledInRows(rows, m, chosen.base, now);
        SettledInRows(rows, m, chosen.calibration, now);
        SettledInRows(rows, m, chosen.base, CalibrationStart(c, past, chosen.calibration));
      }
    } else {
      var chosen := ChooseProbability(c, past, now);
      if chosen.Chosen? {
        ProbabilitySettled(c, past, now);
        SettledInRows(rows, m, chosen.base, now);
      }
    }
  }

  lemma EffectSettled(mode: Mode, c: Config, r: Routines, rows: seq<Row>, i: nat, active: Option<Active>)
    requires ValidConfig(c) && i < |rows|
    ensures var e := EffectAt(mode, c, r, rows, i, active);
      && (e.fit.Some? ==>
            e.fit.value.at == rows[i].timestamp && SettledFit(e.fit.value, rows, c)
              && e.active == Some(e.fit.value.active))
      && (e.fit.None? ==> e.active == active)
      && (e.output.Some? ==> e.active.Some? && e.output.value.id == e.active.value.id)
  {
    hide Refit, SettledFit, ForecastFor;
    RefitSettled(mode, c, r, rows, if i <= c.horizon then 0 else i - c.horizon, rows[i].timestamp);
  }

  predicate AllSettled(fits: seq<Fit>, rows: seq<Row>, c: Config) {
    forall k :: 0 <= k < |fits| ==> SettledFit(fits[k], rows, c)
  }

  /** Every fit of a walk, in either mode, uses settled labels only. */
  lemma {:induction false} EveryFitSettled(mode: Mode, c: Config, r: Routines, rows: seq<Row>, n: nat)
    requires ValidConfig(c) && n <= |rows|
    ensures AllSettled(Walk(mode, c, r, rows, n).fits, rows, c)
  {
    hide EffectAt, SettledFit;
    if n > 0 {
      EveryFitSettled(mode, c, r, rows, n - 1);
      var before := Walk(mode, c, r, rows, n - 1);
      EffectSettled(mode, c, r, rows, n - 1, before.active);
      var e := EffectAt(mode, c, r, rows, n - 1, before.active);
      MoreSettled(before.fits, e.fit, rows, c);
    }
  }

  lemma MoreSettled(fits: seq<Fit>, fit: Option<Fit>, rows: seq<Row>, c: Config)
    requires AllSettled(fits, rows, c) && (fit.Some? ==> SettledFit(fit.value, rows, c))
    ensures AllSettled(fits + if fit.Some? then [fit.value] else [], rows, c)
  {
  }

  predicate FittedBy(fits: seq<Fit>, now: int) {
    forall k :: 0 <= k < |fits| ==> fits[k].at <= now
  }

  /** The model in use is that of the last fit. */
  predicate UsesLastFit(w: Walked) {
    w.active.Some? ==> w.fits != [] && w.fits[|w.fits| - 1].active == w.active.value
  }

  lemma FittedLater(fits: seq<Fit>, fit: Option<Fit>, before: int, now: int)
    requires FittedBy(fits, before) && before <= now && (fit.Some? ==> fit.value.at == now)
    ensures FittedBy(fits + if fit.Some? then [fit.value] else [], now)
  {
  }

  lemma UsesLastAfter(before: Walked, e: Effect, after: Walked)
    requires UsesLastFit(before) && after.active == e.active
      && after.fits == before.fits + if e.fit.Some? then [e.fit.value] else []
    requires e.fit.Some? ==> e.active == Some(e.fit.value.active)
    requires e.fit.None? ==> e.active == before.active
    requires e.output.Some? ==> e.active.Some? && e.output.value.id == e.active.value.id
    ensures UsesLastFit(after)
    ensures e.output.Some? ==> after.fits != [] && e.output.value.id == after.fits[|after.fits| - 1].active.id
  {
    if e.fit.None? { assert after.fits == before.fits; }
  }

  /** Every prediction comes from a fit made at or before its own bar: the last one. */
  lemma {:induction false} PredictionsFollowFits(mode: Mode, c: Config, r: Routines, rows: seq<Row>, n: nat)
    requires ValidConfig(c) && n <= |rows| && TimesGrow(rows)
    ensures var w := Walk(mode, c, r, rows, n);
      && UsesLastFit(w) && (n == 0 ==> w.fits == []) && (n > 0 ==> FittedBy(w.fits, rows[n - 1].timestamp))
      && (n > 0 && w.outputs[n - 1].Some? ==>
        w.fits != [] && w.outputs[n - 1].value.id == w.fits[|w.fits| - 1].active.id)
  {
    hide EffectAt, SettledFit, FittedBy, TimesGrow, UsesLastFit;
    StartsUnfitted();
    if n > 0 {
      PredictionsFollowFits(mode, c, r, rows, n - 1);
      var before, now := Walk(mode, c, r, rows, n - 1), rows[n - 1].timestamp;
      EffectSettled(mode, c, r, rows, n - 1, before.active);
      UsesLastAfter(before, EffectAt(mode, c, r, rows, n - 1, before.active), Walk(mode, c, r, rows, n));
      var earlier := if n > 1 then rows[n - 2].timestamp else now;
      if n == 1 { NoFits(now); } else { LaterRow(rows, n - 1); }
      FittedLater(before.fits, EffectAt(mode, c, r, rows, n - 1, before.active).fit, earlier, now);
    }
  }

  predicate TimesGrow(rows: seq<Row>) {
    forall i, j :: 0 <= i < j < |rows| ==> rows[i].timestamp < rows[j].timestamp
  }

  lemma LaterRow(rows: seq<Row>, i: nat)
    requires TimesGrow(rows) && 0 < i < |rows|
    ensures rows[i - 1].timestamp < rows[i].timestamp
  {
  }

  lemma StartsUnfitted()
    ensures UsesLastFit(Walked(None, [], []))
  {
  }

  lemma NoFits(now: int)
    ensures FittedBy([], now)
  {
  }

  /** Purging one row more than the horizon already leaves only settled labels: the later check on label times
      removes nothing. */
  lemma PurgeSettles(candles: seq<Candle>, c: Config, r: Routines, i: nat, j: nat)
    requires ValidCandles(candles) && ValidConfig(c) && i < |candles| && j < |candles|
    ensures j < i - c.horizon && LabelAt(candles, j, c).Some?
      ==> LabelAt(candles, j, c).value.endTime <= candles[i].timestamp
    ensures j >= i - c.horizon && LabelAt(candles, j, c).Some?
      ==> LabelAt(candles, j, c).value.endTime > candles[i].timestamp
  {
  }
}
