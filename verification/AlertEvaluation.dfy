/**
 The pure core of an alert (src/alerts/evaluate.ts) and the reduction of one alert and one stock
 reading to a condition (src/alerts/eval-pass.ts).

 The state machine knows only three bits: the repeat mode, `active` and `armed`. What it is FOR is
 stated over whole histories: an alert fires exactly on the rising edges of its evaluable condition.
 */
module AlertEvaluation {
  import opened Wrappers

  datatype Operator = Above | Below

  datatype LabelBand = Fragile | BelowPar | Steady | Healthy | Pristine

  function BandRank(b: LabelBand): nat {
    match b
    case Fragile => 0
    case BelowPar => 1
    case Steady => 2
    case Healthy => 3
    case Pristine => 4
  }

  predicate PriceConditionTrue(op: Operator, close: real, threshold: real) {
    if op.Above? then close > threshold else close < threshold
  }

  predicate BandConditionTrue(op: Operator, current: LabelBand, threshold: LabelBand) {
    if op.Above? then BandRank(current) > BandRank(threshold) else BandRank(current) < BandRank(threshold)
  }

  predicate FindingConditionTrue(key: Option<string>, newKeys: set<string>) {
    if key.None? then newKeys != {} else key.value in newKeys
  }

  /** What an alert watches. A database CHECK makes exactly one target column non-null per type. */
  datatype Target =
    | Price(operator: Operator, price: real)
    | HealthBand(operator: Operator, band: LabelBand)
    | Finding(key: Option<string>)

  /** The current computed reading of one stock. */
  datatype StockReading = StockReading(
    close: Option<real>, band: Option<LabelBand>, scored: bool, newFindingKeys: set<string>)

  /** The triggering value, before it is rendered to text. */
  datatype SnapshotValue =
    | ClosedAt(close: real)
    | BandWas(band: LabelBand)
    | KeyFired(key: string)
    | KeysAppeared(keys: set<string>)

  datatype SkipStatus = SkippedUnscored | SkippedNoPrice

  datatype Reduced = Evaluated(conditionTrue: bool, snapshot: SnapshotValue) | Skip(status: SkipStatus)

  function Reduce(target: Target, reading: Option<StockReading>): Reduced {
    match target
    case Price(op, threshold) =>
      if reading.None? || reading.value.close.None? then Skip(SkippedNoPrice)
      else
        var close := reading.value.close.value;
        Evaluated(PriceConditionTrue(op, close, threshold), ClosedAt(close))
    case HealthBand(op, threshold) =>
      if reading.None? || !reading.value.scored || reading.value.band.None? then Skip(SkippedUnscored)
      else
        var band := reading.value.band.value;
        Evaluated(BandConditionTrue(op, band, threshold), BandWas(band))
    case Finding(key) =>
      if reading.None? then Skip(SkippedUnscored)
      else
        var keys := reading.value.newFindingKeys;
        Evaluated(FindingConditionTrue(key, keys), if key.Some? then KeyFired(key.value) else KeysAppeared(keys))
  }

  datatype RepeatMode = OneShot | Repeating

  datatype Flags = Flags(active: bool, armed: bool)

  datatype Transition = Transition(fire: bool, next: Flags, changed: bool)

  /** The crossing/re-arm machine. */
  function Transit(mode: RepeatMode, f: Flags, conditionTrue: bool): Transition {
    if !f.active then Transition(false, Flags(false, f.armed), false)
    else if f.armed && conditionTrue then Transition(true, Flags(mode != OneShot, false), true)
    else if !f.armed && !conditionTrue then Transition(false, Flags(true, true), true)
    else Transition(false, f, false)
  }

  // ---------- histories ----------

  /** One look at the alert: when, and what the reading reduced to (possibly an honest skip). */
  datatype Observation = Observation(at: nat, reduced: Reduced)

  function StepFlags(mode: RepeatMode, f: Flags, r: Reduced): Flags {
    if r.Evaluated? then Transit(mode, f, r.conditionTrue).next else f
  }

  predicate StepFires(mode: RepeatMode, f: Flags, r: Reduced) {
    r.Evaluated? && Transit(mode, f, r.conditionTrue).fire
  }

  /** The flags after a history, starting from `f`. */
  function FlagsAfter(mode: RepeatMode, f: Flags, obs: seq<Observation>): Flags {
    if obs == [] then f
    else
      var n := |obs| - 1;
      StepFlags(mode, FlagsAfter(mode, f, obs[..n]), obs[n].reduced)
  }

  /** The observations at which the machine fires, in order. */
  function Fired(mode: RepeatMode, f: Flags, obs: seq<Observation>): seq<Observation> {
    if obs == [] then []
    else
      var n := |obs| - 1;
      Fired(mode, f, obs[..n])
      + (if StepFires(mode, FlagsAfter(mode, f, obs[..n]), obs[n].reduced) then [obs[n]] else [])
  }

  // ---------- the independent notion: rising edges ----------

  /** The condition last evaluated in a history. Before any evaluation it counts as the disarmed flag
      says: an armed alert has its condition presumed false, a disarmed one presumed true. */
  function LastCondition(f: Flags, obs: seq<Observation>): bool {
    if obs == [] then !f.armed
    else
      var n := |obs| - 1;
      if obs[n].reduced.Evaluated? then obs[n].reduced.conditionTrue else LastCondition(f, obs[..n])
  }

  /** Observation `i` is evaluable and true, and the evaluable observation before it was false. */
  predicate RisingEdge(f: Flags, obs: seq<Observation>, i: nat)
    requires i < |obs|
  {
    obs[i].reduced.Evaluated? && obs[i].reduced.conditionTrue && !LastCondition(f, obs[..i])
  }

  /** The rising edges of a history, in order. Never mentions the machine. */
  function Crossings(f: Flags, obs: seq<Observation>): seq<Observation> {
    if obs == [] then []
    else
      var n := |obs| - 1;
      Crossings(f, obs[..n]) + (if RisingEdge(f, obs, n) then [obs[n]] else [])
  }

  /** What an alert of either mode, active at the start, should have fired on. */
  function ExpectedFires(mode: RepeatMode, f: Flags, obs: seq<Observation>): seq<Observation> {
    var crossings := Crossings(f, obs);
    if mode == OneShot && crossings != [] then [crossings[0]] else crossings
  }

  /** A repeating alert fires on every rising edge and on nothing else; it stays active, and it is armed
      exactly while its condition is false. */
  lemma {:induction false} RepeatingFiresExactlyOnCrossings(f: Flags, obs: seq<Observation>)
    requires f.active
    ensures Fired(Repeating, f, obs) == Crossings(f, obs)
    ensures FlagsAfter(Repeating, f, obs) == Flags(true, !LastCondition(f, obs))
  {
    if obs == [] {
      assert FlagsAfter(Repeating, f, obs) == f;
    } else {
      RepeatingFiresExactlyOnCrossings(f, obs[..|obs| - 1]);
    }
  }

  /** A one-shot alert fires on the first rising edge only, and is active exactly until then. */
  lemma {:induction false} OneShotFiresExactlyOnFirstCrossing(f: Flags, obs: seq<Observation>)
    requires f.active
    ensures Fired(OneShot, f, obs) == ExpectedFires(OneShot, f, obs)
    ensures FlagsAfter(OneShot, f, obs).active <==> Crossings(f, obs) == []
    ensures Crossings(f, obs) == [] ==> FlagsAfter(OneShot, f, obs).armed == !LastCondition(f, obs)
  {
    if obs == [] {
      assert FlagsAfter(OneShot, f, obs) == f;
    } else {
      OneShotFiresExactlyOnFirstCrossing(f, obs[..|obs| - 1]);
    }
  }

  /** An inactive alert is inert. */
  lemma {:induction false} InactiveNeverFires(mode: RepeatMode, f: Flags, obs: seq<Observation>)
    requires !f.active
    ensures Fired(mode, f, obs) == [] && FlagsAfter(mode, f, obs) == f
  {
    if obs != [] {
      InactiveNeverFires(mode, f, obs[..|obs| - 1]);
    }
  }

  lemma {:induction false} LastConditionSinceTrue(f: Flags, obs: seq<Observation>, i: nat)
    requires i < |obs|
    requires obs[i].reduced.Evaluated? && obs[i].reduced.conditionTrue
    requires !LastCondition(f, obs)
    ensures exists k :: i < k < |obs| && obs[k].reduced.Evaluated? && !obs[k].reduced.conditionTrue
  {
    var n := |obs| - 1;
    if obs[n].reduced.Evaluated? {
      assert i < n;
    } else {
      LastConditionSinceTrue(f, obs[..n], i);
    }
  }

  /** Anti-spam: between two crossings the condition was evaluated false at least once. A condition that
      stays true, however many skipped passes lie between, never fires twice. */
  lemma NoSecondFireWithoutRecession(f: Flags, obs: seq<Observation>, i: nat, j: nat)
    requires i < j < |obs|
    requires RisingEdge(f, obs, i) && RisingEdge(f, obs, j)
    ensures exists k :: i < k < j && obs[k].reduced.Evaluated? && !obs[k].reduced.conditionTrue
  {
    LastConditionSinceTrue(f, obs[..j], i);
  }

  /** Repeating a step on the same reading changes nothing and does not fire: the machine is idempotent
      on a reading, which is what makes a pass safe to rerun. */
  lemma SameReadingTwiceIsQuiet(mode: RepeatMode, f: Flags, r: Reduced)
    ensures var g := StepFlags(mode, f, r);
            !StepFires(mode, g, r) && StepFlags(mode, g, r) == g
  {
  }

  // ---------- what an alert watches, in the reader's terms ----------

  /** Worst to best. */
  const BANDS: seq<LabelBand> := [Fragile, BelowPar, Steady, Healthy, Pristine]

  /** What the alert says of a reading. */
  ghost predicate IsTrueOf(target: Target, r: StockReading) {
    match target
    case Price(Above, threshold) => exists close :: r.close == Some(close) && threshold < close
    case Price(Below, threshold) => exists close :: r.close == Some(close) && close < threshold
    case HealthBand(Above, b) =>
      exists i, j :: 0 <= j < i < |BANDS| && b == BANDS[j] && r.band == Some(BANDS[i])
    case HealthBand(Below, b) =>
      exists i, j :: 0 <= i < j < |BANDS| && b == BANDS[j] && r.band == Some(BANDS[i])
    case Finding(None) => exists key :: key in r.newFindingKeys
    case Finding(Some(key)) => key in r.newFindingKeys
  }

  /** Whether it says anything: a price needs a close, a band a score, a finding only a reading. */
  predicate Evaluable(target: Target, reading: Option<StockReading>) {
    reading.Some?
    && match target
       case Price(_, _) => reading.value.close.Some?
       case HealthBand(_, _) => reading.value.scored && reading.value.band.Some?
       case Finding(_) => true
  }

  /** The event's text is about what made the condition true. */
  predicate Shows(target: Target, r: StockReading, shown: SnapshotValue) {
    match target
    case Price(_, _) => r.close.Some? && shown == ClosedAt(r.close.value)
    case HealthBand(_, _) => r.band.Some? && shown == BandWas(r.band.value)
    case Finding(None) => shown == KeysAppeared(r.newFindingKeys)
    case Finding(Some(key)) => shown == KeyFired(key)
  }

  lemma BandRankIsPlace(i: nat)
    requires i < |BANDS|
    ensures BandRank(BANDS[i]) == i
  {
  }

  lemma PlaceOfBand(b: LabelBand) returns (i: nat)
    ensures i < |BANDS| && BANDS[i] == b
  {
    i := BandRank(b);
  }

  /** A reading reduces to the truth of what the alert says of it, and to a skip exactly when it says nothing. */
  lemma ReduceIsTheAlert(target: Target, reading: Option<StockReading>)
    ensures var r := Reduce(target, reading);
            && (r.Evaluated? <==> Evaluable(target, reading))
            && (r.Evaluated? ==> (r.conditionTrue <==> IsTrueOf(target, reading.value))
                                 && Shows(target, reading.value, r.snapshot))
            && (r.Skip? ==> (r.status == SkippedNoPrice <==> target.Price?))
  {
    if target.HealthBand? && Evaluable(target, reading) {
      var i := PlaceOfBand(reading.value.band.value);
      var j := PlaceOfBand(target.band);
      forall k | 0 <= k < |BANDS| ensures BandRank(BANDS[k]) == k { BandRankIsPlace(k); }
    }
  }

  function Observed(target: Target, readings: seq<Option<StockReading>>): (obs: seq<Observation>)
    ensures |obs| == |readings|
    ensures forall i :: 0 <= i < |obs| ==> obs[i].reduced == Reduce(target, readings[i])
  {
    if readings == [] then []
    else
      var n := |readings| - 1;
      Observed(target, readings[..n]) + [Observation(n, Reduce(target, readings[n]))]
  }

  /** The alert was true of the last reading, before place `n`, that it said anything of. */
  ghost predicate WasTrue(target: Target, readings: seq<Option<StockReading>>, n: int) {
    exists k :: 0 <= k < n && k < |readings| && Evaluable(target, readings[k]) && IsTrueOf(target, readings[k].value)
                && forall j :: k < j < n && j < |readings| ==> !Evaluable(target, readings[j])
  }

  lemma WasTrueNext(target: Target, readings: seq<Option<StockReading>>, n: nat)
    requires n < |readings|
    ensures WasTrue(target, readings, n + 1)
            <==> if Evaluable(target, readings[n]) then IsTrueOf(target, readings[n].value)
                 else WasTrue(target, readings, n)
  {
  }

  lemma {:induction false} LastConditionIsWasTrue(target: Target, readings: seq<Option<StockReading>>, n: nat)
    requires n <= |readings|
    ensures LastCondition(Flags(true, true), Observed(target, readings)[..n]) <==> WasTrue(target, readings, n)
  {
    if n > 0 {
      var obs := Observed(target, readings);
      assert obs[..n][..n - 1] == obs[..n - 1];
      LastConditionIsWasTrue(target, readings, n - 1);
      ReduceIsTheAlert(target, readings[n - 1]);
      WasTrueNext(target, readings, n - 1);
    }
  }

  /**
   A NEW ALERT FIRES EXACTLY WHERE WHAT IT SAYS BECOMES TRUE: at a reading it is true of, where it was not true of the
   last reading it said anything of. An alert above a price fires where the close comes above it.
   */
  lemma FiresWhereItBecomesTrue(target: Target, readings: seq<Option<StockReading>>, i: nat)
    requires i < |readings|
    ensures var obs := Observed(target, readings);
            StepFires(Repeating, FlagsAfter(Repeating, Flags(true, true), obs[..i]), obs[i].reduced)
            <==> Evaluable(target, readings[i]) && IsTrueOf(target, readings[i].value) && !WasTrue(target, readings, i)
  {
    var obs := Observed(target, readings);
    RepeatingFiresExactlyOnCrossings(Flags(true, true), obs[..i]);
    LastConditionIsWasTrue(target, readings, i);
    ReduceIsTheAlert(target, readings[i]);
  }
}
