/**
 The persistent pressure controller (tools/operational_pressure.py): a hysteresis automaton over timed
 observations. Rates are compared by cross multiplication: `failures/attempts >= 0.5` is
 `2 * failures >= attempts`, and `<= 0.1` is `10 * failures <= attempts`.
 */
module Pressure {
  import opened Common

  datatype Mode = Normal | Cautious | Paused | Probe | Recovering

  datatype Observation = Observation(
    at: Time, window: int, attempts: int, failures: int, unavailable: int, capacity: real, backlog: int)

  /** One scope's row. The stored digest is the last observation itself. */
  datatype Scope = Scope(
    version: nat, mode: Mode, slots: int, last: Option<Observation>,
    highSince: Option<Time>, lowSince: Option<Time>, stageSince: Option<Time>)

  datatype PressureError =
    | VersionInvalid | ObservationInvalid | ScopeUnregistered | ProfileChanged | ObservationConflict
    | ScopeCapacity | ScopeInvalid

  const FRESH_SECONDS: Time := 30.0
  const BUSINESS_SLOTS := 8
  const CONTROL_SLOTS := 2
  const MAX_SCOPES := 1024
  const INITIAL := Scope(0, Normal, 8, None, None, None, None)

  // ---------------------------------------------------------------- classifying a sample

  predicate RateHigh(o: Observation) {
    o.attempts >= 20 && 2 * o.failures >= o.attempts
  }

  predicate Hard(o: Observation) {
    o.capacity >= 0.9 || o.unavailable >= 300 || (o.backlog >= 900 && o.capacity >= 0.7)
  }

  predicate High(o: Observation) {
    Hard(o) || RateHigh(o)
  }

  predicate Low(o: Observation) {
    o.capacity <= 0.7 && o.backlog < 300 && o.unavailable == 0 && 10 * o.failures <= o.attempts
  }

  /** A sample with traffic and without one failure. */
  predicate Clean(o: Observation) {
    o.attempts > 0 && o.failures == 0
  }

  predicate ValidSample(o: Observation, now: Time) {
    && -5.0 <= now - o.at <= 30.0 && o.window == 300
    && 0 <= o.attempts <= 1_000_000_000 && 0 <= o.failures <= 1_000_000_000
    && 0 <= o.unavailable <= 1_000_000_000 && 0 <= o.backlog <= 1_000_000_000
    && o.failures <= o.attempts && 0.0 <= o.capacity <= 1.0
  }

  predicate Gap(s: Scope, o: Observation) {
    s.last.None? || o.at - s.last.value.at > FRESH_SECONDS
  }

  function Since(active: bool, gap: bool, before: Option<Time>, at: Time): Option<Time> {
    if !active then None else if gap || before.None? then Some(at) else before
  }

  predicate Sustained(since: Option<Time>, at: Time, seconds: Time) {
    since.Some? && at - since.value >= seconds
  }

  /** `observed-stage_since>=30`, over a sample that shows clean traffic. */
  predicate StageDone(s: Scope, o: Observation) {
    Sustained(s.stageSince, o.at, 30.0) && Clean(o)
  }

  /** What one accepted observation makes of a scope. */
  function Step(s: Scope, o: Observation): Scope {
    var gap := Gap(s, o);
    var highSince := Since(High(o), gap, s.highSince, o.at);
    var lowSince := Since(Low(o), gap, s.lowSince, o.at);
    var s1 := s.(version := s.version + 1, last := Some(o), highSince := highSince, lowSince := lowSince);
    if Hard(o) || (High(o) && Sustained(highSince, o.at, 90.0)) then s1.(mode := Paused, slots := 0, stageSince := None)
    else if High(o) then
      if s.mode == Paused || s.mode == Probe then s1 else s1.(mode := Cautious, slots := 2, stageSince := None)
    else match s.mode
      case Normal => s1
      case Paused =>
        if Low(o) && Sustained(lowSince, o.at, 120.0) then s1.(mode := Probe, slots := 1, stageSince := Some(o.at)) else s1
      case Probe =>
        if !Low(o) then s1.(mode := Paused, slots := 0, stageSince := None)
        else if !gap && StageDone(s, o) then s1.(mode := Recovering, slots := 2, stageSince := Some(o.at))
        else s1
      case Recovering =>
        if !Low(o) then s1.(mode := Cautious, slots := 2, stageSince := None)
        else if gap then s1.(stageSince := Some(o.at))
        else if StageDone(s, o) then
          var slots := if s.slots * 2 < BUSINESS_SLOTS then s.slots * 2 else BUSINESS_SLOTS;
          s1.(slots := slots, stageSince := Some(o.at), mode := if slots == BUSINESS_SLOTS then Normal else Recovering)
        else s1
      case Cautious =>
        if Low(o) && Sustained(lowSince, o.at, 120.0) then s1.(mode := Recovering, slots := 2, stageSince := Some(o.at)) else s1
  }

  // ---------------------------------------------------------------- what every trace keeps

  predicate ModeMatchesSlots(s: Scope) {
    match s.mode
    case Normal => s.slots == 8
    case Cautious => s.slots == 2
    case Paused => s.slots == 0
    case Probe => s.slots == 1
    case Recovering => s.slots == 2 || s.slots == 4
  }

  /** Stored times lie in the past, and a staged mode always has its stage time, so no comparison meets a null. */
  predicate ScopeOk(s: Scope) {
    && ModeMatchesSlots(s)
    && (s.mode == Probe || s.mode == Recovering ==> s.stageSince.Some?)
    && (s.last.None? ==> s == INITIAL)
    && (s.last.Some? ==>
          && (s.highSince.Some? <==> High(s.last.value)) && (s.lowSince.Some? <==> Low(s.last.value))
          && (s.highSince.Some? ==> s.highSince.value <= s.last.value.at)
          && (s.lowSince.Some? ==> s.lowSince.value <= s.last.value.at)
          && (s.stageSince.Some? ==> s.stageSince.value <= s.last.value.at))
  }

  predicate NewerThanLast(s: Scope, o: Observation) {
    s.last.None? || o.at > s.last.value.at
  }

  lemma LowIsNotHigh(o: Observation)
    requires 0 <= o.failures <= o.attempts
    ensures !(Low(o) && High(o))
  {
  }

  lemma StepKeepsOk(s: Scope, o: Observation)
    requires ScopeOk(s) && NewerThanLast(s, o)
    ensures ScopeOk(Step(s, o))
  {
    hide High, Low, Hard, StageDone;
  }

  /** The samples a scope accepted, in order: strictly later each time. */
  ghost predicate Trace(log: seq<Observation>) {
    forall i, j | 0 <= i < j < |log| :: log[i].at < log[j].at
  }

  ghost predicate ValidCounts(log: seq<Observation>) {
    forall i | 0 <= i < |log| :: 0 <= log[i].failures <= log[i].attempts
  }

  function After(log: seq<Observation>): Scope {
    if log == [] then INITIAL else Step(After(log[..|log| - 1]), log[|log| - 1])
  }

  /** The scope just after sample `k` of the log. */
  function StateAt(log: seq<Observation>, k: nat): Scope
    requires k < |log|
  {
    After(log[..k + 1])
  }

  lemma {:induction false} AfterOk(log: seq<Observation>)
    requires Trace(log)
    ensures ScopeOk(After(log))
    ensures log == [] ==> After(log).last.None?
    ensures log != [] ==> After(log).last == Some(log[|log| - 1])
    ensures After(log).version == |log|
    decreases |log|
  {
    if log != [] {
      AfterOk(log[..|log| - 1]);
      StepKeepsOk(After(log[..|log| - 1]), log[|log| - 1]);
    }
  }

  ghost predicate StateOk(log: seq<Observation>, k: nat) {
    k < |log| && ScopeOk(StateAt(log, k)) && StateAt(log, k).last == Some(log[k])
  }

  lemma StateIsOk(log: seq<Observation>, k: nat)
    requires Trace(log) && k < |log|
    ensures StateOk(log, k) && ScopeOk(StateAt(log, k)) && StateAt(log, k).last == Some(log[k])
  {
    AfterOk(log[..k + 1]);
  }

  lemma NextState(log: seq<Observation>, j: nat)
    requires 0 < j < |log|
    ensures StateAt(log, j) == Step(StateAt(log, j - 1), log[j])
  {
    hide Step;
    assert log[..j + 1][..j] == log[..j];
  }

  /** In every trace the mode and the granted slots agree. */
  lemma ModeAndSlotsAgree(log: seq<Observation>)
    requires Trace(log)
    ensures ModeMatchesSlots(After(log)) && 0 <= After(log).slots <= 8
  {
    AfterOk(log);
  }

  // ---------------------------------------------------------------- leaving a pause needs evidence

  /** The log ends in an unbroken run of low samples, without a gap, spanning at least `seconds`. */
  ghost predicate EndsInLowRun(log: seq<Observation>, start: nat, seconds: Time) {
    && start < |log|
    && (forall i | start <= i < |log| :: Low(log[i]))
    && (forall i | start < i < |log| :: log[i].at - log[i - 1].at <= FRESH_SECONDS)
    && log[|log| - 1].at - log[start].at >= seconds
  }

  /** `lowSince` is where the unbroken low run at the end of the log began. */
  lemma {:induction false} LowSinceIsRunStart(log: seq<Observation>, k: nat) returns (start: nat)
    requires Trace(log) && k < |log| && StateAt(log, k).lowSince.Some?
    ensures start <= k && Some(log[start].at) == StateAt(log, k).lowSince
    ensures EndsInLowRun(log[..k + 1], start, 0.0)
    decreases k
  {
    hide Step, StateAt, After, Low;
    LowSinceStep(log, k);
    if k == 0 || Some(log[k].at) == StateAt(log, k).lowSince {
      start := k;
    } else {
      start := LowSinceIsRunStart(log, k - 1);
      forall i | start <= i < k ensures Low(log[i]) {
        assert Low(log[..k][i]);
      }
      forall i | start < i <= k ensures log[i].at - log[i - 1].at <= FRESH_SECONDS {
        if i < k {
          assert log[..k][i].at - log[..k][i - 1].at <= FRESH_SECONDS;
        }
      }
    }
  }

  /** One step of `lowSince`: it restarts at a gap, continues otherwise, and needs a low sample either way. */
  lemma LowSinceStep(log: seq<Observation>, k: nat)
    requires Trace(log) && k < |log| && StateAt(log, k).lowSince.Some?
    ensures Low(log[k])
    ensures Some(log[k].at) == StateAt(log, k).lowSince
         || (k > 0 && StateAt(log, k - 1).lowSince == StateAt(log, k).lowSince && log[k].at - log[k - 1].at <= FRESH_SECONDS)
  {
    StateIsOk(log, k);
    if k > 0 {
      StateIsOk(log, k - 1);
      NextState(log, k);
    } else {
      assert log[..k + 1][..k] == [] && After([]) == INITIAL;
      assert StateAt(log, k) == Step(INITIAL, log[k]);
    }
  }

  /** A pause ends, or a cautious scope starts recovering, only on two minutes of unbroken low evidence. */
  lemma LeavingNeedsEvidence(log: seq<Observation>, k: nat) returns (start: nat)
    requires Trace(log) && ValidCounts(log) && 0 < k < |log|
    requires Leaves(StateAt(log, k - 1).mode, StateAt(log, k).mode)
    ensures StateAt(log, k).mode == if StateAt(log, k - 1).mode == Paused then Probe else Recovering
    ensures EndsInLowRun(log[..k + 1], start, 120.0)
  {
    StateIsOk(log, k - 1);
    NextState(log, k);
    LowIsNotHigh(log[k]);
    LeavingIsSustained(StateAt(log, k - 1), log[k]);
    hide StateAt, After, Step;
    start := LowSinceIsRunStart(log, k);
  }

  predicate Leaves(before: Mode, after: Mode) {
    (before == Paused && after != Paused) || (before == Cautious && after != Cautious && after != Paused)
  }

  lemma LeavingIsSustained(s: Scope, o: Observation)
    requires ScopeOk(s) && Leaves(s.mode, Step(s, o).mode)
    ensures Step(s, o).mode == if s.mode == Paused then Probe else Recovering
    ensures Step(s, o).lowSince.Some? && o.at - Step(s, o).lowSince.value >= 120.0
  {
  }

  // ---------------------------------------------------------------- how soon a pause can end

  /** The earliest time at which a scope in this state could become NORMAL. */
  function EarliestNormal(s: Scope): Time
    requires ScopeOk(s) && s.last.Some? && s.mode != Normal
  {
    match s.mode
    case Paused => (if s.lowSince.Some? then s.lowSince.value else s.last.value.at) + 210.0
    case Probe => s.stageSince.value + 90.0
    case Recovering => s.stageSince.value + (if s.slots == 2 then 60.0 else 30.0)
    case Cautious => (if s.lowSince.Some? then s.lowSince.value else s.last.value.at) + 180.0
  }

  /** No observation brings that time forward, and none arrives at NORMAL before it. */
  lemma EarliestNormalHolds(s: Scope, o: Observation)
    requires ScopeOk(s) && s.last.Some? && NewerThanLast(s, o) && s.mode != Normal
    requires 0 <= o.failures <= o.attempts
    ensures ScopeOk(Step(s, o))
    ensures Step(s, o).mode == Normal ==> o.at >= EarliestNormal(s)
    ensures Step(s, o).mode != Normal ==> EarliestNormal(Step(s, o)) >= EarliestNormal(s)
  {
    StepKeepsOk(s, o);
    LowIsNotHigh(o);
  }

  lemma {:induction false} EarliestNormalOverTrace(log: seq<Observation>, i: nat, j: nat)
    requires Trace(log) && ValidCounts(log) && i <= j < |log|
    requires forall k | i <= k < j :: StateAt(log, k).mode != Normal
    requires StateAt(log, i).mode != Normal
    ensures StateOk(log, i) && StateOk(log, j)
    ensures StateAt(log, j).mode == Normal ==> log[j].at >= EarliestNormal(StateAt(log, i))
    ensures StateAt(log, j).mode != Normal ==> EarliestNormal(StateAt(log, j)) >= EarliestNormal(StateAt(log, i))
    decreases j
  {
    hide *;
    StateIsOk(log, i);
    StateIsOk(log, j);
    if i < j {
      EarliestNormalOverTrace(log, i, j - 1);
      OneStepOn(log, j);
    }
  }

  lemma OneStepOn(log: seq<Observation>, j: nat)
    requires Trace(log) && ValidCounts(log) && 0 < j < |log|
    requires StateOk(log, j - 1) && StateOk(log, j) && StateAt(log, j - 1).mode != Normal
    ensures ScopeOk(StateAt(log, j - 1)) && ScopeOk(StateAt(log, j))
    ensures StateAt(log, j).mode == Normal ==> log[j].at >= EarliestNormal(StateAt(log, j - 1))
    ensures StateAt(log, j).mode != Normal ==> EarliestNormal(StateAt(log, j)) >= EarliestNormal(StateAt(log, j - 1))
  {
    NextState(log, j);
    hide After, StateAt, Step;
    EarliestNormalHolds(StateAt(log, j - 1), log[j]);
  }

  /** Sample `i` paused the scope, or paused it again: the mode is PAUSED and the sample was not low. */
  ghost predicate PausedBy(log: seq<Observation>, i: nat)
    requires i < |log|
  {
    StateAt(log, i).mode == Paused && (After(log[..i]).mode != Paused || !Low(log[i]))
  }

  lemma PausingIsNotLow(log: seq<Observation>, i: nat)
    requires Trace(log) && ValidCounts(log) && i < |log| && PausedBy(log, i)
    ensures StateAt(log, i).lowSince.None?
  {
    assert log[..i + 1][..i] == log[..i];
    LowIsNotHigh(log[i]);
  }

  lemma {:induction false} FirstNormal(log: seq<Observation>, i: nat, j: nat) returns (k: nat)
    requires i < j < |log| && StateAt(log, j).mode == Normal && StateAt(log, i).mode != Normal
    ensures i < k <= j && StateAt(log, k).mode == Normal
    ensures forall m | i <= m < k :: StateAt(log, m).mode != Normal
    decreases j
  {
    hide StateAt;
    if m :| i < m < j && StateAt(log, m).mode == Normal {
      k := FirstNormal(log, i, m);
    } else {
      k := j;
    }
  }

  /** Recovery is slow: after the sample that paused a scope, no sample within 210 seconds yields NORMAL. */
  lemma RecoveryTakes210Seconds(log: seq<Observation>, i: nat, j: nat)
    requires Trace(log) && ValidCounts(log) && i < j < |log|
    requires PausedBy(log, i) && StateAt(log, j).mode == Normal
    ensures log[j].at - log[i].at >= 210.0
  {
    hide StateAt, After;
    var k := FirstNormal(log, i, j);
    PausingIsNotLow(log, i);
    StateIsOk(log, i);
    EarliestNormalOverTrace(log, i, k);
    assert log[k].at <= log[j].at;
  }

  // ---------------------------------------------------------------- where the automaton is not monotone

  datatype Class = Mild | Raised | Severe

  /** `Mild`: not high. `Raised`: high by rate only, not sustained. `Severe`: pauses at once. */
  function ClassOf(s: Scope, o: Observation): Class {
    if Hard(o) || (High(o) && Sustained(Since(true, Gap(s, o), s.highSince, o.at), o.at, 90.0)) then Severe
    else if High(o) then Raised
    else Mild
  }

  predicate WorseClass(a: Class, b: Class) {
    (a == Severe && b != Severe) || (a == Raised && b == Mild)
  }

  /**
   A worse sample may grant more slots than a milder one at the same moment, and exactly one case does:
   a probing scope keeps its slot on a raised sample but loses it on a mild sample that is not low.
   */
  lemma WorseSampleGetsMoreIff(s: Scope, worse: Observation, milder: Observation)
    requires ScopeOk(s) && NewerThanLast(s, worse) && worse.at == milder.at
    requires 0 <= milder.failures <= milder.attempts
    requires WorseClass(ClassOf(s, worse), ClassOf(s, milder))
    ensures Step(s, worse).slots > Step(s, milder).slots
       <==> s.mode == Probe && ClassOf(s, worse) == Raised && !Low(milder)
  {
    LowIsNotHigh(milder);
  }

  /** When a sample pauses a probing scope: when it is severe, or when it is neither high nor low. */
  lemma ProbePausesIff(s: Scope, o: Observation)
    requires ScopeOk(s) && s.mode == Probe && NewerThanLast(s, o) && 0 <= o.failures <= o.attempts
    ensures Step(s, o).mode == Paused <==> ClassOf(s, o) == Severe || (ClassOf(s, o) == Mild && !Low(o))
  {
    LowIsNotHigh(o);
  }

  /**
   A failing probe need not pause: one hundred attempts, all failed, leave a freshly opened probe with its slot.
   */
  lemma FailingProbeKeepsItsSlot(s: Scope, at: Time)
    requires ScopeOk(s) && s.mode == Probe && s.highSince.None? && s.last.Some? && at > s.last.value.at
    ensures Step(s, Observation(at, 300, 100, 100, 0, 0.2, 0)).mode == Probe
    ensures Step(s, Observation(at, 300, 100, 100, 0, 0.2, 0)).slots == 1
  {
  }

  /** When a low clean sample ends a probe: the stage time is kept across a sample gap, and only the last step is checked. */
  lemma ProbeAdvancesIff(s: Scope, o: Observation)
    requires ScopeOk(s) && s.mode == Probe && NewerThanLast(s, o) && 0 <= o.failures <= o.attempts
    ensures Step(s, o).mode == Recovering <==>
              Low(o) && Clean(o) && !Gap(s, o) && o.at - s.stageSince.value >= 30.0
  {
    LowIsNotHigh(o);
  }

  /**
   A sample gap does not reset a probe. Two clean samples one second apart, a hundred seconds after the
   probe began and with nothing in between, move it on; in RECOVERING the same two samples do not.
   */
  lemma GapDoesNotResetProbe(s: Scope, first: Observation, second: Observation)
    requires ScopeOk(s) && s.last.Some? && (s.mode == Probe || (s.mode == Recovering && s.slots == 2))
    requires s.stageSince == Some(s.last.value.at)
    requires Low(first) && Clean(first) && Low(second) && Clean(second)
    requires first.at == s.last.value.at + 100.0 && second.at == first.at + 1.0
    ensures s.mode == Probe ==> Step(Step(s, first), second).mode == Recovering
    ensures s.mode == Recovering ==> Step(Step(s, first), second).slots == 2
  {
    LowIsNotHigh(first);
    LowIsNotHigh(second);
  }

  // ---------------------------------------------------------------- every mode, with the numbers written out

  /** The sample alone says pause: capacity at 90 per cent, five minutes without a dependency, or an old backlog under load. */
  predicate Overload(o: Observation) {
    o.capacity >= 0.9 || o.unavailable >= 300 || (o.backlog >= 900 && o.capacity >= 0.7)
  }

  /** Half of at least twenty attempts failed. */
  predicate Failing(o: Observation) {
    o.attempts >= 20 && 2 * o.failures >= o.attempts
  }

  predicate Quiet(o: Observation) {
    o.capacity <= 0.7 && o.backlog < 300 && o.unavailable == 0 && 10 * o.failures <= o.attempts
  }

  /** The sample comes within thirty seconds of the one before. */
  predicate Follows(s: Scope, o: Observation) {
    s.last.Some? && o.at - s.last.value.at <= 30.0
  }

  /** High pressure has lasted for ninety seconds, up to and including this sample. */
  predicate HighFor90(s: Scope, o: Observation) {
    (Overload(o) || Failing(o)) && Follows(s, o) && s.highSince.Some? && o.at - s.highSince.value >= 90.0
  }

  /** Low pressure has lasted for two minutes, up to and including this sample. */
  predicate LowFor120(s: Scope, o: Observation) {
    Quiet(o) && Follows(s, o) && s.lowSince.Some? && o.at - s.lowSince.value >= 120.0
  }

  /** Thirty seconds of the present stage, and a sample with traffic and without a failure. */
  predicate StageOver(s: Scope, o: Observation) {
    s.stageSince.Some? && o.at - s.stageSince.value >= 30.0 && o.attempts > 0 && o.failures == 0
  }

  /** A sample for a scope: newer than its last, with no more failures than attempts. */
  predicate NextSample(s: Scope, o: Observation) {
    ScopeOk(s) && NewerThanLast(s, o) && 0 <= o.failures <= o.attempts
  }

  lemma SampleClasses(s: Scope, o: Observation)
    requires NextSample(s, o)
    ensures Hard(o) <==> Overload(o)
    ensures High(o) <==> Overload(o) || Failing(o)
    ensures Low(o) <==> Quiet(o)
    ensures !(Quiet(o) && (Overload(o) || Failing(o)))
    ensures Gap(s, o) <==> !Follows(s, o)
    ensures StageDone(s, o) <==> StageOver(s, o)
    ensures Sustained(Since(High(o), Gap(s, o), s.highSince, o.at), o.at, 90.0) <==> HighFor90(s, o)
    ensures Sustained(Since(Low(o), Gap(s, o), s.lowSince, o.at), o.at, 120.0) <==> LowFor120(s, o)
  {
  }

  /** What every sample records, whatever the mode. */
  lemma SampleRecorded(s: Scope, o: Observation)
    requires NextSample(s, o)
    ensures
      var s' := Step(s, o);
      && s'.version == s.version + 1 && s'.last == Some(o)
      && (s'.highSince.Some? <==> Overload(o) || Failing(o))
      && (s'.highSince.Some? ==> s'.highSince.value == if Follows(s, o) && s.highSince.Some? then s.highSince.value else o.at)
      && (s'.lowSince.Some? <==> Quiet(o))
      && (s'.lowSince.Some? ==> s'.lowSince.value == if Follows(s, o) && s.lowSince.Some? then s.lowSince.value else o.at)
  {
    SampleClasses(s, o);
    hide Hard, RateHigh, Low, Overload, Failing, Quiet, StageDone;
  }

  /** Exactly when a sample leaves a scope paused: it pauses any scope, or finds it paused and not calm for long enough. */
  lemma PausedIff(s: Scope, o: Observation)
    requires NextSample(s, o)
    ensures
      Step(s, o).mode == Paused <==>
        || Overload(o) || HighFor90(s, o)
        || (s.mode == Paused && !LowFor120(s, o))
        || (s.mode == Probe && !Failing(o) && !Quiet(o))
    ensures Step(s, o).mode == Paused ==> Step(s, o).slots == 0
  {
    SampleClasses(s, o);
    hide Hard, RateHigh, High, Low, Overload, Failing, Quiet, StageDone, Sustained, HighFor90, LowFor120;
  }

  /** A NORMAL scope stays NORMAL, with its eight slots, turns CAUTIOUS with two, or is paused, exactly so. */
  lemma NormalOutcome(s: Scope, o: Observation)
    requires NextSample(s, o) && s.mode == Normal
    ensures Step(s, o).mode == Normal <==> !Overload(o) && !Failing(o)
    ensures Step(s, o).mode == Cautious <==> !Overload(o) && Failing(o) && !HighFor90(s, o)
    ensures Step(s, o).mode == Paused <==> Overload(o) || HighFor90(s, o)
    ensures Step(s, o).slots == match Step(s, o).mode case Normal => 8 case Cautious => 2 case _ => 0
  {
    SampleClasses(s, o);
    hide Hard, RateHigh, High, Low, Overload, Failing, Quiet, StageDone, Sustained, HighFor90, LowFor120;
    HighNeedsHigh(s, o);
  }

  lemma HighNeedsHigh(s: Scope, o: Observation)
    ensures HighFor90(s, o) ==> Overload(o) || Failing(o)
    ensures LowFor120(s, o) ==> Quiet(o)
  {
  }

  /** A CAUTIOUS scope starts to recover after two calm minutes, pauses, or stays, exactly so. */
  lemma CautiousOutcome(s: Scope, o: Observation)
    requires NextSample(s, o) && s.mode == Cautious
    ensures Step(s, o).mode == Recovering <==> LowFor120(s, o)
    ensures Step(s, o).mode == Paused <==> Overload(o) || HighFor90(s, o)
    ensures Step(s, o).mode == Cautious <==> !LowFor120(s, o) && !Overload(o) && !HighFor90(s, o)
    ensures Step(s, o).slots == if Step(s, o).mode == Paused then 0 else 2
    ensures Step(s, o).mode == Recovering ==> Step(s, o).stageSince == Some(o.at)
  {
    SampleClasses(s, o);
    hide Hard, RateHigh, High, Low, Overload, Failing, Quiet, StageDone, Sustained, HighFor90, LowFor120;
    HighNeedsHigh(s, o);
  }

  /** A PAUSED scope is probed with one slot after two calm minutes, and only then. */
  lemma PausedOutcome(s: Scope, o: Observation)
    requires NextSample(s, o) && s.mode == Paused
    ensures Step(s, o).mode == Probe <==> LowFor120(s, o)
    ensures Step(s, o).mode == Paused <==> !LowFor120(s, o)
    ensures Step(s, o).slots == if Step(s, o).mode == Probe then 1 else 0
    ensures Step(s, o).mode == Probe ==> Step(s, o).stageSince == Some(o.at)
  {
    SampleClasses(s, o);
    hide Hard, RateHigh, High, Low, Overload, Failing, Quiet, StageDone, Sustained, HighFor90, LowFor120;
    HighNeedsHigh(s, o);
  }

  /** A PROBE ends with two slots after thirty seconds and a clean sample that follows the last, or pauses, or stays. */
  lemma ProbeOutcome(s: Scope, o: Observation)
    requires NextSample(s, o) && s.mode == Probe
    ensures Step(s, o).mode == Recovering <==> Quiet(o) && Follows(s, o) && StageOver(s, o)
    ensures Step(s, o).mode == Paused <==> Overload(o) || HighFor90(s, o) || (!Failing(o) && !Quiet(o))
    ensures Step(s, o).mode == Probe <==> Step(s, o).mode != Recovering && Step(s, o).mode != Paused
    ensures Step(s, o).slots == match Step(s, o).mode case Recovering => 2 case Paused => 0 case _ => 1
    ensures Step(s, o).stageSince ==
              match Step(s, o).mode case Recovering => Some(o.at) case Paused => None case _ => s.stageSince
  {
    SampleClasses(s, o);
    hide Hard, RateHigh, High, Low, Overload, Failing, Quiet, StageDone, StageOver, Sustained, HighFor90, LowFor120;
    HighNeedsHigh(s, o);
  }

  /** A RECOVERING scope doubles its slots, up to the eight of NORMAL, after each clean thirty seconds, and falls back otherwise. */
  lemma RecoveringOutcome(s: Scope, o: Observation)
    requires NextSample(s, o) && s.mode == Recovering
    ensures Step(s, o).mode == Paused <==> Overload(o) || HighFor90(s, o)
    ensures Step(s, o).mode == Cautious <==> !Quiet(o) && !Overload(o) && !HighFor90(s, o)
    ensures Step(s, o).mode == Normal <==> Quiet(o) && Follows(s, o) && StageOver(s, o) && s.slots == 4
    ensures Step(s, o).mode == Recovering <==> Quiet(o) && !(Follows(s, o) && StageOver(s, o) && s.slots == 4)
    ensures Step(s, o).slots ==
              match Step(s, o).mode
              case Paused => 0
              case Cautious => 2
              case Normal => 8
              case _ => if Follows(s, o) && StageOver(s, o) then 4 else s.slots
    ensures Quiet(o) ==> Step(s, o).stageSince == if !Follows(s, o) || StageOver(s, o) then Some(o.at) else s.stageSince
  {
    SampleClasses(s, o);
    hide Hard, RateHigh, High, Low, Overload, Failing, Quiet, StageDone, StageOver, Sustained, HighFor90, LowFor120;
    HighNeedsHigh(s, o);
  }

  /** After a sample of which half failed no scope has more than two slots, whatever it was before; over every trace too. */
  lemma FailingLeavesTwoSlots(s: Scope, o: Observation)
    requires NextSample(s, o) && o.attempts >= 20 && 2 * o.failures >= o.attempts
    ensures Step(s, o).slots <= 2
  {
  }

  lemma FailingTraceLeavesTwoSlots(log: seq<Observation>)
    requires Trace(log) && ValidCounts(log) && log != []
    requires
      var o := log[|log| - 1];
      o.attempts >= 20 && 2 * o.failures >= o.attempts
    ensures After(log).slots <= 2 && After(log).mode != Normal
  {
    var n := |log| - 1;
    AfterOk(log[..n]);
    FailingLeavesTwoSlots(After(log[..n]), log[n]);
    AfterOk(log);
  }

  lemma StepLast(s: Scope, o: Observation)
    ensures Step(s, o).last == Some(o)
  {
  }

  /** The same of a stored scope by the sample it was given last. */
  lemma LastFailing(log: seq<Observation>, o: Observation)
    requires Trace(log) && ValidCounts(log) && After(log).last == Some(o)
    ensures o.attempts >= 20 && 2 * o.failures >= o.attempts ==> After(log).slots <= 2 && After(log).mode != Normal
  {
    AfterOk(log);
    if o.attempts >= 20 && 2 * o.failures >= o.attempts { FailingTraceLeavesTwoSlots(log); }
  }

  // ---------------------------------------------------------------- decisions

  datatype Decision = Decision(version: nat, mode: Option<Mode>, businessSlots: int, controlSlots: int, evidenceFresh: bool)

  predicate FreshAt(s: Scope, now: Time) {
    s.last.Some? && -5.0 <= now - s.last.value.at <= FRESH_SECONDS
  }

  function Decide(s: Scope, now: Time): Decision {
    var recent := FreshAt(s, now);
    Decision(s.version, if recent then Some(s.mode) else None, if recent then s.slots else 0, CONTROL_SLOTS, recent)
  }

  /** The decision for a scope stored under another profile: its evidence never counts as fresh. */
  function Undecided(version: nat): Decision {
    Decision(version, None, 0, CONTROL_SLOTS, false)
  }

  /** Slots are granted only on evidence observed in the last 30 seconds, and never while the scope is paused. */
  lemma SlotsNeedFreshEvidence(log: seq<Observation>, now: Time)
    requires Trace(log) && Decide(After(log), now).businessSlots > 0
    ensures log != [] && -5.0 <= now - log[|log| - 1].at <= 30.0
    ensures Decide(After(log), now).mode.Some? && Decide(After(log), now).mode != Some(Paused)
    ensures Decide(After(log), now).businessSlots <= 8
  {
    AfterOk(log);
  }

  // ---------------------------------------------------------------- the controller object

  lemma LogGrows(log: seq<Observation>, o: Observation)
    requires Trace(log) && ValidCounts(log) && NewerThanLast(After(log), o) && 0 <= o.failures <= o.attempts
    ensures Trace(log + [o]) && ValidCounts(log + [o]) && After(log + [o]) == Step(After(log), o)
  {
    hide Step, ScopeOk;
    AfterOk(log);
    assert (log + [o])[..|log|] == log;
  }

  lemma NoSamples()
    ensures Trace([]) && ValidCounts([]) && After([]) == INITIAL
  {
  }

  function Calm(at: Time): Observation { Observation(at, 300, 10, 0, 0, 0.1, 0) }

  const OVERLOAD := Observation(0.0, 300, 10, 0, 0, 0.95, 0)

  lemma OverloadPauses()
    ensures
      var s := Step(INITIAL, OVERLOAD);
      s.mode == Paused && s.lowSince.None? && s.last == Some(OVERLOAD)
  {
  }

  /** A calm sample within thirty seconds of the last one, in a scope that is paused. */
  lemma CalmStep(s: Scope, at: Time)
    requires s.mode == Paused && s.last.Some? && s.last.value.at < at <= s.last.value.at + 30.0
    ensures
      var s' := Step(s, Calm(at));
      var since := if s.lowSince.Some? then s.lowSince.value else at;
      && s'.last == Some(Calm(at)) && s'.lowSince == Some(since) && s'.highSince.None?
      && (at - since < 120.0 ==> s'.mode == Paused)
      && (at - since >= 120.0 ==> s'.mode == Probe && s'.stageSince == Some(at))
  {
  }

  lemma CalmProbe(s: Scope, at: Time)
    requires s.mode == Probe && s.last.Some? && s.stageSince == Some(s.last.value.at) && at == s.last.value.at + 30.0
    ensures
      var s' := Step(s, Calm(at));
      s'.mode == Recovering && s'.slots == 2 && s'.last == Some(Calm(at)) && s'.stageSince == Some(at)
  {
  }

  /** An overload and then `n` calm samples, thirty seconds apart. */
  function CalmLog(n: nat): seq<Observation> {
    if n == 0 then [OVERLOAD] else CalmLog(n - 1) + [Calm(30.0 * n as real)]
  }

  lemma {:induction false} CalmLogPauses(n: nat)
    requires 1 <= n <= 4
    ensures Trace(CalmLog(n)) && ValidCounts(CalmLog(n))
    ensures
      var s := After(CalmLog(n));
      s.mode == Paused && s.lowSince == Some(30.0) && s.last == Some(Calm(30.0 * n as real))
    decreases n
  {
    hide Step, After, Trace, ValidCounts;
    if n == 1 {
      NoSamples();
      OverloadPauses();
      LogGrows([], OVERLOAD);
      assert [] + [OVERLOAD] == CalmLog(0);
      CalmStep(Step(INITIAL, OVERLOAD), 30.0);
      LogGrows(CalmLog(0), Calm(30.0));
    } else {
      CalmLogPauses(n - 1);
      CalmStep(After(CalmLog(n - 1)), 30.0 * n as real);
      LogGrows(CalmLog(n - 1), Calm(30.0 * n as real));
    }
  }

  /** Scopes as the statements about probes take them do occur: a probe just begun, and a recovery just begun. */
  lemma ProbeOccurs()
    ensures Trace(CalmLog(5)) && ValidCounts(CalmLog(5)) && Trace(CalmLog(6)) && ValidCounts(CalmLog(6))
    ensures
      var s := After(CalmLog(5));
      s.mode == Probe && s.highSince.None? && s.last == Some(Calm(150.0)) && s.stageSince == Some(150.0)
    ensures
      var s := After(CalmLog(6));
      s.mode == Recovering && s.slots == 2 && s.last == Some(Calm(180.0)) && s.stageSince == Some(180.0)
  {
    hide Step, After, Trace, ValidCounts;
    CalmLogPauses(4);
    CalmStep(After(CalmLog(4)), 150.0);
    LogGrows(CalmLog(4), Calm(150.0));
    CalmProbe(After(CalmLog(5)), 180.0);
    LogGrows(CalmLog(5), Calm(180.0));
  }

  /** One observe call against a stored scope, or one stored under another profile. */
  function ObserveTx(s: Option<Scope>, foreign: bool, o: Observation, expected: int, now: Time): Result<Scope, PressureError> {
    if expected < 0 then Err(VersionInvalid)
    else if !ValidSample(o, now) then Err(ObservationInvalid)
    else if foreign then Err(ProfileChanged)
    else if s.None? then Err(ScopeUnregistered)
    else if s.value.last == Some(o) then Ok(s.value)
    else if s.value.version != expected || !NewerThanLast(s.value, o) then Err(ObservationConflict)
    else Ok(Step(s.value, o))
  }

  /** What is taken for a sample: five minutes of counts, thirty seconds old at most, of the host's clock. */
  predicate Acceptable(o: Observation, now: Time) {
    && -5.0 <= now - o.at <= 30.0 && o.window == 300 && 0.0 <= o.capacity <= 1.0
    && 0 <= o.failures <= o.attempts <= 1_000_000_000
    && 0 <= o.unavailable <= 1_000_000_000 && 0 <= o.backlog <= 1_000_000_000
  }

  /** Exactly what an observe call does with a sample, and what it is refused for, one condition after the other. */
  lemma ObserveOutcome(s: Option<Scope>, foreign: bool, o: Observation, expected: int, now: Time)
    ensures
      var r := ObserveTx(s, foreign, o, expected, now);
      var taken := expected >= 0 && Acceptable(o, now);
      && (r == Err(VersionInvalid) <==> expected < 0)
      && (r == Err(ObservationInvalid) <==> expected >= 0 && !Acceptable(o, now))
      && (r == Err(ProfileChanged) <==> taken && foreign)
      && (r == Err(ScopeUnregistered) <==> taken && !foreign && s.None?)
      && (taken && !foreign && s.Some? ==>
            var again := s.value.last == Some(o);
            var next := s.value.version == expected && (s.value.last.Some? ==> o.at > s.value.last.value.at);
            && (again ==> r == Ok(s.value))
            && (!again && next ==> r == Ok(Step(s.value, o)))
            && (r == Err(ObservationConflict) <==> !again && !next))
  {
    hide Step;
  }

  /** A decision tells the version, and of a scope whose last sample is fresh its mode and slots; two slots are always kept back. */
  lemma DecisionOutcome(s: Scope, now: Time)
    ensures
      var d, recent := Decide(s, now), s.last.Some? && -5.0 <= now - s.last.value.at <= 30.0;
      && d.version == s.version && d.controlSlots == 2 && d.evidenceFresh == recent
      && d.mode == (if recent then Some(s.mode) else None) && d.businessSlots == (if recent then s.slots else 0)
  {
  }

  /** A scope reference is a short URI. */
  predicate ScopeRef(ref: string) {
    1 <= |ref| <= 200 && exists i | 0 <= i < |ref| - 2 :: ref[i] == ':' && ref[i + 1] == '/' && ref[i + 2] == '/'
  }

  /** A reference with a scheme before "://" and anything after it is taken unless it is longer than 200, and nothing else is. */
  lemma ScopeRefOutcome(ref: string)
    ensures ScopeRef(ref) <==> |ref| <= 200 && exists scheme, rest :: ref == scheme + "://" + rest
  {
    if ScopeRef(ref) {
      var i :| 0 <= i < |ref| - 2 && ref[i] == ':' && ref[i + 1] == '/' && ref[i + 2] == '/';
      assert ref == ref[..i] + "://" + ref[i + 3..];
    }
    if scheme, rest :| ref == scheme + "://" + rest {
      var i := |scheme|;
      assert ref[i] == ':' && ref[i + 1] == '/' && ref[i + 2] == '/';
    }
  }

  class PressureController {
    var scopes: map<string, Scope>
    /** The versions of the scopes an earlier release registered under another profile; nothing here changes them. */
    const foreign: map<string, nat>
    /** The accepted observations of each scope. */
    ghost var logs: map<string, seq<Observation>>

    /** Every stored row is what its accepted observations make of a new scope. */
    ghost predicate Valid()
      reads this
    {
      && scopes.Keys == logs.Keys && scopes.Keys !! foreign.Keys && |scopes| + |foreign| <= MAX_SCOPES
      && forall ref | ref in scopes :: Trace(logs[ref]) && ValidCounts(logs[ref]) && scopes[ref] == After(logs[ref])
    }

    constructor (foreignScopes: map<string, nat>)
      requires |foreignScopes| <= MAX_SCOPES
      ensures Valid() && scopes == map[] && foreign == foreignScopes
    {
      scopes, logs, foreign := map[], map[], foreignScopes;
    }

    method RegisterScope(ref: string) returns (error: Option<PressureError>)
      requires Valid()
      modifies this
      ensures Valid()
      ensures error.Some? ==> scopes == old(scopes) && logs == old(logs)
      ensures error.None? ==> ref in scopes && (forall r | r in old(scopes) :: r in scopes && scopes[r] == old(scopes)[r])
      ensures error.None? ==> scopes.Keys == old(scopes.Keys) + {ref}
      ensures error.None? && ref !in old(scopes) ==> scopes[ref] == Scope(0, Normal, 8, None, None, None, None)
      ensures error == Some(ScopeInvalid) <==> !ScopeRef(ref)
      ensures error == Some(ProfileChanged) <==> ScopeRef(ref) && ref in foreign
      ensures error == Some(ScopeCapacity) <==>
                ScopeRef(ref) && ref !in foreign && ref !in old(scopes) && |old(scopes)| + |foreign| >= 1024
    {
      hide Step, After, Trace, ValidCounts, ScopeRef;
      if !ScopeRef(ref) {
        return Some(ScopeInvalid);
      }
      if ref in foreign {
        return Some(ProfileChanged);
      }
      if ref !in scopes {
        if |scopes| + |foreign| >= MAX_SCOPES {
          return Some(ScopeCapacity);
        }
        InsertScope(ref);
      }
      error := None;
    }

    method InsertScope(ref: string)
      requires Valid() && ref !in scopes && ref !in foreign && |scopes| + |foreign| < MAX_SCOPES
      modifies this
      ensures Valid() && scopes == old(scopes)[ref := INITIAL] && logs == old(logs)[ref := []]
    {
      NoSamples();
      hide Step, After, Trace, ValidCounts;
      assert (scopes[ref := INITIAL]).Keys == scopes.Keys + {ref};
      scopes := scopes[ref := INITIAL];
      logs := logs[ref := []];
    }

    /** The clock is read once to judge the sample and once for the decision. */
    method Observe(ref: string, o: Observation, expected: int, now: Time, later: Time)
      returns (result: Result<Decision, PressureError>)
      requires Valid()
      modifies this
      ensures Valid()
      ensures
        match ObserveTx(if ref in old(scopes) then Some(old(scopes)[ref]) else None, ref in foreign, o, expected, now)
        case Err(e) => result == Err(e) && scopes == old(scopes) && logs == old(logs)
        case Ok(s) =>
          && ref in old(scopes) && scopes == old(scopes)[ref := s] && result == Ok(Decide(s, later))
          && (s == old(scopes)[ref] || logs == old(logs)[ref := old(logs)[ref] + [o]])
      ensures result.Ok? && o.attempts >= 20 && 2 * o.failures >= o.attempts ==>
                ref in scopes && scopes[ref].mode != Normal && scopes[ref].slots <= 2 && result.value.businessSlots <= 2
    {
      hide Step, After, Trace, ValidCounts, ScopeOk;
      if expected < 0 {
        return Err(VersionInvalid);
      }
      if !ValidSample(o, now) {
        return Err(ObservationInvalid);
      }
      if ref in foreign {
        return Err(ProfileChanged);
      }
      if ref !in scopes {
        return Err(ScopeUnregistered);
      }
      var frame := scopes[ref];
      if frame.last == Some(o) {
        assert scopes[ref := frame] == scopes;
        LastFailing(logs[ref], o);
        return Ok(Decide(frame, later));
      }
      if frame.version != expected || (frame.last.Some? && o.at <= frame.last.value.at) {
        return Err(ObservationConflict);
      }
      AfterOk(logs[ref]);
      hide ValidSample;
      var next := Transition(frame, o);
      Store(ref, o, next);
      StepLast(frame, o);
      LastFailing(logs[ref], o);
      result := Ok(Decide(next, later));
    }

    /** The update of the scope row, and of the log of what it was computed from. */
    method Store(ref: string, o: Observation, next: Scope)
      requires Valid() && ref in scopes && 0 <= o.failures <= o.attempts && NewerThanLast(scopes[ref], o) && next == Step(scopes[ref], o)
      modifies this
      ensures Valid()
      ensures scopes == old(scopes)[ref := next] && logs == old(logs)[ref := old(logs)[ref] + [o]]
    {
      LogGrows(logs[ref], o);
      hide Step, After, Trace, ValidCounts;
      ghost var log := logs[ref];
      scopes := scopes[ref := next];
      logs := logs[ref := log + [o]];
    }

    /** The automaton itself, as a sequence of updates to one frame. */
    method Transition(frame: Scope, o: Observation) returns (next: Scope)
      requires ScopeOk(frame)
      ensures next == Step(frame, o)
    {
      var mode, slots, stageSince := frame.mode, frame.slots, frame.stageSince;
      var gap := frame.last.None? || o.at - frame.last.value.at > FRESH_SECONDS;
      var high, low := High(o), Low(o);
      var highSince := if !high then None else if gap || frame.highSince.None? then Some(o.at) else frame.highSince;
      var lowSince := if !low then None else if gap || frame.lowSince.None? then Some(o.at) else frame.lowSince;
      if Hard(o) || (high && highSince.Some? && o.at - highSince.value >= 90.0) {
        mode, slots, stageSince := Paused, 0, None;
      } else if high {
        if mode != Paused && mode != Probe {
          mode, slots, stageSince := Cautious, 2, None;
        }
      } else if mode == Paused {
        if low && o.at - lowSince.value >= 120.0 {
          mode, slots, stageSince := Probe, 1, Some(o.at);
        }
      } else if mode == Probe {
        if !low {
          mode, slots, stageSince := Paused, 0, None;
        } else if !gap && o.at - stageSince.value >= 30.0 && o.attempts > 0 && o.failures == 0 {
          mode, slots, stageSince := Recovering, 2, Some(o.at);
        }
      } else if mode == Recovering {
        if !low {
          mode, slots, stageSince := Cautious, 2, None;
        } else if gap {
          stageSince := Some(o.at);
        } else if o.at - stageSince.value >= 30.0 && o.attempts > 0 && o.failures == 0 {
          slots := if slots * 2 < BUSINESS_SLOTS then slots * 2 else BUSINESS_SLOTS;
          stageSince := Some(o.at);
          if slots == BUSINESS_SLOTS {
            mode := Normal;
          }
        }
      } else if mode == Cautious {
        if low && o.at - lowSince.value >= 120.0 {
          mode, slots, stageSince := Recovering, 2, Some(o.at);
        }
      }
      next := Scope(frame.version + 1, mode, slots, Some(o), highSince, lowSince, stageSince);
    }

    /** The decision speaks for the accepted samples of the scope: no slots without fresh evidence, none while paused. */
    method CurrentDecision(ref: string, now: Time) returns (result: Result<Decision, PressureError>)
      requires Valid()
      ensures ref !in scopes && ref !in foreign ==> result == Err(ScopeUnregistered)
      ensures ref in foreign ==> result.Ok? && result.value.mode.None? && result.value.businessSlots == 0
      ensures ref in foreign ==> !result.value.evidenceFresh && result.value.version == foreign[ref]
      ensures ref in scopes ==> result.Ok? && result.value.version == |logs[ref]|
      ensures ref in scopes ==>
                (result.value.evidenceFresh <==>
                   logs[ref] != [] && -5.0 <= now - logs[ref][|logs[ref]| - 1].at <= 30.0)
      ensures ref in scopes && result.value.evidenceFresh ==>
                result.value.mode == Some(After(logs[ref]).mode) && result.value.businessSlots == After(logs[ref]).slots
      ensures result.Ok? && !result.value.evidenceFresh ==> result.value.mode.None? && result.value.businessSlots == 0
      ensures result.Ok? ==> result.value.controlSlots == 2
      ensures result.Ok? && result.value.businessSlots > 0 ==>
                result.value.evidenceFresh && result.value.mode != Some(Paused) && result.value.businessSlots <= 8
    {
      if ref in foreign {
        return Ok(Undecided(foreign[ref]));
      }
      if ref !in scopes {
        return Err(ScopeUnregistered);
      }
      AfterOk(logs[ref]);
      hide Step, After, Trace, ValidCounts;
      result := Ok(Decide(scopes[ref], now));
    }
  }
}
