/** The session lifecycle of the sheep counter as values: one snapshot of the controller's
    state and one function per thing that can happen to it (start, stop, a spawn tick of the
    interval, one sheep's animation ending). The class in module Session is proved to follow
    these functions; the properties of the lifecycle are proved here about them. */
module Lifecycle {
  import Display

  /** The inline `animationPlayState` of one sheep element: never set, 'running' or 'paused'. */
  datatype PlayState = Unset | Running | Paused

  /** The controller's state: whether the spawn interval is armed, whether the field carries
      the `paused` class, whether an audio controller is held, the count, and the live sheep
      in document order. */
  datatype Snapshot = Snapshot(
    intervalArmed: bool,
    paused: bool,
    audioPresent: bool,
    count: nat,
    sheep: seq<PlayState>)

  /** The state when the page has loaded: nothing armed, nothing paused, no audio, no sheep. */
  function Initial(): (s: Snapshot)
    ensures !s.intervalArmed && !s.paused && !s.audioPresent && s.count == 0 && s.sheep == []
  {
    Snapshot(false, false, false, 0, [])
  }

  /** Every sheep's play state overwritten with `st`, as a `forEach` over the live sheep does. */
  function Overwrite(ps: seq<PlayState>, st: PlayState): (r: seq<PlayState>)
    ensures |r| == |ps|
    ensures forall k :: 0 <= k < |r| ==> r[k] == st
  {
    if ps == [] then [] else [st] + Overwrite(ps[1..], st)
  }

  /** What holds in every reachable state: an armed interval means the field is not paused,
      an audio controller is only held while the interval is armed, and a sheep is frozen
      exactly when the field is paused. */
  predicate Consistent(s: Snapshot) {
    (s.intervalArmed ==> !s.paused) &&
    (s.audioPresent ==> s.intervalArmed) &&
    forall k :: 0 <= k < |s.sheep| ==> (s.sheep[k] == Paused <==> s.paused)
  }

  /** `startCounting`, with `audioOk` telling whether constructing the audio would succeed. */
  function StartStep(s: Snapshot, audioOk: bool): (r: Snapshot)
    ensures s.intervalArmed ==> r == s
    ensures !s.intervalArmed ==>
      r.intervalArmed && !r.paused && r.count == s.count &&
      |r.sheep| == |s.sheep| + 1 && r.sheep[|s.sheep|] == Unset &&
      (forall k :: 0 <= k < |s.sheep| ==> r.sheep[k] == if s.paused then Running else s.sheep[k]) &&
      r.audioPresent == (s.audioPresent || audioOk)
  {
    if s.intervalArmed then s
    else
      var resumed := if s.paused then s.(paused := false, sheep := Overwrite(s.sheep, Running)) else s;
      var spawned := resumed.(sheep := resumed.sheep + [Unset], intervalArmed := true);
      if !spawned.audioPresent && audioOk then spawned.(audioPresent := true) else spawned
  }

  /** `stopCounting`. */
  function StopStep(s: Snapshot): (r: Snapshot)
    ensures !r.intervalArmed && r.paused && !r.audioPresent
    ensures r.count == s.count && |r.sheep| == |s.sheep|
    ensures forall k :: 0 <= k < |r.sheep| ==> r.sheep[k] == Paused
  {
    s.(intervalArmed := false, paused := true, sheep := Overwrite(s.sheep, Paused), audioPresent := false)
  }

  /** The armed interval firing `createSheep`. */
  function TickStep(s: Snapshot): (r: Snapshot)
    requires s.intervalArmed
    ensures |r.sheep| == |s.sheep| + 1 && r.sheep[..|s.sheep|] == s.sheep && r.sheep[|s.sheep|] == Unset
    ensures r.intervalArmed == s.intervalArmed && r.paused == s.paused
    ensures r.audioPresent == s.audioPresent && r.count == s.count
  {
    s.(sheep := s.sheep + [Unset])
  }

  /** The `animationend` handler of live sheep `i`. */
  function CompleteStep(s: Snapshot, i: nat): (r: Snapshot)
    requires i < |s.sheep|
    ensures r.count == s.count + 1 && |r.sheep| == |s.sheep| - 1
    ensures forall k :: 0 <= k < i ==> r.sheep[k] == s.sheep[k]
    ensures forall k :: i <= k < |r.sheep| ==> r.sheep[k] == s.sheep[k + 1]
    ensures r.intervalArmed == s.intervalArmed && r.paused == s.paused
    ensures r.audioPresent == s.audioPresent
  {
    s.(sheep := s.sheep[..i] + s.sheep[i + 1..], count := s.count + 1)
  }

  /** The things that can happen to the controller. */
  datatype Event = StartEv(audioOk: bool) | StopEv | TickEv | CompleteEv(index: nat)

  /** An event can happen in a state: a tick only while the interval is armed, a completion
      only for a live sheep. */
  predicate Enabled(s: Snapshot, e: Event) {
    match e
    case TickEv => s.intervalArmed
    case CompleteEv(i) => i < |s.sheep|
    case _ => true
  }

  function Step(s: Snapshot, e: Event): Snapshot
    requires Enabled(s, e)
  {
    match e
    case StartEv(ok) => StartStep(s, ok)
    case StopEv => StopStep(s)
    case TickEv => TickStep(s)
    case CompleteEv(i) => CompleteStep(s, i)
  }

  /** Every event of `es` is enabled when its turn comes. */
  predicate Feasible(s: Snapshot, es: seq<Event>)
    decreases |es|
  {
    es == [] || (Enabled(s, es[0]) && Feasible(Step(s, es[0]), es[1..]))
  }

  function Run(s: Snapshot, es: seq<Event>): Snapshot
    requires Feasible(s, es)
    decreases |es|
  {
    if es == [] then s else Run(Step(s, es[0]), es[1..])
  }

  function Completions(es: seq<Event>): nat
    decreases |es|
  {
    if es == [] then 0 else (if es[0].CompleteEv? then 1 else 0) + Completions(es[1..])
  }

  function Starts(es: seq<Event>): nat
    decreases |es|
  {
    if es == [] then 0 else (if es[0].StartEv? then 1 else 0) + Starts(es[1..])
  }

  /** Every operation keeps the state consistent. */
  lemma StepConsistent(s: Snapshot, e: Event)
    requires Consistent(s) && Enabled(s, e)
    ensures Consistent(Step(s, e))
  {
  }

  lemma {:induction false} RunConsistent(s: Snapshot, es: seq<Event>)
    requires Consistent(s) && Feasible(s, es)
    ensures Consistent(Run(s, es))
    decreases |es|
  {
    if es != [] {
      StepConsistent(s, es[0]);
      RunConsistent(Step(s, es[0]), es[1..]);
    }
  }

  /** Over any run the count grows by exactly one per completion and by nothing else;
      in particular it never decreases. */
  lemma {:induction false} RunCount(s: Snapshot, es: seq<Event>)
    requires Feasible(s, es)
    ensures Run(s, es).count == s.count + Completions(es)
    ensures Run(s, es).count >= s.count
    decreases |es|
  {
    if es != [] {
      RunCount(Step(s, es[0]), es[1..]);
    }
  }

  /** A start while the interval is armed changes nothing: no second interval, no second sheep,
      no second audio controller. */
  lemma StartWhenArmedIsNoop(s: Snapshot, audioOk: bool)
    requires s.intervalArmed
    ensures StartStep(s, audioOk) == s
  {
  }

  /** Failing to construct the audio does not hold up spawning: a failed start differs from a
      successful one only in whether audio is held. */
  lemma AudioFailureStillSpawns(s: Snapshot)
    ensures StartStep(s, false) == StartStep(s, true).(audioPresent := s.audioPresent)
  {
  }

  /** Stopping twice is stopping once. */
  lemma StopIdempotent(s: Snapshot)
    ensures StopStep(StopStep(s)) == StopStep(s)
  {
  }

  /** After a stop, until the next start, no sheep is spawned and every live sheep stays frozen. */
  lemma {:induction false} FrozenUntilStart(s: Snapshot, es: seq<Event>)
    requires Consistent(s) && s.paused && Feasible(s, es) && Starts(es) == 0
    ensures Run(s, es).paused && !Run(s, es).intervalArmed
    ensures |Run(s, es).sheep| + Completions(es) == |s.sheep|
    ensures forall k :: 0 <= k < |Run(s, es).sheep| ==> Run(s, es).sheep[k] == Paused
    decreases |es|
  {
    if es != [] {
      StepConsistent(s, es[0]);
      FrozenUntilStart(Step(s, es[0]), es[1..]);
    }
  }

  /** Starting again after a stop resumes every frozen sheep in place and spawns one more. */
  lemma RestartResumes(s: Snapshot, audioOk: bool)
    ensures StartStep(StopStep(s), audioOk).sheep == Overwrite(s.sheep, Running) + [Unset]
    ensures StartStep(StopStep(s), audioOk).audioPresent == audioOk
    ensures StartStep(StopStep(s), audioOk).count == s.count
  {
  }

  /** The scenario of three sheep: a start and two ticks put three sheep with no inline play
      state on the field; their three completions bring the count to 3 and the label to
      "Sheep Count: 3". */
  lemma ThreeSheepScenario()
    ensures var spawned := TickStep(TickStep(StartStep(Initial(), true)));
      spawned.sheep == [Unset, Unset, Unset] && spawned.count == 0 && spawned.audioPresent &&
      CompleteStep(CompleteStep(CompleteStep(spawned, 0), 0), 0).count == 3 &&
      CompleteStep(CompleteStep(CompleteStep(spawned, 0), 0), 0).sheep == [] &&
      Display.CounterText(CompleteStep(CompleteStep(CompleteStep(spawned, 0), 0), 0).count) == "Sheep Count: 3"
  {
    assert Display.Decimal(3) == "3";
  }
}
