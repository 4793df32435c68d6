/** The session controller of the sheep counter: the module-level state of the page
    (`sheepCount`, `intervalId`, `audioController`) together with the `paused` class of the
    field and the live sheep elements, held as the fields of one object whose methods are the
    page's functions. Each method is proved to follow its function in module Lifecycle. */
module Session {
  import opened Lifecycle
  import Display

  class Controller {
    /** `intervalId` is not null */
    var intervalArmed: bool
    /** the field carries the `paused` class */
    var paused: bool
    /** `audioController` is not null */
    var audioPresent: bool
    /** `sheepCount` */
    var count: nat
    /** the live sheep elements in document order, by inline play state */
    var sheep: seq<PlayState>

    function Snap(): Snapshot
      reads this
    {
      Snapshot(intervalArmed, paused, audioPresent, count, sheep)
    }

    ghost predicate Valid()
      reads this
    {
      Consistent(Snap())
    }

    /** The state when the script is loaded. */
    constructor ()
      ensures Valid() && Snap() == Initial()
    {
      intervalArmed, paused, audioPresent, count, sheep := false, false, false, 0, [];
    }

    /** Overwrites the play state of every live sheep, one by one. */
    method SetPlayStates(st: PlayState)
      modifies this`sheep
      ensures sheep == Overwrite(old(sheep), st)
    {
      var i := 0;
      while i < |sheep|
        invariant 0 <= i <= |sheep| == |old(sheep)|
        invariant forall k :: 0 <= k < i ==> sheep[k] == st
      {
        sheep := sheep[i := st];
        i := i + 1;
      }
      assert |sheep| == |Overwrite(old(sheep), st)|;
    }

    /** `pauseAnimations`: every live sheep frozen. */
    method PauseAnimations()
      modifies this`sheep
      ensures sheep == Overwrite(old(sheep), Paused)
    {
      SetPlayStates(Paused);
    }

    /** `resumeAnimations`: every live sheep running. */
    method ResumeAnimations()
      modifies this`sheep
      ensures sheep == Overwrite(old(sheep), Running)
    {
      SetPlayStates(Running);
    }

    /** `createSheep`: one new sheep, with no inline play state, appended to the field. */
    method CreateSheep()
      modifies this`sheep
      ensures sheep == old(sheep) + [Unset]
    {
      sheep := sheep + [Unset];
    }

    /** `startCounting`. `audioOk` says whether constructing the audio controller would
        succeed; `attempted` says whether construction is tried at all. */
    method Start(audioOk: bool) returns (attempted: bool)
      requires Valid()
      modifies this
      ensures Valid()
      ensures Snap() == StartStep(old(Snap()), audioOk)
      ensures attempted == (!old(intervalArmed) && !old(audioPresent))
    {
      if intervalArmed {
        return false;
      }
      if paused {
        paused := false;
        ResumeAnimations();
      }
      CreateSheep();
      intervalArmed := true;
      attempted := !audioPresent;
      if attempted && audioOk {
        audioPresent := true;
      }
      StepConsistent(old(Snap()), StartEv(audioOk));
    }

    /** `stopCounting`. `audioStopped` says whether the held audio controller was told to stop. */
    method Stop() returns (audioStopped: bool)
      requires Valid()
      modifies this
      ensures Valid()
      ensures Snap() == StopStep(old(Snap()))
      ensures audioStopped == old(audioPresent)
    {
      if intervalArmed {
        intervalArmed := false;
      }
      paused := true;
      PauseAnimations();
      audioStopped := audioPresent;
      if audioPresent {
        audioPresent := false;
      }
    }

    /** The armed interval firing `createSheep`. */
    method Tick()
      requires Valid() && intervalArmed
      modifies this
      ensures Valid()
      ensures Snap() == TickStep(old(Snap()))
    {
      CreateSheep();
      StepConsistent(old(Snap()), TickEv);
    }

    /** The `animationend` handler of live sheep `i`: the sheep is removed, the count goes up
        and `updateCounter` writes `shown` into the counter element. */
    method Complete(i: nat) returns (shown: string)
      requires Valid() && i < |sheep|
      modifies this
      ensures Valid()
      ensures Snap() == CompleteStep(old(Snap()), i)
      ensures shown == Display.CounterText(count)
    {
      sheep := sheep[..i] + sheep[i + 1..];
      count := count + 1;
      shown := Display.CounterText(count);
      StepConsistent(old(Snap()), CompleteEv(i));
    }
  }

  /** Two stops in a row: the second changes nothing and stops no audio. */
  method StopTwice(c: Controller) returns (first: bool, second: bool)
    requires c.Valid()
    modifies c
    ensures c.Snap() == StopStep(old(c.Snap()))
    ensures first == old(c.audioPresent) && !second
  {
    first := c.Stop();
    second := c.Stop();
    StopIdempotent(old(c.Snap()));
  }

  /** A session as a visitor sees it: start, two ticks and three completions show
      "Sheep Count: 3"; two more ticks, a stop and a start leave those two sheep running
      again behind one freshly spawned, with the count kept. */
  method ThreeSheepSession() returns (shown: string, field: seq<PlayState>, total: nat)
    ensures shown == "Sheep Count: 3"
    ensures field == [Running, Running, Unset] && total == 3
  {
    var c := new Controller();
    var attempted := c.Start(true);
    c.Tick();
    c.Tick();
    assert |c.sheep| == 3;
    shown := c.Complete(0);
    shown := c.Complete(0);
    shown := c.Complete(0);
    assert Display.Decimal(3) == "3";
    c.Tick();
    c.Tick();
    var stopped := c.Stop();
    attempted := c.Start(false);
    field, total := c.sheep, c.count;
  }
}
