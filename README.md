# Sheep counter: session lifecycle

A model of the session controller of a small browser page in which sheep cross a field while a
soft two-tone lullaby plays. The page keeps three module-level variables — the count of sheep
that finished crossing (`sheepCount`), the handle of the 2000 ms spawn interval (`intervalId`)
and the audio controller (`audioController`) — and two facts about the document: whether the
field carries the `paused` class and the list of live sheep elements, each with an inline
animation play state.

- `display.dfy` (module `Display`): the counter label `Sheep Count: <n>` written by
  `updateCounter`, with the decimal rendering of the count and its round trip.
- `lifecycle.dfy` (module `Lifecycle`): the whole state as a value (`Snapshot`), one function
  per event (start, stop, a spawn tick, one sheep's `animationend`), the invariant every
  reachable state keeps (`Consistent`), runs of events, and the lifecycle's properties as lemmas.
- `session.dfy` (module `Session`): class `Controller` with the fields `intervalArmed`,
  `paused`, `audioPresent`, `count` and `sheep`; its methods are the page's functions, mutate
  those fields in place (the play states by a loop over the sheep, as the `forEach` does) and
  are proved to follow the functions of `Lifecycle`.

The audio constructor may throw; whether it would succeed is the parameter `audioOk` of
`Start`. `Start` reports whether construction is attempted and `Stop` whether the held audio
controller is told to stop, so that "a second stop stops no audio" can be stated.

Three points of the code's behaviour the model keeps:

- Stopping a session that was never started is not free of effects: `stopCounting` always adds
  the `paused` class, so `StopStep` sets `paused` even from the initial state (with no sheep
  alive this freezes nothing). A second stop in a row is a true no-op (`StopIdempotent`).
- The run state is the two flags `intervalArmed` and `paused`; `Consistent` proves that armed implies not paused, so the combinations used are
  exactly idle, running and paused.
- `stopCounting` drops the audio reference at once (script.js:116), before the fade-out it
  schedules has finished; an audio
  controller is held only while the interval is armed (`Consistent`).

## Model

| member | source | states |
|---|---|---|
| Display.Decimal | script.js:56 | the count is rendered with digits only, at least one, with a leading `0` exactly when the count is zero, and one digit exactly for counts below ten |
| Display.ParseDecimalInverse | script.js:56 | reading the rendered digits back gives the count that was rendered |
| Display.DecimalInjective | script.js:56 | different counts are rendered differently |
| Display.CounterText | script.js:55-57 | the label is `Sheep Count: ` followed by canonical decimal digits that denote the count |
| Lifecycle.Initial | script.js:6-8 | at load time no interval is armed, the field is not paused, no audio is held, the count is 0 and no sheep is alive |
| Lifecycle.Overwrite | script.js:120-130 | overwriting play states keeps the number of sheep and gives every sheep the new state |
| Lifecycle.StartStep | script.js:83-103 | a start while armed changes nothing; otherwise it leaves the interval armed and the field unpaused, sets every live sheep running if the field was paused and leaves them untouched if not, appends exactly one sheep with no inline state, keeps the count and holds audio exactly when it already did or construction succeeds |
| Lifecycle.StopStep | script.js:105-118 | a stop leaves the interval disarmed, the field paused, every live sheep paused and no audio held, and keeps the count and the number of sheep |
| Lifecycle.TickStep | script.js:59-81 | a spawn tick appends exactly one sheep with no inline state after the existing ones and changes nothing else |
| Lifecycle.CompleteStep | script.js:74-78 | a completion removes exactly the completing sheep, keeps the others in order with their states, raises the count by exactly one and changes no flag |
| Lifecycle.StepConsistent | script.js:83-130 | every event keeps the invariant: armed implies not paused, audio held implies armed, a sheep is paused exactly when the field is |
| Lifecycle.RunConsistent | script.js:83-130 | the invariant holds after any run of events |
| Lifecycle.RunCount | script.js:74-78 | over any run the count grows by exactly the number of completions in it, so it never decreases |
| Lifecycle.StartWhenArmedIsNoop | script.js:84-86 | a start while the interval is armed leaves the whole state unchanged |
| Lifecycle.AudioFailureStillSpawns | script.js:93-102 | a start whose audio construction fails differs from a successful one only in audio being held: the sheep is spawned and the interval armed either way |
| Lifecycle.StopIdempotent | script.js:105-118 | stopping twice gives the same state as stopping once |
| Lifecycle.FrozenUntilStart | script.js:105-124 | from a paused state, until the next start, the interval stays disarmed, no sheep is spawned (only completions remove sheep) and every live sheep stays paused |
| Lifecycle.RestartResumes | script.js:88-94 | a start after a stop sets every frozen sheep running in place, adds one new sheep, keeps the count and holds audio exactly when construction succeeds |
| Lifecycle.ThreeSheepScenario | script.js:59-103 | a start and two ticks put three sheep with no inline play state on the field; three completions empty the field, bring the count to 3 and the label to `Sheep Count: 3` |
| Session.Controller.constructor | script.js:6-8 | the controller starts in the initial state and satisfies the invariant |
| Session.Controller.SetPlayStates | script.js:120-130 | after the loop every live sheep has the given play state and no sheep was added or removed |
| Session.Controller.PauseAnimations | script.js:120-124 | every live sheep is paused |
| Session.Controller.ResumeAnimations | script.js:126-130 | every live sheep is running |
| Session.Controller.CreateSheep | script.js:59-81 | exactly one sheep with no inline state is appended |
| Session.Controller.Start | script.js:83-103 | the new state is `StartStep` of the old one, the invariant is kept, and construction of audio is attempted exactly when the interval was not armed and no audio was held |
| Session.Controller.Stop | script.js:105-118 | the new state is `StopStep` of the old one, the invariant is kept, and the audio controller is told to stop exactly when one was held |
| Session.Controller.Tick | script.js:94 | the new state is `TickStep` of the old one and the invariant is kept |
| Session.Controller.Complete | script.js:74-78 | the new state is `CompleteStep` of the old one, the invariant is kept, and the text shown is the label of the new count |
| Session.StopTwice | script.js:105-118 | two stops in a row end in the state of one stop, and the second tells no audio to stop |
| Session.ThreeSheepSession | script.js:55-118 | start, two ticks and three completions show `Sheep Count: 3`; two more ticks, a stop and a start leave those two sheep running before one new sheep, with the count still 3 |

## Left out

- The `Lullaby` class (script.js:10-53): the Web Audio graph, the oscillators at 220 Hz and 329.63 Hz, the gain ramps and the 2000 ms teardown timer are foreign calls on floating-point parameters; the model keeps only whether an audio controller is held, construction success is the parameter `audioOk` and its `stop()` is an opaque call whose only effect here is that the reference is dropped. A teardown still in flight from an earlier stop is therefore not modelled.
- Real timers: `setInterval`/`clearInterval` are the flag `intervalArmed` and the method `Tick`; the 2000 ms period and wall-clock time are not modelled.
- When the browser fires `animationend` (for instance never while a sheep is paused) is decided by the browser's animation engine and is not asserted; `Complete` may be called for any live sheep.
- The DOM mechanics: the sheep markup (script.js:62-72), `querySelector`, `classList` and the CSS animation itself; a sheep is only its inline play state, and the document's initial counter text is not modelled.
- The click handlers, the `context.resume()` autoplay handling, the keyboard forwarding (script.js:132-148) and the `console.warn` logging (script.js:100).
- Display.Decimal: the count is an unbounded natural; JavaScript's number formatting for counts beyond 2^53 or in exponent notation from 10^21 on is not modelled.
- Lifecycle.CompleteStep: the count is an unbounded natural; in JavaScript `sheepCount += 1` (script.js:76) stops changing at 2^53, so "raises the count by exactly one" holds only below that.
- Lifecycle.RunCount: for the same reason, "the count grows by exactly the number of completions" holds only while the count stays below 2^53.
- Lifecycle.Initial: the page is assumed to load with no `paused` class on the field and no sheep elements; the page's HTML is not part of this model.
- Session.Controller.Complete: the model assumes one `animationend` per sheep. The handler (script.js:74-78) neither checks the event's target nor is registered to fire once, so an `animationend` bubbling up from a child element of the sheep would also remove and count it; the stylesheet that decides whether children animate is not part of this model.
