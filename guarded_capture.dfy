/**
 * The controller has no "start in flight" state: `toggleRecording` only
 * looks at `isRecording`, which stays false from the gesture until the
 * settle closure fires. A second gesture inside that window starts a second
 * capture, and after the first recording is stopped the second settle
 * closure sets `isRecording` with neither a session nor an output behind it.
 *
 * `DoubleStartWitness` exhibits this on the controller as written.
 * `GuardedToggle` is the intended toggle, ignoring a gesture while a prompt,
 * a warm-up or a settle closure is outstanding; with it, every reachable
 * state that records has a session and an output (`GuardedRunCoherent`),
 * and event sequences that never toggle during such a window behave as the
 * source does (`SerialRunIsGuarded`).
 */
module GuardedCapture {
  import opened Wrappers
  import opened CameraPermission
  import opened RecordingPath
  import opened CaptureState
  import opened CaptureProperties
  import CaptureScenarios

  /** Recording implies something to record with. */
  predicate Coherent(c: Controller)
  {
    c.isRecording ==> c.session.Some? && c.output.Some?
  }

  /** No prompt, warm-up or settle closure is outstanding. */
  predicate Quiet(c: Controller)
  {
    c.pendingPrompts == 0 && c.pendingWorkers == 0 && c.pendingSettles == 0
  }

  /** A second start while the first is in flight (`StartInFlight`), then the settle, a stop and the late settle (`LateSettle`). */
  function DoubleStartEvents(hw: Hardware, documents: Path, t1: DateTime, t2: DateTime): (events: seq<Event>)
    ensures |events| == 7 && events[0] == events[2] == events[5] == Toggle(Authorized, hw)
  {
    StartInFlight(hw) + LateSettle(hw, documents, t1, t2)
  }

  function StartInFlight(hw: Hardware): seq<Event>
  {
    [Toggle(Authorized, hw), WorkerRuns, Toggle(Authorized, hw), WorkerRuns]
  }

  function LateSettle(hw: Hardware, documents: Path, t1: DateTime, t2: DateTime): seq<Event>
  {
    [SettleFires(documents, t1), Toggle(Authorized, hw), SettleFires(documents, t2)]
  }

  /**
   * As written: toggle, its warm-up, a second toggle inside the settle
   * window, its warm-up, the first settle, a toggle that stops, the second
   * settle. The first session was started and is then dropped without
   * `stopRunning`; the end state claims to record with no session and no
   * output.
   */
  lemma DoubleStartWitness(c: Controller, hw: Hardware, documents: Path, t1: DateTime, t2: DateTime)
    requires c == Initial() && InputReady(hw) && hw.canAddOutput
    ensures var r := Run(c, DoubleStartEvents(hw, documents, t1, t2));
      && r.Some? && r.value.isRecording && r.value.session.None? && r.value.output.None?
      && !Coherent(r.value) && Quiet(r.value)
      && SessionStarted(0) in r.value.effects && SessionStopped(0) !in r.value.effects
  {
    var mid := DoubleStartRun(c, hw, documents, t1, t2);
    StartInFlightLeavesFirstSession();
    var tail := [RecordingRequested(3, RecordingURL(documents, t1)), RecordingStopRequested(3), SessionStopped(2)];
    assert SessionStopped(0) !in tail;
  }

  /** The run of the witness, joined from its two halves; `mid` is the state after both warm-ups. */
  lemma DoubleStartRun(c: Controller, hw: Hardware, documents: Path, t1: DateTime, t2: DateTime) returns (mid: Controller)
    requires c == Initial() && InputReady(hw) && hw.canAddOutput
    ensures mid.effects == StartInFlightEffects()
    ensures Run(c, DoubleStartEvents(hw, documents, t1, t2))
         == Some(Controller(None, None, true, 4, 0, 0, 0,
                            mid.effects + [RecordingRequested(3, RecordingURL(documents, t1)), RecordingStopRequested(3), SessionStopped(2)]))
  {
    DoubleStartFirstHalf(c, hw);
    mid := Run(c, StartInFlight(hw)).value;
    DoubleStartSecondHalf(mid, hw, documents, t1, t2);
    CaptureScenarios.RunAppend(c, StartInFlight(hw), LateSettle(hw, documents, t1, t2));
  }

  /** The second half of the witness: the first settle, a stopping toggle, the second settle. */
  lemma DoubleStartSecondHalf(mid: Controller, hw: Hardware, documents: Path, t1: DateTime, t2: DateTime)
    requires mid == Controller(Some(Session(2, true, Some(3), true)), Some(MovieOutput(3, None)), false, 4, 0, 0, 2, mid.effects)
    ensures Run(mid, LateSettle(hw, documents, t1, t2))
         == Some(Controller(None, None, true, 4, 0, 0, 0,
                            mid.effects + [RecordingRequested(3, RecordingURL(documents, t1)), RecordingStopRequested(3), SessionStopped(2)]))
  {
    var events := LateSettle(hw, documents, t1, t2);
    var url := RecordingURL(documents, t1);
    SettleThenStop(mid, hw, documents, t1);
    var c1 := Step(mid, events[0]);
    var c2 := Step(c1, events[1]);
    var c3 := Step(c2, events[2]);
    assert c3 == Controller(None, None, true, 4, 0, 0, 0, mid.effects + [RecordingRequested(3, url)] + [RecordingStopRequested(3)] + [SessionStopped(2)]);
    assert mid.effects + [RecordingRequested(3, url)] + [RecordingStopRequested(3)] + [SessionStopped(2)]
        == mid.effects + [RecordingRequested(3, url), RecordingStopRequested(3), SessionStopped(2)];
    assert Run(c3, events[3..]) == Some(c3);
    assert Run(c2, events[2..]) == Some(c3);
    assert Run(c1, events[1..]) == Some(c3);
  }

  /** The first settle records with output 3, and the stopping toggle finalizes it and stops session 2. */
  lemma SettleThenStop(mid: Controller, hw: Hardware, documents: Path, t1: DateTime)
    requires mid == Controller(Some(Session(2, true, Some(3), true)), Some(MovieOutput(3, None)), false, 4, 0, 0, 2, mid.effects)
    ensures Step(Step(mid, SettleFires(documents, t1)), Toggle(Authorized, hw))
         == Controller(None, None, false, 4, 0, 0, 1,
                       mid.effects + [RecordingRequested(3, RecordingURL(documents, t1))] + [RecordingStopRequested(3)] + [SessionStopped(2)])
  {
    var c1 := Step(mid, SettleFires(documents, t1));
    assert c1 == mid.(output := Some(MovieOutput(3, Some(RecordingURL(documents, t1)))), isRecording := true, pendingSettles := 1,
                      effects := mid.effects + [RecordingRequested(3, RecordingURL(documents, t1))]);
  }

  /** What the first half of the witness asks of the platform: two complete builds, each session started once. */
  function StartInFlightEffects(): seq<Effect>
  {
    [AuthorizationQueried, PermissionAnswered(true), SessionCreated(0), InputAdded(0), OutputCreated(1), OutputAdded(0, 1),
     SessionStarted(0),
     AuthorizationQueried, PermissionAnswered(true), SessionCreated(2), InputAdded(2), OutputCreated(3), OutputAdded(2, 3),
     SessionStarted(2)]
  }

  /** The first session is started during the first half and is not stopped there. */
  lemma StartInFlightLeavesFirstSession()
    ensures SessionStarted(0) in StartInFlightEffects() && SessionStopped(0) !in StartInFlightEffects()
  {
  }

  /** The first half's effects are each build followed by its start. */
  lemma StartInFlightEffectsJoin()
    ensures [AuthorizationQueried, PermissionAnswered(true), SessionCreated(0), InputAdded(0), OutputCreated(1), OutputAdded(0, 1)]
          + [SessionStarted(0)]
          + [AuthorizationQueried, PermissionAnswered(true), SessionCreated(2), InputAdded(2), OutputCreated(3), OutputAdded(2, 3)]
          + [SessionStarted(2)]
         == StartInFlightEffects()
  {
  }

  /** The first half of the witness: a start and its warm-up, then a second start and its warm-up. */
  lemma DoubleStartFirstHalf(c: Controller, hw: Hardware)
    requires c == Initial() && InputReady(hw) && hw.canAddOutput
    ensures Run(c, StartInFlight(hw))
         == Some(Controller(Some(Session(2, true, Some(3), true)), Some(MovieOutput(3, None)), false, 4, 0, 0, 2,
                            StartInFlightEffects()))
  {
    var events := StartInFlight(hw);
    var start0 := [AuthorizationQueried, PermissionAnswered(true), SessionCreated(0), InputAdded(0), OutputCreated(1), OutputAdded(0, 1)];
    var start2 := [AuthorizationQueried, PermissionAnswered(true), SessionCreated(2), InputAdded(2), OutputCreated(3), OutputAdded(2, 3)];
    var c1 := Step(c, events[0]);
    assert c1 == Controller(Some(Session(0, true, Some(1), false)), Some(MovieOutput(1, None)), false, 2, 0, 1, 0, start0);
    var c2 := Step(c1, events[1]);
    assert c2 == Controller(Some(Session(0, true, Some(1), true)), Some(MovieOutput(1, None)), false, 2, 0, 0, 1,
                            start0 + [SessionStarted(0)]);
    var c3 := Step(c2, events[2]);
    assert c3 == Controller(Some(Session(2, true, Some(3), false)), Some(MovieOutput(3, None)), false, 4, 0, 1, 1,
                            start0 + [SessionStarted(0)] + start2);
    var c4 := Step(c3, events[3]);
    assert c4.effects == start0 + [SessionStarted(0)] + start2 + [SessionStarted(2)];
    StartInFlightEffectsJoin();
    assert Run(c4, events[4..]) == Some(c4);
    assert Run(c3, events[3..]) == Some(c4);
    assert Run(c2, events[2..]) == Some(c4);
    assert Run(c1, events[1..]) == Some(c4);
  }

  /** The intended toggle: a gesture while not recording and not quiet is ignored. */
  function GuardedToggle(c: Controller, status: AuthorizationStatus, hw: Hardware): (r: Controller)
    ensures !c.isRecording && !Quiet(c) ==> r == c
    ensures c.isRecording || Quiet(c) ==> r == ToggleRecording(c, status, hw)
  {
    if !c.isRecording && !Quiet(c) then c else ToggleRecording(c, status, hw)
  }

  function GuardedStep(c: Controller, e: Event): Controller
    requires Enabled(c, e)
  {
    match e
    case Toggle(status, hw) => GuardedToggle(c, status, hw)
    case _ => Step(c, e)
  }

  function GuardedRun(c: Controller, events: seq<Event>): Option<Controller>
    decreases |events|
  {
    if events == [] then Some(c)
    else if Enabled(c, events[0]) then GuardedRun(GuardedStep(c, events[0]), events[1..])
    else None
  }

  /**
   * What the guarded controller keeps: the general invariant, coherence,
   * at most one start in flight, none while recording, and a session and an
   * output behind every scheduled warm-up or settle closure.
   */
  predicate GuardedInv(c: Controller)
  {
    && Valid(c) && Coherent(c)
    && c.pendingPrompts + c.pendingWorkers + c.pendingSettles <= 1
    && (!Quiet(c) ==> !c.isRecording)
    && (c.pendingWorkers + c.pendingSettles > 0 ==> c.session.Some? && c.output.Some?)
  }

  lemma GuardedStepInv(c: Controller, e: Event)
    requires GuardedInv(c) && Enabled(c, e)
    ensures GuardedInv(GuardedStep(c, e))
  {
    StepValid(c, e);
    match e
    case Toggle(status, hw) =>
      if c.isRecording || Quiet(c) {
        ToggleValid(c, status, hw);
      }
    case PromptAnswered(granted, hw) =>
    case WorkerRuns =>
    case SettleFires(documents, now) =>
    case ResignActive =>
  }

  /** Under the guard, every state reachable from the initial one that records has a session and an output. */
  lemma {:induction false} GuardedRunCoherent(c: Controller, events: seq<Event>)
    requires GuardedInv(c) && GuardedRun(c, events).Some?
    ensures GuardedInv(GuardedRun(c, events).value) && Coherent(GuardedRun(c, events).value)
    decreases |events|
  {
    if events != [] {
      GuardedStepInv(c, events[0]);
      GuardedRunCoherent(GuardedStep(c, events[0]), events[1..]);
    }
  }

  lemma InitialGuardedInv()
    ensures GuardedInv(Initial())
  {
    InitialValid();
  }

  /** Every toggle in `events` happens while recording or while nothing is in flight. */
  predicate Serial(c: Controller, events: seq<Event>)
    decreases |events|
  {
    events == [] ||
    (Enabled(c, events[0])
     && (events[0].Toggle? ==> c.isRecording || Quiet(c))
     && Serial(Step(c, events[0]), events[1..]))
  }

  /** A user who never toggles during a start in flight sees the source behave exactly as the guarded controller. */
  lemma {:induction false} SerialRunIsGuarded(c: Controller, events: seq<Event>)
    requires Serial(c, events)
    ensures Run(c, events) == GuardedRun(c, events)
    decreases |events|
  {
    if events != [] {
      assert GuardedStep(c, events[0]) == Step(c, events[0]);
      SerialRunIsGuarded(Step(c, events[0]), events[1..]);
    }
  }
}
