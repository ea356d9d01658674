/**
 * Whole event sequences of the recording state machine, from the state
 * `viewDidLoad` leaves: the normal recording cycle, the permission paths,
 * and the states the source reaches in which a session exists without a
 * recording, or a recording flag without a session.
 */
module CaptureScenarios {
  import opened Wrappers
  import opened CameraPermission
  import opened RecordingPath
  import opened CaptureState
  import opened CaptureProperties

  /** Running two sequences one after the other is running their concatenation. */
  lemma {:induction false} RunAppend(c: Controller, a: seq<Event>, b: seq<Event>)
    ensures Run(c, a + b) == match Run(c, a) case Some(m) => Run(m, b) case None => None
    decreases |a|
  {
    if a == [] {
      assert a + b == b;
    } else {
      assert (a + b)[0] == a[0] && (a + b)[1..] == a[1..] + b;
      if Enabled(c, a[0]) {
        RunAppend(Step(c, a[0]), a[1..], b);
      }
    }
  }

  /** A run of two events, each enabled when it comes, is the two steps in turn. */
  lemma RunPair(c: Controller, e1: Event, e2: Event)
    requires Enabled(c, e1) && Enabled(Step(c, e1), e2)
    ensures Run(c, [e1, e2]) == Some(Step(Step(c, e1), e2))
  {
    var c2 := Step(Step(c, e1), e2);
    assert Run(c2, []) == Some(c2);
    assert [e1, e2][1..] == [e2] && [e2][1..] == [];
  }

  /** Every hardware check passes. */
  predicate Healthy(hw: Hardware)
  {
    InputReady(hw) && hw.canAddOutput
  }

  /** One gesture cycle with an authorized camera: toggle, warm-up, settle, toggle again. */
  function Cycle(hw: Hardware, documents: Path, now: DateTime, stopStatus: AuthorizationStatus, stopHw: Hardware): seq<Event>
  {
    [Toggle(Authorized, hw), WorkerRuns, SettleFires(documents, now), Toggle(stopStatus, stopHw)]
  }

  /** The calls one full cycle makes when its session and output are numbered `s` and `s + 1`. */
  function CycleEffects(s: nat, url: Path): seq<Effect>
  {
    [AuthorizationQueried, PermissionAnswered(true), SessionCreated(s), InputAdded(s), OutputCreated(s + 1),
     OutputAdded(s, s + 1), SessionStarted(s), RecordingRequested(s + 1, url),
     RecordingStopRequested(s + 1), SessionStopped(s)]
  }

  /**
   * A full cycle from an idle, quiet controller builds a session and an
   * output, records to the dated URL, finalizes, and leaves the controller
   * idle and quiet again with two identities used.
   */
  lemma {:induction false} CycleFromIdle(c: Controller, hw: Hardware, documents: Path, now: DateTime,
                                         stopStatus: AuthorizationStatus, stopHw: Hardware)
    requires Healthy(hw) && !c.isRecording
    requires c.pendingPrompts == 0 && c.pendingWorkers == 0 && c.pendingSettles == 0
    ensures Run(c, Cycle(hw, documents, now, stopStatus, stopHw))
         == Some(Controller(None, None, false, c.nextId + 2, 0, 0, 0,
                            c.effects + CycleEffects(c.nextId, RecordingURL(documents, now))))
  {
    var events := Cycle(hw, documents, now, stopStatus, stopHw);
    var s, url := c.nextId, RecordingURL(documents, now);
    var started := c.effects + CycleEffects(s, url)[..6];
    var c1 := c.(session := Some(Session(s, true, Some(s + 1), false)), output := Some(MovieOutput(s + 1, None)),
                 nextId := s + 2, pendingWorkers := 1, effects := started);
    CycleStarts(c, hw, url);
    var c2 := c1.(session := Some(Session(s, true, Some(s + 1), true)), pendingWorkers := 0, pendingSettles := 1,
                  effects := c.effects + CycleEffects(s, url)[..7]);
    CycleWarmsUp(c, c1, url);
    var c3 := c2.(output := Some(MovieOutput(s + 1, Some(url))), isRecording := true, pendingSettles := 0,
                  effects := c.effects + CycleEffects(s, url)[..8]);
    CycleSettles(c, c2, documents, now);
    var c4 := Controller(None, None, false, s + 2, 0, 0, 0, c.effects + CycleEffects(s, url));
    CycleStops(c, c3, url, stopStatus, stopHw);
    assert Run(c4, events[4..]) == Some(c4);
    assert Run(c3, events[3..]) == Some(c4);
    assert Run(c2, events[2..]) == Some(c4);
    assert Run(c1, events[1..]) == Some(c4);
  }

  lemma CycleStarts(c: Controller, hw: Hardware, url: Path)
    requires Healthy(hw) && !c.isRecording && c.pendingWorkers == 0
    ensures Step(c, Toggle(Authorized, hw))
         == c.(session := Some(Session(c.nextId, true, Some(c.nextId + 1), false)),
               output := Some(MovieOutput(c.nextId + 1, None)), nextId := c.nextId + 2, pendingWorkers := 1,
               effects := c.effects + CycleEffects(c.nextId, url)[..6])
  {
    var s := c.nextId;
    assert CycleEffects(s, url)[..6]
        == [AuthorizationQueried, PermissionAnswered(true)] + [SessionCreated(s)] + [InputAdded(s), OutputCreated(s + 1)] + [OutputAdded(s, s + 1)];
  }

  lemma CycleWarmsUp(c: Controller, c1: Controller, url: Path)
    requires c1.session == Some(Session(c.nextId, true, Some(c.nextId + 1), false))
    requires c1.pendingWorkers == 1 && c1.pendingSettles == 0
    requires c1.effects == c.effects + CycleEffects(c.nextId, url)[..6]
    ensures Step(c1, WorkerRuns)
         == c1.(session := Some(Session(c.nextId, true, Some(c.nextId + 1), true)), pendingWorkers := 0, pendingSettles := 1,
                effects := c.effects + CycleEffects(c.nextId, url)[..7])
  {
    assert CycleEffects(c.nextId, url)[..7] == CycleEffects(c.nextId, url)[..6] + [SessionStarted(c.nextId)];
  }

  lemma CycleSettles(c: Controller, c2: Controller, documents: Path, now: DateTime)
    requires c2.output == Some(MovieOutput(c.nextId + 1, None)) && c2.pendingSettles == 1
    requires c2.effects == c.effects + CycleEffects(c.nextId, RecordingURL(documents, now))[..7]
    ensures Step(c2, SettleFires(documents, now))
         == c2.(output := Some(MovieOutput(c.nextId + 1, Some(RecordingURL(documents, now)))), isRecording := true,
                pendingSettles := 0, effects := c.effects + CycleEffects(c.nextId, RecordingURL(documents, now))[..8])
  {
    var url := RecordingURL(documents, now);
    assert CycleEffects(c.nextId, url)[..8] == CycleEffects(c.nextId, url)[..7] + [RecordingRequested(c.nextId + 1, url)];
  }

  lemma CycleStops(c: Controller, c3: Controller, url: Path, stopStatus: AuthorizationStatus, stopHw: Hardware)
    requires c3.isRecording && c3.session.Some? && c3.session.value.id == c.nextId
    requires c3.output.Some? && c3.output.value.id == c.nextId + 1
    requires c3.effects == c.effects + CycleEffects(c.nextId, url)[..8]
    ensures Step(c3, Toggle(stopStatus, stopHw))
         == c3.(session := None, output := None, isRecording := false, effects := c.effects + CycleEffects(c.nextId, url))
  {
    assert CycleEffects(c.nextId, url)
        == CycleEffects(c.nextId, url)[..8] + [RecordingStopRequested(c.nextId + 1)] + [SessionStopped(c.nextId)];
  }

  /** Two cycles at two different dates write two different files. */
  lemma TwoCyclesTwoFiles(c: Controller, hw: Hardware, documents: Path, t1: DateTime, t2: DateTime,
                          status: AuthorizationStatus, stopHw: Hardware)
    requires c == Initial() && Healthy(hw) && FitsPattern(t1) && FitsPattern(t2) && t1 != t2
    ensures var r := Run(c, Cycle(hw, documents, t1, status, stopHw) + Cycle(hw, documents, t2, status, stopHw));
      && r.Some? && !r.value.isRecording && r.value.session.None? && r.value.output.None?
      && r.value.effects == CycleEffects(0, RecordingURL(documents, t1)) + CycleEffects(2, RecordingURL(documents, t2))
      && RecordingURL(documents, t1) != RecordingURL(documents, t2)
  {
    var first := Cycle(hw, documents, t1, status, stopHw);
    var second := Cycle(hw, documents, t2, status, stopHw);
    RunAppend(c, first, second);
    CycleFromIdle(c, hw, documents, t1, status, stopHw);
    var mid := Run(c, first).value;
    assert mid.effects == CycleEffects(0, RecordingURL(documents, t1));
    CycleFromIdle(mid, hw, documents, t2, status, stopHw);
    RecordingURLInjective(documents, t1, documents, t2);
  }

  /** A prompt the user grants leads to the same recording as an authorized status. */
  lemma GrantedPromptRecords(c: Controller, hw: Hardware, documents: Path, now: DateTime)
    requires c == Initial() && Healthy(hw)
    ensures var r := Run(c, [Toggle(NotDetermined, hw), PromptAnswered(true, hw), WorkerRuns, SettleFires(documents, now)]);
      && r.Some? && r.value.isRecording && r.value.session.Some? && r.value.session.value.running
      && r.value.output == Some(MovieOutput(1, Some(RecordingURL(documents, now))))
      && r.value.pendingPrompts == 0 && r.value.pendingWorkers == 0 && r.value.pendingSettles == 0
  {
    var first := [Toggle(NotDetermined, hw), PromptAnswered(true, hw)];
    var second := [WorkerRuns, SettleFires(documents, now)];
    GrantedPromptEvents(hw, documents, now);
    RunAppend(c, first, second);
    GrantedPromptStarts(c, hw);
    WarmUpThenSettle(Run(c, first).value, documents, now);
  }

  lemma GrantedPromptEvents(hw: Hardware, documents: Path, now: DateTime)
    ensures [Toggle(NotDetermined, hw), PromptAnswered(true, hw)] + [WorkerRuns, SettleFires(documents, now)]
         == [Toggle(NotDetermined, hw), PromptAnswered(true, hw), WorkerRuns, SettleFires(documents, now)]
  {
  }

  /** A toggle with an undetermined status, while not recording, queries, asks and leaves one prompt waiting. */
  lemma PromptShown(c: Controller, hw: Hardware)
    requires !c.isRecording
    ensures Step(c, Toggle(NotDetermined, hw))
         == c.(pendingPrompts := c.pendingPrompts + 1, effects := c.effects + [AuthorizationQueried, AccessRequested])
  {
    assert c.effects + [AuthorizationQueried] + [AccessRequested] == c.effects + [AuthorizationQueried, AccessRequested];
  }

  /** A refused prompt only consumes the prompt and reports the answer. */
  lemma PromptRefused(c: Controller, hw: Hardware)
    requires c.pendingPrompts > 0
    ensures Step(c, PromptAnswered(false, hw))
         == c.(pendingPrompts := c.pendingPrompts - 1, effects := c.effects + [PermissionAnswered(false)])
  {
  }

  /** A granted prompt on healthy hardware builds and attaches a new session and output and schedules the warm-up. */
  lemma PromptGranted(c: Controller, hw: Hardware)
    requires c.pendingPrompts > 0 && Healthy(hw)
    ensures Step(c, PromptAnswered(true, hw))
         == c.(session := Some(Session(c.nextId, true, Some(c.nextId + 1), false)),
               output := Some(MovieOutput(c.nextId + 1, None)), nextId := c.nextId + 2,
               pendingPrompts := c.pendingPrompts - 1, pendingWorkers := c.pendingWorkers + 1,
               effects := c.effects + [PermissionAnswered(true), SessionCreated(c.nextId), InputAdded(c.nextId),
                                       OutputCreated(c.nextId + 1), OutputAdded(c.nextId, c.nextId + 1)])
  {
    var s := c.nextId;
    assert c.effects + [PermissionAnswered(true)] + [SessionCreated(s)] + [InputAdded(s), OutputCreated(s + 1)] + [OutputAdded(s, s + 1)]
        == c.effects + [PermissionAnswered(true), SessionCreated(s), InputAdded(s), OutputCreated(s + 1), OutputAdded(s, s + 1)];
  }

  /** The granted prompt builds session 0 with output 1 attached and schedules its warm-up. */
  lemma GrantedPromptStarts(c: Controller, hw: Hardware)
    requires c == Initial() && Healthy(hw)
    ensures var r := Run(c, [Toggle(NotDetermined, hw), PromptAnswered(true, hw)]);
      && r.Some? && r.value.session == Some(Session(0, true, Some(1), false)) && r.value.output == Some(MovieOutput(1, None))
      && !r.value.isRecording && r.value.pendingPrompts == 0 && r.value.pendingWorkers == 1 && r.value.pendingSettles == 0
  {
    PromptShown(c, hw);
    var c1 := Step(c, Toggle(NotDetermined, hw));
    PromptGranted(c1, hw);
    RunPair(c, Toggle(NotDetermined, hw), PromptAnswered(true, hw));
  }

  /** Once a start is scheduled, its warm-up and its settle closure start the session and record to the dated URL. */
  lemma WarmUpThenSettle(m: Controller, documents: Path, now: DateTime)
    requires m.session.Some? && m.output.Some? && m.pendingWorkers == 1 && m.pendingSettles == 0
    ensures Run(m, [WorkerRuns, SettleFires(documents, now)])
         == Some(m.(session := Some(m.session.value.(running := true)),
                    output := Some(m.output.value.(recordingTo := Some(RecordingURL(documents, now)))),
                    isRecording := true, pendingWorkers := 0,
                    effects := m.effects + [SessionStarted(m.session.value.id), RecordingRequested(m.output.value.id, RecordingURL(documents, now))]))
  {
    var events := [WorkerRuns, SettleFires(documents, now)];
    var c1 := Step(m, events[0]);
    var c2 := Step(c1, events[1]);
    assert c2.effects == m.effects + [SessionStarted(m.session.value.id), RecordingRequested(m.output.value.id, RecordingURL(documents, now))];
    assert Run(c2, events[2..]) == Some(c2);
    assert Run(c1, events[1..]) == Some(c2);
  }

  /** A denied or restricted status never builds a session. */
  lemma RefusedStatusNeverBuildsSession(hw: Hardware, status: AuthorizationStatus)
    requires status == Denied || status == Restricted
    ensures var r := Run(Initial(), [Toggle(status, hw)]);
      r.Some? && r.value.session.None? && r.value.output.None? && !r.value.isRecording
      && r.value.effects == [AuthorizationQueried, PermissionAnswered(false)]
  {
  }

  /** A refused prompt never builds a session. */
  lemma RefusedPromptNeverBuildsSession(c: Controller, hw: Hardware)
    requires c == Initial()
    ensures var r := Run(c, [Toggle(NotDetermined, hw), PromptAnswered(false, hw)]);
      r.Some? && r.value.session.None? && r.value.output.None? && !r.value.isRecording
      && r.value.effects == [AuthorizationQueried, AccessRequested, PermissionAnswered(false)]
  {
    RefusedPromptRun(c, hw);
    assert [] + [AuthorizationQueried, AccessRequested, PermissionAnswered(false)]
        == [AuthorizationQueried, AccessRequested, PermissionAnswered(false)];
  }

  /** A prompt the user refuses, from any state that is not recording, adds the three calls and changes nothing else. */
  lemma RefusedPromptRun(c: Controller, hw: Hardware)
    requires !c.isRecording
    ensures Run(c, [Toggle(NotDetermined, hw), PromptAnswered(false, hw)])
         == Some(c.(effects := c.effects + [AuthorizationQueried, AccessRequested, PermissionAnswered(false)]))
  {
    PromptShown(c, hw);
    var c1 := Step(c, Toggle(NotDetermined, hw));
    PromptRefused(c1, hw);
    RunPair(c, Toggle(NotDetermined, hw), PromptAnswered(false, hw));
    assert c.effects + [AuthorizationQueried, AccessRequested] + [PermissionAnswered(false)]
        == c.effects + [AuthorizationQueried, AccessRequested, PermissionAnswered(false)];
  }

  /**
   * "There is a session exactly when `isRecording`" does not hold: during
   * the settle window a session exists while `isRecording` is false.
   */
  lemma SessionBeforeRecording(hw: Hardware)
    requires Healthy(hw)
    ensures var r := Run(Initial(), [Toggle(Authorized, hw), WorkerRuns]);
      r.Some? && r.value.session.Some? && r.value.session.value.running && !r.value.isRecording
  {
    var events := [Toggle(Authorized, hw), WorkerRuns];
    var c1 := Step(Initial(), events[0]);
    assert Run(c1, events[1..]) == Run(Step(c1, events[1]), []);
  }

  /**
   * A start that finds no usable camera input leaves its new session in
   * place with nothing scheduled: the session outlives the attempt.
   */
  lemma FailedStartKeepsSession(hw: Hardware)
    requires !InputReady(hw)
    ensures var r := Run(Initial(), [Toggle(Authorized, hw)]);
      && r.Some? && r.value.session == Some(Session(0, false, None, false)) && r.value.output.None?
      && !r.value.isRecording && r.value.pendingWorkers == 0 && r.value.pendingSettles == 0
  {
  }

  /**
   * Losing focus during the settle window, after the session has started
   * and before the 0.5 s closure fires, stops nothing, since `isRecording`
   * is still false; the closure then fires and recording begins.
   */
  lemma ResignDuringSettleWindow(c: Controller, hw: Hardware, documents: Path, now: DateTime)
    requires c == Initial() && Healthy(hw)
    ensures var r := Run(c, [Toggle(Authorized, hw), WorkerRuns, ResignActive, SettleFires(documents, now)]);
      && r.Some? && r.value.isRecording
      && RecordingRequested(1, RecordingURL(documents, now)) in r.value.effects
  {
    var events := [Toggle(Authorized, hw), WorkerRuns, ResignActive, SettleFires(documents, now)];
    var c1 := Step(c, events[0]);
    var c2 := Step(c1, events[1]);
    var c3 := Step(c2, events[2]);
    var c4 := Step(c3, events[3]);
    assert Run(c4, events[4..]) == Some(c4);
    assert Run(c3, events[3..]) == Some(c4);
    assert Run(c2, events[2..]) == Some(c4);
    assert Run(c1, events[1..]) == Some(c4);
    assert c4.effects[|c4.effects| - 1] == RecordingRequested(1, RecordingURL(documents, now));
  }
}
