/**
 * What the recording state machine of RecordViewController.swift keeps and
 * what it does not: the invariants every event preserves, the stop and
 * toggle guarantees, the permission paths, and the start sequence.
 */
module CaptureProperties {
  import opened Wrappers
  import opened CameraPermission
  import opened RecordingPath
  import opened CaptureState

  // ---------------------------------------------------------------------
  // The invariant every event preserves

  /** Authorization queries not yet answered by a completion call. */
  function OutstandingChecks(es: seq<Effect>): int
  {
    if es == [] then 0
    else
      OutstandingChecks(es[..|es| - 1])
      + match es[|es| - 1]
        case AuthorizationQueried => 1
        case PermissionAnswered(_) => -1
        case _ => 0
  }

  /** A session or output an effect creates was numbered below `n`. */
  predicate CreatedBelow(e: Effect, n: nat)
  {
    (e.SessionCreated? ==> e.session < n) && (e.OutputCreated? ==> e.output < n)
  }

  /**
   * The controller's invariant: an output only exists beside a session; the
   * output a session holds is the current output; every session and output
   * ever created is numbered below the next identity, so identities are
   * never reused; and every authorization query is answered exactly once,
   * or its prompt is still outstanding.
   */
  predicate Valid(c: Controller)
  {
    && (c.output.Some? ==> c.session.Some? && c.output.value.id < c.nextId)
    && (c.session.Some? ==> c.session.value.id < c.nextId)
    && (c.session.Some? && c.session.value.attachedOutput.Some? ==>
          c.output.Some? && c.output.value.id == c.session.value.attachedOutput.value)
    && (forall i :: 0 <= i < |c.effects| ==> CreatedBelow(c.effects[i], c.nextId))
    && OutstandingChecks(c.effects) == c.pendingPrompts
  }

  lemma {:induction false} OutstandingChecksAppend(a: seq<Effect>, b: seq<Effect>)
    ensures OutstandingChecks(a + b) == OutstandingChecks(a) + OutstandingChecks(b)
  {
    if b == [] {
      assert a + b == a;
    } else {
      assert (a + b)[..|a + b| - 1] == a + b[..|b| - 1];
      assert (a + b)[|a + b| - 1] == b[|b| - 1];
      OutstandingChecksAppend(a, b[..|b| - 1]);
    }
  }

  /** Effects that neither query nor answer the authorization leave the count alone. */
  lemma {:induction false} OutstandingChecksNeutral(es: seq<Effect>)
    requires forall i :: 0 <= i < |es| ==> !es[i].AuthorizationQueried? && !es[i].PermissionAnswered?
    ensures OutstandingChecks(es) == 0
  {
    if es != [] {
      OutstandingChecksNeutral(es[..|es| - 1]);
    }
  }

  lemma InitialValid()
    ensures Valid(Initial())
  {
  }

  /**
   * Appending effects that create only identities below the new counter and
   * neither query nor answer the authorization keeps both effect conjuncts.
   */
  lemma QuietAppend(c: Controller, r: Controller, added: seq<Effect>)
    requires r.effects == c.effects + added && c.nextId <= r.nextId
    requires forall i :: 0 <= i < |c.effects| ==> CreatedBelow(c.effects[i], c.nextId)
    requires forall i :: 0 <= i < |added| ==>
               CreatedBelow(added[i], r.nextId) && !added[i].AuthorizationQueried? && !added[i].PermissionAnswered?
    ensures forall i :: 0 <= i < |r.effects| ==> CreatedBelow(r.effects[i], r.nextId)
    ensures OutstandingChecks(r.effects) == OutstandingChecks(c.effects)
  {
    forall i | 0 <= i < |r.effects| ensures CreatedBelow(r.effects[i], r.nextId) {
      if i < |c.effects| {
        assert r.effects[i] == c.effects[i];
      } else {
        assert r.effects[i] == added[i - |c.effects|];
      }
    }
    OutstandingChecksNeutral(added);
    OutstandingChecksAppend(c.effects, added);
  }

  lemma StopRecordingValid(c: Controller)
    requires Valid(c)
    ensures Valid(StopRecording(c))
  {
    FinalizeValid(c);
    CleanupValid(c.(isRecording := false, effects := Finalized(c)));
  }

  /** The first half of a stop, finishing the file and clearing `isRecording`, keeps the invariant. */
  lemma FinalizeValid(c: Controller)
    requires Valid(c)
    ensures Valid(c.(isRecording := false, effects := Finalized(c)))
  {
    var r := c.(isRecording := false, effects := Finalized(c));
    QuietAppend(c, r, r.effects[|c.effects|..]);
  }

  lemma CleanupValid(c: Controller)
    requires Valid(c)
    ensures Valid(CleanupCamera(c))
  {
    var r := CleanupCamera(c);
    QuietAppend(c, r, r.effects[|c.effects|..]);
  }

  lemma StartValid(c: Controller, hw: Hardware)
    requires Valid(c)
    ensures Valid(StartCameraAndRecording(c, hw))
  {
    var r := StartCameraAndRecording(c, hw);
    var sid := c.nextId;
    var added := if !InputReady(hw) then [SessionCreated(sid)]
                 else [SessionCreated(sid), InputAdded(sid), OutputCreated(sid + 1)]
                      + (if hw.canAddOutput then [OutputAdded(sid, sid + 1)] else []);
    assert r.effects == c.effects + added;
    QuietAppend(c, r, added);
  }

  lemma ToggleValid(c: Controller, status: AuthorizationStatus, hw: Hardware)
    requires Valid(c)
    ensures Valid(ToggleRecording(c, status, hw))
  {
    if c.isRecording {
      StopRecordingValid(c);
    } else {
      match CheckCameraPermission(status)
      case Answered(granted) =>
        QueryAnsweredValid(c, granted);
        if granted {
          StartValid(c.(effects := c.effects + [AuthorizationQueried] + [PermissionAnswered(granted)]), hw);
        }
      case Prompting =>
        QueryPromptsValid(c);
    }
  }

  /** A query answered on the spot leaves the outstanding count unchanged. */
  lemma QueryAnsweredValid(c: Controller, granted: bool)
    requires Valid(c)
    ensures Valid(c.(effects := c.effects + [AuthorizationQueried] + [PermissionAnswered(granted)]))
  {
    OutstandingChecksAppend(c.effects, [AuthorizationQueried]);
    OutstandingChecksAppend(c.effects + [AuthorizationQueried], [PermissionAnswered(granted)]);
  }

  /** A query that opens the prompt is outstanding until the prompt is answered. */
  lemma QueryPromptsValid(c: Controller)
    requires Valid(c)
    ensures Valid(c.(pendingPrompts := c.pendingPrompts + 1, effects := c.effects + [AuthorizationQueried] + [AccessRequested]))
  {
    OutstandingChecksAppend(c.effects, [AuthorizationQueried]);
    OutstandingChecksAppend(c.effects + [AuthorizationQueried], [AccessRequested]);
  }

  /**
   * Exactly one authorization query is waiting for its completion call: the
   * state is valid once that query is counted as a prompt still outstanding.
   */
  predicate AwaitingAnswer(c: Controller)
  {
    Valid(c.(pendingPrompts := c.pendingPrompts + 1))
  }

  /** A fresh query from a valid state awaits its answer. */
  lemma QueryAwaits(c: Controller)
    requires Valid(c)
    ensures AwaitingAnswer(c.(effects := c.effects + [AuthorizationQueried]))
  {
    OutstandingChecksAppend(c.effects, [AuthorizationQueried]);
  }

  /** The completion call answers the waiting query, and what it goes on to do keeps the invariant. */
  lemma CompletionValid(c: Controller, granted: bool, hw: Hardware)
    requires AwaitingAnswer(c)
    ensures Valid(c.(effects := c.effects + [PermissionAnswered(granted)]))
    ensures Valid(PermissionCompletion(c, granted, hw))
  {
    var answered := c.(effects := c.effects + [PermissionAnswered(granted)]);
    OutstandingChecksAppend(c.effects, [PermissionAnswered(granted)]);
    assert Valid(answered);
    if granted { StartValid(answered, hw); }
  }

  lemma AnswerPromptValid(c: Controller, granted: bool, hw: Hardware)
    requires Valid(c) && c.pendingPrompts > 0
    ensures Valid(AnswerPrompt(c, granted, hw))
  {
    var answered := c.(pendingPrompts := c.pendingPrompts - 1, effects := c.effects + [PermissionAnswered(granted)]);
    OutstandingChecksAppend(c.effects, [PermissionAnswered(granted)]);
    assert Valid(answered);
    if granted { StartValid(answered, hw); }
  }

  lemma RunWorkerValid(c: Controller)
    requires Valid(c) && c.pendingWorkers > 0
    ensures Valid(RunWorker(c))
  {
    if c.session.Some? {
      OutstandingChecksAppend(c.effects, [SessionStarted(c.session.value.id)]);
    }
  }

  lemma SettleValid(c: Controller, documents: Path, now: DateTime)
    requires Valid(c) && c.pendingSettles > 0
    ensures Valid(Settle(c, documents, now))
  {
    if c.output.Some? {
      OutstandingChecksAppend(c.effects, [RecordingRequested(c.output.value.id, RecordingURL(documents, now))]);
    }
  }

  /** Every event keeps the invariant. */
  lemma StepValid(c: Controller, e: Event)
    requires Valid(c) && Enabled(c, e)
    ensures Valid(Step(c, e))
  {
    match e
    case Toggle(status, hw) => ToggleValid(c, status, hw);
    case PromptAnswered(granted, hw) => AnswerPromptValid(c, granted, hw);
    case WorkerRuns => RunWorkerValid(c);
    case SettleFires(documents, now) => SettleValid(c, documents, now);
    case ResignActive =>
      if c.isRecording { StopRecordingValid(c); }
  }

  /** Every state reachable from a valid one is valid. */
  lemma {:induction false} RunValid(c: Controller, events: seq<Event>)
    requires Valid(c) && Run(c, events).Some?
    ensures Valid(Run(c, events).value)
    decreases |events|
  {
    if events != [] {
      StepValid(c, events[0]);
      RunValid(Step(c, events[0]), events[1..]);
    }
  }

  // ---------------------------------------------------------------------
  // Stopping

  /** After `stopRecording` nothing records and nothing is held, whatever came before; stopping again changes nothing. */
  lemma StopRecordingClears(c: Controller)
    ensures var r := StopRecording(c);
      && !r.isRecording && r.session.None? && r.output.None?
      && r.nextId == c.nextId && r.pendingPrompts == c.pendingPrompts
      && r.pendingWorkers == c.pendingWorkers && r.pendingSettles == c.pendingSettles
      && StopRecording(r) == r
  {
  }

  /**
   * The output is told to finish its file first, the session is stopped
   * second, and nothing else is called; an absent output or session is skipped.
   */
  lemma StopFinalizesBeforeRelease(c: Controller)
    ensures var r := StopRecording(c);
      r.effects == c.effects
        + (if c.output.Some? then [RecordingStopRequested(c.output.value.id)] else [])
        + (if c.session.Some? then [SessionStopped(c.session.value.id)] else [])
  {
  }

  /** Losing focus stops a recording controller, exactly as `stopRecording` does, and leaves any other untouched. */
  lemma ResignActiveStopsOnlyRecording(c: Controller)
    ensures !c.isRecording ==> Step(c, ResignActive) == c
    ensures c.isRecording ==> Step(c, ResignActive) == StopRecording(c)
    ensures !Step(c, ResignActive).isRecording
  {
  }

  // ---------------------------------------------------------------------
  // Toggling and the permission paths

  /** While recording, a toggle is `stopRecording`, whatever the authorization status or hardware: nothing is queried or built. */
  lemma ToggleWhileRecordingStops(c: Controller, status: AuthorizationStatus, hw: Hardware)
    requires c.isRecording
    ensures ToggleRecording(c, status, hw) == StopRecording(c)
    ensures ToggleRecording(c, status, hw).nextId == c.nextId
    ensures ToggleRecording(c, status, hw).pendingPrompts == c.pendingPrompts
  {
  }

  /** A refused status answers `false` at once: session, output, `isRecording` and the schedule stay as they were. */
  lemma RefusedToggleChangesNothing(c: Controller, status: AuthorizationStatus, hw: Hardware)
    requires !c.isRecording && (status == Denied || status == Restricted)
    ensures ToggleRecording(c, status, hw) == c.(effects := c.effects + [AuthorizationQueried, PermissionAnswered(false)])
  {
  }

  /** A refused prompt consumes the prompt and changes nothing else. */
  lemma RefusedPromptChangesNothing(c: Controller, hw: Hardware)
    requires c.pendingPrompts > 0
    ensures AnswerPrompt(c, false, hw)
         == c.(pendingPrompts := c.pendingPrompts - 1, effects := c.effects + [PermissionAnswered(false)])
  {
  }

  /** An authorized status answers `true` at once and the start runs within the same toggle. */
  lemma AuthorizedToggleStarts(c: Controller, hw: Hardware)
    requires !c.isRecording
    ensures ToggleRecording(c, Authorized, hw)
         == StartCameraAndRecording(c.(effects := c.effects + [AuthorizationQueried, PermissionAnswered(true)]), hw)
  {
  }

  /** An undetermined status leaves one more prompt outstanding and touches nothing else. */
  lemma UndeterminedTogglePrompts(c: Controller, hw: Hardware)
    requires !c.isRecording
    ensures ToggleRecording(c, NotDetermined, hw)
         == c.(pendingPrompts := c.pendingPrompts + 1, effects := c.effects + [AuthorizationQueried, AccessRequested])
  {
  }

  // ---------------------------------------------------------------------
  // Starting

  /**
   * Without a usable camera input the start returns early: a new session
   * with no input replaces the old one, no output is created, nothing is
   * scheduled and `isRecording` is untouched.
   */
  lemma StartWithoutInput(c: Controller, hw: Hardware)
    requires !InputReady(hw)
    ensures var r := StartCameraAndRecording(c, hw);
      && r.session == Some(Session(c.nextId, false, None, false))
      && r.output == c.output && r.isRecording == c.isRecording
      && r.pendingWorkers == c.pendingWorkers && r.pendingSettles == c.pendingSettles
      && r.effects == c.effects + [SessionCreated(c.nextId)]
  {
  }

  /**
   * With a usable input the start adds it, creates a new output that is
   * attached exactly when the session accepts it, and schedules one
   * background block; nothing runs or records yet.
   */
  lemma StartWithInput(c: Controller, hw: Hardware)
    requires InputReady(hw)
    ensures var r := StartCameraAndRecording(c, hw);
      && r.session.Some? && r.session.value.id == c.nextId
      && r.session.value.hasInput && !r.session.value.running
      && r.output == Some(MovieOutput(c.nextId + 1, None))
      && (r.session.value.attachedOutput.Some? <==> hw.canAddOutput)
      && r.effects[..|c.effects|] == c.effects
      && (OutputAdded(c.nextId, c.nextId + 1) in r.effects[|c.effects|..] <==> hw.canAddOutput)
      && r.pendingWorkers == c.pendingWorkers + 1 && r.pendingSettles == c.pendingSettles
      && r.isRecording == c.isRecording
  {
    var r := StartCameraAndRecording(c, hw);
    var added := [SessionCreated(c.nextId), InputAdded(c.nextId), OutputCreated(c.nextId + 1)];
    if hw.canAddOutput {
      assert r.effects[|c.effects|..] == added + [OutputAdded(c.nextId, c.nextId + 1)];
    } else {
      assert r.effects[|c.effects|..] == added;
    }
  }

  /** The session a start builds is new: no earlier call names it. */
  lemma StartBuildsNewSession(c: Controller, hw: Hardware)
    requires Valid(c)
    ensures var r := StartCameraAndRecording(c, hw);
      r.session.Some? && forall i :: 0 <= i < |c.effects| ==> c.effects[i] != SessionCreated(r.session.value.id)
  {
    var r := StartCameraAndRecording(c, hw);
    forall i | 0 <= i < |c.effects| ensures c.effects[i] != SessionCreated(r.session.value.id) {
      assert CreatedBelow(c.effects[i], c.nextId);
    }
  }

  // ---------------------------------------------------------------------
  // The settle closure

  /** `isRecording` is only ever switched on by the settle closure. */
  lemma OnlySettleStartsRecording(c: Controller, e: Event)
    requires Enabled(c, e) && !c.isRecording && Step(c, e).isRecording
    ensures e.SettleFires?
  {
  }

  /**
   * The settle closure sets `isRecording`; it asks the current output, if
   * there is one, to record to `<documents>/vipc/<timestamp>.php`, from which
   * the documents directory and the date can be read back; without an
   * output it records nothing.
   */
  lemma SettleRequestsRecording(c: Controller, documents: Path, now: DateTime)
    requires c.pendingSettles > 0 && FitsPattern(now)
    ensures var r := Settle(c, documents, now);
      && r.isRecording && r.session == c.session && r.pendingSettles == c.pendingSettles - 1
      && (c.output.Some? ==>
            r.effects == c.effects + [RecordingRequested(c.output.value.id, RecordingURL(documents, now))]
            && ParseRecordingURL(RecordingURL(documents, now)) == Some((documents, now)))
      && (c.output.None? ==> r.effects == c.effects && r.output.None?)
  {
    RecordingURLRoundTrip(documents, now);
  }
}
