/**
 * `RecordViewController` (RecordViewController.swift) as a class whose
 * methods change its fields step by step, as the source does. Each method
 * is proved to take the controller to the state the matching function of
 * `CaptureState` describes, so every property proved there holds of it.
 *
 * Besides the three fields of the source the object carries what the
 * platform holds on its behalf: the counter that names new sessions and
 * outputs, the callbacks queued for it, and the calls it has made.
 */
module RecordView {
  import opened Wrappers
  import opened CameraPermission
  import opened RecordingPath
  import opened CaptureState
  import CaptureProperties

  class RecordViewController {
    var session: Option<Session>
    var output: Option<MovieOutput>
    var isRecording: bool

    // The platform's side: identities handed out, callbacks queued, calls made.
    var nextId: nat
    var pendingPrompts: nat
    var pendingWorkers: nat
    var pendingSettles: nat
    var effects: seq<Effect>

    function State(): Controller
      reads this
    {
      Controller(session, output, isRecording, nextId, pendingPrompts, pendingWorkers, pendingSettles, effects)
    }

    ghost predicate Valid()
      reads this
    {
      CaptureProperties.Valid(State())
    }

    /** The controller as `viewDidLoad` leaves it. */
    constructor ()
      ensures State() == Initial() && Valid()
    {
      session, output, isRecording := None, None, false;
      nextId, pendingPrompts, pendingWorkers, pendingSettles := 0, 0, 0, 0;
      effects := [];
    }

    /** The double-tap handler. */
    method ToggleRecording(status: AuthorizationStatus, hw: Hardware)
      requires Valid()
      modifies this
      ensures State() == CaptureState.ToggleRecording(old(State()), status, hw) && Valid()
    {
      CaptureProperties.ToggleValid(State(), status, hw);
      if isRecording {
        StopRecording();
      } else {
        CaptureProperties.QueryAwaits(State());
        effects := effects + [AuthorizationQueried];
        match CheckCameraPermission(status)
        case Answered(granted) =>
          PermissionCompletion(granted, hw);
        case Prompting =>
          effects := effects + [AccessRequested];
          pendingPrompts := pendingPrompts + 1;
      }
    }

    /** The completion `toggleRecording` hands to `checkCameraPermission`. */
    method PermissionCompletion(granted: bool, hw: Hardware)
      requires CaptureProperties.AwaitingAnswer(State())
      modifies this
      ensures State() == CaptureState.PermissionCompletion(old(State()), granted, hw) && Valid()
    {
      CaptureProperties.CompletionValid(State(), granted, hw);
      effects := effects + [PermissionAnswered(granted)];
      if granted {
        StartCameraAndRecording(hw);
      }
    }

    /** The `requestAccess` callback, back on the main queue. */
    method PromptAnswered(granted: bool, hw: Hardware)
      requires Valid() && pendingPrompts > 0
      modifies this
      ensures State() == AnswerPrompt(old(State()), granted, hw) && Valid()
    {
      CaptureProperties.AnswerPromptValid(State(), granted, hw);
      pendingPrompts := pendingPrompts - 1;
      PermissionCompletion(granted, hw);
    }

    method StartCameraAndRecording(hw: Hardware)
      requires Valid()
      modifies this
      ensures State() == CaptureState.StartCameraAndRecording(old(State()), hw) && Valid()
    {
      CaptureProperties.StartValid(State(), hw);
      var sid := nextId;
      session := Some(Session(sid, false, None, false));
      nextId := nextId + 1;
      effects := effects + [SessionCreated(sid)];
      if !InputReady(hw) {
        return;
      }
      session := Some(session.value.(hasInput := true));
      effects := effects + [InputAdded(sid)];
      var oid := nextId;
      output := Some(MovieOutput(oid, None));
      nextId := nextId + 1;
      effects := effects + [OutputCreated(oid)];
      if hw.canAddOutput {
        session := Some(session.value.(attachedOutput := Some(oid)));
        effects := effects + [OutputAdded(sid, oid)];
      }
      pendingWorkers := pendingWorkers + 1;
    }

    /** The block on the background queue: start the current session, then schedule the settle closure. */
    method RunWorker()
      requires Valid() && pendingWorkers > 0
      modifies this
      ensures State() == CaptureState.RunWorker(old(State())) && Valid()
    {
      CaptureProperties.RunWorkerValid(State());
      if session.Some? {
        effects := effects + [SessionStarted(session.value.id)];
        session := Some(session.value.(running := true));
      }
      pendingWorkers := pendingWorkers - 1;
      pendingSettles := pendingSettles + 1;
    }

    /** The closure run 0.5 s later on the main queue. */
    method Settle(documents: Path, now: DateTime)
      requires Valid() && pendingSettles > 0
      modifies this
      ensures State() == CaptureState.Settle(old(State()), documents, now) && Valid()
    {
      CaptureProperties.SettleValid(State(), documents, now);
      var folder := VipcDirectory(documents);
      var filename := FormattedDate(now) + Extension;
      var fileURL := folder + [filename];
      assert fileURL == RecordingURL(documents, now);
      if output.Some? {
        effects := effects + [RecordingRequested(output.value.id, fileURL)];
        output := Some(output.value.(recordingTo := Some(fileURL)));
      }
      isRecording := true;
      pendingSettles := pendingSettles - 1;
    }

    method StopRecording()
      requires Valid()
      modifies this
      ensures State() == CaptureState.StopRecording(old(State())) && Valid()
    {
      CaptureProperties.FinalizeValid(State());
      if output.Some? {
        effects := effects + [RecordingStopRequested(output.value.id)];
      }
      isRecording := false;
      CleanupCamera();
    }

    method CleanupCamera()
      requires Valid()
      modifies this
      ensures State() == CaptureState.CleanupCamera(old(State())) && Valid()
    {
      CaptureProperties.CleanupValid(State());
      if session.Some? {
        effects := effects + [SessionStopped(session.value.id)];
      }
      session := None;
      output := None;
    }

    /** The handler for `willResignActiveNotification`. */
    method StopIfInBackground()
      requires Valid()
      modifies this
      ensures State() == CaptureState.StopIfInBackground(old(State())) && Valid()
    {
      CaptureProperties.StepValid(State(), ResignActive);
      if isRecording {
        StopRecording();
      }
    }
  }
}
