/**
 * The recording state machine of `RecordViewController`
 * (RecordViewController.swift, lines 6-8, 66-138, 158-162), as values.
 *
 * A `Controller` holds the three fields the class keeps (`session`, `output`,
 * `isRecording`) together with what the dispatch queues hold for it: the
 * permission prompts still waiting for the user, the background blocks that
 * will call `startRunning`, and the 0.5 s settle closures not yet fired. Each
 * asynchronous hop of the source is an explicit event here. Every call the
 * controller makes into the capture framework is appended to `effects`, with
 * sessions and outputs named by the number they were created under.
 */
module CaptureState {
  import opened Wrappers
  import opened CameraPermission
  import opened RecordingPath

  /** An `AVCaptureSession`: whether its camera input was added, which output it holds, whether it runs. */
  datatype Session = Session(id: nat, hasInput: bool, attachedOutput: Option<nat>, running: bool)

  /** An `AVCaptureMovieFileOutput` and the URL it was asked to record to, if any. */
  datatype MovieOutput = MovieOutput(id: nat, recordingTo: Option<Path>)

  /**
   * What the platform decides while a capture is configured: a default video
   * device exists, an input can be made from it, the session accepts that
   * input, the session accepts the movie output.
   */
  datatype Hardware = Hardware(deviceAvailable: bool, inputCreated: bool, canAddInput: bool, canAddOutput: bool)

  /** Calls across the controller's boundary, in the order they happen. */
  datatype Effect =
    | AuthorizationQueried
    | AccessRequested
    | PermissionAnswered(granted: bool)
    | SessionCreated(session: nat)
    | InputAdded(session: nat)
    | OutputCreated(output: nat)
    | OutputAdded(session: nat, output: nat)
    | SessionStarted(session: nat)
    | RecordingRequested(output: nat, url: Path)
    | RecordingStopRequested(output: nat)
    | SessionStopped(session: nat)

  datatype Controller = Controller(
    session: Option<Session>,
    output: Option<MovieOutput>,
    isRecording: bool,
    nextId: nat,
    pendingPrompts: nat,
    pendingWorkers: nat,
    pendingSettles: nat,
    effects: seq<Effect>)

  /** The controller after `viewDidLoad`: no session, no output, not recording, nothing scheduled. */
  function Initial(): Controller
  {
    Controller(None, None, false, 0, 0, 0, 0, [])
  }

  /**
   * What every operation keeps of what went before: the calls already made
   * stay made, in order, and the counter that names sessions and outputs
   * never goes back.
   */
  predicate Extends(c: Controller, r: Controller)
  {
    c.effects <= r.effects && c.nextId <= r.nextId
  }

  // ---------------------------------------------------------------------
  // Operations

  /** `cleanupCamera`: stop the session if there is one, then drop session and output. */
  function CleanupCamera(c: Controller): (r: Controller)
    ensures r.session.None? && r.output.None? && r.isRecording == c.isRecording
    ensures c.session.Some? ==> r.effects == c.effects + [SessionStopped(c.session.value.id)]
    ensures c.session.None? ==> r.effects == c.effects
  {
    var stopped := if c.session.Some? then c.effects + [SessionStopped(c.session.value.id)] else c.effects;
    c.(session := None, output := None, effects := stopped)
  }

  /** The calls after the current output, if any, has been asked to finish its file. */
  function Finalized(c: Controller): seq<Effect>
  {
    if c.output.Some? then c.effects + [RecordingStopRequested(c.output.value.id)] else c.effects
  }

  /** `stopRecording`: ask the output to finish its file, clear `isRecording`, clean up. */
  function StopRecording(c: Controller): (r: Controller)
    ensures !r.isRecording && r.session.None? && r.output.None?
  {
    CleanupCamera(c.(isRecording := false, effects := Finalized(c)))
  }

  /** `stopIfInBackground`, run when the application resigns active. */
  function StopIfInBackground(c: Controller): (r: Controller)
    ensures !r.isRecording
    ensures !c.isRecording ==> r == c
  {
    if c.isRecording then StopRecording(c) else c
  }

  /** The configuration steps all succeed up to the input being added. */
  predicate InputReady(hw: Hardware)
  {
    hw.deviceAvailable && hw.inputCreated && hw.canAddInput
  }

  /**
   * `startCameraAndRecording`: a new session always replaces the old one;
   * without a usable input it returns early; otherwise it adds the input,
   * makes a new output, attaches it when the session accepts it, and hands
   * `startRunning` to a background queue.
   */
  function StartCameraAndRecording(c: Controller, hw: Hardware): (r: Controller)
    ensures r.session.Some? && r.session.value.id == c.nextId && c.nextId < r.nextId
    ensures r.isRecording == c.isRecording && r.pendingPrompts == c.pendingPrompts && r.pendingSettles == c.pendingSettles
  {
    var sid := c.nextId;
    var created := c.(session := Some(Session(sid, false, None, false)), nextId := sid + 1,
                      effects := c.effects + [SessionCreated(sid)]);
    if !InputReady(hw) then created
    else
      var oid := sid + 1;
      created.(
        session := Some(Session(sid, true, if hw.canAddOutput then Some(oid) else None, false)),
        output := Some(MovieOutput(oid, None)),
        nextId := oid + 1,
        pendingWorkers := c.pendingWorkers + 1,
        effects := created.effects + [InputAdded(sid), OutputCreated(oid)]
                   + (if hw.canAddOutput then [OutputAdded(sid, oid)] else []))
  }

  /** The completion closure of `toggleRecording`: start on a grant, nothing on a refusal. */
  function PermissionCompletion(c: Controller, granted: bool, hw: Hardware): (r: Controller)
    ensures r.isRecording == c.isRecording && r.pendingPrompts == c.pendingPrompts
    ensures !granted ==> r.session == c.session && r.output == c.output
  {
    var answered := c.(effects := c.effects + [PermissionAnswered(granted)]);
    if granted then StartCameraAndRecording(answered, hw) else answered
  }

  /**
   * `toggleRecording` with `checkCameraPermission` inlined: stop when
   * recording; otherwise query the authorization status and either answer
   * the completion at once or leave a prompt outstanding.
   */
  function ToggleRecording(c: Controller, status: AuthorizationStatus, hw: Hardware): (r: Controller)
    ensures !r.isRecording && r.pendingSettles == c.pendingSettles
  {
    if c.isRecording then StopRecording(c)
    else
      var queried := c.(effects := c.effects + [AuthorizationQueried]);
      match CheckCameraPermission(status)
      case Answered(granted) => PermissionCompletion(queried, granted, hw)
      case Prompting =>
        queried.(pendingPrompts := c.pendingPrompts + 1, effects := queried.effects + [AccessRequested])
  }

  /** The `requestAccess` callback, hopped back to the main queue, delivers the user's answer. */
  function AnswerPrompt(c: Controller, granted: bool, hw: Hardware): (r: Controller)
    requires c.pendingPrompts > 0
    ensures r.pendingPrompts == c.pendingPrompts - 1 && r.isRecording == c.isRecording
  {
    PermissionCompletion(c.(pendingPrompts := c.pendingPrompts - 1), granted, hw)
  }

  /** The background block: `startRunning` on whatever session is current, then schedule the settle closure. */
  function RunWorker(c: Controller): (r: Controller)
    requires c.pendingWorkers > 0
    ensures r.pendingWorkers == c.pendingWorkers - 1 && r.pendingSettles == c.pendingSettles + 1
    ensures r.isRecording == c.isRecording && r.output == c.output
  {
    var started :=
      match c.session
      case Some(s) => c.(session := Some(s.(running := true)), effects := c.effects + [SessionStarted(s.id)])
      case None => c;
    started.(pendingWorkers := c.pendingWorkers - 1, pendingSettles := c.pendingSettles + 1)
  }

  /**
   * The settle closure: ask the current output, if any, to record to
   * `<documents>/vipc/<timestamp>.php`, then set `isRecording`.
   */
  function Settle(c: Controller, documents: Path, now: DateTime): (r: Controller)
    requires c.pendingSettles > 0
    ensures r.isRecording && r.pendingSettles == c.pendingSettles - 1 && r.session == c.session
  {
    var url := RecordingURL(documents, now);
    var requested :=
      match c.output
      case Some(o) => c.(output := Some(o.(recordingTo := Some(url))), effects := c.effects + [RecordingRequested(o.id, url)])
      case None => c;
    requested.(isRecording := true, pendingSettles := c.pendingSettles - 1)
  }

  // ---------------------------------------------------------------------
  // Events

  /** Everything that can make the controller run: the gesture, the lifecycle notification and the three callbacks. */
  datatype Event =
    | Toggle(status: AuthorizationStatus, hw: Hardware)
    | PromptAnswered(granted: bool, promptHw: Hardware)
    | WorkerRuns
    | SettleFires(documents: Path, now: DateTime)
    | ResignActive

  /** A callback can only fire when one was scheduled. */
  predicate Enabled(c: Controller, e: Event)
  {
    match e
    case PromptAnswered(_, _) => c.pendingPrompts > 0
    case WorkerRuns => c.pendingWorkers > 0
    case SettleFires(_, _) => c.pendingSettles > 0
    case _ => true
  }

  function Step(c: Controller, e: Event): Controller
    requires Enabled(c, e)
  {
    match e
    case Toggle(status, hw) => ToggleRecording(c, status, hw)
    case PromptAnswered(granted, hw) => AnswerPrompt(c, granted, hw)
    case WorkerRuns => RunWorker(c)
    case SettleFires(documents, now) => Settle(c, documents, now)
    case ResignActive => StopIfInBackground(c)
  }

  /** The state after a sequence of events, or `None` if a callback fires that was never scheduled. */
  function Run(c: Controller, events: seq<Event>): Option<Controller>
    decreases |events|
  {
    if events == [] then Some(c)
    else if Enabled(c, events[0]) then Run(Step(c, events[0]), events[1..])
    else None
  }

  /** No event takes back a call or reuses an identity. */
  lemma StepExtends(c: Controller, e: Event)
    requires Enabled(c, e)
    ensures Extends(c, Step(c, e))
  {
  }

  /** Whatever a run reaches keeps every call made before it, in order, and never lowers the counter. */
  lemma {:induction false} RunExtends(c: Controller, events: seq<Event>)
    requires Run(c, events).Some?
    ensures Extends(c, Run(c, events).value)
    decreases |events|
  {
    if events != [] {
      StepExtends(c, events[0]);
      RunExtends(Step(c, events[0]), events[1..]);
    }
  }
}
