# Anonycord recording controller in Dafny

Anonycord shows a looping black video full-screen. A double tap starts or stops
a recording from the camera, and recording stops when the app resigns active.
This project models the recording logic of `RecordViewController` and proves
what that logic does and does not guarantee.

The model keeps the three fields the controller changes: `session`, `output`
and `isRecording`. Beside them it keeps what the platform holds for the
controller:

- permission prompts still waiting for the user's answer;
- background blocks that will call `startRunning`;
- 0.5 s settle closures that have not fired yet;
- the list of calls made into the capture framework.

Each asynchronous hop in the source is an explicit event:

- the gesture;
- the prompt's answer;
- the background block;
- the settle closure;
- the resign-active notification.

Platform facts are parameters, never calls:

- the authorization status;
- whether a camera device exists;
- whether an input can be made from it;
- `canAddInput` and `canAddOutput`;
- the documents directory;
- the calendar fields of the current date.

Files:

- `camera_permission.dfy` (module `CameraPermission`): the authorization-status decision.
- `recording_path.dfy` (module `RecordingPath`): the file name `yyyy-MM-dd_HH-mm-ss.php` under `<documents>/vipc`. It also has a parser and proves that formatting and parsing are inverse to each other.
- `capture_state.dfy` (module `CaptureState`): the state machine as values, with one function per operation and an event-step relation `Step`/`Run`.
- `capture_properties.dfy` (module `CaptureProperties`): the invariant every event preserves, and the guarantees of stop, toggle, permission, start and settle.
- `capture_scenarios.dfy` (module `CaptureScenarios`): whole event sequences. These include the states in which the source has a session but no recording.
- `guarded_capture.dfy` (module `GuardedCapture`): the double-start finding below, and the guarded toggle that fixes it.
- `record_view_controller.dfy` (module `RecordView`): the class `RecordViewController`. Its methods change the fields step by step, in the order of the source. Each method is proved to reach the state that the matching `CaptureState` function gives.

What holds and what does not:

- These properties hold in every reachable state:
  - an output only exists beside a session;
  - a session's attached output is the current output;
  - session and output identities are never reused;
  - every authorization query gets exactly one completion call, unless its prompt is still outstanding.
- "There is a session exactly when `isRecording` is true" does not hold in the code:
  - during the settle window a running session exists while `isRecording` is false (`SessionBeforeRecording`);
  - a start that finds no usable camera input leaves its session behind (`FailedStartKeepsSession`);
  - after a double start, `isRecording` can be true with no session (see Findings).
- Three things the code does not have:
  - no state ignores a gesture while a start is pending, since `toggleRecording` tests only `isRecording` (see Findings);
  - no pending settle closure is cancelled when focus is lost: the 0.5 s closure is never cancelled, so a resign-active between the warm-up and the closure stops nothing, and recording starts afterwards (`ResignDuringSettleWindow`);
  - `session` is not non-nil exactly when `isRecording` is true (`SessionBeforeRecording`, `FailedStartKeepsSession`).

## Model

| member | source | states |
|---|---|---|
| `CameraPermission.CheckCameraPermission` | Anonycord-1.2/Anonycord/RecordViewController.swift:82-95 | The prompt is shown exactly for `notDetermined`. Every other status answers at once, with `true` exactly for `authorized`. |
| `CameraPermission.CompletionCalledOnce` | Anonycord-1.2/Anonycord/RecordViewController.swift:82-95 | The completion receives a single value per query: true exactly for `authorized`, or for `notDetermined` with a granted prompt. That every query is answered exactly once over a run is the invariant `OutstandingChecks(effects) == pendingPrompts` in `CaptureProperties.Valid`, kept by `CaptureProperties.StepValid`. |
| `CameraPermission.RefusingStatusNeverGrants` | Anonycord-1.2/Anonycord/RecordViewController.swift:92-93 | `denied` and `restricted` answer `false` at once, whatever the user would have answered. |
| `RecordingPath.TimestampRoundTrip` | Anonycord-1.2/Anonycord/RecordViewController.swift:180-184 | Parsing the `yyyy-MM-dd_HH-mm-ss` rendering of a date gives that date back (year of at most four digits). |
| `RecordingPath.TimestampParseFormat` | Anonycord-1.2/Anonycord/RecordViewController.swift:180-184 | Every string the timestamp parser accepts is exactly the rendering of the date it yields. |
| `RecordingPath.PadOfValue` | Anonycord-1.2/Anonycord/RecordViewController.swift:182 | Zero-padding a digit string's value to the string's own width gives the string back. |
| `RecordingPath.PadFits` | Anonycord-1.2/Anonycord/RecordViewController.swift:182 | A number below 10^w is rendered in exactly w digits that denote it. |
| `RecordingPath.FormattedDateLayout` | Anonycord-1.2/Anonycord/RecordViewController.swift:182 | The rendering is 19 characters long. The separators `-`, `-`, `_`, `-`, `-` sit at positions 4, 7, 10, 13 and 16, and each field occupies its own slots. |
| `RecordingPath.FormattedDateInjective` | Anonycord-1.2/Anonycord/RecordViewController.swift:180-184 | Two different dates never render to the same file name. |
| `RecordingPath.RecordingURLRoundTrip` | Anonycord-1.2/Anonycord/RecordViewController.swift:119-121 | The recording URL is `<documents>/vipc/<timestamp>.php`. The documents directory and the date can be read back from it. |
| `RecordingPath.RecordingURLParseFormat` | Anonycord-1.2/Anonycord/RecordViewController.swift:170-178 | Every path the URL parser accepts is the recording URL of what it yields. |
| `RecordingPath.RecordingURLInjective` | Anonycord-1.2/Anonycord/RecordViewController.swift:119-121 | Recordings started at different dates are written to different files. |
| `RecordingPath.Pad` | Anonycord-1.2/Anonycord/RecordViewController.swift:182 | Renders a number in decimal, left-padded with zeros: at least `width` characters, all digits. Its value is in `PadFits`. |
| `RecordingPath.FormattedDate` | Anonycord-1.2/Anonycord/RecordViewController.swift:180-184 | Renders a date as `yyyy-MM-dd_HH-mm-ss`, at least 19 characters. The exact layout and its inverse are in `FormattedDateLayout` and `TimestampRoundTrip`. |
| `RecordingPath.VipcDirectory` | Anonycord-1.2/Anonycord/RecordViewController.swift:170-178 | The folder `vipc` directly inside the documents directory. |
| `RecordingPath.RecordingURL` | Anonycord-1.2/Anonycord/RecordViewController.swift:119-121 | A file directly inside the `vipc` folder: one component below the documents directory's `vipc` entry. |
| `CaptureState.CleanupCamera` | Anonycord-1.2/Anonycord/RecordViewController.swift:134-138 | Drops session and output and leaves `isRecording` as it was. The only call it makes is `stopRunning` on a present session; with no session it makes none. |
| `CaptureState.StopRecording` | Anonycord-1.2/Anonycord/RecordViewController.swift:128-132 | Ends with `isRecording` false and no session and no output, from any state. |
| `CaptureState.StopIfInBackground` | Anonycord-1.2/Anonycord/RecordViewController.swift:158-162 | Never leaves `isRecording` set, and changes nothing when not recording. |
| `CaptureState.StartCameraAndRecording` | Anonycord-1.2/Anonycord/RecordViewController.swift:98-126 | Always installs a new session under a fresh identity. It never changes `isRecording`, the prompts or the settle closures. |
| `CaptureState.PermissionCompletion` | Anonycord-1.2/Anonycord/RecordViewController.swift:71-77 | Never changes `isRecording` or the prompts. A refusal keeps session and output as they were. |
| `CaptureState.ToggleRecording` | Anonycord-1.2/Anonycord/RecordViewController.swift:66-79 | A toggle never leaves `isRecording` set and never schedules a settle closure itself. |
| `CaptureState.AnswerPrompt` | Anonycord-1.2/Anonycord/RecordViewController.swift:87-90 | Consumes exactly one outstanding prompt and never changes `isRecording`. |
| `CaptureState.RunWorker` | Anonycord-1.2/Anonycord/RecordViewController.swift:116-118 | Moves one scheduled block to one scheduled settle closure. It never changes `isRecording` or the output. |
| `CaptureState.Settle` | Anonycord-1.2/Anonycord/RecordViewController.swift:118-124 | Consumes one settle closure and sets `isRecording`, keeping the session. |
| `CaptureState.StepExtends` | Anonycord-1.2/Anonycord/RecordViewController.swift:66-162 | No event (`Step`) takes back a call already made or lowers the identity counter. |
| `CaptureState.RunExtends` | Anonycord-1.2/Anonycord/RecordViewController.swift:66-162 | Every run (`Run`) keeps all earlier calls, in order, as a prefix, and never lowers the identity counter. |
| `CaptureProperties.CleanupValid` | Anonycord-1.2/Anonycord/RecordViewController.swift:134-138 | Cleanup keeps the invariant. |
| `CaptureProperties.FinalizeValid` | Anonycord-1.2/Anonycord/RecordViewController.swift:129-131 | Finishing the file and clearing `isRecording` keeps the invariant. |
| `CaptureProperties.QueryAwaits` | Anonycord-1.2/Anonycord/RecordViewController.swift:82-84 | A fresh authorization query leaves exactly one query waiting for its completion. |
| `CaptureProperties.CompletionValid` | Anonycord-1.2/Anonycord/RecordViewController.swift:71-77 | The completion call answers the waiting query, and the start it may run keeps the invariant. |
| `CaptureProperties.StepValid` | Anonycord-1.2/Anonycord/RecordViewController.swift:66-138 | Every event keeps the invariant: output only beside a session, attached output is the current one, fresh identities, one completion per query. |
| `CaptureProperties.RunValid` | Anonycord-1.2/Anonycord/RecordViewController.swift:66-162 | Every state reachable from a valid state is valid. |
| `CaptureProperties.InitialValid` | Anonycord-1.2/Anonycord/RecordViewController.swift:6-8 | The state after `viewDidLoad` (no session, no output, not recording) is valid. |
| `CaptureProperties.ToggleValid` | Anonycord-1.2/Anonycord/RecordViewController.swift:66-79 | A toggle keeps the invariant, on every permission path. |
| `CaptureProperties.StartValid` | Anonycord-1.2/Anonycord/RecordViewController.swift:98-126 | A start keeps the invariant, on both the early-return and the full path. |
| `CaptureProperties.StopRecordingValid` | Anonycord-1.2/Anonycord/RecordViewController.swift:128-138 | A stop keeps the invariant. |
| `CaptureProperties.AnswerPromptValid` | Anonycord-1.2/Anonycord/RecordViewController.swift:87-90 | Answering a prompt consumes it and keeps the invariant. |
| `CaptureProperties.RunWorkerValid` | Anonycord-1.2/Anonycord/RecordViewController.swift:116-118 | The background block keeps the invariant. |
| `CaptureProperties.SettleValid` | Anonycord-1.2/Anonycord/RecordViewController.swift:118-124 | The settle closure keeps the invariant. |
| `CaptureProperties.StopRecordingClears` | Anonycord-1.2/Anonycord/RecordViewController.swift:128-138 | After a stop, `isRecording` is false and session and output are nil, whatever the prior state. The callback schedule is untouched, and a second stop changes nothing. |
| `CaptureProperties.StopFinalizesBeforeRelease` | Anonycord-1.2/Anonycord/RecordViewController.swift:129-137 | The output's `stopRecording` is called before the session's `stopRunning`, and nothing else is called. An absent output or session is skipped. |
| `CaptureProperties.ResignActiveStopsOnlyRecording` | Anonycord-1.2/Anonycord/RecordViewController.swift:158-162 | Resigning active does nothing when not recording, equals `stopRecording` when recording, and never leaves `isRecording` set. |
| `CaptureProperties.ToggleWhileRecordingStops` | Anonycord-1.2/Anonycord/RecordViewController.swift:66-70 | While recording, a toggle equals `stopRecording` for every status and hardware. Nothing is queried, prompted or built. |
| `CaptureProperties.RefusedToggleChangesNothing` | Anonycord-1.2/Anonycord/RecordViewController.swift:71-76 | A denied or restricted status changes nothing but the query and its `false` answer. No session is created. |
| `CaptureProperties.RefusedPromptChangesNothing` | Anonycord-1.2/Anonycord/RecordViewController.swift:74-76 | A refused prompt only consumes the prompt. Session, output and `isRecording` stay as they were. |
| `CaptureProperties.AuthorizedToggleStarts` | Anonycord-1.2/Anonycord/RecordViewController.swift:71-73 | An authorized status starts the camera within the same toggle. |
| `CaptureProperties.UndeterminedTogglePrompts` | Anonycord-1.2/Anonycord/RecordViewController.swift:86-91 | An undetermined status leaves one more prompt outstanding and changes nothing else. |
| `CaptureProperties.StartWithoutInput` | Anonycord-1.2/Anonycord/RecordViewController.swift:99-107 | With no device, no input, or an input the session refuses, the start returns early. A new input-less session replaces the old one, no output is created, nothing is scheduled, and `isRecording` is untouched. |
| `CaptureProperties.StartWithInput` | Anonycord-1.2/Anonycord/RecordViewController.swift:109-116 | The input is added and a new output is created. The output is attached exactly when `canAddOutput` holds. One background block is scheduled, and nothing runs or records yet. |
| `CaptureProperties.StartBuildsNewSession` | Anonycord-1.2/Anonycord/RecordViewController.swift:99 | Each start builds a session that no earlier call has named. |
| `CaptureProperties.OnlySettleStartsRecording` | Anonycord-1.2/Anonycord/RecordViewController.swift:123 | Of all the events, only the settle closure switches `isRecording` on. |
| `CaptureProperties.SettleRequestsRecording` | Anonycord-1.2/Anonycord/RecordViewController.swift:118-124 | The settle closure sets `isRecording`. If an output exists, it is first asked to record to `<documents>/vipc/<timestamp>.php`; without an output nothing is recorded. |
| `CaptureScenarios.RunAppend` | Anonycord-1.2/Anonycord/RecordViewController.swift:66-162 | Running two event sequences one after the other equals running their concatenation. |
| `CaptureScenarios.CycleFromIdle` | Anonycord-1.2/Anonycord/RecordViewController.swift:66-138 | From an idle, quiet state, one authorized cycle (toggle, warm-up, settle, toggle) makes the full call sequence in order and returns to an idle, quiet state. |
| `CaptureScenarios.TwoCyclesTwoFiles` | Anonycord-1.2/Anonycord/RecordViewController.swift:118-124 | Two back-to-back cycles at different dates end idle and write two different files. |
| `CaptureScenarios.GrantedPromptRecords` | Anonycord-1.2/Anonycord/RecordViewController.swift:86-124 | A granted prompt leads, through warm-up and settle, to a running session recording to the dated URL. |
| `CaptureScenarios.RefusedStatusNeverBuildsSession` | Anonycord-1.2/Anonycord/RecordViewController.swift:71-94 | A denied or restricted status never creates a session or an output. The only calls are the query and its `false` answer. |
| `CaptureScenarios.PromptShown` | Anonycord-1.2/Anonycord/RecordViewController.swift:82-90 | From any state not recording, a toggle with an undetermined status queries, asks, and leaves one more prompt waiting. Nothing else changes. |
| `CaptureScenarios.PromptRefused` | Anonycord-1.2/Anonycord/RecordViewController.swift:71-77 | A refused prompt only consumes the prompt and reports `false`. |
| `CaptureScenarios.PromptGranted` | Anonycord-1.2/Anonycord/RecordViewController.swift:71-116 | A granted prompt on working hardware consumes the prompt, then builds the next session with its input and attached output, and schedules the warm-up. |
| `CaptureScenarios.RefusedPromptRun` | Anonycord-1.2/Anonycord/RecordViewController.swift:66-94 | From any state not recording, an undetermined toggle followed by a refusal only adds the query, the prompt and the `false` answer. |
| `CaptureScenarios.RefusedPromptNeverBuildsSession` | Anonycord-1.2/Anonycord/RecordViewController.swift:71-94 | A prompt the user refuses never creates a session or an output. The only calls are the query, the prompt and the `false` answer. |
| `CaptureScenarios.WarmUpThenSettle` | Anonycord-1.2/Anonycord/RecordViewController.swift:116-124 | After a start is scheduled, the background block and the settle closure start the session, ask the output to record to the dated URL, and set `isRecording`. Nothing else changes. |
| `CaptureScenarios.SessionBeforeRecording` | Anonycord-1.2/Anonycord/RecordViewController.swift:99-123 | During the settle window a running session exists while `isRecording` is false. |
| `CaptureScenarios.FailedStartKeepsSession` | Anonycord-1.2/Anonycord/RecordViewController.swift:99-107 | A failed start leaves an input-less session in place, with nothing scheduled and no recording. |
| `CaptureScenarios.ResignDuringSettleWindow` | Anonycord-1.2/Anonycord/RecordViewController.swift:116-124 | Resigning active after the background block has started the session and before the 0.5 s closure fires stops nothing. Recording then begins when the closure fires. |
| `GuardedCapture.DoubleStartWitness` | Anonycord-1.2/Anonycord/RecordViewController.swift:66-79 | As written, a second toggle inside the settle window replaces the first session, which is already running, without `stopRunning`. The run then ends with `isRecording` true and no session and no output. |
| `GuardedCapture.GuardedToggle` | Anonycord-1.2/Anonycord/RecordViewController.swift:66-79 | Corrected toggle: a gesture while not recording and with a prompt, warm-up or settle outstanding is ignored. Otherwise it is the source's toggle. |
| `GuardedCapture.GuardedStepInv` | Anonycord-1.2/Anonycord/RecordViewController.swift:66-162 | With the guard, every event keeps the invariant plus coherence. At most one start is in flight, none while recording, and each scheduled callback has a session and an output behind it. |
| `GuardedCapture.GuardedRunCoherent` | Anonycord-1.2/Anonycord/RecordViewController.swift:66-162 | With the guard, every reachable state that records has a session and an output. |
| `GuardedCapture.InitialGuardedInv` | Anonycord-1.2/Anonycord/RecordViewController.swift:6-8 | The initial state satisfies the guarded invariant. |
| `GuardedCapture.SerialRunIsGuarded` | Anonycord-1.2/Anonycord/RecordViewController.swift:66-79 | If the user never toggles while a start is in flight, the source behaves exactly like the guarded controller. |
| `RecordView.RecordViewController.constructor` | Anonycord-1.2/Anonycord/RecordViewController.swift:6-8 | Starts with no session, no output, not recording, and nothing scheduled. |
| `RecordView.RecordViewController.ToggleRecording` | Anonycord-1.2/Anonycord/RecordViewController.swift:66-95 | The double-tap handler reaches the state `CaptureState.ToggleRecording` gives and keeps the invariant. |
| `RecordView.RecordViewController.PermissionCompletion` | Anonycord-1.2/Anonycord/RecordViewController.swift:71-77 | The completion closure answers the waiting query, starts the camera on a grant, and leaves the controller valid. |
| `RecordView.RecordViewController.PromptAnswered` | Anonycord-1.2/Anonycord/RecordViewController.swift:87-90 | The prompt callback consumes one prompt, runs the completion, and keeps the invariant. |
| `RecordView.RecordViewController.StartCameraAndRecording` | Anonycord-1.2/Anonycord/RecordViewController.swift:98-116 | Builds the session, input and output step by step, reaching the state `CaptureState.StartCameraAndRecording` gives. Keeps the invariant. |
| `RecordView.RecordViewController.RunWorker` | Anonycord-1.2/Anonycord/RecordViewController.swift:116-118 | Starts the current session, if any, and schedules the settle closure. Keeps the invariant. |
| `RecordView.RecordViewController.Settle` | Anonycord-1.2/Anonycord/RecordViewController.swift:118-124 | Composes `<documents>/vipc/<timestamp>.php`, asks the current output to record there, and sets `isRecording`. Keeps the invariant. |
| `RecordView.RecordViewController.StopRecording` | Anonycord-1.2/Anonycord/RecordViewController.swift:128-132 | Finalizes the output's file, clears `isRecording`, then cleans up. This reaches the state `CaptureState.StopRecording` gives and keeps the invariant. |
| `RecordView.RecordViewController.CleanupCamera` | Anonycord-1.2/Anonycord/RecordViewController.swift:134-138 | Stops the session if present, then drops session and output. Keeps the invariant. |
| `RecordView.RecordViewController.StopIfInBackground` | Anonycord-1.2/Anonycord/RecordViewController.swift:158-162 | Stops only when recording, and keeps the invariant. |

## Findings

| source | as written | input that shows it | evidently intended | confidence | as-written member | corrected member |
|---|---|---|---|---|---|---|
| Anonycord-1.2/Anonycord/RecordViewController.swift:66-79 | `toggleRecording` only tests `isRecording`, which stays false until the settle closure fires, so a gesture during a start in flight starts a second capture. | Toggle (authorized), its background block, toggle (authorized) before the settle closure fires, its background block, the first settle, a stopping toggle, the second settle. The first session was started and is dropped without `stopRunning`. The result is `isRecording` true with `session` and `output` nil. | A gesture during a start in flight is ignored, so that recording always has a session and an output behind it. | medium, not executed | `GuardedCapture.DoubleStartWitness` | `GuardedCapture.GuardedToggle` (with `GuardedCapture.GuardedRunCoherent`) |

## Left out

- `playBlackLoopVideo` (lines 27-57), the decoy player: view and notification glue with no recording state.
- Gesture-recognizer setup (60-64), `vibrate` (165-168), the status-bar and home-indicator overrides (186-187), and the idle-timer flag in `viewDidLoad` and `deinit` (14, 21-24): UI and OS flags.
- Observer registration and removal (18, 22, 152-156): the resign-active notification is the `ResignActive` event.
- `session?.sessionPreset = .high` (line 100): no modelled state depends on the preset.
- The capture framework itself: sessions and outputs are values with an identity. Calls into them are recorded, not executed.
- Threading: the background block reads `self.session` off the main queue. It is modelled as one atomic event, so data races are not modelled. The 0.5 s delay is not timed.
- The two hops of the permission callback (`requestAccess`, then `DispatchQueue.main.async`, lines 87-90) are one `PromptAnswered` event.
- `getVIPCDirectory`'s lookup and creation of the directory on disk (172-176): the documents directory is an input, and only the path is composed.
- `DateFormatter`'s clock, calendar and locale: the date's six fields are an input.
- `RecordingPath.TimestampRoundTrip`: needs a year of at most four digits. A `yyyy` rendering of a larger year is wider, so the fixed-layout parser does not read it back.
- URLs are modelled as sequences of path components. The `file://` scheme and percent-encoding are not modelled.
- The `fileOutput(_:didFinishRecordingTo:...)` delegate (140-149): it only logs.
- All `print` logging.
- `FullscreenWrapper.swift`: a SwiftUI wrapper with no logic.
- `CaptureProperties.StopFinalizesBeforeRelease`: orders the output's `stopRecording` against the session's `stopRunning` only. The clearing of `isRecording` between them is in the body of `RecordView.RecordViewController.StopRecording`, not in a contract.
