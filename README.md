# WorldAloud read-text workflow, in Dafny

WorldAloud is an iOS application that photographs printed text and reads it
aloud. Its workflow is run by `ReadTextMachine`, an event-driven state machine
over `ReadTextState` (`initial`, `liveView`, `takingPhoto`, `isolatingText`,
`imageProcessing`, `runningOCR`, `reading`, `cleanup`, `background`). A tap in
the live camera view takes a photo. When the camera session stops, text regions
are looked for in the photo. If there are any, an image is assembled and OCR
runs on it. A non-empty result is spoken. Cleanup then returns to the live view.
A tap while isolating text, running OCR or reading cancels the pass.

This project models that machine together with the helpers it relies on:

- `speech.dfy` (module `Speech`): the `SpeechSynthesizer`, a FIFO queue of
  texts in front of an engine that speaks one utterance at a time. The engine
  is its `isSpeaking` flag.
- `text_reader.dfy` (module `Reader`): the OCR `TextReader`, with its one-shot
  cancel flag and the text recognised last. The OCR engine's output is a
  parameter.
- `orientation.dfy` (module `Orientation`): the orientation conversions of
  `Extensions.swift`, as total functions between finite enumerations.
- `read_text.dfy` (module `ReadText`): the machine. The camera is modelled by
  whether its session runs and the photo it holds. Every request the machine
  issues is appended to a request log: camera start/stop/snap, speech
  utter/reset, text finding, OCR, reader reset.
- `read_text_properties.dfy` (module `ReadTextProperties`): the properties of
  the machine.
- `options.dfy` (module `Options`): an `Option` type for Swift optionals.

Each stateful object (`SpeechSynthesizer`, `TextReader`, `ReadTextMachine`) is
a Dafny class with the source's fields and one method per modelled handler
(plus `Say`, a helper shared by the machine's handlers). It
has a value counterpart: the datatypes `Synth`, `ReaderView` and `Machine`.
The member functions of that datatype are the specification of the handlers.
Every method is proved to move the object's `View()` exactly as the matching
function says. The properties are lemmas about those functions. `Step` and
`Run` apply events to a `Machine`, so histories can be reasoned about. Events
may arrive in any order and in any state, so each property holds for every
interleaving of notifications.

The model follows the code as written; three behaviours are easy to get wrong:

- There is no request generation token. Stale completions are guarded only by
  the state checks in `doneFindingText`, `imageAssembly`, `ocrComplete` and
  `doneSpeaking`; outside `reading` and `cleanup` a done-speaking
  notification only moves the synthesizer on.
- `cleanup()` is not idempotent. When the first call had to stop speech while
  the camera was off, a second call starts the camera (`CleanupTwice`).
- `background()` goes straight to `initial`. It stops neither the camera nor
  speech.

Some consequences of the code are proved rather than assumed:

- `TextReader.reset()` consumes its own cancel flag, so the OCR engine's next
  poll answers false (`PollAfterResetAnswersFalse`).
- `doneSpeaking()` in `reading` does not ask which utterance finished. A status
  prompt that ends while the recognised text is still queued therefore cuts
  the text off (`PromptEndingCutsReading`).
- The source never composes its two device conversions. Going through the
  capture orientation and then a capture-to-photo table the model defines
  (`ImageOrientationForCapture`, agreeing with the device table on the four
  upright orientations) gives the device's photo orientation for every device
  orientation that has a capture orientation, except `faceDown`
  (`DeviceConversionsAgree`).

## Model

| member | source | states |
|---|---|---|
| `Orientation.CGOrientationFromUIImage` | Product/iOS/WorldAloud/WorldAloud/Helper/Extensions.swift:33-46 | every UIKit orientation maps to the Core Graphics orientation of the same name, mirroring is kept, and `UIOrientationFromCG` undoes it (round trip) |
| `Orientation.CGOrientationInjective` | Product/iOS/WorldAloud/WorldAloud/Helper/Extensions.swift:37-44 | distinct UIKit orientations give distinct Core Graphics orientations |
| `Orientation.CGOrientationOnto` | Product/iOS/WorldAloud/WorldAloud/Helper/Extensions.swift:37-44 | every Core Graphics orientation is reached, so the conversion is a bijection |
| `Orientation.ImageOrientationFromDevice` | Product/iOS/WorldAloud/WorldAloud/Helper/Extensions.swift:53-61 | never mirrored; `.right` exactly for portrait and face up, `.left` exactly for upside-down portrait and face down, `.up` exactly for landscape left and unknown, `.down` exactly for landscape right |
| `Orientation.CaptureOrientationFromDevice` | Product/iOS/WorldAloud/WorldAloud/Helper/Extensions.swift:65-75 | no capture orientation exactly for `unknown`; face up and face down give portrait; the four upright orientations give their namesakes |
| `Orientation.DeviceConversionsAgree` | Product/iOS/WorldAloud/WorldAloud/Helper/Extensions.swift:53-75 | the capture orientation's photo orientation equals the device's photo orientation exactly when the device is neither unknown nor face down |
| `Speech.SpeechSynthesizer.constructor` | Product/iOS/WorldAloud/WorldAloud/CustomObjects/SpeechSynthesizer.swift:15-36 | a new synthesizer has an empty queue and is not speaking |
| `Speech.SpeechSynthesizer.UtterNext` | Product/iOS/WorldAloud/WorldAloud/CustomObjects/SpeechSynthesizer.swift:39-49 | `utter()` changes the synthesizer exactly as `Synth.UtterNext`: an idle engine takes the head of a non-empty queue |
| `Speech.SpeechSynthesizer.Utter` | Product/iOS/WorldAloud/WorldAloud/CustomObjects/SpeechSynthesizer.swift:50-53 | `utter(_:)` changes the synthesizer exactly as `Synth.Utter`: append, then `utter()` |
| `Speech.SpeechSynthesizer.Reset` | Product/iOS/WorldAloud/WorldAloud/CustomObjects/SpeechSynthesizer.swift:56-61 | `reset()` changes the synthesizer exactly as `Synth.Reset`: engine stopped, queue emptied |
| `Speech.SpeechSynthesizer.DidFinish` | Product/iOS/WorldAloud/WorldAloud/CustomObjects/SpeechSynthesizer.swift:64-69 | the did-finish callback changes the synthesizer exactly as `Synth.DidFinish` and broadcasts exactly one done-speaking notification |
| `Speech.UtterAppendsAtEnd` | Product/iOS/WorldAloud/WorldAloud/CustomObjects/SpeechSynthesizer.swift:50-52 | `utter(text)` puts `text` last in the queue, or speaks it at once when the engine is idle and the queue empty |
| `Speech.UtterNextSpeaksHead` | Product/iOS/WorldAloud/WorldAloud/CustomObjects/SpeechSynthesizer.swift:40-46 | `utter()` on an idle engine with a non-empty queue removes exactly the head and starts speaking it |
| `Speech.UtterNextIdleOrBusyUnchanged` | Product/iOS/WorldAloud/WorldAloud/CustomObjects/SpeechSynthesizer.swift:40-48 | `utter()` while speaking, or with an empty queue, changes nothing: not the queue and not the utterance in flight |
| `Speech.ResetEmpties` | Product/iOS/WorldAloud/WorldAloud/CustomObjects/SpeechSynthesizer.swift:56-61 | after `reset()` the queue is empty, the engine idle and no text already spoken forgotten; a second reset changes nothing |
| `Speech.DidFinishDequeues` | Product/iOS/WorldAloud/WorldAloud/CustomObjects/SpeechSynthesizer.swift:64-67 | finishing an utterance starts the next queued text if there is one, and otherwise leaves the engine idle |
| `Speech.OneInFlight` | Product/iOS/WorldAloud/WorldAloud/CustomObjects/SpeechSynthesizer.swift:39-67 | every call hands the engine at most one text, keeps the texts already spoken, and hands one over only when no utterance is in flight or one has just finished |
| `Speech.ApplyKeepsSettled` | Product/iOS/WorldAloud/WorldAloud/CustomObjects/SpeechSynthesizer.swift:39-67 | every single call keeps an idle engine's queue empty |
| `Speech.RunKeepsSettled` | Product/iOS/WorldAloud/WorldAloud/CustomObjects/SpeechSynthesizer.swift:39-67 | a new synthesizer is settled (an idle engine has an empty queue), and every history of calls keeps it so: no text is ever left waiting while nothing is spoken |
| `Speech.ApplyKeepsOrder` | Product/iOS/WorldAloud/WorldAloud/CustomObjects/SpeechSynthesizer.swift:39-67 | any call other than `reset()` keeps the order of spoken-then-queued texts and appends only the text passed to `utter(_:)` |
| `Speech.FifoOrder` | Product/iOS/WorldAloud/WorldAloud/CustomObjects/SpeechSynthesizer.swift:15-67 | without a reset, every text passed to `utter(_:)` is spoken or still queued, in the order it was passed (FIFO) |
| `Reader.ReaderView.ShouldCancel` | Product/iOS/WorldAloud/WorldAloud/CustomObjects/TextReader.swift:52-59 | returns the flag's previous value and always leaves the flag false; the recognised text is untouched |
| `Reader.ReaderView.Reset` | Product/iOS/WorldAloud/WorldAloud/CustomObjects/TextReader.swift:43-50 | after `reset()` the flag is false and the recognised text is unchanged |
| `Reader.ReaderView.RunOcr` | Product/iOS/WorldAloud/WorldAloud/CustomObjects/TextReader.swift:35-41 | `runOCR` stores the engine's output as the recognised text and broadcasts exactly one OCR-complete notification |
| `Reader.NeverCancelsTwice` | Product/iOS/WorldAloud/WorldAloud/CustomObjects/TextReader.swift:52-59 | two polls in a row never both answer true |
| `Reader.ResetTakesCancelledBranch` | Product/iOS/WorldAloud/WorldAloud/CustomObjects/TextReader.swift:43-50 | the poll `reset()` makes always answers true (the "cancelled" branch), and `reset()` leaves the reader exactly as that poll does |
| `Reader.PollAfterResetAnswersFalse` | Product/iOS/WorldAloud/WorldAloud/CustomObjects/TextReader.swift:43-59 | the engine's next poll after a reset answers false and changes nothing |
| `Reader.ResetKeepsRecognizedText` | Product/iOS/WorldAloud/WorldAloud/CustomObjects/TextReader.swift:30-50 | `getRecognizedText()` gives what `runOCR` stored, and a reset does not change it |
| `Reader.TextReader.constructor` | Product/iOS/WorldAloud/WorldAloud/CustomObjects/TextReader.swift:21-27 | a new reader has the cancel flag false and no recognised text |
| `Reader.TextReader.GetRecognizedText` | Product/iOS/WorldAloud/WorldAloud/CustomObjects/TextReader.swift:30-32 | returns the stored recognised text |
| `Reader.TextReader.RunOcr` | Product/iOS/WorldAloud/WorldAloud/CustomObjects/TextReader.swift:35-41 | changes the reader exactly as `ReaderView.RunOcr` |
| `Reader.TextReader.Reset` | Product/iOS/WorldAloud/WorldAloud/CustomObjects/TextReader.swift:43-50 | changes the reader exactly as `ReaderView.Reset`, going through the "cancelled" branch |
| `Reader.TextReader.ShouldCancelImageRecognition` | Product/iOS/WorldAloud/WorldAloud/CustomObjects/TextReader.swift:52-59 | answers and changes the reader exactly as `ReaderView.ShouldCancel` |
| `ReadText.ReadTextMachine.constructor` | Product/iOS/WorldAloud/WorldAloud/OperatingModes/ReadTextMachine.swift:34-45 | a new machine is in `initial`, camera off, no finder or reader, speech idle, nothing issued |
| `ReadText.ReadTextMachine.GetCurrentState` | Product/iOS/WorldAloud/WorldAloud/OperatingModes/ReadTextMachine.swift:59-61 | returns the machine's current state and changes nothing |
| `ReadText.ReadTextMachine.LiveView` | Product/iOS/WorldAloud/WorldAloud/OperatingModes/ReadTextMachine.swift:92-99 | requests a camera start; the session runs afterwards, and starting a running session changes nothing else |
| `ReadText.ReadTextMachine.HandleScreenTap` | Product/iOS/WorldAloud/WorldAloud/OperatingModes/ReadTextMachine.swift:69-82 | follows `Machine.HandleScreenTap`: take a photo in `liveView`, clean up in `isolatingText`, `runningOCR` or `reading`, otherwise nothing |
| `ReadText.ReadTextMachine.CameraSessionStarted` | Product/iOS/WorldAloud/WorldAloud/OperatingModes/ReadTextMachine.swift:101-105 | enters `liveView` and utters "Camera view. Tap to start." |
| `ReadText.ReadTextMachine.TakePhoto` | Product/iOS/WorldAloud/WorldAloud/OperatingModes/ReadTextMachine.swift:107-114 | only in `liveView`: enters `takingPhoto`, utters "Processing.", requests one snap |
| `ReadText.ReadTextMachine.DoneTakingPhoto` | Product/iOS/WorldAloud/WorldAloud/OperatingModes/ReadTextMachine.swift:117-123 | keeps the captured photo (or none) and stops the camera session, in any state |
| `ReadText.ReadTextMachine.CameraSessionStopped` | Product/iOS/WorldAloud/WorldAloud/OperatingModes/ReadTextMachine.swift:125-137 | follows `Machine.CameraSessionStopped`: with a photo, `isolatingText` and text finding on it; without one, cleanup |
| `ReadText.ReadTextMachine.DoneFindingText` | Product/iOS/WorldAloud/WorldAloud/OperatingModes/ReadTextMachine.swift:139-152 | follows `Machine.DoneFindingText`: only in `isolatingText`; no regions leads to cleanup and "No text found.", otherwise image assembly |
| `ReadText.ReadTextMachine.ImageAssembly` | Product/iOS/WorldAloud/WorldAloud/OperatingModes/ReadTextMachine.swift:154-189 | follows `Machine.ImageAssembly`: only in `isolatingText`; through `imageProcessing` to `runningOCR` with a fresh reader and one OCR request, or to cleanup when re-orientation fails |
| `ReadText.ReadTextMachine.OcrComplete` | Product/iOS/WorldAloud/WorldAloud/OperatingModes/ReadTextMachine.swift:191-203 | follows `Machine.OcrComplete`: only in `runningOCR`; non-empty text goes to reading, anything else to cleanup |
| `ReadText.ReadTextMachine.Reading` | Product/iOS/WorldAloud/WorldAloud/OperatingModes/ReadTextMachine.swift:205-209 | enters `reading` and utters the text |
| `ReadText.ReadTextMachine.DoneSpeaking` | Product/iOS/WorldAloud/WorldAloud/OperatingModes/ReadTextMachine.swift:211-219 | follows `Machine.DoneSpeaking`: cleanup in `reading`, then a live-view restart whenever the state is `cleanup` |
| `ReadText.ReadTextMachine.Background` | Product/iOS/WorldAloud/WorldAloud/OperatingModes/ReadTextMachine.swift:222-226 | passes through `background` and ends in `initial` |
| `ReadText.ReadTextMachine.Cleanup` | Product/iOS/WorldAloud/WorldAloud/OperatingModes/ReadTextMachine.swift:228-251 | follows `Machine.Cleanup`: state `cleanup`, finder dropped, reader reset, then a speech reset or a live-view restart; the reader object is kept |
| `ReadText.ReadTextMachine.CleanupFrom` | Product/iOS/WorldAloud/WorldAloud/OperatingModes/ReadTextMachine.swift:253-271 | follows `Machine.CleanupFrom`: `background` goes to `initial`, `cleanup` restarts the live view, `isolatingText` cleans up and utters "No text found.", anything else cleans up |
| `ReadText.ReadTextMachine.DoneCancelingSpeeches` | Product/iOS/WorldAloud/WorldAloud/OperatingModes/ReadTextMachine.swift:273-275 | runs `cleanup(callingState:)` with the current state |
| `ReadTextProperties.LiveViewOnlyOnSessionStart` | Product/iOS/WorldAloud/WorldAloud/OperatingModes/ReadTextMachine.swift:35-105 | a new machine is in `initial`; `liveView` is entered from another state only by the session-started event, which queues "Camera view. Tap to start." |
| `ReadTextProperties.TapByState` | Product/iOS/WorldAloud/WorldAloud/OperatingModes/ReadTextMachine.swift:69-114 | tap in `liveView`: `takingPhoto`, "Processing." queued, exactly one snap, nothing else changed; in `isolatingText`, `runningOCR` or `reading`: cleanup; elsewhere: nothing changes and nothing is issued |
| `ReadTextProperties.PhotoCapturedStopsCamera` | Product/iOS/WorldAloud/WorldAloud/OperatingModes/ReadTextMachine.swift:117-123 | a captured photo is kept and the camera stops, whatever the state, which is left unchanged |
| `ReadTextProperties.SessionStopped` | Product/iOS/WorldAloud/WorldAloud/OperatingModes/ReadTextMachine.swift:125-137 | with a photo: `isolatingText` and exactly one text-finding request on that photo; without one: cleanup |
| `ReadTextProperties.TextDetection` | Product/iOS/WorldAloud/WorldAloud/OperatingModes/ReadTextMachine.swift:139-189 | ignored outside `isolatingText`; zero regions: cleanup then "No text found."; otherwise `runningOCR` with a fresh reader and one OCR request on the finder's photo, or cleanup when re-orientation fails |
| `ReadTextProperties.NoRegionsNoOcr` | Product/iOS/WorldAloud/WorldAloud/OperatingModes/ReadTextMachine.swift:144-146 | with zero regions no OCR request is issued and the only utterance is the final "No text found." |
| `ReadTextProperties.OcrCompletion` | Product/iOS/WorldAloud/WorldAloud/OperatingModes/ReadTextMachine.swift:191-209 | outside `runningOCR` only the reader's stored text changes; non-empty text: `reading` and exactly that text uttered; no text or empty text: cleanup |
| `ReadTextProperties.OcrRequestOnlyAfterDetection` | Product/iOS/WorldAloud/WorldAloud/OperatingModes/ReadTextMachine.swift:139-189 | a step only appends requests, and the only step that issues an OCR request is a detection with regions in `isolatingText` whose photo re-orients; that request is for the finder's photo |
| `ReadTextProperties.StepKeepsShape` | Product/iOS/WorldAloud/WorldAloud/OperatingModes/ReadTextMachine.swift:125-189 | between events `isolatingText` has a finder, `runningOCR` has a reader, and `imageProcessing` and `background` are never seen; a new finder's photo is sent to text finding in the same step |
| `ReadTextProperties.StepKeepsInv` | Product/iOS/WorldAloud/WorldAloud/OperatingModes/ReadTextMachine.swift:125-189 | every event keeps the invariant: every OCR request follows a text-finding request for the same photo, plus the shape above |
| `ReadTextProperties.RunKeepsInv` | Product/iOS/WorldAloud/WorldAloud/OperatingModes/ReadTextMachine.swift:125-189 | every sequence of events keeps the invariant |
| `ReadTextProperties.ReachableInv` | Product/iOS/WorldAloud/WorldAloud/OperatingModes/ReadTextMachine.swift:34-189 | every machine reached from a new one keeps the invariant, so recognition never starts without a preceding detection phase on the same photo |
| `ReadTextProperties.CleanupEffects` | Product/iOS/WorldAloud/WorldAloud/OperatingModes/ReadTextMachine.swift:228-251 | state `cleanup`, no finder, the reader reset, then a speech reset when speaking or a live-view restart otherwise, never both; speech idle afterwards |
| `ReadTextProperties.CleanupTwice` | Product/iOS/WorldAloud/WorldAloud/OperatingModes/ReadTextMachine.swift:228-251 | a second cleanup changes nothing but the request log exactly when the first did not stop speech with the camera off |
| `ReadTextProperties.DoneSpeakingByState` | Product/iOS/WorldAloud/WorldAloud/OperatingModes/ReadTextMachine.swift:211-219 | in `reading`: cleanup then a live-view restart; in `cleanup`: a live-view restart; elsewhere: nothing |
| `ReadTextProperties.BackgroundToInitial` | Product/iOS/WorldAloud/WorldAloud/OperatingModes/ReadTextMachine.swift:222-257 | backgrounding ends in `initial`, changes nothing else and issues no camera or speech request |
| `ReadTextProperties.DoneCancelingByState` | Product/iOS/WorldAloud/WorldAloud/OperatingModes/ReadTextMachine.swift:253-275 | done canceling: in `cleanup`, a live-view restart; in `isolatingText`, cleanup then "No text found."; in every other state except `background`, cleanup |
| `ReadTextProperties.CancelDuringOcr` | Product/iOS/WorldAloud/WorldAloud/OperatingModes/ReadTextMachine.swift:74-77 | a tap in `runningOCR` cleans up, and an OCR result arriving afterwards is never uttered and issues nothing |
| `ReadTextProperties.PromptEndingCutsReading` | Product/iOS/WorldAloud/WorldAloud/OperatingModes/ReadTextMachine.swift:211-215 | a done-speaking event in `reading` for an earlier prompt starts the queued recognised text and stops it at once, then restarts the camera |
| `ReadTextProperties.HappyPath` | Product/iOS/WorldAloud/WorldAloud/OperatingModes/ReadTextMachine.swift:69-219 | the successful pass (photo, two regions, OCR text `h`) speaks the prompts and `h` in order, issues exactly the listed requests and ends in `liveView` |

## Left out

- User interface: adding and removing the camera preview, removing the
  overlay subviews in `cleanup()`, `displayImage` and its scaling, and
  `initial()`, which only builds the preview layer. None of them affects
  state or requests.
- Image composition in `imageAssembly()` and `ImageProcessor`: the model
  keeps only whether `fixOrientation` produced an image, as a parameter of
  the text-detected event.
- Vision text detection: `TextFinder` is empty in the source, so detection is
  an event carrying the number of regions found.
- Tesseract OCR: the engine's output is a parameter. In the source `runOCR`
  runs synchronously and its notification is delivered synchronously too. The
  model makes the OCR result a separate event that may arrive after any other
  event, which allows every behaviour of the source and more.
- `NotificationCenter` and `DispatchQueue.main.async`: notifications are
  serialised method calls (or events of `Step`), with no concurrency.
- Camera hardware: authorization, session configuration, photo settings and
  the `fatalError` on a missing camera are left out. The camera is its
  `isRunning` flag and the photo it holds. The session-started and
  session-stopped notifications are events of their own.
- Speech engine: voice selection and audio are left out. `stopSpeaking` is
  taken to stop at once. The done-canceling notification (not defined in the
  speech file) is the `SpeechCanceled` event.
- `Speech.SpeechSynthesizer.DidFinish` and `Reader.TextReader.RunOcr` count
  their notifications in ghost counters. The machine receives them as the
  `SpeechFinished` and `OcrFinished` events of `Step`.
- Request generation token: the code has none, and the model adds none.
- `OperatingModes/TextReader.swift` is not part of this model. It is an
  earlier state machine that has been superseded.
- `setViewControllerDelegate` and the view-controller reference: they only
  serve the user interface, which is left out.
- Notification observer registration (`setupObserver`, `deinit`): the events
  of `Step` are the notifications themselves.
- `CGPoint.scaled` and `CGRect.scaled`: floating-point rectangle arithmetic.
