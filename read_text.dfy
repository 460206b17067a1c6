/**
 * The read-text workflow of WorldAloud: an event-driven state machine that
 * takes a photo, finds text regions in it, assembles an image of them, runs
 * OCR on it and speaks the text, then returns to the live camera view.
 *
 * `Machine` is the value of the state machine and its member functions are
 * the handlers, one per source method; `ReadTextMachine` is the object the
 * application holds, whose methods are proved to move its `View()` exactly as
 * those functions say. The camera is modelled by whether its session runs and
 * the photo it holds; every request the machine issues to a collaborator is
 * appended to a log (ghost in the object).
 */
module ReadText {
  import opened Options
  import Speech
  import Reader

  /** `ReadTextState` */
  datatype ReadTextState =
    | Initial | LiveView | TakingPhoto | IsolatingText | ImageProcessing
    | RunningOcr | Reading | Cleanup | Background

  /** An opaque handle on a captured photo. */
  datatype Frame = Frame(id: nat)

  /** A request issued to a collaborator. */
  datatype Request =
    | StartCamera            // camera.startSession()
    | StopCamera             // camera.stopSession()
    | SnapPhoto              // camera.snapPhoto()
    | Utter(text: string)    // speech.utter(_:)
    | ResetSpeech            // speech.reset()
    | FindText(frame: Frame) // TextFinder(inputImage:).findText()
    | RunOcr(frame: Frame)   // textReader.runOCR(image:) on the image assembled from `frame`
    | ResetReader            // textReader.reset()

  const CameraPrompt: string := "Camera view. Tap to start."
  const ProcessingPrompt: string := "Processing."
  const NoTextPrompt: string := "No text found."

  /** The value of the state machine. `image` is the photo the camera holds,
      `finder` the photo of the current text finder, `reader` the text
      reader (once one exists). */
  datatype Machine = Machine(
    state: ReadTextState,
    running: bool,
    image: Option<Frame>,
    finder: Option<Frame>,
    reader: Option<Reader.ReaderView>,
    speech: Speech.Synth,
    log: seq<Request>)
  {
    /** `speech.utter(text)` */
    function Say(text: string): Machine
    {
      this.(speech := speech.Utter(text), log := log + [Utter(text)])
    }

    /** `liveView()`: start the camera session (a no-op when it runs). */
    function LiveView(): Machine
    {
      this.(running := true, log := log + [StartCamera])
    }

    /** `cameraSessionStarted()` */
    function CameraSessionStarted(): Machine
    {
      this.(state := ReadTextState.LiveView).Say(CameraPrompt)
    }

    /** `handleScreenTap()` */
    function HandleScreenTap(): Machine
    {
      if state.LiveView? then TakePhoto()
      else if state.IsolatingText? || state.RunningOcr? || state.Reading? then Cleanup()
      else this
    }

    /** `takePhoto()` */
    function TakePhoto(): Machine
    {
      if state.LiveView? then
        var m := this.(state := TakingPhoto).Say(ProcessingPrompt);
        m.(log := m.log + [SnapPhoto])
      else this
    }

    /** `doneTakingPhoto()`, after the camera has stored `photo` (absent when
        the capture failed): stop the camera session. */
    function DoneTakingPhoto(photo: Option<Frame>): Machine
    {
      this.(image := photo, running := false, log := log + [StopCamera])
    }

    /** `cameraSessionStopped()` */
    function CameraSessionStopped(): Machine
    {
      if image.Some? then
        this.(state := IsolatingText, finder := image, log := log + [FindText(image.value)])
      else Cleanup()
    }

    /** `doneFindingText()`: the finder reports `boxes` text regions; whether
        the photo can be re-oriented decides the assembly. */
    function DoneFindingText(boxes: nat, reoriented: bool): Machine
    {
      if state.IsolatingText? then
        if finder.Some? then
          if boxes == 0 then CleanupFrom(state)
          else ImageAssembly(reoriented)
        else Cleanup()
      else this
    }

    /** `imageAssembly()`, control flow only: `reoriented` is whether
        `ImageProcessor.fixOrientation` produced an image. */
    function ImageAssembly(reoriented: bool): Machine
    {
      if state.IsolatingText? then
        var m := this.(state := ImageProcessing);
        if m.finder.Some? then
          if reoriented then
            m.(reader := Some(Reader.Fresh), state := RunningOcr, log := m.log + [RunOcr(m.finder.value)])
          else m.Cleanup()
        else m.Cleanup()
      else this
    }

    /** `ocrComplete()` */
    function OcrComplete(): Machine
    {
      if state.RunningOcr? then
        if reader.Some? then
          match reader.value.recognized
          case Some(text) => if |text| > 0 then Reading(text) else Cleanup()
          case None => Cleanup()
        else Cleanup()
      else this
    }

    /** `reading(_:)` */
    function Reading(text: string): Machine
    {
      this.(state := ReadTextState.Reading).Say(text)
    }

    /** `doneSpeaking()`: two `if`s in a row, so the second sees the state the
        first may have set. */
    function DoneSpeaking(): Machine
    {
      var m := if state.Reading? then Cleanup() else this;
      if m.state.Cleanup? then m.LiveView() else m
    }

    /** `background()` */
    function Background(): Machine
    {
      this.(state := ReadTextState.Background).CleanupFrom(ReadTextState.Background)
    }

    /** `cleanup()` */
    function Cleanup(): Machine
    {
      var m := this.(state := ReadTextState.Cleanup, finder := None);
      var m' := if m.reader.Some? then
                  m.(reader := Some(m.reader.value.Reset()), log := m.log + [ResetReader])
                else m;
      if m'.speech.speaking then m'.(speech := m'.speech.Reset(), log := m'.log + [ResetSpeech])
      else m'.LiveView()
    }

    /** `cleanup(callingState:)` */
    function CleanupFrom(callingState: ReadTextState): Machine
    {
      match callingState
      case Background => this.(state := Initial)
      case Cleanup => LiveView()
      case IsolatingText => Cleanup().Say(NoTextPrompt)
      case _ => Cleanup()
    }

    /** `doneCancelingSpeeches()` */
    function DoneCancelingSpeeches(): Machine
    {
      CleanupFrom(state)
    }
  }

  /** A new machine: `initial`, camera off, nothing spoken, nothing issued. */
  const NewMachine := Machine(Initial, false, None, None, None, Speech.Idle, [])

  /** What can happen to the machine: a call from the view controller or a
      notification from a collaborator. */
  datatype Event =
    | LiveViewCalled                               // the host calls liveView()
    | ScreenTapped
    | CameraStarted                                // session-started notification
    | PhotoCaptured(photo: Option<Frame>)          // photo-captured notification
    | CameraStopped                                // session-stopped notification
    | TextDetected(boxes: nat, reoriented: bool)   // text-detection-complete notification
    | OcrFinished(output: Option<string>)          // the engine's output, then OCR-complete
    | SpeechFinished                               // the engine finished an utterance
    | SpeechCanceled                               // done-canceling notification
    | EnteredBackground

  function Step(m: Machine, e: Event): Machine
  {
    match e
    case LiveViewCalled => m.LiveView()
    case ScreenTapped => m.HandleScreenTap()
    case CameraStarted => m.CameraSessionStarted()
    case PhotoCaptured(photo) => m.DoneTakingPhoto(photo)
    case CameraStopped => m.CameraSessionStopped()
    case TextDetected(boxes, reoriented) => m.DoneFindingText(boxes, reoriented)
    case OcrFinished(output) =>
      // only an existing reader runs OCR and broadcasts its completion
      if m.reader.Some? then m.(reader := Some(m.reader.value.RunOcr(output))).OcrComplete() else m
    case SpeechFinished => m.(speech := m.speech.DidFinish()).DoneSpeaking()
    case SpeechCanceled => m.DoneCancelingSpeeches()
    case EnteredBackground => m.Background()
  }

  function Run(m: Machine, events: seq<Event>): Machine
    decreases |events|
  {
    if events == [] then m else Run(Step(m, events[0]), events[1..])
  }

  /** The machine object. */
  class ReadTextMachine {
    var currentState: ReadTextState
    /** whether the camera session runs */
    var running: bool
    /** the photo the camera holds */
    var image: Option<Frame>
    /** the current text finder, by the photo it works on */
    var textFinder: Option<Frame>
    var textReader: Reader.TextReader?
    const speech: Speech.SpeechSynthesizer
    ghost var log: seq<Request>

    ghost function View(): Machine
      reads this, speech, textReader
    {
      Machine(currentState, running, image, textFinder,
              if textReader == null then None else Some(textReader.View()),
              speech.View(), log)
    }

    constructor ()
      ensures View() == NewMachine
    {
      currentState := Initial;
      running := false;
      image := None;
      textFinder := None;
      textReader := null;
      speech := new Speech.SpeechSynthesizer();
      log := [];
    }

    /** `getCurrentState()` */
    method GetCurrentState() returns (state: ReadTextState)
      ensures state == View().state
    {
      state := currentState;
    }

    /** Utter `text` and record the request; shared by the handlers. */
    method Say(text: string)
      modifies speech, this`log
      ensures View() == old(View()).Say(text)
    {
      speech.Utter(text);
      log := log + [Utter(text)];
    }

    /** `liveView()` */
    method LiveView()
      modifies this`running, this`log
      ensures View() == old(View()).LiveView()
    {
      if !running {
        running := true;
      }
      log := log + [StartCamera];
    }

    /** `handleScreenTap()` */
    method HandleScreenTap()
      modifies this, speech, textReader
      ensures View() == old(View()).HandleScreenTap()
    {
      match currentState
      case LiveView =>
        TakePhoto();
      case IsolatingText | RunningOcr | Reading =>
        Cleanup();
      case _ =>
    }

    /** `cameraSessionStarted()` */
    method CameraSessionStarted()
      modifies this, speech
      ensures View() == old(View()).CameraSessionStarted()
    {
      currentState := ReadTextState.LiveView;
      Say(CameraPrompt);
    }

    /** `takePhoto()` */
    method TakePhoto()
      modifies this, speech
      ensures View() == old(View()).TakePhoto()
    {
      if currentState == ReadTextState.LiveView {
        currentState := TakingPhoto;
        Say(ProcessingPrompt);
        log := log + [SnapPhoto];
      }
    }

    /** `doneTakingPhoto()`, after the camera has stored `photo`. */
    method DoneTakingPhoto(photo: Option<Frame>)
      modifies this
      ensures View() == old(View()).DoneTakingPhoto(photo)
    {
      image := photo;
      if running {
        running := false;
      }
      log := log + [StopCamera];
    }

    /** `cameraSessionStopped()` */
    method CameraSessionStopped()
      modifies this, speech, textReader
      ensures View() == old(View()).CameraSessionStopped()
    {
      if image.Some? {
        currentState := IsolatingText;
        textFinder := image;
        log := log + [FindText(image.value)];
      } else {
        Cleanup();
      }
    }

    /** `doneFindingText()` */
    method DoneFindingText(boxes: nat, reoriented: bool)
      modifies this, speech, textReader
      ensures View() == old(View()).DoneFindingText(boxes, reoriented)
    {
      if currentState == IsolatingText {
        if textFinder.Some? {
          if boxes == 0 {
            CleanupFrom(currentState);
          } else {
            ImageAssembly(reoriented);
          }
        } else {
          Cleanup();
        }
      }
    }

    /** `imageAssembly()` */
    method ImageAssembly(reoriented: bool)
      modifies this, speech, textReader
      ensures View() == old(View()).ImageAssembly(reoriented)
    {
      if currentState == IsolatingText {
        currentState := ImageProcessing;
        if textFinder.Some? {
          if reoriented {
            textReader := new Reader.TextReader();
            currentState := RunningOcr;
            log := log + [RunOcr(textFinder.value)];
          } else {
            Cleanup();
          }
        } else {
          Cleanup();
        }
      }
    }

    /** `ocrComplete()` */
    method OcrComplete()
      modifies this, speech, textReader
      ensures View() == old(View()).OcrComplete()
    {
      if currentState == RunningOcr {
        if textReader != null {
          var identifiedText := textReader.GetRecognizedText();
          if identifiedText.Some? {
            if |identifiedText.value| > 0 {
              Reading(identifiedText.value);
            } else {
              Cleanup();
            }
          } else {
            Cleanup();
          }
        } else {
          Cleanup();
        }
      }
    }

    /** `reading(_:)` */
    method Reading(text: string)
      modifies this, speech
      ensures View() == old(View()).Reading(text)
    {
      currentState := ReadTextState.Reading;
      Say(text);
    }

    /** `doneSpeaking()` */
    method DoneSpeaking()
      modifies this, speech, textReader
      ensures View() == old(View()).DoneSpeaking()
    {
      if currentState == ReadTextState.Reading {
        Cleanup();
      }
      if currentState == ReadTextState.Cleanup {
        LiveView();
      }
    }

    /** `background()` */
    method Background()
      modifies this, speech, textReader
      ensures View() == old(View()).Background()
    {
      currentState := ReadTextState.Background;
      CleanupFrom(currentState);
    }

    /** `cleanup()` */
    method Cleanup()
      modifies this, speech, textReader
      ensures View() == old(View()).Cleanup()
      ensures textReader == old(textReader)
    {
      currentState := ReadTextState.Cleanup;
      textFinder := None;
      if textReader != null {
        textReader.Reset();
        log := log + [ResetReader];
      }
      if speech.speaking {
        speech.Reset();
        log := log + [ResetSpeech];
      } else {
        LiveView();
      }
    }

    /** `cleanup(callingState:)` */
    method CleanupFrom(callingState: ReadTextState)
      modifies this, speech, textReader
      ensures View() == old(View()).CleanupFrom(callingState)
    {
      match callingState
      case Background =>
        currentState := Initial;
      case Cleanup =>
        LiveView();
      case IsolatingText =>
        Cleanup();
        Say(NoTextPrompt);
      case _ =>
        Cleanup();
    }

    /** `doneCancelingSpeeches()` */
    method DoneCancelingSpeeches()
      modifies this, speech, textReader
      ensures View() == old(View()).DoneCancelingSpeeches()
    {
      CleanupFrom(currentState);
    }
  }
}
