/**
 * Properties of the read-text state machine, stated about the `Machine`
 * value and its handlers (which the `ReadTextMachine` object follows exactly).
 */
module ReadTextProperties {
  import opened Options
  import Speech
  import Reader
  import opened ReadText

  // ---------------------------------------------------------------------------
  // Requests issued by a step

  /** `m'` issued requests on top of those of `m`, none of them an OCR request. */
  predicate GrowsWithoutOcr(m: Machine, m': Machine)
  {
    && |m.log| <= |m'.log|
    && m'.log[..|m.log|] == m.log
    && forall k :: |m.log| <= k < |m'.log| ==> !m'.log[k].RunOcr?
  }

  lemma {:induction false} GrowsWithoutOcrTrans(a: Machine, b: Machine, c: Machine)
    requires GrowsWithoutOcr(a, b) && GrowsWithoutOcr(b, c)
    ensures GrowsWithoutOcr(a, c)
  {
    assert c.log[..|a.log|] == c.log[..|b.log|][..|a.log|];
  }

  lemma SayGrows(m: Machine, text: string)
    ensures GrowsWithoutOcr(m, m.Say(text))
  {
    assert m.Say(text).log[..|m.log|] == m.log;
  }

  lemma LiveViewGrows(m: Machine)
    ensures GrowsWithoutOcr(m, m.LiveView())
  {
    assert m.LiveView().log[..|m.log|] == m.log;
  }

  lemma {:induction false} CleanupGrows(m: Machine)
    ensures GrowsWithoutOcr(m, m.Cleanup())
  {
    var m0 := m.(state := ReadTextState.Cleanup, finder := None);
    var m1 := if m0.reader.Some? then
                m0.(reader := Some(m0.reader.value.Reset()), log := m0.log + [ResetReader])
              else m0;
    assert GrowsWithoutOcr(m, m1) by {
      assert m1.log[..|m.log|] == m.log;
    }
    if m1.speech.speaking {
      var m2 := m1.(speech := m1.speech.Reset(), log := m1.log + [ResetSpeech]);
      assert m2.log[..|m1.log|] == m1.log;
      GrowsWithoutOcrTrans(m, m1, m2);
    } else {
      LiveViewGrows(m1);
      GrowsWithoutOcrTrans(m, m1, m1.LiveView());
    }
  }

  lemma {:induction false} CleanupFromGrows(m: Machine, callingState: ReadTextState)
    ensures GrowsWithoutOcr(m, m.CleanupFrom(callingState))
  {
    match callingState
    case Background =>
    case Cleanup => LiveViewGrows(m);
    case IsolatingText =>
      CleanupGrows(m);
      SayGrows(m.Cleanup(), NoTextPrompt);
      GrowsWithoutOcrTrans(m, m.Cleanup(), m.Cleanup().Say(NoTextPrompt));
    case _ => CleanupGrows(m);
  }

  /** A step issues requests only on top of the ones issued before, and the
      only step that issues an OCR request is a text detection reporting at
      least one region, in `isolatingText`, on a photo that re-orients; the
      request is for the finder's photo. Recognition therefore never starts
      without a preceding detection phase. */
  lemma {:induction false} OcrRequestOnlyAfterDetection(m: Machine, e: Event)
    ensures |m.log| <= |Step(m, e).log| && Step(m, e).log[..|m.log|] == m.log
    ensures !GrowsWithoutOcr(m, Step(m, e))
            ==> m.state.IsolatingText? && m.finder.Some? && e.TextDetected? && e.boxes > 0 && e.reoriented
                && Step(m, e).log == m.log + [RunOcr(m.finder.value)]
  {
    match e
    case LiveViewCalled => LiveViewGrows(m);
    case ScreenTapped =>
      if m.state.LiveView? {
        var t := m.(state := TakingPhoto).Say(ProcessingPrompt);
        SayGrows(m.(state := TakingPhoto), ProcessingPrompt);
        assert t.(log := t.log + [SnapPhoto]).log[..|t.log|] == t.log;
        GrowsWithoutOcrTrans(m, t, t.(log := t.log + [SnapPhoto]));
      } else {
        CleanupGrows(m);
      }
    case CameraStarted =>
      SayGrows(m.(state := ReadTextState.LiveView), CameraPrompt);
    case PhotoCaptured(photo) =>
      assert m.DoneTakingPhoto(photo).log[..|m.log|] == m.log;
    case CameraStopped =>
      if m.image.Some? {
        assert m.CameraSessionStopped().log[..|m.log|] == m.log;
      } else {
        CleanupGrows(m);
      }
    case TextDetected(boxes, reoriented) =>
      if m.state.IsolatingText? && m.finder.Some? {
        if boxes == 0 {
          CleanupFromGrows(m, m.state);
        } else if !reoriented {
          CleanupGrows(m.(state := ImageProcessing));
        } else {
          assert Step(m, e).log[..|m.log|] == m.log;
        }
      } else if m.state.IsolatingText? {
        CleanupGrows(m);
      }
    case OcrFinished(output) =>
      if m.reader.Some? {
        var m1 := m.(reader := Some(m.reader.value.RunOcr(output)));
        if m1.state.RunningOcr? {
          match m1.reader.value.recognized
          case Some(text) =>
            if |text| > 0 {
              SayGrows(m1.(state := ReadTextState.Reading), text);
            } else {
              CleanupGrows(m1);
            }
          case None => CleanupGrows(m1);
        }
      }
    case SpeechFinished =>
      var m1 := m.(speech := m.speech.DidFinish());
      var m2 := if m1.state.Reading? then m1.Cleanup() else m1;
      if m1.state.Reading? {
        CleanupGrows(m1);
      }
      if m2.state.Cleanup? {
        LiveViewGrows(m2);
        GrowsWithoutOcrTrans(m1, m2, m2.LiveView());
      }
    case SpeechCanceled => CleanupFromGrows(m, m.state);
    case EnteredBackground =>
      CleanupFromGrows(m.(state := ReadTextState.Background), ReadTextState.Background);
  }

  // ---------------------------------------------------------------------------
  // An invariant of every reachable machine

  /** Every OCR request in the log comes after a text-finding request for the
      same photo. */
  predicate OcrAfterDetection(log: seq<Request>)
  {
    forall i :: 0 <= i < |log| && log[i].RunOcr? ==> FindText(log[i].frame) in log[..i]
  }

  /** The shape of a machine between two events: `isolatingText` always has
      a finder and `runningOCR` a reader, and the transient `imageProcessing`
      and `background` states are never seen. */
  predicate Shape(m: Machine)
  {
    && (m.state.IsolatingText? ==> m.finder.Some?)
    && (m.state.RunningOcr? ==> m.reader.Some?)
    && !m.state.ImageProcessing?
    && !m.state.Background?
  }

  /** The invariant kept by every step: the ordering above, the finder's photo
      was sent to text finding, and the shape above. */
  predicate Inv(m: Machine)
  {
    && OcrAfterDetection(m.log)
    && (m.finder.Some? ==> FindText(m.finder.value) in m.log)
    && Shape(m)
  }

  lemma {:induction false} GrowsKeepsOrdering(m: Machine, m': Machine)
    requires OcrAfterDetection(m.log) && GrowsWithoutOcr(m, m')
    ensures OcrAfterDetection(m'.log)
    ensures forall r :: r in m.log ==> r in m'.log
  {
    forall i | 0 <= i < |m'.log| && m'.log[i].RunOcr?
      ensures FindText(m'.log[i].frame) in m'.log[..i]
    {
      assert i < |m.log|;
      assert m'.log[i] == m.log[i];
      assert m'.log[..i] == m.log[..i];
    }
    forall r | r in m.log ensures r in m'.log {
      var k :| 0 <= k < |m.log| && m.log[k] == r;
      assert m'.log[k] == r;
    }
  }

  /** Where a step's finder comes from: it is dropped, kept, or (on session
      stopped) the camera's photo, sent to text finding by that very step. */
  lemma {:induction false} StepKeepsShape(m: Machine, e: Event)
    requires Shape(m)
    ensures Shape(Step(m, e))
    ensures var r := Step(m, e);
      r.finder.None? || r.finder == m.finder
      || (e.CameraStopped? && m.image.Some? && r.finder == m.image && r.log == m.log + [FindText(m.image.value)])
  {
    match e
    case LiveViewCalled =>
    case ScreenTapped => CleanupEffects(m);
    case CameraStarted =>
    case PhotoCaptured(photo) =>
    case CameraStopped => CleanupEffects(m);
    case TextDetected(boxes, reoriented) =>
      CleanupEffects(m);
      CleanupEffects(m.(state := ImageProcessing));
      CleanupEffects(m.Cleanup());
    case OcrFinished(output) =>
      if m.reader.Some? {
        CleanupEffects(m.(reader := Some(m.reader.value.RunOcr(output))));
      }
    case SpeechFinished =>
      CleanupEffects(m.(speech := m.speech.DidFinish()));
    case SpeechCanceled =>
      CleanupEffects(m);
    case EnteredBackground =>
  }

  lemma {:induction false} StepKeepsInv(m: Machine, e: Event)
    requires Inv(m)
    ensures Inv(Step(m, e))
  {
    var r := Step(m, e);
    StepKeepsShape(m, e);
    OcrRequestOnlyAfterDetection(m, e);
    if GrowsWithoutOcr(m, r) {
      GrowsKeepsOrdering(m, r);
    } else {
      var f := m.finder.value;
      forall i | 0 <= i < |r.log| && r.log[i].RunOcr?
        ensures FindText(r.log[i].frame) in r.log[..i]
      {
        if i < |m.log| {
          assert r.log[..i] == m.log[..i];
        } else {
          assert r.log[..i] == m.log;
        }
      }
    }
  }

  lemma {:induction false} RunKeepsInv(m: Machine, events: seq<Event>)
    requires Inv(m)
    ensures Inv(Run(m, events))
    decreases |events|
  {
    if events != [] {
      StepKeepsInv(m, events[0]);
      RunKeepsInv(Step(m, events[0]), events[1..]);
    }
  }

  /** Every machine reachable from a new one keeps the invariant; in
      particular every OCR request it ever issues follows a text-finding
      request for the same photo. */
  lemma ReachableInv(events: seq<Event>)
    ensures Inv(Run(NewMachine, events))
  {
    RunKeepsInv(NewMachine, events);
  }

  // ---------------------------------------------------------------------------
  // Handlers, one by one

  /** A new machine is in `initial` with nothing issued, and `liveView` is
      entered only through the session-started notification, which queues
      the camera prompt. */
  lemma {:induction false} LiveViewOnlyOnSessionStart(m: Machine, e: Event)
    ensures NewMachine.state.Initial? && NewMachine.log == []
    ensures Step(m, CameraStarted).state.LiveView?
    ensures Step(m, CameraStarted).log == m.log + [Utter(CameraPrompt)]
    ensures Step(m, CameraStarted).speech == m.speech.Utter(CameraPrompt)
    ensures !m.state.LiveView? && Step(m, e).state.LiveView? ==> e == CameraStarted
  {
    match e
    case ScreenTapped =>
    case CameraStopped =>
    case TextDetected(boxes, reoriented) =>
    case OcrFinished(output) =>
    case SpeechFinished =>
    case SpeechCanceled =>
    case _ =>
  }

  /** Tap in `liveView`: `takingPhoto`, "Processing." queued and exactly one
      snap request; in `isolatingText`, `runningOCR` or `reading`: cleanup;
      anywhere else: nothing at all. */
  lemma TapByState(m: Machine)
    ensures m.state.LiveView? ==>
      var r := Step(m, ScreenTapped);
      && r.state.TakingPhoto?
      && r.log == m.log + [Utter(ProcessingPrompt), SnapPhoto]
      && r.speech == m.speech.Utter(ProcessingPrompt)
      && r.(state := m.state, speech := m.speech, log := m.log) == m
    ensures m.state.IsolatingText? || m.state.RunningOcr? || m.state.Reading? ==>
      Step(m, ScreenTapped) == m.Cleanup()
    ensures !(m.state.LiveView? || m.state.IsolatingText? || m.state.RunningOcr? || m.state.Reading?) ==>
      Step(m, ScreenTapped) == m
  {
  }

  /** Session stopped: with a photo, `isolatingText` and exactly one
      text-finding request on that photo; without one, cleanup. */
  lemma SessionStopped(m: Machine)
    ensures m.image.Some? ==>
      var r := Step(m, CameraStopped);
      && r.state.IsolatingText? && r.finder == m.image
      && r.log == m.log + [FindText(m.image.value)]
      && r.speech == m.speech && r.running == m.running
    ensures m.image.None? ==> Step(m, CameraStopped) == m.Cleanup()
  {
  }

  /** A photo capture stores the photo and stops the camera, whatever the state. */
  lemma PhotoCapturedStopsCamera(m: Machine, photo: Option<Frame>)
    ensures var r := Step(m, PhotoCaptured(photo));
      r.image == photo && !r.running && r.log == m.log + [StopCamera] && r.state == m.state
  {
  }

  /** Text detection: ignored outside `isolatingText`. Zero regions: cleanup,
      then "No text found." and no OCR request. Otherwise assembly, ending in
      `runningOCR` with a fresh reader and one OCR request on the finder's
      photo, or in cleanup when the photo cannot be re-oriented. */
  lemma TextDetection(m: Machine, boxes: nat, reoriented: bool)
    ensures !m.state.IsolatingText? ==> Step(m, TextDetected(boxes, reoriented)) == m
    ensures m.state.IsolatingText? && m.finder.Some? && boxes == 0 ==>
      Step(m, TextDetected(boxes, reoriented)) == m.Cleanup().Say(NoTextPrompt)
    ensures m.state.IsolatingText? && m.finder.Some? && boxes > 0 && reoriented ==>
      var r := Step(m, TextDetected(boxes, reoriented));
      && r.state.RunningOcr? && r.reader == Some(Reader.Fresh)
      && r.log == m.log + [RunOcr(m.finder.value)]
      && r.speech == m.speech
    ensures m.state.IsolatingText? && m.finder.Some? && boxes > 0 && !reoriented ==>
      Step(m, TextDetected(boxes, reoriented)) == m.(state := ImageProcessing).Cleanup()
  {
  }

  /** With zero regions no OCR request is issued and the only utterance is
      "No text found." (after whatever cleanup's own requests are). */
  lemma {:induction false} NoRegionsNoOcr(m: Machine, reoriented: bool)
    requires m.state.IsolatingText? && m.finder.Some?
    ensures var r := Step(m, TextDetected(0, reoriented));
      && r.state.Cleanup?
      && (forall k :: |m.log| <= k < |r.log| ==> !r.log[k].RunOcr?)
      && r.log[|r.log| - 1] == Utter(NoTextPrompt)
      && (forall k :: |m.log| <= k < |r.log| - 1 ==> !r.log[k].Utter?)
  {
    var c := m.Cleanup();
    CleanupGrows(m);
    CleanupEffects(m);
    assert Step(m, TextDetected(0, reoriented)) == c.Say(NoTextPrompt);
  }

  /** OCR completion: ignored outside `runningOCR` (beyond the reader storing
      the engine's output). A non-empty text moves to `reading` and utters
      exactly that text; no text or an empty one runs cleanup. */
  lemma OcrCompletion(m: Machine, output: Option<string>)
    requires m.reader.Some?
    ensures var stored := m.(reader := Some(m.reader.value.RunOcr(output)));
      && (!m.state.RunningOcr? ==> Step(m, OcrFinished(output)) == stored)
      && (m.state.RunningOcr? && output.Some? && |output.value| > 0 ==>
            var r := Step(m, OcrFinished(output));
            r.state.Reading? && r.log == m.log + [Utter(output.value)]
            && r.speech == m.speech.Utter(output.value))
      && (m.state.RunningOcr? && (output.None? || output == Some("")) ==>
            Step(m, OcrFinished(output)) == stored.Cleanup())
  {
  }

  /** Cleanup: `cleanup` state, no finder, the reader (if any) reset, and then
      either a speech reset (when speaking) or a live-view restart, never
      both; speech is idle afterwards. */
  lemma CleanupEffects(m: Machine)
    ensures var r := m.Cleanup();
      && r.state.Cleanup? && r.finder.None?
      && r.reader == (if m.reader.Some? then Some(m.reader.value.Reset()) else None)
      && r.log == m.log + (if m.reader.Some? then [ResetReader] else [])
                        + (if m.speech.speaking then [ResetSpeech] else [StartCamera])
      && (m.speech.speaking ==> r.speech == m.speech.Reset() && r.running == m.running)
      && (!m.speech.speaking ==> r.speech == m.speech && r.running)
      && !r.speech.speaking
  {
  }

  /** The machine without its request log. */
  function Quiet(m: Machine): Machine
  {
    m.(log := [])
  }

  /** A second cleanup right after a first changes nothing but the request log
      exactly when the first did not leave the camera off: when the first had
      to stop speech with the camera off, the second restarts the camera. */
  lemma {:induction false} CleanupTwice(m: Machine)
    ensures Quiet(m.Cleanup().Cleanup()) == Quiet(m.Cleanup())
            <==> !m.speech.speaking || m.running
  {
    CleanupEffects(m);
    CleanupEffects(m.Cleanup());
    if m.reader.Some? {
      var rd := m.reader.value;
      assert rd.Reset().Reset() == rd.Reset();
    }
  }

  /** Done speaking: in `reading`, cleanup and then a live-view restart; in
      `cleanup`, a live-view restart; elsewhere, nothing. */
  lemma DoneSpeakingByState(m: Machine)
    ensures m.state.Reading? ==> m.DoneSpeaking() == m.Cleanup().LiveView()
    ensures m.state.Cleanup? ==> m.DoneSpeaking() == m.LiveView()
    ensures !m.state.Reading? && !m.state.Cleanup? ==> m.DoneSpeaking() == m
  {
  }

  /** Backgrounding always ends in `initial` and issues nothing: no camera and
      no speech request. */
  lemma BackgroundToInitial(m: Machine)
    ensures Step(m, EnteredBackground) == m.(state := Initial)
  {
  }

  /** Done canceling speech: in `cleanup`, a live-view restart; in
      `isolatingText`, cleanup then "No text found."; elsewhere cleanup. */
  lemma DoneCancelingByState(m: Machine)
    ensures m.state.Cleanup? ==> Step(m, SpeechCanceled) == m.LiveView()
    ensures m.state.IsolatingText? ==> Step(m, SpeechCanceled) == m.Cleanup().Say(NoTextPrompt)
    ensures !m.state.Cleanup? && !m.state.IsolatingText? && !m.state.Background? ==>
            Step(m, SpeechCanceled) == m.Cleanup()
  {
  }

  // ---------------------------------------------------------------------------
  // Cancellation and its limits

  /** Tapping during OCR cleans up, and an OCR result arriving afterwards is
      ignored by the state check: the text is stored in the reader but never
      uttered, and no other request is issued. */
  lemma {:induction false} CancelDuringOcr(m: Machine, output: Option<string>)
    requires m.state.RunningOcr? && m.reader.Some?
    ensures var c := Step(m, ScreenTapped);
      var r := Step(c, OcrFinished(output));
      && c.state.Cleanup?
      && r.state == c.state && r.log == c.log && r.speech == c.speech
  {
    CleanupEffects(m);
  }

  /** Done-speaking in `reading` does not ask which utterance finished: when a
      status prompt finishes while the recognized text still waits in the
      queue, the text is handed to the engine and stopped at once by cleanup,
      and the camera restarts. */
  lemma {:induction false} PromptEndingCutsReading(m: Machine, text: string)
    requires m.state.Reading? && m.speech.speaking && m.speech.queue == [text]
    ensures var r := Step(m, SpeechFinished);
      && r.state.Cleanup? && r.running
      && r.speech == Speech.Synth([], false, m.speech.spoken + [text])
      && r.log == m.log + (if m.reader.Some? then [ResetReader] else []) + [ResetSpeech, StartCamera]
  {
    var s := m.speech.DidFinish();
    assert s == Speech.Synth([], true, m.speech.spoken + [text]);
    CleanupEffects(m.(speech := s));
  }

  // ---------------------------------------------------------------------------
  // A whole pass

  /** Running a list of events through a list of machines each of which is
      the step of the one before gives the last machine. */
  lemma {:induction false} RunThrough(ms: seq<Machine>, events: seq<Event>)
    requires |ms| == |events| + 1
    requires forall i :: 0 <= i < |events| ==> Step(ms[i], events[i]) == ms[i + 1]
    ensures Run(ms[0], events) == ms[|events|]
    decreases |events|
  {
    if events != [] {
      RunThrough(ms[1..], events[1..]);
    }
  }

  /** The events of a pass where everything succeeds, for photo `f` and
      recognised text `h`. */
  function HappyEvents(f: Frame, h: string): seq<Event>
  {
    [LiveViewCalled, CameraStarted, SpeechFinished, ScreenTapped,
     PhotoCaptured(Some(f)), SpeechFinished, CameraStopped,
     TextDetected(2, true), OcrFinished(Some(h)),
     SpeechFinished, CameraStarted]
  }

  /** The machine after each of those events. */
  function HappyMachines(f: Frame, h: string): seq<Machine>
  {
    var cp, pp := CameraPrompt, ProcessingPrompt;
    var l4 := [StartCamera, Utter(cp), Utter(pp), SnapPhoto];
    var l8 := l4 + [StopCamera, FindText(f), RunOcr(f), Utter(h)];
    var m2 := Machine(ReadTextState.LiveView, true, None, None, None,
                      Speech.Synth([], true, [cp]), [StartCamera, Utter(cp)]);
    var m3 := m2.(speech := Speech.Synth([], false, [cp]));
    var m4 := m3.(state := TakingPhoto, speech := Speech.Synth([], true, [cp, pp]), log := l4);
    var m5 := m4.(image := Some(f), running := false, log := l4 + [StopCamera]);
    var m6 := m5.(speech := Speech.Synth([], false, [cp, pp]));
    var m7 := m6.(state := IsolatingText, finder := Some(f), log := l4 + [StopCamera, FindText(f)]);
    var m8 := m7.(state := RunningOcr, reader := Some(Reader.Fresh),
                  log := l4 + [StopCamera, FindText(f), RunOcr(f)]);
    var m9 := m8.(state := ReadTextState.Reading, reader := Some(Reader.ReaderView(false, Some(h), 1)),
                  speech := Speech.Synth([], true, [cp, pp, h]), log := l8);
    var m10 := m9.(state := ReadTextState.Cleanup, running := true, finder := None,
                   speech := Speech.Synth([], false, [cp, pp, h]),
                   log := l8 + [ResetReader, StartCamera, StartCamera]);
    var m11 := m10.(state := ReadTextState.LiveView, speech := Speech.Synth([], true, [cp, pp, h, cp]),
                    log := l8 + [ResetReader, StartCamera, StartCamera, Utter(cp)]);
    [NewMachine, Machine(Initial, true, None, None, None, Speech.Idle, [StartCamera]),
     m2, m3, m4, m5, m6, m7, m8, m9, m10, m11]
  }

  lemma HappyStepsCapture(f: Frame, h: string)
    ensures forall i :: 0 <= i < 5 ==>
      Step(HappyMachines(f, h)[i], HappyEvents(f, h)[i]) == HappyMachines(f, h)[i + 1]
  {
    var ms, es := HappyMachines(f, h), HappyEvents(f, h);
    assert Step(ms[0], es[0]) == ms[1];
    assert Step(ms[1], es[1]) == ms[2];
    assert Step(ms[2], es[2]) == ms[3];
    assert Step(ms[3], es[3]) == ms[4];
    assert Step(ms[4], es[4]) == ms[5];
  }

  lemma HappyStepsRecognise(f: Frame, h: string)
    requires |h| > 0
    ensures forall i :: 5 <= i < 9 ==>
      Step(HappyMachines(f, h)[i], HappyEvents(f, h)[i]) == HappyMachines(f, h)[i + 1]
  {
    var ms, es := HappyMachines(f, h), HappyEvents(f, h);
    assert Step(ms[5], es[5]) == ms[6];
    assert Step(ms[6], es[6]) == ms[7];
    assert Step(ms[7], es[7]) == ms[8];
    assert Step(ms[8], es[8]) == ms[9];
  }

  lemma HappyStepsFinish(f: Frame, h: string)
    ensures forall i :: 9 <= i < 11 ==>
      Step(HappyMachines(f, h)[i], HappyEvents(f, h)[i]) == HappyMachines(f, h)[i + 1]
  {
    var ms, es := HappyMachines(f, h), HappyEvents(f, h);
    var s := ms[9].(speech := ms[9].speech.DidFinish());
    assert s.speech == Speech.Synth([], false, [CameraPrompt, ProcessingPrompt, h]);
    assert s.Cleanup() == ms[10].(log := ms[9].log + [ResetReader, StartCamera]);
    assert Step(ms[9], es[9]) == ms[10];
    assert Step(ms[10], es[10]) == ms[11];
  }

  /** The pass where everything succeeds, for any photo `f` and any
      recognised text `h`: the camera starts, a tap takes the photo, detection
      finds two regions, OCR reads `h`, which is spoken; when it has been
      spoken the machine cleans up and, once the camera session is up again,
      is back in `liveView`. */
  lemma {:induction false} HappyPath(f: Frame, h: string)
    requires |h| > 0
    ensures var m := Run(NewMachine, HappyEvents(f, h));
      && m.state.LiveView? && m.running
      && m.speech.spoken == [CameraPrompt, ProcessingPrompt, h, CameraPrompt]
      && m.log == [StartCamera, Utter(CameraPrompt), Utter(ProcessingPrompt), SnapPhoto,
                   StopCamera, FindText(f), RunOcr(f), Utter(h),
                   ResetReader, StartCamera, StartCamera, Utter(CameraPrompt)]
  {
    HappyStepsCapture(f, h);
    HappyStepsRecognise(f, h);
    HappyStepsFinish(f, h);
    RunThrough(HappyMachines(f, h), HappyEvents(f, h));
  }
}
