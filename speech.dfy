/**
 * The speech synthesizer of WorldAloud: a FIFO queue of texts in front of a
 * speech engine that speaks one utterance at a time.
 *
 * The engine itself is abstracted as its `isSpeaking` flag. The texts handed
 * to the engine are recorded (ghost in the class) so that the order in which
 * they are spoken can be stated.
 */
module Speech {

  /** The value of a synthesizer: pending texts, whether the engine is busy,
      and every text the engine has been asked to speak, oldest first. */
  datatype Synth = Synth(queue: seq<string>, speaking: bool, spoken: seq<string>)
  {
    /** `utter()`: when the engine is idle, hand it the head of the queue. */
    function UtterNext(): Synth
    {
      if !speaking then
        if |queue| > 0 then Synth(queue[1..], true, spoken + [queue[0]])
        else this
      else this
    }

    /** `utter(_:)`: append the text, then try to speak. */
    function Utter(text: string): Synth
    {
      this.(queue := queue + [text]).UtterNext()
    }

    /** `reset()`: stop the engine at once and empty the queue. */
    function Reset(): Synth
    {
      this.(queue := [], speaking := false)
    }

    /** The engine's did-finish callback: the engine is idle again, and the
        next queued text, if any, is spoken. */
    function DidFinish(): Synth
    {
      var idle := this.(speaking := false);
      if |idle.queue| > 0 then idle.UtterNext() else idle
    }
  }

  /** A new synthesizer. */
  const Idle := Synth([], false, [])

  /** The calls a client makes on a synthesizer, for stating properties of a
      whole history of them. */
  datatype Op = Say(text: string) | Poll | Finished | Stop

  function Apply(s: Synth, op: Op): Synth
  {
    match op
    case Say(t) => s.Utter(t)
    case Poll => s.UtterNext()
    case Finished => s.DidFinish()
    case Stop => s.Reset()
  }

  function Run(s: Synth, ops: seq<Op>): Synth
    decreases |ops|
  {
    if ops == [] then s else Run(Apply(s, ops[0]), ops[1..])
  }

  /** The texts passed to `utter(_:)` in a history, in order. */
  function Texts(ops: seq<Op>): seq<string>
    decreases |ops|
  {
    if ops == [] then []
    else (if ops[0].Say? then [ops[0].text] else []) + Texts(ops[1..])
  }

  predicate NoReset(ops: seq<Op>)
  {
    forall i :: 0 <= i < |ops| ==> !ops[i].Stop?
  }

  // ---------------------------------------------------------------------------
  // Properties of single calls

  /** `utter(text)` puts `text` at the end of the queue before trying to speak:
      either the engine was idle with an empty queue and speaks `text` at once,
      or `text` is the last of the pending texts. */
  lemma UtterAppendsAtEnd(s: Synth, text: string)
    ensures var r := s.Utter(text);
      if !s.speaking && s.queue == [] then
        r.queue == [] && r.speaking && r.spoken == s.spoken + [text]
      else
        |r.queue| > 0 && r.queue[|r.queue| - 1] == text
  {
  }

  /** `utter()` on an idle engine with pending texts removes exactly the head
      and starts speaking it. */
  lemma UtterNextSpeaksHead(s: Synth)
    requires !s.speaking && |s.queue| > 0
    ensures s.UtterNext() == Synth(s.queue[1..], true, s.spoken + [s.queue[0]])
  {
  }

  /** `utter()` while speaking, or with nothing queued, changes nothing. */
  lemma UtterNextIdleOrBusyUnchanged(s: Synth)
    requires s.speaking || s.queue == []
    ensures s.UtterNext() == s
  {
  }

  /** `reset()` leaves the queue empty and the engine idle, and forgets no
      text already spoken. */
  lemma ResetEmpties(s: Synth)
    ensures s.Reset().queue == [] && !s.Reset().speaking && s.Reset().spoken == s.spoken
    ensures s.Reset().Reset() == s.Reset()
  {
  }

  /** Finishing an utterance starts the next queued text, if any. */
  lemma DidFinishDequeues(s: Synth)
    ensures |s.queue| > 0 ==> s.DidFinish() == Synth(s.queue[1..], true, s.spoken + [s.queue[0]])
    ensures s.queue == [] ==> s.DidFinish() == s.(speaking := false)
  {
  }

  /** Every call adds at most one text to the engine's history, and only when
      the engine was idle (or had just finished): the engine is never handed a
      text while another is in flight. */
  lemma {:induction false} OneInFlight(s: Synth, op: Op)
    ensures var r := Apply(s, op);
      |r.spoken| <= |s.spoken| + 1 &&
      r.spoken[..|s.spoken|] == s.spoken &&
      (|r.spoken| == |s.spoken| + 1 ==> (!s.speaking || op.Finished?) && r.speaking)
  {
    match op
    case Say(t) =>
    case Poll =>
    case Finished =>
    case Stop =>
  }

  /** An idle engine has nothing waiting: a text is only ever queued behind
      one in flight. */
  predicate Settled(s: Synth)
  {
    !s.speaking ==> s.queue == []
  }

  /** Every call keeps the engine settled. */
  lemma {:induction false} ApplyKeepsSettled(s: Synth, op: Op)
    requires Settled(s)
    ensures Settled(Apply(s, op))
  {
    match op
    case Say(t) =>
    case Poll =>
    case Finished =>
    case Stop =>
  }

  /** A new synthesizer is settled and stays so over any history of calls:
      no text is ever left waiting while the engine is idle. */
  lemma {:induction false} RunKeepsSettled(s: Synth, ops: seq<Op>)
    requires Settled(s)
    ensures Settled(Idle)
    ensures Settled(Run(s, ops))
    decreases |ops|
  {
    if ops != [] {
      ApplyKeepsSettled(s, ops[0]);
      RunKeepsSettled(Apply(s, ops[0]), ops[1..]);
    }
  }

  /** One call keeps the order of texts: what has been spoken followed by what
      is queued only grows by the text passed to `utter(_:)`. */
  lemma {:induction false} ApplyKeepsOrder(s: Synth, op: Op)
    requires !op.Stop?
    ensures Apply(s, op).spoken + Apply(s, op).queue
         == s.spoken + s.queue + (if op.Say? then [op.text] else [])
  {
    match op
    case Say(t) =>
      var q := s.queue + [t];
      if !s.speaking && |q| > 0 {
        assert [q[0]] + q[1..] == q;
        assert s.spoken + [q[0]] + q[1..] == s.spoken + q;
      }
    case Poll =>
      if !s.speaking && |s.queue| > 0 {
        assert [s.queue[0]] + s.queue[1..] == s.queue;
        assert s.spoken + [s.queue[0]] + s.queue[1..] == s.spoken + s.queue;
      }
    case Finished =>
      if |s.queue| > 0 {
        assert [s.queue[0]] + s.queue[1..] == s.queue;
        assert s.spoken + [s.queue[0]] + s.queue[1..] == s.spoken + s.queue;
      }
  }

  /** FIFO: without a reset, the texts are spoken in the order in which they
      were passed to `utter(_:)`, and none is lost: every text is either in the
      engine's history or still queued, in order. */
  lemma {:induction false} FifoOrder(s: Synth, ops: seq<Op>)
    requires NoReset(ops)
    ensures Run(s, ops).spoken + Run(s, ops).queue == s.spoken + s.queue + Texts(ops)
    decreases |ops|
  {
    if ops != [] {
      var s1 := Apply(s, ops[0]);
      ApplyKeepsOrder(s, ops[0]);
      assert NoReset(ops[1..]) by {
        forall i | 0 <= i < |ops[1..]| ensures !ops[1..][i].Stop? {
          assert ops[1..][i] == ops[i + 1];
        }
      }
      FifoOrder(s1, ops[1..]);
      var head := if ops[0].Say? then [ops[0].text] else [];
      assert Texts(ops) == head + Texts(ops[1..]);
      assert Run(s, ops) == Run(s1, ops[1..]);
      calc {
        Run(s, ops).spoken + Run(s, ops).queue;
        s1.spoken + s1.queue + Texts(ops[1..]);
        s.spoken + s.queue + head + Texts(ops[1..]);
        s.spoken + s.queue + (head + Texts(ops[1..]));
      }
    }
  }

  // ---------------------------------------------------------------------------
  // The synthesizer object

  class SpeechSynthesizer {
    var queue: seq<string>
    /** `AVSpeechSynthesizer.isSpeaking` */
    var speaking: bool
    ghost var spoken: seq<string>
    /** Done-speaking notifications broadcast so far. */
    ghost var doneNotices: nat

    ghost function View(): Synth
      reads this
    {
      Synth(queue, speaking, spoken)
    }

    constructor ()
      ensures View() == Idle && doneNotices == 0
    {
      queue := [];
      speaking := false;
      spoken := [];
      doneNotices := 0;
    }

    /** `utter()` */
    method UtterNext()
      modifies this
      ensures View() == old(View()).UtterNext()
      ensures doneNotices == old(doneNotices)
    {
      if !speaking {
        if |queue| > 0 {
          var speechString := queue[0];
          queue := queue[1..];
          speaking := true;
          spoken := spoken + [speechString];
        }
      }
    }

    /** `utter(_:)` */
    method Utter(text: string)
      modifies this
      ensures View() == old(View()).Utter(text)
      ensures doneNotices == old(doneNotices)
    {
      queue := queue + [text];
      UtterNext();
    }

    /** `reset()` */
    method Reset()
      modifies this
      ensures View() == old(View()).Reset()
      ensures doneNotices == old(doneNotices)
    {
      if speaking {
        speaking := false;
      }
      queue := [];
    }

    /** `speechSynthesizer(_:didFinish:)`: speaks the next queued text and
        broadcasts exactly one done-speaking notification. */
    method DidFinish()
      modifies this
      ensures View() == old(View()).DidFinish()
      ensures doneNotices == old(doneNotices) + 1
    {
      speaking := false;
      if |queue| > 0 {
        UtterNext();
      }
      doneNotices := doneNotices + 1;
    }
  }
}
