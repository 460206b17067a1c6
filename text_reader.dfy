/**
 * The OCR text reader of WorldAloud: it keeps the text recognised last and a
 * one-shot "cancel the ongoing request" flag that the OCR engine polls.
 *
 * The OCR engine is abstracted: its output is a parameter of `RunOcr`.
 */
module Reader {
  import opened Options

  /** The value of a reader: the cancel flag, the text recognised last, and
      the OCR-complete notifications it has broadcast. */
  datatype ReaderView = ReaderView(cancel: bool, recognized: Option<string>, notices: nat)
  {
    /** `shouldCancelImageRecognition(for:)`: report the flag and clear it.
        The first component is the answer, the second the reader afterwards. */
    function ShouldCancel(): (p: (bool, ReaderView))
      ensures p.0 == cancel
      ensures !p.1.cancel
      ensures p.1.recognized == recognized && p.1.notices == notices
    {
      if cancel then (true, this.(cancel := false)) else (false, this)
    }

    /** `reset()`: raise the flag, then consult it through the poll above. */
    function Reset(): (r: ReaderView)
      ensures !r.cancel
      ensures r.recognized == recognized && r.notices == notices
    {
      this.(cancel := true).ShouldCancel().1
    }

    /** `runOCR(image:)` with the engine's `recognizedText` as `output`: store
        it and broadcast one OCR-complete notification. */
    function RunOcr(output: Option<string>): (r: ReaderView)
      ensures r.recognized == output && r.cancel == cancel
      ensures r.notices == notices + 1
    {
      this.(recognized := output, notices := notices + 1)
    }
  }

  /** A new reader: flag down, nothing recognised yet. */
  const Fresh := ReaderView(false, None, 0)

  /** The flag is one-shot: two polls in a row never both answer true. */
  lemma NeverCancelsTwice(r: ReaderView)
    ensures !(r.ShouldCancel().0 && r.ShouldCancel().1.ShouldCancel().0)
  {
  }

  /** `reset()` always takes its "request cancelled" branch: the poll it makes
      answers true. */
  lemma ResetTakesCancelledBranch(r: ReaderView)
    ensures r.(cancel := true).ShouldCancel().0
    ensures r.Reset() == r.(cancel := true).ShouldCancel().1
  {
  }

  /** Because `reset()` consumes its own flag, the OCR engine's next poll after
      a reset answers false: the reset never reaches the engine. */
  lemma PollAfterResetAnswersFalse(r: ReaderView)
    ensures !r.Reset().ShouldCancel().0
    ensures r.Reset().ShouldCancel().1 == r.Reset()
  {
  }

  /** `getRecognizedText()` after `runOCR` gives the engine's output, and
      a later `reset()` does not change it. */
  lemma ResetKeepsRecognizedText(r: ReaderView, output: Option<string>)
    ensures r.RunOcr(output).Reset().recognized == output
  {
  }

  class TextReader {
    var cancelOngoingRequest: bool
    var recognizedText: Option<string>
    /** OCR-complete notifications broadcast so far. */
    ghost var notices: nat

    ghost function View(): ReaderView
      reads this
    {
      ReaderView(cancelOngoingRequest, recognizedText, notices)
    }

    constructor ()
      ensures View() == Fresh
    {
      cancelOngoingRequest := false;
      recognizedText := None;
      notices := 0;
    }

    /** `getRecognizedText()` */
    method GetRecognizedText() returns (text: Option<string>)
      ensures text == recognizedText
    {
      text := recognizedText;
    }

    /** `runOCR(image:)`, the engine having produced `output`. */
    method RunOcr(output: Option<string>)
      modifies this
      ensures View() == old(View()).RunOcr(output)
    {
      recognizedText := output;
      notices := notices + 1;
    }

    /** `reset()` */
    method Reset()
      modifies this
      ensures View() == old(View()).Reset()
    {
      cancelOngoingRequest := true;
      var cancelled := ShouldCancelImageRecognition();
      assert cancelled;
    }

    /** `shouldCancelImageRecognition(for:)` */
    method ShouldCancelImageRecognition() returns (cancel: bool)
      modifies this
      ensures (cancel, View()) == old(View()).ShouldCancel()
    {
      if cancelOngoingRequest {
        cancelOngoingRequest := false;
        cancel := true;
      } else {
        cancel := false;
      }
    }
  }
}
