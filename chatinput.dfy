/**
 * The `ChatInput` component: a draft text buffer, the send guard, the Enter-key rule,
 * and when each of its three controls is disabled.
 */
module ChatInput {
  import opened JsString
  import opened Wrappers

  /** The microphone button is disabled while a reply loads. */
  predicate MicDisabled(isLoading: bool) {
    isLoading
  }

  /** The text field is disabled while a reply loads or recognition listens. */
  predicate InputDisabled(isLoading: bool, isListening: bool) {
    isLoading || isListening
  }

  /** The send button is disabled while a reply loads or while the draft is only white space. */
  function SendDisabled(isLoading: bool, text: string): (r: bool)
    ensures r <==> isLoading || forall i :: 0 <= i < |text| ==> IsWhitespace(text[i])
  {
    BlankIffAllWhitespace(text);
    isLoading || IsBlank(text)
  }

  /** While a reply loads, every control is disabled whatever the draft and the listening state. */
  lemma ControlsLockedWhileLoading(isListening: bool, text: string)
    ensures MicDisabled(true) && InputDisabled(true, isListening) && SendDisabled(true, text)
  {
  }

  /**
   * When nothing loads and nothing listens, the microphone and the text field are enabled,
   * and the send button is enabled exactly when the draft has a non-white-space character.
   */
  lemma ControlsWhenIdle(text: string)
    ensures !MicDisabled(false) && !InputDisabled(false, false)
    ensures !SendDisabled(false, text) <==> exists i :: 0 <= i < |text| && !IsWhitespace(text[i])
  {
  }

  class InputBox {
    /** The draft. */
    var text: string

    constructor ()
      ensures text == ""
    {
      text := "";
    }

    /** The text field's `onChange`. */
    method Change(value: string)
      modifies this
      ensures text == value
    {
      text := value;
    }

    /**
     * `handleSend`: a blank draft is neither sent nor cleared; otherwise `onSend` gets the
     * untrimmed draft and the draft is cleared. The result is the argument passed to `onSend`.
     */
    method HandleSend() returns (sent: Option<string>)
      modifies this
      ensures IsBlank(old(text)) ==> sent == None && text == old(text)
      ensures !IsBlank(old(text)) ==> sent == Some(old(text)) && text == ""
    {
      if IsBlank(text) {
        return None;
      }
      sent := Some(text);
      text := "";
    }

    /** `handleKeyDown`: Enter without Shift prevents the default and sends; any other key does nothing. */
    method HandleKeyDown(key: string, shiftKey: bool) returns (preventDefault: bool, sent: Option<string>)
      modifies this
      ensures preventDefault <==> key == "Enter" && !shiftKey
      ensures !preventDefault || IsBlank(old(text)) ==> sent == None && text == old(text)
      ensures preventDefault && !IsBlank(old(text)) ==> sent == Some(old(text)) && text == ""
    {
      preventDefault := key == "Enter" && !shiftKey;
      sent := None;
      if preventDefault {
        sent := HandleSend();
      }
    }
  }
}
