/**
 * The `App` component: the conversation, the loading flag, the voice-output preference,
 * and `handleSendMessage`, which appends the user's message, streams the model's reply
 * into a placeholder message and falls back to a fixed error message when the stream fails.
 * The chat service is abstract: opening the stream, each chunk, the end of the stream and
 * its failure arrive as event methods.
 */
module App {
  import opened Wrappers
  import opened JsString
  import opened Speech

  datatype Role = User | Model

  datatype Message = Message(role: Role, content: string)

  const Greeting := Message(Model, "Hello! I'm a dynamic AI chatbot. How can I assist you today?")

  const ErrorMessage := Message(Model, "Sorry, I encountered an error. Please try again.")

  /** Where the one submission in flight stands: before the stream opens, or while it streams. */
  datatype Phase = Idle | AwaitingStream | Streaming

  /** Line 56 as a value update: the last message keeps its role and gets `content`. */
  function SetLastContent(messages: seq<Message>, content: string): (r: seq<Message>)
    requires |messages| > 0
    ensures |r| == |messages| && r[..|r| - 1] == messages[..|messages| - 1]
    ensures r[|r| - 1] == Message(messages[|messages| - 1].role, content)
  {
    messages[..|messages| - 1] + [Message(messages[|messages| - 1].role, content)]
  }

  /**
   * The catch block's update: an empty last message is replaced by the error message;
   * otherwise the error message is appended. Earlier messages are never touched.
   */
  function WithError(messages: seq<Message>): (r: seq<Message>)
    requires |messages| > 0
    ensures |r| == |messages| + (if messages[|messages| - 1].content == "" then 0 else 1)
    ensures r[..|messages| - 1] == messages[..|messages| - 1]
    ensures r[|r| - 1] == ErrorMessage
    ensures messages[|messages| - 1].content != "" ==> r[|messages| - 1] == messages[|messages| - 1]
  {
    var last := |messages| - 1;
    if messages[last].content == "" then messages[..last] + [ErrorMessage]
    else messages + [ErrorMessage]
  }

  class Controller {
    /** The `useSpeech` hook the component uses. */
    const speech: SpeechHook

    var messages: seq<Message>
    var isLoading: bool
    var isSpeakingEnabled: bool
    /** `chatRef.current !== null`: the chat session has been created. */
    var chatReady: bool

    // The handleSendMessage call in flight.
    var phase: Phase
    /** The `text` it was called with. */
    var pendingText: string
    /** The `isSpeakingEnabled` its closure captured. */
    var speakWhenDone: bool
    /** The `modelResponse` accumulator. */
    var modelResponse: string
    /** The chunk texts received so far. */
    ghost var chunks: seq<string>
    /** The conversation as it was when the call began. */
    ghost var before: seq<Message>

    ghost predicate Valid()
      reads this, speech
    {
      && speech.Valid()
      && |messages| > 0
      && isLoading == (phase != Idle)
      && (phase == AwaitingStream ==>
            !IsBlank(pendingText) && messages == before + [Message(User, pendingText)])
      && (phase == Streaming ==>
            && modelResponse == Concat(chunks)
            && messages == before + [Message(User, pendingText), Message(Model, modelResponse)])
    }

    twostate predicate PendingUnchanged()
      reads this
    {
      phase == old(phase) && pendingText == old(pendingText) && speakWhenDone == old(speakWhenDone)
      && modelResponse == old(modelResponse) && chunks == old(chunks) && before == old(before)
    }

    /** The initial state: the greeting alone, not loading, voice output on. */
    constructor (speech: SpeechHook)
      requires speech.Valid()
      ensures Valid() && this.speech == speech
      ensures messages == [Greeting] && !isLoading && isSpeakingEnabled
      ensures !chatReady && phase == Idle
    {
      this.speech := speech;
      messages := [Greeting];
      isLoading := false;
      isSpeakingEnabled := true;
      chatReady := false;
      phase := Idle;
      pendingText := "";
      speakWhenDone := false;
      modelResponse := "";
      chunks := [];
      before := [];
    }

    /** The mount effect: the chat session has been created and stored in `chatRef`. */
    method ChatSessionCreated()
      requires Valid()
      modifies this
      ensures Valid() && chatReady
      ensures messages == old(messages) && isLoading == old(isLoading)
      ensures isSpeakingEnabled == old(isSpeakingEnabled) && PendingUnchanged()
    {
      chatReady := true;
    }

    /** Nothing changed: what a call to `handleSendMessage` stopped by its guard leaves behind. */
    twostate predicate Ignored()
      reads this, speech
    {
      unchanged(this) && unchanged(speech)
    }

    /**
     * What a call to `handleSendMessage(text)` that passed its guard leaves behind once it
     * awaits the stream: listening stopped and speech cancelled, in that order, then the user
     * message with the untrimmed text appended and `isLoading` set.
     */
    twostate predicate Sent(text: string)
      reads this, speech
    {
      && messages == old(messages) + [Message(User, text)]
      && isLoading && phase == AwaitingStream
      && pendingText == text && speakWhenDone == old(isSpeakingEnabled)
      && isSpeakingEnabled == old(isSpeakingEnabled) && chatReady == old(chatReady)
      && speech.calls == old(speech.calls) + [StopListeningCall, CancelSpeechCall]
      && speech.requests == old(speech.requests) + old(speech.StopRequests()) + old(speech.CancelRequests())
      && !speech.isListening && !speech.synthSpeaking
      && speech.recognition == old(speech.recognition) && speech.transcript == old(speech.transcript)
    }

    /**
     * `handleSendMessage(text)` up to its first `await`: nothing when the text is blank or
     * there is no chat session yet.
     */
    method Submit(text: string)
      requires Valid() && phase == Idle
      modifies this, speech
      ensures Valid()
      ensures IsBlank(text) || !old(chatReady) ==> Ignored()
      ensures !IsBlank(text) && old(chatReady) ==> Sent(text)
    {
      if IsBlank(text) || !chatReady {
        return;
      }
      speech.StopListening();
      speech.CancelSpeech();
      before := messages;
      messages := messages + [Message(User, text)];
      isLoading := true;
      phase := AwaitingStream;
      pendingText := text;
      speakWhenDone := isSpeakingEnabled;
    }

    /** The stream has opened: one empty placeholder reply is appended. */
    method StreamOpened()
      requires Valid() && phase == AwaitingStream
      modifies this
      ensures Valid() && phase == Streaming && isLoading
      ensures messages == old(messages) + [Message(Model, "")]
      ensures chunks == [] && modelResponse == "" && pendingText == old(pendingText)
      ensures isSpeakingEnabled == old(isSpeakingEnabled) && speakWhenDone == old(speakWhenDone)
      ensures chatReady == old(chatReady)
    {
      modelResponse := "";
      chunks := [];
      messages := messages + [Message(Model, "")];
      phase := Streaming;
    }

    /**
     * Opening the stream failed. The last message is then the user's non-blank message,
     * so the error message is appended after it.
     */
    method StreamOpenFailed()
      requires Valid() && phase == AwaitingStream
      modifies this
      ensures Valid() && phase == Idle && !isLoading
      ensures messages == old(messages) + [ErrorMessage]
      ensures isSpeakingEnabled == old(isSpeakingEnabled) && chatReady == old(chatReady)
    {
      NonBlankIsNonEmpty(pendingText);
      messages := WithError(messages);
      isLoading := false;
      phase := Idle;
    }

    /**
     * One chunk arrived: it is folded into the accumulator, and the last message (the
     * placeholder) now holds the concatenation of every chunk so far. No other message
     * changes and the count stays the same.
     */
    method Chunk(text: string)
      requires Valid() && phase == Streaming
      modifies this
      ensures Valid() && phase == Streaming && isLoading
      ensures chunks == old(chunks) + [text] && modelResponse == old(modelResponse) + text
      ensures |messages| == |old(messages)|
      ensures messages[..|messages| - 1] == old(messages)[..|messages| - 1]
      ensures messages[|messages| - 1] == Message(Model, Concat(chunks))
      ensures isSpeakingEnabled == old(isSpeakingEnabled) && speakWhenDone == old(speakWhenDone)
      ensures chatReady == old(chatReady)
    {
      ConcatSnoc(chunks, text);
      modelResponse := modelResponse + text;
      chunks := chunks + [text];
      messages := SetLastContent(messages, modelResponse);
    }

    /**
     * The stream ended normally: `speak` is called once with the whole reply exactly when the
     * captured `isSpeakingEnabled` was true. The conversation is left as it is.
     */
    method StreamDone()
      requires Valid() && phase == Streaming
      modifies this, speech
      ensures Valid() && phase == Idle && !isLoading
      ensures messages == old(messages)
      ensures speech.calls == old(speech.calls) + (if old(speakWhenDone) then [SpeakCall(Concat(old(chunks)))] else [])
      ensures speech.requests == old(speech.requests)
        + (if old(speakWhenDone) && speech.synthesisSupported
           then [SpeakUtterance(Utterance(Concat(old(chunks)), 1, 1))] else [])
      ensures speech.ListeningUnchanged() && speech.synthSpeaking == old(speech.synthSpeaking)
      ensures isSpeakingEnabled == old(isSpeakingEnabled) && chatReady == old(chatReady)
    {
      if speakWhenDone {
        speech.Speak(modelResponse);
      }
      isLoading := false;
      phase := Idle;
    }

    /**
     * The stream failed after opening. When every chunk so far was empty (in particular when
     * none arrived) the placeholder is replaced by the error message; otherwise the partial
     * reply stays and the error message is appended. `speak` is not called.
     */
    method StreamFailed()
      requires Valid() && phase == Streaming
      modifies this
      ensures Valid() && phase == Idle && !isLoading
      ensures (forall i :: 0 <= i < |old(chunks)| ==> old(chunks)[i] == "") ==>
        && |messages| == |old(messages)|
        && messages[..|messages| - 1] == old(messages)[..|messages| - 1]
        && messages[|messages| - 1] == ErrorMessage
      ensures (exists i :: 0 <= i < |old(chunks)| && old(chunks)[i] != "") ==>
        messages == old(messages) + [ErrorMessage]
      ensures isSpeakingEnabled == old(isSpeakingEnabled) && chatReady == old(chatReady)
    {
      ConcatEmptyIff(chunks);
      messages := WithError(messages);
      isLoading := false;
      phase := Idle;
    }

    /**
     * The transcript effect: `handleSendMessage(transcript)` runs when recognition is not
     * listening and the transcript is non-empty, and nothing happens otherwise.
     */
    method TranscriptEffect() returns (fired: bool)
      requires Valid() && phase == Idle
      modifies this, speech
      ensures Valid()
      ensures fired <==> !old(speech.isListening) && old(speech.transcript) != ""
      ensures !fired || IsBlank(old(speech.transcript)) || !old(chatReady) ==> Ignored()
      ensures fired && !IsBlank(old(speech.transcript)) && old(chatReady) ==> Sent(old(speech.transcript))
    {
      fired := !speech.isListening && speech.transcript != "";
      if fired {
        Submit(speech.transcript);
      }
    }

    /** The microphone button: stop when listening, start otherwise. */
    method ToggleVoice()
      requires Valid()
      modifies speech
      ensures Valid()
      ensures old(speech.isListening) ==>
        && speech.calls == old(speech.calls) + [StopListeningCall]
        && speech.requests == old(speech.requests) + old(speech.StopRequests())
        && speech.synthSpeaking == old(speech.synthSpeaking)
        && speech.recognition == old(speech.recognition) && speech.created == old(speech.created)
      ensures !old(speech.isListening) ==>
        && speech.calls == old(speech.calls) + [StartListeningCall]
        && speech.requests == old(speech.requests) + old(speech.StartRequests())
        && (speech.recognitionSupported ==>
              && speech.recognition == Some(old(speech.created)) && speech.created == old(speech.created) + 1
              && !speech.synthSpeaking)
        && (!speech.recognitionSupported ==> speech.synthSpeaking == old(speech.synthSpeaking))
      ensures !speech.isListening && speech.transcript == old(speech.transcript)
    {
      if speech.isListening {
        speech.StopListening();
      } else {
        speech.StartListening();
      }
    }

    /**
     * The voice-output toggle: the preference flips, speech is cancelled when it was on, and
     * the submission in flight keeps the preference it captured.
     */
    method ToggleSpeaking()
      requires Valid()
      modifies this, speech
      ensures Valid()
      ensures isSpeakingEnabled == !old(isSpeakingEnabled)
      ensures speech.calls == old(speech.calls) + (if old(isSpeakingEnabled) then [CancelSpeechCall] else [])
      ensures old(isSpeakingEnabled) ==>
        speech.requests == old(speech.requests) + old(speech.CancelRequests()) && !speech.synthSpeaking
      ensures !old(isSpeakingEnabled) ==> unchanged(speech)
      ensures speech.ListeningUnchanged()
      ensures messages == old(messages) && isLoading == old(isLoading) && chatReady == old(chatReady)
      ensures PendingUnchanged()
    {
      if isSpeakingEnabled {
        speech.CancelSpeech();
      }
      isSpeakingEnabled := !isSpeakingEnabled;
    }
  }
}
