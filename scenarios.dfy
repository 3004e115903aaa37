/**
 * Runs of the controller and the speech hook through whole interactions, proved from the
 * classes' contracts alone.
 */
module Scenarios {
  import opened Wrappers
  import opened JsString
  import opened Speech
  import opened App
  import opened ChatInput

  /**
   * Submitting "Hello" and receiving "Hi", " there" and "!": the reply shows "", "Hi",
   * "Hi there" and "Hi there!" in turn, loading is on throughout and off afterwards.
   */
  method StreamedReply() returns (shown: seq<string>, loadingThroughout: bool, loadingAfter: bool, count: nat)
    ensures shown == ["", "Hi", "Hi there", "Hi there!"]
    ensures loadingThroughout && !loadingAfter
    ensures count == 3
  {
    // The running concatenations of the three chunks.
    assert "" + "Hi" == "Hi" && "Hi" + " there" == "Hi there" && "Hi there" + "!" == "Hi there!";
    var hook := new SpeechHook(true, true);
    var app := new Controller(hook);
    app.ChatSessionCreated();
    NotBlankAt("Hello", 0);
    app.Submit("Hello");
    app.StreamOpened();
    shown := [app.messages[2].content];
    loadingThroughout := app.isLoading;
    app.Chunk("Hi");
    shown := shown + [app.messages[2].content];
    loadingThroughout := loadingThroughout && app.isLoading;
    app.Chunk(" there");
    shown := shown + [app.messages[2].content];
    loadingThroughout := loadingThroughout && app.isLoading;
    app.Chunk("!");
    shown := shown + [app.messages[2].content];
    loadingThroughout := loadingThroughout && app.isLoading;
    app.StreamDone();
    loadingAfter := app.isLoading;
    count := |app.messages|;
  }

  /** The stream opens and fails before any chunk: the placeholder becomes the error message. */
  method ImmediateFailure() returns (final: seq<Message>, loading: bool)
    ensures final == [Greeting, Message(User, "Hi"), ErrorMessage]
    ensures !loading
  {
    var hook := new SpeechHook(true, true);
    var app := new Controller(hook);
    app.ChatSessionCreated();
    NotBlankAt("Hi", 0);
    app.Submit("Hi");
    app.StreamOpened();
    app.StreamFailed();
    final, loading := app.messages, app.isLoading;
  }

  /** Opening the stream fails: the error message follows the user's message. */
  method OpenFailure() returns (final: seq<Message>, loading: bool)
    ensures final == [Greeting, Message(User, "Hi"), ErrorMessage]
    ensures !loading
  {
    var hook := new SpeechHook(true, true);
    var app := new Controller(hook);
    app.ChatSessionCreated();
    NotBlankAt("Hi", 0);
    app.Submit("Hi");
    app.StreamOpenFailed();
    final, loading := app.messages, app.isLoading;
  }

  /** A failure after a partial reply keeps the partial reply and appends the error message. */
  method PartialFailure() returns (final: seq<Message>)
    ensures final == [Greeting, Message(User, "Hi"), Message(Model, "Hel"), ErrorMessage]
  {
    var hook := new SpeechHook(true, true);
    var app := new Controller(hook);
    app.ChatSessionCreated();
    NotBlankAt("Hi", 0);
    app.Submit("Hi");
    app.StreamOpened();
    app.Chunk("Hel");
    ConcatSnoc([], "Hel");
    assert app.chunks == ["Hel"];
    assert Concat(app.chunks) == "Hel";
    assert app.messages == [Greeting, Message(User, "Hi"), Message(Model, "Hel")];
    app.StreamFailed();
    final := app.messages;
  }

  /** Before the chat session exists, and for blank text, submitting changes nothing. */
  method IgnoredSubmissions() returns (final: seq<Message>, loading: bool)
    ensures final == [Greeting] && !loading
  {
    var hook := new SpeechHook(true, true);
    var app := new Controller(hook);
    app.Submit("Hello");
    app.ChatSessionCreated();
    BlankIffAllWhitespace(" \n ");
    app.Submit(" \n ");
    final, loading := app.messages, app.isLoading;
  }

  /**
   * A spoken question: the microphone starts a recognition, it reports a result and ends,
   * and the transcript effect sends the transcript as the user's message.
   */
  method SpokenQuestion() returns (fired: bool, final: seq<Message>, requests: seq<EngineRequest>)
    ensures fired && final == [Greeting, Message(User, "hi")]
    ensures requests == [CreateRecognition(0, Settings), StartRecognition(0), StopRecognition(0)]
  {
    var hook := new SpeechHook(true, true);
    var app := new Controller(hook);
    app.ChatSessionCreated();
    app.ToggleVoice();
    assert hook.requests == [CreateRecognition(0, Settings), StartRecognition(0)];
    hook.OnStart(0);
    hook.OnResult(0, [["hi", "high"]]);
    hook.OnEnd(0);
    NotBlankAt("hi", 0);
    assert hook.StopRequests() == [StopRecognition(0)] && hook.CancelRequests() == [];
    fired := app.TranscriptEffect();
    final, requests := app.messages, hook.requests;
  }

  /** With voice output on, a finished reply is spoken once, at rate 1 and pitch 1. */
  method SpokenReply() returns (requests: seq<EngineRequest>, calls: seq<HookCall>)
    ensures requests == [SpeakUtterance(Utterance("Ok", 1, 1))]
    ensures calls == [StopListeningCall, CancelSpeechCall, SpeakCall("Ok")]
  {
    var hook := new SpeechHook(true, true);
    var app := new Controller(hook);
    app.ChatSessionCreated();
    NotBlankAt("Hi", 0);
    app.Submit("Hi");
    app.StreamOpened();
    app.Chunk("Ok");
    ConcatSnoc([], "Ok");
    assert app.chunks == ["Ok"] && Concat(app.chunks) == "Ok";
    app.StreamDone();
    requests, calls := hook.requests, hook.calls;
  }

  /**
   * Turning voice output off while a reply is spoken cancels the speech, and a reply
   * streamed afterwards is not spoken.
   */
  method MutedWhileSpeaking() returns (speaking: bool, requests: seq<EngineRequest>, enabled: bool)
    ensures !speaking && !enabled
    ensures requests == [CancelSynthesis]
  {
    var hook := new SpeechHook(true, true);
    var app := new Controller(hook);
    hook.OnSynthesisSpeaking(true);
    app.ToggleSpeaking();
    app.ChatSessionCreated();
    NotBlankAt("Hi", 0);
    app.Submit("Hi");
    app.StreamOpened();
    app.Chunk("Hello");
    app.StreamDone();
    speaking, requests, enabled := hook.synthSpeaking, hook.requests, app.isSpeakingEnabled;
  }

  /**
   * A reply submitted with voice output on is still spoken when the preference is turned off
   * mid-stream: the handler speaks according to the preference it captured.
   */
  method PreferenceCapturedAtSubmit() returns (calls: seq<HookCall>)
    ensures calls == [StopListeningCall, CancelSpeechCall, CancelSpeechCall, SpeakCall("Ok")]
  {
    var hook := new SpeechHook(true, true);
    var app := new Controller(hook);
    app.ChatSessionCreated();
    NotBlankAt("Hi", 0);
    app.Submit("Hi");
    app.StreamOpened();
    app.ToggleSpeaking();
    app.Chunk("Ok");
    ConcatSnoc([], "Ok");
    assert app.chunks == ["Ok"] && Concat(app.chunks) == "Ok";
    app.StreamDone();
    calls := hook.calls;
  }

  /**
   * Starting a second recognition before the first has ended: the first one's late end
   * event clears `isListening` although the second one is current and has started.
   */
  method SupersededEnd() returns (current: Option<nat>, listening: bool, requests: seq<EngineRequest>)
    ensures current == Some(1) && !listening
    ensures requests == [CreateRecognition(0, Settings), StartRecognition(0), StopRecognition(0),
                         CreateRecognition(1, Settings), StartRecognition(1)]
  {
    var hook := new SpeechHook(true, false);
    hook.StartListening();
    hook.OnStart(0);
    hook.StartListening();
    hook.OnStart(1);
    hook.OnEnd(0);
    current, listening, requests := hook.recognition, hook.isListening, hook.requests;
  }

  /** Without recognition support the microphone does nothing at all. */
  method NoRecognitionSupport() returns (requests: seq<EngineRequest>, listening: bool)
    ensures requests == [] && !listening
  {
    var hook := new SpeechHook(false, true);
    var app := new Controller(hook);
    app.ToggleVoice();
    app.ToggleVoice();
    requests, listening := hook.requests, hook.isListening;
  }

  /** Typing a message and pressing Enter hands the untrimmed draft to the controller. */
  method TypedMessage() returns (final: seq<Message>, draft: string)
    ensures final == [Greeting, Message(User, " hi ")] && draft == ""
  {
    var hook := new SpeechHook(true, true);
    var app := new Controller(hook);
    var box := new InputBox();
    app.ChatSessionCreated();
    box.Change(" hi ");
    NotBlankAt(" hi ", 1);
    var shiftIgnored, none := box.HandleKeyDown("Enter", true);
    var prevented, sent := box.HandleKeyDown("Enter", false);
    if sent.Some? {
      app.Submit(sent.value);
    }
    final, draft := app.messages, box.text;
  }
}
