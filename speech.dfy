/**
 * The `useSpeech` hook: browser speech recognition and speech synthesis behind a
 * start/stop/speak/cancel interface with its own listening state. The browser engines
 * are abstract: the hook's requests to them are recorded in `requests`, and what the
 * engines do back (a recognition starting, producing a result, failing or ending; the
 * synthesizer starting or finishing an utterance) arrives through event methods.
 */
module Speech {
  import opened Wrappers

  /** What `startListening` sets on each new recognition: one-shot, final results only, US English. */
  datatype RecognitionSettings = RecognitionSettings(continuous: bool, interimResults: bool, lang: string)

  const Settings := RecognitionSettings(false, false, "en-US")

  /** A `SpeechSynthesisUtterance` as `speak` configures it. */
  datatype Utterance = Utterance(text: string, rate: int, pitch: int)

  /**
   * A request the hook makes of the browser. A recognition stands for the object built
   * by `new SpeechRecognition()`; it is named by the number of recognitions created before it.
   */
  datatype EngineRequest =
    | CreateRecognition(id: nat, settings: RecognitionSettings)
    | StartRecognition(id: nat)
    | StopRecognition(id: nat)
    | SpeakUtterance(utterance: Utterance)
    | CancelSynthesis

  /** A call into one of the four functions the hook returns. */
  datatype HookCall = StartListeningCall | StopListeningCall | SpeakCall(text: string) | CancelSpeechCall

  class SpeechHook {
    /** Whether the browser has `SpeechRecognition` (or its `webkit` variant). */
    const recognitionSupported: bool
    /** Whether the browser has `window.speechSynthesis`. */
    const synthesisSupported: bool

    /** `recognitionRef.current`: the most recently created recognition, if any. */
    var recognition: Option<nat>
    /** How many recognitions have been created; the next one gets this number. */
    var created: nat
    var isListening: bool
    var transcript: string
    /** The synthesizer's own `speaking` flag. */
    var synthSpeaking: bool
    /** Every request made of the browser engines, oldest first. */
    var requests: seq<EngineRequest>
    /**
     * Every call the component makes into the hook's four returned functions, oldest first
     * (the hook's own call of `cancelSpeech` inside `startListening` is not among them).
     * The program keeps no such record; it is a real field rather than a ghost one so that
     * client methods can return it and have their results checked.
     */
    var calls: seq<HookCall>

    ghost predicate Valid()
      reads this
    {
      && recognition == (if created == 0 then None else Some(created - 1))
      && (!recognitionSupported ==> created == 0)
      && (recognition == None ==> !isListening && transcript == "")
      && (!synthesisSupported ==> !synthSpeaking)
    }

    // The next three functions restate what the methods below request, so that their contracts
    // can give the order of the requests: cancel, stop, create, start (useSpeech.ts:25-31, 55-56).

    /** What `recognitionRef.current.stop()` asks of the engine, when there is a current recognition. */
    function StopRequests(): seq<EngineRequest>
      reads this
    {
      if recognition.Some? then [StopRecognition(recognition.value)] else []
    }

    /** What `cancelSpeech` asks of the engine: a cancel only while the synthesizer speaks. */
    function CancelRequests(): seq<EngineRequest>
      reads this
    {
      if synthSpeaking then [CancelSynthesis] else []
    }

    /**
     * What `startListening` asks of the engines: with recognition support, a cancel if the
     * synthesizer speaks, a stop of the current recognition if there is one, then the
     * creation and start of a new one.
     */
    function StartRequests(): seq<EngineRequest>
      reads this
    {
      if recognitionSupported then
        CancelRequests() + StopRequests() + [CreateRecognition(created, Settings), StartRecognition(created)]
      else []
    }

    twostate predicate ListeningUnchanged()
      reads this
    {
      recognition == old(recognition) && created == old(created)
      && isListening == old(isListening) && transcript == old(transcript)
    }

    /** The hook's initial state: no recognition, not listening, empty transcript. */
    constructor (recognitionSupported: bool, synthesisSupported: bool)
      ensures Valid()
      ensures this.recognitionSupported == recognitionSupported
      ensures this.synthesisSupported == synthesisSupported
      ensures recognition == None && !isListening && transcript == ""
      ensures !synthSpeaking && requests == [] && calls == []
    {
      this.recognitionSupported := recognitionSupported;
      this.synthesisSupported := synthesisSupported;
      recognition := None;
      created := 0;
      isListening := false;
      transcript := "";
      synthSpeaking := false;
      requests := [];
      calls := [];
    }

    /** The body of `cancelSpeech`, shared with `startListening`. */
    method CancelIfSpeaking()
      requires Valid()
      modifies this
      ensures Valid() && ListeningUnchanged()
      ensures requests == old(requests) + old(CancelRequests())
      ensures !synthSpeaking && calls == old(calls)
    {
      if synthSpeaking {
        requests := requests + [CancelSynthesis];
        synthSpeaking := false;
      }
    }

    /** `cancelSpeech`: cancels synthesis only when the synthesizer reports speaking. */
    method CancelSpeech()
      requires Valid()
      modifies this
      ensures Valid() && ListeningUnchanged()
      ensures requests == old(requests) + old(CancelRequests())
      ensures !synthSpeaking
      ensures calls == old(calls) + [CancelSpeechCall]
    {
      calls := calls + [CancelSpeechCall];
      CancelIfSpeaking();
    }

    /**
     * `startListening`: nothing at all without recognition support. Otherwise it cancels
     * speech, stops the previous recognition, then creates and starts a new one and makes
     * it current. Listening begins only with the new recognition's start event.
     */
    method StartListening()
      requires Valid()
      modifies this
      ensures Valid()
      ensures calls == old(calls) + [StartListeningCall]
      ensures isListening == old(isListening) && transcript == old(transcript)
      ensures requests == old(requests) + old(StartRequests())
      ensures !recognitionSupported ==> ListeningUnchanged() && synthSpeaking == old(synthSpeaking)
      ensures recognitionSupported ==>
        recognition == Some(old(created)) && created == old(created) + 1 && !synthSpeaking
    {
      calls := calls + [StartListeningCall];
      if !recognitionSupported {
        return;
      }
      CancelIfSpeaking();
      if recognition.Some? {
        requests := requests + [StopRecognition(recognition.value)];
      }
      var id := created;
      created := created + 1;
      requests := requests + [CreateRecognition(id, Settings), StartRecognition(id)];
      recognition := Some(id);
    }

    /**
     * `stopListening`: nothing at all before any recognition was created. Otherwise it
     * stops the current one and clears `isListening`; the handle itself is kept.
     */
    method StopListening()
      requires Valid()
      modifies this
      ensures Valid()
      ensures calls == old(calls) + [StopListeningCall]
      ensures requests == old(requests) + old(StopRequests())
      ensures recognition == old(recognition) && created == old(created)
      ensures transcript == old(transcript) && synthSpeaking == old(synthSpeaking)
      ensures old(recognition) == None ==> isListening == old(isListening)
      ensures !isListening
    {
      calls := calls + [StopListeningCall];
      if recognition.Some? {
        requests := requests + [StopRecognition(recognition.value)];
        isListening := false;
      }
    }

    /** `speak`: nothing without synthesis support, otherwise one utterance at rate 1 and pitch 1. */
    method Speak(text: string)
      requires Valid()
      modifies this
      ensures Valid() && ListeningUnchanged()
      ensures calls == old(calls) + [SpeakCall(text)]
      ensures requests == old(requests) + (if synthesisSupported then [SpeakUtterance(Utterance(text, 1, 1))] else [])
      ensures synthSpeaking == old(synthSpeaking)
    {
      calls := calls + [SpeakCall(text)];
      if !synthesisSupported {
        return;
      }
      requests := requests + [SpeakUtterance(Utterance(text, 1, 1))];
    }

    /** The unmount cleanup: `stopListening` and then `cancelSpeech`. */
    method Dispose()
      requires Valid()
      modifies this
      ensures Valid()
      ensures calls == old(calls) + [StopListeningCall, CancelSpeechCall]
      ensures requests == old(requests) + old(StopRequests()) + old(CancelRequests())
      ensures !isListening && !synthSpeaking
      ensures recognition == old(recognition) && transcript == old(transcript)
    {
      StopListening();
      CancelSpeech();
    }

    /** A recognition's `onstart`: listening begins and the transcript is reset. */
    method OnStart(id: nat)
      requires Valid() && id < created
      modifies this
      ensures Valid()
      ensures isListening && transcript == ""
      ensures recognition == old(recognition) && created == old(created)
      ensures synthSpeaking == old(synthSpeaking) && requests == old(requests) && calls == old(calls)
    {
      isListening := true;
      transcript := "";
    }

    /**
     * A recognition's `onresult`: the transcript becomes the first alternative of the first
     * result. With no result or no alternative the handler throws before any update.
     */
    method OnResult(id: nat, results: seq<seq<string>>)
      requires Valid() && id < created
      modifies this
      ensures Valid()
      ensures transcript == if |results| > 0 && |results[0]| > 0 then results[0][0] else old(transcript)
      ensures isListening == old(isListening)
      ensures recognition == old(recognition) && created == old(created)
      ensures synthSpeaking == old(synthSpeaking) && requests == old(requests) && calls == old(calls)
    {
      if |results| > 0 && |results[0]| > 0 {
        transcript := results[0][0];
      }
    }

    /** A recognition's `onerror`, from whichever recognition raised it: listening ends. */
    method OnError(id: nat, error: string)
      requires Valid() && id < created
      modifies this
      ensures Valid()
      ensures !isListening && transcript == old(transcript)
      ensures recognition == old(recognition) && created == old(created)
      ensures synthSpeaking == old(synthSpeaking) && requests == old(requests) && calls == old(calls)
    {
      isListening := false;
    }

    /** A recognition's `onend`, from whichever recognition raised it: listening ends. */
    method OnEnd(id: nat)
      requires Valid() && id < created
      modifies this
      ensures Valid()
      ensures !isListening && transcript == old(transcript)
      ensures recognition == old(recognition) && created == old(created)
      ensures synthSpeaking == old(synthSpeaking) && requests == old(requests) && calls == old(calls)
    {
      isListening := false;
    }

    /** The synthesizer starting or finishing speech; a browser without synthesis never speaks. */
    method OnSynthesisSpeaking(speaking: bool)
      requires Valid() && (speaking ==> synthesisSupported)
      modifies this
      ensures Valid() && ListeningUnchanged()
      ensures synthSpeaking == speaking && requests == old(requests) && calls == old(calls)
    {
      synthSpeaking := speaking;
    }
  }
}
