# Dynamic AI chatbot: conversation controller, speech hook and chat input

This project models the state machines of a browser chat UI in Dafny. The UI streams replies from a hosted language-model chat service, can read replies aloud, and accepts spoken questions. The model covers three parts:

- **`App`** (`app.dfy`). The `App` component becomes class `App.Controller`. It holds the message list, `isLoading`, `isSpeakingEnabled` and the one `handleSendMessage` call in flight. The chat service is abstract: opening the stream, each chunk, the end of the stream and a failure arrive as the event methods `StreamOpened`, `StreamOpenFailed`, `Chunk`, `StreamDone` and `StreamFailed`. The submission's state (its text, the `isSpeakingEnabled` value its closure captured, the `modelResponse` accumulator) is held in fields. Ghost fields record the chunks received so far and the conversation as it was at submission. The invariant `Valid()` ties them together: while streaming, the last message is the model's and holds the in-order concatenation of the chunks, and everything before it is the conversation at submission plus the user's message.
- **`useSpeech`** (`speech.dfy`). The hook becomes class `Speech.SpeechHook`. It has the two capability flags, the current recognition handle (`recognitionRef.current`), `isListening`, `transcript` and the synthesizer's `speaking` flag. The browser engines are abstract. Every request the hook makes of them (create, start or stop a recognition; speak an utterance; cancel synthesis) is appended to `requests`. Every call the component makes into the hook's four functions is appended to `calls`. The hook's own call of `cancelSpeech` inside `startListening` is not logged there. What the engines do back arrives as event methods: `OnStart`, `OnResult`, `OnError` and `OnEnd`, each tagged with the recognition that raised it, and `OnSynthesisSpeaking`. Recognitions are numbered in order of creation.
- **`ChatInput`** (`chatinput.dfy`). The draft and its two handlers become class `ChatInput.InputBox`. The three `disabled` conditions are predicates.

`jsstring.dfy` models ECMAScript's `String.prototype.trim` (WhiteSpace and LineTerminator code points) and the blank test `!s.trim()`, together with the concatenation of chunk texts. `scenarios.dfy` drives the classes through whole interactions and proves the outcome from the contracts alone: a streamed reply, the three failure cases, a spoken question, a spoken reply, muting while speaking, the captured preference, a superseded recognition, missing recognition support, and a typed message.

Behaviour of the code worth stating plainly:
- Nothing prevents a transcript from being submitted twice. The transcript effect runs again whenever `handleSendMessage` changes identity while the old transcript is still set, so no "no double submission" property is stated.
- An error event leaves `transcript` as it was. It does not clear it.
- The failure policy tests whether the last message's content is `''`. So a stream whose chunks were all empty has its placeholder replaced, exactly like a stream that failed before any chunk (`App.Controller.StreamFailed`, `JsString.ConcatEmptyIff`).
- An `onend` from a superseded recognition still clears `isListening` while a newer recognition is current (`Scenarios.SupersededEnd`).

## Model

| member | source | states |
|---|---|---|
| `JsString.TrimStartSpec` | components/ChatInput.tsx:17 | `trim`'s leading step removes exactly a prefix made of white space and keeps a suffix whose first character is not white space |
| `JsString.TrimEndSpec` | components/ChatInput.tsx:17 | `trim`'s trailing step removes exactly a suffix made of white space and keeps a prefix whose last character is not white space |
| `JsString.TrimSpec` | App.tsx:39 | `JsString.Trim`, the model of `text.trim()`: the trimmed text is no longer than the input, has no white space at either end, and equals the input when the input has no white space |
| `JsString.BlankIffAllWhitespace` | App.tsx:39 | `JsString.IsBlank`, the model of `!text.trim()`, holds exactly when every character of the text is white space |
| `JsString.NotBlankAt` | components/ChatInput.tsx:17 | one non-white-space character anywhere makes a draft non-blank |
| `JsString.NonBlankIsNonEmpty` | App.tsx:70 | text that passes the blank guard is never `''`, so the user's message never looks like an empty placeholder |
| `JsString.ConcatSnoc` | App.tsx:52-53 | `JsString.Concat` is the fold that `modelResponse += chunk.text` performs: each step extends the concatenation of the chunks so far by the new chunk |
| `JsString.ConcatEmptyIff` | App.tsx:70 | the accumulated reply is `''` exactly when every chunk was empty, which is why the empty-content test cannot tell an immediate failure from all-empty chunks |
| `App.SetLastContent` | App.tsx:54-57 | the chunk update keeps the list's length, every earlier message and the last message's role, and sets the last message's content |
| `App.WithError` | App.tsx:66-76 | the error update always ends with the fixed error message and keeps every earlier message; the count grows by one exactly when the last content is not `''`, and then the old last message is kept too |
| `App.Controller.constructor` | App.tsx:13-20 | the conversation starts as the one model greeting, not loading, with voice output enabled and no chat session |
| `App.Controller.ChatSessionCreated` | App.tsx:25-30 | the mount effect stores the chat session; nothing else changes |
| `App.Controller.Submit` | App.tsx:38-45 | blank text or a missing chat session changes nothing at all; otherwise listening is stopped and speech cancelled (both recorded in the hook), the user message with the untrimmed text is appended, `isLoading` becomes true and the current voice-output preference is captured |
| `App.Controller.StreamOpened` | App.tsx:48-50 | exactly one empty model placeholder is appended and the accumulator starts empty |
| `App.Controller.StreamOpenFailed` | App.tsx:48-79 | when opening the stream fails, the last message is the user's non-blank one, so the error message is appended; loading ends |
| `App.Controller.Chunk` | App.tsx:52-58 | after each chunk the message count and all earlier messages are unchanged and the last message holds the in-order concatenation of every chunk so far |
| `App.Controller.StreamDone` | App.tsx:59-63 | on normal completion `speak` is called once with the whole concatenated reply exactly when the captured preference was on (and reaches the synthesizer as one utterance at rate 1 and pitch 1 when it is supported); the messages are unchanged and loading ends |
| `App.Controller.StreamFailed` | App.tsx:64-79 | on failure, if every chunk was empty the placeholder is replaced by the error message and the count is unchanged, otherwise the error message is appended after the partial reply; `speak` is not called and loading ends |
| `App.Controller.TranscriptEffect` | App.tsx:82-86 | the effect calls `handleSendMessage(transcript)` exactly when not listening and the transcript is non-empty, with the same outcome as a typed submission; otherwise nothing changes |
| `App.Controller.ToggleVoice` | App.tsx:88-94 | when listening, `stopListening` is called and the recognition handle is kept; otherwise `startListening` is called; either way the hook is not listening afterwards |
| `App.Controller.ToggleSpeaking` | App.tsx:96-103 | the preference is negated; `cancelSpeech` is called exactly when it was on; the submission in flight keeps the preference it captured |
| `Speech.SpeechHook.constructor` | hooks/useSpeech.ts:5-11 | the hook starts with no recognition, not listening, an empty transcript and nothing requested |
| `Speech.SpeechHook.CancelIfSpeaking` | hooks/useSpeech.ts:14-15 | the body of `cancelSpeech`, shared with `startListening` (line 25): a cancel is requested only when the synthesizer reports speaking, and it is silent afterwards; listening state and the call log are untouched |
| `Speech.SpeechHook.CancelSpeech` | hooks/useSpeech.ts:13-17 | a cancel reaches the synthesizer only when it reports speaking, and the synthesizer is silent afterwards; recognition state is untouched |
| `Speech.SpeechHook.StartListening` | hooks/useSpeech.ts:19-57 | without recognition support nothing changes; otherwise speech is cancelled and the previous recognition stopped, then a new one-shot `en-US` recognition is created, started and made current; `isListening` and `transcript` are left to the start event |
| `Speech.SpeechHook.StopListening` | hooks/useSpeech.ts:59-64 | does nothing before any recognition exists; otherwise stops the current one and clears `isListening`; the handle is kept |
| `Speech.SpeechHook.Speak` | hooks/useSpeech.ts:66-75 | without synthesis support nothing is requested; otherwise exactly one utterance of the text at rate 1 and pitch 1 is queued |
| `Speech.SpeechHook.Dispose` | hooks/useSpeech.ts:77-83 | unmount cleanup calls `stopListening` and then `cancelSpeech`, leaving the hook neither listening nor speaking |
| `Speech.SpeechHook.OnStart` | hooks/useSpeech.ts:36-39 | the start event of any recognition sets `isListening` and resets the transcript to `''` |
| `Speech.SpeechHook.OnResult` | hooks/useSpeech.ts:41-44 | a result event sets the transcript to the first alternative of the first result and changes nothing else (an event with no alternative throws before any update) |
| `Speech.SpeechHook.OnError` | hooks/useSpeech.ts:46-49 | an error event from any recognition clears `isListening` and leaves the transcript unchanged |
| `Speech.SpeechHook.OnEnd` | hooks/useSpeech.ts:51-53 | an end event from any recognition, current or not, clears `isListening` and leaves the transcript unchanged |
| `Speech.SpeechHook.OnSynthesisSpeaking` | hooks/useSpeech.ts:14 | the synthesizer's `speaking` flag, which `cancelSpeech` reads, changes only by the browser's doing, and never without synthesis support |
| `ChatInput.SendDisabled` | components/ChatInput.tsx:53 | the send button is disabled exactly while loading or while the draft is white space only |
| `ChatInput.ControlsLockedWhileLoading` | components/ChatInput.tsx:32-53 | while loading, the microphone button (`ChatInput.MicDisabled`, line 34), the text field (`ChatInput.InputDisabled`, line 49) and the send button (line 53) are all disabled |
| `ChatInput.ControlsWhenIdle` | components/ChatInput.tsx:32-53 | when neither loading nor listening, the microphone (`ChatInput.MicDisabled`, line 34) and the text field (`ChatInput.InputDisabled`, line 49) are enabled and the send button is enabled exactly when the draft has a non-white-space character |
| `ChatInput.InputBox.constructor` | components/ChatInput.tsx:14 | the draft starts as `''` |
| `ChatInput.InputBox.Change` | components/ChatInput.tsx:45 | typing replaces the draft |
| `ChatInput.InputBox.HandleSend` | components/ChatInput.tsx:16-21 | a blank draft is neither sent nor cleared; a non-blank draft is handed to `onSend` once, untrimmed, and then cleared |
| `ChatInput.InputBox.HandleKeyDown` | components/ChatInput.tsx:23-28 | Enter without Shift prevents the default action and behaves as `handleSend`; Shift+Enter and every other key change nothing |
| `Scenarios.StreamedReply` | App.tsx:47-63 | submitting "Hello" and streaming "Hi", " there", "!" shows "", "Hi", "Hi there", "Hi there!" in turn, loading throughout and not after, three messages in all |
| `Scenarios.ImmediateFailure` | App.tsx:64-73 | a stream that opens and fails at once leaves greeting, user message and error message |
| `Scenarios.OpenFailure` | App.tsx:48-76 | a stream that cannot be opened leaves greeting, user message and error message |
| `Scenarios.PartialFailure` | App.tsx:74-76 | a failure after a partial reply keeps the partial reply and appends the error message |
| `Scenarios.IgnoredSubmissions` | App.tsx:39 | submitting before the chat session exists, or submitting white space, leaves the greeting alone and not loading |
| `Scenarios.SpokenQuestion` | App.tsx:82-86 | start, result and end of a recognition followed by the transcript effect send the transcript as the user's message, after stopping that recognition |
| `Scenarios.SpokenReply` | App.tsx:61-63 | with voice output on, a finished reply is spoken once as one utterance |
| `Scenarios.MutedWhileSpeaking` | App.tsx:96-103 | turning voice output off while speaking cancels the speech, and a later reply is not spoken |
| `Scenarios.PreferenceCapturedAtSubmit` | App.tsx:80 | turning voice output off mid-stream does not stop the reply of a submission made while it was on from being spoken |
| `Scenarios.SupersededEnd` | hooks/useSpeech.ts:51-53 | a superseded recognition's late end event clears `isListening` although the newer recognition is current and has started |
| `Scenarios.NoRecognitionSupport` | hooks/useSpeech.ts:20-23 | without recognition support the microphone button requests nothing and never listens |
| `Scenarios.TypedMessage` | components/ChatInput.tsx:16-28 | Shift+Enter does nothing; Enter hands the untrimmed draft " hi " to the controller and clears the draft |

## Left out

- services/geminiService.ts is not part of this model. The chat session is reduced to the `chatReady` flag, and the response stream to the events listed above. The API-key check that throws at module load is left out too. A `createChatSession` that never resolves is a run in which `ChatSessionCreated` never happens.
- The rendering components (`Header`, `ChatMessage`, `LoadingIndicator`) and all JSX and styling are left out. They hold no logic beyond a role comparison.
- The auto-scroll effect (App.tsx:32-36) is left out because it only manipulates the DOM.
- `console.error` logging is left out.
- App.Controller.Submit: requires that no other submission is in flight. Two overlapping `handleSendMessage` calls (possible when the transcript effect fires again during a stream) would interleave their chunk writes on the same last message. Only one linear sequence of events is modelled.
- App.Controller.TranscriptEffect: requires that no submission is in flight, for the same reason. When the effect runs is an input. React's re-run timing is not modelled.
- React scheduling is not modelled. Batching of `setState` is not modelled. Neither is React possibly calling a state updater twice: the `toggleSpeaking` updater calls `cancelSpeech`, so a double call would cancel twice. The model assumes `useCallback` identities are stable, so the hook's cleanup runs only on unmount. The `isListening` that a render captured is read as the hook's current value.
- Line 56 mutates the `Message` object shared with the previous list. It is modelled as a value update of the last element, so aliasing between successive lists is not captured.
- The browser speech engines are reduced to the requests made of them and the events they raise. There is no recognition accuracy and no synthesis queue or timing. Each `new SpeechRecognition()` is a numbered handle. The model assumes `speechSynthesis.cancel()` stops speech at once. `speak` does not set the `speaking` flag itself; only `OnSynthesisSpeaking` does.
- Speech.SpeechHook.OnStart, OnResult, OnError and OnEnd: require that the event comes from a recognition the hook created (`id < created`). Only those recognitions carry its handlers.
- JavaScript strings are UTF-16 code units. The model uses Unicode scalar values. The white-space set is the ECMAScript one, written out code point by code point.
