# SourLoops call bot: the webhook's conversation state machine

The SourLoops call bot places outbound sales calls through Twilio and holds
a spoken conversation with whoever answers. Every time Twilio has something
for a call, it POSTs to `/twilio-webhook` with the call's `CallSid` and, when
it transcribed something, a `SpeechResult`. The server keeps one chat history
per `CallSid` in a module-level `Map`. One request does one of four things:

1. **Unknown call.** Seed the history with the persona (a `system` message) and
   the intro (an `assistant` message). Synthesize the intro, then answer with
   `Play` followed by a speech `Gather`. Any speech sent with this request is
   ignored.
2. **Known call, no speech.** An absent or empty `SpeechResult` is falsy in
   JavaScript. Answer with a single `Say` of the apology in voice Polly.Celine,
   with no `Gather`, and delete the call.
3. **Known call, speech.** Push the `user` message into the stored array. Ask
   the language model for a reply, which falls back to a fixed sentence if the
   request fails, and push it as an `assistant` message. Synthesize the reply
   and answer with `Play`.
4. **Termination.** The call ends if the lowercased speech contains `merci`, or
   if the history now holds at least 10 messages. In that case add the goodbye
   `Say` and delete the call. Otherwise add a `Gather`.

The model has four modules:

- **`Webhook`** (`webhook.dfy`) states one invocation as a value-level
  reference function, `Step` (server.js:81-152). It maps the store, the
  request and the language-model outcome to the new store, the text sent to
  synthesis, and the TwiML verbs. It also holds:
  - the constants;
  - the seed history `Greeting` (server.js:92-106);
  - `Heard`, the truthiness of `SpeechResult` (server.js:122);
  - the termination predicate `EndsConversation` (server.js:139);
  - the fallback choice `DialogueReply` (server.js:74-77);
  - the invariant on stored histories;
  - the lemmas.
- **`Server`** (`callbot.dfy`) holds the handler as the source writes it:
  - a class `CallBot` whose field `conversations` is the `Map`;
  - a field `audio` that stands for the shared `public/response.mp3`;
  - a method `HandleTurn` that updates the map in place. The two pushes into
    the aliased array are written back into the map entry.

  `HandleTurn` is proved to end in exactly the state and response that `Step`
  gives, and to keep the invariant.
- **`Text`** (`text.dfy`) holds the lowercasing and the substring search used
  by the termination test.
- **`Twiml`** (`twiml.dfy`) holds the response verbs.

The language model's reply is a parameter of the handler: `Some(text)` when the
request succeeded, `None` when it failed. The server's base URL is a
constructor parameter. Speech synthesis always succeeds. It overwrites the one
shared file, and `audio` records what that file was last synthesized from.

Behaviour of `server.js` worth stating:
- The closing remark is a second `Say`, after the reply audio
  (server.js:136-140).
- Termination is tested after both new messages are pushed, so the ceiling
  is reached at 10 messages. A call therefore ends on its fourth speaking
  turn at the latest (server.js:130-139).
- A first request for a `CallSid` only greets, even when it carries speech
  (server.js:88-119).
- An unknown `CallSid` is always seeded and a known one never is
  (server.js:88-92).
- Synthesis uses one fixed file for every call (server.js:24, 110, 136).

## Model

| member | source | states |
|---|---|---|
| `Server.CallBot.constructor` | server.js:21 | The server starts with no conversation in progress and no synthesized audio. |
| `Server.CallBot.GenerateVoice` | server.js:24-54 | Synthesis overwrites the shared audio file with the given text and answers the fixed path `/public/response.mp3`. |
| `Server.CallBot.HandleTurn` | server.js:81-152 | One webhook request leaves the map and the audio file in exactly the state `Webhook.Step` gives and answers its response. The pushes into the aliased history land in the map entry. Every stored history stays well formed. |
| `Text.LowerChar` | server.js:139 | Folds A-Z to a-z (code point plus 32) and keeps every other character; the result is never an ASCII capital. |
| `Text.ToLower` | server.js:139 | Lowercasing keeps the length, lowercases each character in place, and leaves no ASCII capital. |
| `Text.Includes` | server.js:139 | `includes` is true exactly when some index starts an occurrence of the pattern. |
| `Text.LowerKeepsOccurrence` | server.js:139 | An occurrence of a pattern stays at the same index once both strings are lowercased. |
| `Text.LowerKeepsInclusion` | server.js:139 | If a string contains a pattern in any case, its lowercase form contains the pattern's lowercase form. |
| `Webhook.NewCallIsGreeted` | server.js:88-118 | For an unknown `CallSid`, whatever the speech and reply: exactly `[system persona, assistant intro]` is stored, the intro is synthesized, and the answer is `Play` then `Gather("Je vous écoute.")`. |
| `Webhook.SilenceHangsUp` | server.js:122-126 | For a known call with absent or empty speech: the entry is removed, nothing is synthesized, the answer is the single apology `Say` with no `Gather`, and the outcome does not depend on the language model. |
| `Webhook.SpeechAppendsTurn` | server.js:129-133 | For a known call with speech: the reply is what gets synthesized. If the call is kept, its history is the old history plus the user message and then the assistant reply, with earlier entries unchanged. |
| `Webhook.FailedReplyFallsBack` | server.js:74-77 | When the language-model request fails, the text "Désolé, je n’ai pas compris." is synthesized. A kept history grows by two and ends with that assistant message. |
| `Webhook.ClosingTurnEnds` | server.js:139-142 | When the termination test holds, the call is removed and the answer is `Play` then the goodbye `Say`, with no `Gather`. |
| `Webhook.OpenTurnContinues` | server.js:145-151 | When the termination test fails, the call stays, its history is exactly two longer, and the answer is `Play` then `Gather`. |
| `Webhook.KeywordInAnyCaseEnds` | server.js:139 | An utterance containing "merci" in any ASCII case ends the call on that turn, whatever the history length. |
| `Webhook.CeilingEnds` | server.js:139 | A call holding 8 or more messages ends on its next speaking turn, whatever is said or answered. |
| `Webhook.StepFrame` | server.js:88-152 | The entry of every other `CallSid` is neither added, removed nor changed by an invocation. |
| `Webhook.ListensIffKept` | server.js:110-151 | The answer contains a `Gather` if and only if the call is still stored afterwards, so no answer both ends the call and listens. |
| `Webhook.PlayedAudioIsLastAssistantLine` | server.js:129-136 | The answer begins with `Play` exactly when something was synthesized. For a kept call, the synthesized text is the last stored message, which is an assistant message. |
| `Webhook.AppendTurnKeepsShape` | server.js:129-133 | Appending a non-empty user message and an assistant message to a well-formed history below the ceiling keeps it well formed. |
| `Webhook.StepPreservesInvariant` | server.js:88-152 | Each invocation keeps every stored history well formed. Well formed means: the seeded system and assistant messages, then alternating non-empty user and assistant messages, and a length of 2, 4, 6 or 8. |
| `Webhook.RunPreservesInvariant` | server.js:81-152 | Every stored history stays well formed across any sequence of invocations. |
| `Webhook.RunFrame` | server.js:81-152 | Invocations for other calls leave a call's entry as it was, across any sequence of them. |
| `Webhook.OpenCallOutlivesAtMostThreeTurns` | server.js:129-143 | Interleaved with any invocations for other calls, a stored call survives at most three of its own invocations, each adding two messages. Its fourth speaking turn ends it at the latest. |
| `Webhook.ThanksOnSecondTurnEnds` | server.js:81-152 | Worked case: "CA1" is greeted; "Je suis intéressé" keeps it at four messages and listening; "merci beaucoup" removes it and the answer does not listen. |

## Left out

- The Express setup, body parsing, static files and server start-up
  (server.js:1-19, 172-175) are not modelled. So is rendering the response to
  TwiML XML: the response is its list of verbs. Within a verb, the constant
  `Gather` options `input: "speech"` and `method: "POST"` are not represented.
- Server.CallBot.GenerateVoice: the ElevenLabs request and the file stream are
  external I/O. Synthesis is taken to succeed. In the source, a failed
  synthesis makes the handler reject without answering. On the speaking path,
  both pushes have already grown the history (server.js:130-135). On first
  contact, the seed is already stored (server.js:92) before the intro is
  synthesized (server.js:108). The call then has no answer, and its next
  request is handled as a known call.
- The language-model request inside `getOpenAIResponse` (server.js:57-73) is
  external I/O. Only its outcome is kept, as the `reply` parameter, with the
  fallback choice (server.js:74-77). The error log line is not modelled.
- Requests run one at a time and each runs to completion. Interleaving across
  the `await`s (server.js:108, 132, 135) is not modelled. Neither is the
  clobbering of the one shared `response.mp3` by concurrent calls, which the
  fixed file name allows.
- The `/call` launcher (server.js:155-170) only forwards to Twilio's
  call-creation API and reports its error. It is not part of this model.
- Text.ToLower: folds only A-Z, while JavaScript's `toLowerCase` folds all of
  Unicode. For the keyword "merci" the only other character that matters is
  U+0130, which JavaScript lowercases to "i" followed by U+0307. So "MERCİ" ends
  a call in the source but not in the model.
- `CallSid`, `SpeechResult` and `BASE_URL` are taken to be strings or absent.
  The model does not cover a missing `CallSid` used as a map key, or an unset
  `BASE_URL` rendered as "undefined".
