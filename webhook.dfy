/** The per-call conversation state machine of the Twilio webhook, on values.
    A store maps each in-progress call (its `CallSid`) to the chat history
    sent to the language model. `Step` is what one webhook invocation does
    to the store and what it answers. The `Server.CallBot` class performs
    the same transition in place. */
module Webhook {

  import opened Wrappers
  import opened Twiml
  import Text

  datatype Role = System | Assistant | User

  /** One chat message as it is sent to the language model. */
  datatype Msg = Msg(role: Role, content: string)

  type Store = map<string, seq<Msg>>

  /** One webhook invocation: the call it is for, the `SpeechResult` field of
      the request (absent when nothing was transcribed), and what the
      language-model request produced (`None` when it failed). */
  datatype Event = Event(callSid: string, speech: Option<string>, reply: Option<string>)

  /** What an invocation leaves behind: the new store, the text it sent
      to speech synthesis (`None` when it synthesized nothing), and the
      TwiML verbs of its answer. */
  datatype Outcome = Outcome(store: Store, synthesized: Option<string>, response: seq<Action>)

  /** The persona instructions seeded as the system message of every call. */
  const Persona: string :=
    "\nTu prends le rôle d'un commercial pour la marque SourLoops Free Spirits. Tu te présentes en tant que tel.\n"
    + "Tu appelles des professionnels du secteur CHR : bars à cocktails, cavistes, hôtels, restaurants, distributeurs de boissons.\n"
    + "Ton objectif est de qualifier le prospect afin de savoir s’il pourrait être client.\n\n"
    + "Sois poli, professionnel, accessible et direct.\n"
    + "Si la personne semble intéressée, propose de lui envoyer un catalogue ou de la rappeler.\n"
    + "Finis toujours par remercier l’interlocuteur.\n"

  /** The opening line, spoken as the first assistant message. */
  const Intro: string :=
    "Bonjour, je suis Prune de la marque SourLoops Free Spirits. \n"
    + "Je vous appelle dans le cadre de votre activité pour savoir si vous seriez intéressé par des spiritueux sans alcool haut de gamme pour vos cocktails ou votre boutique."

  /** The reply used when the language-model request fails. */
  const Fallback: string := "Désolé, je n’ai pas compris."

  /** Spoken (voice Polly.Celine) when a known call sends no speech. */
  const Apology: string := "Je n’ai pas compris, je vais devoir raccrocher. Bonne journée !"
  const ApologyVoice: string := "Polly.Celine"

  /** Spoken after the last reply of a call. */
  const Goodbye: string := "Merci pour votre temps. Au revoir !"

  /** Spoken while the speech capture window is open. */
  const ListeningPrompt: string := "Je vous écoute."

  /** Where the speech capture posts its result: this webhook again. */
  const WebhookPath: string := "/twilio-webhook"

  /** The one file every synthesis writes to, under the server's base URL. */
  const AudioPath: string := "/public/response.mp3"

  /** A caller utterance holding this word (in any ASCII case) ends the call. */
  const ClosingKeyword: string := "merci"

  /** A history that reaches this many messages ends the call. */
  const MaxHistory: nat := 10

  /** The history a new call is seeded with. */
  function Greeting(): seq<Msg>
  {
    [Msg(System, Persona), Msg(Assistant, Intro)]
  }

  /** The text the language-model step hands back: the model's answer, or
      the fixed fallback when the request failed. */
  function DialogueReply(reply: Option<string>): string
  {
    match reply
    case Some(text) => text
    case None => Fallback
  }

  /** JavaScript truthiness of `SpeechResult`: absent and empty are falsy. */
  predicate Heard(speech: Option<string>)
  {
    speech.Some? && speech.value != ""
  }

  /** The termination test, evaluated after both messages of the turn have
      been appended: the utterance holds the closing keyword once lowercased,
      or the history has reached the ceiling. */
  predicate EndsConversation(speech: string, historyLength: nat)
  {
    Text.Includes(Text.ToLower(speech), ClosingKeyword) || historyLength >= MaxHistory
  }

  function AudioUrl(baseUrl: string): string
  {
    baseUrl + AudioPath
  }

  function ListenVerb(): Action
  {
    Gather(WebhookPath, ListeningPrompt)
  }

  /** One webhook invocation, as a reference definition on values. */
  function Step(baseUrl: string, store: Store, ev: Event): Outcome
  {
    var sid := ev.callSid;
    if sid !in store then
      Outcome(store[sid := Greeting()], Some(Intro), [Play(AudioUrl(baseUrl)), ListenVerb()])
    else if !Heard(ev.speech) then
      Outcome(store - {sid}, None, [Say(Apology, Some(ApologyVoice))])
    else
      var answer := DialogueReply(ev.reply);
      var history := store[sid] + [Msg(User, ev.speech.value), Msg(Assistant, answer)];
      if EndsConversation(ev.speech.value, |history|) then
        Outcome(store - {sid}, Some(answer), [Play(AudioUrl(baseUrl)), Say(Goodbye, None)])
      else
        Outcome(store[sid := history], Some(answer), [Play(AudioUrl(baseUrl)), ListenVerb()])
  }

  /** Any sequence of invocations, one after another. */
  function Run(baseUrl: string, store: Store, events: seq<Event>): Store
    decreases |events|
  {
    if events == [] then store
    else Run(baseUrl, Step(baseUrl, store, events[0]).store, events[1..])
  }

  /** The shape of every stored history: the seeded system and assistant
      messages, then (user, assistant) pairs whose user part is non-empty,
      and a length of 2, 4, 6 or 8. */
  ghost predicate WellFormedHistory(h: seq<Msg>)
  {
    && 2 <= |h| <= 8 && |h| % 2 == 0
    && h[..2] == Greeting()
    && (forall i :: 2 <= i < |h| && i % 2 == 0 ==> h[i].role == User && h[i].content != "")
    && (forall i :: 2 <= i < |h| && i % 2 == 1 ==> h[i].role == Assistant)
  }

  ghost predicate StoreInvariant(store: Store)
  {
    forall sid :: sid in store ==> WellFormedHistory(store[sid])
  }

  // ---------------------------------------------------------------------
  // One invocation

  /** An unknown call is seeded with the greeting, whatever speech or reply
      came with it, and is answered with the intro audio and a capture window. */
  lemma NewCallIsGreeted(baseUrl: string, store: Store, ev: Event)
    requires ev.callSid !in store
    ensures var o := Step(baseUrl, store, ev);
      && o.store == store[ev.callSid := Greeting()]
      && o.synthesized == Some(Intro)
      && o.response == [Play(AudioUrl(baseUrl)), Gather(WebhookPath, ListeningPrompt)]
  {
  }

  /** A known call that sends no speech (absent or empty) is removed and
      answered with the apology alone; the language model plays no part. */
  lemma SilenceHangsUp(baseUrl: string, store: Store, ev: Event, otherReply: Option<string>)
    requires ev.callSid in store && !Heard(ev.speech)
    ensures var o := Step(baseUrl, store, ev);
      && o.store == store - {ev.callSid}
      && o.synthesized == None
      && o.response == [Say(Apology, Some(ApologyVoice))]
      && o == Step(baseUrl, store, ev.(reply := otherReply))
  {
  }

  /** A known call that speaks gets the user message and then the reply
      appended after everything it had; if the call stays open, that is what
      is stored, and the reply is what was synthesized. */
  lemma SpeechAppendsTurn(baseUrl: string, store: Store, ev: Event)
    requires ev.callSid in store && Heard(ev.speech)
    ensures var o := Step(baseUrl, store, ev);
      && o.synthesized == Some(DialogueReply(ev.reply))
      && (ev.callSid in o.store ==>
            o.store[ev.callSid] == store[ev.callSid] + [Msg(User, ev.speech.value), Msg(Assistant, DialogueReply(ev.reply))])
  {
  }

  /** A failed language-model request still adds an assistant message: the
      fallback text, which is also what the caller hears. */
  lemma FailedReplyFallsBack(baseUrl: string, store: Store, ev: Event)
    requires ev.callSid in store && Heard(ev.speech) && ev.reply == None
    ensures var o := Step(baseUrl, store, ev);
      && o.synthesized == Some("Désolé, je n’ai pas compris.")
      && (ev.callSid in o.store ==>
            && |o.store[ev.callSid]| == |store[ev.callSid]| + 2
            && o.store[ev.callSid][|o.store[ev.callSid]| - 1] == Msg(Assistant, "Désolé, je n’ai pas compris."))
  {
  }

  /** The closing turn: the reply audio, then the goodbye, no capture window,
      and the call is removed. */
  lemma ClosingTurnEnds(baseUrl: string, store: Store, ev: Event)
    requires ev.callSid in store && Heard(ev.speech)
    requires EndsConversation(ev.speech.value, |store[ev.callSid]| + 2)
    ensures var o := Step(baseUrl, store, ev);
      && o.store == store - {ev.callSid}
      && o.response == [Play(AudioUrl(baseUrl)), Say(Goodbye, None)]
  {
  }

  /** Any other speaking turn keeps the call, two messages longer, and
      answers with the reply audio and a capture window. */
  lemma OpenTurnContinues(baseUrl: string, store: Store, ev: Event)
    requires ev.callSid in store && Heard(ev.speech)
    requires !EndsConversation(ev.speech.value, |store[ev.callSid]| + 2)
    ensures var o := Step(baseUrl, store, ev);
      && ev.callSid in o.store
      && |o.store[ev.callSid]| == |store[ev.callSid]| + 2
      && o.response == [Play(AudioUrl(baseUrl)), Gather(WebhookPath, ListeningPrompt)]
  {
  }

  /** An utterance holding the keyword in any ASCII case ("Merci", "MERCI",
      "merci beaucoup") ends the call, even on its first speaking turn. */
  lemma KeywordInAnyCaseEnds(baseUrl: string, store: Store, ev: Event, keyword: string)
    requires ev.callSid in store && Heard(ev.speech)
    requires Text.ToLower(keyword) == ClosingKeyword && Text.Includes(ev.speech.value, keyword)
    ensures ev.callSid !in Step(baseUrl, store, ev).store
    ensures Step(baseUrl, store, ev).response == [Play(AudioUrl(baseUrl)), Say(Goodbye, None)]
  {
    Text.LowerKeepsInclusion(ev.speech.value, keyword);
  }

  /** A history at the largest stored length ends on the next speaking turn,
      whatever was said and whatever the model answered. */
  lemma CeilingEnds(baseUrl: string, store: Store, ev: Event)
    requires ev.callSid in store && |store[ev.callSid]| >= MaxHistory - 2 && Heard(ev.speech)
    ensures ev.callSid !in Step(baseUrl, store, ev).store
    ensures !Listens(Step(baseUrl, store, ev).response)
  {
  }

  /** Entries of every other call are neither added, removed nor changed. */
  lemma StepFrame(baseUrl: string, store: Store, ev: Event, sid: string)
    requires sid != ev.callSid
    ensures var o := Step(baseUrl, store, ev);
      && (sid in o.store <==> sid in store)
      && (sid in store ==> o.store[sid] == store[sid])
  {
  }

  /** The answer opens a capture window exactly when the call is still
      stored afterwards: a response never both ends the call and listens. */
  lemma ListensIffKept(baseUrl: string, store: Store, ev: Event)
    ensures var o := Step(baseUrl, store, ev);
      Listens(o.response) <==> ev.callSid in o.store
  {
    var o := Step(baseUrl, store, ev);
    if ev.callSid in o.store {
      assert o.response[|o.response| - 1].Gather?;
    }
  }

  /** Whenever the answer plays the audio file, the file holds the last
      assistant line of the turn; when the call stays open that line is the
      last stored message. */
  lemma PlayedAudioIsLastAssistantLine(baseUrl: string, store: Store, ev: Event)
    ensures var o := Step(baseUrl, store, ev);
      && (o.synthesized.Some? <==> o.response[0].Play?)
      && (o.synthesized.Some? && ev.callSid in o.store ==>
            var h := o.store[ev.callSid];
            h[|h| - 1] == Msg(Assistant, o.synthesized.value))
  {
  }

  // ---------------------------------------------------------------------
  // The invariant across invocations

  /** Appending a user message and an assistant message to a well-formed
      history keeps its shape as long as the ceiling is not reached. */
  lemma AppendTurnKeepsShape(h: seq<Msg>, said: string, answer: string)
    requires WellFormedHistory(h) && said != "" && |h| + 2 < MaxHistory
    ensures WellFormedHistory(h + [Msg(User, said), Msg(Assistant, answer)])
  {
    var h' := h + [Msg(User, said), Msg(Assistant, answer)];
    assert h'[..2] == h[..2];
    forall i | 2 <= i < |h'|
      ensures i % 2 == 0 ==> h'[i].role == User && h'[i].content != ""
      ensures i % 2 == 1 ==> h'[i].role == Assistant
    {
      if i < |h| {
        assert h'[i] == h[i];
      }
    }
  }

  lemma StepPreservesInvariant(baseUrl: string, store: Store, ev: Event)
    requires StoreInvariant(store)
    ensures StoreInvariant(Step(baseUrl, store, ev).store)
  {
    var sid := ev.callSid;
    if sid in store && Heard(ev.speech) {
      var h := store[sid] + [Msg(User, ev.speech.value), Msg(Assistant, DialogueReply(ev.reply))];
      if !EndsConversation(ev.speech.value, |h|) {
        AppendTurnKeepsShape(store[sid], ev.speech.value, DialogueReply(ev.reply));
      }
    }
  }

  /** Every stored history is well formed after any sequence of invocations
      that starts from the empty store (or any well-formed one). */
  lemma {:induction false} RunPreservesInvariant(baseUrl: string, store: Store, events: seq<Event>)
    requires StoreInvariant(store)
    ensures StoreInvariant(Run(baseUrl, store, events))
    decreases |events|
  {
    if events != [] {
      StepPreservesInvariant(baseUrl, store, events[0]);
      RunPreservesInvariant(baseUrl, Step(baseUrl, store, events[0]).store, events[1..]);
    }
  }

  /** Invocations for other calls leave a call's entry as it was. */
  lemma {:induction false} RunFrame(baseUrl: string, store: Store, events: seq<Event>, sid: string)
    requires forall k :: 0 <= k < |events| ==> events[k].callSid != sid
    ensures sid in Run(baseUrl, store, events) <==> sid in store
    ensures sid in store ==> Run(baseUrl, store, events)[sid] == store[sid]
    decreases |events|
  {
    if events != [] {
      StepFrame(baseUrl, store, events[0], sid);
      RunFrame(baseUrl, Step(baseUrl, store, events[0]).store, events[1..], sid);
    }
  }

  /** How many of `events` are for call `sid`. */
  function TurnsFor(events: seq<Event>, sid: string): nat
    decreases |events|
  {
    if events == [] then 0
    else (if events[0].callSid == sid then 1 else 0) + TurnsFor(events[1..], sid)
  }

  /** Call `sid` is still stored after each of `events`. */
  ghost predicate StaysOpen(baseUrl: string, store: Store, sid: string, events: seq<Event>)
    decreases |events|
  {
    events == [] ||
    var next := Step(baseUrl, store, events[0]).store;
    sid in next && StaysOpen(baseUrl, next, sid, events[1..])
  }

  /** A stored call grows by two messages on each of its own invocations it
      survives, so it survives at most three of them, interleaved with any
      invocations for other calls: its fourth speaking turn ends it at the
      latest. */
  lemma {:induction false} OpenCallOutlivesAtMostThreeTurns(baseUrl: string, store: Store, sid: string, events: seq<Event>)
    requires StoreInvariant(store) && sid in store
    requires StaysOpen(baseUrl, store, sid, events)
    ensures |store[sid]| + 2 * TurnsFor(events, sid) <= 8
    ensures TurnsFor(events, sid) <= 3
    decreases |events|
  {
    if events != [] {
      var ev := events[0];
      var next := Step(baseUrl, store, ev).store;
      StepPreservesInvariant(baseUrl, store, ev);
      if ev.callSid == sid {
        assert |next[sid]| == |store[sid]| + 2;
      } else {
        StepFrame(baseUrl, store, ev, sid);
      }
      OpenCallOutlivesAtMostThreeTurns(baseUrl, next, sid, events[1..]);
    }
  }

  // ---------------------------------------------------------------------
  // Worked scenarios

  /** "Je suis intéressé" does not hold the keyword once lowercased. */
  lemma InterestedIsNoKeyword()
    ensures !Text.Includes(Text.ToLower("Je suis intéressé"), ClosingKeyword)
  {
    var said := "Je suis intéressé";
    assert 'm' !in said && 'M' !in said;
    Text.LowerLacksLetter(said, 'm');
    if Text.Includes(Text.ToLower(said), ClosingKeyword) {
      Text.IncludesNeedsFirstChar(Text.ToLower(said), ClosingKeyword);
    }
  }

  /** "merci beaucoup" holds the keyword once lowercased. */
  lemma ThanksIsKeyword()
    ensures Text.Includes(Text.ToLower("merci beaucoup"), ClosingKeyword)
  {
    Text.LowerFindsLowercasePrefix("merci beaucoup", ClosingKeyword);
  }

  /** A new call is greeted; "Je suis intéressé" keeps it open at four
      messages; "merci beaucoup" then ends it. */
  lemma ThanksOnSecondTurnEnds(baseUrl: string, answer1: Option<string>, answer2: Option<string>)
    ensures var s1 := Step(baseUrl, map[], Event("CA1", None, None));
      && s1.store == map["CA1" := Greeting()] && Listens(s1.response)
      && var s2 := Step(baseUrl, s1.store, Event("CA1", Some("Je suis intéressé"), answer1));
      && "CA1" in s2.store && |s2.store["CA1"]| == 4 && Listens(s2.response)
      && var s3 := Step(baseUrl, s2.store, Event("CA1", Some("merci beaucoup"), answer2));
      && "CA1" !in s3.store && !Listens(s3.response)
  {
    var e1 := Event("CA1", None, None);
    var e2 := Event("CA1", Some("Je suis intéressé"), answer1);
    var e3 := Event("CA1", Some("merci beaucoup"), answer2);
    var s1 := Step(baseUrl, map[], e1);
    NewCallIsGreeted(baseUrl, map[], e1);
    ListensIffKept(baseUrl, map[], e1);
    InterestedIsNoKeyword();
    OpenTurnContinues(baseUrl, s1.store, e2);
    var s2 := Step(baseUrl, s1.store, e2);
    ListensIffKept(baseUrl, s1.store, e2);
    ThanksIsKeyword();
    ClosingTurnEnds(baseUrl, s2.store, e3);
    ListensIffKept(baseUrl, s2.store, e3);
  }
}
