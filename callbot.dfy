/** The webhook server's mutable state and its request handler. The
    module-level map of conversations and the shared audio file are fields
    of one object. Each webhook request is one call of `HandleTurn`, run to
    completion. */
module Server {

  import opened Wrappers
  import opened Twiml
  import opened Webhook

  class CallBot {
    /** The history of every call in progress, keyed by `CallSid`. */
    var conversations: map<string, seq<Msg>>
    /** What the shared file `public/response.mp3` was last synthesized
        from (`None` before the first synthesis). */
    var audio: Option<string>
    /** The server's public base URL (the `BASE_URL` setting). */
    const baseUrl: string

    ghost predicate Valid()
      reads this
    {
      StoreInvariant(conversations)
    }

    constructor (baseUrl: string)
      ensures Valid()
      ensures conversations == map[] && audio == None && this.baseUrl == baseUrl
    {
      this.baseUrl := baseUrl;
      conversations := map[];
      audio := None;
    }

    /** Speech synthesis: writes the audio for `text` over the one shared
        file and answers the file's path. Synthesis is taken to succeed. */
    method GenerateVoice(text: string) returns (path: string)
      modifies this`audio
      ensures audio == Some(text)
      ensures path == AudioPath
    {
      audio := Some(text);
      path := AudioPath;
    }

    /** The webhook: handles one request for call `callSid` carrying
        `speech`, given what the language-model request would produce. */
    method HandleTurn(callSid: string, speech: Option<string>, reply: Option<string>)
      returns (response: seq<Action>)
      requires Valid()
      modifies this
      ensures Valid()
      ensures var o := Step(baseUrl, old(conversations), Event(callSid, speech, reply));
        && conversations == o.store
        && response == o.response
        && audio == (if o.synthesized.Some? then o.synthesized else old(audio))
    {
      ghost var o := Step(baseUrl, conversations, Event(callSid, speech, reply));
      StepPreservesInvariant(baseUrl, conversations, Event(callSid, speech, reply));
      response := [];

      // First contact: seed the history and greet.
      if callSid !in conversations {
        conversations := conversations[callSid := Greeting()];
        var _ := GenerateVoice(Intro);
        response := response + [Play(baseUrl + AudioPath)];
        response := response + [Gather(WebhookPath, ListeningPrompt)];
        assert conversations == o.store && response == o.response;
        return;
      }

      // Nothing transcribed: apologise and forget the call.
      if speech.None? || speech.value == "" {
        response := response + [Say(Apology, Some(ApologyVoice))];
        conversations := conversations - {callSid};
        assert conversations == o.store && response == o.response;
        return;
      }

      // The stored array is pushed in place, so each push is written back.
      var said := speech.value;
      var history := conversations[callSid];
      history := history + [Msg(User, said)];
      conversations := conversations[callSid := history];

      var answer := DialogueReply(reply);
      history := history + [Msg(Assistant, answer)];
      conversations := conversations[callSid := history];
      assert history == old(conversations)[callSid] + [Msg(User, said), Msg(Assistant, answer)];

      var _ := GenerateVoice(answer);
      response := response + [Play(baseUrl + AudioPath)];

      if EndsConversation(said, |history|) {
        response := response + [Say(Goodbye, None)];
        conversations := conversations - {callSid};
        assert conversations == o.store && response == o.response;
        return;
      }

      response := response + [Gather(WebhookPath, ListeningPrompt)];
      assert conversations == o.store && response == o.response;
    }
  }

  /** A worked instance with two calls in progress: "CA-a" and "CA-b" are
      greeted, then "CA-a" sends empty speech and is dropped while "CA-b"
      keeps its greeting, and the shared audio file still holds the intro. */
  method TwoCallsInterleaved(baseUrl: string, replyA: Option<string>)
  {
    var bot := new CallBot(baseUrl);
    var r1 := bot.HandleTurn("CA-a", None, None);
    assert r1 == [Play(baseUrl + AudioPath), Gather(WebhookPath, ListeningPrompt)];
    var r2 := bot.HandleTurn("CA-b", None, None);
    assert bot.conversations == map["CA-a" := Greeting(), "CA-b" := Greeting()];
    var r3 := bot.HandleTurn("CA-a", Some(""), replyA);
    assert r3 == [Say(Apology, Some(ApologyVoice))];
    assert "CA-a" !in bot.conversations && bot.conversations["CA-b"] == Greeting();
    assert bot.audio == Some(Intro);
  }
}
