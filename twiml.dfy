/** The TwiML voice response a webhook call answers with, as the list of verbs
    it holds in document order. Rendering it to XML is not modelled. */
module Twiml {

  import opened Wrappers

  /** One TwiML verb.
      - `Play(url)`: play the audio file at `url`.
      - `Say(text, voice)`: speak `text` with the provider's built-in voice;
        `voice` is `None` for the default voice.
      - `Gather(action, prompt)`: listen for speech (`input: "speech"`), speak
        `prompt` while listening, and POST the transcription to `action`. */
  datatype Action =
    | Play(url: string)
    | Say(text: string, voice: Option<string>)
    | Gather(action: string, prompt: string)

  /** The caller hears the response and the provider then reopens a speech
      capture window, which calls the webhook again. A response without a
      `Gather` ends the call once it has been played. */
  predicate Listens(response: seq<Action>)
  {
    exists i :: 0 <= i < |response| && response[i].Gather?
  }
}
