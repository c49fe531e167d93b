/** The request body that `make_api_call` posts to the selected backend. */
module Completion {
  import opened Messages
  import opened Trimming

  const TopP: int := 1
  const Completions: int := 1  // the payload's "n"
  const MaxTokens: int := 600

  /** The JSON payload: model, messages, top_p, n and max_tokens. */
  datatype Payload = Payload(model: string, messages: seq<Turn>, topP: int, n: int, maxTokens: int)

  /** A request as it leaves the client: the endpoint and the payload. */
  datatype Request = Request(endpoint: string, payload: Payload)

  /** The payload built from the transcript: whatever its length, it carries
      at most the one most recent user turn, with fixed sampling settings. */
  function MakePayload(model: string, messages: seq<Turn>): (p: Payload)
    ensures p.model == model
    ensures p.topP == 1 && p.n == 1 && p.maxTokens == 600
    ensures |p.messages| <= 1
    ensures forall t :: t in p.messages ==> t.role == User && t in messages
    ensures p.messages == [] <==> !HasUserTurn(messages)
  {
    LastExchangeEmptyIff(messages);
    Payload(model, LastExchange(messages), TopP, Completions, MaxTokens)
  }

  /** The payload's one message is the transcript's most recent user turn. */
  lemma PayloadCarriesLastUserTurn(model: string, messages: seq<Turn>, i: int)
    requires IsLastUserIndex(messages, i)
    ensures MakePayload(model, messages).messages == [messages[i]]
  {
    LastExchangeFindsLastUser(messages, i);
  }

  /** Two transcripts that end in the same stretch holding a user turn give
      the same payload, whatever came before. */
  lemma PayloadIgnoresHistory(model: string, older: seq<Turn>, recent: seq<Turn>)
    requires HasUserTurn(recent)
    ensures MakePayload(model, older + recent) == MakePayload(model, recent)
  {
    LastExchangeIgnoresHistory(older, recent);
  }
}
