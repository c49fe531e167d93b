/** The static directory of backends: model identifier to chat-completions
    endpoint, and the sidebar's choice among its keys. */
module Backends {

  /** The keys of the directory, in the order the sidebar lists them. */
  const ModelNames: seq<string> :=
    ["meta/llama-2-7b-chat", "nv-mistralai/mistral-nemo-minitron-8b-8k-instruct"]

  const ModelOptions: map<string, string> := map[
    "meta/llama-2-7b-chat" := "http://0.0.0.0:8000/v1/chat/completions",
    "nv-mistralai/mistral-nemo-minitron-8b-8k-instruct" := "http://0.0.0.0:8080/v1/chat/completions"
  ]

  const LocalHost: string := "http://0.0.0.0:"
  const CompletionsPath: string := "/v1/chat/completions"

  /** A chat-completions URL on the local host. */
  predicate IsCompletionsUrl(url: string) {
    && |LocalHost| + |CompletionsPath| <= |url|
    && url[..|LocalHost|] == LocalHost
    && url[|url| - |CompletionsPath|..] == CompletionsPath
  }

  /** The model the sidebar select box returns for the option at `choice`;
      it only ever offers the directory's keys. */
  function SelectModel(choice: nat): (model: string)
    requires choice < |ModelNames|
    ensures model in ModelOptions
  {
    ModelNames[choice]
  }

  /** The endpoint looked up for the selected model. */
  function Endpoint(model: string): (url: string)
    requires model in ModelOptions
    ensures IsCompletionsUrl(url)
  {
    ModelOptions[model]
  }

  /** The select box offers exactly the directory's keys, each once. */
  lemma OptionsAreTheKeys()
    ensures forall m :: m in ModelOptions <==> m in ModelNames
    ensures |ModelNames| == |ModelOptions|
    ensures forall i, j :: 0 <= i < j < |ModelNames| ==> ModelNames[i] != ModelNames[j]
  {
  }

  /** Different models are served by different endpoints. */
  lemma EndpointsDistinct(m1: string, m2: string)
    requires m1 in ModelOptions && m2 in ModelOptions
    ensures m1 != m2 ==> Endpoint(m1) != Endpoint(m2)
  {
  }
}
