/** The session transcript and what one run of the chat script does to it:
    create it when absent, append the user's prompt, post the trimmed
    transcript, and append the assistant's reply when one came back. */
module Session {
  import opened Messages
  import opened Trimming
  import opened Backends
  import opened Completion

  /** What the backend call produced, as far as the script looks at it:
      nothing (a request error), or a decoded body together with whether it
      passes `response and 'choices' in response` and the string at
      `choices[0].message.content`, or None when that indexing raises. A body
      the `in` test itself raises on (a number, `true`) is `Response(false, _)`:
      it leaves the same transcript as the failure branch. */
  datatype ApiResult = NoResponse | Response(hasChoices: bool, reply: Option<string>)

  /** One run's inputs: the chat box's value (None when nothing was
      submitted) and the backend's answer to the request of that run. */
  datatype Submission = Submission(prompt: Option<string>, result: ApiResult)

  /** The chat box held a non-empty prompt (an empty string is falsy). */
  predicate Submitted(prompt: Option<string>) {
    prompt.Some? && prompt.value != ""
  }

  /** The body passed the "choices" test and its first choice's content was read. */
  predicate Answered(result: ApiResult) {
    result.Response? && result.hasChoices && result.reply.Some?
  }

  /** The transcript after one run, given the transcript before it. */
  function Step(history: seq<Turn>, prompt: Option<string>, result: ApiResult): (h: seq<Turn>)
    ensures !Submitted(prompt) ==> h == history
    ensures Submitted(prompt) ==>
      && |h| == |history| + (if Answered(result) then 2 else 1)
      && h[..|history|] == history
      && h[|history|] == Turn(User, prompt.value)
    ensures Submitted(prompt) && Answered(result) ==>
      h[|history| + 1] == Turn(Assistant, result.reply.value)
  {
    if !Submitted(prompt) then history
    else if Answered(result) then
      history + [Turn(User, prompt.value), Turn(Assistant, result.reply.value)]
    else history + [Turn(User, prompt.value)]
  }

  /** The transcript after a series of runs. */
  function Replay(history: seq<Turn>, runs: seq<Submission>): (h: seq<Turn>)
    decreases |runs|
  {
    if runs == [] then history
    else Replay(Step(history, runs[0].prompt, runs[0].result), runs[1..])
  }

  /** The shape every transcript built by the script has: user turns are
      never empty, and every assistant turn answers the user turn just
      before it. */
  ghost predicate WellFormed(h: seq<Turn>) {
    && (forall i :: 0 <= i < |h| && h[i].role == User ==> h[i].content != "")
    && (forall i :: 0 <= i < |h| && h[i].role == Assistant ==> AnswersUserTurn(h, i))
  }

  /** Entry `i` directly follows a user turn. */
  ghost predicate AnswersUserTurn(h: seq<Turn>, i: int)
    requires 0 <= i < |h|
  {
    0 < i && h[i - 1].role == User
  }

  /** Number of user turns in a transcript. */
  function UserTurns(h: seq<Turn>): nat
    decreases |h|
  {
    if h == [] then 0
    else UserTurns(h[..|h| - 1]) + (if h[|h| - 1].role == User then 1 else 0)
  }

  /** Number of runs whose prompt was non-empty. */
  function SubmittedCount(runs: seq<Submission>): nat
    decreases |runs|
  {
    if runs == [] then 0
    else (if Submitted(runs[0].prompt) then 1 else 0) + SubmittedCount(runs[1..])
  }

  lemma StepPreservesWellFormed(history: seq<Turn>, prompt: Option<string>, result: ApiResult)
    requires WellFormed(history)
    ensures WellFormed(Step(history, prompt, result))
  {
    var h := Step(history, prompt, result);
    forall i | 0 <= i < |h| && h[i].role == Assistant
      ensures AnswersUserTurn(h, i)
    {
      if i < |history| {
        assert AnswersUserTurn(history, i);
        assert h[i - 1] == history[i - 1];
      }
    }
  }

  /** After a submission the transcript's most recent user turn is the
      prompt just submitted, whether or not an answer was appended. */
  lemma StepEndsWithPrompt(history: seq<Turn>, prompt: Option<string>, result: ApiResult)
    requires Submitted(prompt)
    ensures LastExchange(Step(history, prompt, result)) == [Turn(User, prompt.value)]
  {
    var h := Step(history, prompt, result);
    var k := |history|;
    assert IsLastUserIndex(h, k);
    LastExchangeFindsLastUser(h, k);
  }

  /** Runs only ever append: the earlier transcript is a prefix of the later. */
  lemma {:induction false} ReplayAppendOnly(history: seq<Turn>, runs: seq<Submission>)
    ensures history <= Replay(history, runs)
    decreases |runs|
  {
    if runs != [] {
      var next := Step(history, runs[0].prompt, runs[0].result);
      assert history <= next;
      ReplayAppendOnly(next, runs[1..]);
    }
  }

  /** Every transcript the script builds from a well-formed start is well formed. */
  lemma {:induction false} ReplayWellFormed(history: seq<Turn>, runs: seq<Submission>)
    requires WellFormed(history)
    ensures WellFormed(Replay(history, runs))
    decreases |runs|
  {
    if runs != [] {
      StepPreservesWellFormed(history, runs[0].prompt, runs[0].result);
      ReplayWellFormed(Step(history, runs[0].prompt, runs[0].result), runs[1..]);
    }
  }

  lemma {:induction false} UserTurnsAppend(h: seq<Turn>, t: Turn)
    ensures UserTurns(h + [t]) == UserTurns(h) + (if t.role == User then 1 else 0)
  {
    assert (h + [t])[..|h|] == h;
  }

  /** One run adds one user turn when its prompt is non-empty, none otherwise. */
  lemma StepUserTurns(history: seq<Turn>, prompt: Option<string>, result: ApiResult)
    ensures UserTurns(Step(history, prompt, result)) ==
      UserTurns(history) + (if Submitted(prompt) then 1 else 0)
  {
    if Submitted(prompt) {
      var withPrompt := history + [Turn(User, prompt.value)];
      UserTurnsAppend(history, Turn(User, prompt.value));
      if Answered(result) {
        assert Step(history, prompt, result) == withPrompt + [Turn(Assistant, result.reply.value)];
        UserTurnsAppend(withPrompt, Turn(Assistant, result.reply.value));
      }
    }
  }

  /** Over a series of runs, each non-empty prompt contributes exactly one
      user turn, and nothing else does. */
  lemma {:induction false} ReplayUserTurns(history: seq<Turn>, runs: seq<Submission>)
    ensures UserTurns(Replay(history, runs)) == UserTurns(history) + SubmittedCount(runs)
    decreases |runs|
  {
    if runs != [] {
      StepUserTurns(history, runs[0].prompt, runs[0].result);
      ReplayUserTurns(Step(history, runs[0].prompt, runs[0].result), runs[1..]);
    }
  }

  /** `st.session_state`: the transcript under the "messages" key, absent
      until the first run of the session creates it. */
  class SessionState {
    var messages: Option<seq<Turn>>

    ghost predicate Valid()
      reads this
    {
      messages.Some? ==> WellFormed(messages.value)
    }

    /** A new session: no "messages" key yet. */
    constructor ()
      ensures Valid() && messages == None
    {
      messages := None;
    }

    /** Creates the empty transcript only when none exists; an existing
        transcript is left exactly as it was. */
    method InitHistory()
      requires Valid()
      modifies this
      ensures Valid() && messages.Some?
      ensures old(messages).Some? ==> messages == old(messages)
      ensures old(messages).None? ==> messages == Some([])
    {
      if messages.None? {
        messages := Some([]);
      }
    }

    /** Handles the chat box: appends the user turn, builds the request
        that is posted to `endpoint`, and appends the assistant turn when the
        response carries choices. Returns the request sent, if any. */
    method Submit(model: string, endpoint: string, prompt: Option<string>, result: ApiResult)
      returns (sent: Option<Request>)
      requires Valid() && messages.Some?
      modifies this
      ensures Valid() && messages.Some?
      ensures messages.value == Step(old(messages.value), prompt, result)
      ensures !Submitted(prompt) ==> sent == None
      ensures Submitted(prompt) ==>
        sent == Some(Request(endpoint, MakePayload(model, old(messages.value) + [Turn(User, prompt.value)])))
      ensures sent.Some? ==> sent.value.payload.messages == [Turn(User, prompt.value)]
    {
      ghost var before := messages.value;
      sent := None;
      if prompt.Some? && prompt.value != "" {
        var text := prompt.value;
        messages := Some(messages.value + [Turn(User, text)]);
        var formatted := GetLastExchange(messages.value);
        sent := Some(Request(endpoint, Payload(model, formatted, TopP, Completions, MaxTokens)));
        StepEndsWithPrompt(before, prompt, NoResponse);
        if result.Response? && result.hasChoices {
          match result.reply
          case Some(content) =>
            messages := Some(messages.value + [Turn(Assistant, content)]);
          case None =>
            // indexing the first choice raises: the script stops with an
            // exception, and the transcript keeps the user turn only
        }
      }
      StepPreservesWellFormed(before, prompt, result);
    }

    /** One run of the script: look up the endpoint of the selected model,
        create the transcript if needed, then handle the chat box. */
    method Rerun(choice: nat, prompt: Option<string>, result: ApiResult)
      returns (sent: Option<Request>)
      requires Valid()
      requires choice < |ModelNames|
      modifies this
      ensures Valid() && messages.Some?
      ensures messages.value ==
        Step(if old(messages).Some? then old(messages).value else [], prompt, result)
      ensures Submitted(prompt) <==> sent.Some?
      ensures sent.Some? ==>
        && sent.value.endpoint == Endpoint(SelectModel(choice))
        && sent.value.payload == MakePayload(SelectModel(choice), [Turn(User, prompt.value)])
      ensures sent.Some? ==>
        forall m :: m in ModelOptions && Endpoint(m) == sent.value.endpoint ==> m == SelectModel(choice)
    {
      var model := SelectModel(choice);
      var endpoint := Endpoint(model);
      InitHistory();
      ghost var before := messages.value;
      sent := Submit(model, endpoint, prompt, result);
      if Submitted(prompt) {
        PayloadIgnoresHistory(model, before, [Turn(User, prompt.value)]);
      }
      forall m | m in ModelOptions && Endpoint(m) == endpoint
        ensures m == model
      {
        EndpointsDistinct(m, model);
      }
    }
  }
}
