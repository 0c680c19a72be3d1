/**
 * `ollama_run_agentx_mcp.py`: the agent that decodes the model's whole
 * answer as JSON (no brace span), ends on a completion without recording
 * it, and follows a tool call with the model's `next_step` instead of
 * asking the user.  Tools are dispatched by the proxy dispatcher over the
 * five core sales tools.
 */
module AgentxMcpAgent {
  import opened Json
  import opened Py
  import opened Sales
  import opened McpClient
  import opened Prompt
  import opened Extract
  import AgentLoop
  import ProxyDispatch

  /** What the loop body makes of one model answer. */
  datatype Action =
    /** A truthy `complete` and a `str` `final_answer`: the loop ends. */
    | Finish(answer: string)
    /** A dict with a `tool` key: `next_step` (default `""`) becomes the next message. */
    | UseTool(tool: Json, params: Json, nextStep: Json)
    /** Anything else, including every answer whose handling raised. */
    | Answer

  /** The `if`/`elif`/`else` of lines 216-228 on a decoded answer; an exception escapes to line 229. */
  function Decide(obj: Json): Result<Action> {
    var complete :- Get(obj, JStr("complete"), JNull);
    if Truthy(complete) then
      var answer :- Subscript(obj, "final_answer");
      if answer.JStr? then Ok(Finish(answer.s)) else Err(NotRenderable(answer))
    else
      var hasTool :- Contains(obj, "tool");
      if hasTool then
        var tool :- Subscript(obj, "tool");
        var params :- Get(obj, JStr("parameters"), JObj([]));
        var next :- Get(obj, JStr("next_step"), JStr(""));
        Ok(UseTool(tool, params, next))
      else Ok(Answer)
  }

  /** `json.loads(response)` and the branches; every exception makes the answer a plain one. */
  function Read(decode: Decoder, response: string): Action {
    match decode(response)
    case Err(_) => Answer
    case Ok(obj) =>
      match Decide(obj)
      case Ok(action) => action
      case Err(_) => Answer
  }

  /** The history text of a tool call. */
  function ToolReply(tool: Json, result: string): string {
    "Tool " + Str(tool) + " result: " + result
  }

  /**
   * One round.  A completion leaves the history as it is; every other round
   * appends one entry for the current message.
   */
  function Step(dispatch: AgentLoop.Dispatcher, s: AgentLoop.State, t: AgentLoop.Turn, action: Action)
    : (r: AgentLoop.State)
    ensures r.done <==> action.Finish?
    ensures action.Finish? ==> r.history == s.history && r.current == s.current
    ensures !action.Finish? ==> |r.history| == |s.history| + 1 && r.history[..|s.history|] == s.history
                                && r.history[|s.history|].user == s.current
  {
    match action
    case Finish(_) => AgentLoop.State(s.history, s.current, true)
    case UseTool(tool, params, next) =>
      var history := s.history + [Entry(s.current, ToolReply(tool, dispatch(tool, params)))];
      assert history[..|s.history|] == s.history;
      AgentLoop.State(history, Str(next), false)
    case Answer =>
      var history := s.history + [Entry(s.current, t.output)];
      assert history[..|s.history|] == s.history;
      AgentLoop.State(history, t.reply, false)
  }

  predicate Finishes(decode: Decoder, t: AgentLoop.Turn) {
    Read(decode, t.output).Finish?
  }

  /** The index of the first finishing turn, or `|turns|` when there is none. */
  function FirstFinish(decode: Decoder, turns: seq<AgentLoop.Turn>): (r: nat)
    ensures r <= |turns|
    ensures r < |turns| ==> Finishes(decode, turns[r])
    ensures forall k :: 0 <= k < r ==> !Finishes(decode, turns[k])
    decreases |turns|
  {
    if |turns| == 0 then 0
    else if Finishes(decode, turns[0]) then 0
    else 1 + FirstFinish(decode, turns[1..])
  }

  /** One round of this script's loop body. */
  function Round(decode: Decoder, dispatch: AgentLoop.Dispatcher): (AgentLoop.State, AgentLoop.Turn) -> AgentLoop.State {
    (s: AgentLoop.State, t: AgentLoop.Turn) => Step(dispatch, s, t, Read(decode, t.output))
  }

  /** The state after playing the turns in order; rounds after the `break` change nothing. */
  function Run(decode: Decoder, dispatch: AgentLoop.Dispatcher, s: AgentLoop.State, turns: seq<AgentLoop.Turn>)
    : AgentLoop.State
  {
    AgentLoop.Played(Round(decode, dispatch), s, turns, |turns|)
  }

  /**
   * `main`'s loop, until the `break` or until the turns run out.  Every
   * round but the finishing one appended one history entry, so the history
   * is one shorter than the number of rounds exactly when the loop ended.
   */
  method Converse(decode: Decoder, dispatch: AgentLoop.Dispatcher, query: string, turns: seq<AgentLoop.Turn>)
    returns (history: seq<Entry>, current: string, rounds: nat, finished: bool)
    ensures AgentLoop.State(history, current, finished) == Run(decode, dispatch, AgentLoop.Start(query), turns)
    ensures rounds <= |turns| && |history| == if finished then rounds - 1 else rounds
    ensures finished <==> exists k :: 0 <= k < |turns| && Finishes(decode, turns[k])
    ensures finished ==> rounds > 0 && Finishes(decode, turns[rounds - 1])
                         && forall k :: 0 <= k < rounds - 1 ==> !Finishes(decode, turns[k])
    ensures !finished ==> rounds == |turns|
  {
    history, current, rounds, finished := [], query, 0, false;
    while rounds < |turns| && !finished
      invariant rounds <= |turns| && |history| == if finished then rounds - 1 else rounds
      invariant AgentLoop.State(history, current, finished)
             == AgentLoop.Played(Round(decode, dispatch), AgentLoop.Start(query), turns, rounds)
      invariant if finished then rounds == FirstFinish(decode, turns) + 1
                else rounds <= FirstFinish(decode, turns)
    {
      var t := turns[rounds];
      var action := Read(decode, t.output);
      ghost var before := AgentLoop.State(history, current, finished);
      match action {
        case Finish(_) =>
          finished := true;
        case UseTool(tool, params, next) =>
          var result := dispatch(tool, params);
          history := history + [Entry(current, ToolReply(tool, result))];
          current := Str(next);
        case Answer =>
          history := history + [Entry(current, t.output)];
          current := t.reply;
      }
      assert AgentLoop.State(history, current, finished) == Step(dispatch, before, t, action);
      assert Finishes(decode, turns[rounds]) == action.Finish?;
      rounds := rounds + 1;
    }
    if finished {
      AgentLoop.RunStopsWhenDone(Round(decode, dispatch), AgentLoop.Start(query), turns, rounds, |turns|);
    }
  }

  /** The dispatcher of this script: the five core sales tools, then the positional MCP call. */
  function Dispatcher(local: SalesTool, invoke: ProxyDispatch.Invoke, tools: seq<McpTool>): AgentLoop.Dispatcher {
    ProxyDispatch.Dispatcher(CoreTools, local, invoke, tools)
  }

  /** An answer that does not decode as a whole, prose around JSON included, is a plain answer. */
  lemma UndecodableIsAnswer(decode: Decoder, response: string)
    requires decode(response).Err?
    ensures Read(decode, response) == Answer
  {
  }

  /** A completion without `final_answer` raises `KeyError`, so the answer is handled as a plain one. */
  lemma MissingFinalAnswerIsAnswer(decode: Decoder, response: string, fs: Fields)
    requires decode(response) == Ok(JObj(fs))
    requires "complete" in Keys(fs) && Truthy(Lookup(fs, "complete").value)
    requires "final_answer" !in Keys(fs)
    ensures Read(decode, response) == Answer
  {
    GetFromDict(fs, "complete", JNull);
  }

  /** A completion with a `str` final answer wins over a `tool` key. */
  lemma CompletionFinishes(decode: Decoder, response: string, fs: Fields)
    requires decode(response) == Ok(JObj(fs))
    requires "complete" in Keys(fs) && Truthy(Lookup(fs, "complete").value)
    requires "final_answer" in Keys(fs) && Lookup(fs, "final_answer").value.JStr?
    ensures Read(decode, response) == Finish(Lookup(fs, "final_answer").value.s)
  {
    GetFromDict(fs, "complete", JNull);
    DictSubscript(fs, "final_answer");
  }

  /** A tool call takes `{}` as parameters and `""` as next step when the answer gives none. */
  lemma ToolCallRead(decode: Decoder, response: string, fs: Fields)
    requires decode(response) == Ok(JObj(fs))
    requires "complete" !in Keys(fs) || !Truthy(Lookup(fs, "complete").value)
    requires "tool" in Keys(fs)
    ensures Read(decode, response) == UseTool(Lookup(fs, "tool").value,
                                              Lookup(fs, "parameters").GetOr(JObj([])),
                                              Lookup(fs, "next_step").GetOr(JStr("")))
  {
    DecideToolCall(fs);
  }

  lemma DecideToolCall(fs: Fields)
    requires "complete" !in Keys(fs) || !Truthy(Lookup(fs, "complete").value)
    requires "tool" in Keys(fs)
    ensures Decide(JObj(fs)) == Ok(UseTool(Lookup(fs, "tool").value,
                                           Lookup(fs, "parameters").GetOr(JObj([])),
                                           Lookup(fs, "next_step").GetOr(JStr(""))))
  {
    GetFromDict(fs, "complete", JNull);
    DictSubscript(fs, "tool");
    GetFromDict(fs, "parameters", JObj([]));
    GetFromDict(fs, "next_step", JStr(""));
  }

  /** A dict with neither a truthy `complete` nor a `tool` key is a plain answer. */
  lemma OtherDictIsAnswer(decode: Decoder, response: string, fs: Fields)
    requires decode(response) == Ok(JObj(fs))
    requires "complete" !in Keys(fs) || !Truthy(Lookup(fs, "complete").value)
    requires "tool" !in Keys(fs)
    ensures Read(decode, response) == Answer
  {
    GetFromDict(fs, "complete", JNull);
  }

  /** A plain answer is recorded as the raw response, and the user's reply becomes the current message. */
  lemma AnswerRound(decode: Decoder, dispatch: AgentLoop.Dispatcher, s: AgentLoop.State, t: AgentLoop.Turn)
    requires Read(decode, t.output) == Answer
    ensures Step(dispatch, s, t, Read(decode, t.output))
         == AgentLoop.State(s.history + [Entry(s.current, t.output)], t.reply, false)
  {
  }

  /** A finishing answer leaves the history and the current message as they were and ends the loop. */
  lemma FinishRound(decode: Decoder, dispatch: AgentLoop.Dispatcher, s: AgentLoop.State, t: AgentLoop.Turn)
    requires Read(decode, t.output).Finish?
    ensures Step(dispatch, s, t, Read(decode, t.output)) == AgentLoop.State(s.history, s.current, true)
  {
  }

  /**
   * A tool round records "Tool <name> result: <result>" and moves on to the
   * model's next step without asking the user.
   */
  lemma ToolRound(decode: Decoder, dispatch: AgentLoop.Dispatcher, s: AgentLoop.State, t: AgentLoop.Turn, fs: Fields)
    requires decode(t.output) == Ok(JObj(fs))
    requires "complete" !in Keys(fs) || !Truthy(Lookup(fs, "complete").value)
    requires "tool" in Keys(fs)
    ensures (var tool, params := Lookup(fs, "tool").value, Lookup(fs, "parameters").GetOr(JObj([]));
             Step(dispatch, s, t, Read(decode, t.output))
             == AgentLoop.State(s.history + [Entry(s.current, "Tool " + Str(tool) + " result: " + dispatch(tool, params))],
                                Str(Lookup(fs, "next_step").GetOr(JStr(""))), false))
  {
    ToolCallRead(decode, t.output, fs);
  }
}
