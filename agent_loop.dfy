/**
 * The `while True` loop of the span-extracting agents (`ollama_run_mcp.py`
 * 292-346, `ollama_run_mcp_try.py` 203-256, `ollama_run_agentx.py` 126-179),
 * whose bodies differ only in the `try_execute_tool` they call.  The model's
 * answers and the user's replies are given as a sequence of turns; the loop
 * only ends on a completion, and running out of turns stands for the user
 * interrupting the program.
 */
module AgentLoop {
  import opened Base
  import opened Json
  import opened Py
  import opened Prompt
  import opened Extract

  /** `try_execute_tool` with its tool tables bound: `str` of its result for a tool name and parameters. */
  type Dispatcher = (Json, Json) -> string

  /** How the loop body reads a model answer (`Classify` with the script's decoder). */
  type Classifier = string -> Intent

  /** The reading all three scripts share: the brace span, decoded by `decode`, then classified. */
  function Reading(decode: Decoder): Classifier {
    (output: string) => Classify(decode, output)
  }

  /** One round: the model's answer, and what the user types when asked for a reply. */
  datatype Turn = Turn(output: string, reply: string)

  /** `history`, `current_message`, and whether the loop has left with `break`. */
  datatype State = State(history: seq<Entry>, current: string, done: bool)

  /** Before the first round the current message is the user's query. */
  function Start(query: string): State {
    State([], query, false)
  }

  /** The history text of a tool call. */
  function ToolReply(tool: Json, result: string): string {
    "Tool used: " + Str(tool) + "\nResult: " + result
  }

  /** The history text of an answer whose handling raised. */
  function ParseErrorReply(output: string, error: string): string {
    output + "\n[red]Error parsing tool call: " + error + "[/red]"
  }

  /**
   * One round of the loop body for an answer of the given intent.  Every
   * branch appends exactly one entry for the current message, and only a
   * completion ends the loop.
   */
  function Step(dispatch: Dispatcher, s: State, t: Turn, intent: Intent): (r: State)
    ensures |r.history| == |s.history| + 1 && r.history[..|s.history|] == s.history
    ensures r.history[|s.history|].user == s.current
    ensures r.done <==> intent.Complete?
  {
    var entry := match intent
      case Complete(answer) => Entry(s.current, answer)
      case Call(tool, params, _) => Entry(s.current, ToolReply(tool, dispatch(tool, params)))
      case Reply => Entry(s.current, t.output)
      case Malformed(e) => Entry(s.current, ParseErrorReply(t.output, e));
    var history := s.history + [entry];
    assert history[..|s.history|] == s.history;
    match intent
    case Complete(_) => State(history, s.current, true)
    case Call(_, _, next) => State(history, next + "\nUser: " + t.reply, false)
    case Reply => State(history, t.reply, false)
    case Malformed(_) => State(history, t.reply, false)
  }

  predicate Completes(classify: Classifier, t: Turn) {
    classify(t.output).Complete?
  }

  /** The index of the first completing turn, or `|turns|` when there is none. */
  function FirstCompletion(classify: Classifier, turns: seq<Turn>): (r: nat)
    ensures r <= |turns|
    ensures r < |turns| ==> Completes(classify, turns[r])
    ensures forall k :: 0 <= k < r ==> !Completes(classify, turns[k])
    decreases |turns|
  {
    if |turns| == 0 then 0
    else if Completes(classify, turns[0]) then 0
    else 1 + FirstCompletion(classify, turns[1..])
  }

  /**
   * The state after playing the first `k` turns in order from `s`, `step`
   * being one round of a loop body; rounds after the `break` change nothing.
   */
  function Played(step: (State, Turn) -> State, s: State, turns: seq<Turn>, k: nat): State
    requires k <= |turns|
    decreases k
  {
    if k == 0 then s
    else
      var prev := Played(step, s, turns, k - 1);
      if prev.done then prev else step(prev, turns[k - 1])
  }

  /** One round of the loop body of the span-extracting agents. */
  function Round(classify: Classifier, dispatch: Dispatcher): (State, Turn) -> State {
    (s: State, t: Turn) => Step(dispatch, s, t, classify(t.output))
  }

  /** The state after playing all the turns. */
  function Run(classify: Classifier, dispatch: Dispatcher, s: State, turns: seq<Turn>): State {
    Played(Round(classify, dispatch), s, turns, |turns|)
  }

  /** Once the loop has ended after `k` rounds, later turns are never looked at. */
  lemma {:induction false} RunStopsWhenDone(step: (State, Turn) -> State, s: State, turns: seq<Turn>, k: nat, m: nat)
    requires k <= m <= |turns|
    requires Played(step, s, turns, k).done
    ensures Played(step, s, turns, m) == Played(step, s, turns, k)
    decreases m
  {
    if m > k {
      RunStopsWhenDone(step, s, turns, k, m - 1);
    }
  }

  /** Playing turns only ever appends to the history, at most one entry a round. */
  lemma {:induction false} RunExtendsHistory(classify: Classifier, dispatch: Dispatcher, s: State,
                                             turns: seq<Turn>, k: nat)
    requires k <= |turns|
    ensures s.history <= Played(Round(classify, dispatch), s, turns, k).history
    ensures |Played(Round(classify, dispatch), s, turns, k).history| <= |s.history| + k
    decreases k
  {
    if k > 0 {
      RunExtendsHistory(classify, dispatch, s, turns, k - 1);
      var prev := Played(Round(classify, dispatch), s, turns, k - 1);
      var next := Played(Round(classify, dispatch), s, turns, k);
      if !prev.done {
        var t := turns[k - 1];
        assert next == Step(dispatch, prev, t, classify(t.output));
      }
      assert prev.history <= next.history;
      assert next.history[..|s.history|] == prev.history[..|s.history|];
    }
  }

  /**
   * The loop, run until the `break` or until the turns run out.  `rounds`
   * counts the iterations, each of which appended one history entry; the
   * loop ends exactly at the first completing answer.
   */
  method Converse(classify: Classifier, dispatch: Dispatcher, query: string, turns: seq<Turn>)
    returns (history: seq<Entry>, current: string, rounds: nat, finished: bool)
    ensures State(history, current, finished) == Run(classify, dispatch, Start(query), turns)
    ensures rounds <= |turns| && |history| == rounds
    ensures finished <==> exists k :: 0 <= k < |turns| && Completes(classify, turns[k])
    ensures finished ==> rounds > 0 && Completes(classify, turns[rounds - 1])
                         && forall k :: 0 <= k < rounds - 1 ==> !Completes(classify, turns[k])
    ensures !finished ==> rounds == |turns|
  {
    history, current, rounds, finished := [], query, 0, false;
    while rounds < |turns| && !finished
      invariant rounds <= |turns| && |history| == rounds
      invariant State(history, current, finished) == Played(Round(classify, dispatch), Start(query), turns, rounds)
      invariant if finished then rounds == FirstCompletion(classify, turns) + 1
                else rounds <= FirstCompletion(classify, turns)
    {
      var t := turns[rounds];
      var intent := classify(t.output);
      ghost var before := State(history, current, finished);
      match intent {
        case Complete(answer) =>
          history := history + [Entry(current, answer)];
          finished := true;
        case Call(tool, params, next) =>
          var result := dispatch(tool, params);
          history := history + [Entry(current, ToolReply(tool, result))];
          current := next + "\nUser: " + t.reply;
        case Reply =>
          history := history + [Entry(current, t.output)];
          current := t.reply;
        case Malformed(e) =>
          history := history + [Entry(current, ParseErrorReply(t.output, e))];
          current := t.reply;
      }
      assert State(history, current, finished) == Step(dispatch, before, t, intent);
      assert Completes(classify, turns[rounds]) == intent.Complete?;
      rounds := rounds + 1;
    }
    if finished {
      RunStopsWhenDone(Round(classify, dispatch), Start(query), turns, rounds, |turns|);
    }
  }

  /** An answer with no `{ ... }` span is recorded verbatim and the user's reply becomes the current message. */
  lemma PlainAnswerRound(decode: Decoder, dispatch: Dispatcher, s: State, t: Turn)
    requires forall a, b :: 0 <= a < b < |t.output| && t.output[a] == '{' ==> t.output[b] != '}'
    ensures Step(dispatch, s, t, Classify(decode, t.output))
         == State(s.history + [Entry(s.current, t.output)], t.reply, false)
  {
    NoSpanIsReply(decode, t.output);
  }

  /**
   * An answer whose span does not decode, or whose handling raises, is
   * recorded with the error appended in red, and the loop goes on with the
   * user's reply.
   */
  lemma MalformedRound(decode: Decoder, dispatch: Dispatcher, s: State, t: Turn, span: string, e: Exception)
    requires BraceSpan(t.output) == Some(span)
    requires decode(span) == Err(e) || (decode(span).Ok? && Interpret(decode(span).value) == Err(e))
    ensures Step(dispatch, s, t, Classify(decode, t.output))
         == State(s.history + [Entry(s.current, t.output + "\n[red]Error parsing tool call: " + Message(e) + "[/red]")],
                  t.reply, false)
  {
  }

  /** A dict with neither a truthy `complete` nor a `tool` key is recorded verbatim, and the user's reply comes next. */
  lemma OtherDictRound(decode: Decoder, dispatch: Dispatcher, s: State, t: Turn, span: string, fs: Fields)
    requires BraceSpan(t.output) == Some(span) && decode(span) == Ok(JObj(fs))
    requires "tool" !in Keys(fs)
    requires "complete" !in Keys(fs) || !Truthy(Lookup(fs, "complete").value)
    ensures Step(dispatch, s, t, Classify(decode, t.output))
         == State(s.history + [Entry(s.current, t.output)], t.reply, false)
  {
    OtherObjectIsReply(fs);
  }

  /**
   * A tool call records the tool's name and result, and the next message is
   * the model's `next_step` (default "What should I do next?") followed by
   * the user's reply.
   */
  lemma ToolCallRound(decode: Decoder, dispatch: Dispatcher, s: State, t: Turn, span: string, fs: Fields)
    requires BraceSpan(t.output) == Some(span) && decode(span) == Ok(JObj(fs))
    requires "tool" in Keys(fs)
    requires "complete" !in Keys(fs) || !Truthy(Lookup(fs, "complete").value)
    ensures (var tool, params := Lookup(fs, "tool").value, Lookup(fs, "parameters").GetOr(JObj([]));
             Step(dispatch, s, t, Classify(decode, t.output))
             == State(s.history + [Entry(s.current, "Tool used: " + Str(tool) + "\nResult: " + dispatch(tool, params))],
                      Str(Lookup(fs, "next_step").GetOr(JStr(DefaultNextStep))) + "\nUser: " + t.reply,
                      false))
  {
    ToolCallDefaults(fs);
  }

  /** A completing answer ends the loop with the final answer as the last history entry. */
  lemma CompletionRound(decode: Decoder, dispatch: Dispatcher, s: State, t: Turn, span: string, fs: Fields)
    requires BraceSpan(t.output) == Some(span) && decode(span) == Ok(JObj(fs))
    requires "complete" in Keys(fs) && Truthy(Lookup(fs, "complete").value)
    requires "final_answer" !in Keys(fs) || Lookup(fs, "final_answer").value.JStr?
    ensures (var answer := if "final_answer" in Keys(fs) then Lookup(fs, "final_answer").value.s
                           else DefaultFinalAnswer;
             Step(dispatch, s, t, Classify(decode, t.output))
             == State(s.history + [Entry(s.current, answer)], s.current, true))
  {
    CompletionWinsOverTool(fs);
  }
}
