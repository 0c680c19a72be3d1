/**
 * How the span-extracting agent loops (`ollama_run_mcp.py`,
 * `ollama_run_mcp_try.py`, `ollama_run_agentx.py`) read the model's answer:
 * the greedy match of `\{[\s\S]*\}`, decoded as JSON and classified as a
 * completion, a tool call or a plain reply.  `ollama_run_sales_tools.py`
 * uses the same span.
 */
module Extract {
  import opened Base
  import opened Json
  import opened Py

  /** The position of the first `c` in `s`, or `|s|` when there is none. */
  function IndexOf(s: string, c: char): (r: nat)
    ensures r <= |s|
    ensures r < |s| ==> s[r] == c
    ensures forall k :: 0 <= k < r ==> s[k] != c
    decreases |s|
  {
    if |s| == 0 then 0 else if s[0] == c then 0 else 1 + IndexOf(s[1..], c)
  }

  /** The position of the last `c` in `s`, or `-1` when there is none. */
  function LastIndexOf(s: string, c: char): (r: int)
    ensures -1 <= r < |s|
    ensures r >= 0 ==> s[r] == c
    ensures forall k :: r < k < |s| ==> s[k] != c
    decreases |s|
  {
    if |s| == 0 then -1
    else if s[|s| - 1] == c then |s| - 1
    else LastIndexOf(s[..|s| - 1], c)
  }

  /**
   * `re.search(r"\{[\s\S]*\}", s).group()`: there is a match exactly when
   * some `{` comes before some `}`, and it runs from the first `{` to the
   * last `}`.
   */
  function BraceSpan(s: string): (r: Option<string>)
    ensures r.Some? <==> exists a, b :: 0 <= a < b < |s| && s[a] == '{' && s[b] == '}'
    ensures r.Some? ==> exists i, j :: 0 <= i < j < |s| && r.value == s[i..j + 1]
                                       && s[i] == '{' && s[j] == '}'
                                       && (forall k :: 0 <= k < i ==> s[k] != '{')
                                       && (forall k :: j < k < |s| ==> s[k] != '}')
  {
    var i := IndexOf(s, '{');
    var j := LastIndexOf(s, '}');
    if i < j then Some(s[i..j + 1]) else None
  }

  /** Prose before and after a brace-delimited text, free of braces that could extend it, is ignored. */
  lemma SpanIgnoresProse(before: string, body: string, after: string)
    requires |body| > 0 && body[0] == '{' && body[|body| - 1] == '}'
    requires '{' !in before && '}' !in after
    ensures BraceSpan(before + body + after) == Some(body)
  {
    var s := before + body + after;
    var i := IndexOf(s, '{');
    var j := LastIndexOf(s, '}');
    assert s[|before|] == '{';
    assert s[|before| + |body| - 1] == '}';
    assert forall k :: 0 <= k < |before| ==> s[k] == before[k];
    assert forall k :: |before| + |body| <= k < |s| ==> s[k] == after[k - |before| - |body|];
    assert i == |before|;
    assert j == |before| + |body| - 1;
    assert s[i..j + 1] == body;
  }

  /** What a model answer asks for. */
  datatype Intent =
    /** `{"complete": <truthy>, "final_answer": ...}`. */
    | Complete(answer: string)
    /** `{"tool": ..., "parameters": ..., "next_step": ...}`, with the defaults filled in. */
    | Call(tool: Json, params: Json, nextStep: string)
    /** Anything else: the answer is shown to the user as it is. */
    | Reply
    /** Handling the answer raised; the message is `str(e)`. */
    | Malformed(error: string)

  const DefaultFinalAnswer := "Task complete."
  const DefaultNextStep := "What should I do next?"

  /** The error `rich` raises when asked to show a value that is not a `str` in a panel. */
  function NotRenderable(j: Json): Exception {
    Raised("Unable to render " + Repr(j) + "; A str, Segment or object with __rich_console__ method is required")
  }

  /** The branches of the loop body on an already decoded answer, in the source's order. */
  function Interpret(obj: Json): Result<Intent> {
    var complete :- Get(obj, JStr("complete"), JNull);
    if Truthy(complete) then
      var answer :- Get(obj, JStr("final_answer"), JStr(DefaultFinalAnswer));
      if answer.JStr? then Ok(Complete(answer.s)) else Err(NotRenderable(answer))
    else
      var hasTool :- Contains(obj, "tool");
      if hasTool then
        var tool :- Get(obj, JStr("tool"), JNull);
        var params :- Get(obj, JStr("parameters"), JObj([]));
        var next :- Get(obj, JStr("next_step"), JStr(DefaultNextStep));
        Ok(Call(tool, params, Str(next)))
      else Ok(Reply)
  }

  /** The intent of a model answer; any exception raised on the way is caught as `Malformed`. */
  function Classify(decode: Decoder, output: string): Intent {
    match BraceSpan(output)
    case None => Reply
    case Some(span) =>
      match decode(span)
      case Err(e) => Malformed(Message(e))
      case Ok(obj) =>
        match Interpret(obj)
        case Ok(intent) => intent
        case Err(e) => Malformed(Message(e))
  }

  /** Without a `{` before a `}` the answer is a plain reply, whatever the decoder would say. */
  lemma NoSpanIsReply(decode: Decoder, output: string)
    requires forall a, b :: 0 <= a < b < |output| && output[a] == '{' ==> output[b] != '}'
    ensures Classify(decode, output) == Reply
  {
  }

  /** A truthy `complete` wins over `tool`, and a missing `final_answer` is "Task complete.". */
  lemma CompletionWinsOverTool(fs: Fields)
    requires "complete" in Keys(fs) && Truthy(Lookup(fs, "complete").value)
    ensures "final_answer" !in Keys(fs) ==> Interpret(JObj(fs)) == Ok(Complete(DefaultFinalAnswer))
    ensures "final_answer" in Keys(fs) && Lookup(fs, "final_answer").value.JStr? ==>
              Interpret(JObj(fs)) == Ok(Complete(Lookup(fs, "final_answer").value.s))
    ensures !Interpret(JObj(fs)).Ok? || Interpret(JObj(fs)).value.Complete?
  {
    GetFromDict(fs, "complete", JNull);
    GetFromDict(fs, "final_answer", JStr(DefaultFinalAnswer));
  }

  /** A dict with a `tool` key and no truthy `complete` is a call, with `{}` and "What should I do next?" as defaults. */
  lemma ToolCallDefaults(fs: Fields)
    requires "tool" in Keys(fs)
    requires "complete" !in Keys(fs) || !Truthy(Lookup(fs, "complete").value)
    ensures Interpret(JObj(fs)) == Ok(Call(Lookup(fs, "tool").value,
                                           Lookup(fs, "parameters").GetOr(JObj([])),
                                           Str(Lookup(fs, "next_step").GetOr(JStr(DefaultNextStep)))))
  {
    var obj := JObj(fs);
    GetFromDict(fs, "complete", JNull);
    assert Get(obj, JStr("complete"), JNull) == Ok(Lookup(fs, "complete").GetOr(JNull));
    assert Contains(obj, "tool") == Ok(true);
    GetFromDict(fs, "tool", JNull);
    GetFromDict(fs, "parameters", JObj([]));
    GetFromDict(fs, "next_step", JStr(DefaultNextStep));
  }

  /** A dict with neither a truthy `complete` nor a `tool` key is a plain reply. */
  lemma OtherObjectIsReply(fs: Fields)
    requires "tool" !in Keys(fs)
    requires "complete" !in Keys(fs) || !Truthy(Lookup(fs, "complete").value)
    ensures Interpret(JObj(fs)) == Ok(Reply)
  {
  }

  /** A decoded value that is not a dict has no `get`: the answer is malformed. */
  lemma NonObjectIsMalformed(obj: Json)
    requires !obj.JObj?
    ensures Interpret(obj) == Err(NoAttribute(obj, "get"))
  {
  }
}
