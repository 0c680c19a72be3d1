/**
 * The tool catalog and conversation history text that the agent scripts
 * build into their prompts with `+=` loops (`generate_system_prompt`,
 * `generate_tool_catalog_prompt`).
 */
module Prompt {
  import opened Strings
  import opened Json
  import opened Py

  /**
   * One tool description, as read from `sales_tools_description.json` or
   * built from a discovered MCP tool: `tool['name']`, `tool['description']`
   * and `tool['parameters']`.
   */
  datatype Descriptor = Descriptor(name: Json, description: Json, parameters: Json)

  /** One history entry: the message the step answered and the agent's reply. */
  datatype Entry = Entry(user: string, agent: string)

  // ---------------------------------------------------------------------
  // tool catalog

  /** The catalog block of one tool; `', '.join(tool['parameters'])` raises unless it yields strings. */
  function ToolBlock(d: Descriptor): Result<string> {
    var params :- JoinJson(", ", d.parameters);
    Ok("Tool Name: " + Str(d.name) + "\nDescription: " + Str(d.description)
       + "\nParameters: " + params + "\n\n")
  }

  predicate AllBlocksRender(ds: seq<Descriptor>) {
    forall i :: 0 <= i < |ds| ==> ToolBlock(ds[i]).Ok?
  }

  function Blocks(ds: seq<Descriptor>): seq<string>
    requires AllBlocksRender(ds)
  {
    seq(|ds|, i requires 0 <= i < |ds| => ToolBlock(ds[i]).value)
  }

  /**
   * `tools_info`: the blocks of all descriptors, in catalog order; the first
   * descriptor whose parameters cannot be joined raises its exception.
   */
  method BuildToolsInfo(ds: seq<Descriptor>) returns (r: Result<string>)
    ensures r.Ok? <==> AllBlocksRender(ds)
    ensures r.Ok? ==> r.value == Concat(Blocks(ds))
    ensures r.Err? ==> exists k :: 0 <= k < |ds| && ToolBlock(ds[k]) == Err(r.error)
                                   && AllBlocksRender(ds[..k])
  {
    r := AddUpOrRaise(ds, ToolBlock);
    MapAllItems(ds, ToolBlock);
    if r.Ok? {
      assert MapAll(ds, ToolBlock).value == Blocks(ds);
    } else {
      var k :| 0 <= k < |ds| && ToolBlock(ds[k]) == Err(r.error) && forall i :: 0 <= i < k ==> ToolBlock(ds[i]).Ok?;
      assert forall i :: 0 <= i < k ==> ds[..k][i] == ds[i];
    }
  }

  /** A descriptor whose parameters are a list of names renders them comma-separated. */
  lemma ToolBlockOfNames(name: Json, description: Json, names: seq<string>)
    ensures ToolBlock(Descriptor(name, description, JArr(seq(|names|, i requires 0 <= i < |names| => JStr(names[i])))))
         == Ok("Tool Name: " + Str(name) + "\nDescription: " + Str(description)
               + "\nParameters: " + Join(", ", names) + "\n\n")
  {
    JoinOfStrings(", ", names);
  }

  // ---------------------------------------------------------------------
  // conversation history

  /** History entry number `step` (counted from 1) as the scripts with step numbers render it. */
  function StepText(step: nat, e: Entry): string {
    "Step " + IntToDecimal(step) + ":\nUser: " + e.user + "\nAgent: " + e.agent + "\n"
  }

  /** A history entry as `ollama_run_agentx.py` renders it, without a step number. */
  function PlainText(e: Entry): string {
    "User: " + e.user + "\nAgent: " + e.agent + "\n"
  }

  function NumberedSteps(h: seq<Entry>): seq<string> {
    seq(|h|, i requires 0 <= i < |h| => StepText(i + 1, h[i]))
  }

  function PlainSteps(h: seq<Entry>): seq<string> {
    seq(|h|, i requires 0 <= i < |h| => PlainText(h[i]))
  }

  /** `history_str` with step numbers: entry `i` appears as step `i + 1`, in history order. */
  method RenderNumberedHistory(h: seq<Entry>) returns (s: string)
    ensures s == Concat(NumberedSteps(h))
  {
    s := "";
    var i := 0;
    while i < |h|
      invariant 0 <= i <= |h|
      invariant s == Concat(NumberedSteps(h[..i]))
    {
      assert NumberedSteps(h[..i + 1]) == NumberedSteps(h[..i]) + [StepText(i + 1, h[i])];
      ConcatSnoc(NumberedSteps(h[..i]), StepText(i + 1, h[i]));
      s := s + StepText(i + 1, h[i]);
      i := i + 1;
    }
    assert h[..i] == h;
  }

  /** `history_str` without step numbers: every entry in history order. */
  method RenderPlainHistory(h: seq<Entry>) returns (s: string)
    ensures s == Concat(PlainSteps(h))
  {
    s := "";
    var i := 0;
    while i < |h|
      invariant 0 <= i <= |h|
      invariant s == Concat(PlainSteps(h[..i]))
    {
      assert PlainSteps(h[..i + 1]) == PlainSteps(h[..i]) + [PlainText(h[i])];
      ConcatSnoc(PlainSteps(h[..i]), PlainText(h[i]));
      s := s + PlainText(h[i]);
      i := i + 1;
    }
    assert h[..i] == h;
  }

  /**
   * Appending one entry to the history extends the rendered history by that
   * entry alone, numbered one past the previous length: earlier steps are
   * shown unchanged.
   */
  lemma NumberedHistorySnoc(h: seq<Entry>, e: Entry)
    ensures Concat(NumberedSteps(h + [e])) == Concat(NumberedSteps(h)) + StepText(|h| + 1, e)
  {
    assert NumberedSteps(h + [e]) == NumberedSteps(h) + [StepText(|h| + 1, e)];
    ConcatSnoc(NumberedSteps(h), StepText(|h| + 1, e));
  }

  lemma PlainHistorySnoc(h: seq<Entry>, e: Entry)
    ensures Concat(PlainSteps(h + [e])) == Concat(PlainSteps(h)) + PlainText(e)
  {
    assert PlainSteps(h + [e]) == PlainSteps(h) + [PlainText(e)];
    ConcatSnoc(PlainSteps(h), PlainText(e));
  }

  /** The rendering of a history begins with the rendering of each of its prefixes. */
  lemma {:induction false} NumberedHistoryPrefix(h: seq<Entry>, k: nat)
    requires k <= |h|
    ensures Concat(NumberedSteps(h[..k])) <= Concat(NumberedSteps(h))
    decreases |h| - k
  {
    if k < |h| {
      NumberedHistoryPrefix(h, k + 1);
      assert h[..k + 1] == h[..k] + [h[k]];
      NumberedHistorySnoc(h[..k], h[k]);
    } else {
      assert h[..k] == h;
    }
  }
}
