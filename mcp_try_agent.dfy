/**
 * `ollama_run_mcp_try.py`: the span-extracting agent whose MCP tools are
 * called with positional arguments.  Its prompt lists the MCP tools by name
 * and description only, and its loop is the shared one of `AgentLoop` with
 * the proxy dispatcher over all six local sales tools.
 */
module McpTryAgent {
  import opened Base
  import opened Strings
  import opened Json
  import opened Py
  import opened Sales
  import opened McpClient
  import opened Prompt
  import opened Extract
  import opened AgentLoop
  import ProxyDispatch

  /** `f"Name: {tool.name}\nDescription: {getattr(tool, 'description', '')}\n"`. */
  function ListingEntry(t: McpTool): string {
    "Name: " + t.name + "\nDescription: " + Str(t.description) + "\n"
  }

  /**
   * `math_tools_desc`: the tool lines collected in discovery order and
   * joined with newlines.
   */
  method ListTools(tools: seq<McpTool>) returns (lines: seq<string>, text: string)
    ensures lines == Added(tools, ListingEntry)
    ensures text == Join("\n", lines)
  {
    lines := [];
    var i := 0;
    while i < |tools|
      invariant 0 <= i <= |tools|
      invariant lines == Added(tools[..i], ListingEntry)
    {
      lines := lines + [ListingEntry(tools[i])];
      i := i + 1;
    }
    assert tools[..i] == tools;
    text := Join("\n", lines);
  }

  /** Listing one more tool adds a newline and its entry to the listing. */
  lemma ListingSnoc(tools: seq<McpTool>, t: McpTool)
    requires |tools| > 0
    ensures Join("\n", Added(tools + [t], ListingEntry)) == Join("\n", Added(tools, ListingEntry)) + "\n" + ListingEntry(t)
  {
    assert Added(tools + [t], ListingEntry) == Added(tools, ListingEntry) + [ListingEntry(t)];
    JoinSnoc("\n", Added(tools, ListingEntry), ListingEntry(t));
  }


  /** The loop's dispatcher: the six local tools first, then the positional MCP call. */
  function Dispatcher(local: SalesTool, invoke: ProxyDispatch.Invoke, tools: seq<McpTool>): AgentLoop.Dispatcher {
    ProxyDispatch.Dispatcher(ExtendedTools, local, invoke, tools)
  }

  /**
   * `main`'s loop: the model's answers are read by their brace span, and
   * the numbered history grows by one entry a round until a completion.
   */
  method Converse(decode: Decoder, local: SalesTool, invoke: ProxyDispatch.Invoke, tools: seq<McpTool>,
                  query: string, turns: seq<Turn>)
    returns (history: seq<Entry>, current: string, rounds: nat, finished: bool)
    ensures State(history, current, finished) == Run(Reading(decode), Dispatcher(local, invoke, tools), Start(query), turns)
    ensures rounds <= |turns| && |history| == rounds
    ensures finished <==> exists k :: 0 <= k < |turns| && Completes(Reading(decode), turns[k])
    ensures finished ==> rounds > 0 && Completes(Reading(decode), turns[rounds - 1])
                         && forall k :: 0 <= k < rounds - 1 ==> !Completes(Reading(decode), turns[k])
    ensures !finished ==> rounds == |turns|
  {
    history, current, rounds, finished := AgentLoop.Converse(Reading(decode), Dispatcher(local, invoke, tools), query, turns);
  }

  /**
   * A round that calls an unknown tool records "Tool '<name>' not found."
   * as its result, and the loop goes on with the model's next step.
   */
  lemma UnknownToolRound(decode: Decoder, local: SalesTool, invoke: ProxyDispatch.Invoke, tools: seq<McpTool>,
                         s: State, t: Turn, span: string, fs: Fields, name: string)
    requires BraceSpan(t.output) == Some(span) && decode(span) == Ok(JObj(fs))
    requires "complete" !in Keys(fs) && Lookup(fs, "tool") == Some(JStr(name))
    requires name !in ExtendedTools && forall k :: 0 <= k < |tools| ==> tools[k].name != name
    ensures Step(Dispatcher(local, invoke, tools), s, t, Reading(decode)(t.output)).history
         == s.history + [Entry(s.current, ToolReply(JStr(name), NotFound(JStr(name))))]
    ensures !Step(Dispatcher(local, invoke, tools), s, t, Reading(decode)(t.output)).done
  {
    var params := Lookup(fs, "parameters").GetOr(JObj([]));
    ToolCallRound(decode, Dispatcher(local, invoke, tools), s, t, span, fs);
    ProxyDispatch.UnknownToolNotFound(ExtendedTools, local, invoke, tools, JStr(name), params);
  }
}
