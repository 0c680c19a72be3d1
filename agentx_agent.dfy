/**
 * `ollama_run_agentx.py`: the span-extracting agent with the five core
 * sales tools and no MCP tools.  Its prompt shows the history without step
 * numbers, and its loop is the shared one of `AgentLoop`.
 */
module AgentxAgent {
  import opened Json
  import opened Py
  import opened Sales
  import opened Prompt
  import opened AgentLoop
  import ProxyDispatch

  /** The body of the `try` block of `try_execute_tool`: unknown names are reported before any call. */
  function Dispatch(local: SalesTool, toolName: Json, params: Json): Result<string> {
    var known :- InTable(CoreTools, toolName);
    if !known then Ok(NotFound(toolName))
    else
      var file :- FileArg(params);
      if toolName.s == "filter_by_region" then
        var region :- RegionArg(params);
        local(toolName.s, [file, region])
      else local(toolName.s, [file])
  }

  /** `try_execute_tool`: every exception comes back as "Error executing tool: ...". */
  function TryExecuteTool(local: SalesTool, toolName: Json, params: Json): string {
    Caught(Dispatch(local, toolName, params))
  }

  function Dispatcher(local: SalesTool): AgentLoop.Dispatcher {
    (toolName: Json, params: Json) => TryExecuteTool(local, toolName, params)
  }

  /** A hashable name outside the table is reported as not found, whatever the tools and parameters. */
  lemma UnknownToolNotFound(local: SalesTool, toolName: Json, params: Json)
    requires Hashable(toolName) && forall k :: 0 <= k < |CoreTools| ==> toolName != JStr(CoreTools[k])
    ensures TryExecuteTool(local, toolName, params) == NotFound(toolName)
  {
  }

  /** `filter_by_region` gets the file and the region, every other tool the file, with their defaults. */
  lemma LocalCall(local: SalesTool, name: string, fs: Fields)
    requires name in CoreTools
    ensures (var file := Lookup(fs, "file").GetOr(JStr(DefaultFile));
             var region := Lookup(fs, "region").GetOr(JStr(DefaultRegion));
             TryExecuteTool(local, JStr(name), JObj(fs))
             == Caught(local(name, if name == "filter_by_region" then [file, region] else [file])))
  {
    InTableOfName(CoreTools, name);
    DictArgs(fs);
  }

  /**
   * This dispatcher is the proxy dispatcher of the MCP agents over the same
   * table with no MCP tools listed: checking the table first or last makes
   * no difference.
   */
  lemma SameAsProxyWithoutMcpTools(local: SalesTool, invoke: ProxyDispatch.Invoke, toolName: Json, params: Json)
    ensures TryExecuteTool(local, toolName, params)
         == ProxyDispatch.TryExecuteTool(CoreTools, local, invoke, [], toolName, params)
  {
  }

  /**
   * `__main__`'s loop: the model's answers are read by their brace span, and
   * the history grows by one entry a round until a completion.
   */
  method Converse(decode: Decoder, local: SalesTool, query: string, turns: seq<Turn>)
    returns (history: seq<Entry>, current: string, rounds: nat, finished: bool)
    ensures State(history, current, finished) == Run(Reading(decode), Dispatcher(local), Start(query), turns)
    ensures rounds <= |turns| && |history| == rounds
    ensures finished <==> exists k :: 0 <= k < |turns| && Completes(Reading(decode), turns[k])
    ensures finished ==> rounds > 0 && Completes(Reading(decode), turns[rounds - 1])
                         && forall k :: 0 <= k < rounds - 1 ==> !Completes(Reading(decode), turns[k])
    ensures !finished ==> rounds == |turns|
  {
    history, current, rounds, finished := AgentLoop.Converse(Reading(decode), Dispatcher(local), query, turns);
  }
}
