/**
 * The `try_execute_tool` of `ollama_run_mcp_try.py` and
 * `ollama_run_agentx_mcp.py` (lines 134-154 of both): a local sales tool by
 * name, else the first listed MCP tool of that name, called with the
 * parameters named by its `parameters` attribute as positional arguments,
 * else a "not found" text.  The two scripts differ only in their table of
 * local tools.
 */
module ProxyDispatch {
  import opened Base
  import opened Json
  import opened Py
  import opened Sales
  import opened McpClient
  import AgentLoop

  /**
   * `await tool(*param_list)` on a discovered tool object: `str` of what it
   * returns, or what it raises.  Given, not modelled.
   */
  type Invoke = (McpTool, seq<Json>) -> Result<string>

  /** `params.get(p, 0)`. */
  function PositionalOf(params: Json): Json -> Result<Json> {
    (p: Json) => Get(params, p, JInt(0))
  }

  /**
   * `[params.get(p, 0) for p in tool.parameters]`; a tool object without a
   * `parameters` attribute raises `AttributeError`.
   */
  function PositionalArgs(tool: McpTool, params: Json): Result<seq<Json>> {
    if tool.parameters.None? then Err(AttributeError("'Tool' object has no attribute 'parameters'"))
    else
      var names :- Iterate(tool.parameters.value);
      MapAll(names, PositionalOf(params))
  }

  /** The body of the `try` block, where only `filter_by_region` is given a region. */
  function Dispatch(table: seq<string>, local: SalesTool, invoke: Invoke, tools: seq<McpTool>,
                    toolName: Json, params: Json): Result<string>
  {
    var isLocal :- InTable(table, toolName);
    if isLocal then
      var file :- FileArg(params);
      if toolName.s == "filter_by_region" then
        var region :- RegionArg(params);
        local(toolName.s, [file, region])
      else local(toolName.s, [file])
    else
      match FindTool(tools, toolName)
      case None => Ok(NotFound(toolName))
      case Some(tool) =>
        var args :- PositionalArgs(tool, params);
        invoke(tool, args)
  }

  /** `str(await try_execute_tool(...))`: every exception comes back as "Error executing tool: ...". */
  function TryExecuteTool(table: seq<string>, local: SalesTool, invoke: Invoke, tools: seq<McpTool>,
                          toolName: Json, params: Json): string
  {
    Caught(Dispatch(table, local, invoke, tools, toolName, params))
  }

  /** The loop's dispatcher for a table of local tools. */
  function Dispatcher(table: seq<string>, local: SalesTool, invoke: Invoke, tools: seq<McpTool>): AgentLoop.Dispatcher {
    (toolName: Json, params: Json) => TryExecuteTool(table, local, invoke, tools, toolName, params)
  }

  /**
   * A local tool gets the file, and only `filter_by_region` the region as
   * well; both default when the parameters do not name them.
   */
  lemma LocalCall(table: seq<string>, local: SalesTool, invoke: Invoke, tools: seq<McpTool>, name: string, fs: Fields)
    requires name in table
    ensures (var file := Lookup(fs, "file").GetOr(JStr(DefaultFile));
             var region := Lookup(fs, "region").GetOr(JStr(DefaultRegion));
             TryExecuteTool(table, local, invoke, tools, JStr(name), JObj(fs))
             == Caught(local(name, if name == "filter_by_region" then [file, region] else [file])))
  {
    InTableOfName(table, name);
    DictArgs(fs);
  }

  /** Unlike in `ollama_run_mcp.py`, `total_sales_by_region` is given the file alone. */
  lemma TotalSalesByRegionGetsFileOnly(local: SalesTool, invoke: Invoke, tools: seq<McpTool>, fs: Fields)
    ensures TryExecuteTool(ExtendedTools, local, invoke, tools, JStr("total_sales_by_region"), JObj(fs))
         == Caught(local("total_sales_by_region", [Lookup(fs, "file").GetOr(JStr(DefaultFile))]))
  {
    assert "total_sales_by_region" in ExtendedTools;
    LocalCall(ExtendedTools, local, invoke, tools, "total_sales_by_region", fs);
  }

  /** A hashable name that is neither local nor listed is reported as not found, whatever the parameters. */
  lemma UnknownToolNotFound(table: seq<string>, local: SalesTool, invoke: Invoke, tools: seq<McpTool>,
                            toolName: Json, params: Json)
    requires Hashable(toolName)
    requires forall k :: 0 <= k < |table| ==> toolName != JStr(table[k])
    requires forall k :: 0 <= k < |tools| ==> toolName != JStr(tools[k].name)
    ensures TryExecuteTool(table, local, invoke, tools, toolName, params) == NotFound(toolName)
  {
  }

  /**
   * A listed tool whose `parameters` is a list of names is called with the
   * value of each name in that order, or `0` where the parameters lack it.
   */
  lemma {:induction false} PositionalOrder(tool: McpTool, names: seq<string>, fs: Fields)
    requires tool.parameters == Some(JArr(seq(|names|, i requires 0 <= i < |names| => JStr(names[i]))))
    ensures PositionalArgs(tool, JObj(fs)).Ok?
    ensures |PositionalArgs(tool, JObj(fs)).value| == |names|
    ensures forall i :: 0 <= i < |names| ==>
              PositionalArgs(tool, JObj(fs)).value[i] == if names[i] in Keys(fs) then Lookup(fs, names[i]).value else JInt(0)
  {
    var xs := seq(|names|, i requires 0 <= i < |names| => JStr(names[i]));
    var f := PositionalOf(JObj(fs));
    forall i | 0 <= i < |xs|
      ensures f(xs[i]) == Ok(if names[i] in Keys(fs) then Lookup(fs, names[i]).value else JInt(0))
    {
      GetFromDict(fs, names[i], JInt(0));
    }
    MapAllItems(xs, f);
  }

  /** A remote tool is invoked with exactly those positional arguments, and its outcome is caught. */
  lemma RemoteCall(table: seq<string>, local: SalesTool, invoke: Invoke, tools: seq<McpTool>,
                   name: string, names: seq<string>, fs: Fields)
    requires name !in table
    requires FindTool(tools, JStr(name)).Some?
    requires FindTool(tools, JStr(name)).value.parameters
             == Some(JArr(seq(|names|, i requires 0 <= i < |names| => JStr(names[i]))))
    ensures (var tool := FindTool(tools, JStr(name)).value;
             var args := seq(|names|, i requires 0 <= i < |names| =>
                               if names[i] in Keys(fs) then Lookup(fs, names[i]).value else JInt(0));
             TryExecuteTool(table, local, invoke, tools, JStr(name), JObj(fs)) == Caught(invoke(tool, args)))
  {
    var tool := FindTool(tools, JStr(name)).value;
    PositionalOrder(tool, names, fs);
    var args := seq(|names|, i requires 0 <= i < |names| =>
                      if names[i] in Keys(fs) then Lookup(fs, names[i]).value else JInt(0));
    assert PositionalArgs(tool, JObj(fs)).value == args;
  }

  /**
   * A listed tool without a `parameters` attribute, as the `Tool` objects of
   * the MCP library are, is never invoked: the attempt is reported as an
   * `AttributeError`.
   */
  lemma MissingParametersAttribute(table: seq<string>, local: SalesTool, invoke: Invoke, tools: seq<McpTool>,
                                   name: string, params: Json)
    requires name !in table
    requires FindTool(tools, JStr(name)).Some? && FindTool(tools, JStr(name)).value.parameters.None?
    ensures TryExecuteTool(table, local, invoke, tools, JStr(name), params)
         == ErrorText(AttributeError("'Tool' object has no attribute 'parameters'"))
  {
  }
}
