/**
 * The client side of the MCP tools the agent scripts discover with
 * `list_tools()`.  The transport, the session and the server's answers are
 * not modelled; a session is an opaque identifier, and a tool is the data the
 * scripts read from it.
 */
module McpClient {
  import opened Base
  import opened Json
  import opened Py
  import opened Prompt

  type SessionId = nat

  /**
   * A discovered `Tool` object: `name`, `description` (possibly `None`),
   * `inputSchema`, the `server_session` attribute the scripts attach, and
   * the extra attributes `parameters` and `param_names` plus the
   * `model_dump()` dict, where the object has them.
   */
  datatype McpTool = McpTool(
    name: string,
    description: Json,
    inputSchema: Json,
    session: Option<SessionId>,
    parameters: Option<Json>,
    paramNames: Option<Json>,
    dump: Option<Fields>)

  /**
   * `for tool in math_tools: tool.server_session = math_session`.  The tools
   * are modelled as values, so the attached tools are returned.
   */
  method AttachSession(tools: seq<McpTool>, session: SessionId) returns (attached: seq<McpTool>)
    ensures |attached| == |tools|
    ensures forall i :: 0 <= i < |tools| ==> attached[i] == tools[i].(session := Some(session))
  {
    attached := [];
    var i := 0;
    while i < |tools|
      invariant 0 <= i <= |tools| && |attached| == i
      invariant forall k :: 0 <= k < i ==> attached[k] == tools[k].(session := Some(session))
    {
      attached := attached + [tools[i].(session := Some(session))];
      i := i + 1;
    }
  }

  /**
   * The parameter names `ollama_run_mcp_try.py` and `ollama_run_agentx_mcp.py`
   * show for a tool: a list `parameters` attribute, else a list `param_names`
   * attribute, else `dump.get('parameters', []) or dump.get('param_names', [])`,
   * else `[]`.
   */
  function ResolveParamNames(t: McpTool): (r: Json)
    ensures t.parameters.Some? && t.parameters.value.JArr? ==> r == t.parameters.value
    ensures !(t.parameters.Some? && t.parameters.value.JArr?) && t.paramNames.Some? && t.paramNames.value.JArr?
            ==> r == t.paramNames.value
    ensures (!(t.parameters.Some? && t.parameters.value.JArr?) && !(t.paramNames.Some? && t.paramNames.value.JArr?)
             && t.dump.Some?) ==>
              r == (if Truthy(Lookup(t.dump.value, "parameters").GetOr(JArr([])))
                    then Lookup(t.dump.value, "parameters").value
                    else Lookup(t.dump.value, "param_names").GetOr(JArr([])))
    ensures (!(t.parameters.Some? && t.parameters.value.JArr?) && !(t.paramNames.Some? && t.paramNames.value.JArr?)
             && t.dump.None?) ==> r == JArr([])
  {
    if t.parameters.Some? && t.parameters.value.JArr? then t.parameters.value
    else if t.paramNames.Some? && t.paramNames.value.JArr? then t.paramNames.value
    else if t.dump.Some? then
      var fromParameters := Lookup(t.dump.value, "parameters").GetOr(JArr([]));
      if Truthy(fromParameters) then fromParameters
      else Lookup(t.dump.value, "param_names").GetOr(JArr([]))
    else JArr([])
  }

  /** A tool that exposes none of the three sources has no parameter names. */
  lemma NoSourceNoNames(t: McpTool)
    requires t.parameters.None? && t.paramNames.None?
    requires t.dump.None? || ("parameters" !in Keys(t.dump.value) && "param_names" !in Keys(t.dump.value))
    ensures ResolveParamNames(t) == JArr([])
  {
  }

  /** An empty `parameters` entry of the dump falls through to `param_names`, which `or` prefers over `[]`. */
  lemma EmptyDumpParametersFallThrough(t: McpTool, names: Json)
    requires !(t.parameters.Some? && t.parameters.value.JArr?)
    requires !(t.paramNames.Some? && t.paramNames.value.JArr?)
    requires t.dump.Some? && Lookup(t.dump.value, "parameters") in {None, Some(JArr([])), Some(JNull)}
    requires Lookup(t.dump.value, "param_names") == Some(names)
    ensures ResolveParamNames(t) == names
  {
  }

  /** `next((t for t in tools if t.name == name), None)`: the first tool of that name. */
  function FindTool(tools: seq<McpTool>, name: Json): (r: Option<McpTool>)
    ensures r.None? <==> forall k :: 0 <= k < |tools| ==> name != JStr(tools[k].name)
    ensures r.Some? ==> exists k :: 0 <= k < |tools| && tools[k] == r.value && name == JStr(r.value.name)
                                    && forall j :: 0 <= j < k ==> name != JStr(tools[j].name)
    decreases |tools|
  {
    if |tools| == 0 then None
    else if name == JStr(tools[0].name) then Some(tools[0])
    else
      var r := FindTool(tools[1..], name);
      assert forall k :: 1 <= k < |tools| ==> tools[k] == tools[1..][k - 1];
      r
  }

  // ---------------------------------------------------------------------
  // the catalog entries of the MCP tools (`ollama_run_agentx_mcp.py` 169-184)

  /** `{"name": tool.name, "description": getattr(tool, 'description', ''), "parameters": param_names}`. */
  function McpDescriptor(t: McpTool): Descriptor {
    Descriptor(JStr(t.name), t.description, ResolveParamNames(t))
  }

  /**
   * `for tool in mcp_tools: tools_desc.append({...})`: the MCP tools follow
   * the descriptors already in the catalog, in discovery order.
   */
  method ExtendCatalog(catalog: seq<Descriptor>, tools: seq<McpTool>) returns (extended: seq<Descriptor>)
    ensures |extended| == |catalog| + |tools|
    ensures extended[..|catalog|] == catalog
    ensures forall i :: 0 <= i < |tools| ==> extended[|catalog| + i] == McpDescriptor(tools[i])
  {
    extended := catalog;
    var i := 0;
    while i < |tools|
      invariant 0 <= i <= |tools| && |extended| == |catalog| + i
      invariant extended[..|catalog|] == catalog
      invariant forall k :: 0 <= k < i ==> extended[|catalog| + k] == McpDescriptor(tools[k])
    {
      extended := extended + [McpDescriptor(tools[i])];
      i := i + 1;
    }
  }

  /**
   * A tool that exposes none of the three sources of parameter names, as an
   * MCP `Tool` object does, is listed with an empty parameter list.
   */
  lemma SourcelessToolBlock(t: McpTool)
    requires t.parameters.None? && t.paramNames.None?
    requires t.dump.None? || ("parameters" !in Keys(t.dump.value) && "param_names" !in Keys(t.dump.value))
    ensures ToolBlock(McpDescriptor(t))
         == Ok("Tool Name: " + t.name + "\nDescription: " + Str(t.description) + "\nParameters: " + "" + "\n\n")
  {
    NoSourceNoNames(t);
    var none: seq<string> := [];
    assert JArr(seq(|none|, i requires 0 <= i < |none| => JStr(none[i]))) == JArr([]);
    ToolBlockOfNames(JStr(t.name), t.description, none);
  }

  /** Appending such tools to a catalog whose blocks all render keeps every block renderable. */
  lemma {:induction false} SourcelessCatalogRenders(catalog: seq<Descriptor>, tools: seq<McpTool>, extended: seq<Descriptor>)
    requires AllBlocksRender(catalog)
    requires forall i :: 0 <= i < |tools| ==> tools[i].parameters.None? && tools[i].paramNames.None?
    requires forall i :: 0 <= i < |tools| ==>
               tools[i].dump.None? || ("parameters" !in Keys(tools[i].dump.value) && "param_names" !in Keys(tools[i].dump.value))
    requires |extended| == |catalog| + |tools| && extended[..|catalog|] == catalog
    requires forall i :: 0 <= i < |tools| ==> extended[|catalog| + i] == McpDescriptor(tools[i])
    ensures AllBlocksRender(extended)
  {
    forall k | 0 <= k < |extended|
      ensures ToolBlock(extended[k]).Ok?
    {
      if k < |catalog| {
        assert extended[k] == extended[..|catalog|][k];
      } else {
        SourcelessToolBlock(tools[k - |catalog|]);
      }
    }
  }
}
