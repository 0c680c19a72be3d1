/**
 * The local sales tools the agent scripts dispatch to.  The tools themselves
 * (pandas over a CSV file) are not modelled: a `SalesTool` gives `str` of
 * what the named tool returns for its positional arguments, or what it
 * raises.
 */
module Sales {
  import opened Json
  import opened Py

  type SalesTool = (string, seq<Json>) -> Result<string>

  /** The module-level `file` and `region` the scripts fall back to. */
  const DefaultFile := "sales_data.csv"
  const DefaultRegion := "North"

  /** The `tool_functions` table of `ollama_run_agentx.py` and `ollama_run_agentx_mcp.py`. */
  const CoreTools: seq<string> :=
    ["summarize_sales", "get_top_product", "average_sales", "filter_by_region", "sales_trend"]

  /** The table of `ollama_run_mcp.py`, `ollama_run_mcp_try.py` and `ollama_run_sales_tools.py`. */
  const ExtendedTools: seq<string> := CoreTools + ["total_sales_by_region"]

  /** `tool_name in tool_functions`: a list or dict name cannot be hashed. */
  function InTable(table: seq<string>, name: Json): (r: Result<bool>)
    ensures r.Err? <==> !Hashable(name)
    ensures r.Ok? ==> (r.value <==> exists k :: 0 <= k < |table| && name == JStr(table[k]))
  {
    if !Hashable(name) then Err(Unhashable(name))
    else Ok(name.JStr? && name.s in table)
  }

  /** `params.get("file", file)`. */
  function FileArg(params: Json): Result<Json> {
    Get(params, JStr("file"), JStr(DefaultFile))
  }

  /** `params.get("region", region)`. */
  function RegionArg(params: Json): Result<Json> {
    Get(params, JStr("region"), JStr(DefaultRegion))
  }

  /** A `str` name is in the table exactly when it is one of its entries. */
  lemma InTableOfName(table: seq<string>, name: string)
    ensures InTable(table, JStr(name)) == Ok(name in table)
  {
  }

  /** On a dict, `file` and `region` are the bound values or the defaults. */
  lemma DictArgs(fs: Fields)
    ensures FileArg(JObj(fs)) == Ok(Lookup(fs, "file").GetOr(JStr(DefaultFile)))
    ensures RegionArg(JObj(fs)) == Ok(Lookup(fs, "region").GetOr(JStr(DefaultRegion)))
  {
  }

  /** `"Tool '<name>' not found."`. */
  function NotFound(name: Json): string {
    "Tool '" + Str(name) + "' not found."
  }

  /** What `try_execute_tool` returns for an exception it caught. */
  function ErrorText(e: Exception): string {
    "Error executing tool: " + Message(e)
  }

  /** The text of a caught outcome: the result, or the error message. */
  function Caught(r: Result<string>): string {
    match r
    case Ok(s) => s
    case Err(e) => ErrorText(e)
  }
}
