/**
 * `ollama_run_sales_tools.py`: a single request.  The model picks a sales
 * tool and its parameters; the script merges them over the tool's default
 * parameters, orders them as the tool's description lists them, calls the
 * tool once and shows a table of the parameters.  An exception outside the
 * `try` block ends the program with a traceback.
 */
module SalesToolsAgent {
  import opened Base
  import opened Json
  import opened Py
  import opened Sales
  import opened Prompt
  import opened Extract

  /** How the program ends. */
  datatype Outcome =
    /** `"Failed to parse LLM response: {e}"` and `exit(1)`. */
    | ParseFailed(message: string)
    /** `"Tool '<name>' not found."` and `exit(1)`. */
    | UnknownTool(message: string)
    /** An exception nothing catches. */
    | Crashed(error: Exception)
    /** The tool ran on `args`, the values of the names in `order`. */
    | Executed(name: string, order: seq<Json>, args: seq<Json>, result: string)

  /**
   * Lines 87-95: the brace span, decoded, and its `tool` and `parameters`
   * entries.
   */
  function ParseSelection(decode: Decoder, response: string): Result<(Json, Json)> {
    match BraceSpan(response)
    case None => Err(ValueError("No JSON object found in LLM response."))
    case Some(span) =>
      var obj :- decode(span);
      var tool :- Subscript(obj, "tool");
      var params :- Subscript(obj, "parameters");
      Ok((tool, params))
  }

  /** The message shown when the selection cannot be parsed. */
  function ParseFailure(e: Exception): string {
    "Failed to parse LLM response: " + Message(e)
  }

  /** The default parameters `tool_functions` pairs with each tool. */
  function DefaultParams(name: string): Fields {
    if name == "filter_by_region" || name == "total_sales_by_region" then
      [("file", JStr(DefaultFile)), ("region", JStr(DefaultRegion))]
    else [("file", JStr(DefaultFile))]
  }

  /** `base.update(updates)` for a dict `updates`: each binding in turn, later ones winning. */
  function Merged(base: Fields, updates: Fields): Fields
    decreases |updates|
  {
    if |updates| == 0 then base
    else
      var last := updates[|updates| - 1];
      Put(Merged(base, updates[..|updates| - 1]), last.0, last.1)
  }

  /**
   * `exec_params.update(params)`: a dict is merged, an empty list or string
   * changes nothing, and anything else raises.
   */
  function Update(exec: Fields, params: Json): Result<Fields> {
    match params
    case JObj(fs) => Ok(Merged(exec, fs))
    case JArr(items) =>
      if items == [] then Ok(exec)
      else Err(TypeError("cannot convert dictionary update sequence element #0 to a sequence"))
    case JStr(s) =>
      if s == "" then Ok(exec)
      else Err(ValueError("dictionary update sequence element #0 has length 1; 2 is required"))
    case _ => Err(TypeError("'" + TypeName(params) + "' object is not iterable"))
  }

  /**
   * `exec_params = default_params.copy(); exec_params.update(params)` for a
   * dict of parameters: the copy is updated binding by binding, and the
   * defaults, a value, are left as they were.
   */
  method MergeParams(defaults: Fields, params: Fields) returns (exec: Fields)
    ensures exec == Merged(defaults, params)
  {
    exec := defaults;
    var i := 0;
    while i < |params|
      invariant 0 <= i <= |params|
      invariant exec == Merged(defaults, params[..i])
    {
      assert params[..i + 1][..i] == params[..i];
      exec := Put(exec, params[i].0, params[i].1);
      i := i + 1;
    }
    assert params[..i] == params;
  }

  /** The model's values win; keys it does not give keep their defaults. */
  lemma {:induction false} MergedLookup(base: Fields, updates: Fields, k: string)
    ensures Lookup(Merged(base, updates), k) == if k in Keys(updates) then Lookup(updates, k) else Lookup(base, k)
    decreases |updates|
  {
    if |updates| > 0 {
      var init := updates[..|updates| - 1];
      MergedLookup(base, init, k);
      assert Keys(updates) == Keys(init) + [updates[|updates| - 1].0];
    }
  }

  /** Merging keeps the default keys first, in their order. */
  lemma {:induction false} MergedKeepsDefaultKeys(base: Fields, updates: Fields)
    ensures Keys(base) <= Keys(Merged(base, updates))
    decreases |updates|
  {
    if |updates| > 0 {
      MergedKeepsDefaultKeys(base, updates[..|updates| - 1]);
    }
  }

  /** `next(t for t in tools_desc if t["name"] == tool_name)`. */
  function FindDescriptor(catalog: seq<Descriptor>, name: Json): (r: Option<Descriptor>)
    ensures r.None? <==> forall k :: 0 <= k < |catalog| ==> catalog[k].name != name
    ensures r.Some? ==> exists k :: 0 <= k < |catalog| && catalog[k] == r.value && r.value.name == name
                                    && forall j :: 0 <= j < k ==> catalog[j].name != name
    decreases |catalog|
  {
    if |catalog| == 0 then None
    else if catalog[0].name == name then Some(catalog[0])
    else
      var r := FindDescriptor(catalog[1..], name);
      assert forall k :: 1 <= k < |catalog| ==> catalog[k] == catalog[1..][k - 1];
      r
  }

  /** `exec_params[p]`. */
  function ValueOf(exec: Fields): Json -> Result<Json> {
    (p: Json) => Index(exec, p)
  }

  /** `[exec_params[p] for p in param_order]`. */
  function PositionalArgs(exec: Fields, order: seq<Json>): Result<seq<Json>> {
    MapAll(order, ValueOf(exec))
  }

  /** Lines 101-112, once the tool name is known to be in the table. */
  function Invoked(local: SalesTool, catalog: seq<Descriptor>, name: string, params: Json): Outcome {
    match Update(DefaultParams(name), params)
    case Err(e) => Crashed(e)
    case Ok(exec) =>
      match FindDescriptor(catalog, JStr(name))
      case None => Crashed(StopIteration)
      case Some(d) =>
        match Iterate(d.parameters)
        case Err(e) => Crashed(e)
        case Ok(order) =>
          match PositionalArgs(exec, order)
          case Err(e) => Crashed(e)
          case Ok(args) =>
            match local(name, args)
            case Err(e) => Crashed(e)
            case Ok(result) => Executed(name, order, args, result)
  }

  /** The program after the model has answered `response`. */
  function Request(decode: Decoder, local: SalesTool, catalog: seq<Descriptor>, response: string): Outcome {
    match ParseSelection(decode, response)
    case Err(e) => ParseFailed(ParseFailure(e))
    case Ok(selection) =>
      var (toolName, params) := selection;
      match InTable(ExtendedTools, toolName)
      case Err(e) => Crashed(e)
      case Ok(known) =>
        if known then Invoked(local, catalog, toolName.s, params)
        else UnknownTool(NotFound(toolName))
  }

  /** An answer without a `{ ... }` span is a parse failure, and no tool runs. */
  lemma NoSpanExits(decode: Decoder, local: SalesTool, catalog: seq<Descriptor>, response: string)
    requires forall a, b :: 0 <= a < b < |response| && response[a] == '{' ==> response[b] != '}'
    ensures Request(decode, local, catalog, response)
         == ParseFailed(ParseFailure(ValueError("No JSON object found in LLM response.")))
  {
  }

  /** A decoded dict without `tool` or `parameters` is a parse failure. */
  lemma MissingKeyExits(decode: Decoder, local: SalesTool, catalog: seq<Descriptor>, response: string,
                        span: string, fs: Fields)
    requires BraceSpan(response) == Some(span) && decode(span) == Ok(JObj(fs))
    requires "tool" !in Keys(fs) || "parameters" !in Keys(fs)
    ensures Request(decode, local, catalog, response).ParseFailed?
  {
  }

  /** A selection of an unknown, hashable tool name exits with "not found", whatever the tools would do. */
  lemma UnknownToolExits(decode: Decoder, local: SalesTool, other: SalesTool, catalog: seq<Descriptor>,
                         response: string, toolName: Json, params: Json)
    requires ParseSelection(decode, response) == Ok((toolName, params))
    requires Hashable(toolName) && forall k :: 0 <= k < |ExtendedTools| ==> toolName != JStr(ExtendedTools[k])
    ensures Request(decode, local, catalog, response) == UnknownTool(NotFound(toolName))
    ensures Request(decode, other, catalog, response) == Request(decode, local, catalog, response)
  {
  }

  /**
   * The arguments are the merged values of the described parameter names,
   * in the described order and as many as there are names; parameters the
   * description does not name never reach the tool.
   */
  lemma PositionalArgsFollowOrder(exec: Fields, names: seq<string>)
    requires forall i :: 0 <= i < |names| ==> names[i] in Keys(exec)
    ensures (var order := seq(|names|, i requires 0 <= i < |names| => JStr(names[i]));
             && PositionalArgs(exec, order).Ok?
             && |PositionalArgs(exec, order).value| == |names|
             && forall i :: 0 <= i < |names| ==> PositionalArgs(exec, order).value[i] == Lookup(exec, names[i]).value)
  {
    var order := seq(|names|, i requires 0 <= i < |names| => JStr(names[i]));
    var f := ValueOf(exec);
    forall i | 0 <= i < |names|
      ensures f(order[i]) == Ok(Lookup(exec, names[i]).value)
    {
      assert order[i] == JStr(names[i]);
    }
    MapAllItems(order, f);
    var r := MapAll(order, f);
    forall i | 0 <= i < |names|
      ensures r.Ok? && r.value[i] == Lookup(exec, names[i]).value
    {
      assert f(order[i]) == Ok(r.value[i]);
    }
  }

  /** The first described name bound by neither the defaults nor the model raises `KeyError`. */
  lemma MissingParameterRaises(exec: Fields, names: seq<string>, k: nat)
    requires k < |names| && names[k] !in Keys(exec)
    requires forall i :: 0 <= i < k ==> names[i] in Keys(exec)
    ensures PositionalArgs(exec, seq(|names|, i requires 0 <= i < |names| => JStr(names[i])))
         == Err(KeyError(JStr(names[k])))
  {
    var order := seq(|names|, i requires 0 <= i < |names| => JStr(names[i]));
    assert ValueOf(exec)(order[k]) == Err(KeyError(JStr(names[k])));
    MapAllFirstError(order, ValueOf(exec), k);
  }

  /**
   * A known tool whose description lists `names`, all bound after the
   * merge, runs once on their merged values in that order (`MergedLookup`
   * says which of the model's and the default values those are).
   */
  lemma KnownToolRuns(local: SalesTool, catalog: seq<Descriptor>, name: string, fs: Fields, names: seq<string>)
    requires FindDescriptor(catalog, JStr(name)).Some?
    requires FindDescriptor(catalog, JStr(name)).value.parameters
             == JArr(seq(|names|, i requires 0 <= i < |names| => JStr(names[i])))
    requires forall i :: 0 <= i < |names| ==> names[i] in Keys(Merged(DefaultParams(name), fs))
    ensures (var exec := Merged(DefaultParams(name), fs);
             var order := seq(|names|, i requires 0 <= i < |names| => JStr(names[i]));
             var args := seq(|names|, i requires 0 <= i < |names| => Lookup(exec, names[i]).value);
             Invoked(local, catalog, name, JObj(fs))
             == match local(name, args)
                case Ok(result) => Executed(name, order, args, result)
                case Err(e) => Crashed(e))
  {
    var exec := Merged(DefaultParams(name), fs);
    var order := seq(|names|, i requires 0 <= i < |names| => JStr(names[i]));
    var args := seq(|names|, i requires 0 <= i < |names| => Lookup(exec, names[i]).value);
    PositionalArgsFollowOrder(exec, names);
    var built := PositionalArgs(exec, order).value;
    assert forall i :: 0 <= i < |names| ==> built[i] == args[i];
    assert built == args;
    InvokedSteps(local, catalog, name, JObj(fs), exec, order, args);
  }

  /** `Invoked` once each of its steps has succeeded. */
  lemma InvokedSteps(local: SalesTool, catalog: seq<Descriptor>, name: string, params: Json,
                     exec: Fields, order: seq<Json>, args: seq<Json>)
    requires Update(DefaultParams(name), params) == Ok(exec)
    requires FindDescriptor(catalog, JStr(name)).Some?
    requires Iterate(FindDescriptor(catalog, JStr(name)).value.parameters) == Ok(order)
    requires PositionalArgs(exec, order) == Ok(args)
    ensures Invoked(local, catalog, name, params)
         == match local(name, args)
            case Ok(result) => Executed(name, order, args, result)
            case Err(e) => Crashed(e)
  {
  }

  // ---------------------------------------------------------------------
  // the parameter table (lines 115-119)

  /** `(str(k), str(exec_params[k]))`. */
  function RowOf(exec: Fields): Json -> Result<(string, string)> {
    (k: Json) => (var v :- Index(exec, k); Ok((Str(k), Str(v))))
  }

  /** `for k in param_order: table.add_row(str(k), str(exec_params[k]))`. */
  method ParameterRows(exec: Fields, order: seq<Json>) returns (rows: Result<seq<(string, string)>>)
    ensures rows == MapAll(order, RowOf(exec))
  {
    rows := CollectAll(order, RowOf(exec));
  }

  /** Once the arguments were built, the table lists each described name with its argument, in order. */
  lemma RowsShowArguments(exec: Fields, order: seq<Json>, args: seq<Json>)
    requires PositionalArgs(exec, order) == Ok(args)
    ensures MapAll(order, RowOf(exec)) == Ok(seq(|order|, i requires 0 <= i < |order| => (Str(order[i]), Str(args[i]))))
  {
    MapAllItems(order, ValueOf(exec));
    var rows := seq(|order|, i requires 0 <= i < |order| => (Str(order[i]), Str(args[i])));
    forall i | 0 <= i < |order|
      ensures RowOf(exec)(order[i]) == Ok(rows[i])
    {
      assert ValueOf(exec)(order[i]) == Ok(args[i]);
    }
    MapAllItems(order, RowOf(exec));
    assert MapAll(order, RowOf(exec)).value == rows;
  }
}
