/**
 * `ollama_run_mcp.py`: the agent that runs the local sales tools and the
 * tools of an MCP calculator server.  A remote call converts the model's
 * parameters by the tool's input schema (`execute_tool_in_mcp`), local
 * tools get their file and region defaults (`try_execute_tool`), and the MCP
 * tools are listed in the prompt one numbered line each.
 */
module McpAgent {
  import opened Base
  import opened Strings
  import opened Json
  import opened Py
  import opened Sales
  import opened McpClient
  import AgentLoop

  /**
   * An argument converted by its schema type.  `float(value)` is not
   * modelled: a `number` argument keeps the value it was given.
   */
  datatype Arg = IntArg(n: int) | FloatArg(raw: Json) | ListArg(items: seq<int>) | StrArg(s: string)

  /** The `arguments` dict passed to `call_tool`, in insertion order. */
  type Arguments = seq<(string, Arg)>

  /** An item of `result.content`: one with a `text` attribute, or one shown as `str(item)`. */
  datatype ContentItem = TextItem(text: string) | OtherItem(shown: string)

  /** What `call_tool` returns, as far as the script looks at it. */
  datatype CallResult =
    /** `result.content` is a list. */
    | ContentList(items: seq<ContentItem>)
    /** `result.content` is something else, shown as `str(result.content)`. */
    | ContentOther(shown: string)
    /** `result` has no `content`; shown as `str(result)`. */
    | NoContent(shown: string)

  /** `session.call_tool(name, arguments=...)`: the result, or what it raises.  Not modelled. */
  type CallTool = (SessionId, string, Arguments) -> Result<CallResult>

  /** What `execute_tool_in_mcp` returns: a string, or the list of the content items' texts. */
  datatype ToolValue = Text(text: string) | Texts(items: seq<string>)

  /** `str` of a tool value, as the f-strings of the loop show it. */
  function Show(v: ToolValue): string {
    match v
    case Text(s) => s
    case Texts(items) => ReprStrings(items)
  }

  // ---------------------------------------------------------------------
  // argument coercion (`execute_tool_in_mcp`, lines 153-181)

  const Brackets: set<char> := {'[', ']'}

  /** `int(x.strip())`. */
  function IntItem(x: Json): Result<int> {
    var s :- StripMethod(x);
    ToInt(JStr(s))
  }

  /** `[int(x.strip()) for x in xs]`: the first item that is not a string of digits raises. */
  function IntItems(xs: seq<Json>): Result<seq<int>> {
    MapAll(xs, IntItem)
  }

  /** The pieces of a string value: `value.strip('[]').split(',')`. */
  function ArrayPieces(s: string): seq<Json> {
    var pieces := Split(Strip(s, Brackets), ',');
    seq(|pieces|, i requires 0 <= i < |pieces| => JStr(pieces[i]))
  }

  /** Coercion to `array`: a string is split on commas, anything else is iterated. */
  function CoerceArray(value: Json): Result<seq<int>> {
    if value.JStr? then IntItems(ArrayPieces(value.s))
    else
      var xs :- Iterate(value);
      IntItems(xs)
  }

  /** The conversion chosen by the declared `type`. */
  function ConvertValue(paramType: Json, value: Json): Result<Arg> {
    if paramType == JStr("integer") then
      var n :- ToInt(value);
      Ok(IntArg(n))
    else if paramType == JStr("number") then Ok(FloatArg(value))
    else if paramType == JStr("array") then
      var xs :- CoerceArray(value);
      Ok(ListArg(xs))
    else Ok(StrArg(Str(value)))
  }

  /** One schema property: it must be present in `params`; its `type` defaults to `'string'`. */
  function ArgFor(params: Json, name: string, info: Json): Result<Arg> {
    var present :- Contains(params, name);
    if !present then Err(ValueError("Missing required parameter: " + name))
    else
      var value :- Subscript(params, name);
      var paramType :- Get(info, JStr("type"), JStr("string"));
      ConvertValue(paramType, value)
  }

  /** `tool.inputSchema.get('properties', {})`, whose `.items()` is iterated. */
  function SchemaProperties(schema: Json): Result<Fields> {
    var props :- Get(schema, JStr("properties"), JObj([]));
    if props.JObj? then Ok(props.fields) else Err(NoAttribute(props, "items"))
  }

  /** The conversion of one `(param_name, param_info)` property. */
  function ArgOf(params: Json): ((string, Json)) -> Result<Arg> {
    (prop: (string, Json)) => ArgFor(params, prop.0, prop.1)
  }

  /** The arguments dict: each property's name with its converted value, in schema order. */
  function Named(props: Fields, values: seq<Arg>): Arguments
    requires |values| == |props|
  {
    seq(|props|, i requires 0 <= i < |props| => (props[i].0, values[i]))
  }

  /** The arguments for the properties, in schema order, or the error of the first that cannot be converted. */
  function CoerceAll(params: Json, props: Fields): Result<Arguments> {
    var values :- MapAll(props, ArgOf(params));
    Ok(Named(props, values))
  }

  lemma ArgOfApplied(params: Json, props: Fields)
    ensures forall i :: 0 <= i < |props| ==> ArgOf(params)(props[i]) == ArgFor(params, props[i].0, props[i].1)
  {
  }

  /** The coercion succeeds exactly when every property converts. */
  lemma CoerceAllSucceeds(params: Json, props: Fields)
    ensures CoerceAll(params, props).Ok? <==> forall i :: 0 <= i < |props| ==> ArgFor(params, props[i].0, props[i].1).Ok?
  {
    ArgOfApplied(params, props);
    MapAllItems(props, ArgOf(params));
  }

  /** A successful coercion names each argument after its property and holds its converted value. */
  lemma CoercedArguments(params: Json, props: Fields)
    requires CoerceAll(params, props).Ok?
    ensures (var args := CoerceAll(params, props).value;
             |args| == |props|
             && forall i :: 0 <= i < |props| ==>
                  args[i].0 == props[i].0 && ArgFor(params, props[i].0, props[i].1) == Ok(args[i].1))
  {
    ArgOfApplied(params, props);
    MapAllItems(props, ArgOf(params));
  }

  /** A failed coercion carries the error of the first property that does not convert. */
  lemma CoercionError(params: Json, props: Fields)
    requires CoerceAll(params, props).Err?
    ensures exists k :: 0 <= k < |props| && ArgFor(params, props[k].0, props[k].1) == Err(CoerceAll(params, props).error)
                        && forall i :: 0 <= i < k ==> ArgFor(params, props[i].0, props[i].1).Ok?
  {
    ArgOfApplied(params, props);
    MapAllItems(props, ArgOf(params));
  }

  function Coerced(schema: Json, params: Json): Result<Arguments> {
    var props :- SchemaProperties(schema);
    CoerceAll(params, props)
  }

  /** The `for param_name, param_info in schema_properties.items()` loop that fills `arguments`. */
  method CoerceArguments(schema: Json, params: Json) returns (r: Result<Arguments>)
    ensures r == Coerced(schema, params)
  {
    var props := SchemaProperties(schema);
    if props.Err? {
      return Err(props.error);
    }
    var values := CollectAll(props.value, ArgOf(params));
    if values.Err? {
      return Err(values.error);
    }
    r := Ok(Named(props.value, values.value));
  }

  /**
   * The arguments carry exactly the schema's property names, in schema
   * order, whatever else the model supplied; a schema without
   * `properties` gives no arguments.
   */
  lemma ArgumentsFollowSchema(schema: Json, params: Json)
    ensures Coerced(schema, params).Ok? ==>
              SchemaProperties(schema).Ok?
              && Keys(SchemaProperties(schema).value) == seq(|Coerced(schema, params).value|,
                                                             i requires 0 <= i < |Coerced(schema, params).value| =>
                                                               Coerced(schema, params).value[i].0)
    ensures schema.JObj? && "properties" !in Keys(schema.fields) ==> Coerced(schema, params) == Ok([])
  {
  }

  /** Any declared type other than `integer`, `number` and `array` gives `str(value)`. */
  lemma ConvertOther(paramType: Json, value: Json)
    requires paramType != JStr("integer") && paramType != JStr("number") && paramType != JStr("array")
    ensures ConvertValue(paramType, value) == Ok(StrArg(Str(value)))
  {
  }

  /** A present parameter is converted by its declared `type`, `'string'` when it declares none. */
  lemma ArgForPresent(fs: Fields, name: string, info: Fields)
    requires name in Keys(fs)
    ensures ArgFor(JObj(fs), name, JObj(info))
         == ConvertValue(Lookup(info, "type").GetOr(JStr("string")), Lookup(fs, name).value)
  {
    DictSubscript(fs, name);
    GetFromDict(info, "type", JStr("string"));
  }

  /** A present parameter with no declared `type` is passed as `str(value)`. */
  lemma UntypedParameterIsString(fs: Fields, name: string, info: Fields)
    requires name in Keys(fs) && "type" !in Keys(info)
    ensures ArgFor(JObj(fs), name, JObj(info)) == Ok(StrArg(Str(Lookup(fs, name).value)))
  {
    ArgForPresent(fs, name, info);
    ConvertOther(JStr("string"), Lookup(fs, name).value);
  }

  /** A present parameter is converted by its declared type; an unknown type gives its `str`. */
  lemma PresentParameterConverted(fs: Fields, name: string, info: Fields)
    requires name in Keys(fs)
    ensures ArgFor(JObj(fs), name, JObj(info))
         == ConvertValue(Lookup(info, "type").GetOr(JStr("string")), Lookup(fs, name).value)
    ensures (var t := Lookup(info, "type").GetOr(JStr("string"));
             t !in {JStr("integer"), JStr("number"), JStr("array")} ==>
               ArgFor(JObj(fs), name, JObj(info)) == Ok(StrArg(Str(Lookup(fs, name).value))))
  {
    ArgForPresent(fs, name, info);
    var t := Lookup(info, "type").GetOr(JStr("string"));
    if t !in {JStr("integer"), JStr("number"), JStr("array")} {
      ConvertOther(t, Lookup(fs, name).value);
    }
  }

  /** An absent parameter is reported by name, after every earlier property converted. */
  lemma AbsentParameterReported(fs: Fields, name: string, info: Json)
    requires name !in Keys(fs)
    ensures ArgFor(JObj(fs), name, info) == Err(ValueError("Missing required parameter: " + name))
  {
  }

  /** `int(str(n))` and `int(n)` give `n` back for an `integer` parameter. */
  lemma IntegerCoercion(n: int)
    ensures ConvertValue(JStr("integer"), JStr(IntToDecimal(n))) == Ok(IntArg(n))
    ensures ConvertValue(JStr("integer"), JInt(n)) == Ok(IntArg(n))
  {
    ParseIntRoundTrip(n);
  }

  /** `"[]"` is not an empty list: `int('')` raises. */
  lemma EmptyListTextFails()
    ensures ConvertValue(JStr("array"), JStr("[]"))
         == Err(ValueError("invalid literal for int() with base 10: " + Quote("")))
  {
    var s := "[]";
    assert Strip(s, Brackets) == "" by {
      StripUnique(s, Brackets, 2, 2);
    }
    assert Split("", ',') == [""];
    assert ArrayPieces(s) == [JStr("")];
    assert Strip("", Whitespace) == "";
    assert ParseInt("") == None;
    assert IntItem(JStr("")) == Err(ValueError("invalid literal for int() with base 10: " + Quote("")));
    MapAllFirstError(ArrayPieces(s), IntItem, 0);
  }

  /** The items of a list of integers. */
  function Ints(ns: seq<int>): seq<Json> {
    seq(|ns|, i requires 0 <= i < |ns| => JInt(ns[i]))
  }

  /** One number's digits, then `", "` and more text: the split yields the digits, then the rest with a leading space. */
  lemma SpacedSplitStep(d: string, r: string)
    requires ',' !in d
    ensures Split(d + ", " + r, ',') == [d, [' '] + Split(r, ',')[0]] + Split(r, ',')[1..]
  {
    assert d + ", " + r == d + [','] + ([' '] + r);
    SplitAfter(d, [' '] + r, ',');
    assert ([' '] + r)[1..] == r;
  }

  /** `str(i)` is one piece of a split on commas, and strips to itself. */
  lemma DecimalPiece(i: int)
    ensures ',' !in IntToDecimal(i) && Strip(IntToDecimal(i), Whitespace) == IntToDecimal(i)
    ensures var d := IntToDecimal(i); d[0] !in Brackets && d[|d| - 1] !in Brackets
  {
    var d := IntToDecimal(i);
    DecimalShape(i);
    StripNoop(d, Whitespace);
  }

  /** The text between the brackets of `str(ns)` has no bracket at either end. */
  lemma {:induction false} IntListEnds(ns: seq<int>)
    requires |ns| > 0
    ensures var r := ReprItems(Ints(ns));
            |r| > 0 && r[0] !in Brackets && r[|r| - 1] !in Brackets
    decreases |ns|
  {
    var d := IntToDecimal(ns[0]);
    DecimalPiece(ns[0]);
    if |ns| == 1 {
      assert Ints(ns) == [JInt(ns[0])];
    } else {
      IntsCons(ns);
      IntListEnds(ns[1..]);
      SpacedEnds(d, ReprItems(Ints(ns[1..])));
    }
  }

  /** `d + ", " + r` begins where `d` begins and ends where `r` ends. */
  lemma SpacedEnds(d: string, r: string)
    requires |d| > 0 && |r| > 0
    ensures var t := d + ", " + r; t[0] == d[0] && t[|t| - 1] == r[|r| - 1]
  {
  }

  /** Prefixing a number's digits and `", "` to a text prefixes its stripped comma pieces with those digits. */
  lemma SpacedPieces(d: string, r: string, strs: seq<string>)
    requires ',' !in d && Strip(d, Whitespace) == d
    requires |Split(r, ',')| == |strs| > 0
    requires forall i :: 0 <= i < |strs| ==> Strip(Split(r, ',')[i], Whitespace) == strs[i]
    ensures |Split(d + ", " + r, ',')| == |strs| + 1
    ensures forall i :: 0 <= i <= |strs| ==> Strip(Split(d + ", " + r, ',')[i], Whitespace) == ([d] + strs)[i]
  {
    var q, ps := Split(r, ','), Split(d + ", " + r, ',');
    SpacedSplitStep(d, r);
    forall i | 0 <= i <= |strs|
      ensures Strip(ps[i], Whitespace) == ([d] + strs)[i]
    {
      if i == 1 {
        StripLeading(' ', q[0], Whitespace);
      } else if i > 1 {
        assert ps[i] == q[i - 1];
      }
    }
  }

  /** The items' text of two or more numbers is the first number's digits, `", "` and the rest. */
  lemma IntsCons(ns: seq<int>)
    requires |ns| > 1
    ensures ReprItems(Ints(ns)) == IntToDecimal(ns[0]) + ", " + ReprItems(Ints(ns[1..]))
  {
    assert Ints(ns)[1..] == Ints(ns[1..]);
  }

  /** `str(n)` of each number, in order. */
  function Decimals(ns: seq<int>): (ds: seq<string>)
    ensures |ds| == |ns| && forall i :: 0 <= i < |ns| ==> ds[i] == IntToDecimal(ns[i])
  {
    seq(|ns|, i requires 0 <= i < |ns| => IntToDecimal(ns[i]))
  }

  lemma DecimalsCons(ns: seq<int>)
    requires |ns| > 0
    ensures Decimals(ns) == [IntToDecimal(ns[0])] + Decimals(ns[1..])
  {
    var a, b := Decimals(ns), [IntToDecimal(ns[0])] + Decimals(ns[1..]);
    forall i | 0 <= i < |a|
      ensures a[i] == b[i]
    {
      if i > 0 {
        assert b[i] == Decimals(ns[1..])[i - 1];
      }
    }
  }

  /** That text splits on commas into one piece per number, which strips to the number's digits. */
  lemma {:induction false} IntListPieces(ns: seq<int>)
    requires |ns| > 0
    ensures var ps := Split(ReprItems(Ints(ns)), ',');
            |ps| == |ns| && forall i :: 0 <= i < |ns| ==> Strip(ps[i], Whitespace) == Decimals(ns)[i]
    decreases |ns|
  {
    var d := IntToDecimal(ns[0]);
    DecimalPiece(ns[0]);
    if |ns| == 1 {
      assert Ints(ns) == [JInt(ns[0])];
      SplitNoSep(d, ',');
    } else {
      var rest := ns[1..];
      IntsCons(ns);
      IntListPieces(rest);
      SpacedPieces(d, ReprItems(Ints(rest)), Decimals(rest));
      DecimalsCons(ns);
    }
  }

  /** `.strip('[]')` of `str(ns)` leaves the items' text. */
  lemma IntListUnbracketed(ns: seq<int>)
    requires |ns| > 0
    ensures Strip(Repr(JArr(Ints(ns))), Brackets) == ReprItems(Ints(ns))
  {
    var r := ReprItems(Ints(ns));
    IntListEnds(ns);
    assert Repr(JArr(Ints(ns))) == ['['] + r + [']'];
    StripEnclosed('[', r, ']', Brackets);
  }

  /** Pieces that strip to the digits of some numbers are read back as those numbers. */
  lemma DecimalPiecesParse(ps: seq<string>, ns: seq<int>)
    requires |ps| == |ns|
    requires forall i :: 0 <= i < |ns| ==> Strip(ps[i], Whitespace) == IntToDecimal(ns[i])
    ensures IntItems(seq(|ps|, i requires 0 <= i < |ps| => JStr(ps[i]))) == Ok(ns)
  {
    var xs := seq(|ps|, i requires 0 <= i < |ps| => JStr(ps[i]));
    forall i | 0 <= i < |ns|
      ensures IntItem(xs[i]) == Ok(ns[i])
    {
      ParseIntRoundTrip(ns[i]);
    }
    MapAllItems(xs, IntItem);
    assert MapAll(xs, IntItem).value == ns;
  }

  /**
   * `str` of a non-empty list of integers, `"[1, 2, 3]"` say, is read back
   * as that list by an `array` parameter.
   */
  lemma IntListTextRoundTrip(ns: seq<int>)
    requires |ns| > 0
    ensures ConvertValue(JStr("array"), JStr(Repr(JArr(Ints(ns))))) == Ok(ListArg(ns))
  {
    var s := Repr(JArr(Ints(ns)));
    var ps := Split(ReprItems(Ints(ns)), ',');
    IntListUnbracketed(ns);
    IntListPieces(ns);
    DecimalPiecesParse(ps, ns);
    assert ArrayPieces(s) == seq(|ps|, i requires 0 <= i < |ps| => JStr(ps[i]));
    ArrayOfText(s, ns);
  }

  /** An `array` parameter given as text is the list its pieces are read as. */
  lemma ArrayOfText(s: string, ns: seq<int>)
    requires IntItems(ArrayPieces(s)) == Ok(ns)
    ensures ConvertValue(JStr("array"), JStr(s)) == Ok(ListArg(ns))
  {
  }

  /** A list of the numbers' texts, `["1", "2", "3"]` say, is read as those numbers. */
  lemma IntStringListCoercion(ns: seq<int>)
    ensures (var texts := seq(|ns|, i requires 0 <= i < |ns| => IntToDecimal(ns[i]));
             ConvertValue(JStr("array"), JArr(seq(|ns|, i requires 0 <= i < |ns| => JStr(texts[i])))) == Ok(ListArg(ns)))
  {
    var texts := seq(|ns|, i requires 0 <= i < |ns| => IntToDecimal(ns[i]));
    forall i | 0 <= i < |ns|
      ensures Strip(texts[i], Whitespace) == IntToDecimal(ns[i])
    {
      DecimalPiece(ns[i]);
    }
    DecimalPiecesParse(texts, ns);
  }

  /** A list whose first item is not a string fails on that item's `.strip()`. */
  lemma NonStringItemFails(x: Json, rest: seq<Json>)
    requires !x.JStr?
    ensures ConvertValue(JStr("array"), JArr([x] + rest)) == Err(NoAttribute(x, "strip"))
  {
    MapAllFirstError([x] + rest, IntItem, 0);
  }

  // ---------------------------------------------------------------------
  // remote execution (`execute_tool_in_mcp`)

  /** `[item.text if hasattr(item, 'text') else str(item) for item in result.content]`. */
  function ItemText(item: ContentItem): string {
    match item
    case TextItem(t) => t
    case OtherItem(s) => s
  }

  /** What `execute_tool_in_mcp` makes of the call's outcome; a failing call becomes an error string. */
  function CallValue(outcome: Result<CallResult>): ToolValue {
    match outcome
    case Err(e) => Text(ErrorText(e))
    case Ok(ContentList(items)) => Texts(seq(|items|, i requires 0 <= i < |items| => ItemText(items[i])))
    case Ok(ContentOther(s)) => Text(s)
    case Ok(NoContent(s)) => Text(s)
  }

  /**
   * `execute_tool_in_mcp`: an unknown name and a tool without a session
   * raise, as does a failing coercion; the call itself cannot raise.
   */
  function ExecuteToolInMcp(call: CallTool, tools: seq<McpTool>, toolName: Json, params: Json): Result<ToolValue> {
    match FindTool(tools, toolName)
    case None => Err(ValueError("Unknown tool: " + Str(toolName)))
    case Some(tool) =>
      if tool.session.None? then Err(ValueError("No session found for tool: " + Str(toolName)))
      else
        var arguments :- Coerced(tool.inputSchema, params);
        Ok(CallValue(call(tool.session.value, tool.name, arguments)))
  }

  // ---------------------------------------------------------------------
  // dispatch (`try_execute_tool`, lines 211-225)

  /** Whether a local tool is given a region as well as a file. */
  predicate TakesRegion(name: string) {
    name == "filter_by_region" || name == "total_sales_by_region"
  }

  function Dispatch(local: SalesTool, call: CallTool, tools: seq<McpTool>, toolName: Json, params: Json): Result<string> {
    var isLocal :- InTable(ExtendedTools, toolName);
    if isLocal then
      var file :- FileArg(params);
      if TakesRegion(toolName.s) then
        var region :- RegionArg(params);
        local(toolName.s, [file, region])
      else local(toolName.s, [file])
    else
      var v :- ExecuteToolInMcp(call, tools, toolName, params);
      Ok(Show(v))
  }

  /** `str(await try_execute_tool(...))`: exceptions come back as "Error executing tool: ...". */
  function TryExecuteTool(local: SalesTool, call: CallTool, tools: seq<McpTool>, toolName: Json, params: Json): string {
    Caught(Dispatch(local, call, tools, toolName, params))
  }

  /** The loop's dispatcher. */
  function Dispatcher(local: SalesTool, call: CallTool, tools: seq<McpTool>): AgentLoop.Dispatcher {
    (toolName: Json, params: Json) => TryExecuteTool(local, call, tools, toolName, params)
  }

  /**
   * Local names are served by the sales tools with the file and region
   * defaults, whatever the MCP server offers under the same name.
   */
  lemma LocalToolsFirst(local: SalesTool, call: CallTool, tools: seq<McpTool>, name: string, fs: Fields)
    requires name in ExtendedTools
    ensures (var file := Lookup(fs, "file").GetOr(JStr(DefaultFile));
             var region := Lookup(fs, "region").GetOr(JStr(DefaultRegion));
             TryExecuteTool(local, call, tools, JStr(name), JObj(fs))
             == Caught(local(name, if TakesRegion(name) then [file, region] else [file])))
  {
    InTableOfName(ExtendedTools, name);
    DictArgs(fs);
  }

  /** A name that is neither local nor remote is reported, not raised. */
  lemma UnknownToolReported(local: SalesTool, call: CallTool, tools: seq<McpTool>, name: string, params: Json)
    requires name !in ExtendedTools
    requires forall k :: 0 <= k < |tools| ==> tools[k].name != name
    ensures TryExecuteTool(local, call, tools, JStr(name), params) == ErrorText(ValueError("Unknown tool: " + name))
  {
  }

  /** A listed tool without an attached session is reported, not called. */
  lemma NoSessionReported(local: SalesTool, call: CallTool, tools: seq<McpTool>, name: string, params: Json)
    requires name !in ExtendedTools
    requires FindTool(tools, JStr(name)).Some? && FindTool(tools, JStr(name)).value.session.None?
    ensures TryExecuteTool(local, call, tools, JStr(name), params) == ErrorText(ValueError("No session found for tool: " + name))
  {
  }

  /** When the first property is missing, the coercion reports it. */
  lemma FirstPropertyMissing(fs: Fields, props: Fields)
    requires |props| > 0 && props[0].0 !in Keys(fs)
    ensures CoerceAll(JObj(fs), props) == Err(ValueError("Missing required parameter: " + props[0].0))
  {
    AbsentParameterReported(fs, props[0].0, props[0].1);
    ArgOfApplied(JObj(fs), props);
    MapAllFirstError(props, ArgOf(JObj(fs)), 0);
  }

  /** A remote tool whose first schema property is missing from the parameters is reported, not raised. */
  lemma MissingParameterReported(local: SalesTool, call: CallTool, tools: seq<McpTool>, name: string,
                                 fs: Fields, props: Fields)
    requires name !in ExtendedTools
    requires FindTool(tools, JStr(name)).Some? && FindTool(tools, JStr(name)).value.session.Some?
    requires SchemaProperties(FindTool(tools, JStr(name)).value.inputSchema) == Ok(props)
    requires |props| > 0 && props[0].0 !in Keys(fs)
    ensures TryExecuteTool(local, call, tools, JStr(name), JObj(fs))
         == ErrorText(ValueError("Missing required parameter: " + props[0].0))
  {
    var tool := FindTool(tools, JStr(name)).value;
    var e := ValueError("Missing required parameter: " + props[0].0);
    FirstPropertyMissing(fs, props);
    assert Coerced(tool.inputSchema, JObj(fs)) == Err(e);
    assert ExecuteToolInMcp(call, tools, JStr(name), JObj(fs)) == Err(e);
    assert InTable(ExtendedTools, JStr(name)) == Ok(false);
    assert Dispatch(local, call, tools, JStr(name), JObj(fs)) == Err(e);
  }

  /**
   * A remote call that raises gives "Error executing tool: ..." too, and a
   * list of content items is shown as the list of their texts.
   */
  lemma RemoteOutcomeShown(local: SalesTool, call: CallTool, tools: seq<McpTool>, name: string,
                           params: Json, arguments: Arguments)
    requires name !in ExtendedTools
    requires FindTool(tools, JStr(name)).Some? && FindTool(tools, JStr(name)).value.session.Some?
    requires Coerced(FindTool(tools, JStr(name)).value.inputSchema, params) == Ok(arguments)
    ensures (var tool := FindTool(tools, JStr(name)).value;
             var outcome := call(tool.session.value, name, arguments);
             && (outcome.Err? ==> TryExecuteTool(local, call, tools, JStr(name), params) == ErrorText(outcome.error))
             && (outcome.Ok? && outcome.value.ContentList? ==>
                   TryExecuteTool(local, call, tools, JStr(name), params)
                   == Repr(JArr(seq(|outcome.value.items|, i requires 0 <= i < |outcome.value.items| =>
                                     JStr(ItemText(outcome.value.items[i])))))))
  {
    var tool := FindTool(tools, JStr(name)).value;
    assert tool.name == name;
    assert InTable(ExtendedTools, JStr(name)) == Ok(false);
    var outcome := call(tool.session.value, name, arguments);
    assert ExecuteToolInMcp(call, tools, JStr(name), params) == Ok(CallValue(outcome));
    if outcome.Ok? && outcome.value.ContentList? {
      var items := outcome.value.items;
      var texts := seq(|items|, i requires 0 <= i < |items| => ItemText(items[i]));
      assert seq(|texts|, i requires 0 <= i < |texts| => JStr(texts[i]))
          == seq(|items|, i requires 0 <= i < |items| => JStr(ItemText(items[i])));
    }
  }

  // ---------------------------------------------------------------------
  // the MCP tool listing (lines 255-284)

  /** `f"{param_name}: {param_info.get('type', 'unknown')}"`. */
  function ParamDetail(name: string, info: Json): Result<string> {
    var t :- Get(info, JStr("type"), JStr("unknown"));
    Ok(name + ": " + Str(t))
  }

  function ParamDetailOf(prop: (string, Json)): Result<string> {
    ParamDetail(prop.0, prop.1)
  }

  /** The details of all properties, in order, or the error of the first that has none. */
  function ParamDetails(props: Fields): Result<seq<string>> {
    MapAll(props, ParamDetailOf)
  }

  /** `params_str`: the property details joined by ", ", or 'no parameters' without `properties`. */
  function ParamsText(schema: Json): Result<string> {
    var has :- Contains(schema, "properties");
    if has then
      var props :- Subscript(schema, "properties");
      if !props.JObj? then Err(NoAttribute(props, "items"))
      else
        var details :- ParamDetails(props.fields);
        Ok(Join(", ", details))
    else Ok("no parameters")
  }

  /** The line of the `i`-th tool (counted from 0); a tool whose schema raises gets an error line. */
  function ToolLine(i: nat, t: McpTool): string {
    LineText(i, t, ParamsText(t.inputSchema))
  }

  /** The line for the `i`-th tool once `params_str` is known or has raised. */
  function LineText(i: nat, t: McpTool, params: Result<string>): string {
    match params
    case Ok(p) => IntToDecimal(i + 1) + ". " + t.name + "(" + p + ") - " + Str(t.description)
    case Err(_) => IntToDecimal(i + 1) + ". Error processing tool"
  }

  function ToolLines(tools: seq<McpTool>): seq<string> {
    seq(|tools|, i requires 0 <= i < |tools| => ToolLine(i, tools[i]))
  }

  /** `params_str`, or the exception that sends the tool to the error line. */
  method ParamsString(schema: Json) returns (r: Result<string>)
    ensures r == ParamsText(schema)
  {
    var has := Contains(schema, "properties");
    if has.Err? {
      return Err(has.error);
    }
    if !has.value {
      return Ok("no parameters");
    }
    var props := Subscript(schema, "properties");
    if props.Err? {
      return Err(props.error);
    }
    if !props.value.JObj? {
      return Err(NoAttribute(props.value, "items"));
    }
    var details := CollectAll(props.value.fields, ParamDetailOf);
    if details.Err? {
      return Err(details.error);
    }
    r := Ok(Join(", ", details.value));
  }

  /** `math_tools_description`: one line per tool, numbered from 1, joined by newlines. */
  method DescribeTools(tools: seq<McpTool>) returns (lines: seq<string>, text: string)
    ensures lines == ToolLines(tools)
    ensures text == Join("\n", lines)
  {
    lines := [];
    var i := 0;
    while i < |tools|
      invariant 0 <= i <= |tools|
      invariant lines == ToolLines(tools)[..i]
    {
      var tool := tools[i];
      var params := ParamsString(tool.inputSchema);
      var line := LineText(i, tool, params);
      assert ToolLines(tools)[..i + 1] == ToolLines(tools)[..i] + [line];
      lines := lines + [line];
      i := i + 1;
    }
    assert ToolLines(tools)[..i] == ToolLines(tools);
    text := Join("\n", lines);
  }

  /**
   * A schema whose `properties` is a dict of dicts lists each property as
   * "name: type", in order, with "unknown" for a property without a `type`.
   */
  lemma PropertiesLine(i: nat, t: McpTool, fs: Fields, props: Fields)
    requires t.inputSchema == JObj(fs) && Lookup(fs, "properties") == Some(JObj(props))
    requires forall k :: 0 <= k < |props| ==> props[k].1.JObj?
    ensures (var details := seq(|props|, k requires 0 <= k < |props| =>
                              props[k].0 + ": " + Str(Lookup(props[k].1.fields, "type").GetOr(JStr("unknown"))));
             ToolLine(i, t) == IntToDecimal(i + 1) + ". " + t.name + "(" + Join(", ", details) + ") - " + Str(t.description))
  {
    var details := seq(|props|, k requires 0 <= k < |props| =>
                     props[k].0 + ": " + Str(Lookup(props[k].1.fields, "type").GetOr(JStr("unknown"))));
    DictSubscript(fs, "properties");
    PropertyDetails(props);
    assert ParamsText(t.inputSchema) == Ok(Join(", ", details));
  }

  /** The details of properties whose infos are all dicts: "name: type", "unknown" for a missing type. */
  lemma PropertyDetails(props: Fields)
    requires forall k :: 0 <= k < |props| ==> props[k].1.JObj?
    ensures ParamDetails(props) == Ok(seq(|props|, k requires 0 <= k < |props| =>
                                        props[k].0 + ": " + Str(Lookup(props[k].1.fields, "type").GetOr(JStr("unknown")))))
  {
    var details := seq(|props|, k requires 0 <= k < |props| =>
                     props[k].0 + ": " + Str(Lookup(props[k].1.fields, "type").GetOr(JStr("unknown"))));
    forall k | 0 <= k < |props|
      ensures ParamDetailOf(props[k]) == Ok(details[k])
    {
      GetFromDict(props[k].1.fields, "type", JStr("unknown"));
    }
    MapAllItems(props, ParamDetailOf);
    assert MapAll(props, ParamDetailOf).value == details;
  }

  /** A property whose info is not a dict, wherever it stands, spoils its tool's line, and only that line. */
  lemma BadPropertyInfoSpoilsLine(i: nat, t: McpTool, fs: Fields, props: Fields)
    requires t.inputSchema == JObj(fs) && Lookup(fs, "properties") == Some(JObj(props))
    requires exists k :: 0 <= k < |props| && !props[k].1.JObj?
    ensures ToolLine(i, t) == IntToDecimal(i + 1) + ". Error processing tool"
  {
    var k :| 0 <= k < |props| && !props[k].1.JObj?;
    assert ParamDetailOf(props[k]).Err?;
    DictSubscript(fs, "properties");
    MapAllItems(props, ParamDetailOf);
  }

  /** A tool whose schema has no `properties` is listed with "no parameters". */
  lemma NoPropertiesLine(i: nat, t: McpTool)
    requires t.inputSchema.JObj? && "properties" !in Keys(t.inputSchema.fields)
    ensures ToolLine(i, t) == IntToDecimal(i + 1) + ". " + t.name + "(" + "no parameters" + ") - " + Str(t.description)
  {
  }

  // ---------------------------------------------------------------------
  // the conversation (lines 292-346)

  /**
   * `main`'s loop: the model's answers are read by their brace span, and the
   * numbered history grows by one entry a round until a completion.
   */
  method Converse(decode: Decoder, local: SalesTool, call: CallTool, tools: seq<McpTool>,
                  query: string, turns: seq<AgentLoop.Turn>)
    returns (history: seq<Prompt.Entry>, current: string, rounds: nat, finished: bool)
    ensures AgentLoop.State(history, current, finished)
         == AgentLoop.Run(AgentLoop.Reading(decode), Dispatcher(local, call, tools), AgentLoop.Start(query), turns)
    ensures rounds <= |turns| && |history| == rounds
    ensures finished <==> exists k :: 0 <= k < |turns| && AgentLoop.Completes(AgentLoop.Reading(decode), turns[k])
    ensures finished ==> rounds > 0 && AgentLoop.Completes(AgentLoop.Reading(decode), turns[rounds - 1])
                         && forall k :: 0 <= k < rounds - 1 ==> !AgentLoop.Completes(AgentLoop.Reading(decode), turns[k])
    ensures !finished ==> rounds == |turns|
  {
    history, current, rounds, finished :=
      AgentLoop.Converse(AgentLoop.Reading(decode), Dispatcher(local, call, tools), query, turns);
  }
}
