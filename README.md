# learnagent tool-calling agent core, in Dafny

The learnagent scripts drive a local language model through a text loop.
Each round does four things:
1. builds a prompt from a tool catalog and the conversation history;
2. folds the model's streamed answer into one string;
3. reads that answer as a completion, a tool call or a plain reply;
4. calls a tool where asked and appends one history entry.

The tools are pandas sales tools in the same process and integer calculator tools behind an MCP server.
Each of five agent scripts carries its own copy of this core, with small differences.
This project models each copy as its file writes it.
It proves what each copy promises: which branch is taken, how the history grows, how arguments are coerced and ordered, and that errors come back as text.

## Modules

| module | models |
|---|---|
| `Strings` | `str.strip`, `str.split`, `str.join`, `int()` on text and `str()` of an `int` |
| `Json`, `Py` | Python values as the scripts see them: `json.loads` results, dicts that keep insertion order, `repr`/`str`, `dict.get`, subscripts, and the exceptions these raise. Exceptions are data (`Result`). |
| `Sales` | the local sales-tool tables, the `file`/`region` defaults, and the `"Tool '<name>' not found."` and `"Error executing tool: ..."` texts |
| `Stream` | the three `generate_response` folds over a given sequence of lines |
| `Prompt` | the tool catalog block loop and the two history renderings |
| `Extract` | the greedy brace span `\{[\s\S]*\}` and the classification as completion, tool call, reply or malformed answer |
| `AgentLoop` | the loop shared by `ollama_run_mcp.py`, `ollama_run_mcp_try.py` and `ollama_run_agentx.py`, as a step function over (history, current message, model output, user reply), plus an imperative `Converse` proved against that step function |
| `McpClient` | discovered MCP tools: session attachment, parameter-name resolution, tool lookup, catalog extension |
| `McpAgent` | `ollama_run_mcp.py`: schema-driven argument coercion, remote execution, dispatch, the numbered MCP tool listing, the loop |
| `ProxyDispatch` | the positional `try_execute_tool` of `ollama_run_mcp_try.py` and `ollama_run_agentx_mcp.py` |
| `McpTryAgent`, `AgentxMcpAgent`, `AgentxAgent` | the other three loop scripts |
| `SalesToolsAgent` | `ollama_run_sales_tools.py`: one selection parsed, parameters merged over the defaults, positional arguments, the parameter table |
| `Calculator` | the integer tools of `mcp_server.py` and `mcp_calculator_server.py` |

## Oracles

These are function-typed parameters, never modelled:
- the model backend: its answers and the user's replies are a sequence of `Turn`s;
- `json.loads`: a `Decoder`;
- the pandas sales tools: a `SalesTool`;
- `session.call_tool`: a `CallTool`;
- `await tool(*args)`: a `ProxyDispatch.Invoke`.

The loop runs until a completion or until the turns run out. Running out of turns stands for the user interrupting the program.

## Behaviour worth knowing

- **Answer extraction.** The span runs from the first `{` to the last `}` of the answer, whatever lies between. `Extract.BraceSpan` models it.
- **Bracket stripping.** `value.strip('[]')` removes every leading and every trailing bracket.
- **Missing parameters.** `ollama_run_mcp.py` raises "Missing required parameter" for any absent schema parameter and substitutes no default. The positional dispatchers fill a missing parameter with `0`.
- **Unknown tools.** `ollama_run_mcp_try.py`, `ollama_run_agentx_mcp.py` and `ollama_run_agentx.py` answer `"Tool '<name>' not found."`. `ollama_run_mcp.py` raises `Unknown tool: <name>`, which comes back as `"Error executing tool: Unknown tool: <name>"`. `ollama_run_sales_tools.py` exits.
- **Completion in `ollama_run_agentx_mcp.py`.** It appends nothing to the history.
- **Undecodable answers in `ollama_run_agentx_mcp.py`.** They become plain replies, recorded without an error note.

## Model

| member | source | states |
|---|---|---|
| `Strings.Strip` | ollama_run_mcp.py:178-179 | `s.strip(chars)` is a middle slice of `s`. Everything cut off on either side is in `chars`, and the result neither starts nor ends with one. |
| `Strings.StripIdempotent` | ollama_run_mcp.py:179 | Stripping a stripped text changes nothing. |
| `Strings.Split` | ollama_run_mcp.py:178 | `split(',')` yields at least one piece, and no piece contains the separator. |
| `Strings.JoinSplit` | ollama_run_mcp.py:178 | Joining the pieces of a split with the separator gives back the text. |
| `Strings.SplitCount` | ollama_run_mcp.py:178 | A split yields one more piece than the text has separators. |
| `Strings.JoinSnoc` | ollama_run_mcp_try.py:194 | Joining one more part appends the separator and that part. |
| `Strings.AddUp` | ollama_run_mcp.py:115-123 | A `for x in xs: output += f(x)` loop ends with the concatenation of the pieces, in order. |
| `Strings.ParseIntRoundTrip` | ollama_run_mcp.py:172 | `int(str(i)) == i` for every integer, negative ones included. |
| `Strings.ParseIntIgnoresSurroundingSpace` | ollama_run_mcp.py:179 | `int(s)` depends only on `s.strip()`. |
| `Strings.ParseIntRejectsBlank` | ollama_run_mcp.py:179 | `int` of an empty or all-whitespace text fails. |
| `Strings.ParseInt` | ollama_run_mcp.py:179 | `int(s)` on text: optional sign and ASCII digits after stripping whitespace, otherwise `None` (the `ValueError`); proved about by `ParseIntRoundTrip`, `ParseIntIgnoresSurroundingSpace` and `ParseIntRejectsBlank`. |
| `Strings.IntToDecimal` | ollama_run_mcp.py:64 | `str(n)` of an integer: `-` for a negative one, then its digits without leading zeros; read back by `ParseInt` (`ParseIntRoundTrip`). |
| `Json.Keys` | ollama_run_mcp.py:158 | The keys of a dict, one per binding, in insertion order. |
| `Json.Lookup` | ollama_run_mcp.py:165 | `d.get(k)` is absent exactly when `k` is not a key. |
| `Json.LookupLast` | ollama_run_mcp.py:165 | When `k` is a key, `d.get(k)` is the value of its last binding: no later entry has that key. |
| `Json.Put` | ollama_run_sales_tools.py:107 | `d[k] = v`: `k` is then bound to `v` and every other key is unchanged. An existing key keeps its place; a new key is added at the end. |
| `Json.Truthy` | ollama_run_mcp.py:308 | Python truthiness: `None`, `False`, `0`, `""`, `[]` and `{}` are false, everything else true. |
| `Json.Repr` | ollama_run_mcp.py:181 | `repr` of `None`, booleans, integers, strings, lists and dicts, as CPython writes them (no escaping). |
| `Json.Str` | ollama_run_mcp.py:181 | `str(x)`, what an f-string inserts: a string as itself, anything else as its `repr`. |
| `Json.StrOfList` | ollama_run_mcp.py:181 | `str` of a list is the `repr` of each item, in order, joined by ", " between brackets; so a list passed for a string parameter arrives as that text. |
| `Json.ReprStrings` | ollama_run_mcp.py:193-197 | `str` of a list of strings is the `repr` of that list of string values. |
| `Py.MapAllItems` | ollama_run_mcp.py:179 | A list comprehension whose items may raise succeeds exactly when every item does. It then holds each item's value in order; otherwise it raises the error of the first item that fails. |
| `Py.MapAllFirstError` | ollama_run_mcp.py:179 | The first failing item decides the error, whatever comes after it. |
| `Py.CollectAll` | ollama_run_mcp.py:158-181 | The loop that collects values, stopping at the first exception, computes the comprehension's outcome. |
| `Py.AddUpOrRaise` | ollama_run_mcp.py:54-60 | A `+=` loop whose pieces may raise yields the concatenation when all succeed, else the first error. |
| `Py.GetFromDict` | ollama_run_mcp.py:315 | `d.get(k, default)` on a dict is the bound value when `k` is a key, else `default`. |
| `Py.StringItemsOfStrings` | ollama_run_mcp.py:59 | `', '.join(...)` of a list of strings finds exactly those strings. |
| `Py.Iterate` | ollama_run_mcp.py:179 | `for x in value`: a list gives its items, a string its characters, a dict its keys; anything else raises `TypeError`. |
| `Py.ToInt` | ollama_run_mcp.py:172 | `int(value)`: an integer as itself, a boolean as 0 or 1, text by `int()`'s rule, anything else raises. |
| `Sales.InTable` | ollama_run_mcp.py:213 | `name in tool_functions` raises exactly for unhashable names. Otherwise it holds exactly when the name is a table entry. |
| `Prompt.BuildToolsInfo` | ollama_run_mcp.py:54-60 | `tools_info` is the concatenation of every descriptor's block, in catalog order, exactly when every block renders. Otherwise it is the error of the first descriptor whose parameters cannot be joined. |
| `Prompt.ToolBlock` | ollama_run_mcp.py:56-60 | One descriptor's "Tool Name/Description/Parameters" block; it raises when its parameters cannot be joined. |
| `Prompt.ToolBlockOfNames` | ollama_run_sales_tools.py:33-38 | A descriptor with a list of parameter names renders as "Tool Name: …\nDescription: …\nParameters: a, b\n\n". |
| `Prompt.RenderNumberedHistory` | ollama_run_mcp_try.py:69-72 | `history_str` renders entry `i` as "Step i+1:\nUser: u\nAgent: a\n", in history order. |
| `Prompt.RenderPlainHistory` | ollama_run_agentx.py:42-44 | `history_str` renders every entry as "User: u\nAgent: a\n", in order, without step numbers. |
| `Prompt.NumberedHistorySnoc` | ollama_run_mcp.py:61-64 | Appending an entry adds exactly its step, numbered one past the old length, after the unchanged earlier steps. |
| `Prompt.PlainHistorySnoc` | ollama_run_agentx.py:42-44 | Appending an entry adds exactly its text after the unchanged earlier ones. |
| `Prompt.NumberedHistoryPrefix` | ollama_run_mcp.py:61-64 | Each prefix of the history renders to a prefix of the full rendering. |
| `Stream.GenerateResponseRaw` | ollama_run_mcp.py:115-124 | The output concatenates, line by line, the `response` field of each usable line or the verbatim text of a line that is not usable. Empty lines add nothing. |
| `Stream.GenerateResponseSkipping` | ollama_run_agentx_mcp.py:122-131 | The output concatenates the `response` fields of the usable lines. Unusable lines add nothing. |
| `Stream.GenerateResponseStrict` | ollama_run_sales_tools.py:64-70 | Without a `try`, the fold succeeds exactly when every line is usable, and then holds their concatenation. Otherwise it raises the error of the first unusable line. |
| `Stream.VariantsAgreeOnWellFormed` | ollama_run_agentx_mcp.py:122-131 | On a stream whose lines are all usable, the three folds give the same text. |
| `Stream.SkippingDropsUnusableLines` | ollama_run_agentx_mcp.py:126-130 | Skipping variant: a stream with no usable line gives "". |
| `Stream.RawKeepsUnusableLines` | ollama_run_mcp.py:119-123 | Verbatim variant: a stream with no usable line gives its lines unchanged. |
| `Stream.RawStreamSplits` | ollama_run_mcp.py:116-123 | The verbatim fold of two consecutive parts of a stream is the fold of the first followed by the fold of the second. |
| `Stream.SkippingStreamSplits` | ollama_run_agentx_mcp.py:123-130 | The same holds for the skipping fold. |
| `Stream.FragmentOfDict` | ollama_run_mcp.py:120-121 | A line decoding to a dict without `response` adds "". A decoded dict is usable exactly when its `response` is absent or a `str`. |
| `Stream.Fragment` | ollama_run_mcp.py:120-121 | What one non-empty line adds: the decoded `response` field, `""` when absent; a non-dict or a non-`str` field raises. |
| `Extract.BraceSpan` | ollama_run_mcp.py:305-307 | The regex matches exactly when some `{` precedes some `}`. The match runs from the first `{` to the last `}`. |
| `Extract.SpanIgnoresProse` | ollama_run_mcp.py:305 | Brace-free prose before and after a `{…}` text does not change the extracted span. |
| `Extract.NoSpanIsReply` | ollama_run_mcp.py:333-335 | Without a `{` before a `}`, the answer is a plain reply, whatever the decoder would say. |
| `Extract.CompletionWinsOverTool` | ollama_run_mcp.py:308-309 | A truthy `complete` is a completion even when `tool` is present. A missing `final_answer` is "Task complete.". |
| `Extract.ToolCallDefaults` | ollama_run_mcp.py:313-324 | A dict with `tool` and no truthy `complete` is a call. `parameters` defaults to `{}` and `next_step` to "What should I do next?". |
| `Extract.OtherObjectIsReply` | ollama_run_mcp.py:327-329 | A dict with neither a truthy `complete` nor `tool` is a plain reply. |
| `Extract.NonObjectIsMalformed` | ollama_run_mcp.py:307-308 | A decoded non-dict has no `get`, so handling the answer raises. |
| `Extract.Interpret` | ollama_run_mcp.py:308-332 | The `if`/`elif`/`else` on a decoded answer: completion, call with defaults, or reply, or the exception a branch raises. |
| `Extract.Classify` | ollama_run_mcp.py:303-343 | The reading of one answer: no span is a reply, and a decoding or handling error becomes `Malformed` with `str(e)`. |
| `AgentLoop.Step` | ollama_run_mcp.py:306-343 | Every branch appends exactly one entry, for the current message, and keeps the earlier entries. Only a completion ends the loop. The entry text and next message of each branch are stated by `PlainAnswerRound`, `OtherDictRound`, `ToolCallRound`, `CompletionRound` and `MalformedRound`. |
| `AgentLoop.RunStopsWhenDone` | ollama_run_mcp.py:311-312 | For any round function, once a round has set `done` (the `break`), later turns change nothing. The loop of `ollama_run_agentx_mcp.py` uses it too. |
| `AgentLoop.RunExtendsHistory` | ollama_run_mcp.py:311-341 | Playing turns only appends to the history, at most one entry per turn. |
| `AgentLoop.Converse` | ollama_run_mcp.py:292-346 | The loop's final state is the step function played over the turns. Each round appended one entry. The loop ends exactly at the first completing answer, or plays every turn when no answer completes. |
| `AgentLoop.PlainAnswerRound` | ollama_run_mcp.py:333-338 | An answer with no span is recorded verbatim, and the user's reply becomes the current message. |
| `AgentLoop.ToolCallRound` | ollama_run_mcp.py:313-326 | A tool call records "Tool used: name\nResult: r". The next message is `next_step` followed by "\nUser: " and the reply. |
| `AgentLoop.CompletionRound` | ollama_run_mcp.py:308-312 | A completion appends the final answer (default "Task complete.") as the last entry and ends the loop. |
| `AgentLoop.MalformedRound` | ollama_run_mcp.py:339-343 | An answer whose span does not decode, or whose handling raises, is recorded followed by "\n[red]Error parsing tool call: e[/red]"; the reply becomes the current message and the loop goes on. |
| `AgentLoop.OtherDictRound` | ollama_run_mcp.py:327-332 | A decoded dict with neither a truthy `complete` nor `tool` is recorded verbatim; the reply becomes the current message and the loop goes on. |
| `McpClient.AttachSession` | ollama_run_mcp.py:250-251 | Every discovered tool, and nothing else about it, gets the session. Their order is kept. |
| `McpClient.ResolveParamNames` | ollama_run_mcp_try.py:166-175 | A list `parameters` attribute wins, then a list `param_names` attribute. Otherwise, with a dump, a truthy dumped `parameters` wins, else the dumped `param_names`, else `[]`; without a dump, `[]`. |
| `McpClient.NoSourceNoNames` | ollama_run_mcp_try.py:167-175 | A tool with none of the three sources has no parameter names. |
| `McpClient.EmptyDumpParametersFallThrough` | ollama_run_mcp_try.py:172-175 | An empty or missing dumped `parameters` falls through to the dumped `param_names`. |
| `McpClient.FindTool` | ollama_run_mcp.py:140 | `next(...)` is the first tool of that name, and is absent exactly when no tool has the name. |
| `McpClient.ExtendCatalog` | ollama_run_agentx_mcp.py:169-184 | The MCP descriptors follow the unchanged sales descriptors, one per tool, in discovery order. |
| `McpClient.McpDescriptor` | ollama_run_agentx_mcp.py:180-184 | The catalog entry of an MCP tool: its name, its description and its resolved parameter names. |
| `McpClient.SourcelessToolBlock` | ollama_run_agentx_mcp.py:64-70 | An MCP tool without parameter sources renders with an empty parameter list. |
| `McpClient.SourcelessCatalogRenders` | ollama_run_agentx_mcp.py:169-184 | Extending a renderable catalog with tools that have neither attribute, and whose dump (if any) has neither `parameters` nor `param_names`, keeps every block renderable. |
| `McpAgent.CoerceAllSucceeds` | ollama_run_mcp.py:158-181 | Coercion succeeds exactly when every schema property converts. |
| `McpAgent.ArgFor` | ollama_run_mcp.py:163-181 | One schema property: absent raises "Missing required parameter", else its value converted by its `type` (default `'string'`). |
| `McpAgent.ConvertValue` | ollama_run_mcp.py:170-181 | The conversion by declared type: `int`, the raw number, the `array` reading, or `str(value)`. |
| `McpAgent.CoercedArguments` | ollama_run_mcp.py:158-181 | Successful arguments name each property and hold its converted value, in schema order. |
| `McpAgent.CoercionError` | ollama_run_mcp.py:158-181 | A failed coercion carries the error of the first property that does not convert, after every earlier one converted. |
| `McpAgent.CoerceArguments` | ollama_run_mcp.py:154-181 | The imperative loop that fills `arguments` computes the coercion's outcome. |
| `McpAgent.ArgumentsFollowSchema` | ollama_run_mcp.py:154-181 | The argument keys are exactly the schema's property names, in schema order, so extra parameters are dropped. A schema without `properties` gives no arguments. |
| `McpAgent.UntypedParameterIsString` | ollama_run_mcp.py:165-181 | A present parameter without a `type` is passed as `str(value)`. |
| `McpAgent.PresentParameterConverted` | ollama_run_mcp.py:165-181 | A present parameter is converted by its declared `type` (default `'string'`). Any type other than integer, number and array gives `str(value)`. |
| `McpAgent.AbsentParameterReported` | ollama_run_mcp.py:163-164 | An absent parameter raises "Missing required parameter: name". |
| `McpAgent.IntegerCoercion` | ollama_run_mcp.py:171-172 | An `integer` parameter gives `n` back from `str(n)` and from `n`. |
| `McpAgent.EmptyListTextFails` | ollama_run_mcp.py:175-179 | `"[]"` raises the error of `int('')`. |
| `McpAgent.IntListTextRoundTrip` | ollama_run_mcp.py:175-179 | `str` of a non-empty list of integers, e.g. `"[1, 2, 3]"`, is read back as that list. |
| `McpAgent.IntStringListCoercion` | ollama_run_mcp.py:175-179 | A list of the numbers' texts, e.g. `["1", "2", "3"]`, is read as those numbers. |
| `McpAgent.NonStringItemFails` | ollama_run_mcp.py:175-179 | A list whose first item is not a string fails on `.strip()`. |
| `McpAgent.LocalToolsFirst` | ollama_run_mcp.py:213-219 | A local name goes to the sales tools whatever the MCP server offers. `filter_by_region` and `total_sales_by_region` get file and region; the others get the file. The defaults are `'sales_data.csv'` and `'North'`. |
| `McpAgent.UnknownToolReported` | ollama_run_mcp.py:140-143 | A name neither local nor listed comes back as "Error executing tool: Unknown tool: name" and is not raised. |
| `McpAgent.NoSessionReported` | ollama_run_mcp.py:149-151 | A listed tool without a session comes back as "Error executing tool: No session found for tool: name". |
| `McpAgent.ExecuteToolInMcp` | ollama_run_mcp.py:127-208 | `execute_tool_in_mcp`: unknown name and missing session raise, coercion may raise, a failing `call_tool` becomes an error text. |
| `McpAgent.Dispatch` | ollama_run_mcp.py:212-222 | The `try` body of `try_execute_tool`: a local name runs the sales tool, any other goes to `execute_tool_in_mcp`. |
| `McpAgent.TryExecuteTool` | ollama_run_mcp.py:211-225 | Any exception of the dispatch comes back as "Error executing tool: e". |
| `McpAgent.FirstPropertyMissing` | ollama_run_mcp.py:158-164 | A missing first property decides the coercion's error. |
| `McpAgent.MissingParameterReported` | ollama_run_mcp.py:163-164 | A remote call whose first schema parameter is missing comes back as "Error executing tool: Missing required parameter: name". |
| `McpAgent.RemoteOutcomeShown` | ollama_run_mcp.py:186-208 | A failing `call_tool` is reported as "Error executing tool: …". A list of content items is shown as the list of their texts. |
| `McpAgent.ParamsString` | ollama_run_mcp.py:264-271 | The imperative `params_str` computation agrees with `ParamsText`, whose three cases `PropertiesLine`, `NoPropertiesLine` and `BadPropertyInfoSpoilsLine` state. |
| `McpAgent.ParamsText` | ollama_run_mcp.py:264-271 | `params_str`: the property details joined by ", ", "no parameters" without `properties`, or the exception of the first bad property info. |
| `McpAgent.ToolLine` | ollama_run_mcp.py:259-278 | The `i`-th tool's line, or "i. Error processing tool" when its schema raises. |
| `McpAgent.PropertiesLine` | ollama_run_mcp.py:264-273 | A schema whose `properties` is a dict of dicts is listed as "i. name(a: type, b: type) - description", in property order, with "unknown" for a missing `type`. |
| `McpAgent.DescribeTools` | ollama_run_mcp.py:255-280 | The tool listing has one line per tool, numbered from 1, joined by newlines. A tool whose schema raises gets "i. Error processing tool". |
| `McpAgent.BadPropertyInfoSpoilsLine` | ollama_run_mcp.py:266-278 | In any schema dict, a property whose info is not a dict, wherever it stands, turns its tool's line into the error line. |
| `McpAgent.NoPropertiesLine` | ollama_run_mcp.py:270-273 | A schema without `properties` is listed as "i. name(no parameters) - description". |
| `McpAgent.Converse` | ollama_run_mcp.py:292-346 | With this script's dispatcher: the final state is the step function played over the turns, each round appends one entry, and the loop ends exactly at the first completing answer or plays every turn. |
| `ProxyDispatch.LocalCall` | ollama_run_mcp_try.py:136-141 | A local tool gets the file (default `'sales_data.csv'`), and only `filter_by_region` also gets the region (default `'North'`). |
| `ProxyDispatch.TotalSalesByRegionGetsFileOnly` | ollama_run_mcp_try.py:138-141 | Unlike in `ollama_run_mcp.py`, `total_sales_by_region` is called with the file alone. |
| `ProxyDispatch.UnknownToolNotFound` | ollama_run_mcp_try.py:144-152 | A hashable name neither local nor listed returns "Tool 'name' not found.", whatever the parameters. |
| `ProxyDispatch.PositionalOrder` | ollama_run_mcp_try.py:149 | The arguments are the values of `tool.parameters`' names in that order, `0` for a missing one, as many as there are names. |
| `ProxyDispatch.RemoteCall` | ollama_run_mcp_try.py:144-151 | A listed tool is invoked once on exactly those positional arguments, and its outcome is caught. |
| `ProxyDispatch.MissingParametersAttribute` | ollama_run_mcp_try.py:149-154 | A listed tool without a `parameters` attribute is never invoked; an `AttributeError` text comes back instead. |
| `ProxyDispatch.PositionalArgs` | ollama_run_mcp_try.py:149 | `[params.get(p, 0) for p in tool.parameters]`, or the exception this raises. |
| `ProxyDispatch.Dispatch` | ollama_run_mcp_try.py:135-152 | Local tools first, then a listed MCP tool with positional arguments, then "Tool 'name' not found.". |
| `ProxyDispatch.TryExecuteTool` | ollama_run_mcp_try.py:134-154 | Any exception of the dispatch comes back as "Error executing tool: e". |
| `McpTryAgent.ListTools` | ollama_run_mcp_try.py:183-194 | `math_tools_desc` holds one "Name: …\nDescription: …\n" entry per tool, in discovery order, joined by newlines. |
| `McpTryAgent.ListingSnoc` | ollama_run_mcp_try.py:193-194 | One more tool adds a newline and its entry to the listing. |
| `McpTryAgent.Converse` | ollama_run_mcp_try.py:203-256 | With the positional dispatcher over the six local tools: the final state is the step function played over the turns, each round appends one entry, and the loop ends exactly at the first completing answer or plays every turn. |
| `McpTryAgent.UnknownToolRound` | ollama_run_mcp_try.py:224-232 | A call of an unknown tool records "Tool 'name' not found." as its result, and the round does not end the loop. |
| `AgentxMcpAgent.Step` | ollama_run_agentx_mcp.py:214-232 | A completion keeps the history and ends the loop. Every other round appends exactly one entry, for the current message. The entry text and next message are stated by `ToolRound`, `AnswerRound` and `FinishRound`. |
| `AgentxMcpAgent.Converse` | ollama_run_agentx_mcp.py:203-234 | The final state is the step function played over the turns. The history is one shorter than the number of rounds exactly when the loop ended. The loop ends at the first finishing answer. |
| `AgentxMcpAgent.UndecodableIsAnswer` | ollama_run_agentx_mcp.py:214-232 | An answer that does not decode as a whole, prose around JSON included, is a plain reply. |
| `AgentxMcpAgent.MissingFinalAnswerIsAnswer` | ollama_run_agentx_mcp.py:216-232 | A completion without `final_answer` raises `KeyError` and is handled as a plain reply. |
| `AgentxMcpAgent.CompletionFinishes` | ollama_run_agentx_mcp.py:216-218 | A truthy `complete` with a `str` final answer finishes, even alongside `tool`. |
| `AgentxMcpAgent.ToolCallRead` | ollama_run_agentx_mcp.py:219-224 | A tool call takes `{}` as parameters and `""` as next step when the answer gives none. |
| `AgentxMcpAgent.OtherDictIsAnswer` | ollama_run_agentx_mcp.py:225-228 | A dict with neither a truthy `complete` nor `tool` is a plain reply. |
| `AgentxMcpAgent.ToolRound` | ollama_run_agentx_mcp.py:219-224 | A tool round appends "Tool name result: r", and the next message is `next_step`; the user is not asked. |
| `AgentxMcpAgent.AnswerRound` | ollama_run_agentx_mcp.py:225-232 | A plain answer is recorded as the raw response, and the user's reply becomes the current message. |
| `AgentxMcpAgent.FinishRound` | ollama_run_agentx_mcp.py:216-218 | A finishing answer leaves history and current message unchanged and ends the loop. |
| `AgentxMcpAgent.Decide` | ollama_run_agentx_mcp.py:216-228 | The branches on a decoded answer: finish, tool call with defaults `{}` and `""`, or answer, or the exception raised. |
| `AgentxMcpAgent.Read` | ollama_run_agentx_mcp.py:214-232 | `json.loads` of the whole answer and the branches; every exception makes it a plain answer. |
| `AgentxAgent.UnknownToolNotFound` | ollama_run_agentx.py:104-105 | A hashable name outside the table returns "Tool 'name' not found." before any tool runs. |
| `AgentxAgent.LocalCall` | ollama_run_agentx.py:106-110 | `filter_by_region` gets file and region, the other tools the file, with the defaults. |
| `AgentxAgent.SameAsProxyWithoutMcpTools` | ollama_run_agentx.py:102-112 | This dispatcher equals the positional proxy dispatcher over the same table with no MCP tools. |
| `AgentxAgent.Dispatch` | ollama_run_agentx.py:104-110 | An unknown name is "not found" before any call; `filter_by_region` gets file and region, the others the file. |
| `AgentxAgent.TryExecuteTool` | ollama_run_agentx.py:102-112 | Any exception of the dispatch comes back as "Error executing tool: e". |
| `AgentxAgent.Converse` | ollama_run_agentx.py:120-178 | With this script's dispatcher: the final state is the step function played over the turns, each round appends one entry, and the loop ends exactly at the first completing answer or plays every turn. |
| `SalesToolsAgent.MergeParams` | ollama_run_sales_tools.py:106-107 | Updating the copy binding by binding computes the merge over the defaults. |
| `SalesToolsAgent.MergedLookup` | ollama_run_sales_tools.py:104-107 | The model's values override the defaults, and keys the model does not give keep their defaults. |
| `SalesToolsAgent.MergedKeepsDefaultKeys` | ollama_run_sales_tools.py:106-107 | The merged keys begin with the default keys, in order. |
| `SalesToolsAgent.FindDescriptor` | ollama_run_sales_tools.py:109 | The first descriptor of that name, absent exactly when none has it. |
| `SalesToolsAgent.NoSpanExits` | ollama_run_sales_tools.py:89-98 | An answer without a span fails with "No JSON object found in LLM response.", and no tool runs. |
| `SalesToolsAgent.MissingKeyExits` | ollama_run_sales_tools.py:93-98 | A decoded dict without `tool` or `parameters` is a parse failure. |
| `SalesToolsAgent.UnknownToolExits` | ollama_run_sales_tools.py:101-103 | An unknown, hashable tool name exits "not found", and no tool is ever consulted. |
| `SalesToolsAgent.PositionalArgsFollowOrder` | ollama_run_sales_tools.py:109-111 | The arguments are the merged values of the described names, in the described order, as many as the names. |
| `SalesToolsAgent.MissingParameterRaises` | ollama_run_sales_tools.py:111 | The first described name bound by neither the defaults nor the model raises `KeyError`. |
| `SalesToolsAgent.KnownToolRuns` | ollama_run_sales_tools.py:104-112 | A known tool runs once, on the merged values of its described parameters in order. Undescribed parameters never reach it. |
| `SalesToolsAgent.ParameterRows` | ollama_run_sales_tools.py:118-119 | The table loop computes one row per name in `param_order`, in order. |
| `SalesToolsAgent.RowsShowArguments` | ollama_run_sales_tools.py:111-119 | Once the arguments were built, the table lists each described name with its argument, in order. |
| `SalesToolsAgent.ParseSelection` | ollama_run_sales_tools.py:87-98 | The span, `json.loads`, then `tool_json["tool"]` and `tool_json["parameters"]`, or the first exception. |
| `SalesToolsAgent.Update` | ollama_run_sales_tools.py:106-107 | `exec_params.update(params)` on the copy of the defaults, or the exception `update` raises. |
| `SalesToolsAgent.Invoked` | ollama_run_sales_tools.py:104-112 | For a known tool: the defaults updated with the model's parameters, its description found, the arguments ordered by it and the tool run; each exception on the way is a crash. |
| `SalesToolsAgent.Request` | ollama_run_sales_tools.py:86-112 | One whole selection: a parse failure exits with its message, an unknown name exits "not found", an unhashable one crashes, and a known one goes to `Invoked`. |
| `Calculator.SubtractUndoesAdd` | mcp_server.py:25-39 | `subtract(add(a, b), b) == a`. |
| `Calculator.Add` | mcp_server.py:26-28 | `add(a, b)`: `int(a + b)` on unbounded integers. |
| `Calculator.Subtract` | mcp_server.py:37-39 | `subtract(a, b)`: `int(a - b)`. |
| `Calculator.Multiply` | mcp_server.py:43-45 | `multiply(a, b)`: `int(a * b)`. |
| `Calculator.AddList` | mcp_server.py:31-33 | `add_list(l)`: `sum(l)`, from 0. |
| `Calculator.AddListAppend` | mcp_server.py:30-33 | The sum of two consecutive parts of a list is the `add` of their sums. |
| `Calculator.AddListOfFew` | mcp_server.py:25-33 | `add_list([]) == 0`, `add_list([a]) == a` and `add_list([a, b]) == add(a, b)`. |
| `Calculator.CalculatorCatalog` | mcp_calculator_server.py:14-36 | The calculator server registers four tools, all of which `mcp_server.py` also offers, and no `add_list`. |

## Left out

- **HTTP to the model backend** (`requests.post`, `raise_for_status`, UTF-8 decoding). This is I/O; the folds take the decoded lines as given.
- **MCP transport and session lifecycle** (`stdio_client`, `initialize`, `list_tools`, async/await). This is foreign library code. A session is an opaque identifier.
  - The session of `get_mcp_tools` is already closed when the tools are used. This is not modelled.
- **`call_tool` and `await tool(*args)`.** These are oracles that return a result or raise.
- **Console and UI**: `rich` panels, `console.print`, `Prompt.ask` and `input()`, plus the debug `print` calls. Their output is not modelled; user replies are the `reply` of each `Turn`. Of their failures, the model keeps only that a non-string answer handed to a panel raises (`Extract.NotRenderable`).
- `AgentLoop.Step`, `AgentLoop.Converse`, `AgentxMcpAgent.Step` and `AgentxMcpAgent.Converse`: `rich` markup errors are not modelled. The model has each round succeed as if no text held markup.
  - `rich` parses markup in every text given to `Panel(...)` and `Prompt.ask(...)`. A stray closing tag such as `[/docs]` raises `MarkupError`.
  - A tag the model writes literally anywhere in its answer ends the script before any round is recorded. The raw answer is shown in a panel outside the `try`, before it is parsed: `ollama_run_mcp.py` line 300, `ollama_run_mcp_try.py` line 211, `ollama_run_agentx.py` line 134 and `ollama_run_agentx_mcp.py` line 211.
  - A tag reaches a later panel only through a JSON escape in the answer (such as `\u005b/docs]`) or through a tool result.
  - In the span-extracting loops, a tag in the tool result or in the parameters raises at the "Tool Execution" panel. That panel comes before the history append, so the round records only the parse-error entry, although the tool has already run.
  - A tag in `next_step` raises at `Prompt.ask`, after the append. The round then records two entries: the tool entry, then the parse-error entry.
  - A tag in `final_answer` raises before the append and turns the completion round into a parse-error round.
  - The parse-error text repeats the tag. The next `Panel(system_prompt)`, which is outside the `try`, then crashes the script.
- **`loop_num` and the "Press Enter" pause.** They are display only.
- **File loading at import time** (`sales_tools_description.json`, `user_profile.txt`, `ikea_return_policy.txt`). It is I/O. The catalog is a given sequence of descriptors, and each descriptor always has its three keys.
- **The fixed prompt template text.** Its modelled parts are the tool blocks, the history rendering and the MCP listing, which are built by loops. The surrounding text is constant.
- **Floating point.** The `Json` datatype has no float values: a JSON number with a fraction or an exponent cannot be represented. An argument of type `number` keeps its raw value (`FloatArg`): `float()` is not modelled. `divide` is left out of both servers for the same reason. What is lost with floats:
  - `Py.ToInt`: `int(2.5) == 2` for an `integer` parameter is not modelled.
  - `Json.Truthy`: `0.0` being falsy, for instance as `"complete": 0.0`, is not modelled.
  - `McpAgent.ConvertValue`: a float list item fails on `.strip()` in the source. `McpAgent.NonStringItemFails` states that failure for every non-string item, but a float item cannot be written in the model.
  - `Json.Repr`: the `repr` of a float inside `str(value)` is not modelled.
- **`sales_tools.py`**: pandas analytics, modelled as the abstract `SalesTool`. It also defines no `total_sales_by_region`, although several scripts import it. The model treats the name as an ordinary table entry.
- **`test_sales_tools.py`** and the grounding, user-memory and pretrained scripts. They hold fixed prompts and an HTTP call, and no core logic.
- **Python details.** `repr` escaping of quotes and control characters is not modelled. `int()` accepts only ASCII signed decimals: no underscores, no Unicode digits or spaces. A dict with repeated keys keeps every binding, and lookup takes the last.
- **Repeated keys.** `Py.Iterate`, `McpAgent.CoerceAll`, `McpAgent.ParamDetails` and `Json.ReprFields` visit a repeated key once per binding, each time with that binding's value. Python's `.items()`, `for k in d` and `repr` visit such a key once, at its first position, with its last value. The model matches the scripts only on dicts without repeated keys, which are the only dicts `json.loads` and the MCP client produce; a `UniqueKeys` invariant on decoded values is not stated.
- **Exception messages.** They follow CPython 3's wording where the scripts show them, and are otherwise approximate.
- `SalesToolsAgent.Update`: `dict.update` with a non-empty list of pairs is modelled as raising. The model also does not capture that the registry's default dict is a separate object from its copy: Dafny values cannot alias, so "the defaults are not mutated" holds by construction.
- `SalesToolsAgent.Request`: a crash carries only its exception, not the traceback.
- `McpClient.AttachSession`: the tool objects are updated in place by the source. They are modelled as values, and the attached copies are returned, so aliasing of the tool objects is not captured.
- `AgentxMcpAgent.Converse`: `current_message = resp_json.get("next_step", "")` may hold any JSON value. It is modelled by its `str`, which is how the next prompt and history show it.
- `McpTryAgent.ListTools`: the descriptors built at `ollama_run_mcp_try.py` 163-180 are overwritten at line 194 before any use, so only the listing is modelled.
- **Loop bodies.** `Strings.AddUp`, `Py.AddUpOrRaise` and `Py.CollectAll` are the `+=`/`append` loops of the scripts, written once generically. Each script's loop uses them with that script's piece function.
