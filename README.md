# simple-mcp-client core, modelled in Dafny

This project models the core of `client.py`, a chat client that connects a
language-model gateway to an MCP (Model Context Protocol) service. It has
two parts:

- **Schema translation.** `to_snake_case`, `convert_tool_to_gemini_tool` and
  `create_resource_fetcher_tools` turn the service's tool and resource
  listings into the function-call schemas offered to the model. Each
  resource becomes an argument-less pseudo-tool named after it.
- **The `MyClient` session.** It holds the tool catalogue, the conversation
  log and the map from pseudo-tool names to resource uris.
  - `_load_tools` builds the catalogue and the map.
  - `process_query` drives one query:
    1. It logs the stripped query and asks the gateway.
    2. It acts on the first requested tool call only. A resource pseudo-tool
       is served by reading the resource; any other name goes to `call_tool`.
    3. It feeds resource text, and tool text that starts with `{`, back in
       as a new query.
    4. Otherwise it logs and returns the final text.

Files, in dependency order:

- `wrappers.dfy`: `Option` and `Result`.
- `strings.dfy`: the Python `str` operations the client uses: `isspace`,
  `lower`, `strip`, `split()` and `join`.
- `json.dfy`: JSON values. Dicts are association lists kept in insertion
  order, as Python dicts are, with `get`, `pop` and item assignment.
- `schema.dfy`: the three schema functions.
  - `convert_tool_to_gemini_tool` is a function, `Convert`, and a method,
    `ConvertTool`, that runs its property loop step by step.
  - `AfterConvert` is what the caller's tool reads afterwards.
    `.copy()` is shallow, so the caller's properties object is the same
    object as the returned one and loses its titles in place.
- `service.dfy`: the external collaborators as fixed answers.
  - The MCP service is a `Server` value.
  - `json.loads` is a `Decoder` map.
  - The gateway is a script: a finite sequence of replies.
- `resolution.dfy`: `process_query` as a function of the log, the tool
  catalogue, the resource map and those answers.
  - `Step` is one level, up to its tail call. `Dispatch` is the tool-call
    branch.
  - `Resolve` chains the levels.
  - It also holds the lemmas about the log, the external calls and the
    dispatch order.
- `registry.dfy`: what `_load_tools` builds. `GoodPrefix` counts the tools
  that translate before the first one that raises. `Translated` holds their
  schemas, and `ResourceMap` is the dict comprehension.
- `client.dfy`: `class MyClient`, with the fields `tools`, `messages` and
  `resources` and methods proved against the functions above. It also holds
  the exit test of `run`.
- `scenarios.dfy`: three conversations worked end to end.

The process itself has no bound on its recursion. In the model, every level
of `process_query` uses one gateway reply, so the remaining script is the
termination measure. When the script is exhausted, the gateway raises, and
the model reports `GatewayFailed`.

The model follows the code, including where a reader might expect otherwise:
- The code has no recursion-depth limit. JSON-shaped tool text recurses
  without bound.
- The code does not reject resource names that collide after snake-casing,
  or that equal a real tool's name. In the map the later resource
  overwrites the earlier one. At dispatch, a resource name wins over a tool
  with the same name.
- The code does not skip tools whose schema is malformed. Translation
  raises, and `_load_tools` raises with it.
- Resource pseudo-tools carry exactly `{"required": [], "type": "object"}`,
  with no `"properties"` key.

## Model

| member | source | states |
|---|---|---|
| Schema.SnakeCase | client.py:43-45 | `to_snake_case`: `"_".join(name.lower().split())`, on the `str` model of `strings.dfy`; its properties are the rows below |
| Schema.SnakeCaseShape | client.py:43-45 | the result has no whitespace and no upper-case ASCII letter |
| Schema.SnakeCaseIdempotent | client.py:43-45 | applying `to_snake_case` twice is the same as applying it once |
| Schema.SnakeCaseEmptyIff | client.py:43-45 | the result is empty exactly when the input is all whitespace |
| Schema.SnakeCaseOfWord | client.py:43-45 | a single word without whitespace is only lower-cased |
| Schema.SnakeCaseTwoWords | client.py:43-45 | two words separated by any run of whitespace become the lower-cased words joined by one `_` |
| Strings.SplitConcat | client.py:45 | the words of `split()` spell out exactly the non-whitespace characters of the input, in order |
| Strings.ConcatIsJoin | client.py:45 | gluing the words with nothing between them is `"".join`, so `SplitConcat` speaks of `"".join(s.split())` |
| Strings.SplitWordsVisible | client.py:45 | every word of `split()` is non-empty and contains no whitespace |
| Strings.StripEmptyIff | client.py:126-127 | `strip()` gives the empty string exactly when the input is all whitespace |
| Schema.Convert | client.py:48-66 | `convert_tool_to_gemini_tool` as a value: the KeyError of a missing "properties", the raise when "properties" or one of its entries is not an object, and otherwise the function schema with titles stripped; its properties are the rows below |
| Schema.AfterConvert | client.py:51-57 | the caller's tool after the call: its "properties" object is the one the loop strips in place, because `.copy()` is shallow |
| Schema.ConvertTool | client.py:48-66 | the step-by-step property loop returns `Convert(tool)`, and leaves the caller's tool as `AfterConvert(tool)`, whether it returns or raises |
| Schema.StripTitlesFacts | client.py:54-56 | the property loop succeeds iff every property schema is an object; it then keeps every property under its name and place, minus its "title"; a failure names the first property that is not an object |
| Schema.ConvertSucceedsIff | client.py:51-57 | translation succeeds iff the schema has an object under "properties" whose entries are all objects; a missing "properties" key is the KeyError case |
| Schema.ConvertRoot | client.py:51-66 | name and description are copied; the parameters have no root "title"; every other root key keeps its value and order; "properties" moves to the end, because it is popped and assigned again |
| Schema.ConvertProperties | client.py:54-57 | every property keeps its name and place; its schema loses "title" and keeps every other key and value |
| Schema.ConvertIdempotent | client.py:48-66 | translating an already translated schema changes nothing |
| Schema.ConvertAliasing | client.py:51-57 | after a successful call, the caller's schema keeps every root key, its "title" included, and its "properties" object is the returned one, titles removed |
| Schema.Render | client.py:59-66 | the returned envelope `{"type": "function", "function": {...}}`, read back by `RenderRoundTrip` |
| Schema.RenderRoundTrip | client.py:59-66 | the envelope is `{"type": "function", "function": {name, description, parameters}}`, and the schema reads back from it unchanged |
| Schema.ResourceTools | client.py:69-85 | `create_resource_fetcher_tools`: one pseudo-tool per resource; `ResourceToolsShape` states what each one is |
| Schema.ResourceToolsShape | client.py:69-85 | one pseudo-tool per resource, in order; each is named by the snake-cased resource name, carries the resource's description, and has parameters exactly `{"required": [], "type": "object"}` with no "properties" |
| Registry.GoodPrefix | client.py:110-111 | the number of tools that translate before the first one whose translation raises |
| Registry.Translated | client.py:110-111 | the translated schemas of the tools before the first failing one, in listing order, as `LoadTools` appends them |
| Registry.TranslatedShape | client.py:110-111 | the catalogue has one schema per listed tool, in order, under the tool's own name and description, with no root "title" |
| Registry.ResourceMap | client.py:115-117 | the dict comprehension from snake-cased resource name to uri; its keys and values are the rows below |
| Registry.ResourceMapKeys | client.py:115-117 | the map's keys are exactly the snake-cased resource names, each mapped to the uri of a resource listed under that name |
| Registry.ResourceMapLastWins | client.py:115-117 | a resource that no later resource shares its snake-cased name with is the one its name maps to |
| Registry.ResourceMapSingle | client.py:115-117 | one resource maps its snake-cased name to its uri |
| Registry.PseudoToolsMapped | client.py:115-118 | every pseudo-tool name is a key of the map, and every key names a pseudo-tool |
| Registry.MapOfKeys | client.py:115-117 | a dict built from pairs in order has exactly their keys, each holding the value of one of the pairs |
| Registry.MapOfLastWins | client.py:115-117 | in a dict built from pairs in order, the last pair with a key decides its value |
| Client.MyClient.constructor | client.py:89-98 | the new client has no tools, a log holding only the system prompt, and no resources |
| Client.MyClient.FetchResource | client.py:100-104 | a mapped name gives the first text item of its resource, and a failed read raises; an unmapped name raises, because `read_resource(None)` fails |
| Client.MyClient.LoadTools | client.py:106-120 | the catalogue is reset, then holds the translated tools in listing order followed by the pseudo-tools, and the map is rebuilt; a failing `list_tools` leaves it empty; a malformed tool raises with the tools before it in place; a failing `list_resources` leaves the old map |
| Client.MyClient.ProcessQuery | client.py:122-178 | the answer or fault, the log afterwards, the replies left and the external calls made are those of `Resolve`; the log keeps the system prompt first; the gateway calls, in order, are one per user message logged, each offered `self.tools` (the catalogue `LoadTools` built) and the log as it stood right after that user message |
| Client.MyClient.ProcessToolCall | client.py:141-169 | the tool-call branch ends as `Dispatch` says, directly or through the tail call it names |
| Resolution.Dispatch | client.py:141-169 | the tool-call branch: echo the first call, read a mapped resource or `call_tool` an unmapped name after `json.loads`; resource text and `{`-text end in a tail call on the same remaining replies |
| Resolution.Step | client.py:122-169 | one level of `process_query`: a blank query is refused; otherwise the stripped query is logged and the gateway is asked with the catalogue and the log; a tail call uses exactly the first reply |
| Resolution.Resolve | client.py:122-178 | `process_query`: the levels of `Step` chained through their tail calls, one gateway reply each; its properties are the rows below |
| Resolution.ResolveDispatch | client.py:130-169 | a query whose reply requests a tool runs as the gateway call followed by the dispatch of the first call |
| Resolution.ResolveBlank | client.py:126-130 | a blank query returns "Query cannot be empty." with the log unchanged and no gateway call; any other query is logged first, stripped, as a user message |
| Resolution.ResolveAppendOnly | client.py:92-97 | the log is only appended to, and never with a system message, so the system prompt stays first |
| Resolution.ResolveEchoesCall | client.py:148-153 | a tool call is echoed as "Calling tool: {name} with arguments: {args}" right after the user message |
| Resolution.StepRecordsAnswer | client.py:126-128 | a level that answers either refused a blank query or closed the log with the answer as an assistant message |
| Resolution.ResolveRecordsAnswer | client.py:171-178 | every answer is either the blank-query reply or the assistant message that closes the log |
| Resolution.ResolveConsumes | client.py:132-137 | the gateway replies are used from the front: what is left is a suffix of the script |
| Resolution.ResolveResourceFirst | client.py:155-163 | no `call_tool` names a resource pseudo-tool, and every read is of a uri the map holds |
| Resolution.StepShape | client.py:126-169 | a level makes no external call for a blank query; otherwise one gateway call on the log so far, then at most one read of a mapped uri or one `call_tool` of an unmapped name |
| Resolution.StepUserOnce | client.py:148-176 | after its user message a level logs no other user message, only the tool-call echo and the assistant's answer |
| Resolution.LevelGatewaySees | client.py:130-137 | a level that logs one user message and calls the gateway once on the log ending there satisfies `GatewaySaw` |
| Resolution.StepGatewaySees | client.py:130-137 | one level asks the gateway, with the catalogue, about the log it has built, ending with its user message |
| Resolution.GatewaySawAppend | client.py:157 | the calls of a level followed by those of its tail call keep `GatewaySaw`: each saw a prefix of the final log, later calls saw longer logs, and every user message logged is covered by a call |
| Resolution.ResolveGatewaySees | client.py:130-137 | the gateway calls, in order, are one per user message logged during the run: each is offered the client's tool catalogue and the final log up to and including that user message, and later calls see strictly longer logs |
| Resolution.StepCut | client.py:141-142 | one level acts on the first tool call of the first reply only |
| Resolution.DispatchCut | client.py:141-169 | the dispatch of a call does not depend on the later calls of the reply |
| Resolution.ResolveFirstCallOnly | client.py:141-142 | dropping all but the first tool call of every reply changes neither the answer, nor the log, nor any external call |
| Client.IsExit | client.py:184 | the exit test `query.lower() == "exit"`; `IsExitIff` states which inputs pass it |
| Client.IsExitIff | client.py:184 | the loop stops on "exit" in any mix of upper and lower case, and on nothing else |
| Scenarios.WeatherScenario | client.py:159-178 | a tool whose JSON-shaped text goes back in as a query, then a plain model answer: the answer, the log and the calls in order |
| Scenarios.WeatherFirstLevel | client.py:159-167 | the first level calls the tool and hands its JSON-shaped text back as a query |
| Scenarios.WeatherSecondLevel | client.py:171-178 | the second level logs and returns the model's plain answer |
| Scenarios.LocationPseudoTool | client.py:69-85 | "Current Location" becomes the pseudo-tool `current_location` and maps to its uri |
| Scenarios.CurrentLocationName | client.py:43-45 | "Current Location" becomes "current_location" |
| Scenarios.LocationScenario | client.py:155-157 | calling `current_location` reads the resource, not a tool, and asks again with its text |
| Scenarios.BlankScenario | client.py:126-128 | blank and empty queries are refused at once |

## Left out

- Logging, colour formatting and the `print` of the tool call: output only.
- The Typer command line, `main`, `asyncio.run` and the `input()` loop of
  `run`: process plumbing and console I/O. The exit test is modelled as
  `IsExit`.
- The gateway's routing over `MODELS` and its fallbacks. The gateway is a
  script of replies that does not look at the log or the tools it is given.
  Each gateway call records the catalogue and the log it is given, and
  `ResolveGatewaySees` states what they are.
- The fastmcp transport and the service's own behaviour. `list_tools`,
  `list_resources`, `read_resource` and `call_tool` are fixed answers, and
  a missing answer means the call raises.
- `json.loads`: a map from argument text to value, where a missing text
  means the call raises. JSON numbers are integers only.
- `Strings.Lower`: only ASCII letters are lower-cased. Python's `str.lower`
  also folds other scripts. `IsExitIff` is unaffected, because no other
  character lower-cases to a letter of "exit".
- Client.MyClient.ProcessQuery: the recursion is bounded by the script.
  Once the script is exhausted, the model raises `GatewayFailed` where the
  process would ask the gateway once more. With fewer replies than
  recursion levels, this stands for a gateway that fails.
- Client.MyClient.FetchResource: `read_resource(None)` is taken to raise.
  Its actual behaviour belongs to the fastmcp library.
- Async suspension: there is no concurrency in the source, and the model is
  sequential.
- Which exception a failed call raises: the model names the failing step
  with a `Fault`, not a Python exception type.
- Client.MyClient.LoadTools: the shallow-copy mutation of the listed tools
  is not kept. It changes only the service's listing objects, which the
  client does not keep. `ConvertTool` models it.
