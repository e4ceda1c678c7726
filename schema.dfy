/** The schema translator of client.py: `to_snake_case`,
    `convert_tool_to_gemini_tool` and `create_resource_fetcher_tools`, which
    turn the service's tool and resource descriptors into the function-call
    schemas offered to the model. */
module Schema {
  import opened Wrappers
  import opened Strings
  import opened Json

  /** A tool as the service lists it (`mcp.types.Tool`). */
  datatype Tool = Tool(name: string, description: Option<string>, inputSchema: Dict)

  /** A resource as the service lists it (`mcp.types.Resource`); `uri` is
      already `str(uri)`. */
  datatype Resource = Resource(name: string, uri: string, description: Option<string>)

  /** A function-call schema: the content of
      `{"type": "function", "function": {name, description, parameters}}`. */
  datatype FunctionTool = FunctionTool(name: string, description: Option<string>, parameters: Dict)

  /** Why `convert_tool_to_gemini_tool` raises: `params.pop("properties")`
      finds no key (KeyError), the properties value has no `.items()`, or a
      property schema has no `.pop`. */
  datatype SchemaError =
    | MissingProperties
    | PropertiesNotObject
    | PropertyNotObject(property: string)

  // ----- to_snake_case -----

  function LowerWords(ws: seq<string>): seq<string>
  {
    seq(|ws|, i requires 0 <= i < |ws| => Lower(ws[i]))
  }

  /** `to_snake_case`: split on whitespace, lower-case each word, join the
      words with "_". */
  function SnakeCase(s: string): string
  {
    Join("_", LowerWords(Split(s)))
  }

  predicate Lowered(s: string)
  {
    forall i :: 0 <= i < |s| ==> LowerChar(s[i]) == s[i]
  }

  /** A snake-cased name contains no whitespace and no upper-case ASCII
      letter. */
  lemma SnakeCaseShape(s: string)
    ensures SpaceFree(SnakeCase(s))
    ensures Lowered(SnakeCase(s))
  {
    var ws := LowerWords(Split(s));
    SplitWordsVisible(s);
    forall j, i | 0 <= j < |ws| && 0 <= i < |ws[j]|
      ensures !IsSpace(ws[j][i]) && LowerChar(ws[j][i]) == ws[j][i]
    {
      LowerCharFacts(Split(s)[j][i]);
    }
    JoinKeeps("_", ws, c => !IsSpace(c));
    JoinKeeps("_", ws, c => LowerChar(c) == c);
  }

  /** On a single word without whitespace, snake-casing only lower-cases. */
  lemma SnakeCaseOfWord(s: string)
    requires SpaceFree(s)
    ensures SnakeCase(s) == Lower(s)
  {
    SplitSpaceFree(s);
    var ws := Split(s);
    if s == [] {
      assert ws == [] && Lower(s) == [];
      assert LowerWords(ws) == [];
    } else {
      assert ws == [s];
      var lw := LowerWords(ws);
      assert |lw| == 1 && lw[0] == Lower(s);
      assert Join("_", lw) == lw[0];
    }
  }

  /** Applying `to_snake_case` twice is the same as applying it once. */
  lemma SnakeCaseIdempotent(s: string)
    ensures SnakeCase(SnakeCase(s)) == SnakeCase(s)
  {
    var t := SnakeCase(s);
    SnakeCaseShape(s);
    SnakeCaseOfWord(t);
    assert Lower(t) == t;
  }

  /** The name is empty exactly when the input is all whitespace. */
  lemma SnakeCaseEmptyIff(s: string)
    ensures SnakeCase(s) == [] <==> AllSpace(s)
  {
    SplitWordsVisible(s);
    var ws := Split(s);
    if ws != [] {
      assert |LowerWords(ws)[0]| == |ws[0]| > 0;
      assert |SnakeCase(s)| >= |LowerWords(ws)[0]| by {
        if |ws| > 1 {
          assert SnakeCase(s) == LowerWords(ws)[0] + "_" + Join("_", LowerWords(ws)[1..]);
        }
      }
      assert TrimStart(s) != [];
    } else {
      assert TrimStart(s) == [];
      assert s[..LeadingSpaces(s)] == s;
    }
  }

  /** Two words separated by whitespace become the lower-cased words joined
      by one underscore. */
  lemma SnakeCaseTwoWords(a: string, gap: string, b: string)
    requires a != [] && SpaceFree(a) && b != [] && SpaceFree(b)
    requires gap != [] && AllSpace(gap)
    ensures SnakeCase(a + gap + b) == Lower(a) + "_" + Lower(b)
  {
    var tail := gap + b;
    var s := a + tail;
    assert s == a + gap + b;
    assert tail[0] == gap[0];
    assert Split(s) == [a, b] by {
      SplitSpaceFree(b);
      SplitSkipSpace(gap, b);
      SplitFirstWord(a, tail);
    }
    var ws := [Lower(a), Lower(b)];
    assert LowerWords([a, b]) == ws;
    assert ws[1..] == [Lower(b)];
    calc {
      SnakeCase(s);
      Join("_", ws);
      ws[0] + "_" + Join("_", ws[1..]);
      Lower(a) + "_" + Lower(b);
    }
  }

  // ----- convert_tool_to_gemini_tool -----

  /** The loop over `properties.items()` run to completion: every property
      schema loses its "title" key; the first property whose schema is not an
      object makes the loop raise. */
  function StripTitles(props: Dict): Result<Dict, SchemaError>
  {
    if props == [] then Success([])
    else if !props[0].1.Object? then Failure(PropertyNotObject(props[0].0))
    else match StripTitles(props[1..])
      case Failure(e) => Failure(e)
      case Success(rest) => Success([(props[0].0, Object(Pop(props[0].1.fields, "title")))] + rest)
  }

  /** The same loop as the caller's properties object sees it: entries are
      stripped in place up to the first one that is not an object, where the
      loop raises and the rest stays as it was. */
  function StrippedInPlace(props: Dict): Dict
  {
    if props == [] then []
    else if !props[0].1.Object? then props
    else [(props[0].0, Object(Pop(props[0].1.fields, "title")))] + StrippedInPlace(props[1..])
  }

  /** `convert_tool_to_gemini_tool` on values: the root copy loses "title",
      "properties" is popped, stripped and put back (so it ends up last). */
  function Convert(tool: Tool): Result<FunctionTool, SchemaError>
  {
    var params := Pop(tool.inputSchema, "title");
    match Get(params, "properties")
    case None => Failure(MissingProperties)
    case Some(p) =>
      if !p.Object? then Failure(PropertiesNotObject)
      else match StripTitles(p.fields)
        case Failure(e) => Failure(e)
        case Success(props) =>
          Success(FunctionTool(tool.name, tool.description, Put(Pop(params, "properties"), "properties", Object(props))))
  }

  /** The caller's tool once `convert_tool_to_gemini_tool` has run (whether
      it returned or raised): `.copy()` is shallow, so the root keeps its
      "title" but the properties object is the caller's own and has been
      stripped in place. */
  function AfterConvert(tool: Tool): Tool
  {
    match Get(tool.inputSchema, "properties")
    case Some(Object(props)) =>
      tool.(inputSchema := Put(tool.inputSchema, "properties", Object(StrippedInPlace(props))))
    case _ => tool
  }

  function Prepend(done: Dict, r: Result<Dict, SchemaError>): Result<Dict, SchemaError>
  {
    match r
    case Success(rest) => Success(done + rest)
    case Failure(e) => Failure(e)
  }

  lemma PrependStep(done: Dict, props: Dict)
    requires props != [] && props[0].1.Object?
    ensures Prepend(done, StripTitles(props))
         == Prepend(done + [(props[0].0, Object(Pop(props[0].1.fields, "title")))], StripTitles(props[1..]))
  {
    var e := (props[0].0, Object(Pop(props[0].1.fields, "title")));
    match StripTitles(props[1..]) {
      case Success(rest) =>
        assert StripTitles(props) == Success([e] + rest);
        assert done + ([e] + rest) == (done + [e]) + rest;
      case Failure(_) =>
    }
  }

  /** `convert_tool_to_gemini_tool` step by step, as the source runs it. */
  method ConvertTool(tool: Tool) returns (r: Result<FunctionTool, SchemaError>, after: Tool)
    ensures r == Convert(tool)
    ensures after == AfterConvert(tool)
  {
    var params := Pop(tool.inputSchema, "title");
    PopFacts(tool.inputSchema, "title");
    var found := Get(params, "properties");
    if found.None? {
      return Failure(MissingProperties), tool;
    }
    var properties := found.value;
    if !properties.Object? {
      return Failure(PropertiesNotObject), tool;
    }
    params := Pop(params, "properties");
    var entries := properties.fields;
    var stripped: Dict := [];
    var i := 0;
    assert entries[0..] == entries;
    assert Prepend(stripped, StripTitles(entries)) == StripTitles(entries) by {
      match StripTitles(entries) {
        case Success(x) => assert [] + x == x;
        case Failure(_) =>
      }
    }
    while i < |entries|
      invariant 0 <= i <= |entries|
      invariant StripTitles(entries) == Prepend(stripped, StripTitles(entries[i..]))
      invariant StrippedInPlace(entries) == stripped + StrippedInPlace(entries[i..])
    {
      var (prop, data) := entries[i];
      if !data.Object? {
        assert StripTitles(entries[i..]) == Failure(PropertyNotObject(prop));
        assert StrippedInPlace(entries[i..]) == entries[i..];
        after := tool.(inputSchema := Put(tool.inputSchema, "properties", Object(stripped + entries[i..])));
        return Failure(PropertyNotObject(prop)), after;
      }
      assert entries[i..][1..] == entries[i + 1..];
      PrependStep(stripped, entries[i..]);
      stripped := stripped + [(prop, Object(Pop(data.fields, "title")))];
      i := i + 1;
    }
    assert entries[i..] == [];
    assert stripped + [] == stripped;
    r := Success(FunctionTool(tool.name, tool.description, Put(params, "properties", Object(stripped))));
    after := tool.(inputSchema := Put(tool.inputSchema, "properties", Object(stripped)));
  }

  /** The property loop succeeds exactly when every property schema is an
      object. It then keeps every property, in order, under the same name,
      with the property schema minus its "title"; and the caller's shared
      properties object reads the same. When it fails, the error names the
      first property whose schema is not an object. */
  lemma {:induction false} StripTitlesFacts(props: Dict)
    ensures StripTitles(props).Success? <==> forall i :: 0 <= i < |props| ==> props[i].1.Object?
    ensures StripTitles(props).Success? ==>
      && |StripTitles(props).value| == |props|
      && StrippedInPlace(props) == StripTitles(props).value
      && forall i :: 0 <= i < |props| ==>
           StripTitles(props).value[i] == (props[i].0, Object(Pop(props[i].1.fields, "title")))
    ensures StripTitles(props).Failure? ==>
      exists j :: 0 <= j < |props| && !props[j].1.Object?
        && StripTitles(props).error == PropertyNotObject(props[j].0)
        && forall i :: 0 <= i < j ==> props[i].1.Object?
  {
    if props != [] {
      StripTitlesFacts(props[1..]);
      if !props[0].1.Object? {
        assert !props[0].1.Object?;
      } else {
        var e := (props[0].0, Object(Pop(props[0].1.fields, "title")));
        match StripTitles(props[1..]) {
          case Success(rest) =>
            var out := [e] + rest;
            assert StripTitles(props) == Success(out);
            forall i | 0 <= i < |props|
              ensures out[i] == (props[i].0, Object(Pop(props[i].1.fields, "title")))
            {
              if i > 0 {
                assert out[i] == rest[i - 1];
                assert props[i] == props[1..][i - 1];
              }
            }
            forall i | 0 <= i < |props| ensures props[i].1.Object? {
              if i > 0 {
                assert props[i] == props[1..][i - 1];
              }
            }
          case Failure(err) =>
            var j :| 0 <= j < |props[1..]| && !props[1..][j].1.Object?
              && err == PropertyNotObject(props[1..][j].0)
              && forall i :: 0 <= i < j ==> props[1..][i].1.Object?;
            assert props[j + 1] == props[1..][j];
            forall i | 0 <= i < j + 1 ensures props[i].1.Object? {
              if i > 0 {
                assert props[i] == props[1..][i - 1];
              }
            }
            assert !props[j + 1].1.Object?;
        }
      }
    }
  }

  /** `convert_tool_to_gemini_tool` returns exactly when the schema has a
      "properties" object whose every entry is an object; a missing
      "properties" key is the KeyError case. */
  lemma ConvertSucceedsIff(tool: Tool)
    ensures Convert(tool).Success? <==>
      match Get(tool.inputSchema, "properties")
      case Some(Object(props)) => forall i :: 0 <= i < |props| ==> props[i].1.Object?
      case _ => false
    ensures Convert(tool) == Failure(MissingProperties) <==> Get(tool.inputSchema, "properties") == None
  {
    PopFacts(tool.inputSchema, "title");
    match Get(tool.inputSchema, "properties") {
      case Some(Object(props)) => StripTitlesFacts(props);
      case _ =>
    }
  }

  /** The translated tool keeps the name and description, has no "title" at
      the parameters root, keeps every other root key with its value and in
      its order, and lists "properties" last (it was popped and put back). */
  lemma ConvertRoot(tool: Tool, f: FunctionTool)
    requires Convert(tool) == Success(f)
    ensures f.name == tool.name && f.description == tool.description
    ensures Get(f.parameters, "title") == None
    ensures forall k :: k != "title" && k != "properties" ==> Get(f.parameters, k) == Get(tool.inputSchema, k)
    ensures Keys(f.parameters) == Without(Without(Keys(tool.inputSchema), "title"), "properties") + ["properties"]
  {
    var params := Pop(tool.inputSchema, "title");
    PopFacts(tool.inputSchema, "title");
    var q := Pop(params, "properties");
    PopFacts(params, "properties");
    GetPresent(q, "properties");
    var props := Get(params, "properties").value.fields;
    var v := Object(StripTitles(props).value);
    assert f.parameters == Put(q, "properties", v);
    PutFacts(q, "properties", v);
  }

  /** Every property keeps its name and place; its schema loses "title" and
      keeps every other key with its value. */
  lemma ConvertProperties(tool: Tool, f: FunctionTool)
    requires Convert(tool) == Success(f)
    ensures match (Get(tool.inputSchema, "properties"), Get(f.parameters, "properties"))
      case (Some(Object(props)), Some(Object(out))) =>
        && |out| == |props| && Keys(out) == Keys(props)
        && forall i :: 0 <= i < |out| ==>
             && out[i].1.Object? && props[i].1.Object?
             && Get(out[i].1.fields, "title") == None
             && forall k :: k != "title" ==> Get(out[i].1.fields, k) == Get(props[i].1.fields, k)
      case _ => false
  {
    PopFacts(tool.inputSchema, "title");
    ConvertRoot(tool, f);
    var params := Pop(tool.inputSchema, "title");
    var props := Get(params, "properties").value.fields;
    StripTitlesFacts(props);
    var out := StripTitles(props).value;
    PutFacts(Pop(params, "properties"), "properties", Object(out));
    assert Get(f.parameters, "properties") == Some(Object(out));
    forall i | 0 <= i < |out|
      ensures Get(out[i].1.fields, "title") == None
      ensures forall k :: k != "title" ==> Get(out[i].1.fields, k) == Get(props[i].1.fields, k)
    {
      PopFacts(props[i].1.fields, "title");
    }
    KeysOfStripped(props, out);
  }

  lemma {:induction false} KeysOfStripped(props: Dict, out: Dict)
    requires |out| == |props|
    requires forall i :: 0 <= i < |props| ==> out[i].0 == props[i].0
    ensures Keys(out) == Keys(props)
  {
    if props != [] {
      KeysOfStripped(props[1..], out[1..]);
    }
  }

  /** Translating a translated schema again changes nothing. */
  lemma ConvertIdempotent(tool: Tool, f: FunctionTool)
    requires Convert(tool) == Success(f)
    ensures Convert(tool.(inputSchema := f.parameters)) == Success(f)
  {
    var params := Pop(tool.inputSchema, "title");
    PopFacts(tool.inputSchema, "title");
    var q := Pop(params, "properties");
    PopFacts(params, "properties");
    GetPresent(q, "properties");
    var props := Get(params, "properties").value.fields;
    StripTitlesFacts(props);
    var out := StripTitles(props).value;
    var p := f.parameters;
    assert p == q + [("properties", Object(out))];
    ConvertRoot(tool, f);
    GetPresent(p, "title");
    PopAbsent(p, "title");
    AppendFacts(q, "properties", Object(out));
    // the properties loop finds nothing left to strip
    StripTitlesFacts(out);
    forall i | 0 <= i < |out| ensures Pop(out[i].1.fields, "title") == out[i].1.fields {
      PopFacts(props[i].1.fields, "title");
      GetPresent(out[i].1.fields, "title");
      PopAbsent(out[i].1.fields, "title");
    }
    var again := StripTitles(out).value;
    assert again == out;
    // popping "properties" again leaves the same remainder
    PopAppend(q, [("properties", Object(out))], "properties");
    PopAbsent(q, "properties");
    assert Pop([("properties", Object(out))], "properties") == [];
    assert Pop(p, "properties") == q;
  }

  /** The shallow copy: after a successful translation the caller's schema
      keeps every root key (its "title" included) in place, and its
      "properties" object is the very one returned, titles removed. */
  lemma ConvertAliasing(tool: Tool, f: FunctionTool)
    requires Convert(tool) == Success(f)
    ensures Keys(AfterConvert(tool).inputSchema) == Keys(tool.inputSchema)
    ensures Get(AfterConvert(tool).inputSchema, "properties") == Get(f.parameters, "properties")
    ensures forall k :: k != "properties" ==> Get(AfterConvert(tool).inputSchema, k) == Get(tool.inputSchema, k)
  {
    PopFacts(tool.inputSchema, "title");
    var params := Pop(tool.inputSchema, "title");
    var props := Get(params, "properties").value.fields;
    StripTitlesFacts(props);
    var out := StripTitles(props).value;
    PutFacts(Pop(params, "properties"), "properties", Object(out));
    GetPresent(tool.inputSchema, "properties");
    PutFacts(tool.inputSchema, "properties", Object(out));
  }

  // ----- create_resource_fetcher_tools -----

  /** The parameters of a resource pseudo-tool: nothing required, no
      "properties" key. */
  const NoArguments: Dict := [("required", Array([])), ("type", Str("object"))]

  function ResourceTool(r: Resource): FunctionTool
  {
    FunctionTool(SnakeCase(r.name), r.description, NoArguments)
  }

  /** `create_resource_fetcher_tools`: one pseudo-tool per resource, in order. */
  function ResourceTools(rs: seq<Resource>): seq<FunctionTool>
  {
    seq(|rs|, i requires 0 <= i < |rs| => ResourceTool(rs[i]))
  }

  /** One pseudo-tool per resource, in the same order: named by the
      snake-cased resource name (no whitespace, lower case), carrying the
      resource's description, with parameters exactly
      `{"required": [], "type": "object"}` and no "properties" key. */
  lemma ResourceToolsShape(rs: seq<Resource>)
    ensures |ResourceTools(rs)| == |rs|
    ensures forall i :: 0 <= i < |rs| ==>
      && ResourceTools(rs)[i].name == SnakeCase(rs[i].name)
      && SpaceFree(ResourceTools(rs)[i].name) && Lowered(ResourceTools(rs)[i].name)
      && ResourceTools(rs)[i].description == rs[i].description
      && Keys(ResourceTools(rs)[i].parameters) == ["required", "type"]
      && Get(ResourceTools(rs)[i].parameters, "required") == Some(Array([]))
      && Get(ResourceTools(rs)[i].parameters, "properties") == None
      && ResourceTools(rs)[i].parameters == NoArguments
  {
    forall i | 0 <= i < |rs|
      ensures SpaceFree(SnakeCase(rs[i].name)) && Lowered(SnakeCase(rs[i].name))
    {
      SnakeCaseShape(rs[i].name);
    }
    assert Keys(NoArguments) == ["required", "type"];
  }

  // ----- the dict the model is given -----

  function DescriptionValue(d: Option<string>): Value
  {
    match d
    case None => Null
    case Some(s) => Str(s)
  }

  /** The dict a translated tool is: `{"type": "function", "function": {...}}`. */
  function Render(f: FunctionTool): Value
  {
    Object([
      ("type", Str("function")),
      ("function", Object([
        ("name", Str(f.name)),
        ("description", DescriptionValue(f.description)),
        ("parameters", Object(f.parameters))]))])
  }

  /** Reads a function-call schema back out of its dict. */
  function Unrender(v: Value): Option<FunctionTool>
  {
    if !v.Object? || Get(v.fields, "type") != Some(Str("function")) then None
    else match Get(v.fields, "function")
      case Some(Object(g)) =>
        (match (Get(g, "name"), Get(g, "description"), Get(g, "parameters"))
         case (Some(Str(n)), Some(Null), Some(Object(p))) => Some(FunctionTool(n, None, p))
         case (Some(Str(n)), Some(Str(d)), Some(Object(p))) => Some(FunctionTool(n, Some(d), p))
         case _ => None)
      case _ => None
  }

  /** The envelope is `{"type": "function", "function": {...}}` and the
      schema can be read back from it unchanged. */
  lemma RenderRoundTrip(f: FunctionTool)
    ensures Keys(Render(f).fields) == ["type", "function"]
    ensures Get(Render(f).fields, "type") == Some(Str("function"))
    ensures Unrender(Render(f)) == Some(f)
  {
    var d := DescriptionValue(f.description);
    var g: Dict := [("name", Str(f.name)), ("description", d), ("parameters", Object(f.parameters))];
    var root: Dict := [("type", Str("function")), ("function", Object(g))];
    assert Render(f) == Object(root);
    assert root[1..] == [("function", Object(g))];
    assert root[1..][1..] == [];
    assert Keys(root[1..]) == ["function"];
    assert Get(root, "function") == Some(Object(g));
    assert g[1..] == [("description", d), ("parameters", Object(f.parameters))];
    assert g[1..][1..] == [("parameters", Object(f.parameters))];
    assert Get(g, "name") == Some(Str(f.name));
    assert Get(g, "description") == Some(d);
    assert Get(g[1..][1..], "parameters") == Some(Object(f.parameters));
    assert Get(g[1..], "parameters") == Some(Object(f.parameters));
    assert Get(g, "parameters") == Some(Object(f.parameters));
  }
}
