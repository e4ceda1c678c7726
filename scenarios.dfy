/** Three conversations worked through end to end: a tool whose JSON-shaped
    result is fed back as a query, a resource pseudo-tool served by a read,
    and a blank query. */
module Scenarios {
  import opened Wrappers
  import opened Strings
  import opened Json
  import opened Schema
  import opened Service
  import opened Resolution
  import opened Registry

  const WeatherArguments: string := "{\"city\":\"Paris\"}"
  const WeatherResult: string := "{\"temp_c\":20}"

  const WeatherQuery: string := "What's the weather in Paris?"
  const WeatherAnswer: string := "It's 20 C in Paris"

  function WeatherCall(): ToolCall
  {
    ToolCall("fetch_weather", WeatherArguments)
  }

  function Paris(): Value
  {
    Object([("city", Str("Paris"))])
  }

  function WeatherServer(): Server
  {
    Server(None, None, map[], map[("fetch_weather", Paris()) := [Text(WeatherResult)]])
  }

  function WeatherScript(): seq<Reply>
  {
    [Reply(None, [WeatherCall()]), Reply(Some(WeatherAnswer), [])]
  }

  /** First level: the tool is called and its JSON-shaped text goes back in. */
  lemma WeatherFirstLevel(log: seq<Message>, tools: seq<FunctionTool>)
    ensures Step(log, tools, map[], WeatherServer(), map[WeatherArguments := Paris()], WeatherScript(), WeatherQuery)
         == Recurse([Completion(tools, log + [Message(User, Some(WeatherQuery))]), Invoke("fetch_weather", Paris())],
                    log + [Message(User, Some(WeatherQuery)), Echo(WeatherCall())], [Reply(Some(WeatherAnswer), [])], WeatherResult)
  {
    StripTrimmed(WeatherQuery);
    assert StartsWithBrace(WeatherResult);
    assert WeatherScript()[1..] == [Reply(Some(WeatherAnswer), [])];
    assert log + [Message(User, Some(WeatherQuery))] + [Echo(WeatherCall())]
        == log + [Message(User, Some(WeatherQuery)), Echo(WeatherCall())];
  }

  /** Second level: the model answers the tool text in plain words. */
  lemma WeatherSecondLevel(echoed: seq<Message>, tools: seq<FunctionTool>)
    ensures var asked := echoed + [Message(User, Some(WeatherResult))];
      Step(echoed, tools, map[], WeatherServer(), map[WeatherArguments := Paris()], [Reply(Some(WeatherAnswer), [])], WeatherResult)
        == Done(Run(Answer(Some(WeatherAnswer)), asked + [Message(Assistant, Some(WeatherAnswer))], [], [Completion(tools, asked)]))
  {
    StripTrimmed(WeatherResult);
  }

  /** A weather question: the model calls `fetch_weather`, whose
      JSON-shaped answer goes back in as a new query; the model's plain reply
      to that is the answer, and the log records every turn. */
  lemma WeatherScenario(log: seq<Message>, tools: seq<FunctionTool>)
    ensures
      var r := Resolve(log, tools, map[], WeatherServer(), map[WeatherArguments := Paris()], WeatherScript(), WeatherQuery);
      var asked := log + [Message(User, Some(WeatherQuery)), Echo(WeatherCall()), Message(User, Some(WeatherResult))];
      && r.outcome == Answer(Some(WeatherAnswer))
      && r.rest == []
      && r.log == asked + [Message(Assistant, Some(WeatherAnswer))]
      && r.effects == [Completion(tools, log + [Message(User, Some(WeatherQuery))]), Invoke("fetch_weather", Paris()), Completion(tools, asked)]
  {
    var server, decode := WeatherServer(), map[WeatherArguments := Paris()];
    var echoed := log + [Message(User, Some(WeatherQuery)), Echo(WeatherCall())];
    var asked := echoed + [Message(User, Some(WeatherResult))];
    var first := [Completion(tools, log + [Message(User, Some(WeatherQuery))]), Invoke("fetch_weather", Paris())];
    var last := Run(Answer(Some(WeatherAnswer)), asked + [Message(Assistant, Some(WeatherAnswer))], [], [Completion(tools, asked)]);
    WeatherFirstLevel(log, tools);
    WeatherSecondLevel(echoed, tools);
    assert Resolve(echoed, tools, map[], server, decode, [Reply(Some(WeatherAnswer), [])], WeatherResult) == last;
    assert Resolve(log, tools, map[], server, decode, WeatherScript(), WeatherQuery) == Then(first, last);
    assert asked == log + [Message(User, Some(WeatherQuery)), Echo(WeatherCall()), Message(User, Some(WeatherResult))];
  }

  lemma CurrentLocationName()
    ensures SnakeCase("Current" + " " + "Location") == "current_location"
  {
    assert SpaceFree("Current") && SpaceFree("Location") && AllSpace(" ") by {}
    SnakeCaseTwoWords("Current", " ", "Location");
    assert Lower("Current") == "current" by {}
    assert Lower("Location") == "location" by {}
  }

  /** A resource listed as "Current Location" is offered as the pseudo-tool
      `current_location`, and the map sends that name to its uri. */
  lemma LocationPseudoTool(uri: string)
    ensures ResourceTools([Resource("Current" + " " + "Location", uri, None)])
         == [FunctionTool("current_location", None, NoArguments)]
    ensures ResourceMap([Resource("Current" + " " + "Location", uri, None)]) == map["current_location" := uri]
  {
    var r := Resource("Current" + " " + "Location", uri, None);
    CurrentLocationName();
    ResourceMapSingle(r);
    assert ResourceTools([r])[0] == ResourceTool(r);
  }

  /** When the model calls `current_location`, the client reads the
      resource instead of calling a tool, and asks again with its text. */
  lemma LocationScenario(log: seq<Message>, tools: seq<FunctionTool>, uri: string)
    ensures
      var query := "Where am I?";
      var call := ToolCall("current_location", "{}");
      var script := [Reply(None, [call]), Reply(Some("You are in Toronto."), [])];
      var server := Server(None, None, map[uri := [Text("Toronto")]], map[]);
      var r := Resolve(log, tools, map["current_location" := uri], server, map[], script, query);
      && r.outcome == Answer(Some("You are in Toronto."))
      && r.effects == [Completion(tools, log + [Message(User, Some(query))]), Read(uri),
                       Completion(tools, log + [Message(User, Some(query)), Echo(call), Message(User, Some("Toronto"))])]
  {
    var query := "Where am I?";
    StripTrimmed(query);
    StripTrimmed("Toronto");
    var call := ToolCall("current_location", "{}");
    var script := [Reply(None, [call]), Reply(Some("You are in Toronto."), [])];
    var server := Server(None, None, map[uri := [Text("Toronto")]], map[]);
    var resources := map["current_location" := uri];
    var echoed := log + [Message(User, Some(query))] + [Echo(call)];
    assert Step(log, tools, resources, server, map[], script, query)
        == Recurse([Completion(tools, log + [Message(User, Some(query))]), Read(uri)], echoed, script[1..], "Toronto");
    var asked := echoed + [Message(User, Some("Toronto"))];
    var last := Run(Answer(Some("You are in Toronto.")), asked + [Message(Assistant, Some("You are in Toronto."))], [], [Completion(tools, asked)]);
    assert Step(echoed, tools, resources, server, map[], script[1..], "Toronto") == Done(last);
    assert Resolve(log, tools, resources, server, map[], script, query)
        == Then([Completion(tools, log + [Message(User, Some(query))]), Read(uri)], last);
    assert asked == log + [Message(User, Some(query)), Echo(call), Message(User, Some("Toronto"))];
  }

  /** A query of blanks is refused at once: no gateway call, log untouched. */
  lemma BlankScenario(log: seq<Message>, tools: seq<FunctionTool>, resources: map<string, string>, server: Server,
                      decode: Decoder, script: seq<Reply>)
    ensures Resolve(log, tools, resources, server, decode, script, " \t\n ")
         == Run(Answer(Some("Query cannot be empty.")), log, script, [])
    ensures Resolve(log, tools, resources, server, decode, script, "")
         == Run(Answer(Some("Query cannot be empty.")), log, script, [])
  {
    assert AllSpace(" \t\n ") by {}
    ResolveBlank(log, tools, resources, server, decode, script, " \t\n ");
    ResolveBlank(log, tools, resources, server, decode, script, "");
  }
}
