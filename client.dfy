/** `MyClient`: the session state of the client (the tool catalogue offered
    to the model, the conversation log and the resource map) and the methods
    that change it. */
module Client {
  import opened Wrappers
  import opened Strings
  import opened Schema
  import opened Service
  import opened Resolution
  import opened Registry

  class MyClient {
    /** `self.tools`: the function-call schemas offered to the model. */
    var tools: seq<FunctionTool>
    /** `self.messages`: the conversation log. */
    var messages: seq<Message>
    /** `self.resources`: pseudo-tool name to resource uri. */
    var resources: map<string, string>

    /** The log opens with the system prompt. */
    ghost predicate Valid()
      reads this
    {
      |messages| > 0 && messages[0] == SystemMessage()
    }

    /** `MyClient.__init__`: no tools, a log holding only the system prompt,
        no resources. */
    constructor()
      ensures Valid()
      ensures tools == [] && messages == [SystemMessage()] && resources == map[]
    {
      tools := [];
      messages := [SystemMessage()];
      resources := map[];
    }

    /** `fetch_resource(name)`: the text of the resource the name maps to; a
        name with no uri makes `read_resource(None)` raise. */
    method FetchResource(name: string, server: Server) returns (text: Result<string, Fault>)
      ensures name !in resources ==> text == Failure(UnknownResource(name))
      ensures name in resources ==> text == ReadResource(server, resources[name])
    {
      if name !in resources {
        return Failure(UnknownResource(name));
      }
      var uri := resources[name];
      text := ReadResource(server, uri);
    }

    /** `_load_tools`: the catalogue is reset, then holds the translated tools
        in listing order followed by one pseudo-tool per resource, and the
        resource map is rebuilt. A tool whose schema does not translate makes
        the call raise with the tools before it already in place; a failing
        `list_resources` is only logged, leaving the tools alone and the old
        map in place. */
    method LoadTools(server: Server) returns (outcome: Result<(), Fault>)
      modifies this`tools, this`resources
      ensures server.tools.None? ==>
        outcome == Failure(ListToolsFailed) && tools == [] && resources == old(resources)
      ensures server.tools.Some? ==>
        var ts := server.tools.value;
        var n := GoodPrefix(ts);
        if n < |ts| then
          && outcome == Failure(BadToolSchema(ts[n].name, Convert(ts[n]).error))
          && tools == Translated(ts, n) && resources == old(resources)
        else
          && outcome == Success(())
          && (server.resources.None? ==> tools == Translated(ts, n) && resources == old(resources))
          && (server.resources.Some? ==>
                && tools == Translated(ts, n) + ResourceTools(server.resources.value)
                && resources == ResourceMap(server.resources.value))
    {
      tools := [];
      if server.tools.None? {
        return Failure(ListToolsFailed);
      }
      var ts := server.tools.value;
      var i := 0;
      while i < |ts|
        invariant i <= GoodPrefix(ts)
        invariant tools == Translated(ts, i)
        invariant resources == old(resources)
      {
        var r, _ := ConvertTool(ts[i]);
        if r.Failure? {
          return Failure(BadToolSchema(ts[i].name, r.error));
        }
        assert Translated(ts, i) + [r.value] == Translated(ts, i + 1);
        tools := tools + [r.value];
        i := i + 1;
      }
      if server.resources.Some? {
        var rs := server.resources.value;
        resources := ResourceMap(rs);
        tools := tools + ResourceTools(rs);
      }
      return Success(());
    }

    /** `process_query(query)`, against the gateway replies still to come:
        it ends as `Resolve` says, leaves the log it computes and makes the
        external calls it lists; the log keeps the system prompt first, and
        every gateway call is offered `self.tools`, the catalogue that
        `LoadTools` built, with the log as it then stood. */
    method ProcessQuery(query: string, server: Server, decode: Decoder, script: seq<Reply>)
      returns (outcome: Outcome, rest: seq<Reply>, ghost effects: seq<Effect>)
      requires Valid()
      modifies this`messages
      ensures Valid()
      ensures var r := Resolve(old(messages), tools, resources, server, decode, script, query);
        outcome == r.outcome && rest == r.rest && messages == r.log && effects == r.effects
      ensures GatewaySaw(effects, tools, old(messages), messages)
      decreases |script|, 1
    {
      ResolveGatewaySees(messages, tools, resources, server, decode, script, query);
      var q := Strip(query);
      if q == [] {
        return Answer(Some(EmptyQueryReply)), script, [];
      }
      messages := messages + [Message(User, Some(q))];
      effects := [Completion(tools, messages)];
      if script == [] {
        return Raised(GatewayFailed), [], effects;
      }
      var reply := script[0];
      if reply.calls == [] {
        messages := messages + [Message(Assistant, reply.content)];
        return Answer(reply.content), script[1..], effects;
      }
      ResolveDispatch(old(messages), tools, resources, server, decode, script, query);
      ghost var more;
      outcome, rest, more := ProcessToolCall(reply.calls[0], script[1..], server, decode);
      effects := effects + more;
    }

    /** The tool-call branch of `process_query`: it ends as `Dispatch` says,
        directly or through the tail call it names. */
    method ProcessToolCall(call: ToolCall, rest: seq<Reply>, server: Server, decode: Decoder)
      returns (outcome: Outcome, left: seq<Reply>, ghost effects: seq<Effect>)
      requires Valid()
      modifies this`messages
      ensures Valid()
      ensures var l := Dispatch(old(messages), resources, server, decode, call, rest);
        var r := Continue(l, tools, resources, server, decode);
        outcome == r.outcome && left == r.rest && messages == r.log && effects == r.effects
      decreases |rest| + 1, 0
    {
      messages := messages + [Echo(call)];
      if call.name in resources {
        var uri := resources[call.name];
        effects := [Read(uri)];
        var fetched := FetchResource(call.name, server);
        if fetched.Failure? {
          return Raised(fetched.error), rest, effects;
        }
        ghost var more;
        outcome, left, more := ProcessQuery(fetched.value, server, decode, rest);
        effects := effects + more;
        return;
      }
      if call.arguments !in decode {
        return Raised(ArgumentsNotJson(call.arguments)), rest, [];
      }
      var arguments := decode[call.arguments];
      effects := [Invoke(call.name, arguments)];
      var result := CallTool(server, call.name, arguments);
      if result.Failure? {
        return Raised(result.error), rest, effects;
      }
      if StartsWithBrace(result.value) {
        ghost var more;
        outcome, left, more := ProcessQuery(result.value, server, decode, rest);
        effects := effects + more;
        return;
      }
      messages := messages + [Message(Assistant, Some(result.value))];
      return Answer(Some(result.value)), rest, effects;
    }
  }

  /** The exit test of `run`: `query.lower() == "exit"`. */
  predicate IsExit(query: string)
  {
    Lower(query) == "exit"
  }

  /** The loop ends on "exit" in any mix of upper and lower case, and on
      nothing else: no surrounding whitespace is allowed. */
  lemma IsExitIff(query: string)
    ensures IsExit(query) <==>
      |query| == 4 && forall i :: 0 <= i < 4 ==> query[i] == "exit"[i] || query[i] == "EXIT"[i]
  {
    if |query| == 4 && forall i :: 0 <= i < 4 ==> query[i] == "exit"[i] || query[i] == "EXIT"[i] {
      assert Lower(query) == "exit" by {
        forall i | 0 <= i < 4 ensures Lower(query)[i] == "exit"[i] {
          assert LowerChar(query[i]) == "exit"[i];
        }
      }
    }
    if IsExit(query) {
      forall i | 0 <= i < 4 ensures query[i] == "exit"[i] || query[i] == "EXIT"[i] {
        assert LowerChar(query[i]) == "exit"[i];
      }
    }
  }
}
