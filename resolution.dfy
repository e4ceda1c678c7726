/** The query-resolution state machine of `MyClient.process_query`, as a
    function of the conversation log, the resource map and the answers of the
    external collaborators, together with what it guarantees. */
module Resolution {
  import opened Wrappers
  import opened Strings
  import opened Json
  import opened Schema
  import opened Service

  datatype Role = System | User | Assistant

  /** One entry of `self.messages`: `{"role": ..., "content": ...}`. The
      content is None when the model answered with no text. */
  datatype Message = Message(role: Role, content: Option<string>)

  const SystemPrompt: string :=
    "You are a helpful assistant. Use the tools provided to answer user queries. You can call tools as needed without asking the user."

  /** What `process_query` returns for a blank query. */
  const EmptyQueryReply: string := "Query cannot be empty."

  /** The first message of every session. */
  function SystemMessage(): Message
  {
    Message(System, Some(SystemPrompt))
  }

  /** The assistant message that records a requested tool call. */
  function Echo(call: ToolCall): Message
  {
    Message(Assistant, Some("Calling tool: " + call.name + " with arguments: " + call.arguments))
  }

  /** `str.startswith("{")`. */
  predicate StartsWithBrace(s: string)
  {
    |s| > 0 && s[0] == '{'
  }

  /** A call the client makes to the outside world, in the order made. */
  datatype Effect =
    | Completion(tools: seq<FunctionTool>, messages: seq<Message>) // the gateway, given the catalogue and the log
    | Read(uri: string)                     // read_resource
    | Invoke(name: string, arguments: Value) // call_tool

  /** How `process_query` ends: it returns (possibly None) or raises. */
  datatype Outcome = Answer(text: Option<string>) | Raised(fault: Fault)

  /** One run of `process_query`: how it ends, the log afterwards, the
      gateway replies not yet used, and the external calls made. */
  datatype Run = Run(outcome: Outcome, log: seq<Message>, rest: seq<Reply>, effects: seq<Effect>)

  function Then(done: seq<Effect>, r: Run): Run
  {
    r.(effects := done + r.effects)
  }

  /** One level of `process_query`: it either ends the call, or ends in a
      tail call of `process_query` on fetched resource text or on tool text
      that starts with "{", after the given external calls. */
  datatype Level =
    | Done(run: Run)
    | Recurse(effects: seq<Effect>, log: seq<Message>, rest: seq<Reply>, query: string)

  /** The tool-call branch of one level of `process_query`, once the log
      holds the user message: the first requested call is echoed into the
      log, then served from a resource when its name is in the resource map
      and by `call_tool` otherwise. Resource text, and tool text that starts
      with "{", are handed back to `process_query`. */
  function Dispatch(asked: seq<Message>, resources: map<string, string>, server: Server,
                    decode: Decoder, call: ToolCall, rest: seq<Reply>): (l: Level)
    ensures l.Recurse? ==> l.rest == rest
  {
    var echoed := asked + [Echo(call)];
    if call.name in resources then
      var uri := resources[call.name];
      match ReadResource(server, uri)
      case Failure(e) => Done(Run(Raised(e), echoed, rest, [Read(uri)]))
      case Success(text) => Recurse([Read(uri)], echoed, rest, text)
    else if call.arguments !in decode then
      Done(Run(Raised(ArgumentsNotJson(call.arguments)), echoed, rest, []))
    else
      var invoke := [Invoke(call.name, decode[call.arguments])];
      match CallTool(server, call.name, decode[call.arguments])
      case Failure(e) => Done(Run(Raised(e), echoed, rest, invoke))
      case Success(text) =>
        if StartsWithBrace(text) then Recurse(invoke, echoed, rest, text)
        else Done(Run(Answer(Some(text)), echoed + [Message(Assistant, Some(text))], rest, invoke))
  }

  /** A level with some external calls made before it. */
  function After(done: seq<Effect>, l: Level): Level
  {
    match l
    case Done(r) => Done(Then(done, r))
    case Recurse(fx, next, rest, text) => Recurse(done + fx, next, rest, text)
  }

  /** One level of `process_query(query)` on a log, the resource map (snake
      name to uri) and the answers of the server, of `json.loads` and of the
      gateway. The level uses the first gateway reply. */
  function Step(log: seq<Message>, tools: seq<FunctionTool>, resources: map<string, string>, server: Server,
                decode: Decoder, script: seq<Reply>, query: string): (s: Level)
    ensures s.Recurse? ==> script != [] && s.rest == script[1..]
  {
    var q := Strip(query);
    if q == [] then Done(Run(Answer(Some(EmptyQueryReply)), log, script, []))
    else
      var asked := log + [Message(User, Some(q))];
      var ask := [Completion(tools, asked)];
      if script == [] then Done(Run(Raised(GatewayFailed), asked, [], ask))
      else
        var reply, rest := script[0], script[1..];
        if reply.calls == [] then
          Done(Run(Answer(reply.content), asked + [Message(Assistant, reply.content)], rest, ask))
        else
          After(ask, Dispatch(asked, resources, server, decode, reply.calls[0], rest))
  }

  /** `process_query(query)`: levels chained through their tail calls. */
  function Resolve(log: seq<Message>, tools: seq<FunctionTool>, resources: map<string, string>, server: Server,
                   decode: Decoder, script: seq<Reply>, query: string): Run
    decreases |script|
  {
    match Step(log, tools, resources, server, decode, script, query)
    case Done(r) => r
    case Recurse(fx, next, rest, text) => Then(fx, Resolve(next, tools, resources, server, decode, rest, text))
  }

  /** The run a level leads to: its own when it ends the call, otherwise
      its external calls followed by the run of its tail call. */
  function Continue(l: Level, tools: seq<FunctionTool>, resources: map<string, string>, server: Server, decode: Decoder): Run
  {
    match l
    case Done(r) => r
    case Recurse(fx, next, rest, text) => Then(fx, Resolve(next, tools, resources, server, decode, rest, text))
  }

  /** A query that asks the gateway and gets a tool call back runs as the
      gateway call followed by the dispatch of the first call. */
  lemma ResolveDispatch(log: seq<Message>, tools: seq<FunctionTool>, resources: map<string, string>, server: Server,
                        decode: Decoder, script: seq<Reply>, query: string)
    requires Strip(query) != [] && script != [] && script[0].calls != []
    ensures var asked := log + [Message(User, Some(Strip(query)))];
      Resolve(log, tools, resources, server, decode, script, query)
        == Then([Completion(tools, asked)], Continue(Dispatch(asked, resources, server, decode, script[0].calls[0], script[1..]), tools, resources, server, decode))
  {
    var asked := log + [Message(User, Some(Strip(query)))];
    var l := Dispatch(asked, resources, server, decode, script[0].calls[0], script[1..]);
    assert Step(log, tools, resources, server, decode, script, query) == After([Completion(tools, asked)], l);
    match l
    case Done(_) =>
    case Recurse(fx, next, rest, text) =>
      var r := Resolve(next, tools, resources, server, decode, rest, text);
      assert [Completion(tools, asked)] + fx + r.effects == [Completion(tools, asked)] + (fx + r.effects);
  }

  /** The external calls and log of one level, as the steps below use
      them: a non-blank query makes one gateway call first, followed by at
      most one read of a mapped uri or one call_tool of an unmapped name. */
  lemma StepShape(log: seq<Message>, tools: seq<FunctionTool>, resources: map<string, string>, server: Server,
                  decode: Decoder, script: seq<Reply>, query: string)
    ensures var s := Step(log, tools, resources, server, decode, script, query);
      var asked := log + [Message(User, Some(Strip(query)))];
      var fx := if s.Done? then s.run.effects else s.effects;
      var next := if s.Done? then s.run.log else s.log;
      && (Strip(query) == [] ==> s.Done? && fx == [] && next == log)
      && (Strip(query) != [] ==>
            && 1 <= |fx| <= 2 && fx[0] == Completion(tools, asked) && asked <= next
            && (|fx| == 2 ==> || (fx[1].Invoke? && fx[1].name !in resources)
                              || (fx[1].Read? && fx[1].uri in resources.Values)))
  {
  }

  /** After its user message, a level logs no other user message: only the
      echo of a tool call and the assistant's answer. */
  lemma StepUserOnce(log: seq<Message>, tools: seq<FunctionTool>, resources: map<string, string>, server: Server,
                     decode: Decoder, script: seq<Reply>, query: string)
    ensures var s := Step(log, tools, resources, server, decode, script, query);
      var next := if s.Done? then s.run.log else s.log;
      forall j :: |log| + 1 <= j < |next| ==> next[j].role != User
  {
  }

  /** `process_query` only ever appends to the log, and never a system
      message: the system prompt stays the first entry. */
  lemma {:induction false} ResolveAppendOnly(log: seq<Message>, tools: seq<FunctionTool>, resources: map<string, string>, server: Server,
                                             decode: Decoder, script: seq<Reply>, query: string)
    ensures var r := Resolve(log, tools, resources, server, decode, script, query);
      && log <= r.log
      && forall i :: |log| <= i < |r.log| ==> r.log[i].role != System
    decreases |script|
  {
    match Step(log, tools, resources, server, decode, script, query)
    case Done(_) =>
    case Recurse(_, next, rest, text) =>
      ResolveAppendOnly(next, tools, resources, server, decode, rest, text);
      var r := Resolve(next, tools, resources, server, decode, rest, text);
      assert |next| == |log| + 2;
      assert r.log[..|log|] == r.log[..|next|][..|log|];
  }

  /** A blank query (all whitespace, possibly empty) is refused without a
      gateway call and without touching the log; any other query is logged
      first, stripped, as a user message. */
  lemma ResolveBlank(log: seq<Message>, tools: seq<FunctionTool>, resources: map<string, string>, server: Server,
                     decode: Decoder, script: seq<Reply>, query: string)
    ensures var r := Resolve(log, tools, resources, server, decode, script, query);
      && (AllSpace(query) ==> r == Run(Answer(Some(EmptyQueryReply)), log, script, []))
      && (!AllSpace(query) ==> |r.log| > |log| && r.log[|log|] == Message(User, Some(Strip(query))))
  {
    StripEmptyIff(query);
    match Step(log, tools, resources, server, decode, script, query)
    case Done(_) =>
    case Recurse(_, next, rest, text) =>
      ResolveAppendOnly(next, tools, resources, server, decode, rest, text);
      var r := Resolve(next, tools, resources, server, decode, rest, text);
      assert r.log[|log|] == r.log[..|next|][|log|];
  }

  /** When the first reply requests tools, the client records which one it
      calls, right after the user message. */
  lemma ResolveEchoesCall(log: seq<Message>, tools: seq<FunctionTool>, resources: map<string, string>, server: Server,
                          decode: Decoder, script: seq<Reply>, query: string)
    requires !AllSpace(query) && script != [] && script[0].calls != []
    ensures var r := Resolve(log, tools, resources, server, decode, script, query);
      |r.log| > |log| + 1 && r.log[|log| + 1] == Echo(script[0].calls[0])
  {
    StripEmptyIff(query);
    match Step(log, tools, resources, server, decode, script, query)
    case Done(_) =>
    case Recurse(_, next, rest, text) =>
      ResolveAppendOnly(next, tools, resources, server, decode, rest, text);
      var r := Resolve(next, tools, resources, server, decode, rest, text);
      assert r.log[|log| + 1] == r.log[..|next|][|log| + 1];
  }

  /** A level that ends the call with an answer either refused a blank
      query or closed the log with the answer as an assistant message. */
  lemma StepRecordsAnswer(log: seq<Message>, tools: seq<FunctionTool>, resources: map<string, string>, server: Server,
                          decode: Decoder, script: seq<Reply>, query: string)
    ensures var s := Step(log, tools, resources, server, decode, script, query);
      s.Done? && s.run.outcome.Answer? ==>
        || s.run.outcome.text == Some(EmptyQueryReply)
        || (s.run.log != [] && s.run.log[|s.run.log| - 1] == Message(Assistant, s.run.outcome.text))
  {
  }

  /** Every answer is either the blank-query reply or the assistant message
      that closes the log. */
  lemma {:induction false} ResolveRecordsAnswer(log: seq<Message>, tools: seq<FunctionTool>, resources: map<string, string>, server: Server,
                                                decode: Decoder, script: seq<Reply>, query: string)
    ensures var r := Resolve(log, tools, resources, server, decode, script, query);
      r.outcome.Answer? ==>
        || r.outcome.text == Some(EmptyQueryReply)
        || (r.log != [] && r.log[|r.log| - 1] == Message(Assistant, r.outcome.text))
    decreases |script|
  {
    StepRecordsAnswer(log, tools, resources, server, decode, script, query);
    match Step(log, tools, resources, server, decode, script, query)
    case Done(_) =>
    case Recurse(_, next, rest, text) =>
      ResolveRecordsAnswer(next, tools, resources, server, decode, rest, text);
  }

  /** The run uses gateway replies from the front of the script: what is
      left is a suffix of it. */
  lemma {:induction false} ResolveConsumes(log: seq<Message>, tools: seq<FunctionTool>, resources: map<string, string>, server: Server,
                                           decode: Decoder, script: seq<Reply>, query: string)
    ensures var r := Resolve(log, tools, resources, server, decode, script, query);
      |r.rest| <= |script| && r.rest == script[|script| - |r.rest|..]
    decreases |script|
  {
    match Step(log, tools, resources, server, decode, script, query)
    case Done(_) =>
    case Recurse(_, next, rest, text) =>
      ResolveConsumes(next, tools, resources, server, decode, rest, text);
      var r := Resolve(next, tools, resources, server, decode, rest, text);
      assert script[1..][|rest| - |r.rest|..] == script[|script| - |r.rest|..];
  }

  /** No call_tool names a resource pseudo-tool, and every read is of a
      uri the resource map holds. */
  predicate ResourcesFirst(effects: seq<Effect>, resources: map<string, string>)
  {
    forall i :: 0 <= i < |effects| ==>
      && (effects[i].Invoke? ==> effects[i].name !in resources)
      && (effects[i].Read? ==> effects[i].uri in resources.Values)
  }

  /** A tool name that is also a resource pseudo-tool is always served by
      reading the resource, never by call_tool. */
  lemma {:induction false} ResolveResourceFirst(log: seq<Message>, tools: seq<FunctionTool>, resources: map<string, string>, server: Server,
                                                decode: Decoder, script: seq<Reply>, query: string)
    ensures ResourcesFirst(Resolve(log, tools, resources, server, decode, script, query).effects, resources)
    decreases |script|
  {
    StepShape(log, tools, resources, server, decode, script, query);
    match Step(log, tools, resources, server, decode, script, query)
    case Done(_) =>
    case Recurse(fx, next, rest, text) =>
      ResolveResourceFirst(next, tools, resources, server, decode, rest, text);
      var later := Resolve(next, tools, resources, server, decode, rest, text).effects;
      assert ResourcesFirst(fx, resources);
      ResourcesFirstAppend(fx, later, resources);
  }

  lemma ResourcesFirstAppend(e1: seq<Effect>, e2: seq<Effect>, resources: map<string, string>)
    requires ResourcesFirst(e1, resources) && ResourcesFirst(e2, resources)
    ensures ResourcesFirst(e1 + e2, resources)
  {
    forall i | 0 <= i < |e1 + e2|
      ensures (e1 + e2)[i].Invoke? ==> (e1 + e2)[i].name !in resources
      ensures (e1 + e2)[i].Read? ==> (e1 + e2)[i].uri in resources.Values
    {
      if i >= |e1| {
        assert (e1 + e2)[i] == e2[i - |e1|];
      } else {
        assert (e1 + e2)[i] == e1[i];
      }
    }
  }

  /** Each gateway call was offered the given tool catalogue and a prefix
      of the final log that extends the initial one and ends in a user
      message. */
  predicate GatewayPrefixes(effects: seq<Effect>, tools: seq<FunctionTool>, log: seq<Message>, final: seq<Message>)
  {
    forall i :: 0 <= i < |effects| && effects[i].Completion? ==>
      effects[i].tools == tools && log < effects[i].messages <= final && effects[i].messages[|effects[i].messages| - 1].role == User
  }

  /** A later gateway call sees a strictly longer log. */
  predicate GatewayOrdered(effects: seq<Effect>)
  {
    forall i, j :: 0 <= i < j < |effects| && effects[i].Completion? && effects[j].Completion? ==>
      |effects[i].messages| < |effects[j].messages|
  }

  /** Every user message logged after the initial log was followed by a
      gateway call on the log up to and including it. */
  predicate GatewayCovers(effects: seq<Effect>, tools: seq<FunctionTool>, log: seq<Message>, final: seq<Message>)
  {
    forall j :: |log| <= j < |final| && final[j].role == User ==> Completion(tools, final[..j + 1]) in effects
  }

  /** The gateway calls, in order, are one per user message logged after
      the initial log, each offered the catalogue and the log as it stood
      right after that user message. */
  predicate GatewaySaw(effects: seq<Effect>, tools: seq<FunctionTool>, log: seq<Message>, final: seq<Message>)
  {
    GatewayPrefixes(effects, tools, log, final) && GatewayOrdered(effects) && GatewayCovers(effects, tools, log, final)
  }

  lemma PrefixesAppend(e1: seq<Effect>, e2: seq<Effect>, tools: seq<FunctionTool>,
                       log: seq<Message>, mid: seq<Message>, final: seq<Message>)
    requires GatewayPrefixes(e1, tools, log, mid) && GatewayPrefixes(e2, tools, mid, final)
    requires log <= mid <= final
    ensures GatewayPrefixes(e1 + e2, tools, log, final)
  {
    forall i | 0 <= i < |e1 + e2| && (e1 + e2)[i].Completion?
      ensures log < (e1 + e2)[i].messages <= final
    {
      if i < |e1| {
        assert (e1 + e2)[i] == e1[i];
        var seen := e1[i].messages;
        assert final[..|seen|] == final[..|mid|][..|seen|];
      } else {
        assert (e1 + e2)[i] == e2[i - |e1|];
        var seen := e2[i - |e1|].messages;
        assert seen[..|log|] == seen[..|mid|][..|log|];
      }
    }
  }

  lemma OrderedAppend(e1: seq<Effect>, e2: seq<Effect>, tools: seq<FunctionTool>,
                      log: seq<Message>, mid: seq<Message>, final: seq<Message>)
    requires GatewayPrefixes(e1, tools, log, mid) && GatewayPrefixes(e2, tools, mid, final)
    requires GatewayOrdered(e1) && GatewayOrdered(e2)
    ensures GatewayOrdered(e1 + e2)
  {
    forall i, j | 0 <= i < j < |e1 + e2| && (e1 + e2)[i].Completion? && (e1 + e2)[j].Completion?
      ensures |(e1 + e2)[i].messages| < |(e1 + e2)[j].messages|
    {
      if j < |e1| {
        assert (e1 + e2)[i] == e1[i] && (e1 + e2)[j] == e1[j];
      } else if i >= |e1| {
        assert (e1 + e2)[i] == e2[i - |e1|] && (e1 + e2)[j] == e2[j - |e1|];
      } else {
        assert (e1 + e2)[i] == e1[i] && (e1 + e2)[j] == e2[j - |e1|];
      }
    }
  }

  lemma CoversAppend(e1: seq<Effect>, e2: seq<Effect>, tools: seq<FunctionTool>,
                     log: seq<Message>, mid: seq<Message>, final: seq<Message>)
    requires GatewayCovers(e1, tools, log, mid) && GatewayCovers(e2, tools, mid, final)
    requires log <= mid <= final
    ensures GatewayCovers(e1 + e2, tools, log, final)
  {
    forall j | |log| <= j < |final| && final[j].role == User
      ensures Completion(tools, final[..j + 1]) in e1 + e2
    {
      if j < |mid| {
        assert final[j] == mid[j];
        assert final[..j + 1] == mid[..j + 1];
      }
    }
  }

  /** Calls made against a log, then calls made against an extension of it. */
  lemma GatewaySawAppend(e1: seq<Effect>, e2: seq<Effect>, tools: seq<FunctionTool>,
                         log: seq<Message>, mid: seq<Message>, final: seq<Message>)
    requires GatewaySaw(e1, tools, log, mid) && GatewaySaw(e2, tools, mid, final)
    requires log <= mid <= final
    ensures GatewaySaw(e1 + e2, tools, log, final)
  {
    PrefixesAppend(e1, e2, tools, log, mid, final);
    OrderedAppend(e1, e2, tools, log, mid, final);
    CoversAppend(e1, e2, tools, log, mid, final);
  }

  /** A level that logs one user message, calls the gateway once on the log
      ending there, and logs no other user message. */
  lemma LevelGatewaySees(fx: seq<Effect>, tools: seq<FunctionTool>, log: seq<Message>, asked: seq<Message>, next: seq<Message>)
    requires |asked| == |log| + 1 && log <= asked && asked[|log|].role == User && asked <= next
    requires forall j :: |asked| <= j < |next| ==> next[j].role != User
    requires 1 <= |fx| <= 2 && fx[0] == Completion(tools, asked) && (|fx| == 2 ==> !fx[1].Completion?)
    ensures GatewaySaw(fx, tools, log, next)
  {
    forall j | |log| <= j < |next| && next[j].role == User
      ensures Completion(tools, next[..j + 1]) in fx
    {
      assert j == |log|;
      assert next[..j + 1] == asked;
    }
  }

  /** One level calls the gateway with the catalogue, on the log it has
      built so far. */
  lemma StepGatewaySees(log: seq<Message>, tools: seq<FunctionTool>, resources: map<string, string>, server: Server,
                        decode: Decoder, script: seq<Reply>, query: string)
    ensures match Step(log, tools, resources, server, decode, script, query)
      case Done(r) => GatewaySaw(r.effects, tools, log, r.log)
      case Recurse(fx, next, _, _) => GatewaySaw(fx, tools, log, next)
  {
    StepShape(log, tools, resources, server, decode, script, query);
    StepUserOnce(log, tools, resources, server, decode, script, query);
    var asked := log + [Message(User, Some(Strip(query)))];
    match Step(log, tools, resources, server, decode, script, query)
    case Done(r) =>
      if Strip(query) != [] {
        LevelGatewaySees(r.effects, tools, log, asked, r.log);
      }
    case Recurse(fx, next, _, _) =>
      LevelGatewaySees(fx, tools, log, asked, next);
  }

  /** The gateway is always offered the client's tool catalogue and the
      conversation so far, ending with the query it is asked about. */
  lemma {:induction false} ResolveGatewaySees(log: seq<Message>, tools: seq<FunctionTool>, resources: map<string, string>, server: Server,
                                              decode: Decoder, script: seq<Reply>, query: string)
    ensures var r := Resolve(log, tools, resources, server, decode, script, query);
      GatewaySaw(r.effects, tools, log, r.log)
    decreases |script|
  {
    StepGatewaySees(log, tools, resources, server, decode, script, query);
    match Step(log, tools, resources, server, decode, script, query)
    case Done(r) =>
    case Recurse(fx, next, rest, text) =>
      ResolveGatewaySees(next, tools, resources, server, decode, rest, text);
      ResolveAppendOnly(next, tools, resources, server, decode, rest, text);
      ResolveAppendOnly(log, tools, resources, server, decode, script, query);
      var r := Resolve(next, tools, resources, server, decode, rest, text);
      StepShape(log, tools, resources, server, decode, script, query);
      GatewaySawAppend(fx, r.effects, tools, log, next, r.log);
  }

  /** A reply with only its first tool call left. */
  function FirstCallOnly(reply: Reply): Reply
  {
    reply.(calls := if reply.calls == [] then [] else reply.calls[..1])
  }

  function FirstCallsOnly(script: seq<Reply>): seq<Reply>
  {
    seq(|script|, i requires 0 <= i < |script| => FirstCallOnly(script[i]))
  }

  /** A level as it reads when the replies still to come keep only their
      first tool call. */
  function CutRest(l: Level): Level
  {
    match l
    case Done(r) => Done(r.(rest := FirstCallsOnly(r.rest)))
    case Recurse(fx, next, rest, text) => Recurse(fx, next, FirstCallsOnly(rest), text)
  }

  lemma DispatchCut(asked: seq<Message>, resources: map<string, string>, server: Server,
                    decode: Decoder, call: ToolCall, rest: seq<Reply>)
    ensures Dispatch(asked, resources, server, decode, call, FirstCallsOnly(rest))
         == CutRest(Dispatch(asked, resources, server, decode, call, rest))
  {
  }

  /** One level acts on the first tool call of the first reply only. */
  lemma StepCut(log: seq<Message>, tools: seq<FunctionTool>, resources: map<string, string>, server: Server,
                decode: Decoder, script: seq<Reply>, query: string)
    ensures Step(log, tools, resources, server, decode, FirstCallsOnly(script), query)
         == CutRest(Step(log, tools, resources, server, decode, script, query))
  {
    var cut := FirstCallsOnly(script);
    if script == [] {
      assert cut == [];
    } else {
      var asked := log + [Message(User, Some(Strip(query)))];
      assert cut[1..] == FirstCallsOnly(script[1..]);
      if script[0].calls != [] {
        assert cut[0].calls[0] == script[0].calls[0];
        DispatchCut(asked, resources, server, decode, script[0].calls[0], script[1..]);
      }
    }
  }

  /** The client acts on the first tool call of each reply only: dropping the
      others changes neither the answer, nor the log, nor any external call. */
  lemma {:induction false} ResolveFirstCallOnly(log: seq<Message>, tools: seq<FunctionTool>, resources: map<string, string>, server: Server,
                                                decode: Decoder, script: seq<Reply>, query: string)
    ensures var r := Resolve(log, tools, resources, server, decode, script, query);
      var f := Resolve(log, tools, resources, server, decode, FirstCallsOnly(script), query);
      r.outcome == f.outcome && r.log == f.log && r.effects == f.effects && f.rest == FirstCallsOnly(r.rest)
    decreases |script|
  {
    StepCut(log, tools, resources, server, decode, script, query);
    match Step(log, tools, resources, server, decode, script, query)
    case Done(_) =>
    case Recurse(_, next, rest, text) =>
      ResolveFirstCallOnly(next, tools, resources, server, decode, rest, text);
  }
}
