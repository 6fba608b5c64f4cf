/** The tool-resolution loop: the stored conversation is turned into the outbound request,
    and each reply that asks for tools is answered by running them, recording the calls
    and results in the conversation, and asking again, at most three times. */
module ToolLoop {
  import opened Wrappers
  import opened JavaString
  import opened Domain
  import opened ConversationModel

  const MaxIterations: nat := 3
  const UnknownToolPrefix: string := "Unknown tool: "
  const InvalidJsonPrefix: string := "Invalid JSON: "
  const ErrorKey: string := "error"
  const DefaultError: string := "Error"
  const AssistantIdPrefix: string := "asst_"
  const ToolIdPrefix: string := "tool_"
  const LoopError: string := "ERROR: tool loop did not resolve to a final assistant message."

  /** A tool call in a completion; only function calls are executed. */
  datatype CompletionCall = CompletionCall(isFunction: bool, id: string, name: string, arguments: Option<string>)

  /** The first choice's message: optional text and the requested tool calls. */
  datatype CompletionMessage = CompletionMessage(content: Option<string>, toolCalls: seq<CompletionCall>)

  datatype Completion = Completion(choices: seq<CompletionMessage>)

  /** A tool call as sent back inside an assistant message, with JSON-encoded arguments. */
  datatype WireCall = WireCall(id: string, name: string, arguments: string)

  /** The messages the request builder accumulates. */
  datatype WireMessage =
    | WireSystem(text: string)
    | WireUser(text: string)
    | WireAssistant(assistantText: Option<string>, calls: seq<WireCall>)
    | WireTool(toolCallId: string, text: string)
    | WireEcho(reply: CompletionMessage)
    | WireToolResult(toolCallId: string, result: Json)

  datatype Request = Request(model: string, tools: seq<string>, messages: seq<WireMessage>)

  /** A tool: its name and what it does with parsed arguments. `Err(None)` is an exception
      without a message. */
  datatype Tool = Tool(name: string, execute: map<string, Json> -> Result<Json, Option<string>>)

  /** What respond returns, or the message of the exception it lets escape. */
  datatype Outcome = Reply(text: string) | Thrown(message: string)

  /** The fixed part of every message the loop records: the conversation it belongs to,
      the provider tag, the model name, the clock and the random id suffixes (by message
      index). */
  datatype Stamp = Stamp(conversationId: string, provider: Provider, model: string, now: int,
                         shortId: nat -> string)

  datatype RunResult = RunResult(outcome: Outcome, messages: seq<ChatMessage>, endpointCalls: nat)

  /** The end of one round trip: finished, or the state the next round starts from. */
  datatype StepResult =
    | Done(outcome: Outcome, messages: seq<ChatMessage>)
    | Continue(wire: seq<WireMessage>, messages: seq<ChatMessage>)

  // ---------------------------------------------------------------- outbound filter

  function ContentOrEmpty(m: ChatMessage): string {
    m.content.GetOr("")
  }

  predicate HasContent(m: ChatMessage) {
    m.content.Some? && !IsBlank(m.content.value)
  }

  /** shouldSkipMessage. `isLast` says whether `m` is the history's final message. */
  predicate ShouldSkip(m: ChatMessage, isLast: bool)
    ensures HasContent(m) && (isLast || m.source != INTERNAL) ==> !ShouldSkip(m, isLast)
    ensures m.source == INTERNAL && !isLast ==> ShouldSkip(m, isLast)
    ensures ShouldSkip(m, isLast) && m.source != INTERNAL ==>
      !HasContent(m) && |m.toolCalls| == 0 && !(m.role == TOOL && m.toolCallId.Some?)
  {
    var hasToolCalls := |m.toolCalls| > 0;
    var isToolResponse := m.role == TOOL && m.toolCallId.Some?;
    if !HasContent(m) && !hasToolCalls && !isToolResponse then true
    else m.source == INTERNAL && !isLast
  }

  /** toJson: "{}" for no arguments, otherwise the serialiser's text. */
  function ArgumentsJson(serialize: map<string, Json> -> string, args: map<string, Json>): (r: string)
    ensures args == map[] ==> r == "{}"
  {
    if |args| == 0 then "{}" else serialize(args)
  }

  function WireCalls(serialize: map<string, Json> -> string, calls: seq<ToolCall>): (r: seq<WireCall>)
    ensures |r| == |calls|
    ensures forall i | 0 <= i < |calls| :: r[i].id == calls[i].id && r[i].name == calls[i].name
  {
    if |calls| == 0 then []
    else
      [WireCall(calls[0].id, calls[0].name, ArgumentsJson(serialize, calls[0].arguments))]
      + WireCalls(serialize, calls[1..])
  }

  /** appendMessage: the wire message a stored message becomes, if any. */
  function AppendMessage(serialize: map<string, Json> -> string, m: ChatMessage): (r: seq<WireMessage>)
    ensures |r| <= 1
  {
    var content := ContentOrEmpty(m);
    match m.role
    case SYSTEM => if !IsBlank(content) then [WireSystem(content)] else []
    case USER => if m.source == USER_INPUT && !IsBlank(content) then [WireUser(content)] else []
    case ASSISTANT =>
      if m.source != LLM_OUTPUT then []
      else if |m.toolCalls| > 0 then
        [WireAssistant(if !IsBlank(content) then Some(content) else None, WireCalls(serialize, m.toolCalls))]
      else if !IsBlank(content) then [WireAssistant(Some(content), [])]
      else []
    case TOOL =>
      if m.toolCallId.None? || IsBlank(content) then [] else [WireTool(m.toolCallId.value, content)]
  }

  function Emit(serialize: map<string, Json> -> string, m: ChatMessage, isLast: bool): seq<WireMessage> {
    if ShouldSkip(m, isLast) then [] else AppendMessage(serialize, m)
  }

  /** The provenance rule, stated on its own: a stored message goes on the wire exactly
      when it is not an internal message before the last one, and
      - a SYSTEM message has non-blank content;
      - a USER message was typed by the user and has non-blank content;
      - an ASSISTANT message came from the model and has tool calls or non-blank content;
      - a TOOL message has a tool-call id and non-blank content. */
  predicate Sent(m: ChatMessage, isLast: bool) {
    (m.source != INTERNAL || isLast)
    && match m.role
       case SYSTEM => HasContent(m)
       case USER => m.source == USER_INPUT && HasContent(m)
       case ASSISTANT => m.source == LLM_OUTPUT && (|m.toolCalls| > 0 || HasContent(m))
       case TOOL => m.toolCallId.Some? && HasContent(m)
  }

  lemma BlankContentOrEmpty(m: ChatMessage)
    ensures IsBlank(ContentOrEmpty(m)) <==> !HasContent(m)
  {
  }

  /** The skip rule and appendMessage together send exactly the messages `Sent` admits, one
      wire message each. */
  lemma {:induction false} EmitIffSent(serialize: map<string, Json> -> string, m: ChatMessage, isLast: bool)
    ensures |Emit(serialize, m, isLast)| == (if Sent(m, isLast) then 1 else 0)
  {
    BlankContentOrEmpty(m);
  }

  /** An INTERNAL user message never reaches the wire, not even as the last message. */
  lemma InternalUserNeverSent(serialize: map<string, Json> -> string, m: ChatMessage, isLast: bool)
    requires m.role == USER && m.source == INTERNAL
    ensures Emit(serialize, m, isLast) == []
  {
    EmitIffSent(serialize, m, isLast);
  }

  /** The wire form of the first `n` stored messages; the last message of `msgs` is the
      only one allowed through when internal. */
  function WirePrefix(serialize: map<string, Json> -> string, msgs: seq<ChatMessage>, n: nat): (r: seq<WireMessage>)
    requires n <= |msgs|
    ensures |r| <= n
  {
    if n == 0 then []
    else WirePrefix(serialize, msgs, n - 1) + Emit(serialize, msgs[n - 1], n - 1 == |msgs| - 1)
  }

  /** The positions below `n` that satisfy `p`. */
  ghost function Positions(p: nat -> bool, n: nat): set<nat> {
    set i: nat | i < n && p(i)
  }

  /** Whether the message at a position of `msgs` is sent. */
  function SentAt(msgs: seq<ChatMessage>): nat -> bool {
    (i: nat) => i < |msgs| && Sent(msgs[i], i == |msgs| - 1)
  }

  /** The positions among the first `n` whose message `Sent` admits. */
  ghost function SentPositions(msgs: seq<ChatMessage>, n: nat): set<nat>
    requires n <= |msgs|
  {
    Positions(SentAt(msgs), n)
  }

  /** The wire prefix holds exactly one message per stored position that `Sent` admits:
      its length is the number of those positions. */
  lemma {:induction false} WirePrefixCount(serialize: map<string, Json> -> string, msgs: seq<ChatMessage>, n: nat)
    requires n <= |msgs|
    ensures |WirePrefix(serialize, msgs, n)| == |SentPositions(msgs, n)|
  {
    if n > 0 {
      WirePrefixCount(serialize, msgs, n - 1);
      EmitIffSent(serialize, msgs[n - 1], n - 1 == |msgs| - 1);
      PositionsStep(SentAt(msgs), n);
    }
  }

  /** One more position adds itself exactly when it satisfies the predicate. */
  lemma PositionsStep(p: nat -> bool, n: nat)
    requires 0 < n
    ensures |Positions(p, n)| == |Positions(p, n - 1)| + (if p(n - 1) then 1 else 0)
  {
    var before := Positions(p, n - 1);
    if p(n - 1) {
      assert n - 1 !in before;
      assert Positions(p, n) == before + {n - 1};
    } else {
      assert Positions(p, n) == before;
    }
  }

  // ---------------------------------------------------------------- the executor

  class ToolExecutor {
    /** The chat endpoint: a completion, or the message of the exception it throws. */
    const chat: Request -> Result<Completion, string>
    const tools: seq<Tool>
    /** Jackson's reading of an argument string into a map; None when it fails. */
    const parseJson: string -> Option<map<string, Json>>
    /** Jackson's compact and pretty-printed writers. */
    const writeArgs: map<string, Json> -> string
    const writePretty: Json -> string

    constructor (chat: Request -> Result<Completion, string>, tools: seq<Tool>,
                 parseJson: string -> Option<map<string, Json>>,
                 writeArgs: map<string, Json> -> string, writePretty: Json -> string)
      ensures this.chat == chat && this.tools == tools && this.parseJson == parseJson
      ensures this.writeArgs == writeArgs && this.writePretty == writePretty
    {
      this.chat := chat;
      this.tools := tools;
      this.parseJson := parseJson;
      this.writeArgs := writeArgs;
      this.writePretty := writePretty;
    }

    function ToolNames(ts: seq<Tool>): (r: seq<string>)
      ensures |r| == |ts| && forall i | 0 <= i < |ts| :: r[i] == ts[i].name
    {
      if |ts| == 0 then [] else [ts[0].name] + ToolNames(ts[1..])
    }

    /** parseArgs: no arguments for null or blank text, otherwise the parsed map, or an
        IllegalArgumentException naming the text. */
    function ParseArgs(json: Option<string>): (r: Result<map<string, Json>, string>)
      ensures json.None? || IsBlank(json.value) ==> r == Ok(map[])
      ensures json.Some? && !IsBlank(json.value) ==>
        (parseJson(json.value).Some? ==> r == Ok(parseJson(json.value).value))
        && (parseJson(json.value).None? ==> r == Err(InvalidJsonPrefix + json.value))
    {
      match json
      case None => Ok(map[])
      case Some(s) =>
        if IsBlank(s) then Ok(map[])
        else match parseJson(s)
          case Some(m) => Ok(m)
          case None => Err(InvalidJsonPrefix + s)
    }

    /** The function calls among a reply's tool calls, in order. */
    function Functions(calls: seq<CompletionCall>): (r: seq<CompletionCall>)
      ensures |r| <= |calls|
    {
      if |calls| == 0 then []
      else (if calls[0].isFunction then [calls[0]] else []) + Functions(calls[1..])
    }

    /** Exactly the function calls are kept. */
    lemma {:induction false} FunctionsKeepsFunctions(calls: seq<CompletionCall>)
      ensures forall c | c in Functions(calls) :: c in calls && c.isFunction
      ensures forall c | c in calls && c.isFunction :: c in Functions(calls)
    {
      if |calls| > 0 {
        FunctionsKeepsFunctions(calls[1..]);
        assert calls == [calls[0]] + calls[1..];
      }
    }

    /** toDomainToolCall for every call, in order; the first argument string that does not
        parse aborts with its exception. */
    function DomainCalls(calls: seq<CompletionCall>): (r: Result<seq<ToolCall>, string>)
      ensures r.Ok? <==> forall i | 0 <= i < |calls| :: ParseArgs(calls[i].arguments).Ok?
      ensures r.Ok? ==> |r.value| == |calls|
      ensures r.Ok? ==> forall i | 0 <= i < |calls| ::
        r.value[i].id == calls[i].id && r.value[i].name == calls[i].name && r.value[i].status == PENDING
    {
      if |calls| == 0 then Ok([])
      else match ParseArgs(calls[0].arguments)
        case Err(e) => Err(e)
        case Ok(args) =>
          match DomainCalls(calls[1..])
          case Err(e) =>
            Err(e)
          case Ok(rest) =>
            Ok([ToolCall(calls[0].id, calls[0].id, calls[0].name, args, PENDING)] + rest)
    }

    /** A failed conversion reports the exception of the first call whose arguments do
        not parse. */
    lemma {:induction false} DomainCallsFirstError(calls: seq<CompletionCall>)
      requires DomainCalls(calls).Err?
      ensures exists i | 0 <= i < |calls| ::
        ParseArgs(calls[i].arguments).Err? && DomainCalls(calls).error == ParseArgs(calls[i].arguments).error
        && forall j | 0 <= j < i :: ParseArgs(calls[j].arguments).Ok?
      decreases |calls|
    {
      if ParseArgs(calls[0].arguments).Ok? {
        var rest := calls[1..];
        DomainCallsFirstError(rest);
        var i :| 0 <= i < |rest| && ParseArgs(rest[i].arguments).Err?
          && DomainCalls(rest).error == ParseArgs(rest[i].arguments).error
          && forall j | 0 <= j < i :: ParseArgs(rest[j].arguments).Ok?;
        assert rest[i] == calls[i + 1];
        assert forall j | 0 < j <= i :: rest[j - 1] == calls[j];
      }
    }

    /** The first tool with the given name. */
    function FindTool(ts: seq<Tool>, name: string): (r: Option<Tool>)
      ensures r.Some? ==> r.value in ts && r.value.name == name
      ensures r.None? <==> forall t | t in ts :: t.name != name
    {
      if |ts| == 0 then None
      else if ts[0].name == name then Some(ts[0])
      else FindTool(ts[1..], name)
    }

    /** The object executeAndSave records for a call: the tool's value, or an "error" map
        holding the exception message ("Error" when it has none). */
    function ToolResult(name: string, args: map<string, Json>): (r: Json)
      ensures (forall t | t in tools :: t.name != name) ==> r == JObj(map[ErrorKey := JStr(UnknownToolPrefix + name)])
      ensures (exists t | t in tools :: t.name == name && t.execute(args) == Ok(r))
        || exists message :: r == JObj(map[ErrorKey := JStr(message)])
    {
      match FindTool(tools, name)
      case None => JObj(map[ErrorKey := JStr(UnknownToolPrefix + name)])
      case Some(tool) =>
        match tool.execute(args)
        case Ok(value) => value
        case Err(message) => JObj(map[ErrorKey := JStr(message.GetOr(DefaultError))])
    }

    /** An unknown tool name and a failing tool both yield an "error" object; only the
        first tool of a name is ever run. */
    lemma ToolResultErrors(name: string, args: map<string, Json>)
      ensures (forall t | t in tools :: t.name != name) ==>
        ToolResult(name, args) == JObj(map[ErrorKey := JStr(UnknownToolPrefix + name)])
      ensures forall i | 0 <= i < |tools| && tools[i].name == name && (forall j | 0 <= j < i :: tools[j].name != name) ::
        ToolResult(name, args)
          == match tools[i].execute(args)
             case Ok(value) => value
             case Err(message) => JObj(map[ErrorKey := JStr(message.GetOr(DefaultError))])
    {
      forall i | 0 <= i < |tools| && tools[i].name == name && (forall j | 0 <= j < i :: tools[j].name != name)
        ensures FindTool(tools, name) == Some(tools[i])
      {
        FindToolFirst(tools, name, i);
      }
    }

    /** FindTool returns the first tool carrying the name. */
    lemma {:induction false} FindToolFirst(ts: seq<Tool>, name: string, i: nat)
      requires i < |ts| && ts[i].name == name && forall j | 0 <= j < i :: ts[j].name != name
      ensures FindTool(ts, name) == Some(ts[i])
      decreases i
    {
      if i > 0 {
        FindToolFirst(ts[1..], name, i - 1);
      }
    }

    /** The ASSISTANT message saveAssistantMessage records at index `index`. */
    function AssistantRecord(reply: CompletionMessage, calls: seq<ToolCall>, index: nat, stamp: Stamp): (m: ChatMessage)
      ensures m.role == ASSISTANT && m.source == LLM_OUTPUT && m.index == index && m.toolCalls == calls
    {
      ChatMessage(AssistantIdPrefix + stamp.shortId(index), stamp.conversationId, index, ASSISTANT, LLM_OUTPUT,
        Some(reply.content.GetOr("")), stamp.now, Some(stamp.model), Some(ProviderTag(stamp.provider)), calls, None)
    }

    /** The TOOL message executeAndSave records at index `index`. */
    function ToolRecord(call: CompletionCall, result: Json, index: nat, stamp: Stamp): (m: ChatMessage)
      ensures m.role == TOOL && m.source == TOOL_OUTPUT && m.index == index && m.toolCallId == Some(call.id)
    {
      ChatMessage(ToolIdPrefix + stamp.shortId(index), stamp.conversationId, index, TOOL, TOOL_OUTPUT,
        Some(writePretty(result)), stamp.now, Some(stamp.model), Some(ProviderTag(stamp.provider)), [], Some(call.id))
    }

    /** executeAndSave for each call in order: one TOOL message and one wire result each. */
    function ExecuteAll(calls: seq<CompletionCall>, msgs: seq<ChatMessage>, wire: seq<WireMessage>, stamp: Stamp)
      : (r: Result<(seq<ChatMessage>, seq<WireMessage>), string>)
      ensures r.Ok? ==> |r.value.0| == |msgs| + |calls| && r.value.0[..|msgs|] == msgs
      ensures (forall i | 0 <= i < |calls| :: ParseArgs(calls[i].arguments).Ok?) ==> r.Ok?
      decreases |calls|
    {
      if |calls| == 0 then Ok((msgs, wire))
      else match ParseArgs(calls[0].arguments)
        case Err(e) => Err(e)
        case Ok(args) =>
          var result := ToolResult(calls[0].name, args);
          var msgs1 := msgs + [ToolRecord(calls[0], result, |msgs|, stamp)];
          var r := ExecuteAll(calls[1..], msgs1, wire + [WireToolResult(calls[0].id, result)], stamp);
          assert forall i | 0 <= i < |calls| - 1 :: calls[1..][i] == calls[i + 1];
          assert r.Ok? ==> r.value.0[..|msgs|] == msgs1[..|msgs|];
          r
    }

    /** One round trip: either the final outcome, or the request and history the next
        round starts from. */
    function Step(wire: seq<WireMessage>, msgs: seq<ChatMessage>, stamp: Stamp): (r: StepResult)
      ensures r.Continue? ==> |r.messages| > |msgs| && r.messages[..|msgs|] == msgs
      ensures r.Done? ==> |r.messages| >= |msgs| && r.messages[..|msgs|] == msgs
    {
      match chat(Request(stamp.model, ToolNames(tools), wire))
      case Err(e) => Done(Thrown(e), msgs)
      case Ok(completion) =>
        if |completion.choices| == 0 then Done(Reply(""), msgs)
        else
          var reply := completion.choices[0];
          if |reply.toolCalls| == 0 then Done(Reply(reply.content.GetOr("")), msgs)
          else ToolRound(reply, Functions(reply.toolCalls), wire, msgs, stamp)
    }

    /** The part of a round trip that answers a reply's tool calls; `fcalls` are the
        reply's function calls. */
    function ToolRound(reply: CompletionMessage, fcalls: seq<CompletionCall>, wire: seq<WireMessage>,
                       msgs: seq<ChatMessage>, stamp: Stamp): (r: StepResult)
      ensures r.Continue? ==> |r.messages| > |msgs| && r.messages[..|msgs|] == msgs
      ensures r.Done? ==> |r.messages| >= |msgs| && r.messages[..|msgs|] == msgs
    {
      match DomainCalls(fcalls)
      case Err(e) => Done(Thrown(e), msgs)
      case Ok(domain) =>
        var msgs1 := msgs + [AssistantRecord(reply, domain, |msgs|, stamp)];
        assert msgs1[..|msgs|] == msgs;
        match ExecuteAll(fcalls, msgs1, wire + [WireEcho(reply)], stamp)
        case Err(e) => Done(Thrown(e), msgs1)
        case Ok(next) =>
          assert next.0[..|msgs|] == next.0[..|msgs1|][..|msgs|];
          Continue(next.1, next.0)
    }

    /** `out[k]` is the TOOL message, at index `k`, answering `call`. */
    ghost predicate IsToolRecordFor(out: seq<ChatMessage>, k: nat, call: CompletionCall) {
      k < |out| && out[k].role == TOOL && out[k].source == TOOL_OUTPUT && out[k].index == k
      && out[k].toolCallId == Some(call.id)
    }

    /** Executing the calls records, after the existing history, one TOOL message per
        call in order, each answering its call's id. */
    lemma {:induction false} ExecuteAllRecords(calls: seq<CompletionCall>, msgs: seq<ChatMessage>, wire: seq<WireMessage>, stamp: Stamp)
      requires ExecuteAll(calls, msgs, wire, stamp).Ok?
      ensures forall i | 0 <= i < |calls| :: IsToolRecordFor(ExecuteAll(calls, msgs, wire, stamp).value.0, |msgs| + i, calls[i])
      decreases |calls|
    {
      if |calls| > 0 {
        var args := ParseArgs(calls[0].arguments).value;
        var result := ToolResult(calls[0].name, args);
        var msgs1 := msgs + [ToolRecord(calls[0], result, |msgs|, stamp)];
        var wire1 := wire + [WireToolResult(calls[0].id, result)];
        var r := ExecuteAll(calls, msgs, wire, stamp);
        assert r == ExecuteAll(calls[1..], msgs1, wire1, stamp);
        ExecuteAllRecords(calls[1..], msgs1, wire1, stamp);
        var out := r.value.0;
        forall i | 0 <= i < |calls|
          ensures IsToolRecordFor(out, |msgs| + i, calls[i])
        {
          if i == 0 {
            assert out[|msgs|] == out[..|msgs1|][|msgs|];
            assert out[|msgs|] == ToolRecord(calls[0], result, |msgs|, stamp);
          } else {
            var j := i - 1;
            assert calls[1..][j] == calls[i];
            assert IsToolRecordFor(out, |msgs1| + j, calls[1..][j]);
            assert |msgs1| + j == |msgs| + i;
          }
        }
      }
    }

    /** The loop with `steps` round trips left, from request messages `wire` and stored
        history `msgs`. It never calls the endpoint more often than it has rounds, and only
        ever appends to the history. */
    function Run(steps: nat, wire: seq<WireMessage>, msgs: seq<ChatMessage>, stamp: Stamp): (r: RunResult)
      ensures r.endpointCalls <= steps
      ensures steps > 0 ==> r.endpointCalls >= 1
      ensures |r.messages| >= |msgs| && r.messages[..|msgs|] == msgs
      decreases steps
    {
      if steps == 0 then RunResult(Reply(LoopError), msgs, 0)
      else
        match Step(wire, msgs, stamp)
        case Done(outcome, msgs') => RunResult(outcome, msgs', 1)
        case Continue(wire', msgs') =>
          var rest := Run(steps - 1, wire', msgs', stamp);
          assert rest.messages[..|msgs|] == rest.messages[..|msgs'|][..|msgs|];
          RunResult(rest.outcome, rest.messages, rest.endpointCalls + 1)
    }

    /** The model the request names: a non-blank override, else the conversation's. */
    static function ChooseModel(modelOverride: Option<string>, defaultModel: string): (r: string)
      ensures modelOverride.Some? && !IsBlank(modelOverride.value) ==> r == modelOverride.value
      ensures modelOverride.None? || IsBlank(modelOverride.value) ==> r == defaultModel
    {
      if modelOverride.Some? && !IsBlank(modelOverride.value) then modelOverride.value else defaultModel
    }

    /** buildParams' message loop: the wire form of the stored history. */
    method BuildWire(msgs: seq<ChatMessage>) returns (wire: seq<WireMessage>)
      ensures wire == WirePrefix(writeArgs, msgs, |msgs|)
    {
      wire := [];
      var i := 0;
      while i < |msgs|
        invariant 0 <= i <= |msgs|
        invariant wire == WirePrefix(writeArgs, msgs, i)
      {
        var isLast := i == |msgs| - 1;
        if !ShouldSkip(msgs[i], isLast) {
          wire := wire + AppendMessage(writeArgs, msgs[i]);
        }
        i := i + 1;
      }
    }

    /** executeAndSave: records one TOOL message and adds the result to the request. */
    method ExecuteAndSave(conversation: Conversation, wire: seq<WireMessage>, call: CompletionCall, stamp: Stamp)
      returns (failure: Option<string>, wire': seq<WireMessage>)
      modifies conversation
      ensures var expected := ExecuteAll([call], old(conversation.messages), wire, stamp);
        && (expected.Err? ==> failure == Some(expected.error) && conversation.messages == old(conversation.messages))
        && (expected.Ok? ==> failure.None? && conversation.messages == expected.value.0 && wire' == expected.value.1)
      ensures conversation.id == old(conversation.id) && conversation.provider == old(conversation.provider)
      ensures conversation.defaultModel == old(conversation.defaultModel)
    {
      wire' := wire;
      var parsed := ParseArgs(call.arguments);
      if parsed.Err? {
        return Some(parsed.error), wire';
      }
      var result := ToolResult(call.name, parsed.value);
      conversation.AddMessage(ToolRecord(call, result, |conversation.messages|, stamp), stamp.now);
      wire' := wire + [WireToolResult(call.id, result)];
      failure := None;
    }

    /** The tool-call loop of one round: executeAndSave for each call in order. */
    method ExecuteCalls(conversation: Conversation, calls: seq<CompletionCall>, wire: seq<WireMessage>, stamp: Stamp)
      returns (failure: Option<string>, wire': seq<WireMessage>)
      modifies conversation
      ensures var expected := ExecuteAll(calls, old(conversation.messages), wire, stamp);
        && (expected.Err? <==> failure.Some?)
        && (expected.Err? ==> failure.value == expected.error)
        && (expected.Ok? ==> conversation.messages == expected.value.0 && wire' == expected.value.1)
      ensures conversation.id == old(conversation.id) && conversation.provider == old(conversation.provider)
      ensures conversation.defaultModel == old(conversation.defaultModel)
    {
      wire' := wire;
      var i := 0;
      while i < |calls|
        invariant 0 <= i <= |calls|
        invariant conversation.id == old(conversation.id) && conversation.provider == old(conversation.provider)
        invariant conversation.defaultModel == old(conversation.defaultModel)
        invariant ExecuteAll(calls, old(conversation.messages), wire, stamp)
               == ExecuteAll(calls[i..], conversation.messages, wire', stamp)
      {
        failure, wire' := ExecuteAndSave(conversation, wire', calls[i], stamp);
        if failure.Some? {
          return;
        }
        assert calls[i..][1..] == calls[i + 1..];
        i := i + 1;
      }
      assert calls[i..] == [];
      failure := None;
    }

    /** One round trip of respond against the conversation. */
    method Round(conversation: Conversation, wire: seq<WireMessage>, stamp: Stamp)
      returns (done: Option<Outcome>, wire': seq<WireMessage>)
      modifies conversation
      ensures var expected := Step(wire, old(conversation.messages), stamp);
        && (expected.Done? <==> done.Some?)
        && (expected.Done? ==> done.value == expected.outcome)
        && (expected.Continue? ==> wire' == expected.wire)
        && conversation.messages == expected.messages
      ensures conversation.id == old(conversation.id) && conversation.provider == old(conversation.provider)
      ensures conversation.defaultModel == old(conversation.defaultModel)
    {
      wire' := wire;
      var answer := chat(Request(stamp.model, ToolNames(tools), wire));
      if answer.Err? {
        return Some(Thrown(answer.error)), wire';
      }
      var completion := answer.value;
      if |completion.choices| == 0 {
        return Some(Reply("")), wire';
      }
      var reply := completion.choices[0];
      if |reply.toolCalls| == 0 {
        return Some(Reply(reply.content.GetOr(""))), wire';
      }
      var functionCalls := Functions(reply.toolCalls);
      var domain := DomainCalls(functionCalls);
      if domain.Err? {
        return Some(Thrown(domain.error)), wire';
      }
      conversation.AddMessage(AssistantRecord(reply, domain.value, |conversation.messages|, stamp), stamp.now);
      var failure;
      // The arguments already parsed once, so executing the calls cannot fail.
      failure, wire' := ExecuteCalls(conversation, functionCalls, wire + [WireEcho(reply)], stamp);
      done := None;
    }

    /** respond: runs at most three round trips and records the tool traffic in the
        conversation. The clock and the random id suffixes come in as `now` and
        `shortId`. */
    method Respond(conversation: Conversation, modelOverride: Option<string>, now: int, shortId: nat -> string)
      returns (outcome: Outcome)
      modifies conversation
      ensures var stamp := Stamp(conversation.id, conversation.provider,
                                 ChooseModel(modelOverride, conversation.defaultModel), now, shortId);
        var run := Run(MaxIterations, WirePrefix(writeArgs, old(conversation.messages), |old(conversation.messages)|),
                       old(conversation.messages), stamp);
        outcome == run.outcome && conversation.messages == run.messages
      ensures conversation.id == old(conversation.id) && conversation.provider == old(conversation.provider)
      ensures conversation.defaultModel == old(conversation.defaultModel)
    {
      var wire := BuildWire(conversation.messages);
      var stamp := Stamp(conversation.id, conversation.provider,
                         ChooseModel(modelOverride, conversation.defaultModel), now, shortId);
      ghost var goal := Run(MaxIterations, wire, conversation.messages, stamp);
      var step := 0;
      while step < MaxIterations
        invariant 0 <= step <= MaxIterations
        invariant conversation.id == stamp.conversationId && conversation.provider == stamp.provider
        invariant conversation.defaultModel == old(conversation.defaultModel)
        invariant Run(MaxIterations - step, wire, conversation.messages, stamp).outcome == goal.outcome
        invariant Run(MaxIterations - step, wire, conversation.messages, stamp).messages == goal.messages
      {
        ghost var before, wireBefore := conversation.messages, wire;
        var done;
        done, wire := Round(conversation, wire, stamp);
        RunUnfold(MaxIterations - step, wireBefore, before, stamp);
        if done.Some? {
          return done.value;
        }
        step := step + 1;
      }
      return Reply(LoopError);
    }

    /** One round of the loop: a finished round ends it, otherwise the remaining rounds
        run from where this one left the request and the history. */
    lemma RunUnfold(steps: nat, wire: seq<WireMessage>, msgs: seq<ChatMessage>, stamp: Stamp)
      requires steps > 0
      ensures var st := Step(wire, msgs, stamp);
        var run := Run(steps, wire, msgs, stamp);
        && (st.Done? ==> run == RunResult(st.outcome, st.messages, 1))
        && (st.Continue? ==>
              var rest := Run(steps - 1, st.wire, st.messages, stamp);
              run == RunResult(rest.outcome, rest.messages, rest.endpointCalls + 1))
    {
    }

    /** What the endpoint answers to a request for `model` carrying `wire`. */
    function Answer(model: string, wire: seq<WireMessage>): Result<Completion, string> {
      chat(Request(model, ToolNames(tools), wire))
    }

    /** The function calls of the first choice of a completion that asks for tools and
        whose argument strings all parse. */
    predicate AsksForTools(answer: Result<Completion, string>) {
      && answer.Ok? && |answer.value.choices| > 0 && |answer.value.choices[0].toolCalls| > 0
      && var fs := Functions(answer.value.choices[0].toolCalls);
         forall i | 0 <= i < |fs| :: ParseArgs(fs[i].arguments).Ok?
    }

    /** A first reply without tool calls ends the loop with its text after one call, and
        records nothing; a completion without choices ends it with "". */
    lemma FinalReply(steps: nat, wire: seq<WireMessage>, msgs: seq<ChatMessage>, stamp: Stamp)
      requires steps > 0
      requires chat(Request(stamp.model, ToolNames(tools), wire)).Ok?
      requires var c := chat(Request(stamp.model, ToolNames(tools), wire)).value;
        |c.choices| == 0 || |c.choices[0].toolCalls| == 0
      ensures var c := chat(Request(stamp.model, ToolNames(tools), wire)).value;
        Run(steps, wire, msgs, stamp)
          == RunResult(Reply(if |c.choices| == 0 then "" else c.choices[0].content.GetOr("")), msgs, 1)
    {
    }

    /** An endpoint that asks for tools every time exhausts the loop: `steps` calls, at least
        one new message per round, and the fixed error text. */
    lemma AlwaysToolsExhausts(steps: nat, wire: seq<WireMessage>, msgs: seq<ChatMessage>, stamp: Stamp)
      requires forall w :: AsksForTools(Answer(stamp.model, w))
      ensures Run(steps, wire, msgs, stamp).outcome == Reply(LoopError)
      ensures Run(steps, wire, msgs, stamp).endpointCalls == steps
      ensures |Run(steps, wire, msgs, stamp).messages| >= |msgs| + steps
      decreases steps
    {
      if steps == 0 {
        RunZero(wire, msgs, stamp);
      } else {
        assert AsksForTools(Answer(stamp.model, wire));
        var wire', msgs' := ToolsRunStep(steps, wire, msgs, stamp);
        AlwaysToolsExhausts(steps - 1, wire', msgs', stamp);
      }
    }

    /** Executing the calls adds one tool result per call to the request messages. */
    lemma {:induction false} ExecuteAllWire(calls: seq<CompletionCall>, msgs: seq<ChatMessage>, wire: seq<WireMessage>, stamp: Stamp)
      requires ExecuteAll(calls, msgs, wire, stamp).Ok?
      ensures |ExecuteAll(calls, msgs, wire, stamp).value.1| == |wire| + |calls|
      decreases |calls|
    {
      if |calls| > 0 {
        var result := ToolResult(calls[0].name, ParseArgs(calls[0].arguments).value);
        var msgs1 := msgs + [ToolRecord(calls[0], result, |msgs|, stamp)];
        var wire1 := wire + [WireToolResult(calls[0].id, result)];
        assert ExecuteAll(calls, msgs, wire, stamp) == ExecuteAll(calls[1..], msgs1, wire1, stamp);
        ExecuteAllWire(calls[1..], msgs1, wire1, stamp);
      }
    }

    /** An endpoint that asks for tools on the first request and answers every later one
        with the same completion without tool calls: the loop calls it twice, returns that
        completion's text, and records one ASSISTANT message holding the calls followed by
        one TOOL message per call. */
    lemma ToolsThenText(steps: nat, wire: seq<WireMessage>, msgs: seq<ChatMessage>, stamp: Stamp, second: Completion)
      requires steps >= 2
      requires AsksForTools(Answer(stamp.model, wire))
      requires |second.choices| == 0 || |second.choices[0].toolCalls| == 0
      requires forall w | w != wire :: Answer(stamp.model, w) == Ok(second)
      ensures var fs := Functions(Answer(stamp.model, wire).value.choices[0].toolCalls);
        var run := Run(steps, wire, msgs, stamp);
        && run.endpointCalls == 2
        && run.outcome == Reply(if |second.choices| == 0 then "" else second.choices[0].content.GetOr(""))
        && RoundRecorded(run.messages, msgs, fs)
    {
      var reply := Answer(stamp.model, wire).value.choices[0];
      var fs := Functions(reply.toolCalls);
      ToolRoundRecords(wire, msgs, stamp);
      var st := Step(wire, msgs, stamp);
      assert st == ToolRound(reply, fs, wire, msgs, stamp);
      ToolRoundOk(reply, fs, wire, msgs, stamp);
      var msgs1 := msgs + [AssistantRecord(reply, DomainCalls(fs).value, |msgs|, stamp)];
      ExecuteAllWire(fs, msgs1, wire + [WireEcho(reply)], stamp);
      assert st.wire != wire;
      assert chat(Request(stamp.model, ToolNames(tools), st.wire)) == Answer(stamp.model, st.wire) == Ok(second);
      RunUnfold(steps, wire, msgs, stamp);
      FinalReply(steps - 1, st.wire, st.messages, stamp);
    }

    /** With no rounds left the loop gives up at once, recording nothing. */
    lemma RunZero(wire: seq<WireMessage>, msgs: seq<ChatMessage>, stamp: Stamp)
      ensures Run(0, wire, msgs, stamp) == RunResult(Reply(LoopError), msgs, 0)
    {
    }

    /** A round that asks for tools is one endpoint call followed by the remaining rounds,
        from a longer history. */
    lemma ToolsRunStep(steps: nat, wire: seq<WireMessage>, msgs: seq<ChatMessage>, stamp: Stamp)
      returns (wire': seq<WireMessage>, msgs': seq<ChatMessage>)
      requires steps > 0 && AsksForTools(chat(Request(stamp.model, ToolNames(tools), wire)))
      ensures |msgs'| > |msgs|
      ensures Run(steps, wire, msgs, stamp).outcome == Run(steps - 1, wire', msgs', stamp).outcome
      ensures Run(steps, wire, msgs, stamp).messages == Run(steps - 1, wire', msgs', stamp).messages
      ensures Run(steps, wire, msgs, stamp).endpointCalls == Run(steps - 1, wire', msgs', stamp).endpointCalls + 1
    {
      ToolRoundContinues(wire, msgs, stamp);
      RunUnfold(steps, wire, msgs, stamp);
      var st := Step(wire, msgs, stamp);
      wire', msgs' := st.wire, st.messages;
    }

    /** A reply asking for tools whose arguments all parse continues the loop, with at
        least one new message. */
    lemma ToolRoundContinues(wire: seq<WireMessage>, msgs: seq<ChatMessage>, stamp: Stamp)
      requires AsksForTools(chat(Request(stamp.model, ToolNames(tools), wire)))
      ensures Step(wire, msgs, stamp).Continue?
      ensures |Step(wire, msgs, stamp).messages| > |msgs|
    {
      var reply := chat(Request(stamp.model, ToolNames(tools), wire)).value.choices[0];
      assert Step(wire, msgs, stamp) == ToolRound(reply, Functions(reply.toolCalls), wire, msgs, stamp);
      ToolRoundOk(reply, Functions(reply.toolCalls), wire, msgs, stamp);
    }

    /** A tool round records one ASSISTANT message holding the function calls as PENDING,
        then one TOOL message per function call, in order, answering that call's id. */
    lemma ToolRoundRecords(wire: seq<WireMessage>, msgs: seq<ChatMessage>, stamp: Stamp)
      requires AsksForTools(chat(Request(stamp.model, ToolNames(tools), wire)))
      ensures var fs := Functions(chat(Request(stamp.model, ToolNames(tools), wire)).value.choices[0].toolCalls);
        var st := Step(wire, msgs, stamp);
        && st.Continue?
        && RoundRecorded(st.messages, msgs, fs)
    {
      var reply := chat(Request(stamp.model, ToolNames(tools), wire)).value.choices[0];
      assert Step(wire, msgs, stamp) == ToolRound(reply, Functions(reply.toolCalls), wire, msgs, stamp);
      ToolRoundShape(reply, Functions(reply.toolCalls), wire, msgs, stamp);
    }

    /** `out` is `msgs`, then the ASSISTANT message carrying one PENDING call per function
        call of `fs` (same ids, same order), then one TOOL message answering each call. */
    ghost predicate RoundRecorded(out: seq<ChatMessage>, msgs: seq<ChatMessage>, fs: seq<CompletionCall>) {
      && |out| == |msgs| + 1 + |fs|
      && out[..|msgs|] == msgs
      && out[|msgs|].role == ASSISTANT && out[|msgs|].source == LLM_OUTPUT
      && |out[|msgs|].toolCalls| == |fs|
      && (forall i | 0 <= i < |fs| ::
            out[|msgs|].toolCalls[i].id == fs[i].id && out[|msgs|].toolCalls[i].status == PENDING)
      && (forall i | 0 <= i < |fs| :: IsToolRecordFor(out, |msgs| + 1 + i, fs[i]))
    }

    /** ToolRoundRecords for the tool-answering part of the round. */
    lemma ToolRoundShape(reply: CompletionMessage, fs: seq<CompletionCall>, wire: seq<WireMessage>,
                         msgs: seq<ChatMessage>, stamp: Stamp)
      requires forall i | 0 <= i < |fs| :: ParseArgs(fs[i].arguments).Ok?
      ensures var st := ToolRound(reply, fs, wire, msgs, stamp);
        st.Continue? && RoundRecorded(st.messages, msgs, fs)
    {
      var domain := DomainCalls(fs);
      ToolRoundOk(reply, fs, wire, msgs, stamp);
      var rec := AssistantRecord(reply, domain.value, |msgs|, stamp);
      var msgs1 := msgs + [rec];
      var wire1 := wire + [WireEcho(reply)];
      var ex := ExecuteAll(fs, msgs1, wire1, stamp);
      ExecuteAllRecords(fs, msgs1, wire1, stamp);
      var out := ex.value.0;
      var calls := domain.value;
      assert rec.toolCalls == calls;
      forall i | 0 <= i < |fs|
        ensures rec.toolCalls[i].id == fs[i].id && rec.toolCalls[i].status == PENDING
      {
        assert calls[i].id == fs[i].id && calls[i].status == PENDING;
      }
      forall i | 0 <= i < |fs|
        ensures IsToolRecordFor(out, |msgs| + 1 + i, fs[i])
      {
        assert IsToolRecordFor(out, |msgs1| + i, fs[i]);
      }
      RecordedParts(out, msgs, rec, fs);
    }

    lemma RecordedParts(out: seq<ChatMessage>, msgs: seq<ChatMessage>, rec: ChatMessage, fs: seq<CompletionCall>)
      requires |out| == |msgs| + 1 + |fs| && out[..|msgs| + 1] == msgs + [rec]
      requires rec.role == ASSISTANT && rec.source == LLM_OUTPUT && |rec.toolCalls| == |fs|
      requires forall i | 0 <= i < |fs| :: rec.toolCalls[i].id == fs[i].id && rec.toolCalls[i].status == PENDING
      requires forall i | 0 <= i < |fs| :: IsToolRecordFor(out, |msgs| + 1 + i, fs[i])
      ensures RoundRecorded(out, msgs, fs)
    {
      LastOfPrefix(out, msgs, rec);
    }

    /** When every call parses, the round continues with the history ExecuteAll builds. */
    lemma ToolRoundOk(reply: CompletionMessage, fs: seq<CompletionCall>, wire: seq<WireMessage>,
                      msgs: seq<ChatMessage>, stamp: Stamp)
      requires forall i | 0 <= i < |fs| :: ParseArgs(fs[i].arguments).Ok?
      ensures var domain := DomainCalls(fs);
        && domain.Ok?
        && var msgs1 := msgs + [AssistantRecord(reply, domain.value, |msgs|, stamp)];
        var ex := ExecuteAll(fs, msgs1, wire + [WireEcho(reply)], stamp);
        && ex.Ok?
        && ToolRound(reply, fs, wire, msgs, stamp) == Continue(ex.value.1, ex.value.0)
    {
    }

    /** A history that extends `msgs + [rec]` holds `msgs` and then `rec`. */
    lemma LastOfPrefix(out: seq<ChatMessage>, msgs: seq<ChatMessage>, rec: ChatMessage)
      requires |out| > |msgs| && out[..|msgs| + 1] == msgs + [rec]
      ensures out[..|msgs|] == msgs && out[|msgs|] == rec
    {
      assert out[..|msgs|] == out[..|msgs| + 1][..|msgs|];
      assert out[|msgs|] == out[..|msgs| + 1][|msgs|];
    }

    /** An argument string that does not parse escapes respond as "Invalid JSON: ..." for
        the first such call, before anything of that round is recorded. */
    lemma MalformedArgumentsThrow(steps: nat, wire: seq<WireMessage>, msgs: seq<ChatMessage>, stamp: Stamp, k: nat)
      requires steps > 0
      requires chat(Request(stamp.model, ToolNames(tools), wire)).Ok?
      requires var c := chat(Request(stamp.model, ToolNames(tools), wire)).value;
        |c.choices| > 0 && |c.choices[0].toolCalls| > 0
      requires var fs := Functions(chat(Request(stamp.model, ToolNames(tools), wire)).value.choices[0].toolCalls);
        && k < |fs| && fs[k].arguments.Some? && !IsBlank(fs[k].arguments.value)
        && parseJson(fs[k].arguments.value).None?
        && forall j | 0 <= j < k :: ParseArgs(fs[j].arguments).Ok?
      ensures var fs := Functions(chat(Request(stamp.model, ToolNames(tools), wire)).value.choices[0].toolCalls);
        Run(steps, wire, msgs, stamp) == RunResult(Thrown(InvalidJsonPrefix + fs[k].arguments.value), msgs, 1)
    {
      var fs := Functions(chat(Request(stamp.model, ToolNames(tools), wire)).value.choices[0].toolCalls);
      assert ParseArgs(fs[k].arguments).Err?;
      var d := DomainCalls(fs);
      assert d.Err?;
      DomainCallsFirstError(fs);
      var i :| 0 <= i < |fs| && ParseArgs(fs[i].arguments).Err? && d.error == ParseArgs(fs[i].arguments).error
        && forall j | 0 <= j < i :: ParseArgs(fs[j].arguments).Ok?;
      assert i == k;
    }
  }
}
