/** The chat domain: roles, message provenance, tool calls and stored messages. */
module Domain {
  import opened Wrappers
  import opened JavaString

  /** Who sent a message; each role has a lower-case wire value. */
  datatype Role = SYSTEM | USER | ASSISTANT | TOOL

  /** Where a stored message came from. */
  datatype Source = USER_INPUT | LLM_OUTPUT | SYSTEM_SOURCE | TOOL_OUTPUT | INTERNAL

  datatype ToolCallStatus = PENDING | COMPLETED | ERROR

  /** A JSON value as Jackson reads it into Map/List/primitive objects. */
  datatype Json =
    | JNull
    | JBool(b: bool)
    | JNum(n: int)
    | JStr(s: string)
    | JArr(items: seq<Json>)
    | JObj(fields: map<string, Json>)

  /** A tool invocation requested by a model, as stored with the assistant message. */
  datatype ToolCall = ToolCall(
    id: string,
    providerId: string,
    name: string,
    arguments: map<string, Json>,
    status: ToolCallStatus)

  /** One stored message. `content`, `model`, `provider` and `toolCallId` are Java
      references that may be null; a null tool-call list is the empty sequence. Times are
      milliseconds since the epoch. */
  datatype ChatMessage = ChatMessage(
    id: string,
    conversationId: string,
    index: int,
    role: Role,
    source: Source,
    content: Option<string>,
    createdAt: int,
    model: Option<string>,
    provider: Option<string>,
    toolCalls: seq<ToolCall>,
    toolCallId: Option<string>)

  datatype Provider = OPENAI | OPENROUTER | LMSTUDIO

  datatype ApiFamily = RESPONSES | CHAT_COMPLETIONS

  /** Provider.name().toLowerCase(), the provider tag stored on new messages. */
  function ProviderTag(p: Provider): (r: string)
    ensures |r| > 0
  {
    match p
    case OPENAI => "openai"
    case OPENROUTER => "openrouter"
    case LMSTUDIO => "lmstudio"
  }

  /** The wire value of a role (getValue and toString). */
  function RoleValue(r: Role): (v: string)
    ensures |v| > 0
  {
    match r
    case SYSTEM => "system"
    case USER => "user"
    case ASSISTANT => "assistant"
    case TOOL => "tool"
  }

  /** Provider tags are already lower case. */
  lemma ProviderTagLower(p: Provider)
    ensures ToLower(ProviderTag(p)) == ProviderTag(p)
  {
    var t := ProviderTag(p);
    assert forall i | 0 <= i < |t| :: LowerChar(t[i]) == t[i];
  }

  /** Role values are already lower case. */
  lemma RoleValueLower(r: Role)
    ensures ToLower(RoleValue(r)) == RoleValue(r)
  {
    var v := RoleValue(r);
    assert forall i | 0 <= i < |v| :: LowerChar(v[i]) == v[i];
  }

  /** Distinct roles have distinct values. */
  lemma RoleValueInjective(x: Role, y: Role)
    requires RoleValue(x) == RoleValue(y)
    ensures x == y
  {
    var v, w := RoleValue(x), RoleValue(y);
    assert |v| == |w| && v[0] == w[0];
  }

  /** The roles in declaration order, as Role.values() lists them. */
  const AllRoles: seq<Role> := [SYSTEM, USER, ASSISTANT, TOOL]

  lemma AllRolesListed()
    ensures forall x: Role :: x in AllRoles
  {
    forall x: Role ensures x in AllRoles {
      match x
      case SYSTEM => assert AllRoles[0] == x;
      case USER => assert AllRoles[1] == x;
      case ASSISTANT => assert AllRoles[2] == x;
      case TOOL => assert AllRoles[3] == x;
    }
  }

  /** The first role of `roles` whose value equals `value` ignoring case. */
  function FirstRoleMatching(roles: seq<Role>, value: string): (r: Option<Role>)
    ensures r.Some? ==> r.value in roles && EqualsIgnoreCase(RoleValue(r.value), value)
    ensures r.None? <==> forall x | x in roles :: !EqualsIgnoreCase(RoleValue(x), value)
  {
    if |roles| == 0 then None
    else if EqualsIgnoreCase(RoleValue(roles[0]), value) then Some(roles[0])
    else FirstRoleMatching(roles[1..], value)
  }

  /** Role.fromString: the role whose value matches ignoring case, or the
      IllegalArgumentException message for an unknown (or null) value. */
  function RoleFromString(value: Option<string>): (r: Result<Role, string>)
    ensures r.Ok? ==> value.Some? && EqualsIgnoreCase(RoleValue(r.value), value.value)
    ensures r.Err? <==> value.None? || forall x: Role :: !EqualsIgnoreCase(RoleValue(x), value.value)
    ensures r.Err? ==> r.error == "Unknown role: " + (if value.Some? then value.value else "null")
  {
    match value
    case None => Err("Unknown role: null")
    case Some(s) =>
      match FirstRoleMatching(AllRoles, s)
      case Some(role) => Ok(role)
      case None =>
        AllRolesListed();
        Err("Unknown role: " + s)
  }

  /** Round trip: fromString(r.getValue()) == r, and any case variant of the value too. */
  lemma {:induction false} RoleRoundTrip(r: Role, s: string)
    requires ToLower(s) == RoleValue(r)
    ensures RoleFromString(Some(s)) == Ok(r)
  {
    RoleValueLower(r);
    AllRolesListed();
    var found := FirstRoleMatching(AllRoles, s);
    assert EqualsIgnoreCase(RoleValue(r), s);
    assert found.Some?;
    var x := found.value;
    RoleValueLower(x);
    assert RoleValue(x) == ToLower(s);
    RoleValueInjective(x, r);
  }
}
