/** The vocabulary of the bootstrap handshake: parties, modes, the session configuration and
    its defaults, the invitation link, the consumer's hooks and the messages on the wire. */
module Protocol {
  import opened Outcomes
  import opened JsValues
  import opened Deadlines

  const DEFAULT_PROTOCOL_ID := "/sereus/bootstrap/1.0.0"

  /** A party of the dialog: the initiator dials with an invitation, the responder listens. */
  datatype Party = Initiator | Responder

  function PartyName(p: Party): string {
    match p
    case Initiator => "initiator"
    case Responder => "responder"
  }

  /** Who provisions the shared strand: the responder, which returns it in its response
      (two messages), or the initiator, which provisions after approval and sends the
      database information back (three messages). */
  datatype Mode = ResponderCreates | InitiatorCreates

  const RESPONDER_CREATES := "responderCreates"
  const INITIATOR_CREATES := "initiatorCreates"

  function ModeName(m: Mode): string {
    match m
    case ResponderCreates => RESPONDER_CREATES
    case InitiatorCreates => INITIATOR_CREATES
  }

  /** The session configuration. The timeouts are the `ms` the timers are armed with; a
      member set to `undefined` is `Unset` or `None`. */
  datatype Config = Config(
    sessionTimeoutMs: Millis,
    stepTimeoutMs: Millis,
    maxConcurrentSessions: Option<int>,
    enableDebugLogging: Option<bool>,
    protocolId: Option<string>)

  /** The configuration a `SessionManager` built without one uses (it sets no debug flag). */
  function ManagerDefaultConfig(): Config {
    Config(Ms(30000), Ms(5000), Some(100), None, Some(DEFAULT_PROTOCOL_ID))
  }

  /** The defaults `createBootstrapManager` spreads the caller's partial configuration over. */
  function FactoryDefaults(): Config {
    Config(Ms(30000), Ms(5000), Some(100), Some(false), Some(DEFAULT_PROTOCOL_ID))
  }

  /** A member of a `Partial<SessionConfig>` object: left out, present with the value
      `undefined`, or present with a value. */
  datatype Field<T> = Omitted | ExplicitUndefined | Provided(value: T)

  /** `Partial<SessionConfig>`. */
  datatype PartialConfig = PartialConfig(
    sessionTimeoutMs: Field<int>,
    stepTimeoutMs: Field<int>,
    maxConcurrentSessions: Field<int>,
    enableDebugLogging: Field<bool>,
    protocolId: Field<string>)

  /** One member of `{ ...defaults, ...config }`: a member the object has, even an undefined
      one, replaces the default; a left-out member keeps it. */
  function Spread<T>(given: Field<T>, default: Option<T>): (r: Option<T>)
    ensures given.Omitted? ==> r == default
    ensures given.ExplicitUndefined? ==> r.None?
    ensures given.Provided? ==> r == Some(given.value)
  {
    match given
    case Omitted => default
    case ExplicitUndefined => None
    case Provided(v) => Some(v)
  }

  /** A timeout member as the timers receive it. */
  function AsMillis(v: Option<int>): Millis {
    if v.Some? then Ms(v.value) else Unset
  }

  function FromMillis(ms: Millis): Option<int> {
    if ms.Ms? then Some(ms.n) else None
  }

  /** `{ ...defaults, ...config }`: every member the caller's object has wins over the default. */
  function CreateConfig(p: PartialConfig): (c: Config) {
    var d := FactoryDefaults();
    Config(
      AsMillis(Spread(p.sessionTimeoutMs, FromMillis(d.sessionTimeoutMs))),
      AsMillis(Spread(p.stepTimeoutMs, FromMillis(d.stepTimeoutMs))),
      Spread(p.maxConcurrentSessions, d.maxConcurrentSessions),
      Spread(p.enableDebugLogging, d.enableDebugLogging),
      Spread(p.protocolId, d.protocolId))
  }

  /** The member of a partial configuration that sets a member to `v`, undefined included. */
  function Give<T>(v: Option<T>): Field<T> {
    if v.Some? then Provided(v.value) else ExplicitUndefined
  }

  /** The partial configuration that has every member of `c`, the undefined ones included. */
  function Given(c: Config): PartialConfig {
    PartialConfig(Give(FromMillis(c.sessionTimeoutMs)), Give(FromMillis(c.stepTimeoutMs)),
      Give(c.maxConcurrentSessions), Give(c.enableDebugLogging), Give(c.protocolId))
  }

  /** With no member given, the factory configuration is the built-in defaults, which differ
      from the manager's own default only in setting the debug flag to false. */
  lemma CreateConfigDefaults()
    ensures CreateConfig(PartialConfig(Omitted, Omitted, Omitted, Omitted, Omitted)) == FactoryDefaults()
    ensures FactoryDefaults() == ManagerDefaultConfig().(enableDebugLogging := Some(false))
  {
  }

  /** Every member the caller's object has is kept as given, an undefined one included: a
      partial configuration with every member of `c` makes exactly `c`. */
  lemma CreateConfigKeepsGiven(c: Config)
    ensures CreateConfig(Given(c)) == c
  {
  }

  /** Members are independent: each member of the result is the caller's when the object has
      it (undefined included) and the default when it is left out, whatever the other members. */
  lemma CreateConfigPerMember(p: PartialConfig)
    ensures var r := CreateConfig(p);
      var d := FactoryDefaults();
      && (p.sessionTimeoutMs.Omitted? ==> r.sessionTimeoutMs == d.sessionTimeoutMs)
      && (p.sessionTimeoutMs.ExplicitUndefined? <==> r.sessionTimeoutMs.Unset?)
      && (p.sessionTimeoutMs.Provided? ==> r.sessionTimeoutMs == Ms(p.sessionTimeoutMs.value))
      && (p.stepTimeoutMs.Omitted? ==> r.stepTimeoutMs == d.stepTimeoutMs)
      && (p.stepTimeoutMs.ExplicitUndefined? <==> r.stepTimeoutMs.Unset?)
      && (p.stepTimeoutMs.Provided? ==> r.stepTimeoutMs == Ms(p.stepTimeoutMs.value))
      && (p.maxConcurrentSessions.Omitted? ==> r.maxConcurrentSessions == d.maxConcurrentSessions)
      && (p.maxConcurrentSessions.ExplicitUndefined? <==> r.maxConcurrentSessions.None?)
      && (p.maxConcurrentSessions.Provided? ==> r.maxConcurrentSessions == Some(p.maxConcurrentSessions.value))
      && (p.enableDebugLogging.Omitted? ==> r.enableDebugLogging == Some(false))
      && (p.enableDebugLogging.ExplicitUndefined? <==> r.enableDebugLogging.None?)
      && (p.protocolId.Omitted? ==> r.protocolId == Some(DEFAULT_PROTOCOL_ID))
      && (p.protocolId.ExplicitUndefined? <==> r.protocolId.None?)
  {
  }

  /** `a || b || DEFAULT_PROTOCOL_ID` over two optional protocol ids: the first one that is
      given and non-empty, else the default. */
  function ResolveProtocolId(explicit: Option<string>, configured: Option<string>): (pid: string)
    ensures pid != ""
    ensures explicit.Some? && explicit.value != "" ==> pid == explicit.value
    ensures !(explicit.Some? && explicit.value != "") && configured.Some? && configured.value != "" ==>
      pid == configured.value
    ensures !(explicit.Some? && explicit.value != "") && !(configured.Some? && configured.value != "") ==>
      pid == DEFAULT_PROTOCOL_ID
  {
    if explicit.Some? && explicit.value != "" then explicit.value
    else if configured.Some? && configured.value != "" then configured.value
    else DEFAULT_PROTOCOL_ID
  }

  /** The invitation the initiator holds. */
  datatype Link = Link(
    responderPeerAddrs: seq<string>,
    token: string,
    tokenExpiryUtc: string,
    mode: Option<Mode>,
    identityRequirements: Option<string>,
    protocolId: Option<string>)

  /** The dialer's mode: the link's, or responderCreates when the link has none. */
  function LinkToMode(link: Link): (m: Mode)
    ensures link.mode.Some? ==> m == link.mode.value
    ensures link.mode.None? ==> m == ResponderCreates
  {
    link.mode.GetOr(ResponderCreates)
  }

  /** The listener's mode: whatever truthy `mode` the token hook returned, else responderCreates.
      The hook's result is a value of any shape; the handshake compares it with the two names. */
  function TokenInfoToMode(info: Value): (m: Value)
    requires !Nullish(info)
    ensures Truthy(m)
    ensures Truthy(Member(info, "mode")) ==> m == Member(info, "mode")
    ensures !Truthy(Member(info, "mode")) ==> m == Str(RESPONDER_CREATES)
  {
    var mode := Member(info, "mode");
    if Truthy(mode) then mode else Str(RESPONDER_CREATES)
  }

  /** How a hook's promise settles: with a value, or rejected with an error of that message. */
  datatype Reply = Returned(value: Value) | Threw(message: string)

  function ReplyOutcome(r: Reply): (o: Outcome<Value>)
    ensures r.Returned? <==> o.Ok?
    ensures o.Ok? ==> o.value == r.value
    ensures o.Err? ==> o.message == r.message
  {
    match r
    case Returned(v) => Ok(v)
    case Threw(m) => Err(m)
  }

  /** The consumer's hooks. They are supplied by the application; here each is a function from
      its arguments to how its promise settles. */
  datatype Hooks = Hooks(
    validateToken: (Value, string) -> Reply,
    validateIdentity: (Value, string) -> Reply,
    provisionStrand: (Party, string, Value, string) -> Reply,
    validateResponse: (Value, string) -> Reply,
    validateDatabaseResult: (Value, string) -> Reply)

  /** A hook invocation, with its arguments, as a session makes it. */
  datatype Call =
    | ValidateToken(token: Value, sessionId: string)
    | ValidateIdentity(identity: Value, sessionId: string)
    | ProvisionStrand(creator: Party, creatorPartyId: string, otherPartyId: Value, sessionId: string)
    | ValidateResponse(response: Value, sessionId: string)
    | ValidateDatabaseResult(result: Value, sessionId: string)

  /** The reply of the hook a call names. */
  function Invoke(h: Hooks, c: Call): Reply {
    match c
    case ValidateToken(t, sid) => h.validateToken(t, sid)
    case ValidateIdentity(i, sid) => h.validateIdentity(i, sid)
    case ProvisionStrand(p, a, b, sid) => h.provisionStrand(p, a, b, sid)
    case ValidateResponse(r, sid) => h.validateResponse(r, sid)
    case ValidateDatabaseResult(r, sid) => h.validateDatabaseResult(r, sid)
  }

  /** `e?.message || String(e)` for a thrown Error: its message, or "Error" when that is empty. */
  function ThrownText(message: string): (t: string)
    ensures t != ""
    ensures message != "" ==> t == message
    ensures message == "" ==> t == "Error"
  {
    if message != "" then message else "Error"
  }

  const INVALID_TOKEN := "Invalid token"
  const INVALID_IDENTITY := "Invalid identity"
  const INVALID_STATE := "Invalid state"
  const INVALID_DATABASE_RESULT := "Invalid database result"
  const TOO_MANY_SESSIONS := "Too many concurrent sessions"
  const NO_STREAM := "No stream"
  const INVALID_RESPONSE := "Invalid response from peer"
  const MISSING_PROVISION_RESULT := "Missing provision result for responderCreates mode"
  const NO_RESPONSE_MESSAGE := "No response message available"
  const NO_REASON := "No reason provided"

  const CADRE_A: seq<string> := ["cadre-a-1.local", "cadre-a-2.local"]
  const CADRE_B: seq<string> := ["cadre-b-1.local", "cadre-b-2.local"]

  function Strings(ss: seq<string>): (v: Value)
    ensures v.Arr? && |v.items| == |ss|
    ensures forall i :: 0 <= i < |ss| ==> v.items[i] == Str(ss[i])
  {
    Arr(seq(|ss|, i requires 0 <= i < |ss| => Str(ss[i])))
  }

  /** The initiator's contact message; the identity bundle names the dialer session. */
  function ContactMessage(token: string, sessionId: string): Value {
    Obj(map[
      "token" := Str(token),
      "partyId" := Str(sessionId),
      "identityBundle" := Obj(map["partyId" := Str(sessionId)]),
      "cadrePeerAddrs" := Strings(CADRE_B)])
  }

  /** `{ approved: false, reason }`. */
  function Rejection(reason: string): Value {
    Obj(map["approved" := Bool(false), "reason" := Str(reason)])
  }

  /** The listener's approval; `provisionResult: this.provisionResult || undefined` drops the
      member unless the provision result is truthy. */
  function Approval(sessionId: string, provision: Value): Value {
    Obj(map["approved" := Bool(true), "partyId" := Str(sessionId), "cadrePeerAddrs" := Strings(CADRE_A)]
      + Present("provisionResult", if Truthy(provision) then provision else Undefined))
  }

  /** `{ strand, dbConnectionInfo }` as the initiator sends it; an undefined member is dropped. */
  function DatabaseMessage(strand: Value, dbConnectionInfo: Value): Value {
    Obj(Present("strand", strand) + Present("dbConnectionInfo", dbConnectionInfo))
  }

  /** The dialer's error for a response that does not approve: the template literal's text, or
      the TypeError that rendering a truthy reason throws. */
  function RejectedMessage(reason: Value): string {
    if !Truthy(reason) then "Bootstrap rejected: " + NO_REASON
    else if ConversionThrows(reason) then TO_PRIMITIVE_ERROR
    else "Bootstrap rejected: " + Display(reason)
  }

  /** The messages say what they are: a rejection never approves and carries no cadre
      addresses, an approval always approves and names the listener's session, and the
      provision result travels with the approval exactly when it is truthy. */
  lemma MessageShapes(reason: string, sessionId: string, provision: Value)
    ensures Member(Rejection(reason), "approved") == Bool(false)
    ensures Member(Rejection(reason), "reason") == Str(reason)
    ensures Member(Rejection(reason), "cadrePeerAddrs") == Undefined
    ensures Member(Rejection(reason), "provisionResult") == Undefined
    ensures Member(Approval(sessionId, provision), "approved") == Bool(true)
    ensures Member(Approval(sessionId, provision), "partyId") == Str(sessionId)
    ensures Member(Approval(sessionId, provision), "cadrePeerAddrs") == Strings(CADRE_A)
    ensures Truthy(provision) ==> Member(Approval(sessionId, provision), "provisionResult") == provision
    ensures !Truthy(provision) ==> Member(Approval(sessionId, provision), "provisionResult") == Undefined
    ensures IsJson(Rejection(reason))
    ensures IsJson(provision) ==> IsJson(Approval(sessionId, provision))
  {
    var a := Approval(sessionId, provision);
    assert IsJson(Strings(CADRE_A));
  }

  /** A contact message is JSON, carries the link's token, and its identity bundle names the party. */
  lemma ContactShape(token: string, sessionId: string)
    ensures var m := ContactMessage(token, sessionId);
      && IsJson(m)
      && Member(m, "token") == Str(token)
      && Member(m, "partyId") == Str(sessionId)
      && Member(Member(m, "identityBundle"), "partyId") == Str(sessionId)
      && Member(m, "cadrePeerAddrs") == Strings(CADRE_B)
  {
    assert IsJson(Strings(CADRE_B));
  }

  /** The dialer's rejection error quotes the reason when there is one. */
  lemma RejectedMessageReason(reason: Value)
    ensures reason.Str? && reason.s != "" ==> RejectedMessage(reason) == "Bootstrap rejected: " + reason.s
    ensures !Truthy(reason) ==> RejectedMessage(reason) == "Bootstrap rejected: No reason provided"
  {
    if !Truthy(reason) {
      assert RejectedMessage(reason) == "Bootstrap rejected: " + NO_REASON;
    }
  }

  /** A reason object reads "[object Object]" unless it has its own `toString` member; then the
      error is the conversion's TypeError, whose text no other reason gives. */
  lemma RejectedObjectReason(reason: Value)
    ensures reason.Obj? ==>
      RejectedMessage(reason) == (if "toString" in reason.fields then TO_PRIMITIVE_ERROR else "Bootstrap rejected: [object Object]")
    ensures ConversionThrows(reason) <==> RejectedMessage(reason) == TO_PRIMITIVE_ERROR
  {
    var prefix := "Bootstrap rejected: ";
    assert TO_PRIMITIVE_ERROR[0] != prefix[0];
    if !Truthy(reason) {
      assert RejectedMessage(reason) == prefix + NO_REASON;
    } else if !ConversionThrows(reason) {
      assert RejectedMessage(reason) == prefix + Display(reason);
    }
  }

}
