/** The session-aware hooks the tests run the handshake with: a table of valid tokens, a log of
    hook calls per session, a record of what was provisioned per session, and the five hooks. */
module ConsumerMocks {
  import opened Decimal
  import opened JsValues
  import opened Protocol

  /** What the table holds for a token. */
  datatype TokenEntry = TokenEntry(mode: Mode, valid: bool, multiUse: bool)

  const RESPONDER_TOKEN := "responder-token"
  const INITIATOR_TOKEN := "initiator-token"
  const MULTI_USE_TOKEN := "multi-use-token"
  const DEFAULT_TOKENS: seq<string> := ["test-token"]

  /** The entry the table gets for a listed token. */
  function EntryFor(token: string): TokenEntry {
    if token == RESPONDER_TOKEN then TokenEntry(ResponderCreates, true, false)
    else if token == INITIATOR_TOKEN then TokenEntry(InitiatorCreates, true, false)
    else if token == MULTI_USE_TOKEN then TokenEntry(ResponderCreates, true, true)
    else TokenEntry(ResponderCreates, true, false)
  }

  /** The table the listed tokens give. */
  function TokenTable(tokens: seq<string>): map<string, TokenEntry> {
    map t | t in tokens :: EntryFor(t)
  }

  /** Every listed token is valid, and only 'initiator-token' is initiatorCreates. */
  lemma TokenTableEntries(tokens: seq<string>, t: string)
    ensures t in TokenTable(tokens) <==> t in tokens
    ensures t in tokens ==>
      && TokenTable(tokens)[t].valid
      && (TokenTable(tokens)[t].mode == InitiatorCreates <==> t == INITIATOR_TOKEN)
      && (TokenTable(tokens)[t].multiUse <==> t == MULTI_USE_TOKEN)
  {
  }

  function TokenInfo(mode: Mode, valid: bool): Value {
    Obj(map["mode" := Str(ModeName(mode)), "valid" := Bool(valid)])
  }

  /** `validateToken`'s answer: the stored mode and validity of a listed token, and
      `{mode: 'responderCreates', valid: false}` for anything else. */
  function TokenLookup(table: map<string, TokenEntry>, token: Value): Value {
    if token.Str? && token.s in table then TokenInfo(table[token.s].mode, table[token.s].valid)
    else TokenInfo(ResponderCreates, false)
  }

  /** The token info says what the listener then does: a listed token is valid and keeps its
      mode; anything else is invalid. */
  lemma TokenLookupMeaning(tokens: seq<string>, token: Value)
    ensures var info := TokenLookup(TokenTable(tokens), token);
      && !Nullish(info)
      && (Truthy(OptionalMember(info, "valid")) <==> token.Str? && token.s in tokens)
      && (token.Str? && token.s in tokens ==>
            TokenInfoToMode(info) == Str(ModeName(EntryFor(token.s).mode)))
  {
  }

  /** `!!(identity && typeof identity === 'object' && (identity.partyId || identity.id))`. */
  function IdentityOk(identity: Value): bool {
    && Truthy(identity) && (identity.Obj? || identity.Arr? || identity.Null?)
    && (Truthy(Member(identity, "partyId")) || Truthy(Member(identity, "id")))
  }

  /** An identity passes exactly when it is an object with a truthy `partyId` or `id`. */
  lemma IdentityOkMeaning(identity: Value)
    ensures IdentityOk(identity) <==>
      identity.Obj? && (("partyId" in identity.fields && Truthy(identity.fields["partyId"])) ||
                        ("id" in identity.fields && Truthy(identity.fields["id"])))
  {
  }

  /** `str-<partyA>-<partyB>-<now>`, for a `partyB` that converts to text. */
  function StrandId(partyA: string, partyB: Value, now: nat): string
    requires !ConversionThrows(partyB)
  {
    "str-" + partyA + "-" + Display(partyB) + "-" + NatToString(now)
  }

  /** `provisionStrand`'s result at time `now`, for a `partyB` that converts to text. */
  function ProvisionResultFor(creator: Party, partyA: string, partyB: Value, now: nat): Value
    requires !ConversionThrows(partyB)
  {
    var id := StrandId(partyA, partyB, now);
    Obj(map[
      "strand" := Obj(map["strandId" := Str(id), "createdBy" := Str(PartyName(creator))]),
      "dbConnectionInfo" := Obj(map[
        "endpoint" := Str("wss://db-" + id + ".example.com"),
        "credentialsRef" := Str("creds-" + id)])])
  }

  /** The result names its creator and a strand id made of both parties and the time, and its
      endpoint and credentials reference are made from that id. */
  lemma ProvisionResultShape(creator: Party, partyA: string, partyB: Value, now: nat)
    requires !ConversionThrows(partyB)
    ensures var r := ProvisionResultFor(creator, partyA, partyB, now);
      var id := StrandId(partyA, partyB, now);
      && Member(Member(r, "strand"), "createdBy") == Str(PartyName(creator))
      && Member(Member(r, "strand"), "strandId") == Str(id)
      && Member(Member(r, "dbConnectionInfo"), "endpoint") == Str("wss://db-" + id + ".example.com")
      && Member(Member(r, "dbConnectionInfo"), "credentialsRef") == Str("creds-" + id)
      && Truthy(r) && Truthy(Member(r, "strand")) && Truthy(Member(r, "dbConnectionInfo"))
  {
  }

  /** Different times give different strand ids for the same parties. */
  lemma {:induction false} StrandIdsDiffer(partyA: string, partyB: Value, t1: nat, t2: nat)
    requires t1 != t2 && !ConversionThrows(partyB)
    ensures StrandId(partyA, partyB, t1) != StrandId(partyA, partyB, t2)
  {
    var p := "str-" + partyA + "-" + Display(partyB) + "-";
    assert StrandId(partyA, partyB, t1) == p + NatToString(t1);
    assert StrandId(partyA, partyB, t2) == p + NatToString(t2);
    if p + NatToString(t1) == p + NatToString(t2) {
      assert NatToString(t1) == (p + NatToString(t1))[|p|..];
      assert NatToString(t2) == (p + NatToString(t2))[|p|..];
      NatToStringInjective(t1, t2);
    }
  }

  /** `response && typeof response.approved === 'boolean'`, with `&&` yielding its operand. */
  function ResponseCheck(response: Value): Value {
    if !Truthy(response) then response else Bool(Member(response, "approved").Bool?)
  }

  /** A response passes exactly when it is truthy and its `approved` is a boolean. */
  lemma ResponseCheckMeaning(response: Value)
    ensures Truthy(ResponseCheck(response)) <==> Truthy(response) && Member(response, "approved").Bool?
  {
  }

  /** `result && result.strand && result.dbConnectionInfo`, with `&&` yielding its operand. */
  function DatabaseResultCheck(result: Value): Value {
    if !Truthy(result) then result
    else if !Truthy(Member(result, "strand")) then Member(result, "strand")
    else Member(result, "dbConnectionInfo")
  }

  /** A database result passes exactly when it, its `strand` and its `dbConnectionInfo` are
      all truthy. */
  lemma DatabaseResultCheckMeaning(result: Value)
    ensures Truthy(DatabaseResultCheck(result)) <==>
      Truthy(result) && Truthy(Member(result, "strand")) && Truthy(Member(result, "dbConnectionInfo"))
  {
  }

  /** `provisionStrand`'s reply: the result, or the TypeError that building the strand id throws
      when `partyB` has no primitive form. */
  function ProvisionReply(creator: Party, partyA: string, partyB: Value, now: nat): (r: Reply)
    ensures r.Returned? <==> !ConversionThrows(partyB)
    ensures r.Threw? ==> r.message == TO_PRIMITIVE_ERROR
    ensures r.Returned? ==> r.value == ProvisionResultFor(creator, partyA, partyB, now)
  {
    if ConversionThrows(partyB) then Threw(TO_PRIMITIVE_ERROR) else Returned(ProvisionResultFor(creator, partyA, partyB, now))
  }

  /** The five hooks over a token table, with `Date.now()` reading `now`. Only provisionStrand
      can throw, as ProvisionReply says. */
  function AsHooks(table: map<string, TokenEntry>, now: nat): Hooks {
    Hooks(
      (token, sid) => Returned(TokenLookup(table, token)),
      (identity, sid) => Returned(Bool(IdentityOk(identity))),
      (creator, a, b, sid) => ProvisionReply(creator, a, b, now),
      (response, sid) => Returned(ResponseCheck(response)),
      (result, sid) => Returned(DatabaseResultCheck(result)))
  }

  /** A session log after `log(sessionId, activity)` at time `ts`: the session's list, made
      empty if it had none, gets `{...activity, ts}` appended. */
  function Logged(logs: map<string, seq<Value>>, sessionId: string, activity: map<string, Value>, ts: nat)
    : map<string, seq<Value>>
  {
    logs[sessionId := (if sessionId in logs then logs[sessionId] else []) + [Obj(activity["ts" := Num(ts)])]]
  }

  /** `log` adds exactly one entry, at the end of that session's list, and leaves the other
      sessions' lists alone. */
  lemma LoggedOnce(logs: map<string, seq<Value>>, sessionId: string, activity: map<string, Value>, ts: nat)
    ensures var l := Logged(logs, sessionId, activity, ts);
      && l.Keys == logs.Keys + {sessionId}
      && |l[sessionId]| == (if sessionId in logs then |logs[sessionId]| else 0) + 1
      && l[sessionId][|l[sessionId]| - 1] == Obj(activity["ts" := Num(ts)])
      && (sessionId in logs ==> l[sessionId][..|logs[sessionId]|] == logs[sessionId])
      && (forall other | other in logs && other != sessionId :: l[other] == logs[other])
  {
  }

  /** The activity each hook logs. */
  function TokenActivity(token: Value): map<string, Value> {
    map["action" := Str("validateToken"), "token" := token]
  }

  function ActionActivity(action: string): map<string, Value> {
    map["action" := Str(action)]
  }

  function ProvisionActivity(creator: Party, partyA: string, partyB: Value): map<string, Value> {
    map["action" := Str("provisionStrand"), "creator" := Str(PartyName(creator)), "partyA" := Str(partyA), "partyB" := partyB]
  }

  /** `createSessionAwareHooks(validTokens)`: the hooks together with the maps they keep. Each
      hook is given the time its `Date.now()` calls read. */
  class SessionAwareHooks {
    var tokenDatabase: map<string, TokenEntry>
    var provisioningDatabase: map<string, Value>
    var sessionLogs: map<string, seq<Value>>

    /** The tokens are entered one by one, in order. */
    constructor (validTokens: seq<string>)
      ensures tokenDatabase == TokenTable(validTokens)
      ensures provisioningDatabase == map[] && sessionLogs == map[]
    {
      provisioningDatabase := map[];
      sessionLogs := map[];
      tokenDatabase := map[];
      new;
      var i := 0;
      while i < |validTokens|
        invariant 0 <= i <= |validTokens|
        invariant tokenDatabase == TokenTable(validTokens[..i])
        invariant provisioningDatabase == map[] && sessionLogs == map[]
      {
        var token := validTokens[i];
        tokenDatabase := tokenDatabase[token := EntryFor(token)];
        i := i + 1;
        assert validTokens[..i] == validTokens[..i - 1] + [token];
      }
      assert validTokens[..i] == validTokens;
    }

    /** `createSessionAwareHooks()`, with the default token list. */
    constructor Default()
      ensures tokenDatabase == TokenTable(DEFAULT_TOKENS)
      ensures provisioningDatabase == map[] && sessionLogs == map[]
    {
      provisioningDatabase := map[];
      sessionLogs := map[];
      tokenDatabase := TokenTable(DEFAULT_TOKENS);
    }

    /** The hooks, as the sessions see them, when `Date.now()` reads `now`. */
    function Hooks(now: nat): Hooks
      reads this
    {
      AsHooks(tokenDatabase, now)
    }

    method Log(sessionId: string, activity: map<string, Value>, ts: nat)
      modifies this
      ensures sessionLogs == Logged(old(sessionLogs), sessionId, activity, ts)
      ensures tokenDatabase == old(tokenDatabase) && provisioningDatabase == old(provisioningDatabase)
    {
      if sessionId !in sessionLogs {
        sessionLogs := sessionLogs[sessionId := []];
      }
      sessionLogs := sessionLogs[sessionId := sessionLogs[sessionId] + [Obj(activity["ts" := Num(ts)])]];
    }

    method ValidateToken(token: Value, sessionId: string, ts: nat) returns (r: Reply)
      modifies this
      ensures r == Invoke(Hooks(ts), Call.ValidateToken(token, sessionId))
      ensures sessionLogs == Logged(old(sessionLogs), sessionId, TokenActivity(token), ts)
      ensures tokenDatabase == old(tokenDatabase) && provisioningDatabase == old(provisioningDatabase)
    {
      Log(sessionId, TokenActivity(token), ts);
      r := Returned(TokenLookup(tokenDatabase, token));
    }

    method ValidateIdentity(identity: Value, sessionId: string, ts: nat) returns (r: Reply)
      modifies this
      ensures r == Invoke(Hooks(ts), Call.ValidateIdentity(identity, sessionId))
      ensures sessionLogs == Logged(old(sessionLogs), sessionId, ActionActivity("validateIdentity"), ts)
      ensures tokenDatabase == old(tokenDatabase) && provisioningDatabase == old(provisioningDatabase)
    {
      Log(sessionId, ActionActivity("validateIdentity"), ts);
      r := Returned(Bool(IdentityOk(identity)));
    }

    /** Logs at `ts`, then makes the strand id at `now`, and records the result under the
        session's id, replacing any earlier one. When `partyB` has no primitive form, making
        the id throws after the log entry, and nothing is recorded. */
    method ProvisionStrand(creator: Party, partyA: string, partyB: Value, sessionId: string, ts: nat, now: nat)
      returns (r: Reply)
      modifies this
      ensures r == Invoke(Hooks(now), Call.ProvisionStrand(creator, partyA, partyB, sessionId))
      ensures sessionLogs == Logged(old(sessionLogs), sessionId, ProvisionActivity(creator, partyA, partyB), ts)
      ensures provisioningDatabase ==
        if ConversionThrows(partyB) then old(provisioningDatabase)
        else old(provisioningDatabase)[sessionId := ProvisionResultFor(creator, partyA, partyB, now)]
      ensures tokenDatabase == old(tokenDatabase)
    {
      Log(sessionId, ProvisionActivity(creator, partyA, partyB), ts);
      if ConversionThrows(partyB) {
        r := Threw(TO_PRIMITIVE_ERROR);
        return;
      }
      var result := ProvisionResultFor(creator, partyA, partyB, now);
      provisioningDatabase := provisioningDatabase[sessionId := result];
      r := Returned(result);
    }

    method ValidateResponse(response: Value, sessionId: string, ts: nat) returns (r: Reply)
      modifies this
      ensures r == Invoke(Hooks(ts), Call.ValidateResponse(response, sessionId))
      ensures sessionLogs == Logged(old(sessionLogs), sessionId, ActionActivity("validateResponse"), ts)
      ensures tokenDatabase == old(tokenDatabase) && provisioningDatabase == old(provisioningDatabase)
    {
      Log(sessionId, ActionActivity("validateResponse"), ts);
      r := Returned(ResponseCheck(response));
    }

    method ValidateDatabaseResult(result: Value, sessionId: string, ts: nat) returns (r: Reply)
      modifies this
      ensures r == Invoke(Hooks(ts), Call.ValidateDatabaseResult(result, sessionId))
      ensures sessionLogs == Logged(old(sessionLogs), sessionId, ActionActivity("validateDatabaseResult"), ts)
      ensures tokenDatabase == old(tokenDatabase) && provisioningDatabase == old(provisioningDatabase)
    {
      Log(sessionId, ActionActivity("validateDatabaseResult"), ts);
      r := Returned(DatabaseResultCheck(result));
    }
  }
}
