/** The handshake run with the session-aware test hooks: what the integration tests observe for
    unlisted tokens, for each listed token's mode, and for the responses the dialer accepts. */
module MockScenarios {
  import opened Outcomes
  import opened JsValues
  import opened Transport
  import opened Codec
  import opened Protocol
  import opened Steps
  import opened ConsumerMocks
  import Listener
  import ListenerFacts
  import Dialer
  import DialerFacts

  /** A contact whose token is not in the table is rejected with 'Invalid token', and the
      identity is never looked at. */
  lemma UnlistedTokenRejected(env: Env, tokens: seq<string>, now: nat, v: StreamView, msg: Value)
    requires env.hooks == AsHooks(TokenTable(tokens), now) && Immediate(env)
    requires ReadJsonSpec(v, env.json).1 == Parsed(msg) && Truthy(msg)
    requires !(Member(msg, "token").Str? && Member(msg, "token").s in tokens)
    requires v.caps.sinkError.None?
    ensures var (s, r) := Listener.ExecuteSpec(env, Listener.Initial(v));
      && r == Err(INVALID_TOKEN)
      && s.calls == [ValidateToken(Member(msg, "token"), env.sessionId)]
      && s.stream.events == v.events + [Wrote(env.json.serialize(Rejection(INVALID_TOKEN)))] + HalfCloseEvents(v.caps)
  {
    var info := TokenLookup(TokenTable(tokens), Member(msg, "token"));
    TokenLookupMeaning(tokens, Member(msg, "token"));
    ListenerFacts.InvalidTokenRejected(env, v, msg, info);
  }

  /** With 'responder-token' and an identity carrying a `partyId`, the listener provisions as
      the responder for the contact's party and approves with that result. A contact `partyId`
      with no primitive form makes the hook throw instead, and the listener fails with that
      TypeError without answering. */
  lemma ResponderTokenApproved(env: Env, tokens: seq<string>, now: nat, v: StreamView, msg: Value)
    requires env.hooks == AsHooks(TokenTable(tokens), now) && Immediate(env)
    requires ReadJsonSpec(v, env.json).1 == Parsed(msg) && Truthy(msg)
    requires Member(msg, "token") == Str(RESPONDER_TOKEN) && RESPONDER_TOKEN in tokens
    requires IdentityOk(Member(msg, "identityBundle"))
    requires v.caps.sinkError.None?
    ensures var (s, r) := Listener.ExecuteSpec(env, Listener.Initial(v));
      var party := Member(msg, "partyId");
      if ConversionThrows(party) then
        && r == Err(TO_PRIMITIVE_ERROR)
        && s.state == Listener.LFailed
        && s.stream == ReadJsonSpec(v, env.json).0
      else
        var p := ProvisionResultFor(Responder, env.sessionId, party, now);
        && r == Ok(())
        && s.provision == p
        && s.stream.events == v.events + [Wrote(env.json.serialize(Approval(env.sessionId, p)))]
                              + HalfCloseEvents(v.caps) + CloseEvents(v.caps)
  {
    var info := TokenLookup(TokenTable(tokens), Member(msg, "token"));
    TokenLookupMeaning(tokens, Member(msg, "token"));
    var party := Member(msg, "partyId");
    if ConversionThrows(party) {
      ListenerFacts.ResponderProvisionThrows(env, v, msg, info, Bool(true), TO_PRIMITIVE_ERROR);
    } else {
      var p := ProvisionResultFor(Responder, env.sessionId, party, now);
      ListenerFacts.ResponderCreatesApproves(env, v, msg, info, Bool(true), p);
    }
  }

  /** With 'initiator-token' the listener approves without provisioning and then accepts the
      database message exactly when it has a truthy `strand` and `dbConnectionInfo`. */
  lemma InitiatorTokenAwaitsDatabase(env: Env, tokens: seq<string>, now: nat, v: StreamView, msg: Value, db: Value)
    requires env.hooks == AsHooks(TokenTable(tokens), now) && Immediate(env)
    requires ReadJsonSpec(v, env.json).1 == Parsed(msg) && Truthy(msg)
    requires Member(msg, "token") == Str(INITIATOR_TOKEN) && INITIATOR_TOKEN in tokens
    requires IdentityOk(Member(msg, "identityBundle"))
    requires v.caps.sinkError.None?
    requires ReadJsonSpec(ReadJsonSpec(v, env.json).0, env.json).1 == Parsed(db)
    ensures var (s, r) := Listener.ExecuteSpec(env, Listener.Initial(v));
      && (r.Ok? <==> Truthy(db) && Truthy(Member(db, "strand")) && Truthy(Member(db, "dbConnectionInfo")))
      && (r.Err? ==> r.message == INVALID_DATABASE_RESULT)
      && s.provision == Null
  {
    var info := TokenLookup(TokenTable(tokens), Member(msg, "token"));
    TokenLookupMeaning(tokens, Member(msg, "token"));
    DatabaseResultCheckMeaning(db);
    ListenerFacts.InitiatorCreatesAwaitsDatabase(env, v, msg, info, Bool(true), db, DatabaseResultCheck(db));
  }

  /** The database message a dialer sends from the test hooks' provision result passes the test
      hooks' database check. */
  lemma DatabaseMessageAccepted(partyA: string, partyB: Value, now: nat)
    requires !ConversionThrows(partyB)
    ensures var p := ProvisionResultFor(Initiator, partyA, partyB, now);
      Truthy(DatabaseResultCheck(DatabaseMessage(Member(p, "strand"), Member(p, "dbConnectionInfo"))))
  {
    var p := ProvisionResultFor(Initiator, partyA, partyB, now);
    ProvisionResultShape(Initiator, partyA, partyB, now);
    DatabaseResultCheckMeaning(DatabaseMessage(Member(p, "strand"), Member(p, "dbConnectionInfo")));
  }

  /** A response whose `approved` is truthy but not a boolean fails the test hooks' check, so the
      dialer reports 'Invalid response from peer'. */
  lemma NonBooleanApprovalRefused(env: Env, tokens: seq<string>, now: nat, link: Link, n: NetView, resp: Value)
    requires env.hooks == AsHooks(TokenTable(tokens), now) && Immediate(env)
    requires |link.responderPeerAddrs| > 0 && DialerFacts.Reachable(n) && DialerFacts.Answers(env, n, resp)
    requires !Nullish(resp) && Truthy(Member(resp, "approved")) && !Member(resp, "approved").Bool?
    ensures Dialer.ExecuteSpec(env, link, Dialer.Initial(n)).1 == Err(INVALID_RESPONSE)
  {
    ResponseCheckMeaning(resp);
    DialerFacts.DialerInvalidResponse(env, link, n, resp, ResponseCheck(resp));
  }

  /** In responderCreates mode a response `{approved: true, provisionResult}` is accepted and the
      dialer returns that provision result. */
  lemma ApprovedResponseReturnsProvision(env: Env, tokens: seq<string>, now: nat, link: Link, n: NetView, resp: Value)
    requires env.hooks == AsHooks(TokenTable(tokens), now) && Immediate(env)
    requires |link.responderPeerAddrs| > 0 && DialerFacts.Reachable(n) && DialerFacts.Answers(env, n, resp)
    requires !Nullish(resp) && Member(resp, "approved") == Bool(true)
    requires LinkToMode(link) == ResponderCreates && Truthy(Member(resp, "provisionResult"))
    ensures Dialer.ExecuteSpec(env, link, Dialer.Initial(n)).1 == Ok(Member(resp, "provisionResult"))
  {
    ResponseCheckMeaning(resp);
    DialerFacts.DialerReturnsProvisionResult(env, link, n, resp, ResponseCheck(resp));
  }

  /** In initiatorCreates mode the dialer returns the test hooks' provision result, made by the
      initiator for the responder's party; a response `partyId` with no primitive form makes the
      hook throw, and the dialer reports that TypeError as a failed provisioning. */
  lemma InitiatorDialerProvisions(env: Env, tokens: seq<string>, now: nat, link: Link, n: NetView, resp: Value)
    requires env.hooks == AsHooks(TokenTable(tokens), now) && Immediate(env)
    requires |link.responderPeerAddrs| > 0 && DialerFacts.Reachable(n) && DialerFacts.Answers(env, n, resp)
    requires !Nullish(resp) && Member(resp, "approved") == Bool(true)
    requires LinkToMode(link) == InitiatorCreates && DialerFacts.Reachable(n.(outbound := n.outbound[1..]))
    ensures var party := Member(resp, "partyId");
      Dialer.ExecuteSpec(env, link, Dialer.Initial(n)).1 ==
      if ConversionThrows(party) then Err("Provisioning failed: " + TO_PRIMITIVE_ERROR)
      else Ok(ProvisionResultFor(Initiator, env.sessionId, party, now))
  {
    var party := Member(resp, "partyId");
    ResponseCheckMeaning(resp);
    if ConversionThrows(party) {
      DialerFacts.DialerProvisionFailureWrapped(env, link, n, resp, ResponseCheck(resp), TO_PRIMITIVE_ERROR);
    } else {
      var p := ProvisionResultFor(Initiator, env.sessionId, party, now);
      DialerFacts.DialerSendsDatabase(env, link, n, resp, ResponseCheck(resp), p);
    }
  }
}
