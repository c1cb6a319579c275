/** What the listener's handshake guarantees: the order in which it consults the hooks, what
    it answers in each case, and that it waits for the database message on the stream it
    answered on. */
module ListenerFacts {
  import opened Outcomes
  import opened JsValues
  import opened Transport
  import opened Codec
  import opened Deadlines
  import opened Protocol
  import opened Steps
  import opened Listener

  /** A token info whose `valid` is falsy or missing fails the session with "Invalid token":
      the rejection `{approved: false, reason: 'Invalid token'}` is written and half-closed,
      and neither the identity hook nor the provisioning hook is called. */
  lemma InvalidTokenRejected(env: Env, v: StreamView, msg: Value, info: Value)
    requires Immediate(env)
    requires ReadJsonSpec(v, env.json).1 == Parsed(msg) && !Nullish(msg)
    requires env.hooks.validateToken(Member(msg, "token"), env.sessionId) == Returned(info)
    requires !Truthy(OptionalMember(info, "valid"))
    requires v.caps.sinkError.None?
    ensures var (s, r) := ExecuteSpec(env, Initial(v));
      && r == Err(INVALID_TOKEN)
      && s.state == LFailed
      && s.calls == [ValidateToken(Member(msg, "token"), env.sessionId)]
      && s.provision == Null
      && s.stream.events == v.events + [Wrote(env.json.serialize(Rejection(INVALID_TOKEN)))] + HalfCloseEvents(v.caps)
  {
    var v1 := ReadJsonSpec(v, env.json).0;
    ImmediateStep(env, Clock(0, 0), Ok(msg));
    ImmediateStep(env, Clock(0, 1), Ok(info));
    ImmediateStep(env, Clock(0, 2), Ok(()));
    WriteJsonEvents(v1, env.json, Rejection(INVALID_TOKEN), true);
  }

  /** An identity the hook does not accept fails the session with "Invalid identity" after the
      rejection is written; nothing is provisioned. */
  lemma InvalidIdentityRejected(env: Env, v: StreamView, msg: Value, info: Value, ok: Value)
    requires Immediate(env)
    requires ReadJsonSpec(v, env.json).1 == Parsed(msg) && !Nullish(msg)
    requires env.hooks.validateToken(Member(msg, "token"), env.sessionId) == Returned(info)
    requires Truthy(OptionalMember(info, "valid"))
    requires env.hooks.validateIdentity(Member(msg, "identityBundle"), env.sessionId) == Returned(ok)
    requires !Truthy(ok)
    requires v.caps.sinkError.None?
    ensures var (s, r) := ExecuteSpec(env, Initial(v));
      && r == Err(INVALID_IDENTITY)
      && s.state == LFailed
      && s.calls == [ValidateToken(Member(msg, "token"), env.sessionId),
                     ValidateIdentity(Member(msg, "identityBundle"), env.sessionId)]
      && s.provision == Null
      && s.stream.events == v.events + [Wrote(env.json.serialize(Rejection(INVALID_IDENTITY)))] + HalfCloseEvents(v.caps)
  {
    var v1 := ReadJsonSpec(v, env.json).0;
    ImmediateStep(env, Clock(0, 0), Ok(msg));
    ImmediateStep(env, Clock(0, 1), Ok(info));
    ImmediateStep(env, Clock(0, 2), Ok(ok));
    ImmediateStep(env, Clock(0, 3), Ok(()));
    WriteJsonEvents(v1, env.json, Rejection(INVALID_IDENTITY), true);
  }

  /** The contact phase when token and identity are accepted: the contact and token info are
      stored, and in responderCreates mode the responder provisions for the contact's party. */
  lemma ContactAccepted(env: Env, v: StreamView, msg: Value, info: Value, ok: Value, p: Value)
    requires Immediate(env)
    requires ReadJsonSpec(v, env.json).1 == Parsed(msg) && !Nullish(msg)
    requires env.hooks.validateToken(Member(msg, "token"), env.sessionId) == Returned(info)
    requires Truthy(OptionalMember(info, "valid"))
    requires env.hooks.validateIdentity(Member(msg, "identityBundle"), env.sessionId) == Returned(ok)
    requires Truthy(ok)
    requires TokenInfoToMode(info) == Str(RESPONDER_CREATES) ==>
      env.hooks.provisionStrand(Responder, env.sessionId, Member(msg, "partyId"), env.sessionId) == Returned(p)
    ensures var responds := TokenInfoToMode(info) == Str(RESPONDER_CREATES);
      ProcessContactSpec(env, Initial(v)) ==
      (LSnap(LProcessContact, info, msg, if responds then p else Null, ReadJsonSpec(v, env.json).0,
         if responds then
           [ValidateToken(Member(msg, "token"), env.sessionId),
            ValidateIdentity(Member(msg, "identityBundle"), env.sessionId),
            ProvisionStrand(Responder, env.sessionId, Member(msg, "partyId"), env.sessionId)]
         else
           [ValidateToken(Member(msg, "token"), env.sessionId),
            ValidateIdentity(Member(msg, "identityBundle"), env.sessionId)],
         Clock(0, if responds then 4 else 3)),
       Ok(()))
  {
    var sid := env.sessionId;
    var vt := ValidateToken(Member(msg, "token"), sid);
    var vi := ValidateIdentity(Member(msg, "identityBundle"), sid);
    ImmediateRead(env, Clock(0, 0), v, msg);
    assert Get(msg, "token") == Ok(Member(msg, "token"));
    ImmediateHook(env, Clock(0, 1), [], vt, info);
    var c1 := [] + [vt];
    ImmediateHook(env, Clock(0, 2), c1, vi, ok);
    var c2 := c1 + [vi];
    assert c2 == [vt, vi];
    var s5 := Initial(v).(stream := ReadJsonSpec(v, env.json).0, contact := msg, tokenInfo := info,
                          calls := c2, clock := Clock(0, 3));
    if TokenInfoToMode(info) == Str(RESPONDER_CREATES) {
      var ps := ProvisionStrand(Responder, sid, Member(msg, "partyId"), sid);
      ImmediateHook(env, Clock(0, 3), c2, ps, p);
      assert c2 + [ps] == [vt, vi, ps];
      assert ProcessContactSpec(env, Initial(v)) == (s5.(calls := c2 + [ps], clock := Clock(0, 4), provision := p), Ok(()));
    } else {
      assert ProcessContactSpec(env, Initial(v)) == (s5, Ok(()));
    }
  }

  /** A contact that parses to a falsy value that is not null or undefined (`0`, `false` or
      `""`) gets past the contact phase: its `token` is undefined without a TypeError, and a
      token hook that accepts it lets the identity check and, in responderCreates mode, the
      responder's provisioning go ahead. The response phase then fails the session with
      "Invalid state" and writes nothing. */
  lemma FalsyContactInvalidState(env: Env, v: StreamView, msg: Value, info: Value, ok: Value, p: Value)
    requires Immediate(env)
    requires ReadJsonSpec(v, env.json).1 == Parsed(msg) && !Nullish(msg) && !Truthy(msg)
    requires env.hooks.validateToken(Member(msg, "token"), env.sessionId) == Returned(info)
    requires Truthy(OptionalMember(info, "valid"))
    requires env.hooks.validateIdentity(Member(msg, "identityBundle"), env.sessionId) == Returned(ok)
    requires Truthy(ok)
    requires TokenInfoToMode(info) == Str(RESPONDER_CREATES) ==>
      env.hooks.provisionStrand(Responder, env.sessionId, Member(msg, "partyId"), env.sessionId) == Returned(p)
    ensures var (s, r) := ExecuteSpec(env, Initial(v));
      var sid := env.sessionId;
      var vetted := [ValidateToken(Member(msg, "token"), sid), ValidateIdentity(Member(msg, "identityBundle"), sid)];
      && r == Err(INVALID_STATE)
      && s.state == LFailed
      && s.calls == vetted + (if TokenInfoToMode(info) == Str(RESPONDER_CREATES)
                              then [ProvisionStrand(Responder, sid, Member(msg, "partyId"), sid)] else [])
      && s.stream == ReadJsonSpec(v, env.json).0
  {
    ContactAccepted(env, v, msg, info, ok, p);
    var sid := env.sessionId;
    var vt := ValidateToken(Member(msg, "token"), sid);
    var vi := ValidateIdentity(Member(msg, "identityBundle"), sid);
    var ps := ProvisionStrand(Responder, sid, Member(msg, "partyId"), sid);
    assert [vt, vi] + [ps] == [vt, vi, ps];
    assert [vt, vi] + [] == [vt, vi];
  }

  /** In responderCreates mode a provisioning hook that throws fails the session with the
      hook's error after all three hook calls; no response is written. */
  lemma ResponderProvisionThrows(env: Env, v: StreamView, msg: Value, info: Value, ok: Value, m: string)
    requires Immediate(env)
    requires ReadJsonSpec(v, env.json).1 == Parsed(msg) && !Nullish(msg)
    requires env.hooks.validateToken(Member(msg, "token"), env.sessionId) == Returned(info)
    requires Truthy(OptionalMember(info, "valid"))
    requires env.hooks.validateIdentity(Member(msg, "identityBundle"), env.sessionId) == Returned(ok)
    requires Truthy(ok)
    requires TokenInfoToMode(info) == Str(RESPONDER_CREATES)
    requires env.hooks.provisionStrand(Responder, env.sessionId, Member(msg, "partyId"), env.sessionId) == Threw(m)
    ensures var (s, r) := ExecuteSpec(env, Initial(v));
      var sid := env.sessionId;
      && r == Err(m)
      && s.state == LFailed
      && s.provision == Null
      && s.calls == [ValidateToken(Member(msg, "token"), sid), ValidateIdentity(Member(msg, "identityBundle"), sid),
                     ProvisionStrand(Responder, sid, Member(msg, "partyId"), sid)]
      && s.stream == ReadJsonSpec(v, env.json).0
  {
    var sid := env.sessionId;
    var vt := ValidateToken(Member(msg, "token"), sid);
    var vi := ValidateIdentity(Member(msg, "identityBundle"), sid);
    var ps := ProvisionStrand(Responder, sid, Member(msg, "partyId"), sid);
    ImmediateRead(env, Clock(0, 0), v, msg);
    assert Get(msg, "token") == Ok(Member(msg, "token"));
    ImmediateHook(env, Clock(0, 1), [], vt, info);
    ImmediateHook(env, Clock(0, 2), [vt], vi, ok);
    assert [vt] + [vi] == [vt, vi];
    ImmediateHookThrows(env, Clock(0, 3), [vt, vi], ps, m);
    assert [vt, vi] + [ps] == [vt, vi, ps];
  }

  /** The approval phase on a stream that accepts writes: the approval is written and half-closed. */
  lemma ApprovalSent(env: Env, s: LSnap)
    requires Immediate(env) && s.clock.elapsed == 0
    requires Truthy(s.tokenInfo) && Truthy(s.contact)
    requires s.stream.caps.sinkError.None?
    ensures SendResponseSpec(env, s) ==
      (s.(state := LSendResponse, clock := Clock(0, s.clock.tick + 1),
          stream := s.stream.(events := s.stream.events + [Wrote(env.json.serialize(Approval(env.sessionId, s.provision)))]
                                       + HalfCloseEvents(s.stream.caps))),
       Ok(()))
  {
    ImmediateStep(env, s.clock, Ok(()));
    WriteJsonEvents(s.stream, env.json, Approval(env.sessionId, s.provision), true);
  }

  /** In responderCreates mode (which is also what a token info without a mode means), the
      listener provisions as the responder for the contact's party before it answers, sends
      the approval carrying the provision result, half-closes, and closes the stream when done. */
  lemma ResponderCreatesApproves(env: Env, v: StreamView, msg: Value, info: Value, ok: Value, p: Value)
    requires Immediate(env)
    requires ReadJsonSpec(v, env.json).1 == Parsed(msg) && Truthy(msg)
    requires env.hooks.validateToken(Member(msg, "token"), env.sessionId) == Returned(info)
    requires Truthy(OptionalMember(info, "valid"))
    requires env.hooks.validateIdentity(Member(msg, "identityBundle"), env.sessionId) == Returned(ok)
    requires Truthy(ok)
    requires TokenInfoToMode(info) == Str(RESPONDER_CREATES)
    requires env.hooks.provisionStrand(Responder, env.sessionId, Member(msg, "partyId"), env.sessionId) == Returned(p)
    requires v.caps.sinkError.None?
    ensures var (s, r) := ExecuteSpec(env, Initial(v));
      && r == Ok(())
      && s.state == LDone
      && s.provision == p
      && s.calls == [ValidateToken(Member(msg, "token"), env.sessionId),
                     ValidateIdentity(Member(msg, "identityBundle"), env.sessionId),
                     ProvisionStrand(Responder, env.sessionId, Member(msg, "partyId"), env.sessionId)]
      && s.stream.events == v.events + [Wrote(env.json.serialize(Approval(env.sessionId, p)))]
                            + HalfCloseEvents(v.caps) + CloseEvents(v.caps)
  {
    ContactAccepted(env, v, msg, info, ok, p);
    var (s1, r1) := ProcessContactSpec(env, Initial(v));
    ApprovalSent(env, s1);
    var (s2, r2) := SendResponseSpec(env, s1);
    assert s2.tokenInfo == info;
    assert ExecuteSpec(env, Initial(v)) == FinishSpec(env, s2);
  }

  /** The database phase: the next message on the stream, as the hook judges it. */
  lemma DatabaseJudged(env: Env, s: LSnap, db: Value, accepted: Value)
    requires Immediate(env) && s.clock.elapsed == 0
    requires ReadJsonSpec(s.stream, env.json).1 == Parsed(db)
    requires env.hooks.validateDatabaseResult(db, env.sessionId) == Returned(accepted)
    ensures AwaitDatabaseSpec(env, s) ==
      (s.(state := LAwaitDatabase, stream := ReadJsonSpec(s.stream, env.json).0,
          calls := s.calls + [ValidateDatabaseResult(db, env.sessionId)], clock := Clock(0, s.clock.tick + 2)),
       if Truthy(accepted) then Ok(()) else Err(INVALID_DATABASE_RESULT))
  {
    ImmediateStep(env, s.clock, Ok(db));
    ImmediateStep(env, Clock(0, s.clock.tick + 1), Ok(accepted));
  }

  /** In initiatorCreates mode nothing is provisioned before the approval; the listener then
      reads the database message from the same stream and fails with "Invalid database
      result" unless the hook accepts it. A second message can only be there on a source that
      keeps its unread chunks when the first read returns; for one that closes on return see
      `ClosingSourceStopsInitiator`. */
  lemma InitiatorCreatesAwaitsDatabase(env: Env, v: StreamView, msg: Value, info: Value, ok: Value, db: Value, accepted: Value)
    requires Immediate(env)
    requires ReadJsonSpec(v, env.json).1 == Parsed(msg) && Truthy(msg)
    requires env.hooks.validateToken(Member(msg, "token"), env.sessionId) == Returned(info)
    requires Truthy(OptionalMember(info, "valid"))
    requires env.hooks.validateIdentity(Member(msg, "identityBundle"), env.sessionId) == Returned(ok)
    requires Truthy(ok)
    requires TokenInfoToMode(info) == Str(INITIATOR_CREATES)
    requires v.caps.sinkError.None?
    requires ReadJsonSpec(ReadJsonSpec(v, env.json).0, env.json).1 == Parsed(db)
    requires env.hooks.validateDatabaseResult(db, env.sessionId) == Returned(accepted)
    ensures var (s, r) := ExecuteSpec(env, Initial(v));
      && (r.Ok? <==> Truthy(accepted))
      && (r.Err? ==> r.message == INVALID_DATABASE_RESULT && s.state == LFailed)
      && (r.Ok? ==> s.state == LDone)
      && s.provision == Null
      && s.calls == [ValidateToken(Member(msg, "token"), env.sessionId),
                     ValidateIdentity(Member(msg, "identityBundle"), env.sessionId),
                     ValidateDatabaseResult(db, env.sessionId)]
      && s.stream.events == v.events + [Wrote(env.json.serialize(Approval(env.sessionId, Null)))]
                            + HalfCloseEvents(v.caps) + (if r.Ok? then CloseEvents(v.caps) else [])
  {
    InitiatorResponded(env, v, msg, info, ok);
    var sid := env.sessionId;
    var s2 := LSnap(LSendResponse, info, msg, Null,
                    ReadJsonSpec(v, env.json).0.(events := v.events + [Wrote(env.json.serialize(Approval(sid, Null)))] + HalfCloseEvents(v.caps)),
                    [ValidateToken(Member(msg, "token"), sid), ValidateIdentity(Member(msg, "identityBundle"), sid)],
                    Clock(0, 4));
    FinishAwaitsDatabase(env, s2, db, accepted);
  }

  /** In initiatorCreates mode, an accepted contact leads to the approval without a provision
      result, and the run continues with the closing phase from there. */
  lemma InitiatorResponded(env: Env, v: StreamView, msg: Value, info: Value, ok: Value)
    requires Immediate(env)
    requires ReadJsonSpec(v, env.json).1 == Parsed(msg) && Truthy(msg)
    requires env.hooks.validateToken(Member(msg, "token"), env.sessionId) == Returned(info)
    requires Truthy(OptionalMember(info, "valid"))
    requires env.hooks.validateIdentity(Member(msg, "identityBundle"), env.sessionId) == Returned(ok)
    requires Truthy(ok)
    requires TokenInfoToMode(info) == Str(INITIATOR_CREATES)
    requires v.caps.sinkError.None?
    ensures var sid := env.sessionId;
      ExecuteSpec(env, Initial(v)) ==
      FinishSpec(env, LSnap(LSendResponse, info, msg, Null,
                            ReadJsonSpec(v, env.json).0.(events := v.events + [Wrote(env.json.serialize(Approval(sid, Null)))] + HalfCloseEvents(v.caps)),
                            [ValidateToken(Member(msg, "token"), sid), ValidateIdentity(Member(msg, "identityBundle"), sid)],
                            Clock(0, 4)))
  {
    ContactAccepted(env, v, msg, info, ok, Null);
    var (s1, r1) := ProcessContactSpec(env, Initial(v));
    ApprovalSent(env, s1);
  }


  /** The closing phase in initiatorCreates mode: the database check is the next hook call and
      decides the outcome; success closes the stream. */
  lemma FinishAwaitsDatabase(env: Env, s: LSnap, db: Value, accepted: Value)
    requires Immediate(env) && s.clock.elapsed == 0
    requires !Nullish(s.tokenInfo) && TokenInfoToMode(s.tokenInfo) == Str(INITIATOR_CREATES)
    requires ReadJsonSpec(s.stream, env.json).1 == Parsed(db)
    requires env.hooks.validateDatabaseResult(db, env.sessionId) == Returned(accepted)
    ensures var (s', r) := FinishSpec(env, s);
      && (r.Ok? <==> Truthy(accepted))
      && (r.Err? ==> r.message == INVALID_DATABASE_RESULT && s'.state == LFailed)
      && (r.Ok? ==> s'.state == LDone)
      && s'.provision == s.provision
      && s'.calls == s.calls + [ValidateDatabaseResult(db, env.sessionId)]
      && s'.stream.events == s.stream.events + (if r.Ok? then CloseEvents(s.stream.caps) else [])
  {
    DatabaseJudged(env, s, db, accepted);
  }
  /** The database phase when the stream yields no database message. */
  lemma DatabaseReadFails(env: Env, s: LSnap, m: string)
    requires Immediate(env) && s.clock.elapsed == 0
    requires ReadJsonSpec(s.stream, env.json).1 == Failed(m)
    ensures AwaitDatabaseSpec(env, s) ==
      (s.(state := LAwaitDatabase, stream := ReadJsonSpec(s.stream, env.json).0, clock := Clock(0, s.clock.tick + 1)),
       Err(m))
  {
    ImmediateStep<Value>(env, s.clock, Err(m));
  }

  /** The two sides do not meet in initiatorCreates mode: the listener waits for the database
      message on the stream the contact came on, so a stream that carries the contact and then
      ends, as the initiator's first stream does, fails the listener with "Received empty data
      from stream" after it has approved, and the database hook is never consulted. */
  lemma DatabaseExpectedOnContactStream(env: Env, v: StreamView, text: string, msg: Value, info: Value, ok: Value)
    requires Immediate(env)
    requires v.incoming == [text] && Ends(v) && v.caps.sinkError.None?
    requires Trim(text) != "" && env.json.parse(Trim(text)) == Ok(msg) && Truthy(msg)
    requires env.hooks.validateToken(Member(msg, "token"), env.sessionId) == Returned(info)
    requires Truthy(OptionalMember(info, "valid"))
    requires env.hooks.validateIdentity(Member(msg, "identityBundle"), env.sessionId) == Returned(ok)
    requires Truthy(ok)
    requires TokenInfoToMode(info) == Str(INITIATOR_CREATES)
    ensures var (s, r) := ExecuteSpec(env, Initial(v));
      && r == Err(EMPTY_DATA)
      && s.state == LFailed
      && s.calls == [ValidateToken(Member(msg, "token"), env.sessionId),
                     ValidateIdentity(Member(msg, "identityBundle"), env.sessionId)]
      && s.stream.events == v.events + [Wrote(env.json.serialize(Approval(env.sessionId, Null)))] + HalfCloseEvents(v.caps)
  {
    ReadJsonSingleMessage(env.json, v, text, msg);
    ContactAccepted(env, v, msg, info, ok, Null);
    var (s1, r1) := ProcessContactSpec(env, Initial(v));
    ApprovalSent(env, s1);
    var (s2, r2) := SendResponseSpec(env, s1);
    assert s2.tokenInfo == info;
    assert ExecuteSpec(env, Initial(v)) == FinishSpec(env, s2);
    assert s2.stream == ReturnSpec(v.(incoming := [])).(events := s2.stream.events);
    assert ReadJsonSpec(s2.stream, env.json).1 == ReadJsonSpec(ReturnSpec(v.(incoming := [])), env.json).1;
    DatabaseReadFails(env, s2, EMPTY_DATA);
  }

  /** On a source that ends when a read leaves its loop early, as a libp2p stream's does, an
      approved initiatorCreates contact always fails the listener with "Received empty data
      from stream": the first read dropped whatever the peer sent after the contact message,
      so the database hook is never consulted. */
  lemma ClosingSourceStopsInitiator(env: Env, v: StreamView, msg: Value, info: Value, ok: Value)
    requires Immediate(env)
    requires v.caps.closesOnReturn && v.caps.sinkError.None?
    requires ReadJsonSpec(v, env.json).1 == Parsed(msg) && Truthy(msg)
    requires env.hooks.validateToken(Member(msg, "token"), env.sessionId) == Returned(info)
    requires Truthy(OptionalMember(info, "valid"))
    requires env.hooks.validateIdentity(Member(msg, "identityBundle"), env.sessionId) == Returned(ok)
    requires Truthy(ok)
    requires TokenInfoToMode(info) == Str(INITIATOR_CREATES)
    ensures var (s, r) := ExecuteSpec(env, Initial(v));
      && r == Err(EMPTY_DATA)
      && s.state == LFailed
      && s.provision == Null
      && s.calls == [ValidateToken(Member(msg, "token"), env.sessionId),
                     ValidateIdentity(Member(msg, "identityBundle"), env.sessionId)]
      && s.stream.events == v.events + [Wrote(env.json.serialize(Approval(env.sessionId, Null)))] + HalfCloseEvents(v.caps)
  {
    InitiatorResponded(env, v, msg, info, ok);
    var sid := env.sessionId;
    var w := ReadJsonSpec(v, env.json).0;
    var s2 := LSnap(LSendResponse, info, msg, Null,
                    w.(events := v.events + [Wrote(env.json.serialize(Approval(sid, Null)))] + HalfCloseEvents(v.caps)),
                    [ValidateToken(Member(msg, "token"), sid), ValidateIdentity(Member(msg, "identityBundle"), sid)],
                    Clock(0, 4));
    ReadAfterReturnFails(env.json, v, msg);
    assert ReadJsonSpec(s2.stream, env.json).1 == ReadJsonSpec(w, env.json).1;
    DatabaseReadFails(env, s2, EMPTY_DATA);
  }

  /** A token hook that never settles fails the session with a timeout and nothing is written:
      the step's own timeout, or the session's when that deadline is the nearer one. */
  lemma HangingTokenHookTimesOut(env: Env, v: StreamView, msg: Value)
    requires env.timing == [After(0), Never]
    requires ReadJsonSpec(v, env.json).1 == Parsed(msg) && Truthy(msg)
    ensures var (s, r) := ExecuteSpec(env, Initial(v));
      var cfg := env.config;
      var ms := if Fires(cfg.stepTimeoutMs) >= Fires(cfg.sessionTimeoutMs) then cfg.sessionTimeoutMs
                else cfg.stepTimeoutMs;
      && r == Err(TimeoutMessage(ms))
      && s.state == LFailed
      && s.calls == [ValidateToken(Member(msg, "token"), env.sessionId)]
      && s.stream.events == v.events
  {
    assert Next(env, Clock(0, 0)) == After(0);
    assert Next(env, Clock(0, 1)) == Never;
    HangingStepTimesOut<Value>(env.config.sessionTimeoutMs, env.config.stepTimeoutMs, Clock(0, 1));
  }

  /** The hooks are consulted in the handshake's order, each with the session's id: the token
      hook on the contact's token; the identity hook on its identity bundle, only for a token
      info with a truthy `valid`; then nothing else unless the identity was accepted, and then
      either the responder's provisioning for the contact's party (responderCreates) or the
      database check (initiatorCreates). */
  predicate CallOrder(env: Env, s: LSnap) {
    var sid := env.sessionId;
    && |s.calls| <= 3
    && (|s.calls| >= 1 ==> !Nullish(s.contact) && s.calls[0] == ValidateToken(Member(s.contact, "token"), sid))
    && (|s.calls| >= 2 ==>
          && Invoke(env.hooks, s.calls[0]) == Returned(s.tokenInfo)
          && Truthy(OptionalMember(s.tokenInfo, "valid"))
          && s.calls[1] == ValidateIdentity(Member(s.contact, "identityBundle"), sid))
    && (|s.calls| == 3 ==>
          && Invoke(env.hooks, s.calls[1]).Returned? && Truthy(Invoke(env.hooks, s.calls[1]).value)
          && (if TokenInfoToMode(s.tokenInfo) == Str(RESPONDER_CREATES)
              then s.calls[2] == ProvisionStrand(Responder, sid, Member(s.contact, "partyId"), sid)
              else TokenInfoToMode(s.tokenInfo) == Str(INITIATOR_CREATES)
                   && s.calls[2].ValidateDatabaseResult? && s.calls[2].sessionId == sid))
  }

  /** After a valid token, the identity check and the optional provisioning keep the order. */
  lemma {:induction false} VetIdentityCallOrder(env: Env, s: LSnap, msg: Value)
    requires !Nullish(msg) && s.contact == msg
    requires s.calls == [ValidateToken(Member(msg, "token"), env.sessionId)]
    requires Invoke(env.hooks, s.calls[0]) == Returned(s.tokenInfo) && Truthy(OptionalMember(s.tokenInfo, "valid"))
    ensures var (s', r) := VetIdentitySpec(env, s, msg);
      && CallOrder(env, s')
      && (r.Ok? ==>
            && |s'.calls| >= 2
            && Invoke(env.hooks, s'.calls[1]).Returned? && Truthy(Invoke(env.hooks, s'.calls[1]).value)
            && (|s'.calls| == 3 <==> TokenInfoToMode(s'.tokenInfo) == Str(RESPONDER_CREATES)))
  {
    var sid := env.sessionId;
    var c1 := ValidateToken(Member(msg, "token"), sid);
    var c2 := ValidateIdentity(Member(msg, "identityBundle"), sid);
    HookStepOk(env, s.clock, s.calls, c2);
    var (calls5, idr) := HookStep(env, s.clock, s.calls, c2);
    assert calls5 == [c1, c2];
    var s5 := s.(calls := calls5, clock := idr.clock);
    if idr.outcome.Ok? && Truthy(idr.outcome.value) && TokenInfoToMode(s.tokenInfo) == Str(RESPONDER_CREATES) {
      var c3 := ProvisionStrand(Responder, sid, Member(msg, "partyId"), sid);
      HookStepOk(env, s5.clock, s5.calls, c3);
      var (calls6, pr) := HookStep(env, s5.clock, s5.calls, c3);
      assert calls6 == [c1, c2, c3];
    }
  }

  lemma {:induction false} ContactCallOrder(env: Env, v: StreamView)
    ensures var (s, r) := ProcessContactSpec(env, Initial(v));
      && CallOrder(env, s)
      && (r.Ok? ==>
            && |s.calls| >= 2
            && Invoke(env.hooks, s.calls[1]).Returned? && Truthy(Invoke(env.hooks, s.calls[1]).value)
            && (|s.calls| == 3 <==> TokenInfoToMode(s.tokenInfo) == Str(RESPONDER_CREATES)))
  {
    var sid := env.sessionId;
    var s0 := Initial(v);
    var (v1, read) := ReadStep(env, s0.clock, s0.stream);
    if read.outcome.Ok? {
      var msg := read.outcome.value;
      var s2 := s0.(stream := v1, clock := read.clock, contact := msg);
      if !Nullish(msg) {
        var c1 := ValidateToken(Member(msg, "token"), sid);
        HookStepOk(env, s2.clock, s2.calls, c1);
        var (calls3, tok) := HookStep(env, s2.clock, s2.calls, c1);
        if tok.outcome.Ok? && Truthy(OptionalMember(tok.outcome.value, "valid")) {
          var s4 := s2.(calls := calls3, clock := tok.clock, tokenInfo := tok.outcome.value);
          VetIdentityCallOrder(env, s4, msg);
        }
      }
    }
  }

  /** A response that is sent was sent before the deadline. */
  lemma SentInTime(env: Env, s: LSnap)
    ensures var (s', r) := SendResponseSpec(env, s);
      r.Ok? ==> s'.clock.elapsed < Fires(env.config.sessionTimeoutMs)
  {
    if Truthy(s.tokenInfo) && Truthy(s.contact) {
      var (v', w) := WriteJsonSpec(s.stream, env.json, Approval(env.sessionId, s.provision), true);
      StepOk(env, s.clock, Scheduled(Next(env, s.clock), w));
    }
  }

  /** The closing phase keeps the hook order, and settles the state by the outcome. */
  lemma FinishCallOrder(env: Env, s: LSnap)
    requires !Nullish(s.tokenInfo) && CallOrder(env, s) && |s.calls| >= 2
    requires Invoke(env.hooks, s.calls[1]).Returned? && Truthy(Invoke(env.hooks, s.calls[1]).value)
    requires |s.calls| == 3 <==> TokenInfoToMode(s.tokenInfo) == Str(RESPONDER_CREATES)
    requires s.clock.elapsed < Fires(env.config.sessionTimeoutMs)
    ensures var (s', r) := FinishSpec(env, s);
      && CallOrder(env, s')
      && (r.Ok? <==> s'.state == LDone)
      && (r.Err? <==> s'.state == LFailed)
      && (r.Ok? ==> s'.clock.elapsed < Fires(env.config.sessionTimeoutMs))
  {
    if TokenInfoToMode(s.tokenInfo) == Str(INITIATOR_CREATES) {
      var sa := s.(state := LAwaitDatabase);
      var (va, read) := ReadStep(env, sa.clock, sa.stream);
      if read.outcome.Ok? {
        var sb := sa.(stream := va, clock := read.clock);
        var c3 := ValidateDatabaseResult(read.outcome.value, env.sessionId);
        HookStepOk(env, sb.clock, sb.calls, c3);
      }
    }
  }

  /** Whatever the timing, a listener session ends done exactly when it succeeds, and then
      before its deadline; it fails otherwise; and it consults the hooks in the order above. */
  lemma {:induction false} ListenerCallOrder(env: Env, v: StreamView)
    ensures var (s, r) := ExecuteSpec(env, Initial(v));
      && CallOrder(env, s)
      && (r.Ok? <==> s.state == LDone)
      && (r.Err? <==> s.state == LFailed)
      && (r.Ok? ==> s.clock.elapsed < Fires(env.config.sessionTimeoutMs))
  {
    ContactCallOrder(env, v);
    var (s1, r1) := ProcessContactSpec(env, Initial(v));
    if r1.Ok? {
      SentInTime(env, s1);
      var (s2, r2) := SendResponseSpec(env, s1);
      if r2.Ok? {
        FinishCallOrder(env, s2);
      }
    }
  }
}
