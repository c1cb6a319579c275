/** What the dialer's handshake guarantees: what it returns in each mode, the hook calls it
    makes on the way, the messages it sends and the errors it reports. */
module DialerFacts {
  import opened Outcomes
  import opened JsValues
  import opened Transport
  import opened Codec
  import opened Deadlines
  import opened Protocol
  import opened Steps
  import opened Dialer

  /** A stream after `writeJson(stream, value, true)` succeeded on it. */
  function Sent(v: StreamView, j: Json, value: Value): StreamView {
    v.(events := v.events + [Wrote(j.serialize(value))] + HalfCloseEvents(v.caps))
  }

  /** The dial the dialer makes, to the link's first address with the resolved protocol id. */
  function DialOf(env: Env, link: Link): Dial
    requires |link.responderPeerAddrs| > 0
  {
    Dial(link.responderPeerAddrs[0], DialedProtocol(env, link))
  }

  /** Once `awaitResponse` succeeds, the response approved, it was given to `validateResponse`,
      which accepted it, and the session deadline has not passed. */
  lemma {:induction false} AwaitResponseAccepts(env: Env, s: DSnap)
    ensures var (s', r) := AwaitResponseSpec(env, s);
      && s'.database == s.database
      && (r.Ok? ==>
            && !Nullish(s'.response) && Truthy(Member(s'.response, "approved"))
            && s'.calls == s.calls + [ValidateResponse(s'.response, env.sessionId)]
            && env.hooks.validateResponse(s'.response, env.sessionId).Returned?
            && Truthy(env.hooks.validateResponse(s'.response, env.sessionId).value)
            && s'.clock.elapsed < Fires(env.config.sessionTimeoutMs))
  {
    if s.conn.Some? {
      var (v1, read) := ReadStep(env, s.clock, s.conn.value);
      if read.outcome.Ok? {
        var resp := read.outcome.value;
        var s1 := s.(conn := Some(v1), clock := read.clock);
        var c := ValidateResponse(resp, env.sessionId);
        StepOk(env, s1.clock, Scheduled(Next(env, s1.clock), ReplyOutcome(Invoke(env.hooks, c))));
      }
    }
  }

  /** Once `provisionAndSendDatabase` succeeds, it returns what `provisionStrand('initiator',
      sessionId, response.partyId, sessionId)` returned, after sending `{strand,
      dbConnectionInfo}` of that result, half-closed, on a newly dialed stream to the same
      address, and before the session deadline. */
  lemma {:induction false} ProvisionSends(env: Env, link: Link, s: DSnap)
    requires |link.responderPeerAddrs| > 0
    ensures var (s', r) := ProvisionAndSendDatabaseSpec(env, link, s);
      var call := ProvisionStrand(Initiator, env.sessionId, Member(s.response, "partyId"), env.sessionId);
      r.Ok? ==>
        && s'.state == s.state
        && s'.calls == s.calls + [call]
        && env.hooks.provisionStrand(Initiator, env.sessionId, Member(s.response, "partyId"), env.sessionId) == Returned(r.value)
        && s'.net.dials == s.net.dials + [DialOf(env, link)]
        && s'.database.Some?
        && s'.database.value.events ==
             [Wrote(env.json.serialize(DatabaseMessage(Member(r.value, "strand"), Member(r.value, "dbConnectionInfo"))))]
             + HalfCloseEvents(s'.database.value.caps)
        && s'.conn == CloseConn(s.conn)
        && s'.clock.elapsed < Fires(env.config.sessionTimeoutMs)
  {
    if Truthy(s.response) {
      var call := ProvisionStrand(Initiator, env.sessionId, Member(s.response, "partyId"), env.sessionId);
      var (calls1, pr) := HookStep(env, s.clock, s.calls, call);
      StepOk(env, s.clock, Scheduled(Next(env, s.clock), ReplyOutcome(Invoke(env.hooks, call))));
      if pr.outcome.Ok? && !Nullish(pr.outcome.value) {
        var provision := pr.outcome.value;
        var s1 := s.(calls := calls1, clock := pr.clock);
        var dbMsg := DatabaseMessage(Member(provision, "strand"), Member(provision, "dbConnectionInfo"));
        var (n2, dial) := DialStep(env, s1.clock, s1.net, link.responderPeerAddrs[0], DialedProtocol(env, link));
        StepOk(env, s1.clock, DialOp(DialSpec(s1.net, link.responderPeerAddrs[0], DialedProtocol(env, link)).1, Next(env, s1.clock)));
        if dial.outcome.Ok? {
          var s2 := s1.(net := n2, clock := dial.clock);
          var (v, w) := WriteJsonSpec(Opened(dial.outcome.value), env.json, dbMsg, true);
          StepOk(env, s2.clock, Scheduled(Next(env, s2.clock), w));
          if w.Ok? {
            WriteJsonEvents(Opened(dial.outcome.value), env.json, dbMsg, true);
          }
        }
      }
    }
  }

  /** After an accepted response: success leaves the state as it was and failure marks the
      session failed; in responderCreates mode success returns the response's
      `provisionResult` unchanged with no further hook call or dial; in initiatorCreates mode
      it is the provisioning described by `ProvisionSends`. */
  lemma {:induction false} SettleFacts(env: Env, link: Link, s: DSnap)
    requires |link.responderPeerAddrs| > 0
    requires s.state == DSendContact
    ensures var (s', r) := SettleSpec(env, link, s);
      && (r.Ok? <==> s'.state == DSendContact)
      && (r.Err? <==> s'.state == DFailed)
      && s'.response == s.response
      && |s'.net.dials| >= |s.net.dials| && s'.net.dials[..|s.net.dials|] == s.net.dials
      && (r.Ok? && LinkToMode(link) == ResponderCreates ==>
            && s'.calls == s.calls && s'.clock == s.clock && s'.database == s.database
            && r.value == Member(s.response, "provisionResult") && Truthy(r.value))
      && (r.Ok? && LinkToMode(link) == InitiatorCreates ==>
            && s'.calls == s.calls + [ProvisionStrand(Initiator, env.sessionId, Member(s.response, "partyId"), env.sessionId)]
            && env.hooks.provisionStrand(Initiator, env.sessionId, Member(s.response, "partyId"), env.sessionId) == Returned(r.value)
            && s'.net.dials == s.net.dials + [DialOf(env, link)]
            && s'.database.Some?
            && s'.database.value.events ==
                 [Wrote(env.json.serialize(DatabaseMessage(Member(r.value, "strand"), Member(r.value, "dbConnectionInfo"))))]
                 + HalfCloseEvents(s'.database.value.caps)
            && s'.clock.elapsed < Fires(env.config.sessionTimeoutMs))
  {
    if LinkToMode(link) == InitiatorCreates {
      ProvisionSends(env, link, s);
      ProvisionDials(env, link, s);
    }
  }

  /** `provisionAndSendDatabase` dials at most once more and keeps the earlier dials. */
  lemma ProvisionDials(env: Env, link: Link, s: DSnap)
    requires |link.responderPeerAddrs| > 0
    ensures var s' := ProvisionAndSendDatabaseSpec(env, link, s).0;
      |s'.net.dials| >= |s.net.dials| && s'.net.dials[..|s.net.dials|] == s.net.dials
  {
  }

  /** Whatever the timing and whatever the hooks answer, a dialer session succeeds exactly when
      it has not failed (its state is never advanced past the initial one); its first dial
      goes to the link's first address; and when it succeeds the response it got approved
      and passed `validateResponse`, and then
      - in responderCreates mode it returns the response's `provisionResult` unchanged, and
        `validateResponse` is the only hook it called;
      - in initiatorCreates mode it returns what `provisionStrand('initiator', …)` returned for
        the responder's party, after sending the database message on a second stream. */
  lemma {:induction false} DialerOutcome(env: Env, link: Link, n: NetView)
    requires |link.responderPeerAddrs| > 0
    ensures var (s, r) := ExecuteSpec(env, link, Initial(n));
      var sid := env.sessionId;
      && (r.Ok? <==> s.state == DSendContact)
      && (r.Err? <==> s.state == DFailed)
      && |s.net.dials| >= |n.dials| + 1 && s.net.dials[|n.dials|] == DialOf(env, link)
      && (r.Ok? ==>
            && !Nullish(s.response) && Truthy(Member(s.response, "approved"))
            && |s.calls| >= 1 && s.calls[0] == ValidateResponse(s.response, sid)
            && env.hooks.validateResponse(s.response, sid).Returned?
            && Truthy(env.hooks.validateResponse(s.response, sid).value)
            && s.clock.elapsed < Fires(env.config.sessionTimeoutMs))
      && (r.Ok? && LinkToMode(link) == ResponderCreates ==>
            && s.calls == [ValidateResponse(s.response, sid)]
            && r.value == Member(s.response, "provisionResult") && Truthy(r.value)
            && s.database.None?)
      && (r.Ok? && LinkToMode(link) == InitiatorCreates ==>
            && s.calls == [ValidateResponse(s.response, sid),
                           ProvisionStrand(Initiator, sid, Member(s.response, "partyId"), sid)]
            && env.hooks.provisionStrand(Initiator, sid, Member(s.response, "partyId"), sid) == Returned(r.value)
            && s.net.dials == n.dials + [DialOf(env, link), DialOf(env, link)]
            && s.database.Some?
            && s.database.value.events ==
                 [Wrote(env.json.serialize(DatabaseMessage(Member(r.value, "strand"), Member(r.value, "dbConnectionInfo"))))]
                 + HalfCloseEvents(s.database.value.caps))
  {
    var s0 := Initial(n);
    var (s1, r1) := ConnectAndSendSpec(env, link, s0);
    assert s1.net.dials == n.dials + [DialOf(env, link)];
    if r1.Err? {
      assert ExecuteSpec(env, link, s0) == (s1.(state := DFailed), Err(r1.message));
    } else {
      AwaitResponseAccepts(env, s1);
      var (s2, r2) := AwaitResponseSpec(env, s1);
      if r2.Err? {
        assert ExecuteSpec(env, link, s0) == (s2.(state := DFailed), Err(r2.message));
      } else {
        assert ExecuteSpec(env, link, s0) == SettleSpec(env, link, s2);
        SettleFacts(env, link, s2);
        var (s3, r3) := SettleSpec(env, link, s2);
        assert s3.net.dials[..|s2.net.dials|][|n.dials|] == s3.net.dials[|n.dials|];
      }
    }
  }

  /** The responder's network offers a connection whose sink takes writes. */
  predicate Reachable(n: NetView) {
    n.outbound != [] && n.outbound[0].Accept? && n.outbound[0].script.caps.sinkError.None?
  }

  /** The contact phase when the first dial connects: the contact `{token, partyId,
      identityBundle, cadrePeerAddrs}` is written on the new stream and half-closed, and that
      stream becomes the session's. */
  lemma ContactSent(env: Env, link: Link, n: NetView)
    requires Immediate(env) && |link.responderPeerAddrs| > 0 && Reachable(n)
    ensures ConnectAndSendSpec(env, link, Initial(n)) ==
      (Initial(n).(
         conn := Some(Sent(Opened(n.outbound[0].script), env.json, ContactMessage(link.token, env.sessionId))),
         net := NetView(n.handlers, n.outbound[1..], n.dials + [DialOf(env, link)]),
         clock := Clock(0, 2)),
       Ok(()))
  {
    ImmediateStep(env, Clock(0, 0), Ok(n.outbound[0].script));
    ImmediateStep(env, Clock(0, 1), Ok(()));
    WriteJsonEvents(Opened(n.outbound[0].script), env.json, ContactMessage(link.token, env.sessionId), true);
  }

  /** The state after the contact is sent and `resp` is read back on the same stream. */
  function Answered(env: Env, link: Link, n: NetView): DSnap
    requires |link.responderPeerAddrs| > 0 && Reachable(n)
  {
    var sc := n.outbound[0].script;
    var v := Sent(Opened(sc), env.json, ContactMessage(link.token, env.sessionId));
    Initial(n).(
      conn := Some(ReadJsonSpec(v, env.json).0),
      net := NetView(n.handlers, n.outbound[1..], n.dials + [DialOf(env, link)]),
      clock := Clock(0, 3))
  }

  /** The responder answers `resp` on the contact's stream. */
  predicate Answers(env: Env, n: NetView, resp: Value)
    requires n.outbound != [] && n.outbound[0].Accept?
  {
    var sc := n.outbound[0].script;
    Scan(env.json, "", sc.incoming, sc.caps.ends).0 == Parsed(resp)
  }

  /** A response whose `approved` is falsy fails the session with "Bootstrap rejected: " and the
      response's reason, or 'No reason provided'; no hook is called. */
  lemma DialerRejected(env: Env, link: Link, n: NetView, resp: Value)
    requires Immediate(env) && |link.responderPeerAddrs| > 0 && Reachable(n) && Answers(env, n, resp)
    requires !Nullish(resp) && !Truthy(Member(resp, "approved"))
    ensures var (s, r) := ExecuteSpec(env, link, Initial(n));
      && r == Err(RejectedMessage(Member(resp, "reason")))
      && s == Answered(env, link, n).(state := DFailed)
  {
    ContactSent(env, link, n);
    ImmediateStep(env, Clock(0, 2), Ok(resp));
  }

  /** A response `validateResponse` does not accept fails the session with 'Invalid response
      from peer'. */
  lemma DialerInvalidResponse(env: Env, link: Link, n: NetView, resp: Value, ok: Value)
    requires Immediate(env) && |link.responderPeerAddrs| > 0 && Reachable(n) && Answers(env, n, resp)
    requires !Nullish(resp) && Truthy(Member(resp, "approved"))
    requires env.hooks.validateResponse(resp, env.sessionId) == Returned(ok) && !Truthy(ok)
    ensures var (s, r) := ExecuteSpec(env, link, Initial(n));
      && r == Err(INVALID_RESPONSE)
      && s == Answered(env, link, n).(state := DFailed, calls := [ValidateResponse(resp, env.sessionId)], clock := Clock(0, 4))
  {
    ContactSent(env, link, n);
    ImmediateStep(env, Clock(0, 2), Ok(resp));
    ImmediateStep(env, Clock(0, 3), Ok(ok));
  }

  /** The response phase when the response approves and is accepted. */
  lemma ResponseAccepted(env: Env, link: Link, n: NetView, resp: Value, ok: Value)
    requires Immediate(env) && |link.responderPeerAddrs| > 0 && Reachable(n) && Answers(env, n, resp)
    requires !Nullish(resp) && Truthy(Member(resp, "approved"))
    requires env.hooks.validateResponse(resp, env.sessionId) == Returned(ok) && Truthy(ok)
    ensures
      var s1 := ConnectAndSendSpec(env, link, Initial(n)).0;
      AwaitResponseSpec(env, s1) ==
      (Answered(env, link, n).(response := resp, calls := [ValidateResponse(resp, env.sessionId)], clock := Clock(0, 4)), Ok(()))
  {
    ContactSent(env, link, n);
    var s1 := ConnectAndSendSpec(env, link, Initial(n)).0;
    ImmediateStep(env, Clock(0, 2), Ok(resp));
    ImmediateStep(env, Clock(0, 3), Ok(ok));
    var (v1, read) := ReadStep(env, s1.clock, s1.conn.value);
    assert read == Raced(Ok(resp), Clock(0, 3), false);
    var sa := s1.(conn := Some(v1), clock := read.clock);
    assert sa == Answered(env, link, n);
    var (calls2, okr) := HookStep(env, sa.clock, sa.calls, ValidateResponse(resp, env.sessionId));
    assert okr == Raced(Ok(ok), Clock(0, 4), false);
    assert calls2 == [ValidateResponse(resp, env.sessionId)];
  }

  /** In responderCreates mode an accepted response without a truthy `provisionResult` fails the
      session with 'Missing provision result for responderCreates mode'. */
  lemma DialerMissingProvision(env: Env, link: Link, n: NetView, resp: Value, ok: Value)
    requires Immediate(env) && |link.responderPeerAddrs| > 0 && Reachable(n) && Answers(env, n, resp)
    requires !Nullish(resp) && Truthy(Member(resp, "approved"))
    requires env.hooks.validateResponse(resp, env.sessionId) == Returned(ok) && Truthy(ok)
    requires LinkToMode(link) == ResponderCreates && !Truthy(Member(resp, "provisionResult"))
    ensures ExecuteSpec(env, link, Initial(n)).1 == Err(MISSING_PROVISION_RESULT)
    ensures ExecuteSpec(env, link, Initial(n)).0.state == DFailed
  {
    ResponseAccepted(env, link, n, resp, ok);
  }

  /** In responderCreates mode an accepted response with a `provisionResult` completes the
      session with that result, and the contact stream is closed. */
  lemma DialerReturnsProvisionResult(env: Env, link: Link, n: NetView, resp: Value, ok: Value)
    requires Immediate(env) && |link.responderPeerAddrs| > 0 && Reachable(n) && Answers(env, n, resp)
    requires !Nullish(resp) && Truthy(Member(resp, "approved"))
    requires env.hooks.validateResponse(resp, env.sessionId) == Returned(ok) && Truthy(ok)
    requires LinkToMode(link) == ResponderCreates && Truthy(Member(resp, "provisionResult"))
    ensures var (s, r) := ExecuteSpec(env, link, Initial(n));
      var a := Answered(env, link, n);
      && r == Ok(Member(resp, "provisionResult"))
      && s == a.(response := resp, calls := [ValidateResponse(resp, env.sessionId)], clock := Clock(0, 4),
                 conn := CloseConn(a.conn))
  {
    ResponseAccepted(env, link, n, resp, ok);
  }

  /** In initiatorCreates mode a provisioning hook that throws fails the session with
      "Provisioning failed: " and the hook's message. */
  lemma DialerProvisionFailureWrapped(env: Env, link: Link, n: NetView, resp: Value, ok: Value, m: string)
    requires Immediate(env) && |link.responderPeerAddrs| > 0 && Reachable(n) && Answers(env, n, resp)
    requires !Nullish(resp) && Truthy(Member(resp, "approved"))
    requires env.hooks.validateResponse(resp, env.sessionId) == Returned(ok) && Truthy(ok)
    requires LinkToMode(link) == InitiatorCreates
    requires env.hooks.provisionStrand(Initiator, env.sessionId, Member(resp, "partyId"), env.sessionId) == Threw(m)
    ensures ExecuteSpec(env, link, Initial(n)).1 == Err("Provisioning failed: " + ThrownText(m))
    ensures ExecuteSpec(env, link, Initial(n)).0.state == DFailed
  {
    ResponseAccepted(env, link, n, resp, ok);
    ImmediateStep<Value>(env, Clock(0, 4), Err(m));
  }


  /** After an approving response the hook accepts, the run continues with the mode-dependent
      settlement from the answered state. */
  lemma AcceptedSettles(env: Env, link: Link, n: NetView, resp: Value, ok: Value)
    requires Immediate(env) && |link.responderPeerAddrs| > 0 && Reachable(n) && Answers(env, n, resp)
    requires !Nullish(resp) && Truthy(Member(resp, "approved"))
    requires env.hooks.validateResponse(resp, env.sessionId) == Returned(ok) && Truthy(ok)
    ensures ExecuteSpec(env, link, Initial(n)) ==
      SettleSpec(env, link, Answered(env, link, n).(response := resp, calls := [ValidateResponse(resp, env.sessionId)], clock := Clock(0, 4)))
  {
    ResponseAccepted(env, link, n, resp, ok);
  }

  /** In initiatorCreates mode, with the provisioning hook returning `p` and the second dial
      connecting, the session returns `p` after sending `{strand, dbConnectionInfo}` of `p` on
      the second stream and closing the first. */
  lemma DialerSendsDatabase(env: Env, link: Link, n: NetView, resp: Value, ok: Value, p: Value)
    requires Immediate(env) && |link.responderPeerAddrs| > 0 && Reachable(n) && Answers(env, n, resp)
    requires !Nullish(resp) && Truthy(Member(resp, "approved"))
    requires env.hooks.validateResponse(resp, env.sessionId) == Returned(ok) && Truthy(ok)
    requires LinkToMode(link) == InitiatorCreates
    requires env.hooks.provisionStrand(Initiator, env.sessionId, Member(resp, "partyId"), env.sessionId) == Returned(p)
    requires !Nullish(p) && Reachable(n.(outbound := n.outbound[1..]))
    ensures var (s, r) := ExecuteSpec(env, link, Initial(n));
      var a := Answered(env, link, n);
      var db := DatabaseMessage(Member(p, "strand"), Member(p, "dbConnectionInfo"));
      && r == Ok(p)
      && s == a.(
           response := resp,
           calls := [ValidateResponse(resp, env.sessionId),
                     ProvisionStrand(Initiator, env.sessionId, Member(resp, "partyId"), env.sessionId)],
           net := NetView(n.handlers, n.outbound[2..], n.dials + [DialOf(env, link), DialOf(env, link)]),
           database := Some(Sent(Opened(n.outbound[1].script), env.json, db)),
           conn := CloseConn(a.conn),
           clock := Clock(0, 7))
  {
    AcceptedSettles(env, link, n, resp, ok);
    var a := Answered(env, link, n).(response := resp, calls := [ValidateResponse(resp, env.sessionId)], clock := Clock(0, 4));
    InitiatorSettles(env, link, a, p);
    assert n.outbound[1..][1..] == n.outbound[2..];
    assert n.outbound[1..][0] == n.outbound[1];
    assert (n.dials + [DialOf(env, link)]) + [DialOf(env, link)] == n.dials + [DialOf(env, link), DialOf(env, link)];
    assert a.calls + [ProvisionStrand(Initiator, env.sessionId, Member(resp, "partyId"), env.sessionId)]
      == [ValidateResponse(resp, env.sessionId), ProvisionStrand(Initiator, env.sessionId, Member(resp, "partyId"), env.sessionId)];
  }

  /** In initiatorCreates mode with no delays, a provisioning hook that returns `p` and a
      second dial that connects lead to the database message on the new stream and `p`. */
  lemma InitiatorSettles(env: Env, link: Link, s: DSnap, p: Value)
    requires Immediate(env) && |link.responderPeerAddrs| > 0 && s.clock.elapsed == 0
    requires LinkToMode(link) == InitiatorCreates && Truthy(s.response) && s.state == DSendContact
    requires env.hooks.provisionStrand(Initiator, env.sessionId, Member(s.response, "partyId"), env.sessionId) == Returned(p)
    requires !Nullish(p) && Reachable(s.net)
    ensures var db := DatabaseMessage(Member(p, "strand"), Member(p, "dbConnectionInfo"));
      SettleSpec(env, link, s) ==
      (s.(calls := s.calls + [ProvisionStrand(Initiator, env.sessionId, Member(s.response, "partyId"), env.sessionId)],
          net := NetView(s.net.handlers, s.net.outbound[1..], s.net.dials + [DialOf(env, link)]),
          database := Some(Sent(Opened(s.net.outbound[0].script), env.json, db)),
          conn := CloseConn(s.conn),
          clock := Clock(0, s.clock.tick + 3)),
       Ok(p))
  {
    ImmediateStep(env, s.clock, Ok(p));
    ImmediateStep(env, Clock(0, s.clock.tick + 1), Ok(s.net.outbound[0].script));
    ImmediateStep(env, Clock(0, s.clock.tick + 2), Ok(()));
    var db := DatabaseMessage(Member(p, "strand"), Member(p, "dbConnectionInfo"));
    WriteJsonEvents(Opened(s.net.outbound[0].script), env.json, db, true);
  }

  /** With no connection to be had, the dial never settles and the session fails with the
      step's timeout, or the session's when that is the shorter. */
  lemma DialerUnansweredTimesOut(env: Env, link: Link, n: NetView)
    requires |link.responderPeerAddrs| > 0 && n.outbound == []
    ensures var (s, r) := ExecuteSpec(env, link, Initial(n));
      var cfg := env.config;
      && r == Err(TimeoutMessage(if Fires(cfg.stepTimeoutMs) >= Fires(cfg.sessionTimeoutMs) then cfg.sessionTimeoutMs else cfg.stepTimeoutMs))
      && s.state == DFailed && s.conn.None? && s.calls == []
  {
    HangingStepTimesOut<StreamScript>(env.config.sessionTimeoutMs, env.config.stepTimeoutMs, Clock(0, 0));
  }
}
