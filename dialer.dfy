/** The initiator's side of the handshake: `DialerSession` dials the responder named in the
    invitation, sends the contact message, checks the response and then either returns the
    responder's provision result (responderCreates) or provisions itself and sends the
    database message on a second stream (initiatorCreates). */
module Dialer {
  import opened Outcomes
  import opened JsValues
  import opened Transport
  import opened Codec
  import opened Deadlines
  import opened Protocol
  import opened Steps

  /** The states the source declares. Only `DSendContact` (the initial state) and `DFailed` are
      ever assigned. */
  datatype DState = DSendContact | DAwaitResponse | DProvisionDatabase | DDone | DFailed

  /** Everything a dialer session updates: its state, its stream (set once the contact is
      sent), the accepted response, the stream the database message went out on, the node,
      the hook calls so far and its clock. */
  datatype DSnap = DSnap(
    state: DState,
    conn: Option<StreamView>,
    response: Value,
    database: Option<StreamView>,
    net: NetView,
    calls: seq<Call>,
    clock: Clock)

  function Initial(n: NetView): DSnap {
    DSnap(DSendContact, None, Null, None, n, [], Clock(0, 0))
  }

  /** The protocol id the dialer dials: the link's, else the configuration's, else the default. */
  function DialedProtocol(env: Env, link: Link): string {
    ResolveProtocolId(link.protocolId, env.config.protocolId)
  }

  /** `closeStream()` on the session's stream, when it has one. */
  function CloseConn(conn: Option<StreamView>): Option<StreamView> {
    if conn.Some? then Some(CloseStreamSpec(conn.value)) else None
  }

  /** `connectAndSend` and the assignment of its stream: dial the first responder address, then
      write the contact message and half-close, each under the step deadline. */
  function ConnectAndSendSpec(env: Env, link: Link, s: DSnap): (r: (DSnap, Outcome<()>))
    requires |link.responderPeerAddrs| > 0
    ensures r.0.state == s.state && r.0.response == s.response && r.0.calls == s.calls && r.0.database == s.database
    ensures r.0.net == DialSpec(s.net, link.responderPeerAddrs[0], DialedProtocol(env, link)).0
    ensures r.1.Ok? ==> r.0.conn.Some?
  {
    var (n1, dial) := DialStep(env, s.clock, s.net, link.responderPeerAddrs[0], DialedProtocol(env, link));
    var s1 := s.(net := n1, clock := dial.clock);
    if dial.outcome.Err? then (s1, Err(dial.outcome.message))
    else
      var (v, w) := WriteStep(env, s1.clock, Opened(dial.outcome.value), ContactMessage(link.token, env.sessionId), true, true);
      var s2 := s1.(clock := w.clock);
      if w.outcome.Err? then (s2, Err(w.outcome.message)) else (s2.(conn := Some(v)), Ok(()))
  }

  /** `awaitResponse` and the assignment of its result: read the response, refuse one that does
      not approve, then ask the hook. */
  function AwaitResponseSpec(env: Env, s: DSnap): (r: (DSnap, Outcome<()>))
    ensures r.0.state == s.state && r.0.net == s.net && r.0.database == s.database
    ensures r.1.Ok? ==> r.0.conn.Some? && Truthy(r.0.response)
  {
    if s.conn.None? then (s, Err(NO_STREAM))
    else
      var (v1, read) := ReadStep(env, s.clock, s.conn.value);
      var s1 := s.(conn := Some(v1), clock := read.clock);
      if read.outcome.Err? then (s1, Err(read.outcome.message))
      else
        var resp := read.outcome.value;
        var approved := Get(resp, "approved");
        if approved.Err? then (s1, Err(approved.message))
        else if !Truthy(approved.value) then (s1, Err(RejectedMessage(Member(resp, "reason"))))
        else
          var (calls2, ok) := HookStep(env, s1.clock, s1.calls, ValidateResponse(resp, env.sessionId));
          var s2 := s1.(calls := calls2, clock := ok.clock);
          if ok.outcome.Err? then (s2, Err(ok.outcome.message))
          else if !Truthy(ok.outcome.value) then (s2, Err(INVALID_RESPONSE))
          else (s2.(response := resp), Ok(()))
  }

  /** The error `provisionAndSendDatabase` reports when the provisioning step fails: the hook's
      error or the step's timeout, wrapped; but once the session deadline has passed the
      session's own timeout is what the caller sees. */
  function ProvisionError(step: Raced<Value>): (e: string)
    requires step.outcome.Err?
    ensures step.expired ==> e == step.outcome.message
    ensures !step.expired ==> e == "Provisioning failed: " + ThrownText(step.outcome.message)
    ensures !step.expired && step.outcome.message != "" ==> e == "Provisioning failed: " + step.outcome.message
  {
    if step.expired then step.outcome.message else "Provisioning failed: " + ThrownText(step.outcome.message)
  }

  /** `provisionAndSendDatabase`: provision as the initiator for the responder's party, then
      dial again and send `{strand, dbConnectionInfo}` on the new stream, half-closed, and
      close the session's stream. */
  function ProvisionAndSendDatabaseSpec(env: Env, link: Link, s: DSnap): (r: (DSnap, Outcome<Value>))
    requires |link.responderPeerAddrs| > 0
    ensures r.0.response == s.response
  {
    if !Truthy(s.response) then (s, Err(NO_RESPONSE_MESSAGE))
    else
      var (calls1, pr) := HookStep(env, s.clock, s.calls,
        ProvisionStrand(Initiator, env.sessionId, Member(s.response, "partyId"), env.sessionId));
      var s1 := s.(calls := calls1, clock := pr.clock);
      if pr.outcome.Err? then (s1.(state := DFailed), Err(ProvisionError(pr)))
      else
        var provision := pr.outcome.value;
        var strand := Get(provision, "strand");
        if strand.Err? then (s1, Err(strand.message))
        else SendDatabaseSpec(env, link, s1, provision, DatabaseMessage(strand.value, Member(provision, "dbConnectionInfo")))
  }

  /** The second half of `provisionAndSendDatabase`: dial the responder again, send the
      database message half-closed on the new stream, close the session's stream and return
      the provision result. */
  function SendDatabaseSpec(env: Env, link: Link, s: DSnap, provision: Value, dbMsg: Value): (r: (DSnap, Outcome<Value>))
    requires |link.responderPeerAddrs| > 0
    ensures r.0.response == s.response && r.0.state == s.state && r.0.calls == s.calls
    ensures r.1.Ok? ==> r.1.value == provision
  {
    var (n2, dial) := DialStep(env, s.clock, s.net, link.responderPeerAddrs[0], DialedProtocol(env, link));
    var s2 := s.(net := n2, clock := dial.clock);
    if dial.outcome.Err? then (s2, Err(dial.outcome.message))
    else DeliverDatabaseSpec(env, s2.(database := Some(Opened(dial.outcome.value))), provision, dbMsg)
  }

  /** The database message written and half-closed on the second stream under the step
      deadline, then `closeStream()` on the first. */
  function DeliverDatabaseSpec(env: Env, s: DSnap, provision: Value, dbMsg: Value): (r: (DSnap, Outcome<Value>))
    requires s.database.Some?
    ensures r.0.response == s.response && r.0.state == s.state && r.0.calls == s.calls && r.0.net == s.net
    ensures r.1.Ok? ==> r.1.value == provision
  {
    var (v, w) := WriteStep(env, s.clock, s.database.value, dbMsg, true, true);
    var s3 := s.(database := Some(v), clock := w.clock);
    if w.outcome.Err? then (s3, Err(w.outcome.message))
    else (s3.(conn := CloseConn(s3.conn)), Ok(provision))
  }

  /** What `execute` does once the response is accepted, by the link's mode. */
  function SettleSpec(env: Env, link: Link, s: DSnap): (DSnap, Outcome<Value>)
    requires |link.responderPeerAddrs| > 0
  {
    if LinkToMode(link) == InitiatorCreates then
      var (s3, r3) := ProvisionAndSendDatabaseSpec(env, link, s);
      if r3.Err? then (s3.(state := DFailed), r3) else (s3, r3)
    else
      var pr := Member(s.response, "provisionResult");
      if !Truthy(pr) then (s.(state := DFailed), Err(MISSING_PROVISION_RESULT))
      else (s.(conn := CloseConn(s.conn)), Ok(pr))
  }

  /** `execute`: the phases in order inside the session deadline; any error marks the session
      failed and is passed on. */
  function ExecuteSpec(env: Env, link: Link, s: DSnap): (DSnap, Outcome<Value>)
    requires |link.responderPeerAddrs| > 0
  {
    var (s1, r1) := ConnectAndSendSpec(env, link, s);
    if r1.Err? then (s1.(state := DFailed), Err(r1.message))
    else
      var (s2, r2) := AwaitResponseSpec(env, s1);
      if r2.Err? then (s2.(state := DFailed), Err(r2.message))
      else SettleSpec(env, link, s2)
  }

  class DialerSession {
    const sessionId: string
    const link: Link
    const node: Network
    const hooks: Hooks
    const config: Config
    const json: Json
    const timing: seq<Delay>

    var state: DState
    var stream: Stream?
    var responseMessage: Value
    /** The stream the database message was sent on (a local of the source, kept here so that
        what was sent on it can be seen). */
    var databaseStream: Stream?
    var calls: seq<Call>
    var clock: Clock

    function Env(): Env {
      Steps.Env(sessionId, hooks, config, json, timing)
    }

    function View(): DSnap
      reads this, node, stream, databaseStream
    {
      DSnap(state, if stream == null then None else Some(stream.View()), responseMessage,
        if databaseStream == null then None else Some(databaseStream.View()), node.View(), calls, clock)
    }

    constructor (sessionId: string, link: Link, node: Network, hooks: Hooks, config: Config, json: Json, timing: seq<Delay>)
      ensures this.sessionId == sessionId && this.link == link && this.node == node && this.config == config
      ensures this.hooks == hooks && this.json == json && this.timing == timing
      ensures View() == Initial(node.View())
    {
      this.sessionId := sessionId;
      this.link := link;
      this.node := node;
      this.hooks := hooks;
      this.config := config;
      this.json := json;
      this.timing := timing;
      state := DSendContact;
      stream := null;
      responseMessage := Null;
      databaseStream := null;
      calls := [];
      clock := Clock(0, 0);
    }

    /** Makes a hook call, logs it and races it under the step deadline. */
    method CallHook(call: Call) returns (x: Raced<Value>)
      modifies this
      ensures (calls, x) == HookStep(Env(), old(clock), old(calls), call)
      ensures clock == x.clock
      ensures state == old(state) && stream == old(stream) && responseMessage == old(responseMessage)
      ensures databaseStream == old(databaseStream)
    {
      var reply := Invoke(hooks, call);
      calls := calls + [call];
      x := Step(Env(), clock, Scheduled(Next(Env(), clock), ReplyOutcome(reply)));
      clock := x.clock;
    }

    method ConnectAndSend() returns (r: Outcome<()>)
      requires |link.responderPeerAddrs| > 0
      modifies this, node
      ensures (View(), r) == ConnectAndSendSpec(Env(), link, old(View()))
      ensures r.Ok? ==> stream != null && fresh(stream)
      ensures r.Err? ==> stream == old(stream)
      ensures databaseStream == old(databaseStream)
    {
      ghost var s0 := View();
      var s, dial := DialStepOn(Env(), clock, node, link.responderPeerAddrs[0], DialedProtocol(Env(), link));
      clock := dial.clock;
      assert View() == s0.(net := node.View(), clock := clock);
      if dial.outcome.Err? {
        return Err(dial.outcome.message);
      }
      var w := WriteStepOn(Env(), clock, s, ContactMessage(link.token, sessionId), true, true);
      clock := w.clock;
      assert View() == s0.(net := node.View(), clock := clock);
      if w.outcome.Err? {
        return Err(w.outcome.message);
      }
      stream := s;
      r := Ok(());
    }

    method AwaitResponse() returns (r: Outcome<()>)
      requires databaseStream != stream || stream == null
      modifies this, stream
      ensures (View(), r) == AwaitResponseSpec(Env(), old(View()))
      ensures stream == old(stream) && databaseStream == old(databaseStream)
    {
      if stream == null {
        return Err(NO_STREAM);
      }
      var read := ReadStepOn(Env(), clock, stream);
      clock := read.clock;
      if read.outcome.Err? {
        return Err(read.outcome.message);
      }
      var response := read.outcome.value;
      var approved := Get(response, "approved");
      if approved.Err? {
        return Err(approved.message);
      }
      if !Truthy(approved.value) {
        return Err(RejectedMessage(Member(response, "reason")));
      }
      var ok := CallHook(ValidateResponse(response, sessionId));
      if ok.outcome.Err? {
        return Err(ok.outcome.message);
      }
      if !Truthy(ok.outcome.value) {
        return Err(INVALID_RESPONSE);
      }
      responseMessage := response;
      r := Ok(());
    }

    method ProvisionAndSendDatabase() returns (r: Outcome<Value>)
      requires |link.responderPeerAddrs| > 0
      requires databaseStream != stream || stream == null
      modifies this, node, stream
      ensures (View(), r) == ProvisionAndSendDatabaseSpec(Env(), link, old(View()))
    {
      if !Truthy(responseMessage) {
        return Err(NO_RESPONSE_MESSAGE);
      }
      var pr := CallHook(ProvisionStrand(Initiator, sessionId, Member(responseMessage, "partyId"), sessionId));
      if pr.outcome.Err? {
        state := DFailed;
        return Err(ProvisionError(pr));
      }
      var provision := pr.outcome.value;
      var strand := Get(provision, "strand");
      if strand.Err? {
        return Err(strand.message);
      }
      r := SendDatabase(provision, DatabaseMessage(strand.value, Member(provision, "dbConnectionInfo")));
    }

    method SendDatabase(provision: Value, dbMsg: Value) returns (r: Outcome<Value>)
      requires |link.responderPeerAddrs| > 0
      requires databaseStream != stream || stream == null
      modifies this, node, stream
      ensures (View(), r) == SendDatabaseSpec(Env(), link, old(View()), provision, dbMsg)
    {
      ghost var s0 := View();
      ghost var spec := SendDatabaseSpec(Env(), link, s0, provision, dbMsg);
      var s, dial := DialStepOn(Env(), clock, node, link.responderPeerAddrs[0], DialedProtocol(Env(), link));
      clock := dial.clock;
      ghost var s2 := s0.(net := node.View(), clock := clock);
      assert View() == s2;
      if dial.outcome.Err? {
        assert spec == (s2, Err(dial.outcome.message));
        return Err(dial.outcome.message);
      }
      ghost var s3 := s2.(database := Some(Opened(dial.outcome.value)));
      assert spec == DeliverDatabaseSpec(Env(), s3, provision, dbMsg);
      databaseStream := s;
      assert View() == s3;
      r := DeliverDatabase(provision, dbMsg);
    }

    method DeliverDatabase(provision: Value, dbMsg: Value) returns (r: Outcome<Value>)
      requires databaseStream != null && databaseStream != stream
      modifies this, databaseStream, stream
      ensures (View(), r) == DeliverDatabaseSpec(Env(), old(View()), provision, dbMsg)
    {
      ghost var s0 := View();
      var w := WriteStepOn(Env(), clock, databaseStream, dbMsg, true, true);
      clock := w.clock;
      ghost var s3 := View();
      assert s3 == s0.(database := Some(databaseStream.View()), clock := clock);
      if w.outcome.Err? {
        return Err(w.outcome.message);
      }
      if stream != null {
        CloseStream(stream);
      }
      assert View() == s3.(conn := CloseConn(s3.conn));
      r := Ok(provision);
    }

    /** `execute()`: the phases in order inside the session deadline; any error marks the
        session failed and is passed on. */
    method Execute() returns (r: Outcome<Value>)
      requires |link.responderPeerAddrs| > 0
      modifies this, node, stream
      ensures (View(), r) == ExecuteSpec(Env(), link, old(View()))
    {
      ghost var s0 := View();
      var r1 := ConnectAndSend();
      if r1.Err? {
        state := DFailed;
        return Err(r1.message);
      }
      ghost var s1 := View();
      assert (s1, r1) == ConnectAndSendSpec(Env(), link, s0);
      var r2 := AwaitResponse();
      if r2.Err? {
        state := DFailed;
        return Err(r2.message);
      }
      ghost var s2 := View();
      assert (s2, r2) == AwaitResponseSpec(Env(), s1);
      assert ExecuteSpec(Env(), link, s0) == SettleSpec(Env(), link, s2);
      r := Settle();
    }

    /** What `execute` does once the response is accepted. */
    method Settle() returns (r: Outcome<Value>)
      requires |link.responderPeerAddrs| > 0
      requires databaseStream != stream || stream == null
      modifies this, node, stream
      ensures (View(), r) == SettleSpec(Env(), link, old(View()))
    {
      if LinkToMode(link) == InitiatorCreates {
        r := ProvisionAndSendDatabase();
        if r.Err? {
          state := DFailed;
        }
        return;
      }
      var pr := Member(responseMessage, "provisionResult");
      if !Truthy(pr) {
        state := DFailed;
        return Err(MISSING_PROVISION_RESULT);
      }
      if stream != null {
        CloseStream(stream);
      }
      r := Ok(pr);
    }
  }
}
