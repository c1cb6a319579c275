/** The responder's side of the handshake: `ListenerSession` reads the contact message,
    validates the token and then the identity, provisions eagerly in responderCreates mode,
    answers with an approval or a rejection and, in initiatorCreates mode, waits for the
    database message. Its phases are functions on a snapshot of the session; the class runs
    them step by step on its fields and its stream. */
module Listener {
  import opened Outcomes
  import opened JsValues
  import opened Transport
  import opened Codec
  import opened Deadlines
  import opened Protocol
  import opened Steps

  datatype LState = LProcessContact | LSendResponse | LAwaitDatabase | LDone | LFailed

  /** Everything a listener session updates: its state, what the token hook returned, the
      contact message, the provision result, its stream, the hook calls so far and its clock. */
  datatype LSnap = LSnap(
    state: LState,
    tokenInfo: Value,
    contact: Value,
    provision: Value,
    stream: StreamView,
    calls: seq<Call>,
    clock: Clock)

  /** A new session on a freshly accepted stream. */
  function Initial(v: StreamView): LSnap {
    LSnap(LProcessContact, Null, Null, Null, v, [], Clock(0, 0))
  }

  /** `sendRejection(reason)` followed by `throw new Error(reason)`. The write is raced by the
      session deadline only. */
  function RejectSpec(env: Env, s: LSnap, reason: string): (LSnap, Outcome<()>) {
    var (v, w) := WriteStep(env, s.clock, s.stream, Rejection(reason), true, false);
    var s' := s.(stream := v, clock := w.clock);
    if w.outcome.Err? then (s', Err(w.outcome.message)) else (s', Err(reason))
  }

  /** `processContact`. */
  function ProcessContactSpec(env: Env, s: LSnap): (r: (LSnap, Outcome<()>))
    ensures r.0.state == s.state
    ensures r.1.Ok? ==> Truthy(OptionalMember(r.0.tokenInfo, "valid")) && !Nullish(r.0.contact)
  {
    var (v1, read) := ReadStep(env, s.clock, s.stream);
    var s1 := s.(stream := v1, clock := read.clock);
    if read.outcome.Err? then (s1, Err(read.outcome.message))
    else
      var msg := read.outcome.value;
      var s2 := s1.(contact := msg);
      var token := Get(msg, "token");
      if token.Err? then (s2, Err(token.message))
      else
        var (calls3, tok) := HookStep(env, s2.clock, s2.calls, ValidateToken(token.value, env.sessionId));
        var s3 := s2.(calls := calls3, clock := tok.clock);
        if tok.outcome.Err? then (s3, Err(tok.outcome.message))
        else
          var info := tok.outcome.value;
          var s4 := s3.(tokenInfo := info);
          if !Truthy(OptionalMember(info, "valid")) then RejectSpec(env, s4, INVALID_TOKEN)
          else VetIdentitySpec(env, s4, msg)
  }

  /** The rest of `processContact` once the token is valid: the identity check, then, in
      responderCreates mode, the responder's provisioning for the contact's party. */
  function VetIdentitySpec(env: Env, s: LSnap, msg: Value): (r: (LSnap, Outcome<()>))
    requires !Nullish(s.tokenInfo)
    ensures r.0.state == s.state && r.0.tokenInfo == s.tokenInfo && r.0.contact == s.contact
  {
    var (calls5, idr) :=
      HookStep(env, s.clock, s.calls, ValidateIdentity(Member(msg, "identityBundle"), env.sessionId));
    var s5 := s.(calls := calls5, clock := idr.clock);
    if idr.outcome.Err? then (s5, Err(idr.outcome.message))
    else if !Truthy(idr.outcome.value) then RejectSpec(env, s5, INVALID_IDENTITY)
    else if TokenInfoToMode(s.tokenInfo) == Str(RESPONDER_CREATES) then
      var (calls6, pr) := HookStep(env, s5.clock, s5.calls,
        ProvisionStrand(Responder, env.sessionId, Member(msg, "partyId"), env.sessionId));
      var s6 := s5.(calls := calls6, clock := pr.clock);
      if pr.outcome.Err? then (s6, Err(pr.outcome.message))
      else (s6.(provision := pr.outcome.value), Ok(()))
    else (s5, Ok(()))
  }

  /** `sendResponse`: the approval, written and half-closed under the step deadline. */
  function SendResponseSpec(env: Env, s: LSnap): (r: (LSnap, Outcome<()>))
    ensures r.0.state == LSendResponse
    ensures r.0.tokenInfo == s.tokenInfo && r.0.calls == s.calls && r.0.contact == s.contact
    ensures r.1.Ok? ==> Truthy(s.tokenInfo) && Truthy(s.contact)
    ensures !(Truthy(s.tokenInfo) && Truthy(s.contact)) ==>
      r.1 == Err(INVALID_STATE) && r.0.stream == s.stream && r.0.clock == s.clock
  {
    var s1 := s.(state := LSendResponse);
    if !Truthy(s1.tokenInfo) || !Truthy(s1.contact) then (s1, Err(INVALID_STATE))
    else
      var (v, w) := WriteStep(env, s1.clock, s1.stream, Approval(env.sessionId, s1.provision), true, true);
      (s1.(stream := v, clock := w.clock), w.outcome)
  }

  /** `awaitDatabase`: a second message read from the same stream, checked by the hook. */
  function AwaitDatabaseSpec(env: Env, s: LSnap): (r: (LSnap, Outcome<()>))
    ensures r.0.state == LAwaitDatabase
    ensures r.0.tokenInfo == s.tokenInfo && r.0.contact == s.contact
  {
    var s1 := s.(state := LAwaitDatabase);
    var (v2, read) := ReadStep(env, s1.clock, s1.stream);
    var s2 := s1.(stream := v2, clock := read.clock);
    if read.outcome.Err? then (s2, Err(read.outcome.message))
    else
      var (calls3, ok) := HookStep(env, s2.clock, s2.calls, ValidateDatabaseResult(read.outcome.value, env.sessionId));
      var s3 := s2.(calls := calls3, clock := ok.clock);
      if ok.outcome.Err? then (s3, Err(ok.outcome.message))
      else if !Truthy(ok.outcome.value) then (s3, Err(INVALID_DATABASE_RESULT))
      else (s3, Ok(()))
  }

  /** `execute`: the phases in order inside the session deadline; any error fails the session
      and is passed on, success marks it done and closes the stream. */
  function ExecuteSpec(env: Env, s: LSnap): (LSnap, Outcome<()>) {
    var (s1, r1) := ProcessContactSpec(env, s);
    if r1.Err? then (s1.(state := LFailed), r1)
    else
      var (s2, r2) := SendResponseSpec(env, s1);
      if r2.Err? then (s2.(state := LFailed), r2)
      else FinishSpec(env, s2)
  }

  /** The rest of `execute` once the response is sent: the database message in
      initiatorCreates mode, then done and the stream closed. */
  function FinishSpec(env: Env, s: LSnap): (LSnap, Outcome<()>)
    requires !Nullish(s.tokenInfo)
  {
    var (s3, r3) :=
      if TokenInfoToMode(s.tokenInfo) == Str(INITIATOR_CREATES) then AwaitDatabaseSpec(env, s) else (s, Ok(()));
    if r3.Err? then (s3.(state := LFailed), r3)
    else (s3.(state := LDone, stream := CloseStreamSpec(s3.stream)), Ok(()))
  }

  class ListenerSession {
    const sessionId: string
    const stream: Stream
    const hooks: Hooks
    const config: Config
    const json: Json
    const timing: seq<Delay>

    var state: LState
    var tokenInfo: Value
    var contactMessage: Value
    var provisionResult: Value
    var calls: seq<Call>
    var clock: Clock

    function Env(): Env {
      Steps.Env(sessionId, hooks, config, json, timing)
    }

    function View(): LSnap
      reads this, stream
    {
      LSnap(state, tokenInfo, contactMessage, provisionResult, stream.View(), calls, clock)
    }

    constructor (sessionId: string, stream: Stream, hooks: Hooks, config: Config, json: Json, timing: seq<Delay>)
      ensures this.sessionId == sessionId && this.stream == stream && this.config == config
      ensures this.hooks == hooks && this.json == json && this.timing == timing
      ensures View() == Initial(stream.View())
    {
      this.sessionId := sessionId;
      this.stream := stream;
      this.hooks := hooks;
      this.config := config;
      this.json := json;
      this.timing := timing;
      state := LProcessContact;
      tokenInfo := Null;
      contactMessage := Null;
      provisionResult := Null;
      calls := [];
      clock := Clock(0, 0);
    }

    /** Makes a hook call, logs it and races it under the step deadline. */
    method CallHook(call: Call) returns (x: Raced<Value>)
      modifies this
      ensures (calls, x) == HookStep(Env(), old(clock), old(calls), call)
      ensures clock == x.clock
      ensures state == old(state) && tokenInfo == old(tokenInfo) && contactMessage == old(contactMessage)
      ensures provisionResult == old(provisionResult)
    {
      var reply := Invoke(hooks, call);
      calls := calls + [call];
      x := Step(Env(), clock, Scheduled(Next(Env(), clock), ReplyOutcome(reply)));
      clock := x.clock;
    }

    method SendRejection(reason: string) returns (r: Outcome<()>)
      modifies this, stream
      ensures (View(), r) == RejectSpec(Env(), old(View()), reason)
    {
      var w := WriteStepOn(Env(), clock, stream, Rejection(reason), true, false);
      clock := w.clock;
      if w.outcome.Err? {
        return Err(w.outcome.message);
      }
      return Err(reason);
    }

    method ProcessContact() returns (r: Outcome<()>)
      modifies this, stream
      ensures (View(), r) == ProcessContactSpec(Env(), old(View()))
    {
      var read := ReadStepOn(Env(), clock, stream);
      clock := read.clock;
      if read.outcome.Err? {
        return Err(read.outcome.message);
      }
      var msg := read.outcome.value;
      contactMessage := msg;
      var token := Get(msg, "token");
      if token.Err? {
        return Err(token.message);
      }
      var tok := CallHook(ValidateToken(token.value, sessionId));
      if tok.outcome.Err? {
        return Err(tok.outcome.message);
      }
      tokenInfo := tok.outcome.value;
      if !Truthy(OptionalMember(tokenInfo, "valid")) {
        r := SendRejection(INVALID_TOKEN);
        return;
      }
      r := VetIdentity(msg);
    }

    /** The identity check and responderCreates provisioning of `processContact`. */
    method VetIdentity(msg: Value) returns (r: Outcome<()>)
      requires !Nullish(tokenInfo)
      modifies this, stream
      ensures (View(), r) == VetIdentitySpec(Env(), old(View()), msg)
    {
      var okId := CallHook(ValidateIdentity(Member(msg, "identityBundle"), sessionId));
      if okId.outcome.Err? {
        return Err(okId.outcome.message);
      }
      if !Truthy(okId.outcome.value) {
        r := SendRejection(INVALID_IDENTITY);
        return;
      }
      if TokenInfoToMode(tokenInfo) == Str(RESPONDER_CREATES) {
        var pr := CallHook(ProvisionStrand(Responder, sessionId, Member(msg, "partyId"), sessionId));
        if pr.outcome.Err? {
          return Err(pr.outcome.message);
        }
        provisionResult := pr.outcome.value;
      }
      r := Ok(());
    }

    method SendResponse() returns (r: Outcome<()>)
      modifies this, stream
      ensures (View(), r) == SendResponseSpec(Env(), old(View()))
    {
      state := LSendResponse;
      if !Truthy(tokenInfo) || !Truthy(contactMessage) {
        return Err(INVALID_STATE);
      }
      var w := WriteStepOn(Env(), clock, stream, Approval(sessionId, provisionResult), true, true);
      clock := w.clock;
      r := w.outcome;
    }

    method AwaitDatabase() returns (r: Outcome<()>)
      modifies this, stream
      ensures (View(), r) == AwaitDatabaseSpec(Env(), old(View()))
    {
      state := LAwaitDatabase;
      var read := ReadStepOn(Env(), clock, stream);
      clock := read.clock;
      if read.outcome.Err? {
        return Err(read.outcome.message);
      }
      var ok := CallHook(ValidateDatabaseResult(read.outcome.value, sessionId));
      if ok.outcome.Err? {
        return Err(ok.outcome.message);
      }
      if !Truthy(ok.outcome.value) {
        return Err(INVALID_DATABASE_RESULT);
      }
      r := Ok(());
    }

    /** `execute()`: the phases in order inside the session deadline; any error marks the
        session failed and is passed on. */
    method Execute() returns (r: Outcome<()>)
      modifies this, stream
      ensures (View(), r) == ExecuteSpec(Env(), old(View()))
    {
      ghost var s0 := View();
      r := ProcessContact();
      if r.Err? {
        state := LFailed;
        return;
      }
      ghost var s1 := View();
      assert (s1, r) == ProcessContactSpec(Env(), s0);
      r := SendResponse();
      if r.Err? {
        state := LFailed;
        return;
      }
      ghost var s2 := View();
      assert (s2, r) == SendResponseSpec(Env(), s1);
      assert ExecuteSpec(Env(), s0) == FinishSpec(Env(), s2);
      r := Finish();
    }

    /** What `execute` does once the response is sent. */
    method Finish() returns (r: Outcome<()>)
      requires !Nullish(tokenInfo)
      modifies this, stream
      ensures (View(), r) == FinishSpec(Env(), old(View()))
    {
      if TokenInfoToMode(tokenInfo) == Str(INITIATOR_CREATES) {
        r := AwaitDatabase();
        if r.Err? {
          state := LFailed;
          return;
        }
      }
      r := Ok(());
      state := LDone;
      CloseStream(stream);
    }
  }
}
