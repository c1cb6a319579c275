/** The awaited steps a session is made of: a read of one JSON message, a write of one, a hook
    call and a dial, each raced by `withTimeout`, and the synchronous `closeStream`. Each step
    is given as a function on the views of what it touches, and the steps that act on a
    stream or the network also as a method proved to act as the function says. */
module Steps {
  import opened Outcomes
  import opened JsValues
  import opened Transport
  import opened Codec
  import opened Deadlines
  import opened Protocol

  /** The fixed inputs of one session: its id, the consumer's hooks, the configuration, the
      JSON codec and the schedule of how long each awaited operation takes. */
  datatype Env = Env(sessionId: string, hooks: Hooks, config: Config, json: Json, timing: seq<Delay>)

  /** The delay the schedule gives the next awaited operation. */
  function Next(env: Env, c: Clock): Delay {
    DelayAt(env.timing, c.tick)
  }

  /** `await this.withStepTimeout(op)` within the session deadline. */
  function Step<T>(env: Env, c: Clock, op: Op<T>): Raced<T> {
    StepRace(env.config.sessionTimeoutMs, env.config.stepTimeoutMs, c, op)
  }

  /** A read that would wait forever on a silent open stream never settles. */
  function ReadOp(rr: ReadResult, d: Delay): (op: Op<Value>)
    ensures rr.Blocked? ==> op.Hangs?
    ensures rr.Parsed? ==> op == Scheduled(d, Ok(rr.value))
    ensures rr.Failed? ==> op == Scheduled(d, Err(rr.message))
  {
    match rr
    case Parsed(v) => Scheduled(d, Ok(v))
    case Failed(m) => Scheduled(d, Err(m))
    case Blocked => Hangs
  }

  /** `await this.withStepTimeout(() => readJson(stream))`. The chunks the read consumes are
      gone from the stream whether or not the step's timer fired first. */
  function ReadStep(env: Env, c: Clock, v: StreamView): (StreamView, Raced<Value>) {
    var (v', rr) := ReadJsonSpec(v, env.json);
    (v', Step(env, c, ReadOp(rr, Next(env, c))))
  }

  /** `await this.withStepTimeout(() => this.hooks.h(...))`: the call is made at once and logged. */
  function HookStep(env: Env, c: Clock, calls: seq<Call>, call: Call): (seq<Call>, Raced<Value>) {
    (calls + [call], Step(env, c, Scheduled(Next(env, c), ReplyOutcome(Invoke(env.hooks, call)))))
  }

  /** `writeJson(stream, value, closeAfter)`, awaited under the step deadline when `stepped`
      and otherwise under the session deadline alone. */
  function WriteStep(env: Env, c: Clock, v: StreamView, value: Value, closeAfter: bool, stepped: bool)
    : (StreamView, Raced<()>)
  {
    var (v', w) := WriteJsonSpec(v, env.json, value, closeAfter);
    var op := Scheduled(Next(env, c), w);
    (v', if stepped then Step(env, c, op) else SessionRace(env.config.sessionTimeoutMs, c, op))
  }

  /** A dial that has no connection left to give never settles. */
  function DialOp(reply: DialReply, d: Delay): (op: Op<StreamScript>)
    ensures reply.Unanswered? ==> op.Hangs?
    ensures reply.Connected? ==> op == Scheduled(d, Ok(reply.script))
    ensures reply.Refused? ==> op == Scheduled(d, Err(reply.message))
  {
    match reply
    case Connected(s) => Scheduled(d, Ok(s))
    case Refused(m) => Scheduled(d, Err(m))
    case Unanswered => Hangs
  }

  /** `await this.withStepTimeout(() => this.node.dialProtocol(address, pid))`. */
  function DialStep(env: Env, c: Clock, n: NetView, address: string, protocolId: string)
    : (NetView, Raced<StreamScript>)
  {
    var (n', reply) := DialSpec(n, address, protocolId);
    (n', Step(env, c, DialOp(reply, Next(env, c))))
  }

  /** `closeStream()`: `closeWrite` if the stream has it, then `close` if it has that. */
  function CloseStreamSpec(v: StreamView): (r: StreamView)
    ensures r.caps == v.caps && r.incoming == v.incoming
    ensures r.events == v.events + CloseEvents(v.caps)
  {
    var w := if v.caps.hasCloseWrite then Append(v, ClosedWrite) else v;
    if v.caps.hasClose then Append(w, Closed) else w
  }

  /** Every awaited operation settling at once. No timer fires before 1 millisecond, so the
      timeouts may be anything. */
  predicate Immediate(env: Env) {
    env.timing == []
  }

  /** The events `closeStream` adds. */
  function CloseEvents(caps: Caps): seq<Event> {
    (if caps.hasCloseWrite then [ClosedWrite] else []) + (if caps.hasClose then [Closed] else [])
  }

  /** A step that succeeds settled with that success in time: for a read, the parse; for a
      dial, the connection; for a hook, its returned value. A step's outcome is otherwise a
      timeout or the operation's own error. */
  lemma StepOk<T>(env: Env, c: Clock, op: Op<T>)
    ensures var x := Step(env, c, op);
      && x.clock.tick == c.tick + 1
      && (x.outcome.Ok? ==> op.Settles? && op.result == x.outcome && x.clock.elapsed == c.elapsed + op.after
                            && x.clock.elapsed < Fires(env.config.sessionTimeoutMs) && !x.expired)
      && (x.outcome.Err? ==>
            || x.outcome.message == TimeoutMessage(env.config.sessionTimeoutMs)
            || x.outcome.message == TimeoutMessage(env.config.stepTimeoutMs)
            || (op.Settles? && op.result == x.outcome))
  {
    StepRaceOutcome(env.config.sessionTimeoutMs, env.config.stepTimeoutMs, c, op);
  }

  /** When every operation settles at once, each step passes its operation's outcome through
      and no time passes. */
  lemma ImmediateStep<T>(env: Env, c: Clock, r: Outcome<T>)
    requires Immediate(env)
    requires c.elapsed == 0
    ensures Next(env, c) == After(0)
    ensures Step(env, c, Settles(0, r)) == Raced(r, Clock(0, c.tick + 1), false)
    ensures SessionRace(env.config.sessionTimeoutMs, c, Settles(0, r)) == Raced(r, Clock(0, c.tick + 1), false)
  {
    ImmediateBeatsTimers(env.config.sessionTimeoutMs, env.config.stepTimeoutMs, c, r);
  }

  /** A hook step logs its call; when it succeeds, the hook returned that value, in time. */
  lemma HookStepOk(env: Env, c: Clock, calls: seq<Call>, call: Call)
    ensures var (calls', x) := HookStep(env, c, calls, call);
      && calls' == calls + [call]
      && x.clock.tick == c.tick + 1
      && (x.outcome.Ok? ==> Invoke(env.hooks, call) == Returned(x.outcome.value)
                            && x.clock.elapsed < Fires(env.config.sessionTimeoutMs))
  {
    StepOk(env, c, Scheduled(Next(env, c), ReplyOutcome(Invoke(env.hooks, call))));
  }

  /** When every operation settles at once, a read that parses passes the message through. */
  lemma ImmediateRead(env: Env, c: Clock, v: StreamView, msg: Value)
    requires Immediate(env) && c.elapsed == 0
    requires ReadJsonSpec(v, env.json).1 == Parsed(msg)
    ensures ReadStep(env, c, v) == (ReadJsonSpec(v, env.json).0, Raced(Ok(msg), Clock(0, c.tick + 1), false))
  {
    ImmediateStep(env, c, Ok(msg));
  }

  /** When every operation settles at once, a hook that returns passes its value through. */
  lemma ImmediateHook(env: Env, c: Clock, calls: seq<Call>, call: Call, x: Value)
    requires Immediate(env) && c.elapsed == 0
    requires Invoke(env.hooks, call) == Returned(x)
    ensures HookStep(env, c, calls, call) == (calls + [call], Raced(Ok(x), Clock(0, c.tick + 1), false))
  {
    ImmediateStep(env, c, Ok(x));
  }

  /** When every operation settles at once, a hook that throws fails the step with its message. */
  lemma ImmediateHookThrows(env: Env, c: Clock, calls: seq<Call>, call: Call, m: string)
    requires Immediate(env) && c.elapsed == 0
    requires Invoke(env.hooks, call) == Threw(m)
    ensures HookStep(env, c, calls, call) == (calls + [call], Raced(Err(m), Clock(0, c.tick + 1), false))
  {
    ImmediateStep<Value>(env, c, Err(m));
  }

  method ReadStepOn(env: Env, c: Clock, stream: Stream) returns (x: Raced<Value>)
    modifies stream
    ensures (stream.View(), x) == ReadStep(env, c, old(stream.View()))
  {
    var rr := ReadJson(stream, env.json);
    x := Step(env, c, ReadOp(rr, Next(env, c)));
  }

  method WriteStepOn(env: Env, c: Clock, stream: Stream, value: Value, closeAfter: bool, stepped: bool)
    returns (x: Raced<()>)
    modifies stream
    ensures (stream.View(), x) == WriteStep(env, c, old(stream.View()), value, closeAfter, stepped)
  {
    var w := WriteJson(stream, env.json, value, closeAfter);
    var op := Scheduled(Next(env, c), w);
    if stepped {
      x := Step(env, c, op);
    } else {
      x := SessionRace(env.config.sessionTimeoutMs, c, op);
    }
  }

  /** The stream of a dial that succeeds in time is new and opened on the script's terms. */
  method DialStepOn(env: Env, c: Clock, node: Network, address: string, protocolId: string)
    returns (stream: Stream?, x: Raced<StreamScript>)
    modifies node
    ensures (node.View(), x) == DialStep(env, c, old(node.View()), address, protocolId)
    ensures x.outcome.Ok? ==> stream != null && fresh(stream) && stream.View() == Opened(x.outcome.value)
  {
    var reply;
    stream, reply := node.DialProtocol(address, protocolId);
    x := Step(env, c, DialOp(reply, Next(env, c)));
    StepOk(env, c, DialOp(reply, Next(env, c)));
  }

  method CloseStream(stream: Stream)
    modifies stream
    ensures stream.View() == CloseStreamSpec(old(stream.View()))
  {
    if stream.caps.hasCloseWrite {
      stream.CloseWrite();
    }
    if stream.caps.hasClose {
      stream.Close();
    }
  }
}
