/** The `withTimeout(ms, op)` helper both sessions use, for the deadline of each step and for
    the deadline of the whole session. Time is an input: each awaited operation either settles
    a given number of milliseconds after it starts, or never settles. */
module Deadlines {
  import opened Decimal
  import opened Outcomes

  /** How long an awaited operation takes, as scheduled by the environment. */
  datatype Delay = After(ms: nat) | Never

  /** An awaited operation: it settles `after` milliseconds from its start with `result`, or hangs. */
  datatype Op<+T> = Settles(after: nat, result: Outcome<T>) | Hangs

  function Scheduled<T>(d: Delay, r: Outcome<T>): (op: Op<T>)
    ensures op.Hangs? <==> d.Never?
    ensures op.Settles? ==> op.after == d.ms && op.result == r
  {
    match d
    case After(ms) => Settles(ms, r)
    case Never => Hangs
  }

  /** The `ms` a timer is armed with: a configured number of milliseconds, or `undefined`
      when the configuration sets the member to undefined. */
  datatype Millis = Ms(n: int) | Unset

  /** The largest delay a Node.js timer honours, 2^31 - 1 milliseconds. */
  const TIMEOUT_MAX: int := 0x7FFF_FFFF

  /** When a timer armed with `ms` fires: Node.js runs a delay that is not a number, below 1
      or above `TIMEOUT_MAX` after 1 millisecond, and any other delay as given. */
  function Fires(ms: Millis): (t: nat)
    ensures t >= 1
    ensures ms.Ms? && 1 <= ms.n <= TIMEOUT_MAX ==> t == ms.n
    ensures !(ms.Ms? && 1 <= ms.n <= TIMEOUT_MAX) ==> t == 1
  {
    match ms
    case Ms(n) => if 1 <= n <= TIMEOUT_MAX then n else 1
    case Unset => 1
  }

  /** `${ms}`: the decimal numeral, or "undefined". */
  function MillisText(ms: Millis): (s: string)
    ensures ms.Unset? <==> s == "undefined"
  {
    match ms
    case Ms(n) => (IntToStringNotWord(n); IntToString(n))
    case Unset => "undefined"
  }

  /** `IntToString` never spells a word: its first character is a sign or a digit. */
  lemma IntToStringNotWord(n: int)
    ensures IntToString(n) != "undefined"
  {
    var s := IntToString(n);
    if n >= 0 {
      assert s == NatToString(n);
      assert IsDigit(s[0]);
    }
  }

  /** The rejection of a timer that fires first; it names the `ms` the timer was armed with. */
  function TimeoutMessage(ms: Millis): string {
    "Session timeout after " + MillisText(ms) + "ms"
  }

  /** A timer armed with `undefined` fires after 1 millisecond and names its delay "undefined". */
  lemma UnsetTimerFiresAtOne<T>(op: Op<T>)
    requires !(op.Settles? && op.after == 0)
    ensures Race(Unset, op) == Settles(1, Err("Session timeout after undefinedms"))
  {
    var m := "Session timeout after " + "undefined" + "ms";
    assert TimeoutMessage(Unset) == m;
    assert |m| == |"Session timeout after undefinedms"|;
    assert forall i | 0 <= i < |m| :: m[i] == "Session timeout after undefinedms"[i];
    assert m == "Session timeout after undefinedms";
    assert !InTime(Unset, op);
  }

  /** The operation settles before a timer armed with `ms` fires. A tie goes to the timer,
      which was armed before the operation could settle. */
  predicate InTime<T>(ms: Millis, op: Op<T>) {
    op.Settles? && op.after < Fires(ms)
  }

  /** `withTimeout(ms, op)` seen as an operation itself: it settles as the operation does when
      that comes first, and otherwise when the timer fires, with the timeout error. */
  function Race<T>(ms: Millis, op: Op<T>): (r: Op<T>)
    ensures r.Settles? && r.after <= Fires(ms)
    ensures InTime(ms, op) ==> r == op
    ensures !InTime(ms, op) ==> r == Settles(Fires(ms), Err(TimeoutMessage(ms)))
  {
    if InTime(ms, op) then op else Settles(Fires(ms), Err(TimeoutMessage(ms)))
  }

  /** `withTimeout(ms, op)`: the value or error of the operation when it settles in time. */
  function WithTimeout<T>(ms: Millis, op: Op<T>): Outcome<T> {
    Race(ms, op).result
  }

  /** An operation that starts `start` milliseconds into the session, timed from the session's start. */
  function Shift<T>(op: Op<T>, start: nat): (r: Op<T>)
    ensures r.Hangs? <==> op.Hangs?
    ensures r.Settles? ==> r.after == start + op.after && r.result == op.result
  {
    match op
    case Settles(after, result) => Settles(start + after, result)
    case Hangs => Hangs
  }

  /** The session's clock: milliseconds since the session timer was armed, and how many
      awaited operations have been scheduled so far. */
  datatype Clock = Clock(elapsed: nat, tick: nat)

  /** The delay of the `tick`-th awaited operation; operations beyond the schedule settle at once. */
  function DelayAt(timing: seq<Delay>, tick: nat): Delay {
    if tick < |timing| then timing[tick] else After(0)
  }

  /** How an awaited step ends as the session sees it: its outcome, the clock when it ends,
      and whether the session's own deadline passed first. */
  datatype Raced<+T> = Raced(outcome: Outcome<T>, clock: Clock, expired: bool)

  /** An operation raced against the session deadline only (the session timer was armed at
      time zero, so the race is timed from there). */
  function SessionRace<T>(sessionMs: Millis, c: Clock, op: Op<T>): Raced<T> {
    var at := Shift(op, c.elapsed);
    var outer := Race(sessionMs, at);
    Raced(outer.result, Clock(outer.after, c.tick + 1), !InTime(sessionMs, at))
  }

  /** `await this.withStepTimeout(op)` inside the session's `withTimeout`: the step timer is armed
      when the step starts, the session timer at time zero, and the same helper runs both. */
  function StepRace<T>(sessionMs: Millis, stepMs: Millis, c: Clock, op: Op<T>): Raced<T> {
    SessionRace(sessionMs, c, Race(stepMs, op))
  }

  /** The step race passes through what the operation settles with when it beats both timers;
      when its own timer fires first the step fails with that timer's message; and when the
      session deadline falls first the session fails with the session's message. Only a
      step that ends before the session deadline leaves the session running. */
  lemma StepRaceOutcome<T>(sessionMs: Millis, stepMs: Millis, c: Clock, op: Op<T>)
    ensures var x := StepRace(sessionMs, stepMs, c, op);
      && x.clock.tick == c.tick + 1
      && (x.expired <==> c.elapsed + (if InTime(stepMs, op) then op.after else Fires(stepMs)) >= Fires(sessionMs))
      && (x.expired ==> x.outcome == Err(TimeoutMessage(sessionMs)) && x.clock.elapsed == Fires(sessionMs))
      && (!x.expired ==> x.clock.elapsed < Fires(sessionMs))
      && (!x.expired && InTime(stepMs, op) ==>
            x.outcome == op.result && x.clock.elapsed == c.elapsed + op.after)
      && (!x.expired && !InTime(stepMs, op) ==>
            x.outcome == Err(TimeoutMessage(stepMs)) && x.clock.elapsed == c.elapsed + Fires(stepMs))
  {
  }

  /** An operation that never settles always ends in a timeout: the step's own, unless the
      session's deadline comes first. */
  lemma HangingStepTimesOut<T>(sessionMs: Millis, stepMs: Millis, c: Clock)
    ensures var x := StepRace<T>(sessionMs, stepMs, c, Hangs);
      x.outcome == Err(TimeoutMessage(if c.elapsed + Fires(stepMs) >= Fires(sessionMs) then sessionMs else stepMs))
  {
  }

  /** Raced against the session deadline alone, a hanging operation is the session's timeout. */
  lemma HangingSessionRace<T>(sessionMs: Millis, c: Clock)
    ensures var x := SessionRace<T>(sessionMs, c, Hangs);
      x.expired && x.outcome == Err(TimeoutMessage(sessionMs))
  {
  }

  /** A step that settles at once beats every timer, whatever it was armed with: Node.js never
      fires a timer before 1 millisecond, so a zero, negative or undefined timeout still lets
      an immediate step through. */
  lemma ImmediateBeatsTimers<T>(sessionMs: Millis, stepMs: Millis, c: Clock, r: Outcome<T>)
    requires c.elapsed == 0
    ensures StepRace(sessionMs, stepMs, c, Settles(0, r)) == Raced(r, Clock(0, c.tick + 1), false)
  {
  }

  /** The timeout message names what the timer was armed with: different settings give
      different messages, so a step timeout and a session timeout can be told apart whenever
      the two settings differ, even when both timers fire after the same clamped delay. */
  lemma {:induction false} TimeoutMessageInjective(a: Millis, b: Millis)
    ensures TimeoutMessage(a) == TimeoutMessage(b) <==> a == b
  {
    if TimeoutMessage(a) == TimeoutMessage(b) {
      var p := "Session timeout after ";
      var ta := TimeoutMessage(a);
      var tb := TimeoutMessage(b);
      assert |MillisText(a)| == |MillisText(b)|;
      assert MillisText(a) == ta[|p|..|ta| - 2];
      assert MillisText(b) == tb[|p|..|tb| - 2];
      if a.Ms? && b.Ms? {
        IntToStringInjective(a.n, b.n);
      }
    }
  }
}
