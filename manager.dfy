/** The `SessionManager`: the live listener and dialer sessions, keyed by session id, the
    counter ids are made from, admission control for inbound streams, and the protocol
    handler's installation on a node. Each session's entry is removed once it settles. */
module Manager {
  import opened Decimal
  import opened Outcomes
  import opened JsValues
  import opened Transport
  import opened Codec
  import opened Deadlines
  import opened Protocol
  import Steps
  import Listener
  import Dialer

  /** `session-<now>-<counter>`. */
  function SessionId(now: nat, counter: nat): string {
    "session-" + NatToString(now) + "-" + NatToString(counter)
  }

  /** The part of `s` after its last '-' (all of `s` when it has none). */
  function LastSegment(s: string): string
    decreases |s|
  {
    if s == [] then []
    else if s[|s| - 1] == '-' then []
    else LastSegment(s[..|s| - 1]) + [s[|s| - 1]]
  }

  /** The counter a session id was made from. */
  function CounterOf(id: string): nat {
    var d := LastSegment(id);
    if AllDigits(d) then ParseNat(d) else 0
  }

  lemma {:induction false} LastSegmentOfDigits(p: string, d: string)
    requires AllDigits(d)
    ensures LastSegment(p + "-" + d) == d
    decreases |d|
  {
    var s := p + "-" + d;
    if d != [] {
      var d' := d[..|d| - 1];
      assert s[..|s| - 1] == p + "-" + d';
      assert IsDigit(d[|d| - 1]);
      LastSegmentOfDigits(p, d');
      assert d' + [d[|d| - 1]] == d;
    } else {
      assert s[|s| - 1] == '-';
    }
  }

  /** The counter can be read back from the id. */
  lemma SessionIdCounter(now: nat, counter: nat)
    ensures CounterOf(SessionId(now, counter)) == counter
  {
    LastSegmentOfDigits("session-" + NatToString(now), NatToString(counter));
    ParseNatToString(counter);
  }

  /** Ids made from different counter values differ, whatever the clock said: the ids one
      manager hands out are pairwise distinct. */
  lemma SessionIdsDistinct(now1: nat, counter1: nat, now2: nat, counter2: nat)
    requires counter1 != counter2
    ensures SessionId(now1, counter1) != SessionId(now2, counter2)
  {
    SessionIdCounter(now1, counter1);
    SessionIdCounter(now2, counter2);
  }

  /** Adding a new key and removing it again gives the map back. */
  lemma RemoveAdded<K, V>(m: map<K, V>, k: K, v: V)
    requires k !in m
    ensures m[k := v] - {k} == m
  {
    assert (m[k := v] - {k}).Keys == m.Keys;
  }

  /** `listenerSessions.size >= maxConcurrentSessions`: admission control turns contacts away.
      An undefined limit compares false with every size, so it never does. */
  predicate Full(config: Config, size: nat) {
    config.maxConcurrentSessions.Some? && size >= config.maxConcurrentSessions.value
  }

  /** A configuration that sets `maxConcurrentSessions` to undefined turns admission control
      off: no number of live listeners makes the manager full. */
  lemma UndefinedLimitAdmits(config: Config, size: nat)
    requires config.maxConcurrentSessions.None?
    ensures !Full(config, size)
  {
  }

  /** The most listener sessions a defined limit lets live at once. */
  function Capacity(config: Config): nat
    requires config.maxConcurrentSessions.Some?
  {
    if config.maxConcurrentSessions.value >= 0 then config.maxConcurrentSessions.value else 0
  }

  class SessionManager {
    const hooks: Hooks
    const config: Config
    /** The JSON codec the sessions use. */
    const json: Json

    var listenerSessions: map<string, Listener.ListenerSession>
    var dialerSessions: map<string, Dialer.DialerSession>
    var sessionCounter: nat
    /** Every id `generateSessionId` has handed out so far. */
    ghost var issued: set<string>

    /** A listener entry stored under `id` by this manager. */
    ghost predicate ListenerEntry(id: string, s: Listener.ListenerSession) {
      s.sessionId == id && s.hooks == hooks && s.config == config && s.json == json
    }

    /** A dialer entry stored under `id` by this manager. */
    ghost predicate DialerEntry(id: string, s: Dialer.DialerSession) {
      s.sessionId == id && s.hooks == hooks && s.config == config && s.json == json
    }

    /** The inventory invariant: every entry sits under its own id (so no session is stored
        twice), which was handed out by this manager and which no entry of the other map has;
        it shares the manager's hooks and configuration; no id a later counter value makes
        has been handed out; and, under a defined limit, there are no more listeners than it allows. */
    ghost predicate Valid()
      reads this
    {
      && (forall id | id in listenerSessions ::
            id in issued && id !in dialerSessions && ListenerEntry(id, listenerSessions[id]))
      && (forall id | id in dialerSessions :: id in issued && DialerEntry(id, dialerSessions[id]))
      && (forall now: nat, c: nat | c > sessionCounter :: SessionId(now, c) !in issued)
      && (config.maxConcurrentSessions.Some? ==> |listenerSessions| <= Capacity(config))
    }

    constructor (hooks: Hooks, config: Config, json: Json)
      ensures this.hooks == hooks && this.config == config && this.json == json
      ensures listenerSessions == map[] && dialerSessions == map[] && sessionCounter == 0
      ensures Valid()
    {
      this.hooks := hooks;
      this.config := config;
      this.json := json;
      listenerSessions := map[];
      dialerSessions := map[];
      sessionCounter := 0;
      issued := {};
    }

    /** The manager made without a configuration. */
    constructor Default(hooks: Hooks, json: Json)
      ensures this.hooks == hooks && this.config == ManagerDefaultConfig() && this.json == json
      ensures listenerSessions == map[] && dialerSessions == map[] && sessionCounter == 0
      ensures Valid()
    {
      this.hooks := hooks;
      this.config := ManagerDefaultConfig();
      this.json := json;
      listenerSessions := map[];
      dialerSessions := map[];
      sessionCounter := 0;
      issued := {};
    }

    /** `generateSessionId()` at time `now`: the counter goes up by one and names the id, which
        no live session has. */
    method GenerateSessionId(now: nat) returns (id: string)
      requires Valid()
      modifies this
      ensures sessionCounter == old(sessionCounter) + 1
      ensures id == SessionId(now, sessionCounter)
      ensures id !in old(issued) && issued == old(issued) + {id}
      ensures id !in listenerSessions && id !in dialerSessions
      ensures listenerSessions == old(listenerSessions) && dialerSessions == old(dialerSessions)
      ensures Valid()
    {
      sessionCounter := sessionCounter + 1;
      id := SessionId(now, sessionCounter);
      issued := issued + {id};
      forall t: nat, c: nat | c > sessionCounter
        ensures SessionId(t, c) != id
      {
        SessionIdsDistinct(t, c, now, sessionCounter);
      }
    }

    /** `register(node, protocolId)`: installs the inbound handler under the resolved protocol id. */
    method Register(node: Network, protocolId: Option<string>)
      modifies node
      ensures node.View() == old(node.View()).(handlers := old(node.View()).handlers + {ResolveProtocolId(protocolId, config.protocolId)})
    {
      node.Handle(ResolveProtocolId(protocolId, config.protocolId));
    }

    /** `unregister(node, protocolId)`: removes the handler under the resolved protocol id. */
    method Unregister(node: Network, protocolId: Option<string>)
      modifies node
      ensures node.View() == old(node.View()).(handlers := old(node.View()).handlers - {ResolveProtocolId(protocolId, config.protocolId)})
    {
      node.Unhandle(ResolveProtocolId(protocolId, config.protocolId));
    }

    /** `handleNewStream(stream)` at time `now`, its listener to run on `timing`. At capacity the
        stream gets the 'Too many concurrent sessions' rejection, half-closed, and nothing is
        stored; below it a new listener session is stored under a fresh id and nothing is
        written. The detached `execute()` is `SettleListener`. */
    method HandleNewStream(stream: Stream, now: nat, timing: seq<Delay>) returns (r: Outcome<()>)
      requires Valid()
      modifies this, stream
      ensures Valid()
      ensures dialerSessions == old(dialerSessions)
      ensures Full(config, old(|listenerSessions|)) ==>
        && listenerSessions == old(listenerSessions) && sessionCounter == old(sessionCounter)
        && (stream.View(), r) == WriteJsonSpec(old(stream.View()), json, Rejection(TOO_MANY_SESSIONS), true)
      ensures !Full(config, old(|listenerSessions|)) ==>
        var id := SessionId(now, old(sessionCounter) + 1);
        && sessionCounter == old(sessionCounter) + 1
        && id !in old(listenerSessions) && id !in dialerSessions
        && listenerSessions.Keys == old(listenerSessions).Keys + {id}
        && (forall k | k in old(listenerSessions) :: listenerSessions[k] == old(listenerSessions)[k])
        && fresh(listenerSessions[id])
        && listenerSessions[id].stream == stream && listenerSessions[id].timing == timing
        && listenerSessions[id].View() == Listener.Initial(stream.View())
        && stream.View() == old(stream.View()) && r == Ok(())
    {
      if Full(config, |listenerSessions|) {
        r := WriteJson(stream, json, Rejection(TOO_MANY_SESSIONS), true);
        return;
      }
      var id := GenerateSessionId(now);
      ghost var before := listenerSessions;
      var session := new Listener.ListenerSession(id, stream, hooks, config, json, timing);
      listenerSessions := listenerSessions[id := session];
      assert |listenerSessions| == |before| + 1;
      assert config.maxConcurrentSessions.Some? ==> |listenerSessions| <= Capacity(config);
      r := Ok(());
    }

    /** The settling of the listener stored under its id: its `execute()` runs to the end and,
        whether it succeeded or failed, its entry is deleted and nothing else changes. */
    method SettleListener(session: Listener.ListenerSession) returns (r: Outcome<()>)
      requires Valid() && session.sessionId in listenerSessions && listenerSessions[session.sessionId] == session
      modifies this, session, session.stream
      ensures Valid()
      ensures listenerSessions == old(listenerSessions) - {session.sessionId}
      ensures dialerSessions == old(dialerSessions) && sessionCounter == old(sessionCounter)
      ensures (session.View(), r) == Listener.ExecuteSpec(session.Env(), old(session.View()))
    {
      r := session.Execute();
      listenerSessions := listenerSessions - {session.sessionId};
    }

    /** The setup `initiateBootstrap(link, node)` does at time `now`: a new dialer session, to
        run on `timing`, stored under a fresh id; one more dialer is live. */
    method BeginBootstrap(link: Link, node: Network, now: nat, timing: seq<Delay>) returns (session: Dialer.DialerSession)
      requires Valid()
      modifies this
      ensures Valid()
      ensures var id := SessionId(now, old(sessionCounter) + 1);
        && sessionCounter == old(sessionCounter) + 1
        && id !in old(dialerSessions) && id !in listenerSessions
        && dialerSessions == old(dialerSessions)[id := session]
        && |dialerSessions| == old(|dialerSessions|) + 1
        && session.sessionId == id
      ensures listenerSessions == old(listenerSessions)
      ensures fresh(session) && session.link == link && session.node == node && session.timing == timing
      ensures session.hooks == hooks && session.config == config && session.json == json
      ensures session.stream == null && session.databaseStream == null
      ensures session.View() == Dialer.Initial(node.View())
    {
      var id := GenerateSessionId(now);
      session := new Dialer.DialerSession(id, link, node, hooks, config, json, timing);
      dialerSessions := dialerSessions[id := session];
    }

    /** The `finally` of `initiateBootstrap`: the entry under `id` is deleted. */
    method ForgetDialer(id: string)
      requires Valid() && id in dialerSessions
      modifies this
      ensures Valid()
      ensures dialerSessions == old(dialerSessions) - {id}
      ensures listenerSessions == old(listenerSessions) && sessionCounter == old(sessionCounter)
    {
      dialerSessions := dialerSessions - {id};
    }

    /** `initiateBootstrap(link, node)` at time `now`, the session running on `timing`: the
        outcome is the dialer's under the next id, and afterwards both maps, and so both
        active counts, are as they were before. */
    method InitiateBootstrap(link: Link, node: Network, now: nat, timing: seq<Delay>) returns (r: Outcome<Value>)
      requires Valid() && |link.responderPeerAddrs| > 0
      modifies this, node
      ensures Valid()
      ensures listenerSessions == old(listenerSessions) && dialerSessions == old(dialerSessions)
      ensures sessionCounter == old(sessionCounter) + 1
      ensures var env := Steps.Env(SessionId(now, old(sessionCounter) + 1), hooks, config, json, timing);
        var (s, outcome) := Dialer.ExecuteSpec(env, link, Dialer.Initial(old(node.View())));
        r == outcome && node.View() == s.net
    {
      ghost var n0 := node.View();
      ghost var before := dialerSessions;
      var session := BeginBootstrap(link, node, now, timing);
      assert session.Env() == Steps.Env(SessionId(now, old(sessionCounter) + 1), hooks, config, json, timing);
      assert session.View() == Dialer.Initial(n0);
      r := session.Execute();
      ForgetDialer(session.sessionId);
      RemoveAdded(before, session.sessionId, session);
    }

    /** `getActiveSessionCounts()`. */
    function ActiveSessionCounts(): (r: (nat, nat))
      reads this
      ensures r.0 == |listenerSessions| && r.1 == |dialerSessions|
      ensures Valid() && config.maxConcurrentSessions.Some? ==> r.0 <= Capacity(config)
    {
      (|listenerSessions|, |dialerSessions|)
    }
  }

  /** `createBootstrapManager(hooks, config)`: a manager whose configuration is the given
      members over the factory's defaults. */
  method CreateBootstrapManager(hooks: Hooks, config: PartialConfig, json: Json) returns (m: SessionManager)
    ensures fresh(m) && m.hooks == hooks && m.config == CreateConfig(config) && m.json == json
    ensures m.ActiveSessionCounts() == (0, 0) && m.Valid()
  {
    m := new SessionManager(hooks, CreateConfig(config), json);
  }
}
