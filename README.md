# Sereus invitation bootstrap handshake, modelled in Dafny

This project models the invitation bootstrap handshake of the sereus `bootstrap` package and
proves properties of the model. In the handshake two peers provision a shared strand, that is
a database together with its connection information. The responder listens for inbound
streams. The initiator holds an invitation link. The two exchange JSON messages:

- a contact message from the initiator;
- an approval or rejection from the responder;
- in `initiatorCreates` mode, a database message from the initiator.

Every trust and provisioning decision is delegated to five consumer hooks.

The model has these parts:

- **Codec** (`codec.dfy`).
  - `writeJson` makes one sink write, then an optional half-close.
  - `readJson` is the incremental reader. It returns as soon as the trimmed buffer parses.
  - The JSON text format is a pair of functions given as input. End-to-end facts that need
    a round trip state it as a precondition.
- **Deadlines** (`deadlines.dfy`). This is the `withTimeout` race, for both the step
  deadline and the session deadline. Time is an input: each awaited operation settles after
  a scheduled number of milliseconds, or never settles. A timer fires as Node.js fires it:
  an undefined, zero, negative or too large delay runs after 1 millisecond.
- **Steps** (`steps.dfy`). These are the awaited steps a session is made of: a read, a
  write, a hook call and a dial, each under its deadline, plus `closeStream`.
- **`ListenerSession`** (`listener.dfy`). It is a class whose fields the methods update step
  by step. Each method is proved equal to a specification function on a snapshot of the
  session. `listener_facts.dfy` proves what the listener answers, when it fails, and in
  which order it consults the hooks.
- **`DialerSession`** (`dialer.dfy`, `dialer_facts.dfy`). It has the same structure as the
  listener.
- **`SessionManager`** (`manager.dfy`). It holds:
  - the two maps of live sessions, kept as an inventory invariant;
  - session id generation;
  - admission control, and the removal of settled sessions;
  - `createBootstrapManager`.
- **The session-aware test hooks** (`mocks.dfy`). Their end-to-end consequences are in
  `mock_scenarios.dfy`.
- **Shared values** (`values.dfy`, `protocol.dfy`, `transport.dfy`). JavaScript values and
  truthiness, decimal rendering, the configuration with its defaults, the link, the
  messages, the hooks, streams and the network node.

Hooks, the JSON codec, the network's dial results, the peer's chunks and the clock are all
inputs. Nothing in the model performs I/O.

In these places the model follows the code rather than the protocol's documented intent:

- The dialer's `state` is only ever assigned `D_FAILED`. The source never moves it to
  `D_AWAIT_RESPONSE`, `D_PROVISION_DATABASE` or `D_DONE`, so a successful dialer session
  stays in `D_SEND_CONTACT` (`DialerFacts.DialerOutcome`).
- In `initiatorCreates` mode the two sides do not meet:
  - the listener waits for the database message on the stream the contact came on;
  - the dialer sends it on a second stream it dials afterwards.

  Each side is modelled as written. `ListenerFacts.DatabaseExpectedOnContactStream` shows
  the consequence: a listener whose contact stream ends after the contact fails with
  "Received empty data from stream" after it has approved. On a libp2p source, which ends
  when `readJson` leaves its `for await` loop early, this happens whatever the initiator
  sent after the contact (`ListenerFacts.ClosingSourceStopsInitiator`).

One further consequence of the code is proved along the way. The parse at the end of the
stream in `readJson` never succeeds, because the whole buffer was already tried after the
last chunk. So every message `readJson` returns comes from inside the loop
(`Codec.ReadJson`).

## Model

The `…Spec` functions of the two sessions (`Listener.ExecuteSpec`, `FinishSpec`, `RejectSpec`, `Dialer.ProvisionAndSendDatabaseSpec`, `SettleSpec`, `ExecuteSpec` and the like), `Protocol.CreateConfig`, `Manager.Full` and `ConsumerMocks.AsHooks` are definitions rather than claims. What they mean is stated by the rows of the methods proved equal to them and of the lemmas about them.

| member | source | states |
|---|---|---|
| Decimal.NatToString | packages/bootstrap/src/bootstrap.ts:147 | A counter or timestamp renders as a non-empty string of decimal digits with no leading zero |
| Decimal.ParseNatToString | packages/bootstrap/src/bootstrap.ts:147 | Reading the rendered digits back gives the number |
| Decimal.NatToStringInjective | packages/bootstrap/src/bootstrap.ts:147 | Two numbers render the same exactly when they are equal |
| Decimal.IntToStringInjective | packages/bootstrap/test/helpers/consumerMocks.ts:37 | The rendering of any integer, negative ones with a sign, is injective, in both directions |
| JsValues.Get | packages/bootstrap/src/bootstrap.ts:229 | `v.key` throws exactly when v is null or undefined; otherwise it yields the member, or undefined when it is absent |
| JsValues.OptionalMember | packages/bootstrap/src/bootstrap.ts:232 | `v?.key` yields undefined on null and undefined |
| JsValues.Present | packages/bootstrap/src/bootstrap.ts:251 | A member whose value is undefined is dropped from the serialized message; any other value is kept as given |
| JsValues.Truthy | packages/bootstrap/src/bootstrap.ts:232 | A value is falsy exactly when it is undefined, null, false, 0 or the empty string |
| JsValues.Display | packages/bootstrap/test/helpers/consumerMocks.ts:37 | Defined exactly for the values whose conversion does not throw. There a string renders as itself inside a template literal, and only strings and arrays can render as empty text |
| JsValues.ConversionThrowsMeaning | packages/bootstrap/src/bootstrap.ts:337 | Only an object or an array can fail to convert, and both are truthy. An object fails exactly when it has its own `toString` member (JSON gives no function there, `valueOf` gives the object back, and `${v}` throws V8's 'Cannot convert object to primitive value'); any other object renders as "[object Object]"; an array that converts has elements that all convert |
| Protocol.CreateConfigDefaults | packages/bootstrap/src/bootstrap.ts:371-381 | With no member given, the factory configuration is the built-in defaults (30000, 5000, 100, debug off, the default protocol id). It differs from the manager's own default only in setting the debug flag |
| Protocol.CreateConfigKeepsGiven | packages/bootstrap/src/bootstrap.ts:371-381 | Every member the caller's object has is kept as given, an explicitly undefined one included: the partial configuration holding every member of a configuration makes exactly that configuration |
| Protocol.CreateConfigPerMember | packages/bootstrap/src/bootstrap.ts:371-381 | Members are independent: each member of the result is the default when the caller leaves it out, undefined when the caller gives `undefined`, and the caller's value otherwise |
| Protocol.ResolveProtocolId | packages/bootstrap/src/bootstrap.ts:152 | `a \|\| b \|\| DEFAULT_PROTOCOL_ID`: the first given non-empty id, else the default; never empty |
| Protocol.LinkToMode | packages/bootstrap/src/bootstrap.ts:190-193 | The link's mode when it has one, else responderCreates |
| Protocol.TokenInfoToMode | packages/bootstrap/src/bootstrap.ts:185-189 | The token info's mode when it is truthy, else 'responderCreates'; the result is always truthy |
| Protocol.MessageShapes | packages/bootstrap/src/bootstrap.ts:247-252 | A rejection carries `approved: false` and the reason, and no cadre addresses or provision result. An approval carries `approved: true`, the session id and the cadre addresses. Its `provisionResult` is present exactly when the provision result is truthy. The rejection is a JSON value, and so is the approval when the provision result is |
| Protocol.ContactShape | packages/bootstrap/src/bootstrap.ts:320-325 | The contact carries the link's token, the dialer's session id as party id and as the identity bundle's party id, and the cadre addresses; it is a JSON value |
| Protocol.RejectedMessageReason | packages/bootstrap/src/bootstrap.ts:337 | The rejection error quotes a non-empty string reason and says 'No reason provided' for a falsy one |
| Protocol.RejectedObjectReason | packages/bootstrap/src/bootstrap.ts:337 | A reason object reads "[object Object]", unless it has its own `toString` member; then the template literal throws and the error is that TypeError. The TypeError's text appears exactly for a reason that cannot be converted |
| Protocol.ThrownText | packages/bootstrap/src/bootstrap.ts:350 | `e?.message \|\| String(e)` for a thrown Error is never empty: its message when that is non-empty, else 'Error' |
| Deadlines.Race | packages/bootstrap/src/bootstrap.ts:269-274 | `withTimeout(ms, op)` always settles by the time its timer fires. It settles as `op` does when `op` settles strictly first, and otherwise when the timer fires, with "Session timeout after <ms>ms" naming `ms` as given, `undefined` included |
| Deadlines.Fires | packages/bootstrap/src/bootstrap.ts:271 | A timer fires after its delay when that is 1 to 2^31 - 1 milliseconds, and after 1 millisecond when it is undefined, zero, negative or larger, never at time zero |
| Deadlines.MillisText | packages/bootstrap/src/bootstrap.ts:271 | `${ms}` is 'undefined' exactly for an undefined setting |
| Deadlines.UnsetTimerFiresAtOne | packages/bootstrap/src/bootstrap.ts:271 | A timer armed with `undefined` fires after 1 millisecond with "Session timeout after undefinedms", beating every operation that does not settle at once |
| Deadlines.StepRaceOutcome | packages/bootstrap/src/bootstrap.ts:211-226 | A step nested in the session deadline ends with one of three outcomes. (1) The operation's own result, when it beats both timers. (2) The step timeout's message, when the step timer fires first. (3) The session timeout's message, exactly when the session timer fires first; only in this case does the clock reach the session timer's firing time. Both timers fire at their clamped delays |
| Deadlines.HangingStepTimesOut | packages/bootstrap/src/bootstrap.ts:275 | A step that never settles fails with the step timeout, or with the session timeout when the session timer fires no later |
| Deadlines.HangingSessionRace | packages/bootstrap/src/bootstrap.ts:211 | An operation raced by the session deadline alone that never settles is the session's timeout |
| Deadlines.ImmediateBeatsTimers | packages/bootstrap/src/bootstrap.ts:269-275 | A step that settles at once passes through both timers whatever they were armed with, zero, negative and undefined timeouts included, and no time passes |
| Deadlines.TimeoutMessageInjective | packages/bootstrap/src/bootstrap.ts:271 | Different timer settings, `undefined` included, give different timeout messages, in both directions, even when the clamped delays agree |
| Transport.SinkSpec | packages/bootstrap/src/bootstrap.ts:93 | `sink` adds exactly one write of the text, or rejects and leaves the stream unchanged; the read side is untouched |
| Transport.DialSpec | packages/bootstrap/src/bootstrap.ts:318 | Every dial is logged with its address and protocol id. A dial consumes the next scripted outcome, and connects, is refused, or, when none is left, never settles |
| Transport.Stream.Sink | packages/bootstrap/src/bootstrap.ts:93 | The stream method acts as `SinkSpec` says |
| Transport.Stream.CloseWrite | packages/bootstrap/src/bootstrap.ts:95 | Adds exactly the half-close event; the stream is then write-closed |
| Transport.Stream.Close | packages/bootstrap/src/bootstrap.ts:96 | Adds exactly the close event; the stream is then write-closed and fully closed |
| Transport.Stream.NextChunk | packages/bootstrap/src/bootstrap.ts:103 | Takes the first pending chunk off the stream and leaves the write side unchanged |
| Transport.ReturnSpec | packages/bootstrap/src/bootstrap.ts:121 | Leaving the read loop early ends a source that closes on return and drops its unread chunks; any other source keeps them; the write side is untouched |
| Transport.Stream.Return | packages/bootstrap/src/bootstrap.ts:121 | The source's `return()` acts as `ReturnSpec` |
| Transport.Network.Handle | packages/bootstrap/src/bootstrap.ts:153 | Installs exactly the handler for the protocol id and changes nothing else |
| Transport.Network.Unhandle | packages/bootstrap/src/bootstrap.ts:159 | Removes exactly that handler; removing an absent one changes nothing |
| Transport.Network.DialProtocol | packages/bootstrap/src/bootstrap.ts:318 | Acts as `DialSpec`; a connected dial yields a new stream opened on the scripted terms |
| Codec.WriteJson | packages/bootstrap/src/bootstrap.ts:89-98 | The method acts on the stream as `WriteJsonSpec` on its view: write, then half-close when asked |
| Codec.WriteJsonOneWrite | packages/bootstrap/src/bootstrap.ts:89-98 | Exactly one write, of the serialized value. It is followed by a half-close exactly when `closeAfter` holds and the stream has `closeWrite` or `close`; the half-close uses `closeWrite` when present. A rejected sink changes nothing and passes on its error |
| Codec.WriteJsonEvents | packages/bootstrap/src/bootstrap.ts:89-98 | On a sink that accepts writes, the events added are the write and then the half-close |
| Codec.TrimStartShape | packages/bootstrap/src/bootstrap.ts:119 | `trim` removes exactly the leading white space: what is removed is white space and what is left does not start with it |
| Codec.TrimEndShape | packages/bootstrap/src/bootstrap.ts:119 | `trim` removes exactly the trailing white space |
| Codec.TrimEmpty | packages/bootstrap/src/bootstrap.ts:127 | The trimmed text is empty exactly when every character is white space |
| Codec.ReadJson | packages/bootstrap/src/bootstrap.ts:100-128 | The reading loop acts as `ReadJsonSpec`: it returns the first parse of the trimmed buffer from inside the loop, consuming only the chunks up to it and calling the source's `return()`. At the end of the stream it fails with "Received empty data from stream" or with the parser's error; the final parse never succeeds, because the same buffer was already tried after the last chunk. A silent open stream blocks |
| Codec.ReadJsonFirstParse | packages/bootstrap/src/bootstrap.ts:103-125 | The reader returns the parse of the trimmed buffer at the first chunk after which it parses, and reads no further chunk, whether or not the stream would end |
| Codec.ReadJsonNoParse | packages/bootstrap/src/bootstrap.ts:126-128 | When no prefix parses: it blocks on a stream that stays open; on a stream that ends it fails with "Received empty data from stream" for white-space-only text, and otherwise with the parser's error |
| Codec.ReadJsonSingleMessage | packages/bootstrap/src/bootstrap.ts:100-128 | A single-chunk message on an ending stream is returned and nothing is left behind. A second read then fails with "Received empty data from stream" |
| Codec.ReadAfterReturnFails | packages/bootstrap/src/bootstrap.ts:121 | On a source that closes on return, a read that parses ends the source and drops what the peer sent after the message; the next read fails with "Received empty data from stream" |
| Steps.StepOk | packages/bootstrap/src/bootstrap.ts:269-275 | A successful step is the operation's own success, settled before the session deadline. A failed step is a step or session timeout, or the operation's own error |
| Steps.ReadStepOn | packages/bootstrap/src/bootstrap.ts:226 | The read under the step deadline consumes the chunks `readJson` reads, even when the timer wins |
| Steps.WriteStepOn | packages/bootstrap/src/bootstrap.ts:255 | The write under its deadline acts as `WriteStep` |
| Steps.DialStepOn | packages/bootstrap/src/bootstrap.ts:318 | The dial under the step deadline acts as `DialStep`; a dial that succeeds yields a new stream |
| Steps.CloseStream | packages/bootstrap/src/bootstrap.ts:277 | `closeStream` adds `closeWrite` then `close`, each when the stream has it, and leaves the read side alone |
| Listener.ProcessContactSpec | packages/bootstrap/src/bootstrap.ts:224-242 | The contact phase leaves the state alone. It succeeds only with a token info whose `valid` is truthy and a contact that is not null or undefined |
| Listener.VetIdentitySpec | packages/bootstrap/src/bootstrap.ts:233-241 | The identity phase keeps the state, token info and contact |
| Listener.SendResponseSpec | packages/bootstrap/src/bootstrap.ts:244-257 | The response phase moves to L_SEND_RESPONSE and changes no hook log. It succeeds only with a truthy token info and contact; when either is falsy it fails with 'Invalid state', writing nothing and leaving the clock alone |
| Listener.AwaitDatabaseSpec | packages/bootstrap/src/bootstrap.ts:259-266 | The database phase moves to L_AWAIT_DATABASE and keeps the token info and contact |
| Listener.ListenerSession.constructor | packages/bootstrap/src/bootstrap.ts:195-207 | A new session starts in L_PROCESS_CONTACT with nothing read and nothing called |
| Listener.ListenerSession.SendRejection | packages/bootstrap/src/bootstrap.ts:276 | Writes the rejection and half-closes, raced by the session deadline only, then fails with the reason |
| Listener.ListenerSession.ProcessContact | packages/bootstrap/src/bootstrap.ts:224-242 | The method acts as `ProcessContactSpec` on the session's fields and stream |
| Listener.ListenerSession.VetIdentity | packages/bootstrap/src/bootstrap.ts:233-241 | The method acts as `VetIdentitySpec` |
| Listener.ListenerSession.SendResponse | packages/bootstrap/src/bootstrap.ts:244-257 | The method acts as `SendResponseSpec` |
| Listener.ListenerSession.AwaitDatabase | packages/bootstrap/src/bootstrap.ts:259-266 | The method acts as `AwaitDatabaseSpec` |
| Listener.ListenerSession.Execute | packages/bootstrap/src/bootstrap.ts:209-222 | The method acts as `ExecuteSpec`: the phases in order; any error fails the session and is passed on |
| Listener.ListenerSession.Finish | packages/bootstrap/src/bootstrap.ts:214-216 | The method acts as `FinishSpec`: the database phase only in initiatorCreates mode, then done and the stream closed |
| Listener.ListenerSession.CallHook | packages/bootstrap/src/bootstrap.ts:229 | A hook call is logged and raced by the step deadline, and the session's other fields are kept |
| ListenerFacts.InvalidTokenRejected | packages/bootstrap/src/bootstrap.ts:229-232 | When every awaited step settles at once (whatever the timeouts): for any contact that is not null or undefined, a falsy or missing `valid` fails the session with 'Invalid token' after writing `{approved: false, reason}` and half-closing. Only the token hook was called; nothing is provisioned |
| ListenerFacts.InvalidIdentityRejected | packages/bootstrap/src/bootstrap.ts:233-235 | When every awaited step settles at once (whatever the timeouts): for any contact that is not null or undefined, an identity the hook refuses fails the session with 'Invalid identity' after the rejection. Token and identity hooks only; nothing is provisioned |
| ListenerFacts.FalsyContactInvalidState | packages/bootstrap/src/bootstrap.ts:226-246 | When every awaited step settles at once (whatever the timeouts): a contact that parses to a falsy value other than null or undefined (`0`, `false`, `""`) passes the contact phase, where its token is undefined; after the token and identity hooks (and, in responderCreates mode, the responder's provisioning) the session fails with 'Invalid state' and nothing is written |
| ListenerFacts.ContactAccepted | packages/bootstrap/src/bootstrap.ts:224-242 | When every awaited step settles at once (whatever the timeouts): for any contact that is not null or undefined, the exact contact-phase outcome for an accepted token and identity: contact and token info stored; the responder provisions for the contact's party only in responderCreates mode |
| ListenerFacts.ApprovalSent | packages/bootstrap/src/bootstrap.ts:244-257 | When every awaited step settles at once (whatever the timeouts): the approval is written and half-closed and the session moves to L_SEND_RESPONSE |
| ListenerFacts.ResponderCreatesApproves | packages/bootstrap/src/bootstrap.ts:236-241 | When every awaited step settles at once (whatever the timeouts): in responderCreates mode (also the mode of a token info without one), `provisionStrand('responder', sid, contact.partyId, sid)` is called. The session sends the approval with its result, half-closes, ends L_DONE and closes the stream |
| ListenerFacts.ResponderProvisionThrows | packages/bootstrap/src/bootstrap.ts:236-240 | When every awaited step settles at once (whatever the timeouts): in responderCreates mode a provisioning hook that throws fails the session with the hook's error, in L_FAILED. That happens after the token, identity and provisioning calls, with no provision result and nothing written |
| ListenerFacts.DatabaseJudged | packages/bootstrap/src/bootstrap.ts:259-266 | When every awaited step settles at once (whatever the timeouts): the database phase reads the next message and fails with 'Invalid database result' exactly when the hook's answer is falsy |
| ListenerFacts.InitiatorCreatesAwaitsDatabase | packages/bootstrap/src/bootstrap.ts:209-222 | When every awaited step settles at once (whatever the timeouts): in initiatorCreates mode nothing is provisioned, the approval has no provision result, and the database check is the third hook call. The session succeeds exactly when that check is truthy, otherwise failing with 'Invalid database result'. This success path needs a second message on the contact stream, so it holds only on a source that keeps its unread chunks when a read returns |
| ListenerFacts.InitiatorResponded | packages/bootstrap/src/bootstrap.ts:244-257 | When every awaited step settles at once (whatever the timeouts): an accepted initiatorCreates contact leads to the approval without a provision result, after exactly the token and identity calls; the run then continues with the closing phase |
| ListenerFacts.FinishAwaitsDatabase | packages/bootstrap/src/bootstrap.ts:214-216 | When every awaited step settles at once (whatever the timeouts): in initiatorCreates mode the closing phase makes the database check the next hook call. It succeeds exactly when that check is truthy, leaves the provision result alone, and closes the stream only on success |
| ListenerFacts.DatabaseReadFails | packages/bootstrap/src/bootstrap.ts:262 | When every awaited step settles at once (whatever the timeouts): a database read that fails fails the phase with the reader's error |
| ListenerFacts.DatabaseExpectedOnContactStream | packages/bootstrap/src/bootstrap.ts:259-262 | When every awaited step settles at once (whatever the timeouts): a contact stream that ends after the contact fails an initiatorCreates listener with "Received empty data from stream" after it approved, and the database hook is never called |
| ListenerFacts.ClosingSourceStopsInitiator | packages/bootstrap/src/bootstrap.ts:121 | When every awaited step settles at once (whatever the timeouts): on a source that closes on return, an approved initiatorCreates contact always fails the listener with "Received empty data from stream": nothing is provisioned, the approval was sent, and the database hook is never called |
| ListenerFacts.HangingTokenHookTimesOut | packages/bootstrap/src/bootstrap.ts:229 | A token hook that never settles fails the session with the step timeout, or the session timeout when that is nearer; nothing is written |
| ListenerFacts.VetIdentityCallOrder | packages/bootstrap/src/bootstrap.ts:233-241 | After a valid token, the identity hook is the second call and provisioning the only possible third call |
| ListenerFacts.ContactCallOrder | packages/bootstrap/src/bootstrap.ts:224-242 | The contact phase calls the hooks in order: token, then identity only for a valid token, then provisioning only for an accepted identity in responderCreates mode |
| ListenerFacts.SentInTime | packages/bootstrap/src/bootstrap.ts:255 | A response that was sent was sent before the session deadline |
| ListenerFacts.FinishCallOrder | packages/bootstrap/src/bootstrap.ts:214-216 | The closing phase keeps the hook order. It ends L_DONE exactly on success, before the deadline, and L_FAILED exactly on failure |
| ListenerFacts.ListenerCallOrder | packages/bootstrap/src/bootstrap.ts:209-222 | For any timing and any hooks, a listener session ends L_DONE exactly when it succeeds, and then before its deadline; it ends L_FAILED exactly when it fails. It calls at most three hooks, in the handshake's order, each with its session id |
| Dialer.ConnectAndSendSpec | packages/bootstrap/src/bootstrap.ts:314-330 | Connecting makes one dial, to the link's first address with the resolved protocol id, and changes neither state, response nor hook log. On success the session has its stream |
| Dialer.AwaitResponseSpec | packages/bootstrap/src/bootstrap.ts:332-341 | Awaiting the response leaves the state and network alone and succeeds only with a stream and a truthy response |
| Dialer.SendDatabaseSpec | packages/bootstrap/src/bootstrap.ts:352-358 | The second dial and write keep the state, response and hook log; success returns the provision result |
| Dialer.DeliverDatabaseSpec | packages/bootstrap/src/bootstrap.ts:356-357 | Writing the database message on the second stream keeps the state, response, hook log and network; success returns the provision result |
| Dialer.ProvisionError | packages/bootstrap/src/bootstrap.ts:348-351 | A provisioning step that fails reports "Provisioning failed: " and the thrown text, unless the session deadline passed first, in which case the session's timeout message is what the caller sees |
| Dialer.DialerSession.constructor | packages/bootstrap/src/bootstrap.ts:280-292 | A new session starts in D_SEND_CONTACT with no stream, no response and nothing called |
| Dialer.DialerSession.ConnectAndSend | packages/bootstrap/src/bootstrap.ts:314-330 | The method acts as `ConnectAndSendSpec`; the session's stream is assigned only once the contact is sent, and is new |
| Dialer.DialerSession.AwaitResponse | packages/bootstrap/src/bootstrap.ts:332-341 | The method acts as `AwaitResponseSpec` |
| Dialer.DialerSession.ProvisionAndSendDatabase | packages/bootstrap/src/bootstrap.ts:343-359 | The method acts as `ProvisionAndSendDatabaseSpec`; a provisioning failure sets D_FAILED and is wrapped |
| Dialer.DialerSession.SendDatabase | packages/bootstrap/src/bootstrap.ts:352-358 | The method acts as `SendDatabaseSpec` |
| Dialer.DialerSession.DeliverDatabase | packages/bootstrap/src/bootstrap.ts:356-357 | The method acts as `DeliverDatabaseSpec`: the database message is written and half-closed on the second stream under the step deadline, and then the first stream is closed |
| Dialer.DialerSession.Execute | packages/bootstrap/src/bootstrap.ts:294-312 | The method acts as `ExecuteSpec`: any error sets D_FAILED and is passed on |
| Dialer.DialerSession.Settle | packages/bootstrap/src/bootstrap.ts:299-306 | The method acts as `SettleSpec`: by the link's mode, provision and send, or return the response's provision result |
| Dialer.DialerSession.CallHook | packages/bootstrap/src/bootstrap.ts:346 | A hook call is logged and raced by the step deadline, and the session's other fields and streams are kept |
| DialerFacts.AwaitResponseAccepts | packages/bootstrap/src/bootstrap.ts:332-341 | An accepted response approved, was given to `validateResponse`, which returned a truthy value, and arrived before the session deadline |
| DialerFacts.ProvisionSends | packages/bootstrap/src/bootstrap.ts:343-359 | On success it returns what `provisionStrand('initiator', sid, response.partyId, sid)` returned. It first sends `{strand, dbConnectionInfo}` of that result, half-closed, on a second stream dialed to the same address, and closes the first stream, all before the deadline |
| DialerFacts.SettleFacts | packages/bootstrap/src/bootstrap.ts:299-311 | After an accepted response the session succeeds exactly when it has not failed. In responderCreates mode it returns the response's `provisionResult` unchanged, with no further call or dial; in initiatorCreates mode it is `ProvisionSends` |
| DialerFacts.ProvisionDials | packages/bootstrap/src/bootstrap.ts:355 | Provisioning keeps the earlier dials and only appends |
| DialerFacts.DialerOutcome | packages/bootstrap/src/bootstrap.ts:294-312 | For any timing and any hooks, the session succeeds exactly when it is not D_FAILED, and its first dial is to the link's first address. On success the response approved and passed `validateResponse`. In responderCreates mode it is the only hook call and the provision result comes back unchanged. In initiatorCreates mode the result is the initiator's provisioning, and the database message went out on a second dial |
| DialerFacts.ContactSent | packages/bootstrap/src/bootstrap.ts:314-330 | When every awaited step settles at once (whatever the timeouts): when the first dial connects, the contact is written and half-closed on the new stream, which becomes the session's |
| DialerFacts.DialerRejected | packages/bootstrap/src/bootstrap.ts:337 | When every awaited step settles at once (whatever the timeouts): a response that does not approve fails with "Bootstrap rejected: " and its reason or 'No reason provided', or with the TypeError text when the reason cannot be converted (as RejectedObjectReason states); the session ends D_FAILED right after the read, and no hook is called |
| DialerFacts.DialerInvalidResponse | packages/bootstrap/src/bootstrap.ts:338-339 | When every awaited step settles at once (whatever the timeouts): a response the hook refuses fails with 'Invalid response from peer' |
| DialerFacts.ResponseAccepted | packages/bootstrap/src/bootstrap.ts:332-341 | When every awaited step settles at once (whatever the timeouts): the exact state after an approving, accepted response |
| DialerFacts.AcceptedSettles | packages/bootstrap/src/bootstrap.ts:294-306 | When every awaited step settles at once (whatever the timeouts): after an approving response the hook accepts, the run continues with the mode's settlement from the answered state |
| DialerFacts.DialerMissingProvision | packages/bootstrap/src/bootstrap.ts:303 | When every awaited step settles at once (whatever the timeouts): in responderCreates mode an accepted response without a truthy `provisionResult` fails with 'Missing provision result for responderCreates mode' |
| DialerFacts.DialerReturnsProvisionResult | packages/bootstrap/src/bootstrap.ts:302-305 | When every awaited step settles at once (whatever the timeouts): in responderCreates mode an accepted response's `provisionResult` is returned unchanged, and the stream is closed |
| DialerFacts.DialerProvisionFailureWrapped | packages/bootstrap/src/bootstrap.ts:346-351 | When every awaited step settles at once (whatever the timeouts): a provisioning hook that throws fails the session with "Provisioning failed: " and its message, in D_FAILED |
| DialerFacts.DialerSendsDatabase | packages/bootstrap/src/bootstrap.ts:343-359 | When every awaited step settles at once (whatever the timeouts): the exact final state in initiatorCreates mode: two dials to the same address, the database message half-closed on the second stream, the first closed, and `p` returned |
| DialerFacts.InitiatorSettles | packages/bootstrap/src/bootstrap.ts:343-359 | When every awaited step settles at once (whatever the timeouts): in initiatorCreates mode a provisioning hook that returns `p` and a second dial that connects lead to the database message, half-closed on the new stream, the first stream closed, and `p` |
| DialerFacts.DialerUnansweredTimesOut | packages/bootstrap/src/bootstrap.ts:318 | A dial that never settles fails the session with the step timeout, or the session timeout when that is shorter; nothing is called |
| Manager.SessionIdCounter | packages/bootstrap/src/bootstrap.ts:147 | The counter can be read back from the id `session-<now>-<counter>` |
| Manager.SessionIdsDistinct | packages/bootstrap/src/bootstrap.ts:146-148 | Ids from different counter values differ, whatever the clock read |
| Manager.SessionManager.constructor | packages/bootstrap/src/bootstrap.ts:131-144 | A new manager has empty maps, a zero counter, and satisfies the inventory invariant |
| Manager.SessionManager.Default | packages/bootstrap/src/bootstrap.ts:136-144 | Without a configuration the manager takes the default (30000, 5000, 100, the default protocol id) |
| Manager.SessionManager.GenerateSessionId | packages/bootstrap/src/bootstrap.ts:146-148 | The counter goes up by one and names the id, which was never handed out before and which no live session has; the invariant is kept |
| Manager.SessionManager.Register | packages/bootstrap/src/bootstrap.ts:151-156 | Installs the handler under the resolved protocol id |
| Manager.SessionManager.Unregister | packages/bootstrap/src/bootstrap.ts:157-160 | Removes the handler under the resolved protocol id |
| Manager.SessionManager.HandleNewStream | packages/bootstrap/src/bootstrap.ts:162-169 | When full (a defined limit the live listener count has reached; an undefined limit never is) it writes 'Too many concurrent sessions', half-closed, and stores nothing. Otherwise it stores exactly one new listener, under a fresh id, on that stream, leaves the other entries alone and writes nothing. The invariant is kept |
| Manager.UndefinedLimitAdmits | packages/bootstrap/src/bootstrap.ts:163 | An undefined `maxConcurrentSessions` turns admission control off: no number of live listeners makes the manager full |
| Manager.SessionManager.SettleListener | packages/bootstrap/src/bootstrap.ts:170 | The listener's `execute()` runs to its end, and its entry is then deleted whether it succeeded or failed; nothing else in the manager changes |
| Manager.SessionManager.BeginBootstrap | packages/bootstrap/src/bootstrap.ts:173-176 | A new dialer session is stored under a fresh id; one more dialer is live |
| Manager.SessionManager.ForgetDialer | packages/bootstrap/src/bootstrap.ts:177 | The `finally` deletes exactly that dialer entry and keeps the invariant |
| Manager.SessionManager.InitiateBootstrap | packages/bootstrap/src/bootstrap.ts:173-182 | The outcome is the dialer session's, unchanged, under the next id, and both maps, and so both counts, are the same afterwards |
| Manager.SessionManager.ActiveSessionCounts | packages/bootstrap/src/bootstrap.ts:180-182 | The counts are the sizes of the two session maps; under a defined limit the listener count never exceeds it |
| Manager.CreateBootstrapManager | packages/bootstrap/src/bootstrap.ts:371-381 | The manager's configuration is the caller's members over the factory defaults, an explicitly undefined member replacing its default; it starts with no sessions |
| ConsumerMocks.TokenTableEntries | packages/bootstrap/test/helpers/consumerMocks.ts:12-17 | The table holds exactly the listed tokens, all valid. Only 'initiator-token' is initiatorCreates, and only 'multi-use-token' is multi-use |
| ConsumerMocks.TokenLookupMeaning | packages/bootstrap/test/helpers/consumerMocks.ts:25-30 | `validateToken` always answers with an object. Its `valid` is truthy exactly for a listed token, and then the mode the listener derives is the token's stored mode |
| ConsumerMocks.IdentityOkMeaning | packages/bootstrap/test/helpers/consumerMocks.ts:31-34 | `validateIdentity` holds exactly for an object with a truthy `partyId` or `id` |
| ConsumerMocks.ProvisionResultShape | packages/bootstrap/test/helpers/consumerMocks.ts:35-41 | Whenever `partyB` converts to text (the only case in which there is a result), the result names its creator, the strand id `str-<partyA>-<partyB>-<now>`, and the endpoint and credentials reference made from that id |
| ConsumerMocks.ProvisionReply | packages/bootstrap/test/helpers/consumerMocks.ts:35-44 | The hook returns a result exactly when `partyB` converts to text, and that result is ProvisionResultFor's. Otherwise it throws 'Cannot convert object to primitive value' |
| ConsumerMocks.StrandIdsDiffer | packages/bootstrap/test/helpers/consumerMocks.ts:37 | For the same parties, with a `partyB` that converts to text, different times give different strand ids |
| ConsumerMocks.ResponseCheckMeaning | packages/bootstrap/test/helpers/consumerMocks.ts:45-48 | `validateResponse` passes exactly when the response is truthy and its `approved` is a boolean |
| ConsumerMocks.DatabaseResultCheckMeaning | packages/bootstrap/test/helpers/consumerMocks.ts:49-52 | `validateDatabaseResult` passes exactly when the result, its `strand` and its `dbConnectionInfo` are all truthy |
| ConsumerMocks.LoggedOnce | packages/bootstrap/test/helpers/consumerMocks.ts:19-22 | `log` appends exactly one entry, stamped with the time, to the end of that session's list, creating the list if needed; other sessions' lists are unchanged |
| ConsumerMocks.SessionAwareHooks.constructor | packages/bootstrap/test/helpers/consumerMocks.ts:7-17 | The loop builds exactly the table of the listed tokens; the logs and the provisioning record start empty |
| ConsumerMocks.SessionAwareHooks.Default | packages/bootstrap/test/helpers/consumerMocks.ts:7 | With no list the table holds 'test-token' only |
| ConsumerMocks.SessionAwareHooks.Log | packages/bootstrap/test/helpers/consumerMocks.ts:19-22 | The method updates the logs as `Logged` and touches nothing else |
| ConsumerMocks.SessionAwareHooks.ValidateToken | packages/bootstrap/test/helpers/consumerMocks.ts:25-30 | Logs the call and answers as the sessions' view of the hook does |
| ConsumerMocks.SessionAwareHooks.ValidateIdentity | packages/bootstrap/test/helpers/consumerMocks.ts:31-34 | Logs the call and answers as the hook function does |
| ConsumerMocks.SessionAwareHooks.ProvisionStrand | packages/bootstrap/test/helpers/consumerMocks.ts:35-44 | Always logs the call first, and replies as ProvisionReply. When `partyB` converts, it records the result under the session id, overwriting any earlier entry for that id and keeping the others. When it does not convert, the strand id's template literal throws and nothing is recorded |
| ConsumerMocks.SessionAwareHooks.ValidateResponse | packages/bootstrap/test/helpers/consumerMocks.ts:45-48 | Logs the call and answers as the hook function does |
| ConsumerMocks.SessionAwareHooks.ValidateDatabaseResult | packages/bootstrap/test/helpers/consumerMocks.ts:49-52 | Logs the call and answers as the hook function does |
| MockScenarios.UnlistedTokenRejected | packages/bootstrap/test/helpers/consumerMocks.ts:28 | When every awaited step settles at once (whatever the timeouts): with the test hooks, an unlisted token is rejected with 'Invalid token' and the identity is never looked at |
| MockScenarios.ResponderTokenApproved | packages/bootstrap/test/helpers/consumerMocks.ts:13 | When every awaited step settles at once (whatever the timeouts): with 'responder-token' the listener provisions as the responder for the contact's party and approves with exactly that result. When the contact's `partyId` cannot be converted, the hook throws, and the listener fails with that TypeError in L_FAILED, writing nothing |
| MockScenarios.InitiatorTokenAwaitsDatabase | packages/bootstrap/test/helpers/consumerMocks.ts:14 | When every awaited step settles at once (whatever the timeouts): with 'initiator-token' the listener approves without provisioning. It then succeeds exactly when the database message and its `strand` and `dbConnectionInfo` are all truthy. As above, a second message on the contact stream needs a source that keeps its unread chunks when a read returns |
| MockScenarios.DatabaseMessageAccepted | packages/bootstrap/test/helpers/consumerMocks.ts:49-52 | Whenever the test hooks return a provision result (a `partyB` that converts to text), the database message a dialer builds from it passes the test hooks' database check |
| MockScenarios.NonBooleanApprovalRefused | packages/bootstrap/test/helpers/consumerMocks.ts:47 | When every awaited step settles at once (whatever the timeouts): a truthy non-boolean `approved` makes the dialer fail with 'Invalid response from peer' |
| MockScenarios.ApprovedResponseReturnsProvision | packages/bootstrap/test/helpers/consumerMocks.ts:45-48 | When every awaited step settles at once (whatever the timeouts): in responderCreates mode `{approved: true, provisionResult}` makes the dialer return that result |
| MockScenarios.InitiatorDialerProvisions | packages/bootstrap/test/helpers/consumerMocks.ts:35-44 | When every awaited step settles at once (whatever the timeouts): in initiatorCreates mode the dialer returns the test hooks' result, made by the initiator for the responder's party. When the response's `partyId` cannot be converted, it fails with 'Provisioning failed: Cannot convert object to primitive value' |

## Left out

- The libp2p transport is not modelled. A stream is a class holding already-decoded text chunks, a flag for whether its source ends when a reader leaves a `for await` loop early, and a log of write-side events; a node is a class with a handler set and scripted dial outcomes. `toMultiaddr` is not modelled, and `register`'s handler closure is reduced to the set of installed protocol ids.
- `TextEncoder`/`TextDecoder` and the chunk-shape sniffing of `readJson` are left out. Chunks arrive already decoded.
- `JSON.stringify` and `JSON.parse` are abstract functions given as input. `JSON.stringify` throwing (cycles, BigInt) is not modelled.
- Real timers and `Date.now()` are inputs. Each awaited operation settles after a scheduled delay or never, and the clock reading is a parameter.
- After the session deadline fires, the source's abandoned async function may go on running. The model stops the session at its first error, including the session timeout. Effects of the operation that was racing, such as consumed chunks or a logged hook call, are kept.
- Concurrency is not modelled. The detached `execute()` of `handleNewStream` is the separate sequential step `SettleListener`, and no interleaving of sessions is considered.
- Debug logging (`console.debug`) is left out. It has no effect on the handshake.
- Numbers are integers. Floating-point values and their string renderings are not modelled.
- A hook that throws is modelled with an `Error` carrying a message. Throwing a non-`Error` value is not modelled.
- Hooks are total functions of their arguments. Their asynchronous side effects are seen only through the test hooks' class.
- Mode agreement between the two sides is not checked by the source, and the model has none.
- The joint initiatorCreates exchange across both sides is not proved to complete, because it does not. Each side is modelled as written, and `ListenerFacts.DatabaseExpectedOnContactStream` states the mismatch.
- Dialer.DialerSession.Execute, Manager.SessionManager.InitiateBootstrap and the dialer's steps (`Dialer.ConnectAndSendSpec`, `ProvisionAndSendDatabaseSpec`, `SendDatabaseSpec`, `SettleSpec`, `ExecuteSpec` and the methods `ConnectAndSend`, `ProvisionAndSendDatabase`, `SendDatabase`, `Settle`) require a non-empty `responderPeerAddrs`, and so do the `DialerFacts` and `MockScenarios` dialer lemmas. With an empty list the source passes `undefined` to `multiaddr` and then dials what it yields; what happens then is behaviour of the multiaddr and libp2p libraries, which are not part of this model.
- The test hooks throw only where building the strand id does (a `partyB` with no primitive form, see ConsumerMocks.ProvisionReply). Their `Date.now()` readings are parameters (`ts` for the log entry, `now` for the strand id).
- The session's `startTime` and `transitionTo`'s unused error argument are left out. Neither is read.
- ListenerFacts.InitiatorCreatesAwaitsDatabase: its success path needs a second message on the contact stream, which only a source that keeps its unread chunks when `readJson` returns early can give. On a libp2p source, which ends on return, the case is `ListenerFacts.ClosingSourceStopsInitiator` instead: the listener always fails with "Received empty data from stream".
- MockScenarios.InitiatorTokenAwaitsDatabase: for the same reason, its success path holds only on a source that keeps its unread chunks. On a source that ends on return, `ListenerFacts.ClosingSourceStopsInitiator` applies to the test hooks' 'initiator-token' as to any hooks.
