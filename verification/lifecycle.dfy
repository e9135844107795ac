/**
  The lifecycle of one messaging-engine client, shared by the per-user
  sessions and the single-tenant service: a `client` slot, a `ready` flag
  driven by engine events, start-once construction, sending and stopping.

  Engine calls (initialisation, sending, tear-down, QR rendering) are
  foreign; their outcomes are parameters.
 */
module Lifecycle {
  import opened Wrappers
  import opened Js

  /** A constructed engine client, numbered in construction order. */
  type ClientId = nat

  /** `client` (null or the current client), `ready`, and how many clients were ever constructed. */
  datatype Machine = Machine(client: Option<ClientId>, ready: bool, built: nat)

  /** A freshly constructed session: no client and not ready. */
  const Fresh := Machine(None, false, 0)

  /** The current client, if any, is the last one constructed. */
  ghost predicate Valid(m: Machine) {
    m.client.Some? ==> m.client.value < m.built
  }

  /** What the engine raises on a client. */
  datatype EngineEvent<M> =
    | Qr(qr: string)
    | Ready
    | Authenticated
    | Disconnected(reason: Value)
    | Message(msg: M)

  /** What the session re-emits to its listeners. */
  datatype Signal<M> =
    | QrSignal(dataUrl: string)
    | ReadySignal
    | AuthenticatedSignal
    | DisconnectedSignal(reason: Value)
    | MessageSignal(msg: M)

  /** The emitter event name a signal is emitted under. */
  function SignalName<M>(s: Signal<M>): string {
    match s
    case QrSignal(_) => "qr"
    case ReadySignal => "ready"
    case AuthenticatedSignal => "authenticated"
    case DisconnectedSignal(_) => "disconnected"
    case MessageSignal(_) => "message"
  }

  /**
    The client's event handlers. `qrImage` is the rendered QR code, or
    `None` when rendering failed (then nothing is emitted). Only `ready`
    and `disconnected` touch the flags; the client slot never changes.
   */
  function OnEngine<M>(m: Machine, e: EngineEvent<M>, qrImage: Option<string>): (r: (Machine, Option<Signal<M>>))
    ensures r.0.client == m.client && r.0.built == m.built
    ensures r.0.ready == (if e.Ready? then true else if e.Disconnected? then false else m.ready)
    ensures e.Qr? ==> r.1 == (if qrImage.Some? then Some(QrSignal(qrImage.value)) else None)
    ensures !e.Qr? ==> r.1.Some?
    ensures e.Disconnected? ==> r.1 == Some(DisconnectedSignal(e.reason))
    ensures e.Message? ==> r.1 == Some(MessageSignal(e.msg))
    ensures Valid(m) ==> Valid(r.0)
  {
    match e
    case Qr(_) => (m, if qrImage.Some? then Some(QrSignal(qrImage.value)) else None)
    case Ready => (m.(ready := true), Some(ReadySignal))
    case Authenticated => (m, Some(AuthenticatedSignal))
    case Disconnected(reason) => (m.(ready := false), Some(DisconnectedSignal(reason)))
    case Message(msg) => (m, Some(MessageSignal(msg)))
  }

  /** Applies a sequence of engine events (QR rendering assumed to succeed). */
  function Run<M>(m: Machine, es: seq<EngineEvent<M>>): Machine
    decreases |es|
  {
    if |es| == 0 then m
    else Run(OnEngine(m, es[0], Some("")).0, es[1..])
  }

  /** The index of the last `ready` or `disconnected` event, or -1 when there is none. */
  function LastFlagEvent<M>(es: seq<EngineEvent<M>>): (i: int)
    ensures -1 <= i < |es|
    ensures i >= 0 ==> es[i].Ready? || es[i].Disconnected?
    ensures forall j :: i < j < |es| ==> !es[j].Ready? && !es[j].Disconnected?
    decreases |es|
  {
    if |es| == 0 then -1
    else if es[|es| - 1].Ready? || es[|es| - 1].Disconnected? then |es| - 1
    else LastFlagEvent(es[..|es| - 1])
  }

  /**
    After any sequence of events the session is ready exactly when the last
    `ready`/`disconnected` event was `ready` (or, with neither, when it was
    ready before): `authenticated`, QR codes and messages never change it.
   */
  lemma {:induction false} ReadyFollowsLastFlagEvent<M>(m: Machine, es: seq<EngineEvent<M>>)
    ensures var i := LastFlagEvent(es);
            Run(m, es).ready == if i < 0 then m.ready else es[i].Ready?
    ensures Run(m, es).client == m.client && Run(m, es).built == m.built
    decreases |es|
  {
    if |es| > 0 {
      var m1 := OnEngine(m, es[0], Some("")).0;
      ReadyFollowsLastFlagEvent(m1, es[1..]);
      LastFlagEventTail(es);
    }
  }

  /** How the last flag event of `es` relates to that of its tail. */
  lemma {:induction false} LastFlagEventTail<M>(es: seq<EngineEvent<M>>)
    requires |es| > 0
    ensures var i := LastFlagEvent(es[1..]);
            LastFlagEvent(es) == if i >= 0 then i + 1 else if es[0].Ready? || es[0].Disconnected? then 0 else -1
    decreases |es|
  {
    if |es| > 1 && !(es[|es| - 1].Ready? || es[|es| - 1].Disconnected?) {
      assert es[1..][..|es| - 2] == es[..|es| - 1][1..];
      LastFlagEventTail(es[..|es| - 1]);
    }
  }

  /** The synchronous part of `ensure`/`start`, up to the `await` of `initialize`. */
  datatype Begun = Begun(machine: Machine, constructed: bool)

  /**
    Before the first suspension the client slot is filled: an existing
    client is kept, otherwise a new client is constructed and stored.
   */
  function EnsureBegin(m: Machine): (r: Begun)
    ensures m.client.Some? ==> r == Begun(m, false)
    ensures m.client.None? ==> r.constructed && r.machine == m.(client := Some(m.built), built := m.built + 1)
    ensures r.machine.client.Some?
    ensures Valid(m) ==> Valid(r.machine)
  {
    if m.client.Some? then Begun(m, false)
    else Begun(m.(client := Some(m.built), built := m.built + 1), true)
  }

  /** How the engine's `initialize()` ended. */
  datatype InitOutcome = Initialized | InitFailed(message: string)

  /**
    `ensure`: an existing client is returned as it is, whether or not it
    ever initialised. Otherwise a client is constructed and initialised; a
    failed initialisation is reported but the client stays in the slot.
   */
  function Ensure(m: Machine, init: InitOutcome): (r: (Machine, Result<ClientId, string>))
    ensures r.0 == EnsureBegin(m).machine
    ensures m.client.Some? ==> r == (m, Ok(m.client.value))
    ensures m.client.None? ==> r.1 == if init.Initialized? then Ok(m.built) else Err(init.message)
    ensures Valid(m) ==> Valid(r.0)
  {
    var b := EnsureBegin(m);
    if !b.constructed then (b.machine, Ok(b.machine.client.value))
    else (b.machine, if init.Initialized? then Ok(b.machine.client.value) else Err(init.message))
  }

  /**
    Two overlapping `ensure` calls construct one client: the second one
    runs its synchronous part after the first one's and finds the slot
    filled.
   */
  lemma ConcurrentEnsureBuildsOnce(m: Machine)
    ensures var b1 := EnsureBegin(m);
            var b2 := EnsureBegin(b1.machine);
            && !b2.constructed && b2.machine == b1.machine
            && b2.machine.built <= m.built + 1
  {
  }

  /** A failed initialisation is never retried: the next `ensure` succeeds without constructing. */
  lemma FailedInitIsNotRetried(m: Machine, msg: string, init2: InitOutcome)
    requires m.client.None?
    ensures var (m1, r1) := Ensure(m, InitFailed(msg));
            var (m2, r2) := Ensure(m1, init2);
            && r1 == Err(msg) && m2 == m1 && r2 == Ok(m.built)
  {
  }

  /** A message handed to the engine for delivery. */
  datatype Delivery = Delivery(client: ClientId, chatId: string, text: string)

  /** Message of the error `sendMessage` throws without a client. */
  const NotStarted := "Client not started"

  /**
    `sendMessage`: without a client it fails with "Client not started";
    with one, the engine's outcome (`failure`, None when it delivers) is
    returned. Readiness is not checked.
   */
  function Send(m: Machine, chatId: string, text: string, failure: Option<string>): (r: Result<Delivery, string>)
    ensures m.client.None? ==> r == Err(NotStarted)
    ensures m.client.Some? && failure.None? ==> r == Ok(Delivery(m.client.value, chatId, text))
    ensures m.client.Some? && failure.Some? ==> r == Err(failure.value)
  {
    if m.client.None? then Err(NotStarted)
    else if failure.Some? then Err(failure.value)
    else Ok(Delivery(m.client.value, chatId, text))
  }

  /** A client that was never marked ready can still be sent to. */
  lemma SendIgnoresReadiness(m: Machine, chatId: string, text: string)
    requires m.client.Some?
    ensures Send(m.(ready := false), chatId, text, None).Ok?
    ensures Send(m.(ready := false), chatId, text, None) == Send(m.(ready := true), chatId, text, None)
  {
  }

  /**
    `stop`: the client is destroyed when there is one; whether or not the
    destruction throws, the slot is emptied and the session is not ready.
   */
  function Stop(m: Machine, destroyThrows: bool): (r: (Machine, bool))
    ensures r.0 == Machine(None, false, m.built)
    ensures r.1 <==> m.client.Some?
    ensures Valid(r.0)
  {
    (Machine(None, false, m.built), m.client.Some?)
  }

  /** After `stop` the next `ensure` constructs a new client, different from every earlier one. */
  lemma StopThenEnsureRebuilds(m: Machine, destroyThrows: bool, init: InitOutcome)
    requires Valid(m)
    ensures var s := Stop(m, destroyThrows).0;
            var b := EnsureBegin(s);
            b.constructed && b.machine.client == Some(m.built) && (m.client.Some? ==> m.client.value != m.built)
  {
  }
}
