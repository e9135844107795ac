/**
  The per-user session registry: one lifecycle machine and one event
  emitter per user, created on first use and never replaced.

  Listeners are opaque values of type `H`; emitting an event hands back the
  listeners registered for its name, in registration order, for the caller
  to run.
 */
module WaManager {
  import opened Wrappers
  import opened Lifecycle

  type UserId = string

  /** A `PerUserClient`: its user, its lifecycle flags and its emitter's listeners. */
  datatype Session<H> = Session(userId: UserId, machine: Machine, listeners: map<string, seq<H>>)

  type Registry<H> = map<UserId, Session<H>>

  /** A session as the constructor leaves it: no client, not ready, no listeners. */
  function NewSession<H>(u: UserId): (s: Session<H>)
    ensures s.machine == Fresh && s.userId == u && s.listeners == map[]
  {
    Session(u, Fresh, map[])
  }

  /** Every session is stored under its own user and its machine is valid. */
  ghost predicate Valid<H>(reg: Registry<H>) {
    forall u :: u in reg ==> reg[u].userId == u && Lifecycle.Valid(reg[u].machine)
  }

  /**
    Every session keeps its listeners, and sessions added since carry
    none: what every operation other than `on` guarantees.
   */
  ghost predicate ListenersKept<H>(reg: Registry<H>, reg': Registry<H>) {
    && reg.Keys <= reg'.Keys
    && (forall v :: v in reg ==> reg'[v].listeners == reg[v].listeners)
    && (forall v :: v in reg' && v !in reg ==> reg'[v].listeners == map[])
  }

  /** The session `get` returns for `u`, without registering it. */
  function SessionOf<H>(reg: Registry<H>, u: UserId): (s: Session<H>)
    ensures s.userId == u || u in reg
  {
    if u in reg then reg[u] else NewSession(u)
  }

  /** The registry after `get` registered `u`. */
  function Registered<H>(reg: Registry<H>, u: UserId): (reg': Registry<H>)
    ensures reg'.Keys == reg.Keys + {u} && reg'[u] == SessionOf(reg, u)
    ensures forall v :: v in reg ==> reg'[v] == reg[v]
  {
    if u in reg then reg else reg[u := NewSession(u)]
  }

  /**
    `get`: the user's session, created fresh the first time and returned
    unchanged afterwards; no other user's session is affected.
   */
  function Get<H>(reg: Registry<H>, u: UserId): (r: (Registry<H>, Session<H>))
    ensures u in r.0 && r.1 == r.0[u]
    ensures u in reg ==> r.0 == reg
    ensures u !in reg ==> r.1 == NewSession(u) && r.0 == reg[u := r.1]
    ensures r == (Registered(reg, u), SessionOf(reg, u))
    ensures ListenersKept(reg, r.0)
    ensures Valid(reg) ==> Valid(r.0)
  {
    if u in reg then (reg, reg[u]) else (reg[u := NewSession(u)], NewSession(u))
  }

  /** Repeated lookups yield the same session: there is one session per user. */
  lemma GetIsStable<H>(reg: Registry<H>, u: UserId)
    ensures var (reg1, s1) := Get(reg, u);
            var (reg2, s2) := Get(reg1, u);
            reg2 == reg1 && s2 == s1
  {
  }

  /** Replaces the user's session, which must exist. */
  function Put<H>(reg: Registry<H>, u: UserId, s: Session<H>): (reg': Registry<H>)
    requires u in reg
    ensures reg'.Keys == reg.Keys && reg'[u] == s
    ensures forall v :: v in reg && v != u ==> reg'[v] == reg[v]
  {
    reg[u := s]
  }

  /** `isReady`: the session's flag (the lookup may create the session). */
  function IsReady<H>(reg: Registry<H>, u: UserId): (r: (Registry<H>, bool))
    ensures r.0 == Registered(reg, u)
    ensures r.1 == (u in reg && reg[u].machine.ready)
    ensures ListenersKept(reg, r.0)
  {
    var (reg1, s) := Get(reg, u);
    (reg1, s.machine.ready)
  }

  /** `ensure` on the user's session. */
  function EnsureSession<H>(reg: Registry<H>, u: UserId, init: InitOutcome): (r: (Registry<H>, Result<ClientId, string>))
    ensures var s := SessionOf(reg, u);
            var (m, res) := Ensure(s.machine, init);
            r == (Registered(reg, u)[u := s.(machine := m)], res)
    ensures r.0.Keys == reg.Keys + {u}
    ensures forall v :: v in reg && v != u ==> r.0[v] == reg[v]
    ensures ListenersKept(reg, r.0)
    ensures Valid(reg) ==> Valid(r.0)
  {
    var (reg1, s) := Get(reg, u);
    var (m, res) := Ensure(s.machine, init);
    (Put(reg1, u, s.(machine := m)), res)
  }

  /** `sendMessage` on the user's session; a user never seen has no client. */
  function SendMessage<H>(reg: Registry<H>, u: UserId, chatId: string, text: string, failure: Option<string>):
    (r: (Registry<H>, Result<Delivery, string>))
    ensures r.0 == Registered(reg, u)
    ensures u !in reg ==> r.1 == Err(NotStarted)
    ensures r.1 == Send(SessionOf(reg, u).machine, chatId, text, failure)
    ensures ListenersKept(reg, r.0)
  {
    var (reg1, s) := Get(reg, u);
    (reg1, Send(s.machine, chatId, text, failure))
  }

  /** The listeners registered under `name` (none when the name was never used). */
  function ListenersOf<H>(s: Session<H>, name: string): seq<H> {
    if name in s.listeners then s.listeners[name] else []
  }

  /** `on`: appends a listener for `name` on the user's emitter. */
  function On<H>(reg: Registry<H>, u: UserId, name: string, h: H): (reg': Registry<H>)
    ensures u in reg' && reg'[u].machine == SessionOf(reg, u).machine
    ensures reg'[u].listeners == SessionOf(reg, u).listeners[name := ListenersOf(SessionOf(reg, u), name) + [h]]
    ensures ListenersOf(reg'[u], name) == ListenersOf(SessionOf(reg, u), name) + [h]
    ensures reg'.Keys == reg.Keys + {u}
    ensures forall v :: v in reg && v != u ==> reg'[v] == reg[v]
    ensures Valid(reg) ==> Valid(reg')
  {
    var (reg1, s) := Get(reg, u);
    Put(reg1, u, s.(listeners := s.listeners[name := ListenersOf(s, name) + [h]]))
  }

  /** Registering under a name not yet used adds exactly that one entry. */
  lemma OnNewName<H>(reg: Registry<H>, u: UserId, name: string, h: H)
    requires name !in SessionOf(reg, u).listeners
    ensures On(reg, u, name, h)[u].listeners == SessionOf(reg, u).listeners[name := [h]]
  {
    assert ListenersOf(SessionOf(reg, u), name) == [];
    assert [] + [h] == [h];
  }

  /**
    An engine event on the user's client: the session's flags follow the
    lifecycle machine and the resulting signal (if any) is emitted, which
    yields the listeners registered for its name.
   */
  function Raise<H, M>(reg: Registry<H>, u: UserId, e: EngineEvent<M>, qrImage: Option<string>):
    (r: (Registry<H>, Option<Signal<M>>, seq<H>))
    requires u in reg
    ensures var (m, sig) := OnEngine(reg[u].machine, e, qrImage);
            && r.0 == Put(reg, u, reg[u].(machine := m))
            && r.1 == sig
            && r.2 == (if sig.Some? then ListenersOf(reg[u], SignalName(sig.value)) else [])
    ensures ListenersKept(reg, r.0) && r.0.Keys == reg.Keys
    ensures Valid(reg) ==> Valid(r.0)
  {
    var (m, sig) := OnEngine(reg[u].machine, e, qrImage);
    (Put(reg, u, reg[u].(machine := m)), sig, if sig.Some? then ListenersOf(reg[u], SignalName(sig.value)) else [])
  }

  /**
    `stopAll`: every registered session is stopped, whatever each
    tear-down does (`failing` names the users whose destroy throws). The
    sessions and their listeners stay registered.
   */
  function StopAll<H>(reg: Registry<H>, failing: set<UserId>): (reg': Registry<H>)
    ensures reg'.Keys == reg.Keys
    ensures forall u :: u in reg ==> reg'[u] == reg[u].(machine := Stop(reg[u].machine, u in failing).0)
    ensures forall u :: u in reg ==> reg'[u].machine.client.None? && !reg'[u].machine.ready
    ensures ListenersKept(reg, reg')
    ensures Valid(reg) ==> Valid(reg')
  {
    map u | u in reg :: reg[u].(machine := Stop(reg[u].machine, u in failing).0)
  }

  /** After `stopAll` nobody can send until their session is ensured again. */
  lemma NoSendAfterStopAll<H>(reg: Registry<H>, failing: set<UserId>, u: UserId, chatId: string, text: string, failure: Option<string>)
    ensures SendMessage(StopAll(reg, failing), u, chatId, text, failure).1 == Err(NotStarted)
  {
  }
}
