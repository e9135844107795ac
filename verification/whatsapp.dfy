/**
  The legacy single-tenant WhatsApp service: the same lifecycle machine as
  a per-user session, with `start` in place of `ensure`.
 */
module WhatsApp {
  import opened Wrappers
  import opened Lifecycle

  /**
    `start`: a no-op when a client exists (even one whose initialisation
    failed). Otherwise the client is stored before initialisation; a failed
    initialisation is rethrown and the client stays stored.
   */
  function Start(m: Machine, init: InitOutcome): (r: (Machine, Result<(), string>))
    ensures m.client.Some? ==> r == (m, Ok(()))
    ensures m.client.None? ==> r.0 == m.(client := Some(m.built), built := m.built + 1)
    ensures m.client.None? ==> r.1 == if init.Initialized? then Ok(()) else Err(init.message)
    ensures r.0.ready == m.ready
    ensures Lifecycle.Valid(m) ==> Lifecycle.Valid(r.0)
  {
    var (m', res) := Ensure(m, init);
    (m', if res.Ok? then Ok(()) else Err(res.error))
  }

  /** `start` and a per-user `ensure` leave the same machine and agree on success. */
  lemma StartIsEnsure(m: Machine, init: InitOutcome)
    ensures Start(m, init).0 == Ensure(m, init).0
    ensures Start(m, init).1.Ok? <==> Ensure(m, init).1.Ok?
  {
  }

  /** A rethrown initialisation failure leaves the client in place, so a second `start` does nothing. */
  lemma FailedStartIsNotRetried(m: Machine, msg: string, init2: InitOutcome)
    requires m.client.None?
    ensures var (m1, r1) := Start(m, InitFailed(msg));
            && r1 == Err(msg) && m1.client.Some?
            && Start(m1, init2) == (m1, Ok(()))
  {
  }

  /** `sendMessage`: fails with "Client not started" without a client; readiness is not checked. */
  function SendMessage(m: Machine, chatId: string, text: string, failure: Option<string>): (r: Result<Delivery, string>)
    ensures m.client.None? ==> r == Err(NotStarted)
    ensures m.client.Some? && failure.None? ==> r == Ok(Delivery(m.client.value, chatId, text))
    ensures m.client.Some? && failure.Some? ==> r == Err(failure.value)
  {
    Send(m, chatId, text, failure)
  }

  /** `stop`: the `finally` block empties the slot and clears `ready` whatever destroy does. */
  function StopService(m: Machine, destroyThrows: bool): (m': Machine)
    ensures m'.client.None? && !m'.ready && m'.built == m.built
  {
    Stop(m, destroyThrows).0
  }

  /** The service's engine event handlers: the same transitions as a per-user session. */
  function OnEvent<M>(m: Machine, e: EngineEvent<M>, qrImage: Option<string>): (r: (Machine, Option<Signal<M>>))
    ensures e.Ready? ==> r.0.ready && r.1 == Some(ReadySignal)
    ensures e.Disconnected? ==> !r.0.ready && r.1 == Some(DisconnectedSignal(e.reason))
    ensures !e.Ready? && !e.Disconnected? ==> r.0.ready == m.ready
    ensures r.0.client == m.client
  {
    OnEngine(m, e, qrImage)
  }
}
