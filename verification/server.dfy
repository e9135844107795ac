/**
  The server's orchestration glue: the `/events` subscription with its
  wire-once listener registration, the listeners that turn session events
  into pushed frames, the auto-reply pipeline, the AI toggle, the status
  and configuration routes, the metrics view and shutdown.

  Each route and each listener run is one step over the whole server
  state; the awaits inside them are not interleaved with other steps.
 */
module Server {
  import opened Wrappers
  import opened Js
  import Filters
  import Memory
  import Metrics
  import Sse
  import Ai
  import Lifecycle
  import WaManager
  import Words
  import Strings

  type UserId = string

  /** The listeners `/events` registers on a user's session, one per event name. */
  datatype Listener = OnQr | OnReady | OnAuthenticated | OnDisconnected | OnMessage

  /** The sender as the engine describes it ("" for an absent field). */
  datatype Contact = Contact(pushname: string, number: string)

  /** An inbound message, with the chat and contact the engine resolves for it. */
  datatype Inbound = Inbound(fromMe: Value, body: string, chat: Filters.Chat, contact: Option<Contact>)

  type Session = WaManager.Session<Listener>

  /** The whole server state. */
  datatype App = App(
    hub: Sse.Hub,
    sessions: WaManager.Registry<Listener>,
    ai: Ai.State,
    memory: Memory.Store,
    meter: Metrics.Meter,
    wired: set<UserId>,
    aiEnabled: map<UserId, bool>)

  /** The server at start-up. */
  function NewApp(globalKey: string): (app: App)
    ensures Valid(app)
    ensures app.wired == {} && app.aiEnabled == map[]
  {
    App(Sse.EmptyHub, map[], Ai.NewState(globalKey), Memory.NewStore(Memory.ServerLimit), map[], {}, map[])
  }

  /** The listeners of a wired session: each of the five event names has exactly its one listener. */
  const Wired: map<string, seq<Listener>> :=
    map["qr" := [OnQr], "ready" := [OnReady], "authenticated" := [OnAuthenticated],
        "disconnected" := [OnDisconnected], "message" := [OnMessage]]

  predicate WiredOnce(s: Session) {
    s.listeners == Wired
  }

  /** Every success was an attempt, and every success is credited to exactly one provider. */
  ghost predicate MeterSound(meter: Metrics.Meter) {
    forall u :: u in meter ==>
      && meter[u].successes <= meter[u].attempts
      && meter[u].apiCallsGemini + meter[u].apiCallsGroq == meter[u].successes
  }

  /** A wired user has exactly one listener per event name; an unwired user has none. */
  ghost predicate Wiring(sessions: WaManager.Registry<Listener>, wired: set<UserId>) {
    && (forall u :: u in wired ==> u in sessions && WiredOnce(sessions[u]))
    && (forall u :: u in sessions && u !in wired ==> sessions[u].listeners == map[])
  }

  /**
    The server invariant: the component invariants hold, the store keeps
    ten turns per chat, the listeners are wired once, and the meter is
    sound.
   */
  ghost predicate Valid(app: App) {
    && Sse.Valid(app.hub)
    && WaManager.Valid(app.sessions)
    && Ai.Valid(app.ai)
    && app.memory.limit == Memory.ServerLimit
    && Wiring(app.sessions, app.wired)
    && MeterSound(app.meter)
  }

  /** Operations that keep every session's listeners keep the wiring. */
  lemma WiringKept(sessions: WaManager.Registry<Listener>, sessions': WaManager.Registry<Listener>, wired: set<UserId>)
    requires Wiring(sessions, wired) && WaManager.ListenersKept(sessions, sessions')
    ensures Wiring(sessions', wired)
  {
  }

  /** `!!aiEnabledByUser.get(userId)` */
  function AiOn(app: App, u: UserId): bool {
    u in app.aiEnabled && app.aiEnabled[u]
  }

  // ---------------------------------------------------------------- /events

  /** The five `on` calls of `/events`, in order, on the user's session. */
  function WireListeners(reg: WaManager.Registry<Listener>, u: UserId): (reg': WaManager.Registry<Listener>)
    ensures u in reg' && reg'[u].machine == WaManager.SessionOf(reg, u).machine && reg'[u].userId == WaManager.SessionOf(reg, u).userId
    ensures reg'.Keys == reg.Keys + {u}
    ensures forall v :: v in reg && v != u ==> reg'[v] == reg[v]
  {
    var r1 := WaManager.On(reg, u, "qr", OnQr);
    var r2 := WaManager.On(r1, u, "ready", OnReady);
    var r3 := WaManager.On(r2, u, "authenticated", OnAuthenticated);
    var r4 := WaManager.On(r3, u, "disconnected", OnDisconnected);
    WaManager.On(r4, u, "message", OnMessage)
  }

  /** The first three `on` calls of `/events` on a session without listeners. */
  lemma FirstThreeListeners(reg: WaManager.Registry<Listener>, u: UserId)
    requires WaManager.SessionOf(reg, u).listeners == map[]
    ensures var r1 := WaManager.On(reg, u, "qr", OnQr);
            var r2 := WaManager.On(r1, u, "ready", OnReady);
            WaManager.On(r2, u, "authenticated", OnAuthenticated)[u].listeners ==
              map["qr" := [OnQr], "ready" := [OnReady], "authenticated" := [OnAuthenticated]]
  {
    var r1 := WaManager.On(reg, u, "qr", OnQr);
    var r2 := WaManager.On(r1, u, "ready", OnReady);
    WaManager.OnNewName(reg, u, "qr", OnQr);
    assert r1[u].listeners == map["qr" := [OnQr]];
    WaManager.OnNewName(r1, u, "ready", OnReady);
    assert r2[u].listeners == map["qr" := [OnQr], "ready" := [OnReady]];
    WaManager.OnNewName(r2, u, "authenticated", OnAuthenticated);
  }

  /** Registering the five listeners on a session that has none wires it once. */
  lemma WireListenersWiresOnce(reg: WaManager.Registry<Listener>, u: UserId)
    requires WaManager.SessionOf(reg, u).listeners == map[]
    ensures WiredOnce(WireListeners(reg, u)[u])
  {
    var r1 := WaManager.On(reg, u, "qr", OnQr);
    var r2 := WaManager.On(r1, u, "ready", OnReady);
    var r3 := WaManager.On(r2, u, "authenticated", OnAuthenticated);
    FirstThreeListeners(reg, u);
    LastTwoListeners(r3, u);
  }

  /** The last two `on` calls of `/events`, after the first three. */
  lemma LastTwoListeners(r3: WaManager.Registry<Listener>, u: UserId)
    requires u in r3 && r3[u].listeners == map["qr" := [OnQr], "ready" := [OnReady], "authenticated" := [OnAuthenticated]]
    ensures var r4 := WaManager.On(r3, u, "disconnected", OnDisconnected);
            WiredOnce(WaManager.On(r4, u, "message", OnMessage)[u])
  {
    var r4 := WaManager.On(r3, u, "disconnected", OnDisconnected);
    WaManager.OnNewName(r3, u, "disconnected", OnDisconnected);
    WaManager.OnNewName(r4, u, "message", OnMessage);
  }

  /** Wiring a user not yet wired, whose session has no listeners, keeps the wiring invariant. */
  lemma WiringExtended(reg: WaManager.Registry<Listener>, reg': WaManager.Registry<Listener>, wired: set<UserId>, u: UserId)
    requires Wiring(reg, wired) && u !in wired
    requires reg'.Keys == reg.Keys + {u} && WiredOnce(reg'[u])
    requires forall v :: v in reg && v != u ==> reg'[v] == reg[v]
    ensures Wiring(reg', wired + {u})
  {
    forall v | v in wired + {u}
      ensures v in reg' && WiredOnce(reg'[v])
    {
      if v != u { assert reg'[v] == reg[v]; }
    }
    forall v | v in reg' && v !in wired + {u}
      ensures reg'[v].listeners == map[]
    {
      assert reg'[v] == reg[v];
    }
  }

  /** The same-session registries that differ only in machines keep every session valid. */
  lemma SessionsExtended(reg: WaManager.Registry<Listener>, reg': WaManager.Registry<Listener>, u: UserId)
    requires WaManager.Valid(reg)
    requires reg'.Keys == reg.Keys + {u} && reg'[u].machine == WaManager.SessionOf(reg, u).machine
    requires reg'[u].userId == u
    requires forall v :: v in reg && v != u ==> reg'[v] == reg[v]
    ensures WaManager.Valid(reg')
  {
    forall v | v in reg'
      ensures reg'[v].userId == v && Lifecycle.Valid(reg'[v].machine)
    {
      if v != u { assert reg'[v] == reg[v]; }
    }
  }

  /**
    The wire-once guard: the first call for a user registers the five
    listeners and records the user; later calls change nothing. The check
    and the registration happen in one step.
   */
  function Wire(app: App, u: UserId): (app': App)
    ensures app'.wired == app.wired + {u}
    ensures u in app.wired ==> app' == app
    ensures app' == app.(sessions := app'.sessions, wired := app'.wired)
    ensures u !in app.wired ==> u in app'.sessions
    ensures u in app.sessions ==> u in app'.sessions && app'.sessions[u].machine == app.sessions[u].machine
    ensures Valid(app) ==> Valid(app')
  {
    if u in app.wired then app
    else
      var reg := WireListeners(app.sessions, u);
      assert Valid(app) ==> Valid(app.(sessions := reg, wired := app.wired + {u})) by {
        if Valid(app) {
          WireListenersWiresOnce(app.sessions, u);
          WiringExtended(app.sessions, reg, app.wired, u);
          SessionsExtended(app.sessions, reg, u);
        }
      }
      app.(sessions := reg, wired := app.wired + {u})
  }

  /** The result of `/events`: the new state, the subscriber id, and whether the route ran to its end. */
  datatype Connected = Connected(app: App, id: Sse.SubId, completed: bool)

  /** The status, phase and AI-status frames a new subscription starts with. */
  function Greet(h: Sse.Hub, u: UserId, ready: bool, aiOn: bool, ts: int): Sse.Hub {
    var h1 := Sse.BroadcastTo(h, u, "status", Sse.Status(ready, None), ts);
    var h2 := Sse.BroadcastTo(h1, u, "phase", Sse.Phase(if ready then "ready" else "waiting_qr"), ts);
    Sse.BroadcastTo(h2, u, "ai_status", Sse.AiStatus(aiOn), ts)
  }

  /** `await waManager.ensure(userId)` on the server state: true when the user has a client afterwards. */
  function StartSession(app: App, u: UserId, init: Lifecycle.InitOutcome): (r: (App, bool))
    ensures r.0 == app.(sessions := r.0.sessions)
    ensures r.1 <==> (u in app.sessions && app.sessions[u].machine.client.Some?) || init.Initialized?
    ensures u in r.0.sessions && r.0.sessions[u].machine.client.Some?
    ensures r.0.sessions[u].machine.ready == (u in app.sessions && app.sessions[u].machine.ready)
    ensures WaManager.ListenersKept(app.sessions, r.0.sessions)
    ensures WaManager.Valid(app.sessions) ==> WaManager.Valid(r.0.sessions)
  {
    var (sessions, started) := WaManager.EnsureSession(app.sessions, u, init);
    (app.(sessions := sessions), started.Ok?)
  }

  /** The greeting of `/events`: the readiness lookup and the three frames. */
  function GreetAll(app: App, u: UserId, aiOn: bool, ts: int): (app': App)
    ensures var ready := u in app.sessions && app.sessions[u].machine.ready;
            app'.hub == Greet(app.hub, u, ready, aiOn, ts)
    ensures app'.sessions == WaManager.Registered(app.sessions, u)
    ensures app' == app.(hub := app'.hub, sessions := app'.sessions)
    ensures forall v :: v != u ==> Sse.Subs(app'.hub, v) == Sse.Subs(app.hub, v)
    ensures Sse.Subs(app'.hub, u).Keys == Sse.Subs(app.hub, u).Keys
    ensures Valid(app) ==> Valid(app')
  {
    var (sessions, ready) := WaManager.IsReady(app.sessions, u);
    assert Valid(app) ==> Valid(app.(sessions := sessions)) by {
      if Valid(app) {
        WiringKept(app.sessions, sessions, app.wired);
        SessionsExtended(app.sessions, sessions, u);
      }
    }
    app.(hub := Greet(app.hub, u, ready, aiOn, ts), sessions := sessions)
  }

  /**
    `/events`: registers the sink, ensures the user's session, wires its
    listeners once, and greets every sink of the user. A sink whose first
    write fails aborts the route after its registration; a failed session
    start aborts it before the wiring. In both cases the close hook is
    never installed.
   */
  function Connect(app: App, u: UserId, sink: Sse.Sink, init: Lifecycle.InitOutcome, ts: int): (r: Connected)
    ensures r.id in Sse.Subs(r.app.hub, u)
    ensures r.completed <==> !sink.failing && ((u in app.sessions && app.sessions[u].machine.client.Some?) || init.Initialized?)
    ensures r.completed ==> u in r.app.wired && u in r.app.sessions && r.app.sessions[u].machine.client.Some?
    ensures !r.completed ==> r.app.wired == app.wired
    ensures r.app.ai == app.ai && r.app.memory == app.memory && r.app.meter == app.meter && r.app.aiEnabled == app.aiEnabled
    ensures r.completed ==>
              r.app.hub == Greet(Sse.AddUserClient(app.hub, u, sink).hub, u,
                                 u in app.sessions && app.sessions[u].machine.ready, AiOn(app, u), ts)
    ensures !r.completed ==> r.app.hub == Sse.AddUserClient(app.hub, u, sink).hub
    ensures forall v :: v != u ==> Sse.Subs(r.app.hub, v) == Sse.Subs(app.hub, v)
  {
    var a := Sse.AddUserClient(app.hub, u, sink);
    var app1 := app.(hub := a.hub);
    if a.threw then Connected(app1, a.id, false)
    else
      var (app2, started) := StartSession(app1, u, init);
      if !started then Connected(app2, a.id, false)
      else
        var app3 := Wire(app2, u);
        Connected(GreetAll(app3, u, AiOn(app, u), ts), a.id, true)
  }

  /** `/events` keeps the server invariant, and the new subscriber id was not in use. */
  lemma ConnectKeepsValid(app: App, u: UserId, sink: Sse.Sink, init: Lifecycle.InitOutcome, ts: int)
    requires Valid(app)
    ensures var r := Connect(app, u, sink, init, ts);
            Valid(r.app) && r.id !in Sse.Subs(app.hub, u)
  {
    var a := Sse.AddUserClient(app.hub, u, sink);
    var app1 := app.(hub := a.hub);
    assert Valid(app1);
    if !a.threw {
      var (app2, started) := StartSession(app1, u, init);
      WiringKept(app1.sessions, app2.sessions, app1.wired);
      assert Valid(app2);
    }
  }

  /**
    Wire once: however many times a user subscribes, each event name of
    the user's session has exactly one listener.
   */
  lemma ReconnectKeepsOneListener(app: App, u: UserId, sink1: Sse.Sink, sink2: Sse.Sink,
                                  init1: Lifecycle.InitOutcome, init2: Lifecycle.InitOutcome, ts: int)
    requires Valid(app)
    requires Connect(app, u, sink1, init1, ts).completed
    ensures var r1 := Connect(app, u, sink1, init1, ts);
            var r2 := Connect(r1.app, u, sink2, init2, ts);
            && (r2.completed <==> !sink2.failing)
            && u in r2.app.sessions && WiredOnce(r2.app.sessions[u])
  {
    var r1 := Connect(app, u, sink1, init1, ts);
    ConnectKeepsValid(app, u, sink1, init1, ts);
    ConnectKeepsValid(r1.app, u, sink2, init2, ts);
  }

  /** The close hook: the subscriber is removed and its sink ended. */
  function Close(app: App, u: UserId, id: Sse.SubId): (app': App)
    ensures Valid(app) ==> Valid(app')
    ensures app'.hub == Sse.RemoveUserClient(app.hub, u, id).hub
    ensures app' == app.(hub := app'.hub)
  {
    app.(hub := Sse.RemoveUserClient(app.hub, u, id).hub)
  }

  // ---------------------------------------------------------------- the reply pipeline

  /** What the environment does during one pipeline run: clocks, provider outcomes and the send outcome. */
  datatype ReplyEnv = ReplyEnv(
    now: int, errorAt: int, sentAt: int,
    primary: Ai.PrimaryOutcome, secondary: Ai.SecondaryOutcome,
    sendFailure: Option<string>)

  /** Where a pipeline run ended. */
  datatype Stage = FromMe | AiOff | NotPersonal | NoChatId | NoReply | SendFailed | Replied(provider: Ai.Provider)

  /**
    The state after a pipeline run, where it ended, the history it handed
    to the orchestrator and the reply it obtained (if it got that far).
   */
  datatype Handled = Handled(app: App, stage: Stage, history: seq<Memory.Turn>, reply: Option<Ai.Reply>)

  /**
    `chat.id._serialized`: None when the chat has no id (the access
    throws); a non-string id is read as "".
   */
  function ChatKey(chat: Filters.Chat): Option<string> {
    if chat.id.None? then None
    else if chat.id.value.serialized.Str? then Some(chat.id.value.serialized.s)
    else Some("")
  }

  /** `contact?.pushname || contact?.number`, "" when neither is set. */
  function SenderName(contact: Option<Contact>): (r: string)
    ensures contact.Some? && contact.value.pushname != "" ==> r == contact.value.pushname
    ensures contact.Some? && contact.value.pushname == "" ==> r == contact.value.number
    ensures contact.None? ==> r == ""
  {
    if contact.None? then ""
    else if contact.value.pushname != "" then contact.value.pushname
    else contact.value.number
  }

  /** The pipeline stopped at one of its gates (before touching any state). */
  predicate Gated(s: Stage) {
    s.FromMe? || s.AiOff? || s.NotPersonal? || s.NoChatId?
  }

  /** The outcome of the gates: the chat id the run goes on with, or the gate that stopped it. */
  datatype Gate = Pass(chatId: string) | Stop(stage: Stage)

  /** The gates in the listener's order: own message, AI flag, chat kind, chat id. */
  function Admit(app: App, u: UserId, msg: Inbound): (g: Gate)
    ensures g.Pass? <==> !Truthy(msg.fromMe) && AiOn(app, u) && Filters.IsPersonalChat(Some(msg.chat)) && ChatKey(msg.chat).Some?
    ensures g.Pass? ==> Some(g.chatId) == ChatKey(msg.chat)
    ensures g.Stop? ==> Gated(g.stage)
  {
    if Truthy(msg.fromMe) then Stop(FromMe)
    else if !AiOn(app, u) then Stop(AiOff)
    else if !Filters.IsPersonalChat(Some(msg.chat)) then Stop(NotPersonal)
    else if ChatKey(msg.chat).None? then Stop(NoChatId)
    else Pass(ChatKey(msg.chat).value)
  }

  /** The store after the user turn of `msg` is recorded. */
  function WithUserTurn(memory: Memory.Store, chatId: string, msg: Inbound, env: ReplyEnv): Memory.Store {
    Memory.AddMessage(memory, chatId, "user", msg.body, env.now)
  }

  /** The state, history and reply after the user turn is stored, the attempt counted and a reply requested. */
  datatype Asked = Asked(app: App, history: seq<Memory.Turn>, reply: Option<Ai.Reply>)

  /**
    The middle of a run: the user turn is stored, the history read back,
    the attempt counted and the orchestrator asked. Only memory, meter and
    the AI state change.
   */
  function Ask(app: App, u: UserId, chatId: string, msg: Inbound, env: ReplyEnv): (r: Asked)
    ensures r.history == Memory.GetRecent(WithUserTurn(app.memory, chatId, msg, env), chatId)
    ensures r.app.memory == WithUserTurn(app.memory, chatId, msg, env) && r.app.meter == Metrics.IncAttempt(app.meter, u)
    ensures r.app.hub == app.hub && r.app.sessions == app.sessions && r.app.wired == app.wired && r.app.aiEnabled == app.aiEnabled
    ensures var res := Ai.ReplyFor(app.ai, u, msg.body, SenderName(msg.contact), r.history,
                                   env.now, env.errorAt, env.primary, env.secondary);
            r.app.ai == res.state && r.reply == res.reply
  {
    var memory := WithUserTurn(app.memory, chatId, msg, env);
    var history := Memory.GetRecent(memory, chatId);
    var meter := Metrics.IncAttempt(app.meter, u);
    var res := Ai.ReplyFor(app.ai, u, msg.body, SenderName(msg.contact), history,
                           env.now, env.errorAt, env.primary, env.secondary);
    Asked(app.(memory := memory, meter := meter, ai := res.state), history, res.reply)
  }

  /**
    What the provider that wrote a reply is credited with: one call, the
    reply's tokens, and the time the reply saves at 1.5 words per second;
    the other provider's counters, attempts and successes stay.
   */
  function ProviderCall(c: Metrics.Counters, reply: Ai.Reply): (c': Metrics.Counters)
    ensures c'.attempts == c.attempts && c'.successes == c.successes
    ensures c'.apiCallsGemini + c'.apiCallsGroq == c.apiCallsGemini + c.apiCallsGroq + 1
    ensures reply.provider == Ai.Gemini ==>
      && c'.apiCallsGemini == c.apiCallsGemini + 1 && c'.outTokensGemini == c.outTokensGemini + reply.outTokens
      && c'.apiCallsGroq == c.apiCallsGroq && c'.outTokensGroq == c.outTokensGroq
    ensures reply.provider == Ai.Groq ==>
      && c'.apiCallsGroq == c.apiCallsGroq + 1 && c'.outTokensGroq == c.outTokensGroq + reply.outTokens
      && c'.apiCallsGemini == c.apiCallsGemini && c'.outTokensGemini == c.outTokensGemini
    ensures c'.timeSavedSec == c.timeSavedSec + Words.TimeSavedSec(Words.WordCount(reply.text))
    ensures Metrics.Le(c, c')
  {
    var secs := Words.TimeSavedSec(Words.WordCount(reply.text));
    if reply.provider == Ai.Gemini then Metrics.GeminiCall(c, reply.outTokens, secs)
    else Metrics.GroqCall(c, reply.outTokens, secs)
  }

  /** What a delivered reply adds to its user's counters: one success on top of its provider usage. */
  function Credited(c: Metrics.Counters, reply: Ai.Reply): (c': Metrics.Counters)
    ensures c'.attempts == c.attempts && c'.successes == c.successes + 1
    ensures c'.apiCallsGemini + c'.apiCallsGroq == c.apiCallsGemini + c.apiCallsGroq + 1
    ensures c'.timeSavedSec == c.timeSavedSec + Words.TimeSavedSec(Words.WordCount(reply.text))
    ensures Metrics.Le(c, c')
  {
    ProviderCall(Metrics.Succeeded(c), reply)
  }

  /** `addGeminiUsage` or `addGroqUsage`, by the provider that wrote the reply. */
  function AddUsage(meter: Metrics.Meter, u: UserId, reply: Ai.Reply): (m': Metrics.Meter)
    ensures u in m' && m'[u] == ProviderCall(Metrics.Current(meter, u), reply)
    ensures Metrics.OthersUnchanged(meter, m', u)
  {
    var secs := Words.TimeSavedSec(Words.WordCount(reply.text));
    if reply.provider == Ai.Gemini then
      Metrics.GeminiUsageOfNat(meter, u, reply.outTokens, secs);
      Metrics.AddGeminiUsage(meter, u, reply.outTokens as real, secs as real)
    else
      Metrics.GroqUsageOfNat(meter, u, reply.outTokens, secs);
      Metrics.AddGroqUsage(meter, u, reply.outTokens as real, secs as real)
  }

  /**
    The meter side of a delivered reply: `incSuccess`, then the usage
    credited to the provider that wrote the reply.
   */
  function CreditMeter(meter: Metrics.Meter, u: UserId, reply: Ai.Reply): (m': Metrics.Meter)
    ensures Metrics.OthersUnchanged(meter, m', u)
    ensures u in m' && m'[u] == Credited(Metrics.Current(meter, u), reply)
  {
    AddUsage(Metrics.IncSuccess(meter, u), u, reply)
  }

  /** Counting the attempt keeps the meter sound and leaves the attempt open. */
  lemma AttemptKeepsMeterSound(meter: Metrics.Meter, u: UserId)
    requires MeterSound(meter)
    ensures var m' := Metrics.IncAttempt(meter, u);
            MeterSound(m') && u in m' && m'[u].successes < m'[u].attempts
  {
  }

  /** Crediting an open attempt keeps the meter sound: each success has one attempt and one provider call. */
  lemma CreditKeepsMeterSound(meter: Metrics.Meter, u: UserId, reply: Ai.Reply)
    requires MeterSound(meter) && u in meter && meter[u].successes < meter[u].attempts
    ensures MeterSound(CreditMeter(meter, u, reply))
  {
    var m' := CreditMeter(meter, u, reply);
    forall v | v in m'
      ensures m'[v].successes <= m'[v].attempts
      ensures m'[v].apiCallsGemini + m'[v].apiCallsGroq == m'[v].successes
    {
      if v == u {
        assert m'[u] == Credited(meter[u], reply);
      } else {
        assert m'[v] == meter[v];
      }
    }
  }

  /**
    The end of a run that obtained a reply: the reply is sent, and only
    once the send succeeds is the assistant turn stored and the success
    credited.
   */
  function Deliver(app: App, u: UserId, chatId: string, reply: Ai.Reply, env: ReplyEnv): (r: (App, Stage))
    ensures var sent := Lifecycle.Send(WaManager.SessionOf(app.sessions, u).machine, chatId, reply.text, env.sendFailure);
            && (r.1 == (if sent.Ok? then Replied(reply.provider) else SendFailed))
            && r.0.memory == (if sent.Ok? then Memory.AddMessage(app.memory, chatId, "assistant", reply.text, env.sentAt) else app.memory)
            && r.0.meter == (if sent.Ok? then CreditMeter(app.meter, u, reply) else app.meter)
    ensures r.1.Replied? || r.1.SendFailed?
    ensures r.0.sessions == WaManager.Registered(app.sessions, u)
    ensures r.0.hub == app.hub && r.0.ai == app.ai && r.0.wired == app.wired && r.0.aiEnabled == app.aiEnabled
  {
    var sent := WaManager.SendMessage(app.sessions, u, chatId, reply.text, env.sendFailure);
    var app1 := app.(sessions := sent.0);
    if sent.1.Err? then (app1, SendFailed)
    else
      var memory := Memory.AddMessage(app.memory, chatId, "assistant", reply.text, env.sentAt);
      (app1.(memory := memory, meter := CreditMeter(app.meter, u, reply)), Replied(reply.provider))
  }

  /**
    The `message` listener. A message from the account itself, with the AI
    off, or from a chat that is not personal is ignored. Otherwise the
    user turn is stored, the history read, the attempt counted and a reply
    requested; a reply is sent, and only once the send succeeds is the
    assistant turn stored and the success credited. Every failure ends the
    run silently, keeping the effects so far.
   */
  function HandleMessage(app: App, u: UserId, msg: Inbound, env: ReplyEnv): (r: Handled)
    ensures Gated(r.stage) <==>
      Truthy(msg.fromMe) || !AiOn(app, u) || !Filters.IsPersonalChat(Some(msg.chat)) || ChatKey(msg.chat).None?
    ensures Gated(r.stage) ==> r == Handled(app, r.stage, [], None)
    ensures !Gated(r.stage) ==>
      r.history == Memory.GetRecent(WithUserTurn(app.memory, ChatKey(msg.chat).value, msg, env), ChatKey(msg.chat).value)
    ensures r.app.hub == app.hub && r.app.wired == app.wired && r.app.aiEnabled == app.aiEnabled
    ensures app.sessions.Keys <= r.app.sessions.Keys
  {
    match Admit(app, u, msg)
    case Stop(stage) => Handled(app, stage, [], None)
    case Pass(chatId) => Respond(app, u, chatId, msg, env)
  }

  /** A run past the gates, on chat `chatId`: it ends without a reply, with a failed send or with a reply. */
  function Respond(app: App, u: UserId, chatId: string, msg: Inbound, env: ReplyEnv): (r: Handled)
    ensures !Gated(r.stage)
    ensures r.history == Memory.GetRecent(WithUserTurn(app.memory, chatId, msg, env), chatId)
    ensures r.app.hub == app.hub && r.app.wired == app.wired && r.app.aiEnabled == app.aiEnabled
    ensures app.sessions.Keys <= r.app.sessions.Keys
  {
    var asked := Ask(app, u, chatId, msg, env);
    if asked.reply.None? then Handled(asked.app, NoReply, asked.history, None)
    else
      var delivered := Deliver(asked.app, u, chatId, asked.reply.value, env);
      Handled(delivered.0, delivered.1, asked.history, asked.reply)
  }

  /**
    What a run that passed the gates stores: the user turn, then the
    assistant turn exactly when the reply was delivered.
   */
  lemma HandleMessageMemory(app: App, u: UserId, msg: Inbound, env: ReplyEnv)
    requires !Gated(HandleMessage(app, u, msg, env).stage)
    ensures var r := HandleMessage(app, u, msg, env);
            var chatId := ChatKey(msg.chat).value;
            var m1 := WithUserTurn(app.memory, chatId, msg, env);
            && (r.stage == NoReply <==> r.reply.None?)
            && (r.stage.Replied? ==> r.reply.Some? && r.stage.provider == r.reply.value.provider)
            && r.app.memory == (if r.stage.Replied? then Memory.AddMessage(m1, chatId, "assistant", r.reply.value.text, env.sentAt) else m1)
  {
    var chatId := ChatKey(msg.chat).value;
    var asked := Ask(app, u, chatId, msg, env);
    if asked.reply.Some? {
      var _ := Deliver(asked.app, u, chatId, asked.reply.value, env);
    }
  }

  /**
    The user's counters after a run: unchanged when a gate stopped it, one
    attempt more when it got past the gates, and on top of that the usage
    of the reply when the reply was delivered.
   */
  lemma HandleMessageMeter(app: App, u: UserId, msg: Inbound, env: ReplyEnv)
    ensures var r := HandleMessage(app, u, msg, env);
            var c := Metrics.Current(app.meter, u);
            var c' := Metrics.Current(r.app.meter, u);
            && (Gated(r.stage) ==> c' == c)
            && (!Gated(r.stage) && !r.stage.Replied? ==> c' == Metrics.Attempted(c))
            && (r.stage.Replied? ==> r.reply.Some? && c' == Credited(Metrics.Attempted(c), r.reply.value))
  {
    match Admit(app, u, msg)
    case Stop(_) =>
    case Pass(chatId) =>
      var asked := Ask(app, u, chatId, msg, env);
      assert Metrics.Current(asked.app.meter, u) == Metrics.Attempted(Metrics.Current(app.meter, u));
      if asked.reply.Some? {
        var _ := Deliver(asked.app, u, chatId, asked.reply.value, env);
      }
  }

  /** A run that got past the gates counts one attempt; a success is counted exactly when the reply was delivered. */
  lemma HandleMessageCounts(app: App, u: UserId, msg: Inbound, env: ReplyEnv)
    ensures var r := HandleMessage(app, u, msg, env);
            var c := Metrics.Current(app.meter, u);
            var c' := Metrics.Current(r.app.meter, u);
            && c'.attempts == c.attempts + (if Gated(r.stage) then 0 else 1)
            && c'.successes == c.successes + (if r.stage.Replied? then 1 else 0)
  {
    HandleMessageMeter(app, u, msg, env);
  }

  /** A run changes no other user's counters. */
  lemma HandleMessageIsolated(app: App, u: UserId, msg: Inbound, env: ReplyEnv, v: UserId)
    requires v != u
    ensures Metrics.Current(HandleMessage(app, u, msg, env).app.meter, v) == Metrics.Current(app.meter, v)
  {
    match Admit(app, u, msg)
    case Stop(_) =>
    case Pass(chatId) =>
      var asked := Ask(app, u, chatId, msg, env);
      OthersKeepCounters(app.meter, asked.app.meter, u, v);
      if asked.reply.Some? {
        var (app2, _) := Deliver(asked.app, u, chatId, asked.reply.value, env);
        OthersKeepCounters(asked.app.meter, app2.meter, u, v);
      }
  }

  lemma OthersKeepCounters(m: Metrics.Meter, m': Metrics.Meter, u: UserId, v: UserId)
    requires Metrics.OthersUnchanged(m, m', u) && v != u
    ensures Metrics.Current(m', v) == Metrics.Current(m, v)
  {
  }

  /** A reply is delivered only through an existing client. */
  lemma RepliedNeedsClient(app: App, u: UserId, msg: Inbound, env: ReplyEnv)
    requires HandleMessage(app, u, msg, env).stage.Replied?
    ensures u in app.sessions && app.sessions[u].machine.client.Some?
  {
    var chatId := ChatKey(msg.chat).value;
    var asked := Ask(app, u, chatId, msg, env);
    var _ := Deliver(asked.app, u, chatId, asked.reply.value, env);
  }

  /** A session lookup that registers the user keeps the server invariant. */
  lemma RegisterKeepsValid(app: App, u: UserId)
    requires Valid(app)
    ensures Valid(app.(sessions := WaManager.Registered(app.sessions, u)))
  {
    var reg := WaManager.Registered(app.sessions, u);
    WiringKept(app.sessions, reg, app.wired);
    SessionsExtended(app.sessions, reg, u);
  }

  /** The middle of a run keeps the server invariant and leaves the attempt open. */
  lemma AskKeepsValid(app: App, u: UserId, chatId: string, msg: Inbound, env: ReplyEnv)
    requires Valid(app)
    ensures var a := Ask(app, u, chatId, msg, env).app;
            Valid(a) && u in a.meter && a.meter[u].successes < a.meter[u].attempts
  {
    AttemptKeepsMeterSound(app.meter, u);
  }

  /** Delivering the reply of an open attempt keeps the server invariant. */
  lemma DeliverKeepsValid(app: App, u: UserId, chatId: string, reply: Ai.Reply, env: ReplyEnv)
    requires Valid(app) && u in app.meter && app.meter[u].successes < app.meter[u].attempts
    ensures Valid(Deliver(app, u, chatId, reply, env).0)
  {
    RegisterKeepsValid(app, u);
    CreditKeepsMeterSound(app.meter, u, reply);
  }

  /** A pipeline run keeps the server invariant. */
  lemma HandleMessageKeepsValid(app: App, u: UserId, msg: Inbound, env: ReplyEnv)
    requires Valid(app)
    ensures Valid(HandleMessage(app, u, msg, env).app)
  {
    match Admit(app, u, msg)
    case Stop(_) =>
    case Pass(chatId) =>
      var asked := Ask(app, u, chatId, msg, env);
      AskKeepsValid(app, u, chatId, msg, env);
      if asked.reply.Some? {
        DeliverKeepsValid(asked.app, u, chatId, asked.reply.value, env);
      }
  }

  // ---------------------------------------------------------------- session events

  /**
    The listener `l` run on the signal `sig`: the four status listeners
    push frames to the user's sinks, the message listener runs the reply
    pipeline. The `qr`, `disconnected` and `message` listeners do nothing
    on a signal of another kind; the `ready` and `authenticated` listeners
    take no argument and push their frames whatever the signal.
   */
  function RunListener(app: App, u: UserId, l: Listener, sig: Lifecycle.Signal<Inbound>, env: ReplyEnv, ts: int): (app': App)
    ensures l != OnMessage ==> app' == app.(hub := app'.hub)
    ensures l != OnMessage ==> forall v :: v != u ==> Sse.Subs(app'.hub, v) == Sse.Subs(app.hub, v)
    ensures l == OnMessage ==> app' == (if sig.MessageSignal? then HandleMessage(app, u, sig.msg, env).app else app)
    ensures app.sessions.Keys <= app'.sessions.Keys
  {
    match l
    case OnQr =>
      if sig.QrSignal? then
        var h := Sse.BroadcastTo(app.hub, u, "phase", Sse.Phase("qr_ready"), ts);
        app.(hub := Sse.BroadcastTo(h, u, "qr", Sse.QrCode(sig.dataUrl), ts))
      else app
    case OnReady =>
      var h := Sse.BroadcastTo(app.hub, u, "phase", Sse.Phase("ready"), ts);
      app.(hub := Sse.BroadcastTo(h, u, "status", Sse.Status(true, None), ts))
    case OnAuthenticated =>
      var h := Sse.BroadcastTo(app.hub, u, "phase", Sse.Phase("authenticated"), ts);
      app.(hub := Sse.BroadcastTo(h, u, "status", Sse.Status(true, None), ts))
    case OnDisconnected =>
      if sig.DisconnectedSignal? then app.(hub := Sse.BroadcastTo(app.hub, u, "status", Sse.Status(false, Some(sig.reason)), ts))
      else app
    case OnMessage =>
      if sig.MessageSignal? then HandleMessage(app, u, sig.msg, env).app else app
  }

  /** Runs the listeners in registration order. */
  function RunAll(app: App, u: UserId, ls: seq<Listener>, sig: Lifecycle.Signal<Inbound>, env: ReplyEnv, ts: int): (app': App)
    ensures app.sessions.Keys <= app'.sessions.Keys
    ensures |ls| == 1 ==> app' == RunListener(app, u, ls[0], sig, env, ts)
    decreases |ls|
  {
    if |ls| == 0 then app else RunAll(RunListener(app, u, ls[0], sig, env, ts), u, ls[1..], sig, env, ts)
  }

  /**
    An engine event on a user's client: the session's flags move, and the
    re-emitted signal runs the listeners registered for it.
   */
  function Dispatch(app: App, u: UserId, e: Lifecycle.EngineEvent<Inbound>, qrImage: Option<string>, env: ReplyEnv, ts: int): (app': App)
    requires u in app.sessions
    ensures u in app'.sessions
  {
    var (sessions, sig, ls) := WaManager.Raise(app.sessions, u, e, qrImage);
    var app1 := app.(sessions := sessions);
    if sig.None? then app1 else RunAll(app1, u, ls, sig.value, env, ts)
  }

  /** A listener run keeps the server invariant. */
  lemma RunListenerKeepsValid(app: App, u: UserId, l: Listener, sig: Lifecycle.Signal<Inbound>, env: ReplyEnv, ts: int)
    requires Valid(app)
    ensures Valid(RunListener(app, u, l, sig, env, ts))
  {
    if l == OnMessage && sig.MessageSignal? {
      HandleMessageKeepsValid(app, u, sig.msg, env);
    }
  }

  lemma {:induction false} RunAllKeepsValid(app: App, u: UserId, ls: seq<Listener>, sig: Lifecycle.Signal<Inbound>, env: ReplyEnv, ts: int)
    requires Valid(app)
    ensures Valid(RunAll(app, u, ls, sig, env, ts))
    decreases |ls|
  {
    if |ls| > 0 {
      RunListenerKeepsValid(app, u, ls[0], sig, env, ts);
      RunAllKeepsValid(RunListener(app, u, ls[0], sig, env, ts), u, ls[1..], sig, env, ts);
    }
  }

  /** Engine events keep the server invariant. */
  lemma DispatchKeepsValid(app: App, u: UserId, e: Lifecycle.EngineEvent<Inbound>, qrImage: Option<string>, env: ReplyEnv, ts: int)
    requires Valid(app) && u in app.sessions
    ensures Valid(Dispatch(app, u, e, qrImage, env, ts))
  {
    var (sessions, sig, ls) := WaManager.Raise(app.sessions, u, e, qrImage);
    WiringKept(app.sessions, sessions, app.wired);
    var app1 := app.(sessions := sessions);
    assert Valid(app1);
    if sig.Some? {
      RunAllKeepsValid(app1, u, ls, sig.value, env, ts);
    }
  }

  /**
    On a wired session, `ready` marks the session ready and pushes exactly
    the `phase: ready` and `status: connected` frames, to that user's
    sinks only.
   */
  lemma ReadyEventPushesStatus(app: App, u: UserId, env: ReplyEnv, ts: int)
    requires Valid(app) && u in app.wired
    ensures var app' := Dispatch(app, u, Lifecycle.Ready, None, env, ts);
            && app'.sessions[u].machine.ready
            && app'.hub == Sse.BroadcastTo(Sse.BroadcastTo(app.hub, u, "phase", Sse.Phase("ready"), ts),
                                           u, "status", Sse.Status(true, None), ts)
            && app'.meter == app.meter && app'.memory == app.memory
  {
    var e: Lifecycle.EngineEvent<Inbound> := Lifecycle.Ready;
    var (sessions, sig, ls) := WaManager.Raise(app.sessions, u, e, None);
    assert ls == [OnReady];
  }

  // ---------------------------------------------------------------- routes

  /** The response of `POST /controls/ai` with the state after it. */
  datatype Toggled = Toggled(app: App, enabled: bool)

  /**
    `POST /controls/ai`: stores the truthiness of `enabled` for the caller,
    pushes an `ai_status` frame to the caller's streams and reports the
    stored flag.
   */
  function SetAi(app: App, u: UserId, enabled: Value, ts: int): (r: Toggled)
    ensures r.enabled == Truthy(enabled) && AiOn(r.app, u) == r.enabled
    ensures forall v :: v != u ==> AiOn(r.app, v) == AiOn(app, v)
    ensures r.app.hub == Sse.BroadcastTo(app.hub, u, "ai_status", Sse.AiStatus(r.enabled), ts)
    ensures r.app == app.(hub := r.app.hub, aiEnabled := r.app.aiEnabled)
    ensures Valid(app) ==> Valid(r.app)
  {
    var app1 := app.(aiEnabled := app.aiEnabled[u := Truthy(enabled)]);
    var on := AiOn(app1, u);
    Toggled(app1.(hub := Sse.BroadcastTo(app1.hub, u, "ai_status", Sse.AiStatus(on), ts)), on)
  }

  /** Every message the engine delivers while the toggle is off is dropped at the gate, with no effect. */
  lemma DisabledAiIgnoresMessages(app: App, u: UserId, enabled: Value, ts: int, msg: Inbound, env: ReplyEnv)
    requires !Truthy(enabled)
    ensures var app' := SetAi(app, u, enabled, ts).app;
            var r := HandleMessage(app', u, msg, env);
            Gated(r.stage) && r.app == app'
  {
  }

  /**
    With the toggle on, exactly the messages not sent by the account, from
    a personal chat with an id, get past the gates.
   */
  lemma EnabledAiAdmits(app: App, u: UserId, enabled: Value, ts: int, msg: Inbound, env: ReplyEnv)
    requires Truthy(enabled)
    ensures var app' := SetAi(app, u, enabled, ts).app;
            !Gated(HandleMessage(app', u, msg, env).stage) <==>
              !Truthy(msg.fromMe) && Filters.IsPersonalChat(Some(msg.chat)) && ChatKey(msg.chat).Some?
  {
  }

  /** `GET /controls/ai-config`: the caller's configuration view (never a key). */
  function GetAiConfig(app: App, u: UserId): (c: Ai.AiConfig)
    ensures c.hasApiKey <==> u in app.ai.apiKeys || app.ai.globalKey != ""
    ensures Valid(app) ==> (c.hasApiKey <==> Ai.ModelKey(app.ai, u).Some?)
    ensures c.prompt != ""
  {
    assert Valid(app) ==> Ai.Valid(app.ai);
    assert Ai.Valid(app.ai) ==> (Ai.GetConfig(app.ai, u).hasApiKey <==> Ai.ModelKey(app.ai, u).Some?) by {
      if Ai.Valid(app.ai) {
        Ai.ConfigReportsModel(app.ai, u);
      }
    }
    Ai.GetConfig(app.ai, u)
  }

  /** `POST /controls/ai-config`: configures the caller's AI settings and reports the resulting view. */
  function PostAiConfig(app: App, u: UserId, req: Ai.ConfigRequest): (r: (App, Ai.AiConfig))
    ensures r.0 == app.(ai := r.0.ai)
    ensures r.0.ai == Ai.Configure(app.ai, u, req)
    ensures Valid(app) ==> Valid(r.0)
  {
    var app' := app.(ai := Ai.Configure(app.ai, u, req));
    (app', Ai.GetConfig(app'.ai, u))
  }

  /** Posting a configuration changes no other user's view. */
  lemma PostAiConfigIsolated(app: App, u: UserId, req: Ai.ConfigRequest, v: UserId)
    requires v != u
    ensures GetAiConfig(PostAiConfig(app, u, req).0, v) == GetAiConfig(app, v)
  {
    var st' := Ai.Configure(app.ai, u, req);
    assert Ai.UserOf(st', v) == Ai.UserOf(app.ai, v);
  }

  /** A ratio of a count to a larger positive count is a proportion. */
  lemma Proportion(s: real, a: real)
    requires 0.0 <= s <= a && a > 0.0
    ensures 0.0 <= s / a <= 1.0
  {
    assert (s / a) * a == s;
  }

  /**
    The configuration round trip over HTTP: what `POST` reports is what a
    later `GET` reports, and with string fields it is the trimmed key's
    presence (or the global key) and the trimmed prompt (or the default).
   */
  lemma PostThenGetAiConfig(app: App, u: UserId, key: string, prompt: string, groq: Value)
    ensures var (app', posted) := PostAiConfig(app, u, Ai.ConfigRequest(Str(key), Str(prompt), groq));
            && GetAiConfig(app', u) == posted
            && (posted.hasApiKey <==> Strings.Trim(key) != "" || app.ai.globalKey != "")
            && posted.prompt == (if Strings.Trim(prompt) != "" then Strings.Trim(prompt) else Ai.DefaultPrompt)
  {
    Ai.ConfigureThenGetConfig(app.ai, u, key, prompt, groq);
  }

  /** The body of `GET /status`. */
  datatype StatusView = StatusView(connected: bool, aiEnabled: bool, hasApiKey: bool)

  /**
    `GET /status`: starts the caller's session (a failed initialisation is
    swallowed), then reports readiness, the toggle and whether a Gemini key
    is available. The model takes initialisation as one atomic step in
    which no `ready` event is delivered, although the handler for `ready`
    is installed before `initialize()` is awaited; under that assumption
    `connected` is the readiness the session had before.
   */
  function Status(app: App, u: UserId, init: Lifecycle.InitOutcome): (r: (App, StatusView))
    ensures r.1.connected <==> u in app.sessions && app.sessions[u].machine.ready
    ensures r.1.aiEnabled == AiOn(app, u)
    ensures r.1.hasApiKey <==> u in app.ai.apiKeys || app.ai.globalKey != ""
    ensures r.0 == app.(sessions := r.0.sessions)
    ensures u in r.0.sessions && r.0.sessions[u].machine.client.Some?
    ensures WaManager.ListenersKept(app.sessions, r.0.sessions)
    ensures Valid(app) ==> Valid(r.0)
  {
    var (app1, _) := StartSession(app, u, init);
    var (sessions, ready) := WaManager.IsReady(app1.sessions, u);
    var app2 := app1.(sessions := sessions);
    assert Valid(app) ==> Valid(app2) by {
      if Valid(app) {
        WiringKept(app.sessions, sessions, app.wired);
      }
    }
    (app2, StatusView(ready, AiOn(app2, u), Ai.GetConfig(app2.ai, u).hasApiKey))
  }

  /**
    `/status` settles the session: a second call changes nothing and
    reports the same, whatever either initialisation does.
   */
  lemma StatusIsIdempotent(app: App, u: UserId, init1: Lifecycle.InitOutcome, init2: Lifecycle.InitOutcome)
    ensures var (app1, s1) := Status(app, u, init1);
            Status(app1, u, init2) == (app1, s1)
  {
    var (app1, s1) := Status(app, u, init1);
    var (app2, s2) := Status(app1, u, init2);
    assert app2.sessions == app1.sessions;
  }

  /** The body of `GET /metrics`, without the cost estimate. */
  datatype MetricsReport = MetricsReport(
    apiCallsGemini: nat, apiCallsGroq: nat, apiCalls: nat, timeSavedSec: nat,
    successRate: real, attempts: nat, successes: nat, outTokensGemini: nat, outTokensGroq: nat)

  /**
    `GET /metrics`: the caller's counters (registering the caller when
    new), their total API calls and the success rate, 0 when there was no
    attempt.
   */
  function MetricsFor(app: App, u: UserId): (r: (App, MetricsReport))
    ensures var c := Metrics.Current(app.meter, u);
            && r.1.attempts == c.attempts && r.1.successes == c.successes
            && r.1.apiCallsGemini == c.apiCallsGemini && r.1.apiCallsGroq == c.apiCallsGroq
            && r.1.outTokensGemini == c.outTokensGemini && r.1.outTokensGroq == c.outTokensGroq
            && r.1.timeSavedSec == c.timeSavedSec
    ensures r.1.apiCalls == r.1.apiCallsGemini + r.1.apiCallsGroq
    ensures r.1.attempts == 0 ==> r.1.successRate == 0.0
    ensures r.1.attempts > 0 ==> r.1.successRate * r.1.attempts as real == r.1.successes as real
    ensures r.0 == app.(meter := r.0.meter) && Metrics.OthersUnchanged(app.meter, r.0.meter, u)
    ensures Valid(app) ==> Valid(r.0)
  {
    var (meter, c) := Metrics.ForUser(app.meter, u);
    var rate := if c.attempts != 0 then c.successes as real / c.attempts as real else 0.0;
    (app.(meter := meter),
     MetricsReport(c.apiCallsGemini, c.apiCallsGroq, c.apiCallsGemini + c.apiCallsGroq, c.timeSavedSec,
                   rate, c.attempts, c.successes, c.outTokensGemini, c.outTokensGroq))
  }

  /**
    On a sound meter every API call is a delivered reply and the success
    rate is a proportion.
   */
  lemma MetricsAreConsistent(app: App, u: UserId)
    requires Valid(app)
    ensures var rep := MetricsFor(app, u).1;
            && rep.apiCalls == rep.successes <= rep.attempts
            && 0.0 <= rep.successRate <= 1.0
  {
    var rep := MetricsFor(app, u).1;
    if rep.attempts > 0 {
      Proportion(rep.successes as real, rep.attempts as real);
    }
  }

  /**
    Shutdown: every session is stopped (`failing` names those whose tear
    down throws; the error is ignored). Nothing else changes.
   */
  function Shutdown(app: App, failing: set<UserId>): (app': App)
    ensures app' == app.(sessions := app'.sessions)
    ensures app'.sessions.Keys == app.sessions.Keys
    ensures forall v :: v in app'.sessions ==> app'.sessions[v].machine.client.None? && !app'.sessions[v].machine.ready
    ensures Valid(app) ==> Valid(app')
  {
    var sessions := WaManager.StopAll(app.sessions, failing);
    assert Valid(app) ==> Valid(app.(sessions := sessions)) by {
      if Valid(app) {
        WiringKept(app.sessions, sessions, app.wired);
      }
    }
    app.(sessions := sessions)
  }

  /** After shutdown no message is answered: every run ends before a reply reaches a chat. */
  lemma NoReplyAfterShutdown(app: App, failing: set<UserId>, u: UserId, msg: Inbound, env: ReplyEnv)
    ensures !HandleMessage(Shutdown(app, failing), u, msg, env).stage.Replied?
  {
    if HandleMessage(Shutdown(app, failing), u, msg, env).stage.Replied? {
      RepliedNeedsClient(Shutdown(app, failing), u, msg, env);
    }
  }

  // ---------------------------------------------------------------- pipeline properties

  /**
    The user turn is stored before the history is read: with a non-empty
    chat id and body, the history handed to the orchestrator ends with the
    current message.
   */
  lemma HistoryEndsWithCurrentMessage(app: App, u: UserId, msg: Inbound, env: ReplyEnv)
    requires Valid(app)
    requires !Gated(HandleMessage(app, u, msg, env).stage)
    requires ChatKey(msg.chat).value != "" && msg.body != ""
    ensures var h := HandleMessage(app, u, msg, env).history;
            |h| > 0 && h[|h| - 1] == Memory.Turn("user", msg.body, env.now)
            && |h| <= Memory.ServerLimit
  {
  }

  /**
    After a run, the chat's history ends with the run's user turn, or with
    that turn followed by the delivered reply.
   */
  lemma UserTurnNearEnd(app: App, u: UserId, msg: Inbound, env: ReplyEnv, chatId: string)
    requires app.memory.limit == Memory.ServerLimit
    requires !Gated(HandleMessage(app, u, msg, env).stage)
    requires ChatKey(msg.chat) == Some(chatId) && chatId != "" && msg.body != ""
    ensures Memory.NearEnd(Memory.GetRecent(HandleMessage(app, u, msg, env).app.memory, chatId), Memory.Turn("user", msg.body, env.now))
  {
    var r := HandleMessage(app, u, msg, env);
    HandleMessageMemory(app, u, msg, env);
    var text2 := if r.reply.Some? then r.reply.value.text else "";
    Memory.AddedTurnNearEnd(app.memory, chatId, "user", msg.body, env.now, "assistant", text2, env.sentAt);
  }

  /**
    A turn near the end of a chat's history is in the history handed to
    the orchestrator by the next run on that chat.
   */
  lemma NearEndReachesHistory(app: App, u: UserId, msg: Inbound, env: ReplyEnv, chatId: string, t: Memory.Turn)
    requires app.memory.limit == Memory.ServerLimit
    requires !Gated(HandleMessage(app, u, msg, env).stage)
    requires ChatKey(msg.chat) == Some(chatId) && chatId != "" && msg.body != ""
    requires Memory.NearEnd(Memory.GetRecent(app.memory, chatId), t)
    ensures t in HandleMessage(app, u, msg, env).history
  {
    Memory.NearEndSurvives(app.memory, chatId, "user", msg.body, env.now, t);
  }

  /**
    Memory is keyed by chat id alone: when a second account then receives a
    message from the same chat id, the history its run hands to the
    orchestrator holds the first account's message.
   */
  lemma ChatHistoryIsSharedAcrossUsers(app: App, u1: UserId, u2: UserId, m1: Inbound, m2: Inbound, env1: ReplyEnv, env2: ReplyEnv)
    requires app.memory.limit == Memory.ServerLimit
    requires !Gated(HandleMessage(app, u1, m1, env1).stage)
    requires ChatKey(m1.chat) == ChatKey(m2.chat) && ChatKey(m1.chat).value != ""
    requires m1.body != "" && m2.body != ""
    ensures var a1 := HandleMessage(app, u1, m1, env1).app;
            var r2 := HandleMessage(a1, u2, m2, env2);
            !Gated(r2.stage) ==> Memory.Turn("user", m1.body, env1.now) in r2.history
  {
    var chatId := ChatKey(m1.chat).value;
    var a1 := HandleMessage(app, u1, m1, env1).app;
    if !Gated(HandleMessage(a1, u2, m2, env2).stage) {
      UserTurnNearEnd(app, u1, m1, env1, chatId);
      HandleMessageMemory(app, u1, m1, env1);
      NearEndReachesHistory(a1, u2, m2, env2, chatId, Memory.Turn("user", m1.body, env1.now));
    }
  }
}
