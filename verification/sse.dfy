/**
  The server-sent-events hub: a registry of live event streams ("sinks"),
  per user and (legacy) global, with fan-out of events to the registered
  sinks.
 */
module Sse {
  import opened Wrappers
  import opened Js

  type UserId = string

  /** A subscriber id. Ids come from a hub-wide counter, so they are never reused. */
  type SubId = nat

  /** The payloads the server publishes. */
  datatype Payload =
    | Phase(phase: string)
    | QrCode(dataUrl: string)
    | Status(connected: bool, reason: Option<Value>)
    | AiStatus(enabled: bool)

  /** The JSON object carried by a `data:` line. */
  datatype Data =
    | Hello(id: SubId, user: Option<UserId>)
    | Event(kind: string, payload: Payload, ts: int, user: Option<UserId>)

  /** One `event:` line followed by its `data:` line. */
  datatype Frame = Frame(event: string, data: Data)

  /**
    An HTTP response used as an event stream: the frames written to it so
    far, whether it was ended, and whether its writes fail (a dead
    connection; every write to it throws and is lost).
   */
  datatype Sink = Sink(frames: seq<Frame>, closed: bool, failing: bool)

  datatype Hub = Hub(legacy: map<SubId, Sink>, users: map<UserId, map<SubId, Sink>>, nextId: SubId)

  const EmptyHub := Hub(map[], map[], 0)

  /** `res.write(...)` of one frame; a failing sink keeps nothing. */
  function Write(s: Sink, f: Frame): (s': Sink)
    ensures s'.closed == s.closed && s'.failing == s.failing
    ensures s'.frames == if s.failing then s.frames else s.frames + [f]
  {
    if s.failing then s else s.(frames := s.frames + [f])
  }

  /** `res.end()`; on a failing sink it throws and the throw is swallowed. */
  function End(s: Sink): (s': Sink)
    ensures s'.frames == s.frames && s'.failing == s.failing
    ensures s'.closed == (s.closed || !s.failing)
  {
    if s.failing then s else s.(closed := true)
  }

  /** The subscribers of `u` (none when `u` has no entry). */
  function Subs(h: Hub, u: UserId): map<SubId, Sink> {
    if u in h.users then h.users[u] else map[]
  }

  /**
    The registry invariant: no user entry is an empty map, and every
    registered id is below the next id to be handed out.
   */
  ghost predicate Valid(h: Hub) {
    && (forall u :: u in h.users ==> h.users[u] != map[])
    && (forall u, id :: u in h.users && id in h.users[u] ==> id < h.nextId)
    && (forall id :: id in h.legacy ==> id < h.nextId)
  }

  /** Every sink of `m` received `f` (unless failing) and nothing else changed. */
  ghost predicate Delivered(m: map<SubId, Sink>, m': map<SubId, Sink>, f: Frame) {
    m'.Keys == m.Keys && forall id :: id in m ==> m'[id] == Write(m[id], f)
  }

  datatype Added = Added(hub: Hub, id: SubId, threw: bool)

  /**
    `addUserClient`: registers the sink under a fresh id and writes one
    `connected` frame to it. The write is not guarded, so on a failing sink
    the call throws after the registration.
   */
  function AddUserClient(h: Hub, u: UserId, sink: Sink): (r: Added)
    ensures Valid(h) ==> Valid(r.hub) && r.id !in Subs(h, u) && Subs(r.hub, u) - {r.id} == Subs(h, u)
    ensures r.id in Subs(r.hub, u)
    ensures Subs(r.hub, u)[r.id] == Write(sink, Frame("connected", Hello(r.id, Some(u))))
    ensures r.threw <==> sink.failing
    ensures forall v :: v != u ==> Subs(r.hub, v) == Subs(h, v)
    ensures r.hub.users.Keys == h.users.Keys + {u}
    ensures r.hub.legacy == h.legacy
  {
    var id := h.nextId;
    var m := Subs(h, u)[id := Write(sink, Frame("connected", Hello(id, Some(u))))];
    assert Valid(h) ==> id !in Subs(h, u) && m - {id} == Subs(h, u);
    Added(h.(users := h.users[u := m], nextId := id + 1), id, sink.failing)
  }

  datatype Removed = Removed(hub: Hub, ended: Option<Sink>)

  /**
    `removeUserClient`: a user with no entry is left alone; otherwise the
    id is removed and its sink ended, and the user's entry is dropped once
    it is empty.
   */
  function RemoveUserClient(h: Hub, u: UserId, id: SubId): (r: Removed)
    ensures u !in h.users ==> r == Removed(h, None)
    ensures u in h.users && id in h.users[u] ==> r.ended == Some(End(h.users[u][id]))
    ensures u in h.users && id !in h.users[u] ==> r.ended == None
    ensures Subs(r.hub, u) == Subs(h, u) - {id}
    ensures u in r.hub.users <==> Subs(r.hub, u) != map[]
    ensures forall v :: v != u ==> Subs(r.hub, v) == Subs(h, v)
    ensures r.hub.users.Keys <= h.users.Keys
    ensures r.hub.legacy == h.legacy && r.hub.nextId == h.nextId
    ensures Valid(h) ==> Valid(r.hub)
  {
    if u !in h.users then Removed(h, None)
    else
      var m := h.users[u];
      var ended := if id in m then Some(End(m[id])) else None;
      var m': map<SubId, Sink> := m - {id};
      var users' := if m' == map[] then h.users - {u} else h.users[u := m'];
      Removed(h.(users := users'), ended)
  }

  /** Writes `f` to every sink of `m`. */
  function WriteAll(m: map<SubId, Sink>, f: Frame): (m': map<SubId, Sink>)
    ensures Delivered(m, m', f)
  {
    map id | id in m :: Write(m[id], f)
  }

  /**
    `broadcastTo`: one frame to every sink of `u`, each write isolated from
    the others' failures; a user with no entry is a no-op, and no sink of
    another user or of the legacy registry is touched.
   */
  function BroadcastTo(h: Hub, u: UserId, kind: string, payload: Payload, ts: int): (h': Hub)
    ensures u !in h.users ==> h' == h
    ensures Delivered(Subs(h, u), Subs(h', u), Frame(kind, Event(kind, payload, ts, Some(u))))
    ensures forall v :: v != u ==> Subs(h', v) == Subs(h, v)
    ensures h'.users.Keys == h.users.Keys
    ensures h'.legacy == h.legacy && h'.nextId == h.nextId
    ensures Valid(h) ==> Valid(h')
  {
    if u !in h.users then h
    else
      var m := h.users[u];
      var m' := WriteAll(m, Frame(kind, Event(kind, payload, ts, Some(u))));
      assert m'.Keys == m.Keys;
      h.(users := h.users[u := m'])
  }

  /** A failing sink is skipped; every other sink of the user gets the frame. */
  lemma BroadcastIsolatesFailures(h: Hub, u: UserId, kind: string, payload: Payload, ts: int, a: SubId, b: SubId)
    requires u in h.users && a in h.users[u] && b in h.users[u]
    requires h.users[u][a].failing && !h.users[u][b].failing
    ensures var h' := BroadcastTo(h, u, kind, payload, ts);
            && Subs(h', u)[a] == h.users[u][a]
            && Subs(h', u)[b].frames == h.users[u][b].frames + [Frame(kind, Event(kind, payload, ts, Some(u)))]
  {
  }

  /** Legacy `addClient`: the same as `addUserClient` on the global registry. */
  function AddClient(h: Hub, sink: Sink): (r: Added)
    ensures Valid(h) ==> Valid(r.hub) && r.id !in h.legacy && r.hub.legacy - {r.id} == h.legacy
    ensures r.id in r.hub.legacy
    ensures r.hub.legacy[r.id] == Write(sink, Frame("connected", Hello(r.id, None)))
    ensures r.threw <==> sink.failing
    ensures r.hub.users == h.users
  {
    var id := h.nextId;
    assert Valid(h) ==> id !in h.legacy && h.legacy[id := Write(sink, Frame("connected", Hello(id, None)))] - {id} == h.legacy;
    Added(h.(legacy := h.legacy[id := Write(sink, Frame("connected", Hello(id, None)))], nextId := id + 1), id, sink.failing)
  }

  /** Legacy `removeClient`: ends and forgets the sink; an unknown id is a no-op. */
  function RemoveClient(h: Hub, id: SubId): (r: Removed)
    ensures id !in h.legacy ==> r == Removed(h, None)
    ensures id in h.legacy ==> r.ended == Some(End(h.legacy[id]))
    ensures r.hub.legacy == h.legacy - {id}
    ensures r.hub.users == h.users && r.hub.nextId == h.nextId
    ensures Valid(h) ==> Valid(r.hub)
  {
    if id in h.legacy then Removed(h.(legacy := h.legacy - {id}), Some(End(h.legacy[id])))
    else Removed(h, None)
  }

  /** Legacy `broadcast`: one frame to every globally registered sink. */
  function Broadcast(h: Hub, kind: string, payload: Payload, ts: int): (h': Hub)
    ensures Delivered(h.legacy, h'.legacy, Frame(kind, Event(kind, payload, ts, None)))
    ensures h'.users == h.users && h'.nextId == h.nextId
    ensures Valid(h) ==> Valid(h')
  {
    h.(legacy := WriteAll(h.legacy, Frame(kind, Event(kind, payload, ts, None))))
  }

  /** Subscribing and then unsubscribing restores the user's registry. */
  lemma AddThenRemove(h: Hub, u: UserId, sink: Sink)
    requires Valid(h)
    ensures var a := AddUserClient(h, u, sink);
            var r := RemoveUserClient(a.hub, u, a.id);
            && Subs(r.hub, u) == Subs(h, u)
            && r.ended == Some(End(Write(sink, Frame("connected", Hello(a.id, Some(u))))))
            && (forall v :: Subs(r.hub, v) == Subs(h, v))
  {
  }
}
