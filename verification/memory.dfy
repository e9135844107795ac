/**
  The in-memory conversation store: for every chat id, the last `limit`
  turns, oldest first. It is keyed by chat id alone.
 */
module Memory {

  type ChatId = string

  /** One stored turn; `role` is whatever the caller passed ('user' or 'assistant'). */
  datatype Turn = Turn(role: string, text: string, ts: int)

  datatype Store = Store(limit: nat, chats: map<ChatId, seq<Turn>>)

  /** The limit the server's single store is built with. */
  const ServerLimit: nat := 10

  function Min(a: nat, b: nat): nat {
    if a <= b then a else b
  }

  /** A fresh store. */
  function NewStore(limit: nat): (m: Store)
    ensures m.limit == limit
    ensures forall c :: GetRecent(m, c) == []
  {
    Store(limit, map[])
  }

  /**
    The eviction loop: drop the oldest element while the list is longer
    than `limit`. What remains is the last `min(|list|, limit)` elements.
   */
  function Evict(list: seq<Turn>, limit: nat): (r: seq<Turn>)
    ensures |r| == Min(|list|, limit)
    ensures r == list[|list| - |r|..]
    decreases |list|
  {
    if |list| > limit then
      var r := Evict(list[1..], limit);
      assert list[1..][|list| - 1 - |r|..] == list[|list| - |r|..];
      r
    else list
  }

  /** `getRecent`: the chat's turns, or the empty sequence for an unknown chat. */
  function GetRecent(m: Store, chatId: ChatId): (r: seq<Turn>)
    ensures chatId !in m.chats ==> r == []
    ensures chatId in m.chats ==> r == m.chats[chatId]
  {
    if chatId in m.chats then m.chats[chatId] else []
  }

  /**
    `addMessage`: with an empty chat id or text nothing changes; otherwise
    the new turn is appended and the chat keeps the last
    `min(limit, old + 1)` turns of the extended list. Other chats are
    untouched.
   */
  function AddMessage(m: Store, chatId: ChatId, role: string, text: string, now: int): (m': Store)
    ensures chatId == "" || text == "" ==> m' == m
    ensures m'.limit == m.limit
    ensures chatId != "" && text != "" ==>
      var ext := GetRecent(m, chatId) + [Turn(role, text, now)];
      && m'.chats.Keys == m.chats.Keys + {chatId}
      && |GetRecent(m', chatId)| == Min(m.limit, |ext|) <= m.limit
      && GetRecent(m', chatId) == ext[|ext| - Min(m.limit, |ext|)..]
    ensures forall c :: c != chatId ==> GetRecent(m', c) == GetRecent(m, c)
  {
    if chatId == "" || text == "" then m
    else
      var list := GetRecent(m, chatId) + [Turn(role, text, now)];
      m.(chats := m.chats[chatId := Evict(list, m.limit)])
  }

  /** `clear`: forgets one chat; an empty id is a no-op. Other chats are untouched. */
  function Clear(m: Store, chatId: ChatId): (m': Store)
    ensures chatId == "" ==> m' == m
    ensures chatId != "" ==> GetRecent(m', chatId) == [] && m'.chats.Keys == m.chats.Keys - {chatId}
    ensures m'.limit == m.limit
    ensures forall c :: c != chatId ==> GetRecent(m', c) == GetRecent(m, c)
  {
    if chatId == "" then m else m.(chats := m.chats - {chatId})
  }

  /**
    One more turn moves every kept turn one place further from the end;
    the turn `k` places from the end is still kept while `k` is below the
    limit.
   */
  lemma RecentTurnSurvives(m: Store, chatId: ChatId, role: string, text: string, now: int, k: nat)
    requires chatId != "" && text != ""
    requires 1 <= k <= |GetRecent(m, chatId)| && k < m.limit
    ensures var s := GetRecent(m, chatId);
            var s' := GetRecent(AddMessage(m, chatId, role, text, now), chatId);
            k + 1 <= |s'| && s'[|s'| - (k + 1)] == s[|s| - k]
  {
    var s := GetRecent(m, chatId);
    var ext := s + [Turn(role, text, now)];
    var s' := GetRecent(AddMessage(m, chatId, role, text, now), chatId);
    assert s' == ext[|ext| - |s'|..];
    assert s'[|s'| - (k + 1)] == ext[|ext| - (k + 1)];
  }

  /** `t` is the last or the second-to-last element of `s`. */
  predicate NearEnd(s: seq<Turn>, t: Turn) {
    (|s| >= 1 && s[|s| - 1] == t) || (|s| >= 2 && s[|s| - 2] == t)
  }

  /**
    A turn just added is at the end of its chat, and one more turn leaves
    it second from the end (the limit exceeds one).
   */
  lemma AddedTurnNearEnd(m: Store, chatId: ChatId, role: string, text: string, now: int,
                         role2: string, text2: string, now2: int)
    requires chatId != "" && text != "" && m.limit > 1
    ensures var m1 := AddMessage(m, chatId, role, text, now);
            && NearEnd(GetRecent(m1, chatId), Turn(role, text, now))
            && NearEnd(GetRecent(AddMessage(m1, chatId, role2, text2, now2), chatId), Turn(role, text, now))
  {
    var m1 := AddMessage(m, chatId, role, text, now);
    var s1 := GetRecent(m1, chatId);
    assert s1[|s1| - 1] == Turn(role, text, now);
    if text2 != "" {
      RecentTurnSurvives(m1, chatId, role2, text2, now2, 1);
    }
  }

  /** A turn near the end of a chat is still kept after one more turn, since the limit exceeds two. */
  lemma NearEndSurvives(m: Store, chatId: ChatId, role: string, text: string, now: int, t: Turn)
    requires chatId != "" && text != "" && m.limit > 2
    requires NearEnd(GetRecent(m, chatId), t)
    ensures t in GetRecent(AddMessage(m, chatId, role, text, now), chatId)
  {
    var s := GetRecent(m, chatId);
    var k := if s[|s| - 1] == t then 1 else 2;
    RecentTurnSurvives(m, chatId, role, text, now, k);
    var s' := GetRecent(AddMessage(m, chatId, role, text, now), chatId);
    assert s'[|s'| - (k + 1)] == t;
  }

  /** Every text is non-empty, so that `AddMessage` stores each of them. */
  predicate NoEmptyText(texts: seq<string>)
    decreases |texts|
  {
    |texts| == 0 || (texts[0] != "" && NoEmptyText(texts[1..]))
  }

  /** Adds the turns of `turns`, in order, to one chat (all with the same role). */
  function AddAll(m: Store, chatId: ChatId, role: string, texts: seq<string>, now: int): Store
    decreases |texts|
  {
    if |texts| == 0 then m
    else AddAll(AddMessage(m, chatId, role, texts[0], now), chatId, role, texts[1..], now)
  }

  /** The turns `AddAll` stores, in insertion order. */
  function Turns(role: string, texts: seq<string>, now: int): (ts: seq<Turn>)
    ensures |ts| == |texts|
    ensures forall i :: 0 <= i < |texts| ==> ts[i] == Turn(role, texts[i], now)
  {
    seq(|texts|, i requires 0 <= i < |texts| => Turn(role, texts[i], now))
  }

  lemma TurnsCons(role: string, texts: seq<string>, now: int)
    requires |texts| > 0
    ensures Turns(role, texts, now) == [Turn(role, texts[0], now)] + Turns(role, texts[1..], now)
  {
    var a := Turns(role, texts, now);
    var b := [Turn(role, texts[0], now)] + Turns(role, texts[1..], now);
    assert |a| == |b|;
    forall i | 0 <= i < |a| ensures a[i] == b[i] {
      if i > 0 { assert b[i] == Turns(role, texts[1..], now)[i - 1]; }
    }
  }

  lemma TurnsSuffix(role: string, texts: seq<string>, now: int, k: nat)
    requires k <= |texts|
    ensures Turns(role, texts, now)[k..] == Turns(role, texts[k..], now)
  {
    var a := Turns(role, texts, now)[k..];
    var b := Turns(role, texts[k..], now);
    assert |a| == |b|;
    forall i | 0 <= i < |a| ensures a[i] == b[i] {
      assert a[i] == Turns(role, texts, now)[k + i];
    }
  }

  /**
    Inserting any number of turns into a chat keeps exactly the most recent
    `min(limit, old + k)` of them, oldest first: the sliding-window
    behaviour of the store.
   */
  lemma {:induction false} AddAllKeepsWindow(m: Store, chatId: ChatId, role: string, texts: seq<string>, now: int)
    requires chatId != ""
    requires NoEmptyText(texts)
    requires |GetRecent(m, chatId)| <= m.limit
    ensures GetRecent(AddAll(m, chatId, role, texts, now), chatId)
            == Window(GetRecent(m, chatId) + Turns(role, texts, now), m.limit)
    decreases |texts|
  {
    var prev := GetRecent(m, chatId);
    if |texts| == 0 {
      WindowOfShort(prev + Turns(role, texts, now), m.limit);
    } else {
      var t := Turn(role, texts[0], now);
      var m1 := AddMessage(m, chatId, role, texts[0], now);
      AddAllKeepsWindow(m1, chatId, role, texts[1..], now);
      TurnsCons(role, texts, now);
      WindowStep(prev, t, Turns(role, texts[1..], now), GetRecent(m1, chatId), m.limit);
    }
  }

  lemma WindowOfShort<T>(s: seq<T>, limit: nat)
    requires |s| <= limit
    ensures Window(s, limit) == s
  {
  }

  lemma WindowStep<T>(prev: seq<T>, t: T, rest: seq<T>, w: seq<T>, limit: nat)
    requires w == Window(prev + [t], limit)
    ensures Window(w + rest, limit) == Window(prev + ([t] + rest), limit)
  {
    WindowOfWindow(prev + [t], rest, limit);
    assert prev + ([t] + rest) == (prev + [t]) + rest;
  }

  /** The last `min(limit, |s|)` elements of `s`. */
  function Window<T>(s: seq<T>, limit: nat): (w: seq<T>)
    ensures |w| == Min(limit, |s|)
  {
    s[|s| - Min(limit, |s|)..]
  }

  /** Cutting a window early and then extending gives the same window as cutting once at the end. */
  lemma WindowOfWindow<T>(s: seq<T>, rest: seq<T>, limit: nat)
    ensures Window(Window(s, limit) + rest, limit) == Window(s + rest, limit)
  {
    var w := Window(s, limit);
    var k := |s| - |w|;
    assert w + rest == (s + rest)[k..];
    var all := s + rest;
    var n := Min(limit, |all|);
    assert Min(limit, |all| - k) == n;
    assert (s + rest)[k..][|all| - k - n..] == all[|all| - n..];
  }

  /**
    After more than `limit` insertions into a chat whose history was empty,
    the chat holds exactly `limit` turns: the most recent ones, in order.
   */
  lemma WindowAfterManyInserts(m: Store, chatId: ChatId, role: string, texts: seq<string>, now: int)
    requires chatId != "" && GetRecent(m, chatId) == []
    requires NoEmptyText(texts)
    requires |texts| > m.limit
    ensures var r := GetRecent(AddAll(m, chatId, role, texts, now), chatId);
            |r| == m.limit && r == Turns(role, texts[|texts| - m.limit..], now)
  {
    AddAllKeepsWindow(m, chatId, role, texts, now);
    assert [] + Turns(role, texts, now) == Turns(role, texts, now);
    TurnsSuffix(role, texts, now, |texts| - m.limit);
  }
}
