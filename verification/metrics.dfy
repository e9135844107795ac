/**
  Per-user usage counters. Every counter starts at zero the first time a
  user is looked up and only ever grows.
 */
module Metrics {

  type UserId = string

  datatype Counters = Counters(
    attempts: nat,
    successes: nat,
    apiCallsGemini: nat,
    apiCallsGroq: nat,
    outTokensGemini: nat,
    outTokensGroq: nat,
    timeSavedSec: nat)

  type Meter = map<UserId, Counters>

  const Zero := Counters(0, 0, 0, 0, 0, 0, 0)

  /** Field-wise order: no counter of `c` exceeds the one of `d`. */
  predicate Le(c: Counters, d: Counters) {
    && c.attempts <= d.attempts && c.successes <= d.successes
    && c.apiCallsGemini <= d.apiCallsGemini && c.apiCallsGroq <= d.apiCallsGroq
    && c.outTokensGemini <= d.outTokensGemini && c.outTokensGroq <= d.outTokensGroq
    && c.timeSavedSec <= d.timeSavedSec
  }

  /** The counters a lookup of `u` sees (zero for a user never seen). */
  function Current(m: Meter, u: UserId): Counters {
    if u in m then m[u] else Zero
  }

  /** Every counter of every user is at least what it was, and no user disappeared. */
  ghost predicate Grows(m: Meter, m': Meter) {
    m.Keys <= m'.Keys && forall v :: v in m ==> Le(m[v], m'[v])
  }

  /** Only user `u`'s counters may differ. */
  ghost predicate OthersUnchanged(m: Meter, m': Meter, u: UserId) {
    m'.Keys == m.Keys + {u} && forall v :: v in m && v != u ==> m'[v] == m[v]
  }

  /**
    `_get`: the first lookup of a user registers all seven counters at zero;
    later lookups change nothing.
   */
  function Get(m: Meter, u: UserId): (r: (Meter, Counters))
    ensures u in r.0 && r.1 == r.0[u]
    ensures u in m ==> r.0 == m
    ensures u !in m ==> r.1 == Zero && OthersUnchanged(m, r.0, u)
  {
    if u in m then (m, m[u]) else (m[u := Zero], Zero)
  }

  /** `c` with one more attempt; every other counter as it was. */
  function Attempted(c: Counters): (c': Counters)
    ensures c'.attempts == c.attempts + 1 && c' == c.(attempts := c'.attempts)
    ensures Le(c, c')
  {
    c.(attempts := c.attempts + 1)
  }

  /** `c` with one more success; every other counter as it was. */
  function Succeeded(c: Counters): (c': Counters)
    ensures c'.successes == c.successes + 1 && c' == c.(successes := c'.successes)
    ensures Le(c, c')
  {
    c.(successes := c.successes + 1)
  }

  /** `c` after one Gemini call that wrote `tokens` tokens and saved `seconds`; the rest as it was. */
  function GeminiCall(c: Counters, tokens: nat, seconds: nat): (c': Counters)
    ensures c'.apiCallsGemini == c.apiCallsGemini + 1
    ensures c'.outTokensGemini == c.outTokensGemini + tokens
    ensures c'.timeSavedSec == c.timeSavedSec + seconds
    ensures c' == c.(apiCallsGemini := c'.apiCallsGemini, outTokensGemini := c'.outTokensGemini, timeSavedSec := c'.timeSavedSec)
    ensures Le(c, c')
  {
    c.(apiCallsGemini := c.apiCallsGemini + 1, outTokensGemini := c.outTokensGemini + tokens,
       timeSavedSec := c.timeSavedSec + seconds)
  }

  /** `c` after one GROQ call that wrote `tokens` tokens and saved `seconds`; the rest as it was. */
  function GroqCall(c: Counters, tokens: nat, seconds: nat): (c': Counters)
    ensures c'.apiCallsGroq == c.apiCallsGroq + 1
    ensures c'.outTokensGroq == c.outTokensGroq + tokens
    ensures c'.timeSavedSec == c.timeSavedSec + seconds
    ensures c' == c.(apiCallsGroq := c'.apiCallsGroq, outTokensGroq := c'.outTokensGroq, timeSavedSec := c'.timeSavedSec)
    ensures Le(c, c')
  {
    c.(apiCallsGroq := c.apiCallsGroq + 1, outTokensGroq := c.outTokensGroq + tokens,
       timeSavedSec := c.timeSavedSec + seconds)
  }

  /** `Math.max(0, Math.floor(x))` */
  function Clamp(x: real): (r: nat)
    ensures x < 1.0 ==> r == 0
    ensures x >= 0.0 ==> r as real <= x < r as real + 1.0
  {
    if x.Floor < 0 then 0 else x.Floor
  }

  /** A whole, non-negative number passes the clamp unchanged. */
  lemma ClampOfNat(n: nat)
    ensures Clamp(n as real) == n
  {
    assert (n as real).Floor == n;
  }

  /** `incAttempt`: the user's `attempts` goes up by exactly one; nothing else changes. */
  function IncAttempt(m: Meter, u: UserId): (m': Meter)
    ensures u in m' && m'[u] == Attempted(Current(m, u))
    ensures OthersUnchanged(m, m', u)
  {
    var (m1, c) := Get(m, u);
    m1[u := Attempted(c)]
  }

  /** `incSuccess`: the user's `successes` goes up by exactly one; nothing else changes. */
  function IncSuccess(m: Meter, u: UserId): (m': Meter)
    ensures u in m' && m'[u] == Succeeded(Current(m, u))
    ensures OthersUnchanged(m, m', u)
  {
    var (m1, c) := Get(m, u);
    m1[u := Succeeded(c)]
  }

  /**
    `addGeminiUsage`: one more Gemini call, the clamped token count and the
    clamped seconds added; the GROQ counters, attempts and successes stay.
   */
  function AddGeminiUsage(m: Meter, u: UserId, outTokens: real, timeSavedSec: real): (m': Meter)
    ensures u in m' && m'[u] == GeminiCall(Current(m, u), Clamp(outTokens), Clamp(timeSavedSec))
    ensures OthersUnchanged(m, m', u)
  {
    var (m1, c) := Get(m, u);
    m1[u := GeminiCall(c, Clamp(outTokens), Clamp(timeSavedSec))]
  }

  /** `addGroqUsage`: the symmetric update on the GROQ counters. */
  function AddGroqUsage(m: Meter, u: UserId, outTokens: real, timeSavedSec: real): (m': Meter)
    ensures u in m' && m'[u] == GroqCall(Current(m, u), Clamp(outTokens), Clamp(timeSavedSec))
    ensures OthersUnchanged(m, m', u)
  {
    var (m1, c) := Get(m, u);
    m1[u := GroqCall(c, Clamp(outTokens), Clamp(timeSavedSec))]
  }

  /** With whole, non-negative amounts, `addGeminiUsage` adds them as they are. */
  lemma GeminiUsageOfNat(m: Meter, u: UserId, tokens: nat, seconds: nat)
    ensures AddGeminiUsage(m, u, tokens as real, seconds as real)[u] == GeminiCall(Current(m, u), tokens, seconds)
  {
    ClampOfNat(tokens);
    ClampOfNat(seconds);
  }

  /** With whole, non-negative amounts, `addGroqUsage` adds them as they are. */
  lemma GroqUsageOfNat(m: Meter, u: UserId, tokens: nat, seconds: nat)
    ensures AddGroqUsage(m, u, tokens as real, seconds as real)[u] == GroqCall(Current(m, u), tokens, seconds)
  {
    ClampOfNat(tokens);
    ClampOfNat(seconds);
  }

  /** `forUser`: the user's counters (registering the user when new). */
  function ForUser(m: Meter, u: UserId): (r: (Meter, Counters))
    ensures r.1 == Current(m, u)
    ensures u in r.0 && r.0[u] == r.1
    ensures OthersUnchanged(m, r.0, u)
  {
    Get(m, u)
  }

  /** The update operations of the meter. */
  datatype Op =
    | Attempt(u: UserId)
    | Success(u: UserId)
    | GeminiUsage(u: UserId, tokens: real, seconds: real)
    | GroqUsage(u: UserId, tokens: real, seconds: real)
    | Lookup(u: UserId)

  function Apply(m: Meter, op: Op): Meter {
    match op
    case Attempt(u) => IncAttempt(m, u)
    case Success(u) => IncSuccess(m, u)
    case GeminiUsage(u, t, s) => AddGeminiUsage(m, u, t, s)
    case GroqUsage(u, t, s) => AddGroqUsage(m, u, t, s)
    case Lookup(u) => ForUser(m, u).0
  }

  function ApplyAll(m: Meter, ops: seq<Op>): Meter
    decreases |ops|
  {
    if |ops| == 0 then m else ApplyAll(Apply(m, ops[0]), ops[1..])
  }

  /** One operation only raises counters, and only those of its own user. */
  lemma ApplyGrows(m: Meter, op: Op)
    ensures Grows(m, Apply(m, op))
    ensures OthersUnchanged(m, Apply(m, op), op.u)
  {
    var m' := Apply(m, op);
    forall v | v in m ensures Le(m[v], m'[v]) {
      if v == op.u {
        assert Le(Current(m, v), m'[v]);
      }
    }
  }

  /**
    Monotonicity over any history: after any sequence of operations every
    counter of every user is at least what it was.
   */
  lemma {:induction false} ApplyAllGrows(m: Meter, ops: seq<Op>)
    ensures Grows(m, ApplyAll(m, ops))
    decreases |ops|
  {
    if |ops| > 0 {
      var m1 := Apply(m, ops[0]);
      ApplyGrows(m, ops[0]);
      ApplyAllGrows(m1, ops[1..]);
      GrowsTrans(m, m1, ApplyAll(m1, ops[1..]));
    }
  }

  /** None of `ops` names user `w`. */
  predicate NotNamed(ops: seq<Op>, w: UserId)
    decreases |ops|
  {
    |ops| == 0 || (ops[0].u != w && NotNamed(ops[1..], w))
  }

  /** Isolation: operations on other users never change `w`'s counters. */
  lemma {:induction false} ApplyAllIsolated(m: Meter, ops: seq<Op>, w: UserId)
    requires NotNamed(ops, w)
    ensures Current(ApplyAll(m, ops), w) == Current(m, w)
    decreases |ops|
  {
    if |ops| > 0 {
      ApplyGrows(m, ops[0]);
      ApplyAllIsolated(Apply(m, ops[0]), ops[1..], w);
    }
  }

  lemma GrowsTrans(m1: Meter, m2: Meter, m3: Meter)
    requires Grows(m1, m2) && Grows(m2, m3)
    ensures Grows(m1, m3)
  {
    forall v | v in m1 ensures Le(m1[v], m3[v]) {
      LeTrans(m1[v], m2[v], m3[v]);
    }
  }

  lemma LeTrans(a: Counters, b: Counters, c: Counters)
    requires Le(a, b) && Le(b, c)
    ensures Le(a, c)
  {
  }
}
