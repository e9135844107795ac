/**
  How the reply orchestrator reads a failed Gemini call: whether the error
  message signals rate limiting, and which retry delay it asks for.

  The delay comes from the first match of the case-insensitive pattern
  retryDelay"\s*:\s*"(\d+)(s|ms)" in the message. `MatchAt` decides the
  pattern at one position without backtracking: every repetition in the
  pattern is followed by a character its class cannot contain (`:` and `"`
  are not whitespace, `s` and `m` are not digits), so a shorter repetition
  can never let the rest match and the greedy choice is the only one.
 */
module AiErrors {
  import opened Wrappers
  import opened Strings

  /** The delay used when the message names none: one minute. */
  const DefaultDelayMs: nat := 60000

  /** `msg.includes('429') || msg.toLowerCase().includes('too many requests')` */
  predicate IsRateLimited(msg: string) {
    Contains(msg, "429") || Contains(ToLower(msg), "too many requests")
  }

  /** A message with no `4` and no `y` in any case cannot signal rate limiting. */
  lemma NotRateLimitedWithout(msg: string)
    requires forall i :: 0 <= i < |msg| ==> msg[i] != '4' && msg[i] != 'y' && msg[i] != 'Y'
    ensures !IsRateLimited(msg)
  {
    MissingCharNotContained(msg, "429", 0);
    var l := ToLower(msg);
    assert forall i :: 0 <= i < |l| ==> l[i] == LowerChar(msg[i]) != 'y';
    MissingCharNotContained(l, "too many requests", 7);
  }

  /** The captured groups: the digits and the unit exactly as written. */
  datatype RetryMatch = RetryMatch(digits: string, unit: string)

  /** `s` starts with the lower-case pattern `word`, letters compared case-insensitively. */
  predicate StartsWithCI(s: string, word: string) {
    |word| <= |s| && forall i :: 0 <= i < |word| ==> LowerChar(s[i]) == word[i]
  }

  /** Length of the leading `\s*` run. */
  function WsRun(s: string): (n: nat)
    ensures n <= |s|
    ensures forall i :: 0 <= i < n ==> IsWhitespace(s[i])
    ensures n < |s| ==> !IsWhitespace(s[n])
    decreases |s|
  {
    if |s| > 0 && IsWhitespace(s[0]) then 1 + WsRun(s[1..]) else 0
  }

  /** Length of the leading `\d*` run. */
  function DigitRun(s: string): (n: nat)
    ensures n <= |s|
    ensures forall i :: 0 <= i < n ==> IsDigit(s[i])
    ensures n < |s| ==> !IsDigit(s[n])
    decreases |s|
  {
    if |s| > 0 && IsDigit(s[0]) then 1 + DigitRun(s[1..]) else 0
  }

  /** The literal head of the pattern, in lower case. */
  const Key := "retrydelay\""

  /** `retryDelay"` at the start, in any case; the rest of the text. */
  function AfterKey(s: string): (r: Option<string>)
    ensures r.Some? <==> StartsWithCI(s, Key)
    ensures r.Some? ==> |s| >= |Key| && r.value == s[|Key|..]
  {
    if StartsWithCI(s, Key) then Some(s[|Key|..]) else None
  }

  /** `\s*` followed by the character `ch`; the rest of the text. */
  function Skip(s: string, ch: char): (r: Option<string>)
    ensures r.Some? ==> |r.value| < |s|
  {
    var i := WsRun(s);
    if i < |s| && s[i] == ch then Some(s[i + 1..]) else None
  }

  /** `(\d+)`: the digits and the rest of the text. */
  function Number(s: string): (r: Option<(string, string)>)
    ensures r.Some? ==> |r.value.0| > 0 && r.value.0 + r.value.1 == s
    ensures r.Some? ==> forall i :: 0 <= i < |r.value.0| ==> IsDigit(r.value.0[i])
    ensures r.Some? ==> r.value.1 == [] || !IsDigit(r.value.1[0])
    ensures r.None? <==> s == [] || !IsDigit(s[0])
  {
    var k := DigitRun(s);
    if k == 0 then None else Some((s[..k], s[k..]))
  }

  /** `(s|ms)"`, letters in any case: the unit as written. */
  function UnitOf(s: string): (r: Option<string>)
  {
    if |s| >= 2 && LowerChar(s[0]) == 's' && s[1] == '"' then Some(s[..1])
    else if |s| >= 3 && LowerChar(s[0]) == 'm' && LowerChar(s[1]) == 's' && s[2] == '"' then Some(s[..2])
    else None
  }

  /** The pattern anchored at the start of `s`. */
  function MatchAt(s: string): (r: Option<RetryMatch>)
    ensures r.Some? ==> |r.value.digits| > 0
    ensures r.Some? ==> forall i :: 0 <= i < |r.value.digits| ==> IsDigit(r.value.digits[i])
  {
    match AfterKey(s)
    case None => None
    case Some(a) =>
      match Skip(a, ':')
      case None => None
      case Some(b) =>
        match Skip(b, '"')
        case None => None
        case Some(c) =>
          match Number(c)
          case None => None
          case Some(nd) =>
            match UnitOf(nd.1)
            case None => None
            case Some(u) => Some(RetryMatch(nd.0, u))
  }

  /** The pattern anchored at position `j` of `s`. */
  ghost function MatchFrom(s: string, j: nat): Option<RetryMatch>
    requires j <= |s|
  {
    MatchAt(s[j..])
  }

  /** No match of the pattern starts at any position of `s` before `k`. */
  ghost predicate NoMatchBefore(s: string, k: nat) {
    forall j :: 0 <= j < k && j <= |s| ==> MatchFrom(s, j).None?
  }

  /** `r` is the match that starts at position `i` of `s`, and none starts earlier. */
  ghost predicate LeftmostAt(s: string, r: Option<RetryMatch>, i: nat) {
    i <= |s| && MatchFrom(s, i) == r && NoMatchBefore(s, i)
  }

  /** `String.prototype.match` without the global flag: the leftmost match. */
  function FirstMatch(s: string): (r: Option<RetryMatch>)
    ensures r.Some? ==> |r.value.digits| > 0
    ensures r.Some? ==> forall i :: 0 <= i < |r.value.digits| ==> IsDigit(r.value.digits[i])
    ensures r.Some? ==> exists i :: LeftmostAt(s, r, i)
    ensures r.None? <==> NoMatchBefore(s, |s| + 1)
    decreases |s|
  {
    if MatchAt(s).Some? then
      assert LeftmostAt(s, MatchAt(s), 0) by { assert s[0..] == s; }
      MatchAt(s)
    else if |s| == 0 then
      assert s[0..] == s;
      None
    else
      var r := FirstMatch(s[1..]);
      FirstMatchStep(s, r);
      r
  }

  /** A position of `s[1..]` is the next position of `s`. */
  lemma NoMatchShift(s: string, k: nat)
    requires |s| > 0 && MatchAt(s).None? && NoMatchBefore(s[1..], k)
    ensures NoMatchBefore(s, k + 1)
  {
    forall j | 0 <= j < k + 1 && j <= |s|
      ensures MatchFrom(s, j).None?
    {
      if j == 0 {
        assert s[j..] == s;
      } else {
        assert s[j..] == s[1..][j - 1..];
        assert MatchFrom(s[1..], j - 1).None?;
      }
    }
  }

  /** When nothing matches at the start, the leftmost match of `s[1..]` is the leftmost match of `s`. */
  lemma FirstMatchStep(s: string, r: Option<RetryMatch>)
    requires |s| > 0 && MatchAt(s).None?
    requires r.Some? ==> exists i :: LeftmostAt(s[1..], r, i)
    requires r.None? <==> NoMatchBefore(s[1..], |s|)
    ensures r.Some? ==> exists i :: LeftmostAt(s, r, i)
    ensures r.None? <==> NoMatchBefore(s, |s| + 1)
  {
    if r.Some? {
      var i: nat :| LeftmostAt(s[1..], r, i);
      NoMatchShift(s, i);
      assert s[i + 1..] == s[1..][i..];
      assert LeftmostAt(s, r, i + 1);
      assert !NoMatchBefore(s, |s| + 1) by {
        assert MatchFrom(s, i + 1).Some?;
      }
    } else {
      NoMatchShift(s, |s|);
    }
  }

  /**
    The cooldown length for a rate-limited call: the captured number times
    1000, or the number itself when the unit is exactly `ms`; one minute
    when nothing matches.
   */
  function RetryDelayMs(msg: string): nat {
    match FirstMatch(msg)
    case None => DefaultDelayMs
    case Some(m) =>
      var val := ParseDigits(m.digits);
      if m.unit == "ms" then val else val * 1000
  }

  /** The fragment a provider writes into its error message. */
  function RetryInfo(n: nat, unit: string): string {
    "retryDelay\":\"" + NatToDigits(n) + unit + "\""
  }

  lemma {:induction false} DigitRunOf(ds: string, rest: string)
    requires forall i :: 0 <= i < |ds| ==> IsDigit(ds[i])
    requires |rest| > 0 && !IsDigit(rest[0])
    ensures DigitRun(ds + rest) == |ds|
    decreases |ds|
  {
    if |ds| > 0 {
      assert (ds + rest)[1..] == ds[1..] + rest;
      DigitRunOf(ds[1..], rest);
    }
  }

  lemma {:induction false} WsRunPrefix(s: string, rest: string)
    requires WsRun(s) < |s|
    ensures WsRun(s + rest) == WsRun(s)
    decreases |s|
  {
    if IsWhitespace(s[0]) {
      assert (s + rest)[1..] == s[1..] + rest;
      WsRunPrefix(s[1..], rest);
    }
  }

  lemma {:induction false} DigitRunPrefix(s: string, rest: string)
    requires DigitRun(s) < |s|
    ensures DigitRun(s + rest) == DigitRun(s)
    decreases |s|
  {
    if IsDigit(s[0]) {
      assert (s + rest)[1..] == s[1..] + rest;
      DigitRunPrefix(s[1..], rest);
    }
  }

  lemma AfterKeyOf(a: string)
    ensures AfterKey("retryDelay\"" + a) == Some(a)
  {
    var s := "retryDelay\"" + a;
    assert StartsWithCI(s, Key);
    assert s[|Key|..] == a;
  }

  lemma SkipOf(ch: char, t: string)
    requires !IsWhitespace(ch)
    ensures Skip([ch] + t, ch) == Some(t)
  {
    assert WsRun([ch] + t) == 0;
    assert ([ch] + t)[1..] == t;
  }

  lemma NumberOf(n: nat, unit: string)
    requires |unit| > 0 && !IsDigit(unit[0])
    ensures Number(NatToDigits(n) + unit) == Some((NatToDigits(n), unit))
  {
    var ds := NatToDigits(n);
    DigitRunOf(ds, unit);
    assert (ds + unit)[..|ds|] == ds;
    assert (ds + unit)[|ds|..] == unit;
  }

  lemma UnitOfLiteral(unit: string)
    requires unit in {"s", "ms", "MS"}
    ensures UnitOf(unit + "\"") == Some(unit)
  {
  }

  /** After the opening quote: the digits, then the unit up to the closing quote. */
  lemma ValueOf(n: nat, unit: string)
    requires unit in {"s", "ms", "MS"}
    ensures var ds := NatToDigits(n);
            && Number(ds + unit + "\"") == Some((ds, unit + "\""))
            && UnitOf(unit + "\"") == Some(unit)
  {
    var ds := NatToDigits(n);
    assert ds + unit + "\"" == ds + (unit + "\"");
    NumberOf(n, unit + "\"");
    UnitOfLiteral(unit);
  }

  /** The pattern's steps, each succeeding in turn, make a match. */
  lemma MatchAtOf(s: string, a: string, b: string, c: string, ds: string, rest: string, unit: string)
    requires AfterKey(s) == Some(a) && Skip(a, ':') == Some(b) && Skip(b, '"') == Some(c)
    requires Number(c) == Some((ds, rest)) && UnitOf(rest) == Some(unit)
    ensures MatchAt(s) == Some(RetryMatch(ds, unit))
  {
  }

  /** The fragment is the key followed by the colon, the opening quote and the value. */
  lemma RetryInfoParts(n: nat, unit: string)
    ensures RetryInfo(n, unit) == "retryDelay\"" + (":" + ("\"" + (NatToDigits(n) + unit + "\"")))
  {
  }

  /** The fragment matches at its own start, capturing its digits and its unit as written. */
  lemma MatchRetryInfo(n: nat, unit: string)
    requires unit in {"s", "ms", "MS"}
    ensures MatchAt(RetryInfo(n, unit)) == Some(RetryMatch(NatToDigits(n), unit))
  {
    var ds := NatToDigits(n);
    var c := ds + unit + "\"";
    var b := "\"" + c;
    var a := ":" + b;
    RetryInfoParts(n, unit);
    AfterKeyOf(a);
    SkipOf(':', b);
    SkipOf('"', c);
    ValueOf(n, unit);
    MatchAtOf(RetryInfo(n, unit), a, b, c, ds, unit + "\"", unit);
  }

  lemma AfterKeyPrefix(s: string, rest: string)
    requires AfterKey(s).Some?
    ensures AfterKey(s + rest) == Some(AfterKey(s).value + rest)
  {
    assert (s + rest)[|Key|..] == s[|Key|..] + rest;
    assert forall i :: 0 <= i < |Key| ==> (s + rest)[i] == s[i];
  }

  lemma SkipPrefix(s: string, ch: char, rest: string)
    requires Skip(s, ch).Some?
    ensures Skip(s + rest, ch) == Some(Skip(s, ch).value + rest)
  {
    WsRunPrefix(s, rest);
    var i := WsRun(s);
    assert (s + rest)[i] == s[i];
    assert (s + rest)[i + 1..] == s[i + 1..] + rest;
  }

  lemma NumberPrefix(s: string, rest: string)
    requires Number(s).Some? && |Number(s).value.1| > 0
    ensures Number(s + rest) == Some((Number(s).value.0, Number(s).value.1 + rest))
  {
    DigitRunPrefix(s, rest);
    var k := DigitRun(s);
    assert (s + rest)[..k] == s[..k];
    assert (s + rest)[k..] == s[k..] + rest;
  }

  lemma UnitPrefix(s: string, rest: string)
    requires UnitOf(s).Some?
    ensures UnitOf(s + rest) == UnitOf(s)
  {
    assert (s + rest)[..1] == s[..1];
    if |s| >= 2 { assert (s + rest)[..2] == s[..2]; }
  }

  /** A match at the start of `s` is still the same match when more text follows. */
  lemma MatchAtPrefix(s: string, rest: string)
    requires MatchAt(s).Some?
    ensures MatchAt(s + rest) == MatchAt(s)
  {
    var a := AfterKey(s).value;
    AfterKeyPrefix(s, rest);
    var b := Skip(a, ':').value;
    SkipPrefix(a, ':', rest);
    var c := Skip(b, '"').value;
    SkipPrefix(b, '"', rest);
    var nd := Number(c).value;
    NumberPrefix(c, rest);
    UnitPrefix(nd.1, rest);
  }

  /**
    Round trip: a message that begins with `retryDelay":"<n>s"` asks for
    `n` seconds, and one that begins with `retryDelay":"<n>ms"` for `n`
    milliseconds, whatever follows.
   */
  lemma RetryDelayRoundTrip(n: nat, unit: string, rest: string)
    requires unit in {"s", "ms"}
    ensures RetryDelayMs(RetryInfo(n, unit) + rest) == if unit == "ms" then n else n * 1000
  {
    MatchRetryInfo(n, unit);
    MatchAtPrefix(RetryInfo(n, unit), rest);
    ParseNatToDigits(n);
  }

  /** Text in front that holds no match does not change the leftmost match. */
  lemma {:induction false} FirstMatchAfter(pre: string, t: string)
    requires forall i :: 0 <= i < |pre| ==> MatchAt(pre[i..] + t).None?
    ensures FirstMatch(pre + t) == FirstMatch(t)
    decreases |pre|
  {
    if pre == [] {
      assert pre + t == t;
    } else {
      assert pre[0..] + t == pre + t;
      assert (pre + t)[1..] == pre[1..] + t;
      forall i | 0 <= i < |pre[1..]|
        ensures MatchAt(pre[1..][i..] + t).None?
      {
        assert pre[1..][i..] == pre[i + 1..];
      }
      FirstMatchAfter(pre[1..], t);
    }
  }

  /**
    The delay comes from the first `retryDelay` fragment wherever it stands
    in the message: after text in which no match starts, a fragment asking
    for `n` seconds gives `n * 1000` milliseconds and one asking for `n`
    milliseconds gives `n`, whatever follows.
   */
  lemma RetryDelayAfter(pre: string, n: nat, unit: string, rest: string)
    requires unit in {"s", "ms"}
    requires forall i :: 0 <= i < |pre| ==> MatchAt(pre[i..] + RetryInfo(n, unit) + rest).None?
    ensures RetryDelayMs(pre + RetryInfo(n, unit) + rest) == if unit == "ms" then n else n * 1000
  {
    var t := RetryInfo(n, unit) + rest;
    forall i | 0 <= i < |pre|
      ensures MatchAt(pre[i..] + t).None?
    {
      assert pre[i..] + t == pre[i..] + RetryInfo(n, unit) + rest;
    }
    FirstMatchAfter(pre, t);
    assert pre + RetryInfo(n, unit) + rest == pre + t;
    RetryDelayRoundTrip(n, unit, rest);
  }

  /** A message in which the pattern matches nowhere gets the default minute. */
  lemma NoMatchDefaultDelay(msg: string)
    requires forall i :: 0 <= i <= |msg| ==> MatchAt(msg[i..]).None?
    ensures RetryDelayMs(msg) == DefaultDelayMs
  {
    forall j | 0 <= j < |msg| + 1 && j <= |msg|
      ensures MatchFrom(msg, j).None?
    {
    }
  }

  /**
    No match starts at a character other than `r` or `R`, so text without
    those letters can stand in front of a fragment without hiding it.
   */
  lemma NoMatchWithoutR(pre: string, t: string)
    requires forall i :: 0 <= i < |pre| ==> pre[i] != 'r' && pre[i] != 'R'
    ensures forall i :: 0 <= i < |pre| ==> MatchAt(pre[i..] + t).None?
  {
    forall i | 0 <= i < |pre|
      ensures MatchAt(pre[i..] + t).None?
    {
      assert (pre[i..] + t)[0] == pre[i];
    }
  }

  /**
    The pattern is case-insensitive but the unit test is not: a delay
    written with an upper-case `MS` is read as seconds.
   */
  lemma UpperCaseMillisReadAsSeconds(n: nat)
    ensures RetryDelayMs(RetryInfo(n, "MS")) == n * 1000
  {
    MatchRetryInfo(n, "MS");
    ParseNatToDigits(n);
  }
}
