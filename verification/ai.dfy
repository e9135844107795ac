/**
  The AI reply orchestrator: per-user provider configuration, prompt
  construction from the conversation memory, a primary provider (Gemini)
  with a rate-limit cooldown, and a fallback provider (GROQ).

  Provider clients are represented by the key they were built with; the
  outcome of each provider call is a parameter, as is the clock.
 */
module Ai {
  import opened Wrappers
  import opened Js
  import opened Strings
  import opened AiErrors
  import Memory

  type UserId = string

  const DefaultPrompt := "You are a friendly WhatsApp assistant. Keep replies very short: 1\U{2013}2 simple sentences. Be helpful, casual, and safe. Plain text only (no markdown)."

  /** The message of the error the timeout race rejects with. */
  const TimeoutMessage := "AI request timeout"

  /**
    The service state. `models` and `groqClients` hold the key each user's
    client was built with; `globalKey` is the server-wide Gemini key ("" for
    none).
   */
  datatype State = State(
    globalKey: string,
    apiKeys: map<UserId, string>,
    models: map<UserId, string>,
    prompts: map<UserId, string>,
    cooldowns: map<UserId, int>,
    groqKeys: map<UserId, string>,
    groqClients: map<UserId, string>)

  /** The service as constructed: no user state yet. */
  function NewState(globalKey: string): (st: State)
    ensures Valid(st) && st.globalKey == globalKey
    ensures forall u :: UserOf(st, u) == UserView(None, None, None, None, None, None)
  {
    State(globalKey, map[], map[], map[], map[], map[], map[])
  }

  function Find<V>(m: map<UserId, V>, u: UserId): Option<V> {
    if u in m then Some(m[u]) else None
  }

  /** Everything the service stores about one user. */
  datatype UserView = UserView(
    apiKey: Option<string>, model: Option<string>, prompt: Option<string>,
    cooldown: Option<int>, groqKey: Option<string>, groqClient: Option<string>)

  function UserOf(st: State, u: UserId): UserView {
    UserView(Find(st.apiKeys, u), Find(st.models, u), Find(st.prompts, u),
             Find(st.cooldowns, u), Find(st.groqKeys, u), Find(st.groqClients, u))
  }

  /** A non-empty value with no surrounding whitespace: what `configure` stores. */
  predicate Stored(v: string) {
    v != [] && IsTrimmed(v)
  }

  /**
    What `configure` maintains: every stored key and prompt is trimmed and
    non-empty; a user with a key has a model built from it; a model without
    a user key was built from the global key; a GROQ client exists exactly
    for the users with a GROQ key, built from it.
   */
  ghost predicate Valid(st: State) {
    && (forall u :: u in st.apiKeys ==> Stored(st.apiKeys[u]))
    && (forall u :: u in st.prompts ==> Stored(st.prompts[u]))
    && (forall u :: u in st.groqKeys ==> Stored(st.groqKeys[u]))
    && (forall u :: u in st.apiKeys ==> u in st.models && st.models[u] == st.apiKeys[u])
    && (forall u :: u in st.models && u !in st.apiKeys ==> st.models[u] == st.globalKey != "")
    && st.groqClients == st.groqKeys
  }

  /** The fields of a `configure` request, each of any JavaScript type or absent. */
  datatype ConfigRequest = ConfigRequest(apiKey: Value, prompt: Value, groqApiKey: Value)

  /** A user key: stored, and the user's model rebuilt from it. */
  function SetKey(st: State, u: UserId, key: string): (st': State)
    requires Stored(key)
    ensures Find(st'.apiKeys, u) == Some(key) && Find(st'.models, u) == Some(key) && Find(st'.cooldowns, u) == Some(0)
    ensures st' == st.(apiKeys := st'.apiKeys, models := st'.models, cooldowns := st'.cooldowns)
    ensures forall v :: v != u ==> UserOf(st', v) == UserOf(st, v)
    ensures Valid(st) ==> Valid(st')
  {
    st.(apiKeys := st.apiKeys[u := key], models := st.models[u := key], cooldowns := st.cooldowns[u := 0])
  }

  /** No user key: the user's model is rebuilt from the global key, or dropped when there is none. */
  function ClearKey(st: State, u: UserId): (st': State)
    ensures Find(st'.apiKeys, u) == None && Find(st'.cooldowns, u) == Some(0)
    ensures Find(st'.models, u) == if st.globalKey != "" then Some(st.globalKey) else None
    ensures st' == st.(apiKeys := st'.apiKeys, models := st'.models, cooldowns := st'.cooldowns)
    ensures forall v :: v != u ==> UserOf(st', v) == UserOf(st, v)
    ensures Valid(st) ==> Valid(st')
  {
    var models := if st.globalKey != "" then st.models[u := st.globalKey] else st.models - {u};
    st.(apiKeys := st.apiKeys - {u}, models := models, cooldowns := st.cooldowns[u := 0])
  }

  /** The Gemini part of `configure`; any string, even one that trims to empty, resets the cooldown. */
  function ConfigureKey(st: State, u: UserId, apiKey: Value): (st': State)
    ensures !apiKey.Str? ==> st' == st
    ensures apiKey.Str? ==>
      var key := Trim(apiKey.s);
      && Find(st'.apiKeys, u) == (if key != "" then Some(key) else None)
      && Find(st'.models, u) == (if key != "" then Some(key) else if st.globalKey != "" then Some(st.globalKey) else None)
      && Find(st'.cooldowns, u) == Some(0)
      && st' == st.(apiKeys := st'.apiKeys, models := st'.models, cooldowns := st'.cooldowns)
    ensures forall v :: v != u ==> UserOf(st', v) == UserOf(st, v)
    ensures Valid(st) ==> Valid(st')
  {
    if !apiKey.Str? then st
    else if Trim(apiKey.s) != "" then SetKey(st, u, Trim(apiKey.s))
    else ClearKey(st, u)
  }

  /** A user prompt, stored as given. */
  function SetPrompt(st: State, u: UserId, p: string): (st': State)
    requires Stored(p)
    ensures Find(st'.prompts, u) == Some(p) && st' == st.(prompts := st'.prompts)
    ensures forall v :: v != u ==> UserOf(st', v) == UserOf(st, v)
    ensures Valid(st) ==> Valid(st')
  {
    st.(prompts := st.prompts[u := p])
  }

  /** No user prompt: the default one applies again. */
  function ClearPrompt(st: State, u: UserId): (st': State)
    ensures Find(st'.prompts, u) == None && st' == st.(prompts := st'.prompts)
    ensures forall v :: v != u ==> UserOf(st', v) == UserOf(st, v)
    ensures Valid(st) ==> Valid(st')
  {
    st.(prompts := st.prompts - {u})
  }

  /** The prompt part of `configure`. */
  function ConfigurePrompt(st: State, u: UserId, prompt: Value): (st': State)
    ensures !prompt.Str? ==> st' == st
    ensures prompt.Str? ==>
      && Find(st'.prompts, u) == (if Trim(prompt.s) != "" then Some(Trim(prompt.s)) else None)
      && st' == st.(prompts := st'.prompts)
    ensures forall v :: v != u ==> UserOf(st', v) == UserOf(st, v)
    ensures Valid(st) ==> Valid(st')
  {
    if !prompt.Str? then st
    else if Trim(prompt.s) != "" then SetPrompt(st, u, Trim(prompt.s))
    else ClearPrompt(st, u)
  }

  /** A GROQ key, with a client built from it. */
  function SetGroq(st: State, u: UserId, k: string): (st': State)
    requires Stored(k)
    ensures Find(st'.groqKeys, u) == Some(k) && Find(st'.groqClients, u) == Some(k)
    ensures st' == st.(groqKeys := st'.groqKeys, groqClients := st'.groqClients)
    ensures forall v :: v != u ==> UserOf(st', v) == UserOf(st, v)
    ensures Valid(st) ==> Valid(st')
  {
    st.(groqKeys := st.groqKeys[u := k], groqClients := st.groqClients[u := k])
  }

  /** No GROQ key: the key and the client are both dropped. */
  function ClearGroq(st: State, u: UserId): (st': State)
    ensures Find(st'.groqKeys, u) == None && Find(st'.groqClients, u) == None
    ensures st' == st.(groqKeys := st'.groqKeys, groqClients := st'.groqClients)
    ensures forall v :: v != u ==> UserOf(st', v) == UserOf(st, v)
    ensures Valid(st) ==> Valid(st')
  {
    st.(groqKeys := st.groqKeys - {u}, groqClients := st.groqClients - {u})
  }

  /** The GROQ part of `configure`: key and client are set or removed together. */
  function ConfigureGroq(st: State, u: UserId, groqApiKey: Value): (st': State)
    ensures !groqApiKey.Str? ==> st' == st
    ensures groqApiKey.Str? ==>
      var k := Trim(groqApiKey.s);
      && Find(st'.groqKeys, u) == (if k != "" then Some(k) else None)
      && Find(st'.groqClients, u) == Find(st'.groqKeys, u)
      && st' == st.(groqKeys := st'.groqKeys, groqClients := st'.groqClients)
    ensures forall v :: v != u ==> UserOf(st', v) == UserOf(st, v)
    ensures Valid(st) ==> Valid(st')
  {
    if !groqApiKey.Str? then st
    else if Trim(groqApiKey.s) != "" then SetGroq(st, u, Trim(groqApiKey.s))
    else ClearGroq(st, u)
  }

  /**
    `configure`: each field is applied only when it is a string; a field
    that trims to empty removes the user's override. Only user `u` changes.
   */
  function Configure(st: State, u: UserId, req: ConfigRequest): (st': State)
    ensures st'.globalKey == st.globalKey
    ensures forall v :: v != u ==> UserOf(st', v) == UserOf(st, v)
    ensures Valid(st) ==> Valid(st')
    ensures !req.apiKey.Str? && !req.prompt.Str? && !req.groqApiKey.Str? ==> st' == st
  {
    ConfigureGroq(ConfigurePrompt(ConfigureKey(st, u, req.apiKey), u, req.prompt), u, req.groqApiKey)
  }

  /** `#getPrompt`: the user's prompt, or the default one when none (or an empty one) is stored. */
  function PromptFor(st: State, u: UserId): (p: string)
    ensures p != ""
    ensures u in st.prompts && st.prompts[u] != "" ==> p == st.prompts[u]
    ensures u !in st.prompts ==> p == DefaultPrompt
  {
    if u in st.prompts && st.prompts[u] != "" then st.prompts[u] else DefaultPrompt
  }

  /** What `getConfig` returns: never the key itself. */
  datatype AiConfig = AiConfig(hasApiKey: bool, prompt: string)

  /** `getConfig` */
  function GetConfig(st: State, u: UserId): (c: AiConfig)
    ensures c.hasApiKey <==> u in st.apiKeys || st.globalKey != ""
    ensures c.prompt == PromptFor(st, u)
  {
    AiConfig(u in st.apiKeys || st.globalKey != "", PromptFor(st, u))
  }

  /** The key of the Gemini model `replyFor` uses: the user's, else one built from the global key. */
  function ModelKey(st: State, u: UserId): (k: Option<string>)
    ensures k.Some? <==> u in st.models || st.globalKey != ""
  {
    if u in st.models then Some(st.models[u])
    else if st.globalKey != "" then Some(st.globalKey)
    else None
  }

  /** `getConfig` reports a key exactly when `replyFor` would call Gemini. */
  lemma ConfigReportsModel(st: State, u: UserId)
    requires Valid(st)
    ensures GetConfig(st, u).hasApiKey <==> ModelKey(st, u).Some?
  {
  }

  /**
    A configuration round trip: after `configure` with string fields,
    `getConfig` reports a key exactly when the trimmed key or the global
    key is non-empty, and reports the trimmed prompt, or the default one
    when it trims to empty.
   */
  lemma ConfigureThenGetConfig(st: State, u: UserId, key: string, prompt: string, groq: Value)
    ensures var c := GetConfig(Configure(st, u, ConfigRequest(Str(key), Str(prompt), groq)), u);
            && (c.hasApiKey <==> Trim(key) != "" || st.globalKey != "")
            && c.prompt == (if Trim(prompt) != "" then Trim(prompt) else DefaultPrompt)
  {
    var s1 := ConfigureKey(st, u, Str(key));
    var s2 := ConfigurePrompt(s1, u, Str(prompt));
    assert Find(s2.apiKeys, u) == Find(s1.apiKeys, u);
  }

  /** Leaving the Gemini key out of a request keeps the user's cooldown and model. */
  lemma ConfigureWithoutKeyKeepsCooldown(st: State, u: UserId, prompt: Value, groq: Value)
    ensures var st' := Configure(st, u, ConfigRequest(Undefined, prompt, groq));
            st'.cooldowns == st.cooldowns && st'.models == st.models && st'.apiKeys == st.apiKeys
  {
  }

  // ---------------------------------------------------------------- prompt

  /** `contactName || 'Unknown'`; an absent name is the empty string. */
  function SenderLabel(contactName: string): (r: string)
    ensures r != ""
    ensures contactName != "" ==> r == contactName
  {
    if contactName == "" then "Unknown" else contactName
  }

  /** How a stored turn is labelled in the transcript: only `assistant` is the assistant. */
  function RoleLabel(role: string): (r: string)
    ensures r == "Assistant" <==> role == "assistant"
    ensures r == "Assistant" || r == "User"
  {
    if role == "assistant" then "Assistant" else "User"
  }

  /** One transcript line: `<Role>: <text>`. */
  function Line(t: Memory.Turn): (r: string)
    ensures StartsWith(r, RoleLabel(t.role) + ": ")
  {
    var p := RoleLabel(t.role) + ": ";
    assert (p + t.text)[..|p|] == p;
    p + t.text
  }

  /** The transcript lines of `history`, oldest first. */
  function Lines(history: seq<Memory.Turn>): (ls: seq<string>)
    ensures |ls| == |history|
    ensures forall i :: 0 <= i < |history| ==> ls[i] == Line(history[i])
  {
    seq(|history|, i requires 0 <= i < |history| => Line(history[i]))
  }

  function Transcript(history: seq<Memory.Turn>): string {
    Join(Lines(history), "\n")
  }

  /** The header: the system prompt, the sender line, a blank line and the transcript heading. */
  function Header(prompt: string, sender: string): (r: string)
    ensures r == prompt + "\n" + ("Sender: " + sender) + "\n" + "" + "\n" + "Recent conversation (oldest first):"
  {
    Join4(prompt, "Sender: " + sender, "", "Recent conversation (oldest first):", "\n");
    Join([prompt, "Sender: " + sender, "", "Recent conversation (oldest first):"], "\n")
  }

  /** The footer: a blank line, the current message and the `Reply:` cue. */
  function Footer(messageText: string): (r: string)
    ensures r == "" + "\n" + ("Current user: " + messageText) + "\n" + "Reply:"
  {
    Join3("", "Current user: " + messageText, "Reply:", "\n");
    Join(["", "Current user: " + messageText, "Reply:"], "\n")
  }

  /** The Gemini prompt: the header, then the transcript, then the footer, on separate lines. */
  function BuildPrompt(prompt: string, sender: string, history: seq<Memory.Turn>, messageText: string): (r: string)
    ensures r == Header(prompt, sender) + "\n" + Transcript(history) + "\n" + Footer(messageText)
  {
    Join3(Header(prompt, sender), Transcript(history), Footer(messageText), "\n");
    Join([Header(prompt, sender), Transcript(history), Footer(messageText)], "\n")
  }

  /** Appending a turn to the history appends one line to the transcript. */
  lemma TranscriptAppend(history: seq<Memory.Turn>, t: Memory.Turn)
    ensures Transcript(history + [t]) ==
            if history == [] then Line(t) else Transcript(history) + "\n" + Line(t)
  {
    var ls := Lines(history + [t]);
    assert ls[..|ls| - 1] == Lines(history);
  }

  /** The transcript is empty exactly when there is no history. */
  lemma TranscriptEmpty(history: seq<Memory.Turn>)
    ensures Transcript(history) == "" <==> history == []
  {
    if history != [] {
      TranscriptNonEmpty(history);
    }
  }

  lemma {:induction false} TranscriptNonEmpty(history: seq<Memory.Turn>)
    requires history != []
    ensures |Transcript(history)| >= |Line(history[|history| - 1])| > 0
  {
    var ls := Lines(history);
    assert StartsWith(ls[|ls| - 1], RoleLabel(history[|history| - 1].role) + ": ");
  }

  // ---------------------------------------------------------------- GROQ

  datatype ChatMessage = ChatMessage(role: string, content: string)

  /**
    The GROQ conversation: the system prompt, one message per stored turn
    with its role normalised to `assistant` or `user`, and the current
    message prefixed by the sender line.
   */
  function GroqMessages(prompt: string, sender: string, history: seq<Memory.Turn>, messageText: string): (ms: seq<ChatMessage>)
    ensures |ms| == |history| + 2
    ensures ms[0] == ChatMessage("system", prompt)
    ensures forall i :: 0 <= i < |history| ==>
      ms[i + 1] == ChatMessage(if history[i].role == "assistant" then "assistant" else "user", history[i].text)
    ensures ms[|ms| - 1] == ChatMessage("user", "Sender: " + sender + "\n\n" + messageText)
  {
    var hs := seq(|history|, i requires 0 <= i < |history| =>
      ChatMessage(if history[i].role == "assistant" then "assistant" else "user", history[i].text));
    [ChatMessage("system", prompt)] + hs + [ChatMessage("user", "Sender: " + sender + "\n\n" + messageText)]
  }

  /** The GROQ messages and the Gemini transcript carry the same turns with the same roles. */
  lemma GroqMatchesTranscript(prompt: string, sender: string, history: seq<Memory.Turn>, messageText: string, i: nat)
    requires i < |history|
    ensures var m := GroqMessages(prompt, sender, history, messageText)[i + 1];
            && Lines(history)[i] == RoleLabel(history[i].role) + ": " + m.content
            && (m.role == "assistant" <==> RoleLabel(history[i].role) == "Assistant")
            && m.role != "system"
  {
  }

  // ---------------------------------------------------------------- replies

  /** `Math.ceil(text.length / 4)`, `length` counting UTF-16 code units. */
  function EstimateTokens(text: string): (n: nat)
    ensures 4 * n >= Utf16Length(text) > 4 * n - 4
    ensures text == "" <==> n == 0
  {
    (Utf16Length(text) + 3) / 4
  }

  /** How the Gemini call ended: with a text, with an error message, or by the 8-second timeout. */
  datatype PrimaryOutcome = Generated(text: string) | Failed(message: string) | TimedOut

  /** How the GROQ call ended: with a content (empty when absent) or with an error. */
  datatype SecondaryOutcome = Completed(content: string) | Threw(message: string)

  datatype Provider = Gemini | Groq

  datatype Reply = Reply(text: string, provider: Provider, outTokens: nat)

  /** The provider calls a run made: the model key and prompt, the GROQ key and messages. */
  datatype Calls = Calls(primary: Option<(string, string)>, secondary: Option<(string, seq<ChatMessage>)>)

  datatype ReplyResult = ReplyResult(state: State, reply: Option<Reply>, calls: Calls)

  /** `String(e?.message || e)` of the caught error. */
  function ErrorMessage(o: PrimaryOutcome): string {
    match o
    case Generated(_) => ""
    case Failed(m) => m
    case TimedOut => TimeoutMessage
  }

  /** The user's cooldown deadline, 0 when none is recorded. */
  function Cooldown(st: State, u: UserId): int {
    if u in st.cooldowns then st.cooldowns[u] else 0
  }

  /** The Gemini call produced a reply: a text that does not trim to empty. */
  predicate PrimaryAnswered(o: PrimaryOutcome) {
    o.Generated? && Trim(o.text) != ""
  }

  /** The Gemini call failed with an error that signals rate limiting. */
  predicate PrimaryRateLimited(o: PrimaryOutcome) {
    !o.Generated? && IsRateLimited(ErrorMessage(o))
  }

  /** The reply GROQ produced, if its content does not trim to empty. */
  function SecondaryReply(o: SecondaryOutcome): (r: Option<Reply>)
    ensures r.Some? <==> o.Completed? && Trim(o.content) != ""
    ensures r.Some? ==> r.value == Reply(Trim(o.content), Groq, EstimateTokens(Trim(o.content)))
  {
    if o.Completed? && Trim(o.content) != "" then
      Some(Reply(Trim(o.content), Groq, EstimateTokens(Trim(o.content))))
    else None
  }

  /** The fallback step: GROQ is called only when the user has a GROQ client. */
  function Fallback(st: State, u: UserId, sender: string, history: seq<Memory.Turn>, messageText: string,
                    secondary: SecondaryOutcome): (r: (Option<Reply>, Option<(string, seq<ChatMessage>)>))
    ensures r.1.Some? <==> u in st.groqClients
    ensures r.1.Some? ==> r.1.value == (st.groqClients[u], GroqMessages(PromptFor(st, u), sender, history, messageText))
    ensures r.0 == if u in st.groqClients then SecondaryReply(secondary) else None
  {
    if u !in st.groqClients then (None, None)
    else (SecondaryReply(secondary), Some((st.groqClients[u], GroqMessages(PromptFor(st, u), sender, history, messageText))))
  }

  /**
    `replyFor`. `now` is the clock at the cooldown gate and `errorAt` the
    clock when a Gemini failure is handled; `primary` and `secondary` are
    the outcomes the providers would deliver if called.

    During a cooldown no provider is called and nothing changes. Otherwise
    Gemini is called when a model is available; a non-empty trimmed text
    is the reply. Any other outcome falls through to GROQ, after recording
    a cooldown of the provider's retry delay when the error signals rate
    limiting. Nothing but the user's cooldown ever changes.
   */
  function ReplyFor(st: State, u: UserId, messageText: string, contactName: string, history: seq<Memory.Turn>,
                    now: int, errorAt: int, primary: PrimaryOutcome, secondary: SecondaryOutcome): (r: ReplyResult)
    ensures now < Cooldown(st, u) ==> r == ReplyResult(st, None, Calls(None, None))
    ensures now >= Cooldown(st, u) ==>
      && (r.calls.primary.Some? <==> ModelKey(st, u).Some?)
      && (r.calls.primary.Some? ==>
            r.calls.primary.value == (ModelKey(st, u).value, BuildPrompt(PromptFor(st, u), SenderLabel(contactName), history, messageText)))
    ensures var answered := now >= Cooldown(st, u) && ModelKey(st, u).Some? && PrimaryAnswered(primary);
      && (answered ==> r.reply == Some(Reply(Trim(primary.text), Gemini, EstimateTokens(Trim(primary.text)))))
      && (r.calls.secondary.Some? <==> now >= Cooldown(st, u) && !answered && u in st.groqClients)
      && (!answered && r.calls.secondary.None? ==> r.reply.None?)
      && (r.calls.secondary.Some? ==> r.reply == SecondaryReply(secondary))
    ensures r.state == st.(cooldowns := r.state.cooldowns)
    ensures r.state.cooldowns ==
      if now >= Cooldown(st, u) && ModelKey(st, u).Some? && PrimaryRateLimited(primary)
      then st.cooldowns[u := errorAt + RetryDelayMs(ErrorMessage(primary))]
      else st.cooldowns
    ensures r.reply.Some? ==> Stored(r.reply.value.text) && r.reply.value.outTokens > 0
    ensures Valid(st) ==> Valid(r.state)
  {
    if now < Cooldown(st, u) then ReplyResult(st, None, Calls(None, None))
    else
      var prompt := PromptFor(st, u);
      var sender := SenderLabel(contactName);
      var key := ModelKey(st, u);
      var gemini := if key.Some? then Some((key.value, BuildPrompt(prompt, sender, history, messageText))) else None;
      if key.Some? && PrimaryAnswered(primary) then
        var text := Trim(primary.text);
        ReplyResult(st, Some(Reply(text, Gemini, EstimateTokens(text))), Calls(gemini, None))
      else
        var st1 := if key.Some? && PrimaryRateLimited(primary)
                   then st.(cooldowns := st.cooldowns[u := errorAt + RetryDelayMs(ErrorMessage(primary))])
                   else st;
        var (reply, groq) := Fallback(st, u, sender, history, messageText, secondary);
        ReplyResult(st1, reply, Calls(gemini, groq))
  }

  /** The timeout's error message does not signal rate limiting: a timeout sets no cooldown. */
  lemma TimeoutIsNotRateLimited()
    ensures !IsRateLimited(TimeoutMessage)
  {
    var m := TimeoutMessage;
    assert forall i :: 0 <= i < |m| ==> m[i] != '4' && m[i] != 'y' && m[i] != 'Y';
    NotRateLimitedWithout(m);
  }

  /**
    A rate-limited Gemini failure whose message carries a retry delay of
    `n` seconds (or milliseconds), after text in which no match starts,
    sets the cooldown to that many milliseconds after the failure, and the
    same run still tries GROQ.
   */
  lemma RateLimitSetsCooldown(st: State, u: UserId, messageText: string, contactName: string, history: seq<Memory.Turn>,
                              now: int, errorAt: int, pre: string, n: nat, unit: string, rest: string,
                              secondary: SecondaryOutcome)
    requires unit in {"s", "ms"}
    requires now >= Cooldown(st, u) && ModelKey(st, u).Some?
    requires IsRateLimited(pre + RetryInfo(n, unit) + rest)
    requires forall i :: 0 <= i < |pre| ==> MatchAt(pre[i..] + RetryInfo(n, unit) + rest).None?
    ensures var r := ReplyFor(st, u, messageText, contactName, history, now, errorAt,
                              Failed(pre + RetryInfo(n, unit) + rest), secondary);
            && Cooldown(r.state, u) == errorAt + (if unit == "ms" then n else n * 1000)
            && (r.calls.secondary.Some? <==> u in st.groqClients)
  {
    RetryDelayAfter(pre, n, unit, rest);
    RateLimitedFailure(st, u, messageText, contactName, history, now, errorAt, pre + RetryInfo(n, unit) + rest, secondary);
  }

  /**
    A rate-limited Gemini failure sets the cooldown to the delay its
    message asks for after the failure, and the same run still tries GROQ.
   */
  lemma RateLimitedFailure(st: State, u: UserId, messageText: string, contactName: string, history: seq<Memory.Turn>,
                           now: int, errorAt: int, msg: string, secondary: SecondaryOutcome)
    requires now >= Cooldown(st, u) && ModelKey(st, u).Some? && IsRateLimited(msg)
    ensures var r := ReplyFor(st, u, messageText, contactName, history, now, errorAt, Failed(msg), secondary);
            && Cooldown(r.state, u) == errorAt + RetryDelayMs(msg)
            && (r.calls.secondary.Some? <==> u in st.groqClients)
  {
  }

  /**
    The cooldown gate: once a rate-limited failure at `errorAt` has set a
    delay of `d` milliseconds, every later run before `errorAt + d` calls no
    provider, returns nothing and changes nothing.
   */
  lemma CooldownSuppresses(st: State, u: UserId, messageText: string, contactName: string, history: seq<Memory.Turn>,
                           now: int, errorAt: int, primary: PrimaryOutcome, secondary: SecondaryOutcome,
                           messageText2: string, contactName2: string, history2: seq<Memory.Turn>,
                           later: int, errorAt2: int, primary2: PrimaryOutcome, secondary2: SecondaryOutcome)
    requires now >= Cooldown(st, u) && ModelKey(st, u).Some? && PrimaryRateLimited(primary)
    requires later < errorAt + RetryDelayMs(ErrorMessage(primary))
    ensures var s1 := ReplyFor(st, u, messageText, contactName, history, now, errorAt, primary, secondary).state;
            ReplyFor(s1, u, messageText2, contactName2, history2, later, errorAt2, primary2, secondary2)
              == ReplyResult(s1, None, Calls(None, None))
  {
  }

  /** Configuring a Gemini key lifts any cooldown: the next run at a non-negative time is not gated. */
  lemma ConfigureKeyLiftsCooldown(st: State, u: UserId, req: ConfigRequest)
    requires req.apiKey.Str?
    ensures Cooldown(Configure(st, u, req), u) == 0
  {
    var s1 := ConfigureKey(st, u, req.apiKey);
    var s2 := ConfigurePrompt(s1, u, req.prompt);
    var s3 := ConfigureGroq(s2, u, req.groqApiKey);
    assert Configure(st, u, req) == s3;
    assert Find(s1.cooldowns, u) == Some(0);
    assert s2.cooldowns == s1.cooldowns by {
      if req.prompt.Str? { assert s2 == s1.(prompts := s2.prompts); }
    }
    assert s3.cooldowns == s2.cooldowns by {
      if req.groqApiKey.Str? { assert s3 == s2.(groqKeys := s3.groqKeys, groqClients := s3.groqClients); }
    }
  }

  /** One user's run never changes what the service stores about any other user. */
  lemma ReplyForIsolated(st: State, u: UserId, v: UserId, messageText: string, contactName: string, history: seq<Memory.Turn>,
                         now: int, errorAt: int, primary: PrimaryOutcome, secondary: SecondaryOutcome)
    requires v != u
    ensures UserOf(ReplyFor(st, u, messageText, contactName, history, now, errorAt, primary, secondary).state, v) == UserOf(st, v)
  {
  }
}
