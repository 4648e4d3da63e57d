/** One attempt of the trusted host (internal/capsule/attempt.go): the state
    machine that alternates model turns and tool results within a budget, and the
    truncation of tool results (internal/modelbudget/budget.go). */
module Attempt {
  import opened Text
  import Json
  import Decimals
  import Sse
  import SseFixedPoint

  const SUBMIT := "submit_result"
  const SAFETY_TOKENS := 1_024

  datatype State = ReadyModel | ModelInFlight | AwaitTool | AwaitComplete | Terminal | Failed | Cancelled

  /** One transcript message. */
  datatype Entry =
    | System(text: string)
    | User(text: string)
    | Called(assistant: Sse.Assistant)
    | Answered(callId: string, content: string)

  /** The parts of a provider request that change from turn to turn. */
  datatype Request = Request(transcript: seq<Entry>, remaining: int, submitOnly: bool)

  /** What an attempt is created with. `parse` is `ParseOpenAISSE` for `env`, and
      `encode` the canonical printer applied to a request with the fixed model,
      tools and options. */
  datatype Config = Config(
    env: Sse.Env,
    parse: Sse.Body -> Option<Sse.Accepted>,
    tools: set<string>,
    outputValid: Json.Value -> bool,
    encode: Request -> Option<string>,
    contextWindow: int,
    maxOutputTokens: int,
    maxModelRequests: int)

  datatype Attempt = Attempt(
    state: State, usage: Sse.Usage, messages: seq<Entry>,
    pending: Option<Sse.PendingCall>, nextTurn: int, currentTurn: int)

  const NO_USAGE := Sse.Usage(0, 0, 0, 0, 0)

  /** What `NewOpenAIAttempt` has checked and built. */
  ghost predicate ValidConfig(config: Config) {
    && config.contextWindow > 0 && config.maxOutputTokens > 0 && 1 <= config.maxModelRequests <= 1_000
    && SUBMIT !in config.tools
    && config.env.validators.Keys == config.tools + {SUBMIT}
    && config.env.validators[SUBMIT] == config.outputValid
  }

  ghost predicate ParsesSse(config: Config) {
    forall body :: config.parse(body) == Sse.Parse(config.env, body)
  }

  datatype Tool = Tool(name: string, parameters: Json.Value, hasHandler: bool)

  /** `compileSchema`: a validator, or none for an unsupported schema. */
  type Compiler = Json.Value -> Option<Json.Value -> bool>

  /** A handler, a compiling schema and a valid name other than the submission. */
  predicate Grantable(tool: Tool, compile: Compiler) {
    Sse.ValidOperationId(tool.name) && tool.name != SUBMIT && tool.hasHandler && compile(tool.parameters).Some?
  }

  /** The first `n` tools can be granted, under distinct names, and `granted` holds
      their validators. */
  ghost predicate Assigned(tools: seq<Tool>, n: nat, compile: Compiler, granted: map<string, Json.Value -> bool>)
    requires n <= |tools|
  {
    && (forall i :: 0 <= i < n ==> Grantable(tools[i], compile))
    && (forall i, j :: 0 <= i < j < n ==> tools[i].name != tools[j].name)
    && (forall name :: name in granted <==> exists i :: 0 <= i < n && tools[i].name == name)
    && (forall i :: 0 <= i < n ==>
        tools[i].name in granted && granted[tools[i].name] == compile(tools[i].parameters).value)
  }

  lemma OneMoreAssigned(tools: seq<Tool>, n: nat, compile: Compiler, granted: map<string, Json.Value -> bool>)
    requires n < |tools| && Assigned(tools, n, compile, granted)
    requires Grantable(tools[n], compile) && tools[n].name !in granted
    ensures Assigned(tools, n + 1, compile, granted[tools[n].name := compile(tools[n].parameters).value])
  {
    var more := granted[tools[n].name := compile(tools[n].parameters).value];
    forall name ensures name in more <==> exists i :: 0 <= i < n + 1 && tools[i].name == name {
      if name in granted {
        var i :| 0 <= i < n && tools[i].name == name;
      } else if name == tools[n].name {
        assert 0 <= n < n + 1;
      }
    }
  }

  lemma TakenTwice(tools: seq<Tool>, n: nat, compile: Compiler, granted: map<string, Json.Value -> bool>)
    requires n < |tools| && Assigned(tools, n, compile, granted) && tools[n].name in granted
    ensures exists i :: 0 <= i < n && tools[i].name == tools[n].name
  {}

  /** All tools can be granted and have their validators, and so has the submission. */
  lemma AllAssigned(tools: seq<Tool>, compile: Compiler, granted: map<string, Json.Value -> bool>,
                    output: Json.Value -> bool)
    requires Assigned(tools, |tools|, compile, granted)
    ensures var v := granted[SUBMIT := output];
            && v.Keys == (set i | 0 <= i < |tools| :: tools[i].name) + {SUBMIT} && v[SUBMIT] == output
            && forall i :: 0 <= i < |tools| ==>
                 tools[i].name in v && v[tools[i].name] == compile(tools[i].parameters).value
  {}

  /** The loop of `NewOpenAIAttempt` over the granted tools: it succeeds exactly
      for compiling schemas and distinct valid names other than the submission. */
  method GrantTools(tools: seq<Tool>, outputSchema: Json.Value, compile: Compiler)
    returns (validators: Option<map<string, Json.Value -> bool>>)
    ensures validators.Some? <==>
              && compile(outputSchema).Some?
              && (forall i :: 0 <= i < |tools| ==> Grantable(tools[i], compile))
              && (forall i, j :: 0 <= i < j < |tools| ==> tools[i].name != tools[j].name)
    ensures validators.Some? ==>
              var v := validators.value;
              && v.Keys == (set i | 0 <= i < |tools| :: tools[i].name) + {SUBMIT}
              && v[SUBMIT] == compile(outputSchema).value
              && forall i :: 0 <= i < |tools| ==>
                   tools[i].name in v && v[tools[i].name] == compile(tools[i].parameters).value
  {
    var output := compile(outputSchema);
    if output.None? { return None; }
    var granted: map<string, Json.Value -> bool> := map[];
    for n := 0 to |tools|
      invariant Assigned(tools, n, compile, granted)
    {
      var tool := tools[n];
      if !Sse.ValidOperationId(tool.name) || tool.name == SUBMIT || !tool.hasHandler { return None; }
      if tool.name in granted {
        TakenTwice(tools, n, compile, granted);
        return None;
      }
      var validator := compile(tool.parameters);
      if validator.None? { return None; }
      OneMoreAssigned(tools, n, compile, granted);
      granted := granted[tool.name := validator.value];
    }
    AllAssigned(tools, compile, granted, output.value);
    validators := Some(granted[SUBMIT := output.value]);
  }

  function Start(systemPrompt: string, prompt: string): Attempt {
    Attempt(ReadyModel, NO_USAGE, [System(systemPrompt), User(prompt)], None, 1, 0)
  }

  // ---------------------------------------------------------------------
  // Requests and the context budget
  // ---------------------------------------------------------------------

  /** `EstimateTokens`. */
  function EstimateTokens(bytes: nat): nat { (bytes + 3) / 4 }

  /** `modelbudget.Fits`. */
  predicate Fits(bytes: nat, contextWindow: int, maxOutput: int, safety: int) {
    contextWindow > 0 && maxOutput > 0 && safety > 0 && EstimateTokens(bytes) + maxOutput + safety <= contextWindow
  }

  /** `modelRequest`. */
  function ModelRequest(config: Config, turn: int, transcript: seq<Entry>): Option<string> {
    config.encode(Request(transcript, config.maxModelRequests - turn + 1, turn == config.maxModelRequests))
  }

  predicate BodyFits(config: Config, body: string) {
    && ByteLen(body) <= config.env.limits.maxBytes
    && Fits(ByteLen(body), config.contextWindow, config.maxOutputTokens, SAFETY_TOKENS)
  }

  /** `transcriptFits` for the request of turn `turn`. */
  predicate TranscriptFits(config: Config, turn: int, transcript: seq<Entry>) {
    var body := ModelRequest(config, turn, transcript);
    body.Some? && BodyFits(config, body.value)
  }

  // ---------------------------------------------------------------------
  // Truncating a tool result
  // ---------------------------------------------------------------------

  /** The truncation envelope with the first `prefix` characters. */
  function Envelope(encoded: string, prefix: nat): Json.Value
    requires prefix <= |encoded|
  {
    Json.Obj(map["content_prefix" := Sse.Quoted(encoded[..prefix]),
                 "original_bytes" := Sse.Number(ByteLen(encoded)),
                 "truncated" := Json.Atom(Json.Bool(true))])
  }

  /** Whether the envelope with this prefix is accepted. */
  predicate Takes(encoded: string, fits: Json.Value -> bool, prefix: int) {
    0 <= prefix <= |encoded| && fits(Envelope(encoded, prefix))
  }

  /** The binary search between an accepted prefix and the first one not tried. */
  function Search(takes: int -> bool, low: nat, high: nat): (r: nat)
    requires low <= high
    ensures low <= r <= high
    decreases high - low
  {
    if low == high then low
    else
      var middle := low + (high - low + 1) / 2;
      if takes(middle) then Search(takes, middle, high) else Search(takes, low, middle - 1)
  }

  function Truncate(encoded: string, fits: Json.Value -> bool): Option<Json.Value> {
    if !Takes(encoded, fits, 0) then None
    else Some(Envelope(encoded, Search(k => Takes(encoded, fits, k), 0, |encoded|)))
  }

  lemma {:induction false} SearchIsTight(takes: int -> bool, low: nat, high: nat)
    requires low <= high && takes(low) && !takes(high + 1)
    ensures var k := Search(takes, low, high); takes(k) && !takes(k + 1)
    decreases high - low
  {
    if low < high {
      var middle := low + (high - low + 1) / 2;
      if takes(middle) { SearchIsTight(takes, middle, high); } else { SearchIsTight(takes, low, middle - 1); }
    }
  }

  /** `k` is accepted and no longer prefix is. */
  ghost predicate Longest(encoded: string, fits: Json.Value -> bool, k: int) {
    Takes(encoded, fits, k) && forall j :: k < j ==> !Takes(encoded, fits, j)
  }

  /** Shortening an accepted prefix keeps it accepted. */
  ghost predicate ShorteningHelps(encoded: string, fits: Json.Value -> bool) {
    forall i, j :: 0 <= i <= j && Takes(encoded, fits, j) ==> Takes(encoded, fits, i)
  }

  /** Truncation fails only when not even the empty prefix is accepted; what it
      returns was accepted, and the prefix one character longer was not. When
      shortening helps, no longer prefix is accepted at all. */
  lemma TruncationIsLongest(encoded: string, fits: Json.Value -> bool) returns (k: nat)
    ensures k <= |encoded|
    ensures Truncate(encoded, fits) == if Takes(encoded, fits, 0) then Some(Envelope(encoded, k)) else None
    ensures Takes(encoded, fits, 0) ==> Takes(encoded, fits, k) && !Takes(encoded, fits, k + 1)
    ensures Takes(encoded, fits, 0) && ShorteningHelps(encoded, fits) ==> Longest(encoded, fits, k)
  {
    k := 0;
    if Takes(encoded, fits, 0) {
      var takes := k => Takes(encoded, fits, k);
      SearchIsTight(takes, 0, |encoded|);
      k := Search(takes, 0, |encoded|);
      if ShorteningHelps(encoded, fits) {
        forall j | k < j ensures !Takes(encoded, fits, j) {
          assert !Takes(encoded, fits, k + 1);
        }
      }
    }
  }

  /** `TruncateResult`: the loop. */
  method TruncateResult(encoded: string, fits: Json.Value -> bool) returns (r: Option<Json.Value>)
    ensures r == Truncate(encoded, fits)
  {
    if !fits(Envelope(encoded, 0)) { return None; }
    var low := SearchLoop(k => Takes(encoded, fits, k), |encoded|);
    r := Some(Envelope(encoded, low));
  }

  method SearchLoop(takes: int -> bool, last: nat) returns (low: nat)
    ensures low == Search(takes, 0, last)
  {
    low := 0;
    var high := last;
    while low < high
      invariant 0 <= low <= high <= last
      invariant Search(takes, low, high) == Search(takes, 0, last)
    {
      var middle := low + (high - low + 1) / 2;
      if takes(middle) { low := middle; } else { high := middle - 1; }
    }
  }

  // ---------------------------------------------------------------------
  // The transitions as functions: the new attempt and the result, if any
  // ---------------------------------------------------------------------

  function BeginModel(config: Config, a: Attempt, turn: int): (Attempt, Option<string>) {
    if turn > config.maxModelRequests || a.state != ReadyModel || turn != a.nextTurn then (a, None)
    else
      var a' := a.(state := ModelInFlight, currentTurn := turn, nextTurn := turn + 1);
      var body := ModelRequest(config, turn, a.messages);
      (a', if body.Some? && BodyFits(config, body.value) then body else None)
  }

  function AcceptModel(config: Config, a: Attempt, body: Sse.Body): (Attempt, Option<string>) {
    if a.state != ModelInFlight then (a, None)
    else match config.parse(body)
      case None => (a, None)
      case Some(accepted) =>
        var a' := a.(usage := a.usage.Add(accepted.usage));
        match accepted.pending
        case None => (a', None)
        case Some(call) =>
          if a.currentTurn == config.maxModelRequests && call.name != SUBMIT then (a', None)
          else (a'.(messages := a.messages + [Called(accepted.assistant)], pending := Some(call),
                    state := if call.name == SUBMIT then AwaitComplete else AwaitTool),
                Some(accepted.normalized))
  }

  /** `sameJSON`: equal canonical texts. */
  predicate SameJson(config: Config, left: Json.Value, right: Json.Value) {
    config.env.codec.write(left) == config.env.codec.write(right)
  }

  function ValidateToolCall(config: Config, a: Attempt, callId: Json.Value, name: Json.Value, arguments: Json.Value)
    : Option<Sse.PendingCall>
  {
    if a.state != AwaitTool || a.pending.None? then None
    else
      var call := a.pending.value;
      if callId == Sse.Quoted(call.callId) && name == Sse.Quoted(call.name) &&
         SameJson(config, arguments, call.arguments)
      then a.pending else None
  }

  /** `cloneJSON` with the response limits. */
  function Clone(config: Config, v: Json.Value): Option<Json.Value> {
    match Json.ParseStrict(config.env.codec.lex(config.env.codec.write(v)), config.env.limits.Complexity())
    case None => None
    case Some((clone, _)) => Some(clone)
  }

  /** The transcript with one more tool result. */
  function Candidate(config: Config, a: Attempt, value: Json.Value): seq<Entry>
    requires a.pending.Some?
  {
    a.messages + [Answered(a.pending.value.callId, config.env.codec.write(value))]
  }

  /** Whether the next request fits once `value` is appended. */
  function NextFits(config: Config, a: Attempt): Json.Value -> bool
    requires a.pending.Some?
  {
    v => TranscriptFits(config, a.nextTurn, Candidate(config, a, v))
  }

  /** The value that is kept, and whether it was truncated. */
  function Bound(config: Config, a: Attempt, value: Json.Value): Option<(Json.Value, bool)>
    requires a.pending.Some?
  {
    if NextFits(config, a)(value) then Some((value, false))
    else match Truncate(config.env.codec.write(value), NextFits(config, a))
      case None => None
      case Some(short) => Some((short, true))
  }

  /** `result` is absent when the handler's answer has no JSON form. */
  function AcceptToolResult(config: Config, a: Attempt, result: Option<Json.Value>): (Attempt, Option<Json.Value>) {
    if a.state != AwaitTool || a.pending.None? || result.None? then (a, None)
    else match Clone(config, result.value)
      case None => (a, None)
      case Some(clone) =>
        match Bound(config, a, clone)
        case None => (a, None)
        case Some((kept, truncated)) =>
          (a.(messages := Candidate(config, a, kept), pending := None, state := ReadyModel,
              usage := if truncated then a.usage.(truncated := a.usage.truncated + 1) else a.usage),
           Some(kept))
  }

  function AcceptComplete(config: Config, a: Attempt, output: Json.Value): (Attempt, Option<Json.Value>) {
    if a.state != AwaitComplete || a.pending.None? || a.pending.value.name != SUBMIT || !output.Obj?
       || !SameJson(config, output, a.pending.value.arguments) || !config.outputValid(output)
    then (a, None)
    else (a.(pending := None, state := Terminal), Some(a.pending.value.arguments))
  }

  function Fail(a: Attempt, cancelled: bool): Attempt {
    a.(state := if cancelled then Cancelled else Failed)
  }

  // ---------------------------------------------------------------------
  // The object
  // ---------------------------------------------------------------------

  class OpenAIAttempt {
    const config: Config
    var state: State
    var usage: Sse.Usage
    var messages: seq<Entry>
    var pending: Option<Sse.PendingCall>
    var nextTurn: int
    var currentTurn: int

    function Contents(): Attempt
      reads this
    {
      Attempt(state, usage, messages, pending, nextTurn, currentTurn)
    }

    constructor (config: Config, systemPrompt: string, prompt: string)
      ensures this.config == config && Contents() == Start(systemPrompt, prompt)
    {
      this.config := config;
      state, usage, pending := ReadyModel, NO_USAGE, None;
      messages := [System(systemPrompt), User(prompt)];
      nextTurn, currentTurn := 1, 0;
    }

    method Begin(turn: int) returns (body: Option<string>)
      modifies this
      ensures (Contents(), body) == BeginModel(config, old(Contents()), turn)
    {
      if turn > config.maxModelRequests { return None; }
      if state != ReadyModel || turn != nextTurn { return None; }
      state, currentTurn, nextTurn := ModelInFlight, turn, turn + 1;
      var encoded := ModelRequest(config, turn, messages);
      if encoded.None? || !BodyFits(config, encoded.value) { return None; }
      body := encoded;
    }

    method TakeResponse(body: Sse.Body) returns (normalized: Option<string>)
      requires ParsesSse(config)
      modifies this
      ensures (Contents(), normalized) == AcceptModel(config, old(Contents()), body)
    {
      if state != ModelInFlight { return None; }
      var accepted := Sse.ParseOpenAISSE(config.env, body);
      if accepted.None? { return None; }
      usage := usage.Add(accepted.value.usage);
      if accepted.value.pending.None? { return None; }
      var call := accepted.value.pending.value;
      if currentTurn == config.maxModelRequests && call.name != SUBMIT { return None; }
      messages := messages + [Called(accepted.value.assistant)];
      pending := Some(call);
      state := if call.name == SUBMIT then AwaitComplete else AwaitTool;
      normalized := Some(accepted.value.normalized);
    }

    method TakeToolResult(result: Option<Json.Value>) returns (kept: Option<Json.Value>)
      modifies this
      ensures (Contents(), kept) == AcceptToolResult(config, old(Contents()), result)
    {
      if state != AwaitTool || pending.None? || result.None? { return None; }
      var clone := Clone(config, result.value);
      if clone.None? { return None; }
      var before := Contents();
      var value := clone.value;
      if !TranscriptFits(config, nextTurn, Candidate(config, before, value)) {
        var short := TruncateResult(config.env.codec.write(value), NextFits(config, before));
        if short.None? { return None; }
        value := short.value;
        usage := usage.(truncated := usage.truncated + 1);
      }
      messages := Candidate(config, before, value);
      pending, state := None, ReadyModel;
      kept := Some(value);
    }

    method TakeCompletion(output: Json.Value) returns (result: Option<Json.Value>)
      modifies this
      ensures (Contents(), result) == AcceptComplete(config, old(Contents()), output)
    {
      if state != AwaitComplete || pending.None? || pending.value.name != SUBMIT || !output.Obj? ||
         !SameJson(config, output, pending.value.arguments) || !config.outputValid(output)
      {
        return None;
      }
      result := Some(pending.value.arguments);
      pending, state := None, Terminal;
    }

    method Abandon(cancelled: bool)
      modifies this
      ensures Contents() == Fail(old(Contents()), cancelled)
    {
      state := if cancelled then Cancelled else Failed;
    }
  }

  // ---------------------------------------------------------------------
  // Progress and bounds
  // ---------------------------------------------------------------------

  /** A call of a granted tool with arguments its schema accepts. */
  ghost predicate Granted(config: Config, call: Sse.PendingCall) {
    call.name in config.env.validators && call.arguments.Obj? && config.env.validators[call.name](call.arguments)
  }

  /** The assistant message of an accepted call. */
  ghost predicate Asks(config: Config, a: Sse.Assistant, call: Sse.PendingCall) {
    a.ToolUse? && a.callId == call.callId && a.name == call.name &&
    a.argumentsText == config.env.codec.write(call.arguments)
  }

  /** What the attempt relies on in every accepted response. */
  ghost predicate Reliable(config: Config, r: Sse.Accepted) {
    && SseFixedPoint.Coherent(r.usage)
    && (r.pending.Some? ==> Granted(config, r.pending.value) && Asks(config, r.assistant, r.pending.value))
  }

  ghost predicate ReliableParser(config: Config) {
    forall body :: config.parse(body).Some? ==> Reliable(config, config.parse(body).value)
  }

  lemma SseIsReliable(config: Config)
    requires ParsesSse(config)
    ensures ReliableParser(config)
  {
    forall body | config.parse(body).Some? ensures Reliable(config, config.parse(body).value) {
      SseFixedPoint.AcceptedIsSelfContained(config.env, body);
    }
  }

  /** The turns taken and the usage reported for them; this also holds of an
      attempt that is about to fail. */
  ghost predicate Counted(config: Config, a: Attempt) {
    && 0 <= a.usage.modelCalls <= a.currentTurn <= config.maxModelRequests && a.nextTurn == a.currentTurn + 1
    && a.usage.total == a.usage.input + a.usage.output
  }

  /** What every attempt satisfies between two messages of its capsule. */
  ghost predicate Sound(config: Config, a: Attempt) {
    && Counted(config, a)
    && (a.state == ReadyModel ==> a.pending.None?)
    && (a.state == ModelInFlight ==> a.usage.modelCalls < a.currentTurn)
    && (a.state == AwaitTool ==>
        a.pending.Some? && a.pending.value.name in config.tools && 0 < a.currentTurn < config.maxModelRequests)
    && (a.state == AwaitComplete ==> a.pending.Some? && a.pending.value.name == SUBMIT)
    && (a.pending.Some? ==> Granted(config, a.pending.value))
    && (a.state == ReadyModel && a.currentTurn > 0 ==>
          a.nextTurn <= config.maxModelRequests && TranscriptFits(config, a.nextTurn, a.messages))
  }

  lemma BeginKeeps(config: Config, a: Attempt, turn: int)
    requires Sound(config, a)
    ensures Counted(config, BeginModel(config, a, turn).0)
    ensures BeginModel(config, a, turn).1.Some? ==> Sound(config, BeginModel(config, a, turn).0)
  {}

  lemma ResponseKeeps(config: Config, a: Attempt, body: Sse.Body)
    requires ValidConfig(config) && ReliableParser(config) && Sound(config, a)
    ensures Counted(config, AcceptModel(config, a, body).0)
    ensures AcceptModel(config, a, body).0.usage.truncated == a.usage.truncated
    ensures AcceptModel(config, a, body).1.Some? ==> Sound(config, AcceptModel(config, a, body).0)
  {
    assert config.parse(body).Some? ==> Reliable(config, config.parse(body).value);
  }

  lemma BoundFits(config: Config, a: Attempt, value: Json.Value)
    requires a.pending.Some? && Bound(config, a, value).Some?
    ensures TranscriptFits(config, a.nextTurn, Candidate(config, a, Bound(config, a, value).value.0))
  {
    if !TranscriptFits(config, a.nextTurn, Candidate(config, a, value)) {
      var _ := TruncationIsLongest(config.env.codec.write(value), NextFits(config, a));
    }
  }

  lemma ToolResultKeeps(config: Config, a: Attempt, result: Option<Json.Value>)
    requires Sound(config, a)
    ensures Counted(config, AcceptToolResult(config, a, result).0)
    ensures AcceptToolResult(config, a, result).1.Some? ==> Sound(config, AcceptToolResult(config, a, result).0)
  {
    if AcceptToolResult(config, a, result).1.Some? {
      BoundFits(config, a, Clone(config, result.value).value);
    }
  }

  /** A value that does not fit is replaced by an envelope that does, with a
      prefix of its text that cannot be one character longer. */
  lemma BoundIsTight(config: Config, a: Attempt, value: Json.Value) returns (k: nat)
    requires a.pending.Some? && Bound(config, a, value).Some?
    ensures NextFits(config, a)(value) ==> Bound(config, a, value) == Some((value, false))
    ensures !NextFits(config, a)(value) ==>
              var text := config.env.codec.write(value);
              && k <= |text| && Bound(config, a, value) == Some((Envelope(text, k), true))
              && Takes(text, NextFits(config, a), k) && !Takes(text, NextFits(config, a), k + 1)
  {
    k := 0;
    if !NextFits(config, a)(value) { k := TruncationIsLongest(config.env.codec.write(value), NextFits(config, a)); }
  }

  /** An accepted tool result appends exactly the kept value under the pending
      call's identifier, and counts a truncation exactly when it was shortened. */
  lemma ToolResultIsKept(config: Config, a: Attempt, result: Option<Json.Value>) returns (clone: Json.Value)
    requires AcceptToolResult(config, a, result).1.Some?
    ensures a.pending.Some? && result.Some? && Clone(config, result.value) == Some(clone)
    ensures Bound(config, a, clone).Some?
    ensures var (a', kept) := AcceptToolResult(config, a, result);
            && kept == Some(Bound(config, a, clone).value.0)
            && a'.messages == a.messages + [Answered(a.pending.value.callId, config.env.codec.write(kept.value))]
            && a'.usage == a.usage.(truncated := a.usage.truncated + if Bound(config, a, clone).value.1 then 1 else 0)
  {
    clone := Clone(config, result.value).value;
  }

  /** Progress: an accepted tool result, truncated or not, leaves an attempt
      whose next turn is within budget and whose next request is built and fits. */
  lemma ToolResultLeavesRoom(config: Config, a: Attempt, result: Option<Json.Value>)
    requires Sound(config, a) && AcceptToolResult(config, a, result).1.Some?
    ensures var a' := AcceptToolResult(config, a, result).0;
            && a'.nextTurn == a.nextTurn <= config.maxModelRequests
            && BeginModel(config, a', a'.nextTurn).1.Some?
            && BeginModel(config, a', a'.nextTurn).0 ==
               a'.(state := ModelInFlight, currentTurn := a.nextTurn, nextTurn := a.nextTurn + 1)
  {
    ToolResultKeeps(config, a, result);
  }

  // ---------------------------------------------------------------------
  // The longest prefix, from the printer's law
  // ---------------------------------------------------------------------

  /** A string as the printer writes it between its quotes: character by character. */
  function Escaped(escape: char -> string, s: string): string {
    if s == "" then "" else escape(s[0]) + Escaped(escape, s[1..])
  }

  lemma {:induction false} EscapedConcat(escape: char -> string, a: string, b: string)
    ensures Escaped(escape, a + b) == Escaped(escape, a) + Escaped(escape, b)
  {
    if a == "" {
      assert a + b == b;
    } else {
      assert (a + b)[1..] == a[1..] + b;
      EscapedConcat(escape, a[1..], b);
    }
  }

  /** What the printer writes around a truncated prefix. */
  function EnvelopeHead(): string { "{\"content_prefix\":\"" }
  function EnvelopeTail(encoded: string): string {
    "\",\"original_bytes\":" + Decimals.Decimal(ByteLen(encoded)) + ",\"truncated\":true}"
  }

  /** What `encode` writes before and after the content of the last tool result,
      or none when it cannot write the request. */
  type Frame = (seq<Entry>, string, int, bool) -> Option<(string, string)>

  /** `canonicalJSON` escapes strings character by character, in the envelope and
      in the request around it. */
  ghost predicate PrintsByCharacter(config: Config, escape: char -> string, frame: Frame) {
    && (forall encoded: string, k: nat | k <= |encoded| ::
          config.env.codec.write(Envelope(encoded, k)) ==
          EnvelopeHead() + Escaped(escape, encoded[..k]) + EnvelopeTail(encoded))
    && (forall messages: seq<Entry>, callId: string, content: string, remaining: int, submitOnly: bool ::
          config.encode(Request(messages + [Answered(callId, content)], remaining, submitOnly)) ==
          match frame(messages, callId, remaining, submitOnly)
          case None => None
          case Some((before, after)) => Some(before + Escaped(escape, content) + after))
  }

  function PlainText(v: Json.Value): string {
    if v.Atom? && v.scalar.Str? then v.scalar.text else if v.Atom? && v.scalar.Num? then v.scalar.literal else ""
  }

  /** A printer of envelopes, and a request that is nothing but its last result. */
  function PlainWrite(escape: char -> string): Json.Value -> string {
    (v: Json.Value) =>
      if !v.Obj? then ""
      else EnvelopeHead() + Escaped(escape, PlainText(Sse.At(v.members, "content_prefix")))
           + ("\",\"original_bytes\":" + PlainText(Sse.At(v.members, "original_bytes")) + ",\"truncated\":true}")
  }

  function PlainEncode(escape: char -> string): Request -> Option<string> {
    (r: Request) =>
      if r.transcript != [] && r.transcript[|r.transcript| - 1].Answered?
      then Some(Escaped(escape, r.transcript[|r.transcript| - 1].content)) else None
  }

  /** The law can be met, with any escapes. */
  lemma PrinterLawIsConsistent(config: Config, escape: char -> string)
    ensures PrintsByCharacter(config.(env := config.env.(codec := config.env.codec.(write := PlainWrite(escape))),
                                      encode := PlainEncode(escape)),
                              escape, (messages, callId, remaining, submitOnly) => Some(("", "")))
  {
    forall s: string ensures "" + s + "" == s {}
  }

  lemma ByteLenFramed(before: string, s: string, after: string)
    ensures ByteLen(before + s + after) == ByteLen(before) + ByteLen(s) + ByteLen(after)
  {
    ByteLenConcat(before + s, after);
    ByteLenConcat(before, s);
  }

  /** The envelope's printed form, printed once more as the content of a message,
      is no longer with a shorter prefix. */
  lemma ShorterEnvelope(escape: char -> string, head: string, tail: string, s: string, i: nat, j: nat)
    requires i <= j <= |s|
    ensures ByteLen(Escaped(escape, head + Escaped(escape, s[..i]) + tail)) <=
            ByteLen(Escaped(escape, head + Escaped(escape, s[..j]) + tail))
  {
    assert s[..j] == s[..i] + s[i..j];
    EscapedConcat(escape, s[..i], s[i..j]);
    EscapedConcat(escape, Escaped(escape, s[..i]), Escaped(escape, s[i..j]));
    ByteLenConcat(Escaped(escape, Escaped(escape, s[..i])), Escaped(escape, Escaped(escape, s[i..j])));
    EscapedFramed(escape, head, Escaped(escape, s[..i]), tail);
    EscapedFramed(escape, head, Escaped(escape, s[..j]), tail);
  }

  lemma EscapedFramed(escape: char -> string, head: string, s: string, tail: string)
    ensures ByteLen(Escaped(escape, head + s + tail)) ==
            ByteLen(Escaped(escape, head)) + ByteLen(Escaped(escape, s)) + ByteLen(Escaped(escape, tail))
  {
    EscapedConcat(escape, head + s, tail);
    EscapedConcat(escape, head, s);
    ByteLenFramed(Escaped(escape, head), Escaped(escape, s), Escaped(escape, tail));
  }

  /** The content of the message that carries an envelope, as the request holds it. */
  function EnvelopeContent(escape: char -> string, text: string, k: nat): string
    requires k <= |text|
  {
    Escaped(escape, EnvelopeHead() + Escaped(escape, text[..k]) + EnvelopeTail(text))
  }

  /** The request for an envelope of any length has the same frame. */
  lemma EnvelopeRequest(config: Config, a: Attempt, escape: char -> string, frame: Frame, text: string, k: nat)
    requires PrintsByCharacter(config, escape, frame) && a.pending.Some? && k <= |text|
    ensures ModelRequest(config, a.nextTurn, Candidate(config, a, Envelope(text, k))) ==
            match NextFrame(config, a, frame)
            case None => None
            case Some((before, after)) => Some(before + EnvelopeContent(escape, text, k) + after)
  {}

  function NextFrame(config: Config, a: Attempt, frame: Frame): Option<(string, string)>
    requires a.pending.Some?
  {
    frame(a.messages, a.pending.value.callId, config.maxModelRequests - a.nextTurn + 1,
          a.nextTurn == config.maxModelRequests)
  }

  lemma SmallerFits(config: Config, body: string, smaller: string)
    requires BodyFits(config, body) && ByteLen(smaller) <= ByteLen(body)
    ensures BodyFits(config, smaller)
  {}

  /** The request with the shorter envelope is written whenever the longer one is,
      and in no more bytes. */
  lemma ShorterPrefixFits(config: Config, a: Attempt, escape: char -> string, frame: Frame, text: string, i: nat,
                          j: nat)
    requires PrintsByCharacter(config, escape, frame) && a.pending.Some?
    requires i <= j && Takes(text, NextFits(config, a), j)
    ensures Takes(text, NextFits(config, a), i)
  {
    EnvelopeRequest(config, a, escape, frame, text, i);
    EnvelopeRequest(config, a, escape, frame, text, j);
    var (before, after) := NextFrame(config, a, frame).value;
    var shorter, longer := EnvelopeContent(escape, text, i), EnvelopeContent(escape, text, j);
    ShorterEnvelope(escape, EnvelopeHead(), EnvelopeTail(text), text, i, j);
    ByteLenFramed(before, shorter, after);
    ByteLenFramed(before, longer, after);
    SmallerFits(config, before + longer + after, before + shorter + after);
  }

  /** The promise of `TruncateResult` as the attempt uses it: of all prefixes of a
      value's text, the kept one is the longest whose request still fits. */
  lemma KeptIsLongest(config: Config, a: Attempt, value: Json.Value, escape: char -> string, frame: Frame)
    returns (k: nat)
    requires PrintsByCharacter(config, escape, frame)
    requires a.pending.Some? && Bound(config, a, value).Some? && !NextFits(config, a)(value)
    ensures var text := config.env.codec.write(value);
            && k <= |text| && Bound(config, a, value) == Some((Envelope(text, k), true))
            && Longest(text, NextFits(config, a), k)
  {
    var text := config.env.codec.write(value);
    forall i, j | 0 <= i <= j && Takes(text, NextFits(config, a), j) ensures Takes(text, NextFits(config, a), i) {
      ShorterPrefixFits(config, a, escape, frame, text, i, j);
    }
    k := TruncationIsLongest(text, NextFits(config, a));
  }
}
