/** The message loop of the trusted host (internal/capsule/session.go) against an
    arbitrary capsule, an arbitrary provider and arbitrary tool handlers. */
module Session {
  import opened Text
  import Json
  import Sse
  import opened Attempt

  // ---------------------------------------------------------------------
  // One provider exchange with retries
  // ---------------------------------------------------------------------

  /** What one try at the provider gives; `paused` says that the delay before a
      retry was computed and slept through. */
  datatype Try =
    | NetError(retryable: bool, paused: bool)
    | Answer(status: int, eventStream: bool, body: Sse.Body, paused: bool)

  datatype Reply = NoReply | Reply(status: int, eventStream: bool, body: Sse.Body)

  predicate RetryableStatus(status: int) {
    status == 408 || status == 409 || status == 429 || 500 <= status <= 599
  }

  /** A try after which the loop goes on if it still may. */
  predicate Retries(t: Try) {
    match t
    case NetError(retryable, paused) => retryable && paused
    case Answer(status, _, _, paused) => status != 200 && RetryableStatus(status) && paused
  }

  /** What a try yields when it is the last one allowed (`last`) or not. */
  function Settle(t: Try, last: bool): Reply {
    match t
    case NetError(_, _) => NoReply
    case Answer(status, stream, body, paused) =>
      if status == 200 || last || !RetryableStatus(status) then Reply(status, stream, body) else NoReply
  }

  function Exchange(tries: nat -> Try, retry: nat, maxRetries: nat): Reply
    requires retry <= maxRetries
    decreases maxRetries - retry
  {
    if retry < maxRetries && Retries(tries(retry)) then Exchange(tries, retry + 1, maxRetries)
    else Settle(tries(retry), retry == maxRetries)
  }

  /** `exchange`: at most one call more than the retry budget, every call but the
      last one retryable, and the last one's settlement as the reply. */
  method ExchangeLoop(tries: nat -> Try, maxRetries: nat) returns (reply: Reply, calls: nat)
    ensures reply == Exchange(tries, 0, maxRetries)
    ensures 1 <= calls <= maxRetries + 1
    ensures forall i: nat :: i < calls - 1 ==> Retries(tries(i))
    ensures reply == Settle(tries(calls - 1), calls - 1 == maxRetries)
    ensures calls <= maxRetries ==> !Retries(tries(calls - 1))
  {
    calls := 0;
    while true
      invariant 0 <= calls <= maxRetries
      invariant Exchange(tries, calls, maxRetries) == Exchange(tries, 0, maxRetries)
      invariant forall i: nat :: i < calls ==> Retries(tries(i))
      decreases maxRetries - calls
    {
      var t := tries(calls);
      calls := calls + 1;
      match t
      case NetError(retryable, paused) =>
        if calls > maxRetries || !retryable || !paused { return NoReply, calls; }
      case Answer(status, stream, body, paused) =>
        if status == 200 || calls > maxRetries || !RetryableStatus(status) {
          return Reply(status, stream, body), calls;
        }
        if !paused { return NoReply, calls; }
    }
  }

  // ---------------------------------------------------------------------
  // The host as a state machine over received messages
  // ---------------------------------------------------------------------

  datatype Settings = Settings(config: Config, systemPrompt: string, prompt: string, maxFetches: int, maxRetries: nat)

  /** The limits checked by `Limits.validate` that the loop relies on. */
  ghost predicate ValidSettings(s: Settings) {
    ValidConfig(s.config) && ReliableParser(s.config) && s.config.maxModelRequests <= s.maxFetches
  }

  datatype Message = Broken | Frame(members: Sse.Members)
  datatype HandlerResult = HandlerError | Returned(value: Option<Json.Value>)

  /** Everything the outside may choose while one message is served. */
  datatype Input = Input(
    message: Message, tries: nat -> Try, handler: HandlerResult,
    sent: bool, closed: bool, cancelled: bool)

  /** What the host did that others can see, in order. */
  datatype Event =
    | Exchanged(turn: int, request: string)
    | Accepted(body: Sse.Body, call: Sse.PendingCall)
    | Handled(name: string, arguments: Json.Value)

  datatype Outcome = Running | Failure | Done(output: Json.Value)

  datatype Host = Host(attempt: Attempt, seen: set<string>, fetches: nat, requests: nat, log: seq<Event>,
                       outcome: Outcome)

  function Fresh(s: Settings): Host {
    Host(Start(s.systemPrompt, s.prompt), {}, 0, 0, [], Running)
  }

  function Fails(h: Host, cancelled: bool): Host {
    h.(attempt := Fail(h.attempt, cancelled), outcome := Failure)
  }

  /** `uniqueID`. */
  function UniqueId(m: Sse.Members, seen: set<string>): Option<string> {
    match Sse.TextOf(Sse.At(m, "id"))
    case None => None
    case Some(id) => if Sse.ValidOperationId(id) && id !in seen then Some(id) else None
  }

  function Kind(m: Sse.Members): Option<string> { Sse.TextOf(Sse.At(m, "type")) }

  /** A `model_request` up to the provider exchange: the new host, and the
      request body if there is one to exchange. */
  function RequestModel(s: Settings, h: Host, m: Sse.Members): (Host, Option<string>) {
    var id := UniqueId(m, h.seen);
    var turn := Sse.Integer(Sse.At(m, "turn"));
    if id.None? || turn.None? || turn.value < 1 then (h, None)
    else
      var h1 := h.(seen := h.seen + {id.value}, fetches := h.fetches + 1, requests := h.requests + 1);
      if h1.fetches > s.maxFetches || h1.requests > s.config.maxModelRequests then (h1, None)
      else
        var (a, body) := BeginModel(s.config, h.attempt, turn.value);
        (h1.(attempt := a, log := if body.Some? then h.log + [Exchanged(turn.value, body.value)] else h.log), body)
  }

  /** The rest of a `model_request`, given the provider's reply. */
  function ReceiveModel(s: Settings, h: Host, reply: Reply, sent: bool, cancelled: bool): Host {
    if reply.NoReply? || reply.status != 200 || !reply.eventStream then Fails(h, cancelled)
    else
      var (a, normalized) := AcceptModel(s.config, h.attempt, reply.body);
      if normalized.None? || a.pending.None? then Fails(h.(attempt := a), cancelled)
      else
        var h' := h.(attempt := a, log := h.log + [Accepted(reply.body, a.pending.value)]);
        if sent then h' else Fails(h', cancelled)
  }

  function ServeModel(s: Settings, h: Host, m: Sse.Members, input: Input): Host {
    var (h', body) := RequestModel(s, h, m);
    if body.None? then Fails(h', input.cancelled)
    else ReceiveModel(s, h', Exchange(input.tries, 0, s.maxRetries), input.sent, input.cancelled)
  }

  function ServeTool(s: Settings, h: Host, m: Sse.Members, input: Input): Host {
    var id := UniqueId(m, h.seen);
    var call := ValidateToolCall(s.config, h.attempt, Sse.At(m, "provider_call_id"), Sse.At(m, "name"),
                                 Sse.At(m, "arguments"));
    if id.None? || call.None? || call.value.name !in s.config.tools then Fails(h, input.cancelled)
    else
      var h' := h.(seen := h.seen + {id.value}, log := h.log + [Handled(call.value.name, call.value.arguments)]);
      if input.handler.HandlerError? then Fails(h', input.cancelled)
      else
        var (a, kept) := AcceptToolResult(s.config, h.attempt, input.handler.value);
        if kept.None? || !input.sent then Fails(h'.(attempt := a), input.cancelled) else h'.(attempt := a)
  }

  function ServeComplete(s: Settings, h: Host, m: Sse.Members, input: Input): Host {
    var (a, output) := AcceptComplete(s.config, h.attempt, Sse.At(m, "output"));
    if output.None? || !input.closed then Fails(h.(attempt := a), input.cancelled)
    else h.(attempt := a, outcome := Done(output.value))
  }

  function Serve(s: Settings, h: Host, input: Input): Host {
    if input.message.Broken? then Fails(h, input.cancelled)
    else
      var m := input.message.members;
      if Kind(m) == Some("model_request") then ServeModel(s, h, m, input)
      else if Kind(m) == Some("tool_call") then ServeTool(s, h, m, input)
      else if Kind(m) == Some("complete") then ServeComplete(s, h, m, input)
      else Fails(h, input.cancelled)
  }

  type Server = (Host, Input) -> Host

  /** `n` messages served one after the other; a host that has returned serves
      no more. */
  function RunWith(serve: Server, start: Host, inputs: nat -> Input, n: nat): Host {
    if n == 0 then start
    else
      var h := RunWith(serve, start, inputs, n - 1);
      if h.outcome.Running? then serve(h, inputs(n - 1)) else h
  }

  function Serving(s: Settings): Server { (h, input) => Serve(s, h, input) }

  /** The host after `n` messages. */
  function Run(s: Settings, inputs: nat -> Input, n: nat): Host {
    RunWith(Serving(s), Fresh(s), inputs, n)
  }

  // ---------------------------------------------------------------------
  // The invariant
  // ---------------------------------------------------------------------

  /** The provider really answered with this call, and it was granted. */
  ghost predicate FromProvider(config: Config, body: Sse.Body, call: Sse.PendingCall) {
    config.parse(body).Some? && config.parse(body).value.pending == Some(call) && Granted(config, call)
  }

  /** The log repeats exchange, accepted call, handler call. */
  ghost predicate EventAt(config: Config, log: seq<Event>, i: nat)
    requires i < |log|
  {
    match i % 3
    case 0 => log[i].Exchanged? && log[i].turn == i / 3 + 1
    case 1 => log[i].Accepted? && FromProvider(config, log[i].body, log[i].call)
    case _ =>
      && log[i].Handled? && log[i].name in config.tools && log[i - 1].Accepted?
      && log[i].name == log[i - 1].call.name && log[i].arguments == log[i - 1].call.arguments
  }

  ghost predicate Orderly(config: Config, log: seq<Event>) {
    forall i: nat :: i < |log| ==> EventAt(config, log, i)
  }

  /** Transcript entry `2 + j`: even `j` is the assistant message of accepted call
      `j / 2`, odd `j` the tool result that answers it. */
  ghost predicate EntryAt(config: Config, log: seq<Event>, messages: seq<Entry>, j: nat)
    requires j < |messages| - 2
  {
    var k, e := 3 * (j / 2) + 1, messages[j + 2];
    && k < |log| && log[k].Accepted?
    && if j % 2 == 0
       then e.Called? && Asks(config, e.assistant, log[k].call)
       else k + 1 < |log| && e.Answered? && e.callId == log[k].call.callId
  }

  ghost predicate Matched(s: Settings, messages: seq<Entry>, log: seq<Event>) {
    && |messages| >= 2 && messages[0] == System(s.systemPrompt) && messages[1] == User(s.prompt)
    && forall j: nat :: j < |messages| - 2 ==> EntryAt(s.config, log, messages, j)
  }

  /** Accepted and handled calls so far, by the position in the log. */
  function AcceptedCalls(log: seq<Event>): nat { (|log| + 1) / 3 }
  function HandledCalls(log: seq<Event>): nat { |log| / 3 }

  /** How the attempt relates to the log while the host runs. */
  ghost predicate InStep(s: Settings, h: Host) {
    && Sound(s.config, h.attempt)
    && h.requests == h.fetches == h.attempt.currentTurn
    && |h.attempt.messages| == 2 + AcceptedCalls(h.log) + HandledCalls(h.log)
    && |h.log| % 3 != 1
    && (|h.log| % 3 == 0 ==> h.attempt.state == ReadyModel && h.attempt.currentTurn == |h.log| / 3)
    && (|h.log| % 3 == 2 ==>
          && (h.attempt.state == AwaitTool || h.attempt.state == AwaitComplete)
          && h.attempt.currentTurn == |h.log| / 3 + 1
          && h.log[|h.log| - 1].Accepted? && h.attempt.pending == Some(h.log[|h.log| - 1].call))
  }

  /** The output is the arguments of the last event, an accepted submission. */
  ghost predicate Submitted(s: Settings, log: seq<Event>, output: Json.Value) {
    && |log| % 3 == 2 && log[|log| - 1].Accepted?
    && log[|log| - 1].call.name == SUBMIT && log[|log| - 1].call.arguments == output
    && s.config.outputValid(output)
  }

  ghost predicate Inv(s: Settings, h: Host) {
    && Orderly(s.config, h.log)
    && Matched(s, h.attempt.messages, h.log)
    && Counted(s.config, h.attempt)
    && 2 + AcceptedCalls(h.log) + HandledCalls(h.log) - 1 <= |h.attempt.messages|
    && |h.attempt.messages| <= 2 + AcceptedCalls(h.log) + HandledCalls(h.log)
    && (|h.log| + 2) / 3 <= s.config.maxModelRequests
    && h.attempt.usage.truncated <= HandledCalls(h.log)
    && (h.outcome.Running? ==> InStep(s, h))
    && (h.outcome.Done? ==> Submitted(s, h.log, h.outcome.output))
  }

  // ---------------------------------------------------------------------
  // Every message keeps the invariant
  // ---------------------------------------------------------------------

  lemma OrderlySnoc(config: Config, log: seq<Event>, e: Event)
    requires Orderly(config, log) && EventAt(config, log + [e], |log|)
    ensures Orderly(config, log + [e])
  {
    forall i: nat | i < |log + [e]| ensures EventAt(config, log + [e], i) {
      if i < |log| { assert EventAt(config, log, i); }
    }
  }

  lemma MatchedLonger(s: Settings, messages: seq<Entry>, log: seq<Event>, e: Event)
    requires Matched(s, messages, log)
    ensures Matched(s, messages, log + [e])
  {
    forall j: nat | j < |messages| - 2 ensures EntryAt(s.config, log + [e], messages, j) {
      assert EntryAt(s.config, log, messages, j);
    }
  }

  lemma MatchedSnoc(s: Settings, messages: seq<Entry>, log: seq<Event>, e: Entry)
    requires Matched(s, messages, log) && EntryAt(s.config, log, messages + [e], |messages| - 2)
    ensures Matched(s, messages + [e], log)
  {
    forall j: nat | j < |messages + [e]| - 2 ensures EntryAt(s.config, log, messages + [e], j) {
      if j < |messages| - 2 { assert EntryAt(s.config, log, messages, j); }
    }
  }

  lemma FailsKeeps(s: Settings, h: Host, cancelled: bool)
    requires Inv(s, h.(outcome := Failure))
    ensures Inv(s, Fails(h, cancelled))
  {}

  lemma RequestKeeps(s: Settings, h: Host, m: Sse.Members)
    requires ValidSettings(s) && Inv(s, h) && h.outcome.Running?
    ensures var (h', body) := RequestModel(s, h, m);
            && Inv(s, h'.(outcome := Failure))
            && h'.outcome.Running?
            && (body.Some? ==> InFlight(s, h'))
  {
    var turn := Sse.Integer(Sse.At(m, "turn"));
    var (h', body) := RequestModel(s, h, m);
    if turn.Some? {
      BeginKeeps(s.config, h.attempt, turn.value);
      if body.Some? {
        OrderlySnoc(s.config, h.log, Exchanged(turn.value, body.value));
        MatchedLonger(s, h.attempt.messages, h.log, Exchanged(turn.value, body.value));
      }
    }
  }

  /** What an accepted response adds to the transcript. */
  lemma ResponseAdds(config: Config, a: Attempt, body: Sse.Body)
    requires ReliableParser(config) && AcceptModel(config, a, body).1.Some?
    ensures var a' := AcceptModel(config, a, body).0;
            && a'.pending.Some? && FromProvider(config, body, a'.pending.value)
            && |a'.messages| == |a.messages| + 1 && a'.messages[..|a.messages|] == a.messages
            && a'.messages[|a.messages|].Called? && Asks(config, a'.messages[|a.messages|].assistant, a'.pending.value)
            && (a'.state == AwaitTool || a'.state == AwaitComplete)
            && a'.currentTurn == a.currentTurn
  {
    assert Reliable(config, config.parse(body).value);
  }

  lemma AcceptedEvent(config: Config, log: seq<Event>, body: Sse.Body, call: Sse.PendingCall)
    requires Orderly(config, log) && |log| % 3 == 1 && FromProvider(config, body, call)
    ensures Orderly(config, log + [Accepted(body, call)])
  {
    OrderlySnoc(config, log, Accepted(body, call));
  }

  lemma AcceptedEntry(s: Settings, messages: seq<Entry>, log: seq<Event>, event: Event, entry: Entry)
    requires Matched(s, messages, log) && |log| % 3 == 1 && |messages| == 2 + 2 * (|log| / 3)
    requires event.Accepted? && entry.Called? && Asks(s.config, entry.assistant, event.call)
    ensures Matched(s, messages + [entry], log + [event])
  {
    MatchedLonger(s, messages, log, event);
    MatchedSnoc(s, messages, log + [event], entry);
  }

  /** The attempt `a` took one more accepted call. */
  lemma AcceptedKeeps(s: Settings, h: Host, a: Attempt, body: Sse.Body, entry: Entry)
    requires Inv(s, h.(outcome := Failure)) && h.outcome.Running? && |h.log| % 3 == 1
    requires |h.attempt.messages| == 2 + AcceptedCalls(h.log) + HandledCalls(h.log)
    requires h.requests == h.fetches == a.currentTurn == |h.log| / 3 + 1
    requires a.usage.truncated == h.attempt.usage.truncated
    requires Sound(s.config, a) && (a.state == AwaitTool || a.state == AwaitComplete)
    requires a.pending.Some? && FromProvider(s.config, body, a.pending.value)
    requires entry.Called? && Asks(s.config, entry.assistant, a.pending.value)
    requires a.messages == h.attempt.messages + [entry]
    ensures Inv(s, h.(attempt := a, log := h.log + [Accepted(body, a.pending.value)]))
  {
    AcceptedEvent(s.config, h.log, body, a.pending.value);
    AcceptedEntry(s, h.attempt.messages, h.log, Accepted(body, a.pending.value), entry);
  }

  /** The host has exchanged a request and waits for the reply. */
  ghost predicate InFlight(s: Settings, h: Host) {
    && Inv(s, h.(outcome := Failure)) && h.outcome.Running?
    && |h.log| % 3 == 1 && Sound(s.config, h.attempt) && h.attempt.state == ModelInFlight
    && h.requests == h.fetches == h.attempt.currentTurn == |h.log| / 3 + 1
    && |h.attempt.messages| == 2 + AcceptedCalls(h.log) + HandledCalls(h.log)
  }

  lemma TakenKeeps(s: Settings, h: Host, body: Sse.Body)
    requires ValidSettings(s) && InFlight(s, h)
    requires AcceptModel(s.config, h.attempt, body).1.Some?
    ensures var a := AcceptModel(s.config, h.attempt, body).0;
            a.pending.Some? && Inv(s, h.(attempt := a, log := h.log + [Accepted(body, a.pending.value)]))
  {
    ResponseKeeps(s.config, h.attempt, body);
    ResponseAdds(s.config, h.attempt, body);
    var a := AcceptModel(s.config, h.attempt, body).0;
    var entry := a.messages[|h.attempt.messages|];
    assert a.messages == h.attempt.messages + [entry];
    AcceptedKeeps(s, h, a, body, entry);
  }

  lemma LeftKeeps(s: Settings, h: Host, body: Sse.Body)
    requires ValidSettings(s) && InFlight(s, h)
    requires AcceptModel(s.config, h.attempt, body).1.None?
    ensures Inv(s, h.(attempt := AcceptModel(s.config, h.attempt, body).0, outcome := Failure))
  {
    ResponseKeeps(s.config, h.attempt, body);
    RefusedKeeps(s, h, AcceptModel(s.config, h.attempt, body).0);
  }

  lemma FailureKeeps(s: Settings, h: Host)
    requires Inv(s, h)
    ensures Inv(s, h.(outcome := Failure))
  {}

  lemma ReceiveKeeps(s: Settings, h: Host, reply: Reply, sent: bool, cancelled: bool)
    requires ValidSettings(s) && InFlight(s, h)
    ensures Inv(s, ReceiveModel(s, h, reply, sent, cancelled))
  {
    if reply.NoReply? || reply.status != 200 || !reply.eventStream {
      FailsKeeps(s, h, cancelled);
    } else {
      var (a, normalized) := AcceptModel(s.config, h.attempt, reply.body);
      if normalized.Some? {
        TakenKeeps(s, h, reply.body);
        var h' := h.(attempt := a, log := h.log + [Accepted(reply.body, a.pending.value)]);
        FailureKeeps(s, h');
        FailsKeeps(s, h', cancelled);
      } else {
        LeftKeeps(s, h, reply.body);
        FailsKeeps(s, h.(attempt := a), cancelled);
      }
    }
  }

  lemma RefusedKeeps(s: Settings, h: Host, a: Attempt)
    requires Inv(s, h.(outcome := Failure)) && a.messages == h.attempt.messages && Counted(s.config, a)
    requires a.usage.truncated == h.attempt.usage.truncated
    ensures Inv(s, h.(attempt := a, outcome := Failure))
  {}

  lemma ModelKeeps(s: Settings, h: Host, m: Sse.Members, input: Input)
    requires ValidSettings(s) && Inv(s, h) && h.outcome.Running?
    ensures Inv(s, ServeModel(s, h, m, input))
  {
    RequestKeeps(s, h, m);
    var (h', body) := RequestModel(s, h, m);
    if body.Some? {
      ReceiveKeeps(s, h', Exchange(input.tries, 0, s.maxRetries), input.sent, input.cancelled);
    }
  }

  lemma ToolResultAdds(config: Config, a: Attempt, result: Option<Json.Value>)
    requires AcceptToolResult(config, a, result).1.Some?
    ensures var a' := AcceptToolResult(config, a, result).0;
            && a.pending.Some? && a'.state == ReadyModel && a'.currentTurn == a.currentTurn
            && a'.usage.truncated <= a.usage.truncated + 1
            && |a'.messages| == |a.messages| + 1 && a'.messages[..|a.messages|] == a.messages
            && a'.messages[|a.messages|].Answered? && a'.messages[|a.messages|].callId == a.pending.value.callId
  {}

  /** The handler was called for the pending call. */
  lemma HandledKeeps(s: Settings, h: Host, seen: set<string>)
    requires Inv(s, h) && h.outcome.Running? && h.attempt.state == AwaitTool && h.attempt.pending.Some?
    ensures var call := h.attempt.pending.value;
            Inv(s, h.(seen := seen, log := h.log + [Handled(call.name, call.arguments)], outcome := Failure))
  {
    var event := Handled(h.attempt.pending.value.name, h.attempt.pending.value.arguments);
    OrderlySnoc(s.config, h.log, event);
    MatchedLonger(s, h.attempt.messages, h.log, event);
  }

  /** The attempt `a` took the result of the pending call. */
  lemma AnsweredKeeps(s: Settings, h: Host, seen: set<string>, a: Attempt, entry: Entry)
    requires Inv(s, h) && h.outcome.Running? && h.attempt.state == AwaitTool && h.attempt.pending.Some?
    requires Sound(s.config, a) && a.state == ReadyModel && a.currentTurn == h.attempt.currentTurn
    requires a.usage.truncated <= h.attempt.usage.truncated + 1
    requires entry.Answered? && entry.callId == h.attempt.pending.value.callId
    requires a.messages == h.attempt.messages + [entry]
    ensures var call := h.attempt.pending.value;
            Inv(s, h.(seen := seen, log := h.log + [Handled(call.name, call.arguments)], attempt := a))
  {
    HandledKeeps(s, h, seen);
    var call := h.attempt.pending.value;
    AnsweredEntry(s, h.attempt.messages, h.log, Handled(call.name, call.arguments), entry);
  }

  lemma AnsweredEntry(s: Settings, messages: seq<Entry>, log: seq<Event>, event: Event, entry: Entry)
    requires Matched(s, messages, log) && |log| % 3 == 2 && |messages| == 3 + 2 * (|log| / 3)
    requires log[|log| - 1].Accepted? && entry.Answered? && entry.callId == log[|log| - 1].call.callId
    ensures Matched(s, messages + [entry], log + [event])
  {
    MatchedLonger(s, messages, log, event);
    MatchedSnoc(s, messages, log + [event], entry);
  }

  lemma ToolKeeps(s: Settings, h: Host, m: Sse.Members, input: Input)
    requires ValidSettings(s) && Inv(s, h) && h.outcome.Running?
    ensures Inv(s, ServeTool(s, h, m, input))
  {
    var id := UniqueId(m, h.seen);
    var call := ValidateToolCall(s.config, h.attempt, Sse.At(m, "provider_call_id"), Sse.At(m, "name"),
                                 Sse.At(m, "arguments"));
    if id.Some? && call.Some? && call.value.name in s.config.tools {
      HandledKeeps(s, h, h.seen + {id.value});
      if input.handler.Returned? { ReturnedKeeps(s, h, h.seen + {id.value}, input); }
    }
  }

  lemma ReturnedKeeps(s: Settings, h: Host, seen: set<string>, input: Input)
    requires ValidSettings(s) && Inv(s, h) && h.outcome.Running?
    requires h.attempt.state == AwaitTool && h.attempt.pending.Some? && input.handler.Returned?
    ensures var call := h.attempt.pending.value;
            var h' := h.(seen := seen, log := h.log + [Handled(call.name, call.arguments)]);
            var (a, kept) := AcceptToolResult(s.config, h.attempt, input.handler.value);
            Inv(s, if kept.None? || !input.sent then Fails(h'.(attempt := a), input.cancelled) else h'.(attempt := a))
  {
    HandledKeeps(s, h, seen);
    ToolResultKeeps(s.config, h.attempt, input.handler.value);
    var (a, kept) := AcceptToolResult(s.config, h.attempt, input.handler.value);
    if kept.Some? {
      ToolResultAdds(s.config, h.attempt, input.handler.value);
      var entry := a.messages[|h.attempt.messages|];
      assert a.messages == h.attempt.messages + [entry];
      AnsweredKeeps(s, h, seen, a, entry);
    }
  }

  lemma CompleteKeeps(s: Settings, h: Host, m: Sse.Members, input: Input)
    requires ValidSettings(s) && Inv(s, h) && h.outcome.Running?
    ensures Inv(s, ServeComplete(s, h, m, input))
  {}

  lemma ServeKeeps(s: Settings, h: Host, input: Input)
    requires ValidSettings(s) && Inv(s, h) && h.outcome.Running?
    ensures Inv(s, Serve(s, h, input))
  {
    if input.message.Frame? && Kind(input.message.members) == Some("model_request") {
      ModelKeeps(s, h, input.message.members, input);
    } else if input.message.Frame? && Kind(input.message.members) == Some("tool_call") {
      ToolKeeps(s, h, input.message.members, input);
    } else if input.message.Frame? && Kind(input.message.members) == Some("complete") {
      CompleteKeeps(s, h, input.message.members, input);
    } else {
      FailureKeeps(s, h);
      FailsKeeps(s, h, input.cancelled);
    }
  }

  function Calls(log: seq<Event>): nat { AcceptedCalls(log) + HandledCalls(log) }

  /** What holds after `n` messages: a host still running has accepted or handled
      one call with each of them. */
  ghost predicate InvAfter(s: Settings, h: Host, n: nat) {
    Inv(s, h) && (h.outcome.Running? ==> n == Calls(h.log))
  }

  ghost predicate KeptBy(s: Settings, serve: Server) {
    forall h: Host, input: Input, n: nat :: InvAfter(s, h, n) && h.outcome.Running? ==>
      InvAfter(s, serve(h, input), n + 1)
  }

  lemma {:induction false} RunWithKeepsInv(s: Settings, serve: Server, start: Host, inputs: nat -> Input, n: nat)
    requires KeptBy(s, serve) && InvAfter(s, start, 0)
    ensures InvAfter(s, RunWith(serve, start, inputs, n), n)
  {
    if n > 0 { RunWithKeepsInv(s, serve, start, inputs, n - 1); }
  }

  lemma ModelGrows(s: Settings, h: Host, m: Sse.Members, input: Input)
    requires ServeModel(s, h, m, input).outcome.Running?
    ensures h.attempt.state == ReadyModel && |ServeModel(s, h, m, input).log| == |h.log| + 2
  {
    var (h', body) := RequestModel(s, h, m);
    assert h.attempt.state == ReadyModel && |h'.log| == |h.log| + 1;
  }

  lemma ToolGrows(s: Settings, h: Host, m: Sse.Members, input: Input)
    requires ServeTool(s, h, m, input).outcome.Running?
    ensures h.attempt.state == AwaitTool && |ServeTool(s, h, m, input).log| == |h.log| + 1
  {}

  lemma CompleteEnds(s: Settings, h: Host, m: Sse.Members, input: Input)
    ensures !ServeComplete(s, h, m, input).outcome.Running?
  {}

  ghost predicate Grew(h: Host, h': Host) {
    || (h.attempt.state == ReadyModel && |h'.log| == |h.log| + 2)
    || (h.attempt.state == AwaitTool && |h'.log| == |h.log| + 1)
  }

  lemma ServeGrows(s: Settings, h: Host, input: Input)
    requires Serve(s, h, input).outcome.Running?
    ensures Grew(h, Serve(s, h, input))
  {
    var m := input.message.members;
    if Kind(m) == Some("model_request") {
      ModelGrows(s, h, m, input);
    } else if Kind(m) == Some("tool_call") {
      ToolGrows(s, h, m, input);
    } else {
      CompleteEnds(s, h, m, input);
    }
  }

  lemma GrowthCounts(s: Settings, h: Host, h': Host)
    requires InStep(s, h) && Grew(h, h')
    ensures Calls(h'.log) == Calls(h.log) + 1
  {}

  lemma ServingKeeps(s: Settings)
    requires ValidSettings(s)
    ensures KeptBy(s, Serving(s))
  {
    forall h: Host, input: Input, n: nat | InvAfter(s, h, n) && h.outcome.Running?
      ensures InvAfter(s, Serving(s)(h, input), n + 1)
    {
      ServeKeeps(s, h, input);
      var h' := Serving(s)(h, input);
      if h'.outcome.Running? {
        ServeGrows(s, h, input);
        GrowthCounts(s, h, h');
      }
    }
  }

  lemma FreshIsInv(s: Settings)
    requires ValidSettings(s)
    ensures InvAfter(s, Fresh(s), 0)
  {}

  lemma RunKeepsInv(s: Settings, inputs: nat -> Input, n: nat)
    requires ValidSettings(s)
    ensures InvAfter(s, Run(s, inputs, n), n)
  {
    ServingKeeps(s);
    FreshIsInv(s);
    RunWithKeepsInv(s, Serving(s), Fresh(s), inputs, n);
  }

  // ---------------------------------------------------------------------
  // The main results
  // ---------------------------------------------------------------------

  /** The settings a session is created with. */
  ghost predicate Configured(s: Settings) {
    ValidConfig(s.config) && ParsesSse(s.config) && s.config.maxModelRequests <= s.maxFetches
  }

  lemma ConfiguredIsValid(s: Settings)
    requires Configured(s)
    ensures ValidSettings(s)
  {
    SseIsReliable(s.config);
  }

  ghost predicate SubmissionIsLast(log: seq<Event>) {
    forall i: nat :: i < |log| && log[i].Accepted? && log[i].call.name == SUBMIT ==> i == |log| - 1
  }

  lemma OrderlyEndsInSubmission(config: Config, log: seq<Event>)
    requires SUBMIT !in config.tools && Orderly(config, log)
    ensures SubmissionIsLast(log)
  {
    forall i: nat | i + 1 < |log| && log[i].Accepted? ensures log[i].call.name != SUBMIT {
      assert EventAt(config, log, i);
      assert EventAt(config, log, i + 1);
    }
  }

  /** Host safety, for every capsule, provider and handler behaviour: after any
      number of messages the log is exchange, accepted call, handler call, over
      and over, each handler call made for the call accepted just before it; a
      submission is accepted last if at all; and an output is the arguments of
      that submission and satisfies the output schema. */
  lemma HostIsSafe(s: Settings, inputs: nat -> Input, n: nat)
    requires Configured(s)
    ensures var h := Run(s, inputs, n);
            && Orderly(s.config, h.log)
            && SubmissionIsLast(h.log)
            && (|h.log| + 2) / 3 <= s.config.maxModelRequests
            && (h.outcome.Done? ==> Submitted(s, h.log, h.outcome.output))
  {
    ConfiguredIsValid(s);
    RunKeepsInv(s, inputs, n);
    OrderlyEndsInSubmission(s.config, Run(s, inputs, n).log);
  }

  /** The handler calls of a log, and the calls accepted from the provider. */
  function HandlerCalls(log: seq<Event>): seq<(string, Json.Value)> {
    if log == [] then []
    else
      var before, last := HandlerCalls(log[..|log| - 1]), log[|log| - 1];
      if last.Handled? then before + [(last.name, last.arguments)] else before
  }

  function ProviderCalls(log: seq<Event>): seq<(string, Json.Value)> {
    if log == [] then []
    else
      var before, last := ProviderCalls(log[..|log| - 1]), log[|log| - 1];
      if last.Accepted? then before + [(last.call.name, last.call.arguments)] else before
  }

  lemma {:induction false} CallsMatch(config: Config, log: seq<Event>)
    requires Orderly(config, log)
    ensures |ProviderCalls(log)| == AcceptedCalls(log) && |HandlerCalls(log)| == HandledCalls(log)
    ensures HandlerCalls(log) == ProviderCalls(log)[..HandledCalls(log)]
    ensures |log| % 3 == 2 ==> log[|log| - 1].Accepted?
    ensures |log| % 3 == 2 ==>
            ProviderCalls(log)[|ProviderCalls(log)| - 1] == (log[|log| - 1].call.name, log[|log| - 1].call.arguments)
  {
    if log != [] {
      var before, last := log[..|log| - 1], |log| - 1;
      OrderlyPrefix(config, log);
      CallsMatch(config, before);
      assert EventAt(config, log, last);
      if last % 3 == 2 {
        assert before[last - 1] == log[last - 1];
      }
    }
  }

  lemma OrderlyPrefix(config: Config, log: seq<Event>)
    requires log != [] && Orderly(config, log)
    ensures Orderly(config, log[..|log| - 1])
  {
    var before := log[..|log| - 1];
    forall i: nat | i < |before| ensures EventAt(config, before, i) { assert EventAt(config, log, i); }
  }

  /** On every run the handler calls are exactly the provider's accepted calls, in
      order and once each, all but possibly the last; and none is a submission. */
  lemma HandlersFollowProvider(s: Settings, inputs: nat -> Input, n: nat)
    requires Configured(s)
    ensures var log := Run(s, inputs, n).log;
            var handled, accepted := HandlerCalls(log), ProviderCalls(log);
            && |handled| <= |accepted| <= |handled| + 1 && handled == accepted[..|handled|]
            && forall i :: 0 <= i < |handled| ==> handled[i].0 in s.config.tools
  {
    ConfiguredIsValid(s);
    RunKeepsInv(s, inputs, n);
    CallsMatch(s.config, Run(s, inputs, n).log);
    HandlersAreTools(s.config, Run(s, inputs, n).log);
  }

  lemma {:induction false} HandlersAreTools(config: Config, log: seq<Event>)
    requires Orderly(config, log)
    ensures forall i :: 0 <= i < |HandlerCalls(log)| ==> HandlerCalls(log)[i].0 in config.tools
  {
    if log != [] {
      OrderlyPrefix(config, log);
      HandlersAreTools(config, log[..|log| - 1]);
      assert EventAt(config, log, |log| - 1);
    }
  }

  /** The transcript is the two prompts and then matched pairs of accepted call
      and answer, at most the last call unanswered; reported usage adds up; and no
      more responses are counted than the budget of model requests. */
  lemma TranscriptAndUsage(s: Settings, inputs: nat -> Input, n: nat)
    requires Configured(s)
    ensures var h := Run(s, inputs, n);
            && Matched(s, h.attempt.messages, h.log)
            && AcceptedCalls(h.log) + HandledCalls(h.log) - 1 <= |h.attempt.messages| - 2
            && |h.attempt.messages| - 2 <= AcceptedCalls(h.log) + HandledCalls(h.log)
            && h.attempt.usage.total == h.attempt.usage.input + h.attempt.usage.output
            && h.attempt.usage.modelCalls <= h.attempt.currentTurn <= s.config.maxModelRequests
            && h.attempt.usage.truncated <= HandledCalls(h.log)
  {
    ConfiguredIsValid(s);
    RunKeepsInv(s, inputs, n);
  }

  /** The loop ends: no capsule keeps the host busy for twice as many messages as
      there are model requests. */
  lemma HostTerminates(s: Settings, inputs: nat -> Input, n: nat)
    requires Configured(s) && Run(s, inputs, n).outcome.Running?
    ensures n < 2 * s.config.maxModelRequests
  {
    ConfiguredIsValid(s);
    RunKeepsInv(s, inputs, n);
  }

  /** The request `m` asks for the next turn under an unused identifier. */
  predicate AsksNextTurn(h: Host, m: Sse.Members) {
    UniqueId(m, h.seen).Some? && Sse.Integer(Sse.At(m, "turn")) == Some(h.attempt.nextTurn)
  }

  ghost predicate Exchanges(s: Settings, h: Host, m: Sse.Members) {
    var (h', body) := RequestModel(s, h, m);
    && body == ModelRequest(s.config, h.attempt.nextTurn, h.attempt.messages) && body.Some?
    && h'.log == h.log + [Exchanged(|h.log| / 3 + 1, body.value)]
  }

  lemma ReadyExchanges(s: Settings, h: Host, m: Sse.Members)
    requires ValidSettings(s) && InStep(s, h) && h.attempt.state == ReadyModel && |h.log| > 0
    requires AsksNextTurn(h, m)
    ensures Exchanges(s, h, m)
  {}

  /** Progress: once a tool result has been returned, a well-formed request for
      the next turn with an unused identifier is always exchanged. */
  lemma NextTurnIsExchanged(s: Settings, inputs: nat -> Input, n: nat, m: Sse.Members)
    requires Configured(s)
    requires var h := Run(s, inputs, n);
             h.outcome.Running? && h.attempt.state == ReadyModel && |h.log| > 0 && AsksNextTurn(h, m)
    ensures Exchanges(s, Run(s, inputs, n), m)
  {
    ConfiguredIsValid(s);
    RunKeepsInv(s, inputs, n);
    ReadyExchanges(s, Run(s, inputs, n), m);
  }

  // ---------------------------------------------------------------------
  // The loop
  // ---------------------------------------------------------------------

  /** The variables of `invoke`. */
  class Invocation {
    const settings: Settings
    const attempt: OpenAIAttempt
    var seen: set<string>
    var fetches: nat
    var requests: nat
    var log: seq<Event>
    var outcome: Outcome

    ghost predicate Valid()
      reads this, attempt
    {
      attempt.config == settings.config && ParsesSse(settings.config)
    }

    function Contents(): Host
      reads this, attempt
    {
      Host(attempt.Contents(), seen, fetches, requests, log, outcome)
    }

    constructor (settings: Settings)
      requires ParsesSse(settings.config)
      ensures Valid() && this.settings == settings && Contents() == Fresh(settings) && fresh(attempt)
    {
      this.settings := settings;
      attempt := new OpenAIAttempt(settings.config, settings.systemPrompt, settings.prompt);
      seen, fetches, requests, log, outcome := {}, 0, 0, [], Running;
    }

    method Abort(cancelled: bool)
      requires Valid()
      modifies this, attempt
      ensures Valid() && Contents() == Fails(old(Contents()), cancelled)
    {
      attempt.Abandon(cancelled);
      outcome := Failure;
    }

    method Request(m: Sse.Members) returns (body: Option<string>)
      requires Valid()
      modifies this, attempt
      ensures Valid() && (Contents(), body) == RequestModel(settings, old(Contents()), m)
    {
      var id := UniqueId(m, seen);
      var turn := Sse.Integer(Sse.At(m, "turn"));
      if id.None? || turn.None? || turn.value < 1 { return None; }
      seen := seen + {id.value};
      fetches := fetches + 1;
      requests := requests + 1;
      if fetches > settings.maxFetches || requests > settings.config.maxModelRequests { return None; }
      body := attempt.Begin(turn.value);
      if body.Some? { log := log + [Exchanged(turn.value, body.value)]; }
    }

    method Receive(reply: Reply, sent: bool, cancelled: bool)
      requires Valid()
      modifies this, attempt
      ensures Valid() && Contents() == ReceiveModel(settings, old(Contents()), reply, sent, cancelled)
    {
      if reply.NoReply? || reply.status != 200 || !reply.eventStream {
        Abort(cancelled);
        return;
      }
      var normalized := attempt.TakeResponse(reply.body);
      if normalized.None? || attempt.pending.None? {
        Abort(cancelled);
        return;
      }
      log := log + [Accepted(reply.body, attempt.pending.value)];
      if !sent { Abort(cancelled); }
    }

    method AnswerTool(m: Sse.Members, input: Input)
      requires Valid()
      modifies this, attempt
      ensures Valid() && Contents() == ServeTool(settings, old(Contents()), m, input)
    {
      var id := UniqueId(m, seen);
      var call := ValidateToolCall(settings.config, attempt.Contents(), Sse.At(m, "provider_call_id"),
                                   Sse.At(m, "name"), Sse.At(m, "arguments"));
      if id.None? || call.None? || call.value.name !in settings.config.tools {
        Abort(input.cancelled);
        return;
      }
      seen := seen + {id.value};
      log := log + [Handled(call.value.name, call.value.arguments)];
      if input.handler.HandlerError? {
        Abort(input.cancelled);
        return;
      }
      var kept := attempt.TakeToolResult(input.handler.value);
      if kept.None? || !input.sent { Abort(input.cancelled); }
    }

    method Complete(m: Sse.Members, input: Input)
      requires Valid()
      modifies this, attempt
      ensures Valid() && Contents() == ServeComplete(settings, old(Contents()), m, input)
    {
      var output := attempt.TakeCompletion(Sse.At(m, "output"));
      if output.None? || !input.closed {
        Abort(input.cancelled);
      } else {
        outcome := Done(output.value);
      }
    }

    method Dispatch(input: Input)
      requires Valid()
      modifies this, attempt
      ensures Valid() && Contents() == Serve(settings, old(Contents()), input)
    {
      if input.message.Broken? {
        Abort(input.cancelled);
        return;
      }
      var m := input.message.members;
      if Kind(m) == Some("model_request") {
        var body := Request(m);
        if body.None? {
          Abort(input.cancelled);
        } else {
          var reply, _ := ExchangeLoop(input.tries, settings.maxRetries);
          Receive(reply, input.sent, input.cancelled);
        }
      } else if Kind(m) == Some("tool_call") {
        AnswerTool(m, input);
      } else if Kind(m) == Some("complete") {
        Complete(m, input);
      } else {
        Abort(input.cancelled);
      }
    }

    /** One turn of the loop. */
    method Advance(inputs: nat -> Input, served: nat)
      requires Valid() && Contents() == Run(settings, inputs, served) && outcome.Running?
      modifies this, attempt
      ensures Valid() && Contents() == Run(settings, inputs, served + 1)
    {
      Dispatch(inputs(served));
    }
  }

  /** `invoke` from the first received message: it returns after fewer than
      `2 * maxModelRequests + 1` messages, in the state `Run` describes. */
  method Invoke(s: Settings, inputs: nat -> Input) returns (host: Host, served: nat)
    requires Configured(s)
    ensures served <= 2 * s.config.maxModelRequests
    ensures host == Run(s, inputs, served) && !host.outcome.Running?
  {
    var invocation := new Invocation(s);
    served := 0;
    while invocation.outcome.Running?
      invariant invocation.Valid() && invocation.settings == s
      invariant fresh(invocation) && fresh(invocation.attempt)
      invariant invocation.Contents() == Run(s, inputs, served)
      invariant 0 <= served <= 2 * s.config.maxModelRequests
      decreases 2 * s.config.maxModelRequests - served
    {
      HostTerminates(s, inputs, served);
      invocation.Advance(inputs, served);
      served := served + 1;
    }
    host := invocation.Contents();
  }
}
