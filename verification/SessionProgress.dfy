/** What the trusted host does for a capsule that keeps to the protocol, and what
    it refuses (internal/capsule/session.go, internal/capsule/attempt.go), in every
    reachable state. The conditions are stated on the message and the log alone. */
module SessionProgress {
  import opened Text
  import Json
  import Sse
  import SseFixedPoint
  import opened Sequences
  import opened Attempt
  import opened Session

  // ---------------------------------------------------------------------
  // Messages
  // ---------------------------------------------------------------------

  /** The member `name` is the string `text`. */
  predicate Says(m: Sse.Members, name: string, text: string) {
    name in m && m[name] == Sse.Quoted(text)
  }

  /** The message carries a well-formed identifier that no message before it had. */
  ghost predicate NewId(seen: set<string>, m: Sse.Members) {
    exists id :: Says(m, "id", id) && Sse.ValidOperationId(id) && id !in seen
  }

  /** The message carries `v` under `name`, up to how it is written; a missing
      member counts as null. */
  ghost predicate Carries(config: Config, m: Sse.Members, name: string, v: Json.Value) {
    config.env.codec.write(Sse.At(m, name)) == config.env.codec.write(v)
  }

  /** The call that the provider made last and nobody has answered. */
  ghost predicate Outstanding(h: Host, call: Sse.PendingCall) {
    h.log != [] && h.log[|h.log| - 1].Accepted? && h.log[|h.log| - 1].call == call
  }

  /** A `tool_call` that repeats the call in identifier, name and arguments. */
  ghost predicate RepeatsCall(s: Settings, h: Host, m: Sse.Members, call: Sse.PendingCall) {
    && Says(m, "type", "tool_call") && NewId(h.seen, m)
    && Outstanding(h, call) && call.name != SUBMIT
    && Says(m, "provider_call_id", call.callId) && Says(m, "name", call.name)
    && Carries(s.config, m, "arguments", call.arguments)
  }

  /** A `complete` that repeats the arguments of the accepted submission. */
  ghost predicate RepeatsSubmission(s: Settings, h: Host, m: Sse.Members, call: Sse.PendingCall) {
    && Says(m, "type", "complete") && Outstanding(h, call) && call.name == SUBMIT
    && Sse.At(m, "output").Obj? && s.config.outputValid(Sse.At(m, "output"))
    && Carries(s.config, m, "output", call.arguments)
  }

  lemma SaysMeans(m: Sse.Members, name: string, text: string)
    ensures Says(m, name, text) <==> Sse.TextOf(Sse.At(m, name)) == Some(text)
    ensures Says(m, name, text) <==> Sse.At(m, name) == Sse.Quoted(text)
  {}

  lemma NewIdMeans(seen: set<string>, m: Sse.Members)
    ensures NewId(seen, m) <==> UniqueId(m, seen).Some?
    ensures NewId(seen, m) ==> Says(m, "id", UniqueId(m, seen).value)
  {
    if UniqueId(m, seen).Some? {
      SaysMeans(m, "id", UniqueId(m, seen).value);
    } else if NewId(seen, m) {
      var id :| Says(m, "id", id) && Sse.ValidOperationId(id) && id !in seen;
      SaysMeans(m, "id", id);
    }
  }

  // ---------------------------------------------------------------------
  // Tool calls
  // ---------------------------------------------------------------------

  /** The handler runs exactly for a repeated call; everything else fails the
      session and leaves the log alone. */
  ghost predicate ToolCallServed(s: Settings, h: Host, m: Sse.Members, h': Host) {
    && !h'.outcome.Done?
    && (forall call :: RepeatsCall(s, h, m, call) ==> h'.log == h.log + [Handled(call.name, call.arguments)])
    && ((forall call :: !RepeatsCall(s, h, m, call)) ==> h'.log == h.log && h'.outcome == Failure)
  }

  lemma PendingIsOutstanding(s: Settings, h: Host, call: Sse.PendingCall)
    requires ValidSettings(s) && Inv(s, h) && h.outcome.Running?
    ensures Outstanding(h, call) <==> h.attempt.pending == Some(call)
    ensures Outstanding(h, call) ==> Granted(s.config, call)
    ensures Outstanding(h, call) ==> (h.attempt.state == AwaitTool <==> call.name != SUBMIT)
    ensures Outstanding(h, call) ==> (h.attempt.state == AwaitComplete <==> call.name == SUBMIT)
  {
    if h.log != [] { assert EventAt(s.config, h.log, |h.log| - 1); }
  }

  lemma RepeatedIsValidated(s: Settings, h: Host, m: Sse.Members, call: Sse.PendingCall)
    requires ValidSettings(s) && Inv(s, h) && h.outcome.Running? && Says(m, "type", "tool_call")
    ensures RepeatsCall(s, h, m, call) <==>
            && UniqueId(m, h.seen).Some?
            && ValidateToolCall(s.config, h.attempt, Sse.At(m, "provider_call_id"), Sse.At(m, "name"),
                                Sse.At(m, "arguments")) == Some(call)
            && call.name in s.config.tools
  {
    NewIdMeans(h.seen, m);
    PendingIsOutstanding(s, h, call);
    SaysMeans(m, "provider_call_id", call.callId);
    SaysMeans(m, "name", call.name);
  }

  lemma ToolCallIsServed(s: Settings, h: Host, m: Sse.Members, input: Input)
    requires ValidSettings(s) && Inv(s, h) && h.outcome.Running? && Says(m, "type", "tool_call")
    ensures ToolCallServed(s, h, m, ServeTool(s, h, m, input))
  {
    forall call
      ensures RepeatsCall(s, h, m, call) <==>
              && UniqueId(m, h.seen).Some?
              && ValidateToolCall(s.config, h.attempt, Sse.At(m, "provider_call_id"), Sse.At(m, "name"),
                                  Sse.At(m, "arguments")) == Some(call)
              && call.name in s.config.tools
    {
      RepeatedIsValidated(s, h, m, call);
    }
  }

  /** The next request fits when the answer to `call` is `value`. */
  ghost predicate AnswerFits(s: Settings, h: Host, call: Sse.PendingCall, value: Json.Value) {
    TranscriptFits(s.config, h.attempt.nextTurn, Answers(s, h, call, value))
  }

  function Answers(s: Settings, h: Host, call: Sse.PendingCall, value: Json.Value): seq<Entry> {
    h.attempt.messages + [Answered(call.callId, s.config.env.codec.write(value))]
  }

  /** A JSON value that the response limits admit. */
  ghost predicate Admitted(config: Config, v: Json.Value) {
    && Sse.Printable(config.env.codec, v)
    && Json.WithinLimits(config.env.codec.layout(v), config.env.limits.Complexity())
  }

  /** Copying an admitted value through its text gives the value, and copying one
      over the limits is refused. */
  lemma CloneIsFaithful(config: Config, v: Json.Value)
    requires Sse.Lawful(config.env.codec) && Sse.Printable(config.env.codec, v) && config.env.limits.maxKeys >= 0
    ensures Clone(config, v) ==
            if Json.WithinLimits(config.env.codec.layout(v), config.env.limits.Complexity()) then Some(v) else None
  {
    assert Sse.PrintLaw(config.env.codec, v);
    Json.ParseStrictIsTreeSpec(config.env.codec.layout(v), config.env.limits.Complexity());
  }

  /** The result of a handler reaches the transcript whole where the next request
      still fits, and the session goes on. */
  ghost predicate ResultServed(s: Settings, h: Host, call: Sse.PendingCall, value: Json.Value, h': Host) {
    && h'.outcome.Running? && h'.attempt.state == ReadyModel && h'.attempt.usage == h.attempt.usage
    && h'.attempt.messages == Answers(s, h, call, value)
  }

  lemma ResultIsServed(s: Settings, h: Host, m: Sse.Members, input: Input, call: Sse.PendingCall, value: Json.Value)
    requires ValidSettings(s) && Inv(s, h) && h.outcome.Running? && RepeatsCall(s, h, m, call)
    requires Sse.Lawful(s.config.env.codec) && input.handler == Returned(Some(value)) && Admitted(s.config, value)
    requires AnswerFits(s, h, call, value) && input.sent && s.config.env.limits.maxKeys >= 0
    ensures ResultServed(s, h, call, value, ServeTool(s, h, m, input))
  {
    RepeatedIsValidated(s, h, m, call);
    CloneIsFaithful(s.config, value);
    PendingIsOutstanding(s, h, call);
    assert Bound(s.config, h.attempt, value) == Some((value, false));
  }

  /** A result for which the next request has no room is cut to a prefix that fits,
      while one character more would not, if anything of it fits at all. */
  ghost predicate ResultCut(s: Settings, h: Host, call: Sse.PendingCall, value: Json.Value, k: nat, h': Host) {
    var text := s.config.env.codec.write(value);
    && k <= |text| && h'.outcome.Running? && h'.attempt.state == ReadyModel
    && h'.attempt.messages == Answers(s, h, call, Envelope(text, k))
    && h'.attempt.usage == h.attempt.usage.(truncated := h.attempt.usage.truncated + 1)
    && AnswerFits(s, h, call, Envelope(text, k)) && (k < |text| ==> !AnswerFits(s, h, call, Envelope(text, k + 1)))
  }

  /** The attempt keeps the longest-fitting envelope. */
  lemma EnvelopeIsKept(config: Config, a: Attempt, value: Json.Value) returns (k: nat)
    requires a.state == AwaitTool && a.pending.Some? && Clone(config, value) == Some(value)
    requires !NextFits(config, a)(value) && Takes(config.env.codec.write(value), NextFits(config, a), 0)
    ensures var text := config.env.codec.write(value);
            && k <= |text|
            && AcceptToolResult(config, a, Some(value)) ==
               (a.(messages := Candidate(config, a, Envelope(text, k)), pending := None, state := ReadyModel,
                   usage := a.usage.(truncated := a.usage.truncated + 1)), Some(Envelope(text, k)))
            && Takes(text, NextFits(config, a), k) && !Takes(text, NextFits(config, a), k + 1)
  {
    k := BoundIsTight(config, a, value);
  }

  lemma LongResultIsCut(s: Settings, h: Host, m: Sse.Members, input: Input, call: Sse.PendingCall, value: Json.Value)
    returns (k: nat)
    requires ValidSettings(s) && Inv(s, h) && h.outcome.Running? && RepeatsCall(s, h, m, call)
    requires Sse.Lawful(s.config.env.codec) && input.handler == Returned(Some(value)) && Admitted(s.config, value)
    requires input.sent && s.config.env.limits.maxKeys >= 0 && !AnswerFits(s, h, call, value)
    requires AnswerFits(s, h, call, Envelope(s.config.env.codec.write(value), 0))
    ensures ResultCut(s, h, call, value, k, ServeTool(s, h, m, input))
  {
    RepeatedIsValidated(s, h, m, call);
    CloneIsFaithful(s.config, value);
    PendingIsOutstanding(s, h, call);
    k := EnvelopeIsKept(s.config, h.attempt, value);
  }

  // ---------------------------------------------------------------------
  // Completion
  // ---------------------------------------------------------------------

  /** The session is done exactly after a repeated submission and a clean end, and
      then with the arguments the provider submitted. */
  ghost predicate CompletionServed(s: Settings, h: Host, m: Sse.Members, closed: bool, h': Host) {
    && h'.log == h.log
    && (forall call :: RepeatsSubmission(s, h, m, call) && closed ==> h'.outcome == Done(call.arguments))
    && ((forall call :: !RepeatsSubmission(s, h, m, call)) || !closed ==> h'.outcome == Failure)
  }

  lemma SubmissionIsAccepted(s: Settings, h: Host, m: Sse.Members, call: Sse.PendingCall)
    requires ValidSettings(s) && Inv(s, h) && h.outcome.Running? && Says(m, "type", "complete")
    ensures RepeatsSubmission(s, h, m, call) <==>
            h.attempt.pending == Some(call) && AcceptComplete(s.config, h.attempt, Sse.At(m, "output")).1.Some?
    ensures RepeatsSubmission(s, h, m, call) ==>
            AcceptComplete(s.config, h.attempt, Sse.At(m, "output")).1 == Some(call.arguments)
  {
    PendingIsOutstanding(s, h, call);
  }

  lemma CompletionIsServed(s: Settings, h: Host, m: Sse.Members, input: Input)
    requires ValidSettings(s) && Inv(s, h) && h.outcome.Running? && Says(m, "type", "complete")
    ensures CompletionServed(s, h, m, input.closed, ServeComplete(s, h, m, input))
  {
    var accepted := AcceptComplete(s.config, h.attempt, Sse.At(m, "output")).1;
    forall call
      ensures RepeatsSubmission(s, h, m, call) <==> h.attempt.pending == Some(call) && accepted.Some?
      ensures RepeatsSubmission(s, h, m, call) ==> accepted == Some(call.arguments)
    {
      SubmissionIsAccepted(s, h, m, call);
    }
    if accepted.Some? { assert RepeatsSubmission(s, h, m, h.attempt.pending.value); }
  }

  // ---------------------------------------------------------------------
  // Model requests
  // ---------------------------------------------------------------------

  /** A `model_request` for the turn that is due, under a new identifier. */
  ghost predicate AsksForTurn(s: Settings, h: Host, m: Sse.Members) {
    && Says(m, "type", "model_request") && NewId(h.seen, m)
    && |h.log| % 3 == 0 && |h.log| / 3 < s.config.maxModelRequests
    && Sse.Integer(Sse.At(m, "turn")) == Some(|h.log| / 3 + 1)
  }

  /** The request of the turn that is due: the transcript, how many requests are
      left with it, and whether only the submission may be called. */
  function DueRequest(s: Settings, h: Host): Request {
    var turn := |h.log| / 3 + 1;
    Request(h.attempt.messages, s.config.maxModelRequests - |h.log| / 3, turn == s.config.maxModelRequests)
  }

  /** It can be written and leaves room for the answer and the safety margin. */
  ghost predicate DueFits(s: Settings, h: Host) {
    var body := s.config.encode(DueRequest(s, h));
    && body.Some? && ByteLen(body.value) <= s.config.env.limits.maxBytes
    && ByteLen(body.value) + 4 * (s.config.maxOutputTokens + 1_024) <= 4 * s.config.contextWindow
  }

  /** The estimate of four bytes a token, rounded up, in bytes. */
  lemma FitsInBytes(config: Config, body: string)
    requires ValidConfig(config)
    ensures BodyFits(config, body) <==>
            && ByteLen(body) <= config.env.limits.maxBytes
            && ByteLen(body) + 4 * (config.maxOutputTokens + 1_024) <= 4 * config.contextWindow
  {}

  lemma DueIsBegun(s: Settings, h: Host, m: Sse.Members)
    requires ValidSettings(s) && Inv(s, h) && h.outcome.Running? && Says(m, "type", "model_request")
    ensures var (h', body) := RequestModel(s, h, m);
            if AsksForTurn(s, h, m) && DueFits(s, h)
            then body == s.config.encode(DueRequest(s, h))
                 && h'.log == h.log + [Exchanged(|h.log| / 3 + 1, s.config.encode(DueRequest(s, h)).value)]
                 && h'.outcome.Running? && h'.attempt.messages == h.attempt.messages &&
                    h'.attempt.usage == h.attempt.usage
                 && h'.attempt.state == ModelInFlight && h'.attempt.currentTurn == |h.log| / 3 + 1
            else body == None && h'.log == h.log
  {
    NewIdMeans(h.seen, m);
    var body := s.config.encode(DueRequest(s, h));
    if body.Some? { FitsInBytes(s.config, body.value); }
  }

  /** The provider answered with a stream that is accepted and asks for a call,
      which on the last turn is the submission. */
  ghost predicate GoodReply(s: Settings, turn: int, reply: Reply, r: Sse.Accepted) {
    && reply.Reply? && reply.status == 200 && reply.eventStream && s.config.parse(reply.body) == Some(r)
    && r.pending.Some? && (turn == s.config.maxModelRequests ==> r.pending.value.name == SUBMIT)
  }

  /** What a request that was exchanged leads to. */
  ghost predicate ReplyServed(s: Settings, h: Host, reply: Reply, sent: bool, h': Host)
    requires s.config.encode(DueRequest(s, h)).Some?
  {
    var turn := |h.log| / 3 + 1;
    var asked := h.log + [Exchanged(turn, s.config.encode(DueRequest(s, h)).value)];
    && (forall r :: GoodReply(s, turn, reply, r) ==>
          && h'.log == asked + [Accepted(reply.body, r.pending.value)]
          && (sent ==> h'.outcome.Running?) && (!sent ==> h'.outcome == Failure)
          && h'.attempt.messages == h.attempt.messages + [Called(r.assistant)]
          && h'.attempt.usage == h.attempt.usage.Add(r.usage))
    && ((forall r :: !GoodReply(s, turn, reply, r)) ==> h'.log == asked && h'.outcome == Failure)
  }

  lemma ReplyIsServed(s: Settings, h: Host, begun: Host, reply: Reply, sent: bool, cancelled: bool)
    requires ValidSettings(s) && Inv(s, h) && h.outcome.Running? && s.config.encode(DueRequest(s, h)).Some?
    requires begun.log == h.log + [Exchanged(|h.log| / 3 + 1, s.config.encode(DueRequest(s, h)).value)]
    requires begun.attempt.messages == h.attempt.messages && begun.attempt.usage == h.attempt.usage
    requires begun.outcome.Running? && begun.attempt.state == ModelInFlight
    requires begun.attempt.currentTurn == |h.log| / 3 + 1
    requires begun.attempt.pending == None
    ensures ReplyServed(s, h, reply, sent, ReceiveModel(s, begun, reply, sent, cancelled))
  {
    var turn := |h.log| / 3 + 1;
    if reply.Reply? && s.config.parse(reply.body).Some? {
      var r := s.config.parse(reply.body).value;
      assert GoodReply(s, turn, reply, r) <==>
             reply.status == 200 && reply.eventStream && AcceptModel(s.config, begun.attempt, reply.body).1.Some?;
    }
  }

  /** A request for the due turn is exchanged and its reply served; anything else
      fails the session before the provider is asked. */
  ghost predicate ModelRequestServed(s: Settings, h: Host, m: Sse.Members, reply: Reply, sent: bool, h': Host) {
    if AsksForTurn(s, h, m) && DueFits(s, h) then ReplyServed(s, h, reply, sent, h')
    else h'.log == h.log && h'.outcome == Failure
  }

  lemma ModelRequestIsServed(s: Settings, h: Host, m: Sse.Members, input: Input)
    requires ValidSettings(s) && Inv(s, h) && h.outcome.Running? && Says(m, "type", "model_request")
    ensures ModelRequestServed(s, h, m, Exchange(input.tries, 0, s.maxRetries), input.sent, ServeModel(s, h, m, input))
  {
    DueIsBegun(s, h, m);
    var (begun, body) := RequestModel(s, h, m);
    if body.Some? {
      ReplyIsServed(s, h, begun, Exchange(input.tries, 0, s.maxRetries), input.sent, input.cancelled);
    }
  }

  // ---------------------------------------------------------------------
  // Every message of every run
  // ---------------------------------------------------------------------

  /** How any message is served. */
  ghost predicate MessageServed(s: Settings, h: Host, input: Input, h': Host) {
    if input.message.Broken? then h'.log == h.log && h'.outcome == Failure
    else
      var m := input.message.members;
      if Says(m, "type", "model_request")
      then ModelRequestServed(s, h, m, Exchange(input.tries, 0, s.maxRetries), input.sent, h')
      else if Says(m, "type", "tool_call") then ToolCallServed(s, h, m, h')
      else if Says(m, "type", "complete") then CompletionServed(s, h, m, input.closed, h')
      else h'.log == h.log && h'.outcome == Failure
  }

  lemma ServeServes(s: Settings, h: Host, input: Input)
    requires ValidSettings(s) && Inv(s, h) && h.outcome.Running?
    ensures MessageServed(s, h, input, Serve(s, h, input))
  {
    if input.message.Frame? {
      var m := input.message.members;
      SaysMeans(m, "type", "model_request");
      SaysMeans(m, "type", "tool_call");
      SaysMeans(m, "type", "complete");
      if Says(m, "type", "model_request") {
        ModelRequestIsServed(s, h, m, input);
      } else if Says(m, "type", "tool_call") {
        ToolCallIsServed(s, h, m, input);
      } else if Says(m, "type", "complete") {
        CompletionIsServed(s, h, m, input);
      }
    }
  }

  /** In every reachable running host the next message is served as the protocol
      says: a request for the due turn is exchanged and a good reply accepted, a
      repeated call is handled, a repeated submission with a clean end is the
      output, and nothing else gets anywhere. */
  lemma MessagesAreServed(s: Settings, inputs: nat -> Input, n: nat)
    requires Configured(s) && Run(s, inputs, n).outcome.Running?
    ensures MessageServed(s, Run(s, inputs, n), inputs(n), Run(s, inputs, n + 1))
  {
    ConfiguredIsValid(s);
    RunKeepsInv(s, inputs, n);
    ServeServes(s, Run(s, inputs, n), inputs(n));
  }

  /** The result a handler returned for a repeated call, if admitted and fitting, is
      the answer in the transcript of the next turn. */
  lemma ResultsAreKept(s: Settings, inputs: nat -> Input, n: nat, call: Sse.PendingCall, value: Json.Value)
    requires Configured(s) && Sse.Lawful(s.config.env.codec) && s.config.env.limits.maxKeys >= 0
    requires Run(s, inputs, n).outcome.Running? && inputs(n).message.Frame?
    requires RepeatsCall(s, Run(s, inputs, n), inputs(n).message.members, call)
    requires inputs(n).handler == Returned(Some(value)) && Admitted(s.config, value) && inputs(n).sent
    requires AnswerFits(s, Run(s, inputs, n), call, value)
    ensures ResultServed(s, Run(s, inputs, n), call, value, Run(s, inputs, n + 1))
  {
    ConfiguredIsValid(s);
    RunKeepsInv(s, inputs, n);
    var m := inputs(n).message.members;
    SaysMeans(m, "type", "model_request");
    SaysMeans(m, "type", "tool_call");
    ResultIsServed(s, Run(s, inputs, n), m, inputs(n), call, value);
  }

  /** One for which there is no room is cut to the prefix that just fits. */
  lemma LongResultsAreCut(s: Settings, inputs: nat -> Input, n: nat, call: Sse.PendingCall, value: Json.Value)
    returns (k: nat)
    requires Configured(s) && Sse.Lawful(s.config.env.codec) && s.config.env.limits.maxKeys >= 0
    requires Run(s, inputs, n).outcome.Running? && inputs(n).message.Frame?
    requires RepeatsCall(s, Run(s, inputs, n), inputs(n).message.members, call)
    requires inputs(n).handler == Returned(Some(value)) && Admitted(s.config, value) && inputs(n).sent
    requires !AnswerFits(s, Run(s, inputs, n), call, value)
    requires AnswerFits(s, Run(s, inputs, n), call, Envelope(s.config.env.codec.write(value), 0))
    ensures ResultCut(s, Run(s, inputs, n), call, value, k, Run(s, inputs, n + 1))
  {
    ConfiguredIsValid(s);
    RunKeepsInv(s, inputs, n);
    var m := inputs(n).message.members;
    SaysMeans(m, "type", "model_request");
    SaysMeans(m, "type", "tool_call");
    k := LongResultIsCut(s, Run(s, inputs, n), m, inputs(n), call, value);
  }

  // ---------------------------------------------------------------------
  // What was handled or submitted is what the capsule sent
  // ---------------------------------------------------------------------

  lemma WrittenDetermines(codec: Sse.Codec, a: Json.Value, b: Json.Value)
    requires Sse.PrintsWell(codec, a) && Sse.PrintsWell(codec, b) && codec.write(a) == codec.write(b)
    ensures a == b
  {
    assert Json.Tokens(codec.layout(a)) + [] == Json.Tokens(codec.layout(b)) + [];
    Json.TokensAreUnique(codec.layout(a), [], codec.layout(b), []);
  }

  lemma CarriedIsAccepted(s: Settings, h: Host, m: Sse.Members, name: string, call: Sse.PendingCall)
    requires Configured(s) && Inv(s, h) && Sse.Lawful(s.config.env.codec)
    requires Outstanding(h, call) && Carries(s.config, m, name, call.arguments)
    requires Sse.Printable(s.config.env.codec, Sse.At(m, name))
    ensures Sse.At(m, name) == call.arguments
  {
    assert EventAt(s.config, h.log, |h.log| - 1);
    SseFixedPoint.ArgumentsPrintWell(s.config.env, h.log[|h.log| - 1].body);
    assert Sse.PrintLaw(s.config.env.codec, Sse.At(m, name));
    WrittenDetermines(s.config.env.codec, Sse.At(m, name), call.arguments);
  }

  /** A handler runs, and a session is done, only with exactly the name and the
      value that the capsule's own message carried. */
  lemma MessagesAreTakenAtTheirWord(s: Settings, inputs: nat -> Input, n: nat)
    requires Configured(s) && Sse.Lawful(s.config.env.codec)
    requires Run(s, inputs, n).outcome.Running? && inputs(n).message.Frame?
    ensures var h, h', m := Run(s, inputs, n), Run(s, inputs, n + 1), inputs(n).message.members;
            && (Says(m, "type", "tool_call") && Sse.Printable(s.config.env.codec, Sse.At(m, "arguments")) ==>
                  || h'.log == h.log
                  || exists name :: Says(m, "name", name) && h'.log == h.log + [Handled(name, Sse.At(m, "arguments"))])
            && (h'.outcome.Done? && Sse.Printable(s.config.env.codec, Sse.At(m, "output")) ==>
                  h'.outcome.output == Sse.At(m, "output"))
  {
    MessagesAreServed(s, inputs, n);
    ConfiguredIsValid(s);
    RunKeepsInv(s, inputs, n);
    var h, h', m := Run(s, inputs, n), Run(s, inputs, n + 1), inputs(n).message.members;
    if Says(m, "type", "tool_call") && Sse.Printable(s.config.env.codec, Sse.At(m, "arguments")) && h'.log != h.log {
      assert Sse.Quoted("tool_call") != Sse.Quoted("model_request");
      var call :| RepeatsCall(s, h, m, call);
      CarriedIsAccepted(s, h, m, "arguments", call);
      assert Says(m, "name", call.name);
    }
    if h'.outcome.Done? && Sse.Printable(s.config.env.codec, Sse.At(m, "output")) {
      DoneIsRepeated(s, h, inputs(n), h');
      var call :| RepeatsSubmission(s, h, m, call);
      CarriedIsAccepted(s, h, m, "output", call);
    }
  }

  /** Only a repeated submission ends a session well. */
  lemma DoneIsRepeated(s: Settings, h: Host, input: Input, h': Host)
    requires MessageServed(s, h, input, h') && h'.outcome.Done?
    ensures input.message.Frame? && Says(input.message.members, "type", "complete")
    ensures exists call :: RepeatsSubmission(s, h, input.message.members, call)
    ensures forall call :: RepeatsSubmission(s, h, input.message.members, call) ==> h'.outcome == Done(call.arguments)
  {}

  // ---------------------------------------------------------------------
  // Identifiers
  // ---------------------------------------------------------------------

  predicate HasId(input: Input, id: string) {
    input.message.Frame? && Says(input.message.members, "id", id)
  }

  lemma ServedHasNewId(s: Settings, h: Host, input: Input)
    requires Serve(s, h, input).outcome.Running?
    ensures exists id :: HasId(input, id) && id !in h.seen && Serve(s, h, input).seen == h.seen + {id}
  {
    var m := input.message.members;
    var id := UniqueId(m, h.seen).value;
    SaysMeans(m, "id", id);
    assert HasId(input, id);
  }

  lemma DistinctSnoc(ids: seq<string>, id: string)
    requires Distinct(ids) && id !in ids
    ensures Distinct(ids + [id])
  {}

  /** A running host has served messages under pairwise different identifiers, and
      remembers exactly these. */
  lemma {:induction false} IdentifiersAreNeverReused(s: Settings, inputs: nat -> Input, n: nat)
      returns (ids: seq<string>)
    requires Run(s, inputs, n).outcome.Running?
    ensures |ids| == n && Distinct(ids) && forall k :: 0 <= k < n ==> HasId(inputs(k), ids[k])
    ensures forall id :: id in Run(s, inputs, n).seen <==> id in ids
  {
    if n == 0 { return []; }
    var before := IdentifiersAreNeverReused(s, inputs, n - 1);
    var h := Run(s, inputs, n - 1);
    ServedHasNewId(s, h, inputs(n - 1));
    var id :| HasId(inputs(n - 1), id) && id !in h.seen && Serve(s, h, inputs(n - 1)).seen == h.seen + {id};
    DistinctSnoc(before, id);
    ids := before + [id];
  }

  // ---------------------------------------------------------------------
  // The provider exchange
  // ---------------------------------------------------------------------

  /** A try after which the host asks again: a retryable network error, or one of
      the statuses 408, 409, 429 and 500 to 599, and the pause went well. */
  ghost predicate Transient(t: Try) {
    match t
    case NetError(retryable, paused) => retryable && paused
    case Answer(status, _, _, paused) =>
      paused && (status == 408 || status == 409 || status == 429 || (500 <= status && status < 600))
  }

  /** The host gets the first answer that is not transient, if it is among the tries
      that its budget allows. */
  lemma {:induction false} FirstAnswerIsTaken(tries: nat -> Try, from: nat, k: nat, maxRetries: nat)
    requires from <= k <= maxRetries && (forall i: nat :: from <= i < k ==> Transient(tries(i)))
    requires tries(k).Answer? && !Transient(tries(k))
    requires tries(k).status == 200 || tries(k).paused
    ensures Exchange(tries, from, maxRetries) == Reply(tries(k).status, tries(k).eventStream, tries(k).body)
    decreases k - from
  {
    if from < k { FirstAnswerIsTaken(tries, from + 1, k, maxRetries); }
  }
}
