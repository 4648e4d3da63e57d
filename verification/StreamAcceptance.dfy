/** Which provider streams are accepted (internal/capsule/sse.go): a stream that
    answers with a message or with one tool call is, whatever its fragments, and
    what is accepted has that form. */
module StreamAcceptance {
  import opened Text
  import Json
  import opened Sse
  import opened SseTheorems
  import opened SseFixedPoint
  import opened SseFragments
  import opened ChunkReading

  // ---------------------------------------------------------------------
  // The frame of a stream
  // ---------------------------------------------------------------------

  /** A chunk after the finish: usage, and nothing else. */
  predicate OnlyUsage(chunk: Chunk, u: Usage) {
    chunk.usage == Some(u) && (chunk.choice.None? || chunk.choice.value == Choice(Empty, None))
  }

  /** Choices up to the one with the finish reason, and the usage `u` once, in one of
      them or alone behind; `counted` says that it was given before. */
  ghost predicate Framed(chunks: seq<Chunk>, counted: bool, u: Usage, f: Finish)
    decreases |chunks|
  {
    && chunks != [] && chunks[0].choice.Some?
    && (chunks[0].usage.Some? ==> !counted && chunks[0].usage == Some(u))
    && var now := counted || chunks[0].usage.Some?;
       match chunks[0].choice.value.finish
       case None => Framed(chunks[1..], now, u, f)
       case Some(finish) =>
         finish == f && if now then |chunks| == 1 else |chunks| == 2 && OnlyUsage(chunks[1], u)
  }

  ghost predicate NoCalls(chunks: seq<Chunk>) { forall i :: 0 <= i < |chunks| ==> !HasCall(chunks[i]) }

  /** The call fragment of a chunk. */
  function CallIn(chunk: Chunk): CallDelta
    requires HasCall(chunk)
  {
    chunk.choice.value.delta.call.value
  }

  /** No text, and every identifier or name given is this one. */
  ghost predicate OneCall(chunks: seq<Chunk>, id: string, name: string) {
    forall i :: 0 <= i < |chunks| ==> PartOfCall(chunks[i], id, name)
  }

  predicate PartOfCall(chunk: Chunk, id: string, name: string) {
    && !HasText(chunk)
    && (HasCall(chunk) ==>
          && (CallIn(chunk).id.Some? ==> CallIn(chunk).id.value == id)
          && (CallIn(chunk).name.Some? ==> CallIn(chunk).name.value == name))
  }

  /** Some chunk gives the identifier, the name, or arguments. */
  ghost predicate GivesId(chunks: seq<Chunk>) {
    exists i :: 0 <= i < |chunks| && HasCall(chunks[i]) && CallIn(chunks[i]).id.Some?
  }
  ghost predicate GivesName(chunks: seq<Chunk>) {
    exists i :: 0 <= i < |chunks| && HasCall(chunks[i]) && CallIn(chunks[i]).name.Some?
  }
  ghost predicate GivesArguments(chunks: seq<Chunk>) {
    exists i :: 0 <= i < |chunks| && HasCall(chunks[i]) && CallIn(chunks[i]).arguments.Some?
  }

  // ---------------------------------------------------------------------
  // Messages
  // ---------------------------------------------------------------------

  lemma NoCallsTail(chunks: seq<Chunk>)
    requires chunks != [] && NoCalls(chunks)
    ensures !HasCall(chunks[0]) && NoCalls(chunks[1..])
  {
    forall i | 0 <= i < |chunks[1..]| ensures !HasCall(chunks[1..][i]) { assert chunks[1..][i] == chunks[i + 1]; }
  }

  lemma FoldTwo(chunks: seq<Chunk>, acc: Accum)
    requires |chunks| == 2 && Absorb(acc, chunks[0]).Some?
    ensures Fold(chunks, acc) == Absorb(Absorb(acc, chunks[0]).value, chunks[1])
  {
    var rest, next := chunks[1..], Absorb(acc, chunks[0]).value;
    assert rest == [chunks[1]] && rest[1..] == [];
    assert Fold(rest, next) == match Absorb(next, rest[0]) case None => None case Some(r) => Fold(rest[1..], r);
  }

  lemma {:induction false} MessageFolds(chunks: seq<Chunk>, acc: Accum, u: Usage, f: Finish)
    requires Framed(chunks, acc.usage.Some?, u, f) && NoCalls(chunks)
    requires acc.finish == None && !acc.sawTool && (acc.usage.Some? ==> acc.usage == Some(u))
    ensures Fold(chunks, acc).Some?
    ensures var r := Fold(chunks, acc).value; r.finish == Some(f) && r.usage == Some(u) && !r.sawTool
    decreases |chunks|
  {
    NoCallsTail(chunks);
    var next := Absorb(acc, chunks[0]).value;
    if chunks[0].choice.value.finish.None? {
      MessageFolds(chunks[1..], next, u, f);
    } else if |chunks| == 2 {
      FoldTwo(chunks, acc);
    }
  }

  /** Every framed stream of text and reasoning that ends with `stop` is accepted, if
      its normal form is within the size limit: as the message that its fragments
      make, with the usage it reports. */
  lemma MessagesAreAccepted(env: Env, chunks: seq<Chunk>, u: Usage)
    requires Framed(chunks, false, u, Stop) && NoCalls(chunks)
    ensures var all := AllParts(chunks);
            var reply := Reply(all.content, all.reasoning);
            Accept(env, chunks) ==
            if ByteLen(Normalize(env, reply, u)) <= env.limits.maxBytes
            then Some(Accepted(Normalize(env, reply, u), reply, None, u)) else None
  {
    MessageFolds(chunks, EMPTY, u, Stop);
    FoldAppends(chunks, EMPTY);
    AppendNothing(AllParts(chunks));
  }

  // ---------------------------------------------------------------------
  // Tool calls
  // ---------------------------------------------------------------------

  /** What an accumulator holds of the call `id`, `name`. */
  ghost predicate Holding(acc: Accum, id: string, name: string) {
    && acc.content == "" && (acc.callId == "" || acc.callId == id) && (acc.callName == "" || acc.callName == name)
  }

  lemma CallTail(chunks: seq<Chunk>, id: string, name: string)
    requires chunks != [] && OneCall(chunks, id, name)
    ensures PartOfCall(chunks[0], id, name) && OneCall(chunks[1..], id, name)
    ensures GivesId(chunks) <==> GivesId(chunks[1..]) || (HasCall(chunks[0]) && CallIn(chunks[0]).id.Some?)
    ensures GivesName(chunks) <==> GivesName(chunks[1..]) || (HasCall(chunks[0]) && CallIn(chunks[0]).name.Some?)
    ensures GivesArguments(chunks) <==>
            GivesArguments(chunks[1..]) || (HasCall(chunks[0]) && CallIn(chunks[0]).arguments.Some?)
  {
    assert forall i :: 0 <= i < |chunks[1..]| ==> chunks[1..][i] == chunks[i + 1];
    assert forall i :: 0 < i < |chunks| ==> chunks[i] == chunks[1..][i - 1];
  }

  /** What a part of the call adds to an accumulator. */
  ghost predicate Grown(acc: Accum, chunk: Chunk, id: string, name: string, r: Accum) {
    && Holding(r, id, name)
    && (r.sawTool <==> acc.sawTool || HasCall(chunk))
    && (r.callId == if HasCall(chunk) && CallIn(chunk).id.Some? then id else acc.callId)
    && (r.callName == if HasCall(chunk) && CallIn(chunk).name.Some? then name else acc.callName)
    && (r.arguments.Some? <==> acc.arguments.Some? || (HasCall(chunk) && CallIn(chunk).arguments.Some?))
  }

  lemma CallIsAbsorbed(acc: Accum, chunk: Chunk, id: string, name: string)
    requires Holding(acc, id, name) && PartOfCall(chunk, id, name) && HasCall(chunk)
    ensures AbsorbCall(acc, CallIn(chunk)).Some?
    ensures var r := AbsorbCall(acc, CallIn(chunk)).value;
            Grown(acc, chunk, id, name, r) && r.usage == acc.usage && r.finish == acc.finish
  {}

  lemma DeltaIsAbsorbed(acc: Accum, chunk: Chunk, id: string, name: string)
    requires Holding(acc, id, name) && PartOfCall(chunk, id, name) && chunk.choice.Some?
    ensures AbsorbDelta(acc, chunk.choice.value.delta).Some?
    ensures var r := AbsorbDelta(acc, chunk.choice.value.delta).value;
            Grown(acc, chunk, id, name, r) && r.usage == acc.usage && r.finish == acc.finish
  {
    assert acc.content + "" == "";
    var delta := chunk.choice.value.delta;
    if HasCall(chunk) {
      var with := acc.(reasoning := if delta.reasoning.Some? then acc.reasoning + delta.reasoning.value
                       else acc.reasoning);
      CallIsAbsorbed(with, chunk, id, name);
    }
  }

  /** One chunk with a part of the call, the finish not yet seen. */
  lemma PartIsAbsorbed(acc: Accum, chunk: Chunk, id: string, name: string)
    requires Holding(acc, id, name) && PartOfCall(chunk, id, name) && chunk.choice.Some? && acc.finish.None?
    requires chunk.usage.Some? ==> acc.usage.None?
    ensures Absorb(acc, chunk).Some?
    ensures var r := Absorb(acc, chunk).value;
            && Grown(acc, chunk, id, name, r) && r.finish == chunk.choice.value.finish
            && r.usage == (if chunk.usage.Some? then chunk.usage else acc.usage)
  {
    DeltaIsAbsorbed(if chunk.usage.Some? then acc.(usage := chunk.usage) else acc, chunk, id, name);
  }

  /** What folding the rest of a call's stream leads to. */
  ghost predicate CallFolded(chunks: seq<Chunk>, acc: Accum, id: string, name: string, u: Usage, f: Finish) {
    Fold(chunks, acc).Some? &&
    var r := Fold(chunks, acc).value;
    && r.finish == Some(f) && r.usage == Some(u)
    && (r.sawTool <==> acc.sawTool || exists i :: 0 <= i < |chunks| && HasCall(chunks[i]))
    && r.callId == (if GivesId(chunks) then id else acc.callId)
    && r.callName == (if GivesName(chunks) then name else acc.callName)
    && (r.arguments.Some? <==> acc.arguments.Some? || GivesArguments(chunks))
  }

  lemma SomeCallTail(chunks: seq<Chunk>)
    requires chunks != []
    ensures (exists i :: 0 <= i < |chunks| && HasCall(chunks[i])) <==>
            HasCall(chunks[0]) || exists i :: 0 <= i < |chunks[1..]| && HasCall(chunks[1..][i])
  {
    assert forall i :: 0 <= i < |chunks[1..]| ==> chunks[1..][i] == chunks[i + 1];
    assert forall i :: 0 < i < |chunks| ==> chunks[i] == chunks[1..][i - 1];
  }

  /** Nothing more of the call comes after the finish. */
  lemma UsageEnds(chunks: seq<Chunk>, acc: Accum, u: Usage)
    requires acc.finish.Some? && if acc.usage.Some? then chunks == [] else |chunks| == 1 && OnlyUsage(chunks[0], u)
    ensures Fold(chunks, acc) == Some(if acc.usage.Some? then acc else acc.(usage := Some(u)))
    ensures forall i :: 0 <= i < |chunks| ==> !HasCall(chunks[i])
  {
    if chunks != [] { assert chunks[1..] == []; }
  }

  lemma {:induction false} CallFolds(chunks: seq<Chunk>, acc: Accum, id: string, name: string, u: Usage, f: Finish)
    requires Framed(chunks, acc.usage.Some?, u, f) && OneCall(chunks, id, name) && Holding(acc, id, name)
    requires acc.finish == None && (acc.usage.Some? ==> acc.usage == Some(u))
    ensures CallFolded(chunks, acc, id, name, u, f)
    decreases |chunks|
  {
    CallTail(chunks, id, name);
    SomeCallTail(chunks);
    PartIsAbsorbed(acc, chunks[0], id, name);
    var next := Absorb(acc, chunks[0]).value;
    if chunks[0].choice.value.finish.None? {
      CallFolds(chunks[1..], next, id, name, u, f);
    } else {
      UsageEnds(chunks[1..], next, u);
    }
  }

  /** The arguments that the fragments make together, decoded. */
  function JoinedArguments(env: Env, chunks: seq<Chunk>): Option<Json.Value> {
    match Json.ParseStrict(env.codec.lex(AllParts(chunks).arguments), env.limits.Complexity())
    case None => None
    case Some((arguments, _)) => Some(arguments)
  }

  lemma NamedMeansCalled(chunks: seq<Chunk>)
    requires GivesName(chunks)
    ensures exists i :: 0 <= i < |chunks| && HasCall(chunks[i])
  {}

  lemma CallFinalizes(env: Env, acc: Accum, id: string, name: string, arguments: Json.Value, u: Usage)
    requires acc.usage == Some(u) && acc.finish == Some(ToolCalls) && acc.sawTool && acc.arguments.Some?
    requires acc.callId == id && acc.callName == name && name != "" && name in env.validators
    requires Json.ParseStrict(env.codec.lex(acc.arguments.value), env.limits.Complexity()).Some?
    requires Json.ParseStrict(env.codec.lex(acc.arguments.value), env.limits.Complexity()).value.0 == arguments
    requires arguments.Obj? && env.validators[name](arguments)
    ensures var call := ToolUse(id, name, env.codec.write(arguments), acc.reasoning);
            Finalize(env, acc) ==
            if ByteLen(Normalize(env, call, u)) <= env.limits.maxBytes
            then Some(Accepted(Normalize(env, call, u), call, Some(PendingCall(id, name, arguments)), u)) else None
  {}

  /** Every framed stream of one call that ends with `tool_calls` is accepted, if the
      call names a granted tool, its arguments decode to an object that the tool's
      schema admits, and its normal form is within the size limit: as that call,
      under the identifier given, if any. */
  lemma CallsAreAccepted(env: Env, chunks: seq<Chunk>, id: string, name: string, arguments: Json.Value, u: Usage)
    requires Framed(chunks, false, u, ToolCalls) && OneCall(chunks, id, name)
    requires GivesName(chunks) && GivesArguments(chunks) && (GivesId(chunks) || id == "")
    requires name != "" && name in env.validators
    requires JoinedArguments(env, chunks) == Some(arguments) && arguments.Obj? && env.validators[name](arguments)
    ensures var call := ToolUse(id, name, env.codec.write(arguments), AllParts(chunks).reasoning);
            Accept(env, chunks) ==
            if ByteLen(Normalize(env, call, u)) <= env.limits.maxBytes
            then Some(Accepted(Normalize(env, call, u), call, Some(PendingCall(id, name, arguments)), u)) else None
  {
    CallFolds(chunks, EMPTY, id, name, u, ToolCalls);
    NamedMeansCalled(chunks);
    FoldAppends(chunks, EMPTY);
    AppendNothing(AllParts(chunks));
    CallFinalizes(env, Fold(chunks, EMPTY).value, id, name, arguments, u);
  }

  // ---------------------------------------------------------------------
  // Nothing else is accepted
  // ---------------------------------------------------------------------

  lemma {:induction false} FoldedIsFramed(chunks: seq<Chunk>, acc: Accum)
    requires acc.finish.None? && Fold(chunks, acc).Some?
    requires Fold(chunks, acc).value.finish.Some? && Fold(chunks, acc).value.usage.Some?
    ensures var r := Fold(chunks, acc).value; Framed(chunks, acc.usage.Some?, r.usage.value, r.finish.value)
    decreases |chunks|
  {
    var next := Absorb(acc, chunks[0]).value;
    if next.finish.None? {
      if next.usage.Some? { UsageStays(chunks[1..], next); }
      FoldedIsFramed(chunks[1..], next);
    } else {
      AfterFinish(chunks[1..], next);
      if next.usage.Some? { UsageStays(chunks[1..], next); }
      FoldCountsAfter(chunks[1..], next);
      if next.usage.None? { FoldTwo(chunks, acc); }
    }
  }

  lemma {:induction false} UsageStays(chunks: seq<Chunk>, acc: Accum)
    requires Fold(chunks, acc).Some? && acc.usage.Some?
    ensures Fold(chunks, acc).value.usage == acc.usage
  {
    if chunks != [] { UsageStays(chunks[1..], Absorb(acc, chunks[0]).value); }
  }

  /** Every accepted stream is framed, ends with `stop` for a message and with
      `tool_calls` for a call, and reports the usage that was taken. */
  lemma AcceptedIsFramed(env: Env, chunks: seq<Chunk>)
    requires Accept(env, chunks).Some?
    ensures var a := Accept(env, chunks).value;
            Framed(chunks, false, a.usage, if a.pending.Some? then ToolCalls else Stop)
  {
    FoldedIsFramed(chunks, EMPTY);
  }

  /** Identifiers and names, where given, are not empty. */
  predicate Named(chunk: Chunk) {
    HasCall(chunk) ==> CallIn(chunk).id != Some("") && CallIn(chunk).name != Some("")
  }

  predicate Agrees(chunk: Chunk, id: string, name: string) {
    HasCall(chunk) ==>
      && (CallIn(chunk).id.Some? ==> CallIn(chunk).id.value == id)
      && (CallIn(chunk).name.Some? ==> CallIn(chunk).name.value == name)
  }

  /** How one step treats identifier and name. */
  ghost predicate Steady(acc: Accum, chunk: Chunk, r: Accum) {
    && (acc.callId != "" ==> r.callId == acc.callId) && (acc.callName != "" ==> r.callName == acc.callName)
    && Agrees(chunk, r.callId, r.callName)
  }

  lemma CallIsSteady(acc: Accum, chunk: Chunk)
    requires HasCall(chunk) && AbsorbCall(acc, CallIn(chunk)).Some? && Named(chunk)
    ensures Steady(acc, chunk, AbsorbCall(acc, CallIn(chunk)).value)
  {}

  lemma DeltaIsSteady(acc: Accum, chunk: Chunk)
    requires chunk.choice.Some? && AbsorbDelta(acc, chunk.choice.value.delta).Some? && Named(chunk)
    ensures Steady(acc, chunk, AbsorbDelta(acc, chunk.choice.value.delta).value)
  {
    var delta := chunk.choice.value.delta;
    if HasCall(chunk) {
      var with := acc.(
        reasoning := if delta.reasoning.Some? then acc.reasoning + delta.reasoning.value else acc.reasoning,
        content := if delta.content.Some? then acc.content + delta.content.value else acc.content);
      CallIsSteady(with, chunk);
    }
  }

  lemma AbsorbedAgrees(acc: Accum, chunk: Chunk)
    requires Absorb(acc, chunk).Some? && Named(chunk)
    ensures Steady(acc, chunk, Absorb(acc, chunk).value)
  {
    if acc.finish.None? && chunk.choice.Some? {
      DeltaIsSteady(if chunk.usage.Some? then acc.(usage := chunk.usage) else acc, chunk);
    }
  }

  lemma {:induction false} FoldedAgrees(chunks: seq<Chunk>, acc: Accum)
    requires Fold(chunks, acc).Some? && forall i :: 0 <= i < |chunks| ==> Named(chunks[i])
    ensures var r := Fold(chunks, acc).value;
            && (acc.callId != "" ==> r.callId == acc.callId) && (acc.callName != "" ==> r.callName == acc.callName)
            && forall i :: 0 <= i < |chunks| ==> Agrees(chunks[i], r.callId, r.callName)
  {
    if chunks != [] {
      AbsorbedAgrees(acc, chunks[0]);
      assert forall i :: 0 <= i < |chunks[1..]| ==> chunks[1..][i] == chunks[i + 1];
      FoldedAgrees(chunks[1..], Absorb(acc, chunks[0]).value);
      var r := Fold(chunks, acc).value;
      forall i | 0 <= i < |chunks| ensures Agrees(chunks[i], r.callId, r.callName) {
        if i > 0 { assert chunks[i] == chunks[1..][i - 1]; }
      }
    }
  }

  /** An accepted call is one call: no fragment gives another identifier or name. */
  lemma AcceptedIsOneCall(env: Env, chunks: seq<Chunk>)
    requires Accept(env, chunks).Some? && Accept(env, chunks).value.pending.Some?
    requires forall i :: 0 <= i < |chunks| ==> Named(chunks[i])
    ensures var call := Accept(env, chunks).value.pending.value; OneCall(chunks, call.callId, call.name)
  {
    FoldedAgrees(chunks, EMPTY);
    AcceptedShape(env, chunks);
    var call := Accept(env, chunks).value.pending.value;
    forall i | 0 <= i < |chunks| ensures PartOfCall(chunks[i], call.callId, call.name) {
      assert Agrees(chunks[i], call.callId, call.name);
    }
  }

  // ---------------------------------------------------------------------
  // From chunks to bodies
  // ---------------------------------------------------------------------

  /** One-line events that decode to these chunks. */
  ghost predicate Decode(env: Env, events: seq<string>, chunks: seq<Chunk>) {
    AllClean(events) && Reads(ChunkReader(env), events, chunks)
  }

  ghost predicate Reads(chunkOf: string -> Option<Chunk>, events: seq<string>, chunks: seq<Chunk>) {
    |events| == |chunks| && forall i :: 0 <= i < |events| ==> chunkOf(events[i]) == Some(chunks[i])
  }

  predicate Terminator(env: Env, event: string) {
    (event == "data: [DONE]" || event == "data:[DONE]") && ByteLen(event) <= env.limits.maxLineBytes
  }

  lemma DataAfter(env: Env, event: string, data: string)
    requires '\n' !in event && ByteLen(event) <= env.limits.maxLineBytes
    requires |event| >= 5 && event[..5] == "data:" && event[5..] == data
    ensures EventData(env, event) == Some(if data != "" && data[0] == ' ' then data[1..] else data)
  {}

  lemma CleanTerminators()
    ensures Clean("data: [DONE]") && Clean("data:[DONE]")
  {}

  lemma TerminatorTexts()
    ensures "data: [DONE]"[..5] == "data:" && "data: [DONE]"[5..] == " [DONE]" && " [DONE]"[1..] == "[DONE]"
    ensures "data:[DONE]"[..5] == "data:" && "data:[DONE]"[5..] == "[DONE]"
  {}

  lemma DoneData(env: Env, event: string)
    requires Terminator(env, event)
    ensures Clean(event) && EventData(env, event) == Some("[DONE]")
  {
    CleanTerminators();
    TerminatorTexts();
    if event == "data: [DONE]" {
      DataAfter(env, event, " [DONE]");
    } else {
      DataAfter(env, event, "[DONE]");
    }
  }

  lemma DoneEnds(env: Env, event: string, keys: nat)
    requires EventData(env, event) == Some("[DONE]")
    ensures Decoding(env)([event], keys) == Some([])
  {}

  lemma TerminatorEnds(env: Env, event: string)
    requires Terminator(env, event)
    ensures Clean(event) && forall keys: nat :: Decoding(env)([event], keys) == Some([])
  {
    DoneData(env, event);
    forall keys: nat ensures Decoding(env)([event], keys) == Some([]) { DoneEnds(env, event, keys); }
  }

  /** Over any decoder that goes event by event. */
  lemma {:induction false} EventsDecode(decode: Decoder, chunkOf: string -> Option<Chunk>, keysOf: Counter, max: int,
                                        events: seq<string>, chunks: seq<Chunk>, end: string, keys: nat)
    requires SseFragments.Steps(decode, chunkOf, keysOf, max) && Reads(chunkOf, events, chunks)
    requires forall k: nat :: decode([end], k) == Some([])
    requires keys + Sum(events, keysOf) <= max
    ensures decode(events + [end], keys) == Some(chunks)
  {
    if events == [] {
      assert events + [end] == [end];
    } else {
      var event, rest := events[0], events[1..];
      assert events + [end] == [event] + (rest + [end]);
      assert Reads(chunkOf, rest, chunks[1..]) by {
        assert forall i :: 0 <= i < |rest| ==> rest[i] == events[i + 1] && chunks[1..][i] == chunks[i + 1];
      }
      EventsDecode(decode, chunkOf, keysOf, max, rest, chunks[1..], end, keys + keysOf(event));
      assert chunks == [chunks[0]] + chunks[1..];
    }
  }

  lemma DecodedIsAccepted(env: Env, body: Body, events: seq<string>, chunks: seq<Chunk>)
    requires Events(env, body) == Some(events) && Decoding(env)(events, 0) == Some(chunks)
    ensures Parse(env, body) == Accept(env, chunks)
  {}

  /** A body of events that decode to chunks, ended by the terminator and within the
      limits, is accepted or refused as its chunks are. */
  lemma BodiesAreTheirChunks(env: Env, events: seq<string>, chunks: seq<Chunk>, end: string)
    requires Decode(env, events, chunks) && Terminator(env, end)
    requires ByteLen(SseFragments.TextOf(events + [end])) <= env.limits.maxBytes && |events| < env.limits.maxEvents
    requires Sum(events, KeyCounter(env)) <= env.limits.maxKeys
    ensures Parse(env, Utf8(SseFragments.TextOf(events + [end]))) == Accept(env, chunks)
  {
    TerminatorEnds(env, end);
    SseFragments.DecodingSteps(env);
    EventsDecode(Decoding(env), ChunkReader(env), KeyCounter(env), env.limits.maxKeys, events, chunks, end, 0);
    CleanMore(events, end);
    TextEvents(env, events + [end]);
    DecodedIsAccepted(env, Utf8(SseFragments.TextOf(events + [end])), events + [end], chunks);
  }

  lemma CleanMore(events: seq<string>, end: string)
    requires AllClean(events) && Clean(end)
    ensures AllClean(events + [end])
  {}

  /** The event that a provider writes for a chunk decodes to it. */
  lemma WrittenEventsDecode(env: Env, c: Chunk, manner: Manner)
    requires Lawful(env.codec) && env.limits.maxKeys >= 0 && manner.free.Keys <= FREE_NAMES
    requires ChunkReading.GoodChunk(c, manner)
    requires var v := ChunkText(c, env.modelId, manner);
             && Printable(env.codec, v) && Json.WithinLimits(env.codec.layout(v), env.limits.Complexity())
             && ByteLen("data: " + env.codec.write(v)) <= env.limits.maxLineBytes
    ensures var event := "data: " + env.codec.write(ChunkText(c, env.modelId, manner));
            Clean(event) && ChunkReader(env)(event) == Some(c)
  {
    var v := ChunkText(c, env.modelId, manner);
    assert PrintLaw(env.codec, v);
    PrintedEvent(env, v);
    ReaderReads(env, Line(env, v));
    WrittenChunksAreRead(c, env.modelId, manner);
  }

  // ---------------------------------------------------------------------
  // What is accepted keeps the limits
  // ---------------------------------------------------------------------

  lemma {:induction false} MembersAreCounted(decode: Decoder, chunkOf: string -> Option<Chunk>, keysOf: Counter,
                                             max: int,
                                             events: seq<string>, last: string, keys: nat)
    requires SseFragments.Steps(decode, chunkOf, keysOf, max) && decode(events + [last], keys).Some? && keys <= max
    ensures keys + Sum(events, keysOf) <= max
    decreases |events|
  {
    if events != [] {
      var event, rest := events[0], events[1..];
      assert events + [last] == [event] + (rest + [last]);
      MembersAreCounted(decode, chunkOf, keysOf, max, rest, last, keys + keysOf(event));
    }
  }

  /** An event that is not good ends the decoding. */
  ghost predicate RefusesBad(decode: Decoder, good: string -> bool) {
    forall event, rest: seq<string>, keys: nat {:trigger decode([event] + rest, keys)} ::
      !good(event) ==> decode([event] + rest, keys) == None
  }

  lemma {:induction false} EventsAreGood(decode: Decoder, chunkOf: string -> Option<Chunk>, keysOf: Counter, max: int,
                                         good: string -> bool, events: seq<string>, keys: nat, i: nat)
    requires SseFragments.Steps(decode, chunkOf, keysOf, max) && RefusesBad(decode, good)
    requires decode(events, keys).Some? && i < |events|
    ensures good(events[i])
    decreases i
  {
    var event, rest := events[0], events[1..];
    assert events == [event] + rest;
    if i > 0 { EventsAreGood(decode, chunkOf, keysOf, max, good, rest, keys + keysOf(event), i - 1); }
  }

  function ShortLine(env: Env): string -> bool { event => ByteLen(event) <= env.limits.maxLineBytes }

  lemma LongLineRefused(env: Env, event: string, rest: seq<string>, keys: nat)
    requires ByteLen(event) > env.limits.maxLineBytes
    ensures Decoding(env)([event] + rest, keys) == None
  {
    ChunksRefuse(env, event, rest, keys);
  }

  lemma LinesAreShort(env: Env, events: seq<string>)
    requires Decoding(env)(events, 0).Some?
    ensures forall i :: 0 <= i < |events| ==> ByteLen(events[i]) <= env.limits.maxLineBytes
  {
    SseFragments.DecodingSteps(env);
    forall event, rest: seq<string>, keys: nat | !ShortLine(env)(event)
      ensures Decoding(env)([event] + rest, keys) == None
    {
      LongLineRefused(env, event, rest, keys);
    }
    forall i | 0 <= i < |events| ensures ByteLen(events[i]) <= env.limits.maxLineBytes {
      EventsAreGood(Decoding(env), ChunkReader(env), KeyCounter(env), env.limits.maxKeys, ShortLine(env), events, 0, i);
    }
  }

  lemma MembersFit(env: Env, events: seq<string>, last: string)
    requires Decoding(env)(events + [last], 0).Some? && env.limits.maxKeys >= 0
    ensures Sum(events, KeyCounter(env)) <= env.limits.maxKeys
  {
    SseFragments.DecodingSteps(env);
    MembersAreCounted(Decoding(env), ChunkReader(env), KeyCounter(env), env.limits.maxKeys, events, last, 0);
  }

  lemma SplitFits(env: Env, events: seq<string>)
    requires AllClean(events) && events != [] && Events(env, Utf8(SseFragments.TextOf(events))) == Some(events)
    ensures ByteLen(SseFragments.TextOf(events)) <= env.limits.maxBytes && |events| <= env.limits.maxEvents
  {
    TextEvents(env, events);
  }

  lemma DecodedFits(env: Env, events: seq<string>, last: string)
    requires Decoding(env)(events + [last], 0).Some? && env.limits.maxKeys >= 0
    ensures forall i :: 0 <= i < |events| ==> ByteLen((events + [last])[i]) <= env.limits.maxLineBytes
    ensures Sum(events, KeyCounter(env)) <= env.limits.maxKeys
  {
    LinesAreShort(env, events + [last]);
    MembersFit(env, events, last);
  }

  /** An accepted body is within the limits on bytes, events, bytes a line and members
      in all. */
  lemma AcceptedKeepsLimits(env: Env, events: seq<string>, last: string)
    requires AllClean(events) && Clean(last) && Parse(env, Utf8(SseFragments.TextOf(events + [last]))).Some?
    ensures ByteLen(SseFragments.TextOf(events + [last])) <= env.limits.maxBytes && |events| < env.limits.maxEvents
    ensures forall i :: 0 <= i < |events| ==> ByteLen((events + [last])[i]) <= env.limits.maxLineBytes
    ensures Sum(events, KeyCounter(env)) <= env.limits.maxKeys
  {
    CleanMore(events, last);
    ParsedEvents(env, events + [last]);
    SplitFits(env, events + [last]);
    ParsedDecodes(env, events + [last]);
    DecodedFits(env, events, last);
  }

  // ---------------------------------------------------------------------
  // Line ends and the space after the colon
  // ---------------------------------------------------------------------

  /** The text with every line end written as `\r\n`, or as `\r`. */
  function Ended(s: string, end: string): string {
    if s == "" then "" else (if s[0] == '\n' then end else [s[0]]) + Ended(s[1..], end)
  }

  lemma {:induction false} EndsAreUnified(s: string, end: string)
    requires '\r' !in s && (end == "\r\n" || end == "\r")
    ensures UnixLines(Ended(s, end)) == s
    ensures Ended(s, end) != "" ==> Ended(s, end)[0] != '\n'
  {
    if s != "" {
      var rest := Ended(s[1..], end);
      EndsAreUnified(s[1..], end);
      var text := Ended(s, end);
      if s[0] == '\n' {
        if end == "\r\n" { assert text[2..] == rest; } else { assert text[1..] == rest; }
      } else {
        assert text[1..] == rest;
      }
      assert s == [s[0]] + s[1..];
    }
  }

  /** A body may end its lines in either of the other two ways. */
  lemma LineEndsDoNotMatter(env: Env, text: string, end: string)
    requires '\r' !in text && (end == "\r\n" || end == "\r")
    requires ByteLen(text) <= env.limits.maxBytes && ByteLen(Ended(text, end)) <= env.limits.maxBytes
    ensures Parse(env, Utf8(Ended(text, end))) == Parse(env, Utf8(text))
  {
    EndsAreUnified(text, end);
    UnixLinesId(text);
    SameLines(env, Ended(text, end), text);
  }

  lemma SameLines(env: Env, a: string, b: string)
    requires UnixLines(a) == UnixLines(b) && (a == "" <==> b == "")
    requires ByteLen(a) <= env.limits.maxBytes && ByteLen(b) <= env.limits.maxBytes
    ensures Parse(env, Utf8(a)) == Parse(env, Utf8(b))
  {
    SameEvents(env, a, b);
    EqualEvents(env, Utf8(a), Utf8(b));
  }

  lemma SameEvents(env: Env, a: string, b: string)
    requires UnixLines(a) == UnixLines(b) && (a == "" <==> b == "")
    requires ByteLen(a) <= env.limits.maxBytes && ByteLen(b) <= env.limits.maxBytes
    ensures Events(env, Utf8(a)) == Events(env, Utf8(b))
  {}

  /** One space after `data:` is optional. */
  lemma SpaceDoesNotMatter(env: Env, data: string)
    requires '\n' !in data && (data == "" || data[0] != ' ')
    requires ByteLen("data: " + data) <= env.limits.maxLineBytes && ByteLen("data:" + data) <= env.limits.maxLineBytes
    ensures EventData(env, "data: " + data) == EventData(env, "data:" + data) == Some(data)
  {
    assert ("data: " + data)[5..] == " " + data && (" " + data)[1..] == data;
    assert ("data:" + data)[5..] == data;
    DataAfter(env, "data: " + data, " " + data);
    DataAfter(env, "data:" + data, data);
  }

  // ---------------------------------------------------------------------
  // Blank lines between events
  // ---------------------------------------------------------------------

  /** `n` more blank lines, two line ends each. */
  function Gap(n: nat): string { if n == 0 then "" else "\n\n" + Gap(n - 1) }

  /** The events with more than one blank line between them, but without the last. */
  function Loose(events: seq<string>, gaps: seq<nat>): string
    requires |gaps| == |events|
  {
    if events == [] then ""
    else if |events| == 1 then events[0] + Gap(gaps[0])
    else events[0] + "\n\n" + Gap(gaps[0]) + Loose(events[1..], gaps[1..])
  }

  lemma {:induction false} GapSplits(n: nat, rest: string)
    ensures NonEmpty(SplitBlank(Gap(n) + rest)) == NonEmpty(SplitBlank(rest))
    decreases n
  {
    if n == 0 {
      assert Gap(n) + rest == rest;
    } else {
      var text := Gap(n) + rest;
      assert text[2..] == Gap(n - 1) + rest;
      GapSplits(n - 1, rest);
      assert ([""] + SplitBlank(text[2..]))[1..] == SplitBlank(text[2..]);
    }
  }

  lemma LineThenGap(line: string, n: nat, rest: string)
    requires Clean(line)
    ensures NonEmpty(SplitBlank(line + ("\n\n" + (Gap(n) + rest)))) == [line] + NonEmpty(SplitBlank(rest))
  {
    SplitFirst(line, Gap(n) + rest);
    GapSplits(n, rest);
    assert ([line] + SplitBlank(Gap(n) + rest))[1..] == SplitBlank(Gap(n) + rest);
  }

  lemma EmptySplits()
    ensures NonEmpty(SplitBlank("")) == []
  {
    assert SplitBlank("") == [""];
    assert [""][1..] == [];
  }

  lemma OneMoreGap(line: string, n: nat)
    ensures line + Gap(n + 1) == line + ("\n\n" + (Gap(n) + ""))
  {}

  lemma OnlyLine(line: string)
    requires Clean(line)
    ensures NonEmpty(SplitBlank(line)) == [line]
  {
    SplitLastLine(line);
    assert [line][1..] == [];
  }

  lemma LineThenNothing(line: string, n: nat)
    requires Clean(line)
    ensures NonEmpty(SplitBlank(line + ("\n\n" + (Gap(n) + "")))) == [line]
  {
    LineThenGap(line, n, "");
    EmptySplits();
    assert [line] + [] == [line];
  }

  lemma NoGap(line: string)
    ensures line + Gap(0) == line
  {}

  lemma LastThenGap(line: string, n: nat)
    requires Clean(line)
    ensures NonEmpty(SplitBlank(line + Gap(n))) == [line]
  {
    if n == 0 {
      NoGap(line);
      OnlyLine(line);
    } else {
      OneMoreGap(line, n - 1);
      LineThenNothing(line, n - 1);
    }
  }

  lemma LooseOne(events: seq<string>, gaps: seq<nat>)
    requires |events| == |gaps| == 1
    ensures Loose(events, gaps) == events[0] + Gap(gaps[0])
  {}

  lemma LooseMore(events: seq<string>, gaps: seq<nat>)
    requires |events| == |gaps| > 1
    ensures Loose(events, gaps) == events[0] + ("\n\n" + (Gap(gaps[0]) + Loose(events[1..], gaps[1..])))
  {}

  lemma LooseStep(line: string, gap: nat, rest: string, text: string, events: seq<string>)
    requires Clean(line) && text == line + ("\n\n" + (Gap(gap) + rest)) && NonEmpty(SplitBlank(rest)) == events
    ensures NonEmpty(SplitBlank(text)) == [line] + events
  {
    LineThenGap(line, gap, rest);
  }

  lemma {:induction false} LooseSplits(events: seq<string>, gaps: seq<nat>)
    requires AllClean(events) && events != [] && |gaps| == |events|
    ensures NonEmpty(SplitBlank(Loose(events, gaps))) == events
  {
    CleanTail(events);
    if |events| == 1 {
      LooseOne(events, gaps);
      LastThenGap(events[0], gaps[0]);
    } else {
      LooseMore(events, gaps);
      LooseSplits(events[1..], gaps[1..]);
      LooseStep(events[0], gaps[0], Loose(events[1..], gaps[1..]), Loose(events, gaps), events[1..]);
      assert events == [events[0]] + events[1..];
    }
  }

  lemma {:induction false} LooseIsPlain(events: seq<string>, gaps: seq<nat>)
    requires AllClean(events) && |gaps| == |events|
    ensures '\r' !in Loose(events, gaps)
  {
    if events != [] {
      CleanTail(events);
      GapIsPlain(gaps[0]);
      LooseIsPlain(events[1..], gaps[1..]);
    }
  }

  lemma {:induction false} GapIsPlain(n: nat)
    ensures '\r' !in Gap(n)
  {
    if n > 0 { GapIsPlain(n - 1); }
  }

  /** Blank lines beyond the one that ends an event do not matter. */
  lemma BlankLinesDoNotMatter(env: Env, events: seq<string>, gaps: seq<nat>)
    requires AllClean(events) && events != [] && |gaps| == |events|
    requires ByteLen(SseFragments.TextOf(events)) <= env.limits.maxBytes
    requires ByteLen(Loose(events, gaps) + "\n\n") <= env.limits.maxBytes
    ensures Parse(env, Utf8(Loose(events, gaps) + "\n\n")) == Parse(env, Utf8(SseFragments.TextOf(events)))
  {
    LooseIsPlain(events, gaps);
    LooseSplits(events, gaps);
    UnixLinesId(Loose(events, gaps) + "\n\n");
    TextEvents(env, events);
    SplitEvents(env, Loose(events, gaps), events);
    EqualEvents(env, Utf8(Loose(events, gaps) + "\n\n"), Utf8(SseFragments.TextOf(events)));
  }

  lemma SplitEvents(env: Env, text: string, events: seq<string>)
    requires UnixLines(text + "\n\n") == text + "\n\n" && NonEmpty(SplitBlank(text)) == events && events != []
    requires ByteLen(text + "\n\n") <= env.limits.maxBytes
    ensures Events(env, Utf8(text + "\n\n")) == if |events| <= env.limits.maxEvents then Some(events) else None
  {
    var whole := text + "\n\n";
    assert whole[|whole| - 2..] == "\n\n" && whole[..|whole| - 2] == text;
  }

  lemma EqualEvents(env: Env, a: Body, b: Body)
    requires Events(env, a) == Events(env, b)
    ensures Parse(env, a) == Parse(env, b)
  {}
}
