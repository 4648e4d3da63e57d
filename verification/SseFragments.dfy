/** Fragmentation on the wire (internal/capsule/sse.go): an event of an accepted
    body is replaced by two printed events that carry the two halves of one of its
    fragments, and the body parses alike. */
module SseFragments {
  import opened Text
  import Json
  import opened Sse
  import opened SseTheorems
  import opened SseFixedPoint

  // ---------------------------------------------------------------------
  // Cutting the JSON of a chunk
  // ---------------------------------------------------------------------

  /** The parts of a chunk that has a choice. */
  ghost predicate HasChoice(v: Json.Value) {
    && v.Obj? && "choices" in v.members && v.members["choices"].Arr? && |v.members["choices"].items| == 1
    && v.members["choices"].items[0].Obj?
    && "delta" in ChoiceOf(v) && ChoiceOf(v)["delta"].Obj?
  }

  function ChoiceOf(v: Json.Value): Members
    requires v.Obj? && "choices" in v.members && v.members["choices"].Arr? && |v.members["choices"].items| == 1
    requires v.members["choices"].items[0].Obj?
  {
    v.members["choices"].items[0].members
  }

  ghost function DeltaIn(v: Json.Value): Members
    requires HasChoice(v)
  {
    ChoiceOf(v)["delta"].members
  }

  function FirstCall(d: Members): Members
    requires "tool_calls" in d && d["tool_calls"].Arr? && |d["tool_calls"].items| == 1 && d["tool_calls"].items[0].Obj?
  {
    d["tool_calls"].items[0].members
  }

  ghost predicate HasArguments(d: Members) {
    && "tool_calls" in d && d["tool_calls"].Arr? && |d["tool_calls"].items| == 1 && d["tool_calls"].items[0].Obj?
    && "index" in FirstCall(d) && "function" in FirstCall(d) && FirstCall(d)["function"].Obj?
  }

  ghost function FrontDelta(d: Members, cut: Cut): Members
    requires cut.InArguments? ==> HasArguments(d)
  {
    match cut
    case InContent(x, _) => d["content" := Quoted(x)]
    case InReasoning(x, _) => d["reasoning_content" := Quoted(x)]
    case InArguments(x, _) =>
      var named := FirstCall(d)["function"].members["arguments" := Quoted(x)];
      d["tool_calls" := Json.Arr([Json.Obj(FirstCall(d)["function" := Json.Obj(named)])])]
  }

  ghost function BackDelta(d: Members, cut: Cut): Members
    requires cut.InArguments? ==> HasArguments(d)
  {
    match cut
    case InContent(_, y) => map["content" := Quoted(y)]
    case InReasoning(_, y) => map["reasoning_content" := Quoted(y)]
    case InArguments(_, y) =>
      map["tool_calls" :=
          Json.Arr([Json.Obj(map["index" := FirstCall(d)["index"],
                                 "function" := Json.Obj(map["arguments" := Quoted(y)])])])]
  }

  /** The first event: no usage, no finish reason, the text before the cut. */
  ghost function FrontValue(v: Json.Value, d: Members): Json.Value
    requires HasChoice(v)
  {
    var choice := Json.Obj((ChoiceOf(v) - {"finish_reason"})["delta" := Json.Obj(d)]);
    Json.Obj((v.members - {"usage"})["choices" := Json.Arr([choice])])
  }

  /** The second event: everything of the first but the delta. */
  ghost function BackValue(v: Json.Value, d: Members): Json.Value
    requires HasChoice(v)
  {
    Json.Obj(v.members["choices" := Json.Arr([Json.Obj(ChoiceOf(v)["delta" := Json.Obj(d)])])])
  }

  lemma ReadHasChoice(v: Json.Value, modelId: string)
    requires ReadChunk(v, modelId).Some? && ReadChunk(v, modelId).value.choice.Some?
    ensures HasChoice(v)
    ensures ReadDelta(ChoiceOf(v)["delta"]) == Some(ReadChunk(v, modelId).value.choice.value.delta)
    ensures ReadFinish(At(ChoiceOf(v), "finish_reason")) == Some(ReadChunk(v, modelId).value.choice.value.finish)
    ensures ChoiceOf(v).Keys <= CHOICE_NAMES && Integer(At(ChoiceOf(v), "index")) == Some(0)
    ensures At(ChoiceOf(v), "logprobs") == NULL
  {
    var choices := v.members["choices"];
    assert ReadChoice(choices.items[0]) == Some(ReadChunk(v, modelId).value.choice.value);
  }

  lemma ReadsFrontChoice(c: Members, d: Members, delta: Delta)
    requires c.Keys <= CHOICE_NAMES && Integer(At(c, "index")) == Some(0) && At(c, "logprobs") == NULL
    requires ReadDelta(Json.Obj(d)) == Some(delta)
    ensures ReadChoice(Json.Obj((c - {"finish_reason"})["delta" := Json.Obj(d)])) == Some(Choice(delta, None))
  {
    var m := (c - {"finish_reason"})["delta" := Json.Obj(d)];
    assert m.Keys <= CHOICE_NAMES;
    assert At(m, "index") == At(c, "index") && At(m, "logprobs") == At(c, "logprobs") && At(m, "finish_reason") == NULL;
  }

  lemma ReadsBackChoice(c: Members, d: Members, delta: Delta, finish: Option<Finish>)
    requires c.Keys <= CHOICE_NAMES && Integer(At(c, "index")) == Some(0) && At(c, "logprobs") == NULL
    requires ReadDelta(Json.Obj(d)) == Some(delta) && ReadFinish(At(c, "finish_reason")) == Some(finish)
    ensures ReadChoice(Json.Obj(c["delta" := Json.Obj(d)])) == Some(Choice(delta, finish))
  {
    var m := c["delta" := Json.Obj(d)];
    assert m.Keys <= CHOICE_NAMES;
    assert At(m, "index") == At(c, "index") && At(m, "logprobs") == At(c, "logprobs");
    assert At(m, "finish_reason") == At(c, "finish_reason");
  }

  /** Replacing the choice of a chunk, with and without its usage. */
  lemma ReadsNewChoice(v: Json.Value, modelId: string, choice: Json.Value, read: Choice)
    requires ReadChunk(v, modelId).Some? && ReadChoice(choice) == Some(read)
    ensures v.Obj?
    ensures ReadChunk(Json.Obj(v.members["choices" := Json.Arr([choice])]), modelId) ==
            Some(Chunk(ReadChunk(v, modelId).value.usage, Some(read)))
    ensures ReadChunk(Json.Obj((v.members - {"usage"})["choices" := Json.Arr([choice])]), modelId) ==
            Some(Chunk(None, Some(read)))
  {
    var choices := Json.Arr([choice]);
    assert ReadChoices(choices) == Some(Some(read)) by { assert choices.items[0] == choice; }
    var m1, m2 := v.members["choices" := choices], (v.members - {"usage"})["choices" := choices];
    assert m1.Keys <= CHUNK_NAMES && m2.Keys <= CHUNK_NAMES;
    assert "usage" !in m2;
  }

  // ---------------------------------------------------------------------
  // The two deltas read as the two halves
  // ---------------------------------------------------------------------

  lemma ReadsFrontText(d: Members, delta: Delta, cut: Cut)
    requires ReadDelta(Json.Obj(d)) == Some(delta) && Cuttable(delta, cut) && !cut.InArguments?
    ensures ReadDelta(Json.Obj(FrontDelta(d, cut))) == Some(Front(delta, cut))
  {
    var m := FrontDelta(d, cut);
    assert m.Keys <= DELTA_NAMES;
    assert "role" in m <==> "role" in d;
    assert ReadCalls(m) == ReadCalls(d);
    if cut.InContent? {
      assert NullableText(m, "reasoning_content") == NullableText(d, "reasoning_content");
      assert NullableText(m, "content") == Some(Some(cut.x));
    } else {
      assert NullableText(m, "content") == NullableText(d, "content");
      assert NullableText(m, "reasoning_content") == Some(Some(cut.x));
    }
    assert m != map[];
  }

  lemma ReadsBackText(cut: Cut)
    requires !cut.InArguments?
    ensures ReadDelta(Json.Obj(BackDelta(map[], cut))) == Some(Back(cut))
  {
    var m := BackDelta(map[], cut);
    assert m.Keys <= DELTA_NAMES && "role" !in m && "tool_calls" !in m;
    assert "content" in m || "reasoning_content" in m;
  }

  lemma CallHasArguments(d: Members, delta: Delta)
    requires ReadDelta(Json.Obj(d)) == Some(delta) && delta.Delta? && delta.call.Some?
    ensures HasArguments(d) && FirstCall(d).Keys <= CALL_NAMES
    ensures FirstCall(d)["function"].members.Keys <= FUNCTION_NAMES
    ensures ReadCall(Json.Obj(FirstCall(d))) == delta.call
  {
    var call := d["tool_calls"].items[0];
    assert ReadCall(call) == delta.call;
    assert call == Json.Obj(FirstCall(d));
    assert Integer(NULL) == None;
  }

  lemma ReadsFrontCall(c: Members, call: CallDelta, x: string)
    requires ReadCall(Json.Obj(c)) == Some(call) && "function" in c && c["function"].Obj?
    ensures ReadCall(Json.Obj(c["function" := Json.Obj(c["function"].members["arguments" := Quoted(x)])])) ==
            Some(call.(arguments := Some(x)))
  {
    var fn := c["function"].members["arguments" := Quoted(x)];
    var m := c["function" := Json.Obj(fn)];
    assert m.Keys <= CALL_NAMES && fn.Keys <= FUNCTION_NAMES;
    assert At(m, "index") == At(c, "index") && At(m, "type") == At(c, "type");
    assert OptionalText(m, "id") == OptionalText(c, "id");
    assert OptionalText(fn, "name") == OptionalText(c["function"].members, "name");
    assert OptionalText(fn, "arguments") == Some(Some(x));
  }

  lemma ReadsBackCall(index: Json.Value, y: string)
    requires Integer(index) == Some(0)
    ensures ReadCall(Json.Obj(map["index" := index, "function" := Json.Obj(map["arguments" := Quoted(y)])])) ==
            Some(CallDelta(None, None, Some(y)))
  {
    var m := map["index" := index, "function" := Json.Obj(map["arguments" := Quoted(y)])];
    assert m.Keys == {"index", "function"};
    var fn := m["function"].members;
    assert fn.Keys == {"arguments"} && "name" !in fn;
    assert "id" !in m && "type" !in m;
  }

  lemma ReadsFrontArguments(d: Members, delta: Delta, cut: Cut)
    requires ReadDelta(Json.Obj(d)) == Some(delta) && Cuttable(delta, cut) && cut.InArguments? && HasArguments(d)
    requires ReadCall(Json.Obj(FirstCall(d))) == delta.call
    ensures ReadDelta(Json.Obj(FrontDelta(d, cut))) == Some(Front(delta, cut))
  {
    var m := FrontDelta(d, cut);
    ReadsFrontCall(FirstCall(d), delta.call.value, cut.x);
    assert m.Keys <= DELTA_NAMES && ("role" in m <==> "role" in d);
    assert NullableText(m, "content") == NullableText(d, "content");
    assert NullableText(m, "reasoning_content") == NullableText(d, "reasoning_content");
    assert ReadCalls(m) == Some(Some(delta.call.value.(arguments := Some(cut.x)))) by {
      assert m["tool_calls"].items[0] ==
             Json.Obj(FirstCall(d)["function" :=
                                   Json.Obj(FirstCall(d)["function"].members["arguments" := Quoted(cut.x)])]);
    }
    assert m != map[];
  }

  lemma ReadsBackArguments(d: Members, cut: Cut)
    requires cut.InArguments? && HasArguments(d) && Integer(FirstCall(d)["index"]) == Some(0)
    ensures ReadDelta(Json.Obj(BackDelta(d, cut))) == Some(Back(cut))
  {
    var m := BackDelta(d, cut);
    ReadsBackCall(FirstCall(d)["index"], cut.y);
    assert m.Keys == {"tool_calls"} && "role" !in m && "content" !in m && "reasoning_content" !in m;
    assert ReadCalls(m) == Some(Some(CallDelta(None, None, Some(cut.y)))) by {
      assert m["tool_calls"].items[0] ==
             Json.Obj(map["index" := FirstCall(d)["index"], "function" := Json.Obj(map["arguments" := Quoted(cut.y)])]);
    }
    assert m != map[];
  }

  lemma ReadsHalves(d: Members, delta: Delta, cut: Cut)
    requires ReadDelta(Json.Obj(d)) == Some(delta) && Cuttable(delta, cut)
    ensures cut.InArguments? ==> HasArguments(d)
    ensures ReadDelta(Json.Obj(FrontDelta(d, cut))) == Some(Front(delta, cut))
    ensures ReadDelta(Json.Obj(BackDelta(d, cut))) == Some(Back(cut))
  {
    if cut.InArguments? {
      CallHasArguments(d, delta);
      ReadsFrontArguments(d, delta, cut);
      IndexIsZero(FirstCall(d));
      ReadsBackArguments(d, cut);
    } else {
      ReadsFrontText(d, delta, cut);
      ReadsBackText(cut);
    }
  }

  lemma IndexIsZero(c: Members)
    requires ReadCall(Json.Obj(c)).Some?
    ensures Integer(At(c, "index")) == Some(0)
  {}

  ghost predicate CanCut(v: Json.Value, modelId: string, cut: Cut) {
    && ReadChunk(v, modelId).Some? && ReadChunk(v, modelId).value.choice.Some?
    && Cuttable(ReadChunk(v, modelId).value.choice.value.delta, cut)
  }

  lemma CutShape(v: Json.Value, modelId: string, cut: Cut)
    requires CanCut(v, modelId, cut)
    ensures HasChoice(v) && (cut.InArguments? ==> HasArguments(DeltaIn(v)))
  {
    ReadHasChoice(v, modelId);
    assert ChoiceOf(v)["delta"] == Json.Obj(DeltaIn(v));
    ReadsHalves(DeltaIn(v), ReadChunk(v, modelId).value.choice.value.delta, cut);
  }

  /** The two events of a cut chunk. */
  ghost function Halves(v: Json.Value, modelId: string, cut: Cut): (Json.Value, Json.Value)
    requires CanCut(v, modelId, cut)
  {
    CutShape(v, modelId, cut);
    (FrontValue(v, FrontDelta(DeltaIn(v), cut)), BackValue(v, BackDelta(DeltaIn(v), cut)))
  }

  lemma HalvesRead(v: Json.Value, modelId: string, cut: Cut)
    requires CanCut(v, modelId, cut)
    ensures var (first, second) := Halves(v, modelId, cut);
            && ReadChunk(first, modelId).Some? && ReadChunk(second, modelId).Some?
            && Cuts(ReadChunk(v, modelId).value, ReadChunk(first, modelId).value, ReadChunk(second, modelId).value, cut)
  {
    CutShape(v, modelId, cut);
    ReadHasChoice(v, modelId);
    var choice := ReadChunk(v, modelId).value.choice.value;
    var d := DeltaIn(v);
    assert ChoiceOf(v)["delta"] == Json.Obj(d);
    ReadsHalves(d, choice.delta, cut);
    ReadsFrontChoice(ChoiceOf(v), FrontDelta(d, cut), Front(choice.delta, cut));
    ReadsBackChoice(ChoiceOf(v), BackDelta(d, cut), Back(cut), choice.finish);
    ReadsNewChoice(v, modelId, Json.Obj((ChoiceOf(v) - {"finish_reason"})["delta" := Json.Obj(FrontDelta(d, cut))]),
                   Choice(Front(choice.delta, cut), None));
    ReadsNewChoice(v, modelId, Json.Obj(ChoiceOf(v)["delta" := Json.Obj(BackDelta(d, cut))]),
                   Choice(Back(cut), choice.finish));
  }

  // ---------------------------------------------------------------------
  // The halves are printable
  // ---------------------------------------------------------------------

  ghost predicate AllPrintable(codec: Codec, m: Members) {
    forall k :: k in m ==> Printable(codec, m[k])
  }

  lemma PrintableSet(codec: Codec, m: Members, name: string, v: Json.Value)
    requires AllPrintable(codec, m) && Printable(codec, v)
    ensures AllPrintable(codec, m[name := v]) && Printable(codec, Json.Obj(m[name := v]))
  {}

  lemma PrintableOne(codec: Codec, v: Json.Value)
    requires Printable(codec, v)
    ensures Printable(codec, Json.Arr([v]))
  {}

  lemma PrintableDeltas(codec: Codec, d: Members, cut: Cut)
    requires AllPrintable(codec, d) && (cut.InArguments? ==> HasArguments(d))
    ensures AllPrintable(codec, FrontDelta(d, cut)) && AllPrintable(codec, BackDelta(d, cut))
  {
    if cut.InArguments? {
      var c := FirstCall(d);
      assert Printable(codec, d["tool_calls"]);
      assert Printable(codec, d["tool_calls"].items[0]);
      assert AllPrintable(codec, c);
      assert Printable(codec, c["function"]);
      PrintableSet(codec, c["function"].members, "arguments", Quoted(cut.x));
      PrintableSet(codec, c, "function", Json.Obj(c["function"].members["arguments" := Quoted(cut.x)]));
      PrintableOne(codec, Json.Obj(c["function" := Json.Obj(c["function"].members["arguments" := Quoted(cut.x)])]));
      PrintableSet(codec, map[], "arguments", Quoted(cut.y));
      assert map["arguments" := Quoted(cut.y)] == map[]["arguments" := Quoted(cut.y)];
      PrintableBackCall(codec, c["index"], cut.y);
    }
  }

  lemma PrintableBackCall(codec: Codec, index: Json.Value, y: string)
    requires Printable(codec, index)
    ensures var call := Json.Obj(map["index" := index, "function" := Json.Obj(map["arguments" := Quoted(y)])]);
            Printable(codec, Json.Arr([call]))
  {
    var fn := map["arguments" := Quoted(y)];
    assert forall k :: k in fn ==> Printable(codec, fn[k]);
    assert Printable(codec, Json.Obj(fn));
    var m := map["index" := index, "function" := Json.Obj(fn)];
    assert forall k :: k in m ==> Printable(codec, m[k]);
    PrintableOne(codec, Json.Obj(m));
  }

  lemma HalvesArePrintable(codec: Codec, v: Json.Value, modelId: string, cut: Cut)
    requires Printable(codec, v) && CanCut(v, modelId, cut)
    ensures Printable(codec, Halves(v, modelId, cut).0) && Printable(codec, Halves(v, modelId, cut).1)
  {
    CutShape(v, modelId, cut);
    var c, d := ChoiceOf(v), DeltaIn(v);
    assert Printable(codec, v.members["choices"]);
    assert Printable(codec, v.members["choices"].items[0]);
    assert AllPrintable(codec, c) && Printable(codec, c["delta"]) && AllPrintable(codec, d);
    PrintableDeltas(codec, d, cut);
    PrintableSet(codec, c - {"finish_reason"}, "delta", Json.Obj(FrontDelta(d, cut)));
    PrintableSet(codec, c, "delta", Json.Obj(BackDelta(d, cut)));
    var first := Json.Obj((c - {"finish_reason"})["delta" := Json.Obj(FrontDelta(d, cut))]);
    var second := Json.Obj(c["delta" := Json.Obj(BackDelta(d, cut))]);
    PrintableOne(codec, first);
    PrintableOne(codec, second);
    PrintableSet(codec, v.members - {"usage"}, "choices", Json.Arr([first]));
    PrintableSet(codec, v.members, "choices", Json.Arr([second]));
  }

  // ---------------------------------------------------------------------
  // Texts made of events
  // ---------------------------------------------------------------------

  /** One-line events, each followed by a blank line. */
  function TextOf(events: seq<string>): string {
    if events == [] then "" else events[0] + "\n\n" + TextOf(events[1..])
  }

  ghost predicate AllClean(events: seq<string>) { forall i :: 0 <= i < |events| ==> Clean(events[i]) }

  lemma {:induction false} TextIsUnix(events: seq<string>)
    requires AllClean(events)
    ensures '\r' !in TextOf(events)
  {
    if events != [] {
      CleanTail(events);
      TextIsUnix(events[1..]);
      CleanText(events[0], "\n\n");
      CleanText(events[0] + "\n\n", TextOf(events[1..]));
    }
  }

  lemma CleanTail(events: seq<string>)
    requires AllClean(events) && events != []
    ensures AllClean(events[1..]) && Clean(events[0])
  {
    forall i | 0 <= i < |events[1..]| ensures Clean(events[1..][i]) { assert events[1..][i] == events[i + 1]; }
  }

  lemma TextShape(line: string, inner: string, rest: string, text: string)
    requires rest == inner + "\n\n" && text == line + "\n\n" + rest
    ensures |text| >= 2 && text[..|text| - 2] == line + ("\n\n" + inner) && text == text[..|text| - 2] + "\n\n"
  {
    assert text == (line + ("\n\n" + inner)) + "\n\n";
  }

  /** All but the last blank line splits into the events. */
  lemma {:induction false} TextSplits(events: seq<string>)
    requires AllClean(events) && events != []
    ensures |TextOf(events)| >= 2 && TextOf(events) == TextOf(events)[..|TextOf(events)| - 2] + "\n\n"
    ensures SplitBlank(TextOf(events)[..|TextOf(events)| - 2]) == events
  {
    CleanTail(events);
    var text, rest := TextOf(events), TextOf(events[1..]);
    if |events| == 1 {
      assert rest == "" && text == events[0] + "\n\n";
      assert text[..|text| - 2] == events[0];
      SplitLastLine(events[0]);
    } else {
      TextSplits(events[1..]);
      var inner := rest[..|rest| - 2];
      TextShape(events[0], inner, rest, text);
      SplitFirst(events[0], inner);
    }
  }

  lemma TextEvents(env: Env, events: seq<string>)
    requires AllClean(events) && events != []
    ensures Events(env, Utf8(TextOf(events))) ==
            if ByteLen(TextOf(events)) <= env.limits.maxBytes && |events| <= env.limits.maxEvents
            then Some(events) else None
  {
    TextIsUnix(events);
    TextSplits(events);
    NothingEmpty(events);
    if ByteLen(TextOf(events)) <= env.limits.maxBytes {
      EventsOf(env, TextOf(events)[..|TextOf(events)| - 2], events);
    }
  }

  // ---------------------------------------------------------------------
  // Decoding part of a stream
  // ---------------------------------------------------------------------

  /** The members of one event; the terminator has none. */
  function KeysOf(env: Env, event: string): nat {
    match EventData(env, event)
    case None => 0
    case Some(data) =>
      if data == "[DONE]" then 0
      else match Json.ParseStrict(env.codec.lex(data), env.limits.Complexity()) case None => 0 case Some((_, n)) => n
  }

  /** The chunk of one event, whatever was counted before. */
  function ChunkOf(env: Env, event: string): Option<Chunk> {
    match EventData(env, event)
    case None => None
    case Some(data) =>
      if data == "[DONE]" then None
      else match Json.ParseStrict(env.codec.lex(data), env.limits.Complexity())
        case None => None
        case Some((value, _)) => ReadChunk(value, env.modelId)
  }

  lemma DataIsChunk(env: Env, event: string, data: string, keys: nat)
    requires EventData(env, event) == Some(data) && data != "[DONE]"
    ensures DataChunk(env, data, keys) ==
            Head(keys + KeysOf(env, event) <= env.limits.maxKeys, ChunkOf(env, event), keys + KeysOf(env, event))
  {}

  lemma UnreadHasNoChunk(env: Env, event: string)
    requires EventData(env, event).None? || EventData(env, event).value == "[DONE]"
    ensures ChunkOf(env, event) == None
  {}

  /** One event with this chunk and `n` members is decoded before the rest is. */
  ghost predicate OneEvent(decode: Decoder, chunk: Option<Chunk>, n: nat, max: int,
                           event: string, rest: seq<string>, keys: nat) {
    decode([event] + rest, keys) == Push(Head(keys + n <= max, chunk, keys + n), decode, rest)
  }

  /** One event of a stream that goes on behind it. */
  lemma StreamStep(env: Env, event: string, rest: seq<string>, keys: nat)
    requires rest != []
    ensures OneEvent(Decoding(env), ChunkOf(env, event), KeysOf(env, event), env.limits.maxKeys, event, rest, keys)
  {
    var data := EventData(env, event);
    if data.None? {
      ChunksRefuse(env, event, rest, keys);
      UnreadHasNoChunk(env, event);
    } else if data.value == "[DONE]" {
      DoneInTheMiddle(env, event, rest, keys);
      UnreadHasNoChunk(env, event);
    } else {
      ChunksCons(env, event, rest, keys);
      DataIsChunk(env, event, data.value, keys);
    }
  }

  lemma DoneInTheMiddle(env: Env, event: string, rest: seq<string>, keys: nat)
    requires rest != [] && EventData(env, event) == Some("[DONE]")
    ensures Chunks(env, [event] + rest, keys) == None
  {}

  lemma StreamEnd(env: Env, event: string, keys: nat, keys': nat)
    requires Decoding(env)([event], keys).Some?
    ensures Decoding(env)([event], keys) == Decoding(env)([event], keys') == Some([])
  {
    LastIsDone(env, event, keys);
  }

  /** The last event of a decodable stream is the terminator. */
  lemma LastIsDone(env: Env, event: string, keys: nat)
    ensures Chunks(env, [event], keys).Some? ==> EventData(env, event) == Some("[DONE]")
  {
    if EventData(env, event).Some? && EventData(env, event).value != "[DONE]" {
      assert [event] + [] == [event];
      ChunksCons(env, event, [], keys);
    }
  }

  // ---------------------------------------------------------------------
  // Streams over an abstract decoder
  // ---------------------------------------------------------------------

  type Counter = string -> nat

  function ChunkReader(env: Env): string -> Option<Chunk> { event => ChunkOf(env, event) }

  function KeyCounter(env: Env): Counter { event => KeysOf(env, event) }

  ghost predicate StepsAt(decode: Decoder, chunkOf: string -> Option<Chunk>, keysOf: Counter, max: int,
                          event: string, rest: seq<string>, keys: nat) {
    OneEvent(decode, chunkOf(event), keysOf(event), max, event, rest, keys)
  }

  ghost predicate Steps(decode: Decoder, chunkOf: string -> Option<Chunk>, keysOf: Counter, max: int) {
    forall event, rest: seq<string>, keys: nat {:trigger decode([event] + rest, keys)}
      {:trigger StepsAt(decode, chunkOf, keysOf, max, event, rest, keys)} ::
      rest != [] ==> StepsAt(decode, chunkOf, keysOf, max, event, rest, keys)
  }

  /** The last event carries no chunk, and is accepted after any members or none. */
  ghost predicate Ends(decode: Decoder) {
    && (forall event, keys: nat, keys': nat :: decode([event], keys).Some? ==> decode([event], keys') == Some([]))
    && (forall keys: nat :: decode([], keys) == None)
  }

  /** A decoder that goes event by event, counting members up to a maximum. */
  ghost predicate Streams(decode: Decoder, chunkOf: string -> Option<Chunk>, keysOf: Counter, max: int) {
    Steps(decode, chunkOf, keysOf, max) && Ends(decode)
  }

  lemma ReaderReads(env: Env, event: string)
    ensures ChunkReader(env)(event) == ChunkOf(env, event) && KeyCounter(env)(event) == KeysOf(env, event)
  {}

  lemma DecodingStepsAt(env: Env, event: string, rest: seq<string>, keys: nat)
    requires rest != []
    ensures StepsAt(Decoding(env), ChunkReader(env), KeyCounter(env), env.limits.maxKeys, event, rest, keys)
  {
    StreamStep(env, event, rest, keys);
    ReaderReads(env, event);
  }

  lemma DecodingSteps(env: Env)
    ensures Steps(Decoding(env), ChunkReader(env), KeyCounter(env), env.limits.maxKeys)
  {
    forall event, rest: seq<string>, keys: nat | rest != []
      ensures StepsAt(Decoding(env), ChunkReader(env), KeyCounter(env), env.limits.maxKeys, event, rest, keys)
    {
      DecodingStepsAt(env, event, rest, keys);
    }
  }

  lemma DecodingEnds(env: Env)
    ensures Ends(Decoding(env))
  {
    forall event, keys: nat, keys': nat | Decoding(env)([event], keys).Some?
      ensures Decoding(env)([event], keys') == Some([])
    {
      StreamEnd(env, event, keys, keys');
    }
  }

  lemma DecodingStreams(env: Env)
    ensures Streams(Decoding(env), ChunkReader(env), KeyCounter(env), env.limits.maxKeys)
  {
    DecodingSteps(env);
    DecodingEnds(env);
  }

  function Sum(events: seq<string>, keysOf: Counter): nat {
    if events == [] then 0 else keysOf(events[0]) + Sum(events[1..], keysOf)
  }

  /** A stream decodes alike after fewer or more members, as long as they fit. */
  lemma {:induction false} Shift(decode: Decoder, chunkOf: string -> Option<Chunk>, keysOf: Counter, max: int,
                                 events: seq<string>, keys: nat, keys': nat)
    requires Streams(decode, chunkOf, keysOf, max) && decode(events, keys).Some? && keys' + Sum(events, keysOf) <= max
    ensures decode(events, keys') == decode(events, keys)
  {
    if |events| == 1 {
      assert events == [events[0]];
    } else if |events| > 1 {
      var event, rest := events[0], events[1..];
      assert events == [event] + rest;
      Shift(decode, chunkOf, keysOf, max, rest, keys + keysOf(event), keys' + keysOf(event));
    }
  }

  /** What follows a common beginning may be exchanged. */
  lemma {:induction false} Exchange(decode: Decoder, chunkOf: string -> Option<Chunk>, keysOf: Counter, max: int,
                                    before: seq<string>, rest: seq<string>, tail: seq<string>, keys: nat)
    returns (chunks: seq<Chunk>)
    requires Streams(decode, chunkOf, keysOf, max) && rest != [] && tail != []
    requires decode(before + rest, keys).Some? && decode(tail, keys + Sum(before, keysOf)).Some?
    ensures decode(rest, keys + Sum(before, keysOf)).Some?
    ensures decode(before + rest, keys).value == chunks + decode(rest, keys + Sum(before, keysOf)).value
    ensures decode(before + tail, keys) == Some(chunks + decode(tail, keys + Sum(before, keysOf)).value)
    decreases |before|
  {
    if before == [] {
      chunks := [];
      assert before + rest == rest && before + tail == tail;
      assert [] + decode(tail, keys).value == decode(tail, keys).value;
    } else {
      var event, more := before[0], before[1..];
      assert before + rest == [event] + (more + rest) && before + tail == [event] + (more + tail);
      var later := Exchange(decode, chunkOf, keysOf, max, more, rest, tail, keys + keysOf(event));
      chunks := [chunkOf(event).value] + later;
      assert keys + Sum(before, keysOf) == keys + keysOf(event) + Sum(more, keysOf);
      var whole := decode(tail, keys + Sum(before, keysOf)).value;
      assert chunks + whole == [chunkOf(event).value] + (later + whole);
    }
  }

  lemma {:induction false} SumConcat(a: seq<string>, b: seq<string>, keysOf: Counter)
    ensures Sum(a + b, keysOf) == Sum(a, keysOf) + Sum(b, keysOf)
  {
    if a == [] {
      assert a + b == b;
    } else {
      assert (a + b)[1..] == a[1..] + b;
      SumConcat(a[1..], b, keysOf);
    }
  }

  lemma SumTwo(before: seq<string>, e1: string, e2: string, after: seq<string>, keysOf: Counter)
    ensures Sum(before + ([e1] + ([e2] + after)), keysOf) ==
            Sum(before, keysOf) + keysOf(e1) + keysOf(e2) + Sum(after, keysOf)
  {
    SumConcat(before, [e1] + ([e2] + after), keysOf);
    SumConcat([e1], [e2] + after, keysOf);
    SumConcat([e2], after, keysOf);
    assert Sum([e1], keysOf) == keysOf(e1) && Sum([e2], keysOf) == keysOf(e2);
  }

  /** Cutting the first event of a decodable stream in two. */
  lemma CutTail(decode: Decoder, chunkOf: string -> Option<Chunk>, keysOf: Counter, max: int,
                e: string, e1: string, e2: string, after: seq<string>, k: nat)
    returns (back: seq<Chunk>)
    requires Streams(decode, chunkOf, keysOf, max) && after != []
    requires decode([e] + after, k).Some? && chunkOf(e1).Some? && chunkOf(e2).Some?
    requires k + keysOf(e1) + keysOf(e2) + Sum(after, keysOf) <= max
    ensures chunkOf(e).Some? && decode([e] + after, k) == Some([chunkOf(e).value] + back)
    ensures decode([e1] + ([e2] + after), k) == Some([chunkOf(e1).value] + ([chunkOf(e2).value] + back))
  {
    back := decode(after, k + keysOf(e)).value;
    Shift(decode, chunkOf, keysOf, max, after, k + keysOf(e), k + keysOf(e1) + keysOf(e2));
    assert decode([e2] + after, k + keysOf(e1)) == Some([chunkOf(e2).value] + back);
  }

  /** Cutting one event of a decodable stream in two. */
  lemma CutStream(decode: Decoder, chunkOf: string -> Option<Chunk>, keysOf: Counter, max: int,
                  before: seq<string>, e: string, e1: string, e2: string, after: seq<string>)
    returns (front: seq<Chunk>, back: seq<Chunk>)
    requires Streams(decode, chunkOf, keysOf, max) && after != []
    requires decode(before + ([e] + after), 0).Some? && chunkOf(e1).Some? && chunkOf(e2).Some?
    requires Sum(before + ([e1] + ([e2] + after)), keysOf) <= max
    ensures chunkOf(e).Some?
    ensures decode(before + ([e] + after), 0) == Some(front + ([chunkOf(e).value] + back))
    ensures decode(before + ([e1] + ([e2] + after)), 0) ==
            Some(front + ([chunkOf(e1).value] + ([chunkOf(e2).value] + back)))
  {
    var k := Sum(before, keysOf);
    SumTwo(before, e1, e2, after, keysOf);
    Middle(decode, chunkOf, keysOf, max, before, [e] + after, 0);
    back := CutTail(decode, chunkOf, keysOf, max, e, e1, e2, after, k);
    front := Exchange(decode, chunkOf, keysOf, max, before, [e] + after, [e1] + ([e2] + after), 0);
  }

  /** The rest of a decodable stream is decodable. */
  lemma {:induction false} Middle(decode: Decoder, chunkOf: string -> Option<Chunk>, keysOf: Counter, max: int,
                                  before: seq<string>, rest: seq<string>, keys: nat)
    requires Streams(decode, chunkOf, keysOf, max) && rest != [] && decode(before + rest, keys).Some?
    ensures decode(rest, keys + Sum(before, keysOf)).Some?
    decreases |before|
  {
    if before == [] {
      assert before + rest == rest;
    } else {
      assert before + rest == [before[0]] + (before[1..] + rest);
      Middle(decode, chunkOf, keysOf, max, before[1..], rest, keys + keysOf(before[0]));
    }
  }

  // ---------------------------------------------------------------------
  // The theorem
  // ---------------------------------------------------------------------

  lemma PrintedEvent(env: Env, v: Json.Value)
    requires PrintsWell(env.codec, v) && env.limits.maxKeys >= 0
    ensures Clean(Line(env, v)) && EventData(env, Line(env, v)) != Some("[DONE]")
    ensures ChunkOf(env, Line(env, v)) ==
            if ByteLen(Line(env, v)) <= env.limits.maxLineBytes && Fits(env, v) then ReadChunk(v, env.modelId) else None
  {
    CleanLine(env, v);
    PrintedParses(env, v);
  }

  /** The text with the event of `v` replaced by the events of its halves is still
      within the limits. */
  ghost predicate StillFits(env: Env, before: seq<string>, first: Json.Value, second: Json.Value, after: seq<string>) {
    && BodyFits(env, before + ([Line(env, first)] + ([Line(env, second)] + after)))
    && ByteLen(Line(env, first)) <= env.limits.maxLineBytes && Fits(env, first)
    && ByteLen(Line(env, second)) <= env.limits.maxLineBytes && Fits(env, second)
  }

  lemma CleanParts(before: seq<string>, middle: seq<string>, after: seq<string>)
    requires AllClean(before) && AllClean(middle) && AllClean(after)
    ensures AllClean(before + (middle + after))
  {}

  lemma SomethingFollows(env: Env, before: seq<string>, e: string, after: seq<string>)
    requires Decoding(env)(before + ([e] + after), 0).Some? && EventData(env, e) != Some("[DONE]")
    ensures after != []
  {
    DecodingStreams(env);
    Middle(Decoding(env), ChunkReader(env), KeyCounter(env), env.limits.maxKeys, before, [e] + after, 0);
    if after == [] {
      assert [e] + after == [e];
      LastIsDone(env, e, Sum(before, KeyCounter(env)));
    }
  }

  /** Two bodies whose decoded streams differ by one cut. */
  lemma ParsesAlike(env: Env, body: Body, body': Body, whole: seq<string>, halves: seq<string>,
                    front: seq<Chunk>, c: Chunk, c1: Chunk, c2: Chunk, back: seq<Chunk>, cut: Cut)
    requires Events(env, body) == Some(whole) && Events(env, body') == Some(halves)
    requires Decoding(env)(whole, 0) == Some(front + ([c] + back))
    requires Decoding(env)(halves, 0) == Some(front + ([c1] + ([c2] + back)))
    requires Cuts(c, c1, c2, cut)
    ensures Parse(env, body') == Parse(env, body)
  {
    assert front + [c] + back == front + ([c] + back);
    assert front + [c1, c2] + back == front + ([c1] + ([c2] + back));
    FragmentationIsInvisible(env, front, c, c1, c2, back, cut);
    ParseIs(env, body, whole, front + ([c] + back));
    ParseIs(env, body', halves, front + ([c1] + ([c2] + back)));
  }

  lemma ParsedEvents(env: Env, events: seq<string>)
    requires AllClean(events) && events != [] && Parse(env, Utf8(TextOf(events))).Some?
    ensures Events(env, Utf8(TextOf(events))) == Some(events)
  {
    TextEvents(env, events);
  }

  lemma ParsedDecodes(env: Env, events: seq<string>)
    requires AllClean(events) && events != [] && Parse(env, Utf8(TextOf(events))).Some?
    ensures Decoding(env)(events, 0).Some? && env.limits.maxKeys >= 0
  {
    TextEvents(env, events);
    AcceptedIsSelfContained(env, Utf8(TextOf(events)));
  }

  /** The body `events` is within the limits on bytes, events and members. */
  ghost predicate BodyFits(env: Env, events: seq<string>) {
    && ByteLen(TextOf(events)) <= env.limits.maxBytes && |events| <= env.limits.maxEvents
    && Sum(events, KeyCounter(env)) <= env.limits.maxKeys
  }

  /** Three events whose chunks are a whole and its two halves. */
  ghost predicate CutsEvent(env: Env, e: string, e1: string, e2: string, cut: Cut) {
    && ChunkOf(env, e).Some? && ChunkOf(env, e1).Some? && ChunkOf(env, e2).Some?
    && Cuts(ChunkOf(env, e).value, ChunkOf(env, e1).value, ChunkOf(env, e2).value, cut)
  }

  /** Fragmentation on the wire, whoever wrote the events: in an accepted body of
      one-line events, an event that decodes to a chunk with a fragment `x + y` may
      be sent as two that decode to its halves; within the limits the answer is the
      same. */
  lemma SplitEventParsesAlike(env: Env, before: seq<string>, e: string, e1: string, e2: string, after: seq<string>,
                              cut: Cut)
    requires AllClean(before) && Clean(e) && Clean(e1) && Clean(e2) && AllClean(after) && CutsEvent(env, e, e1, e2, cut)
    requires Parse(env, Utf8(TextOf(before + ([e] + after)))).Some? && BodyFits(env, before + ([e1] + ([e2] + after)))
    ensures Parse(env, Utf8(TextOf(before + ([e1] + ([e2] + after))))) ==
            Parse(env, Utf8(TextOf(before + ([e] + after))))
  {
    var whole, halves := before + ([e] + after), before + ([e1] + ([e2] + after));
    CleanEvents(before, e, e1, e2, after);
    ParsedEvents(env, whole);
    ParsedDecodes(env, whole);
    TextEvents(env, halves);
    ChunkIsNotDone(env, e);
    SomethingFollows(env, before, e, after);
    DecodingStreams(env);
    var front, back := CutStream(Decoding(env), ChunkReader(env), KeyCounter(env), env.limits.maxKeys, before, e, e1,
                                 e2, after);
    ParsesAlike(env, Utf8(TextOf(whole)), Utf8(TextOf(halves)), whole, halves, front,
                ChunkOf(env, e).value, ChunkOf(env, e1).value, ChunkOf(env, e2).value, back, cut);
  }

  lemma ChunkIsNotDone(env: Env, event: string)
    requires ChunkOf(env, event).Some?
    ensures EventData(env, event) != Some("[DONE]")
  {}

  lemma CleanEvents(before: seq<string>, e: string, e1: string, e2: string, after: seq<string>)
    requires AllClean(before) && Clean(e) && Clean(e1) && Clean(e2) && AllClean(after)
    ensures AllClean(before + ([e] + after)) && AllClean(before + ([e1] + ([e2] + after)))
  {
    CleanParts(before, [e], after);
    CleanParts([], [e2], after);
    assert [] + ([e2] + after) == [e2] + after;
    CleanParts(before, [e1], [e2] + after);
  }

  /** The halves that the canonical printer writes for the JSON of an event, whatever
      text that event had. */
  lemma PrintedHalvesParseAlike(env: Env, before: seq<string>, e: string, v: Json.Value, after: seq<string>, cut: Cut)
    requires Lawful(env.codec) && Printable(env.codec, v) && CanCut(v, env.modelId, cut)
    requires AllClean(before) && Clean(e) && AllClean(after) && ChunkOf(env, e) == ReadChunk(v, env.modelId)
    requires Parse(env, Utf8(TextOf(before + ([e] + after)))).Some?
    requires StillFits(env, before, Halves(v, env.modelId, cut).0, Halves(v, env.modelId, cut).1, after)
    ensures var (first, second) := Halves(v, env.modelId, cut);
            Parse(env, Utf8(TextOf(before + ([Line(env, first)] + ([Line(env, second)] + after))))) ==
            Parse(env, Utf8(TextOf(before + ([e] + after))))
  {
    var (first, second) := Halves(v, env.modelId, cut);
    HalvesRead(v, env.modelId, cut);
    HalvesArePrintable(env.codec, v, env.modelId, cut);
    assert PrintLaw(env.codec, first) && PrintLaw(env.codec, second);
    AcceptedIsSelfContained(env, Utf8(TextOf(before + ([e] + after))));
    PrintedEvent(env, first);
    PrintedEvent(env, second);
    SplitEventParsesAlike(env, before, e, Line(env, first), Line(env, second), after, cut);
  }
}
