/** Normalisation is a fixed point (internal/capsule/sse.go): parsing the
    normalised stream again gives the same message, call, usage and bytes,
    exactly under a condition on the call identifier and the limits. */
module SseFixedPoint {
  import opened Text
  import Json
  import opened Decimals
  import opened Sse

  // ---------------------------------------------------------------------
  // The three normalised chunks read back
  // ---------------------------------------------------------------------

  /** The chunk that the message chunk decodes to; a call without a valid
      identifier does not decode. */
  function MessageDelta(a: Assistant): Delta {
    var reasoning := if a.reasoning == "" then None else Some(a.reasoning);
    match a
    case Reply(content, _) => Delta(reasoning, Some(content), None)
    case ToolUse(callId, name, text, _) => Delta(reasoning, None, Some(CallDelta(Some(callId), Some(name), Some(text))))
  }

  lemma ReadsCall(a: Assistant)
    requires a.ToolUse?
    ensures ReadCall(CallValue(a)) ==
            if ValidOperationId(a.callId)
            then Some(CallDelta(Some(a.callId), Some(a.name), Some(a.argumentsText))) else None
  {
    DecimalRoundTrip(0);
    var m := CallValue(a).members;
    assert m.Keys == {"index", "id", "type", "function"};
    var f := m["function"].members;
    assert f.Keys == {"name", "arguments"};
  }

  lemma ReadsReplyDelta(content: string, reasoning: string)
    ensures ReadDelta(DeltaValue(Reply(content, reasoning))) == Some(MessageDelta(Reply(content, reasoning)))
  {
    var m := DeltaValue(Reply(content, reasoning)).members;
    assert "role" in m && "content" in m && "tool_calls" !in m;
    assert m.Keys <= DELTA_NAMES;
    assert reasoning == "" ==> "reasoning_content" !in m;
  }

  lemma ReadsCallDelta(a: Assistant)
    requires a.ToolUse?
    ensures ReadDelta(DeltaValue(a)) == if ValidOperationId(a.callId) then Some(MessageDelta(a)) else None
  {
    var m := DeltaValue(a).members;
    assert "role" in m && "content" !in m && "tool_calls" in m;
    assert m.Keys <= DELTA_NAMES;
    assert a.reasoning == "" ==> "reasoning_content" !in m;
    ReadsCall(a);
    assert m["tool_calls"].items[0] == CallValue(a);
  }

  lemma ReadsChoice(delta: Json.Value, finish: Json.Value)
    ensures ReadChoice(ChoiceValue(delta, finish)) ==
            match (ReadDelta(delta), ReadFinish(finish))
            case (Some(d), Some(f)) => Some(Choice(d, f))
            case _ => None
  {
    DecimalRoundTrip(0);
    var m := ChoiceValue(delta, finish).members;
    assert m.Keys == {"index", "delta", "finish_reason"};
    assert "logprobs" !in m;
  }

  lemma ReadsPlainChunk(modelId: string, choices: seq<Json.Value>)
    ensures ReadChunk(Json.Obj(ChunkValue(modelId, choices)), modelId) ==
            match ReadChoices(Json.Arr(choices)) case None => None case Some(c) => Some(Chunk(None, c))
  {
    var m := ChunkValue(modelId, choices);
    assert m.Keys == {"id", "object", "model", "choices"};
    assert "usage" !in m;
  }

  lemma ReadsUsage(usage: Usage)
    requires usage.input <= 1_000_000_000 && usage.output <= 1_000_000_000 && usage.total <= 1_000_000_000
    requires usage.total == usage.input + usage.output && usage.modelCalls == 1 && usage.truncated == 0
    ensures ReadUsage(UsageValue(usage)) == Some(usage)
  {
    DecimalRoundTrip(usage.input);
    DecimalRoundTrip(usage.output);
    DecimalRoundTrip(usage.total);
    var m := UsageValue(usage).members;
    assert m.Keys == {"prompt_tokens", "completion_tokens", "total_tokens"};
    assert "completion_tokens_details" !in m;
  }

  lemma ReadsUsageChunk(modelId: string, usage: Usage)
    requires ReadUsage(UsageValue(usage)) == Some(usage)
    ensures ReadChunk(UsageChunk(modelId, usage), modelId) == Some(Chunk(Some(usage), None))
  {
    var m := UsageChunk(modelId, usage).members;
    assert m.Keys == {"id", "object", "model", "choices", "usage"};
    assert m["choices"] == Json.Arr([]);
  }

  lemma ReadsMessageChunk(modelId: string, a: Assistant)
    ensures ReadChunk(MessageChunk(modelId, a), modelId) ==
            if a.ToolUse? && !ValidOperationId(a.callId) then None
            else Some(Chunk(None, Some(Choice(MessageDelta(a), None))))
  {
    if a.ToolUse? { ReadsCallDelta(a); } else { ReadsReplyDelta(a.content, a.reasoning); }
    ReadsChoice(DeltaValue(a), NULL);
    ReadsPlainChunk(modelId, [ChoiceValue(DeltaValue(a), NULL)]);
  }

  lemma ReadsFinishChunk(modelId: string, a: Assistant)
    ensures ReadChunk(FinishChunk(modelId, a), modelId) ==
            Some(Chunk(None, Some(Choice(Empty, Some(if a.ToolUse? then ToolCalls else Stop)))))
  {
    ReadsChoice(Json.Obj(map[]), FinishValue(a));
    ReadsPlainChunk(modelId, [ChoiceValue(Json.Obj(map[]), FinishValue(a))]);
    assert Quoted("stop") != Quoted("tool_calls") by { assert |"stop"| != |"tool_calls"|; }
  }

  // ---------------------------------------------------------------------
  // The normalised text splits into four events
  // ---------------------------------------------------------------------

  lemma {:induction false} UnixLinesId(s: string)
    requires '\r' !in s
    ensures UnixLines(s) == s
  {
    if s != "" {
      assert s[0] in s;
      assert forall c :: c in s[1..] ==> c in s;
      UnixLinesId(s[1..]);
    }
  }

  lemma {:induction false} SplitOneLine(line: string, rest: string)
    requires '\n' !in line
    ensures SplitBlank(line + "\n\n" + rest) == [line] + SplitBlank(rest)
  {
    var s := line + "\n\n" + rest;
    if line == "" {
      assert s[2..] == rest;
    } else {
      assert line[0] in line;
      assert forall c :: c in line[1..] ==> c in line;
      assert s[1..] == line[1..] + "\n\n" + rest;
      SplitOneLine(line[1..], rest);
      assert [line[0]] + line[1..] == line;
    }
  }

  lemma {:induction false} SplitLastLine(line: string)
    requires '\n' !in line
    ensures SplitBlank(line) == [line]
  {
    if line != "" {
      assert line[0] in line;
      assert forall c :: c in line[1..] ==> c in line;
      SplitLastLine(line[1..]);
      assert [line[0]] + line[1..] == line;
    }
  }

  const LAST_LINE := "data: " + "[DONE]"

  function Four(a: string, b: string, c: string): string {
    a + "\n\n" + b + "\n\n" + c + "\n\n" + LAST_LINE + "\n\n"
  }

  predicate Clean(line: string) { line != "" && '\n' !in line && '\r' !in line }

  function Body3(a: string, b: string, c: string): string {
    a + ("\n\n" + (b + ("\n\n" + (c + ("\n\n" + LAST_LINE)))))
  }

  lemma FourIsBody(a: string, b: string, c: string)
    ensures Four(a, b, c) == Body3(a, b, c) + "\n\n"
  {}

  lemma CleanText(a: string, b: string)
    requires '\r' !in a && '\r' !in b
    ensures '\r' !in a + b
  {}

  lemma FourIsUnix(a: string, b: string, c: string)
    requires Clean(a) && Clean(b) && Clean(c)
    ensures '\r' !in Body3(a, b, c) + "\n\n"
  {
    CleanLastLine();
    CleanText("\n\n", LAST_LINE);
    CleanText(c, "\n\n" + LAST_LINE);
    CleanText("\n\n", c + ("\n\n" + LAST_LINE));
    CleanText(b, "\n\n" + (c + ("\n\n" + LAST_LINE)));
    CleanText("\n\n", b + ("\n\n" + (c + ("\n\n" + LAST_LINE))));
    CleanText(a, "\n\n" + (b + ("\n\n" + (c + ("\n\n" + LAST_LINE)))));
    CleanText(Body3(a, b, c), "\n\n");
  }

  lemma CleanLastLine()
    ensures Clean(LAST_LINE)
  {}

  lemma SplitBody(a: string, b: string, c: string)
    requires Clean(a) && Clean(b) && Clean(c)
    ensures SplitBlank(Body3(a, b, c)) == [a, b, c, LAST_LINE]
  {
    CleanLastLine();
    var t2 := c + ("\n\n" + LAST_LINE);
    var t1 := b + ("\n\n" + t2);
    SplitLastLine(LAST_LINE);
    SplitFirst(c, LAST_LINE);
    SplitFirst(b, t2);
    SplitFirst(a, t1);
  }

  lemma SplitFirst(line: string, rest: string)
    requires '\n' !in line
    ensures SplitBlank(line + ("\n\n" + rest)) == [line] + SplitBlank(rest)
  {
    assert line + ("\n\n" + rest) == line + "\n\n" + rest;
    SplitOneLine(line, rest);
  }

  lemma EventsOf(env: Env, inner: string, parts: seq<string>)
    requires '\r' !in inner + "\n\n" && ByteLen(inner + "\n\n") <= env.limits.maxBytes
    requires SplitBlank(inner) == parts && NonEmpty(parts) == parts && parts != []
    ensures Events(env, Utf8(inner + "\n\n")) == if |parts| <= env.limits.maxEvents then Some(parts) else None
  {
    var text := inner + "\n\n";
    UnixLinesId(text);
    assert text[..|text| - 2] == inner;
    assert text[|text| - 2..] == "\n\n";
  }

  lemma FourEvents(env: Env, a: string, b: string, c: string)
    requires Clean(a) && Clean(b) && Clean(c)
    requires ByteLen(Four(a, b, c)) <= env.limits.maxBytes
    ensures Events(env, Utf8(Four(a, b, c))) ==
            if 4 <= env.limits.maxEvents then Some([a, b, c, LAST_LINE]) else None
  {
    FourIsBody(a, b, c);
    FourIsUnix(a, b, c);
    SplitBody(a, b, c);
    CleanLastLine();
    NothingEmpty([a, b, c, LAST_LINE]);
    EventsOf(env, Body3(a, b, c), [a, b, c, LAST_LINE]);
  }

  lemma {:induction false} NothingEmpty(parts: seq<string>)
    requires forall i :: 0 <= i < |parts| ==> parts[i] != ""
    ensures NonEmpty(parts) == parts
  {
    if parts != [] {
      forall i | 0 <= i < |parts[1..]| ensures parts[1..][i] != "" { assert parts[1..][i] == parts[i + 1]; }
      NothingEmpty(parts[1..]);
    }
  }

  function Line(env: Env, v: Json.Value): string { "data: " + env.codec.write(v) }

  lemma CleanLine(env: Env, v: Json.Value)
    requires PrintsWell(env.codec, v)
    ensures Clean(Line(env, v))
    ensures EventData(env, Line(env, v)) ==
            if ByteLen(Line(env, v)) <= env.limits.maxLineBytes then Some(env.codec.write(v)) else None
  {
    var line := Line(env, v);
    assert line[..5] == "data:";
    assert line[5..][1..] == env.codec.write(v);
    assert line[5..][0] == ' ';
  }

  lemma PrefixedData(env: Env, data: string)
    requires '\n' !in data
    ensures EventData(env, "data: " + data) ==
            if ByteLen("data: " + data) <= env.limits.maxLineBytes then Some(data) else None
  {
    var line := "data: " + data;
    assert line[..5] == "data:";
    assert line[5..][1..] == data;
    assert line[5..][0] == ' ';
  }

  lemma LastLineData(env: Env)
    ensures EventData(env, LAST_LINE) == if ByteLen(LAST_LINE) <= env.limits.maxLineBytes then Some("[DONE]") else None
  {
    PrefixedData(env, "[DONE]");
  }

  // ---------------------------------------------------------------------
  // Printed values are finite and decode within limits
  // ---------------------------------------------------------------------

  lemma CountIsPrintable(codec: Codec, n: nat)
    requires Lawful(codec) && n <= 1_000_000_000
    ensures Printable(codec, Number(n))
  {
    DecimalIsLiteral(n);
    DecimalRoundTrip(n);
    assert FiniteLaw(codec, Decimal(n));
  }

  lemma PrintableDelta(codec: Codec, a: Assistant)
    requires Printable(codec, Number(0))
    ensures Printable(codec, DeltaValue(a))
  {
    if a.ToolUse? {
      var f := CallValue(a).members["function"];
      assert forall k :: k in f.members ==> Printable(codec, f.members[k]);
      assert Printable(codec, f);
      assert forall k :: k in CallValue(a).members ==> Printable(codec, CallValue(a).members[k]);
      assert Printable(codec, CallValue(a));
      assert Printable(codec, Json.Arr([CallValue(a)]));
    }
    var d := DeltaValue(a).members;
    forall k | k in d ensures Printable(codec, d[k]) {}
  }

  lemma PrintableChunk(codec: Codec, modelId: string, choices: seq<Json.Value>)
    requires forall i :: 0 <= i < |choices| ==> Printable(codec, choices[i])
    ensures Printable(codec, Json.Obj(ChunkValue(modelId, choices)))
  {
    var m := ChunkValue(modelId, choices);
    assert Printable(codec, Json.Arr(choices));
    forall k | k in m ensures Printable(codec, m[k]) {}
  }

  lemma PrintableChoice(codec: Codec, delta: Json.Value, finish: Json.Value)
    requires Printable(codec, Number(0)) && Printable(codec, delta) && Printable(codec, finish)
    ensures Printable(codec, ChoiceValue(delta, finish))
  {
    var m := ChoiceValue(delta, finish).members;
    forall k | k in m ensures Printable(codec, m[k]) {}
  }

  lemma PrintableUsage(codec: Codec, modelId: string, usage: Usage)
    requires Printable(codec, Number(usage.input)) && Printable(codec, Number(usage.output))
    requires Printable(codec, Number(usage.total))
    ensures Printable(codec, UsageChunk(modelId, usage))
  {
    PrintableChunk(codec, modelId, []);
    var u := UsageValue(usage);
    assert Printable(codec, u) by { forall k | k in u.members ensures Printable(codec, u.members[k]) {} }
    var m := UsageChunk(modelId, usage).members;
    forall k | k in m ensures Printable(codec, m[k]) {
      if k != "usage" { assert m[k] == ChunkValue(modelId, [])[k]; }
    }
  }

  lemma PrintableMessage(codec: Codec, modelId: string, a: Assistant)
    requires Printable(codec, Number(0))
    ensures Printable(codec, MessageChunk(modelId, a))
  {
    PrintableDelta(codec, a);
    PrintableChoice(codec, DeltaValue(a), NULL);
    PrintableChunk(codec, modelId, [ChoiceValue(DeltaValue(a), NULL)]);
  }

  lemma PrintableFinish(codec: Codec, modelId: string, a: Assistant)
    requires Printable(codec, Number(0))
    ensures Printable(codec, FinishChunk(modelId, a))
  {
    PrintableChoice(codec, Json.Obj(map[]), FinishValue(a));
    PrintableChunk(codec, modelId, [ChoiceValue(Json.Obj(map[]), FinishValue(a))]);
  }

  lemma PrintableChunks(codec: Codec, modelId: string, a: Assistant, usage: Usage)
    requires Lawful(codec) && Coherent(usage)
    ensures Printable(codec, MessageChunk(modelId, a)) && Printable(codec, FinishChunk(modelId, a))
    ensures Printable(codec, UsageChunk(modelId, usage))
  {
    CountIsPrintable(codec, 0);
    CountIsPrintable(codec, usage.input);
    CountIsPrintable(codec, usage.output);
    CountIsPrintable(codec, usage.total);
    PrintableMessage(codec, modelId, a);
    PrintableFinish(codec, modelId, a);
    PrintableUsage(codec, modelId, usage);
  }

  ghost predicate AllLexed(codec: Codec, ts: seq<Json.Token>) {
    forall i :: 0 <= i < |ts| ==> Lexed(codec, ts[i])
  }

  lemma LexedParts(codec: Codec, a: seq<Json.Token>, b: seq<Json.Token>)
    requires AllLexed(codec, a + b)
    ensures AllLexed(codec, a) && AllLexed(codec, b)
  {
    forall i | 0 <= i < |a| ensures Lexed(codec, a[i]) { assert (a + b)[i] == a[i]; }
    forall i | 0 <= i < |b| ensures Lexed(codec, b[i]) { assert (a + b)[|a| + i] == b[i]; }
  }

  /** What was lexed and accepted is printable. */
  lemma {:induction false} AcceptedIsPrintable(codec: Codec, t: Json.Tree)
    requires Json.Strict(t) && AllLexed(codec, Json.Tokens(t))
    ensures Printable(codec, Json.ValueOf(t))
    decreases t, 1
  {
    match t
    case Leaf(s) => assert Lexed(codec, Json.Tokens(t)[0]);
    case List(children) =>
      LexedParts(codec, [Json.OpenArray] + Json.ItemTokens(children), [Json.CloseArray]);
      LexedParts(codec, [Json.OpenArray], Json.ItemTokens(children));
      AcceptedItemsArePrintable(codec, children);
    case Record(fields) =>
      LexedParts(codec, [Json.OpenObject] + Json.FieldTokens(fields), [Json.CloseObject]);
      LexedParts(codec, [Json.OpenObject], Json.FieldTokens(fields));
      AcceptedFieldsArePrintable(codec, fields);
  }

  lemma {:induction false} AcceptedItemsArePrintable(codec: Codec, children: seq<Json.Tree>)
    requires (forall i :: 0 <= i < |children| ==> Json.Strict(children[i])) &&
             AllLexed(codec, Json.ItemTokens(children))
    ensures forall i :: 0 <= i < |Json.ItemValues(children)| ==> Printable(codec, Json.ItemValues(children)[i])
    decreases children, 0
  {
    if children != [] {
      LexedParts(codec, Json.Tokens(children[0]), Json.ItemTokens(children[1..]));
      AcceptedIsPrintable(codec, children[0]);
      forall i | 0 <= i < |children[1..]| ensures Json.Strict(children[1..][i]) {
        assert children[1..][i] == children[i + 1];
      }
      AcceptedItemsArePrintable(codec, children[1..]);
    }
  }

  lemma {:induction false} AcceptedFieldsArePrintable(codec: Codec, fields: seq<Json.Field>)
    requires (forall i :: 0 <= i < |fields| ==> Json.Strict(fields[i].tree)) &&
             AllLexed(codec, Json.FieldTokens(fields))
    ensures forall k :: k in Json.FieldValues(fields) ==> Printable(codec, Json.FieldValues(fields)[k])
    decreases fields, 0
  {
    if fields != [] {
      var name := [Json.Item(Json.Str(fields[0].name))];
      LexedParts(codec, name + Json.Tokens(fields[0].tree), Json.FieldTokens(fields[1..]));
      LexedParts(codec, name, Json.Tokens(fields[0].tree));
      AcceptedIsPrintable(codec, fields[0].tree);
      forall i | 0 <= i < |fields[1..]| ensures Json.Strict(fields[1..][i].tree) {
        assert fields[1..][i] == fields[i + 1];
      }
      AcceptedFieldsArePrintable(codec, fields[1..]);
    }
  }

  ghost predicate Fits(env: Env, v: Json.Value) {
    Json.WithinLimits(env.codec.layout(v), env.limits.Complexity())
  }

  ghost function Keys(env: Env, v: Json.Value): nat { Json.KeyCount(env.codec.layout(v)) }

  /** A printed finite value parses back exactly when it fits the limits. */
  lemma PrintedParses(env: Env, v: Json.Value)
    requires PrintsWell(env.codec, v) && env.limits.maxKeys >= 0
    ensures Json.ParseStrict(env.codec.lex(env.codec.write(v)), env.limits.Complexity()) ==
            if Fits(env, v) then Some((v, Keys(env, v))) else None
  {
    Json.ParseStrictIsTreeSpec(env.codec.layout(v), env.limits.Complexity());
  }

  ghost function Head(fits: bool, chunk: Option<Chunk>, keys: nat): Option<(Chunk, nat)> {
    if fits && chunk.Some? then Some((chunk.value, keys)) else None
  }

  /** One normalised event: decoded exactly when its line, its structure and the
      running member count fit and its chunk is readable. */
  lemma PrintedChunk(env: Env, v: Json.Value, keys: nat)
    requires PrintsWell(env.codec, v) && env.limits.maxKeys >= 0
    ensures DataChunk(env, env.codec.write(v), keys) ==
            Head(Fits(env, v) && keys + Keys(env, v) <= env.limits.maxKeys,
                 ReadChunk(v, env.modelId), keys + Keys(env, v))
  {
    PrintedParses(env, v);
  }

  // ---------------------------------------------------------------------
  // What an accepted response knows about itself
  // ---------------------------------------------------------------------

  predicate Coherent(usage: Usage) {
    && usage.modelCalls == 1 && usage.truncated == 0
    && usage.input <= 1_000_000_000 && usage.output <= 1_000_000_000
    && usage.total == usage.input + usage.output <= 1_000_000_000
  }

  predicate GoodId(id: string) { id == "" || ValidOperationId(id) }

  predicate GoodCall(call: Option<CallDelta>) {
    call.Some? && call.value.id.Some? ==> ValidOperationId(call.value.id.value)
  }

  /** What reading guarantees of every chunk. */
  predicate GoodChunk(chunk: Chunk) {
    && (chunk.usage.Some? ==> Coherent(chunk.usage.value))
    && (chunk.choice.Some? && chunk.choice.value.delta.Delta? ==> GoodCall(chunk.choice.value.delta.call))
  }

  lemma ReadDeltaIsGood(v: Json.Value)
    requires ReadDelta(v).Some?
    ensures GoodChunk(Chunk(None, Some(Choice(ReadDelta(v).value, None))))
  {}

  lemma ReadChunkIsGood(v: Json.Value, modelId: string)
    requires ReadChunk(v, modelId).Some?
    ensures GoodChunk(ReadChunk(v, modelId).value)
  {
    var chunk := ReadChunk(v, modelId).value;
    var choices := v.members["choices"];
    if chunk.choice.Some? {
      var choice := choices.items[0];
      assert ReadChoice(choice) == Some(chunk.choice.value);
      ReadDeltaIsGood(At(choice.members, "delta"));
    }
  }

  lemma {:induction false} ChunksAreGood(env: Env, events: seq<string>, keys: nat)
    requires Chunks(env, events, keys).Some?
    ensures forall i :: 0 <= i < |Chunks(env, events, keys).value| ==> GoodChunk(Chunks(env, events, keys).value[i])
    ensures Chunks(env, events, keys).value != [] ==> env.limits.maxKeys >= 0
  {
    var data := EventData(env, events[0]).value;
    if data != "[DONE]" {
      var (chunk, keys') := DataChunk(env, data, keys).value;
      var (value, _) := Json.ParseStrict(env.codec.lex(data), env.limits.Complexity()).value;
      ReadChunkIsGood(value, env.modelId);
      ChunksAreGood(env, events[1..], keys');
    }
  }

  ghost predicate GoodAccum(acc: Accum) {
    GoodId(acc.callId) && (acc.usage.Some? ==> Coherent(acc.usage.value))
  }

  lemma AbsorbIsGood(acc: Accum, chunk: Chunk)
    requires GoodAccum(acc) && GoodChunk(chunk) && Absorb(acc, chunk).Some?
    ensures GoodAccum(Absorb(acc, chunk).value)
  {}

  lemma {:induction false} FoldIsGood(chunks: seq<Chunk>, acc: Accum)
    requires Fold(chunks, acc).Some? && GoodAccum(acc)
    requires forall i :: 0 <= i < |chunks| ==> GoodChunk(chunks[i])
    ensures GoodAccum(Fold(chunks, acc).value)
  {
    if chunks != [] {
      AbsorbIsGood(acc, chunks[0]);
      forall i | 0 <= i < |chunks[1..]| ensures GoodChunk(chunks[1..][i]) { assert chunks[1..][i] == chunks[i + 1]; }
      FoldIsGood(chunks[1..], Absorb(acc, chunks[0]).value);
    }
  }

  /** Everything the second pass needs to know about an accepted response. */
  ghost predicate SelfContained(env: Env, a: Accepted) {
    && Coherent(a.usage)
    && a.normalized == Normalize(env, a.assistant, a.usage)
    && ByteLen(a.normalized) <= env.limits.maxBytes
    && env.limits.maxKeys >= 0
    && (a.pending.None? <==> a.assistant.Reply?)
    && (a.pending.Some? ==>
          var call := a.pending.value;
          && GoodId(call.callId) && call.name != "" && call.name in env.validators
          && call.arguments.Obj? && env.validators[call.name](call.arguments)
          && a.assistant == ToolUse(call.callId, call.name, env.codec.write(call.arguments), a.assistant.reasoning))
  }

  lemma AcceptedIsSelfContained(env: Env, body: Body)
    requires Parse(env, body).Some?
    ensures SelfContained(env, Parse(env, body).value)
  {
    var events := Events(env, body).value;
    var chunks := Chunks(env, events, 0).value;
    ChunksAreGood(env, events, 0);
    assert chunks != [];
    FoldIsGood(chunks, EMPTY);
    var acc := Fold(chunks, EMPTY).value;
  }

  // ---------------------------------------------------------------------
  // The second pass
  // ---------------------------------------------------------------------

  /** One normalised event passes the line, structure and member limits. */
  ghost predicate LineFits(env: Env, v: Json.Value, keys: nat) {
    ByteLen(Line(env, v)) <= env.limits.maxLineBytes && Fits(env, v) && keys + Keys(env, v) <= env.limits.maxKeys
  }

  /** The three chunks and the terminator pass them together. */
  ghost predicate LinesFit(env: Env, m: Json.Value, f: Json.Value, u: Json.Value) {
    && LineFits(env, m, 0) && LineFits(env, f, Keys(env, m)) && LineFits(env, u, Keys(env, m) + Keys(env, f))
    && ByteLen(LAST_LINE) <= env.limits.maxLineBytes
  }

  /** The limits are wide enough for the normalised form. */
  ghost predicate WireFits(env: Env, a: Accepted) {
    && 4 <= env.limits.maxEvents
    && LinesFit(env, MessageChunk(env.modelId, a.assistant), FinishChunk(env.modelId, a.assistant),
                UsageChunk(env.modelId, a.usage))
    && (a.pending.Some? ==> Fits(env, a.pending.value.arguments))
  }

  /** A decoder of the remaining events, given the members counted so far. */
  type Decoder = (seq<string>, nat) -> Option<seq<Chunk>>

  /** The chunks of a stream, one decoded chunk at a time. */
  ghost function Push(head: Option<(Chunk, nat)>, decode: Decoder, rest: seq<string>): Option<seq<Chunk>> {
    match head
    case None => None
    case Some((chunk, keys)) =>
      match decode(rest, keys) case None => None case Some(more) => Some([chunk] + more)
  }

  ghost function Decoding(env: Env): Decoder { (events: seq<string>, keys: nat) => Chunks(env, events, keys) }

  lemma ChunksCons(env: Env, event: string, rest: seq<string>, keys: nat)
    requires EventData(env, event).Some? && EventData(env, event).value != "[DONE]"
    ensures Chunks(env, [event] + rest, keys) ==
            Push(DataChunk(env, EventData(env, event).value, keys), Decoding(env), rest)
  {
    assert ([event] + rest)[1..] == rest;
  }

  lemma ChunksRefuse(env: Env, event: string, rest: seq<string>, keys: nat)
    requires EventData(env, event).None?
    ensures Chunks(env, [event] + rest, keys) == None
  {}

  lemma ChunksStep(env: Env, v: Json.Value, rest: seq<string>, keys: nat)
    requires PrintsWell(env.codec, v) && env.limits.maxKeys >= 0
    ensures OneStep(env, Decoding(env), v, ReadChunk(v, env.modelId), rest, keys)
  {
    CleanLine(env, v);
    if ByteLen(Line(env, v)) <= env.limits.maxLineBytes {
      PrintedChunk(env, v, keys);
      ChunksCons(env, Line(env, v), rest, keys);
    } else {
      ChunksRefuse(env, Line(env, v), rest, keys);
    }
  }

  lemma ChunksEnd(env: Env, keys: nat)
    ensures Decoding(env)([LAST_LINE], keys) == if ByteLen(LAST_LINE) <= env.limits.maxLineBytes then Some([]) else None
  {
    LastLineData(env);
  }

  lemma ThreeSteps(decode: Decoder, e: seq<string>, rest: seq<string>, fits: seq<bool>, c: seq<Option<Chunk>>,
                   k: seq<nat>, last: bool)
    requires |e| == |fits| == |c| == |k| == 3
    requires decode([e[0]] + ([e[1]] + ([e[2]] + rest)), 0) ==
             Push(Head(fits[0], c[0], k[0]), decode, [e[1]] + ([e[2]] + rest))
    requires decode([e[1]] + ([e[2]] + rest), k[0]) == Push(Head(fits[1], c[1], k[1]), decode, [e[2]] + rest)
    requires decode([e[2]] + rest, k[1]) == Push(Head(fits[2], c[2], k[2]), decode, rest)
    requires decode(rest, k[2]) == if last then Some([]) else None
    ensures decode([e[0]] + ([e[1]] + ([e[2]] + rest)), 0) ==
            if fits[0] && fits[1] && fits[2] && last && c[0].Some? && c[1].Some? && c[2].Some?
            then Some([c[0].value] + ([c[1].value] + ([c[2].value] + []))) else None
  {}

  ghost predicate OneStep(env: Env, decode: Decoder, v: Json.Value, chunk: Option<Chunk>, rest: seq<string>,
                          keys: nat) {
    decode([Line(env, v)] + rest, keys) == Push(Head(LineFits(env, v, keys), chunk, keys + Keys(env, v)), decode, rest)
  }

  lemma ChunksOfThree(env: Env, decode: Decoder, m: Json.Value, f: Json.Value, u: Json.Value, c: seq<Option<Chunk>>)
    requires |c| == 3
    requires var k1, k2, r3 := Keys(env, m), Keys(env, m) + Keys(env, f), [LAST_LINE];
             && OneStep(env, decode, m, c[0], [Line(env, f)] + ([Line(env, u)] + r3), 0)
             && OneStep(env, decode, f, c[1], [Line(env, u)] + r3, k1)
             && OneStep(env, decode, u, c[2], r3, k2)
             && decode(r3, k2 + Keys(env, u)) ==
                if ByteLen(LAST_LINE) <= env.limits.maxLineBytes then Some([]) else None
    ensures decode([Line(env, m)] + ([Line(env, f)] + ([Line(env, u)] + [LAST_LINE])), 0) ==
            if LinesFit(env, m, f, u) && c[0].Some? && c[1].Some? && c[2].Some?
            then Some([c[0].value] + ([c[1].value] + ([c[2].value] + []))) else None
  {
    var k1 := Keys(env, m);
    var k2 := k1 + Keys(env, f);
    ThreeSteps(decode, [Line(env, m), Line(env, f), Line(env, u)], [LAST_LINE],
               [LineFits(env, m, 0), LineFits(env, f, k1), LineFits(env, u, k2)], c, [k1, k2, k2 + Keys(env, u)],
               ByteLen(LAST_LINE) <= env.limits.maxLineBytes);
  }

  /** The three chunks of a normalised stream. */
  function WireChunks(a: Assistant, usage: Usage): seq<Chunk> {
    [Chunk(None, Some(Choice(MessageDelta(a), None))),
     Chunk(None, Some(Choice(Empty, Some(if a.ToolUse? then ToolCalls else Stop)))),
     Chunk(Some(usage), None)]
  }

  type Reader = Json.Value -> Option<Chunk>

  ghost function Reading(env: Env): Reader { v => ReadChunk(v, env.modelId) }

  /** The reader gives the chunks `w` for the three values, the first if `named`. */
  ghost predicate ReadsWire(read: Reader, m: Json.Value, f: Json.Value, u: Json.Value, w: seq<Chunk>, named: bool) {
    |w| == 3 && read(m) == (if named then Some(w[0]) else None) && read(f) == Some(w[1]) && read(u) == Some(w[2])
  }

  predicate Named(a: Assistant) { a.ToolUse? ==> ValidOperationId(a.callId) }

  lemma NormalizedReads(env: Env, a: Assistant, usage: Usage)
    requires Coherent(usage)
    ensures ReadsWire(Reading(env), MessageChunk(env.modelId, a), FinishChunk(env.modelId, a),
                      UsageChunk(env.modelId, usage),
                      WireChunks(a, usage), Named(a))
  {
    var w, read := WireChunks(a, usage), Reading(env);
    assert read(MessageChunk(env.modelId, a)) == (if Named(a) then Some(w[0]) else None) by {
      ReadsMessageChunk(env.modelId, a);
    }
    assert read(FinishChunk(env.modelId, a)) == Some(w[1]) by { ReadsFinishChunk(env.modelId, a); }
    assert read(UsageChunk(env.modelId, usage)) == Some(w[2]) by {
      ReadsUsage(usage);
      ReadsUsageChunk(env.modelId, usage);
    }
  }

  ghost predicate Steps(env: Env, decode: Decoder, read: Reader) {
    && (forall v, rest, keys: nat :: PrintsWell(env.codec, v) ==> OneStep(env, decode, v, read(v), rest, keys))
    && (forall keys: nat ::
          decode([LAST_LINE], keys) == if ByteLen(LAST_LINE) <= env.limits.maxLineBytes then Some([]) else None)
  }

  lemma DecodingSteps(env: Env)
    requires env.limits.maxKeys >= 0
    ensures Steps(env, Decoding(env), Reading(env))
  {
    forall v, rest, keys: nat | PrintsWell(env.codec, v)
      ensures OneStep(env, Decoding(env), v, Reading(env)(v), rest, keys)
    {
      ChunksStep(env, v, rest, keys);
    }
    forall keys: nat
      ensures Decoding(env)([LAST_LINE], keys) ==
              if ByteLen(LAST_LINE) <= env.limits.maxLineBytes then Some([]) else None
    {
      ChunksEnd(env, keys);
    }
  }

  lemma NormalizedSteps(env: Env, decode: Decoder, read: Reader, m: Json.Value, f: Json.Value, u: Json.Value,
                        c: seq<Option<Chunk>>)
    requires PrintsWell(env.codec, m) && PrintsWell(env.codec, f) && PrintsWell(env.codec, u)
    requires Steps(env, decode, read)
    requires c == [read(m), read(f), read(u)]
    ensures decode([Line(env, m)] + ([Line(env, f)] + ([Line(env, u)] + [LAST_LINE])), 0) ==
            if LinesFit(env, m, f, u) && c[0].Some? && c[1].Some? && c[2].Some?
            then Some([c[0].value] + ([c[1].value] + ([c[2].value] + []))) else None
  {
    var k1, r3 := Keys(env, m), [LAST_LINE];
    var k2 := k1 + Keys(env, f);
    assert OneStep(env, decode, u, read(u), r3, k2);
    assert OneStep(env, decode, f, read(f), [Line(env, u)] + r3, k1);
    assert OneStep(env, decode, m, read(m), [Line(env, f)] + ([Line(env, u)] + r3), 0);
    ChunksOfThree(env, decode, m, f, u, c);
  }

  ghost predicate PrintWell(env: Env, m: Json.Value, f: Json.Value, u: Json.Value) {
    && PrintsWell(env.codec, m) && PrintsWell(env.codec, f) && PrintsWell(env.codec, u)
  }

  lemma PrintablePrintWell(env: Env, m: Json.Value, f: Json.Value, u: Json.Value)
    requires Lawful(env.codec) && Printable(env.codec, m) && Printable(env.codec, f) && Printable(env.codec, u)
    ensures PrintWell(env, m, f, u)
  {
    assert PrintLaw(env.codec, m) && PrintLaw(env.codec, f) && PrintLaw(env.codec, u);
  }

  lemma WireDecodes(env: Env, decode: Decoder, read: Reader, m: Json.Value, f: Json.Value, u: Json.Value,
                    w: seq<Chunk>, named: bool)
    requires PrintWell(env, m, f, u) && Steps(env, decode, read) && ReadsWire(read, m, f, u, w, named)
    ensures decode([Line(env, m)] + ([Line(env, f)] + ([Line(env, u)] + [LAST_LINE])), 0) ==
            if LinesFit(env, m, f, u) && named then Some(w) else None
  {
    NormalizedSteps(env, decode, read, m, f, u, [read(m), read(f), read(u)]);
    assert [w[0]] + ([w[1]] + ([w[2]] + [])) == w;
  }

  lemma NormalizedChunks(env: Env, a: Accepted)
    requires Lawful(env.codec) && SelfContained(env, a)
    ensures var m, f := MessageChunk(env.modelId, a.assistant), FinishChunk(env.modelId, a.assistant);
            var u := UsageChunk(env.modelId, a.usage);
            Decoding(env)([Line(env, m)] + ([Line(env, f)] + ([Line(env, u)] + [LAST_LINE])), 0) ==
            if LinesFit(env, m, f, u) && Named(a.assistant) then Some(WireChunks(a.assistant, a.usage)) else None
  {
    var m, f := MessageChunk(env.modelId, a.assistant), FinishChunk(env.modelId, a.assistant);
    var u := UsageChunk(env.modelId, a.usage);
    PrintableChunks(env.codec, env.modelId, a.assistant, a.usage);
    PrintablePrintWell(env, m, f, u);
    NormalizedReads(env, a.assistant, a.usage);
    DecodingSteps(env);
    WireDecodes(env, Decoding(env), Reading(env), m, f, u, WireChunks(a.assistant, a.usage), Named(a.assistant));
  }

  /** What the loop gathers from the three chunks. */
  function WireAccum(a: Assistant, usage: Usage): Accum {
    match a
    case Reply(content, reasoning) => Accum(content, reasoning, None, "", "", false, Some(Stop), Some(usage))
    case ToolUse(callId, name, text, reasoning) =>
      Accum("", reasoning, Some(text), callId, name, true, Some(ToolCalls), Some(usage))
  }

  lemma WireFold(a: Assistant, usage: Usage)
    ensures Fold(WireChunks(a, usage), EMPTY) == Some(WireAccum(a, usage))
  {
    var chunks := WireChunks(a, usage);
    assert "" + a.reasoning == a.reasoning;
    var acc1 := WireAccum(a, usage).(finish := None, usage := None);
    assert Absorb(EMPTY, chunks[0]) == Some(acc1) by {
      if a.Reply? { assert "" + a.content == a.content; }
    }
    var acc2 := WireAccum(a, usage).(usage := None);
    assert Absorb(acc1, chunks[1]) == Some(acc2);
    assert Absorb(acc2, chunks[2]) == Some(WireAccum(a, usage));
    assert chunks[1..][1..] == chunks[2..];
    assert chunks[2..][1..] == [];
    assert Fold(chunks[2..], acc2) == Some(WireAccum(a, usage));
    assert Fold(chunks[1..], acc1) == Some(WireAccum(a, usage));
  }

  lemma WireFinalize(env: Env, a: Accepted)
    requires SelfContained(env, a) && (a.pending.Some? ==> PrintsWell(env.codec, a.pending.value.arguments))
    ensures Finalize(env, WireAccum(a.assistant, a.usage)) ==
            if a.pending.Some? && !Fits(env, a.pending.value.arguments) then None else Some(a)
  {
    if a.pending.Some? {
      PrintedParses(env, a.pending.value.arguments);
    }
  }

  lemma NormalizedIsFour(env: Env, a: Assistant, usage: Usage)
    ensures Normalize(env, a, usage) ==
            Four(Line(env, MessageChunk(env.modelId, a)), Line(env, FinishChunk(env.modelId, a)),
                 Line(env, UsageChunk(env.modelId, usage)))
  {
    var m, f := env.codec.write(MessageChunk(env.modelId, a)), env.codec.write(FinishChunk(env.modelId, a));
    var u := env.codec.write(UsageChunk(env.modelId, usage));
    FourByParts(m, f, u);
  }

  lemma FourByParts(m: string, f: string, u: string)
    ensures "data: " + m + "\n\n" + "data: " + f + "\n\n" + "data: " + u + "\n\n" + "data: [DONE]\n\n"
            == Four("data: " + m, "data: " + f, "data: " + u)
  {
    assert "data: [DONE]\n\n" == "data: " + "[DONE]" + "\n\n";
  }

  /** Three printed values and the terminator come out as four events. */
  lemma FourLines(env: Env, m: Json.Value, f: Json.Value, u: Json.Value)
    requires PrintWell(env, m, f, u) && ByteLen(Four(Line(env, m), Line(env, f), Line(env, u))) <= env.limits.maxBytes
    ensures Events(env, Utf8(Four(Line(env, m), Line(env, f), Line(env, u)))) ==
            if 4 <= env.limits.maxEvents
            then Some([Line(env, m)] + ([Line(env, f)] + ([Line(env, u)] + [LAST_LINE]))) else None
  {
    CleanLine(env, m);
    CleanLine(env, f);
    CleanLine(env, u);
    FourEvents(env, Line(env, m), Line(env, f), Line(env, u));
    assert [Line(env, m)] + ([Line(env, f)] + ([Line(env, u)] + [LAST_LINE])) ==
           [Line(env, m), Line(env, f), Line(env, u), LAST_LINE];
  }

  lemma NormalizedEvents(env: Env, a: Accepted)
    requires Lawful(env.codec) && SelfContained(env, a)
    ensures Events(env, Utf8(a.normalized)) ==
            if 4 <= env.limits.maxEvents
            then Some([Line(env, MessageChunk(env.modelId, a.assistant))] +
                      ([Line(env, FinishChunk(env.modelId, a.assistant))] +
                      ([Line(env, UsageChunk(env.modelId, a.usage))] + [LAST_LINE])))
            else None
  {
    var m, f := MessageChunk(env.modelId, a.assistant), FinishChunk(env.modelId, a.assistant);
    var u := UsageChunk(env.modelId, a.usage);
    PrintableChunks(env.codec, env.modelId, a.assistant, a.usage);
    PrintablePrintWell(env, m, f, u);
    NormalizedIsFour(env, a.assistant, a.usage);
    FourLines(env, m, f, u);
  }

  /** The arguments of an accepted call came out of a text, so they go back into one. */
  lemma ArgumentsPrintWell(env: Env, body: Body)
    requires Lawful(env.codec) && Parse(env, body).Some?
    ensures var a := Parse(env, body).value; a.pending.Some? ==> PrintsWell(env.codec, a.pending.value.arguments)
  {
    var events := Events(env, body).value;
    var chunks := Chunks(env, events, 0).value;
    ChunksAreGood(env, events, 0);
    assert chunks != [];
    var acc := Fold(chunks, EMPTY).value;
    if acc.sawTool { LexedPrintsWell(env, acc.arguments.value); }
  }

  lemma LexedPrintsWell(env: Env, text: string)
    requires Lawful(env.codec) && env.limits.maxKeys >= 0
    requires Json.ParseStrict(env.codec.lex(text), env.limits.Complexity()).Some?
    ensures PrintsWell(env.codec, Json.ParseStrict(env.codec.lex(text), env.limits.Complexity()).value.0)
  {
    var tree := Json.ParseStrictSound(env.codec.lex(text), env.limits.Complexity());
    assert LexLaw(env.codec, text);
    AcceptedIsPrintable(env.codec, tree);
    assert PrintLaw(env.codec, Json.ValueOf(tree));
  }

  /** Normalisation is a fixed point: re-parsing the normalised stream gives the
      same message, call, usage and bytes exactly when the provider named the
      call and the limits leave room; otherwise the second pass refuses. */
  lemma NormalizationIsFixedPoint(env: Env, body: Body)
    requires Lawful(env.codec) && Parse(env, body).Some?
    ensures var a := Parse(env, body).value;
            Parse(env, Utf8(a.normalized)) ==
            if (a.pending.Some? ==> a.pending.value.callId != "") && WireFits(env, a) then Some(a) else None
  {
    AcceptedIsSelfContained(env, body);
    var a := Parse(env, body).value;
    NormalizedEvents(env, a);
    NormalizedChunks(env, a);
    WireFold(a.assistant, a.usage);
    ArgumentsPrintWell(env, body);
    WireFinalize(env, a);
  }
}
