/** A provider stream that ParseOpenAISSE accepts although its tool call has no
    identifier, and whose normalised form it then refuses
    (internal/capsule/sse.go). */
module SseExamples {
  import opened Text
  import Json
  import opened Decimals
  import opened Sse
  import opened SseFixedPoint

  // ---------------------------------------------------------------------
  // Limits wide enough for a given tree
  // ---------------------------------------------------------------------

  /** A bound on depth, string sizes and member count of a tree at once. */
  function Extent(t: Json.Tree): nat
    decreases t, 1
  {
    match t
    case Leaf(s) => 1 + if s.Str? then ByteLen(s.text) else 0
    case List(children) => 1 + ItemExtent(children)
    case Record(fields) => 1 + FieldExtent(fields)
  }

  function ItemExtent(children: seq<Json.Tree>): nat
    decreases children, 0
  {
    if children == [] then 0 else Extent(children[0]) + ItemExtent(children[1..])
  }

  function FieldExtent(fields: seq<Json.Field>): nat
    decreases fields, 0
  {
    if fields == [] then 0 else 1 + ByteLen(fields[0].name) + Extent(fields[0].tree) + FieldExtent(fields[1..])
  }

  lemma {:induction false} ItemWithin(children: seq<Json.Tree>, i: nat)
    requires i < |children|
    ensures Extent(children[i]) <= ItemExtent(children)
  {
    if i > 0 { ItemWithin(children[1..], i - 1); }
  }

  lemma {:induction false} FieldWithin(fields: seq<Json.Field>, i: nat)
    requires i < |fields|
    ensures ByteLen(fields[i].name) + Extent(fields[i].tree) <= FieldExtent(fields)
  {
    if i > 0 { FieldWithin(fields[1..], i - 1); }
  }

  lemma {:induction false} ExtentBounds(t: Json.Tree, depth: int, limits: Json.Limits)
    requires depth + Extent(t) <= limits.maxDepth + 1 && Extent(t) <= limits.maxStringBytes + 1
    ensures Json.Bounded(t, depth, limits)
    decreases t
  {
    match t
    case Leaf(_) =>
    case List(children) =>
      forall i | 0 <= i < |children| ensures Json.Bounded(children[i], depth + 1, limits) {
        ItemWithin(children, i);
        ExtentBounds(children[i], depth + 1, limits);
      }
    case Record(fields) =>
      forall i | 0 <= i < |fields|
        ensures ByteLen(fields[i].name) <= limits.maxStringBytes && Json.Bounded(fields[i].tree, depth + 1, limits)
      {
        FieldWithin(fields, i);
        ExtentBounds(fields[i].tree, depth + 1, limits);
      }
  }

  lemma {:induction false} KeysWithin(t: Json.Tree)
    ensures Json.KeyCount(t) <= Extent(t)
    decreases t, 1
  {
    match t
    case Leaf(_) =>
    case List(children) => ItemKeysWithin(children);
    case Record(fields) => FieldKeysWithin(fields);
  }

  lemma {:induction false} ItemKeysWithin(children: seq<Json.Tree>)
    ensures Json.ItemKeys(children) <= ItemExtent(children)
    decreases children, 0
  {
    if children != [] {
      KeysWithin(children[0]);
      ItemKeysWithin(children[1..]);
    }
  }

  lemma {:induction false} FieldKeysWithin(fields: seq<Json.Field>)
    ensures Json.FieldKeys(fields) <= FieldExtent(fields)
    decreases fields, 0
  {
    if fields != [] {
      KeysWithin(fields[0].tree);
      FieldKeysWithin(fields[1..]);
    }
  }

  /** The size of a printed value, as a line and as a tree. */
  ghost function Bulk(codec: Codec, v: Json.Value): nat {
    ByteLen("data: " + codec.write(v)) + Extent(codec.layout(v))
  }

  ghost predicate Wide(env: Env, n: nat) {
    env.limits == Limits(n, n, n, n, n, n)
  }

  lemma BulkFits(env: Env, v: Json.Value, keys: nat, n: nat)
    requires Wide(env, n) && keys + Bulk(env.codec, v) <= n
    ensures LineFits(env, v, keys) && Fits(env, v) && Keys(env, v) <= Bulk(env.codec, v)
  {
    ExtentBounds(env.codec.layout(v), 1, env.limits.Complexity());
    KeysWithin(env.codec.layout(v));
  }

  // ---------------------------------------------------------------------
  // The stream
  // ---------------------------------------------------------------------

  const MODEL := "m"
  const TOOL := "t"
  const ARGUMENTS: Json.Value := Json.Obj(map[])
  const USAGE := Usage(1, 0, 0, 0, 0)

  function UnnamedCall(text: string): Json.Value {
    Json.Obj(map["index" := Number(0),
                 "function" := Json.Obj(map["name" := Quoted(TOOL), "arguments" := Quoted(text)])])
  }

  function UnnamedDelta(text: string): Json.Value {
    Json.Obj(map["tool_calls" := Json.Arr([UnnamedCall(text)])])
  }

  /** A tool call chunk without an `id` member. */
  function UnnamedChunk(text: string): Json.Value {
    Json.Obj(ChunkValue(MODEL, [ChoiceValue(UnnamedDelta(text), NULL)]))
  }

  lemma ReadsUnnamedCall(text: string)
    ensures ReadCall(UnnamedCall(text)) == Some(CallDelta(None, Some(TOOL), Some(text)))
  {
    DecimalRoundTrip(0);
    var m := UnnamedCall(text).members;
    assert m.Keys == {"index", "function"};
    assert m["function"].members.Keys == {"name", "arguments"};
    assert "id" !in m && "type" !in m;
  }

  lemma ReadsUnnamedDelta(text: string)
    ensures ReadDelta(UnnamedDelta(text)) == Some(Delta(None, None, Some(CallDelta(None, Some(TOOL), Some(text)))))
  {
    ReadsUnnamedCall(text);
    var m := UnnamedDelta(text).members;
    assert m.Keys == {"tool_calls"};
    assert "role" !in m && "content" !in m && "reasoning_content" !in m;
    assert m["tool_calls"].items[0] == UnnamedCall(text);
    assert m != map[];
  }

  function UnnamedRead(text: string): Chunk {
    Chunk(None, Some(Choice(Delta(None, None, Some(CallDelta(None, Some(TOOL), Some(text)))), None)))
  }

  lemma ReadsUnnamedChunk(text: string)
    ensures ReadChunk(UnnamedChunk(text), MODEL) == Some(UnnamedRead(text))
  {
    ReadsUnnamedDelta(text);
    ReadsChoice(UnnamedDelta(text), NULL);
    ReadsPlainChunk(MODEL, [ChoiceValue(UnnamedDelta(text), NULL)]);
  }

  lemma PrintableUnnamed(codec: Codec, text: string)
    requires Printable(codec, Number(0))
    ensures Printable(codec, UnnamedChunk(text))
  {
    var f := UnnamedCall(text).members["function"];
    assert forall k :: k in f.members ==> Printable(codec, f.members[k]);
    assert Printable(codec, f);
    assert forall k :: k in UnnamedCall(text).members ==> Printable(codec, UnnamedCall(text).members[k]);
    assert Printable(codec, UnnamedCall(text));
    assert Printable(codec, Json.Arr([UnnamedCall(text)]));
    assert forall k :: k in UnnamedDelta(text).members ==> Printable(codec, UnnamedDelta(text).members[k]);
    PrintableChoice(codec, UnnamedDelta(text), NULL);
    PrintableChunk(codec, MODEL, [ChoiceValue(UnnamedDelta(text), NULL)]);
  }

  /** What the stream is accepted as. */
  function Unnamed(codec: Codec): Assistant { ToolUse("", TOOL, codec.write(ARGUMENTS), "") }

  function Stream(env: Env): string {
    Four(Line(env, UnnamedChunk(env.codec.write(ARGUMENTS))), Line(env, FinishChunk(MODEL, Unnamed(env.codec))),
         Line(env, UsageChunk(MODEL, USAGE)))
  }

  function StreamChunks(a: Assistant, text: string): seq<Chunk> {
    [UnnamedRead(text), WireChunks(a, USAGE)[1], WireChunks(a, USAGE)[2]]
  }

  /** Everything that must fit. */
  ghost function Needed(codec: Codec, env: Env): nat {
    Bulk(codec, UnnamedChunk(codec.write(ARGUMENTS))) + Bulk(codec, FinishChunk(MODEL, Unnamed(codec))) +
    Bulk(codec, UsageChunk(MODEL, USAGE)) + Bulk(codec, ARGUMENTS) + Bulk(codec, MessageChunk(MODEL, Unnamed(codec))) +
    ByteLen(Stream(env)) + ByteLen(Normalize(env, Unnamed(codec), USAGE)) + ByteLen(LAST_LINE) + 4
  }

  function Setting(codec: Codec, n: int): Env {
    Env(MODEL, map[TOOL := v => true], Limits(n, n, n, n, n, n), codec)
  }

  lemma StreamFolds(codec: Codec)
    ensures Fold(StreamChunks(Unnamed(codec), codec.write(ARGUMENTS)), EMPTY) == Some(WireAccum(Unnamed(codec), USAGE))
  {
    var text := codec.write(ARGUMENTS);
    var chunks := StreamChunks(Unnamed(codec), text);
    var acc := WireAccum(Unnamed(codec), USAGE);
    assert Absorb(EMPTY, chunks[0]) == Some(acc.(finish := None, usage := None));
    assert Absorb(acc.(finish := None, usage := None), chunks[1]) == Some(acc.(usage := None));
    assert Absorb(acc.(usage := None), chunks[2]) == Some(acc);
    assert chunks[1..][1..] == chunks[2..] && chunks[2..][1..] == [];
    assert Fold(chunks[2..], acc.(usage := None)) == Some(acc);
    assert Fold(chunks[1..], acc.(finish := None, usage := None)) == Some(acc);
  }

  lemma StreamReads(env: Env)
    requires env.modelId == MODEL
    ensures var a := Unnamed(env.codec);
            ReadsWire(Reading(env), UnnamedChunk(env.codec.write(ARGUMENTS)), FinishChunk(MODEL, a),
                      UsageChunk(MODEL, USAGE),
                      StreamChunks(a, env.codec.write(ARGUMENTS)), true)
  {
    var a, read := Unnamed(env.codec), Reading(env);
    var w := StreamChunks(a, env.codec.write(ARGUMENTS));
    assert read(UnnamedChunk(env.codec.write(ARGUMENTS))) == Some(w[0]) by {
      ReadsUnnamedChunk(env.codec.write(ARGUMENTS));
    }
    assert read(FinishChunk(MODEL, a)) == Some(w[1]) by { ReadsFinishChunk(MODEL, a); }
    assert read(UsageChunk(MODEL, USAGE)) == Some(w[2]) by {
      ReadsUsage(USAGE);
      ReadsUsageChunk(MODEL, USAGE);
    }
  }

  // ---------------------------------------------------------------------
  // It is accepted, and its normal form is not
  // ---------------------------------------------------------------------

  /** The environment of the example, with room for everything. */
  ghost predicate Roomy(env: Env) {
    && env.modelId == MODEL && TOOL in env.validators && env.validators[TOOL](ARGUMENTS)
    && Wide(env, Needed(env.codec, env)) && Lawful(env.codec)
  }

  ghost predicate StreamPrints(env: Env) {
    PrintWell(env, UnnamedChunk(env.codec.write(ARGUMENTS)), FinishChunk(MODEL, Unnamed(env.codec)),
              UsageChunk(MODEL, USAGE))
  }

  lemma StreamIsPrintable(env: Env)
    requires Lawful(env.codec)
    ensures StreamPrints(env) && PrintsWell(env.codec, ARGUMENTS)
  {
    CountIsPrintable(env.codec, 0);
    PrintableUnnamed(env.codec, env.codec.write(ARGUMENTS));
    PrintableChunks(env.codec, MODEL, Unnamed(env.codec), USAGE);
    PrintablePrintWell(env, UnnamedChunk(env.codec.write(ARGUMENTS)), FinishChunk(MODEL, Unnamed(env.codec)),
                       UsageChunk(MODEL, USAGE));
    assert Printable(env.codec, ARGUMENTS);
    assert PrintLaw(env.codec, ARGUMENTS);
  }

  lemma StreamFits(env: Env)
    requires Roomy(env)
    ensures LinesFit(env, UnnamedChunk(env.codec.write(ARGUMENTS)), FinishChunk(MODEL, Unnamed(env.codec)),
                     UsageChunk(MODEL, USAGE))
    ensures Fits(env, ARGUMENTS)
  {
    var n, codec := Needed(env.codec, env), env.codec;
    var m, f, u := UnnamedChunk(codec.write(ARGUMENTS)), FinishChunk(MODEL, Unnamed(codec)), UsageChunk(MODEL, USAGE);
    BulkFits(env, m, 0, n);
    BulkFits(env, f, Keys(env, m), n);
    BulkFits(env, u, Keys(env, m) + Keys(env, f), n);
    BulkFits(env, ARGUMENTS, 0, n);
  }

  lemma NormalFits(env: Env)
    requires Roomy(env)
    ensures LinesFit(env, MessageChunk(MODEL, Unnamed(env.codec)), FinishChunk(MODEL, Unnamed(env.codec)),
                     UsageChunk(MODEL, USAGE))
  {
    var n, codec := Needed(env.codec, env), env.codec;
    var m, f, u := MessageChunk(MODEL, Unnamed(codec)), FinishChunk(MODEL, Unnamed(codec)), UsageChunk(MODEL, USAGE);
    BulkFits(env, m, 0, n);
    BulkFits(env, f, Keys(env, m), n);
    BulkFits(env, u, Keys(env, m) + Keys(env, f), n);
  }

  ghost function StreamLines(env: Env): seq<string> {
    [Line(env, UnnamedChunk(env.codec.write(ARGUMENTS)))] +
    ([Line(env, FinishChunk(MODEL, Unnamed(env.codec)))] + ([Line(env, UsageChunk(MODEL, USAGE))] + [LAST_LINE]))
  }

  lemma StreamEvents(env: Env)
    requires Roomy(env) && StreamPrints(env)
    ensures Events(env, Utf8(Stream(env))) == Some(StreamLines(env))
  {
    FourLines(env, UnnamedChunk(env.codec.write(ARGUMENTS)), FinishChunk(MODEL, Unnamed(env.codec)),
              UsageChunk(MODEL, USAGE));
  }

  lemma StreamDecodes(env: Env)
    requires Roomy(env) && StreamPrints(env)
    ensures Decoding(env)(StreamLines(env), 0) == Some(StreamChunks(Unnamed(env.codec), env.codec.write(ARGUMENTS)))
  {
    StreamFits(env);
    StreamReads(env);
    DecodingSteps(env);
    WireDecodes(env, Decoding(env), Reading(env), UnnamedChunk(env.codec.write(ARGUMENTS)),
                FinishChunk(MODEL, Unnamed(env.codec)),
                UsageChunk(MODEL, USAGE), StreamChunks(Unnamed(env.codec), env.codec.write(ARGUMENTS)), true);
  }

  ghost function Outcome(env: Env): Accepted {
    Accepted(Normalize(env, Unnamed(env.codec), USAGE), Unnamed(env.codec), Some(PendingCall("", TOOL, ARGUMENTS)),
             USAGE)
  }

  lemma StreamFinalizes(env: Env)
    requires Roomy(env) && PrintsWell(env.codec, ARGUMENTS)
    ensures Finalize(env, WireAccum(Unnamed(env.codec), USAGE)) == Some(Outcome(env))
  {
    StreamFits(env);
    PrintedParses(env, ARGUMENTS);
  }

  lemma StreamIsAccepted(env: Env)
    requires Roomy(env)
    ensures Parse(env, Utf8(Stream(env))) == Some(Outcome(env))
  {
    StreamIsPrintable(env);
    StreamEvents(env);
    StreamDecodes(env);
    StreamFolds(env.codec);
    StreamFinalizes(env);
  }

  lemma RoomExists(codec: Codec) returns (env: Env)
    requires Lawful(codec)
    ensures Roomy(env) && env.codec == codec
  {
    var bare := Setting(codec, 0);
    env := Setting(codec, Needed(codec, bare));
    assert Stream(env) == Stream(bare) &&
           Normalize(env, Unnamed(codec), USAGE) == Normalize(bare, Unnamed(codec), USAGE);
  }

  /** For any lawful codec there are limits and a stream such that the stream is
      accepted with an unnamed call, the normalised form fits the limits, and the
      parser refuses it all the same. */
  lemma UnnamedCallIsRefused(codec: Codec) returns (env: Env, body: Body)
    requires Lawful(codec)
    ensures env.codec == codec && Parse(env, body).Some?
    ensures var a := Parse(env, body).value;
            && a.pending.Some? && a.pending.value.callId == "" && WireFits(env, a)
            && Parse(env, Utf8(a.normalized)) == None
  {
    env := RoomExists(codec);
    body := Utf8(Stream(env));
    StreamIsAccepted(env);
    StreamFits(env);
    NormalFits(env);
    NormalizationIsFixedPoint(env, body);
  }
}
