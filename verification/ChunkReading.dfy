/** Reading one chunk of a provider (internal/capsule/sse.go): what a provider
    writes is read back, the members that the reader only tolerates do not matter,
    and nothing else is read. */
module ChunkReading {
  import opened Text
  import Json
  import opened Decimals
  import opened Sse

  // ---------------------------------------------------------------------
  // How a provider writes a chunk
  // ---------------------------------------------------------------------

  /** A member that may be left out. */
  function With(m: Members, name: string, v: Option<Json.Value>): Members {
    if v.Some? then m[name := v.value] else m
  }

  function If(named: bool, v: Json.Value): Option<Json.Value> { if named then Some(v) else None }

  function StringOf(s: Option<string>): Option<Json.Value> {
    if s.Some? then Some(Quoted(s.value)) else None
  }

  /** The choices left to the writer, none of which matters to the reader: the free
      members of the chunk; details of the usage, if any; whether object, model, role
      and type are named; whether absent texts and a null finish reason are written
      as nulls; and whether null log probabilities are. */
  datatype Manner = Manner(
    free: Members, details: Option<map<string, Option<nat>>>,
    kind: bool, model: bool, role: bool, typed: bool, nulls: bool, logprobs: bool)

  const FREE_NAMES: set<string> := {"id", "created", "system_fingerprint", "service_tier"}

  /** A text, absent or written as a null where that is the manner. */
  function Nullable(s: Option<string>, nulls: bool): Option<Json.Value> {
    if s.Some? then Some(Quoted(s.value)) else If(nulls, NULL)
  }

  function DetailsText(details: map<string, Option<nat>>): Json.Value {
    Json.Obj(map name | name in details :: if details[name].Some? then Number(details[name].value) else NULL)
  }

  function UsageText(u: Usage, manner: Manner): Json.Value {
    Json.Obj(With(map["prompt_tokens" := Number(u.input), "completion_tokens" := Number(u.output),
                      "total_tokens" := Number(u.total)],
                  "completion_tokens_details",
                  if manner.details.Some? then Some(DetailsText(manner.details.value)) else None))
  }

  function FunctionMembers(c: CallDelta): Members {
    With(With(map[], "name", StringOf(c.name)), "arguments", StringOf(c.arguments))
  }

  function CallText(c: CallDelta, typed: bool): Json.Value {
    Json.Obj(With(With(map["index" := Number(0), "function" := Json.Obj(FunctionMembers(c))],
                       "id", StringOf(c.id)), "type", If(typed, Quoted("function"))))
  }

  function DeltaMembers(d: Delta, manner: Manner): Members
    requires d.Delta?
  {
    With(With(With(With(map[], "role", If(manner.role, Quoted("assistant"))),
                   "reasoning_content", Nullable(d.reasoning, manner.nulls)),
              "content", Nullable(d.content, manner.nulls)),
         "tool_calls", if d.call.Some? then Some(Json.Arr([CallText(d.call.value, manner.typed)])) else None)
  }

  function DeltaText(d: Delta, manner: Manner): Json.Value {
    if d.Empty? then Json.Obj(map[]) else Json.Obj(DeltaMembers(d, manner))
  }

  function FinishText(f: Option<Finish>): Json.Value {
    match f
    case None => NULL
    case Some(Stop) => Quoted("stop")
    case Some(ToolCalls) => Quoted("tool_calls")
  }

  function ChoiceText(c: Choice, manner: Manner): Json.Value {
    Json.Obj(With(With(map["index" := Number(0), "delta" := DeltaText(c.delta, manner)],
                       "finish_reason", if c.finish.None? && !manner.nulls then None else Some(FinishText(c.finish))),
                  "logprobs", If(manner.logprobs, NULL)))
  }

  function ChunkText(c: Chunk, modelId: string, manner: Manner): Json.Value {
    var choices := Json.Arr(if c.choice.Some? then [ChoiceText(c.choice.value, manner)] else []);
    Json.Obj(With(With(With(manner.free["choices" := choices],
                            "usage", if c.usage.Some? then Some(UsageText(c.usage.value, manner)) else None),
                       "object", If(manner.kind, Quoted("chat.completion.chunk"))),
                  "model", If(manner.model, Quoted(modelId))))
  }

  /** Counts within the limit that add up. */
  predicate GoodUsage(u: Usage) {
    u == Usage(1, u.input, u.output, u.input + u.output, 0) && u.input + u.output <= 1_000_000_000
  }

  /** Known details with counts within the limit, or null. */
  predicate GoodDetails(details: map<string, Option<nat>>) {
    && details.Keys <= DETAIL_NAMES
    && forall name :: name in details && details[name].Some? ==> details[name].value <= 1_000_000_000
  }

  /** A chunk that a provider may send: good usage, well-formed identifiers, and a
      delta that is not empty by accident. */
  predicate GoodChunk(c: Chunk, manner: Manner) {
    && (c.usage.Some? ==> GoodUsage(c.usage.value) && (manner.details.Some? ==> GoodDetails(manner.details.value)))
    && (c.choice.Some? && c.choice.value.delta.Delta? ==> GoodDelta(c.choice.value.delta, manner))
  }

  predicate GoodDelta(d: Delta, manner: Manner)
    requires d.Delta?
  {
    && (manner.role || manner.nulls || d.reasoning.Some? || d.content.Some? || d.call.Some?)
    && (d.call.Some? && d.call.value.id.Some? ==> ValidOperationId(d.call.value.id.value))
  }

  // ---------------------------------------------------------------------
  // What is written is read
  // ---------------------------------------------------------------------

  lemma CountIsRead(n: nat)
    requires n <= 1_000_000_000
    ensures TokenCount(Number(n)) == Some(n)
  {
    DecimalRoundTrip(n);
  }

  lemma DetailsAreRead(details: map<string, Option<nat>>)
    requires GoodDetails(details)
    ensures DetailsOk(DetailsText(details))
  {
    var m := DetailsText(details).members;
    assert m.Keys == details.Keys;
    forall name | name in m ensures m[name] == NULL || TokenCount(m[name]).Some? {
      if details[name].Some? { CountIsRead(details[name].value); }
    }
  }

  lemma UsageIsRead(u: Usage, manner: Manner)
    requires GoodUsage(u) && (manner.details.Some? ==> GoodDetails(manner.details.value))
    ensures ReadUsage(UsageText(u, manner)) == Some(u)
  {
    CountIsRead(u.input);
    CountIsRead(u.output);
    CountIsRead(u.total);
    if manner.details.Some? { DetailsAreRead(manner.details.value); }
  }

  lemma CallIsRead(c: CallDelta, typed: bool)
    requires c.id.Some? ==> ValidOperationId(c.id.value)
    ensures ReadCall(CallText(c, typed)) == Some(c)
  {
    DecimalRoundTrip(0);
    var m := CallText(c, typed).members;
    assert m.Keys <= CALL_NAMES;
    assert At(m, "index") == Number(0);
    FunctionIsRead(c);
    assert At(m, "function") == Json.Obj(FunctionMembers(c));
  }

  lemma FunctionIsRead(c: CallDelta)
    ensures ReadFunction(Json.Obj(FunctionMembers(c)), c.id) == Some(c)
  {}

  lemma DeltaIsRead(d: Delta, manner: Manner)
    requires d.Delta? ==> GoodDelta(d, manner)
    ensures ReadDelta(DeltaText(d, manner)) == Some(d)
  {
    if d.Delta? {
      var m := DeltaMembers(d, manner);
      assert m.Keys <= DELTA_NAMES;
      if d.call.Some? { CallIsRead(d.call.value, manner.typed); }
      CallsAreRead(d, manner);
      TextsAreRead(d, manner);
      DeltaIsNotEmpty(d, manner);
    }
  }

  lemma CallsAreRead(d: Delta, manner: Manner)
    requires d.Delta? && GoodDelta(d, manner)
    ensures ReadCalls(DeltaMembers(d, manner)) == Some(d.call)
  {
    if d.call.Some? { CallIsRead(d.call.value, manner.typed); }
  }

  lemma TextMembers(d: Delta, manner: Manner)
    requires d.Delta?
    ensures var m := DeltaMembers(d, manner);
            && Written(m, "content", d.content, manner.nulls)
            && Written(m, "reasoning_content", d.reasoning, manner.nulls)
            && AbsentOr(m, "role", Quoted("assistant"))
  {}

  /** The member holds the text, or stands for none. */
  predicate Written(m: Members, name: string, text: Option<string>, nulls: bool) {
    if text.Some? then name in m && m[name] == Quoted(text.value)
    else (name in m <==> nulls) && (nulls ==> m[name] == NULL)
  }

  lemma TextsAreRead(d: Delta, manner: Manner)
    requires d.Delta?
    ensures NullableText(DeltaMembers(d, manner), "content") == Some(d.content)
    ensures NullableText(DeltaMembers(d, manner), "reasoning_content") == Some(d.reasoning)
    ensures AbsentOr(DeltaMembers(d, manner), "role", Quoted("assistant"))
  {
    TextMembers(d, manner);
  }

  lemma DeltaIsNotEmpty(d: Delta, manner: Manner)
    requires d.Delta? && GoodDelta(d, manner)
    ensures DeltaMembers(d, manner) != map[]
  {
    var m := DeltaMembers(d, manner);
    assert "role" in m || "reasoning_content" in m || "content" in m || "tool_calls" in m;
  }

  lemma ChoiceIsRead(c: Choice, manner: Manner)
    requires c.delta.Delta? ==> GoodDelta(c.delta, manner)
    ensures ReadChoice(ChoiceText(c, manner)) == Some(c)
  {
    DecimalRoundTrip(0);
    DeltaIsRead(c.delta, manner);
  }

  /** The member is absent or is `v`. */
  predicate AbsentOr(m: Members, name: string, v: Json.Value) { name in m ==> m[name] == v }

  /** What the reader asks of the members, found. */
  lemma MembersAreRead(m: Members, modelId: string, c: Chunk)
    requires m.Keys <= CHUNK_NAMES
    requires AbsentOr(m, "model", Quoted(modelId)) && AbsentOr(m, "object", Quoted("chat.completion.chunk"))
    requires "choices" in m && ReadChoices(m["choices"]) == Some(c.choice)
    requires c.usage.Some? <==> "usage" in m
    requires c.usage.Some? ==> ReadUsage(m["usage"]) == c.usage
    ensures ReadChunk(Json.Obj(m), modelId) == Some(c)
  {}

  /** What the writer put where. */
  lemma MembersAreWritten(c: Chunk, modelId: string, manner: Manner)
    requires manner.free.Keys <= FREE_NAMES
    ensures var m := ChunkText(c, modelId, manner).members;
            && AbsentOr(m, "model", Quoted(modelId)) && AbsentOr(m, "object", Quoted("chat.completion.chunk"))
            && "choices" in m
            && m["choices"] == Json.Arr(if c.choice.Some? then [ChoiceText(c.choice.value, manner)] else [])
            && (c.usage.Some? <==> "usage" in m) && (c.usage.Some? ==> m["usage"] == UsageText(c.usage.value, manner))
  {}

  lemma NamesAreKnown(c: Chunk, modelId: string, manner: Manner)
    requires manner.free.Keys <= FREE_NAMES
    ensures ChunkText(c, modelId, manner).members.Keys <= CHUNK_NAMES
  {}

  lemma ChoicesAreRead(c: Chunk, manner: Manner)
    requires GoodChunk(c, manner)
    ensures ReadChoices(Json.Arr(if c.choice.Some? then [ChoiceText(c.choice.value, manner)] else [])) == Some(c.choice)
  {
    if c.choice.Some? { ChoiceIsRead(c.choice.value, manner); }
  }

  /** Round trip: whatever usage, deltas, call fragments and finish reason a chunk
      has, and however the free members are filled, its JSON reads back as the
      chunk. */
  lemma WrittenChunksAreRead(c: Chunk, modelId: string, manner: Manner)
    requires manner.free.Keys <= FREE_NAMES && GoodChunk(c, manner)
    ensures ReadChunk(ChunkText(c, modelId, manner), modelId) == Some(c)
  {
    NamesAreKnown(c, modelId, manner);
    MembersAreWritten(c, modelId, manner);
    ChoicesAreRead(c, manner);
    if c.usage.Some? { UsageIsRead(c.usage.value, manner); }
    MembersAreRead(ChunkText(c, modelId, manner).members, modelId, c);
  }

  // ---------------------------------------------------------------------
  // What is tolerated does not matter
  // ---------------------------------------------------------------------

  /** Identifier, creation time, fingerprint and service tier may have any value, or
      be left out. */
  lemma FreeMembersDoNotMatter(m: Members, modelId: string, free: Members, without: set<string>)
    requires free.Keys <= FREE_NAMES && without <= FREE_NAMES
    ensures ReadChunk(Json.Obj((m - without) + free), modelId) == ReadChunk(Json.Obj(m), modelId)
  {
    var n := (m - without) + free;
    assert n.Keys <= CHUNK_NAMES <==> m.Keys <= CHUNK_NAMES by {
      assert n.Keys - FREE_NAMES == m.Keys - FREE_NAMES;
      assert FREE_NAMES <= CHUNK_NAMES;
    }
    SameReading(m, n, modelId);
  }

  /** Reading depends on these members, and on the other names being known. */
  lemma SameReading(m: Members, n: Members, modelId: string)
    requires n.Keys <= CHUNK_NAMES <==> m.Keys <= CHUNK_NAMES
    requires "model" in n <==> "model" in m
    requires "object" in n <==> "object" in m
    requires "choices" in n <==> "choices" in m
    requires "usage" in n <==> "usage" in m
    requires At(n, "model") == At(m, "model") && At(n, "object") == At(m, "object")
    requires At(n, "choices") == At(m, "choices") && At(n, "usage") == At(m, "usage")
    ensures ReadChunk(Json.Obj(n), modelId) == ReadChunk(Json.Obj(m), modelId)
  {}

  // ---------------------------------------------------------------------
  // Nothing else is read
  // ---------------------------------------------------------------------

  /** The member is the optional text: absent exactly when the text is, or null where
      that counts as absent. */
  predicate Holds(m: Members, name: string, text: Option<string>, nullable: bool) {
    match text
    case Some(s) => name in m && m[name] == Quoted(s)
    case None => name !in m || (nullable && m[name] == NULL)
  }

  /** The chunk as its JSON shows it, name by name. */
  ghost predicate ShowsChunk(v: Json.Value, modelId: string, c: Chunk) {
    && v.Obj? && v.members.Keys <= CHUNK_NAMES
    && AbsentOr(v.members, "model", Quoted(modelId)) && AbsentOr(v.members, "object", Quoted("chat.completion.chunk"))
    && (c.usage.Some? <==> "usage" in v.members) && (c.usage.Some? ==> ShowsUsage(v.members["usage"], c.usage.value))
    && "choices" in v.members && v.members["choices"].Arr?
    && var choices := v.members["choices"].items;
       if c.choice.Some? then |choices| == 1 && ShowsChoice(choices[0], c.choice.value) else choices == []
  }

  ghost predicate ShowsUsage(v: Json.Value, u: Usage) {
    && v.Obj? && v.members.Keys <= USAGE_NAMES && GoodCounts(u)
    && Integer(At(v.members, "prompt_tokens")) == Some(u.input)
    && Integer(At(v.members, "completion_tokens")) == Some(u.output)
    && Integer(At(v.members, "total_tokens")) == Some(u.total)
  }

  predicate GoodCounts(u: Usage) {
    && u.modelCalls == 1 && u.truncated == 0 && u.total == u.input + u.output
    && u.input <= 1_000_000_000 && u.output <= 1_000_000_000 && u.total <= 1_000_000_000
  }

  ghost predicate ShowsChoice(v: Json.Value, c: Choice) {
    && v.Obj? && v.members.Keys <= CHOICE_NAMES
    && Integer(At(v.members, "index")) == Some(0) && At(v.members, "logprobs") == NULL
    && At(v.members, "finish_reason") == FinishText(c.finish)
    && ShowsDelta(At(v.members, "delta"), c.delta)
  }

  ghost predicate ShowsDelta(v: Json.Value, d: Delta) {
    && v.Obj? && v.members.Keys <= DELTA_NAMES && (d.Empty? <==> v.members == map[])
    && AbsentOr(v.members, "role", Quoted("assistant"))
    && (d.Delta? ==>
          && Holds(v.members, "content", d.content, true) && Holds(v.members, "reasoning_content", d.reasoning, true)
          && (d.call.Some? <==> "tool_calls" in v.members)
          && (d.call.Some? ==>
                && v.members["tool_calls"].Arr? && |v.members["tool_calls"].items| == 1
                && ShowsCall(v.members["tool_calls"].items[0], d.call.value)))
  }

  ghost predicate ShowsCall(v: Json.Value, c: CallDelta) {
    && v.Obj? && v.members.Keys <= CALL_NAMES && Integer(At(v.members, "index")) == Some(0)
    && (At(v.members, "type") == NULL || At(v.members, "type") == Quoted("function"))
    && Holds(v.members, "id", c.id, false) && (c.id.Some? ==> ValidOperationId(c.id.value))
    && At(v.members, "function").Obj? && At(v.members, "function").members.Keys <= FUNCTION_NAMES
    && Holds(At(v.members, "function").members, "name", c.name, false)
    && Holds(At(v.members, "function").members, "arguments", c.arguments, false)
  }

  lemma CallMeans(v: Json.Value, c: CallDelta)
    requires ReadCall(v) == Some(c)
    ensures ShowsCall(v, c)
  {}

  lemma DeltaMeans(v: Json.Value, d: Delta)
    requires ReadDelta(v) == Some(d)
    ensures ShowsDelta(v, d)
  {
    if d.Delta? && d.call.Some? { CallMeans(v.members["tool_calls"].items[0], d.call.value); }
  }

  lemma ChoiceMeans(v: Json.Value, c: Choice)
    requires ReadChoice(v) == Some(c)
    ensures ShowsChoice(v, c)
  {
    DeltaMeans(At(v.members, "delta"), c.delta);
  }

  lemma UsageMeans(v: Json.Value, u: Usage)
    requires ReadUsage(v) == Some(u)
    ensures ShowsUsage(v, u)
  {}

  /** Whatever is read as a chunk shows it: known names only, the right model and
      object, at most one choice with index zero, one call at most, and every text
      and count under its own name. */
  lemma ReadChunksAreShown(v: Json.Value, modelId: string, c: Chunk)
    requires ReadChunk(v, modelId) == Some(c)
    ensures ShowsChunk(v, modelId, c)
  {
    if c.usage.Some? { UsageMeans(v.members["usage"], c.usage.value); }
    if c.choice.Some? { ChoiceMeans(v.members["choices"].items[0], c.choice.value); }
  }
}
