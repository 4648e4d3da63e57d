/** The provider stream (internal/capsule/sse.go): ParseOpenAISSE reads a strict
    subset of server-sent events, accepts one assistant message, and re-emits it
    as a normalised stream. */
module Sse {
  import opened Text
  import Json
  import opened Decimals

  // ---------------------------------------------------------------------
  // Parameters
  // ---------------------------------------------------------------------

  /** `encoding/json`: `lex` splits a text into tokens, `write` is the canonical
      printer, `layout` is the tree that the printer writes, and `finite` says of a
      number literal whether it denotes an int64 or a finite float64. */
  datatype Codec = Codec(
    lex: string -> seq<Json.Token>,
    write: Json.Value -> string,
    layout: Json.Value -> Json.Tree,
    finite: string -> bool)

  /** A number that a text can hold and that is finite. */
  predicate Writable(codec: Codec, s: Json.Scalar) {
    s.Num? ==> NumberLiteral(s.literal) && s.finite && codec.finite(s.literal)
  }

  /** A value all of whose numbers are such. */
  ghost predicate Printable(codec: Codec, v: Json.Value) {
    match v
    case Atom(s) => Writable(codec, s)
    case Arr(items) => forall i :: 0 <= i < |items| ==> Printable(codec, items[i])
    case Obj(members) => forall k :: k in members ==> Printable(codec, members[k])
  }

  /** The printed text reads back as the value under unique names, has no line
      break, and is not the stream terminator. */
  ghost predicate PrintsWell(codec: Codec, v: Json.Value) {
    && codec.lex(codec.write(v)) == Json.Tokens(codec.layout(v))
    && Json.ValueOf(codec.layout(v)) == v && Json.Strict(codec.layout(v))
    && '\n' !in codec.write(v) && '\r' !in codec.write(v)
    && codec.write(v) != "[DONE]"
  }

  /** A number token carries a number literal and its true finiteness. */
  predicate Lexed(codec: Codec, token: Json.Token) {
    token.Item? && token.scalar.Num? ==>
      NumberLiteral(token.scalar.literal) && token.scalar.finite == codec.finite(token.scalar.literal)
  }

  /** Printing and lexing are inverse on printable values. */
  ghost predicate PrintLaw(codec: Codec, v: Json.Value) { Printable(codec, v) ==> PrintsWell(codec, v) }

  /** Only number literals lex as numbers. */
  ghost predicate LexLaw(codec: Codec, text: string) {
    forall i :: 0 <= i < |codec.lex(text)| ==> Lexed(codec, codec.lex(text)[i])
  }

  /** Integers of 64 bits are finite. */
  predicate FiniteLaw(codec: Codec, literal: string) {
    NumberLiteral(literal) && Int64(literal).Some? ==> codec.finite(literal)
  }

  /** What the model assumes of `encoding/json`. */
  ghost predicate Lawful(codec: Codec) {
    && (forall v :: PrintLaw(codec, v))
    && (forall text :: LexLaw(codec, text))
    && (forall literal :: FiniteLaw(codec, literal))
  }

  datatype Limits = Limits(
    maxBytes: int, maxEvents: int, maxLineBytes: int,
    maxDepth: int, maxStringBytes: int, maxKeys: int)
  {
    function Complexity(): Json.Limits { Json.Limits(maxDepth, maxStringBytes, maxKeys) }
  }

  datatype Env = Env(
    modelId: string,
    validators: map<string, Json.Value -> bool>,
    limits: Limits,
    codec: Codec)

  datatype Usage = Usage(modelCalls: nat, input: nat, output: nat, total: nat, truncated: nat)
  {
    function Add(other: Usage): Usage {
      Usage(modelCalls + other.modelCalls, input + other.input, output + other.output,
            total + other.total, truncated + other.truncated)
    }
  }

  datatype Body = NotUtf8(size: nat) | Utf8(text: string)

  datatype Finish = Stop | ToolCalls

  datatype PendingCall = PendingCall(callId: string, name: string, arguments: Json.Value)

  /** The assistant message kept in the transcript; empty reasoning is absent. */
  datatype Assistant =
    | Reply(content: string, reasoning: string)
    | ToolUse(callId: string, name: string, argumentsText: string, reasoning: string)

  datatype Accepted = Accepted(normalized: string, assistant: Assistant, pending: Option<PendingCall>, usage: Usage)

  // ---------------------------------------------------------------------
  // Reading one chunk
  // ---------------------------------------------------------------------

  type Members = map<string, Json.Value>

  function Quoted(s: string): Json.Value { Json.Atom(Json.Str(s)) }
  function Number(n: nat): Json.Value { Json.Atom(Json.Num(Decimal(n), true)) }
  const NULL: Json.Value := Json.Atom(Json.Null)

  /** `closedObject`. */
  function Closed(v: Json.Value, allowed: set<string>): Option<Members> {
    if v.Obj? && v.members.Keys <= allowed then Some(v.members) else None
  }

  /** A Go map lookup: a missing member reads as nil, like a JSON null. */
  function At(m: Members, name: string): Json.Value {
    if name in m then m[name] else NULL
  }

  function Integer(v: Json.Value): Option<int> {
    if v.Atom? && v.scalar.Num? then Int64(v.scalar.literal) else None
  }

  function TextOf(v: Json.Value): Option<string> {
    if v.Atom? && v.scalar.Str? then Some(v.scalar.text) else None
  }

  /** `numberInt`. */
  function TokenCount(v: Json.Value): Option<nat> {
    match Integer(v)
    case None => None
    case Some(n) => if 0 <= n <= 1_000_000_000 then Some(n) else None
  }

  const USAGE_NAMES: set<string> := {"prompt_tokens", "completion_tokens", "completion_tokens_details", "total_tokens"}
  const DETAIL_NAMES: set<string> :=
    {"accepted_prediction_tokens", "audio_tokens", "reasoning_tokens", "rejected_prediction_tokens"}
  const CHUNK_NAMES: set<string> :=
    {"id", "object", "created", "model", "choices", "usage", "system_fingerprint", "service_tier"}
  const CHOICE_NAMES: set<string> := {"index", "delta", "finish_reason", "logprobs"}
  const DELTA_NAMES: set<string> := {"role", "content", "reasoning_content", "tool_calls"}
  const CALL_NAMES: set<string> := {"index", "id", "type", "function"}
  const FUNCTION_NAMES: set<string> := {"name", "arguments"}

  predicate DetailsOk(v: Json.Value) {
    match Closed(v, DETAIL_NAMES)
    case None => false
    case Some(m) => forall name :: name in m ==> m[name] == NULL || TokenCount(m[name]).Some?
  }

  /** `parseUsage`. */
  function ReadUsage(v: Json.Value): Option<Usage> {
    match Closed(v, USAGE_NAMES)
    case None => None
    case Some(m) =>
      if "completion_tokens_details" in m && !DetailsOk(m["completion_tokens_details"]) then None
      else match (TokenCount(At(m, "prompt_tokens")), TokenCount(At(m, "completion_tokens")),
                  TokenCount(At(m, "total_tokens")))
        case (Some(input), Some(output), Some(total)) =>
          if total == input + output then Some(Usage(1, input, output, total, 0)) else None
        case _ => None
  }

  predicate OperationChar(c: char) {
    'A' <= c <= 'Z' || 'a' <= c <= 'z' || '0' <= c <= '9' || c == '.' || c == '_' || c == ':' || c == '-'
  }

  /** `validOperationID`. */
  predicate ValidOperationId(s: string) {
    1 <= |s| <= 128 && forall i :: 0 <= i < |s| ==> OperationChar(s[i])
  }

  datatype CallDelta = CallDelta(id: Option<string>, name: Option<string>, arguments: Option<string>)
  /** `Empty` is an object without members. */
  datatype Delta = Empty | Delta(reasoning: Option<string>, content: Option<string>, call: Option<CallDelta>)
  datatype Choice = Choice(delta: Delta, finish: Option<Finish>)
  datatype Chunk = Chunk(usage: Option<Usage>, choice: Option<Choice>)

  /** An optional string member: absent, a string, or invalid. */
  function OptionalText(m: Members, name: string): Option<Option<string>> {
    if name !in m then Some(None)
    else match TextOf(m[name]) case None => None case Some(s) => Some(Some(s))
  }

  /** The same where a JSON null also counts as absent. */
  function NullableText(m: Members, name: string): Option<Option<string>> {
    if At(m, name) == NULL then Some(None) else OptionalText(m, name)
  }

  function ReadFunction(v: Json.Value, id: Option<string>): Option<CallDelta> {
    match Closed(v, FUNCTION_NAMES)
    case None => None
    case Some(m) =>
      match (OptionalText(m, "name"), OptionalText(m, "arguments"))
      case (Some(name), Some(arguments)) => Some(CallDelta(id, name, arguments))
      case _ => None
  }

  function ReadCall(v: Json.Value): Option<CallDelta> {
    match Closed(v, CALL_NAMES)
    case None => None
    case Some(m) =>
      if Integer(At(m, "index")) != Some(0) || (At(m, "type") != NULL && At(m, "type") != Quoted("function")) then None
      else match OptionalText(m, "id")
        case None => None
        case Some(id) =>
          if id.Some? && !ValidOperationId(id.value) then None
          else ReadFunction(At(m, "function"), id)
  }

  function ReadCalls(m: Members): Option<Option<CallDelta>> {
    if "tool_calls" !in m then Some(None)
    else
      var calls := m["tool_calls"];
      if !(calls.Arr? && |calls.items| == 1) then None
      else match ReadCall(calls.items[0]) case None => None case Some(call) => Some(Some(call))
  }

  function ReadDelta(v: Json.Value): Option<Delta> {
    match Closed(v, DELTA_NAMES)
    case None => None
    case Some(m) =>
      if "role" in m && m["role"] != Quoted("assistant") then None
      else match (NullableText(m, "reasoning_content"), NullableText(m, "content"), ReadCalls(m))
        case (Some(reasoning), Some(content), Some(call)) =>
          Some(if m == map[] then Empty else Delta(reasoning, content, call))
        case _ => None
  }

  function ReadFinish(v: Json.Value): Option<Option<Finish>> {
    if v == NULL then Some(None)
    else if v == Quoted("stop") then Some(Some(Stop))
    else if v == Quoted("tool_calls") then Some(Some(ToolCalls))
    else None
  }

  function ReadChoice(v: Json.Value): Option<Choice> {
    match Closed(v, CHOICE_NAMES)
    case None => None
    case Some(m) =>
      if Integer(At(m, "index")) != Some(0) || At(m, "logprobs") != NULL then None
      else match (ReadDelta(At(m, "delta")), ReadFinish(At(m, "finish_reason")))
        case (Some(delta), Some(finish)) => Some(Choice(delta, finish))
        case _ => None
  }

  function ReadChoices(v: Json.Value): Option<Option<Choice>> {
    if !(v.Arr? && |v.items| <= 1) then None
    else if v.items == [] then Some(None)
    else match ReadChoice(v.items[0]) case None => None case Some(choice) => Some(Some(choice))
  }

  /** Everything a chunk's JSON must satisfy on its own. */
  function ReadChunk(v: Json.Value, modelId: string): Option<Chunk> {
    match Closed(v, CHUNK_NAMES)
    case None => None
    case Some(m) =>
      if "model" in m && m["model"] != Quoted(modelId) then None
      else if "object" in m && m["object"] != Quoted("chat.completion.chunk") then None
      else if "choices" !in m then None
      else match ReadChoices(m["choices"])
        case None => None
        case Some(choice) =>
          if "usage" !in m then Some(Chunk(None, choice))
          else match ReadUsage(m["usage"]) case None => None case Some(usage) => Some(Chunk(Some(usage), choice))
  }

  // ---------------------------------------------------------------------
  // Absorbing chunks
  // ---------------------------------------------------------------------

  /** What the loop has gathered; fragments are already joined. */
  datatype Accum = Accum(
    content: string, reasoning: string, arguments: Option<string>,
    callId: string, callName: string, sawTool: bool,
    finish: Option<Finish>, usage: Option<Usage>)

  const EMPTY := Accum("", "", None, "", "", false, None, None)

  function AbsorbCall(acc: Accum, call: CallDelta): Option<Accum> {
    if acc.content != "" then None
    else if call.id.Some? && acc.callId != "" && call.id.value != acc.callId then None
    else if call.name.Some? && acc.callName != "" && call.name.value != acc.callName then None
    else Some(acc.(
      sawTool := true,
      callId := if call.id.Some? then call.id.value else acc.callId,
      callName := if call.name.Some? then call.name.value else acc.callName,
      arguments := match (acc.arguments, call.arguments)
                   case (Some(a), Some(b)) => Some(a + b)
                   case (Some(a), None) => Some(a)
                   case (None, b) => b))
  }

  /** A delta before the finish reason. */
  function AbsorbDelta(acc: Accum, delta: Delta): Option<Accum> {
    if delta.Empty? then Some(acc)
    else if acc.sawTool && delta.content.Some? && delta.content.value != "" then None
    else
      var acc' := acc.(
        reasoning := if delta.reasoning.Some? then acc.reasoning + delta.reasoning.value else acc.reasoning,
        content := if delta.content.Some? then acc.content + delta.content.value else acc.content);
      if delta.call.Some? then AbsorbCall(acc', delta.call.value) else Some(acc')
  }

  function Absorb(acc: Accum, chunk: Chunk): Option<Accum> {
    if chunk.usage.Some? && acc.usage.Some? then None
    else
      var acc' := if chunk.usage.Some? then acc.(usage := chunk.usage) else acc;
      match chunk.choice
      case None => if chunk.usage.None? || acc.finish.None? then None else Some(acc')
      case Some(choice) =>
        if acc.finish.Some? then
          if choice.delta.Empty? && choice.finish.None? && chunk.usage.Some? then Some(acc') else None
        else match AbsorbDelta(acc', choice.delta)
          case None => None
          case Some(r) => Some(if choice.finish.Some? then r.(finish := choice.finish) else r)
  }

  function Fold(chunks: seq<Chunk>, acc: Accum): Option<Accum> {
    if chunks == [] then Some(acc)
    else match Absorb(acc, chunks[0]) case None => None case Some(acc') => Fold(chunks[1..], acc')
  }

  // ---------------------------------------------------------------------
  // The accepted message and its normalised stream
  // ---------------------------------------------------------------------

  function WithReasoning(m: Members, reasoning: string): Json.Value {
    Json.Obj(if reasoning == "" then m else m["reasoning_content" := Quoted(reasoning)])
  }

  function CallValue(a: Assistant): Json.Value
    requires a.ToolUse?
  {
    Json.Obj(map["index" := Number(0), "id" := Quoted(a.callId), "type" := Quoted("function"),
                 "function" := Json.Obj(map["name" := Quoted(a.name), "arguments" := Quoted(a.argumentsText)])])
  }

  function DeltaValue(a: Assistant): Json.Value {
    match a
    case Reply(content, reasoning) =>
      WithReasoning(map["role" := Quoted("assistant"), "content" := Quoted(content)], reasoning)
    case ToolUse(_, _, _, reasoning) =>
      WithReasoning(map["role" := Quoted("assistant"), "tool_calls" := Json.Arr([CallValue(a)])], reasoning)
  }

  function ChoiceValue(delta: Json.Value, finish: Json.Value): Json.Value {
    Json.Obj(map["index" := Number(0), "delta" := delta, "finish_reason" := finish])
  }

  function ChunkValue(modelId: string, choices: seq<Json.Value>): Members {
    map["id" := Quoted("host-normalized"), "object" := Quoted("chat.completion.chunk"), "model" := Quoted(modelId),
        "choices" := Json.Arr(choices)]
  }

  function FinishValue(a: Assistant): Json.Value {
    Quoted(if a.ToolUse? then "tool_calls" else "stop")
  }

  function UsageValue(usage: Usage): Json.Value
  {
    Json.Obj(map["prompt_tokens" := Number(usage.input), "completion_tokens" := Number(usage.output),
                 "total_tokens" := Number(usage.total)])
  }

  /** The three normalised chunks: message, finish reason, usage. */
  function MessageChunk(modelId: string, a: Assistant): Json.Value {
    Json.Obj(ChunkValue(modelId, [ChoiceValue(DeltaValue(a), NULL)]))
  }

  function FinishChunk(modelId: string, a: Assistant): Json.Value {
    Json.Obj(ChunkValue(modelId, [ChoiceValue(Json.Obj(map[]), FinishValue(a))]))
  }

  function UsageChunk(modelId: string, usage: Usage): Json.Value
  {
    Json.Obj(ChunkValue(modelId, [])["usage" := UsageValue(usage)])
  }

  function Normalize(env: Env, a: Assistant, usage: Usage): string
  {
    "data: " + env.codec.write(MessageChunk(env.modelId, a)) + "\n\n" +
    "data: " + env.codec.write(FinishChunk(env.modelId, a)) + "\n\n" +
    "data: " + env.codec.write(UsageChunk(env.modelId, usage)) + "\n\n" +
    "data: [DONE]\n\n"
  }

  /** The tool call of a stream that asked for a tool. */
  function ReadPending(env: Env, acc: Accum): Option<PendingCall> {
    if acc.finish != Some(ToolCalls) || acc.callName == "" || acc.arguments.None? then None
    else if acc.callName !in env.validators then None
    else match Json.ParseStrict(env.codec.lex(acc.arguments.value), env.limits.Complexity())
      case None => None
      case Some((arguments, _)) =>
        if arguments.Obj? && env.validators[acc.callName](arguments)
        then Some(PendingCall(acc.callId, acc.callName, arguments)) else None
  }

  function Message(env: Env, acc: Accum): Option<(Assistant, Option<PendingCall>)> {
    if acc.sawTool then
      match ReadPending(env, acc)
      case None => None
      case Some(call) =>
        Some((ToolUse(call.callId, call.name, env.codec.write(call.arguments), acc.reasoning), Some(call)))
    else if acc.finish != Some(Stop) then None
    else Some((Reply(acc.content, acc.reasoning), None))
  }

  function Finalize(env: Env, acc: Accum): Option<Accepted> {
    if acc.usage.None? || acc.finish.None? then None
    else match Message(env, acc)
      case None => None
      case Some((assistant, pending)) =>
        var normalized := Normalize(env, assistant, acc.usage.value);
        if ByteLen(normalized) > env.limits.maxBytes then None
        else Some(Accepted(normalized, assistant, pending, acc.usage.value))
  }

  /** Acceptance as a function of the decoded chunks alone. */
  function Accept(env: Env, chunks: seq<Chunk>): Option<Accepted> {
    match Fold(chunks, EMPTY) case None => None case Some(acc) => Finalize(env, acc)
  }

  // ---------------------------------------------------------------------
  // From text to chunks
  // ---------------------------------------------------------------------

  /** `\r\n` and `\r` become `\n`. */
  function UnixLines(s: string): string {
    if s == "" then ""
    else if s[0] == '\r' then
      "\n" + UnixLines(if |s| > 1 && s[1] == '\n' then s[2..] else s[1..])
    else [s[0]] + UnixLines(s[1..])
  }

  /** `strings.Split(s, "\n\n")`. */
  function SplitBlank(s: string): (r: seq<string>)
    ensures r != []
  {
    if |s| >= 2 && s[0] == '\n' && s[1] == '\n' then [""] + SplitBlank(s[2..])
    else if s == "" then [""]
    else
      var rest := SplitBlank(s[1..]);
      [[s[0]] + rest[0]] + rest[1..]
  }

  function NonEmpty(parts: seq<string>): seq<string> {
    if parts == [] then []
    else if parts[0] == "" then NonEmpty(parts[1..])
    else [parts[0]] + NonEmpty(parts[1..])
  }

  /** The events of a body, or none if it is empty, too long, not UTF-8,
      truncated, or has too few or too many events. */
  function Events(env: Env, body: Body): Option<seq<string>> {
    if body.NotUtf8? then None
    else if body.text == "" || ByteLen(body.text) > env.limits.maxBytes then None
    else
      var text := UnixLines(body.text);
      if !(|text| >= 2 && text[|text| - 2..] == "\n\n") then None
      else
        var events := NonEmpty(SplitBlank(text[..|text| - 2]));
        if 1 <= |events| <= env.limits.maxEvents then Some(events) else None
  }

  /** The data of an event: one line, within the line limit, after `data:` and
      one optional space. */
  function EventData(env: Env, event: string): Option<string> {
    if '\n' in event || ByteLen(event) > env.limits.maxLineBytes then None
    else if !(|event| >= 5 && event[..5] == "data:") then None
    else
      var data := event[5..];
      Some(if data != "" && data[0] == ' ' then data[1..] else data)
  }

  /** One chunk, given the members counted so far. */
  function DataChunk(env: Env, data: string, keys: nat): Option<(Chunk, nat)> {
    match Json.ParseStrict(env.codec.lex(data), env.limits.Complexity())
    case None => None
    case Some((value, count)) =>
      if keys + count > env.limits.maxKeys then None
      else match ReadChunk(value, env.modelId)
        case None => None
        case Some(chunk) => Some((chunk, keys + count))
  }

  /** The chunks before a terminator that must be the last event. */
  function Chunks(env: Env, events: seq<string>, keys: nat): Option<seq<Chunk>> {
    if events == [] then None
    else match EventData(env, events[0])
      case None => None
      case Some(data) =>
        if data == "[DONE]" then if |events| == 1 then Some([]) else None
        else match DataChunk(env, data, keys)
          case None => None
          case Some((chunk, keys')) =>
            match Chunks(env, events[1..], keys')
            case None => None
            case Some(rest) => Some([chunk] + rest)
  }

  /** `ParseOpenAISSE`. */
  function Parse(env: Env, body: Body): Option<Accepted> {
    match Events(env, body)
    case None => None
    case Some(events) =>
      match Chunks(env, events, 0) case None => None case Some(chunks) => Accept(env, chunks)
  }

  // ---------------------------------------------------------------------
  // The loop of ParseOpenAISSE
  // ---------------------------------------------------------------------

  /** `anyNonempty`. */
  method AnyNonempty(values: seq<string>) returns (r: bool)
    ensures r <==> Join(values) != ""
  {
    for i := 0 to |values|
      invariant Join(values) == Join(values[i..])
    {
      if values[i] != "" {
        assert values[i..][0] == values[i];
        return true;
      }
      assert values[i..][1..] == values[i + 1..];
    }
    r := false;
  }

  lemma {:induction false} FoldSnoc(chunks: seq<Chunk>, last: Chunk, acc: Accum)
    ensures Fold(chunks + [last], acc) == match Fold(chunks, acc) case None => None case Some(r) => Absorb(r, last)
  {
    if chunks == [] {
      assert chunks + [last] == [last];
      assert [last][1..] == [];
    } else {
      assert (chunks + [last])[1..] == chunks[1..] + [last];
      match Absorb(acc, chunks[0])
      case None =>
      case Some(acc') => FoldSnoc(chunks[1..], last, acc');
    }
  }

  lemma {:induction false} FoldFailsEarly(chunks: seq<Chunk>, more: seq<Chunk>, acc: Accum)
    requires Fold(chunks, acc).None?
    ensures Fold(chunks + more, acc).None?
  {
    if chunks != [] {
      assert (chunks + more)[1..] == chunks[1..] + more;
      if Absorb(acc, chunks[0]).Some? { FoldFailsEarly(chunks[1..], more, Absorb(acc, chunks[0]).value); }
    }
  }

  /** What remains of the whole answer after `seen` chunks. */
  ghost function Outlook(env: Env, seen: seq<Chunk>, events: seq<string>, keys: nat): Option<Accepted> {
    match Chunks(env, events, keys) case None => None case Some(rest) => Accept(env, seen + rest)
  }

  lemma OutlookStep(env: Env, seen: seq<Chunk>, events: seq<string>, keys: nat)
    requires events != [] && EventData(env, events[0]).Some? && EventData(env, events[0]).value != "[DONE]"
    ensures var d := DataChunk(env, EventData(env, events[0]).value, keys);
            Outlook(env, seen, events, keys) ==
              if d.None? then None else Outlook(env, seen + [d.value.0], events[1..], d.value.1)
  {
    var d := DataChunk(env, EventData(env, events[0]).value, keys);
    if d.Some? && Chunks(env, events[1..], d.value.1).Some? {
      var rest := Chunks(env, events[1..], d.value.1).value;
      assert seen + ([d.value.0] + rest) == (seen + [d.value.0]) + rest;
    }
  }

  lemma OutlookFails(env: Env, seen: seq<Chunk>, events: seq<string>, keys: nat)
    requires Fold(seen, EMPTY).None?
    ensures Outlook(env, seen, events, keys).None?
  {
    if Chunks(env, events, keys).Some? { FoldFailsEarly(seen, Chunks(env, events, keys).value, EMPTY); }
  }

  /** At the terminator the answer is that of the chunks seen. */
  lemma OutlookDone(env: Env, seen: seq<Chunk>, events: seq<string>, keys: nat, acc: Accum)
    requires events != [] && EventData(env, events[0]) == Some("[DONE]") && Fold(seen, EMPTY) == Some(acc)
    ensures Outlook(env, seen, events, keys) ==
            if |events| == 1 && acc.finish.Some? && acc.usage.Some? then Finalize(env, acc) else None
  {
    assert seen + [] == seen;
  }

  /** The variables of the event loop: fragments are kept in lists and joined
      only at the end. */
  class Collector {
    var content: seq<string>
    var reasoning: seq<string>
    var parts: seq<string>
    var callId: string
    var callName: string
    var sawTool: bool
    var finish: Option<Finish>
    var usage: Option<Usage>

    function View(): Accum
      reads this
    {
      Accum(Join(content), Join(reasoning), if parts == [] then None else Some(Join(parts)),
            callId, callName, sawTool, finish, usage)
    }

    constructor ()
      ensures View() == EMPTY
    {
      content, reasoning, parts := [], [], [];
      callId, callName, sawTool := "", "", false;
      finish, usage := None, None;
    }

    method TakeCall(call: CallDelta) returns (ok: bool)
      modifies this
      ensures ok <==> AbsorbCall(old(View()), call).Some?
      ensures ok ==> View() == AbsorbCall(old(View()), call).value
    {
      sawTool := true;
      var text := AnyNonempty(content);
      if text { return false; }
      if call.id.Some? {
        if callId != "" && call.id.value != callId { return false; }
        callId := call.id.value;
      }
      if call.name.Some? {
        if callName != "" && call.name.value != callName { return false; }
        callName := call.name.value;
      }
      if call.arguments.Some? {
        JoinSnoc(parts, call.arguments.value);
        parts := parts + [call.arguments.value];
        assert Join([]) + call.arguments.value == call.arguments.value;
      }
      ok := true;
    }

    method TakeDelta(delta: Delta) returns (ok: bool)
      modifies this
      ensures ok <==> AbsorbDelta(old(View()), delta).Some?
      ensures ok ==> View() == AbsorbDelta(old(View()), delta).value
    {
      if delta.Empty? { return true; }
      if delta.reasoning.Some? {
        if delta.reasoning.value != "" {
          JoinSnoc(reasoning, delta.reasoning.value);
          reasoning := reasoning + [delta.reasoning.value];
        } else {
          assert Join(reasoning) + "" == Join(reasoning);
        }
      }
      if delta.content.Some? {
        if sawTool && delta.content.value != "" { return false; }
        JoinSnoc(content, delta.content.value);
        content := content + [delta.content.value];
      }
      if delta.call.Some? {
        ok := TakeCall(delta.call.value);
      } else {
        ok := true;
      }
    }

    method Take(chunk: Chunk) returns (ok: bool)
      modifies this
      ensures ok <==> Absorb(old(View()), chunk).Some?
      ensures ok ==> View() == Absorb(old(View()), chunk).value
    {
      if chunk.usage.Some? {
        if usage.Some? { return false; }
        usage := chunk.usage;
      }
      if chunk.choice.None? { return !(chunk.usage.None? || finish.None?); }
      var choice := chunk.choice.value;
      if finish.Some? {
        return choice.delta.Empty? && choice.finish.None? && chunk.usage.Some?;
      }
      ok := TakeDelta(choice.delta);
      if ok && choice.finish.Some? { finish := choice.finish; }
    }
  }

  method ParseOpenAISSE(env: Env, body: Body) returns (r: Option<Accepted>)
    ensures r == Parse(env, body)
  {
    var split := Events(env, body);
    if split.None? { return None; }
    assert forall rest: seq<Chunk> :: [] + rest == rest;
    r := ParseEvents(env, split.value);
  }

  /** The chunks `seen` were gathered into `acc`, and the answer still to be found in
      the events of `rest` is `answer`. */
  ghost predicate Underway(env: Env, answer: Option<Accepted>, seen: seq<Chunk>, rest: seq<string>, keys: nat,
                           acc: Accum) {
    answer == Outlook(env, seen, rest, keys) && Fold(seen, EMPTY) == Some(acc)
  }

  lemma UnderwayStep(env: Env, answer: Option<Accepted>, seen: seq<Chunk>, rest: seq<string>, keys: nat, acc: Accum,
                     chunk: Chunk, keys': nat)
    requires Underway(env, answer, seen, rest, keys, acc) && rest != []
    requires EventData(env, rest[0]).Some? && EventData(env, rest[0]).value != "[DONE]"
    requires DataChunk(env, EventData(env, rest[0]).value, keys) == Some((chunk, keys'))
    ensures Absorb(acc, chunk).Some? ==>
            Underway(env, answer, seen + [chunk], rest[1..], keys', Absorb(acc, chunk).value)
    ensures Absorb(acc, chunk).None? ==> answer == None
  {
    OutlookStep(env, seen, rest, keys);
    FoldSnoc(seen, chunk, EMPTY);
    if Absorb(acc, chunk).None? { OutlookFails(env, seen + [chunk], rest[1..], keys'); }
  }

  lemma UnderwayRefused(env: Env, answer: Option<Accepted>, seen: seq<Chunk>, rest: seq<string>, keys: nat, acc: Accum)
    requires Underway(env, answer, seen, rest, keys, acc)
    requires rest == [] || EventData(env, rest[0]).None? ||
             (EventData(env, rest[0]).value != "[DONE]" && DataChunk(env, EventData(env, rest[0]).value, keys).None?)
    ensures answer == None
  {}

  /** The event loop. */
  method ParseEvents(env: Env, events: seq<string>) returns (r: Option<Accepted>)
    ensures r == Outlook(env, [], events, 0)
  {
    var collector := new Collector();
    var keys := 0;
    ghost var seen: seq<Chunk> := [];
    ghost var answer := Outlook(env, [], events, 0);
    var index := 0;
    while index < |events|
      invariant 0 <= index <= |events| && Underway(env, answer, seen, events[index..], keys, collector.View())
    {
      var data := EventData(env, events[index]);
      if data.None? {
        UnderwayRefused(env, answer, seen, events[index..], keys, collector.View());
        return None;
      }
      if data.value == "[DONE]" {
        OutlookDone(env, seen, events[index..], keys, collector.View());
        if index != |events| - 1 || collector.finish.None? || collector.usage.None? { return None; }
        return Finalize(env, collector.View());
      }
      var decoded := DataChunk(env, data.value, keys);
      if decoded.None? {
        UnderwayRefused(env, answer, seen, events[index..], keys, collector.View());
        return None;
      }
      UnderwayStep(env, answer, seen, events[index..], keys, collector.View(), decoded.value.0, decoded.value.1);
      var ok := collector.Take(decoded.value.0);
      if !ok { return None; }
      seen := seen + [decoded.value.0];
      assert events[index..][1..] == events[index + 1..];
      index, keys := index + 1, decoded.value.1;
    }
    UnderwayRefused(env, answer, seen, events[index..], keys, collector.View());
    r := None;
  }
}
