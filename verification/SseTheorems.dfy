/** What ParseOpenAISSE guarantees about every provider stream: fragmentation is
    invisible, acceptance fixes the shape of the stream, and the accepted message
    is the concatenation of its fragments. */
module SseTheorems {
  import opened Text
  import Json
  import opened Sse

  // ---------------------------------------------------------------------
  // Fragmentation is invisible
  // ---------------------------------------------------------------------

  /** Which text of a delta is cut, and where. */
  datatype Cut = InContent(x: string, y: string) | InReasoning(x: string, y: string) | InArguments(x: string, y: string)

  ghost predicate Cuttable(d: Delta, cut: Cut) {
    && d.Delta?
    && match cut
       case InContent(x, y) => d.content == Some(x + y)
       case InReasoning(x, y) => d.reasoning == Some(x + y)
       case InArguments(x, y) => d.call.Some? && d.call.value.arguments == Some(x + y)
  }

  /** The front keeps everything but the text behind the cut. */
  function Front(d: Delta, cut: Cut): Delta
    requires Cuttable(d, cut)
  {
    match cut
    case InContent(x, _) => d.(content := Some(x))
    case InReasoning(x, _) => d.(reasoning := Some(x))
    case InArguments(x, _) => d.(call := Some(d.call.value.(arguments := Some(x))))
  }

  /** The back carries only that text. */
  function Back(cut: Cut): Delta {
    match cut
    case InContent(_, y) => Delta(None, Some(y), None)
    case InReasoning(_, y) => Delta(Some(y), None, None)
    case InArguments(_, y) => Delta(None, None, Some(CallDelta(None, None, Some(y))))
  }

  /** A chunk is cut in two consecutive chunks; the finish reason and the usage,
      if any, travel with the second. */
  ghost predicate Cuts(whole: Chunk, first: Chunk, second: Chunk, cut: Cut) {
    && whole.choice.Some? && Cuttable(whole.choice.value.delta, cut)
    && first == Chunk(None, Some(Choice(Front(whole.choice.value.delta, cut), None)))
    && second == Chunk(whole.usage, Some(Choice(Back(cut), whole.choice.value.finish)))
  }

  function Then(r: Option<Accum>, chunk: Chunk): Option<Accum> {
    match r case None => None case Some(acc) => Absorb(acc, chunk)
  }

  function ThenDelta(r: Option<Accum>, delta: Delta): Option<Accum> {
    match r case None => None case Some(acc) => AbsorbDelta(acc, delta)
  }

  lemma ContentCut(acc: Accum, d: Delta, x: string, y: string)
    requires Cuttable(d, InContent(x, y))
    ensures AbsorbDelta(acc, d) == ThenDelta(AbsorbDelta(acc, Front(d, InContent(x, y))), Back(InContent(x, y)))
  {
    assert acc.content + (x + y) == (acc.content + x) + y;
    if x == "" && y == "" { assert x + y == ""; }
    if y == "" { assert (acc.content + x) + y == acc.content + x && x + y == x; }
    if x == "" { assert x + y == y; }
  }

  lemma ReasoningCut(acc: Accum, d: Delta, x: string, y: string)
    requires Cuttable(d, InReasoning(x, y))
    ensures AbsorbDelta(acc, d) == ThenDelta(AbsorbDelta(acc, Front(d, InReasoning(x, y))), Back(InReasoning(x, y)))
  {
    assert acc.reasoning + (x + y) == (acc.reasoning + x) + y;
  }

  lemma ArgumentsCut(acc: Accum, d: Delta, x: string, y: string)
    requires Cuttable(d, InArguments(x, y))
    ensures AbsorbDelta(acc, d) == ThenDelta(AbsorbDelta(acc, Front(d, InArguments(x, y))), Back(InArguments(x, y)))
  {
    if acc.arguments.Some? { assert acc.arguments.value + (x + y) == (acc.arguments.value + x) + y; }
  }

  lemma DeltaCut(acc: Accum, d: Delta, cut: Cut)
    requires Cuttable(d, cut)
    ensures AbsorbDelta(acc, d) == ThenDelta(AbsorbDelta(acc, Front(d, cut)), Back(cut))
  {
    match cut
    case InContent(x, y) => ContentCut(acc, d, x, y);
    case InReasoning(x, y) => ReasoningCut(acc, d, x, y);
    case InArguments(x, y) => ArgumentsCut(acc, d, x, y);
  }

  lemma UsageRidesAlong(acc: Accum, delta: Delta, usage: Option<Usage>)
    ensures AbsorbDelta(acc.(usage := usage), delta) ==
            match AbsorbDelta(acc, delta) case None => None case Some(r) => Some(r.(usage := usage))
  {}

  lemma ChunkCut(acc: Accum, whole: Chunk, first: Chunk, second: Chunk, cut: Cut)
    requires Cuts(whole, first, second, cut)
    ensures Absorb(acc, whole) == Then(Absorb(acc, first), second)
  {
    if acc.finish.None? {
      var d, d1, d2 := whole.choice.value.delta, first.choice.value.delta, second.choice.value.delta;
      DeltaCut(acc, d, cut);
      var usage := if whole.usage.Some? then whole.usage else acc.usage;
      UsageRidesAlong(acc, d, usage);
      if AbsorbDelta(acc, d1).Some? {
        var r := AbsorbDelta(acc, d1).value;
        UsageRidesAlong(r, d2, usage);
        assert r.usage == acc.usage && r.finish == acc.finish;
        assert r.(usage := r.usage) == r;
      }
    }
  }

  lemma {:induction false} FoldConcat(a: seq<Chunk>, b: seq<Chunk>, acc: Accum)
    ensures Fold(a + b, acc) == match Fold(a, acc) case None => None case Some(r) => Fold(b, r)
  {
    if a == [] {
      assert a + b == b;
    } else {
      assert (a + b)[1..] == a[1..] + b;
      if Absorb(acc, a[0]).Some? { FoldConcat(a[1..], b, Absorb(acc, a[0]).value); }
    }
  }

  /** Cutting any content, reasoning or argument fragment of a stream leaves the
      answer as it was: message, pending call, usage and normalised bytes, or
      the refusal. */
  lemma FragmentationIsInvisible(env: Env, before: seq<Chunk>, whole: Chunk, first: Chunk, second: Chunk,
                                 after: seq<Chunk>, cut: Cut)
    requires Cuts(whole, first, second, cut)
    ensures Accept(env, before + [whole] + after) == Accept(env, before + [first, second] + after)
  {
    assert before + [whole] + after == before + ([whole] + after);
    assert before + [first, second] + after == before + ([first, second] + after);
    FoldConcat(before, [whole] + after, EMPTY);
    FoldConcat(before, [first, second] + after, EMPTY);
    if Fold(before, EMPTY).Some? {
      var acc := Fold(before, EMPTY).value;
      ChunkCut(acc, whole, first, second, cut);
      FoldOne(whole, after, acc);
      FoldOne(first, [second] + after, acc);
      assert [first] + ([second] + after) == [first, second] + after;
      if Absorb(acc, first).Some? { FoldOne(second, after, Absorb(acc, first).value); }
    }
  }

  lemma FoldOne(chunk: Chunk, rest: seq<Chunk>, acc: Accum)
    ensures Fold([chunk] + rest, acc) == match Absorb(acc, chunk) case None => None case Some(r) => Fold(rest, r)
  {
    assert ([chunk] + rest)[1..] == rest;
  }

  /** A body whose events decode to `chunks` is accepted or refused as they are. */
  lemma ParseIs(env: Env, body: Body, events: seq<string>, chunks: seq<Chunk>)
    requires Events(env, body) == Some(events) && Chunks(env, events, 0) == Some(chunks)
    ensures Parse(env, body) == Accept(env, chunks)
  {}

  // ---------------------------------------------------------------------
  // The shape of an accepted stream
  // ---------------------------------------------------------------------

  predicate Finishes(chunk: Chunk) { chunk.choice.Some? && chunk.choice.value.finish.Some? }
  predicate HasText(chunk: Chunk) {
    && chunk.choice.Some? && chunk.choice.value.delta.Delta?
    && chunk.choice.value.delta.content.Some? && chunk.choice.value.delta.content.value != ""
  }
  predicate HasCall(chunk: Chunk) {
    chunk.choice.Some? && chunk.choice.value.delta.Delta? && chunk.choice.value.delta.call.Some?
  }

  function FinishCount(chunks: seq<Chunk>): nat {
    if chunks == [] then 0 else (if Finishes(chunks[0]) then 1 else 0) + FinishCount(chunks[1..])
  }

  function UsageCount(chunks: seq<Chunk>): nat {
    if chunks == [] then 0 else (if chunks[0].usage.Some? then 1 else 0) + UsageCount(chunks[1..])
  }

  /** Chunks after the one with the finish reason. */
  function Trailing(chunks: seq<Chunk>): nat {
    if chunks == [] then 0 else if Finishes(chunks[0]) then |chunks| - 1 else Trailing(chunks[1..])
  }

  function One(b: bool): nat { if b then 1 else 0 }

  lemma {:induction false} AfterFinish(chunks: seq<Chunk>, acc: Accum)
    requires acc.finish.Some? && Fold(chunks, acc).Some?
    ensures |chunks| == UsageCount(chunks) <= 1 - One(acc.usage.Some?)
    ensures FinishCount(chunks) == 0
  {
    if chunks != [] { AfterFinish(chunks[1..], Absorb(acc, chunks[0]).value); }
  }

  lemma {:induction false} FoldCounts(chunks: seq<Chunk>, acc: Accum)
    requires acc.finish.None? && Fold(chunks, acc).Some?
    ensures var r := Fold(chunks, acc).value;
            && FinishCount(chunks) == One(r.finish.Some?)
            && UsageCount(chunks) + One(acc.usage.Some?) == One(r.usage.Some?)
            && Trailing(chunks) <= 1
  {
    if chunks != [] {
      var next := Absorb(acc, chunks[0]).value;
      if next.finish.Some? {
        AfterFinish(chunks[1..], next);
        FoldCountsAfter(chunks[1..], next);
      } else {
        FoldCounts(chunks[1..], next);
      }
    }
  }

  lemma {:induction false} FoldCountsAfter(chunks: seq<Chunk>, acc: Accum)
    requires acc.finish.Some? && Fold(chunks, acc).Some?
    ensures var r := Fold(chunks, acc).value;
            && r.finish == acc.finish
            && UsageCount(chunks) + One(acc.usage.Some?) == One(r.usage.Some?)
  {
    if chunks != [] { FoldCountsAfter(chunks[1..], Absorb(acc, chunks[0]).value); }
  }

  /** Text and a tool call never meet: once either is there the other is refused. */
  lemma {:induction false} FoldKeepsApart(chunks: seq<Chunk>, acc: Accum)
    requires Fold(chunks, acc).Some?
    requires acc.sawTool ==> acc.content == ""
    ensures var r := Fold(chunks, acc).value;
            && (r.sawTool ==> r.content == "" && forall i :: 0 <= i < |chunks| ==> !HasText(chunks[i]))
            && (!r.sawTool ==> !acc.sawTool)
            && (acc.content != "" ==> r.content != "")
  {
    if chunks != [] {
      var next := Absorb(acc, chunks[0]).value;
      FoldKeepsApart(chunks[1..], next);
      var r := Fold(chunks, acc).value;
      if r.sawTool {
        forall i | 0 <= i < |chunks| ensures !HasText(chunks[i]) {
          if i > 0 { assert chunks[1..][i - 1] == chunks[i]; }
        }
      }
    }
  }

  lemma {:induction false} NoCallWithoutTool(chunks: seq<Chunk>, acc: Accum)
    requires Fold(chunks, acc).Some? && !Fold(chunks, acc).value.sawTool
    ensures forall i :: 0 <= i < |chunks| ==> !HasCall(chunks[i])
  {
    if chunks != [] {
      var next := Absorb(acc, chunks[0]).value;
      if next.sawTool { SawToolStays(chunks[1..], next); }
      NoCallWithoutTool(chunks[1..], next);
      forall i | 0 <= i < |chunks| ensures !HasCall(chunks[i]) {
        if i > 0 { assert chunks[1..][i - 1] == chunks[i]; }
      }
    }
  }

  lemma {:induction false} SawToolStays(chunks: seq<Chunk>, acc: Accum)
    requires Fold(chunks, acc).Some? && acc.sawTool
    ensures Fold(chunks, acc).value.sawTool
  {
    if chunks != [] { SawToolStays(chunks[1..], Absorb(acc, chunks[0]).value); }
  }

  /** Acceptance means: one finish reason, one usage, at most one chunk between
      the finish and the terminator, and never both text and a tool call. */
  lemma {:induction false} AcceptedShape(env: Env, chunks: seq<Chunk>)
    requires Accept(env, chunks).Some?
    ensures FinishCount(chunks) == 1 && UsageCount(chunks) == 1 && Trailing(chunks) <= 1
    ensures var a := Accept(env, chunks).value;
            && (a.pending.Some? <==> a.assistant.ToolUse?)
            && (a.pending.Some? ==> forall i :: 0 <= i < |chunks| ==> !HasText(chunks[i]))
            && (a.pending.None? ==> forall i :: 0 <= i < |chunks| ==> !HasCall(chunks[i]))
  {
    FoldCounts(chunks, EMPTY);
    FoldKeepsApart(chunks, EMPTY);
    if !Fold(chunks, EMPTY).value.sawTool { NoCallWithoutTool(chunks, EMPTY); }
  }

  // ---------------------------------------------------------------------
  // The accepted message is the concatenation of the fragments
  // ---------------------------------------------------------------------

  function DeltaOf(chunk: Chunk): Delta { if chunk.choice.Some? then chunk.choice.value.delta else Empty }

  function TextIn(part: Option<string>): string { if part.Some? then part.value else "" }

  datatype Parts = Parts(content: string, reasoning: string, arguments: string)

  function PartsIn(chunk: Chunk): Parts { PartsOf(DeltaOf(chunk)) }

  function PartsOf(d: Delta): Parts {
    if d.Empty? then Parts("", "", "")
    else Parts(TextIn(d.content), TextIn(d.reasoning), if d.call.Some? then TextIn(d.call.value.arguments) else "")
  }

  function Append(a: Parts, b: Parts): Parts {
    Parts(a.content + b.content, a.reasoning + b.reasoning, a.arguments + b.arguments)
  }

  /** All fragments of a stream, each kind joined in order. */
  function AllParts(chunks: seq<Chunk>): Parts {
    if chunks == [] then Parts("", "", "") else Append(PartsIn(chunks[0]), AllParts(chunks[1..]))
  }

  function Gathered(acc: Accum): Parts { Parts(acc.content, acc.reasoning, TextIn(acc.arguments)) }

  lemma AppendAssoc(a: Parts, b: Parts, c: Parts)
    ensures Append(Append(a, b), c) == Append(a, Append(b, c))
  {}

  lemma AppendNothing(a: Parts)
    ensures Append(a, Parts("", "", "")) == a && Append(Parts("", "", ""), a) == a
  {}

  lemma CallAppends(acc: Accum, call: CallDelta)
    requires AbsorbCall(acc, call).Some?
    ensures var r := AbsorbCall(acc, call).value;
            r.content == acc.content && r.reasoning == acc.reasoning &&
            TextIn(r.arguments) == TextIn(acc.arguments) + TextIn(call.arguments)
  {
    assert TextIn(acc.arguments) + "" == TextIn(acc.arguments);
  }

  lemma DeltaAppends(acc: Accum, delta: Delta)
    requires AbsorbDelta(acc, delta).Some?
    ensures Gathered(AbsorbDelta(acc, delta).value) == Append(Gathered(acc), PartsOf(delta))
  {
    if delta.Empty? {
      AppendNothing(Gathered(acc));
    } else {
      var acc' := acc.(
        reasoning := if delta.reasoning.Some? then acc.reasoning + delta.reasoning.value else acc.reasoning,
        content := if delta.content.Some? then acc.content + delta.content.value else acc.content);
      assert acc'.content == acc.content + TextIn(delta.content) &&
             acc'.reasoning == acc.reasoning + TextIn(delta.reasoning);
      if delta.call.Some? {
        CallAppends(acc', delta.call.value);
      } else {
        assert TextIn(acc.arguments) + "" == TextIn(acc.arguments);
      }
    }
  }

  lemma AbsorbAppends(acc: Accum, chunk: Chunk)
    requires Absorb(acc, chunk).Some?
    ensures Gathered(Absorb(acc, chunk).value) == Append(Gathered(acc), PartsIn(chunk))
  {
    var acc' := if chunk.usage.Some? then acc.(usage := chunk.usage) else acc;
    assert Gathered(acc') == Gathered(acc);
    if acc.finish.None? && chunk.choice.Some? {
      DeltaAppends(acc', chunk.choice.value.delta);
    } else {
      AppendNothing(Gathered(acc));
    }
  }

  lemma {:induction false} FoldAppends(chunks: seq<Chunk>, acc: Accum)
    requires Fold(chunks, acc).Some?
    ensures Gathered(Fold(chunks, acc).value) == Append(Gathered(acc), AllParts(chunks))
  {
    if chunks == [] {
      AppendNothing(Gathered(acc));
    } else {
      AbsorbAppends(acc, chunks[0]);
      FoldAppends(chunks[1..], Absorb(acc, chunks[0]).value);
      AppendAssoc(Gathered(acc), PartsIn(chunks[0]), AllParts(chunks[1..]));
    }
  }

  /** The accepted message holds all fragments of its kind, in order; the pending
      arguments are what all argument fragments together decode to. */
  lemma AcceptedIsConcatenation(env: Env, chunks: seq<Chunk>)
    requires Accept(env, chunks).Some?
    ensures var a, all := Accept(env, chunks).value, AllParts(chunks);
            && a.assistant.reasoning == all.reasoning
            && (a.assistant.Reply? ==> a.assistant.content == all.content)
            && (a.pending.Some? ==>
                  var decoded := Json.ParseStrict(env.codec.lex(all.arguments), env.limits.Complexity());
                  decoded.Some? && decoded.value.0 == a.pending.value.arguments)
  {
    FoldAppends(chunks, EMPTY);
    AppendNothing(AllParts(chunks));
  }
}
