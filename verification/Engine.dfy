/** The Agent execution engine (internal/agents/engine.go) and the call budget of
    its tools (internal/agents/retrieval.go): capture, authorise, check freshness,
    take model turns, settle. Repository, authoriser, model and tools answer as
    they like; an answer may depend on everything that happened before. */
module Engine {
  import opened Text

  datatype Mode = SinglePass | ToolCalling
  datatype Status = Answered | Refused | InsufficientEvidence | CompletionFailed

  /** The outcome that `validateDraft` gives a draft. */
  type Verdict = s: Status | s != CompletionFailed witness Answered

  /** A model turn: an error, or a draft, tool calls, both or neither. */
  datatype Turn = TurnError | Turn(draft: Option<Verdict>, calls: seq<string>)

  datatype Record = Record(outcome: Status, audit: seq<string>)

  /** What the engine asks of the outside, with the answer. */
  datatype Event =
    | Captured(ok: bool)
    | Validated(ok: bool)
    | Digested(ok: bool)
    | Authorized(ok: bool)
    | Fresh(ok: bool)
    | Scoped(ok: bool)
    | Searched(ok: bool)
    | Prompted(ok: bool)
    | ModelCall(turn: Turn)
    | SecurityFresh(ok: bool)
    | Dispatched(name: string, ok: bool)
    | Settled(record: Record, runId: Option<nat>)
    | Released

  /** The outside world: every answer is a function of the history. */
  datatype World = World(
    accepts: seq<Event> -> bool,
    turn: seq<Event> -> Turn,
    records: seq<Event> -> Option<nat>)

  datatype Capture = Capture(runId: nat, mode: Mode, maxToolCalls: nat)

  /** `ExecuteResult` and error: a run identifier is present once it was recorded. */
  datatype Result = Ok(runId: nat, status: Verdict) | Error(recorded: Option<nat>)

  // ---------------------------------------------------------------------
  // Properties of traces
  // ---------------------------------------------------------------------

  predicate Final(e: Event) { e.Settled? || e.Released? }

  /** An answer after which the engine only settles or releases. */
  predicate Denied(e: Event) {
    match e
    case ModelCall(turn) => turn.TurnError? || turn.draft.Some? == (turn.calls != [])
    case Settled(_, _) => false
    case Released => false
    case Captured(ok) => !ok
    case Validated(ok) => !ok
    case Digested(ok) => !ok
    case Authorized(ok) => !ok
    case Fresh(ok) => !ok
    case Scoped(ok) => !ok
    case Searched(ok) => !ok
    case Prompted(ok) => !ok
    case SecurityFresh(ok) => !ok
    case Dispatched(_, ok) => !ok
  }

  /** The fixed order of the first eight questions. */
  predicate InPlace(i: nat, e: Event) {
    match i
    case 0 => e.Captured?
    case 1 => e.Validated?
    case 2 => e.Digested?
    case 3 => e.Authorized?
    case 4 => e.Fresh?
    case 5 => e.Scoped?
    case 6 => e.Searched?
    case 7 => e.Prompted?
    case _ => e.Fresh? || e.ModelCall? || e.SecurityFresh? || e.Dispatched?
  }

  /** The tool calls of the last model turn that were not dispatched yet. */
  function Todo(trace: seq<Event>): seq<string> {
    if trace == [] then []
    else
      var before, last := trace[..|trace| - 1], trace[|trace| - 1];
      if last.ModelCall? && last.turn.Turn? && last.turn.draft.None? then last.turn.calls
      else if last.Dispatched? && Todo(before) != [] then Todo(before)[1..]
      else []
  }

  /** Whether `e` may follow: nothing follows a denial but the end; a model call
      directly follows a successful freshness check; the first events keep their
      order; and the calls of a turn are dispatched one by one, in order, before
      anything else. */
  ghost predicate MayFollow(trace: seq<Event>, e: Event)
    requires trace != []
  {
    && !Final(e) && !Denied(trace[|trace| - 1]) && InPlace(|trace|, e)
    && (e.ModelCall? ==> trace[|trace| - 1] == Fresh(true))
    && (if Todo(trace) == [] then !e.Dispatched? else e.Dispatched? && e.name == Todo(trace)[0])
  }

  ghost predicate StepOk(trace: seq<Event>, i: int)
    requires 1 <= i < |trace|
  {
    MayFollow(trace[..i], trace[i])
  }

  /** Captured, and neither settled nor released yet. */
  ghost predicate Open(trace: seq<Event>) {
    && trace != [] && trace[0] == Captured(true)
    && forall i :: 1 <= i < |trace| ==> StepOk(trace, i)
  }

  /** A failure before anything was done under the capture. */
  predicate Early(e: Event) { e == Validated(false) || e == Digested(false) }

  /** Captured, and settled or released exactly once, as the last event: released
      exactly when the capture or its digest was refused, settled otherwise. */
  ghost predicate Closed(trace: seq<Event>) {
    && |trace| >= 2 && Final(trace[|trace| - 1]) && Open(trace[..|trace| - 1])
    && (trace[|trace| - 1].Released? <==> Early(trace[|trace| - 2]))
  }

  function Turns(trace: seq<Event>): nat {
    if trace == [] then 0
    else Turns(trace[..|trace| - 1]) + if trace[|trace| - 1].ModelCall? then 1 else 0
  }

  /** The audit that the events before a settlement justify: the initial search,
      then every dispatched call by name. */
  function Audit(trace: seq<Event>): seq<string> {
    if trace == [] then []
    else
      var before, last := Audit(trace[..|trace| - 1]), trace[|trace| - 1];
      if last == Searched(true) then before + ["initial_search_wiki"]
      else if last.Dispatched? then before + [last.name]
      else before
  }

  /** The tool calls that were dispatched. */
  function Dispatches(trace: seq<Event>): nat {
    if trace == [] then 0
    else Dispatches(trace[..|trace| - 1]) + if trace[|trace| - 1].Dispatched? then 1 else 0
  }

  lemma Snoc(trace: seq<Event>, e: Event)
    ensures Dispatches(trace + [e]) == Dispatches(trace) + if e.Dispatched? then 1 else 0
    ensures Turns(trace + [e]) == Turns(trace) + if e.ModelCall? then 1 else 0
    ensures Audit(trace + [e]) ==
            if e == Searched(true) then Audit(trace) + ["initial_search_wiki"]
            else if e.Dispatched? then Audit(trace) + [e.name]
            else Audit(trace)
  {
    assert (trace + [e])[..|trace|] == trace;
  }

  lemma OpenSnoc(trace: seq<Event>, e: Event)
    requires Open(trace) && MayFollow(trace, e)
    ensures Open(trace + [e])
    ensures Todo(trace + [e]) ==
            if e.ModelCall? && e.turn.Turn? && e.turn.draft.None? then e.turn.calls
            else if e.Dispatched? then Todo(trace)[1..]
            else []
  {
    var longer := trace + [e];
    forall i | 1 <= i < |longer| ensures StepOk(longer, i) {
      if i < |trace| {
        assert StepOk(trace, i);
        assert longer[..i] == trace[..i];
      } else {
        assert longer[..i] == trace;
      }
    }
    assert longer[..|trace|] == trace;
  }

  lemma OpenStep(trace: seq<Event>, i: nat)
    requires Open(trace) && 0 < i < |trace|
    ensures InPlace(i, trace[i]) && !Denied(trace[i - 1]) && (trace[i].ModelCall? ==> trace[i - 1] == Fresh(true))
  {
    assert StepOk(trace, i);
    assert trace[..i][i - 1] == trace[i - 1];
  }

  /** No search, model call or tool call happens in an execution unless the capture
      was validated and authorised first. */
  lemma AuthorizedFirst(trace: seq<Event>, i: nat)
    requires Closed(trace) && i < |trace| && (trace[i].Searched? || trace[i].ModelCall? || trace[i].Dispatched?)
    ensures i > 3 && trace[1] == Validated(true) && trace[3] == Authorized(true)
  {
    var open := trace[..|trace| - 1];
    assert open[i] == trace[i];
    if i > 0 { OpenStep(open, i); }
    OpenStep(open, 1);
    OpenStep(open, 2);
    OpenStep(open, 3);
    OpenStep(open, 4);
  }

  /** Every model call of an execution directly follows a successful freshness
      check. */
  lemma FreshFirst(trace: seq<Event>, i: nat)
    requires Closed(trace) && i < |trace| && trace[i].ModelCall?
    ensures i > 0 && trace[i - 1] == Fresh(true)
  {
    var open := trace[..|trace| - 1];
    assert open[i] == trace[i];
    OpenStep(open, i);
  }

  /** The questions that are answered with yes or no and leave no audit. */
  datatype Question = OfCapture | OfDigest | OfAuthority | OfFreshness | OfScope | OfPrompt | OfSecurity

  function Answer(q: Question, ok: bool): Event {
    match q
    case OfCapture => Validated(ok)
    case OfDigest => Digested(ok)
    case OfAuthority => Authorized(ok)
    case OfFreshness => Fresh(ok)
    case OfScope => Scoped(ok)
    case OfPrompt => Prompted(ok)
    case OfSecurity => SecurityFresh(ok)
  }

  /** Ready for the next turn: the prompt was built, or the calls of a turn are
      done. */
  ghost predicate Going(trace: seq<Event>) {
    Ready(trace) && (trace[|trace| - 1] == Prompted(true) || trace[|trace| - 1].Dispatched?)
  }

  /** Nothing was denied and no tool call is left to dispatch. */
  ghost predicate Ready(trace: seq<Event>) {
    trace != [] && !Denied(trace[|trace| - 1]) && Todo(trace) == []
  }

  lemma AnswerFollows(trace: seq<Event>, q: Question, ok: bool)
    requires Open(trace) && Ready(trace) && InPlace(|trace|, Answer(q, ok))
    ensures Open(trace + [Answer(q, ok)])
    ensures ok ==> Ready(trace + [Answer(q, ok)])
    ensures Turns(trace + [Answer(q, ok)]) == Turns(trace) && Audit(trace + [Answer(q, ok)]) == Audit(trace)
  {
    OpenSnoc(trace, Answer(q, ok));
    Snoc(trace, Answer(q, ok));
  }

  /** A trace within the budgets of a capture. */
  ghost predicate Within(capture: Capture, trace: seq<Event>) {
    && Turns(trace) <= MaxTurns(capture)
    && |Audit(trace)| <= capture.maxToolCalls + 1
  }

  function MaxTurns(capture: Capture): nat {
    if capture.mode.SinglePass? then 1 else capture.maxToolCalls + 1
  }

  // ---------------------------------------------------------------------
  // The script of an execution
  // ---------------------------------------------------------------------

  /** The question with which an execution opens at position `n`. */
  function Opening(n: nat, ok: bool): Event {
    match n
    case 1 => Validated(ok)
    case 2 => Digested(ok)
    case 3 => Authorized(ok)
    case 4 => Fresh(ok)
    case 5 => Scoped(ok)
    case 6 => Searched(ok)
    case _ => Prompted(ok)
  }

  function Settlement(world: World, outcome: Status, trace: seq<Event>): Event {
    Settled(Record(outcome, Audit(trace)), world.records(trace))
  }

  /** The verdict on the draft that was checked last. */
  function CheckedVerdict(trace: seq<Event>): Status {
    if |trace| >= 2 && trace[|trace| - 2].ModelCall? && trace[|trace| - 2].turn.Turn?
       && trace[|trace| - 2].turn.draft.Some?
    then trace[|trace| - 2].turn.draft.value else CompletionFailed
  }

  /** The one event that follows `trace`, with the world's own answer; none after
      the end. A refused capture or digest is released, any other denial settled as a
      failure; a draft is checked and its verdict settled; tool calls are dispatched
      while mode and budget allow; and another turn is taken while there are any. */
  function Due(world: World, capture: Capture, trace: seq<Event>): Option<Event> {
    var n, ok := |trace|, world.accepts(trace);
    if n == 0 then Some(Captured(ok))
    else
      var last := trace[n - 1];
      if Final(last) || last == Captured(false) then None
      else if Early(last) then Some(Released)
      else if Denied(last) then Some(Settlement(world, CompletionFailed, trace))
      else if n < 8 then Some(Opening(n, ok))
      else if last.ModelCall? && last.turn.Turn? && last.turn.draft.Some? then Some(SecurityFresh(ok))
      else if last.SecurityFresh? then Some(Settlement(world, CheckedVerdict(trace), trace))
      else if last.Fresh? then Some(ModelCall(world.turn(trace)))
      else if Todo(trace) != [] then
        if capture.mode == SinglePass || Dispatches(trace) >= capture.maxToolCalls
        then Some(Settlement(world, CompletionFailed, trace)) else Some(Dispatched(Todo(trace)[0], ok))
      else if Turns(trace) < MaxTurns(capture) then Some(Fresh(ok))
      else Some(Settlement(world, CompletionFailed, trace))
  }

  /** Every event was due, with the answer that the world gives at that point. */
  ghost predicate Follows(world: World, capture: Capture, trace: seq<Event>) {
    forall i :: 0 <= i < |trace| ==> DueAt(world, capture, trace, i)
  }

  ghost predicate DueAt(world: World, capture: Capture, trace: seq<Event>, i: int)
    requires 0 <= i < |trace|
  {
    Due(world, capture, trace[..i]) == Some(trace[i])
  }

  lemma FollowsSnoc(world: World, capture: Capture, trace: seq<Event>, e: Event)
    requires Follows(world, capture, trace) && Due(world, capture, trace) == Some(e)
    ensures Follows(world, capture, trace + [e])
  {
    var longer := trace + [e];
    forall i | 0 <= i < |longer| ensures DueAt(world, capture, longer, i) {
      if i < |trace| {
        assert DueAt(world, capture, trace, i);
        assert longer[..i] == trace[..i];
      } else {
        assert longer[..i] == trace;
      }
    }
  }

  /** The opening questions come in their order. */
  lemma Opens(world: World, capture: Capture, trace: seq<Event>)
    requires 1 <= |trace| < 8 && !Denied(trace[|trace| - 1]) && !Final(trace[|trace| - 1])
    ensures Due(world, capture, trace) == Some(Opening(|trace|, world.accepts(trace)))
  {}

  /** A failure is due, and so is its settlement. */
  ghost predicate MustFail(world: World, capture: Capture, trace: seq<Event>) {
    FailureDue(capture, trace) && Due(world, capture, trace) == Some(Settlement(world, CompletionFailed, trace))
  }

  lemma DenialFails(world: World, capture: Capture, trace: seq<Event>)
    requires |trace| >= 4 && Denied(trace[|trace| - 1]) && !Early(trace[|trace| - 1]) && !trace[|trace| - 1].Captured?
    ensures MustFail(world, capture, trace)
  {}

  /** Tool calls of the last turn are left. */
  ghost predicate CallsLeft(trace: seq<Event>) {
    && |trace| > 8 && !Denied(trace[|trace| - 1]) && Todo(trace) != []
    && (trace[|trace| - 1].ModelCall? || trace[|trace| - 1].Dispatched?)
  }

  lemma NoCallAllowed(world: World, capture: Capture, trace: seq<Event>)
    requires CallsLeft(trace)
    requires Dispatches(trace) == capture.maxToolCalls || (capture.mode == SinglePass && trace[|trace| - 1].ModelCall?)
    ensures MustFail(world, capture, trace)
  {}

  lemma CallIsDue(world: World, capture: Capture, trace: seq<Event>, ok: bool)
    requires CallsLeft(trace) && capture.mode == ToolCalling && Dispatches(trace) < capture.maxToolCalls
    ensures Due(world, capture, trace) == Some(Dispatched(Todo(trace)[0], world.accepts(trace)))
    ensures MayFollow(trace, Dispatched(Todo(trace)[0], ok))
  {}

  lemma TurnIsDue(world: World, capture: Capture, trace: seq<Event>, ok: bool)
    requires Going(trace) && |trace| >= 8
    ensures Turns(trace) < MaxTurns(capture) ==> Due(world, capture, trace) == Some(Fresh(world.accepts(trace)))
    ensures Turns(trace) == MaxTurns(capture) ==> MustFail(world, capture, trace)
    ensures InPlace(|trace|, Fresh(ok))
  {}

  /** An execution that has come to its end. */
  ghost predicate Ended(world: World, capture: Capture, trace: seq<Event>) {
    Follows(world, capture, trace) && Due(world, capture, trace) == None
  }

  lemma {:induction false} FollowsAgree(world: World, capture: Capture, a: seq<Event>, b: seq<Event>, n: nat)
    requires Follows(world, capture, a) && Follows(world, capture, b) && n <= |a| && n <= |b|
    ensures a[..n] == b[..n]
  {
    if n > 0 {
      FollowsAgree(world, capture, a, b, n - 1);
      assert DueAt(world, capture, a, n - 1) && DueAt(world, capture, b, n - 1);
    }
  }

  lemma DueInside(world: World, capture: Capture, trace: seq<Event>, n: nat)
    requires Follows(world, capture, trace) && n < |trace|
    ensures Due(world, capture, trace[..n]).Some?
  {
    assert DueAt(world, capture, trace, n);
  }

  lemma Whole(trace: seq<Event>)
    ensures trace[..|trace|] == trace
  {}

  lemma EndedIsLongest(world: World, capture: Capture, a: seq<Event>, b: seq<Event>)
    requires Ended(world, capture, a) && Follows(world, capture, b)
    ensures |b| <= |a|
  {
    if |a| < |b| {
      DueInside(world, capture, b, |a|);
      Whole(a);
      FollowsAgree(world, capture, a, b, |a|);
    }
  }

  /** What the outside answers determines the whole execution. */
  lemma ExecutionIsDetermined(world: World, capture: Capture, a: seq<Event>, b: seq<Event>)
    requires Ended(world, capture, a) && Ended(world, capture, b)
    ensures a == b
  {
    EndedIsLongest(world, capture, a, b);
    EndedIsLongest(world, capture, b, a);
    FollowsAgree(world, capture, a, b, |a|);
    assert a[..|a|] == a && b[..|b|] == b;
  }

  // ---------------------------------------------------------------------
  // The engine
  // ---------------------------------------------------------------------

  class Execution {
    const world: World
    const capture: Capture
    var trace: seq<Event>
    var audit: seq<string>
    var remainingCalls: int
    var settlementAttempted: bool

    /** Open, with an audit that matches the trace. */
    ghost predicate Valid()
      reads this
    {
      && Open(trace) && audit == Audit(trace) && !settlementAttempted && Follows(world, capture, trace)
      && Dispatches(trace) == capture.maxToolCalls - remainingCalls
      && |audit| <= 1 + capture.maxToolCalls - remainingCalls && 0 <= remainingCalls <= capture.maxToolCalls
    }

    /** Settled, with the result that the settlement calls for. */
    ghost predicate Done(r: Result)
      reads this
    {
      Closed(trace) && Ended(world, capture, trace) && Within(capture, trace) && Reported(capture, trace, r)
    }

    constructor (world: World, capture: Capture, trace: seq<Event>)
      requires Open(trace) && Audit(trace) == [] && Turns(trace) == 0 && Dispatches(trace) == 0
      requires Follows(world, capture, trace)
      ensures Valid() && this.world == world && this.capture == capture && this.trace == trace && audit == []
    {
      this.world, this.capture, this.trace := world, capture, trace;
      audit, remainingCalls, settlementAttempted := [], capture.maxToolCalls, false;
    }

    /** `settle` and the checks around it. */
    method Settle(outcome: Status) returns (runId: Option<nat>)
      requires Valid() && |trace| >= 4 && Due(world, capture, trace) == Some(Settlement(world, outcome, trace))
      modifies this
      ensures settlementAttempted && Closed(trace) && trace[..|trace| - 1] == old(trace)
      ensures Ended(world, capture, trace)
      ensures Turns(trace) == Turns(old(trace)) && Audit(trace) == Audit(old(trace))
      ensures trace[|trace| - 1].Settled? && trace[|trace| - 1].record == Record(outcome, Audit(old(trace)))
      ensures runId == if trace[|trace| - 1].runId == Some(capture.runId) then Some(capture.runId) else None
    {
      OpenStep(trace, |trace| - 1);
      settlementAttempted := true;
      var answer := world.records(trace);
      Snoc(trace, Settled(Record(outcome, audit), answer));
      FollowsSnoc(world, capture, trace, Settled(Record(outcome, audit), answer));
      trace := trace + [Settled(Record(outcome, audit), answer)];
      runId := if answer == Some(capture.runId) then answer else None;
    }

    /** `fail`. */
    method Fail() returns (r: Result)
      requires Valid() && |trace| >= 4 && Turns(trace) <= MaxTurns(capture) && MustFail(world, capture, trace)
      modifies this
      ensures settlementAttempted && Done(r)
      ensures r.Error? && trace[..|trace| - 1] == old(trace)
      ensures trace[|trace| - 1].Settled? && trace[|trace| - 1].record == Record(CompletionFailed, Audit(old(trace)))
    {
      var runId := Settle(CompletionFailed);
      r := Error(runId);
    }

    /** The deferred `releaseCapture`. */
    method Release()
      requires Valid() && Early(trace[|trace| - 1])
      modifies this
      ensures Ended(world, capture, trace) && Closed(trace) && trace[..|trace| - 1] == old(trace)
      ensures trace[|trace| - 1] == Released
      ensures Turns(trace) == Turns(old(trace)) && Audit(trace) == Audit(old(trace))
    {
      Snoc(trace, Released);
      FollowsSnoc(world, capture, trace, Released);
      trace := trace + [Released];
    }

    /** One question whose answer is yes or no. */
    method Ask(q: Question) returns (ok: bool)
      requires Valid() && Ready(trace) && InPlace(|trace|, Answer(q, true))
      requires Due(world, capture, trace) == Some(Answer(q, world.accepts(trace)))
      modifies this`trace
      ensures Valid() && trace == old(trace) + [Answer(q, ok)] && Turns(trace) == Turns(old(trace))
      ensures ok ==> Ready(trace)
    {
      ok := world.accepts(trace);
      AnswerFollows(trace, q, ok);
      FollowsSnoc(world, capture, trace, Answer(q, ok));
      trace := trace + [Answer(q, ok)];
    }

    /** `InitialEvidence`. */
    method Search() returns (ok: bool)
      requires Valid() && audit == [] && Ready(trace) && |trace| == 6
      requires Due(world, capture, trace) == Some(Searched(world.accepts(trace)))
      modifies this
      ensures Valid() && trace == old(trace) + [Searched(ok)] && Turns(trace) == Turns(old(trace))
      ensures ok ==> Ready(trace)
    {
      ok := world.accepts(trace);
      Snoc(trace, Searched(ok));
      FollowsSnoc(world, capture, trace, Searched(ok));
      OpenSnoc(trace, Searched(ok));
      trace := trace + [Searched(ok)];
      if ok { audit := audit + ["initial_search_wiki"]; }
    }

    /** `Complete`: only ever called right after a successful freshness check. */
    method CallModel() returns (turn: Turn)
      requires Valid() && Ready(trace) && trace[|trace| - 1] == Fresh(true) && |trace| > 8
      modifies this`trace
      ensures Valid() && trace == old(trace) + [ModelCall(turn)] && Turns(trace) == Turns(old(trace)) + 1
      ensures turn.Turn? && turn.draft.None? ==> Todo(trace) == turn.calls
    {
      turn := world.turn(trace);
      Snoc(trace, ModelCall(turn));
      FollowsSnoc(world, capture, trace, ModelCall(turn));
      OpenSnoc(trace, ModelCall(turn));
      trace := trace + [ModelCall(turn)];
    }

    /** `Dispatch`: refused without a trace once the budget is spent. */
    method Dispatch(name: string) returns (ok: bool)
      requires Valid() && CallsLeft(trace) && capture.mode == ToolCalling && name == Todo(trace)[0]
      modifies this
      ensures Valid() && Turns(trace) == Turns(old(trace))
      ensures old(remainingCalls) == 0 ==> !ok && trace == old(trace)
      ensures old(remainingCalls) > 0 ==>
              trace == old(trace) + [Dispatched(name, ok)] && Todo(trace) == Todo(old(trace))[1..]
      ensures !ok ==> MustFail(world, capture, trace)
    {
      if remainingCalls <= 0 {
        NoCallAllowed(world, capture, trace);
        return false;
      }
      remainingCalls := remainingCalls - 1;
      audit := audit + [name];
      ok := world.accepts(trace);
      CallIsDue(world, capture, trace, ok);
      Snoc(trace, Dispatched(name, ok));
      FollowsSnoc(world, capture, trace, Dispatched(name, ok));
      OpenSnoc(trace, Dispatched(name, ok));
      trace := trace + [Dispatched(name, ok)];
      if !ok { DenialFails(world, capture, trace); }
    }

    /** The inner loop over the tool calls of one turn. */
    method DispatchAll(calls: seq<string>) returns (ok: bool)
      requires Valid() && CallsLeft(trace) && Todo(trace) == calls && capture.mode == ToolCalling
      modifies this
      ensures Valid() && Turns(trace) == Turns(old(trace)) && |trace| >= |old(trace)|
      ensures ok ==> Going(trace)
      ensures !ok ==> MustFail(world, capture, trace)
    {
      for i := 0 to |calls|
        invariant Valid() && Turns(trace) == Turns(old(trace)) && |trace| >= |old(trace)|
        invariant Todo(trace) == calls[i..]
        invariant if i < |calls| then CallsLeft(trace) else Going(trace)
      {
        ok := Dispatch(calls[i]);
        if !ok { return; }
        assert calls[i..][1..] == calls[i + 1..];
      }
      ok := true;
    }

    /** A turn that ended in a draft. */
    method Deliver(verdict: Verdict) returns (r: Result)
      requires Valid() && Within(capture, trace) && Drafted(trace, verdict) && |trace| > 8
      modifies this
      ensures settlementAttempted && Done(r)
    {
      ghost var before := trace;
      DraftedIsReady(trace, verdict);
      var ok := Ask(OfSecurity);
      if !ok {
        r := Fail();
        return;
      }
      var runId := Settle(verdict);
      r := if runId.Some? then Ok(runId.value, verdict) else Error(None);
      assert trace[..|trace| - 2] == before;
    }

    /** One pass of the turn loop. */
    method OneTurn() returns (done: bool, r: Result)
      requires Valid() && |trace| >= 8 && Going(trace) && Turns(trace) < MaxTurns(capture)
      modifies this
      ensures done ==> settlementAttempted && Done(r)
      ensures !done ==> Valid() && |trace| >= 8 && Going(trace) && Turns(trace) == Turns(old(trace)) + 1
    {
      TurnIsDue(world, capture, trace, true);
      var ok := Ask(OfFreshness);
      if !ok {
        DenialFails(world, capture, trace);
        r := Fail();
        return true, r;
      }
      var turn := CallModel();
      done, r := Heed(turn);
    }

    /** What follows a model turn. */
    method Heed(turn: Turn) returns (done: bool, r: Result)
      requires Valid() && |trace| > 8 && trace[|trace| - 1] == ModelCall(turn) && Turns(trace) <= MaxTurns(capture)
      modifies this
      ensures done ==> settlementAttempted && Done(r)
      ensures !done ==> Valid() && |trace| >= 8 && Going(trace) && Turns(trace) == Turns(old(trace))
    {
      done := true;
      if turn.TurnError? || turn.draft.Some? == (turn.calls != []) {
        DenialFails(world, capture, trace);
        r := Fail();
      } else if turn.draft.Some? {
        r := Deliver(turn.draft.value);
      } else if capture.mode != ToolCalling {
        NoCallAllowed(world, capture, trace);
        r := Fail();
      } else {
        var ok := DispatchAll(turn.calls);
        if ok { return false, Error(None); }
        r := Fail();
      }
    }

    /** The turn loop. */
    method TakeTurns() returns (r: Result)
      requires Valid() && Turns(trace) == 0 && |trace| >= 8 && Going(trace)
      modifies this
      ensures settlementAttempted && Done(r)
    {
      for index := 0 to MaxTurns(capture)
        invariant Valid() && Turns(trace) == index
        invariant |trace| >= 8 && Going(trace)
      {
        var done;
        done, r := OneTurn();
        if done { return; }
      }
      TurnIsDue(world, capture, trace, true);
      r := Fail();
    }

    /** One of the opening questions. */
    method OpenWith(q: Question) returns (ok: bool)
      requires Valid() && 3 <= |trace| < 8 && Ready(trace) && !Final(trace[|trace| - 1]) && Turns(trace) == 0
      requires forall b :: Answer(q, b) == Opening(|trace|, b)
      modifies this`trace
      ensures Valid() && trace == old(trace) + [Answer(q, ok)] && Turns(trace) == 0
      ensures ok ==> Ready(trace)
      ensures !ok ==> MustFail(world, capture, trace)
    {
      Opens(world, capture, trace);
      ok := Ask(q);
      if !ok { DenialFails(world, capture, trace); }
    }

    /** Everything between the digest and the turn loop. */
    method Admit() returns (ok: bool)
      requires Valid() && audit == [] && Turns(trace) == 0 && |trace| == 3 && Ready(trace) && trace[2] == Digested(true)
      modifies this
      ensures Valid() && Turns(trace) == 0 && |trace| >= 4
      ensures !ok ==> MustFail(world, capture, trace)
      ensures ok ==> |trace| == 8 && Going(trace)
    {
      ok := OpenWith(OfAuthority);
      if ok { ok := OpenWith(OfFreshness); }
      if ok { ok := OpenWith(OfScope); }
      if ok { ok := Gather(); }
    }

    /** The initial evidence and the prompt. */
    method Gather() returns (ok: bool)
      requires Valid() && audit == [] && Turns(trace) == 0 && |trace| == 6 && Ready(trace) && trace[5] == Scoped(true)
      modifies this
      ensures Valid() && Turns(trace) == 0 && |trace| >= 7
      ensures !ok ==> MustFail(world, capture, trace)
      ensures ok ==> |trace| == 8 && Going(trace)
    {
      Opens(world, capture, trace);
      ok := Search();
      if ok {
        ok := OpenWith(OfPrompt);
      } else {
        DenialFails(world, capture, trace);
      }
    }

    /** The body of `Execute` after the capture; an early return leaves the
        capture for the deferred release. */
    method Body() returns (r: Result)
      requires Valid() && audit == [] && Turns(trace) == 0 && |trace| == 1 && Ready(trace)
      modifies this
      ensures settlementAttempted ==> Done(r)
      ensures !settlementAttempted ==> Valid() && Turns(trace) == 0 && r == Error(None) && Early(trace[|trace| - 1])
    {
      var ok := Ask(OfCapture);
      if ok { ok := Ask(OfDigest); }
      if !ok { return Error(None); }
      ok := Admit();
      if ok {
        r := TakeTurns();
      } else {
        r := Fail();
      }
    }
  }

  lemma DraftedIsReady(trace: seq<Event>, verdict: Verdict)
    requires Drafted(trace, verdict)
    ensures Ready(trace)
  {}

  /** The last event is a model call that ended in a draft and nothing else. */
  ghost predicate Drafted(trace: seq<Event>, verdict: Verdict) {
    trace != [] && trace[|trace| - 1] == ModelCall(Turn(Some(verdict), []))
  }

  /** The settlement records the verdict on the draft of the last model call,
      checked for security right after it, or else a failure. */
  ghost predicate RecordsVerdict(trace: seq<Event>, outcome: Status) {
    var n := |trace|;
    if n >= 4 && trace[n - 2] == SecurityFresh(true)
    then outcome != CompletionFailed && Drafted(trace[..n - 2], outcome)
    else outcome == CompletionFailed
  }

  /** Why a failure may be recorded after the events of `trace`: the last answer was
      a denial, tool calls are left and their budget is spent, the model asked for
      tools where it has none, or it has had all its turns. */
  ghost predicate FailureDue(capture: Capture, trace: seq<Event>) {
    && trace != [] && trace[|trace| - 1] != SecurityFresh(true)
    && (|| Denied(trace[|trace| - 1])
        || (Todo(trace) != [] && Dispatches(trace) == capture.maxToolCalls)
        || (Todo(trace) != [] && capture.mode == SinglePass && trace[|trace| - 1].ModelCall?)
        || (Ready(trace) && Turns(trace) == MaxTurns(capture)))
  }

  /** What the result says about a closed trace: the record carries the verdict and
      the audit of the trace; a run recorded under the captured identifier is returned
      with its status, or named in the error if it failed; and nothing else is. */
  ghost predicate Reported(capture: Capture, trace: seq<Event>, r: Result) {
    var n := |trace|;
    && n > 0
    && (trace[n - 1].Settled? ==>
          && trace[n - 1].record.audit == Audit(trace[..n - 1]) && RecordsVerdict(trace, trace[n - 1].record.outcome)
          && (trace[n - 1].record.outcome == CompletionFailed ==> FailureDue(capture, trace[..n - 1])))
    && r == (if trace[n - 1].Settled? && trace[n - 1].runId == Some(capture.runId) then
               if trace[n - 1].record.outcome == CompletionFailed then Error(Some(capture.runId))
               else Ok(capture.runId, trace[n - 1].record.outcome)
             else Error(None))
  }

  /** `Execute` after the request was normalised. */
  method Execute(world: World, capture: Capture) returns (r: Result, trace: seq<Event>)
    ensures Ended(world, capture, trace)
    ensures trace == [Captured(false)] || Closed(trace)
    ensures trace == [Captured(false)] ==> r == Error(None)
    ensures Closed(trace) ==> Within(capture, trace) && Reported(capture, trace, r)
  {
    var captured := world.accepts([]);
    FollowsSnoc(world, capture, [], Captured(captured));
    trace := [Captured(captured)];
    assert [] + [Captured(captured)] == trace;
    if !captured { return Error(None), trace; }
    Snoc([], Captured(true));
    var run := new Execution(world, capture, trace);
    r := run.Body();
    if !run.settlementAttempted { run.Release(); }
    trace := run.trace;
  }

  // ---------------------------------------------------------------------
  // Executions that succeed
  // ---------------------------------------------------------------------

  /** Everything is accepted, the model's first turn is a draft, and the record is
      kept under the captured identifier. */
  ghost predicate Smooth(world: World, capture: Capture, verdict: Verdict) {
    && (forall t :: world.accepts(t)) && (forall t :: world.turn(t) == Turn(Some(verdict), []))
    && (forall t :: world.records(t) == Some(capture.runId))
  }

  function SmoothTrace(capture: Capture, verdict: Verdict): seq<Event> {
    [Captured(true), Validated(true), Digested(true), Authorized(true), Fresh(true), Scoped(true), Searched(true),
     Prompted(true), Fresh(true), ModelCall(Turn(Some(verdict), [])), SecurityFresh(true),
     Settled(Record(verdict, ["initial_search_wiki"]), Some(capture.runId))]
  }

  /** What the first `n` events amount to. */
  ghost predicate SmoothSoFar(world: World, capture: Capture, trace: seq<Event>, n: nat) {
    && Follows(world, capture, trace) && Dispatches(trace) == 0
    && Turns(trace) == (if n > 9 then 1 else 0) && Audit(trace) == if n > 6 then ["initial_search_wiki"] else []
  }

  lemma SmoothIsDue(world: World, capture: Capture, verdict: Verdict, trace: seq<Event>, n: nat)
    requires Smooth(world, capture, verdict) && n < 12 && trace == SmoothTrace(capture, verdict)[..n]
    requires SmoothSoFar(world, capture, trace, n)
    ensures Due(world, capture, trace) == Some(SmoothTrace(capture, verdict)[n])
  {
    if 1 <= n < 8 { Opens(world, capture, trace); }
  }

  lemma {:induction false} SmoothGoesOn(world: World, capture: Capture, verdict: Verdict, n: nat)
    requires Smooth(world, capture, verdict) && n <= 12
    ensures SmoothSoFar(world, capture, SmoothTrace(capture, verdict)[..n], n)
  {
    if n > 0 {
      SmoothGoesOn(world, capture, verdict, n - 1);
      var trace := SmoothTrace(capture, verdict);
      assert trace[..n] == trace[..n - 1] + [trace[n - 1]];
      SmoothIsDue(world, capture, verdict, trace[..n - 1], n - 1);
      FollowsSnoc(world, capture, trace[..n - 1], trace[n - 1]);
      Snoc(trace[..n - 1], trace[n - 1]);
    }
  }

  /** Where nothing is denied and the first turn is a draft, the execution returns
      the recorded run with the verdict on that draft, after one search and one
      model call. */
  method SmoothExecution(world: World, capture: Capture, verdict: Verdict) returns (r: Result, trace: seq<Event>)
    requires Smooth(world, capture, verdict)
    ensures r == Ok(capture.runId, verdict) && trace == SmoothTrace(capture, verdict)
  {
    r, trace := Execute(world, capture);
    SmoothGoesOn(world, capture, verdict, 12);
    Whole(SmoothTrace(capture, verdict));
    ExecutionIsDetermined(world, capture, trace, SmoothTrace(capture, verdict));
  }

  /** Nothing is denied, records are kept, and every model turn is a draft or, where
      tools are allowed, as many calls as the budget still admits. */
  ghost predicate Cooperative(world: World, capture: Capture) {
    && (forall t :: world.accepts(t)) && (forall t :: world.records(t) == Some(capture.runId))
    && (forall t :: GoodTurn(capture, Dispatches(t), world.turn(t)))
  }

  predicate GoodTurn(capture: Capture, dispatched: nat, turn: Turn) {
    && turn.Turn? && (turn.draft.Some? <==> turn.calls == [])
    && (turn.draft.None? ==> capture.mode == ToolCalling && dispatched + |turn.calls| <= capture.maxToolCalls)
  }

  /** How a cooperative execution stands: every turn before the last dispatched at
      least one call, and the calls that are left are within the budget. */
  ghost predicate OnCourse(capture: Capture, trace: seq<Event>)
    requires trace != []
  {
    var last := trace[|trace| - 1];
    && last != Captured(false) && (Final(last) ==> Delivered(capture, trace))
    && (!Final(last) ==>
          && !Denied(last)
          && (|trace| > 8 ==> last.Fresh? || last.ModelCall? || last.SecurityFresh? || last.Dispatched?)
          && (|trace| <= 8 ==> InPlace(|trace| - 1, last))
          && (last.SecurityFresh? ==> |trace| > 8 && DraftAt(trace, |trace| - 2))
          && (capture.mode == SinglePass ==> Dispatches(trace) == 0 && Todo(trace) == [])
          && Dispatches(trace) + |Todo(trace)| <= capture.maxToolCalls
          && Turns(trace) <= Dispatches(trace) + if last.ModelCall? || last.SecurityFresh? then 1 else 0)
  }

  ghost predicate DraftAt(trace: seq<Event>, i: int) {
    0 <= i < |trace| && trace[i].ModelCall? && trace[i].turn.Turn? && trace[i].turn.draft.Some?
  }

  /** The last draft was checked and recorded under the captured identifier. */
  ghost predicate Delivered(capture: Capture, trace: seq<Event>) {
    var n := |trace|;
    && n >= 3 && DraftAt(trace, n - 3) && trace[n - 2] == SecurityFresh(true)
    && trace[n - 1] == Settled(Record(trace[n - 3].turn.draft.value, Audit(trace[..n - 1])), Some(capture.runId))
  }

  lemma CourseIsKept(world: World, capture: Capture, trace: seq<Event>, e: Event)
    requires Cooperative(world, capture) && trace != [] && OnCourse(capture, trace)
    requires Due(world, capture, trace) == Some(e)
    ensures OnCourse(capture, trace + [e])
  {
    Snoc(trace, e);
    assert (trace + [e])[..|trace|] == trace;
    assert GoodTurn(capture, Dispatches(trace), world.turn(trace));
  }

  lemma {:induction false} StaysOnCourse(world: World, capture: Capture, trace: seq<Event>, n: nat)
    requires Cooperative(world, capture) && Follows(world, capture, trace) && 1 <= n <= |trace|
    ensures OnCourse(capture, trace[..n])
  {
    assert DueAt(world, capture, trace, n - 1);
    if n > 1 {
      StaysOnCourse(world, capture, trace, n - 1);
      CourseIsKept(world, capture, trace[..n - 1], trace[n - 1]);
      assert trace[..n] == trace[..n - 1] + [trace[n - 1]];
    } else {
      assert trace[..1] == [Captured(true)];
      assert Dispatches([Captured(true)]) == 0 && Turns([Captured(true)]) == 0;
    }
  }

  lemma DueUnlessFinal(world: World, capture: Capture, trace: seq<Event>)
    requires Due(world, capture, trace) == None
    ensures trace != [] && (Final(trace[|trace| - 1]) || trace[|trace| - 1] == Captured(false))
  {}

  /** Where the outside cooperates, every execution ends in success: it returns the
      captured run, recorded with the verdict on the model's last turn. */
  method CooperativeExecution(world: World, capture: Capture) returns (r: Result, trace: seq<Event>)
    requires Cooperative(world, capture)
    ensures var n := |trace|;
            && n >= 3 && r.Ok? && r.runId == capture.runId
            && trace[n - 3] == ModelCall(Turn(Some(r.status), [])) && trace[n - 2] == SecurityFresh(true)
            && trace[n - 1].Settled? && trace[n - 1].record.outcome == r.status
  {
    r, trace := Execute(world, capture);
    DueUnlessFinal(world, capture, trace);
    StaysOnCourse(world, capture, trace, |trace|);
    Whole(trace);
  }
}
