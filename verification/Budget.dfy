/** The prompt budget (internal/agents/guardrails.go): messages are kept greedily
    from the newest to the oldest, then evidence in order, within the context. */
module Budget {
  import opened Text

  const SAFETY_TOKENS := 1_024

  datatype Role = UserRole | AssistantRole
  datatype Message = Message(role: Role, content: string)

  datatype Outcome =
    | Unavailable
    | Invalid
    | Budgeted(messages: seq<Message>, evidence: seq<string>, used: int, droppedMessages: int, droppedEvidence: int)

  // ---------------------------------------------------------------------
  // Choosing messages, newest first
  // ---------------------------------------------------------------------

  /** The room left once the items from `i` on were considered, the newest (last)
      first; item `last` is already paid for. */
  function RoomAfter(costs: seq<nat>, last: int, room: int, i: nat): int
    requires i <= |costs|
    decreases |costs| - i
  {
    if i == |costs| then room
    else
      var later := RoomAfter(costs, last, room, i + 1);
      if i != last && costs[i] <= later then later - costs[i] else later
  }

  /** Whether item `i` is kept. */
  predicate Chosen(costs: seq<nat>, last: int, room: int, i: nat)
    requires i < |costs|
  {
    i == last || costs[i] <= RoomAfter(costs, last, room, i + 1)
  }

  function Choice(costs: seq<nat>, last: int, room: int): (keep: seq<bool>)
    ensures |keep| == |costs|
  {
    seq(|costs|, i requires 0 <= i < |costs| => Chosen(costs, last, room, i))
  }

  /** What the kept items from `i` on cost, item `last` excepted. */
  function Weight(costs: seq<nat>, last: int, keep: seq<bool>, i: nat): nat
    requires |keep| == |costs| && i <= |costs|
    decreases |costs| - i
  {
    if i == |costs| then 0
    else Weight(costs, last, keep, i + 1) + if keep[i] && i != last then costs[i] else 0
  }

  lemma {:induction false} WeightGrows(costs: seq<nat>, last: int, keep: seq<bool>, i: nat, j: nat)
    requires |keep| == |costs| && i <= j <= |costs|
    ensures Weight(costs, last, keep, j) <= Weight(costs, last, keep, i)
    decreases j - i
  {
    if i < j { WeightGrows(costs, last, keep, i + 1, j); }
  }

  lemma {:induction false} ChoiceWeight(costs: seq<nat>, last: int, room: nat, i: nat)
    requires i <= |costs|
    ensures Weight(costs, last, Choice(costs, last, room), i) == room - RoomAfter(costs, last, room, i)
    ensures RoomAfter(costs, last, room, i) >= 0
    decreases |costs| - i
  {
    if i < |costs| { ChoiceWeight(costs, last, room, i + 1); }
  }

  /** The kept items fit into `room`, and no skipped one would fit beside them. */
  ghost predicate Saturates(costs: seq<nat>, last: int, room: int, keep: seq<bool>)
    requires |keep| == |costs|
  {
    && Weight(costs, last, keep, 0) <= room
    && forall j :: 0 <= j < |keep| && !keep[j] ==> Weight(costs, last, keep, 0) + costs[j] > room
  }

  lemma ChoiceSaturates(costs: seq<nat>, last: int, room: nat)
    ensures Saturates(costs, last, room, Choice(costs, last, room))
  {
    var keep := Choice(costs, last, room);
    ChoiceWeight(costs, last, room, 0);
    forall j | 0 <= j < |keep| && !keep[j] ensures Weight(costs, last, keep, 0) + costs[j] > room {
      ChoiceWeight(costs, last, room, j + 1);
      WeightGrows(costs, last, keep, 0, j + 1);
    }
  }

  predicate AgreeFrom(a: seq<bool>, b: seq<bool>, i: int) {
    |a| == |b| && forall j :: 0 <= j < |a| && i <= j ==> a[j] == b[j]
  }

  /** `a` keeps the newest item on which the two choices differ. */
  ghost predicate NewerFirst(a: seq<bool>, b: seq<bool>) {
    |a| == |b| && exists k :: 0 <= k < |a| && a[k] && !b[k] && AgreeFrom(a, b, k + 1)
  }

  lemma {:induction false} SameWeight(costs: seq<nat>, last: int, a: seq<bool>, b: seq<bool>, i: nat)
    requires |a| == |costs| && i <= |costs| && AgreeFrom(a, b, i)
    ensures Weight(costs, last, a, i) == Weight(costs, last, b, i)
    decreases |costs| - i
  {
    if i < |costs| { SameWeight(costs, last, a, b, i + 1); }
  }

  /** At the newest difference with a feasible choice, greedy choice keeps. */
  lemma FirstDifferenceIsKept(costs: seq<nat>, last: int, room: nat, other: seq<bool>, k: nat)
    requires |other| == |costs| && k < |costs| && Weight(costs, last, other, 0) <= room &&
             (0 <= last < |costs| ==> other[last])
    requires AgreeFrom(Choice(costs, last, room), other, k + 1) && Choice(costs, last, room)[k] != other[k]
    ensures Choice(costs, last, room)[k]
  {
    var keep := Choice(costs, last, room);
    ChoiceWeight(costs, last, room, k + 1);
    SameWeight(costs, last, keep, other, k + 1);
    WeightGrows(costs, last, other, 0, k);
  }

  /** Greedy choice is the lexicographically greatest feasible one, newest first. */
  lemma {:induction false} ChoiceIsGreatest(costs: seq<nat>, last: int, room: nat, other: seq<bool>, i: nat)
    requires |other| == |costs| && i <= |costs| && Weight(costs, last, other, 0) <= room &&
             (0 <= last < |costs| ==> other[last])
    requires AgreeFrom(Choice(costs, last, room), other, i)
    ensures other == Choice(costs, last, room) || NewerFirst(Choice(costs, last, room), other)
  {
    var keep := Choice(costs, last, room);
    if i > 0 {
      if keep[i - 1] == other[i - 1] {
        ChoiceIsGreatest(costs, last, room, other, i - 1);
      } else {
        FirstDifferenceIsKept(costs, last, room, other, i - 1);
      }
    }
  }

  // ---------------------------------------------------------------------
  // Choosing evidence, first come first kept
  // ---------------------------------------------------------------------

  /** The room left before item `i` is considered. */
  function RoomBefore(costs: seq<nat>, room: int, i: nat): int
    requires i <= |costs|
  {
    if i == 0 then room
    else
      var earlier := RoomBefore(costs, room, i - 1);
      if costs[i - 1] <= earlier then earlier - costs[i - 1] else earlier
  }

  function Picked(costs: seq<nat>, room: int): (keep: seq<bool>)
    ensures |keep| == |costs|
  {
    seq(|costs|, i requires 0 <= i < |costs| => costs[i] <= RoomBefore(costs, room, i))
  }

  lemma {:induction false} PickedWeight(costs: seq<nat>, room: nat, i: nat)
    requires i <= |costs|
    ensures var keep := Picked(costs, room);
            Weight(costs, -1, keep, 0) == room - RoomBefore(costs, room, i) + Weight(costs, -1, keep, i)
    ensures RoomBefore(costs, room, i) >= 0
  {
    if i > 0 { PickedWeight(costs, room, i - 1); }
  }

  lemma PickedSaturates(costs: seq<nat>, room: nat)
    ensures Saturates(costs, -1, room, Picked(costs, room))
    ensures Weight(costs, -1, Picked(costs, room), 0) == room - RoomBefore(costs, room, |costs|)
  {
    var keep := Picked(costs, room);
    PickedWeight(costs, room, |costs|);
    forall j | 0 <= j < |keep| && !keep[j] ensures Weight(costs, -1, keep, 0) + costs[j] > room {
      PickedWeight(costs, room, j);
    }
  }

  // ---------------------------------------------------------------------
  // The selected items and what they cost
  // ---------------------------------------------------------------------

  /** The kept items from `i` on, in order. */
  function Kept<T>(items: seq<T>, keep: seq<bool>, i: nat): seq<T>
    requires |items| == |keep| && i <= |items|
    decreases |items| - i
  {
    if i == |items| then [] else (if keep[i] then [items[i]] else []) + Kept(items, keep, i + 1)
  }

  function Total<T>(items: seq<T>, cost: T -> nat): nat {
    if items == [] then 0 else cost(items[0]) + Total(items[1..], cost)
  }

  function CostsOf<T>(items: seq<T>, cost: T -> nat): seq<nat> {
    seq(|items|, i requires 0 <= i < |items| => cost(items[i]))
  }

  /** The kept items cost exactly what was paid for them, item `last` included. */
  lemma {:induction false} KeptCost<T>(items: seq<T>, cost: T -> nat, last: int, keep: seq<bool>, i: nat)
    requires |items| == |keep| && i <= |items| && (0 <= last < |items| ==> keep[last])
    ensures Total(Kept(items, keep, i), cost) ==
            Weight(CostsOf(items, cost), last, keep, i) + if i <= last < |items| then cost(items[last]) else 0
    decreases |items| - i
  {
    if i < |items| {
      KeptCost(items, cost, last, keep, i + 1);
      KeptStep(items, cost, keep, i);
      assert CostsOf(items, cost)[i] == cost(items[i]);
    }
  }

  lemma KeptStep<T>(items: seq<T>, cost: T -> nat, keep: seq<bool>, i: nat)
    requires |items| == |keep| && i < |items|
    ensures Total(Kept(items, keep, i), cost) ==
            Total(Kept(items, keep, i + 1), cost) + if keep[i] then cost(items[i]) else 0
  {
    var rest := Kept(items, keep, i + 1);
    if keep[i] {
      assert ([items[i]] + rest)[1..] == rest;
    } else {
      assert [] + rest == rest;
    }
  }

  lemma {:induction false} KeptMember<T>(items: seq<T>, keep: seq<bool>, i: nat, k: nat)
    requires |items| == |keep| && i <= k < |items| && keep[k]
    ensures items[k] in Kept(items, keep, i)
    decreases |items| - i
  {
    if i < k {
      KeptMember(items, keep, i + 1, k);
    } else {
      assert Kept(items, keep, i)[0] == items[k];
    }
  }

  /** `kept` are the flagged items from `i` on, at the positions `at`, ascending. */
  ghost predicate Listed<T>(items: seq<T>, keep: seq<bool>, i: nat, kept: seq<T>, at: seq<int>)
    requires |items| == |keep|
  {
    && |at| == |kept|
    && (forall k :: 0 <= k < |at| ==> i <= at[k] < |items| && kept[k] == items[at[k]])
    && (forall j, k :: 0 <= j < k < |at| ==> at[j] < at[k])
    && (forall n :: n in at <==> i <= n < |items| && keep[n])
  }

  lemma ListedCons<T>(items: seq<T>, keep: seq<bool>, i: nat, kept: seq<T>, at: seq<int>)
    requires |items| == |keep| && i < |items| && keep[i] && Listed(items, keep, i + 1, kept, at)
    ensures Listed(items, keep, i, [items[i]] + kept, [i] + at)
  {
    forall n ensures n in [i] + at <==> i <= n < |items| && keep[n] {
      assert n in [i] + at <==> n == i || n in at;
    }
  }

  /** The kept items are exactly the flagged ones, in their order. */
  lemma {:induction false} KeptInOrder<T>(items: seq<T>, keep: seq<bool>, i: nat) returns (at: seq<int>)
    requires |items| == |keep| && i <= |items|
    ensures Listed(items, keep, i, Kept(items, keep, i), at)
    decreases |items| - i
  {
    if i == |items| { return []; }
    at := KeptInOrder(items, keep, i + 1);
    if keep[i] {
      ListedCons(items, keep, i, Kept(items, keep, i + 1), at);
      at := [i] + at;
    } else {
      assert [] + Kept(items, keep, i + 1) == Kept(items, keep, i + 1);
    }
  }

  // ---------------------------------------------------------------------
  // The whole budget
  // ---------------------------------------------------------------------

  /** `estimateTokens`. */
  function Tokens(s: string): (n: nat)
    ensures n >= 1
  {
    var count := (ByteLen(s) + 3) / 4;
    if count < 1 then 1 else count
  }

  /** Four bytes a token, rounded up, and at least one token. */
  lemma TokensMeans(s: string)
    ensures Tokens(s) >= 1 && ByteLen(s) <= 4 * Tokens(s)
    ensures Tokens(s) > 1 ==> 4 * (Tokens(s) - 1) < ByteLen(s)
  {}

  function RoleText(role: Role): string { if role.UserRole? then "user" else "assistant" }

  function Cost(m: Message): nat { Tokens(RoleText(m.role)) + Tokens(m.content) }

  /** The newest user message, or -1. */
  function LastUser(messages: seq<Message>): (last: int)
    ensures -1 <= last < |messages|
    ensures last >= 0 ==> messages[last].role == UserRole
    ensures forall j :: last < j < |messages| ==> messages[j].role != UserRole
  {
    if messages == [] then -1
    else if messages[|messages| - 1].role == UserRole then |messages| - 1
    else LastUser(messages[..|messages| - 1])
  }

  /** What `budgetInitial` is given, with its token estimates. */
  datatype Request = Request(
    available: int, base: nat, messages: seq<Message>, evidence: seq<string>,
    cost: Message -> nat, tokens: string -> nat)
  {
    function Last(): int { LastUser(messages) }
    function MessageCosts(): seq<nat> { CostsOf(messages, cost) }
    function EvidenceCosts(): seq<nat> { CostsOf(evidence, tokens) }
  }

  /** The prompt and the newest user message fit. */
  predicate Fits(q: Request) {
    q.base < q.available && q.Last() >= 0 && q.base + q.cost(q.messages[q.Last()]) <= q.available
  }

  /** The room for messages besides the newest user message. */
  function Room(q: Request): nat
    requires Fits(q)
  {
    q.available - q.base - q.cost(q.messages[q.Last()])
  }

  function KeepMessages(q: Request): (keep: seq<bool>)
    requires Fits(q)
    ensures |keep| == |q.messages| && keep[q.Last()]
  {
    Choice(q.MessageCosts(), q.Last(), Room(q))
  }

  function EvidenceRoom(q: Request): int
    requires Fits(q)
  {
    RoomAfter(q.MessageCosts(), q.Last(), Room(q), 0)
  }

  function KeepEvidence(q: Request): (keep: seq<bool>)
    requires Fits(q)
    ensures |keep| == |q.evidence|
  {
    Picked(q.EvidenceCosts(), EvidenceRoom(q))
  }

  function SelectedMessages(q: Request): seq<Message>
    requires Fits(q)
  {
    Kept(q.messages, KeepMessages(q), 0)
  }

  function SelectedEvidence(q: Request): seq<string>
    requires Fits(q)
  {
    Kept(q.evidence, KeepEvidence(q), 0)
  }

  /** What the loops count. */
  function Used(q: Request): int
    requires Fits(q)
  {
    q.available - RoomBefore(q.EvidenceCosts(), EvidenceRoom(q), |q.evidence|)
  }

  /** Safe and exact: the count is the sum of what is kept, it stays within what is
      available, and the newest user message is kept. */
  lemma PlanIsSafe(q: Request)
    requires Fits(q)
    ensures Used(q) == q.base + Total(SelectedMessages(q), q.cost) + Total(SelectedEvidence(q), q.tokens)
    ensures Used(q) <= q.available
    ensures q.messages[q.Last()] in SelectedMessages(q)
  {
    ChoiceWeight(q.MessageCosts(), q.Last(), Room(q), 0);
    PickedSaturates(q.EvidenceCosts(), EvidenceRoom(q));
    PickedWeight(q.EvidenceCosts(), EvidenceRoom(q), |q.evidence|);
    KeptCost(q.messages, q.cost, q.Last(), KeepMessages(q), 0);
    KeptCost(q.evidence, q.tokens, -1, KeepEvidence(q), 0);
    KeptMember(q.messages, KeepMessages(q), 0, q.Last());
  }

  /** A choice of messages that keeps the newest user message and fits. */
  ghost predicate Feasible(q: Request, keep: seq<bool>) {
    && Fits(q) && |keep| == |q.messages| && keep[q.Last()]
    && q.base + Total(Kept(q.messages, keep, 0), q.cost) <= q.available
  }

  /** Optimal: the kept messages are feasible, and every other feasible choice
      drops the newest message on which they differ. */
  lemma PlanIsGreatest(q: Request, other: seq<bool>)
    requires Feasible(q, other)
    ensures Feasible(q, KeepMessages(q))
    ensures other == KeepMessages(q) || NewerFirst(KeepMessages(q), other)
  {
    KeptCost(q.messages, q.cost, q.Last(), other, 0);
    KeptCost(q.messages, q.cost, q.Last(), KeepMessages(q), 0);
    ChoiceWeight(q.MessageCosts(), q.Last(), Room(q), 0);
    ChoiceIsGreatest(q.MessageCosts(), q.Last(), Room(q), other, |q.messages|);
  }

  /** Maximal: no dropped message would still fit beside the kept ones, and no
      dropped evidence beside everything kept. */
  lemma PlanIsMaximal(q: Request)
    requires Fits(q)
    ensures forall j :: 0 <= j < |q.messages| && !KeepMessages(q)[j] ==>
              q.base + Total(SelectedMessages(q), q.cost) + q.cost(q.messages[j]) > q.available
    ensures forall j :: 0 <= j < |q.evidence| && !KeepEvidence(q)[j] ==> Used(q) + q.tokens(q.evidence[j]) > q.available
  {
    var costs, ecosts := q.MessageCosts(), q.EvidenceCosts();
    ChoiceSaturates(costs, q.Last(), Room(q));
    ChoiceWeight(costs, q.Last(), Room(q), 0);
    KeptCost(q.messages, q.cost, q.Last(), KeepMessages(q), 0);
    PickedSaturates(ecosts, EvidenceRoom(q));
    forall j | 0 <= j < |q.messages| && !KeepMessages(q)[j]
      ensures q.base + Total(SelectedMessages(q), q.cost) + q.cost(q.messages[j]) > q.available
    {
      assert costs[j] == q.cost(q.messages[j]);
    }
    forall j | 0 <= j < |q.evidence| && !KeepEvidence(q)[j] ensures Used(q) + q.tokens(q.evidence[j]) > q.available {
      assert ecosts[j] == q.tokens(q.evidence[j]);
    }
  }

  // ---------------------------------------------------------------------
  // The loops
  // ---------------------------------------------------------------------

  method FindLastUser(messages: seq<Message>) returns (last: int)
    ensures last == LastUser(messages)
  {
    var index := |messages| - 1;
    while index >= 0
      invariant -1 <= index < |messages|
      invariant LastUser(messages) == LastUser(messages[..index + 1])
    {
      assert messages[..index + 1][..index] == messages[..index];
      if messages[index].role == UserRole { return index; }
      index := index - 1;
    }
    last := -1;
  }

  /** The message loop, over an array of flags. */
  method SelectMessages(costs: seq<nat>, last: int, available: int, used0: int)
    returns (selected: array<bool>, used: int)
    ensures fresh(selected) && selected[..] == Choice(costs, last, available - used0)
    ensures available - used == RoomAfter(costs, last, available - used0, 0)
  {
    selected := new bool[|costs|];
    used := used0;
    var index := |costs|;
    while index > 0
      invariant 0 <= index <= |costs| && selected.Length == |costs|
      invariant available - used == RoomAfter(costs, last, available - used0, index)
      invariant forall j :: index <= j < |costs| ==> selected[j] == Chosen(costs, last, available - used0, j)
    {
      index := index - 1;
      selected[index] := index == last || used + costs[index] <= available;
      if index != last && used + costs[index] <= available { used := used + costs[index]; }
    }
  }

  /** The collecting loop. */
  method Collect<T>(items: seq<T>, selected: array<bool>) returns (kept: seq<T>)
    requires selected.Length == |items|
    ensures kept == Kept(items, selected[..], 0)
  {
    kept := [];
    for i := 0 to |items|
      invariant kept + Kept(items, selected[..], i) == Kept(items, selected[..], 0)
    {
      if selected[i] { kept := kept + [items[i]]; }
    }
  }

  /** The evidence loop. */
  method SelectEvidence(evidence: seq<string>, costs: seq<nat>, available: int, used0: int)
    returns (kept: seq<string>, used: int)
    requires |costs| == |evidence|
    ensures kept == Kept(evidence, Picked(costs, available - used0), 0)
    ensures available - used == RoomBefore(costs, available - used0, |costs|)
  {
    kept, used := [], used0;
    ghost var keep := Picked(costs, available - used0);
    for i := 0 to |evidence|
      invariant kept + Kept(evidence, keep, i) == Kept(evidence, keep, 0)
      invariant available - used == RoomBefore(costs, available - used0, i)
    {
      if used + costs[i] <= available {
        kept := kept + [evidence[i]];
        used := used + costs[i];
      }
    }
  }

  /** The request the loops see, with the real estimates. */
  function Priced(contextWindow: int, maxOutput: int, system: string, messages: seq<Message>,
                  evidence: seq<string>): Request {
    Request(contextWindow - maxOutput - SAFETY_TOKENS, Tokens(system), messages, evidence, m => Cost(m), s => Tokens(s))
  }

  method Fill(q: Request) returns (r: Outcome)
    requires Fits(q)
    ensures r == Budgeted(SelectedMessages(q), SelectedEvidence(q), Used(q),
                          |q.messages| - |SelectedMessages(q)|, |q.evidence| - |SelectedEvidence(q)|)
  {
    var used := q.base + q.cost(q.messages[q.Last()]);
    var selected;
    selected, used := SelectMessages(q.MessageCosts(), q.Last(), q.available, used);
    var messages := Collect(q.messages, selected);
    var evidence;
    evidence, used := SelectEvidence(q.evidence, q.EvidenceCosts(), q.available, used);
    r := Budgeted(messages, evidence, used, |q.messages| - |messages|, |q.evidence| - |evidence|);
  }

  /** The bytes of a message as the estimate sees it. */
  function MessageBytes(m: Message): nat { ByteLen(RoleText(m.role)) + ByteLen(m.content) }

  lemma {:induction false} TotalDominates<T>(items: seq<T>, bytes: T -> nat, cost: T -> nat)
    requires forall x :: bytes(x) <= 4 * cost(x)
    ensures Total(items, bytes) <= 4 * Total(items, cost)
  {
    if items != [] { TotalDominates(items[1..], bytes, cost); }
  }

  /** In bytes: system prompt, kept messages and kept evidence together take no more
      than four bytes for each token left beside the answer and the safety margin. */
  lemma PlanFitsInBytes(contextWindow: int, maxOutput: int, system: string, messages: seq<Message>,
                        evidence: seq<string>)
    requires Fits(Priced(contextWindow, maxOutput, system, messages, evidence))
    ensures var q := Priced(contextWindow, maxOutput, system, messages, evidence);
            ByteLen(system) + Total(SelectedMessages(q), m => MessageBytes(m)) +
            Total(SelectedEvidence(q), s => ByteLen(s)) <= 4 * (contextWindow - maxOutput - 1_024)
  {
    var q := Priced(contextWindow, maxOutput, system, messages, evidence);
    PlanIsSafe(q);
    TokensMeans(system);
    forall m: Message ensures MessageBytes(m) <= 4 * q.cost(m) {
      TokensMeans(RoleText(m.role));
      TokensMeans(m.content);
    }
    forall s: string ensures ByteLen(s) <= 4 * q.tokens(s) { TokensMeans(s); }
    TotalDominates(SelectedMessages(q), m => MessageBytes(m), q.cost);
    TotalDominates(SelectedEvidence(q), s => ByteLen(s), q.tokens);
  }

  /** What the smallest prompt takes: the system prompt and the newest user message,
      which is at `last`. */
  function LeastPrompt(system: string, messages: seq<Message>, last: nat): nat
    requires last < |messages|
  {
    Tokens(system) + Tokens("user") + Tokens(messages[last].content)
  }

  /** The newest user message is at `last`. */
  predicate NewestUser(messages: seq<Message>, last: int) {
    0 <= last < |messages| && messages[last].role == UserRole &&
    forall j :: last < j < |messages| ==> messages[j].role != UserRole
  }

  /** There is a user message, and the smallest prompt with the newest one fits. */
  ghost predicate LeastFits(system: string, messages: seq<Message>, available: int) {
    exists last :: NewestUser(messages, last) && LeastPrompt(system, messages, last) <= available
  }

  lemma NewestIs(system: string, messages: seq<Message>, last: int, available: int)
    requires last == LastUser(messages) >= 0
    ensures LeastFits(system, messages, available) <==> LeastPrompt(system, messages, last) <= available
  {
    assert NewestUser(messages, last);
    forall other | NewestUser(messages, other) ensures other == last {
      assert messages[other].role == UserRole;
    }
  }

  lemma NoneIsNewest(system: string, messages: seq<Message>, available: int)
    requires LastUser(messages) < 0
    ensures !LeastFits(system, messages, available)
  {}

  /** `budgetInitial`: unavailable where the system prompt leaves no room, invalid
      where no user message is there or fits, and otherwise the plan of the priced
      request, which leaves room for the answer and the safety margin. */
  method BudgetInitial(contextWindow: int, maxOutput: int, system: string, messages: seq<Message>,
                       evidence: seq<string>) returns (r: Outcome)
    ensures r.Unavailable? <==>
            contextWindow <= 0 || maxOutput <= 0 || contextWindow - maxOutput - 1_024 <= Tokens(system)
    ensures r.Budgeted? <==> !r.Unavailable? && LeastFits(system, messages, contextWindow - maxOutput - 1_024)
    ensures r.Budgeted? ==>
              var q := Priced(contextWindow, maxOutput, system, messages, evidence);
              && Fits(q)
              && r == Budgeted(SelectedMessages(q), SelectedEvidence(q), Used(q),
                               |messages| - |SelectedMessages(q)|, |evidence| - |SelectedEvidence(q)|)
              && r.used + maxOutput + 1_024 <= contextWindow
  {
    var q := Priced(contextWindow, maxOutput, system, messages, evidence);
    if contextWindow <= 0 || maxOutput <= 0 || maxOutput + SAFETY_TOKENS >= contextWindow { return Unavailable; }
    if q.base >= q.available { return Unavailable; }
    var last := FindLastUser(messages);
    if last < 0 {
      NoneIsNewest(system, messages, q.available);
      return Invalid;
    }
    NewestIs(system, messages, last, q.available);
    if q.base + q.cost(messages[last]) > q.available { return Invalid; }
    r := Fill(q);
    PlanIsSafe(q);
  }
}
