/** What each step of the slot pool achieves in every reachable state
    (internal/capsule/pool.go): who is served, who waits, who is turned away. The
    effects are stated on the fields alone, without the dispatch loop: where nobody
    waits beside a free slot, a critical section hands over at most one. */
module PoolEffects {
  import opened Sequences
  import opened Pool
  import opened PoolProtocol

  // ---------------------------------------------------------------------
  // Starting, arriving, giving back
  // ---------------------------------------------------------------------

  /** The dispatch loop where at most one slot or one waiter is available. */
  lemma DispatchOnce(v: View)
    requires |v.free| <= 1 || |v.waiters| <= 1
    ensures Dispatch(v) == if CanDispatch(v) then DispatchOne(v) else v
  {
    if CanDispatch(v) { assert !CanDispatch(DispatchOne(v)); }
  }

  /** The slot `s` is no longer leased: while the pool is ready the oldest waiter
      gets it, or it is the last free one; while it closes, the last one back
      completes the shutdown. */
  ghost predicate GivenBack(v: View, s: Slot, v': View) {
    && v'.slots == v.slots
    && match v.state
       case Ready =>
         && v'.state == Ready && v'.closes == v.closes
         && if v.waiters == []
            then v'.leased == v.leased - {s} && v'.free == v.free + [s] && v'.waiters == []
                 && v'.granted == v.granted && v'.sent == v.sent
            else v'.leased == v.leased && v'.free == [] && v'.waiters == v.waiters[1..]
                 && v'.granted == v.granted[v.waiters[0] := s]
                 && v'.sent == v.sent[v.waiters[0] := [Granted(s)]]
       case _ =>
         && v'.leased == v.leased - {s} && v'.free == v.free && v'.waiters == [] && v'.granted == v.granted
         && v'.sent == v.sent
         && (v.state == Closing && v.leased == {s} ==> v'.state == Closed && v'.closes == 1)
         && (v.state == Closing && v.leased != {s} ==> v'.state == Closing && v'.closes == 0)
  }

  lemma ReadySlotGoesOn(w: World, s: Slot)
    requires Inv(w) && s in w.pool.leased && w.pool.state == Ready
    ensures GivenBack(w.pool, s, ReleaseLocked(w.pool, s))
  {
    var v := w.pool;
    var back := v.(leased := v.leased - {s}, free := v.free + [s]);
    DispatchOnce(back);
    if v.waiters != [] {
      assert v.waiters[0] in v.waiters;
      assert back.free == [s];
      assert v.sent[v.waiters[0]] + [Granted(s)] == [Granted(s)];
    }
  }

  lemma LastSlotCloses(w: World, s: Slot)
    requires Inv(w) && s in w.pool.leased && w.pool.state != Ready
    ensures GivenBack(w.pool, s, ReleaseLocked(w.pool, s))
  {
    assert w.pool.leased - {s} == {} <==> w.pool.leased == {s};
  }

  lemma ReleaseGivesBack(w: World, s: Slot)
    requires Inv(w) && s in w.pool.leased
    ensures GivenBack(w.pool, s, ReleaseLocked(w.pool, s))
  {
    if w.pool.state == Ready { ReadySlotGoesOn(w, s); } else { LastSlotCloses(w, s); }
  }

  /** A call arrives: at a ready pool it gets the first free slot or is the last in
      the queue, otherwise it is turned away. */
  ghost predicate Arrived(w: World, w': World) {
    var v, v', c := w.pool, w'.pool, w.next;
    && w'.next == c + 1
    && if v.state != Ready then w' == World(v, w.calls[c := Finished], c + 1, w.gaveUp + {c})
       else
         && w'.calls == w.calls[c := Waiting] && w'.gaveUp == w.gaveUp
         && v'.slots == v.slots && v'.state == Ready && v'.closes == v.closes
         && if v.free == []
            then v'.waiters == v.waiters + [c] && v'.sent == v.sent[c := []]
                 && v'.free == [] && v'.leased == v.leased && v'.granted == v.granted
            else v'.waiters == [] && v'.sent == v.sent[c := [Granted(v.free[0])]]
                 && v'.free == v.free[1..] && v'.leased == v.leased + {v.free[0]}
                 && v'.granted == v.granted[c := v.free[0]]
  }

  lemma QueuedCall(v: View, c: Waiter)
    requires v.state == Ready && v.free == []
    ensures Enqueue(v, c) == v.(waiters := v.waiters + [c], sent := v.sent[c := []])
  {}

  lemma ServedCall(v: View, c: Waiter)
    requires v.state == Ready && v.free != [] && v.waiters == []
    ensures Enqueue(v, c) == v.(sent := v.sent[c := [Granted(v.free[0])]], free := v.free[1..],
                                leased := v.leased + {v.free[0]}, granted := v.granted[c := v.free[0]])
  {
    var queued := v.(waiters := [c], sent := v.sent[c := []]);
    assert v.waiters + [c] == [c];
    DispatchOnce(queued);
    assert queued.waiters[1..] == [];
    assert [] + [Granted(v.free[0])] == [Granted(v.free[0])];
    assert Send(queued.sent, c, Granted(v.free[0])) == v.sent[c := [Granted(v.free[0])]];
  }

  lemma ArrivalIsServed(w: World)
    requires NobodyStarves(w.pool)
    ensures Arrived(w, Apply(w, Arrive))
  {
    if w.pool.state == Ready {
      if w.pool.free == [] { QueuedCall(w.pool, w.next); } else { ServedCall(w.pool, w.next); }
    }
  }

  // ---------------------------------------------------------------------
  // Leaving the queue
  // ---------------------------------------------------------------------

  /** The call `c` is cancelled: its slot goes on, or it leaves the queue, where the
      others keep their order. */
  ghost predicate CalledOff(w: World, c: Waiter, w': World) {
    && w'.calls == w.calls[c := Finished] && w'.next == w.next
    && if c in w.pool.granted then GivenBack(w.pool, w.pool.granted[c], w'.pool) && w'.gaveUp == w.gaveUp
       else
         && w'.gaveUp == w.gaveUp + {c} && w'.pool == w.pool.(waiters := w'.pool.waiters)
         && LeftBy(w.pool.waiters, c, w'.pool.waiters)
  }

  /** `rest` is an ordered queue without `c`. */
  ghost predicate LeftBy(queue: seq<Waiter>, c: Waiter, rest: seq<Waiter>) {
    && (forall d: Waiter :: d in rest <==> d in queue && d != c)
    && (forall i, j :: 0 <= i < j < |rest| ==> rest[i] < rest[j])
  }

  lemma CancellationIsServed(w: World, c: Waiter)
    requires Inv(w) && In(w, c, Cancelling)
    ensures CalledOff(w, c, Apply(w, Cancelled(c)))
  {
    assert Live(w, c);
    if c in w.pool.granted {
      assert Owns(w, c, w.pool.granted[c]);
      ReleaseGivesBack(w, w.pool.granted[c]);
    } else {
      var rest := Without(w.pool.waiters, c);
      WithoutKeeps(w.pool.waiters, c);
      if rest != [] {
        assert rest[0] in w.pool.waiters;
        assert w.pool.free == [] || w.pool.state != Ready;
      }
      assert Dispatch(w.pool.(waiters := rest)) == w.pool.(waiters := rest);
    }
  }

  // ---------------------------------------------------------------------
  // Closing
  // ---------------------------------------------------------------------

  /** Closing a pool that is new or ready: whoever queues is refused once, and the
      pool is closed at once if nothing is leased. */
  ghost predicate Closes(v: View, v': View) {
    && v'.slots == v.slots && v'.free == v.free && v'.leased == v.leased && v'.granted == v.granted
    && v'.waiters == [] && v'.sent.Keys == v.sent.Keys
    && (forall c :: c in v.sent ==> v'.sent[c] == if c in v.waiters then [Refused] else v.sent[c])
    && if v.leased == {} then v'.state == Closed && v'.closes == 1 else v'.state == Closing && v'.closes == 0
  }

  lemma CloseIsServed(w: World)
    requires Inv(w)
    ensures var w' := Apply(w, DoClose);
            && w' == w.(pool := w'.pool)
            && if w.pool.state == New || w.pool.state == Ready then Closes(w.pool, w'.pool) else w'.pool == w.pool
  {
    if w.pool.state == Ready {
      RefuseAllSends(w.pool.sent, w.pool.waiters);
    }
  }

  // ---------------------------------------------------------------------
  // Every step of every run
  // ---------------------------------------------------------------------

  /** When a step can be taken: whoever has a message can receive it, whoever
      received a slot can confirm it, whoever holds one can release it; starting,
      arriving and closing are always possible. */
  ghost predicate Possible(w: World, step: Step) {
    match step
    case Receive(c) => c in w.calls && w.calls[c] == Waiting && c in w.pool.sent && w.pool.sent[c] != []
    case Confirmed(c) => c in w.calls && w.calls[c].Received?
    case SeeCancel(c) => c in w.calls && w.calls[c] == Waiting
    case Cancelled(c) => c in w.calls && w.calls[c] == Cancelling
    case DoRelease(c) => c in w.calls && w.calls[c].Holding?
    case _ => true
  }

  /** A call that received `message` goes on: it holds the slot if the pool is still
      ready, and otherwise gives it back. */
  ghost predicate Resumed(w: World, c: Waiter, message: Message, w': World) {
    && w'.next == w.next && w'.gaveUp == w.gaveUp
    && match message
       case Refused => w'.calls == w.calls[c := Finished] && w'.pool == w.pool
       case Granted(slot) =>
         if w.pool.state == Ready then w'.calls == w.calls[c := Holding(slot)] && w'.pool == w.pool
         else w'.calls == w.calls[c := Finished] && GivenBack(w.pool, slot, w'.pool)
  }

  /** What a step does. */
  ghost predicate Effect(w: World, step: Step, w': World) {
    match step
    case DoStart(valid) =>
      if w.pool.state == New && valid
      then w' == w.(pool := w.pool.(state := Ready, free := w.pool.slots)) else w' == w
    case Arrive => Arrived(w, w')
    case Receive(c) =>
      c in w.pool.sent && |w.pool.sent[c]| == 1 && w' == w.(calls := w.calls[c := Received(w.pool.sent[c][0])])
    case Confirmed(c) => c in w.calls && w.calls[c].Received? && Resumed(w, c, w.calls[c].message, w')
    case SeeCancel(c) => w' == w.(calls := w.calls[c := Cancelling])
    case Cancelled(c) => CalledOff(w, c, w')
    case DoRelease(c) =>
      && c in w.calls && w.calls[c].Holding?
      && w' == w.(pool := w'.pool, calls := w.calls[c := Finished]) && GivenBack(w.pool, w.calls[c].slot, w'.pool)
    case DoClose =>
      && w' == w.(pool := w'.pool)
      && if w.pool.state == New || w.pool.state == Ready then Closes(w.pool, w'.pool) else w'.pool == w.pool
  }

  lemma ReceiptIsServed(w: World, c: Waiter)
    requires Inv(w) && Enabled(w, Confirmed(c))
    ensures Effect(w, Confirmed(c), Apply(w, Confirmed(c)))
  {
    assert Live(w, c);
    var message := w.calls[c].message;
    assert w.pool.sent[c] == [message];
    if message.Granted? {
      assert w.pool.sent[c][0].Granted?;
      assert Owns(w, c, message.slot);
      ReleaseGivesBack(w, message.slot);
    }
  }

  lemma ReturnIsServed(w: World, c: Waiter)
    requires Inv(w) && Enabled(w, DoRelease(c))
    ensures Effect(w, DoRelease(c), Apply(w, DoRelease(c)))
  {
    assert Live(w, c);
    assert Owns(w, c, w.calls[c].slot);
    ReleaseGivesBack(w, w.calls[c].slot);
  }

  lemma StepHasEffect(w: World, step: Step)
    requires Inv(w)
    ensures Possible(w, step) <==> Enabled(w, step)
    ensures Enabled(w, step) ==> Effect(w, step, Apply(w, step))
  {
    if Enabled(w, step) {
      match step
      case DoStart(_) => assert w.pool.state == New ==> [] + w.pool.slots == w.pool.slots;
      case Arrive => ArrivalIsServed(w);
      case Receive(c) => assert Live(w, c);
      case Confirmed(c) => ReceiptIsServed(w, c);
      case SeeCancel(_) =>
      case Cancelled(c) => CancellationIsServed(w, c);
      case DoRelease(c) => ReturnIsServed(w, c);
      case DoClose => CloseIsServed(w);
    }
  }

  /** In every state of every run, exactly the possible steps can be taken, and each
      has its effect: a start readies all slots, an arrival is served at once if a
      slot is free, a slot given back goes to the oldest waiter, a cancelled call
      leaves, and closing refuses the queue and closes. */
  lemma EveryStepIsServed(run: seq<World>, slots: seq<Slot>, i: nat, step: Step)
    requires AcceptedSlots(slots) && IsRun(run, slots) && i < |run|
    ensures Possible(run[i], step) <==> Enabled(run[i], step)
    ensures Enabled(run[i], step) ==> Effect(run[i], step, Apply(run[i], step))
  {
    RunKeepsInv(run, slots, i);
    StepHasEffect(run[i], step);
  }

  // ---------------------------------------------------------------------
  // Closing is final
  // ---------------------------------------------------------------------

  /** Once the pool is closing or closed: nobody is granted any more, and every
      message sent stays as it is. */
  ghost predicate Final(w: World, w': World) {
    && (w'.pool.state == Closing || w'.pool.state == Closed)
    && w'.pool.granted == w.pool.granted && w'.pool.sent == w.pool.sent
  }

  lemma FinalStep(w: World, v: World, step: Step)
    requires Inv(v) && Final(w, v) && Enabled(v, step)
    ensures Final(w, Apply(v, step))
  {
    StepHasEffect(v, step);
  }

  lemma FinalNext(w: World, v: World, v': World)
    requires Inv(v) && Final(w, v) && Next(v, v')
    ensures Final(w, v')
  {
    var step :| Enabled(v, step) && v' == Apply(v, step);
    FinalStep(w, v, step);
  }

  lemma FinalOneOn(run: seq<World>, slots: seq<Slot>, w: World, j: nat)
    requires AcceptedSlots(slots) && IsRun(run, slots) && j < |run| - 1 && Final(w, run[j])
    ensures Final(w, run[j + 1])
  {
    RunKeepsInv(run, slots, j);
    FinalNext(w, run[j], run[j + 1]);
  }

  lemma FinalAtOnce(w: World)
    requires w.pool.state == Closing || w.pool.state == Closed
    ensures Final(w, w)
  {}

  lemma {:induction false} Persists<T>(run: seq<T>, holds: T -> bool, i: nat, j: nat)
    requires i <= j < |run| && holds(run[i])
    requires forall k :: i <= k < |run| - 1 && holds(run[k]) ==> holds(run[k + 1])
    ensures holds(run[j])
    decreases j
  {
    if i < j { Persists(run, holds, i, j - 1); }
  }

  lemma StaysFinal(run: seq<World>, slots: seq<Slot>, i: nat, j: nat)
    requires AcceptedSlots(slots) && IsRun(run, slots) && i <= j < |run|
    requires run[i].pool.state == Closing || run[i].pool.state == Closed
    ensures Final(run[i], run[j])
  {
    FinalAtOnce(run[i]);
    forall k | i <= k < |run| - 1 && Final(run[i], run[k]) ensures Final(run[i], run[k + 1]) {
      FinalOneOn(run, slots, run[i], k);
    }
    Persists(run, w => Final(run[i], w), i, j);
  }

  lemma LateCallsHaveNone(w: World)
    requires MailFits(w)
    ensures forall c :: c >= w.next ==> c !in w.pool.granted
  {}

  /** What a close leads to at once. */
  ghost predicate Led(w: World, w': World) {
    && (w'.pool.state == Closing || w'.pool.state == Closed)
    && (w.pool.leased == {} ==> w'.pool.state == Closed)
    && (forall c :: c in w.pool.waiters ==> c in w'.pool.sent && w'.pool.sent[c] == [Refused])
    && w'.pool.granted == w.pool.granted && forall c :: c >= w.next ==> c !in w.pool.granted
  }

  lemma CloseLeads(w: World)
    requires Inv(w)
    ensures Led(w, Apply(w, DoClose))
  {
    CloseIsServed(w);
    LateCallsHaveNone(w);
  }

  lemma CloseLeadsAt(run: seq<World>, slots: seq<Slot>, i: nat)
    requires AcceptedSlots(slots) && IsRun(run, slots) && i < |run| - 1 && run[i + 1] == Apply(run[i], DoClose)
    ensures Led(run[i], run[i + 1])
  {
    RunKeepsInv(run, slots, i);
    CloseLeads(run[i]);
  }

  lemma ClosedStays(run: seq<World>, slots: seq<Slot>, i: nat, j: nat)
    requires AcceptedSlots(slots) && IsRun(run, slots) && i <= j < |run| && run[i].pool.state == Closed
    ensures run[j].pool.state == Closed && run[j].pool.closes == 1
  {
    ShutdownIsOrderly(run, slots, i, j);
  }

  /** What holds in every state after a close. */
  ghost predicate ClosedSince(w: World, u: World) {
    && (u.pool.state == Closing || u.pool.state == Closed)
    && (w.pool.leased == {} ==> u.pool.state == Closed && u.pool.closes == 1)
    && (forall c :: c in w.pool.waiters ==> c in u.pool.sent && u.pool.sent[c] == [Refused])
    && u.pool.granted == w.pool.granted && forall c :: c >= w.next ==> c !in u.pool.granted
  }

  lemma LedAndFinal(w: World, v: World, u: World)
    requires Led(w, v) && Final(v, u) && (v.pool.state == Closed ==> u.pool.state == Closed && u.pool.closes == 1)
    ensures ClosedSince(w, u)
  {}

  lemma LedStays(run: seq<World>, slots: seq<Slot>, w: World, i: nat, j: nat)
    requires AcceptedSlots(slots) && IsRun(run, slots) && i <= j < |run| && Led(w, run[i])
    ensures ClosedSince(w, run[j])
  {
    StaysFinal(run, slots, i, j);
    if run[i].pool.state == Closed { ClosedStays(run, slots, i, j); }
    LedAndFinal(w, run[i], run[j]);
  }

  /** After a close, in every later state of every run: the pool is closing or
      closed, and closed at once where nothing was leased; every call queued at the
      close has exactly one refusal on its channel; and no call that had no slot at
      the close, or arrived later, is ever granted one. */
  lemma CloseIsFinal(run: seq<World>, slots: seq<Slot>, i: nat, j: nat)
    requires AcceptedSlots(slots) && IsRun(run, slots) && i < j < |run| && run[i + 1] == Apply(run[i], DoClose)
    ensures run[j].pool.state == Closing || run[j].pool.state == Closed
    ensures run[i].pool.leased == {} ==> run[j].pool.state == Closed && run[j].pool.closes == 1
    ensures forall c :: c in run[i].pool.waiters ==> c in run[j].pool.sent && run[j].pool.sent[c] == [Refused]
    ensures run[j].pool.granted == run[i].pool.granted
    ensures forall c :: c >= run[i].next ==> c !in run[j].pool.granted
  {
    CloseLeadsAt(run, slots, i);
    LedStays(run, slots, run[i], i + 1, j);
  }
}
