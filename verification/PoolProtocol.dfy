/** Many goroutines on one slot pool: every interleaving of the critical
    sections of internal/capsule/pool.go with channel receives, cancellations,
    releases and shutdown. */
module PoolProtocol {
  import opened Sequences
  import opened Pool

  /** Where a call of Acquire stands. `Received` has taken the message but not
      yet the lock again; `Cancelling` has seen its context end but not yet the
      lock; `Holding` has returned a slot; `Finished` holds nothing. */
  datatype Phase =
    | Waiting
    | Received(message: Message)
    | Cancelling
    | Holding(slot: Slot)
    | Finished

  /** `calls` are numbered 0 .. next-1 in order of arrival. `gaveUp` are the calls
      that were turned away on arrival or cancelled before they got a slot. */
  datatype World = World(pool: View, calls: map<Waiter, Phase>, next: Waiter, gaveUp: set<Waiter>)

  datatype Step =
    | DoStart(topologyValid: bool)
    | Arrive
    | Receive(call: Waiter)
    | Confirmed(call: Waiter)
    | SeeCancel(call: Waiter)
    | Cancelled(call: Waiter)
    | DoRelease(call: Waiter)
    | DoClose

  predicate In(w: World, call: Waiter, phase: Phase) {
    call in w.calls && w.calls[call] == phase
  }

  /** The guard of a step: only the call's own state and its channel matter. */
  predicate Enabled(w: World, step: Step) {
    match step
    case DoStart(_) => true
    case Arrive => true
    case Receive(c) => In(w, c, Waiting) && c in w.pool.sent && w.pool.sent[c] != []
    case Confirmed(c) => c in w.calls && w.calls[c].Received?
    case SeeCancel(c) => In(w, c, Waiting)
    case Cancelled(c) => In(w, c, Cancelling)
    case DoRelease(c) => c in w.calls && w.calls[c].Holding?
    case DoClose => true
  }

  function Apply(w: World, step: Step): World
    requires Enabled(w, step)
  {
    match step
    case DoStart(valid) => w.(pool := Start(w.pool, valid))
    case Arrive =>
      if w.pool.state == Ready
      then w.(pool := Enqueue(w.pool, w.next), calls := w.calls[w.next := Waiting], next := w.next + 1)
      else w.(calls := w.calls[w.next := Finished], next := w.next + 1, gaveUp := w.gaveUp + {w.next})
    case Receive(c) => w.(calls := w.calls[c := Received(w.pool.sent[c][0])])
    case Confirmed(c) =>
      if w.calls[c].message.Refused? then w.(calls := w.calls[c := Finished])
      else
        var slot := w.calls[c].message.slot;
        w.(pool := Confirm(w.pool, slot),
           calls := w.calls[c := if w.pool.state == Ready then Holding(slot) else Finished])
    case SeeCancel(c) => w.(calls := w.calls[c := Cancelling])
    case Cancelled(c) =>
      w.(pool := Cancel(w.pool, c), calls := w.calls[c := Finished],
         gaveUp := if c in w.pool.granted then w.gaveUp else w.gaveUp + {c})
    case DoRelease(c) => w.(pool := Release(w.pool, w.calls[c].slot), calls := w.calls[c := Finished])
    case DoClose => w.(pool := Close(w.pool))
  }

  function Begin(slots: seq<Slot>): World {
    World(Initial(slots), map[], 0, {})
  }

  ghost predicate IsRun(run: seq<World>, slots: seq<Slot>) {
    && run != [] && run[0] == Begin(slots)
    && forall i :: 0 <= i < |run| - 1 ==> Next(run[i], run[i + 1])
  }

  ghost predicate Next(w: World, w': World) {
    exists step :: Enabled(w, step) && w' == Apply(w, step)
  }

  // ---------------------------------------------------------------------
  // The invariant
  // ---------------------------------------------------------------------

  /** While ready, `free` and `leased` partition the slots. */
  ghost predicate SlotsPartitioned(v: View) {
    && Distinct(v.slots)
    && Distinct(v.free)
    && (forall s :: s in v.free ==> s in v.slots && s !in v.leased)
    && (forall s :: s in v.leased ==> s in v.slots)
    && (v.state == Ready ==> forall s :: s in v.slots ==> s in v.free || s in v.leased)
  }

  /** A call is live until it has returned without a slot or given it back. */
  ghost predicate Live(w: World, c: Waiter) {
    c in w.calls && !w.calls[c].Finished?
  }

  ghost predicate Owns(w: World, c: Waiter, s: Slot) {
    Live(w, c) && c in w.pool.granted && w.pool.granted[c] == s
  }

  /** Each leased slot has exactly one owner, and owners hold leased slots. */
  ghost predicate Ownership(w: World) {
    && (forall c: Waiter, s :: Owns(w, c, s) ==> s in w.pool.leased)
    && (forall s :: s in w.pool.leased ==> exists c: Waiter :: Owns(w, c, s))
    && (forall c: Waiter, d: Waiter, s :: Owns(w, c, s) && Owns(w, d, s) ==> c == d)
  }

  /** The queue is in arrival order and holds only calls nobody has answered. */
  ghost predicate QueueOrdered(w: World) {
    && (forall i, j :: 0 <= i < j < |w.pool.waiters| ==> w.pool.waiters[i] < w.pool.waiters[j])
    && (forall c: Waiter :: c in w.pool.waiters ==>
          && c in w.calls && (w.calls[c] == Waiting || w.calls[c] == Cancelling)
          && c !in w.pool.granted && c in w.pool.sent && w.pool.sent[c] == [])
    && (w.pool.state != Ready ==> w.pool.waiters == [])
  }

  ghost predicate Answered(v: View, c: Waiter) {
    c in v.sent && v.sent[c] == [Refused]
  }

  /** One message per channel at most, and each phase fits its messages. */
  ghost predicate MailFits(w: World) {
    && (forall c: Waiter :: c in w.calls <==> c < w.next)
    && (forall c: Waiter :: c in w.pool.sent ==> c < w.next && |w.pool.sent[c]| <= 1)
    && (forall c: Waiter :: c in w.pool.granted ==> c in w.pool.sent && w.pool.sent[c] == [Granted(w.pool.granted[c])])
    && (forall c: Waiter :: c in w.pool.sent && w.pool.sent[c] != [] && w.pool.sent[c][0].Granted? ==>
          c in w.pool.granted)
    && (forall c: Waiter :: Live(w, c) ==> c in w.pool.sent)
    && (forall c: Waiter :: c in w.calls && w.calls[c].Received? ==> w.pool.sent[c] == [w.calls[c].message])
    && (forall c: Waiter :: c in w.calls && w.calls[c].Holding? ==>
          c in w.pool.granted && w.pool.granted[c] == w.calls[c].slot)
  }

  /** Every call is granted, queued, refused at shutdown, or has given up; and
      whoever is queued or refused arrived after everyone granted. */
  ghost predicate ArrivalOrder(w: World) {
    && (forall c: Waiter :: c < w.next ==>
          c in w.pool.granted || c in w.pool.waiters || Answered(w.pool, c) || c in w.gaveUp)
    && (forall a, b: Waiter :: b in w.pool.granted && (a in w.pool.waiters || Answered(w.pool, a)) ==> b < a)
    && (forall c: Waiter :: c in w.gaveUp ==> c < w.next && c !in w.pool.waiters)
    && (w.pool.state == New || w.pool.state == Ready ==> forall c: Waiter :: !Answered(w.pool, c))
  }

  ghost predicate Lifecycle(v: View) {
    && (v.state == New ==> v.free == [] && v.leased == {})
    && (v.state == Closed ==> v.leased == {} && v.closes == 1)
    && (v.state == Closing ==> v.leased != {})
    && (v.state != Closed ==> v.closes == 0)
  }

  /** Nobody waits while a slot is free. */
  ghost predicate NobodyStarves(v: View) {
    v.state == Ready ==> v.free == [] || v.waiters == []
  }

  /** The invariant that also holds inside the dispatch loop. */
  ghost predicate Core(w: World) {
    && SlotsPartitioned(w.pool)
    && Ownership(w)
    && QueueOrdered(w)
    && MailFits(w)
    && ArrivalOrder(w)
    && Lifecycle(w.pool)
  }

  ghost predicate Inv(w: World) {
    Core(w) && NobodyStarves(w.pool)
  }

  // ---------------------------------------------------------------------
  // The dispatch loop keeps it
  // ---------------------------------------------------------------------

  lemma DispatchOneSlots(w: World)
    requires Core(w) && CanDispatch(w.pool)
    ensures SlotsPartitioned(DispatchOne(w.pool)) && Lifecycle(DispatchOne(w.pool))
  {
    var v := w.pool;
    var v' := DispatchOne(v);
    assert v.free[0] in v.free;
    forall s | s in v'.free ensures s in v.slots && s !in v'.leased {
      var i :| 0 <= i < |v'.free| && v'.free[i] == s;
      assert v.free[i + 1] == s;
    }
    forall s | s in v.slots ensures s in v'.free || s in v'.leased {
      if s in v.free {
        var i :| 0 <= i < |v.free| && v.free[i] == s;
        if i > 0 { assert v'.free[i - 1] == s; }
      }
    }
  }

  lemma DispatchOneOwnership(w: World)
    requires Core(w) && CanDispatch(w.pool)
    ensures Ownership(w.(pool := DispatchOne(w.pool)))
  {
    var head, slot := w.pool.waiters[0], w.pool.free[0];
    var w' := w.(pool := DispatchOne(w.pool));
    assert head in w.pool.waiters && slot in w.pool.free;
    assert Owns(w', head, slot);
    forall c: Waiter, s | c != head ensures Owns(w', c, s) <==> Owns(w, c, s) {}
    forall s | s in w'.pool.leased ensures exists c: Waiter :: Owns(w', c, s) {
      if s != slot {
        var c: Waiter :| Owns(w, c, s);
        assert Owns(w', c, s);
      }
    }
  }

  lemma DispatchOneQueue(w: World)
    requires Core(w) && CanDispatch(w.pool)
    ensures QueueOrdered(w.(pool := DispatchOne(w.pool)))
  {
    var w' := w.(pool := DispatchOne(w.pool));
    var head := w.pool.waiters[0];
    forall c: Waiter | c in w'.pool.waiters ensures c in w.pool.waiters && c != head {
      var i :| 0 <= i < |w'.pool.waiters| && w'.pool.waiters[i] == c;
      assert w.pool.waiters[i + 1] == c;
    }
  }

  lemma DispatchOneMail(w: World)
    requires Core(w) && CanDispatch(w.pool)
    ensures MailFits(w.(pool := DispatchOne(w.pool)))
  {
    assert w.pool.waiters[0] in w.pool.waiters;
  }

  /** The tail of an ordered queue holds the later arrivals. */
  lemma TailMembers(queue: seq<Waiter>)
    requires queue != []
    requires forall i, j :: 0 <= i < j < |queue| ==> queue[i] < queue[j]
    ensures forall c: Waiter :: c in queue[1..] <==> c in queue && c != queue[0]
    ensures forall c: Waiter :: c in queue[1..] ==> queue[0] < c
  {
    forall c: Waiter | c in queue[1..] ensures c in queue && queue[0] < c {
      var i :| 0 <= i < |queue[1..]| && queue[1..][i] == c;
      assert queue[i + 1] == c;
    }
    forall c: Waiter | c in queue && c != queue[0] ensures c in queue[1..] {
      var i :| 0 <= i < |queue| && queue[i] == c;
      assert queue[1..][i - 1] == c;
    }
  }

  lemma DispatchOneArrival(w: World)
    requires ArrivalOrder(w) && QueueOrdered(w) && MailFits(w) && CanDispatch(w.pool)
    ensures ArrivalOrder(w.(pool := DispatchOne(w.pool)))
  {
    var w' := w.(pool := DispatchOne(w.pool));
    var head := w.pool.waiters[0];
    assert head in w.pool.waiters;
    TailMembers(w.pool.waiters);
    assert w'.pool.waiters == w.pool.waiters[1..];
    forall c: Waiter ensures !Answered(w'.pool, c) {
      assert !Answered(w.pool, c);
      if c == head { assert w'.pool.sent[c] == [Granted(w.pool.free[0])]; }
    }
    forall c: Waiter | c < w.next
      ensures c in w'.pool.granted || c in w'.pool.waiters || Answered(w'.pool, c) || c in w.gaveUp
    {
      assert !Answered(w.pool, c);
    }
    forall a: Waiter, b: Waiter | b in w'.pool.granted && a in w'.pool.waiters ensures b < a {
      if b != head { assert b in w.pool.granted; }
    }
  }

  lemma {:induction false} DispatchKeeps(w: World)
    requires Core(w)
    ensures var w' := w.(pool := Dispatch(w.pool));
            && Core(w') && NobodyStarves(w'.pool)
            && w'.pool.state == w.pool.state
    decreases |w.pool.waiters|
  {
    if CanDispatch(w.pool) {
      DispatchOneSlots(w);
      DispatchOneOwnership(w);
      DispatchOneQueue(w);
      DispatchOneMail(w);
      DispatchOneArrival(w);
      DispatchKeeps(w.(pool := DispatchOne(w.pool)));
    }
  }

  // ---------------------------------------------------------------------
  // Giving a slot back
  // ---------------------------------------------------------------------

  /** The call `c` ends and its slot leaves `leased`. */
  function GiveUpSlot(w: World, c: Waiter, s: Slot): World {
    w.(pool := w.pool.(leased := w.pool.leased - {s}), calls := w.calls[c := Finished])
  }

  lemma GiveBackOwnership(w: World, c: Waiter, s: Slot)
    requires Core(w) && Owns(w, c, s)
    ensures Ownership(GiveUpSlot(w, c, s))
  {
    var w' := GiveUpSlot(w, c, s);
    forall d: Waiter, r | d != c ensures Owns(w', d, r) <==> Owns(w, d, r) {}
    forall r | r in w'.pool.leased ensures exists d: Waiter :: Owns(w', d, r) {
      var d: Waiter :| Owns(w, d, r);
      assert d != c;
      assert Owns(w', d, r);
    }
  }

  lemma GiveBackQueue(w: World, c: Waiter, s: Slot)
    requires Core(w) && Owns(w, c, s)
    ensures QueueOrdered(GiveUpSlot(w, c, s))
  {}

  lemma GiveBackMail(w: World, c: Waiter, s: Slot)
    requires Core(w) && Owns(w, c, s)
    ensures MailFits(GiveUpSlot(w, c, s))
  {}

  lemma GiveBackArrival(w: World, c: Waiter, s: Slot)
    requires Core(w) && Owns(w, c, s)
    ensures ArrivalOrder(GiveUpSlot(w, c, s))
  {
    var w' := GiveUpSlot(w, c, s);
    assert forall d: Waiter :: Answered(w'.pool, d) <==> Answered(w.pool, d);
    assert forall d: Waiter :: Live(w', d) ==> Live(w, d);
  }

  lemma GiveBackRest(w: World, c: Waiter, s: Slot)
    requires Core(w) && Owns(w, c, s)
    ensures var w' := GiveUpSlot(w, c, s); QueueOrdered(w') && MailFits(w') && ArrivalOrder(w')
  {
    GiveBackQueue(w, c, s);
    GiveBackMail(w, c, s);
    GiveBackArrival(w, c, s);
  }

  /** `releaseLocked` on a slot whose owner `c` ends: the slot goes to the next
      waiter or back to `free`, or completes the shutdown. */
  lemma GiveBack(w: World, c: Waiter, s: Slot)
    requires Inv(w) && Owns(w, c, s)
    ensures Inv(w.(pool := ReleaseLocked(w.pool, s), calls := w.calls[c := Finished]))
  {
    if w.pool.state == Ready {
      GiveBackReady(w, c, s);
    } else {
      GiveBackLate(w, c, s);
    }
  }

  lemma GiveBackReady(w: World, c: Waiter, s: Slot)
    requires Inv(w) && Owns(w, c, s) && w.pool.state == Ready
    ensures Inv(w.(pool := ReleaseLocked(w.pool, s), calls := w.calls[c := Finished]))
  {
    var gone := GiveUpSlot(w, c, s);
    var back := gone.(pool := gone.pool.(free := w.pool.free + [s]));
    GiveBackCore(w, c, s);
    DispatchKeeps(back);
  }

  lemma GiveBackCore(w: World, c: Waiter, s: Slot)
    requires Inv(w) && Owns(w, c, s) && w.pool.state == Ready
    ensures var gone := GiveUpSlot(w, c, s); Core(gone.(pool := gone.pool.(free := w.pool.free + [s])))
  {
    var gone := GiveUpSlot(w, c, s);
    GiveBackOwnership(w, c, s);
    GiveBackRest(w, c, s);
    FreeAgain(w.pool, s);
    SameCalls(gone, gone.(pool := gone.pool.(free := w.pool.free + [s])));
  }

  lemma GiveBackLate(w: World, c: Waiter, s: Slot)
    requires Inv(w) && Owns(w, c, s) && w.pool.state != Ready
    ensures Inv(w.(pool := ReleaseLocked(w.pool, s), calls := w.calls[c := Finished]))
  {
    GiveBackOwnership(w, c, s);
    GiveBackRest(w, c, s);
    SameCalls(GiveUpSlot(w, c, s), w.(pool := ReleaseLocked(w.pool, s), calls := w.calls[c := Finished]));
    ReleasedLate(w.pool, s);
  }

  lemma ReleasedLate(v: View, s: Slot)
    requires SlotsPartitioned(v) && Lifecycle(v) && NobodyStarves(v) && v.state != Ready && s in v.leased
    ensures SlotsPartitioned(ReleaseLocked(v, s)) && Lifecycle(ReleaseLocked(v, s))
    ensures NobodyStarves(ReleaseLocked(v, s))
  {}

  lemma FreeAgain(v: View, s: Slot)
    requires SlotsPartitioned(v) && Lifecycle(v) && v.state == Ready && s in v.leased
    ensures var v' := v.(leased := v.leased - {s}, free := v.free + [s]); SlotsPartitioned(v') && Lifecycle(v')
  {
    var v' := v.(leased := v.leased - {s}, free := v.free + [s]);
    forall i, j | 0 <= i < j < |v'.free| ensures v'.free[i] != v'.free[j] {
      assert v.free[i] in v.free;
    }
    forall r | r in v.slots ensures r in v'.free || r in v'.leased {
      if r in v.free {
        var i :| 0 <= i < |v.free| && v.free[i] == r;
        assert v'.free[i] == r;
      } else if r == s {
        assert v'.free[|v.free|] == r;
      }
    }
  }

  /** What depends only on calls, messages and the queue is shared by worlds
      that differ in `free`, `closes` and the end of the shutdown. */
  lemma SameCalls(w: World, w': World)
    requires w'.calls == w.calls && w'.next == w.next && w'.gaveUp == w.gaveUp
    requires w'.pool.granted == w.pool.granted && w'.pool.sent == w.pool.sent
    requires w'.pool.leased == w.pool.leased && w'.pool.waiters == w.pool.waiters
    requires w'.pool.state == w.pool.state || (w.pool.state == Closing && w'.pool.state == Closed)
    requires Ownership(w) && QueueOrdered(w) && MailFits(w) && ArrivalOrder(w)
    ensures Ownership(w') && QueueOrdered(w') && MailFits(w') && ArrivalOrder(w')
  {
    assert forall d: Waiter, r :: Owns(w', d, r) <==> Owns(w, d, r);
    assert forall d: Waiter :: Answered(w'.pool, d) <==> Answered(w.pool, d);
    assert forall d: Waiter :: Live(w', d) <==> Live(w, d);
  }

  // ---------------------------------------------------------------------
  // Every step keeps the invariant
  // ---------------------------------------------------------------------

  lemma StartKeeps(w: World, valid: bool)
    requires Inv(w)
    ensures Inv(Apply(w, DoStart(valid)))
  {
    var w' := Apply(w, DoStart(valid));
    if w.pool.state == New && valid {
      assert w'.pool.free == w.pool.slots;
      assert forall d: Waiter, r :: Owns(w', d, r) <==> Owns(w, d, r);
      assert forall d: Waiter :: Answered(w'.pool, d) <==> Answered(w.pool, d);
      assert forall d: Waiter :: Live(w', d) <==> Live(w, d);
    }
  }

  lemma ArriveTurnedAway(w: World)
    requires Inv(w) && w.pool.state != Ready
    ensures Inv(Apply(w, Arrive))
  {
    TurnedAwayOwnership(w);
    TurnedAwayMail(w);
    TurnedAwayOrder(w);
  }

  lemma TurnedAwayOwnership(w: World)
    requires Inv(w) && w.pool.state != Ready
    ensures Ownership(Apply(w, Arrive))
  {
    ArriveOwnership(w, Apply(w, Arrive));
  }

  lemma TurnedAwayMail(w: World)
    requires Inv(w) && w.pool.state != Ready
    ensures MailFits(Apply(w, Arrive)) && QueueOrdered(Apply(w, Arrive))
  {
    assert forall d: Waiter :: Live(Apply(w, Arrive), d) <==> Live(w, d);
  }

  lemma TurnedAwayOrder(w: World)
    requires Inv(w) && w.pool.state != Ready
    ensures ArrivalOrder(Apply(w, Arrive))
  {
    assert forall d: Waiter :: Answered(Apply(w, Arrive).pool, d) <==> Answered(w.pool, d);
  }

  function Queued(w: World): World {
    w.(pool := w.pool.(waiters := w.pool.waiters + [w.next], sent := w.pool.sent[w.next := []]),
       calls := w.calls[w.next := Waiting], next := w.next + 1)
  }

  lemma QueuedMail(w: World)
    requires MailFits(w)
    ensures MailFits(Queued(w))
  {
    var w' := Queued(w);
    assert w.next !in w.pool.sent && w.next !in w.pool.granted;
    forall d: Waiter | Live(w', d) ensures d in w'.pool.sent {
      if d != w.next { assert Live(w, d); }
    }
  }

  lemma QueuedMembers(w: World)
    ensures forall d: Waiter :: d in Queued(w).pool.waiters <==> d in w.pool.waiters || d == w.next
  {
    assert Queued(w).pool.waiters[|w.pool.waiters|] == w.next;
  }

  lemma QueuedOrdered(w: World)
    requires QueueOrdered(w) && MailFits(w) && w.pool.state == Ready
    ensures QueueOrdered(Queued(w))
  {
    assert w.next !in w.pool.sent && w.next !in w.pool.granted;
    QueuedMembers(w);
    forall i | 0 <= i < |w.pool.waiters| ensures w.pool.waiters[i] < w.next {
      assert w.pool.waiters[i] in w.pool.waiters;
    }
  }

  lemma QueuedArrival(w: World)
    requires ArrivalOrder(w) && MailFits(w) && w.pool.state == Ready
    ensures ArrivalOrder(Queued(w))
  {
    var w' := Queued(w);
    QueuedMembers(w);
    forall d: Waiter ensures !Answered(w'.pool, d) { assert !Answered(w.pool, d); }
    forall c: Waiter | c < w'.next
      ensures c in w'.pool.granted || c in w'.pool.waiters || Answered(w'.pool, c) || c in w'.gaveUp
    {
      if c < w.next { assert !Answered(w.pool, c); }
    }
  }

  lemma ArriveQueued(w: World)
    requires Inv(w) && w.pool.state == Ready
    ensures Inv(Apply(w, Arrive))
  {
    var queued := Queued(w);
    assert w.next !in w.pool.granted;
    assert forall d: Waiter, r :: Owns(queued, d, r) <==> Owns(w, d, r);
    ArriveOwnership(w, queued);
    QueuedMail(w);
    QueuedOrdered(w);
    QueuedArrival(w);
    DispatchKeeps(queued);
    assert Apply(w, Arrive) == queued.(pool := Dispatch(queued.pool));
  }

  lemma ArriveOwnership(w: World, w': World)
    requires Ownership(w) && w'.pool.leased == w.pool.leased
    requires forall d: Waiter, r :: Owns(w', d, r) <==> Owns(w, d, r)
    ensures Ownership(w')
  {
    forall s | s in w'.pool.leased ensures exists c: Waiter :: Owns(w', c, s) {
      var c: Waiter :| Owns(w, c, s);
      assert Owns(w', c, s);
    }
  }

  /** Arrival order speaks only of the pool, of `next` and of `gaveUp`. */
  lemma CallsDoNotMatter(w: World, calls: map<Waiter, Phase>)
    requires ArrivalOrder(w)
    ensures ArrivalOrder(w.(calls := calls))
  {}

  lemma PhaseMail(w: World, c: Waiter, phase: Phase)
    requires MailFits(w) && Live(w, c)
    requires phase.Received? ==> w.pool.sent[c] == [phase.message]
    requires phase.Holding? ==> w.calls[c] == Received(Granted(phase.slot))
    ensures MailFits(w.(calls := w.calls[c := phase]))
  {
    var w' := w.(calls := w.calls[c := phase]);
    assert w'.pool == w.pool && w'.next == w.next;
    forall d: Waiter | Live(w', d) ensures d in w.pool.sent { assert Live(w, d); }
    forall d: Waiter | d in w'.calls && w'.calls[d].Holding?
      ensures d in w.pool.granted && w.pool.granted[d] == w'.calls[d].slot
    {
      if d == c {
        assert w.pool.sent[c] == [Granted(phase.slot)];
        assert w.pool.sent[c][0].Granted?;
      }
    }
  }

  /** A call that only moves between live phases owns what it owned. */
  lemma PhaseKeeps(w: World, c: Waiter, phase: Phase)
    requires Inv(w) && Live(w, c) && !phase.Finished?
    requires phase == Cancelling ==> w.calls[c] == Waiting
    requires phase.Received? ==> w.pool.sent[c] == [phase.message]
    requires phase.Holding? ==> w.calls[c] == Received(Granted(phase.slot))
    requires phase != Waiting
    ensures Inv(w.(calls := w.calls[c := phase]))
  {
    var w' := w.(calls := w.calls[c := phase]);
    assert forall d: Waiter, r :: Owns(w', d, r) <==> Owns(w, d, r);
    ArriveOwnership(w, w');
    CallsDoNotMatter(w, w'.calls);
    PhaseMail(w, c, phase);
    assert QueueOrdered(w') by {
      forall d: Waiter | d in w.pool.waiters
        ensures d in w'.calls && (w'.calls[d] == Waiting || w'.calls[d] == Cancelling)
      {
        assert d in w.calls && w.pool.sent[d] == [];
      }
    }
  }

  /** A call without a slot that is no longer queued may end. */
  lemma EndKeeps(w: World, c: Waiter)
    requires Inv(w) && Live(w, c) && c !in w.pool.granted && c !in w.pool.waiters
    ensures Inv(w.(calls := w.calls[c := Finished]))
  {
    var w' := w.(calls := w.calls[c := Finished]);
    assert forall d: Waiter, r :: Owns(w', d, r) <==> Owns(w, d, r);
    ArriveOwnership(w, w');
    CallsDoNotMatter(w, w'.calls);
    PhaseMail(w, c, Finished);
  }

  lemma ConfirmedKeeps(w: World, c: Waiter)
    requires Inv(w) && Enabled(w, Confirmed(c))
    ensures Inv(Apply(w, Confirmed(c)))
  {
    assert Live(w, c);
    var message := w.calls[c].message;
    assert w.pool.sent[c] == [message];
    if message.Refused? {
      EndKeeps(w, c);
    } else {
      var slot := message.slot;
      assert w.pool.sent[c][0].Granted?;
      assert Owns(w, c, slot);
      if w.pool.state == Ready {
        PhaseKeeps(w, c, Holding(slot));
      } else {
        GiveBack(w, c, slot);
      }
    }
  }

  lemma {:induction false} WithoutKeeps(queue: seq<Waiter>, c: Waiter)
    requires forall i, j :: 0 <= i < j < |queue| ==> queue[i] < queue[j]
    ensures var rest := Without(queue, c);
            && (forall i, j :: 0 <= i < j < |rest| ==> rest[i] < rest[j])
            && (forall d: Waiter :: d in rest <==> d in queue && d != c)
  {
    if queue != [] {
      var tail := queue[1..];
      WithoutKeeps(tail, c);
      assert forall d: Waiter :: d in queue <==> d == queue[0] || d in tail;
      forall d: Waiter | d in tail ensures queue[0] < d {
        var i :| 0 <= i < |tail| && tail[i] == d;
        assert queue[i + 1] == d;
      }
      if queue[0] != c {
        var rest := Without(queue, c);
        assert rest == [queue[0]] + Without(tail, c);
        forall i, j | 0 <= i < j < |rest| ensures rest[i] < rest[j] {
          if i == 0 { assert Without(tail, c)[j - 1] in Without(tail, c); }
        }
      }
    }
  }

  lemma CancelledKeeps(w: World, c: Waiter)
    requires Inv(w) && Enabled(w, Cancelled(c))
    ensures Inv(Apply(w, Cancelled(c)))
  {
    assert Live(w, c);
    if c in w.pool.granted {
      assert Owns(w, c, w.pool.granted[c]);
      GiveBack(w, c, w.pool.granted[c]);
    } else {
      var left := w.(pool := w.pool.(waiters := Without(w.pool.waiters, c)),
                     calls := w.calls[c := Finished], gaveUp := w.gaveUp + {c});
      WithoutKeeps(w.pool.waiters, c);
      LeaveKeeps(w, c, left);
      DispatchKeeps(left);
      assert Apply(w, Cancelled(c)) == left.(pool := Dispatch(left.pool));
    }
  }

  lemma LeaveKeeps(w: World, c: Waiter, left: World)
    requires Inv(w) && Live(w, c) && c !in w.pool.granted
    requires left == w.(pool := w.pool.(waiters := Without(w.pool.waiters, c)),
                        calls := w.calls[c := Finished], gaveUp := w.gaveUp + {c})
    requires forall i, j :: 0 <= i < j < |left.pool.waiters| ==> left.pool.waiters[i] < left.pool.waiters[j]
    requires forall d: Waiter :: d in left.pool.waiters <==> d in w.pool.waiters && d != c
    ensures Core(left)
  {
    assert forall d: Waiter, r :: Owns(left, d, r) <==> Owns(w, d, r);
    ArriveOwnership(w, left);
    PhaseMail(w, c, Finished);
    var ended := w.(calls := w.calls[c := Finished]);
    assert MailFits(left) by {
      assert forall d: Waiter :: Live(left, d) <==> Live(ended, d);
    }
    LeaveQueue(w, c, left);
    LeaveArrival(w, c, left);
  }

  lemma LeaveQueue(w: World, c: Waiter, left: World)
    requires QueueOrdered(w)
    requires left == w.(pool := w.pool.(waiters := Without(w.pool.waiters, c)),
                        calls := w.calls[c := Finished], gaveUp := w.gaveUp + {c})
    requires forall i, j :: 0 <= i < j < |left.pool.waiters| ==> left.pool.waiters[i] < left.pool.waiters[j]
    requires forall d: Waiter :: d in left.pool.waiters <==> d in w.pool.waiters && d != c
    ensures QueueOrdered(left)
  {}

  lemma LeaveArrival(w: World, c: Waiter, left: World)
    requires ArrivalOrder(w) && MailFits(w) && Live(w, c)
    requires left == w.(pool := w.pool.(waiters := Without(w.pool.waiters, c)),
                        calls := w.calls[c := Finished], gaveUp := w.gaveUp + {c})
    requires forall d: Waiter :: d in left.pool.waiters <==> d in w.pool.waiters && d != c
    ensures ArrivalOrder(left)
  {
    assert forall d: Waiter :: Answered(left.pool, d) <==> Answered(w.pool, d);
  }

  lemma {:induction false} RefuseAllSends(sent: map<Waiter, seq<Message>>, queue: seq<Waiter>)
    requires Distinct(queue)
    requires forall c :: c in queue ==> c in sent && sent[c] == []
    ensures var sent' := RefuseAll(sent, queue);
            && sent'.Keys == sent.Keys
            && forall c :: c in sent ==> sent'[c] == if c in queue then [Refused] else sent[c]
  {
    if queue != [] {
      var tail, once := queue[1..], Send(sent, queue[0], Refused);
      assert forall c :: c in queue <==> c == queue[0] || c in tail;
      assert queue[0] !in tail;
      RefuseAllSends(once, tail);
    }
  }

  lemma CloseKeeps(w: World)
    requires Inv(w)
    ensures Inv(Apply(w, DoClose))
  {
    var w' := Apply(w, DoClose);
    var queue := w.pool.waiters;
    if w.pool.state == Ready {
      RefuseAllSends(w.pool.sent, queue);
      assert forall d: Waiter, r :: Owns(w', d, r) <==> Owns(w, d, r);
      ArriveOwnership(w, w');
      assert forall d: Waiter :: Live(w', d) <==> Live(w, d);
      CloseReadyMail(w, w');
      CloseReadyArrival(w, w');
    } else if w.pool.state == New {
      assert forall d: Waiter, r :: Owns(w', d, r) <==> Owns(w, d, r);
      ArriveOwnership(w, w');
      assert forall d: Waiter :: Answered(w'.pool, d) <==> Answered(w.pool, d);
      assert forall d: Waiter :: Live(w', d) <==> Live(w, d);
    }
  }

  ghost predicate AllRefused(w: World, w': World) {
    && w'.pool.sent.Keys == w.pool.sent.Keys
    && forall c :: c in w.pool.sent ==> w'.pool.sent[c] == if c in w.pool.waiters then [Refused] else w.pool.sent[c]
  }

  lemma CloseReadyMail(w: World, w': World)
    requires MailFits(w) && QueueOrdered(w)
    requires w'.calls == w.calls && w'.next == w.next && w'.pool.granted == w.pool.granted
    requires AllRefused(w, w')
    ensures MailFits(w')
  {
    assert forall d: Waiter :: Live(w', d) <==> Live(w, d);
  }

  lemma CloseReadyArrival(w: World, w': World)
    requires Inv(w) && w.pool.state == Ready
    requires w'.next == w.next && w'.gaveUp == w.gaveUp && w'.pool.granted == w.pool.granted
    requires w'.pool.waiters == [] && (w'.pool.state == Closing || w'.pool.state == Closed)
    requires AllRefused(w, w')
    ensures ArrivalOrder(w')
  {
    RefusedAreAnswered(w, w');
    RefusedOrder(w, w');
  }

  lemma RefusedOrder(w: World, w': World)
    requires ArrivalOrder(w) && w.pool.state == Ready
    requires w'.next == w.next && w'.gaveUp == w.gaveUp && w'.pool.granted == w.pool.granted
    requires w'.pool.waiters == [] && (w'.pool.state == Closing || w'.pool.state == Closed)
    requires forall d: Waiter :: Answered(w'.pool, d) <==> d in w.pool.waiters
    ensures ArrivalOrder(w')
  {}

  lemma RefusedAreAnswered(w: World, w': World)
    requires Core(w) && w.pool.state == Ready && AllRefused(w, w')
    ensures forall d: Waiter :: Answered(w'.pool, d) <==> d in w.pool.waiters
  {
    forall d: Waiter ensures Answered(w'.pool, d) <==> d in w.pool.waiters {
      assert !Answered(w.pool, d);
    }
  }

  lemma StepKeeps(w: World, step: Step)
    requires Inv(w) && Enabled(w, step)
    ensures Inv(Apply(w, step))
  {
    match step
    case DoStart(valid) => StartKeeps(w, valid);
    case Arrive => if w.pool.state == Ready { ArriveQueued(w); } else { ArriveTurnedAway(w); }
    case Receive(c) =>
      assert Live(w, c);
      PhaseKeeps(w, c, Received(w.pool.sent[c][0]));
    case Confirmed(c) => ConfirmedKeeps(w, c);
    case SeeCancel(c) =>
      assert Live(w, c);
      PhaseKeeps(w, c, Cancelling);
    case Cancelled(c) => CancelledKeeps(w, c);
    case DoRelease(c) =>
      assert Live(w, c);
      assert Owns(w, c, w.calls[c].slot);
      GiveBack(w, c, w.calls[c].slot);
    case DoClose => CloseKeeps(w);
  }

  // ---------------------------------------------------------------------
  // What every run guarantees
  // ---------------------------------------------------------------------

  lemma BeginInv(slots: seq<Slot>)
    requires AcceptedSlots(slots)
    ensures Inv(Begin(slots))
  {
    var w := Begin(slots);
    forall i, j | 0 <= i < j < |slots| ensures slots[i] != slots[j] {
      assert slots[i].name != slots[j].name;
    }
    assert forall c: Waiter, s :: !Owns(w, c, s);
  }

  lemma {:induction false} RunKeepsInv(run: seq<World>, slots: seq<Slot>, i: nat)
    requires AcceptedSlots(slots) && IsRun(run, slots) && i < |run|
    ensures Inv(run[i])
  {
    if i == 0 {
      BeginInv(slots);
    } else {
      RunKeepsInv(run, slots, i - 1);
      assert Next(run[i - 1], run[i - 1 + 1]);
      var step :| Enabled(run[i - 1], step) && run[i] == Apply(run[i - 1], step);
      StepKeeps(run[i - 1], step);
    }
  }

  /** Ownership: while the pool is ready, `free` has no duplicates, `free` and
      `leased` partition the slots, and every leased slot belongs to exactly one
      call, which has returned it to its caller or has not yet picked it up. */
  lemma SlotsAreOwnedOnce(run: seq<World>, slots: seq<Slot>, i: nat)
    requires AcceptedSlots(slots) && IsRun(run, slots) && i < |run|
    ensures var v := run[i].pool;
            v.state == Ready ==>
              && Distinct(v.free)
              && (forall s :: s in v.slots <==> s in v.free || s in v.leased)
              && (forall s :: s in v.free ==> s !in v.leased)
    ensures forall s :: s in run[i].pool.leased <==> exists c: Waiter :: Owns(run[i], c, s)
    ensures forall c: Waiter, d: Waiter, s :: Owns(run[i], c, s) && Owns(run[i], d, s) ==> c == d
    ensures forall c: Waiter :: c in run[i].calls && run[i].calls[c].Holding? ==> Owns(run[i], c, run[i].calls[c].slot)
  {
    RunKeepsInv(run, slots, i);
  }

  /** Liveness: nobody is queued while a slot is free; a granted call has left
      behind every earlier one that did not itself get a slot or give up; and no
      channel ever carries a second message, so sends under the lock never block. */
  lemma ServedInArrivalOrder(run: seq<World>, slots: seq<Slot>, i: nat)
    requires AcceptedSlots(slots) && IsRun(run, slots) && i < |run|
    ensures run[i].pool.free == [] || run[i].pool.waiters == [] || run[i].pool.state != Ready
    ensures forall a: Waiter, b: Waiter :: a < b && b in run[i].pool.granted ==>
              a in run[i].pool.granted || a in run[i].gaveUp
    ensures forall c: Waiter :: c in run[i].pool.sent ==> |run[i].pool.sent[c]| <= 1
  {
    RunKeepsInv(run, slots, i);
    var w := run[i];
    forall a: Waiter, b: Waiter | a < b && b in w.pool.granted
      ensures a in w.pool.granted || a in w.gaveUp
    {
      assert b in w.pool.sent && a < w.next;
      assert !(a in w.pool.waiters || Answered(w.pool, a));
    }
  }

  function Rank(s: State): nat {
    match s case New => 0 case Ready => 1 case Closing => 2 case Closed => 3
  }

  lemma {:induction false} DispatchKeepsState(v: View)
    ensures Dispatch(v).state == v.state && Dispatch(v).closes == v.closes
    decreases |v.waiters|
  {
    if CanDispatch(v) { DispatchKeepsState(DispatchOne(v)); }
  }

  lemma ReleaseMovesForward(v: View, s: Slot)
    ensures Rank(v.state) <= Rank(ReleaseLocked(v, s).state)
  {
    DispatchKeepsState(v.(leased := v.leased - {s}, free := v.free + [s]));
  }

  lemma StepMovesForward(w: World, step: Step)
    requires Enabled(w, step)
    ensures Rank(w.pool.state) <= Rank(Apply(w, step).pool.state)
    ensures forall c: Waiter :: c in Apply(w, step).calls && Apply(w, step).calls[c].Holding? ==>
              (c in w.calls && w.calls[c] == Apply(w, step).calls[c]) ||
              w.pool.state == Ready == Apply(w, step).pool.state
  {
    match step
    case Arrive =>
      DispatchKeepsState(w.pool.(waiters := w.pool.waiters + [w.next], sent := w.pool.sent[w.next := []]));
    case Confirmed(c) =>
      if w.calls[c].message.Granted? { ReleaseMovesForward(w.pool, w.calls[c].message.slot); }
    case Cancelled(c) =>
      if c in w.pool.granted { ReleaseMovesForward(w.pool, w.pool.granted[c]); }
      else { DispatchKeepsState(w.pool.(waiters := Without(w.pool.waiters, c))); }
    case DoRelease(c) => ReleaseMovesForward(w.pool, w.calls[c].slot);
    case DoStart(_) =>
    case Receive(_) =>
    case SeeCancel(_) =>
    case DoClose =>
  }

  /** What one state says about the shutdown. */
  ghost predicate ShutdownFits(w: World) {
    && (w.pool.state == Closed <==> w.pool.closes == 1) && (w.pool.state != Closed <==> w.pool.closes == 0)
    && (w.pool.state == Closed ==> w.pool.leased == {})
    && (w.pool.state == Closing ==> exists c: Waiter, s :: Owns(w, c, s))
  }

  lemma InvFitsShutdown(w: World)
    requires Inv(w)
    ensures ShutdownFits(w)
  {
    if w.pool.state == Closing {
      var s :| s in w.pool.leased;
      var c: Waiter :| Owns(w, c, s);
    }
  }

  /** The state has not gone back, and no slot was obtained since it left READY. */
  ghost predicate Later(w: World, w': World) {
    && Rank(w.pool.state) <= Rank(w'.pool.state)
    && (w.pool.state != Ready && w.pool.state != New ==>
          forall c: Waiter :: c in w'.calls && w'.calls[c].Holding? ==> In(w, c, w'.calls[c]))
  }

  lemma LaterStep(w: World, v: World, step: Step)
    requires Later(w, v) && Enabled(v, step)
    ensures Later(w, Apply(v, step))
  {
    StepMovesForward(v, step);
  }

  lemma LaterSame(w: World)
    ensures Later(w, w)
  {}

  lemma {:induction false} RunMovesForward(run: seq<World>, slots: seq<Slot>, i: nat, j: nat)
    requires IsRun(run, slots) && i <= j < |run|
    ensures Later(run[i], run[j])
    decreases j
  {
    if i < j {
      RunMovesForward(run, slots, i, j - 1);
      assert Next(run[j - 1], run[j - 1 + 1]);
      var step :| Enabled(run[j - 1], step) && run[j] == Apply(run[j - 1], step);
      LaterStep(run[i], run[j - 1], step);
    } else {
      LaterSame(run[i]);
    }
  }

  /** Shutdown: the state only moves NEW, READY, CLOSING, CLOSED; a closed pool
      has no leased slot and closed its channel exactly once; a closing pool
      still waits for an owner; and no call obtains a slot at a step that does
      not both begin and end in READY. */
  lemma ShutdownIsOrderly(run: seq<World>, slots: seq<Slot>, i: nat, j: nat)
    requires AcceptedSlots(slots) && IsRun(run, slots) && i <= j < |run|
    ensures Rank(run[i].pool.state) <= Rank(run[j].pool.state)
    ensures run[j].pool.state == Closed <==> run[j].pool.closes == 1
    ensures run[j].pool.state != Closed <==> run[j].pool.closes == 0
    ensures run[j].pool.state == Closed ==> run[j].pool.leased == {}
    ensures run[j].pool.state == Closing ==> exists c: Waiter, s :: Owns(run[j], c, s)
    ensures run[i].pool.state != Ready && run[i].pool.state != New ==>
              forall c: Waiter :: c in run[j].calls && run[j].calls[c].Holding? ==> In(run[i], c, run[j].calls[c])
  {
    RunKeepsInv(run, slots, j);
    InvFitsShutdown(run[j]);
    RunMovesForward(run, slots, i, j);
  }
}
