/** The capsule slot pool of internal/capsule/pool.go: what each critical
    section does to the pool, as functions and as the methods of a class. */
module Pool {

  datatype Slot = Slot(name: string, socketPath: string)
  datatype State = New | Ready | Closing | Closed

  /** What a waiter's result channel carries. */
  datatype Message = Granted(slot: Slot) | Refused

  /** A call of Acquire, numbered in order of arrival. */
  type Waiter = nat

  /** The pool as the mutex protects it. `granted` is the `slot` field of each
      waiter, `sent` every message ever sent on its channel, `closes` how often
      the `closed` channel was closed. */
  datatype View = Of(
    slots: seq<Slot>,
    state: State,
    free: seq<Slot>,
    leased: set<Slot>,
    waiters: seq<Waiter>,
    granted: map<Waiter, Slot>,
    sent: map<Waiter, seq<Message>>,
    closes: nat)

  function Send(sent: map<Waiter, seq<Message>>, waiter: Waiter, message: Message): map<Waiter, seq<Message>> {
    sent[waiter := (if waiter in sent then sent[waiter] else []) + [message]]
  }

  predicate CanDispatch(v: View) {
    v.state == Ready && v.free != [] && v.waiters != []
  }

  /** One turn of the dispatch loop: the oldest waiter gets the oldest free slot. */
  function DispatchOne(v: View): View
    requires CanDispatch(v)
  {
    var waiter, slot := v.waiters[0], v.free[0];
    v.(waiters := v.waiters[1..], free := v.free[1..], leased := v.leased + {slot},
       granted := v.granted[waiter := slot], sent := Send(v.sent, waiter, Granted(slot)))
  }

  function Dispatch(v: View): View
    decreases |v.waiters|
  {
    if CanDispatch(v) then Dispatch(DispatchOne(v)) else v
  }

  function ReleaseLocked(v: View, slot: Slot): View {
    var v' := v.(leased := v.leased - {slot});
    if v.state == Ready then Dispatch(v'.(free := v.free + [slot]))
    else if v.state == Closing && v'.leased == {} then v'.(state := Closed, closes := v.closes + 1)
    else v'
  }

  function Start(v: View, topologyValid: bool): View {
    if v.state != New || !topologyValid then v
    else v.(free := v.free + v.slots, state := Ready)
  }

  /** The first critical section of Acquire. */
  function Enqueue(v: View, waiter: Waiter): View {
    if v.state != Ready then v
    else Dispatch(v.(waiters := v.waiters + [waiter], sent := v.sent[waiter := []]))
  }

  /** The critical section behind a received slot: the caller keeps it only
      while the pool is ready. */
  function Confirm(v: View, slot: Slot): View {
    if v.state != Ready && slot in v.leased then ReleaseLocked(v, slot) else v
  }

  function Without(queue: seq<Waiter>, waiter: Waiter): seq<Waiter> {
    if queue == [] then []
    else if queue[0] == waiter then queue[1..]
    else [queue[0]] + Without(queue[1..], waiter)
  }

  /** The critical section of a cancelled call. */
  function Cancel(v: View, waiter: Waiter): View {
    if waiter in v.granted then ReleaseLocked(v, v.granted[waiter])
    else Dispatch(v.(waiters := Without(v.waiters, waiter)))
  }

  function Release(v: View, slot: Slot): View {
    if slot !in v.leased then v else ReleaseLocked(v, slot)
  }

  function RefuseAll(sent: map<Waiter, seq<Message>>, queue: seq<Waiter>): map<Waiter, seq<Message>>
    decreases |queue|
  {
    if queue == [] then sent else RefuseAll(Send(sent, queue[0], Refused), queue[1..])
  }

  function Close(v: View): View {
    match v.state
    case Closed => v
    case Closing => v
    case New => v.(state := Closed, closes := v.closes + 1)
    case Ready =>
      var v' := v.(state := Closing, sent := RefuseAll(v.sent, v.waiters), waiters := []);
      if v.leased == {} then v'.(state := Closed, closes := v.closes + 1) else v'
  }

  /** `NewSlotPool` accepts a nonempty list with distinct names and distinct paths. */
  ghost predicate AcceptedSlots(slots: seq<Slot>) {
    && slots != []
    && forall i, j :: 0 <= i < j < |slots| ==>
         slots[i].name != slots[j].name && slots[i].socketPath != slots[j].socketPath
  }

  function Initial(slots: seq<Slot>): View {
    Of(slots, New, [], {}, [], map[], map[], 0)
  }

  /** The search loop of a cancellation. */
  method Dequeue(waiters: seq<Waiter>, waiter: Waiter) returns (rest: seq<Waiter>)
    ensures rest == Without(waiters, waiter)
  {
    for index := 0 to |waiters|
      invariant Without(waiters, waiter) == waiters[..index] + Without(waiters[index..], waiter)
    {
      assert waiters[index..][1..] == waiters[index + 1..];
      if waiters[index] == waiter { return waiters[..index] + waiters[index + 1..]; }
      assert waiters[..index + 1] == waiters[..index] + [waiters[index]];
    }
    rest := waiters;
  }

  class SlotPool {
    const slots: seq<Slot>
    var state: State
    var free: seq<Slot>
    var leased: set<Slot>
    var waiters: seq<Waiter>
    var granted: map<Waiter, Slot>
    var sent: map<Waiter, seq<Message>>
    var closes: nat

    function Contents(): View
      reads this
    {
      Of(slots, state, free, leased, waiters, granted, sent, closes)
    }

    constructor (slots: seq<Slot>)
      requires AcceptedSlots(slots)
      ensures Contents() == Initial(slots)
    {
      this.slots, state, free, leased := slots, New, [], {};
      waiters, granted, sent, closes := [], map[], map[], 0;
    }

    method StartPool(topologyValid: bool) returns (ok: bool)
      modifies this
      ensures Contents() == Start(old(Contents()), topologyValid)
      ensures ok <==> old(state) == New && topologyValid
    {
      if state != New { return false; }
      if !topologyValid { return false; }
      free := free + slots;
      state := Ready;
      ok := true;
    }

    method DispatchLocked()
      modifies this
      ensures Contents() == Dispatch(old(Contents()))
    {
      while state == Ready && free != [] && waiters != []
        invariant Dispatch(Contents()) == Dispatch(old(Contents()))
        decreases |waiters|
      {
        ghost var before := Contents();
        var waiter := waiters[0];
        waiters := waiters[1..];
        var slot := free[0];
        free := free[1..];
        leased := leased + {slot};
        granted := granted[waiter := slot];
        sent := Send(sent, waiter, Granted(slot));
        assert Contents() == DispatchOne(before);
      }
    }

    method ReleaseUnderLock(slot: Slot)
      modifies this
      ensures Contents() == ReleaseLocked(old(Contents()), slot)
    {
      leased := leased - {slot};
      if state == Ready {
        free := free + [slot];
        DispatchLocked();
      } else if state == Closing && leased == {} {
        state := Closed;
        closes := closes + 1;
      }
    }

    method EnqueueWaiter(waiter: Waiter) returns (ok: bool)
      modifies this
      ensures Contents() == Enqueue(old(Contents()), waiter)
      ensures ok == (old(state) == Ready)
    {
      if state != Ready { return false; }
      waiters := waiters + [waiter];
      sent := sent[waiter := []];
      DispatchLocked();
      ok := true;
    }

    method ConfirmSlot(slot: Slot) returns (ok: bool)
      modifies this
      ensures Contents() == Confirm(old(Contents()), slot)
      ensures ok == (old(state) == Ready)
    {
      if state != Ready {
        if slot in leased { ReleaseUnderLock(slot); }
        return false;
      }
      ok := true;
    }

    method CancelWaiter(waiter: Waiter)
      modifies this
      ensures Contents() == Cancel(old(Contents()), waiter)
    {
      if waiter in granted {
        ReleaseUnderLock(granted[waiter]);
      } else {
        waiters := Dequeue(waiters, waiter);
        DispatchLocked();
      }
    }

    method ReleaseSlot(slot: Slot) returns (ok: bool)
      modifies this
      ensures Contents() == Release(old(Contents()), slot)
      ensures ok == (slot in old(leased))
    {
      if slot !in leased { return false; }
      ReleaseUnderLock(slot);
      ok := true;
    }

    method ClosePool()
      modifies this
      ensures Contents() == Close(old(Contents()))
    {
      match state
      case Closed =>
      case Closing =>
      case New =>
        state := Closed;
        closes := closes + 1;
      case Ready =>
        state := Closing;
        for index := 0 to |waiters|
          invariant Contents() == old(Contents()).(state := Closing, sent := sent)
          invariant RefuseAll(sent, waiters[index..]) == RefuseAll(old(sent), old(waiters))
        {
          sent := Send(sent, waiters[index], Refused);
        }
        waiters := [];
        if leased == {} {
          state := Closed;
          closes := closes + 1;
        }
    }
  }

  /** `NewSlotPool`: refuses an empty list, a repeated name or a repeated path. */
  method NewSlotPool(slots: seq<Slot>) returns (pool: SlotPool?)
    ensures pool != null <==> AcceptedSlots(slots)
    ensures pool != null ==> fresh(pool) && pool.Contents() == Initial(slots)
  {
    if slots == [] { return null; }
    var names, paths := {}, {};
    for index := 0 to |slots|
      invariant names == set i | 0 <= i < index :: slots[i].name
      invariant paths == set i | 0 <= i < index :: slots[i].socketPath
      invariant forall i, j :: 0 <= i < j < index ==>
                  slots[i].name != slots[j].name && slots[i].socketPath != slots[j].socketPath
    {
      if slots[index].name in names { return null; }
      if slots[index].socketPath in paths { return null; }
      names, paths := names + {slots[index].name}, paths + {slots[index].socketPath};
    }
    pool := new SlotPool(slots);
  }
}
