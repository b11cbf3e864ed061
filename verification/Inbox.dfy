/** A worker's inbox: the queue, the closed flag, the overflow counter and the side
    channel through which lost action results are reported to the worker.

    `Inbox` is the inbox as a value.  A push is not atomic: it tests the closed flag,
    then takes the queue lock, then (after a critical overflow) bumps a counter,
    records the failure and makes one attempt to enqueue a diagnostic.  `Advance`
    performs one of these steps; `PushAlone` is a push nobody interrupts, which is
    what the class method is proved to do. */
module Inboxes {
  import opened Basics
  import opened Queues
  import opened Events

  /** Why a result never reached the queue. */
  datatype Loss = Overloaded | ShutDown

  datatype Failure = Failure(request: nat, loss: Loss)

  datatype Capacity = Capacity(high: nat, low: nat)

  datatype Inbox = Inbox(
    history: History<WorkItem>, dropped: nat, closed: bool, overflow: nat, failed: seq<Failure>)

  /** One push: which worker it is for and what it carries. */
  datatype Parcel = Parcel(target: nat, bot: nat, item: WorkItem, botSeq: nat)

  function Wrap(p: Parcel): Envelope<WorkItem> {
    Envelope(p.bot, AsItem(p.item), p.botSeq)
  }

  const DIAGNOSTIC := Envelope(0, AsItem(WorkerOverloaded), 0)

  /** The section under the queue lock. */
  function Enqueue(q: Inbox, e: Envelope<WorkItem>, cap: Capacity): Inbox {
    q.(history := Then(q.history, e),
       dropped := q.dropped + if Overflows(q, e, cap) then 1 else 0)
  }

  predicate Overflows(q: Inbox, e: Envelope<WorkItem>, cap: Capacity) {
    PushResult(q.history, e, cap.high, cap.low) == CriticalOverflow
  }

  function Record(q: Inbox, item: WorkItem, loss: Loss): Inbox {
    match Request(item)
    case Some(r) => q.(failed := q.failed + [Failure(r, loss)])
    case None => q
  }

  /** Where a push stands. */
  datatype PushPhase = Start | Open | Refused | Overflowed | Counted | Recorded | Finished

  /** One atomic step of pushing `p`. */
  function Advance(q: Inbox, p: Parcel, phase: PushPhase, cap: Capacity): (Inbox, PushPhase) {
    match phase
    case Start => (q, if q.closed then Refused else Open)
    case Refused => (Record(q, p.item, ShutDown), Finished)
    case Open => (Enqueue(q, Wrap(p), cap), if Overflows(q, Wrap(p), cap) then Overflowed else Finished)
    case Overflowed => (q.(overflow := q.overflow + 1), Counted)
    case Counted => (Record(q, p.item, Overloaded), Recorded)
    case Recorded => (Enqueue(q, DIAGNOSTIC, cap), Finished)
    case Finished => (q, Finished)
  }

  /** A push that nobody interrupts. */
  function PushAlone(q: Inbox, p: Parcel, cap: Capacity): Inbox {
    if q.closed then Record(q, p.item, ShutDown)
    else if Overflows(q, Wrap(p), cap) then
      Enqueue(Record(Enqueue(q, Wrap(p), cap), p.item, Overloaded).(overflow := q.overflow + 1), DIAGNOSTIC, cap)
    else Enqueue(q, Wrap(p), cap)
  }

  function Steps(q: Inbox, p: Parcel, phase: PushPhase, cap: Capacity, n: nat): (Inbox, PushPhase)
    decreases n
  {
    if n == 0 then (q, phase)
    else
      var (q', phase') := Advance(q, p, phase, cap);
      Steps(q', p, phase', cap, n - 1)
  }

  /** Running the steps back to back is the uninterrupted push; five steps always suffice. */
  lemma PushAloneIsItsSteps(q: Inbox, p: Parcel, cap: Capacity)
    ensures Steps(q, p, Start, cap, 5) == (PushAlone(q, p, cap), Finished)
  {
    var (q1, f1) := Advance(q, p, Start, cap);
    var (q2, f2) := Advance(q1, p, f1, cap);
    var (q3, f3) := Advance(q2, p, f2, cap);
    var (q4, f4) := Advance(q3, p, f3, cap);
    var (q5, f5) := Advance(q4, p, f4, cap);
    assert Steps(q4, p, f4, cap, 1) == Steps(q5, p, f5, cap, 0);
    assert Steps(q3, p, f3, cap, 2) == Steps(q4, p, f4, cap, 1);
    assert Steps(q2, p, f2, cap, 3) == Steps(q3, p, f3, cap, 2);
  }

  /** Whatever happens between its test of the flag and its turn at the lock, even a close:
      a push enqueues its item exactly when it saw the queue open, and otherwise it leaves
      the queue alone. */
  lemma EnqueuesExactlyWhenSeenOpen(q: Inbox, later: Inbox, p: Parcel, cap: Capacity)
    ensures
      var (_, phase) := Advance(q, p, Start, cap);
      var (after, _) := Advance(later, p, phase, cap);
      && (after.history == Then(later.history, Wrap(p)) <==> !q.closed)
      && (after.history == later.history <==> q.closed)
      && after.closed == later.closed
  {
    assert later.history != Then(later.history, Wrap(p));
  }

  /** What an uninterrupted push does, field by field.  Into a closed inbox nothing is queued;
      a result is recorded as shut down.  An item that the full high lane turns away is counted,
      a result is recorded as overloaded, and a diagnostic from bot 0 follows.  Everything else
      is queued and nothing is recorded. */
  lemma PushFieldByField(q: Inbox, p: Parcel, cap: Capacity)
    ensures
      var after := PushAlone(q, p, cap);
      var settles := p.item.ActionDone? || p.item.CallbackCompletion?;
      var full := PriorityOf(p.item) == High && |Lane(q.history, High)| >= cap.high;
      var e := Envelope(p.bot, QueueItem(PriorityOf(p.item), NameOf(p.item), p.item), p.botSeq);
      && after.closed == q.closed
      && (q.closed ==> after.history == q.history && after.dropped == q.dropped && after.overflow == q.overflow)
      && (q.closed ==> after.failed == if settles then q.failed + [Failure(p.item.result.requestId, ShutDown)] else q.failed)
      && (!q.closed && full ==>
            && after.dropped == q.dropped + 1 && after.overflow == q.overflow + 1
            && after.history == Then(Then(q.history, e), Envelope(0, QueueItem(Low, "worker_overload", WorkerOverloaded), 0))
            && after.failed == if settles then q.failed + [Failure(p.item.result.requestId, Overloaded)] else q.failed)
      && (!q.closed && !full ==> after == q.(history := Then(q.history, e)))
  {
  }

  // ------------------------------------------------------------------------- class

  class WorkerQueue {
    const state: PriorityQueue<WorkItem>
    var closed: bool
    var criticalOverflow: nat
    var failedRequests: seq<Failure>

    ghost predicate Valid()
      reads this, state
    {
      state.Valid() && criticalOverflow == state.statsHigh.dropped
    }

    ghost function Value(): Inbox
      reads this, state
    {
      Inbox(state.history, state.statsHigh.dropped, closed, criticalOverflow, failedRequests)
    }

    ghost function Cap(): Capacity
    {
      Capacity(state.highCapacity, state.lowCapacity)
    }

    constructor (highCapacity: nat, lowCapacity: nat)
      ensures Valid() && fresh(state)
      ensures Value() == Inbox(Empty, 0, false, 0, []) && Cap() == Capacity(highCapacity, lowCapacity)
    {
      state := new PriorityQueue<WorkItem>(highCapacity, lowCapacity);
      closed, criticalOverflow, failedRequests := false, 0, [];
    }

    /** The counter kept outside the lock agrees with the high lane's own count. */
    method Push(p: Parcel) returns (outcome: PushOutcome)
      requires Valid()
      modifies this, state
      ensures Valid()
      ensures Value() == PushAlone(old(Value()), p, Cap())
      ensures outcome == if old(closed) then Closed
                         else PushResult(old(Value()).history, Wrap(p), state.highCapacity, state.lowCapacity)
    {
      if closed {
        RecordFailure(p.item, ShutDown);
        return Closed;
      }
      outcome := state.Push(Wrap(p));
      if outcome == CriticalOverflow {
        ReportOverflow(p.item);
      }
    }

    /** Counts the overflow, records who lost a result, and tries once to leave a
        diagnostic in the low lane. */
    method ReportOverflow(item: WorkItem)
      requires state.Valid() && criticalOverflow + 1 == state.statsHigh.dropped
      modifies this, state
      ensures Valid()
      ensures Value() == Enqueue(Record(old(Value()), item, Overloaded).(overflow := old(criticalOverflow) + 1), DIAGNOSTIC, Cap())
    {
      criticalOverflow := criticalOverflow + 1;
      RecordFailure(item, Overloaded);
      var _ := state.Push(DIAGNOSTIC);
    }

    method RecordFailure(item: WorkItem, loss: Loss)
      modifies `failedRequests
      ensures Value() == Record(old(Value()), item, loss)
    {
      match Request(item)
      case Some(r) => failedRequests := failedRequests + [Failure(r, loss)];
      case None =>
    }

    method TakeFailedRequests() returns (taken: seq<Failure>)
      requires Valid()
      modifies `failedRequests
      ensures Valid() && taken == old(failedRequests)
      ensures Value() == old(Value()).(failed := [])
    {
      taken := failedRequests;
      failedRequests := [];
    }

    /** Whether the wait ends by a wake-up or by its timeout, the batch is everything
        ready, and nothing that was ready stays behind. */
    method WaitForBatch() returns (batch: seq<Envelope<WorkItem>>)
      requires Valid()
      modifies state
      ensures Valid()
      ensures batch == Ready(old(Value()).history, state.highCapacity, state.lowCapacity)
      ensures Value() == old(Value()).(history := Empty) || (batch == [] && Value() == old(Value()))
    {
      var depth := state.Depth();
      if depth != 0 || closed {
        batch := state.DrainReady();
      } else {
        batch := [];
      }
    }

    method Close()
      requires Valid()
      modifies `closed
      ensures Valid() && Value() == old(Value()).(closed := true)
    {
      closed := true;
    }
  }

  // --------------------------------------------------------------------- dispatching

  function WorkerFor(bot: nat, workers: nat): nat
    requires workers > 0
  {
    bot % workers
  }

  /** The first bots belong to the workers of the same number, and from there on ownership
      repeats: bot `k * workers + i` belongs to worker `i`. */
  lemma OwnersRepeat(bot: nat, workers: nat)
    requires workers > 0
    ensures WorkerFor(bot, workers) < workers
    ensures bot < workers ==> WorkerFor(bot, workers) == bot
    ensures WorkerFor(bot + workers, workers) == WorkerFor(bot, workers)
  {
    SameRemainder(bot, workers);
  }

  lemma SameRemainder(a: nat, n: nat)
    requires n > 0
    ensures (a + n) % n == a % n
  {
    var q, r := a / n, a % n;
    assert a + n == n * (q + 1) + r;
    Remainder(a + n, n, q + 1, r);
  }

  lemma Remainder(a: nat, n: nat, q: nat, r: nat)
    requires r < n && a == n * q + r
    ensures a % n == r
  {
    Unique(n, a / n, a % n, q, r);
  }

  lemma OwnerOf(k: nat, workers: nat, i: nat)
    requires i < workers
    ensures WorkerFor(k * workers + i, workers) == i
  {
    Remainder(k * workers + i, workers, k, i);
  }

  /** As many consecutive bots as there are workers have each a different owner. */
  lemma {:induction false} ConsecutiveOwnersDiffer(a: nat, b: nat, workers: nat)
    requires workers > 0 && a < b < a + workers
    ensures WorkerFor(a, workers) != WorkerFor(b, workers)
  {
    if a >= workers {
      ConsecutiveOwnersDiffer(a - workers, b - workers, workers);
      OwnersRepeat(a - workers, workers);
      OwnersRepeat(b - workers, workers);
    } else {
      OwnersRepeat(a, workers);
      OwnersRepeat(b, workers);
      if b >= workers {
        OwnersRepeat(b - workers, workers);
      }
    }
  }

  /** The pushes that announce a completed action: the owner always hears of it, and the
      worker that issued it hears of it too when it is a different one. */
  function Announce(origin: nat, result: ActionResult, workers: nat): seq<Parcel>
    requires workers > 0
  {
    var owner := WorkerFor(result.botId, workers);
    [Parcel(owner, result.botId, ActionDone(result), 0)]
    + if origin == owner then [] else [Parcel(origin, result.botId, CallbackCompletion(result), 0)]
  }

  /** How many of the announcing pushes go to worker `w`. */
  function Addressed(ps: seq<Parcel>, w: nat): nat {
    if ps == [] then 0 else (if ps[0].target == w then 1 else 0) + Addressed(ps[1..], w)
  }

  /** Exactly one settling item per worker concerned, and none for the others; the owner gets
      the action result, another origin gets the callback completion. */
  lemma AnnouncedOnce(origin: nat, result: ActionResult, workers: nat, w: nat)
    requires workers > 0
    ensures Addressed(Announce(origin, result, workers), w) ==
            if w == origin || w == WorkerFor(result.botId, workers) then 1 else 0
    ensures forall p <- Announce(origin, result, workers) ::
              && Request(p.item) == Some(result.requestId) && p.bot == result.botId
              && p.item == if p.target == WorkerFor(result.botId, workers) then ActionDone(result) else CallbackCompletion(result)
  {
    var ps := Announce(origin, result, workers);
    assert Addressed(ps, w) == (if ps[0].target == w then 1 else 0) + Addressed(ps[1..], w);
    if |ps| == 2 {
      assert ps[1..] == [ps[1]];
      assert ps[1..][1..] == [];
    }
  }

  class DispatcherHandle {
    const queues: seq<WorkerQueue>
    var nextRequestId: nat
    var perBotSeq: map<nat, nat>

    ghost function Repr(): set<object> {
      (set i | 0 <= i < |queues| :: queues[i] as object) + (set i | 0 <= i < |queues| :: queues[i].state as object)
    }

    ghost predicate Valid()
      reads this, Repr()
    {
      && |queues| > 0
      && (forall i, j :: 0 <= i < j < |queues| ==> queues[i] != queues[j] && queues[i].state != queues[j].state)
      && (forall i :: 0 <= i < |queues| ==> queues[i].Valid())
    }

    /** Request ids start at 1; no bot has a sequence number yet. */
    constructor (queues: seq<WorkerQueue>)
      requires |queues| > 0 && forall i :: 0 <= i < |queues| ==> queues[i].Valid()
      requires forall i, j :: 0 <= i < j < |queues| ==> queues[i] != queues[j] && queues[i].state != queues[j].state
      ensures Valid() && this.queues == queues
      ensures nextRequestId == 1 && perBotSeq == map[]
    {
      this.queues, nextRequestId, perBotSeq := queues, 1, map[];
    }

    method AllocateRequestId() returns (id: nat)
      modifies `nextRequestId
      ensures id == old(nextRequestId) && nextRequestId == id + 1
    {
      id := nextRequestId;
      nextRequestId := nextRequestId + 1;
    }

    method NextBotSeq(bot: nat) returns (n: nat)
      modifies `perBotSeq
      ensures n == 1 + if bot in old(perBotSeq) then old(perBotSeq)[bot] else 0
      ensures perBotSeq == old(perBotSeq)[bot := n]
    {
      var last := if bot in perBotSeq then perBotSeq[bot] else 0;
      n := last + 1;
      perBotSeq := perBotSeq[bot := n];
    }

    /** A push into one inbox leaves the others alone. */
    method PushTo(i: nat, p: Parcel)
      requires Valid() && i < |queues|
      modifies queues[i], queues[i].state
      ensures Valid()
      ensures queues[i].Value() == PushAlone(old(queues[i].Value()), p, queues[i].Cap())
      ensures forall j :: 0 <= j < |queues| && j != i ==> queues[j].Value() == old(queues[j].Value())
    {
      var _ := queues[i].Push(p);
    }

    /** The owner's inbox takes the action result, the issuing worker's inbox takes the
        callback completion when it is a different worker, every other inbox is untouched. */
    method DispatchActionResult(origin: nat, result: ActionResult)
      requires Valid() && origin < |queues|
      modifies Repr()
      ensures Valid()
      ensures
        var owner := WorkerFor(result.botId, |queues|);
        forall i :: 0 <= i < |queues| ==>
          queues[i].Value() ==
          if i == owner then
            PushAlone(old(queues[i].Value()), Parcel(i, result.botId, ActionDone(result), 0), queues[i].Cap())
          else if i == origin then
            PushAlone(old(queues[i].Value()), Parcel(i, result.botId, CallbackCompletion(result), 0), queues[i].Cap())
          else old(queues[i].Value())
      ensures result.botId < |queues| ==>
                var i := result.botId;
                queues[i].Value() ==
                PushAlone(old(queues[i].Value()), Parcel(i, i, ActionDone(result), 0), queues[i].Cap())
      ensures result.botId < |queues| && origin == result.botId ==>
                forall i :: 0 <= i < |queues| && i != origin ==> queues[i].Value() == old(queues[i].Value())
    {
      OwnersRepeat(result.botId, |queues|);
      var owner := WorkerFor(result.botId, |queues|);
      PushTo(owner, Parcel(owner, result.botId, ActionDone(result), 0));
      if origin == owner {
        return;
      }
      PushTo(origin, Parcel(origin, result.botId, CallbackCompletion(result), 0));
    }
  }
}
