/** One worker's dispatch loop as steps over its state.

    A step is as small as other threads can observe: one iteration of each loop of the
    worker is a step, so pushes by other threads and the passing of time fall between
    any two of them.  Script code is represented by what it can do to this state:
    issue an action and register a callback for it, at the points where handlers run. */
module Workers {
  import opened Basics
  import opened Queues
  import opened Events
  import opened Inboxes
  import opened Callbacks

  datatype Phase =
    | Script       // top-level script, before the loop
    | Head         // top of the loop: close the queue if shutting down
    | Waiting      // about to wait for a batch
    | Deciding     // batch drained: leave the loop or dispatch
    | Dispatching  // delivering the batch
    | Resolving    // telling callbacks about lost results
    | Sweeping     // telling callbacks about their timeout
    | Firing       // running due timers
    | Cleaning     // left the loop: telling the remaining callbacks
    | Done         // returned
    | Broken       // ended by a script error or a panic, without any cleanup

  datatype Worker = Worker(
    inbox: Inbox, phase: Phase,
    batch: seq<Envelope<WorkItem>>, inBatch: nat,
    taken: seq<Failure>, inTaken: nat,
    todo: seq<nat>, inTodo: nat, sweptAt: nat,
    calling: Option<nat>, book: Book, handled: Log<nat>)

  const FRESH := Worker(Inbox(Empty, 0, false, 0, []), Script, [], 0, [], 0, [], 0, 0, None, BLANK, Empty)

  datatype Env = Env(cap: Capacity, timeout: nat, now: nat, shutdown: bool)

  datatype Move =
    | EnterLoop
    | LoopHead
    | Wait(drains: bool)
    | Decide(ids: seq<nat>)
    | Dispatch
    | EndBatch
    | ResolveNext
    | EndResolve(ids: seq<nat>)
    | SweepNext
    | EndSweep
    | EndFiring
    | CleanNext
    | Finish
    | AddCallback(bot: nat, victim: nat)
    | NoCallback
    | Break

  /** Handlers and timers run here; callbacks run elsewhere and cannot register callbacks. */
  predicate RunsScript(p: Phase) {
    p == Script || p == Dispatching || p == Firing
  }

  /** The worker makes no further move. */
  predicate Ended(p: Phase) {
    p == Done || p == Broken
  }

  ghost predicate Enabled(w: Worker, m: Move, env: Env) {
    && (m.AddCallback? || m.NoCallback? <==> w.calling.Some?)
    && match m
       case EnterLoop => w.phase == Script
       case LoopHead => w.phase == Head
       case Wait(drains) => w.phase == Waiting && (drains || Ready(w.inbox.history, env.cap.high, env.cap.low) == [])
       case Decide(ids) => w.phase == Deciding && Enumerates(ids, w.book.pending.Keys)
       case Dispatch => w.phase == Dispatching && w.inBatch < |w.batch|
       case EndBatch => w.phase == Dispatching && w.inBatch == |w.batch|
       case ResolveNext => w.phase == Resolving && w.inTaken < |w.taken|
       case EndResolve(ids) =>
         && w.phase == Resolving && w.inTaken == |w.taken|
         && Enumerates(ids, Expired(w.book.pending, env.now, env.timeout))
       case SweepNext => w.phase == Sweeping && w.inTodo < |w.todo|
       case EndSweep => w.phase == Sweeping && w.inTodo == |w.todo|
       case EndFiring => w.phase == Firing
       case CleanNext => w.phase == Cleaning && w.inTodo < |w.todo|
       case Finish => w.phase == Cleaning && w.inTodo == |w.todo|
       case AddCallback(_, victim) =>
         RunsScript(w.phase) && (|w.book.pending| >= MAX_PENDING_CALLBACKS ==> Oldest(w.book, victim))
       case NoCallback => RunsScript(w.phase)
       case Break => !Ended(w.phase)
  }

  /** Delivering one item: a result settles the callback of its request, if it is here. */
  function Deliver(w: Worker, item: WorkItem): Worker {
    match item
    case ActionDone(a) =>
      w.(book := Settle(w.book, a.requestId, ByResult(a.outcome)), handled := Then(w.handled, a.requestId))
    case CallbackCompletion(a) =>
      w.(book := Settle(w.book, a.requestId, ByResult(a.outcome)), handled := Then(w.handled, a.requestId))
    case _ => w
  }

  function Apply(w: Worker, m: Move, env: Env): Worker
    requires Enabled(w, m, env)
  {
    match m
    case EnterLoop => w.(phase := Head)
    case LoopHead => w.(phase := Waiting, inbox := w.inbox.(closed := w.inbox.closed || env.shutdown))
    case Wait(drains) =>
      w.(phase := Deciding, batch := Ready(w.inbox.history, env.cap.high, env.cap.low), inBatch := 0,
         inbox := if drains then w.inbox.(history := Empty) else w.inbox)
    case Decide(ids) =>
      if w.batch == [] && env.shutdown then w.(phase := Cleaning, todo := ids, inTodo := 0)
      else w.(phase := Dispatching)
    case Dispatch => Deliver(w, w.batch[w.inBatch].event.payload).(inBatch := w.inBatch + 1)
    case EndBatch =>
      w.(phase := Resolving, taken := w.inbox.failed, inTaken := 0, inbox := w.inbox.(failed := []))
    case ResolveNext =>
      var f := w.taken[w.inTaken];
      w.(book := Settle(w.book, f.request, ByLoss(f.loss)), handled := Then(w.handled, f.request), inTaken := w.inTaken + 1)
    case EndResolve(ids) => w.(phase := Sweeping, todo := ids, inTodo := 0, sweptAt := env.now)
    case SweepNext =>
      var r := w.todo[w.inTodo];
      w.(book := Settle(w.book, r, Expiry(w.book.pending, w.sweptAt)(r)), inTodo := w.inTodo + 1)
    case EndSweep => w.(phase := Firing)
    case EndFiring => w.(phase := Head)
    case CleanNext => w.(book := Settle(w.book, w.todo[w.inTodo], ByShutdown), inTodo := w.inTodo + 1)
    case Finish => w.(phase := Done)
    case AddCallback(bot, victim) =>
      w.(book := Register(w.book, w.calling.value, Callback(bot, env.now), victim), calling := None)
    case NoCallback => w.(calling := None)
    case Break => w.(phase := Broken)
  }

  // ------------------------------------------------------ where a result can be found

  predicate Settles(e: Envelope<WorkItem>, r: nat) {
    Request(e.event.payload) == Some(r)
  }

  /** How many items for request `r` the high lane holds. */
  function Queued(h: History<WorkItem>, highCapacity: nat, r: nat): nat {
    match h
    case Empty => 0
    case Then(g, e) =>
      Queued(g, highCapacity, r) + if Settles(e, r) && |Lane(g, High)| < highCapacity then 1 else 0
  }

  /** How many are left in a batch from position `i` on. */
  function InBatch(s: seq<Envelope<WorkItem>>, i: nat, r: nat): nat
    decreases |s| - i
  {
    if i >= |s| then 0 else (if Settles(s[i], r) then 1 else 0) + InBatch(s, i + 1, r)
  }

  function InFailures(fs: seq<Failure>, i: nat, r: nat): nat
    decreases |fs| - i
  {
    if i >= |fs| then 0 else (if fs[i].request == r then 1 else 0) + InFailures(fs, i + 1, r)
  }

  function Seen(handled: Log<nat>, r: nat): nat {
    match handled
    case Empty => 0
    case Then(before, x) => Seen(before, r) + if x == r then 1 else 0
  }

  /** All the places at this worker where the news about request `r` can be. */
  function Tokens(w: Worker, cap: Capacity, r: nat): nat {
    Queued(w.inbox.history, cap.high, r) + InBatch(w.batch, w.inBatch, r)
    + InFailures(w.inbox.failed, 0, r) + InFailures(w.taken, w.inTaken, r) + Seen(w.handled, r)
  }

  /** An item is classified as its payload demands and reports what really happened. */
  predicate Genuine(e: Envelope<WorkItem>, outcomes: map<nat, ActionOutcome>) {
    && e.event == AsItem(e.event.payload)
    && match e.event.payload
       case ActionDone(a) => a.requestId in outcomes && outcomes[a.requestId] == a.outcome
       case CallbackCompletion(a) => a.requestId in outcomes && outcomes[a.requestId] == a.outcome
       case _ => true
  }

  predicate AllGenuine(h: History<WorkItem>, outcomes: map<nat, ActionOutcome>) {
    match h
    case Empty => true
    case Then(g, e) => AllGenuine(g, outcomes) && Genuine(e, outcomes)
  }

  lemma {:induction false} InBatchPush(s: seq<Envelope<WorkItem>>, e: Envelope<WorkItem>, i: nat, r: nat)
    requires i <= |s|
    ensures InBatch(s + [e], i, r) == InBatch(s, i, r) + if Settles(e, r) then 1 else 0
    decreases |s| - i
  {
    if i < |s| {
      InBatchPush(s, e, i + 1, r);
    } else {
      assert InBatch(s + [e], i + 1, r) == 0;
    }
  }

  lemma {:induction false} InBatchIrrelevant(s: seq<Envelope<WorkItem>>, t: seq<Envelope<WorkItem>>, i: nat, r: nat)
    requires i <= |s| && forall e <- t :: !Settles(e, r)
    ensures InBatch(s + t, i, r) == InBatch(s, i, r)
    decreases |s| + |t| - i
  {
    if i < |s| {
      InBatchIrrelevant(s, t, i + 1, r);
    } else {
      NothingRelevant(s + t, i, r);
    }
  }

  lemma {:induction false} NothingRelevant(s: seq<Envelope<WorkItem>>, i: nat, r: nat)
    requires forall j :: i <= j < |s| ==> !Settles(s[j], r)
    ensures InBatch(s, i, r) == 0
    decreases |s| - i
  {
    if i < |s| {
      NothingRelevant(s, i + 1, r);
    }
  }

  lemma {:induction false} InFailuresPush(fs: seq<Failure>, f: Failure, i: nat, r: nat)
    requires i <= |fs|
    ensures InFailures(fs + [f], i, r) == InFailures(fs, i, r) + if f.request == r then 1 else 0
    decreases |fs| - i
  {
    if i < |fs| {
      InFailuresPush(fs, f, i + 1, r);
    } else {
      assert InFailures(fs + [f], i + 1, r) == 0;
    }
  }

  lemma {:induction false} HighLaneCount(h: History<WorkItem>, highCapacity: nat, r: nat, outcomes: map<nat, ActionOutcome>)
    requires AllGenuine(h, outcomes)
    ensures InBatch(HighLane(h, highCapacity), 0, r) == Queued(h, highCapacity, r)
  {
    if h.Then? {
      HighLaneCount(h.before, highCapacity, r, outcomes);
      FirstNPush(Lane(h.before, High), h.last, highCapacity);
      InBatchPush(HighLane(h.before, highCapacity), h.last, 0, r);
    }
  }

  lemma {:induction false} LaneGenuine(h: History<WorkItem>, p: Priority, outcomes: map<nat, ActionOutcome>)
    requires AllGenuine(h, outcomes)
    ensures forall i :: 0 <= i < |Lane(h, p)| ==> Genuine(Lane(h, p)[i], outcomes)
  {
    if h.Then? {
      LaneGenuine(h.before, p, outcomes);
    }
  }

  lemma {:induction false} LatestGenuine(h: History<WorkItem>, k: Key, outcomes: map<nat, ActionOutcome>)
    requires AllGenuine(h, outcomes) && k in Keys(h)
    ensures Genuine(Latest(h, k), outcomes)
  {
    if !Updates(h.last, k) {
      LatestGenuine(h.before, k, outcomes);
    }
  }

  /** A drain hands over genuine items, and exactly the results that were queued. */
  lemma ReadyIsFaithful(h: History<WorkItem>, cap: Capacity, outcomes: map<nat, ActionOutcome>)
    requires AllGenuine(h, outcomes)
    ensures forall i :: 0 <= i < |Ready(h, cap.high, cap.low)| ==> Genuine(Ready(h, cap.high, cap.low)[i], outcomes)
    ensures forall r :: InBatch(Ready(h, cap.high, cap.low), 0, r) == Queued(h, cap.high, r)
  {
    LaneGenuine(h, High, outcomes);
    LaneGenuine(h, Low, outcomes);
    LaneMembers(h, Low);
    forall i | 0 <= i < |Keys(h)|
      ensures Genuine(Newest(h)[i], outcomes) && Newest(h)[i].event.priority == Coalescible
    {
      LatestGenuine(h, Keys(h)[i], outcomes);
      LatestUpdates(h, Keys(h)[i]);
    }
    forall r
      ensures InBatch(Ready(h, cap.high, cap.low), 0, r) == Queued(h, cap.high, r)
    {
      HighLaneCount(h, cap.high, r, outcomes);
      InBatchIrrelevant(HighLane(h, cap.high), Newest(h), 0, r);
      InBatchIrrelevant(HighLane(h, cap.high) + Newest(h), LowLane(h, cap.low), 0, r);
    }
  }

  // ----------------------------------------------------------------------- invariants

  /** Loop positions: what is not being worked through is finished. */
  predicate Positions(w: Worker) {
    && w.inBatch <= |w.batch| && w.inTaken <= |w.taken| && w.inTodo <= |w.todo|
    && (w.phase != Deciding && w.phase != Dispatching && w.phase != Broken ==> w.inBatch == |w.batch|)
    && (w.phase != Resolving && w.phase != Broken ==> w.inTaken == |w.taken|)
    && (w.calling.Some? ==> RunsScript(w.phase))
  }

  /** What the worker holds is genuine. */
  ghost predicate Holds(w: Worker, outcomes: map<nat, ActionOutcome>) {
    && AllGenuine(w.inbox.history, outcomes)
    && (forall i :: 0 <= i < |w.batch| ==> Genuine(w.batch[i], outcomes))
    && (forall i :: 0 <= i < |w.inbox.failed| ==> w.inbox.failed[i].request in outcomes)
    && (forall i :: 0 <= i < |w.taken| ==> w.taken[i].request in outcomes)
  }

  /** Every callback was told the truth: the outcome of its own action, that this outcome
      was lost, that it waited longer than the timeout, or that the worker shuts down. */
  predicate Told(log: Log<Entry>, outcomes: map<nat, ActionOutcome>, timeout: nat, shutdown: bool) {
    match log
    case Empty => true
    case Then(before, e) =>
      && Told(before, outcomes, timeout, shutdown)
      && match e.how
         case ByResult(o) => e.request in outcomes && outcomes[e.request] == o
         case ByLoss(_) => e.request in outcomes
         case ByTimeout(waited) => waited > timeout
         case ByShutdown => shutdown
  }

  /** A callback is pending only while the news about its request has not been handled. */
  ghost predicate Unhandled(w: Worker) {
    && (forall r <- w.book.pending :: Seen(w.handled, r) == 0)
    && (w.calling.Some? ==> Seen(w.handled, w.calling.value) == 0 && w.calling.value !in w.book.registered)
  }

  /** What is about to be told that it waited too long did. */
  ghost predicate SweepList(w: Worker, timeout: nat) {
    w.phase == Sweeping ==>
      forall i :: 0 <= i < |w.todo| && w.todo[i] in w.book.pending ==>
        Elapsed(w.sweptAt, w.book.pending[w.todo[i]].registeredAt) > timeout
  }

  /** What is still pending during the cleanup is still on its list. */
  ghost predicate CleanList(w: Worker) {
    w.phase == Cleaning ==> forall r <- w.book.pending :: exists i :: w.inTodo <= i < |w.todo| && w.todo[i] == r
  }

  /** The work lists of the two loops that settle by a list of ids. */
  ghost predicate Lists(w: Worker, timeout: nat) {
    && SweepList(w, timeout)
    && CleanList(w)
    && (w.phase == Done ==> w.book.pending == map[])
    && (w.phase == Cleaning || w.phase == Done ==> w.calling == None)
  }

  ghost predicate Inv(w: Worker, outcomes: map<nat, ActionOutcome>, timeout: nat, shutdown: bool) {
    && Positions(w)
    && Holds(w, outcomes)
    && Balanced(w.book)
    && Told(w.book.log, outcomes, timeout, shutdown)
    && Unhandled(w)
    && Lists(w, timeout)
    && (w.phase == Cleaning || w.phase == Done ==> shutdown)
    && (w.inbox.closed ==> shutdown)
  }

  // ------------------------------------------------------------ every move keeps them

  /** No move creates, loses or duplicates the news about a request. */
  lemma MoveKeepsTokens(w: Worker, m: Move, env: Env, outcomes: map<nat, ActionOutcome>, r: nat)
    requires Enabled(w, m, env) && Positions(w) && Holds(w, outcomes)
    ensures Tokens(Apply(w, m, env), env.cap, r) == Tokens(w, env.cap, r)
  {
    match m
    case Wait(drains) => WaitKeepsTokens(w, drains, env, outcomes, r);
    case Dispatch => DispatchKeepsTokens(w, env, r);
    case EndBatch =>
    case ResolveNext =>
    case _ => NoTokensTouched(w, m, env, r);
  }

  lemma WaitKeepsTokens(w: Worker, drains: bool, env: Env, outcomes: map<nat, ActionOutcome>, r: nat)
    requires Enabled(w, Wait(drains), env) && Positions(w) && Holds(w, outcomes)
    ensures Tokens(Apply(w, Wait(drains), env), env.cap, r) == Tokens(w, env.cap, r)
  {
    ReadyIsFaithful(w.inbox.history, env.cap, outcomes);
    assert Queued(Empty, env.cap.high, r) == 0;
    if !drains {
      NothingRelevant([], 0, r);
    }
  }

  lemma DispatchKeepsTokens(w: Worker, env: Env, r: nat)
    requires Enabled(w, Dispatch, env)
    ensures Tokens(Apply(w, Dispatch, env), env.cap, r) == Tokens(w, env.cap, r)
  {
  }

  lemma NoTokensTouched(w: Worker, m: Move, env: Env, r: nat)
    requires Enabled(w, m, env) && !m.Wait? && !m.Dispatch? && !m.EndBatch? && !m.ResolveNext?
    ensures Tokens(Apply(w, m, env), env.cap, r) == Tokens(w, env.cap, r)
  {
    var v := Apply(w, m, env);
    assert v.inbox.history == w.inbox.history && v.inbox.failed == w.inbox.failed && v.handled == w.handled;
    assert v.batch == w.batch && v.inBatch == w.inBatch && v.taken == w.taken && v.inTaken == w.inTaken;
  }

  lemma MoveKeepsHolds(w: Worker, m: Move, env: Env, outcomes: map<nat, ActionOutcome>)
    requires Enabled(w, m, env) && Holds(w, outcomes)
    ensures Holds(Apply(w, m, env), outcomes)
  {
    if m.Wait? {
      ReadyIsFaithful(w.inbox.history, env.cap, outcomes);
    }
  }

  lemma MoveKeepsBalance(w: Worker, m: Move, env: Env)
    requires Enabled(w, m, env) && Balanced(w.book) && Unhandled(w)
    ensures Balanced(Apply(w, m, env).book)
  {
    match m
    case Dispatch =>
      var item := w.batch[w.inBatch].event.payload;
      if Request(item).Some? {
        SettleBalanced(w.book, Request(item).value, ByResult(item.result.outcome));
      }
    case ResolveNext => SettleBalanced(w.book, w.taken[w.inTaken].request, ByLoss(w.taken[w.inTaken].loss));
    case SweepNext =>
      var r := w.todo[w.inTodo];
      SettleBalanced(w.book, r, Expiry(w.book.pending, w.sweptAt)(r));
    case CleanNext => SettleBalanced(w.book, w.todo[w.inTodo], ByShutdown);
    case AddCallback(bot, victim) => RegisterBalanced(w.book, w.calling.value, Callback(bot, env.now), victim);
    case _ =>
  }

  lemma MoveKeepsTold(w: Worker, m: Move, env: Env, outcomes: map<nat, ActionOutcome>)
    requires Enabled(w, m, env) && Holds(w, outcomes) && Lists(w, env.timeout)
    requires Told(w.book.log, outcomes, env.timeout, env.shutdown)
    requires w.phase == Cleaning ==> env.shutdown
    ensures Told(Apply(w, m, env).book.log, outcomes, env.timeout, env.shutdown)
  {
    if m.Dispatch? {
      assert Genuine(w.batch[w.inBatch], outcomes);
    }
  }

  lemma MoveKeepsSweepList(w: Worker, m: Move, env: Env)
    requires Enabled(w, m, env) && Positions(w) && SweepList(w, env.timeout)
    ensures SweepList(Apply(w, m, env), env.timeout)
  {
  }

  lemma MoveKeepsCleanList(w: Worker, m: Move, env: Env)
    requires Enabled(w, m, env) && Positions(w) && CleanList(w)
    ensures CleanList(Apply(w, m, env))
  {
  }

  lemma MoveKeepsLists(w: Worker, m: Move, env: Env)
    requires Enabled(w, m, env) && Positions(w) && Lists(w, env.timeout)
    ensures Lists(Apply(w, m, env), env.timeout)
  {
    MoveKeepsSweepList(w, m, env);
    MoveKeepsCleanList(w, m, env);
  }

  lemma MoveKeepsUnhandled(w: Worker, m: Move, env: Env)
    requires Enabled(w, m, env) && Unhandled(w)
    ensures Unhandled(Apply(w, m, env))
  {
  }

  lemma MoveKeepsPositions(w: Worker, m: Move, env: Env)
    requires Enabled(w, m, env) && Positions(w) && (w.inbox.closed ==> env.shutdown)
    requires w.phase == Cleaning || w.phase == Done ==> env.shutdown
    ensures
      var v := Apply(w, m, env);
      && Positions(v)
      && (v.phase == Cleaning || v.phase == Done ==> env.shutdown)
      && (v.inbox.closed ==> env.shutdown)
  {
  }

  lemma MoveKeepsInv(w: Worker, m: Move, env: Env, outcomes: map<nat, ActionOutcome>)
    requires Enabled(w, m, env) && Inv(w, outcomes, env.timeout, env.shutdown)
    ensures Inv(Apply(w, m, env), outcomes, env.timeout, env.shutdown)
  {
    MoveKeepsHolds(w, m, env, outcomes);
    MoveKeepsBalance(w, m, env);
    MoveKeepsTold(w, m, env, outcomes);
    MoveKeepsLists(w, m, env);
    MoveKeepsUnhandled(w, m, env);
    MoveKeepsPositions(w, m, env);
  }
}
