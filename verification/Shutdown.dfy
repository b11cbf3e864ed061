/** Shutting a worker down takes a bounded number of its own steps.

    Once the shutdown flag is up, its queue is closed and no push that saw the queue open is
    still on its way, every step of the worker uses up a potential.  Only two things are not
    bounded by it: scripts may go on registering callbacks, and other threads may go on losing
    results to the closed queue, each of which the worker still has to tell somebody about. */
module Shutdown {
  import opened Basics
  import opened Queues
  import opened Events
  import opened Inboxes
  import opened Callbacks
  import opened Workers
  import opened Delivery

  // ----------------------------------------------------------------------- the potential

  /** Leaving the loop: telling every pending callback, and returning. */
  const CLEANUP: nat := MAX_PENDING_CALLBACKS + 1

  /** From the wait of a pass that finds `ready` items to the end of the worker. */
  function Round(ready: nat): nat {
    if ready == 0 then 2 + CLEANUP else ready + 7 + MAX_PENDING_CALLBACKS + 2 + CLEANUP
  }

  function Ahead(w: Worker, cap: Capacity): nat {
    Round(|Ready(w.inbox.history, cap.high, cap.low)|)
  }

  /** What is left of a list from position `i` on. */
  function Rest(length: nat, i: nat): nat {
    if i < length then length - i else 0
  }

  function PhasePotential(w: Worker, cap: Capacity): nat {
    match w.phase
    case Script => 2 + Ahead(w, cap)
    case Head => 1 + Ahead(w, cap)
    case Waiting => Ahead(w, cap)
    case Deciding =>
      if w.batch == [] then 1 + CLEANUP
      else Rest(|w.batch|, w.inBatch) + 6 + MAX_PENDING_CALLBACKS + Ahead(w, cap)
    case Dispatching => Rest(|w.batch|, w.inBatch) + 5 + MAX_PENDING_CALLBACKS + Ahead(w, cap)
    case Resolving => 4 + MAX_PENDING_CALLBACKS + Ahead(w, cap)
    case Sweeping => Rest(|w.todo|, w.inTodo) + 3 + Ahead(w, cap)
    case Firing => 2 + Ahead(w, cap)
    case Cleaning => Rest(|w.todo|, w.inTodo) + 1
    case Done => 0
    case Broken => 0
  }

  /** How many steps the worker can still make: what its place in the loop allows, and one for
      each lost result it has not told anybody about. */
  function Potential(w: Worker, cap: Capacity): nat {
    PhasePotential(w, cap) + if Ended(w.phase) then 0 else |w.inbox.failed| + Rest(|w.taken|, w.inTaken)
  }

  /** Every step but the registration of a callback. */
  predicate Counts(m: Move) {
    !m.AddCallback? && !m.NoCallback?
  }

  ghost predicate Small(w: Worker) {
    |w.book.pending| <= MAX_PENDING_CALLBACKS
  }

  lemma {:induction false} EnumerationSize(ids: seq<nat>, s: set<nat>)
    requires Enumerates(ids, s)
    ensures |ids| == |s|
    decreases |ids|
  {
    if ids == [] {
      assert s == {};
    } else {
      var last := ids[|ids| - 1];
      var rest := ids[..|ids| - 1];
      forall r | r in s - {last}
        ensures r in rest
      {
        var i :| 0 <= i < |ids| && ids[i] == r;
        assert rest[i] == r;
      }
      EnumerationSize(rest, s - {last});
    }
  }

  lemma ListsAreSmall(ids: seq<nat>, s: set<nat>, w: Worker)
    requires Enumerates(ids, s) && s <= w.book.pending.Keys && Small(w)
    ensures |ids| <= MAX_PENDING_CALLBACKS
  {
    EnumerationSize(ids, s);
    Subset(s, w.book.pending.Keys);
    assert |w.book.pending.Keys| == |w.book.pending|;
  }

  lemma {:induction false} Subset(s: set<nat>, t: set<nat>)
    requires s <= t
    ensures |s| <= |t|
  {
    if s != {} {
      var x :| x in s;
      Subset(s - {x}, t - {x});
    }
  }

  lemma WaitUsesUp(w: Worker, drains: bool, env: Env)
    requires Enabled(w, Wait(drains), env) && Positions(w)
    ensures Potential(Apply(w, Wait(drains), env), env.cap) < Potential(w, env.cap)
  {
    assert Ready<WorkItem>(Empty, env.cap.high, env.cap.low) == [];
  }

  lemma DecideUsesUp(w: Worker, ids: seq<nat>, env: Env)
    requires Enabled(w, Decide(ids), env) && Positions(w) && Small(w) && env.shutdown
    ensures Potential(Apply(w, Decide(ids), env), env.cap) < Potential(w, env.cap)
  {
    ListsAreSmall(ids, w.book.pending.Keys, w);
  }

  lemma EndResolveUsesUp(w: Worker, ids: seq<nat>, env: Env)
    requires Enabled(w, EndResolve(ids), env) && Positions(w) && Small(w)
    ensures Potential(Apply(w, EndResolve(ids), env), env.cap) < Potential(w, env.cap)
  {
    ListsAreSmall(ids, Expired(w.book.pending, env.now, env.timeout), w);
  }

  lemma OtherMovesUseUp(w: Worker, m: Move, env: Env)
    requires Enabled(w, m, env) && Positions(w) && Counts(m) && !m.Wait? && !m.Decide? && !m.EndResolve?
    ensures Potential(Apply(w, m, env), env.cap) < Potential(w, env.cap)
  {
  }

  /** Each counted step of the worker uses up some of the potential, and registering a callback
      adds nothing to it. */
  lemma MoveUsesUp(w: Worker, m: Move, env: Env)
    requires Enabled(w, m, env) && Positions(w) && Small(w) && env.shutdown
    ensures Potential(Apply(w, m, env), env.cap) + (if Counts(m) then 1 else 0) <= Potential(w, env.cap)
  {
    match m
    case Wait(drains) => WaitUsesUp(w, drains, env);
    case Decide(ids) => DecideUsesUp(w, ids, env);
    case EndResolve(ids) => EndResolveUsesUp(w, ids, env);
    case _ =>
      if Counts(m) {
        OtherMovesUseUp(w, m, env);
      }
  }

  // ----------------------------------------------------------------- the registry is bounded

  lemma RegistrySize(b: Book, r: nat, cb: Callback, victim: nat)
    requires |b.pending| <= MAX_PENDING_CALLBACKS && (|b.pending| >= MAX_PENDING_CALLBACKS ==> victim in b.pending)
    ensures |Register(b, r, cb, victim).pending| <= MAX_PENDING_CALLBACKS
  {
    if |b.pending| >= MAX_PENDING_CALLBACKS {
      Removed(b.pending, victim);
    }
  }

  lemma SettledSize(b: Book, r: nat, how: Settlement)
    ensures |Settle(b, r, how).pending| <= |b.pending|
  {
    if r in b.pending {
      Removed(b.pending, r);
    }
  }

  lemma MoveKeepsSmall(w: Worker, m: Move, env: Env)
    requires Enabled(w, m, env) && Small(w)
    ensures Small(Apply(w, m, env))
  {
    match m
    case Dispatch =>
      var item := w.batch[w.inBatch].event.payload;
      if Request(item).Some? {
        SettledSize(w.book, Request(item).value, ByResult(item.result.outcome));
      }
    case ResolveNext => SettledSize(w.book, w.taken[w.inTaken].request, ByLoss(w.taken[w.inTaken].loss));
    case SweepNext =>
      var r := w.todo[w.inTodo];
      SettledSize(w.book, r, Expiry(w.book.pending, w.sweptAt)(r));
    case CleanNext => SettledSize(w.book, w.todo[w.inTodo], ByShutdown);
    case AddCallback(bot, victim) => RegistrySize(w.book, w.calling.value, Callback(bot, env.now), victim);
    case _ =>
  }

  /** In every run no more than 4096 callbacks are pending at a worker. */
  lemma {:induction false} RegistryIsBounded(c: Config, run: Log<Step>, i: nat)
    requires c.workers > 0 && After(c, run).Some? && i < c.workers
    ensures |After(c, run).value.workers| == c.workers && |After(c, run).value.workers[i].book.pending| <= 4096
  {
    EveryRunKeepsInv(c, run);
    if run.Then? {
      RegistryIsBounded(c, run.before, i);
      SmallAfter(c, After(c, run.before).value, run.last, i);
    }
  }

  lemma SmallAfter(c: Config, s: System, step: Step, i: nat)
    requires CanStep(c, s, step) && i < |s.workers| == |Do(c, s, step).workers| && Small(s.workers[i])
    ensures Small(Do(c, s, step).workers[i])
  {
    if step.WorkerMove? && step.i == i {
      MoveKeepsSmall(s.workers[i], step.m, EnvOf(c, s));
    } else if !step.WorkerMove? && !step.Issue? {
      OnlyInboxesChange(c, s, step, i);
    }
  }

  // --------------------------------------------------------------- nothing more is accepted

  /** A push to worker `i` that has passed its test of the flag and may still touch the queue. */
  predicate Past(t: Task, i: nat) {
    t.at < |t.parcels| && t.parcels[t.at].target == i && t.phase != PushPhase.Start && t.phase != PushPhase.Refused
  }

  /** Shutdown has been flagged, the queue is closed, and no push is past its test. */
  ghost predicate Sealed(s: System, i: nat) {
    && i < |s.workers| && s.shutdown && s.workers[i].inbox.closed
    && (forall r <- s.tasks :: !Past(s.tasks[r], i))
    && (forall k <- s.noise :: !Past(s.noise[k], i))
  }

  /** This step records a lost result at worker `i`. */
  predicate LosesNow(s: System, step: Step, i: nat) {
    && step.PushStep? && step.r in s.tasks && Pushing(s, s.tasks[step.r])
    && var t := s.tasks[step.r];
       t.parcels[t.at].target == i && t.phase == PushPhase.Refused
  }

  /** A push at a sealed queue changes nothing but the list of losses, and stays on this side. */
  lemma SealedPush(s: System, t: Task, cap: Capacity, i: nat)
    requires Pushing(s, t) && i < |s.workers| && s.workers[i].inbox.closed && !Past(t, i)
    ensures
      var (inbox, t') := Pushed(s, t, cap);
      var target := t.parcels[t.at].target;
      && !Past(t', i)
      && (target == i ==>
            && inbox == s.workers[i].inbox.(failed := inbox.failed)
            && |inbox.failed| == |s.workers[i].inbox.failed|
               + if t.phase == PushPhase.Refused && Request(t.parcels[t.at].item).Some? then 1 else 0)
  {
  }

  lemma MoveKeepsClosed(w: Worker, m: Move, env: Env)
    requires Enabled(w, m, env) && w.inbox.closed
    ensures Apply(w, m, env).inbox.closed
  {
  }

  lemma SealedAfterMove(c: Config, s: System, j: nat, m: Move, i: nat)
    requires CanStep(c, s, WorkerMove(j, m)) && Sealed(s, i)
    ensures Sealed(Do(c, s, WorkerMove(j, m)), i)
  {
    if i == j {
      MoveKeepsClosed(s.workers[i], m, EnvOf(c, s));
    }
  }

  lemma SealedAfterTask(c: Config, s: System, r: nat, i: nat)
    requires CanStep(c, s, PushStep(r)) && Sealed(s, i)
    ensures Sealed(Do(c, s, PushStep(r)), i)
  {
    SealedPush(s, s.tasks[r], c.cap, i);
  }

  lemma SealedAfterNoise(c: Config, s: System, k: nat, i: nat)
    requires CanStep(c, s, NoiseStep(k)) && Sealed(s, i)
    ensures Sealed(Do(c, s, NoiseStep(k)), i)
  {
    SealedPush(s, s.noise[k], c.cap, i);
  }

  lemma SealedOtherwise(c: Config, s: System, step: Step, i: nat)
    requires CanStep(c, s, step) && Sealed(s, i) && !step.WorkerMove? && !step.PushStep? && !step.NoiseStep?
    ensures Sealed(Do(c, s, step), i)
  {
  }

  /** A sealed queue stays sealed. */
  lemma SealedAfter(c: Config, s: System, step: Step, i: nat)
    requires CanStep(c, s, step) && Sealed(s, i)
    ensures Sealed(Do(c, s, step), i)
  {
    match step
    case WorkerMove(j, m) => SealedAfterMove(c, s, j, m, i);
    case PushStep(r) => SealedAfterTask(c, s, r, i);
    case NoiseStep(k) => SealedAfterNoise(c, s, k, i);
    case _ => SealedOtherwise(c, s, step, i);
  }

  // ------------------------------------------------------------------------ the theorem

  /** A counted step of worker `i`. */
  predicate OwnStep(step: Step, i: nat) {
    step.WorkerMove? && step.i == i && Counts(step.m)
  }

  lemma PotentialByInbox(w: Worker, q: Inbox, cap: Capacity)
    requires q == w.inbox.(failed := q.failed) && |q.failed| >= |w.inbox.failed|
    ensures Potential(w.(inbox := q), cap) <= Potential(w, cap) + |q.failed| - |w.inbox.failed|
  {
  }

  lemma PotentialByPush(s: System, t: Task, cap: Capacity, i: nat)
    requires Pushing(s, t) && i < |s.workers| && s.workers[i].inbox.closed && !Past(t, i)
    ensures
      var p := t.parcels[t.at];
      var w' := WithInbox(s, p.target, Pushed(s, t, cap).0).workers[i];
      Potential(w', cap) <= Potential(s.workers[i], cap)
        + if p.target == i && t.phase == PushPhase.Refused && Request(p.item).Some? then 1 else 0
  {
    SealedPush(s, t, cap, i);
    if t.parcels[t.at].target == i {
      PotentialByInbox(s.workers[i], Pushed(s, t, cap).0, cap);
    }
  }

  lemma PotentialOtherwise(c: Config, s: System, step: Step, i: nat)
    requires CanStep(c, s, step) && Sealed(s, i) && !step.WorkerMove? && !step.PushStep? && !step.NoiseStep?
    ensures |Do(c, s, step).workers| == |s.workers|
    ensures Potential(Do(c, s, step).workers[i], c.cap) == Potential(s.workers[i], c.cap)
  {
    var v, w := Do(c, s, step).workers[i], s.workers[i];
    assert v == w || v == w.(calling := v.calling);
  }

  lemma PotentialAfter(c: Config, s: System, step: Step, i: nat)
    requires SystemInv(c, s) && CanStep(c, s, step) && Sealed(s, i) && Small(s.workers[i])
    requires |Do(c, s, step).workers| == |s.workers|
    ensures Potential(Do(c, s, step).workers[i], c.cap) + (if OwnStep(step, i) then 1 else 0)
            <= Potential(s.workers[i], c.cap) + (if LosesNow(s, step, i) then 1 else 0)
  {
    match step
    case WorkerMove(j, m) =>
      if i == j {
        assert Workers.Inv(s.workers[i], s.outcomes, c.timeout, s.shutdown);
        MoveUsesUp(s.workers[i], m, EnvOf(c, s));
      }
    case PushStep(r) => PotentialByPush(s, s.tasks[r], c.cap, i);
    case NoiseStep(k) =>
      PotentialByPush(s, s.noise[k], c.cap, i);
      assert Request(s.noise[k].parcels[s.noise[k].at].item) == None;
    case _ => PotentialOtherwise(c, s, step, i);
  }

  /** The steps of worker `i` that `later` adds to `run`, and the losses recorded meanwhile. */
  function OwnSteps(run: Log<Step>, later: Log<Step>, i: nat): nat {
    if later == run || later == Empty then 0
    else OwnSteps(run, later.before, i) + if OwnStep(later.last, i) then 1 else 0
  }

  ghost function Losses(c: Config, run: Log<Step>, later: Log<Step>, i: nat): nat {
    if later == run || later == Empty then 0
    else Losses(c, run, later.before, i)
         + if After(c, later.before).Some? && LosesNow(After(c, later.before).value, later.last, i) then 1 else 0
  }

  /** However a run goes on from a sealed queue, its worker makes at most as many steps as its
      potential was, and one more for each result lost to it meanwhile. */
  lemma {:induction false} ShutdownIsBounded(c: Config, run: Log<Step>, later: Log<Step>, i: nat)
    requires c.workers > 0 && i < c.workers && After(c, run).Some? && Sealed(After(c, run).value, i)
    requires GoesOn(run, later) && After(c, later).Some?
    ensures |After(c, run).value.workers| == |After(c, later).value.workers| == c.workers
    ensures Sealed(After(c, later).value, i)
    ensures OwnSteps(run, later, i) + Potential(After(c, later).value.workers[i], c.cap)
            <= Potential(After(c, run).value.workers[i], c.cap) + Losses(c, run, later, i)
  {
    EveryRunKeepsInv(c, run);
    EveryRunKeepsInv(c, later);
    if later != run {
      ShutdownIsBounded(c, run, later.before, i);
      EveryRunKeepsInv(c, later.before);
      RegistryIsBounded(c, later.before, i);
      var s := After(c, later.before).value;
      SealedAfter(c, s, later.last, i);
      PotentialAfter(c, s, later.last, i);
    }
  }

  // ------------------------------------------------------------------------ never stuck

  lemma {:induction false} Enumerable(s: set<nat>) returns (ids: seq<nat>)
    ensures Enumerates(ids, s)
  {
    if s == {} {
      ids := [];
    } else {
      var x :| x in s;
      ids := Enumerable(s - {x});
      ids := ids + [x];
    }
  }

  /** A worker that has not ended can always make a step of its own that is not a break. */
  lemma NeverStuck(w: Worker, env: Env) returns (m: Move)
    requires Positions(w) && !Ended(w.phase)
    ensures Enabled(w, m, env) && m != Break
    ensures w.calling == None ==> Counts(m)
  {
    if w.calling.Some? {
      m := NoCallback;
      return;
    }
    match w.phase
    case Script => m := EnterLoop;
    case Head => m := LoopHead;
    case Waiting => m := Wait(true);
    case Deciding =>
      var ids := Enumerable(w.book.pending.Keys);
      m := Decide(ids);
    case Dispatching => m := if w.inBatch < |w.batch| then Dispatch else EndBatch;
    case Resolving =>
      if w.inTaken < |w.taken| {
        m := ResolveNext;
      } else {
        var ids := Enumerable(Expired(w.book.pending, env.now, env.timeout));
        m := EndResolve(ids);
      }
    case Sweeping => m := if w.inTodo < |w.todo| then SweepNext else EndSweep;
    case Firing => m := EndFiring;
    case Cleaning => m := if w.inTodo < |w.todo| then CleanNext else Finish;
  }

  /** So when the potential and the losses are used up, the worker has ended. */
  lemma ShutdownEnds(c: Config, run: Log<Step>, later: Log<Step>, i: nat)
    requires c.workers > 0 && i < c.workers && After(c, run).Some? && Sealed(After(c, run).value, i)
    requires GoesOn(run, later) && After(c, later).Some?
    ensures |After(c, run).value.workers| == |After(c, later).value.workers| == c.workers
    ensures OwnSteps(run, later, i) >= Potential(After(c, run).value.workers[i], c.cap) + Losses(c, run, later, i) ==>
              Ended(After(c, later).value.workers[i].phase)
  {
    ShutdownIsBounded(c, run, later, i);
    PotentialLeft(After(c, later).value.workers[i], c.cap);
  }

  lemma PotentialLeft(w: Worker, cap: Capacity)
    ensures Potential(w, cap) == 0 <==> Ended(w.phase)
  {
  }
}
