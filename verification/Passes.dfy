/** What the passes of a worker's dispatch loop accomplish, in every run of the swarm.

    A pass works through four lists: the batch it drained, the losses it took, the callbacks
    that were overdue, and (once, at the end) the callbacks that are left.  Something is due
    to a callback from the moment such a list is made with the callback on it.  What is due
    is what the callback hears, and it hears nothing else. */
module Passes {
  import opened Basics
  import opened Queues
  import opened Events
  import opened Inboxes
  import opened Callbacks
  import opened Workers
  import opened Delivery

  // ------------------------------------------------------------- no overdue callback is missed

  ghost predicate OnList(w: Worker, r: nat) {
    exists k :: w.inTodo <= k < |w.todo| && w.todo[k] == r
  }

  /** During the sweep, whoever was overdue when it began and is still pending is still ahead
      on its list; after the sweep, whoever is pending was not overdue when it began. */
  ghost predicate SweepProgress(w: Worker, timeout: nat, now: nat) {
    && w.sweptAt <= now
    && (w.phase == Sweeping ==>
          forall r <- w.book.pending :: w.sweptAt > w.book.pending[r].registeredAt + timeout ==> OnList(w, r))
    && (w.phase == Firing ==>
          forall r <- w.book.pending :: w.sweptAt <= w.book.pending[r].registeredAt + timeout)
  }

  lemma SweepMoved(w: Worker, m: Move, env: Env)
    requires Enabled(w, m, env) && SweepProgress(w, env.timeout, env.now)
    ensures SweepProgress(Apply(w, m, env), env.timeout, env.now)
  {
    match m
    case EndResolve(ids) => SweepBegun(w, ids, env);
    case SweepNext => SweptOne(w, env);
    case _ =>
  }

  lemma SweepBegun(w: Worker, ids: seq<nat>, env: Env)
    requires Enabled(w, EndResolve(ids), env)
    ensures SweepProgress(Apply(w, EndResolve(ids), env), env.timeout, env.now)
  {
    forall r <- w.book.pending | env.now > w.book.pending[r].registeredAt + env.timeout
      ensures OnList(Apply(w, EndResolve(ids), env), r)
    {
      assert r in Expired(w.book.pending, env.now, env.timeout);
    }
  }

  lemma SweptOne(w: Worker, env: Env)
    requires Enabled(w, SweepNext, env) && SweepProgress(w, env.timeout, env.now)
    ensures SweepProgress(Apply(w, SweepNext, env), env.timeout, env.now)
  {
    var v := Apply(w, SweepNext, env);
    forall r <- v.book.pending | v.sweptAt > v.book.pending[r].registeredAt + env.timeout
      ensures OnList(v, r)
    {
      assert OnList(w, r);
    }
  }

  /** In every run: no callback that was overdue at the start of a sweep is skipped by it. */
  lemma {:induction false} NoOverdueCallbackIsMissed(c: Config, run: Log<Step>, i: nat)
    requires c.workers > 0 && After(c, run).Some? && i < c.workers
    ensures |After(c, run).value.workers| == c.workers
    ensures
      var w := After(c, run).value.workers[i];
      && w.sweptAt <= After(c, run).value.now
      && (w.phase == Sweeping ==>
            forall r <- w.book.pending :: w.sweptAt > w.book.pending[r].registeredAt + c.timeout ==>
                                            exists k :: w.inTodo <= k < |w.todo| && w.todo[k] == r)
      && (w.phase == Firing ==>
            forall r <- w.book.pending :: w.sweptAt <= w.book.pending[r].registeredAt + c.timeout)
  {
    EveryRunKeepsInv(c, run);
    SweepEverywhere(c, run, i);
    var w := After(c, run).value.workers[i];
    if w.phase == Sweeping {
      forall r <- w.book.pending | w.sweptAt > w.book.pending[r].registeredAt + c.timeout
        ensures exists k :: w.inTodo <= k < |w.todo| && w.todo[k] == r
      {
        assert OnList(w, r);
      }
    }
  }

  lemma {:induction false} SweepEverywhere(c: Config, run: Log<Step>, i: nat)
    requires c.workers > 0 && After(c, run).Some? && i < c.workers == |After(c, run).value.workers|
    ensures SweepProgress(After(c, run).value.workers[i], c.timeout, After(c, run).value.now)
  {
    if run.Then? {
      EveryRunKeepsInv(c, run.before);
      SweepEverywhere(c, run.before, i);
      SweepKept(c, After(c, run.before).value, run.last, i);
    }
  }

  lemma SweepKept(c: Config, s: System, step: Step, i: nat)
    requires CanStep(c, s, step) && i < |s.workers| == |Do(c, s, step).workers|
    requires SweepProgress(s.workers[i], c.timeout, s.now)
    ensures SweepProgress(Do(c, s, step).workers[i], c.timeout, Do(c, s, step).now)
  {
    if step.WorkerMove? && step.i == i {
      SweepMoved(s.workers[i], step.m, EnvOf(c, s));
    } else {
      BystanderKept(c, s, step, i);
      SameSweep(s.workers[i], Do(c, s, step).workers[i], c.timeout, s.now, Do(c, s, step).now);
    }
  }

  lemma SameSweep(w: Worker, v: Worker, timeout: nat, now: nat, later: nat)
    requires v == w.(inbox := v.inbox, calling := v.calling) && now <= later
    requires SweepProgress(w, timeout, now)
    ensures SweepProgress(v, timeout, later)
  {
    forall r <- w.book.pending | OnList(w, r)
      ensures OnList(v, r)
    {
    }
  }

  /** A step that is not the worker's own leaves its lists and its registry alone. */
  lemma BystanderKept(c: Config, s: System, step: Step, i: nat)
    requires CanStep(c, s, step) && i < |s.workers| && !(step.WorkerMove? && step.i == i)
    ensures
      var t := Do(c, s, step);
      && |t.workers| == |s.workers| && s.now <= t.now
      && t.workers[i] == s.workers[i].(inbox := t.workers[i].inbox, calling := t.workers[i].calling)
  {
    if !step.WorkerMove? && !step.Issue? {
      OnlyInboxesChange(c, s, step, i);
    }
  }

  // ------------------------------------------------------------------- what a callback hears

  /** What the callback of request `r` was told the last time it was invoked. */
  function Heard(log: Log<Entry>, r: nat): Option<Settlement> {
    match log
    case Empty => None
    case Then(before, e) => if e.request == r then Some(e.how) else Heard(before, r)
  }

  lemma {:induction false} HeardWhenInvoked(log: Log<Entry>, r: nat)
    ensures Heard(log, r).Some? <==> Times(log, r) > 0
  {
    if log.Then? {
      HeardWhenInvoked(log.before, r);
    }
  }

  /** The item reports outcome `o` of request `r`. */
  predicate Brings(e: Envelope<WorkItem>, r: nat, o: ActionOutcome) {
    match e.event.payload
    case ActionDone(a) => a.requestId == r && a.outcome == o
    case CallbackCompletion(a) => a.requestId == r && a.outcome == o
    case _ => false
  }

  ghost predicate InHand(batch: seq<Envelope<WorkItem>>, from: nat, r: nat, o: ActionOutcome) {
    exists k :: from <= k < |batch| && Brings(batch[k], r, o)
  }

  ghost predicate LossInHand(taken: seq<Failure>, from: nat, r: nat, loss: Loss) {
    exists k :: from <= k < |taken| && taken[k] == Failure(r, loss)
  }

  /** With this move the worker makes a list on which `how` is due to the pending callback
      of `r`: it drains the outcome, takes the record of the loss, begins a sweep for which
      the callback has waited too long, or begins the final cleanup. */
  ghost predicate FallsDue(w: Worker, m: Move, env: Env, r: nat, how: Settlement) {
    && r in w.book.pending
    && match how
       case ByResult(o) => m.Wait? && InHand(Ready(w.inbox.history, env.cap.high, env.cap.low), 0, r, o)
       case ByLoss(loss) => m.EndBatch? && Failure(r, loss) in w.inbox.failed
       case ByTimeout(waited) =>
         m.EndResolve? && env.now == w.book.pending[r].registeredAt + waited && waited > env.timeout
       case ByShutdown => m.Decide? && w.batch == [] && env.shutdown
  }

  /** `how` is ahead of the pending callback of `r` on the list being worked through. */
  ghost predicate Ahead(w: Worker, r: nat, how: Settlement) {
    && r in w.book.pending
    && match how
       case ByResult(o) => (w.phase == Deciding || w.phase == Dispatching) && InHand(w.batch, w.inBatch, r, o)
       case ByLoss(loss) => w.phase == Resolving && LossInHand(w.taken, w.inTaken, r, loss)
       case ByTimeout(waited) =>
         w.phase == Sweeping && OnList(w, r) && w.sweptAt == w.book.pending[r].registeredAt + waited
       case ByShutdown => w.phase == Cleaning && OnList(w, r)
  }

  /** Ahead of the callback, or told to it; or the callback was evicted while the batch with
      its result was being delivered, or the worker broke. */
  ghost predicate Promised(w: Worker, r: nat, how: Settlement) {
    && r in w.book.registered
    && (r in w.book.pending ==> w.phase == Broken || Ahead(w, r, how))
    && (r !in w.book.pending ==> (how.ByResult? && r in w.book.evicted) || Heard(w.book.log, r) == Some(how))
  }

  // -------------------------------------------------------------- what is due is promised

  lemma DueIsPromised(w: Worker, m: Move, env: Env, r: nat, how: Settlement)
    requires Enabled(w, m, env) && Balanced(w.book) && FallsDue(w, m, env, r, how)
    ensures Promised(Apply(w, m, env), r, how)
  {
    assert Has(w.book.pending.Keys, r) + Times(w.book.log, r) + Has(w.book.evicted, r) == Has(w.book.registered, r);
    var v := Apply(w, m, env);
    match how
    case ByResult(o) =>
    case ByLoss(loss) =>
      var k :| 0 <= k < |w.inbox.failed| && w.inbox.failed[k] == Failure(r, loss);
      assert v.taken[k] == Failure(r, loss);
    case ByTimeout(waited) =>
      assert r in Expired(w.book.pending, env.now, env.timeout);
    case ByShutdown =>
  }

  /** No two losses of the same request are ahead. */
  ghost predicate OneLoss(w: Worker, r: nat) {
    forall j, k :: w.inTaken <= j < k < |w.taken| ==> !(w.taken[j].request == r && w.taken[k].request == r)
  }

  lemma {:induction false} CountedTwice(fs: seq<Failure>, i: nat, r: nat, j: nat, k: nat)
    requires i <= j < k < |fs| && fs[j].request == r && fs[k].request == r
    ensures InFailures(fs, i, r) >= 2
    decreases |fs| - i
  {
    if i < j {
      CountedTwice(fs, i + 1, r, j, k);
    } else {
      CountedOnce(fs, i + 1, r, k);
    }
  }

  lemma {:induction false} CountedOnce(fs: seq<Failure>, i: nat, r: nat, k: nat)
    requires i <= k < |fs| && fs[k].request == r
    ensures InFailures(fs, i, r) >= 1
    decreases |fs| - i
  {
    if i < k {
      CountedOnce(fs, i + 1, r, k);
    }
  }

  lemma OneLossAhead(w: Worker, cap: Capacity, r: nat)
    requires Tokens(w, cap, r) <= 1
    ensures OneLoss(w, r)
  {
    forall j, k | w.inTaken <= j < k < |w.taken|
      ensures !(w.taken[j].request == r && w.taken[k].request == r)
    {
      if w.taken[j].request == r && w.taken[k].request == r {
        CountedTwice(w.taken, w.inTaken, r, j, k);
      }
    }
  }

  // ----------------------------------------------------------------- promises are kept

  lemma PromiseMoved(w: Worker, m: Move, env: Env, outcomes: map<nat, ActionOutcome>, r: nat, how: Settlement)
    requires Enabled(w, m, env) && Workers.Inv(w, outcomes, env.timeout, env.shutdown) && OneLoss(w, r)
    requires Promised(w, r, how)
    ensures Promised(Apply(w, m, env), r, how)
  {
    if r !in w.book.pending {
      HeardStays(w, m, env, r);
    } else {
      match how
      case ByResult(o) => ResultAhead(w, m, env, outcomes, r, o);
      case ByLoss(loss) => LossAhead(w, m, env, r, loss);
      case ByTimeout(waited) => TimeoutAhead(w, m, env, r, waited);
      case ByShutdown => ShutdownAhead(w, m, env, r);
    }
  }

  /** A registered callback that is no longer pending is never heard of again. */
  lemma HeardStays(w: Worker, m: Move, env: Env, r: nat)
    requires Enabled(w, m, env) && Unhandled(w) && r in w.book.registered && r !in w.book.pending
    ensures
      var b := Apply(w, m, env).book;
      r in b.registered && r !in b.pending && Heard(b.log, r) == Heard(w.book.log, r) && (r in w.book.evicted ==> r in b.evicted)
  {
  }

  lemma ResultAhead(w: Worker, m: Move, env: Env, outcomes: map<nat, ActionOutcome>, r: nat, o: ActionOutcome)
    requires Enabled(w, m, env) && Holds(w, outcomes) && Unhandled(w)
    requires Ahead(w, r, ByResult(o)) && r in w.book.registered
    ensures Promised(Apply(w, m, env), r, ByResult(o))
  {
    if m.Dispatch? {
      ResultDelivered(w, env, outcomes, r, o);
    } else {
      ResultStaysAhead(w, m, env, r, o);
    }
  }

  lemma ResultDelivered(w: Worker, env: Env, outcomes: map<nat, ActionOutcome>, r: nat, o: ActionOutcome)
    requires Enabled(w, Dispatch, env) && Holds(w, outcomes)
    requires Ahead(w, r, ByResult(o)) && r in w.book.registered
    ensures Promised(Apply(w, Dispatch, env), r, ByResult(o))
  {
    var k :| w.inBatch <= k < |w.batch| && Brings(w.batch[k], r, o);
    assert Genuine(w.batch[k], outcomes) && Genuine(w.batch[w.inBatch], outcomes);
  }

  lemma ResultStaysAhead(w: Worker, m: Move, env: Env, r: nat, o: ActionOutcome)
    requires Enabled(w, m, env) && !m.Dispatch? && Unhandled(w)
    requires Ahead(w, r, ByResult(o)) && r in w.book.registered
    ensures Promised(Apply(w, m, env), r, ByResult(o))
  {
    var v := Apply(w, m, env);
    assert m.Decide? || m.AddCallback? || m.NoCallback? || m.Break?;
    assert v.batch == w.batch && v.inBatch == w.inBatch && InHand(v.batch, v.inBatch, r, o);
  }

  lemma LossAhead(w: Worker, m: Move, env: Env, r: nat, loss: Loss)
    requires Enabled(w, m, env) && OneLoss(w, r) && Positions(w)
    requires Ahead(w, r, ByLoss(loss)) && r in w.book.registered
    ensures Promised(Apply(w, m, env), r, ByLoss(loss))
  {
    var k :| w.inTaken <= k < |w.taken| && w.taken[k] == Failure(r, loss);
  }

  lemma TimeoutAhead(w: Worker, m: Move, env: Env, r: nat, waited: nat)
    requires Enabled(w, m, env) && Positions(w)
    requires Ahead(w, r, ByTimeout(waited)) && r in w.book.registered
    ensures Promised(Apply(w, m, env), r, ByTimeout(waited))
  {
    var k :| w.inTodo <= k < |w.todo| && w.todo[k] == r;
  }

  lemma ShutdownAhead(w: Worker, m: Move, env: Env, r: nat)
    requires Enabled(w, m, env) && Positions(w)
    requires Ahead(w, r, ByShutdown) && r in w.book.registered
    ensures Promised(Apply(w, m, env), r, ByShutdown)
  {
    var k :| w.inTodo <= k < |w.todo| && w.todo[k] == r;
  }

  // ------------------------------------------------------------------ what is heard was due

  /** Results of the request for which a callback is being made have not been drained yet. */
  ghost predicate NotYetDrained(w: Worker) {
    w.calling.Some? ==> forall k :: w.inBatch <= k < |w.batch| ==> !Settles(w.batch[k], w.calling.value)
  }

  /** Whoever is told something had it ahead. */
  lemma ToldFromTheList(w: Worker, m: Move, env: Env, r: nat)
    requires Enabled(w, m, env) && SweepList(w, env.timeout) && (w.phase == Cleaning ==> w.calling == None)
    requires Heard(Apply(w, m, env).book.log, r) != Heard(w.book.log, r)
    ensures Heard(Apply(w, m, env).book.log, r).Some?
    ensures Ahead(w, r, Heard(Apply(w, m, env).book.log, r).value)
  {
    match m
    case Dispatch => assert Brings(w.batch[w.inBatch], r, w.batch[w.inBatch].event.payload.result.outcome);
    case ResolveNext => assert w.taken[w.inTaken] == Failure(r, w.taken[w.inTaken].loss);
    case SweepNext => assert w.todo[w.inTodo] == r;
    case CleanNext => assert w.todo[w.inTodo] == r;
    case _ =>
  }

  /** Whatever is ahead was ahead before, or falls due with this move. */
  lemma AheadFromBefore(w: Worker, m: Move, env: Env, r: nat, how: Settlement)
    requires Enabled(w, m, env) && NotYetDrained(w) && Ahead(Apply(w, m, env), r, how)
    ensures Ahead(w, r, how) || FallsDue(w, m, env, r, how)
  {
    match how
    case ByResult(o) => ResultFromBefore(w, m, env, r, o);
    case ByLoss(loss) => LossFromBefore(w, m, env, r, loss);
    case ByTimeout(waited) => TimeoutFromBefore(w, m, env, r, waited);
    case ByShutdown => ShutdownFromBefore(w, m, env, r);
  }

  lemma ResultFromBefore(w: Worker, m: Move, env: Env, r: nat, o: ActionOutcome)
    requires Enabled(w, m, env) && NotYetDrained(w) && Ahead(Apply(w, m, env), r, ByResult(o))
    ensures Ahead(w, r, ByResult(o)) || FallsDue(w, m, env, r, ByResult(o))
  {
    var v := Apply(w, m, env);
    var k :| v.inBatch <= k < |v.batch| && Brings(v.batch[k], r, o);
    if !m.Wait? {
      assert v.batch == w.batch && w.inBatch <= v.inBatch;
    }
  }

  lemma LossFromBefore(w: Worker, m: Move, env: Env, r: nat, loss: Loss)
    requires Enabled(w, m, env) && Ahead(Apply(w, m, env), r, ByLoss(loss))
    ensures Ahead(w, r, ByLoss(loss)) || FallsDue(w, m, env, r, ByLoss(loss))
  {
    var v := Apply(w, m, env);
    var k :| v.inTaken <= k < |v.taken| && v.taken[k] == Failure(r, loss);
  }

  lemma TimeoutFromBefore(w: Worker, m: Move, env: Env, r: nat, waited: nat)
    requires Enabled(w, m, env) && Ahead(Apply(w, m, env), r, ByTimeout(waited))
    ensures Ahead(w, r, ByTimeout(waited)) || FallsDue(w, m, env, r, ByTimeout(waited))
  {
    var v := Apply(w, m, env);
    var k :| v.inTodo <= k < |v.todo| && v.todo[k] == r;
    if m.EndResolve? {
      assert r in Expired(w.book.pending, env.now, env.timeout);
    }
  }

  lemma ShutdownFromBefore(w: Worker, m: Move, env: Env, r: nat)
    requires Enabled(w, m, env) && Ahead(Apply(w, m, env), r, ByShutdown)
    ensures Ahead(w, r, ByShutdown) || FallsDue(w, m, env, r, ByShutdown)
  {
    var v := Apply(w, m, env);
    var k :| v.inTodo <= k < |v.todo| && v.todo[k] == r;
  }

  // ------------------------------------------------------------------------- in every run

  /** `how` fell due to the callback of `r` at worker `i` in some step of the run. */
  ghost predicate FellDue(c: Config, run: Log<Step>, i: nat, r: nat, how: Settlement) {
    match run
    case Empty => false
    case Then(before, step) =>
      || FellDue(c, before, i, r, how)
      || (After(c, before).Some? && FallsDueNow(c, After(c, before).value, step, i, r, how))
  }

  ghost predicate FallsDueNow(c: Config, s: System, step: Step, i: nat, r: nat, how: Settlement) {
    step.WorkerMove? && step.i == i < |s.workers| && FallsDue(s.workers[i], step.m, EnvOf(c, s), r, how)
  }

  /** What the invariant of the swarm says about one worker and one request. */
  lemma AtWorker(c: Config, run: Log<Step>, i: nat, r: nat)
    requires c.workers > 0 && After(c, run).Some? && i < c.workers
    ensures
      var s := After(c, run).value;
      && |s.workers| == c.workers
      && Workers.Inv(s.workers[i], s.outcomes, c.timeout, s.shutdown)
      && OneLoss(s.workers[i], r)
      && Has(s.workers[i].book.pending.Keys, r) + Times(s.workers[i].book.log, r) + Has(s.workers[i].book.evicted, r)
         == Has(s.workers[i].book.registered, r)
  {
    EveryRunKeepsInv(c, run);
    var s := After(c, run).value;
    assert ConservedAt(c, s, i, r);
    OneLossAhead(s.workers[i], c.cap, r);
    assert Balanced(s.workers[i].book);
  }

  lemma SamePromise(w: Worker, v: Worker, r: nat, how: Settlement)
    requires v == w.(inbox := v.inbox, calling := v.calling) && Promised(w, r, how)
    ensures Promised(v, r, how)
  {
  }

  lemma {:induction false} DuePromised(c: Config, run: Log<Step>, i: nat, r: nat, how: Settlement)
    requires c.workers > 0 && After(c, run).Some? && i < c.workers && FellDue(c, run, i, r, how)
    ensures |After(c, run).value.workers| == c.workers
    ensures Promised(After(c, run).value.workers[i], r, how)
  {
    var s := After(c, run.before).value;
    AtWorker(c, run.before, i, r);
    EveryRunKeepsInv(c, run);
    if FallsDueNow(c, s, run.last, i, r, how) {
      DueIsPromised(s.workers[i], run.last.m, EnvOf(c, s), r, how);
    } else {
      DuePromised(c, run.before, i, r, how);
      if run.last.WorkerMove? && run.last.i == i {
        PromiseMoved(s.workers[i], run.last.m, EnvOf(c, s), s.outcomes, r, how);
      } else {
        BystanderKept(c, s, run.last, i);
        SamePromise(s.workers[i], After(c, run).value.workers[i], r, how);
      }
    }
  }

  /** What fell due to a callback is what it hears, exactly once.  It may still be ahead on
      the list being worked through.  The only exceptions are a worker that broke, and a
      callback that a handler's registration evicted before its result was delivered. */
  lemma WhatIsDueIsHeard(c: Config, run: Log<Step>, i: nat, r: nat, how: Settlement)
    requires c.workers > 0 && After(c, run).Some? && i < c.workers && FellDue(c, run, i, r, how)
    ensures |After(c, run).value.workers| == c.workers
    ensures
      var w := After(c, run).value.workers[i];
      && (r in w.book.pending ==> w.phase == Broken || Ahead(w, r, how))
      && (r in w.book.evicted ==> how.ByResult?)
      && (r !in w.book.pending && r !in w.book.evicted ==> Times(w.book.log, r) == 1 && Heard(w.book.log, r) == Some(how))
  {
    DuePromised(c, run, i, r, how);
    AtWorker(c, run, i, r);
    HeardWhenInvoked(After(c, run).value.workers[i].book.log, r);
  }

  /** A callback whose timeout had run out when a sweep began is told so, with the time it
      had waited, and invoked exactly once, by the end of that sweep. */
  lemma OverdueCallbacksAreTold(c: Config, run: Log<Step>, i: nat, r: nat, waited: nat)
    requires c.workers > 0 && After(c, run).Some? && i < c.workers && FellDue(c, run, i, r, ByTimeout(waited))
    ensures |After(c, run).value.workers| == c.workers
    ensures
      var w := After(c, run).value.workers[i];
      w.phase != Sweeping && w.phase != Broken ==>
        r !in w.book.pending && Times(w.book.log, r) == 1 && Heard(w.book.log, r) == Some(ByTimeout(waited))
  {
    WhatIsDueIsHeard(c, run, i, r, ByTimeout(waited));
  }

  /** A callback whose loss was on record when a batch ended is told so by the end of the pass
      over the records; one that was left at the end is told about the shutdown. */
  lemma LostAndLeftCallbacksAreTold(c: Config, run: Log<Step>, i: nat, r: nat, how: Settlement)
    requires c.workers > 0 && After(c, run).Some? && i < c.workers && FellDue(c, run, i, r, how)
    ensures |After(c, run).value.workers| == c.workers
    ensures
      var w := After(c, run).value.workers[i];
      (how.ByLoss? && w.phase != Resolving && w.phase != Broken) || (how.ByShutdown? && w.phase == Done) ==>
        r !in w.book.pending && Times(w.book.log, r) == 1 && Heard(w.book.log, r) == Some(how)
  {
    WhatIsDueIsHeard(c, run, i, r, how);
  }

  lemma {:induction false} DrainedLater(c: Config, run: Log<Step>, i: nat)
    requires c.workers > 0 && After(c, run).Some? && i < c.workers
    ensures |After(c, run).value.workers| == c.workers
    ensures NotYetDrained(After(c, run).value.workers[i])
  {
    EveryRunKeepsInv(c, run);
    if run.Then? {
      DrainedLater(c, run.before, i);
      EveryRunKeepsInv(c, run.before);
      var s := After(c, run.before).value;
      assert ConservedAt(c, s, i, s.nextRequest);
      assert InBatch(s.workers[i].batch, s.workers[i].inBatch, s.nextRequest) == 0;
      DrainedAfter(c, s, run.last, i);
    }
  }

  lemma {:induction false} NoneAhead(s: seq<Envelope<WorkItem>>, from: nat, r: nat, k: nat)
    requires InBatch(s, from, r) == 0 && from <= k < |s|
    ensures !Settles(s[k], r)
    decreases |s| - from
  {
    if from < k {
      NoneAhead(s, from + 1, r, k);
    }
  }

  lemma DrainedAfter(c: Config, s: System, step: Step, i: nat)
    requires CanStep(c, s, step) && i < |s.workers| == |Do(c, s, step).workers| && NotYetDrained(s.workers[i])
    requires InBatch(s.workers[i].batch, s.workers[i].inBatch, s.nextRequest) == 0
    ensures NotYetDrained(Do(c, s, step).workers[i])
  {
    var w := s.workers[i];
    if step.Issue? {
      forall k | w.inBatch <= k < |w.batch|
        ensures !Settles(w.batch[k], s.nextRequest)
      {
        NoneAhead(w.batch, w.inBatch, s.nextRequest, k);
      }
    } else if !step.WorkerMove? {
      OnlyInboxesChange(c, s, step, i);
      OnlyIssueCalls(c, s, step, i);
    }
  }

  lemma OnlyIssueCalls(c: Config, s: System, step: Step, i: nat)
    requires CanStep(c, s, step) && !step.WorkerMove? && !step.Issue? && i < |s.workers| == |Do(c, s, step).workers|
    ensures Do(c, s, step).workers[i].calling == s.workers[i].calling
  {
  }

  /** A callback hears only what fell due to it, and only that is ahead of it. */
  lemma {:induction false} WhatIsHeardWasDue(c: Config, run: Log<Step>, i: nat, r: nat, how: Settlement)
    requires c.workers > 0 && After(c, run).Some? && i < c.workers
    ensures |After(c, run).value.workers| == c.workers
    ensures Heard(After(c, run).value.workers[i].book.log, r) == Some(how) ==> FellDue(c, run, i, r, how)
    ensures Ahead(After(c, run).value.workers[i], r, how) ==> FellDue(c, run, i, r, how)
  {
    EveryRunKeepsInv(c, run);
    if run.Then? {
      var s := After(c, run.before).value;
      WhatIsHeardWasDue(c, run.before, i, r, how);
      AtWorker(c, run.before, i, r);
      DrainedLater(c, run.before, i);
      if run.last.WorkerMove? && run.last.i == i {
        HeardOrAhead(c, s, run.last.m, i, r, how);
      } else {
        BystanderKept(c, s, run.last, i);
        SameAhead(s.workers[i], After(c, run).value.workers[i], r, how);
      }
    }
  }

  lemma SameAhead(w: Worker, v: Worker, r: nat, how: Settlement)
    requires v == w.(inbox := v.inbox, calling := v.calling)
    ensures v.book == w.book && (Ahead(v, r, how) ==> Ahead(w, r, how))
  {
  }

  lemma HeardOrAhead(c: Config, s: System, m: Move, i: nat, r: nat, how: Settlement)
    requires i < |s.workers| && Enabled(s.workers[i], m, EnvOf(c, s)) && NotYetDrained(s.workers[i])
    requires Lists(s.workers[i], c.timeout)
    ensures
      var w := s.workers[i];
      var v := Apply(w, m, EnvOf(c, s));
      && (Heard(v.book.log, r) == Some(how) ==> Heard(w.book.log, r) == Some(how) || Ahead(w, r, how))
      && (Ahead(v, r, how) ==> Ahead(w, r, how) || FallsDue(w, m, EnvOf(c, s), r, how))
  {
    var w := s.workers[i];
    var v := Apply(w, m, EnvOf(c, s));
    if Heard(v.book.log, r) != Heard(w.book.log, r) {
      ToldFromTheList(w, m, EnvOf(c, s), r);
    }
    if Ahead(v, r, how) {
      AheadFromBefore(w, m, EnvOf(c, s), r, how);
    }
  }

  // ------------------------------------------------------------------- registration, closing

  /** The callback that this step registers for `r` at worker `i`. */
  function RegistersNow(s: System, step: Step, i: nat, r: nat): Option<Callback> {
    if step.WorkerMove? && step.i == i < |s.workers| && step.m.AddCallback? && s.workers[i].calling == Some(r)
    then Some(Callback(step.m.bot, s.now)) else None
  }

  ghost function RegisteredBy(c: Config, run: Log<Step>, i: nat, r: nat): Option<Callback> {
    match run
    case Empty => None
    case Then(before, step) =>
      if After(c, before).Some? && RegistersNow(After(c, before).value, step, i, r).Some?
      then RegistersNow(After(c, before).value, step, i, r) else RegisteredBy(c, before, i, r)
  }

  /** A callback is registered exactly by the step that registers it, for the bot named there
      and with the time of that step, and keeps both until it is settled. */
  lemma {:induction false} RegistrationIsKept(c: Config, run: Log<Step>, i: nat, r: nat)
    requires c.workers > 0 && After(c, run).Some? && i < c.workers
    ensures |After(c, run).value.workers| == c.workers
    ensures
      var b := After(c, run).value.workers[i].book;
      && (r in b.registered <==> RegisteredBy(c, run, i, r).Some?)
      && (r in b.pending ==> RegisteredBy(c, run, i, r) == Some(b.pending[r]))
  {
    EveryRunKeepsInv(c, run);
    if run.Then? {
      RegistrationIsKept(c, run.before, i, r);
      RegisteredAfter(c, After(c, run.before).value, run.last, i, r);
    }
  }

  lemma RegisteredAfter(c: Config, s: System, step: Step, i: nat, r: nat)
    requires CanStep(c, s, step) && i < |s.workers| == |Do(c, s, step).workers|
    ensures
      var a, b := s.workers[i].book, Do(c, s, step).workers[i].book;
      match RegistersNow(s, step, i, r)
      case Some(cb) => r in b.registered && r in b.pending && b.pending[r] == cb
      case None =>
        && (r in b.registered <==> r in a.registered)
        && (r in b.pending ==> r in a.pending && b.pending[r] == a.pending[r])
  {
    if step.WorkerMove? && step.i == i {
      RegisteredMoved(s.workers[i], step.m, EnvOf(c, s), r);
    } else {
      BystanderKept(c, s, step, i);
    }
  }

  lemma RegisteredMoved(w: Worker, m: Move, env: Env, r: nat)
    requires Enabled(w, m, env)
    ensures
      var a, b := w.book, Apply(w, m, env).book;
      if m.AddCallback? && w.calling == Some(r) then r in b.registered && r in b.pending && b.pending[r] == Callback(m.bot, env.now)
      else (r in b.registered <==> r in a.registered) && (r in b.pending ==> r in a.pending && b.pending[r] == a.pending[r])
  {
  }

  /** The queue of worker `i` is closed by the runtime, or by the worker itself when it comes
      to the head of its loop during the shutdown. */
  predicate ClosesNow(s: System, step: Step, i: nat) {
    step == CloseQueue(i) || (step == WorkerMove(i, LoopHead) && s.shutdown)
  }

  ghost predicate ClosedDuring(c: Config, run: Log<Step>, i: nat) {
    match run
    case Empty => false
    case Then(before, step) =>
      ClosedDuring(c, before, i) || (After(c, before).Some? && ClosesNow(After(c, before).value, step, i))
  }

  /** A queue is closed exactly when one of the two closed it, and never reopens. */
  lemma {:induction false} ClosedExactlyWhen(c: Config, run: Log<Step>, i: nat)
    requires c.workers > 0 && After(c, run).Some? && i < c.workers
    ensures |After(c, run).value.workers| == c.workers
    ensures After(c, run).value.workers[i].inbox.closed <==> ClosedDuring(c, run, i)
  {
    EveryRunKeepsInv(c, run);
    if run.Then? {
      ClosedExactlyWhen(c, run.before, i);
      ClosedAfter(c, After(c, run.before).value, run.last, i);
    }
  }

  lemma ClosedAfter(c: Config, s: System, step: Step, i: nat)
    requires CanStep(c, s, step) && i < |s.workers| == |Do(c, s, step).workers|
    ensures Do(c, s, step).workers[i].inbox.closed <==> s.workers[i].inbox.closed || ClosesNow(s, step, i)
  {
    match step
    case WorkerMove(j, m) => if i == j { ClosedMoved(s.workers[i], m, EnvOf(c, s)); }
    case PushStep(r) => ClosedByPush(s, s.tasks[r], c.cap, i);
    case NoiseStep(k) => ClosedByPush(s, s.noise[k], c.cap, i);
    case _ =>
  }

  lemma ClosedMoved(w: Worker, m: Move, env: Env)
    requires Enabled(w, m, env)
    ensures Apply(w, m, env).inbox.closed <==> w.inbox.closed || (m == LoopHead && env.shutdown)
  {
  }

  lemma ClosedByPush(s: System, t: Task, cap: Capacity, i: nat)
    requires Pushing(s, t) && i < |s.workers|
    ensures WithInbox(s, t.parcels[t.at].target, Pushed(s, t, cap).0).workers[i].inbox.closed == s.workers[i].inbox.closed
  {
  }

  // ----------------------------------------------------------------------- stations of a pass

  /** The stations of the loop, in order; the eighth is outside. */
  function Station(p: Phase): nat {
    match p
    case Head => 0
    case Waiting => 1
    case Deciding => 2
    case Dispatching => 3
    case Resolving => 4
    case Sweeping => 5
    case Firing => 6
    case _ => 7
  }

  /** The station that this move of worker `i` completes. */
  function Completes(step: Step, i: nat): nat {
    if !step.WorkerMove? || step.i != i then 7
    else match step.m
         case LoopHead => 0
         case Wait(_) => 1
         case Decide(_) => 2
         case EndBatch => 3
         case EndResolve(_) => 4
         case EndSweep => 5
         case EndFiring => 6
         case _ => 7
  }

  /** How often worker `i` has completed station `k`. */
  function Completions(run: Log<Step>, i: nat, k: nat): nat {
    match run
    case Empty => 0
    case Then(before, step) => Completions(before, i, k) + if Completes(step, i) == k then 1 else 0
  }

  /** Station `k` was completed `n` times and the last station `passes` times: the stations
      before the current one have been completed once more than the others. */
  predicate Tally(p: Phase, k: nat, n: nat, passes: nat) {
    && (p == Script ==> n == 0 && passes == 0)
    && (Station(p) < 7 ==> n == passes + if k < Station(p) then 1 else 0)
    && (p == Cleaning || p == Done ==> n == passes + if k < 3 then 1 else 0)
  }

  /** How a step that completes station `done` (or none) may change the phase. */
  predicate Changes(p: Phase, q: Phase, done: nat) {
    if done < 7 then
      && Station(p) == done
      && (Station(q) == (if p == Firing then 0 else Station(p) + 1) || (p == Deciding && q == Cleaning))
    else
      q == p || q == Broken || (p == Script && q == Head) || (p == Cleaning && q == Done)
  }

  lemma TallyAfter(p: Phase, q: Phase, done: nat, k: nat, n: nat, passes: nat)
    requires k < 7 && Tally(p, k, n, passes) && Changes(p, q, done)
    ensures Tally(q, k, n + (if done == k then 1 else 0), passes + (if done == 6 then 1 else 0))
  {
  }

  /** Every pass visits every station exactly once, in order, and the loop is left after a
      decision only. */
  lemma {:induction false} PassesVisitAllStations(c: Config, run: Log<Step>, i: nat, k: nat)
    requires c.workers > 0 && After(c, run).Some? && i < c.workers && k < 7
    ensures |After(c, run).value.workers| == c.workers
    ensures Tally(After(c, run).value.workers[i].phase, k, Completions(run, i, k), Completions(run, i, 6))
  {
    EveryRunKeepsInv(c, run);
    if run.Then? {
      var s := After(c, run.before).value;
      PassesVisitAllStations(c, run.before, i, k);
      PhaseAfter(c, s, run.last, i);
      TallyAfter(s.workers[i].phase, After(c, run).value.workers[i].phase, Completes(run.last, i), k,
                 Completions(run.before, i, k), Completions(run.before, i, 6));
    }
  }

  lemma PhaseAfter(c: Config, s: System, step: Step, i: nat)
    requires CanStep(c, s, step) && i < |s.workers| == |Do(c, s, step).workers|
    ensures Changes(s.workers[i].phase, Do(c, s, step).workers[i].phase, Completes(step, i))
  {
    if !step.WorkerMove? || step.i != i {
      BystanderKept(c, s, step, i);
    }
  }
}
