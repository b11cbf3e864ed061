/** The startup protocol: workers load the script and meet at a barrier, the orchestrator
    collects their reports and then either spawns every bot and publishes `Started`, or
    aborts.  Every interleaving is covered, including workers that fail, crash, never call
    connect_all, or swallow the abort error. */
module Startup {
  import opened Basics

  datatype Failure =
    | WorkerFailed(worker: nat)
    | ChannelClosed
    | Unjoinable
    | TimedOut
    | RegistryMissing
    | BadRegistry

  datatype Verdict = Started | Aborted(failure: Failure)

  // -------------------------------------------------------------------------- barrier

  /** The one-time barrier: the first verdict is the only one. */
  class StartupBarrier {
    var state: Option<Verdict>

    constructor ()
      ensures state == None
    {
      state := None;
    }

    method Publish()
      modifies this
      ensures state == FirstSet(old(state), Started)
      ensures state == if old(state) == None then Some(Started) else old(state)
    {
      if state == None {
        state := Some(Started);
      }
    }

    method Abort(reason: Failure)
      modifies this
      ensures state == FirstSet(old(state), Aborted(reason))
      ensures state == if old(state) == None then Some(Aborted(reason)) else old(state)
    {
      if state == None {
        state := Some(Aborted(reason));
      }
    }
  }

  function FirstSet(state: Option<Verdict>, v: Verdict): Option<Verdict> {
    if state == None then Some(v) else state
  }

  // ------------------------------------------------------------- collecting the reports

  /** What the orchestrator can receive while it collects. */
  datatype Event = Reached(worker: nat) | Failing(worker: nat) | Closed | Joined(worker: nat) | JoinFailed

  datatype Collected = AllReached | Broken(failure: Failure) | StillWaiting

  function FailureOf(e: Event): Failure
    requires !e.Reached?
  {
    match e
    case Failing(i) => WorkerFailed(i)
    case Closed => ChannelClosed
    case Joined(i) => WorkerFailed(i)
    case JoinFailed => Unjoinable
  }

  /** The distinct workers among the first `k` events that reported the barrier. */
  ghost function ReachedBy(events: seq<Event>, k: nat): set<nat>
    requires k <= |events|
  {
    set j | 0 <= j < k && events[j].Reached? :: events[j].worker
  }

  /** Collects until enough distinct workers reached the barrier or something goes wrong.
      `used` events were consumed; all but the last of them were barrier reports that did
      not yet suffice. */
  method CollectStartupReports(workers: nat, events: seq<Event>) returns (r: Collected, used: nat)
    requires workers > 0
    ensures used <= |events|
    ensures forall j :: 0 <= j < used - 1 ==> events[j].Reached?
    ensures used > 0 ==> |ReachedBy(events, used - 1)| < workers
    ensures r == AllReached ==> used > 0 && events[used - 1].Reached? && |ReachedBy(events, used)| == workers
    ensures r.Broken? ==> used > 0 && !events[used - 1].Reached? && r.failure == FailureOf(events[used - 1])
    ensures r.Broken? ==>
              match events[used - 1]
              case Failing(i) => r.failure == WorkerFailed(i)
              case Joined(i) => r.failure == WorkerFailed(i)
              case Closed => r.failure == ChannelClosed
              case JoinFailed => r.failure == Unjoinable
              case Reached(_) => false
    ensures r == StillWaiting ==> used == |events| && |ReachedBy(events, used)| < workers
                                  && (used > 0 ==> events[used - 1].Reached?)
  {
    var reached: set<nat> := {};
    used := 0;
    while used < |events|
      invariant used <= |events|
      invariant forall j :: 0 <= j < used ==> events[j].Reached?
      invariant reached == ReachedBy(events, used)
      invariant |reached| < workers
      invariant used > 0 ==> |ReachedBy(events, used - 1)| < workers
    {
      var e := events[used];
      used := used + 1;
      assert ReachedBy(events, used) == ReachedBy(events, used - 1) + if e.Reached? then {e.worker} else {};
      match e
      case Reached(i) =>
        reached := reached + {i};
        if |reached| >= workers {
          return AllReached, used;
        }
      case _ => return Broken(FailureOf(e)), used;
    }
    r := StillWaiting;
  }

  // --------------------------------------------------------------------- the protocol

  datatype Worker = Loading | AtBarrier | Looping(heard: Option<Verdict>) | Quitting | Exited

  datatype Pc =
    | Collecting(reached: set<nat>)
    | Fetching
    | Validating
    | Publishing
    | Flagging(why: Failure)
    | Unblocking(why: Failure)
    | Closing(why: Failure, upTo: nat)
    | Joining(why: Failure)
    | GaveUp(why: Failure)
    | Running

  /** `called` is who has called connect_all; `heard` is what each released worker got. */
  datatype State = State(
    pc: Pc, workers: seq<Worker>, reports: seq<Event>, taken: nat,
    registrySent: bool, barrier: Option<Verdict>, shutdown: bool, closed: set<nat>,
    spawned: bool, called: set<nat>, heard: map<nat, Verdict>)

  function Initial(n: nat): State {
    State(Collecting({}), seq(n, _ => Loading), [], 0, false, None, false, {}, false, {}, map[])
  }

  datatype WorkerStep =
    | SendRegistry                 // coordinator, inside connect_all
    | Reach                        // report and block at the barrier
    | SkipBarrier                  // script ends without connect_all
    | Break                        // script error or panic: report
    | Release(swallows: bool)      // the barrier lets the worker go
    | Exit
    | Stop                         // swarm:stop, from any script

  datatype MainStep =
    | TakeReport | SeeClosed | SeeJoined(i: nat) | SeeJoinFailed | TimeOut
    | Fetch | Validate(ok: bool) | Publish
    | RaiseFlag | AbortBarrier | CloseNext | CloseDone | JoinDone

  datatype Step = OfWorker(i: nat, w: WorkerStep) | OfMain(m: MainStep)

  /** The script runs while it is loaded, and later from handlers and timers. */
  predicate RunsScript(w: Worker) {
    w == Loading || w.Looping?
  }

  predicate WorkerCan(s: State, i: nat, w: WorkerStep) {
    i < |s.workers| &&
    match w
    case SendRegistry => i == 0 && RunsScript(s.workers[i])
    case Reach => RunsScript(s.workers[i]) && (i == 0 ==> s.registrySent)
    case SkipBarrier => s.workers[i] == Loading
    case Break => RunsScript(s.workers[i])
    case Release(_) => s.workers[i] == AtBarrier && s.barrier.Some?
    case Exit => s.workers[i] == Quitting || (s.workers[i].Looping? && s.shutdown)
    case Stop => RunsScript(s.workers[i])
  }

  predicate MainCan(s: State, m: MainStep) {
    match m
    case TakeReport => s.pc.Collecting? && s.taken < |s.reports|
    case SeeClosed => s.pc.Collecting? && s.taken >= |s.reports| && forall w <- s.workers :: w == Exited
    case SeeJoined(i) => s.pc.Collecting? && i < |s.workers| && s.workers[i] == Exited
    case SeeJoinFailed => s.pc.Collecting?
    case TimeOut => s.pc.Collecting?
    case Fetch => s.pc == Fetching
    case Validate(_) => s.pc == Validating
    case Publish => s.pc == Publishing
    case RaiseFlag => s.pc.Flagging?
    case AbortBarrier => s.pc.Unblocking?
    case CloseNext => s.pc.Closing? && s.pc.upTo < |s.workers|
    case CloseDone => s.pc.Closing? && s.pc.upTo >= |s.workers|
    case JoinDone => s.pc.Joining?
  }

  predicate CanStep(s: State, step: Step) {
    match step
    case OfWorker(i, w) => WorkerCan(s, i, w)
    case OfMain(m) => MainCan(s, m)
  }

  function WorkerDoes(s: State, i: nat, w: WorkerStep): State
    requires WorkerCan(s, i, w)
  {
    match w
    case SendRegistry => s.(registrySent := true)
    case Reach =>
      s.(workers := s.workers[i := AtBarrier], reports := s.reports + [Reached(i)], called := s.called + {i})
    case SkipBarrier => s.(workers := s.workers[i := Looping(None)])
    case Break => s.(workers := s.workers[i := Quitting], reports := s.reports + [Failing(i)])
    case Release(swallows) =>
      var v := s.barrier.value;
      if v == Started || swallows then
        s.(workers := s.workers[i := Looping(Some(v))], heard := s.heard[i := v])
      else
        s.(workers := s.workers[i := Quitting], heard := s.heard[i := v], reports := s.reports + [Failing(i)])
    case Exit => s.(workers := s.workers[i := Exited])
    case Stop => s.(shutdown := true)
  }

  function Take(s: State, e: Event): State
    requires s.pc.Collecting?
  {
    match e
    case Reached(i) =>
      var reached := s.pc.reached + {i};
      s.(pc := if |reached| >= |s.workers| then Fetching else Collecting(reached))
    case _ => s.(pc := Flagging(FailureOf(e)))
  }

  function MainDoes(s: State, m: MainStep): State
    requires MainCan(s, m)
  {
    match m
    case TakeReport => Take(s, s.reports[s.taken]).(taken := s.taken + 1)
    case SeeClosed => s.(pc := Flagging(ChannelClosed))
    case SeeJoined(i) => s.(pc := Flagging(WorkerFailed(i)))
    case SeeJoinFailed => s.(pc := Flagging(Unjoinable))
    case TimeOut => s.(pc := Flagging(TimedOut))
    case Fetch => s.(pc := if s.registrySent then Validating else Flagging(RegistryMissing))
    case Validate(ok) => if ok then s.(pc := Publishing, spawned := true) else s.(pc := Flagging(BadRegistry))
    case Publish => s.(pc := Running, barrier := FirstSet(s.barrier, Started))
    case RaiseFlag => s.(pc := Unblocking(s.pc.why), shutdown := true)
    case AbortBarrier => s.(pc := Closing(s.pc.why, 0), barrier := FirstSet(s.barrier, Aborted(s.pc.why)))
    case CloseNext => s.(pc := Closing(s.pc.why, s.pc.upTo + 1), closed := s.closed + {s.pc.upTo})
    case CloseDone => s.(pc := Joining(s.pc.why))
    case JoinDone => s.(pc := GaveUp(s.pc.why))
  }

  function Do(s: State, step: Step): State
    requires CanStep(s, step)
  {
    match step
    case OfWorker(i, w) => WorkerDoes(s, i, w)
    case OfMain(m) => MainDoes(s, m)
  }

  function After(n: nat, run: Log<Step>): Option<State> {
    match run
    case Empty => Some(Initial(n))
    case Then(before, step) =>
      match After(n, before)
      case None => None
      case Some(s) => if CanStep(s, step) then Some(Do(s, step)) else None
  }

  // ----------------------------------------------------------------------- invariants

  /** Reports are honest. */
  ghost predicate Honest(s: State) {
    && |s.workers| > 0
    && (forall i <- s.called :: i < |s.workers|)
    && (forall k :: 0 <= k < |s.reports| && s.reports[k].Reached? ==> s.reports[k].worker in s.called)
    && (s.pc.Collecting? ==> s.pc.reached <= s.called)
    && (0 in s.called ==> s.registrySent)
  }

  predicate PastCollecting(pc: Pc) {
    pc == Fetching || pc == Validating || pc == Publishing || pc == Running || pc == Flagging(BadRegistry)
  }

  /** The orchestrator itself has raised the shutdown flag. */
  predicate FlagRaised(pc: Pc) {
    pc.Unblocking? || pc.Closing? || pc.Joining? || pc.GaveUp?
  }

  predicate HeldAt(s: State, i: nat) {
    s.barrier == None && i in s.called ==> i < |s.workers| && s.workers[i] == AtBarrier
  }

  /** Until there is a verdict, whoever called connect_all is blocked at the barrier. */
  ghost predicate Held(s: State) {
    forall i: nat :: HeldAt(s, i)
  }

  /** The verdict, the bots and the flag follow the orchestrator's place. */
  predicate VerdictFits(s: State) {
    && (s.spawned <==> s.pc == Publishing || s.pc == Running)
    && (s.barrier == None <==> !(s.pc == Running || s.pc.Closing? || s.pc.Joining? || s.pc.GaveUp?))
    && (s.pc == Running ==> s.barrier == Some(Started))
    && (s.pc.Closing? || s.pc.Joining? || s.pc.GaveUp? ==> s.barrier == Some(Aborted(s.pc.why)))
    && (FlagRaised(s.pc) ==> s.shutdown)
  }

  /** Queues are closed one after the other. */
  ghost predicate ClosedSoFar(s: State) {
    && (s.pc.Closing? ==> s.pc.upTo <= |s.workers| && forall i :: 0 <= i < s.pc.upTo ==> i in s.closed)
    && (s.pc.Joining? || s.pc.GaveUp? ==> forall i :: 0 <= i < |s.workers| ==> i in s.closed)
  }

  /** Past the collecting, everyone has called; and no failure is a missing registry. */
  ghost predicate Gathered(s: State) {
    && (PastCollecting(s.pc) ==> forall i :: 0 <= i < |s.workers| ==> i in s.called)
    && (s.pc.Flagging? || FlagRaised(s.pc) ==> s.pc.why != RegistryMissing)
  }

  /** Where the orchestrator is determines who called, what exists and what is closed. */
  ghost predicate Staged(s: State) {
    Gathered(s) && VerdictFits(s) && ClosedSoFar(s)
  }

  /** Everyone who was released heard the one verdict. */
  ghost predicate Unanimous(s: State) {
    && (forall i <- s.heard :: s.barrier == Some(s.heard[i]))
    && (forall i :: 0 <= i < |s.workers| && s.workers[i].Looping? && s.workers[i].heard.Some? ==>
          s.barrier == s.workers[i].heard)
  }

  ghost predicate Inv(s: State) {
    Honest(s) && Held(s) && Staged(s) && Unanimous(s)
  }

  /** A worker leaves the orchestrator's state alone, and the other way round. */
  lemma WorkerFrame(s: State, i: nat, w: WorkerStep)
    requires WorkerCan(s, i, w)
    ensures
      var t := WorkerDoes(s, i, w);
      && t.pc == s.pc && t.taken == s.taken && t.barrier == s.barrier && t.closed == s.closed && t.spawned == s.spawned
      && |t.workers| == |s.workers| && t.called == (if w == Reach then s.called + {i} else s.called)
      && t.shutdown == (s.shutdown || w == Stop) && (s.registrySent ==> t.registrySent)
  {
  }

  lemma MainFrame(s: State, m: MainStep)
    requires MainCan(s, m)
    ensures
      var t := MainDoes(s, m);
      && t.workers == s.workers && t.reports == s.reports && t.called == s.called && t.heard == s.heard
      && t.registrySent == s.registrySent && (s.shutdown ==> t.shutdown) && (s.barrier.Some? ==> t.barrier == s.barrier)
  {
  }

  lemma HonestByWorker(s: State, i: nat, w: WorkerStep)
    requires WorkerCan(s, i, w) && Honest(s)
    ensures Honest(WorkerDoes(s, i, w))
  {
  }

  lemma HonestByMain(s: State, m: MainStep)
    requires MainCan(s, m) && Honest(s)
    ensures Honest(MainDoes(s, m))
  {
    MainFrame(s, m);
  }

  lemma HeldByWorker(s: State, i: nat, w: WorkerStep, j: nat)
    requires WorkerCan(s, i, w) && HeldAt(s, j)
    ensures HeldAt(WorkerDoes(s, i, w), j)
  {
  }

  lemma HeldByMain(s: State, m: MainStep, j: nat)
    requires MainCan(s, m) && HeldAt(s, j)
    ensures HeldAt(MainDoes(s, m), j)
  {
    MainFrame(s, m);
  }

  lemma HeldKept(s: State, step: Step)
    requires CanStep(s, step) && Held(s)
    ensures Held(Do(s, step))
  {
    forall j: nat
      ensures HeldAt(Do(s, step), j)
    {
      assert HeldAt(s, j);
      match step
      case OfWorker(i, w) => HeldByWorker(s, i, w, j);
      case OfMain(m) => HeldByMain(s, m, j);
    }
  }

  lemma StagedByWorker(s: State, i: nat, w: WorkerStep)
    requires WorkerCan(s, i, w) && Staged(s)
    ensures Staged(WorkerDoes(s, i, w))
  {
    WorkerFrame(s, i, w);
  }

  /** The report that completes the set means that everyone has called. */
  lemma GatheredTaken(s: State)
    requires MainCan(s, TakeReport) && Honest(s) && Gathered(s)
    ensures Gathered(MainDoes(s, TakeReport))
  {
    if s.reports[s.taken].Reached? {
      var reached := s.pc.reached + {s.reports[s.taken].worker};
      assert reached <= s.called;
      if |reached| >= |s.workers| {
        EnoughIsAll(reached, |s.workers|);
        assert forall i :: 0 <= i < |s.workers| ==> i in reached;
      }
    }
  }

  lemma GatheredByMain(s: State, m: MainStep)
    requires MainCan(s, m) && Honest(s) && Gathered(s)
    ensures Gathered(MainDoes(s, m))
  {
    MainFrame(s, m);
    if m == TakeReport {
      GatheredTaken(s);
    }
  }

  lemma VerdictByMain(s: State, m: MainStep)
    requires MainCan(s, m) && VerdictFits(s)
    ensures VerdictFits(MainDoes(s, m))
  {
  }

  lemma ClosedByMain(s: State, m: MainStep)
    requires MainCan(s, m) && ClosedSoFar(s)
    ensures ClosedSoFar(MainDoes(s, m))
  {
  }

  lemma UnanimousByWorker(s: State, i: nat, w: WorkerStep)
    requires WorkerCan(s, i, w) && Unanimous(s)
    ensures Unanimous(WorkerDoes(s, i, w))
  {
  }

  lemma UnanimousByMain(s: State, m: MainStep)
    requires MainCan(s, m) && Unanimous(s)
    ensures Unanimous(MainDoes(s, m))
  {
    MainFrame(s, m);
  }

  lemma StepKeepsInv(s: State, step: Step)
    requires CanStep(s, step) && Inv(s)
    ensures Inv(Do(s, step)) && |Do(s, step).workers| == |s.workers|
  {
    HeldKept(s, step);
    match step
    case OfWorker(i, w) =>
      WorkerFrame(s, i, w);
      HonestByWorker(s, i, w);
      StagedByWorker(s, i, w);
      UnanimousByWorker(s, i, w);
    case OfMain(m) =>
      MainFrame(s, m);
      HonestByMain(s, m);
      GatheredByMain(s, m);
      VerdictByMain(s, m);
      ClosedByMain(s, m);
      UnanimousByMain(s, m);
  }

  lemma {:induction false} EveryRunKeepsInv(n: nat, run: Log<Step>)
    requires n > 0 && After(n, run).Some?
    ensures Inv(After(n, run).value) && |After(n, run).value.workers| == n
  {
    if run.Then? {
      EveryRunKeepsInv(n, run.before);
      StepKeepsInv(After(n, run.before).value, run.last);
    }
  }

  // ------------------------------------------------------------------- main theorems

  /** All or nothing.  When `Started` is about to be published, every one of the workers is
      blocked at the barrier; once it is published, all have called connect_all and every bot
      is spawned.  A failed startup ends with no bot spawned, the barrier aborted with that very
      failure, every queue closed and the shutdown flag up.  And the coordinator's registry is
      never missing. */
  lemma StartupIsAllOrNothing(n: nat, run: Log<Step>)
    requires n > 0 && After(n, run).Some?
    ensures |After(n, run).value.workers| == n
    ensures
      var s := After(n, run).value;
      && (s.pc == Publishing ==> s.spawned && s.barrier == None && forall i :: 0 <= i < n ==> s.workers[i] == AtBarrier)
      && (s.barrier == Some(Started) ==>
            (forall i :: 0 <= i < n ==> i in s.called) && s.spawned && s.pc == Running)
      && (s.pc.GaveUp? ==>
            && !s.spawned && s.shutdown && s.barrier == Some(Aborted(s.pc.why))
            && (forall i :: 0 <= i < n ==> i in s.closed)
            && s.pc.why != RegistryMissing)
      && (s.spawned ==> forall i :: 0 <= i < n ==> i in s.called)
      && (s.pc == Running || s.pc.GaveUp? ==> s.barrier.Some?)
  {
    EveryRunKeepsInv(n, run);
    AllHeld(After(n, run).value);
  }

  lemma AllHeld(s: State)
    requires Inv(s)
    ensures s.pc == Publishing ==> forall i :: 0 <= i < |s.workers| ==> s.workers[i] == AtBarrier
  {
    forall i | 0 <= i < |s.workers| && s.pc == Publishing
      ensures s.workers[i] == AtBarrier
    {
      assert HeldAt(s, i);
    }
  }

  predicate ScriptStopped(run: Log<Step>) {
    run.Then? && ((run.last.OfWorker? && run.last.w == Stop) || ScriptStopped(run.before))
  }

  /** The shutdown flag is up exactly when the orchestrator is aborting or some script has
      called swarm:stop; a script can do so before connect_all, and the swarm then still
      starts with the flag up. */
  lemma {:induction false} FlagIsUpExactlyWhen(n: nat, run: Log<Step>)
    requires After(n, run).Some?
    ensures After(n, run).value.shutdown <==> FlagRaised(After(n, run).value.pc) || ScriptStopped(run)
  {
    if run.Then? {
      FlagIsUpExactlyWhen(n, run.before);
      match run.last
      case OfWorker(i, w) => WorkerFrame(After(n, run.before).value, i, w);
      case OfMain(m) => FlagByMain(After(n, run.before).value, m);
    }
  }

  lemma FlagByMain(s: State, m: MainStep)
    requires MainCan(s, m)
    ensures MainDoes(s, m).shutdown <==> s.shutdown || m == RaiseFlag
    ensures FlagRaised(MainDoes(s, m).pc) <==> FlagRaised(s.pc) || m == RaiseFlag
  {
  }

  /** All released workers heard the same verdict, and it is the barrier's. */
  lemma EveryoneHearsTheSame(n: nat, run: Log<Step>, i: nat, j: nat)
    requires n > 0 && After(n, run).Some?
    requires i in After(n, run).value.heard && j in After(n, run).value.heard
    ensures After(n, run).value.heard[i] == After(n, run).value.heard[j]
    ensures After(n, run).value.barrier == Some(After(n, run).value.heard[i])
  {
    EveryRunKeepsInv(n, run);
  }

  /** Once set, the verdict never changes, whatever runs on. */
  lemma {:induction false} VerdictIsFinal(n: nat, run: Log<Step>, more: seq<Step>, v: Verdict)
    requires After(n, run).Some? && After(n, run).value.barrier == Some(v)
    ensures
      var later := After(n, Continue(run, more, |more|));
      later.Some? ==> later.value.barrier == Some(v)
  {
    VerdictKept(n, run, more, |more|, v);
  }

  function Continue(run: Log<Step>, more: seq<Step>, k: nat): Log<Step>
    requires k <= |more|
  {
    if k == 0 then run else Then(Continue(run, more, k - 1), more[k - 1])
  }

  lemma {:induction false} VerdictKept(n: nat, run: Log<Step>, more: seq<Step>, k: nat, v: Verdict)
    requires After(n, run).Some? && After(n, run).value.barrier == Some(v) && k <= |more|
    ensures
      var later := After(n, Continue(run, more, k));
      later.Some? ==> later.value.barrier == Some(v)
  {
    if k > 0 {
      VerdictKept(n, run, more, k - 1, v);
      if After(n, Continue(run, more, k - 1)).Some? && CanStep(After(n, Continue(run, more, k - 1)).value, more[k - 1]) {
        BarrierKept(After(n, Continue(run, more, k - 1)).value, more[k - 1]);
      }
    }
  }

  lemma BarrierKept(s: State, step: Step)
    requires CanStep(s, step) && s.barrier.Some?
    ensures Do(s, step).barrier == s.barrier
  {
    match step
    case OfWorker(i, w) => WorkerFrame(s, i, w);
    case OfMain(m) => MainFrame(s, m);
  }

  lemma Extend(n: nat, run: Log<Step>, s: State, step: Step) returns (run': Log<Step>, s': State)
    requires After(n, run) == Some(s) && CanStep(s, step)
    ensures run' == Then(run, step) && s' == Do(s, step) && After(n, run') == Some(s')
  {
    run', s' := Then(run, step), Do(s, step);
  }

  /** A script that calls stop and then connect_all: the swarm starts with the flag up. */
  lemma AStoppedSwarmCanStart()
    ensures exists run: Log<Step> ::
              After(1, run).Some? && After(1, run).value.barrier == Some(Started) && After(1, run).value.shutdown
  {
    var run, s := Extend(1, Empty, Initial(1), OfWorker(0, Stop));
    run, s := Extend(1, run, s, OfWorker(0, SendRegistry));
    run, s := Extend(1, run, s, OfWorker(0, Reach));
    run, s := Extend(1, run, s, OfMain(TakeReport));
    assert s.pc == Fetching;
    run, s := Extend(1, run, s, OfMain(Fetch));
    run, s := Extend(1, run, s, OfMain(Validate(true)));
    run, s := Extend(1, run, s, OfMain(Publish));
    assert After(1, run) == Some(s);
  }

  // ----------------------------------------------------------------- why a startup fails

  /** The failure that the orchestrator is dealing with. */
  function FailureAt(pc: Pc): Option<Failure> {
    if pc.Flagging? || FlagRaised(pc) then Some(pc.why) else None
  }

  /** The failure that this step of the orchestrator meets with: a failing report, a closed
      channel, a worker that ended, a timeout, or a registry that does not validate. */
  function Met(s: State, m: MainStep): Option<Failure>
    requires MainCan(s, m)
  {
    match m
    case TakeReport => if s.reports[s.taken].Failing? then Some(WorkerFailed(s.reports[s.taken].worker)) else None
    case SeeClosed => Some(ChannelClosed)
    case SeeJoined(i) => Some(WorkerFailed(i))
    case SeeJoinFailed => Some(Unjoinable)
    case TimeOut => Some(TimedOut)
    case Validate(ok) => if ok then None else Some(BadRegistry)
    case _ => None
  }

  /** The first failure of a run; later ones are not looked at. */
  function FirstFailure(n: nat, run: Log<Step>): Option<Failure> {
    match run
    case Empty => None
    case Then(before, step) =>
      if FirstFailure(n, before).Some? then FirstFailure(n, before)
      else if step.OfMain? && After(n, before).Some? && MainCan(After(n, before).value, step.m)
      then Met(After(n, before).value, step.m) else None
  }

  ghost predicate OnlyStartupReports(s: State) {
    forall k :: 0 <= k < |s.reports| ==> s.reports[k].Reached? || s.reports[k].Failing?
  }

  lemma FailureByMain(s: State, m: MainStep)
    requires MainCan(s, m) && Honest(s) && Gathered(s) && OnlyStartupReports(s)
    ensures FailureAt(s.pc).None? ==> FailureAt(MainDoes(s, m).pc) == Met(s, m)
    ensures FailureAt(s.pc).Some? ==> FailureAt(MainDoes(s, m).pc) == FailureAt(s.pc)
  {
  }

  lemma ReportsByWorkerOnly(s: State, i: nat, w: WorkerStep)
    requires WorkerCan(s, i, w) && OnlyStartupReports(s)
    ensures OnlyStartupReports(WorkerDoes(s, i, w))
  {
  }

  /** In every run the failure that ends the startup is the first one that was met with. */
  lemma {:induction false} TheFirstFailureCounts(n: nat, run: Log<Step>)
    requires n > 0 && After(n, run).Some?
    ensures FailureAt(After(n, run).value.pc) == FirstFailure(n, run)
    ensures OnlyStartupReports(After(n, run).value)
  {
    if run.Then? {
      TheFirstFailureCounts(n, run.before);
      EveryRunKeepsInv(n, run.before);
      var s := After(n, run.before).value;
      match run.last
      case OfWorker(i, w) =>
        WorkerFrame(s, i, w);
        ReportsByWorkerOnly(s, i, w);
      case OfMain(m) =>
        MainFrame(s, m);
        FailureByMain(s, m);
    }
  }

  // ---------------------------------------------------------------- how often a worker reports

  /** How many of the first `k` reports are worker `i`'s. */
  function ReportsOf(reports: seq<Event>, k: nat, i: nat): nat
    requires k <= |reports|
  {
    if k == 0 then 0
    else ReportsOf(reports, k - 1, i) + if reports[k - 1] == Reached(i) || reports[k - 1] == Failing(i) then 1 else 0
  }

  lemma {:induction false} ReportsBefore(reports: seq<Event>, e: Event, k: nat, i: nat)
    requires k <= |reports|
    ensures ReportsOf(reports + [e], k, i) == ReportsOf(reports, k, i)
  {
    if k > 0 {
      ReportsBefore(reports, e, k - 1, i);
    }
  }

  /** Worker `i` fails in this step: its script breaks, or an abort reaches it unhandled. */
  predicate FailsNow(s: State, step: Step, i: nat) {
    step.OfWorker? && step.i == i &&
    (step.w == Break || (step.w == Release(false) && s.barrier.Some? && s.barrier.value != Started))
  }

  function Calls(run: Log<Step>, i: nat): nat {
    match run
    case Empty => 0
    case Then(before, step) => Calls(before, i) + if step == OfWorker(i, Reach) then 1 else 0
  }

  function Failures(n: nat, run: Log<Step>, i: nat): nat {
    match run
    case Empty => 0
    case Then(before, step) =>
      Failures(n, before, i) + if After(n, before).Some? && FailsNow(After(n, before).value, step, i) then 1 else 0
  }

  lemma ReportsByWorker(s: State, j: nat, w: WorkerStep, i: nat)
    requires WorkerCan(s, j, w)
    ensures
      var t := WorkerDoes(s, j, w);
      ReportsOf(t.reports, |t.reports|, i) == ReportsOf(s.reports, |s.reports|, i)
        + (if i == j && w == Reach then 1 else 0) + (if FailsNow(s, OfWorker(j, w), i) then 1 else 0)
  {
    ReportsBefore(s.reports, Reached(j), |s.reports|, i);
    ReportsBefore(s.reports, Failing(j), |s.reports|, i);
  }

  /** A worker that has failed is on its way out and fails no second time. */
  lemma GoneByWorker(s: State, j: nat, w: WorkerStep, i: nat)
    requires WorkerCan(s, j, w) && i < |s.workers|
    ensures FailsNow(s, OfWorker(j, w), i) ==> !Gone(s.workers[i]) && Gone(WorkerDoes(s, j, w).workers[i])
    ensures Gone(s.workers[i]) ==> Gone(WorkerDoes(s, j, w).workers[i])
  {
  }

  predicate Gone(w: Worker) {
    w == Quitting || w == Exited
  }

  /** In every run a worker sends one report for each call of connect_all and one more if it
      fails, which it does at most once.  So it sends exactly one if it calls once and never
      fails, or fails without having called. */
  lemma {:induction false} ReportsCounted(n: nat, run: Log<Step>, i: nat)
    requires n > 0 && After(n, run).Some? && i < n
    ensures |After(n, run).value.workers| == n
    ensures
      var s := After(n, run).value;
      && ReportsOf(s.reports, |s.reports|, i) == Calls(run, i) + Failures(n, run, i)
      && Failures(n, run, i) <= 1
      && (Failures(n, run, i) == 1 ==> Gone(s.workers[i]))
      && (ReportsOf(s.reports, |s.reports|, i) == 1 <==>
            (Calls(run, i) == 1 && Failures(n, run, i) == 0) || (Calls(run, i) == 0 && Failures(n, run, i) == 1))
  {
    EveryRunKeepsInv(n, run);
    if run.Then? {
      ReportsCounted(n, run.before, i);
      var s := After(n, run.before).value;
      match run.last
      case OfWorker(j, w) =>
        ReportsByWorker(s, j, w, i);
        GoneByWorker(s, j, w, i);
      case OfMain(m) => MainFrame(s, m);
    }
  }

  /** A worker that reaches the barrier and does not handle the abort reports twice. */
  lemma AWorkerCanReportTwice()
    ensures exists run: Log<Step> :: After(1, run).Some? && After(1, run).value.reports == [Reached(0), Failing(0)]
  {
    var run, s := Extend(1, Empty, Initial(1), OfWorker(0, SendRegistry));
    run, s := Extend(1, run, s, OfWorker(0, Reach));
    run, s := Extend(1, run, s, OfMain(TimeOut));
    run, s := Extend(1, run, s, OfMain(RaiseFlag));
    run, s := Extend(1, run, s, OfMain(AbortBarrier));
    run, s := Extend(1, run, s, OfWorker(0, Release(false)));
    assert After(1, run) == Some(s);
  }
}
