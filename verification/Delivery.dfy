/** The delivery pipeline of a whole swarm: workers, action tasks that announce their
    results, other producers, time, and shutdown, in every interleaving.

    Two facts hold in every reachable state.  The news about a completed action is in
    exactly one place at each worker concerned.  And every registered callback is pending,
    settled exactly once, or was evicted by a registration into a full registry; when the
    worker has returned, none is pending, and when it broke, those pending stay unheard. */
module Delivery {
  import opened Basics
  import opened Queues
  import opened Events
  import opened Inboxes
  import opened Callbacks
  import opened Workers

  datatype Config = Config(workers: nat, cap: Capacity, timeout: nat)

  /** A task pushing parcels one after the other. */
  datatype Task = Task(parcels: seq<Parcel>, at: nat, phase: PushPhase)

  datatype System = System(
    workers: seq<Worker>,
    origin: map<nat, nat>,              // request -> worker that issued it
    bot: map<nat, nat>,                 // request -> bot it acts on
    outcomes: map<nat, ActionOutcome>,  // request -> outcome, once complete
    tasks: map<nat, Task>,              // request -> task announcing the outcome
    noise: map<nat, Task>,              // other producers: bot events, timers, messages
    nextRequest: nat, now: nat, shutdown: bool)

  datatype Step =
    | WorkerMove(i: nat, m: Move)
    | Issue(i: nat, bot: nat, wantsCallback: bool)
    | Complete(r: nat, outcome: ActionOutcome)
    | PushStep(r: nat)
    | StartNoise(k: nat, parcels: seq<Parcel>)
    | NoiseStep(k: nat)
    | Tick
    | BeginShutdown
    | CloseQueue(i: nat)

  function Start(c: Config): System {
    System(seq(c.workers, _ => FRESH), map[], map[], map[], map[], map[], 1, 0, false)
  }

  function EnvOf(c: Config, s: System): Env {
    Env(c.cap, c.timeout, s.now, s.shutdown)
  }

  predicate Pushing(s: System, t: Task) {
    t.at < |t.parcels| && t.parcels[t.at].target < |s.workers|
  }

  ghost predicate CanStep(c: Config, s: System, step: Step) {
    match step
    case WorkerMove(i, m) => i < |s.workers| && Enabled(s.workers[i], m, EnvOf(c, s))
    case Issue(i, _, wants) =>
      && i < |s.workers| && !Ended(s.workers[i].phase)
      && (wants ==> RunsScript(s.workers[i].phase) && s.workers[i].calling == None)
    case Complete(r, _) => r in s.origin && r in s.bot && r !in s.outcomes && |s.workers| > 0
    case PushStep(r) => r in s.tasks && Pushing(s, s.tasks[r])
    case StartNoise(k, ps) =>
      k !in s.noise && forall i :: 0 <= i < |ps| ==> Request(ps[i].item) == None && ps[i].target < |s.workers|
    case NoiseStep(k) => k in s.noise && Pushing(s, s.noise[k])
    case Tick => true
    case BeginShutdown => true
    case CloseQueue(i) => i < |s.workers| && s.shutdown
  }

  /** A pusher after one more step of its current push. */
  function NextTask(t: Task, phase: PushPhase): Task {
    if phase == Finished then t.(at := t.at + 1, phase := PushPhase.Start) else t.(phase := phase)
  }

  /** The inbox and its pusher after one more step of the current push. */
  function Pushed(s: System, t: Task, cap: Capacity): (Inbox, Task)
    requires Pushing(s, t)
  {
    var p := t.parcels[t.at];
    var (q, phase) := Advance(s.workers[p.target].inbox, p, t.phase, cap);
    (q, NextTask(t, phase))
  }

  function WithInbox(s: System, i: nat, q: Inbox): System
    requires i < |s.workers|
  {
    s.(workers := s.workers[i := s.workers[i].(inbox := q)])
  }

  function Issued(s: System, i: nat, bot: nat, wants: bool): System
    requires i < |s.workers|
  {
    var r := s.nextRequest;
    s.(origin := s.origin[r := i], bot := s.bot[r := bot], nextRequest := r + 1,
       workers := if wants then s.workers[i := s.workers[i].(calling := Some(r))] else s.workers)
  }

  function Completed(s: System, r: nat, outcome: ActionOutcome): System
    requires r in s.origin && r in s.bot && |s.workers| > 0
  {
    var result := ActionResult(r, s.bot[r], outcome);
    s.(outcomes := s.outcomes[r := outcome],
       tasks := s.tasks[r := Task(Announce(s.origin[r], result, |s.workers|), 0, PushPhase.Start)])
  }

  function TaskPushed(s: System, r: nat, cap: Capacity): System
    requires r in s.tasks && Pushing(s, s.tasks[r])
  {
    var t := s.tasks[r];
    var (q, t') := Pushed(s, t, cap);
    WithInbox(s, t.parcels[t.at].target, q).(tasks := s.tasks[r := t'])
  }

  function NoisePushed(s: System, k: nat, cap: Capacity): System
    requires k in s.noise && Pushing(s, s.noise[k])
  {
    var t := s.noise[k];
    var (q, t') := Pushed(s, t, cap);
    WithInbox(s, t.parcels[t.at].target, q).(noise := s.noise[k := t'])
  }

  function Do(c: Config, s: System, step: Step): System
    requires CanStep(c, s, step)
  {
    match step
    case WorkerMove(i, m) => s.(workers := s.workers[i := Apply(s.workers[i], m, EnvOf(c, s))])
    case Issue(i, bot, wants) => Issued(s, i, bot, wants)
    case Complete(r, outcome) => Completed(s, r, outcome)
    case PushStep(r) => TaskPushed(s, r, c.cap)
    case StartNoise(k, ps) => s.(noise := s.noise[k := Task(ps, 0, PushPhase.Start)])
    case NoiseStep(k) => NoisePushed(s, k, c.cap)
    case Tick => s.(now := s.now + 1)
    case BeginShutdown => s.(shutdown := true)
    case CloseQueue(i) => WithInbox(s, i, s.workers[i].inbox.(closed := true))
  }

  /** The state after a run, or nothing if some step of it was not possible. */
  ghost function After(c: Config, run: Log<Step>): Option<System> {
    match run
    case Empty => Some(Start(c))
    case Then(before, step) =>
      match After(c, before)
      case None => None
      case Some(s) => if CanStep(c, s, step) then Some(Do(c, s, step)) else None
  }

  // ------------------------------------------------------------- exactly one location

  /** Parcels for worker `i` from position `k` on. */
  function Left(ps: seq<Parcel>, k: nat, i: nat): nat
    decreases |ps| - k
  {
    if k >= |ps| then 0 else (if ps[k].target == i then 1 else 0) + Left(ps, k + 1, i)
  }

  /** A push holds its parcel until it is queued or its loss is recorded. */
  predicate Holding(phase: PushPhase) {
    phase != Recorded && phase != Finished
  }

  /** What a task still has to hand to worker `i`. */
  function Carries(t: Task, i: nat): nat {
    if t.at >= |t.parcels| then 0
    else (if t.parcels[t.at].target == i && Holding(t.phase) then 1 else 0) + Left(t.parcels, t.at + 1, i)
  }

  function Flying(s: System, i: nat, r: nat): nat {
    if r in s.tasks then Carries(s.tasks[r], i) else 0
  }

  /** Whether worker `i` is to hear about request `r`. */
  predicate Concerns(s: System, i: nat, r: nat) {
    && r in s.outcomes && r in s.origin && r in s.bot && |s.workers| > 0
    && (i == s.origin[r] || i == WorkerFor(s.bot[r], |s.workers|))
  }

  ghost predicate ConservedAt(c: Config, s: System, i: nat, q: nat)
    requires i < |s.workers|
  {
    Tokens(s.workers[i], c.cap, q) + Flying(s, i, q) == if Concerns(s, i, q) then 1 else 0
  }

  ghost predicate Conserved(c: Config, s: System) {
    forall i: nat, r: nat :: i < |s.workers| ==> ConservedAt(c, s, i, r)
  }

  ghost predicate Requests(s: System) {
    && |s.workers| > 0
    && s.origin.Keys == s.bot.Keys
    && s.outcomes.Keys == s.tasks.Keys <= s.origin.Keys
    && (forall r <- s.origin :: r < s.nextRequest && s.origin[r] < |s.workers|)
    && (forall r <- s.tasks ::
          s.tasks[r].parcels == Announce(s.origin[r], ActionResult(r, s.bot[r], s.outcomes[r]), |s.workers|))
    && (forall k <- s.noise, j :: 0 <= j < |s.noise[k].parcels| ==> Request(s.noise[k].parcels[j].item) == None)
  }

  predicate AtHomeOne(s: System, i: nat, w: Worker) {
    && (forall r <- w.book.registered :: r in s.origin && s.origin[r] == i)
    && (w.calling.Some? ==> w.calling.value in s.origin && s.origin[w.calling.value] == i)
  }

  /** Callbacks live at the worker that issued the action. */
  ghost predicate AtHome(s: System) {
    forall i: nat :: i < |s.workers| ==> AtHomeOne(s, i, s.workers[i])
  }

  ghost predicate WorkersOk(c: Config, s: System) {
    forall i :: 0 <= i < |s.workers| ==> Workers.Inv(s.workers[i], s.outcomes, c.timeout, s.shutdown)
  }

  ghost predicate SystemInv(c: Config, s: System) {
    Requests(s) && AtHome(s) && WorkersOk(c, s) && Conserved(c, s)
  }

  // ------------------------------------------------------------------- single pushes

  /** One step of a push moves its parcel but neither loses nor copies it. */
  lemma PushConserves(q: Inbox, p: Parcel, phase: PushPhase, cap: Capacity, r: nat)
    ensures
      var (q', phase') := Advance(q, p, phase, cap);
      Queued(q'.history, cap.high, r) + InFailures(q'.failed, 0, r) + (if Request(p.item) == Some(r) && Holding(phase') then 1 else 0)
      == Queued(q.history, cap.high, r) + InFailures(q.failed, 0, r) + (if Request(p.item) == Some(r) && Holding(phase) then 1 else 0)
  {
    if phase == Refused && Request(p.item).Some? {
      InFailuresPush(q.failed, Failure(Request(p.item).value, ShutDown), 0, r);
    }
    if phase == Counted && Request(p.item).Some? {
      InFailuresPush(q.failed, Failure(Request(p.item).value, Overloaded), 0, r);
    }
  }

  predicate Truthful(item: WorkItem, outcomes: map<nat, ActionOutcome>) {
    match item
    case ActionDone(a) => a.requestId in outcomes && outcomes[a.requestId] == a.outcome
    case CallbackCompletion(a) => a.requestId in outcomes && outcomes[a.requestId] == a.outcome
    case _ => true
  }

  lemma PushKeepsWorker(w: Worker, p: Parcel, phase: PushPhase, cap: Capacity, outcomes: map<nat, ActionOutcome>, timeout: nat, shutdown: bool)
    requires Workers.Inv(w, outcomes, timeout, shutdown) && Truthful(p.item, outcomes)
    ensures Workers.Inv(w.(inbox := Advance(w.inbox, p, phase, cap).0), outcomes, timeout, shutdown)
  {
  }

  // --------------------------------------------------------- more outcomes, later times

  lemma {:induction false} StillGenuine(h: History<WorkItem>, o: map<nat, ActionOutcome>, o': map<nat, ActionOutcome>)
    requires AllGenuine(h, o) && forall r <- o :: r in o' && o'[r] == o[r]
    ensures AllGenuine(h, o')
  {
    if h.Then? {
      StillGenuine(h.before, o, o');
    }
  }

  lemma {:induction false} StillTold(log: Log<Entry>, o: map<nat, ActionOutcome>, o': map<nat, ActionOutcome>, timeout: nat, down: bool, down': bool)
    requires Told(log, o, timeout, down) && (down ==> down') && forall r <- o :: r in o' && o'[r] == o[r]
    ensures Told(log, o', timeout, down')
  {
    if log.Then? {
      StillTold(log.before, o, o', timeout, down, down');
    }
  }

  lemma InvMonotone(w: Worker, o: map<nat, ActionOutcome>, o': map<nat, ActionOutcome>, timeout: nat, down: bool, down': bool)
    requires Workers.Inv(w, o, timeout, down) && (down ==> down') && forall r <- o :: r in o' && o'[r] == o[r]
    ensures Workers.Inv(w, o', timeout, down')
  {
    StillGenuine(w.inbox.history, o, o');
    StillTold(w.book.log, o, o', timeout, down, down');
  }

  // ---------------------------------------------------------- every step keeps them

  lemma RequestsKept(c: Config, s: System, step: Step)
    requires Requests(s) && CanStep(c, s, step)
    ensures Requests(Do(c, s, step)) && |Do(c, s, step).workers| == |s.workers|
  {
    match step
    case Issue(i, bot, wants) => RequestIssued(c, s, i, bot, wants);
    case Complete(r, outcome) => RequestCompleted(c, s, r, outcome);
    case PushStep(r) => TaskAdvanced(c, s, r);
    case NoiseStep(k) => NoiseAdvanced(c, s, k);
    case _ => RequestsUntouched(c, s, step);
  }

  lemma RequestsUntouched(c: Config, s: System, step: Step)
    requires Requests(s) && CanStep(c, s, step)
    requires !step.Issue? && !step.Complete? && !step.PushStep? && !step.NoiseStep?
    ensures Requests(Do(c, s, step)) && |Do(c, s, step).workers| == |s.workers|
  {
  }

  lemma RequestIssued(c: Config, s: System, i: nat, bot: nat, wants: bool)
    requires Requests(s) && CanStep(c, s, Issue(i, bot, wants))
    ensures Requests(Do(c, s, Issue(i, bot, wants))) && |Do(c, s, Issue(i, bot, wants)).workers| == |s.workers|
  {
  }

  lemma RequestCompleted(c: Config, s: System, r: nat, outcome: ActionOutcome)
    requires Requests(s) && CanStep(c, s, Complete(r, outcome))
    ensures Requests(Do(c, s, Complete(r, outcome))) && |Do(c, s, Complete(r, outcome)).workers| == |s.workers|
  {
  }

  lemma TaskAdvanced(c: Config, s: System, r: nat)
    requires Requests(s) && CanStep(c, s, PushStep(r))
    ensures Requests(Do(c, s, PushStep(r))) && |Do(c, s, PushStep(r)).workers| == |s.workers|
  {
    assert Pushed(s, s.tasks[r], c.cap).1.parcels == s.tasks[r].parcels;
  }

  lemma NoiseAdvanced(c: Config, s: System, k: nat)
    requires Requests(s) && CanStep(c, s, NoiseStep(k))
    ensures Requests(Do(c, s, NoiseStep(k))) && |Do(c, s, NoiseStep(k)).workers| == |s.workers|
  {
    assert Pushed(s, s.noise[k], c.cap).1.parcels == s.noise[k].parcels;
  }

  lemma HomeMoved(s: System, i: nat, w: Worker, m: Move, env: Env)
    requires AtHomeOne(s, i, w) && Enabled(w, m, env)
    ensures AtHomeOne(s, i, Apply(w, m, env))
  {
  }

  lemma HomeKept(c: Config, s: System, step: Step, i: nat)
    requires Requests(s) && CanStep(c, s, step) && i < |s.workers| == |Do(c, s, step).workers|
    requires AtHomeOne(s, i, s.workers[i])
    ensures AtHomeOne(Do(c, s, step), i, Do(c, s, step).workers[i])
  {
    match step
    case WorkerMove(j, m) =>
      if i == j {
        HomeMoved(s, i, s.workers[i], m, EnvOf(c, s));
      }
    case Issue(j, bot, wants) =>
    case _ => OnlyInboxesChange(c, s, step, i);
  }

  /** Steps outside the workers change nothing at a worker but its inbox. */
  lemma OnlyInboxesChange(c: Config, s: System, step: Step, i: nat)
    requires CanStep(c, s, step) && !step.WorkerMove? && !step.Issue? && i < |s.workers|
    ensures
      var t := Do(c, s, step);
      && t.origin == s.origin && |t.workers| == |s.workers|
      && t.workers[i] == s.workers[i].(inbox := t.workers[i].inbox)
  {
  }

  /** The item of an announcing task reports the outcome of its own request. */
  lemma AnnouncesTruth(s: System, r: nat)
    requires Requests(s) && r in s.tasks && s.tasks[r].at < |s.tasks[r].parcels|
    ensures
      var item := s.tasks[r].parcels[s.tasks[r].at].item;
      Request(item) == Some(r) && Truthful(item, s.outcomes)
  {
  }

  lemma WorkerKept(c: Config, s: System, step: Step, i: nat)
    requires Requests(s) && CanStep(c, s, step) && i < |s.workers| == |Do(c, s, step).workers|
    requires Workers.Inv(s.workers[i], s.outcomes, c.timeout, s.shutdown)
    requires step.Issue? ==>
               s.nextRequest !in s.workers[i].book.registered && Seen(s.workers[i].handled, s.nextRequest) == 0
    ensures Workers.Inv(Do(c, s, step).workers[i], Do(c, s, step).outcomes, c.timeout, Do(c, s, step).shutdown)
  {
    match step
    case WorkerMove(j, m) => WorkerMoved(c, s, j, m, i);
    case PushStep(r) =>
      AnnouncesTruth(s, r);
      PushedWorker(c, s, s.tasks[r], i);
    case NoiseStep(k) => PushedWorker(c, s, s.noise[k], i);
    case Complete(r, outcome) =>
      InvMonotone(s.workers[i], s.outcomes, s.outcomes[r := outcome], c.timeout, s.shutdown, s.shutdown);
    case BeginShutdown => InvMonotone(s.workers[i], s.outcomes, s.outcomes, c.timeout, s.shutdown, true);
    case Issue(j, bot, wants) => WorkerIssued(c, s, j, bot, wants, i);
    case CloseQueue(j) => WorkerClosed(c, s, j, i);
    case _ =>
  }

  lemma WorkerMoved(c: Config, s: System, j: nat, m: Move, i: nat)
    requires CanStep(c, s, WorkerMove(j, m)) && i < |s.workers|
    requires Workers.Inv(s.workers[i], s.outcomes, c.timeout, s.shutdown)
    ensures Workers.Inv(Do(c, s, WorkerMove(j, m)).workers[i], s.outcomes, c.timeout, s.shutdown)
  {
    if i == j {
      MoveKeepsInv(s.workers[i], m, EnvOf(c, s), s.outcomes);
    }
  }

  lemma WorkerIssued(c: Config, s: System, j: nat, bot: nat, wants: bool, i: nat)
    requires CanStep(c, s, Issue(j, bot, wants)) && i < |s.workers|
    requires Workers.Inv(s.workers[i], s.outcomes, c.timeout, s.shutdown)
    requires s.nextRequest !in s.workers[i].book.registered && Seen(s.workers[i].handled, s.nextRequest) == 0
    ensures Workers.Inv(Do(c, s, Issue(j, bot, wants)).workers[i], s.outcomes, c.timeout, s.shutdown)
  {
    Called(s.workers[i], s.nextRequest, s.outcomes, c.timeout, s.shutdown);
  }

  lemma WorkerClosed(c: Config, s: System, j: nat, i: nat)
    requires CanStep(c, s, CloseQueue(j)) && i < |s.workers|
    requires Workers.Inv(s.workers[i], s.outcomes, c.timeout, s.shutdown)
    ensures Workers.Inv(Do(c, s, CloseQueue(j)).workers[i], s.outcomes, c.timeout, s.shutdown)
  {
    ClosedKept(s.workers[i], s.outcomes, c.timeout);
  }

  lemma PushedWorker(c: Config, s: System, t: Task, i: nat)
    requires Pushing(s, t) && i < |s.workers| && Truthful(t.parcels[t.at].item, s.outcomes)
    requires Workers.Inv(s.workers[i], s.outcomes, c.timeout, s.shutdown)
    ensures Workers.Inv(WithInbox(s, t.parcels[t.at].target, Pushed(s, t, c.cap).0).workers[i], s.outcomes, c.timeout, s.shutdown)
  {
    if t.parcels[t.at].target == i {
      PushKeepsWorker(s.workers[i], t.parcels[t.at], t.phase, c.cap, s.outcomes, c.timeout, s.shutdown);
    }
  }

  lemma Called(w: Worker, r: nat, outcomes: map<nat, ActionOutcome>, timeout: nat, shutdown: bool)
    requires Workers.Inv(w, outcomes, timeout, shutdown)
    requires r !in w.book.registered && Seen(w.handled, r) == 0
    ensures RunsScript(w.phase) ==> Workers.Inv(w.(calling := Some(r)), outcomes, timeout, shutdown)
  {
  }

  lemma ClosedKept(w: Worker, outcomes: map<nat, ActionOutcome>, timeout: nat)
    requires Workers.Inv(w, outcomes, timeout, true)
    ensures Workers.Inv(w.(inbox := w.inbox.(closed := true)), outcomes, timeout, true)
  {
  }

  /** A fresh announcing task carries one parcel for each worker concerned. */
  lemma AnnounceCarries(origin: nat, result: ActionResult, workers: nat, i: nat)
    requires workers > 0
    ensures Carries(Task(Announce(origin, result, workers), 0, PushPhase.Start), i) ==
            if i == origin || i == WorkerFor(result.botId, workers) then 1 else 0
  {
    var ps := Announce(origin, result, workers);
    assert Left(ps, 2, i) == 0;
    assert Left(ps, 1, i) == if |ps| == 2 && ps[1].target == i then 1 else 0;
  }

  /** What one push step does to the books of worker `i` about request `q`. */
  lemma PushedConserves(s: System, t: Task, cap: Capacity, i: nat, q: nat)
    requires Pushing(s, t) && i < |s.workers|
    ensures
      var (inbox, t') := Pushed(s, t, cap);
      var w' := WithInbox(s, t.parcels[t.at].target, inbox).workers[i];
      if Request(t.parcels[t.at].item) == Some(q)
      then Tokens(w', cap, q) + Carries(t', i) == Tokens(s.workers[i], cap, q) + Carries(t, i)
      else Tokens(w', cap, q) == Tokens(s.workers[i], cap, q)
  {
    var p := t.parcels[t.at];
    PushConserves(s.workers[p.target].inbox, p, t.phase, cap, q);
    CarriesAdvanced(t, Advance(s.workers[p.target].inbox, p, t.phase, cap).1, i);
    TokensByInbox(s.workers[i], Pushed(s, t, cap).0, cap, q);
  }

  lemma CarriesAdvanced(t: Task, phase: PushPhase, i: nat)
    requires t.at < |t.parcels|
    ensures
      var here := if t.parcels[t.at].target == i then 1 else 0;
      Carries(NextTask(t, phase), i) + (if Holding(t.phase) then here else 0)
      == Carries(t, i) + (if Holding(phase) then here else 0)
  {
  }

  lemma TokensByInbox(w: Worker, q: Inbox, cap: Capacity, r: nat)
    ensures Tokens(w.(inbox := q), cap, r) + Queued(w.inbox.history, cap.high, r) + InFailures(w.inbox.failed, 0, r)
            == Tokens(w, cap, r) + Queued(q.history, cap.high, r) + InFailures(q.failed, 0, r)
  {
  }

  lemma CompleteConserves(c: Config, s: System, r: nat, outcome: ActionOutcome, i: nat)
    requires Requests(s) && CanStep(c, s, Complete(r, outcome)) && i < |s.workers|
    requires ConservedAt(c, s, i, r)
    ensures ConservedAt(c, Do(c, s, Complete(r, outcome)), i, r)
  {
    AnnounceCarries(s.origin[r], ActionResult(r, s.bot[r], outcome), |s.workers|, i);
  }

  lemma PushStepConserves(c: Config, s: System, r: nat, i: nat, q: nat)
    requires Requests(s) && CanStep(c, s, PushStep(r)) && i < |s.workers|
    requires ConservedAt(c, s, i, q)
    ensures ConservedAt(c, Do(c, s, PushStep(r)), i, q)
  {
    AnnouncesTruth(s, r);
    PushedConserves(s, s.tasks[r], c.cap, i, q);
  }

  lemma NoiseConserves(c: Config, s: System, k: nat, i: nat, q: nat)
    requires Requests(s) && CanStep(c, s, NoiseStep(k)) && i < |s.workers|
    requires ConservedAt(c, s, i, q)
    ensures ConservedAt(c, Do(c, s, NoiseStep(k)), i, q)
  {
    PushedConserves(s, s.noise[k], c.cap, i, q);
  }

  lemma MoveConserves(c: Config, s: System, j: nat, m: Move, i: nat, q: nat)
    requires CanStep(c, s, WorkerMove(j, m)) && i < |s.workers|
    requires Positions(s.workers[i]) && Holds(s.workers[i], s.outcomes)
    requires ConservedAt(c, s, i, q)
    ensures ConservedAt(c, Do(c, s, WorkerMove(j, m)), i, q)
  {
    if i == j {
      MoveKeepsTokens(s.workers[i], m, EnvOf(c, s), s.outcomes, q);
    }
  }

  lemma IssueConserves(c: Config, s: System, j: nat, bot: nat, wants: bool, i: nat, q: nat)
    requires Requests(s) && CanStep(c, s, Issue(j, bot, wants)) && i < |s.workers| && ConservedAt(c, s, i, q)
    ensures ConservedAt(c, Issued(s, j, bot, wants), i, q)
  {
    var t := Issued(s, j, bot, wants);
    assert t.workers[i] == s.workers[i].(calling := t.workers[i].calling);
    assert t.outcomes == s.outcomes && t.tasks == s.tasks;
  }

  lemma CloseConserves(c: Config, s: System, j: nat, i: nat, q: nat)
    requires CanStep(c, s, CloseQueue(j)) && i < |s.workers| && ConservedAt(c, s, i, q)
    ensures ConservedAt(c, Do(c, s, CloseQueue(j)), i, q)
  {
    var t := Do(c, s, CloseQueue(j));
    assert t.workers[i].inbox == s.workers[i].inbox.(closed := t.workers[i].inbox.closed);
    assert t.workers[i] == s.workers[i].(inbox := t.workers[i].inbox);
  }

  lemma QuietConserves(c: Config, s: System, step: Step, i: nat, q: nat)
    requires CanStep(c, s, step) && i < |s.workers|
    requires step.StartNoise? || step == Tick || step == BeginShutdown
    requires ConservedAt(c, s, i, q)
    ensures |Do(c, s, step).workers| == |s.workers| && ConservedAt(c, Do(c, s, step), i, q)
  {
    var t := Do(c, s, step);
    assert t.workers == s.workers && t.outcomes == s.outcomes && t.tasks == s.tasks && t.origin == s.origin && t.bot == s.bot;
  }

  lemma TokensKept(c: Config, s: System, step: Step, i: nat, q: nat)
    requires Requests(s) && CanStep(c, s, step) && i < |s.workers| == |Do(c, s, step).workers|
    requires Positions(s.workers[i]) && Holds(s.workers[i], s.outcomes)
    requires ConservedAt(c, s, i, q)
    ensures ConservedAt(c, Do(c, s, step), i, q)
  {
    match step
    case WorkerMove(j, m) => MoveConserves(c, s, j, m, i, q);
    case Complete(r, outcome) =>
      if r == q {
        CompleteConserves(c, s, r, outcome, i);
      }
    case PushStep(r) => PushStepConserves(c, s, r, i, q);
    case NoiseStep(k) => NoiseConserves(c, s, k, i, q);
    case Issue(j, bot, wants) => IssueConserves(c, s, j, bot, wants, i, q);
    case CloseQueue(j) => CloseConserves(c, s, j, i, q);
    case _ => QuietConserves(c, s, step, i, q);
  }

  lemma StepKeepsInv(c: Config, s: System, step: Step)
    requires SystemInv(c, s) && CanStep(c, s, step)
    ensures SystemInv(c, Do(c, s, step)) && |Do(c, s, step).workers| == |s.workers|
  {
    RequestsKept(c, s, step);
    forall i: nat | i < |s.workers|
      ensures AtHomeOne(Do(c, s, step), i, Do(c, s, step).workers[i])
      ensures Workers.Inv(Do(c, s, step).workers[i], Do(c, s, step).outcomes, c.timeout, Do(c, s, step).shutdown)
    {
      assert ConservedAt(c, s, i, s.nextRequest);
      HomeKept(c, s, step, i);
      WorkerKept(c, s, step, i);
    }
    forall i: nat, q: nat | i < |s.workers|
      ensures ConservedAt(c, Do(c, s, step), i, q)
    {
      assert ConservedAt(c, s, i, q);
      TokensKept(c, s, step, i, q);
    }
  }

  lemma StartHolds(c: Config)
    requires c.workers > 0
    ensures SystemInv(c, Start(c))
  {
    forall i, r: nat | 0 <= i < c.workers
      ensures Tokens(Start(c).workers[i], c.cap, r) == 0
    {
      assert InBatch([], 0, r) == 0 && InFailures([], 0, r) == 0;
    }
  }

  /** The invariant holds after every run. */
  lemma {:induction false} EveryRunKeepsInv(c: Config, run: Log<Step>)
    requires c.workers > 0 && After(c, run).Some?
    ensures SystemInv(c, After(c, run).value)
    ensures |After(c, run).value.workers| == c.workers
  {
    match run
    case Empty => StartHolds(c);
    case Then(before, step) =>
      EveryRunKeepsInv(c, before);
      StepKeepsInv(c, After(c, before).value, step);
  }

  // ------------------------------------------------------------------- main theorems

  /** No result is lost or duplicated: after every run, at each worker concerned, the news
      about a completed action is either still with the pushing task, or in the high lane,
      or in the batch being delivered, or recorded as lost, or taken as lost, or handled. */
  lemma NoResultIsLost(c: Config, run: Log<Step>, i: nat, r: nat)
    requires c.workers > 0 && After(c, run).Some? && i < c.workers
    ensures |After(c, run).value.workers| == c.workers
    ensures
      var s := After(c, run).value;
      var w := s.workers[i];
      Flying(s, i, r) + Queued(w.inbox.history, c.cap.high, r) + InBatch(w.batch, w.inBatch, r)
      + InFailures(w.inbox.failed, 0, r) + InFailures(w.taken, w.inTaken, r) + Seen(w.handled, r)
      == if Concerns(s, i, r) then 1 else 0
  {
    EveryRunKeepsInv(c, run);
    assert ConservedAt(c, After(c, run).value, i, r);
  }

  /** Every registered callback is invoked at most once, and once the worker has returned
      it has been invoked exactly once unless it was evicted.  It was told the outcome of
      its own action, that this outcome was lost, that it waited longer than the timeout,
      or that the worker shut down. */
  lemma CallbacksSettleExactlyOnce(c: Config, run: Log<Step>, i: nat)
    requires c.workers > 0 && After(c, run).Some? && i < c.workers
    ensures |After(c, run).value.workers| == c.workers
    ensures
      var s := After(c, run).value;
      var b := s.workers[i].book;
      && (forall r: nat :: Times(b.log, r) <= 1)
      && (forall r: nat :: Times(b.log, r) == 1 ==> r in b.registered && r !in b.pending && r !in b.evicted)
      && (forall r <- b.registered :: r in s.origin && s.origin[r] == i)
      && Told(b.log, s.outcomes, c.timeout, s.shutdown)
    ensures
      var w := After(c, run).value.workers[i];
      w.phase == Done ==>
        && w.book.pending == map[]
        && forall r <- w.book.registered :: Times(w.book.log, r) == if r in w.book.evicted then 0 else 1
  {
    EveryRunKeepsInv(c, run);
    var s := After(c, run).value;
    var b := s.workers[i].book;
    assert Workers.Inv(s.workers[i], s.outcomes, c.timeout, s.shutdown) && AtHomeOne(s, i, s.workers[i]);
    forall r: nat
      ensures Has(b.pending.Keys, r) + Times(b.log, r) + Has(b.evicted, r) == Has(b.registered, r)
    {
    }
  }

  /** A callback whose action has completed is never left to expire unheard: as long as it
      is pending, the news about it is still on its way to this worker. */
  lemma NewsIsOnItsWay(c: Config, run: Log<Step>, i: nat, r: nat)
    requires c.workers > 0 && After(c, run).Some? && i < c.workers
    requires |After(c, run).value.workers| == c.workers
    requires r in After(c, run).value.workers[i].book.pending && r in After(c, run).value.outcomes
    ensures
      var s := After(c, run).value;
      var w := s.workers[i];
      Flying(s, i, r) + Queued(w.inbox.history, c.cap.high, r) + InBatch(w.batch, w.inBatch, r)
      + InFailures(w.inbox.failed, 0, r) + InFailures(w.taken, w.inTaken, r) == 1
  {
    NoResultIsLost(c, run, i, r);
    EveryRunKeepsInv(c, run);
    var s := After(c, run).value;
    var b := s.workers[i].book;
    assert Workers.Inv(s.workers[i], s.outcomes, c.timeout, s.shutdown) && AtHomeOne(s, i, s.workers[i]);
    assert Has(b.pending.Keys, r) + Times(b.log, r) + Has(b.evicted, r) == Has(b.registered, r);
    assert r in b.registered;
  }

  // ------------------------------------------------------- callbacks that hear nothing

  /** A registration into a full registry at worker `i` throws out the callback of `r`. */
  predicate EvictsNow(s: System, step: Step, i: nat, r: nat) {
    && step.WorkerMove? && step.i == i && step.m.AddCallback? && step.m.victim == r
    && i < |s.workers| && |s.workers[i].book.pending| >= 4096
  }

  /** Worker `i` ends without cleanup while the callback of `r` is pending. */
  predicate BreaksNow(s: System, step: Step, i: nat, r: nat) {
    step == WorkerMove(i, Break) && i < |s.workers| && r in s.workers[i].book.pending
  }

  ghost predicate EvictedDuring(c: Config, run: Log<Step>, i: nat, r: nat) {
    match run
    case Empty => false
    case Then(before, step) =>
      EvictedDuring(c, before, i, r) || (After(c, before).Some? && EvictsNow(After(c, before).value, step, i, r))
  }

  ghost predicate PendingAtBreak(c: Config, run: Log<Step>, i: nat, r: nat) {
    match run
    case Empty => false
    case Then(before, step) =>
      PendingAtBreak(c, before, i, r) || (After(c, before).Some? && BreaksNow(After(c, before).value, step, i, r))
  }

  /** A callback is evicted exactly when a registration found the registry full and chose it. */
  lemma {:induction false} EvictionExactlyWhenFull(c: Config, run: Log<Step>, i: nat, r: nat)
    requires c.workers > 0 && After(c, run).Some? && i < c.workers
    ensures |After(c, run).value.workers| == c.workers
    ensures r in After(c, run).value.workers[i].book.evicted <==> EvictedDuring(c, run, i, r)
  {
    EveryRunKeepsInv(c, run);
    if run.Then? {
      EvictionExactlyWhenFull(c, run.before, i, r);
      EvictedAfter(c, After(c, run.before).value, run.last, i, r);
    }
  }

  lemma EvictedAfter(c: Config, s: System, step: Step, i: nat, r: nat)
    requires CanStep(c, s, step) && i < |s.workers| == |Do(c, s, step).workers|
    ensures r in Do(c, s, step).workers[i].book.evicted <==> r in s.workers[i].book.evicted || EvictsNow(s, step, i, r)
  {
    if step.WorkerMove? && step.i == i {
      EvictedMoved(s.workers[i], step.m, EnvOf(c, s));
    } else if !step.WorkerMove? && !step.Issue? {
      OnlyInboxesChange(c, s, step, i);
    }
  }

  lemma EvictedMoved(w: Worker, m: Move, env: Env)
    requires Enabled(w, m, env)
    ensures Apply(w, m, env).book.evicted ==
            if m.AddCallback? && |w.book.pending| >= MAX_PENDING_CALLBACKS then w.book.evicted + {m.victim} else w.book.evicted
  {
  }

  /** The callback of `r` is pending at a broken worker. */
  predicate Orphaned(w: Worker, r: nat) {
    w.phase == Broken && r in w.book.pending
  }

  lemma {:induction false} OrphanedExactlyWhen(c: Config, run: Log<Step>, i: nat, r: nat)
    requires c.workers > 0 && After(c, run).Some? && i < c.workers
    ensures |After(c, run).value.workers| == c.workers
    ensures Orphaned(After(c, run).value.workers[i], r) <==> PendingAtBreak(c, run, i, r)
  {
    EveryRunKeepsInv(c, run);
    if run.Then? {
      OrphanedExactlyWhen(c, run.before, i, r);
      var s := After(c, run.before).value;
      EveryRunKeepsInv(c, run.before);
      assert Workers.Inv(s.workers[i], s.outcomes, c.timeout, s.shutdown);
      OrphanedAfter(c, s, run.last, i, r);
    }
  }

  lemma OrphanedAfter(c: Config, s: System, step: Step, i: nat, r: nat)
    requires CanStep(c, s, step) && i < |s.workers| == |Do(c, s, step).workers| && Positions(s.workers[i])
    ensures Orphaned(Do(c, s, step).workers[i], r) <==> Orphaned(s.workers[i], r) || BreaksNow(s, step, i, r)
  {
    if step.WorkerMove? && step.i == i {
      OrphanedMoved(s.workers[i], step.m, EnvOf(c, s), r);
    } else if !step.WorkerMove? && !step.Issue? {
      OnlyInboxesChange(c, s, step, i);
    }
  }

  lemma OrphanedMoved(w: Worker, m: Move, env: Env, r: nat)
    requires Enabled(w, m, env) && Positions(w)
    ensures w.phase != Broken
    ensures Orphaned(Apply(w, m, env), r) <==> m == Break && r in w.book.pending
  {
  }

  /** At a worker that has ended, a registered callback was never invoked exactly when a
      registration into a full registry threw it out, or it was pending when the worker broke. */
  lemma UnheardExactlyWhen(c: Config, run: Log<Step>, i: nat, r: nat)
    requires c.workers > 0 && After(c, run).Some? && i < c.workers
    ensures |After(c, run).value.workers| == c.workers
    ensures
      var w := After(c, run).value.workers[i];
      Ended(w.phase) && r in w.book.registered ==>
        (Times(w.book.log, r) == 0 <==> EvictedDuring(c, run, i, r) || PendingAtBreak(c, run, i, r))
  {
    EvictionExactlyWhenFull(c, run, i, r);
    OrphanedExactlyWhen(c, run, i, r);
    EveryRunKeepsInv(c, run);
    var s := After(c, run).value;
    assert Workers.Inv(s.workers[i], s.outcomes, c.timeout, s.shutdown);
    UnheardAt(s.workers[i], r);
  }

  lemma UnheardAt(w: Worker, r: nat)
    requires Balanced(w.book) && (w.phase == Done ==> w.book.pending == map[])
    ensures Ended(w.phase) && r in w.book.registered ==> (Times(w.book.log, r) == 0 <==> r in w.book.evicted || Orphaned(w, r))
  {
    var b := w.book;
    assert Has(b.pending.Keys, r) + Times(b.log, r) + Has(b.evicted, r) == Has(b.registered, r);
  }

  // --------------------------------------------------------------- results nobody drains

  /** This step puts the news about `r` into the queue of worker `i`: its push saw the queue
      open earlier, now holds the lock, and the high lane has room. */
  predicate QueuesNow(c: Config, s: System, step: Step, i: nat, r: nat) {
    && step == PushStep(r) && r in s.tasks && Pushing(s, s.tasks[r])
    && var t := s.tasks[r];
       t.parcels[t.at].target == i && t.phase == Open && !Overflows(s.workers[i].inbox, Wrap(t.parcels[t.at]), c.cap)
  }

  predicate DrainsNow(step: Step, i: nat) {
    step.WorkerMove? && step.i == i && step.m.Wait?
  }

  /** The news about `r` was queued at worker `i` after the worker's last drain. */
  ghost predicate QueuedSinceDrain(c: Config, run: Log<Step>, i: nat, r: nat) {
    match run
    case Empty => false
    case Then(before, step) =>
      && !DrainsNow(step, i)
      && (QueuedSinceDrain(c, before, i, r) || (After(c, before).Some? && QueuesNow(c, After(c, before).value, step, i, r)))
  }

  lemma QueuedMoved(w: Worker, m: Move, env: Env, outcomes: map<nat, ActionOutcome>, r: nat)
    requires Enabled(w, m, env) && Holds(w, outcomes)
    ensures Queued(Apply(w, m, env).inbox.history, env.cap.high, r) ==
            if m.Wait? then 0 else Queued(w.inbox.history, env.cap.high, r)
  {
    if m.Wait? {
      ReadyIsFaithful(w.inbox.history, env.cap, outcomes);
      assert Queued(Empty, env.cap.high, r) == 0;
    }
  }

  lemma QueuedByAdvance(q: Inbox, p: Parcel, phase: PushPhase, cap: Capacity, r: nat)
    ensures Queued(Advance(q, p, phase, cap).0.history, cap.high, r) == Queued(q.history, cap.high, r) +
            if phase == Open && Request(p.item) == Some(r) && !Overflows(q, Wrap(p), cap) then 1 else 0
  {
  }

  lemma QueuedByPush(c: Config, s: System, t: Task, i: nat, r: nat)
    requires Pushing(s, t) && i < |s.workers|
    ensures
      var p := t.parcels[t.at];
      var w' := WithInbox(s, p.target, Pushed(s, t, c.cap).0).workers[i];
      Queued(w'.inbox.history, c.cap.high, r) == Queued(s.workers[i].inbox.history, c.cap.high, r) +
        if p.target == i && t.phase == Open && Request(p.item) == Some(r) && !Overflows(s.workers[i].inbox, Wrap(p), c.cap)
        then 1 else 0
  {
    var p := t.parcels[t.at];
    QueuedByAdvance(s.workers[p.target].inbox, p, t.phase, c.cap, r);
  }

  lemma QueuedAfter(c: Config, s: System, step: Step, i: nat, r: nat)
    requires SystemInv(c, s) && CanStep(c, s, step) && i < |s.workers| == |Do(c, s, step).workers|
    ensures Queued(Do(c, s, step).workers[i].inbox.history, c.cap.high, r) ==
            if DrainsNow(step, i) then 0
            else Queued(s.workers[i].inbox.history, c.cap.high, r) + if QueuesNow(c, s, step, i, r) then 1 else 0
  {
    match step
    case WorkerMove(j, m) =>
      if i == j {
        assert Workers.Inv(s.workers[i], s.outcomes, c.timeout, s.shutdown);
        QueuedMoved(s.workers[i], m, EnvOf(c, s), s.outcomes, r);
      }
    case PushStep(q) =>
      AnnouncesTruth(s, q);
      QueuedByPush(c, s, s.tasks[q], i, r);
    case NoiseStep(k) => QueuedByPush(c, s, s.noise[k], i, r);
    case _ => HistoryUntouched(c, s, step, i);
  }

  lemma HistoryUntouched(c: Config, s: System, step: Step, i: nat)
    requires CanStep(c, s, step) && i < |s.workers| == |Do(c, s, step).workers|
    requires !step.WorkerMove? && !step.PushStep? && !step.NoiseStep?
    ensures Do(c, s, step).workers[i].inbox.history == s.workers[i].inbox.history
  {
  }

  /** What a queue holds is exactly what was pushed since the last drain. */
  lemma {:induction false} QueuedExactlyWhen(c: Config, run: Log<Step>, i: nat, r: nat)
    requires c.workers > 0 && After(c, run).Some? && i < c.workers
    ensures |After(c, run).value.workers| == c.workers
    ensures Queued(After(c, run).value.workers[i].inbox.history, c.cap.high, r) ==
            if QueuedSinceDrain(c, run, i, r) then 1 else 0
  {
    EveryRunKeepsInv(c, run);
    if run.Then? {
      var s := After(c, run.before).value;
      QueuedExactlyWhen(c, run.before, i, r);
      EveryRunKeepsInv(c, run.before);
      QueuedAfter(c, s, run.last, i, r);
      AtMostOneQueued(c, After(c, run).value, i, r);
    }
  }

  lemma AtMostOneQueued(c: Config, s: System, i: nat, r: nat)
    requires SystemInv(c, s) && i < |s.workers|
    ensures Queued(s.workers[i].inbox.history, c.cap.high, r) <= 1
  {
    assert ConservedAt(c, s, i, r);
  }

  /** `later` goes on from `run`. */
  predicate GoesOn(run: Log<Step>, later: Log<Step>) {
    later == run || (later.Then? && GoesOn(run, later.before))
  }

  /** A result is stranded at a worker that has ended exactly when its push took the lock after
      the worker's last drain; and then it stays there, however the run goes on. */
  lemma {:induction false} StrandedExactlyWhen(c: Config, run: Log<Step>, later: Log<Step>, i: nat, r: nat)
    requires c.workers > 0 && After(c, run).Some? && i < c.workers
    requires GoesOn(run, later) && After(c, later).Some?
    ensures |After(c, run).value.workers| == |After(c, later).value.workers| == c.workers
    ensures
      var w, v := After(c, run).value.workers[i], After(c, later).value.workers[i];
      Ended(w.phase) ==>
        && (Queued(w.inbox.history, c.cap.high, r) == 1 <==> QueuedSinceDrain(c, run, i, r))
        && (QueuedSinceDrain(c, run, i, r) ==> Ended(v.phase) && Queued(v.inbox.history, c.cap.high, r) == 1)
  {
    QueuedExactlyWhen(c, run, i, r);
    QueuedExactlyWhen(c, later, i, r);
    if Ended(After(c, run).value.workers[i].phase) {
      EndedStays(c, run, later, i, r);
    }
  }

  lemma {:induction false} EndedStays(c: Config, run: Log<Step>, later: Log<Step>, i: nat, r: nat)
    requires c.workers > 0 && After(c, run).Some? && i < c.workers && |After(c, run).value.workers| == c.workers
    requires GoesOn(run, later) && After(c, later).Some? && Ended(After(c, run).value.workers[i].phase)
    ensures |After(c, later).value.workers| == c.workers && Ended(After(c, later).value.workers[i].phase)
    ensures QueuedSinceDrain(c, run, i, r) ==> QueuedSinceDrain(c, later, i, r)
  {
    EveryRunKeepsInv(c, later);
    if later != run {
      EndedStays(c, run, later.before, i, r);
      var s := After(c, later.before).value;
      EveryRunKeepsInv(c, later.before);
      assert Workers.Inv(s.workers[i], s.outcomes, c.timeout, s.shutdown);
      EndedAfter(c, s, later.last, i);
    }
  }

  lemma EndedAfter(c: Config, s: System, step: Step, i: nat)
    requires CanStep(c, s, step) && i < |s.workers| == |Do(c, s, step).workers|
    requires Positions(s.workers[i]) && Ended(s.workers[i].phase)
    ensures Ended(Do(c, s, step).workers[i].phase) && !DrainsNow(step, i)
  {
    if step.WorkerMove? && step.i == i {
      EndedWorkerIsIdle(s.workers[i], step.m, EnvOf(c, s));
    } else if !step.WorkerMove? && !step.Issue? {
      OnlyInboxesChange(c, s, step, i);
    }
  }

  // ---------------------------------------------------------------- the overflow counter

  /** A push to worker `i` that has lost its item and not counted that yet. */
  predicate Stands(t: Task, i: nat) {
    t.at < |t.parcels| && t.parcels[t.at].target == i && t.phase == Overflowed
  }

  function Standing(ts: map<nat, Task>, i: nat): set<nat> {
    set k | k in ts && Stands(ts[k], i)
  }

  function Uncounted(s: System, i: nat): nat {
    |Standing(s.tasks, i)| + |Standing(s.noise, i)|
  }

  /** The counter is behind the high lane's own count by the pushes that are about to count. */
  predicate CounterOk(s: System, i: nat)
    requires i < |s.workers|
  {
    s.workers[i].inbox.dropped == s.workers[i].inbox.overflow + Uncounted(s, i)
  }

  lemma StandingUpdated(ts: map<nat, Task>, k: nat, t: Task, i: nat)
    ensures |Standing(ts[k := t], i)| ==
            |Standing(ts, i)| - (if k in ts && Stands(ts[k], i) then 1 else 0) + (if Stands(t, i) then 1 else 0)
  {
    var before, after := Standing(ts, i), Standing(ts[k := t], i);
    StandingElsewhere(ts, k, t, i);
    SameElsewhere(before, after, k);
  }

  lemma StandingElsewhere(ts: map<nat, Task>, k: nat, t: Task, i: nat)
    ensures Standing(ts, i) - {k} == Standing(ts[k := t], i) - {k}
    ensures k in Standing(ts[k := t], i) <==> Stands(t, i)
  {
    forall x
      ensures x in Standing(ts, i) - {k} <==> x in Standing(ts[k := t], i) - {k}
    {
    }
  }

  lemma SameElsewhere(s: set<nat>, t: set<nat>, k: nat)
    requires s - {k} == t - {k}
    ensures |s| - Has(s, k) == |t| - Has(t, k)
  {
    Without(s, k);
    Without(t, k);
  }

  lemma Without(s: set<nat>, k: nat)
    ensures |s| == |s - {k}| + Has(s, k)
  {
  }

  lemma CounterByAdvance(q: Inbox, p: Parcel, phase: PushPhase, cap: Capacity)
    ensures
      var (q', phase') := Advance(q, p, phase, cap);
      q'.dropped + q.overflow + (if phase == Overflowed then 1 else 0)
      == q.dropped + q'.overflow + (if phase' == Overflowed then 1 else 0)
  {
  }

  lemma CounterByPush(s: System, t: Task, cap: Capacity, i: nat)
    requires Pushing(s, t) && i < |s.workers|
    ensures
      var (inbox, t') := Pushed(s, t, cap);
      var q, q' := s.workers[i].inbox, WithInbox(s, t.parcels[t.at].target, inbox).workers[i].inbox;
      q'.dropped + q.overflow + (if Stands(t, i) then 1 else 0) == q.dropped + q'.overflow + (if Stands(t', i) then 1 else 0)
  {
    var p := t.parcels[t.at];
    CounterByAdvance(s.workers[p.target].inbox, p, t.phase, cap);
  }

  lemma CounterMoved(w: Worker, m: Move, env: Env)
    requires Enabled(w, m, env)
    ensures Apply(w, m, env).inbox.dropped == w.inbox.dropped && Apply(w, m, env).inbox.overflow == w.inbox.overflow
  {
  }

  lemma CounterAfter(c: Config, s: System, step: Step, i: nat)
    requires Requests(s) && CanStep(c, s, step) && i < |s.workers| == |Do(c, s, step).workers| && CounterOk(s, i)
    ensures CounterOk(Do(c, s, step), i)
  {
    match step
    case WorkerMove(j, m) =>
      if i == j {
        CounterMoved(s.workers[i], m, EnvOf(c, s));
      }
    case Complete(r, outcome) =>
      StandingUpdated(s.tasks, r, Do(c, s, step).tasks[r], i);
    case StartNoise(k, ps) => StandingUpdated(s.noise, k, Task(ps, 0, PushPhase.Start), i);
    case PushStep(r) =>
      CounterByPush(s, s.tasks[r], c.cap, i);
      StandingUpdated(s.tasks, r, Pushed(s, s.tasks[r], c.cap).1, i);
    case NoiseStep(k) =>
      CounterByPush(s, s.noise[k], c.cap, i);
      StandingUpdated(s.noise, k, Pushed(s, s.noise[k], c.cap).1, i);
    case _ =>
  }

  /** In every run the overflow counter of a worker and the pushes about to count together make
      up what its high lane has dropped. */
  lemma {:induction false} CounterFollowsTheLane(c: Config, run: Log<Step>, i: nat)
    requires c.workers > 0 && After(c, run).Some? && i < c.workers
    ensures |After(c, run).value.workers| == c.workers
    ensures CounterOk(After(c, run).value, i)
  {
    EveryRunKeepsInv(c, run);
    match run
    case Empty => assert Standing(map[], i) == {};
    case Then(before, step) =>
      CounterFollowsTheLane(c, before, i);
      EveryRunKeepsInv(c, before);
      CounterAfter(c, After(c, before).value, step, i);
  }

  // --------------------------------------------------------- what the state tells of the run

  /** How many actions the run issued. */
  function Issues(run: Log<Step>): nat {
    match run
    case Empty => 0
    case Then(before, step) => Issues(before) + if step.Issue? then 1 else 0
  }

  function Ticks(run: Log<Step>): nat {
    match run
    case Empty => 0
    case Then(before, step) => Ticks(before) + if step.Tick? then 1 else 0
  }

  predicate Begun(run: Log<Step>) {
    run.Then? && (run.last.BeginShutdown? || Begun(run.before))
  }

  /** Worker and bot of the `r`-th action of the run. */
  function IssueOf(run: Log<Step>, r: nat): Option<(nat, nat)> {
    match run
    case Empty => None
    case Then(before, step) =>
      if step.Issue? && Issues(before) + 1 == r then Some((step.i, step.bot)) else IssueOf(before, r)
  }

  /** With which outcome the run completed action `r`. */
  function OutcomeOf(run: Log<Step>, r: nat): Option<ActionOutcome> {
    match run
    case Empty => None
    case Then(before, step) => if step.Complete? && step.r == r then Some(step.outcome) else OutcomeOf(before, r)
  }

  function Lookup<V>(m: map<nat, V>, r: nat): Option<V> {
    if r in m then Some(m[r]) else None
  }

  /** Actions are numbered 1, 2, 3 as they are issued, belong to the worker and the bot they
      were issued for, and have the outcome they completed with; the time is the number of
      ticks, and the shutdown flag is up exactly when the shutdown has begun. */
  lemma {:induction false} TheStateFollowsTheRun(c: Config, run: Log<Step>, r: nat)
    requires After(c, run).Some?
    ensures
      var s := After(c, run).value;
      && s.nextRequest == Issues(run) + 1 && s.now == Ticks(run) && s.shutdown == Begun(run)
      && Lookup(s.origin, r) == (match IssueOf(run, r) case None => None case Some(b) => Some(b.0))
      && Lookup(s.bot, r) == (match IssueOf(run, r) case None => None case Some(b) => Some(b.1))
      && Lookup(s.outcomes, r) == OutcomeOf(run, r)
  {
    if run.Then? {
      TheStateFollowsTheRun(c, run.before, r);
      StateAfter(c, After(c, run.before).value, run.last, r);
    }
  }

  lemma StateAfter(c: Config, s: System, step: Step, r: nat)
    requires CanStep(c, s, step)
    ensures
      var t := Do(c, s, step);
      && t.nextRequest == s.nextRequest + (if step.Issue? then 1 else 0)
      && t.now == s.now + (if step.Tick? then 1 else 0)
      && t.shutdown == (s.shutdown || step.BeginShutdown?)
      && Lookup(t.origin, r) == (if step.Issue? && r == s.nextRequest then Some(step.i) else Lookup(s.origin, r))
      && Lookup(t.bot, r) == (if step.Issue? && r == s.nextRequest then Some(step.bot) else Lookup(s.bot, r))
      && Lookup(t.outcomes, r) == (if step.Complete? && step.r == r then Some(step.outcome) else Lookup(s.outcomes, r))
  {
  }

  // ------------------------------------------------------------------ witness runs

  /** One more step of a run whose state is known. */
  lemma Extend(c: Config, run: Log<Step>, s: System, step: Step)
    requires After(c, run) == Some(s) && CanStep(c, s, step)
    ensures After(c, Then(run, step)) == Some(Do(c, s, step))
  {
  }

  /** A worker that has ended makes no further move. */
  lemma EndedWorkerIsIdle(w: Worker, m: Move, env: Env)
    requires Ended(w.phase) && w.calling == None
    ensures !Enabled(w, m, env)
  {
  }

  /** A pusher that saw the queue open can be overtaken by the whole shutdown: its result
      is then accepted into a closed queue that nobody will drain again. */
  lemma AResultCanBeStranded()
    ensures exists c: Config, run: Log<Step> ::
              && c.workers == 1 && After(c, run).Some? && |After(c, run).value.workers| == 1
              && var w := After(c, run).value.workers[0];
                 w.phase == Done && w.calling == None && w.inbox.closed && Queued(w.inbox.history, c.cap.high, 1) == 1
  {
    var c := Config(1, Capacity(1, 1), 0);
    var s, run := ResultAboutToBeQueued(c);
    var p := s.tasks[1].parcels[0];
    s, run := ShutDownIdleWorker(c, run, s);
    Extend(c, run, s, PushStep(1));
    var s' := Do(c, s, PushStep(1));
    assert Lane<WorkItem>(Empty, High) == [];
    assert s'.workers[0].inbox.history == Then(Empty, Wrap(p));
    assert Queued(Then(Empty, Wrap(p)), 1, 1) == 1;
    assert After(c, Then(run, PushStep(1))) == Some(s');
  }

  /** Request 1 has completed, its push has seen the queue open, and shutdown begins. */
  lemma ResultAboutToBeQueued(c: Config) returns (s: System, run: Log<Step>)
    requires c.workers == 1
    ensures After(c, run) == Some(s) && s.workers == [FRESH] && s.shutdown && 1 in s.tasks
    ensures s.tasks[1] == Task([Parcel(0, 0, ActionDone(ActionResult(1, 0, DeliveredSent)), 0)], 0, Open)
  {
    s, run := Start(c), Empty;
    Extend(c, run, s, Issue(0, 0, false));
    s, run := Do(c, s, Issue(0, 0, false)), Then(run, Issue(0, 0, false));
    Extend(c, run, s, Complete(1, DeliveredSent));
    s, run := Do(c, s, Complete(1, DeliveredSent)), Then(run, Complete(1, DeliveredSent));
    Extend(c, run, s, PushStep(1));
    s, run := Do(c, s, PushStep(1)), Then(run, PushStep(1));
    Extend(c, run, s, BeginShutdown);
    s, run := Do(c, s, BeginShutdown), Then(run, BeginShutdown);
  }

  /** The only worker, with nothing to do, runs through its loop once and returns. */
  lemma ShutDownIdleWorker(c: Config, run: Log<Step>, s: System) returns (s': System, run': Log<Step>)
    requires After(c, run) == Some(s) && s.workers == [FRESH] && s.shutdown
    ensures After(c, run') == Some(s')
    ensures s' == s.(workers := s'.workers) && |s'.workers| == 1
    ensures s'.workers[0].phase == Done && s'.workers[0].calling == None
    ensures s'.workers[0].inbox == FRESH.inbox.(closed := true)
  {
    s', run' := s, run;
    var w := FRESH;
    assert Ready<WorkItem>(Empty, c.cap.high, c.cap.low) == [];
    s', run', w := Made(c, run', s', w, EnterLoop);
    s', run', w := Made(c, run', s', w, LoopHead);
    s', run', w := Made(c, run', s', w, Wait(true));
    s', run', w := Made(c, run', s', w, Decide([]));
    s', run', w := Made(c, run', s', w, Finish);
  }

  /** A move of the only worker. */
  lemma Made(c: Config, run: Log<Step>, s: System, w: Worker, m: Move) returns (s': System, run': Log<Step>, w': Worker)
    requires After(c, run) == Some(s) && s.workers == [w] && Enabled(w, m, EnvOf(c, s))
    ensures After(c, run') == Some(s') && s' == s.(workers := [w']) && w' == Apply(w, m, EnvOf(c, s))
  {
    w' := Apply(w, m, EnvOf(c, s));
    s' := Do(c, s, WorkerMove(0, m));
    run' := Then(run, WorkerMove(0, m));
    Extend(c, run, s, WorkerMove(0, m));
  }

  /** `n` actions with callbacks issued at time 0 by the script of the only worker. */
  ghost predicate Filled(s: System, n: nat) {
    && |s.workers| == 1 && s.now == 0 && s.nextRequest == n + 1
    && var w := s.workers[0];
       && w.phase == Script && w.calling == None && w.book.evicted == {} && w.book.log == Empty
       && |w.book.pending| == n
       && (forall r :: r in w.book.pending <==> 1 <= r <= n)
       && (forall r <- w.book.pending :: w.book.pending[r].registeredAt == 0)
  }

  lemma CallOnce(c: Config, run: Log<Step>, s: System, victim: nat) returns (s': System, run': Log<Step>)
    requires After(c, run) == Some(s) && |s.workers| == 1 && s.workers[0].phase == Script && s.workers[0].calling == None
    requires |s.workers[0].book.pending| >= MAX_PENDING_CALLBACKS ==> Oldest(s.workers[0].book, victim)
    ensures After(c, run') == Some(s') && |s'.workers| == 1 && s'.now == s.now && s'.nextRequest == s.nextRequest + 1
    ensures s'.workers[0] == s.workers[0].(book := Register(s.workers[0].book, s.nextRequest, Callback(0, s.now), victim))
  {
    var s1 := Do(c, s, Issue(0, 0, true));
    Extend(c, run, s, Issue(0, 0, true));
    var m := AddCallback(0, victim);
    s' := Do(c, s1, WorkerMove(0, m));
    Extend(c, Then(run, Issue(0, 0, true)), s1, WorkerMove(0, m));
    run' := Then(Then(run, Issue(0, 0, true)), WorkerMove(0, m));
  }

  lemma {:induction false} FillUp(c: Config, n: nat) returns (s: System, run: Log<Step>)
    requires c.workers == 1 && n <= MAX_PENDING_CALLBACKS
    ensures After(c, run) == Some(s) && Filled(s, n)
  {
    if n == 0 {
      s, run := Start(c), Empty;
    } else {
      s, run := FillUp(c, n - 1);
      FilledOnce(s.workers[0].book, n, Callback(0, 0));
      s, run := CallOnce(c, run, s, 0);
    }
  }

  lemma FilledOnce(b: Book, n: nat, cb: Callback)
    requires 0 < n <= MAX_PENDING_CALLBACKS && |b.pending| == n - 1 && forall r :: r in b.pending <==> 1 <= r <= n - 1
    ensures
      var a := Register(b, n, cb, 0);
      && a == b.(pending := b.pending[n := cb], registered := b.registered + {n})
      && |a.pending| == n && forall r :: r in a.pending <==> 1 <= r <= n
  {
    assert |b.pending[n := cb]| == |b.pending| + 1;
  }

  /** With the registry full, one more registration silences the oldest callback: it is
      neither pending nor was it ever invoked. */
  lemma ACallbackCanBeSilenced(c: Config)
    requires c.workers == 1
    ensures exists run: Log<Step> ::
              && After(c, run).Some? && |After(c, run).value.workers| == 1
              && var b := After(c, run).value.workers[0].book;
                 1 in b.registered && 1 !in b.pending && Times(b.log, 1) == 0
  {
    var s, run := FillUp(c, MAX_PENDING_CALLBACKS);
    EveryRunKeepsInv(c, run);
    assert Workers.Inv(s.workers[0], s.outcomes, c.timeout, s.shutdown);
    var b := s.workers[0].book;
    assert Has(b.pending.Keys, 1) + Times(b.log, 1) + Has(b.evicted, 1) == Has(b.registered, 1);
    var s', run' := CallOnce(c, run, s, 1);
    assert After(c, run').Some?;
  }

  /** A script that registers a callback and then fails at top level silences it, although only
      one callback was ever pending. */
  lemma AScriptErrorSilencesCallbacks(c: Config)
    requires c.workers == 1
    ensures exists run: Log<Step> ::
              && After(c, run).Some? && |After(c, run).value.workers| == 1
              && var w := After(c, run).value.workers[0];
                 w.phase == Broken && 1 in w.book.registered && w.book.evicted == {} && Times(w.book.log, 1) == 0
  {
    var s, run := CallOnce(c, Empty, Start(c), 0);
    var step := WorkerMove(0, Break);
    Extend(c, run, s, step);
    assert After(c, Then(run, step)) == Some(Do(c, s, step));
  }
}
