/** The connection supervisor and the callers that send it commands, in every interleaving.

    The supervisor's loop is split at every point where a caller can observe or influence
    it.  A call to send a command is split where other threads can get between its reads:
    the status read, the read of the session generation that becomes the command's stamp,
    and the attempt to enqueue. */
module Supervision {
  import opened Basics
  import opened Backoff

  const COMMAND_CHANNEL_CAPACITY: nat := 64

  datatype Status = Disconnected | Connecting | Connected | ReconnectScheduled(attempt: nat) | Stopped

  datatype ControlError = InvalidAction | QueueFull | NotConnected | SessionReplaced | Severed | SupervisorStopped

  datatype Reply = Ok | Err(error: ControlError)

  /** Why `run` returned; a failure is the one that was not retried any more. */
  datatype Outcome = Cancelled | GaveUp(cause: RetryClass) | NotRetried(cause: RetryClass)

  /** What follows a loop that rejects everything queued. */
  datatype Next = ToConnect | ToFailure(cause: RetryClass) | ToReturn(outcome: Outcome)

  datatype Pc =
    | Top
    | Rejecting(error: ControlError, next: Next)
    | Dialing
    | Bumping
    | Announcing
    | InSession
    | Ended(cause: RetryClass)
    | Failing(cause: RetryClass)
    | Waiting
    | Leaving(outcome: Outcome)
    | Returned(outcome: Outcome)

  /** `wanted` is the generation an inventory request was made for; `seen` is the
      generation that was current when the caller saw the status `Connected`. */
  datatype Command = Command(id: nat, stamp: nat, seen: nat, wanted: Option<nat>)

  datatype Caller =
    | Calling(valid: bool, wanted: Option<nat>)
    | SawConnected(seen: nat, wanted: Option<nat>)
    | Stamped(command: Command)
    | Enqueued
    | Refused(error: ControlError)

  datatype Answer = Answer(id: nat, reply: Reply)

  datatype Forward = Forward(command: Command, session: nat)

  /** A scheduled retry: its number, and how often the counter had been reset by then. */
  datatype Attempt = Attempt(number: nat, resets: nat)

  /** `sent[..head]` has been received, `sent[head..]` is queued. */
  datatype State = State(
    pc: Pc, status: Status, generation: nat, attempt: nat, cancelled: bool,
    sent: seq<Command>, head: nat,
    callers: map<nat, Caller>,
    answers: Log<Answer>, forwarded: Log<Forward>,
    sessions: Log<nat>, scheduled: Log<Attempt>, resets: nat)

  const INITIAL := State(Top, Disconnected, 0, 0, false, [], 0, map[], Empty, Empty, Empty, Empty, 0)

  datatype LoopStep =
    | Begin                                      // top of the loop
    | RejectOne | RejectDone                     // reject_queued_commands
    | DialOk | DialFails(cause: RetryClass)
    | Bump | Announce                            // publish the generation, then the status
    | Receive(delivered: bool)                   // a select! branch takes a command
    | SessionEnds(cause: RetryClass, stable: bool)
    | Disconnect                                 // publish the end of the session
    | Fail                                       // handle_failure
    | Wake                                       // the backoff sleep is over
    | HonourCancel                               // a select! branch sees the cancellation
    | Return                                     // run returns, the receiver is dropped

  datatype CallerStep =
    | Call(id: nat, valid: bool, wanted: Option<nat>)
    | ReadStatus(id: nat)
    | ReadGeneration(id: nat)
    | TrySend(id: nat)

  datatype Step = ByLoop(l: LoopStep) | ByCaller(c: CallerStep) | Cancel

  predicate LoopCan(s: State, l: LoopStep) {
    match l
    case Begin => s.pc == Top
    case RejectOne => s.pc.Rejecting? && s.head < |s.sent|
    case RejectDone => s.pc.Rejecting? && s.head >= |s.sent|
    case DialOk => s.pc == Dialing
    case DialFails(_) => s.pc == Dialing
    case Bump => s.pc == Bumping
    case Announce => s.pc == Announcing
    case Receive(_) => (s.pc == Dialing || s.pc == InSession || s.pc == Waiting) && s.head < |s.sent|
    case SessionEnds(_, _) => s.pc == InSession
    case Disconnect => s.pc.Ended?
    case Fail => s.pc.Failing?
    case Wake => s.pc == Waiting
    case HonourCancel => s.cancelled && (s.pc == Dialing || s.pc == InSession || s.pc == Waiting)
    case Return => s.pc.Leaving?
  }

  predicate CallerCan(s: State, c: CallerStep) {
    match c
    case Call(id, _, _) => id !in s.callers
    case ReadStatus(id) => id in s.callers && s.callers[id].Calling?
    case ReadGeneration(id) => id in s.callers && s.callers[id].SawConnected?
    case TrySend(id) => id in s.callers && s.callers[id].Stamped?
  }

  predicate CanStep(s: State, step: Step) {
    match step
    case ByLoop(l) => LoopCan(s, l)
    case ByCaller(c) => CallerCan(s, c)
    case Cancel => true
  }

  function Stopping(s: State, outcome: Outcome): State {
    s.(status := Stopped, pc := Rejecting(SupervisorStopped, ToReturn(outcome)))
  }

  function AnswerNext(s: State, reply: Reply): State
    requires s.head < |s.sent|
  {
    s.(head := s.head + 1, answers := Then(s.answers, Answer(s.sent[s.head].id, reply)))
  }

  /** A dropped receiver drops the queued commands, and each dropped reply channel tells
      its caller that the supervisor stopped. */
  function Abandon(answers: Log<Answer>, sent: seq<Command>, k: nat): Log<Answer>
    decreases |sent| - k
  {
    if k >= |sent| then answers
    else Abandon(Then(answers, Answer(sent[k].id, Err(SupervisorStopped))), sent, k + 1)
  }

  /** handle_failure up to its sleep. */
  function Failed(p: ReconnectPolicy, s: State, cause: RetryClass): State {
    if DecisionFor(p, cause) == Stop then Stopping(s, NotRetried(cause))
    else if RetriesExhausted(p, s.attempt) then Stopping(s, GaveUp(cause))
    else s.(attempt := s.attempt + 1, status := ReconnectScheduled(s.attempt + 1),
            scheduled := Then(s.scheduled, Attempt(s.attempt + 1, s.resets)), pc := Waiting)
  }

  function Received(s: State, delivered: bool): State
    requires s.head < |s.sent|
  {
    var cmd := s.sent[s.head];
    if s.pc != InSession then AnswerNext(s, Err(NotConnected))
    else if cmd.stamp != s.generation then AnswerNext(s, Err(SessionReplaced))
    else if delivered then
      AnswerNext(s, Ok).(forwarded := Then(s.forwarded, Forward(cmd, s.generation)))
    else AnswerNext(s, Err(Severed))
  }

  function LoopDoes(p: ReconnectPolicy, s: State, l: LoopStep): State
    requires LoopCan(s, l)
  {
    match l
    case Begin => if s.cancelled then Stopping(s, Cancelled) else s.(pc := Rejecting(NotConnected, ToConnect))
    case RejectOne => AnswerNext(s, Err(s.pc.error))
    case RejectDone =>
      (match s.pc.next
       case ToConnect => s.(status := Connecting, pc := Dialing)
       case ToFailure(cause) => s.(pc := Failing(cause))
       case ToReturn(outcome) => s.(pc := Leaving(outcome)))
    case DialOk => s.(pc := Bumping)
    case DialFails(cause) => s.(pc := Failing(cause))
    case Bump =>
      s.(pc := Announcing, generation := s.generation + 1, sessions := Then(s.sessions, s.generation + 1))
    case Announce => s.(pc := InSession, status := Connected)
    case Receive(delivered) => Received(s, delivered)
    case SessionEnds(cause, stable) =>
      s.(pc := Ended(cause), attempt := if stable then 0 else s.attempt, resets := s.resets + if stable then 1 else 0)
    case Disconnect => s.(status := Disconnected, pc := Rejecting(SessionReplaced, ToFailure(s.pc.cause)))
    case Fail => Failed(p, s, s.pc.cause)
    case Wake => s.(pc := Top)
    case HonourCancel => Stopping(s, Cancelled)
    case Return =>
      s.(pc := Returned(s.pc.outcome), head := |s.sent|, answers := Abandon(s.answers, s.sent, s.head))
  }

  function CallerDoes(s: State, c: CallerStep): State
    requires CallerCan(s, c)
  {
    match c
    case Call(id, valid, wanted) => s.(callers := s.callers[id := Calling(valid, wanted)])
    case ReadStatus(id) =>
      var c := s.callers[id];
      s.(callers := s.callers[id :=
           if !c.valid then Refused(InvalidAction)
           else if s.status == Connected then SawConnected(s.generation, c.wanted)
           else if s.status == Stopped then Refused(SupervisorStopped)
           else Refused(NotConnected)])
    case ReadGeneration(id) =>
      var c := s.callers[id];
      s.(callers := s.callers[id :=
           if c.wanted.Some? && c.wanted.value != s.generation then Refused(SessionReplaced)
           else Stamped(Command(id, s.generation, c.seen, c.wanted))])
    case TrySend(id) =>
      if s.pc.Returned? then s.(callers := s.callers[id := Refused(SupervisorStopped)])
      else if |s.sent| - s.head >= COMMAND_CHANNEL_CAPACITY then s.(callers := s.callers[id := Refused(QueueFull)])
      else s.(sent := s.sent + [s.callers[id].command], callers := s.callers[id := Enqueued])
  }

  function Do(p: ReconnectPolicy, s: State, step: Step): State
    requires CanStep(s, step)
  {
    match step
    case ByLoop(l) => LoopDoes(p, s, l)
    case ByCaller(c) => CallerDoes(s, c)
    case Cancel => s.(cancelled := true)
  }

  function After(p: ReconnectPolicy, run: Log<Step>): Option<State> {
    match run
    case Empty => Some(INITIAL)
    case Then(before, step) =>
      match After(p, before)
      case None => None
      case Some(s) => if CanStep(s, step) then Some(Do(p, s, step)) else None
  }

  // ------------------------------------------------------------- counting and judging

  /** Commands of caller `id` from position `k` of `sent` on. */
  function Pending(sent: seq<Command>, k: nat, id: nat): nat
    decreases |sent| - k
  {
    if k >= |sent| then 0 else (if sent[k].id == id then 1 else 0) + Pending(sent, k + 1, id)
  }

  function Replies(log: Log<Answer>, id: nat): nat {
    match log
    case Empty => 0
    case Then(before, a) => Replies(before, id) + if a.id == id then 1 else 0
  }

  function Oks(log: Log<Answer>, id: nat): nat {
    match log
    case Empty => 0
    case Then(before, a) => Oks(before, id) + if a == Answer(id, Ok) then 1 else 0
  }

  function Forwards(log: Log<Forward>, id: nat): nat {
    match log
    case Empty => 0
    case Then(before, f) => Forwards(before, id) + if f.command.id == id then 1 else 0
  }

  /** Every command went to the session of its stamp; an inventory request went to the
      session it was made for; no command went back to an earlier session than the caller saw. */
  predicate WellForwarded(log: Log<Forward>, generation: nat) {
    match log
    case Empty => true
    case Then(before, f) =>
      && WellForwarded(before, generation)
      && f.session == f.command.stamp <= generation
      && 1 <= f.command.seen <= f.session
      && (f.command.wanted.Some? ==> f.command.wanted.value == f.session)
  }

  /** Sessions are numbered 1, 2, 3, ... */
  predicate Numbered(sessions: Log<nat>, generation: nat) {
    match sessions
    case Empty => generation == 0
    case Then(before, g) => g == generation > 0 && Numbered(before, g - 1)
  }

  /** Retries are numbered one after the other, from one again after a reset and only then. */
  predicate Ramps(scheduled: Log<Attempt>) {
    match scheduled
    case Empty => true
    case Then(before, r) =>
      && Ramps(before)
      && if before.Then? && before.last.resets == r.resets then r.number == before.last.number + 1
         else r.number == 1 && (before.Then? ==> before.last.resets < r.resets)
  }

  /** What `resets` exhausted budgets of `limit` attempts add up to. */
  function Spent(limit: nat, resets: nat): nat {
    if resets == 0 then 0 else limit + Spent(limit, resets - 1)
  }

  predicate Plausible(c: Command, generation: nat) {
    1 <= c.seen <= c.stamp <= generation && (c.wanted.Some? ==> c.wanted.value == c.stamp)
  }

  // ----------------------------------------------------------------------- invariants

  /** Which places in the loop a published status can be seen from. */
  predicate StatusFits(s: State) {
    && (match s.status
        case Disconnected =>
          || (s.generation == 0 && (s.pc == Top || s.pc == Rejecting(NotConnected, ToConnect)))
          || (s.pc.Rejecting? && s.pc.error == SessionReplaced && s.pc.next.ToFailure?)
          || s.pc.Failing?
        case Connecting => s.pc == Dialing || s.pc == Bumping || s.pc == Announcing || s.pc.Failing?
        case Connected => s.pc == InSession || s.pc.Ended?
        case ReconnectScheduled(_) => s.pc == Waiting || s.pc == Top || s.pc == Rejecting(NotConnected, ToConnect)
        case Stopped =>
          s.pc.Leaving? || s.pc.Returned? || (s.pc.Rejecting? && s.pc.error == SupervisorStopped && s.pc.next.ToReturn?))
    && (s.status == Connected || s.pc == Announcing ==> s.generation >= 1)
  }

  ghost predicate StampsFit(s: State) {
    && (forall k :: 0 <= k < |s.sent| ==> Plausible(s.sent[k], s.generation))
    && (forall id <- s.callers :: s.callers[id].SawConnected? ==> 1 <= s.callers[id].seen <= s.generation)
    && (forall id <- s.callers :: s.callers[id].Stamped? ==>
          Plausible(s.callers[id].command, s.generation) && s.callers[id].command.id == id)
  }

  /** Exactly the callers whose command was accepted have one; it is queued or answered once. */
  predicate Once(s: State, id: nat) {
    && Pending(s.sent, 0, id) == (if id in s.callers && s.callers[id] == Enqueued then 1 else 0)
    && Replies(s.answers, id) + Pending(s.sent, s.head, id) == Pending(s.sent, 0, id)
    && Oks(s.answers, id) == Forwards(s.forwarded, id)
  }

  predicate Budget(p: ReconnectPolicy, s: State) {
    && Ramps(s.scheduled)
    && (s.attempt > 0 ==> s.scheduled.Then? && s.scheduled.last == Attempt(s.attempt, s.resets))
    && (s.attempt == 0 && s.scheduled.Then? ==> s.scheduled.last.resets < s.resets)
    && (p.maxRetries.Count? ==>
          s.attempt <= p.maxRetries.limit && Length(s.scheduled) <= Spent(p.maxRetries.limit, s.resets) + s.attempt)
  }

  ghost predicate Inv(p: ReconnectPolicy, s: State) {
    && QueueOk(s)
    && StatusFits(s)
    && StampsFit(s)
    && (forall id: nat :: Once(s, id))
    && WellForwarded(s.forwarded, s.generation)
    && Numbered(s.sessions, s.generation)
    && Budget(p, s)
  }

  // ------------------------------------------------------------- every step keeps them

  lemma {:induction false} PendingPush(sent: seq<Command>, c: Command, k: nat, id: nat)
    requires k <= |sent|
    ensures Pending(sent + [c], k, id) == Pending(sent, k, id) + if c.id == id then 1 else 0
    decreases |sent| - k
  {
    if k < |sent| {
      PendingPush(sent, c, k + 1, id);
    } else {
      assert Pending(sent + [c], k + 1, id) == 0;
    }
  }

  /** Dropping the receiver answers every queued command once, and none with success. */
  lemma {:induction false} AbandonAnswersAll(answers: Log<Answer>, sent: seq<Command>, k: nat, id: nat)
    ensures Replies(Abandon(answers, sent, k), id) == Replies(answers, id) + Pending(sent, k, id)
    ensures Oks(Abandon(answers, sent, k), id) == Oks(answers, id)
    decreases |sent| - k
  {
    if k < |sent| {
      AbandonAnswersAll(Then(answers, Answer(sent[k].id, Err(SupervisorStopped))), sent, k + 1, id);
    }
  }

  /** A caller changes its own entry and the end of the queue, nothing else; the loop leaves
      both alone, and generations only grow. */
  lemma CallerFrame(s: State, c: CallerStep)
    requires CallerCan(s, c)
    ensures CallerDoes(s, c) == s.(callers := CallerDoes(s, c).callers, sent := CallerDoes(s, c).sent)
    ensures !c.TrySend? ==> CallerDoes(s, c).sent == s.sent
  {
  }

  lemma LoopFrame(p: ReconnectPolicy, s: State, l: LoopStep)
    requires LoopCan(s, l)
    ensures
      var t := LoopDoes(p, s, l);
      && t.callers == s.callers && t.sent == s.sent && t.cancelled == s.cancelled
      && t.generation == s.generation + if l == Bump then 1 else 0
  {
  }

  lemma OnceEnqueued(s: State, c: nat, id: nat)
    requires CallerCan(s, TrySend(c)) && s.head <= |s.sent| && Once(s, id) && s.callers[c].command.id == c
    ensures Once(CallerDoes(s, TrySend(c)), id)
  {
    PendingPush(s.sent, s.callers[c].command, 0, id);
    PendingPush(s.sent, s.callers[c].command, s.head, id);
  }

  lemma OnceByCaller(s: State, c: CallerStep, id: nat)
    requires CallerCan(s, c) && s.head <= |s.sent| && Once(s, id)
    requires c.TrySend? ==> s.callers[c.id].command.id == c.id
    ensures Once(CallerDoes(s, c), id)
  {
    if c.TrySend? {
      OnceEnqueued(s, c.id, id);
    } else {
      CallerFrame(s, c);
    }
  }

  lemma OnceReturned(p: ReconnectPolicy, s: State, id: nat)
    requires LoopCan(s, Return) && s.head <= |s.sent| && Once(s, id)
    ensures Once(LoopDoes(p, s, Return), id)
  {
    AbandonAnswersAll(s.answers, s.sent, s.head, id);
    assert Pending(s.sent, |s.sent|, id) == 0;
  }

  lemma OnceAnswered(s: State, reply: Reply, id: nat)
    requires s.head < |s.sent| && Once(s, id)
    ensures
      var t := AnswerNext(s, reply);
      Once(if reply == Ok then t.(forwarded := Then(s.forwarded, Forward(s.sent[s.head], s.generation))) else t, id)
  {
  }

  /** Steps of the loop that answer nobody leave the accounts alone. */
  lemma OnceUntouched(p: ReconnectPolicy, s: State, l: LoopStep, id: nat)
    requires LoopCan(s, l) && Once(s, id) && l != Return && l != RejectOne && !l.Receive?
    ensures Once(LoopDoes(p, s, l), id)
  {
    var t := LoopDoes(p, s, l);
    assert t.sent == s.sent && t.head == s.head && t.answers == s.answers && t.forwarded == s.forwarded && t.callers == s.callers;
  }

  lemma OnceByLoop(p: ReconnectPolicy, s: State, l: LoopStep, id: nat)
    requires LoopCan(s, l) && s.head <= |s.sent| && Once(s, id)
    ensures Once(LoopDoes(p, s, l), id)
  {
    match l
    case Return => OnceReturned(p, s, id);
    case RejectOne => OnceAnswered(s, Err(s.pc.error), id);
    case Receive(delivered) =>
      OnceAnswered(s, Ok, id);
      OnceAnswered(s, Err(NotConnected), id);
      OnceAnswered(s, Err(SessionReplaced), id);
      OnceAnswered(s, Err(Severed), id);
    case _ => OnceUntouched(p, s, l, id);
  }

  lemma StatusByLoop(p: ReconnectPolicy, s: State, l: LoopStep)
    requires LoopCan(s, l) && StatusFits(s)
    ensures StatusFits(LoopDoes(p, s, l))
  {
  }

  lemma StampsByLoop(p: ReconnectPolicy, s: State, l: LoopStep)
    requires LoopCan(s, l) && StampsFit(s)
    ensures StampsFit(LoopDoes(p, s, l))
  {
    LoopFrame(p, s, l);
  }

  lemma StampsByCaller(s: State, c: CallerStep)
    requires CallerCan(s, c) && StatusFits(s) && StampsFit(s)
    ensures StampsFit(CallerDoes(s, c))
  {
  }

  lemma {:induction false} StillForwarded(log: Log<Forward>, g: nat, g': nat)
    requires WellForwarded(log, g) && g <= g'
    ensures WellForwarded(log, g')
  {
    if log.Then? {
      StillForwarded(log.before, g, g');
    }
  }

  lemma ForwardsByLoop(p: ReconnectPolicy, s: State, l: LoopStep)
    requires LoopCan(s, l) && StampsFit(s) && s.head <= |s.sent|
    requires WellForwarded(s.forwarded, s.generation) && Numbered(s.sessions, s.generation)
    ensures WellForwarded(LoopDoes(p, s, l).forwarded, LoopDoes(p, s, l).generation)
    ensures Numbered(LoopDoes(p, s, l).sessions, LoopDoes(p, s, l).generation)
  {
    if l == Bump {
      StillForwarded(s.forwarded, s.generation, s.generation + 1);
    }
  }

  lemma BudgetByLoop(p: ReconnectPolicy, s: State, l: LoopStep)
    requires LoopCan(s, l) && Budget(p, s)
    ensures Budget(p, LoopDoes(p, s, l))
  {
    if !l.Fail? && !l.SessionEnds? {
      CountersUntouched(p, s, l);
    }
  }

  lemma CountersUntouched(p: ReconnectPolicy, s: State, l: LoopStep)
    requires LoopCan(s, l) && !l.Fail? && !l.SessionEnds?
    ensures
      var t := LoopDoes(p, s, l);
      t.attempt == s.attempt && t.resets == s.resets && t.scheduled == s.scheduled
  {
  }

  /** The queue is within its bound, and empty once nobody receives any more. */
  predicate QueueOk(s: State) {
    && s.head <= |s.sent| && |s.sent| - s.head <= COMMAND_CHANNEL_CAPACITY
    && (s.pc.Returned? ==> s.head == |s.sent|)
  }

  lemma QueueByLoop(p: ReconnectPolicy, s: State, l: LoopStep)
    requires LoopCan(s, l) && QueueOk(s)
    ensures QueueOk(LoopDoes(p, s, l))
  {
  }

  lemma QueueByCaller(s: State, c: CallerStep)
    requires CallerCan(s, c) && QueueOk(s)
    ensures QueueOk(CallerDoes(s, c))
  {
  }

  lemma LoopKeepsInv(p: ReconnectPolicy, s: State, l: LoopStep)
    requires LoopCan(s, l) && Inv(p, s)
    ensures Inv(p, LoopDoes(p, s, l))
  {
    QueueByLoop(p, s, l);
    StatusByLoop(p, s, l);
    StampsByLoop(p, s, l);
    ForwardsByLoop(p, s, l);
    BudgetByLoop(p, s, l);
    forall id: nat
      ensures Once(LoopDoes(p, s, l), id)
    {
      assert Once(s, id);
      OnceByLoop(p, s, l, id);
    }
  }

  lemma CallerKeepsInv(p: ReconnectPolicy, s: State, c: CallerStep)
    requires CallerCan(s, c) && Inv(p, s)
    ensures Inv(p, CallerDoes(s, c))
  {
    CallerFrame(s, c);
    QueueByCaller(s, c);
    StampsByCaller(s, c);
    forall id: nat
      ensures Once(CallerDoes(s, c), id)
    {
      assert Once(s, id);
      OnceByCaller(s, c, id);
    }
  }

  lemma StepKeepsInv(p: ReconnectPolicy, s: State, step: Step)
    requires CanStep(s, step) && Inv(p, s)
    ensures Inv(p, Do(p, s, step))
  {
    match step
    case ByLoop(l) => LoopKeepsInv(p, s, l);
    case ByCaller(c) => CallerKeepsInv(p, s, c);
    case Cancel =>
      forall id: nat
        ensures Once(Do(p, s, step), id)
      {
        assert Once(s, id);
      }
  }

  lemma {:induction false} EveryRunKeepsInv(p: ReconnectPolicy, run: Log<Step>)
    requires After(p, run).Some?
    ensures Inv(p, After(p, run).value)
  {
    if run.Then? {
      EveryRunKeepsInv(p, run.before);
      StepKeepsInv(p, After(p, run.before).value, run.last);
    }
  }

  // ------------------------------------------------------------------- main theorems

  lemma {:induction false} ForwardedEntries(log: Log<Forward>, generation: nat)
    requires WellForwarded(log, generation)
    ensures forall f <- Entries(log) ::
              && f.session == f.command.stamp <= generation
              && 1 <= f.command.seen <= f.session
              && (f.command.wanted.Some? ==> f.command.wanted.value == f.session)
  {
    if log.Then? {
      ForwardedEntries(log.before, generation);
    }
  }

  lemma {:induction false} NumberedEntries(sessions: Log<nat>, generation: nat)
    requires Numbered(sessions, generation)
    ensures |Entries(sessions)| == generation
    ensures forall i :: 0 <= i < generation ==> Entries(sessions)[i] == i + 1
  {
    if sessions.Then? {
      NumberedEntries(sessions.before, generation - 1);
    }
  }

  /** After every run, sessions were numbered 1, 2, 3, ..., and every forwarded command
      went to the session whose number it was stamped with, however late it was enqueued;
      an inventory request went to the session it was made for. */
  lemma CommandsNeverCrossAReconnect(p: ReconnectPolicy, run: Log<Step>)
    requires After(p, run).Some?
    ensures
      var s := After(p, run).value;
      && |Entries(s.sessions)| == s.generation
      && (forall i :: 0 <= i < s.generation ==> Entries(s.sessions)[i] == i + 1)
      && (forall f <- Entries(s.forwarded) ::
            && f.session == f.command.stamp <= s.generation
            && (f.command.wanted.Some? ==> f.command.wanted.value == f.session))
  {
    EveryRunKeepsInv(p, run);
    var s := After(p, run).value;
    ForwardedEntries(s.forwarded, s.generation);
    NumberedEntries(s.sessions, s.generation);
  }

  /** A command is handed over only while a session is live, to that session, and its
      caller is told so in the same step. */
  lemma HandedOnlyToALiveSession(p: ReconnectPolicy, run: Log<Step>, step: Step)
    requires After(p, run).Some? && CanStep(After(p, run).value, step)
    ensures
      var s := After(p, run).value;
      var t := Do(p, s, step);
      t.forwarded != s.forwarded ==>
        && s.status == Connected && s.pc == InSession && s.head < |s.sent|
        && t.forwarded == Then(s.forwarded, Forward(s.sent[s.head], s.generation))
        && t.answers == Then(s.answers, Answer(s.sent[s.head].id, Ok))
  {
    EveryRunKeepsInv(p, run);
    ForwardStep(p, After(p, run).value, step);
  }

  lemma ForwardStep(p: ReconnectPolicy, s: State, step: Step)
    requires CanStep(s, step) && StatusFits(s)
    ensures
      var t := Do(p, s, step);
      t.forwarded != s.forwarded ==>
        && s.status == Connected && s.pc == InSession && s.head < |s.sent|
        && t.forwarded == Then(s.forwarded, Forward(s.sent[s.head], s.generation))
        && t.answers == Then(s.answers, Answer(s.sent[s.head].id, Ok))
  {
    match step
    case ByLoop(l) =>
      if !l.Receive? {
        ForwardsUntouched(p, s, l);
      }
    case ByCaller(c) => CallerFrame(s, c);
    case Cancel =>
  }

  lemma ForwardsUntouched(p: ReconnectPolicy, s: State, l: LoopStep)
    requires LoopCan(s, l) && !l.Receive?
    ensures LoopDoes(p, s, l).forwarded == s.forwarded
  {
  }

  /** Every accepted command is answered at most once, with success exactly as often as it
      was handed to a session, and once `run` has returned it has been answered: also a
      command enqueued after the last rejecting loop.  A call that was not accepted gets no
      second answer. */
  lemma AcceptedCommandsAreAnsweredOnce(p: ReconnectPolicy, run: Log<Step>, id: nat)
    requires After(p, run).Some?
    ensures
      var s := After(p, run).value;
      var accepted := id in s.callers && s.callers[id] == Enqueued;
      && Replies(s.answers, id) <= (if accepted then 1 else 0)
      && Oks(s.answers, id) == Forwards(s.forwarded, id) <= Replies(s.answers, id)
      && (s.pc.Returned? && accepted ==> Replies(s.answers, id) == 1)
  {
    EveryRunKeepsInv(p, run);
    var s := After(p, run).value;
    assert Once(s, id);
    OksAreReplies(s.answers, id);
    if s.pc.Returned? {
      assert Pending(s.sent, |s.sent|, id) == 0;
    }
  }

  lemma {:induction false} OksAreReplies(log: Log<Answer>, id: nat)
    ensures Oks(log, id) <= Replies(log, id)
  {
    if log.Then? {
      OksAreReplies(log.before, id);
    }
  }

  /** Every return leaves the status `Stopped`, the queue empty and within its bound before. */
  lemma ReturnLeavesStopped(p: ReconnectPolicy, run: Log<Step>)
    requires After(p, run).Some?
    ensures
      var s := After(p, run).value;
      && |s.sent| - s.head <= COMMAND_CHANNEL_CAPACITY
      && (s.pc.Returned? ==> s.status == Stopped && s.head == |s.sent|)
      && (s.status == Connected ==> s.pc == InSession || s.pc.Ended?)
  {
    EveryRunKeepsInv(p, run);
  }

  /** Under a limit of `n` retries, a run whose attempt counter was reset `r` times has
      scheduled at most `n * (r + 1)` of them. */
  lemma RetriesWithinBudget(p: ReconnectPolicy, run: Log<Step>)
    requires After(p, run).Some? && p.maxRetries.Count?
    ensures
      var s := After(p, run).value;
      Length(s.scheduled) <= p.maxRetries.limit * (s.resets + 1)
  {
    BudgetAfter(p, run);
    BudgetSpent(p, After(p, run).value);
  }

  lemma BudgetAfter(p: ReconnectPolicy, run: Log<Step>)
    requires After(p, run).Some?
    ensures Budget(p, After(p, run).value)
  {
    EveryRunKeepsInv(p, run);
  }

  lemma BudgetSpent(p: ReconnectPolicy, s: State)
    requires Budget(p, s) && p.maxRetries.Count?
    ensures Length(s.scheduled) <= p.maxRetries.limit * (s.resets + 1)
  {
    SpentIsProduct(p.maxRetries.limit, s.resets + 1);
  }

  lemma {:induction false} SpentIsProduct(limit: nat, resets: nat)
    ensures Spent(limit, resets) == limit * resets
  {
    if resets > 0 {
      SpentIsProduct(limit, resets - 1);
      assert limit * resets == limit * (resets - 1) + limit;
    }
  }

  /** How many retries were scheduled since the counter was last reset. */
  function RetriesAt(scheduled: Log<Attempt>, resets: nat): nat {
    match scheduled
    case Empty => 0
    case Then(before, a) => RetriesAt(before, resets) + if a.resets == resets then 1 else 0
  }

  lemma {:induction false} RampCount(scheduled: Log<Attempt>, resets: nat)
    requires Ramps(scheduled) && scheduled.Then? && scheduled.last.resets <= resets
    ensures RetriesAt(scheduled, resets) == if scheduled.last.resets == resets then scheduled.last.number else 0
  {
    if scheduled.before.Then? {
      RampCount(scheduled.before, resets);
    }
  }

  /** The attempt counter is the number of retries since the last reset. */
  lemma AttemptIsRetries(p: ReconnectPolicy, s: State)
    requires Budget(p, s)
    ensures RetriesAt(s.scheduled, s.resets) == s.attempt
  {
    if s.scheduled.Then? {
      RampCount(s.scheduled, s.resets);
    }
  }

  /** The whole budget is used: a supervisor that gives up under a limit of `n` has scheduled
      exactly `n` retries since the last reset, and without a limit none gives up.  A failure
      that is to be retried is retried exactly while fewer than `n` were. */
  predicate UsesBudget(p: ReconnectPolicy, s: State) {
    var retries := RetriesAt(s.scheduled, s.resets);
    && (Verdict(s.pc).Some? && Verdict(s.pc).value.GaveUp? ==> p.maxRetries == Count(retries))
    && (s.pc.Failing? ==>
          var again := DecisionFor(p, s.pc.cause) == Retry && (p.maxRetries == Unlimited || retries < p.maxRetries.limit);
          LoopDoes(p, s, Fail).scheduled ==
          if again then Then(s.scheduled, Attempt(retries + 1, s.resets)) else s.scheduled)
  }

  lemma BudgetIsUsedUp(p: ReconnectPolicy, run: Log<Step>)
    requires After(p, run).Some?
    ensures UsesBudget(p, After(p, run).value)
  {
    BudgetAfter(p, run);
    OutcomesAreJustified(p, run);
    UsesBudgetAt(p, After(p, run).value);
  }

  lemma UsesBudgetAt(p: ReconnectPolicy, s: State)
    requires Budget(p, s) && Justified(p, s)
    ensures UsesBudget(p, s)
  {
    AttemptIsRetries(p, s);
  }

  lemma {:induction false} RampEntries(scheduled: Log<Attempt>)
    requires Ramps(scheduled)
    ensures scheduled.Then? ==>
              |Entries(scheduled)| > 0 && Entries(scheduled)[|Entries(scheduled)| - 1] == scheduled.last
    ensures forall i :: 0 <= i < |Entries(scheduled)| ==> Entries(scheduled)[i].number >= 1
    ensures forall i :: 0 < i < |Entries(scheduled)| ==> Follows(Entries(scheduled)[i - 1], Entries(scheduled)[i])
  {
    if scheduled.Then? {
      RampEntries(scheduled.before);
    }
  }

  /** The next retry is numbered one higher, or the counter was reset in between. */
  predicate Follows(a: Attempt, b: Attempt) {
    if a.resets == b.resets then b.number == a.number + 1 else a.resets < b.resets && b.number == 1
  }

  /** In every run, retries are numbered one higher than the one before, or start again at one
      exactly where the counter was reset in between; without a reset the delay never shrinks,
      and none exceeds the maximum. */
  lemma DelaysGrowBetweenResets(p: ReconnectPolicy, run: Log<Step>, i: nat)
    requires After(p, run).Some? && p.jitter == NoJitter && p.multiplier >= 1.0
    requires 0 < i < |Entries(After(p, run).value.scheduled)|
    ensures
      var rs := Entries(After(p, run).value.scheduled);
      && (rs[i].number == 1 <==> rs[i - 1].resets < rs[i].resets)
      && (rs[i - 1].resets == rs[i].resets ==>
            rs[i].number == rs[i - 1].number + 1 && BackoffDelay(p, rs[i - 1].number) <= BackoffDelay(p, rs[i].number))
      && BackoffDelay(p, rs[i].number) <= p.maxDelay
  {
    BudgetAfter(p, run);
    var rs := Entries(After(p, run).value.scheduled);
    RampEntries(After(p, run).value.scheduled);
    assert Follows(rs[i - 1], rs[i]);
    DelaysNeverShrink(p, rs[i].number, rs[i].number);
    if rs[i - 1].resets == rs[i].resets {
      DelaysNeverShrink(p, rs[i - 1].number, rs[i].number);
    }
  }

  // ------------------------------------------------------------ why the supervisor stops

  /** The outcome that `run` is about to return or has returned. */
  function Verdict(pc: Pc): Option<Outcome> {
    match pc
    case Rejecting(_, ToReturn(outcome)) => Some(outcome)
    case Leaving(outcome) => Some(outcome)
    case Returned(outcome) => Some(outcome)
    case _ => None
  }

  predicate BeforeSession(pc: Pc) {
    pc == Top || (pc.Rejecting? && pc.next == ToConnect) || pc == Dialing || pc == Bumping
  }

  predicate Justified(p: ReconnectPolicy, s: State) {
    && (match Verdict(s.pc)
        case None => true
        case Some(Cancelled) => s.cancelled
        case Some(GaveUp(cause)) => DecisionFor(p, cause) == Retry && RetriesExhausted(p, s.attempt)
        case Some(NotRetried(cause)) => DecisionFor(p, cause) == Stop)
    && (!p.enabled ==>
          && s.scheduled == Empty && s.generation <= 1 && s.pc != Waiting
          && (BeforeSession(s.pc) ==> s.generation == 0))
  }

  lemma JustifiedByLoop(p: ReconnectPolicy, s: State, l: LoopStep)
    requires LoopCan(s, l) && Justified(p, s)
    ensures Justified(p, LoopDoes(p, s, l))
  {
  }

  /** The failure that the loop is dealing with. */
  function CauseOf(pc: Pc): Option<RetryClass> {
    match pc
    case Ended(cause) => Some(cause)
    case Failing(cause) => Some(cause)
    case Rejecting(_, ToFailure(cause)) => Some(cause)
    case _ =>
      match Verdict(pc)
      case Some(GaveUp(cause)) => Some(cause)
      case Some(NotRetried(cause)) => Some(cause)
      case _ => None
  }

  /** The failure that this step of the loop meets with. */
  function Met(step: Step): Option<RetryClass> {
    match step
    case ByLoop(DialFails(cause)) => Some(cause)
    case ByLoop(SessionEnds(cause, _)) => Some(cause)
    case _ => None
  }

  /** The last failure of a run. */
  function LastFailure(run: Log<Step>): Option<RetryClass> {
    match run
    case Empty => None
    case Then(before, step) => if Met(step).Some? then Met(step) else LastFailure(before)
  }

  lemma CauseByLoop(p: ReconnectPolicy, s: State, l: LoopStep)
    requires LoopCan(s, l)
    ensures
      var cause := CauseOf(LoopDoes(p, s, l).pc);
      cause.Some? ==> cause == if Met(ByLoop(l)).Some? then Met(ByLoop(l)) else CauseOf(s.pc)
  {
  }

  /** Every outcome has its reason: a cancellation was requested; or the last failure of the run
      was to be retried but the budget was used up; or the policy says to stop at that very
      failure.  With reconnecting switched off there is at most one session and no retry is ever
      scheduled. */
  lemma {:induction false} OutcomesAreJustified(p: ReconnectPolicy, run: Log<Step>)
    requires After(p, run).Some?
    ensures Justified(p, After(p, run).value)
    ensures CauseOf(After(p, run).value.pc).Some? ==> CauseOf(After(p, run).value.pc) == LastFailure(run)
  {
    if run.Then? {
      OutcomesAreJustified(p, run.before);
      var s := After(p, run.before).value;
      match run.last
      case ByLoop(l) =>
        JustifiedByLoop(p, s, l);
        CauseByLoop(p, s, l);
      case ByCaller(c) => CallerFrame(s, c);
      case Cancel =>
    }
  }

  /** `later` goes on from `run`. */
  predicate GoesOn(run: Log<Step>, later: Log<Step>) {
    later == run || (later.Then? && GoesOn(run, later.before))
  }

  /** A dial that is under way, or about to be. */
  function DialsLeft(pc: Pc): nat {
    if pc.Rejecting? && pc.next == ToConnect then 1 else if pc == Dialing || pc == Bumping then 1 else 0
  }

  lemma DialsByLoop(p: ReconnectPolicy, s: State, l: LoopStep)
    requires LoopCan(s, l) && s.cancelled
    ensures LoopDoes(p, s, l).generation + DialsLeft(LoopDoes(p, s, l).pc) <= s.generation + DialsLeft(s.pc)
  {
  }

  /** Once cancelled, only a dial that was under way can still become a session; at the top of
      the loop no session follows any more. */
  lemma {:induction false} CancellationStopsSessions(p: ReconnectPolicy, run: Log<Step>, later: Log<Step>)
    requires After(p, run).Some? && After(p, run).value.cancelled && GoesOn(run, later) && After(p, later).Some?
    ensures After(p, later).value.cancelled
    ensures After(p, later).value.generation + DialsLeft(After(p, later).value.pc)
            <= After(p, run).value.generation + DialsLeft(After(p, run).value.pc)
    ensures After(p, run).value.pc == Top ==> After(p, later).value.generation <= After(p, run).value.generation
    ensures After(p, later).value.generation <= After(p, run).value.generation + 1
  {
    if later != run {
      CancellationStopsSessions(p, run, later.before);
      var s := After(p, later.before).value;
      match later.last
      case ByLoop(l) =>
        DialsByLoop(p, s, l);
        LoopFrame(p, s, l);
      case ByCaller(c) => CallerFrame(s, c);
      case Cancel =>
    }
  }

  // -------------------------------------------------------------- which error a caller gets

  /** In every run a valid command is let in exactly while a session is live or its end is not
      yet published, told that the supervisor stopped exactly when `run` has decided to return,
      and told that nothing is connected otherwise; an invalid one hears so first.  After that
      it is refused exactly when it names another session than the current one. */
  lemma CallsFollowTheLoop(p: ReconnectPolicy, run: Log<Step>, id: nat)
    requires After(p, run).Some? && id in After(p, run).value.callers
    ensures
      var s := After(p, run).value;
      s.callers[id].Calling? ==>
        var valid, next := s.callers[id].valid, CallerDoes(s, ReadStatus(id)).callers[id];
        && (next == Refused(InvalidAction) <==> !valid)
        && (next == SawConnected(s.generation, s.callers[id].wanted) <==> valid && (s.pc == InSession || s.pc.Ended?))
        && (next == Refused(SupervisorStopped) <==> valid && Verdict(s.pc).Some?)
        && (next == Refused(NotConnected) <==> valid && s.pc != InSession && !s.pc.Ended? && Verdict(s.pc).None?)
    ensures
      var s := After(p, run).value;
      s.callers[id].SawConnected? ==>
        var wanted, next := s.callers[id].wanted, CallerDoes(s, ReadGeneration(id)).callers[id];
        && (next == Refused(SessionReplaced) <==> wanted.Some? && wanted.value != s.generation)
        && (next == Stamped(Command(id, s.generation, s.callers[id].seen, wanted)) <==> wanted.None? || wanted.value == s.generation)
  {
    EveryRunKeepsInv(p, run);
    CallAt(After(p, run).value, id);
  }

  lemma CallAt(s: State, id: nat)
    requires id in s.callers && StatusFits(s)
    ensures
      s.callers[id].Calling? ==>
        var valid, next := s.callers[id].valid, CallerDoes(s, ReadStatus(id)).callers[id];
        && (next == Refused(InvalidAction) <==> !valid)
        && (next == SawConnected(s.generation, s.callers[id].wanted) <==> valid && (s.pc == InSession || s.pc.Ended?))
        && (next == Refused(SupervisorStopped) <==> valid && Verdict(s.pc).Some?)
        && (next == Refused(NotConnected) <==> valid && s.pc != InSession && !s.pc.Ended? && Verdict(s.pc).None?)
    ensures
      s.callers[id].SawConnected? ==>
        var wanted, next := s.callers[id].wanted, CallerDoes(s, ReadGeneration(id)).callers[id];
        && (next == Refused(SessionReplaced) <==> wanted.Some? && wanted.value != s.generation)
        && (next == Stamped(Command(id, s.generation, s.callers[id].seen, wanted)) <==> wanted.None? || wanted.value == s.generation)
  {
  }

  /** What the published status says about the answer to a command. */
  function ReplyAt(status: Status, current: bool, delivered: bool): Reply {
    match status
    case Connected => if !current then Err(SessionReplaced) else if delivered then Ok else Err(Severed)
    case Disconnected => Err(SessionReplaced)
    case Connecting => Err(NotConnected)
    case ReconnectScheduled(_) => Err(NotConnected)
    case Stopped => Err(SupervisorStopped)
  }

  /** In every run the answer to a command is decided by the status at the moment it is taken
      from the queue.  So a command of a session that has ended hears that its session was
      replaced exactly when it is taken while the end of that session is being published or
      while a later session is live; while connecting or waiting it hears that nothing is
      connected. */
  lemma AnswersFollowTheStatus(p: ReconnectPolicy, run: Log<Step>, l: LoopStep)
    requires After(p, run).Some? && LoopCan(After(p, run).value, l) && (l == RejectOne || l.Receive?)
    ensures
      var s := After(p, run).value;
      s.head < |s.sent| &&
      var cmd := s.sent[s.head];
      LoopDoes(p, s, l).answers ==
      Then(s.answers, Answer(cmd.id, ReplyAt(s.status, cmd.stamp == s.generation, l.Receive? && l.delivered)))
  {
    EveryRunKeepsInv(p, run);
    AnswerAt(p, After(p, run).value, l);
  }

  lemma AnswerAt(p: ReconnectPolicy, s: State, l: LoopStep)
    requires LoopCan(s, l) && (l == RejectOne || l.Receive?) && StatusFits(s) && StampsFit(s)
    ensures
      s.head < |s.sent| &&
      var cmd := s.sent[s.head];
      LoopDoes(p, s, l).answers ==
      Then(s.answers, Answer(cmd.id, ReplyAt(s.status, cmd.stamp == s.generation, l.Receive? && l.delivered)))
  {
    assert Plausible(s.sent[s.head], s.generation);
  }

  /** What the commands from position `k` on are told if the status alone decides. */
  function AllAt(sent: seq<Command>, k: nat, status: Status, generation: nat): seq<Answer>
    decreases |sent| - k
  {
    if k >= |sent| then []
    else [Answer(sent[k].id, ReplyAt(status, sent[k].stamp == generation, false))] + AllAt(sent, k + 1, status, generation)
  }

  /** What is still queued when `run` returns is dropped with the receiver: each caller hears
      what the status says, in order, and nobody else hears anything. */
  lemma DroppedFollowTheStatus(p: ReconnectPolicy, run: Log<Step>)
    requires After(p, run).Some? && LoopCan(After(p, run).value, Return)
    ensures
      var s := After(p, run).value;
      Entries(LoopDoes(p, s, Return).answers) == Entries(s.answers) + AllAt(s.sent, s.head, s.status, s.generation)
  {
    EveryRunKeepsInv(p, run);
    var s := After(p, run).value;
    AbandonEntries(s.answers, s.sent, s.head, s.generation);
  }

  lemma {:induction false} AbandonEntries(answers: Log<Answer>, sent: seq<Command>, k: nat, generation: nat)
    ensures Entries(Abandon(answers, sent, k)) == Entries(answers) + AllAt(sent, k, Stopped, generation)
    decreases |sent| - k
  {
    if k < |sent| {
      AbandonEntries(Then(answers, Answer(sent[k].id, Err(SupervisorStopped))), sent, k + 1, generation);
    }
  }

  /** In every run a stamped command is refused exactly when `run` has returned, or exactly 64
      commands are waiting; otherwise it is accepted. */
  lemma RefusalsFollowTheQueue(p: ReconnectPolicy, run: Log<Step>, id: nat)
    requires After(p, run).Some? && CallerCan(After(p, run).value, TrySend(id))
    ensures
      var s := After(p, run).value;
      var caller := CallerDoes(s, TrySend(id)).callers[id];
      && (caller == Refused(SupervisorStopped) <==> s.pc.Returned?)
      && (caller == Refused(QueueFull) <==> !s.pc.Returned? && |s.sent| - s.head == 64)
      && (caller == Enqueued <==> !s.pc.Returned? && |s.sent| - s.head < 64)
      && (s.pc.Returned? ==> s.status == Stopped)
  {
    EveryRunKeepsInv(p, run);
    RefusedAt(After(p, run).value, id);
  }

  lemma RefusedAt(s: State, id: nat)
    requires CallerCan(s, TrySend(id)) && QueueOk(s) && StatusFits(s)
    ensures
      var caller := CallerDoes(s, TrySend(id)).callers[id];
      && (caller == Refused(SupervisorStopped) <==> s.pc.Returned?)
      && (caller == Refused(QueueFull) <==> !s.pc.Returned? && |s.sent| - s.head == 64)
      && (caller == Enqueued <==> !s.pc.Returned? && |s.sent| - s.head < 64)
      && (s.pc.Returned? ==> s.status == Stopped)
  {
  }

  // ------------------------------------------------- the session the caller observed

  /** A forwarded command never ran in an earlier session than the one its caller observed
      as connected, and it ran in that very session exactly when the generation did not
      move between the caller's two reads. */
  lemma RanInTheObservedSessionExactlyWhen(p: ReconnectPolicy, run: Log<Step>, f: Forward)
    requires After(p, run).Some? && f in Entries(After(p, run).value.forwarded)
    ensures f.command.seen <= f.session
    ensures f.session == f.command.seen <==> f.command.stamp == f.command.seen
  {
    EveryRunKeepsInv(p, run);
    ForwardedEntries(After(p, run).value.forwarded, After(p, run).value.generation);
  }

  lemma Extend(p: ReconnectPolicy, run: Log<Step>, s: State, step: Step) returns (run': Log<Step>, s': State)
    requires After(p, run) == Some(s) && CanStep(s, step)
    ensures run' == Then(run, step) && s' == Do(p, s, step) && After(p, run') == Some(s')
  {
    run', s' := Then(run, step), Do(p, s, step);
  }

  /** From the top of the loop to a new session. */
  lemma ConnectOnce(p: ReconnectPolicy, run: Log<Step>, s: State) returns (run': Log<Step>, s': State)
    requires After(p, run) == Some(s) && s.pc == Top && !s.cancelled && s.head == |s.sent|
    ensures After(p, run') == Some(s')
    ensures s' == s.(pc := Announcing, status := Connecting, generation := s.generation + 1,
                     sessions := Then(s.sessions, s.generation + 1))
  {
    run', s' := Extend(p, run, s, ByLoop(Begin));
    run', s' := Extend(p, run', s', ByLoop(RejectDone));
    run', s' := Extend(p, run', s', ByLoop(DialOk));
    run', s' := Extend(p, run', s', ByLoop(Bump));
  }

  /** A caller who sees session 1 connected can be overtaken by its end and by the next
      connect before it reads the generation; its command then runs in session 2. */
  lemma ACommandCanOutliveTheSessionItSaw(p: ReconnectPolicy)
    requires DecisionFor(p, Transient) == Retry && !RetriesExhausted(p, 0)
    ensures exists run: Log<Step> ::
              After(p, run).Some? &&
              exists f: Forward :: f in Entries(After(p, run).value.forwarded) && f.command.seen == 1 && f.session == 2
  {
    var run, s := FirstSession(p);
    run, s := LoseSession(p, run, s);
    run, s := Extend(p, run, s, ByLoop(Wake));
    run, s := SecondSession(p, run, s);
    assert s.forwarded.last in Entries(s.forwarded);
  }

  /** Caller 0 sees session 1 connected. */
  lemma FirstSession(p: ReconnectPolicy) returns (run: Log<Step>, s: State)
    ensures After(p, run) == Some(s) && s.pc == InSession && s.status == Connected && s.attempt == 0
    ensures !s.cancelled && s.sent == [] && s.head == 0 && s.answers == Empty
    ensures s.generation == 1 && 0 in s.callers && s.callers[0] == SawConnected(1, None)
  {
    run, s := ConnectOnce(p, Empty, INITIAL);
    run, s := Extend(p, run, s, ByLoop(Announce));
    run, s := Extend(p, run, s, ByCaller(Call(0, true, None)));
    run, s := Extend(p, run, s, ByCaller(ReadStatus(0)));
  }

  /** The session breaks, and the supervisor waits before it tries again. */
  lemma LoseSession(p: ReconnectPolicy, run: Log<Step>, s: State) returns (run': Log<Step>, s': State)
    requires After(p, run) == Some(s) && s.pc == InSession && s.attempt == 0 && s.head == |s.sent|
    requires DecisionFor(p, Transient) == Retry && !RetriesExhausted(p, 0)
    ensures After(p, run') == Some(s') && s'.pc == Waiting && s'.status == ReconnectScheduled(1)
    ensures s' == s.(pc := s'.pc, status := s'.status, attempt := s'.attempt, scheduled := s'.scheduled)
  {
    run', s' := Extend(p, run, s, ByLoop(SessionEnds(Transient, false)));
    run', s' := Extend(p, run', s', ByLoop(Disconnect));
    run', s' := Extend(p, run', s', ByLoop(RejectDone));
    run', s' := Extend(p, run', s', ByLoop(Fail));
  }

  lemma SecondSession(p: ReconnectPolicy, run: Log<Step>, s: State) returns (run': Log<Step>, s': State)
    requires After(p, run) == Some(s) && s.pc == Top && !s.cancelled && s.sent == [] && s.head == 0
    requires s.generation == 1 && 0 in s.callers && s.callers[0] == SawConnected(1, None)
    ensures After(p, run') == Some(s') && s'.forwarded.Then?
    ensures s'.forwarded.last == Forward(Command(0, 2, 1, None), 2)
  {
    run', s' := ConnectOnce(p, run, s);
    run', s' := Extend(p, run', s', ByCaller(ReadGeneration(0)));
    run', s' := Extend(p, run', s', ByLoop(Announce));
    run', s' := Extend(p, run', s', ByCaller(TrySend(0)));
    run', s' := Extend(p, run', s', ByLoop(Receive(true)));
  }

  /** A command stamped for session 1 that reaches the queue during the backoff after that
      session is told that nothing is connected, not that its session was replaced. */
  lemma ALateCommandHearsNotConnected(p: ReconnectPolicy)
    requires DecisionFor(p, Transient) == Retry && !RetriesExhausted(p, 0)
    ensures exists run: Log<Step> ::
              && After(p, run).Some?
              && var s := After(p, run).value;
                 s.sent == [Command(0, 1, 1, None)] && s.answers == Then(Empty, Answer(0, Err(NotConnected)))
  {
    var run, s := FirstSession(p);
    run, s := Extend(p, run, s, ByCaller(ReadGeneration(0)));
    run, s := LoseSession(p, run, s);
    run, s := Extend(p, run, s, ByCaller(TrySend(0)));
    run, s := Extend(p, run, s, ByLoop(Receive(false)));
    assert After(p, run) == Some(s);
  }
}
