/** Running a bot's script handlers and disabling bots whose handlers keep failing.

    What a handler does is an input: the key no longer names a function, the call succeeds,
    or the call fails.  `history` records every outcome that was counted, for all bots. */
module Handlers {
  import opened Basics

  datatype Attempt = Unavailable | Succeeded | Failed

  datatype Outcome = Outcome(bot: nat, succeeded: bool)

  /** The outcomes of one bot, oldest first. */
  ghost function Of(h: Log<Outcome>, bot: nat): seq<bool> {
    match h
    case Empty => []
    case Then(g, o) => if o.bot == bot then Of(g, bot) + [o.succeeded] else Of(g, bot)
  }

  /** Somewhere `n` outcomes in a row are failures. */
  ghost predicate HasRun(s: seq<bool>, n: nat) {
    exists i: nat :: RunAt(s, i, n)
  }

  ghost predicate RunAt(s: seq<bool>, i: nat, n: nat) {
    i + n <= |s| && forall k :: i <= k < i + n ==> !s[k]
  }

  ghost predicate Ends(s: seq<bool>, n: nat) {
    n <= |s| && RunAt(s, |s| - n, n)
  }

  /** Exactly the last `c` outcomes are failures. */
  ghost predicate IsStreak(s: seq<bool>, c: nat) {
    Ends(s, c) && (c < |s| ==> s[|s| - c - 1])
  }

  /** The number of failures a bot is allowed; a threshold of 0 acts like 1. */
  function Limit(threshold: nat): (n: nat)
    ensures n >= 1 && n >= threshold && (n == threshold || n == 1)
  {
    if threshold == 0 then 1 else threshold
  }

  /** The newest outcome ends a run of `n` failures exactly when it is a failure and the
      streak before it was long enough. */
  lemma EndsWithStreak(s: seq<bool>, ok: bool, c: nat, n: nat)
    requires IsStreak(s, c) && n >= 1
    ensures Ends(s + [ok], n) <==> !ok && c + 1 >= n
  {
    var t := s + [ok];
    assert t[|s|] == ok;
    if c < |s| {
      assert t[|s| - c - 1];
    }
  }

  /** A new run of failures can only end at the newest outcome. */
  lemma RunsGrowAtTheEnd(s: seq<bool>, ok: bool, n: nat)
    requires n >= 1
    ensures HasRun(s + [ok], n) <==> HasRun(s, n) || Ends(s + [ok], n)
  {
    var t := s + [ok];
    if i: nat :| RunAt(s, i, n) {
      assert RunAt(t, i, n);
    }
    if i: nat :| RunAt(t, i, n) {
      if i + n <= |s| {
        assert forall k :: i <= k < i + n ==> s[k] == t[k];
        assert RunAt(s, i, n);
      }
    }
  }

  /** One bot's counter and flag agree with its outcomes. */
  ghost predicate Healthy(s: seq<bool>, c: nat, disabled: bool, n: nat) {
    IsStreak(s, c) && (disabled <==> HasRun(s, n))
  }

  lemma StaysHealthy(s: seq<bool>, ok: bool, c: nat, disabled: bool, n: nat)
    requires Healthy(s, c, disabled, n) && n >= 1
    ensures Healthy(s + [ok], if ok then 0 else c + 1, disabled || (!ok && c + 1 >= n), n)
    ensures Ends(s + [ok], n) <==> !ok && c + 1 >= n
  {
    RunsGrowAtTheEnd(s, ok, n);
    EndsWithStreak(s, ok, c, n);
  }

  /** Counted failures of a bot that was disabled already. */
  ghost function Repeats(h: Log<Outcome>, n: nat): nat {
    match h
    case Empty => 0
    case Then(g, o) =>
      var now := Of(h, o.bot);
      Repeats(g, n) + if HasRun(Of(g, o.bot), n) && Ends(now, n) then 1 else 0
  }

  function Count(errors: map<nat, nat>, bot: nat): nat {
    if bot in errors then errors[bot] else 0
  }

  predicate Listed(bots: set<nat>, bot: nat) {
    bot in bots
  }

  ghost predicate HealthyBot(h: Log<Outcome>, errors: map<nat, nat>, disabled: set<nat>, n: nat, bot: nat) {
    Healthy(Of(h, bot), Count(errors, bot), Listed(disabled, bot), n)
  }

  ghost predicate AllHealthy(h: Log<Outcome>, errors: map<nat, nat>, disabled: set<nat>, n: nat) {
    && (forall bot: nat :: HealthyBot(h, errors, disabled, n, bot))
    && (forall bot :: bot in errors ==> errors[bot] >= 1)
  }

  /** What counting one outcome makes of the counters and of the disabled bots. */
  lemma Counted(h: Log<Outcome>, errors: map<nat, nat>, disabled: set<nat>, n: nat, o: Outcome,
                errors': map<nat, nat>, disabled': set<nat>)
    requires AllHealthy(h, errors, disabled, n) && n >= 1
    requires errors' == if o.succeeded then errors - {o.bot} else errors[o.bot := Count(errors, o.bot) + 1]
    requires disabled' == if !o.succeeded && Count(errors, o.bot) + 1 >= n then disabled + {o.bot} else disabled
    ensures AllHealthy(Then(h, o), errors', disabled', n)
  {
    assert HealthyBot(h, errors, disabled, n, o.bot);
    StaysHealthy(Of(h, o.bot), o.succeeded, Count(errors, o.bot), Listed(disabled, o.bot), n);
    forall bot: nat
      ensures HealthyBot(Then(h, o), errors', disabled', n, bot)
    {
      assert HealthyBot(h, errors, disabled, n, bot);
    }
  }

  /** The report grows with each failure that ends a long enough run. */
  lemma Reported(h: Log<Outcome>, c: nat, disabled: set<nat>, n: nat, o: Outcome, disabled': set<nat>)
    requires Healthy(Of(h, o.bot), c, Listed(disabled, o.bot), n) && n >= 1
    requires disabled' == if !o.succeeded && c + 1 >= n then disabled + {o.bot} else disabled
    ensures |disabled'| + Repeats(Then(h, o), n) ==
            |disabled| + Repeats(h, n) + if !o.succeeded && c + 1 >= n then 1 else 0
  {
    EndsWithStreak(Of(h, o.bot), o.succeeded, c, n);
    assert Of(Then(h, o), o.bot) == Of(h, o.bot) + [o.succeeded];
    assert o.bot in disabled ==> disabled + {o.bot} == disabled;
  }

  class HandlerHealth {
    const threshold: nat
    var consecutiveErrors: map<nat, nat>
    var disabledBots: set<nat>
    var handlersRun: nat
    var handlerErrors: nat
    var botsDisabled: nat
    ghost var history: Log<Outcome>

    /** Each counter is the bot's current streak; a bot is disabled exactly when its outcomes
        contain a run of failures as long as the limit; the report counts each disabled bot,
        and again each failure that ends such a run later. */
    ghost predicate Valid()
      reads this
    {
      && AllHealthy(history, consecutiveErrors, disabledBots, Limit(threshold))
      && botsDisabled == |disabledBots| + Repeats(history, Limit(threshold))
    }

    ghost predicate Untouched(errors: map<nat, nat>, disabled: set<nat>, bot: nat)
      reads this
    {
      && (bot in consecutiveErrors <==> bot in errors)
      && (bot in errors ==> consecutiveErrors[bot] == errors[bot])
      && (bot in disabledBots <==> bot in disabled)
    }

    constructor (threshold: nat)
      ensures Valid() && history == Empty && this.threshold == threshold && disabledBots == {}
      ensures handlersRun == 0 && handlerErrors == 0
    {
      this.threshold := threshold;
      consecutiveErrors, disabledBots := map[], {};
      handlersRun, handlerErrors, botsDisabled := 0, 0, 0;
      history := Empty;
    }

    /** Counts one outcome of one bot. */
    method RecordBotHandlerOutcome(bot: nat, succeeded: bool)
      requires Valid()
      modifies this`consecutiveErrors, this`disabledBots, this`botsDisabled, this`history
      ensures Valid() && history == Then(old(history), Outcome(bot, succeeded))
      ensures forall b: nat :: b != bot ==> Untouched(old(consecutiveErrors), old(disabledBots), b)
    {
      ghost var errors, disabled := consecutiveErrors, disabledBots;
      if succeeded {
        consecutiveErrors := consecutiveErrors - {bot};
      } else {
        var count := Count(consecutiveErrors, bot) + 1;
        consecutiveErrors := consecutiveErrors[bot := count];
        if count >= threshold {
          disabledBots := disabledBots + {bot};
          botsDisabled := botsDisabled + 1;
        }
      }
      assert HealthyBot(history, errors, disabled, Limit(threshold), bot);
      Reported(history, Count(errors, bot), disabled, Limit(threshold), Outcome(bot, succeeded), disabledBots);
      Counted(history, errors, disabled, Limit(threshold), Outcome(bot, succeeded), consecutiveErrors, disabledBots);
      history := Then(history, Outcome(bot, succeeded));
    }

    /** Runs the handlers of one event: the bot's own, then the global ones.  An event that
        called nothing changes nothing; otherwise one outcome is counted, a success exactly
        when no call failed. */
    method RunHandlersFor(bot: nat, calls: seq<Attempt>)
      requires Valid()
      modifies this
      ensures Valid()
      ensures Quiet(calls) ==> unchanged(this)
      ensures !Quiet(calls) ==> history == Then(old(history), Outcome(bot, Failed !in calls))
      ensures forall b: nat :: b != bot ==> Untouched(old(consecutiveErrors), old(disabledBots), b)
      ensures handlersRun == old(handlersRun) + multiset(calls)[Succeeded] + multiset(calls)[Failed]
      ensures handlerErrors == old(handlerErrors) + multiset(calls)[Failed]
    {
      var hadError, invokedAny := false, false;
      var i := 0;
      while i < |calls|
        invariant 0 <= i <= |calls|
        invariant hadError <==> Failed in calls[..i]
        invariant invokedAny <==> !Quiet(calls[..i])
        invariant !invokedAny ==> unchanged(this)
        invariant handlersRun == old(handlersRun) + multiset(calls[..i])[Succeeded] + multiset(calls[..i])[Failed]
        invariant handlerErrors == old(handlerErrors) + multiset(calls[..i])[Failed]
        invariant unchanged(this`consecutiveErrors, this`disabledBots, this`botsDisabled, this`history)
      {
        assert calls[..i + 1] == calls[..i] + [calls[i]];
        if calls[i] != Unavailable {
          invokedAny := true;
          handlersRun := handlersRun + 1;
          if calls[i] == Failed {
            handlerErrors := handlerErrors + 1;
            hadError := true;
          }
        }
        i := i + 1;
      }
      assert calls[..i] == calls;
      if invokedAny {
        RecordBotHandlerOutcome(bot, !hadError);
      }
    }

    /** An ordinary event of a disabled bot reaches no handler. */
    method DispatchBotEvent(bot: nat, calls: seq<Attempt>)
      requires Valid()
      modifies this
      ensures Valid()
      ensures bot in old(disabledBots) || Quiet(calls) ==> unchanged(this)
      ensures bot !in old(disabledBots) && !Quiet(calls) ==> history == Then(old(history), Outcome(bot, Failed !in calls))
      ensures bot !in old(disabledBots) ==>
                && handlersRun == old(handlersRun) + multiset(calls)[Succeeded] + multiset(calls)[Failed]
                && handlerErrors == old(handlerErrors) + multiset(calls)[Failed]
    {
      if bot !in disabledBots {
        RunHandlersFor(bot, calls);
      }
    }

    /** A timer counts for its bot, if it has one, and does not fire for a disabled bot. */
    method FireTimer(bot: Option<nat>, call: Attempt)
      requires Valid()
      modifies this
      ensures Valid()
      ensures call == Unavailable || (bot.Some? && bot.value in old(disabledBots)) ==> unchanged(this)
      ensures bot.None? ==> history == old(history) && disabledBots == old(disabledBots)
      ensures call != Unavailable && bot.Some? && bot.value !in old(disabledBots) ==>
                history == Then(old(history), Outcome(bot.value, call == Succeeded))
      ensures bot.None? || bot.value !in old(disabledBots) ==>
                && handlersRun == old(handlersRun) + (if call == Unavailable then 0 else 1)
                && handlerErrors == old(handlerErrors) + (if call == Failed then 1 else 0)
    {
      if bot.Some? && bot.value in disabledBots {
        return;
      }
      if call != Unavailable {
        handlersRun := handlersRun + 1;
        if call == Failed {
          handlerErrors := handlerErrors + 1;
        }
        if bot.Some? {
          RecordBotHandlerOutcome(bot.value, call == Succeeded);
        }
      }
    }
  }

  predicate Quiet(calls: seq<Attempt>) {
    forall k :: 0 <= k < |calls| ==> calls[k] == Unavailable
  }

  /** The report can count one bot twice: two failures with a threshold of 1, the second
      from an action result, which is handed to the handlers of a disabled bot too. */
  method ABotCanBeCountedTwice() returns (h: HandlerHealth)
    ensures fresh(h) && h.Valid() && h.botsDisabled == 2 && h.disabledBots == {0}
  {
    h := new HandlerHealth(1);
    assert [Failed][0] == Failed;
    h.DispatchBotEvent(0, [Failed]);
    h.RunHandlersFor(0, [Failed]);
    TwoFailures(h.history);
    forall b: nat
      ensures b in h.disabledBots <==> b == 0
    {
      assert HealthyBot(h.history, h.consecutiveErrors, h.disabledBots, 1, b);
      OnlyBotZero(h.history, b);
    }
    assert h.disabledBots == {0};
  }

  lemma TwoFailures(h: Log<Outcome>)
    requires h == Then(Then(Empty, Outcome(0, false)), Outcome(0, false))
    ensures Of(h, 0) == [false, false] && HasRun(Of(h, 0), 1) && Repeats(h, 1) == 1
  {
    assert Of(h.before, 0) == [false] && Of(h.before.before, 0) == [];
    assert RunAt([false], 0, 1) && RunAt([false, false], 1, 1);
    assert Repeats(h.before, 1) == 0;
  }

  lemma OnlyBotZero(h: Log<Outcome>, b: nat)
    requires h == Then(Then(Empty, Outcome(0, false)), Outcome(0, false))
    ensures b != 0 ==> !HasRun(Of(h, b), 1)
  {
    if b != 0 {
      assert Of(h.before, b) == [] && Of(h, b) == [];
    }
  }
}
