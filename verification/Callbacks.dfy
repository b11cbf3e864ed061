/** One-shot action callbacks of one worker.

    `Book` is the registry as a value together with its past: which requests ever
    registered a callback, which callbacks were settled (and how), which were evicted
    by a registration into a full registry.  `Balanced` says that every registered
    callback is in exactly one place: still pending, settled once, or evicted. */
module Callbacks {
  import opened Basics
  import opened Queues
  import opened Events
  import opened Inboxes

  const MAX_PENDING_CALLBACKS: nat := 4096

  datatype Callback = Callback(bot: nat, registeredAt: nat)

  /** What the callback was told. */
  datatype Settlement = ByResult(outcome: ActionOutcome) | ByLoss(loss: Loss) | ByTimeout(waited: nat) | ByShutdown

  datatype Entry = Entry(request: nat, how: Settlement)

  datatype Book = Book(pending: map<nat, Callback>, log: Log<Entry>, registered: set<nat>, evicted: set<nat>)

  const BLANK := Book(map[], Empty, {}, {})

  /** How often the callback of request `r` was invoked. */
  function Times(log: Log<Entry>, r: nat): nat {
    match log
    case Empty => 0
    case Then(before, e) => Times(before, r) + if e.request == r then 1 else 0
  }

  /** 1 for members, 0 for the rest. */
  function Has(s: set<nat>, r: nat): nat {
    if r in s then 1 else 0
  }

  ghost predicate Balanced(b: Book) {
    forall r: nat :: Has(b.pending.Keys, r) + Times(b.log, r) + Has(b.evicted, r) == Has(b.registered, r)
  }

  /** Removes and invokes the callback of `r`, if it is still pending. */
  function Settle(b: Book, r: nat, how: Settlement): Book {
    if r in b.pending then b.(pending := b.pending - {r}, log := Then(b.log, Entry(r, how))) else b
  }

  /** The oldest pending callbacks: those no other was registered before. */
  predicate Oldest(b: Book, r: nat) {
    r in b.pending && forall q <- b.pending :: b.pending[r].registeredAt <= b.pending[q].registeredAt
  }

  /** Registers a callback for `r`; `victim` is who has to go if the registry is full. */
  function Register(b: Book, r: nat, cb: Callback, victim: nat): Book {
    var room := if |b.pending| >= MAX_PENDING_CALLBACKS
                then b.(pending := b.pending - {victim}, evicted := b.evicted + {victim}) else b;
    room.(pending := room.pending[r := cb], registered := room.registered + {r})
  }

  lemma SettleBalanced(b: Book, r: nat, how: Settlement)
    requires Balanced(b)
    ensures Balanced(Settle(b, r, how))
    ensures r !in Settle(b, r, how).pending
    ensures r in b.pending ==> Times(Settle(b, r, how).log, r) == 1
  {
  }

  lemma RegisterBalanced(b: Book, r: nat, cb: Callback, victim: nat)
    requires Balanced(b) && r !in b.registered
    requires |b.pending| >= MAX_PENDING_CALLBACKS ==> victim in b.pending
    ensures Balanced(Register(b, r, cb, victim))
  {
  }

  /** Settles the first `n` requests of `ids`, in order. */
  function SettleAll(b: Book, ids: seq<nat>, how: nat -> Settlement, n: nat): Book
    requires n <= |ids|
  {
    if n == 0 then b else Settle(SettleAll(b, ids, how, n - 1), ids[n - 1], how(ids[n - 1]))
  }

  /** Settles the first `n` recorded failures, in order. */
  function SettleLosses(b: Book, fs: seq<Failure>, n: nat): Book
    requires n <= |fs|
  {
    if n == 0 then b else Settle(SettleLosses(b, fs, n - 1), fs[n - 1].request, ByLoss(fs[n - 1].loss))
  }

  ghost predicate Enumerates(ids: seq<nat>, s: set<nat>) {
    && (forall i :: 0 <= i < |ids| ==> ids[i] in s)
    && (forall r <- s :: r in ids)
    && (forall i, j :: 0 <= i < j < |ids| ==> ids[i] != ids[j])
  }

  /** Settling an enumeration of pending requests removes and invokes each exactly once
      and leaves every other callback as it was. */
  lemma {:induction false} SettleAllExactly(b: Book, ids: seq<nat>, how: nat -> Settlement, n: nat)
    requires n <= |ids| && forall i :: 0 <= i < |ids| ==> ids[i] in b.pending
    requires forall i, j :: 0 <= i < j < |ids| ==> ids[i] != ids[j]
    ensures
      var a := SettleAll(b, ids, how, n);
      && (forall r :: r in a.pending <==> r in b.pending && r !in ids[..n])
      && (forall r <- a.pending :: a.pending[r] == b.pending[r])
      && (forall r: nat :: Times(a.log, r) == Times(b.log, r) + (if r in ids[..n] then 1 else 0))
      && a.registered == b.registered && a.evicted == b.evicted
  {
    if n > 0 {
      SettleAllExactly(b, ids, how, n - 1);
      assert ids[..n] == ids[..n - 1] + [ids[n - 1]];
    }
  }

  /** One of the first `n` losses is about request `r`. */
  predicate Lost(taken: seq<Failure>, n: nat, r: nat)
    requires n <= |taken|
  {
    exists i :: 0 <= i < n && taken[i].request == r
  }

  lemma LostNext(taken: seq<Failure>, n: nat)
    requires n < |taken|
    ensures forall r :: Lost(taken, n + 1, r) <==> Lost(taken, n, r) || taken[n].request == r
  {
    forall r
      ensures Lost(taken, n + 1, r) <==> Lost(taken, n, r) || taken[n].request == r
    {
      if Lost(taken, n, r) {
        var i :| 0 <= i < n && taken[i].request == r;
        assert Lost(taken, n + 1, r);
      }
    }
  }

  /** Time since registration; zero rather than negative. */
  function Elapsed(now: nat, since: nat): nat {
    if since <= now then now - since else 0
  }

  function Expired(pending: map<nat, Callback>, now: nat, timeout: nat): set<nat> {
    set r | r in pending && Elapsed(now, pending[r].registeredAt) > timeout
  }

  function Expiry(pending: map<nat, Callback>, now: nat): nat -> Settlement {
    r => ByTimeout(if r in pending then Elapsed(now, pending[r].registeredAt) else 0)
  }

  class CallbackRegistry {
    var pending: map<nat, Callback>
    ghost var log: Log<Entry>
    ghost var registered: set<nat>
    ghost var evicted: set<nat>

    ghost function Value(): Book
      reads this
    {
      Book(pending, log, registered, evicted)
    }

    constructor ()
      ensures Value() == BLANK
    {
      pending, log, registered, evicted := map[], Empty, {}, {};
    }

    /** Removes the callback of `r` and invokes it, if there is one. */
    method Resolve(r: nat, how: Settlement) returns (fired: bool)
      modifies this
      ensures fired == (r in old(pending))
      ensures Value() == Settle(old(Value()), r, how)
      ensures pending == old(pending) - {r} && registered == old(registered) && evicted == old(evicted)
      ensures log == if fired then Then(old(log), Entry(r, how)) else old(log)
    {
      fired := r in pending;
      if fired {
        pending := pending - {r};
        log := Then(log, Entry(r, how));
      }
    }

    method FindOldest() returns (oldest: nat)
      requires |pending| > 0
      ensures Oldest(Value(), oldest)
    {
      var rest := pending.Keys;
      assert |rest| == |pending|;
      oldest :| oldest in rest;
      rest := rest - {oldest};
      while rest != {}
        invariant rest <= pending.Keys && oldest in pending
        invariant forall q <- pending.Keys - rest :: pending[oldest].registeredAt <= pending[q].registeredAt
      {
        var q :| q in rest;
        if pending[q].registeredAt < pending[oldest].registeredAt {
          oldest := q;
        }
        rest := rest - {q};
      }
      assert forall q <- pending :: q in pending.Keys - rest;
    }

    /** A full registry evicts its oldest callback, which is then never invoked. */
    method Add(r: nat, cb: Callback) returns (ghost victim: nat)
      requires r !in registered && Balanced(Value())
      modifies this
      ensures |old(pending)| >= MAX_PENDING_CALLBACKS ==> Oldest(old(Value()), victim)
      ensures Value() == Register(old(Value()), r, cb, victim)
      ensures Balanced(Value())
      ensures log == old(log) && registered == old(registered) + {r} && r in pending && pending[r] == cb
      ensures |old(pending)| < 4096 ==> pending == old(pending)[r := cb] && evicted == old(evicted)
      ensures |old(pending)| >= 4096 ==>
                && victim in old(pending) && pending == (old(pending) - {victim})[r := cb] && evicted == old(evicted) + {victim}
                && forall q <- old(pending) :: old(pending)[victim].registeredAt <= old(pending)[q].registeredAt
    {
      victim := r;
      if |pending| >= MAX_PENDING_CALLBACKS {
        var oldest := FindOldest();
        victim := oldest;
        pending := pending - {oldest};
        evicted := evicted + {oldest};
      }
      pending := pending[r := cb];
      registered := registered + {r};
      RegisterBalanced(old(Value()), r, cb, victim);
    }

    method ResolveOverflowed(taken: seq<Failure>)
      modifies this
      ensures Value() == SettleLosses(old(Value()), taken, |taken|)
      ensures forall r :: r in pending <==> r in old(pending) && !Lost(taken, |taken|, r)
      ensures forall r: nat :: Times(log, r) == Times(old(log), r) + if r in old(pending) && Lost(taken, |taken|, r) then 1 else 0
    {
      for i := 0 to |taken|
        invariant Value() == SettleLosses(old(Value()), taken, i)
        invariant forall r :: r in pending <==> r in old(pending) && !Lost(taken, i, r)
        invariant forall r: nat :: Times(log, r) == Times(old(log), r) + if r in old(pending) && Lost(taken, i, r) then 1 else 0
      {
        LostNext(taken, i);
        var _ := Resolve(taken[i].request, ByLoss(taken[i].loss));
      }
    }

    /** Settles the callbacks of `ids`, one at a time. */
    method ResolveEach(ids: seq<nat>, how: nat -> Settlement)
      modifies this
      ensures Value() == SettleAll(old(Value()), ids, how, |ids|)
    {
      for i := 0 to |ids|
        invariant Value() == SettleAll(old(Value()), ids, how, i)
      {
        var _ := Resolve(ids[i], how(ids[i]));
      }
    }

    /** The callbacks that have waited longer than the timeout, and only those, are told
        so, each once; the order is the hash map's. */
    method SweepTimeouts(now: nat, timeout: nat) returns (expired: seq<nat>)
      modifies this
      ensures Enumerates(expired, Expired(old(pending), now, timeout))
      ensures Value() == SettleAll(old(Value()), expired, Expiry(old(pending), now), |expired|)
      ensures pending.Keys == old(pending).Keys - Expired(old(pending), now, timeout)
      ensures forall r: nat :: Times(log, r) == Times(old(log), r) + Has(Expired(old(pending), now, timeout), r)
      ensures forall r <- old(pending) ::
                if now > old(pending)[r].registeredAt + timeout then r !in pending && Times(log, r) == Times(old(log), r) + 1
                else r in pending && Times(log, r) == Times(old(log), r)
    {
      expired := ListOf(Expired(pending, now, timeout));
      ghost var before := Value();
      ResolveEach(expired, Expiry(pending, now));
      SettleAllExactly(before, expired, Expiry(before.pending, now), |expired|);
      assert expired[..|expired|] == expired;
    }

    /** Before the worker returns: nothing stays pending, and what was still pending is
        told about the shutdown, each once. */
    method ShutdownCleanup() returns (ids: seq<nat>)
      requires Balanced(Value())
      modifies this
      ensures pending == map[] && Balanced(Value())
      ensures Enumerates(ids, old(pending).Keys)
      ensures Value() == SettleAll(old(Value()), ids, _ => ByShutdown, |ids|)
      ensures forall r <- registered :: Times(log, r) == if r in evicted then 0 else 1
    {
      ids := ListOf(pending.Keys);
      ghost var before := Value();
      ResolveEach(ids, _ => ByShutdown);
      SettleAllExactly(before, ids, _ => ByShutdown, |ids|);
      assert ids[..|ids|] == ids;
      assert pending == map[];
      forall r: nat
        ensures Has(pending.Keys, r) + Times(log, r) + Has(evicted, r) == Has(registered, r)
      {
        assert Has(before.pending.Keys, r) + Times(before.log, r) + Has(before.evicted, r) == Has(before.registered, r);
      }
    }

    method ListOf(s: set<nat>) returns (ids: seq<nat>)
      ensures Enumerates(ids, s)
    {
      ids := [];
      var rest := s;
      while rest != {}
        invariant rest <= s && Enumerates(ids, s - rest)
      {
        var r :| r in rest;
        ids, rest := ids + [r], rest - {r};
      }
      assert s - rest == s;
    }
  }
}
