/** The bounded three-lane inbound queue of one worker.

    The queue is specified by its history: the envelopes pushed since the last
    drain.  `Ready` says what a drain of that history delivers, without mentioning
    deques, maps or order lists; `PriorityQueue` is proved to deliver exactly that,
    and its statistics are proved against everything pushed and delivered so far. */
module Queues {
  import opened Basics

  datatype Priority = High | Coalescible | Low

  /** An item as the queue sees it: its lane, its kind, and a payload it never looks at. */
  datatype QueueItem<E> = QueueItem(priority: Priority, name: string, payload: E)

  datatype Envelope<E> = Envelope(bot: nat, event: QueueItem<E>, botSeq: nat)

  datatype PushOutcome = Accepted | DroppedOldest | Coalesced | CriticalOverflow | Closed

  datatype QueueStats = QueueStats(peakDepth: nat, dropped: nat, coalesced: nat, accepted: nat)

  type Key = (nat, string)

  /** The pushes since the last drain. */
  type History<E> = Log<Envelope<E>>

  // ---------------------------------------------------------------- specification

  /** The pushes that belong to lane `p`, in arrival order. */
  function Lane<E>(h: History<E>, p: Priority): seq<Envelope<E>> {
    match h
    case Empty => []
    case Then(g, e) => if e.event.priority == p then Lane(g, p) + [e] else Lane(g, p)
  }

  function KeyOf<E>(e: Envelope<E>): Key {
    (e.bot, e.event.name)
  }

  /** Whether `e` is a state update for the coalescing key `k`. */
  predicate Updates<E>(e: Envelope<E>, k: Key) {
    e.event.priority == Coalescible && KeyOf(e) == k
  }

  /** The coalescing keys that were pushed, ordered by first appearance. */
  function Keys<E>(h: History<E>): seq<Key> {
    match h
    case Empty => []
    case Then(g, e) =>
      if e.event.priority == Coalescible && KeyOf(e) !in Keys(g) then Keys(g) + [KeyOf(e)] else Keys(g)
  }

  /** The newest envelope with coalescing key `k`. */
  function Latest<E>(h: History<E>, k: Key): Envelope<E>
    requires k in Keys(h)
  {
    if Updates(h.last, k) then h.last else Latest(h.before, k)
  }

  /** One envelope per key: the newest, in the order the keys first appeared. */
  function Newest<E>(h: History<E>): seq<Envelope<E>> {
    seq(|Keys(h)|, i requires 0 <= i < |Keys(h)| => Latest(h, Keys(h)[i]))
  }

  function FirstN<T>(s: seq<T>, n: nat): seq<T> {
    if |s| <= n then s else s[..n]
  }

  function LastN<T>(s: seq<T>, n: nat): seq<T> {
    if |s| <= n then s else s[|s| - n..]
  }

  function Max(a: nat, b: nat): nat {
    if a < b then b else a
  }

  function HighLane<E>(h: History<E>, highCapacity: nat): seq<Envelope<E>> {
    FirstN(Lane(h, High), highCapacity)
  }

  /** A low lane of capacity 0 still holds one envelope: a push into a full lane evicts
      first and then appends. */
  function LowLane<E>(h: History<E>, lowCapacity: nat): seq<Envelope<E>> {
    LastN(Lane(h, Low), Max(1, lowCapacity))
  }

  /** What a drain delivers. */
  function Ready<E>(h: History<E>, highCapacity: nat, lowCapacity: nat): seq<Envelope<E>> {
    HighLane(h, highCapacity) + Newest(h) + LowLane(h, lowCapacity)
  }

  /** The outcome reported for pushing `e` next. */
  function PushResult<E>(h: History<E>, e: Envelope<E>, highCapacity: nat, lowCapacity: nat): PushOutcome {
    match e.event.priority
    case High => if |Lane(h, High)| >= highCapacity then CriticalOverflow else Accepted
    case Coalescible => if KeyOf(e) in Keys(h) then Coalesced else Accepted
    case Low => if |Lane(h, Low)| >= lowCapacity then DroppedOldest else Accepted
  }

  // ------------------------------- the specification against positions in the arrivals

  ghost predicate FirstAt<E>(s: seq<Envelope<E>>, k: Key, i: nat) {
    i < |s| && Updates(s[i], k) && forall j :: 0 <= j < i ==> !Updates(s[j], k)
  }

  ghost predicate LastAt<E>(s: seq<Envelope<E>>, k: Key, i: nat) {
    i < |s| && Updates(s[i], k) && forall j :: i < j < |s| ==> !Updates(s[j], k)
  }

  /** A key is listed exactly when some update for it arrived. */
  lemma {:induction false} KeysListed<E>(h: History<E>, k: Key)
    ensures k in Keys(h) <==> exists i :: 0 <= i < |Entries(h)| && Updates(Entries(h)[i], k)
  {
    if h.Then? {
      KeysListed(h.before, k);
      var s, t := Entries(h), Entries(h.before);
      assert forall i :: 0 <= i < |t| ==> s[i] == t[i];
      assert s[|t|] == h.last;
    }
  }

  /** Keys are listed once each, in the order in which their first updates arrived. */
  lemma {:induction false} KeysInFirstAppearanceOrder<E>(h: History<E>, i: nat, j: nat, fi: nat, fj: nat)
    requires i < |Keys(h)| && j < |Keys(h)|
    requires FirstAt(Entries(h), Keys(h)[i], fi) && FirstAt(Entries(h), Keys(h)[j], fj)
    ensures i < j <==> fi < fj
  {
    var s, t, ks := Entries(h), Entries(h.before), Keys(h.before);
    assert forall a :: 0 <= a < |t| ==> s[a] == t[a];
    KeysListed(h.before, Keys(h)[i]);
    KeysListed(h.before, Keys(h)[j]);
    assert i < |ks| ==> fi < |t|;
    assert j < |ks| ==> fj < |t|;
    if i < |ks| && j < |ks| {
      KeysInFirstAppearanceOrder(h.before, i, j, fi, fj);
    }
  }

  /** The value delivered for a key is the one that arrived last. */
  lemma {:induction false} LatestIsLast<E>(h: History<E>, k: Key, i: nat)
    requires LastAt(Entries(h), k, i)
    ensures k in Keys(h) && Latest(h, k) == Entries(h)[i]
  {
    KeysListed(h, k);
    if i < |Entries(h)| - 1 {
      assert Entries(h)[|Entries(h)| - 1] == h.last;
      assert forall a :: 0 <= a < |Entries(h.before)| ==> Entries(h)[a] == Entries(h.before)[a];
      LatestIsLast(h.before, k, i);
    }
  }

  lemma {:induction false} KeysDistinct<E>(h: History<E>)
    ensures NoRepeats(Keys(h))
  {
    if h.Then? {
      KeysDistinct(h.before);
    }
  }

  /** A lane holds items of its own kind only. */
  lemma {:induction false} LaneMembers<E>(h: History<E>, p: Priority)
    ensures forall i :: 0 <= i < |Lane(h, p)| ==> Lane(h, p)[i].event.priority == p
  {
    if h.Then? {
      LaneMembers(h.before, p);
    }
  }

  lemma {:induction false} LatestUpdates<E>(h: History<E>, k: Key)
    requires k in Keys(h)
    ensures Updates(Latest(h, k), k)
  {
    if !Updates(h.last, k) {
      LatestUpdates(h.before, k);
    }
  }

  /** The positions in the arrivals of what belongs to lane `p`. */
  ghost function Arrivals<E>(h: History<E>, p: Priority): seq<nat> {
    match h
    case Empty => []
    case Then(g, e) => if e.event.priority == p then Arrivals(g, p) + [|Entries(g)|] else Arrivals(g, p)
  }

  /** The positions increase, and they are exactly those of the lane's kind. */
  lemma {:induction false} ArrivalsOfLane<E>(h: History<E>, p: Priority)
    ensures forall i :: 0 <= i < |Arrivals(h, p)| ==> Arrivals(h, p)[i] < |Entries(h)|
    ensures forall i, j :: 0 <= i < j < |Arrivals(h, p)| ==> Arrivals(h, p)[i] < Arrivals(h, p)[j]
  {
    if h.Then? {
      ArrivalsOfLane(h.before, p);
    }
  }

  lemma {:induction false} ArrivalsComplete<E>(h: History<E>, p: Priority, j: nat)
    requires j < |Entries(h)|
    ensures Entries(h)[j].event.priority == p <==> j in Arrivals(h, p)
  {
    ArrivalsOfLane(h.before, p);
    if j < |Entries(h.before)| {
      ArrivalsComplete(h.before, p, j);
      assert Entries(h)[j] == Entries(h.before)[j];
    } else {
      assert Entries(h)[j] == h.last;
    }
  }

  /** A lane is what arrived for it, in the order of arrival. */
  lemma {:induction false} LaneInArrivalOrder<E>(h: History<E>, p: Priority, i: nat)
    requires i < |Lane(h, p)|
    ensures |Arrivals(h, p)| == |Lane(h, p)| && Arrivals(h, p)[i] < |Entries(h)|
    ensures Lane(h, p)[i] == Entries(h)[Arrivals(h, p)[i]]
  {
    ArrivalsOfLane(h, p);
    LaneSize(h.before, p);
    if i < |Lane(h.before, p)| {
      LaneInArrivalOrder(h.before, p, i);
      assert Arrivals(h, p)[i] == Arrivals(h.before, p)[i];
    }
  }

  lemma {:induction false} LaneSize<E>(h: History<E>, p: Priority)
    ensures |Arrivals(h, p)| == |Lane(h, p)|
  {
    if h.Then? {
      LaneSize(h.before, p);
    }
  }

  lemma FirstNKeeps<T>(s: seq<T>, n: nat, i: nat)
    ensures |FirstN(s, n)| == if |s| < n then |s| else n
    ensures i < |FirstN(s, n)| ==> FirstN(s, n)[i] == s[i]
  {
  }

  lemma LastNKeeps<T>(s: seq<T>, n: nat, i: nat)
    ensures |LastN(s, n)| == if |s| < n then |s| else n
    ensures i < |LastN(s, n)| ==> LastN(s, n)[i] == s[|s| - |LastN(s, n)| + i]
  {
  }

  /** The high lane keeps the first of its arrivals. */
  lemma HighLaneKeeps<E>(h: History<E>, highCapacity: nat, i: nat)
    ensures |HighLane(h, highCapacity)| == if |Lane(h, High)| < highCapacity then |Lane(h, High)| else highCapacity
    ensures i < |HighLane(h, highCapacity)| ==> HighLane(h, highCapacity)[i] == Lane(h, High)[i]
  {
    FirstNKeeps(Lane(h, High), highCapacity, i);
  }

  /** The low lane keeps the last of its arrivals; a capacity of 0 keeps one. */
  lemma LowLaneKeeps<E>(h: History<E>, lowCapacity: nat, n: nat, i: nat)
    requires n == if lowCapacity == 0 then 1 else lowCapacity
    ensures |LowLane(h, lowCapacity)| == if |Lane(h, Low)| < n then |Lane(h, Low)| else n
    ensures i < |LowLane(h, lowCapacity)| ==>
              LowLane(h, lowCapacity)[i] == Lane(h, Low)[|Lane(h, Low)| - |LowLane(h, lowCapacity)| + i]
  {
    LastNKeeps(Lane(h, Low), n, i);
  }

  /** Of two pending updates the later displaces the earlier exactly when bot and kind agree. */
  lemma DisplacedExactlyWhen<E>(x: Envelope<E>, y: Envelope<E>, highCapacity: nat, lowCapacity: nat)
    requires x.event.priority == Coalescible && y.event.priority == Coalescible
    ensures Ready(Then(Then(Empty, x), y), highCapacity, lowCapacity) ==
            if x.bot == y.bot && x.event.name == y.event.name then [y] else [x, y]
  {
    var h := Then(Empty, x);
    assert Keys(h) == [(x.bot, x.event.name)] && Latest(h, KeyOf(x)) == x;
    assert Lane(h, High) == [] && Lane(h, Low) == [];
    var g := Then(h, y);
    if x.bot == y.bot && x.event.name == y.event.name {
      assert Keys(g) == [KeyOf(y)] && Newest(g) == [y];
    } else {
      assert Keys(g) == [KeyOf(x), KeyOf(y)] && Newest(g) == [x, y];
    }
  }

  // ------------------------------------------------------- effect of one more push

  lemma FirstNPush<T>(s: seq<T>, e: T, n: nat)
    ensures FirstN(s + [e], n) == if |FirstN(s, n)| < n then FirstN(s, n) + [e] else FirstN(s, n)
  {
  }

  /** The coalescing slots against the history: the order list is the key list, and
      each key maps to its newest envelope. */
  ghost predicate Coalesces<E>(h: History<E>, slots: map<Key, Envelope<E>>, order: seq<Key>) {
    && order == Keys(h)
    && |slots| == |order|
    && (forall k :: k in slots <==> k in order)
    && (forall k <- order :: slots[k] == Latest(h, k))
  }

  lemma CoalescesPush<E>(h: History<E>, e: Envelope<E>, slots: map<Key, Envelope<E>>, order: seq<Key>)
    requires Coalesces(h, slots, order) && e.event.priority == Coalescible
    ensures Coalesces(Then(h, e), slots[KeyOf(e) := e], if KeyOf(e) in slots then order else order + [KeyOf(e)])
  {
  }

  ghost predicate LanesHold<E>(h: History<E>, highCapacity: nat, lowCapacity: nat, high: seq<Envelope<E>>,
                               slots: map<Key, Envelope<E>>, order: seq<Key>, low: seq<Envelope<E>>)
  {
    high == HighLane(h, highCapacity) && Coalesces(h, slots, order) && low == LowLane(h, lowCapacity)
  }

  lemma LanesEmpty<E>(highCapacity: nat, lowCapacity: nat)
    ensures LanesHold<E>(Empty, highCapacity, lowCapacity, [], map[], [], [])
    ensures Parts<E>(Empty, highCapacity, lowCapacity) == Tally(0, 0, 0)
  {
  }

  lemma LanesAfterHigh<E>(h: History<E>, e: Envelope<E>, highCapacity: nat, lowCapacity: nat, high: seq<Envelope<E>>,
                          slots: map<Key, Envelope<E>>, order: seq<Key>, low: seq<Envelope<E>>, high': seq<Envelope<E>>)
    requires LanesHold(h, highCapacity, lowCapacity, high, slots, order, low) && e.event.priority == High
    requires high' == if |high| >= highCapacity then high else high + [e]
    ensures LanesHold(Then(h, e), highCapacity, lowCapacity, high', slots, order, low)
    ensures |high| >= highCapacity <==> |Lane(h, High)| >= highCapacity
  {
  }

  lemma LanesAfterUpdate<E>(h: History<E>, e: Envelope<E>, highCapacity: nat, lowCapacity: nat, high: seq<Envelope<E>>,
                            slots: map<Key, Envelope<E>>, order: seq<Key>, low: seq<Envelope<E>>,
                            slots': map<Key, Envelope<E>>, order': seq<Key>)
    requires LanesHold(h, highCapacity, lowCapacity, high, slots, order, low) && e.event.priority == Coalescible
    requires slots' == slots[KeyOf(e) := e] && order' == if KeyOf(e) in slots then order else order + [KeyOf(e)]
    ensures LanesHold(Then(h, e), highCapacity, lowCapacity, high, slots', order', low)
    ensures KeyOf(e) in slots <==> KeyOf(e) in Keys(h)
  {
    CoalescesPush(h, e, slots, order);
  }

  /** A low push: into a full lane it evicts the oldest first. */
  lemma LanesAfterLow<E>(h: History<E>, e: Envelope<E>, highCapacity: nat, lowCapacity: nat, high: seq<Envelope<E>>,
                         slots: map<Key, Envelope<E>>, order: seq<Key>, low: seq<Envelope<E>>, low': seq<Envelope<E>>)
    requires LanesHold(h, highCapacity, lowCapacity, high, slots, order, low) && e.event.priority == Low
    requires low' == (if |low| < lowCapacity || low == [] then low else low[1..]) + [e]
    ensures LanesHold(Then(h, e), highCapacity, lowCapacity, high, slots, order, low')
    ensures |low| >= lowCapacity <==> |Lane(h, Low)| >= lowCapacity
  {
    LowLanePush(Lane(h, Low), e, lowCapacity);
    CoalescesKept(h, e, slots, order);
  }

  lemma LowLanePush<T>(s: seq<T>, e: T, capacity: nat)
    ensures
      var t := LastN(s, Max(1, capacity));
      && LastN(s + [e], Max(1, capacity)) == (if |t| < capacity || t == [] then t else t[1..]) + [e]
      && (|t| >= capacity <==> |s| >= capacity)
  {
  }

  lemma CoalescesKept<E>(h: History<E>, e: Envelope<E>, slots: map<Key, Envelope<E>>, order: seq<Key>)
    requires Coalesces(h, slots, order) && e.event.priority != Coalescible
    ensures Coalesces(Then(h, e), slots, order)
  {
  }

  ghost predicate NoRepeats(ks: seq<Key>) {
    forall i, j :: 0 <= i < j < |ks| ==> ks[i] != ks[j]
  }

  /** The loop of the drain: pops the keys in order and takes each slot's envelope. */
  method TakeInOrder<E>(slots: map<Key, Envelope<E>>, order: seq<Key>)
    returns (out: seq<Envelope<E>>, left: map<Key, Envelope<E>>, rest: seq<Key>)
    requires NoRepeats(order) && |slots| == |order| && forall k <- order :: k in slots
    ensures |out| == |order| && forall i :: 0 <= i < |out| ==> out[i] == slots[order[i]]
    ensures left == map[] && rest == []
  {
    out, left, rest := [], slots, order;
    while rest != []
      invariant |out| <= |order| && rest == order[|out|..]
      invariant forall i :: 0 <= i < |out| ==> out[i] == slots[order[i]]
      invariant forall i :: |out| <= i < |order| ==> order[i] in left && left[order[i]] == slots[order[i]]
      invariant |left| == |rest|
      decreases |rest|
    {
      var key := rest[0];
      rest := rest[1..];
      if key in left {
        out := out + [left[key]];
        Removed(left, key);
        left := left - {key};
      }
    }
  }

  lemma Removed<K, V>(m: map<K, V>, k: K)
    requires k in m
    ensures |m - {k}| == |m| - 1
  {
  }

  // --------------------------------------------------------- what a drain delivers

  /** How many envelopes of each lane a batch holds. */
  datatype Tally = Tally(high: nat, coalescible: nat, low: nat) {
    function Add(p: Priority): Tally {
      match p
      case High => this.(high := high + 1)
      case Coalescible => this.(coalescible := coalescible + 1)
      case Low => this.(low := low + 1)
    }
    function Plus(t: Tally): Tally {
      Tally(high + t.high, coalescible + t.coalescible, low + t.low)
    }
  }

  /** The sizes of the three parts of a drained batch. */
  function Parts<E>(h: History<E>, highCapacity: nat, lowCapacity: nat): Tally {
    Tally(|HighLane(h, highCapacity)|, |Keys(h)|, |LowLane(h, lowCapacity)|)
  }

  /** The three parts of a drained batch hold high, coalescible and low items. */
  lemma ReadyByLane<E>(h: History<E>, highCapacity: nat, lowCapacity: nat, i: nat)
    requires i < |Ready(h, highCapacity, lowCapacity)|
    ensures Ready(h, highCapacity, lowCapacity)[i].event.priority ==
            var t := Parts(h, highCapacity, lowCapacity);
            if i < t.high then High else if i < t.high + t.coalescible then Coalescible else Low
  {
    LaneMembers(h, High);
    LaneMembers(h, Low);
    var t := Parts(h, highCapacity, lowCapacity);
    if t.high <= i < t.high + t.coalescible {
      LatestUpdates(h, Keys(h)[i - t.high]);
    }
  }

  // ------------------------------------------------------------------- peak depths

  datatype Depths = Depths(high: nat, coalesced: nat, low: nat) {
    function Total(): nat {
      high + coalesced + low
    }
    function Join(d: Depths): Depths {
      Depths(Max(high, d.high), Max(coalesced, d.coalesced), Max(low, d.low))
    }
  }

  /** Lane by lane, the greatest depth in the log. */
  function Peak(ds: Log<Depths>): Depths {
    match ds
    case Empty => Depths(0, 0, 0)
    case Then(before, d) => Peak(before).Join(d)
  }

  lemma {:induction false} PeakBounds(ds: Log<Depths>, d: Depths)
    requires d in Entries(ds)
    ensures d.high <= Peak(ds).high && d.coalesced <= Peak(ds).coalesced && d.low <= Peak(ds).low
  {
    if d in Entries(ds.before) {
      PeakBounds(ds.before, d);
    }
  }

  /** The reported peak is the sum of the lane peaks.  It bounds every combined depth
      the queue had, and it is a combined depth the queue really had exactly when the
      three lanes were at their peaks at the same moment. */
  lemma {:induction false} PeakDepthBoundsEveryDepth(ds: Log<Depths>)
    ensures forall d <- Entries(ds) :: d.Total() <= Peak(ds).Total()
    ensures (exists d <- Entries(ds) :: d.Total() == Peak(ds).Total()) <==> Peak(ds) in Entries(ds)
  {
    forall d | d in Entries(ds)
      ensures d.high <= Peak(ds).high && d.coalesced <= Peak(ds).coalesced && d.low <= Peak(ds).low
    {
      PeakBounds(ds, d);
    }
  }

  // ------------------------------------------------------------------------- class

  class PriorityQueue<E> {
    const highCapacity: nat
    const lowCapacity: nat
    var high: seq<Envelope<E>>
    var coalesced: map<Key, Envelope<E>>
    var coalesceOrder: seq<Key>
    var low: seq<Envelope<E>>
    var statsHigh: QueueStats
    var statsCoalesced: QueueStats
    var statsLow: QueueStats

    /** The envelopes pushed since the last drain. */
    ghost var history: History<E>
    /** How many envelopes of each lane were ever pushed and ever delivered. */
    ghost var pushed: Tally
    ghost var delivered: Tally
    /** Lane depths after every operation so far. */
    ghost var depths: Log<Depths>

    /** The lanes hold what the specification says a drain must deliver. */
    ghost predicate LanesValid()
      reads this
    {
      LanesHold(history, highCapacity, lowCapacity, high, coalesced, coalesceOrder, low)
    }

    /** Nothing is unaccounted for: every push is counted once, and what was accepted
        has been delivered or is still queued.  For a low lane of capacity 0 the last
        equation holds exactly while nothing low has been pushed. */
    ghost predicate Accounted()
      reads this
    {
      && statsHigh.accepted + statsHigh.dropped == pushed.high
      && statsHigh.accepted == delivered.high + |high|
      && statsCoalesced.accepted + statsCoalesced.coalesced == pushed.coalescible
      && statsCoalesced.accepted == delivered.coalescible + |coalesceOrder|
      && statsLow.accepted + statsLow.dropped == pushed.low
      && (statsLow.accepted == delivered.low + |low| <==> lowCapacity > 0 || pushed.low == 0)
      && (lowCapacity == 0 ==> statsLow.accepted == 0)
      && (pushed.low > 0 ==> delivered.low + |low| > 0)
    }

    ghost predicate PeaksValid()
      reads this
    {
      && Depths(statsHigh.peakDepth, statsCoalesced.peakDepth, statsLow.peakDepth) == Peak(depths)
      && |high| <= statsHigh.peakDepth
      && |coalesced| <= statsCoalesced.peakDepth
      && |low| <= statsLow.peakDepth
    }

    ghost predicate Valid()
      reads this
    {
      LanesValid() && Accounted() && PeaksValid()
    }

    constructor (highCapacity: nat, lowCapacity: nat)
      ensures Valid()
      ensures this.highCapacity == highCapacity && this.lowCapacity == lowCapacity
      ensures history == Empty && depths == Empty && pushed == delivered == Tally(0, 0, 0)
      ensures statsHigh.dropped == 0
    {
      this.highCapacity, this.lowCapacity := highCapacity, lowCapacity;
      high, coalesced, coalesceOrder, low := [], map[], [], [];
      statsHigh := QueueStats(0, 0, 0, 0);
      statsCoalesced := QueueStats(0, 0, 0, 0);
      statsLow := QueueStats(0, 0, 0, 0);
      history, pushed, delivered := Empty, Tally(0, 0, 0), Tally(0, 0, 0);
      depths := Empty;
    }

    /** Appends `e` to the ghost history, and the lane depths to the depth log. */
    ghost method Note(e: Envelope<E>)
      modifies `history, `pushed, `depths
      ensures history == Then(old(history), e)
      ensures pushed == old(pushed).Add(e.event.priority)
      ensures depths == Then(old(depths), Depths(|high|, |coalesced|, |low|))
    {
      history, pushed := Then(history, e), pushed.Add(e.event.priority);
      depths := Then(depths, Depths(|high|, |coalesced|, |low|));
    }

    /** One more outcome in the totals. */
    static function Counted(t: (nat, nat, nat), outcome: PushOutcome): (nat, nat, nat) {
      match outcome
      case Accepted => (t.0 + 1, t.1, t.2)
      case DroppedOldest => (t.0, t.1 + 1, t.2)
      case CriticalOverflow => (t.0, t.1 + 1, t.2)
      case Coalesced => (t.0, t.1, t.2 + 1)
      case Closed => t
    }

    method PushHigh(e: Envelope<E>) returns (outcome: PushOutcome)
      requires Valid() && e.event.priority == High
      modifies this
      ensures Valid() && history == Then(old(history), e)
      ensures pushed == old(pushed).Add(e.event.priority) && delivered == old(delivered)
      ensures outcome == if |Lane(old(history), High)| >= highCapacity then CriticalOverflow else Accepted
      ensures depths == Then(old(depths), Depths(|high|, |coalesced|, |low|))
      ensures statsHigh.dropped == old(statsHigh.dropped) + if outcome == CriticalOverflow then 1 else 0
      ensures Totals() == Counted(old(Totals()), outcome)
    {
      if |high| >= highCapacity {
        statsHigh := statsHigh.(dropped := statsHigh.dropped + 1);
        outcome := CriticalOverflow;
      } else {
        high := high + [e];
        statsHigh := statsHigh.(accepted := statsHigh.accepted + 1,
                                peakDepth := Max(statsHigh.peakDepth, |high|));
        outcome := Accepted;
      }
      LanesAfterHigh(history, e, highCapacity, lowCapacity, old(high), coalesced, coalesceOrder, low, high);
      Note(e);
    }

    method InsertSlot(e: Envelope<E>) returns (outcome: PushOutcome)
      modifies `coalesced, `coalesceOrder, `statsCoalesced
      ensures outcome == if KeyOf(e) in old(coalesced) then Coalesced else Accepted
      ensures coalesced == old(coalesced)[KeyOf(e) := e]
      ensures coalesceOrder == if KeyOf(e) in old(coalesced) then old(coalesceOrder) else old(coalesceOrder) + [KeyOf(e)]
      ensures statsCoalesced.accepted == old(statsCoalesced.accepted) + if outcome == Accepted then 1 else 0
      ensures statsCoalesced.coalesced == old(statsCoalesced.coalesced) + if outcome == Accepted then 0 else 1
      ensures statsCoalesced.peakDepth == Max(old(statsCoalesced.peakDepth), |coalesced|)
      ensures Totals() == Counted(old(Totals()), outcome)
    {
      var key := KeyOf(e);
      var replaced := key in coalesced;
      coalesced := coalesced[key := e];
      if !replaced {
        coalesceOrder := coalesceOrder + [key];
        statsCoalesced := statsCoalesced.(accepted := statsCoalesced.accepted + 1);
      } else {
        statsCoalesced := statsCoalesced.(coalesced := statsCoalesced.coalesced + 1);
      }
      statsCoalesced := statsCoalesced.(peakDepth := Max(statsCoalesced.peakDepth, |coalesced|));
      outcome := if replaced then Coalesced else Accepted;
    }

    method PushCoalescible(e: Envelope<E>) returns (outcome: PushOutcome)
      requires Valid() && e.event.priority == Coalescible
      modifies this
      ensures Valid() && history == Then(old(history), e)
      ensures pushed == old(pushed).Add(e.event.priority) && delivered == old(delivered)
      ensures outcome == if KeyOf(e) in Keys(old(history)) then Coalesced else Accepted
      ensures depths == Then(old(depths), Depths(|high|, |coalesced|, |low|))
      ensures statsHigh.dropped == old(statsHigh.dropped)
      ensures Totals() == Counted(old(Totals()), outcome)
    {
      outcome := InsertSlot(e);
      LanesAfterUpdate(history, e, highCapacity, lowCapacity, high, old(coalesced), old(coalesceOrder), low, coalesced, coalesceOrder);
      Note(e);
    }

    method AppendLow(e: Envelope<E>) returns (outcome: PushOutcome)
      modifies `low, `statsLow
      ensures low == (if |old(low)| < lowCapacity || old(low) == [] then old(low) else old(low)[1..]) + [e]
      ensures outcome == if |old(low)| >= lowCapacity then DroppedOldest else Accepted
      ensures statsLow.accepted == old(statsLow.accepted) + if outcome == Accepted then 1 else 0
      ensures statsLow.dropped == old(statsLow.dropped) + if outcome == Accepted then 0 else 1
      ensures statsLow.peakDepth == Max(old(statsLow.peakDepth), |low|)
    {
      if |low| >= lowCapacity {
        low := if low == [] then [] else low[1..];
        statsLow := statsLow.(dropped := statsLow.dropped + 1);
        low := low + [e];
        statsLow := statsLow.(peakDepth := Max(statsLow.peakDepth, |low|));
        outcome := DroppedOldest;
      } else {
        low := low + [e];
        statsLow := statsLow.(accepted := statsLow.accepted + 1, peakDepth := Max(statsLow.peakDepth, |low|));
        outcome := Accepted;
      }
    }

    method PushLow(e: Envelope<E>) returns (outcome: PushOutcome)
      requires Valid() && e.event.priority == Low
      modifies this
      ensures Valid() && history == Then(old(history), e)
      ensures pushed == old(pushed).Add(e.event.priority) && delivered == old(delivered)
      ensures outcome == if |Lane(old(history), Low)| >= lowCapacity then DroppedOldest else Accepted
      ensures depths == Then(old(depths), Depths(|high|, |coalesced|, |low|))
      ensures statsHigh.dropped == old(statsHigh.dropped)
      ensures Totals() == Counted(old(Totals()), outcome)
    {
      outcome := AppendLow(e);
      LanesAfterLow(history, e, highCapacity, lowCapacity, high, coalesced, coalesceOrder, old(low), low);
      Note(e);
    }

    /** Everything accepted, dropped and coalesced so far, over all lanes. */
    ghost function Totals(): (nat, nat, nat)
      reads `statsHigh, `statsCoalesced, `statsLow
    {
      (statsHigh.accepted + statsCoalesced.accepted + statsLow.accepted,
       statsHigh.dropped + statsLow.dropped,
       statsCoalesced.coalesced)
    }

    method Push(e: Envelope<E>) returns (outcome: PushOutcome)
      requires Valid()
      modifies this
      ensures outcome != Closed
      ensures Totals().0 == old(Totals()).0 + if outcome == Accepted then 1 else 0
      ensures Totals().1 == old(Totals()).1 + if outcome == DroppedOldest || outcome == CriticalOverflow then 1 else 0
      ensures Totals().2 == old(Totals()).2 + if outcome == Coalesced then 1 else 0
      ensures outcome == CriticalOverflow ==> e.event.priority == High
      ensures outcome == DroppedOldest ==> e.event.priority == Low
      ensures Valid() && history == Then(old(history), e)
      ensures pushed == old(pushed).Add(e.event.priority) && delivered == old(delivered)
      ensures outcome == PushResult(old(history), e, highCapacity, lowCapacity)
      ensures depths == Then(old(depths), Depths(|high|, |coalesced|, |low|))
      ensures statsHigh.dropped == old(statsHigh.dropped) + if outcome == CriticalOverflow then 1 else 0
    {
      match e.event.priority
      case High => outcome := PushHigh(e);
      case Coalescible => outcome := PushCoalescible(e);
      case Low => outcome := PushLow(e);
    }

    method DrainReady() returns (out: seq<Envelope<E>>)
      requires Valid()
      modifies this
      ensures Valid() && history == Empty
      ensures pushed == old(pushed) && delivered == old(delivered).Plus(Parts(old(history), highCapacity, lowCapacity))
      ensures out == Ready(old(history), highCapacity, lowCapacity)
      ensures depths == Then(old(depths), Depths(|high|, |coalesced|, |low|))
      ensures statsHigh.dropped == old(statsHigh.dropped)
    {
      ghost var h := history;
      out := high;
      high := [];
      var states := DrainCoalesced();
      out := out + states + low;
      low := [];
      LanesEmpty<E>(highCapacity, lowCapacity);
      history, delivered := Empty, delivered.Plus(Parts(h, highCapacity, lowCapacity));
      depths := Then(depths, Depths(0, 0, 0));
    }

    method DrainCoalesced() returns (out: seq<Envelope<E>>)
      requires Coalesces(history, coalesced, coalesceOrder)
      modifies `coalesced, `coalesceOrder
      ensures out == Newest(history)
      ensures coalesced == map[] && coalesceOrder == []
    {
      KeysDistinct(history);
      out, coalesced, coalesceOrder := TakeInOrder(coalesced, coalesceOrder);
    }

    method Depth() returns (n: nat)
      requires Valid()
      ensures n == |Ready(history, highCapacity, lowCapacity)|
    {
      n := |high| + |coalesced| + |low|;
    }

    method PeakDepth() returns (n: nat)
      requires Valid()
      ensures n == Peak(depths).Total()
    {
      n := statsHigh.peakDepth + statsCoalesced.peakDepth + statsLow.peakDepth;
    }
  }

  /** The lanes of a queue that holds one envelope. */
  lemma SingleEnvelope<E>(e: Envelope<E>, q: PriorityQueue<E>)
    requires q.Valid() && q.history == Then(Empty, e) && q.highCapacity == q.lowCapacity == 1
    ensures Depths(|q.high|, |q.coalesced|, |q.low|) ==
            Depths(if e.event.priority == High then 1 else 0,
                   if e.event.priority == Coalescible then 1 else 0,
                   if e.event.priority == Low then 1 else 0)
  {
    assert Lane<E>(Empty, High) == [] && Lane<E>(Empty, Low) == [] && Keys<E>(Empty) == [];
  }

  method PushedAndDelivered(e: Envelope<bool>) returns (q: PriorityQueue<bool>)
    requires e.event.priority == High
    ensures fresh(q) && q.Valid() && q.history == Empty && q.highCapacity == q.lowCapacity == 1
    ensures q.depths == Then(Then(Empty, Depths(1, 0, 0)), Depths(0, 0, 0))
  {
    q := new PriorityQueue<bool>(1, 1);
    var _ := q.Push(e);
    SingleEnvelope(e, q);
    var _ := q.DrainReady();
    assert Lane<bool>(Empty, High) == [] && Lane<bool>(Empty, Low) == [] && Keys<bool>(Empty) == [];
  }

  /** The lanes need not peak together: one high envelope pushed and delivered, then one
      low envelope pushed, reports a peak of two although the queue never held more than one. */
  method PeakDepthCanExceedEveryDepth() returns (q: PriorityQueue<bool>, peak: nat)
    ensures fresh(q) && q.Valid() && peak == Peak(q.depths).Total() == 2
    ensures forall d <- Entries(q.depths) :: d.Total() <= 1
  {
    q := PushedAndDelivered(Envelope(0, QueueItem(High, "death", true), 0));
    ghost var ds := q.depths;
    assert Entries(ds.before) == [Depths(1, 0, 0)] && Entries(ds) == [Depths(1, 0, 0), Depths(0, 0, 0)];
    assert Peak(ds.before) == Depths(1, 0, 0) && Peak(ds) == Depths(1, 0, 0);
    var e := Envelope(0, QueueItem(Low, "chat", true), 1);
    var _ := q.Push(e);
    SingleEnvelope(e, q);
    peak := q.PeakDepth();
  }
}
