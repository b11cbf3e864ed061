/** Vocabulary shared by the models. */
module Basics {

  datatype Option<T> = None | Some(value: T)

  type Byte = b: nat | b < 256

  const U32_MAX: nat := 0xFFFF_FFFF

  type U32 = x: nat | x <= U32_MAX

  /** A log, newest entry outermost. */
  datatype Log<T> = Empty | Then(before: Log<T>, last: T)

  /** The entries in the order they were made. */
  function Entries<T>(h: Log<T>): seq<T> {
    match h
    case Empty => []
    case Then(g, e) => Entries(g) + [e]
  }

  function Length<T>(log: Log<T>): nat {
    match log
    case Empty => 0
    case Then(before, _) => Length(before) + 1
  }

  lemma {:induction false} SubsetOfRange(s: set<nat>, n: nat)
    requires forall i <- s :: i < n
    ensures |s| <= n
  {
    if n > 0 {
      SubsetOfRange(s - {n - 1}, n - 1);
    }
  }

  /** Enough distinct numbers below `n` are all of them. */
  lemma EnoughIsAll(s: set<nat>, n: nat)
    requires (forall i <- s :: i < n) && |s| >= n
    ensures forall i :: 0 <= i < n ==> i in s
  {
    if i :| 0 <= i < n && i !in s {
      var t := s + {i};
      SubsetOfRange(t, n);
      assert false;
    }
  }

  /** Quotient and remainder are unique. */
  lemma Unique(n: nat, q: int, r: nat, p: int, s: nat)
    requires r < n && s < n && n * q + r == n * p + s
    ensures q == p && r == s
  {
    Scale(n, q - p);
  }

  /** A multiple of `n` is zero or at least as large as `n`. */
  lemma Scale(n: nat, x: int)
    ensures x > 0 ==> n * x >= n
    ensures x < 0 ==> n * x <= -(n as int)
    ensures x == 0 ==> n * x == 0
  {
  }
}
