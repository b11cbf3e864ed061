/** Cutting a text to a byte budget without splitting a character.

    A text is a sequence of bytes that is well-formed by the syntax of section 4 of
    RFC 3629.  Character boundaries are defined by decoding from the start; the code's
    test of a single byte is proved to find the same boundaries. */
module LogText {
  import opened Basics

  const ELLIPSIS: seq<Byte> := [0xE2, 0x80, 0xA6]

  predicate In(s: seq<Byte>, i: nat, lo: nat, hi: nat) {
    i < |s| && lo <= s[i] <= hi
  }

  predicate IsTail(b: Byte) {
    0x80 <= b <= 0xBF
  }

  /** The length of the character that starts at `i`; 0 if none does. */
  function CharLen(s: seq<Byte>, i: nat): nat {
    if In(s, i, 0x00, 0x7F) then 1
    else if In(s, i, 0xC2, 0xDF) && In(s, i + 1, 0x80, 0xBF) then 2
    else if In(s, i, 0xE0, 0xEF) && Second3(s, i) && In(s, i + 2, 0x80, 0xBF) then 3
    else if In(s, i, 0xF0, 0xF4) && Second4(s, i) && In(s, i + 2, 0x80, 0xBF) && In(s, i + 3, 0x80, 0xBF) then 4
    else 0
  }

  /** The second byte excludes overlong forms and surrogates. */
  predicate Second3(s: seq<Byte>, i: nat)
    requires i < |s|
  {
    if s[i] == 0xE0 then In(s, i + 1, 0xA0, 0xBF)
    else if s[i] == 0xED then In(s, i + 1, 0x80, 0x9F)
    else In(s, i + 1, 0x80, 0xBF)
  }

  /** The second byte excludes overlong forms and values beyond 10FFFF. */
  predicate Second4(s: seq<Byte>, i: nat)
    requires i < |s|
  {
    if s[i] == 0xF0 then In(s, i + 1, 0x90, 0xBF)
    else if s[i] == 0xF4 then In(s, i + 1, 0x80, 0x8F)
    else In(s, i + 1, 0x80, 0xBF)
  }

  /** The bytes from `i` on are whole characters. */
  predicate Valid(s: seq<Byte>, i: nat)
    decreases |s| - i
  {
    i == |s| || (i < |s| && CharLen(s, i) > 0 && Valid(s, i + CharLen(s, i)))
  }

  /** Decoding from `i` stops at `k`. */
  predicate Boundary(s: seq<Byte>, i: nat, k: nat)
    decreases |s| - i
  {
    i == k || (i < |s| && CharLen(s, i) > 0 && Boundary(s, i + CharLen(s, i), k))
  }

  /** The byte test of the code. */
  predicate IsCharBoundary(s: seq<Byte>, k: nat) {
    k == 0 || k == |s| || (k < |s| && !IsTail(s[k]))
  }

  /** Inside a character there are only tail bytes, and its first byte is not one. */
  lemma CharBytes(s: seq<Byte>, i: nat)
    requires CharLen(s, i) > 0
    ensures i < |s| && i + CharLen(s, i) <= |s| && CharLen(s, i) <= 4 && !IsTail(s[i])
    ensures forall k :: i < k < i + CharLen(s, i) ==> IsTail(s[k])
  {
  }

  lemma {:induction false} BoundariesAhead(s: seq<Byte>, i: nat, k: nat)
    requires Boundary(s, i, k)
    ensures i <= k
    decreases |s| - i
  {
    if i != k {
      BoundariesAhead(s, i + CharLen(s, i), k);
    }
  }

  /** The byte test finds exactly the character boundaries. */
  lemma {:induction false} ByteTestIsExact(s: seq<Byte>, i: nat, k: nat)
    requires Valid(s, i) && i <= k <= |s|
    ensures Boundary(s, i, k) <==> k == i || k == |s| || !IsTail(s[k])
    decreases |s| - i
  {
    if i < k {
      CharBytes(s, i);
      var next := i + CharLen(s, i);
      if next <= k {
        ByteTestIsExact(s, next, k);
        if k == next && k < |s| {
          CharBytes(s, next);
        }
      } else if Boundary(s, next, k) {
        BoundariesAhead(s, next, k);
      }
    }
  }

  /** There is a boundary at most three bytes before any position. */
  lemma {:induction false} BoundaryNearby(s: seq<Byte>, i: nat, k: nat) returns (b: nat)
    requires Valid(s, i) && i <= k <= |s|
    ensures b <= k <= b + 3 && Boundary(s, i, b)
    decreases |s| - i
  {
    if i == k {
      b := i;
    } else {
      CharBytes(s, i);
      var next := i + CharLen(s, i);
      if next <= k {
        b := BoundaryNearby(s, next, k);
      } else {
        b := i;
      }
    }
  }

  /** Cutting at a boundary leaves whole characters on both sides. */
  lemma {:induction false} CutIsValid(s: seq<Byte>, i: nat, k: nat)
    requires Valid(s, i) && Boundary(s, i, k) && k <= |s|
    ensures Valid(s[..k], i) && Valid(s, k)
    decreases |s| - i
  {
    if i != k {
      CharBytes(s, i);
      BoundariesAhead(s, i + CharLen(s, i), k);
      CutIsValid(s, i + CharLen(s, i), k);
      assert CharLen(s[..k], i) == CharLen(s, i);
    }
  }

  lemma {:induction false} AppendIsValid(a: seq<Byte>, b: seq<Byte>, i: nat)
    requires Valid(a, i) && Valid(b, 0)
    ensures Valid(a + b, i)
    decreases |a| - i
  {
    if i == |a| {
      ShiftIsValid(a, b, 0);
    } else {
      CharBytes(a, i);
      assert CharLen(a + b, i) == CharLen(a, i);
      AppendIsValid(a, b, i + CharLen(a, i));
    }
  }

  lemma {:induction false} ShiftIsValid(a: seq<Byte>, b: seq<Byte>, j: nat)
    requires Valid(b, j)
    ensures Valid(a + b, |a| + j)
    decreases |b| - j
  {
    if j < |b| {
      assert CharLen(a + b, |a| + j) == CharLen(b, j);
      ShiftIsValid(a, b, j + CharLen(b, j));
    }
  }

  /** The longest prefix of whole characters within the budget. */
  ghost predicate LongestPrefix(s: seq<Byte>, budget: nat, end: nat) {
    && end <= budget && end <= |s| && Boundary(s, 0, end)
    && forall k :: end < k <= budget && k <= |s| ==> !Boundary(s, 0, k)
  }

  /** A text within the budget is left alone.  Otherwise the longest prefix of whole
      characters within the budget is kept, at most three bytes short of it, and a mark is
      added; the result is well-formed. */
  method TruncateForLog(s: seq<Byte>, maxBytes: nat) returns (r: seq<Byte>)
    requires Valid(s, 0)
    ensures Valid(r, 0)
    ensures |s| <= maxBytes ==> r == s
    ensures |s| > maxBytes ==>
              |r| >= 3 &&
              var end := |r| - 3;
              LongestPrefix(s, maxBytes, end) && maxBytes <= end + 3 && r == s[..end] + ELLIPSIS
  {
    if |s| <= maxBytes {
      return s;
    }
    var end := maxBytes;
    ghost var near := BoundaryNearby(s, 0, maxBytes);
    ByteTestIsExact(s, 0, near);
    while end > 0 && !IsCharBoundary(s, end)
      invariant near <= end <= maxBytes
      invariant forall k :: end < k <= maxBytes ==> !IsCharBoundary(s, k)
    {
      end := end - 1;
    }
    forall k | 0 <= k <= maxBytes
      ensures Boundary(s, 0, k) <==> IsCharBoundary(s, k)
    {
      ByteTestIsExact(s, 0, k);
    }
    CutIsValid(s, 0, end);
    MarkIsValid();
    AppendIsValid(s[..end], ELLIPSIS, 0);
    r := s[..end] + ELLIPSIS;
  }

  /** The three bytes up to and including position `k` are the tail of one character. */
  predicate CutsFourBytes(s: seq<Byte>, k: nat) {
    3 <= k < |s| && IsTail(s[k]) && IsTail(s[k - 1]) && IsTail(s[k - 2])
  }

  /** The result, mark included, is within the budget exactly when the text was, or when the
      budget ends just before the last byte of a character of four bytes. */
  lemma WithinBudgetExactlyWhen(s: seq<Byte>, maxBytes: nat, end: nat)
    requires Valid(s, 0) && |s| > maxBytes && LongestPrefix(s, maxBytes, end)
    ensures end + |ELLIPSIS| <= maxBytes <==> CutsFourBytes(s, maxBytes)
  {
    var near := BoundaryNearby(s, 0, maxBytes);
    assert near <= end;
    if maxBytes >= 3 {
      ByteTestIsExact(s, 0, maxBytes);
      ByteTestIsExact(s, 0, maxBytes - 1);
      ByteTestIsExact(s, 0, maxBytes - 2);
      if end <= maxBytes - 3 {
        assert !Boundary(s, 0, maxBytes) && !Boundary(s, 0, maxBytes - 1) && !Boundary(s, 0, maxBytes - 2);
      }
    }
  }

  /** Four bytes cut to a budget of three become six. */
  method TheMarkCanExceedTheBudget() returns (r: seq<Byte>)
    ensures r == [0x61, 0x62, 0x63] + ELLIPSIS && |r| == 6
  {
    var s: seq<Byte> := [0x61, 0x62, 0x63, 0x64];
    assert CharLen(s, 0) == CharLen(s, 1) == CharLen(s, 2) == CharLen(s, 3) == 1;
    assert Valid(s, 4) && Valid(s, 3) && Valid(s, 2) && Valid(s, 1);
    assert Boundary(s, 3, 3) && Boundary(s, 2, 3) && Boundary(s, 1, 3) && Boundary(s, 0, 3);
    r := TruncateForLog(s, 3);
  }

  lemma MarkIsValid()
    ensures Valid(ELLIPSIS, 0)
  {
  }
}
