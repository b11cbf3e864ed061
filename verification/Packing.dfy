/** Packed block storage: small values side by side in 64-bit words.

    Words are natural numbers whose bits are reached by halving, and positions are split
    into word and slot by repeated subtraction; `Arithmetic` ties both to the usual
    division, remainder and product. */
module Packing {
  import opened Basics

  const BLOCKS_PER_SECTION: nat := 4096

  /** The widths for which a mask of that many bits exists in a word. */
  type Bits = b: nat | 1 <= b <= 63 witness 1

  // ------------------------------------------------------------- words and their bits

  function Pow2(n: nat): (p: nat)
    ensures p > 0
  {
    if n == 0 then 1 else 2 * Pow2(n - 1)
  }

  /** Only the lowest `k` bits can be set. */
  predicate Below(v: nat, k: nat) {
    if k == 0 then v == 0 else Below(v / 2, k - 1)
  }

  /** Bitwise or. */
  function Or(a: nat, b: nat): nat {
    if a == 0 then b else 2 * Or(a / 2, b / 2) + (if a % 2 == 1 || b % 2 == 1 then 1 else 0)
  }

  /** `v & ((1 << bits) - 1)`. */
  function Mask(v: nat, bits: nat): nat {
    if bits == 0 then 0 else v % 2 + 2 * Mask(v / 2, bits - 1)
  }

  /** `v << shift` before the word is cut off. */
  function Shift(v: nat, shift: nat): nat {
    if shift == 0 then v else 2 * Shift(v, shift - 1)
  }

  /** `v << shift` in a 64-bit word. */
  function Shl(v: nat, shift: nat): nat {
    Mask(Shift(v, shift), 64)
  }

  /** `v >> shift`. */
  function Shr(v: nat, shift: nat): nat {
    if shift == 0 then v else Shr(v / 2, shift - 1)
  }

  // ---------------------------------------------------------- word and slot of a position

  /** `i / n`, `i % n` and `j * n`. */
  function Quot(i: nat, n: nat): nat
    requires n > 0
  {
    if i < n then 0 else 1 + Quot(i - n, n)
  }

  function Rem(i: nat, n: nat): (r: nat)
    requires n > 0
    ensures r < n
  {
    if i < n then i else Rem(i - n, n)
  }

  function Mul(j: nat, n: nat): nat {
    if j == 0 then 0 else n + Mul(j - 1, n)
  }

  /** The definitions above are the usual operations. */
  lemma {:induction false} Arithmetic(i: nat, n: nat)
    requires n > 0
    ensures Quot(i, n) == i / n && Rem(i, n) == i % n
  {
    if i >= n {
      Arithmetic(i - n, n);
      Divided(i - n, n);
    }
  }

  lemma Divided(i: nat, n: nat)
    requires n > 0
    ensures (i + n) / n == i / n + 1 && (i + n) % n == i % n
  {
    Unique(n, (i + n) / n, (i + n) % n, i / n + 1, i % n);
  }

  lemma {:induction false} Product(j: nat, n: nat)
    ensures Mul(j, n) == j * n
  {
    if j > 0 {
      Product(j - 1, n);
      assert j * n == (j - 1) * n + n;
    }
  }

  lemma {:induction false} MaskIsRemainder(v: nat, k: nat)
    ensures Below(Mask(v, k), k)
    ensures Below(v, k) <==> Mask(v, k) == v
    ensures Below(v, k) <==> v < Pow2(k)
  {
    if k > 0 {
      MaskIsRemainder(v / 2, k - 1);
    }
  }

  function PerWord(bits: Bits): (n: nat)
    ensures n >= 1
  {
    Quot(64, bits)
  }

  function Words(count: nat, n: nat): nat
    requires n > 0
  {
    Quot(count + n - 1, n)
  }

  /** Going on by one position: the next slot, or the first slot of the next word. */
  lemma {:induction false} NextPosition(i: nat, n: nat)
    requires n > 0
    ensures if Rem(i, n) + 1 < n then Quot(i + 1, n) == Quot(i, n) && Rem(i + 1, n) == Rem(i, n) + 1
            else Quot(i + 1, n) == Quot(i, n) + 1 && Rem(i + 1, n) == 0
  {
    if i >= n {
      NextPosition(i - n, n);
    }
  }

  lemma {:induction false} Earlier(k: nat, i: nat, n: nat)
    requires n > 0 && k < i
    ensures Quot(k, n) < Quot(i, n) || (Quot(k, n) == Quot(i, n) && Rem(k, n) < Rem(i, n))
    decreases i - k
  {
    NextPosition(i - 1, n);
    if k < i - 1 {
      Earlier(k, i - 1, n);
    }
  }

  lemma InRange(i: nat, count: nat, n: nat)
    requires n > 0 && i < count
    ensures Quot(i, n) < Words(count, n)
  {
    if i + n < count + n - 1 {
      Earlier(i + n, count + n - 1, n);
    }
  }

  lemma {:induction false} Recompose(i: nat, n: nat)
    requires n > 0
    ensures Mul(Quot(i, n), n) + Rem(i, n) == i
  {
    if i >= n {
      Recompose(i - n, n);
    }
  }

  lemma {:induction false} MulGrows(j: nat, k: nat, n: nat)
    requires j <= k
    ensures Mul(j, n) <= Mul(k, n)
  {
    if j < k {
      MulGrows(j, k - 1, n);
    }
  }

  /** A slot ends before its word does. */
  lemma SlotFits(bits: Bits, j: nat)
    requires j < PerWord(bits)
    ensures Mul(j, bits) + bits == Mul(j + 1, bits) <= 64
  {
    Recompose(64, bits);
    MulGrows(j + 1, PerWord(bits), bits);
  }

  // ------------------------------------------------------------------------- one slot

  /** What a slot that starts at bit `start` reads. */
  function Field(word: nat, start: nat, bits: nat): nat {
    Mask(Shr(word, start), bits)
  }

  /** `v` placed above the lowest `s` bits of `a`. */
  function Put(a: nat, v: nat, s: nat): nat {
    if s == 0 then v else a % 2 + 2 * Put(a / 2, v, s - 1)
  }

  /** Or-ing into bits that are still zero places the value there. */
  lemma {:induction false} OrIsPut(a: nat, v: nat, s: nat)
    requires Below(a, s)
    ensures Or(a, Shift(v, s)) == Put(a, v, s)
  {
    if s == 0 {
    } else {
      OrIsPut(a / 2, v, s - 1);
      if a == 0 {
        assert Or(a / 2, Shift(v, s - 1)) == Shift(v, s - 1);
      }
    }
  }

  lemma {:induction false} PutBelow(a: nat, v: nat, s: nat, k: nat)
    requires Below(v, k)
    ensures Below(Put(a, v, s), s + k)
  {
    if s > 0 {
      PutBelow(a / 2, v, s - 1, k);
    }
  }

  lemma {:induction false} ShiftBelow(v: nat, s: nat, k: nat)
    requires Below(v, k)
    ensures Below(Shift(v, s), s + k)
  {
    if s > 0 {
      ShiftBelow(v, s - 1, k);
    }
  }

  lemma {:induction false} BelowMore(v: nat, k: nat, m: nat)
    requires Below(v, k) && k <= m
    ensures Below(v, m)
  {
    if k == 0 {
      ZeroBelow(m);
    } else {
      BelowMore(v / 2, k - 1, m - 1);
    }
  }

  lemma {:induction false} ZeroBelow(m: nat)
    ensures Below(0, m)
  {
    if m > 0 {
      ZeroBelow(m - 1);
    }
  }

  /** The placed value reads back. */
  lemma {:induction false} ReadPut(a: nat, v: nat, s: nat)
    ensures Shr(Put(a, v, s), s) == v
  {
    if s > 0 {
      ReadPut(a / 2, v, s - 1);
    }
  }

  /** What lies wholly below the placed value reads as before. */
  lemma {:induction false} ReadUnderPut(a: nat, v: nat, s: nat, start: nat, bits: nat)
    requires start + bits <= s
    ensures Field(Put(a, v, s), start, bits) == Field(a, start, bits)
    decreases start, bits
  {
    if start > 0 {
      ReadUnderPut(a / 2, v, s - 1, start - 1, bits);
    } else if bits > 0 {
      ReadUnderPut(a / 2, v, s - 1, 0, bits - 1);
    }
  }

  /** The loop's update of a word whose bits from `s` on are free. */
  lemma WriteSlot(a: nat, v: nat, s: nat, bits: nat)
    requires Below(a, s) && s + bits <= 64
    ensures
      var w := Or(a, Shl(Mask(v, bits), s));
      w == Put(a, Mask(v, bits), s) && Below(w, s + bits) && Below(w, 64) && Field(w, s, bits) == Mask(v, bits)
  {
    var m := Mask(v, bits);
    MaskIsRemainder(v, bits);
    MaskIsRemainder(m, bits);
    ShiftBelow(m, s, bits);
    BelowMore(Shift(m, s), s + bits, 64);
    MaskIsRemainder(Shift(m, s), 64);
    OrIsPut(a, m, s);
    PutBelow(a, m, s, bits);
    BelowMore(Put(a, m, s), s + bits, 64);
    ReadPut(a, m, s);
  }

  // -------------------------------------------------------------------------- packing

  /** The value at `index`, or nothing beyond the last word. */
  function PackedValue(bits: Bits, data: seq<nat>, index: nat): Option<nat> {
    var n := PerWord(bits);
    if Quot(index, n) >= |data| then None
    else Some(Mask(Field(data[Quot(index, n)], Mul(Rem(index, n), bits), bits), 32))
  }

  /** The same in ordinary arithmetic: `n` values per word, word `w`, slot `j`. */
  lemma PackedValueInArithmetic(bits: Bits, data: seq<nat>, index: nat, n: nat, w: nat, j: nat)
    requires n == 64 / bits && n > 0 && w == index / n && j == index % n
    ensures PackedValue(bits, data, index) ==
            if w < |data| then Some(data[w] / Pow2(j * bits) % Pow2(bits) % Pow2(32)) else None
  {
    Arithmetic(64, bits);
    Arithmetic(index, n);
    Product(j, bits);
    if w < |data| {
      FieldInArithmetic(data[w], Mul(j, bits), bits);
      MaskIsModulo(Field(data[w], Mul(j, bits), bits), 32);
    }
  }

  lemma FieldInArithmetic(word: nat, start: nat, bits: nat)
    ensures Field(word, start, bits) == word / Pow2(start) % Pow2(bits)
  {
    ShrIsQuotient(word, start);
    MaskIsModulo(Shr(word, start), bits);
  }

  /** Shifting right divides by the power of two. */
  lemma {:induction false} ShrIsQuotient(v: nat, s: nat)
    ensures Shr(v, s) == v / Pow2(s)
  {
    if s > 0 {
      ShrIsQuotient(v / 2, s - 1);
      Halves(v, Pow2(s - 1));
    }
  }

  /** The mask keeps the remainder modulo the power of two. */
  lemma {:induction false} MaskIsModulo(v: nat, k: nat)
    ensures Mask(v, k) == v % Pow2(k)
  {
    if k > 0 {
      MaskIsModulo(v / 2, k - 1);
      Halves(v, Pow2(k - 1));
    }
  }

  /** Dividing by two and then by `m` is dividing by `2 * m`. */
  lemma Halves(v: nat, m: nat)
    requires m > 0
    ensures v / 2 / m == v / (2 * m) && v % (2 * m) == v % 2 + 2 * (v / 2 % m)
  {
    var h, q, r := v / 2, v / 2 / m, v / 2 % m;
    Doubled(m, q, h - r);
    Unique(2 * m, v / (2 * m), v % (2 * m), q, v % 2 + 2 * r);
  }

  lemma Doubled(m: nat, q: nat, x: int)
    requires m * q == x
    ensures (2 * m) * q == 2 * x
  {
  }

  /** The first `i` values read back. */
  ghost predicate Reads(bits: Bits, values: seq<U32>, data: seq<nat>, i: nat)
    requires i <= |values|
  {
    var n := PerWord(bits);
    forall k :: 0 <= k < i ==>
      Quot(k, n) < |data| && Field(data[Quot(k, n)], Mul(Rem(k, n), bits), bits) == Mask(values[k], bits)
  }

  /** Everything from position `i` on is still zero. */
  ghost predicate Clear(bits: Bits, data: seq<nat>, i: nat) {
    var n := PerWord(bits);
    && (Quot(i, n) < |data| ==> Below(data[Quot(i, n)], Mul(Rem(i, n), bits)))
    && (forall w :: Quot(i, n) < w < |data| ==> data[w] == 0)
  }

  ghost predicate PackedUpTo(bits: Bits, values: seq<U32>, data: seq<nat>, i: nat)
    requires i <= |values|
  {
    && |data| == Words(|values|, PerWord(bits))
    && (forall w :: 0 <= w < |data| ==> Below(data[w], 64))
    && Reads(bits, values, data, i) && Clear(bits, data, i)
  }

  /** Writing slot `j` leaves the lower slots of the word alone. */
  lemma LowerSlotKept(bits: Bits, word: nat, v: nat, j: nat, k: nat)
    requires k < j < PerWord(bits)
    ensures Field(Put(word, v, Mul(j, bits)), Mul(k, bits), bits) == Field(word, Mul(k, bits), bits)
  {
    SlotFits(bits, k);
    MulGrows(k + 1, j, bits);
    ReadUnderPut(word, v, Mul(j, bits), Mul(k, bits), bits);
  }

  /** Position `k` still reads its value after position `i` was written. */
  lemma ValueKept(bits: Bits, values: seq<U32>, data: seq<nat>, i: nat, k: nat, x: nat)
    requires k < i < |values| && PackedUpTo(bits, values, data, i) && Quot(i, PerWord(bits)) < |data|
    requires x == Put(data[Quot(i, PerWord(bits))], Mask(values[i], bits), Mul(Rem(i, PerWord(bits)), bits))
    ensures
      var n := PerWord(bits);
      Field(data[Quot(i, n) := x][Quot(k, n)], Mul(Rem(k, n), bits), bits) == Mask(values[k], bits)
  {
    var n := PerWord(bits);
    Earlier(k, i, n);
    if Quot(k, n) == Quot(i, n) {
      LowerSlotKept(bits, data[Quot(i, n)], Mask(values[i], bits), Rem(i, n), Rem(k, n));
    }
  }

  /** The word that value `i` goes to, before and after it is written. */
  lemma WordWritten(bits: Bits, values: seq<U32>, data: seq<nat>, i: nat)
    requires i < |values| && PackedUpTo(bits, values, data, i)
    ensures
      var n := PerWord(bits);
      var w, s := Quot(i, n), Mul(Rem(i, n), bits);
      w < |data| &&
      var x := Or(data[w], Shl(Mask(values[i], bits), s));
      && x == Put(data[w], Mask(values[i], bits), s) && Field(x, s, bits) == Mask(values[i], bits)
      && Below(x, Mul(Rem(i, n) + 1, bits)) && Below(x, 64)
  {
    var n := PerWord(bits);
    InRange(i, |values|, n);
    SlotFits(bits, Rem(i, n));
    WriteSlot(data[Quot(i, n)], values[i], Mul(Rem(i, n), bits), bits);
  }

  /** With word `x` in its place, one more value is packed. */
  lemma Extended(bits: Bits, values: seq<U32>, data: seq<nat>, i: nat, w: nat, j: nat, x: nat)
    requires i < |values| && PackedUpTo(bits, values, data, i)
    requires w == Quot(i, PerWord(bits)) < |data| && j == Rem(i, PerWord(bits))
    requires x == Put(data[w], Mask(values[i], bits), Mul(j, bits)) && Field(x, Mul(j, bits), bits) == Mask(values[i], bits)
    requires Below(x, Mul(j + 1, bits)) && Below(x, 64)
    ensures PackedUpTo(bits, values, data[w := x], i + 1)
  {
    StillReads(bits, values, data, i, w, j, x);
    StillClear(bits, data, i, w, j, x);
  }

  lemma StillReads(bits: Bits, values: seq<U32>, data: seq<nat>, i: nat, w: nat, j: nat, x: nat)
    requires i < |values| && PackedUpTo(bits, values, data, i)
    requires w == Quot(i, PerWord(bits)) < |data| && j == Rem(i, PerWord(bits))
    requires x == Put(data[w], Mask(values[i], bits), Mul(j, bits)) && Field(x, Mul(j, bits), bits) == Mask(values[i], bits)
    ensures Reads(bits, values, data[w := x], i + 1)
  {
    var n := PerWord(bits);
    forall k | 0 <= k < i
      ensures Field(data[w := x][Quot(k, n)], Mul(Rem(k, n), bits), bits) == Mask(values[k], bits)
    {
      ValueKept(bits, values, data, i, k, x);
    }
  }

  lemma StillClear(bits: Bits, data: seq<nat>, i: nat, w: nat, j: nat, x: nat)
    requires Clear(bits, data, i) && w == Quot(i, PerWord(bits)) < |data| && j == Rem(i, PerWord(bits))
    requires Below(x, Mul(j + 1, bits))
    ensures Clear(bits, data[w := x], i + 1)
  {
    NextPosition(i, PerWord(bits));
    assert Mul(0, bits) == 0;
  }

  /** Writing value `i` extends what is packed by one. */
  lemma PackOne(bits: Bits, values: seq<U32>, data: seq<nat>, i: nat)
    requires i < |values| && PackedUpTo(bits, values, data, i)
    ensures
      var n := PerWord(bits);
      var w := Quot(i, n);
      w < |data| && PackedUpTo(bits, values, data[w := Or(data[w], Shl(Mask(values[i], bits), Mul(Rem(i, n), bits)))], i + 1)
  {
    var n := PerWord(bits);
    var w, j := Quot(i, n), Rem(i, n);
    WordWritten(bits, values, data, i);
    Extended(bits, values, data, i, w, j, Or(data[w], Shl(Mask(values[i], bits), Mul(j, bits))));
  }

  /** Packs the values, each masked to `bits` bits, in order: every one can be read back. */
  method PackIndices(bits: Bits, values: seq<U32>) returns (data: seq<nat>)
    ensures |data| == Words(|values|, PerWord(bits))
    ensures forall w :: 0 <= w < |data| ==> Below(data[w], 64)
    ensures forall i :: 0 <= i < |values| ==> PackedValue(bits, data, i) == Some(Mask(values[i], bits))
    ensures forall i :: 0 <= i < |values| && values[i] < Pow2(bits) ==> PackedValue(bits, data, i) == Some(values[i])
  {
    var n := PerWord(bits);
    var words := new nat[Words(|values|, n)](_ => 0);
    ZeroBelow(64);
    for i := 0 to |values|
      invariant PackedUpTo(bits, values, words[..], i)
    {
      var word, shift := Quot(i, n), Mul(Rem(i, n), bits);
      PackOne(bits, values, words[..], i);
      ghost var before := words[..];
      words[word] := Or(words[word], Shl(Mask(values[i], bits), shift));
      assert words[..] == before[word := words[word]];
    }
    data := words[..];
    forall i | 0 <= i < |values|
      ensures PackedValue(bits, data, i) == Some(Mask(values[i], bits))
      ensures values[i] < Pow2(bits) ==> Mask(values[i], bits) == values[i]
    {
      MaskSmall(values[i], bits);
    }
  }

  lemma MaskSmall(v: U32, bits: nat)
    ensures Mask(Mask(v, bits), 32) == Mask(v, bits)
    ensures v < Pow2(bits) ==> Mask(v, bits) == v
  {
    MaskIsRemainder(v, bits);
    MaskAtMost(v, bits);
    Pow2Of32();
    MaskIsRemainder(Mask(v, bits), 32);
  }

  lemma {:induction false} MaskAtMost(v: nat, bits: nat)
    ensures Mask(v, bits) <= v
  {
    if bits > 0 {
      MaskAtMost(v / 2, bits - 1);
    }
  }

  lemma Pow2Of32()
    ensures Pow2(32) == 0x1_0000_0000
  {
    assert Pow2(8) == 256;
    assert Pow2(16) == 65536;
    assert Pow2(24) == 16777216;
  }

  // ----------------------------------------------------------------------- containers

  datatype PalettedContainer =
    | Single(value: U32)
    | Indirect(bits: Bits, palette: seq<U32>, words: seq<nat>)
    | Direct(bits: Bits, words: seq<nat>)

  function Get(c: PalettedContainer, index: nat): Option<nat> {
    match c
    case Single(v) => Some(v)
    case Indirect(bits, palette, words) =>
      (match PackedValue(bits, words, index)
       case None => None
       case Some(i) => if i < |palette| then Some(palette[i]) else None)
    case Direct(bits, words) => PackedValue(bits, words, index)
  }

  /** `32 - leading_zeros`: the number of significant bits. */
  function BitLength(x: nat): nat {
    if x == 0 then 0 else 1 + BitLength(x / 2)
  }

  lemma {:induction false} BitLengthIsWidth(x: nat)
    ensures x < Pow2(BitLength(x))
    ensures x > 0 ==> Pow2(BitLength(x) - 1) <= x
  {
    if x > 0 {
      BitLengthIsWidth(x / 2);
    }
  }

  lemma {:induction false} BitLengthSmall(x: nat, k: nat)
    requires x < Pow2(k)
    ensures BitLength(x) <= k
  {
    if x > 0 {
      BitLengthSmall(x / 2, k - 1);
    }
  }

  /** Rebuilds the container with room for every value, one of them changed: afterwards
      exactly that index reads differently. */
  method MaterializeAndSet(container: PalettedContainer, index: nat, state: U32) returns (r: PalettedContainer)
    requires index < BLOCKS_PER_SECTION
    requires forall i :: 0 <= i < BLOCKS_PER_SECTION ==> Get(container, i).Some?
    ensures r.Direct? && r.bits <= 32
    ensures forall i :: 0 <= i < BLOCKS_PER_SECTION ==>
              Get(r, i) == if i == index then Some(state) else Get(container, i)
  {
    var values := Materialize(container);
    values := values[index := state];
    var bits := WidthFor(values);
    var words := PackIndices(bits, values);
    r := Direct(bits, words);
  }

  method Materialize(container: PalettedContainer) returns (values: seq<U32>)
    requires forall i :: 0 <= i < BLOCKS_PER_SECTION ==> Get(container, i).Some?
    ensures |values| == BLOCKS_PER_SECTION
    ensures forall i :: 0 <= i < BLOCKS_PER_SECTION ==> Get(container, i) == Some(values[i])
  {
    values := [];
    for i := 0 to BLOCKS_PER_SECTION
      invariant |values| == i && forall k :: 0 <= k < i ==> Get(container, k) == Some(values[k])
    {
      GetIsSmall(container, i);
      values := values + [Get(container, i).value];
    }
  }

  /** The width of the greatest value, but at least one bit: every value fits. */
  method WidthFor(values: seq<U32>) returns (bits: Bits)
    ensures bits <= 32 && forall i :: 0 <= i < |values| ==> values[i] < Pow2(bits)
    ensures bits > 1 ==> exists i :: 0 <= i < |values| && values[i] >= Pow2(bits - 1)
  {
    var most: U32 := 0;
    for i := 0 to |values|
      invariant forall k :: 0 <= k < i ==> values[k] <= most
      invariant most == 0 || exists k :: 0 <= k < i && values[k] == most
    {
      most := if most < values[i] then values[i] else most;
    }
    Pow2Of32();
    BitLengthSmall(most, 32);
    BitLengthIsWidth(most);
    bits := if BitLength(most) < 1 then 1 else BitLength(most);
  }

  lemma GetIsSmall(c: PalettedContainer, i: nat)
    requires Get(c, i).Some?
    ensures Get(c, i).value < 0x1_0000_0000
  {
    Pow2Of32();
    if c.Direct? {
      MaskIsRemainder(Field(c.words[Quot(i, PerWord(c.bits))], Mul(Rem(i, PerWord(c.bits)), c.bits), c.bits), 32);
      var v := PackedValue(c.bits, c.words, i).value;
      MaskIsRemainder(v, 32);
    }
  }

  // --------------------------------------------------------------- containers in arithmetic

  /** What a container reads, in ordinary arithmetic: `n` values per word, word `w`, slot `j`;
      with a palette the slot holds a position in it. */
  lemma GetInArithmetic(c: PalettedContainer, index: nat, n: nat, w: nat, j: nat)
    requires !c.Single? ==> n == 64 / c.bits && n > 0 && w == index / n && j == index % n
    ensures c.Single? ==> Get(c, index) == Some(c.value)
    ensures !c.Single? && w >= |c.words| ==> Get(c, index) == None
    ensures !c.Single? && w < |c.words| ==>
              var v := c.words[w] / Pow2(j * c.bits) % Pow2(c.bits) % Pow2(32);
              Get(c, index) == if c.Direct? then Some(v) else if v < |c.palette| then Some(c.palette[v]) else None
  {
    if !c.Single? {
      PackedValueInArithmetic(c.bits, c.words, index, n, w, j);
    }
  }

  /** The number of words is the number of values over the values per word, rounded up. */
  lemma WordsInArithmetic(count: nat, n: nat)
    requires n > 0
    ensures Words(count, n) == (count + n - 1) / n
  {
    Arithmetic(count + n - 1, n);
  }

  /** Packed positions in a palette read as the entries at those positions. */
  method PackPalette(bits: Bits, palette: seq<U32>, ids: seq<U32>) returns (c: PalettedContainer)
    requires forall i :: 0 <= i < |ids| ==> ids[i] < |palette| && ids[i] < Pow2(bits)
    ensures c.Indirect? && c.palette == palette
    ensures forall i :: 0 <= i < |ids| ==> Get(c, i) == Some(palette[ids[i]])
  {
    var words := PackIndices(bits, ids);
    c := Indirect(bits, palette, words);
  }

  /** From palette positions to a container, and on to one with a single state changed: every
      other index still reads its palette entry. */
  method PaletteRoundTrip(bits: Bits, palette: seq<U32>, ids: seq<U32>, index: nat, state: U32)
    returns (before: PalettedContainer, after: PalettedContainer)
    requires |ids| == 4096 && index < 4096
    requires forall i :: 0 <= i < |ids| ==> ids[i] < |palette| && ids[i] < Pow2(bits)
    ensures forall i :: 0 <= i < 4096 ==> Get(before, i) == Some(palette[ids[i]])
    ensures forall i :: 0 <= i < 4096 ==> Get(after, i) == Some(if i == index then state else palette[ids[i]])
  {
    before := PackPalette(bits, palette, ids);
    after := MaterializeAndSet(before, index, state);
  }
}
