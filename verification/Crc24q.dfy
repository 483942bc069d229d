/** The CRC-24Q of RTCM 10403.x: the bit-serial loop, and what its register does to messages and errors. */
module Crc24q {
  import opened CrcRegisters

  type Bytes = seq<bv8>

  const POLYNOMIAL: bv32 := 0x1864cfb
  const MASK: bv32 := 0x00ffffff

  predicate Overflows(c: bv32) { (c << 1) & 0x1000000 != 0 }

  /** One bit: shift left and, when a bit falls out of the 24, reduce. */
  function Shift(c: bv32): bv32 {
    if Overflows(c) then (c << 1) ^ POLYNOMIAL else c << 1
  }

  function Add(x: bv32, y: bv32): bv32 { x ^ y }

  function AddBytes(x: bv8, y: bv8): bv8 { x ^ y }

  function High(byte: bv8): bv32 { (byte as bv32) << 16 }

  function Middle(byte: bv8): bv32 { (byte as bv32) << 8 }

  function Low(byte: bv8): bv32 { byte as bv32 }

  const BITS: nat := 8

  function Crc24(): Machine<bv32, bv8> { Machine(Add, Shift, BITS, High) }

  function Crc(bytes: Bytes): bv32 { Register(Crc24(), 0, bytes) & MASK }

  /** The program's loop: any prefix of the bytes, all of them if `length` is too large. */
  method Compute(bytes: Bytes, length: nat) returns (r: bv32)
    ensures r == Crc(if length < |bytes| then bytes[..length] else bytes)
  {
    var crc: bv32 := 0;
    var end := if length < |bytes| then length else |bytes|;
    var index := 0;
    while index < end
      invariant index <= end && crc == Register(Crc24(), 0, bytes[..index])
    {
      crc := ComputeNext(crc, bytes, index);
      index := index + 1;
    }
    assert bytes[..end] == if length < |bytes| then bytes[..length] else bytes;
    return crc & MASK;
  }

  method ComputeNext(before: bv32, bytes: Bytes, index: nat) returns (crc: bv32)
    requires index < |bytes| && before == Register(Crc24(), 0, bytes[..index])
    ensures crc == Register(Crc24(), 0, bytes[..index + 1])
  {
    RegisterGrows(Crc24(), 0, bytes, index);
    crc := ComputeByte(before, bytes[index]);
  }

  method ComputeByte(before: bv32, byte: bv8) returns (crc: bv32)
    ensures crc == Fed(Crc24(), before, byte)
  {
    crc := before ^ ((byte as bv32) << 16);
    ghost var start := crc;
    var bit := 0;
    while bit < BITS
      invariant bit <= BITS && crc == Iterated(Shift, start, bit)
    {
      crc := ComputeBit(crc);
      bit := bit + 1;
    }
  }

  method ComputeBit(before: bv32) returns (crc: bv32)
    ensures crc == Shift(before)
  {
    crc := before << 1;
    if crc & 0x1000000 != 0 {
      crc := crc ^ POLYNOMIAL;
    }
  }

  // ---------------------------------------------------------------------------------------------
  // The shift is additive
  // ---------------------------------------------------------------------------------------------

  lemma BothOverflow(a: bv32, b: bv32)
    requires Overflows(a) && Overflows(b)
    ensures Shift(a ^ b) == Shift(a) ^ Shift(b)
  {
    assert !Overflows(a ^ b);
  }

  lemma FirstOverflows(a: bv32, b: bv32)
    requires Overflows(a) && !Overflows(b)
    ensures Shift(a ^ b) == Shift(a) ^ Shift(b)
  {
    assert Overflows(a ^ b);
  }

  lemma SecondOverflows(a: bv32, b: bv32)
    requires !Overflows(a) && Overflows(b)
    ensures Shift(a ^ b) == Shift(a) ^ Shift(b)
  {
    assert Overflows(a ^ b);
  }

  lemma NoneOverflows(a: bv32, b: bv32)
    requires !Overflows(a) && !Overflows(b)
    ensures Shift(a ^ b) == Shift(a) ^ Shift(b)
  {
    assert !Overflows(a ^ b);
  }

  lemma ShiftOfSum(a: bv32, b: bv32, sum: bv32, r: bv32)
    requires sum == a ^ b && r == Shift(a) ^ Shift(b)
    ensures Shift(sum) == r
  {
    if Overflows(a) {
      if Overflows(b) { BothOverflow(a, b); } else { FirstOverflows(a, b); }
    } else {
      if Overflows(b) { SecondOverflows(a, b); } else { NoneOverflows(a, b); }
    }
  }

  /** Stated on sums that occur, so that nothing is computed bit by bit. */
  ghost predicate Splits(f: bv32 -> bv32) {
    forall a, b, sum {:trigger f(sum), f(a), f(b)} :: sum == a ^ b ==> f(sum) == f(a) ^ f(b)
  }

  lemma ShiftSplitsAt(a: bv32, b: bv32, sum: bv32)
    requires sum == a ^ b
    ensures Shift(sum) == Shift(a) ^ Shift(b)
  {
    ShiftOfSum(a, b, sum, Shift(a) ^ Shift(b));
  }

  lemma ShiftSplits()
    ensures Splits(Shift)
  {
    forall a, b, sum: bv32 | sum == a ^ b ensures Shift(sum) == Shift(a) ^ Shift(b) {
      ShiftSplitsAt(a, b, sum);
    }
  }

  lemma SplittingIsAdditive(f: bv32 -> bv32)
    requires Splits(f)
    ensures Additive(Add, f)
  {
    forall a, b ensures f(Add(a, b)) == Add(f(a), f(b)) {
    }
  }

  lemma ShiftIsAdditive()
    ensures Additive(Add, Shift)
  {
    ShiftSplits();
    SplittingIsAdditive(Shift);
  }

  // ---------------------------------------------------------------------------------------------
  // Within 24 bits the shift loses nothing
  // ---------------------------------------------------------------------------------------------

  predicate In24(c: bv32) { c & 0x00ffffff == c }

  lemma ShiftStaysIn24(c: bv32)
    requires In24(c)
    ensures In24(Shift(c))
  {
  }

  /** The polynomial is odd, so nothing but zero is shifted to zero. */
  lemma OnlyZeroVanishes(c: bv32)
    requires In24(c) && Shift(c) == 0
    ensures c == 0
  {
    if Overflows(c) {
      OddNeverVanishes(c);
    }
  }

  lemma OddNeverVanishes(c: bv32)
    ensures (c << 1) ^ 0x1864cfb != 0
  {
  }

  lemma SumVanishes(a: bv32, b: bv32)
    ensures Add(a, b) == 0 <==> a == b
  {
  }

  lemma SumIn24(a: bv32, b: bv32)
    requires In24(a) && In24(b)
    ensures In24(Add(a, b))
  {
  }

  /** An additive step that keeps within 24 bits and has no kernel there keeps registers apart. */
  lemma NoKernelIsFaithful(f: bv32 -> bv32)
    requires Additive(Add, f)
    requires forall c :: In24(c) ==> In24(f(c))
    requires forall c :: In24(c) && f(c) == 0 ==> c == 0
    ensures Faithful(In24, f)
  {
    forall a, b | In24(a) && In24(b) && f(a) == f(b) ensures a == b {
      SumVanishes(f(a), f(b));
      SumVanishes(a, b);
      SumIn24(a, b);
      assert f(Add(a, b)) == Add(f(a), f(b));
    }
  }

  lemma ShiftIsFaithful()
    ensures Faithful(In24, Shift)
  {
    ShiftIsAdditive();
    forall c | In24(c) ensures In24(Shift(c)) {
      ShiftStaysIn24(c);
    }
    forall c | In24(c) && Shift(c) == 0 ensures c == 0 {
      OnlyZeroVanishes(c);
    }
    NoKernelIsFaithful(Shift);
  }

  lemma HighIn24(c: bv32, byte: bv8)
    requires In24(c)
    ensures In24(Add(c, High(byte)))
  {
  }

  lemma SumCancels(a: bv32, b: bv32, x: bv32)
    requires Add(a, x) == Add(b, x) || Add(x, a) == Add(x, b)
    ensures a == b
  {
  }

  lemma SumIsAssociative(a: bv32, b: bv32, c: bv32)
    ensures Add(Add(a, b), c) == Add(a, Add(b, c))
  {
  }

  lemma AddIsAbelian()
    ensures Abelian(Add)
  {
    forall a, b, c ensures Add(Add(a, b), c) == Add(a, Add(b, c)) {
      SumIsAssociative(a, b, c);
    }
  }

  lemma CrcKeeps()
    ensures Keeps(Crc24(), In24)
  {
    ShiftIsFaithful();
    forall c, byte: bv8 | In24(c) ensures In24(Add(c, High(byte))) {
      HighIn24(c, byte);
    }
    forall c, d, byte: bv8 | Add(c, High(byte)) == Add(d, High(byte)) ensures c == d {
      SumCancels(c, d, High(byte));
    }
  }

  /** All that the general theory asks of this register. */
  lemma CrcIsLawful()
    ensures StandingOf(Crc24(), In24, Middle, Low) == Lawful
  {
    AddIsAbelian();
    ShiftIsAdditive();
    CrcKeeps();
    BytesMoveUp();
    forall x: bv32, bytes: Bytes | |bytes| == 3 && In24(x) ensures In24(Add(x, WordOf(bytes))) {
      WordIn24(x, bytes);
    }
  }

  /** The register never outgrows 24 bits: the final mask changes nothing. */
  lemma CrcIsTheRegister(bytes: Bytes)
    ensures In24(Register(Crc24(), 0, bytes)) && Crc(bytes) == Register(Crc24(), 0, bytes)
  {
    CrcIsLawful();
    LawfulStaysInside(Crc24(), In24, Middle, Low, 0, bytes);
  }

  // ---------------------------------------------------------------------------------------------
  // Linearity
  // ---------------------------------------------------------------------------------------------

  lemma HighOfSum(a: bv8, b: bv8)
    ensures High(AddBytes(a, b)) == Add(High(a), High(b))
  {
  }

  lemma BytesAdd()
    ensures Adding(Crc24(), AddBytes, 0) == Lawful
  {
    SumVanishes(0, 0);
    forall x, y ensures High(AddBytes(x, y)) == Add(High(x), High(y)) {
      HighOfSum(x, y);
    }
  }

  /** The CRC of the bitwise sum of two messages of equal length is the sum of their CRCs. */
  lemma CrcIsLinear(a: Bytes, b: Bytes)
    requires |a| == |b|
    ensures Crc(Sum(AddBytes, a, b)) == Add(Crc(a), Crc(b))
  {
    CrcIsTheRegister(a);
    CrcIsTheRegister(b);
    CrcIsTheRegister(Sum(AddBytes, a, b));
    CrcIsLawful();
    BytesAdd();
    LawfulIsAdditive(Crc24(), In24, Middle, Low, AddBytes, 0, a, b);
  }

  // ---------------------------------------------------------------------------------------------
  // Three bytes as a word
  // ---------------------------------------------------------------------------------------------

  /** The first byte is the highest. */
  function WordOf(bytes: Bytes): bv32
    requires |bytes| == 3
  {
    Word(Crc24(), Middle, Low, bytes)
  }

  lemma WordIn24(c: bv32, bytes: Bytes)
    requires |bytes| == 3 && In24(c)
    ensures In24(WordOf(bytes)) && In24(Add(c, WordOf(bytes)))
  {
  }

  /** Shifting a bit pattern that stays clear of the top is a plain shift. */
  lemma PlainSteps(b: bv32)
    requires b & 0xff == b
    ensures Shift(b) == b << 1 && Shift(b << 1) == b << 2 && Shift(b << 2) == b << 3 && Shift(b << 3) == b << 4
    ensures Shift(b << 4) == b << 5 && Shift(b << 5) == b << 6 && Shift(b << 6) == b << 7 && Shift(b << 7) == b << 8
    ensures Shift(b << 8) == b << 9 && Shift(b << 9) == b << 10 && Shift(b << 10) == b << 11
    ensures Shift(b << 11) == b << 12 && Shift(b << 12) == b << 13 && Shift(b << 13) == b << 14
    ensures Shift(b << 14) == b << 15 && Shift(b << 15) == b << 16
  {
  }

  lemma EightSteps(f: bv32 -> bv32, x0: bv32, x1: bv32, x2: bv32, x3: bv32, x4: bv32, x5: bv32, x6: bv32, x7: bv32)
    requires f(x0) == x1 && f(x1) == x2 && f(x2) == x3 && f(x3) == x4 && f(x4) == x5 && f(x5) == x6 && f(x6) == x7
    ensures Iterated(f, x0, BITS) == f(x7)
  {
    assert Iterated(f, x0, 1) == x1;
    assert Iterated(f, x0, 2) == x2;
    assert Iterated(f, x0, 3) == x3;
    assert Iterated(f, x0, 4) == x4;
    assert Iterated(f, x0, 5) == x5;
    assert Iterated(f, x0, 6) == x6;
    assert Iterated(f, x0, 7) == x7;
  }

  lemma ByteMovesUp(byte: bv8)
    ensures Iterated(Shift, Low(byte), BITS) == Middle(byte) && Iterated(Shift, Middle(byte), BITS) == High(byte)
  {
    var b := byte as bv32;
    PlainSteps(b);
    EightSteps(Shift, b, b << 1, b << 2, b << 3, b << 4, b << 5, b << 6, b << 7);
    EightSteps(Shift, b << 8, b << 9, b << 10, b << 11, b << 12, b << 13, b << 14, b << 15);
  }

  lemma BytesMoveUp()
    ensures MovesUp(Crc24(), Middle, Low)
  {
    forall byte: bv8
      ensures Stepped(Crc24(), Middle(byte)) == High(byte) && Stepped(Crc24(), Low(byte)) == Middle(byte)
    {
      ByteMovesUp(byte);
    }
  }

  lemma ZeroIsShifted()
    ensures Shift(0) == 0
  {
  }

  /** A message followed by three bytes has remainder zero exactly when they are its CRC. */
  lemma RemainderIsZeroExactlyWhen(message: Bytes, tail: Bytes)
    requires |tail| == 3
    ensures Crc(message + tail) == 0 <==> WordOf(tail) == Crc(message)
  {
    CrcIsTheRegister(message);
    CrcIsTheRegister(message + tail);
    SumVanishes(Crc(message), WordOf(tail));
    CrcIsLawful();
    ZeroIsShifted();
    NothingIsLeftExactlyWhen(Crc24(), In24, Middle, Low, 0, message, tail);
  }

  // ---------------------------------------------------------------------------------------------
  // Error bursts
  // ---------------------------------------------------------------------------------------------

  /** A word determines its three bytes. */
  lemma WordsDiffer(a: Bytes, b: Bytes)
    requires |a| == |b| == 3 && WordOf(a) == WordOf(b)
    ensures a == b
  {
    SameBytes(a[0], a[1], a[2], b[0], b[1], b[2], WordOf(a));
  }

  lemma SameBytes(a0: bv8, a1: bv8, a2: bv8, b0: bv8, b1: bv8, b2: bv8, w: bv32)
    requires w == Add(Add(High(a0), Middle(a1)), Low(a2)) && w == Add(Add(High(b0), Middle(b1)), Low(b2))
    ensures a0 == b0 && a1 == b1 && a2 == b2
  {
  }

  /** Two messages that differ only inside three consecutive bytes never have the same CRC. */
  lemma BurstsAreDetected(before: Bytes, a: Bytes, b: Bytes, after: Bytes)
    requires |a| == |b| == 3 && Crc(before + a + after) == Crc(before + b + after)
    ensures a == b
  {
    CrcIsTheRegister(before + a + after);
    CrcIsTheRegister(before + b + after);
    CrcIsLawful();
    SameRegisterSameWord(Crc24(), In24, Middle, Low, 0, before, a, b, after);
    var x :| In24(x) && Add(x, WordOf(a)) == Add(x, WordOf(b));
    SumCancels(WordOf(a), WordOf(b), x);
    WordsDiffer(a, b);
  }
}
