/** Byte layouts: little-endian integers, unsigned varints as `unsigned_varint` reads and writes them,
    and the fixed-size SSZ containers of `src/rpc/methods.rs`. */
module Layout {
  import opened Messages

  // ---------------------------------------------------------------------------------------------
  // Little-endian integers

  function Pow(base: nat, k: nat): nat {
    if k == 0 then 1 else base * Pow(base, k - 1)
  }

  function ToLittleEndian(n: nat, k: nat): (b: Bytes)
    ensures |b| == k
  {
    if k == 0 then [] else [n % 256] + ToLittleEndian(n / 256, k - 1)
  }

  function FromLittleEndian(b: Bytes): nat {
    if b == [] then 0 else b[0] + 256 * FromLittleEndian(b[1..])
  }

  lemma {:induction false} LittleEndianBound(b: Bytes)
    ensures FromLittleEndian(b) < Pow(256, |b|)
  {
    if b != [] { LittleEndianBound(b[1..]); }
  }

  lemma {:induction false} LittleEndianRoundTrip(n: nat, k: nat)
    requires n < Pow(256, k)
    ensures FromLittleEndian(ToLittleEndian(n, k)) == n
  {
    if k > 0 {
      LittleEndianRoundTrip(n / 256, k - 1);
      assert ToLittleEndian(n, k)[1..] == ToLittleEndian(n / 256, k - 1);
    }
  }

  lemma {:induction false} LittleEndianCanonical(b: Bytes)
    ensures ToLittleEndian(FromLittleEndian(b), |b|) == b
  {
    if b != [] {
      LittleEndianCanonical(b[1..]);
      assert FromLittleEndian(b) % 256 == b[0] && FromLittleEndian(b) / 256 == FromLittleEndian(b[1..]);
    }
  }

  lemma EightBytes()
    ensures Pow(256, 8) == U64_BOUND
  {
    assert Pow(256, 4) == 0x1_0000_0000;
    assert Pow(256, 8) == 256 * 256 * 256 * 256 * Pow(256, 4);
  }

  function U64(b: Bytes): u64
    requires |b| == 8
  {
    LittleEndianBound(b);
    EightBytes();
    FromLittleEndian(b)
  }

  function U64Bytes(n: u64): (b: Bytes)
    ensures |b| == 8
  {
    ToLittleEndian(n, 8)
  }

  lemma U64RoundTrip(n: u64)
    ensures U64(U64Bytes(n)) == n
  {
    EightBytes();
    LittleEndianRoundTrip(n, 8);
  }

  lemma U64Canonical(b: Bytes)
    requires |b| == 8
    ensures U64Bytes(U64(b)) == b
  {
    LittleEndianCanonical(b);
  }

  /** Eight bytes, lowest first. */
  predicate SpellsU64(b: Bytes, n: int) {
    && |b| == 8
    && n == b[0] as int + 0x100 * (b[1] as int) + 0x1_0000 * (b[2] as int) + 0x100_0000 * (b[3] as int) + 0x1_0000_0000 * (b[4] as int)
            + 0x100_0000_0000 * (b[5] as int) + 0x1_0000_0000_0000 * (b[6] as int) + 0x100_0000_0000_0000 * (b[7] as int)
  }

  lemma Unfolded(b: Bytes)
    requires |b| >= 4
    ensures FromLittleEndian(b) ==
            b[0] as int + 0x100 * (b[1] as int) + 0x1_0000 * (b[2] as int) + 0x100_0000 * (b[3] as int)
            + 0x1_0000_0000 * FromLittleEndian(b[4..])
  {
    assert b[1..][1..] == b[2..] && b[2..][1..] == b[3..] && b[3..][1..] == b[4..];
    assert FromLittleEndian(b[3..]) == b[3] as int + 256 * FromLittleEndian(b[4..]);
    assert FromLittleEndian(b[2..]) == b[2] as int + 256 * FromLittleEndian(b[3..]);
    assert FromLittleEndian(b[1..]) == b[1] as int + 256 * FromLittleEndian(b[2..]);
  }

  /** The layout of a 64-bit number. */
  lemma U64Layout(n: u64)
    ensures SpellsU64(U64Bytes(n), n)
  {
    var b := U64Bytes(n);
    U64RoundTrip(n);
    Unfolded(b);
    Unfolded(b[4..]);
    assert b[4..][4..] == [];
  }

  // ---------------------------------------------------------------------------------------------
  // Varints

  function Varint(n: nat): (b: Bytes)
    ensures b != []
  {
    if n < 128 then [n] else [n % 128 + 128] + Varint(n / 128)
  }

  /** The number that groups of seven bits spell, lowest first, from byte `i` on. */
  function Groups(b: Bytes, i: nat): nat
    requires i <= |b|
    decreases |b| - i
  {
    if i == |b| then 0 else b[i] % 128 + 128 * Groups(b, i + 1)
  }

  lemma {:induction false} GroupsBehind(x: byte, b: Bytes, i: nat)
    requires i <= |b|
    ensures Groups([x] + b, i + 1) == Groups(b, i)
    decreases |b| - i
  {
    if i < |b| { GroupsBehind(x, b, i + 1); }
  }

  /** The layout of a varint: groups of seven bits, lowest first, with the top bit set on all but the last,
      which is not zero unless it is the only one. */
  lemma {:induction false} VarintLayout(n: nat)
    ensures var b := Varint(n);
            && Groups(b, 0) == n && (forall i :: 0 <= i < |b| ==> (b[i] >= 128 <==> i < |b| - 1))
            && (b[|b| - 1] == 0 ==> n == 0)
  {
    if n < 128 {
      assert Groups([n], 1) == 0;
    } else {
      VarintLayout(n / 128);
      GroupsBehind(n % 128 + 128, Varint(n / 128), 0);
    }
  }

  datatype VarintResult = Value(n: nat, used: nat) | Insufficient | NotMinimal | Overflow

  /** The number written from byte `i` on, unbounded. */
  function Digits(b: Bytes, i: nat): (r: VarintResult)
    requires i <= 9
    ensures r.Value? ==> i < r.used <= |b| && r.used <= 10
    decreases 10 - i
  {
    if i >= |b| then Insufficient
    else if b[i] < 128 then (if b[i] == 0 && i > 0 then NotMinimal else Value(b[i], i + 1))
    else if i == 9 then Overflow
    else
      var rest := Digits(b, i + 1);
      if rest.Value? then Value(b[i] - 128 + 128 * rest.n, rest.used) else rest
  }

  lemma {:induction false} InsufficientIs(b: Bytes, i: nat)
    requires i <= 9
    ensures Digits(b, i) == Insufficient <==> |b| < 10 && forall j :: i <= j < |b| ==> b[j] >= 128
    decreases 10 - i
  {
    if i < |b| && b[i] >= 128 && i < 9 { InsufficientIs(b, i + 1); }
  }

  /** The reader keeps 64 bits: of a tenth byte all but the lowest bit is shifted out. */
  function ReadVarint(b: Bytes): (r: VarintResult)
    ensures r.Value? ==> r.n < U64_BOUND && 0 < r.used <= |b|
  {
    var r := Digits(b, 0);
    if r.Value? then Value(r.n % 0x1_0000_0000_0000_0000, r.used) else r
  }

  lemma {:induction false} DigitsOfVarint(front: Bytes, n: nat, tail: Bytes)
    requires |front| <= 9 && n < Pow(128, 10 - |front|) && (front == [] || n > 0)
    ensures Digits(front + Varint(n) + tail, |front|) == Value(n, |front| + |Varint(n)|)
    decreases n
  {
    var b := front + Varint(n) + tail;
    if n < 128 {
      assert b[|front|] == n;
    } else {
      assert |front| != 9 by { assert Pow(128, 1) == 128 * Pow(128, 0); }
      var digit := n % 128 + 128;
      DigitsOfVarint(front + [digit], n / 128, tail);
      assert b == front + [digit] + Varint(n / 128) + tail;
    }
  }

  lemma TenDigits()
    ensures 2 * U64_BOUND < Pow(128, 10)
  {
    assert Pow(128, 4) == 0x1000_0000;
    assert Pow(128, 8) == 128 * 128 * 128 * 128 * Pow(128, 4);
    assert Pow(128, 10) == 128 * 128 * Pow(128, 8);
  }

  /** Every 64-bit number is read back from its encoding, whatever follows. */
  lemma VarintRoundTrip(n: u64, tail: Bytes)
    ensures ReadVarint(Varint(n) + tail) == Value(n, |Varint(n)|)
  {
    Cut(n, n);
    ReadsAs(n, n, tail);
  }

  lemma {:induction false} DigitsCanonical(b: Bytes, i: nat)
    requires i <= 9 && Digits(b, i).Value?
    ensures b[i..Digits(b, i).used] == Varint(Digits(b, i).n)
    ensures i > 0 ==> Digits(b, i).n > 0
    decreases 10 - i
  {
    if b[i] >= 128 {
      DigitsCanonical(b, i + 1);
      var rest := Digits(b, i + 1);
      var n := Digits(b, i).n;
      assert n >= 128 && n % 128 == b[i] - 128 && n / 128 == rest.n;
      assert b[i..rest.used] == [b[i]] + b[i + 1..rest.used];
    }
  }

  /** The bytes read are the encoding of the number returned if and only if the number they spell fits
      64 bits; a longer one is not refused but cut. */
  lemma VarintCanonical(b: Bytes)
    requires ReadVarint(b).Value?
    ensures b[..ReadVarint(b).used] == Varint(ReadVarint(b).n) <==> Digits(b, 0).n < U64_BOUND
  {
    DigitsCanonical(b, 0);
    var r, d := ReadVarint(b), Digits(b, 0);
    assert b[..r.used] == b[0..r.used];
    if b[..r.used] == Varint(r.n) {
      VarintRoundTrip(r.n, []);
      VarintInjective(r.n, d.n);
    }
  }

  /** Such input exists for every length: the encoding of a number 2^64 greater is accepted, as ten
      bytes at most, and read as the length itself. */
  lemma OverlongIsCut(n: u64, tail: Bytes)
    ensures ReadVarint(Varint(n + U64_BOUND) + tail) == Value(n, |Varint(n + U64_BOUND)|)
    ensures |Varint(n + U64_BOUND)| <= 10 && Varint(n + U64_BOUND) != Varint(n)
  {
    Cut(n, n + U64_BOUND);
    ReadsAs(n + U64_BOUND, n, tail);
    Apart(n, n + U64_BOUND);
  }

  lemma Cut(n: u64, big: nat)
    requires big == n || big == n + U64_BOUND
    ensures big % 0x1_0000_0000_0000_0000 == n
  {
  }

  lemma ReadsAs(big: nat, n: nat, tail: Bytes)
    requires big < 2 * U64_BOUND && big % 0x1_0000_0000_0000_0000 == n
    ensures ReadVarint(Varint(big) + tail) == Value(n, |Varint(big)|) && |Varint(big)| <= 10
  {
    ReadsCut(big, tail);
  }

  lemma Apart(m: nat, n: nat)
    requires m != n
    ensures Varint(m) != Varint(n)
  {
    if Varint(m) == Varint(n) { VarintInjective(m, n); }
  }

  lemma ReadsCut(n: nat, tail: Bytes)
    requires n < 2 * U64_BOUND
    ensures ReadVarint(Varint(n) + tail) == Value(n % 0x1_0000_0000_0000_0000, |Varint(n)|) && |Varint(n)| <= 10
  {
    TenDigits();
    DigitsOfVarint([], n, tail);
    assert [] + Varint(n) + tail == Varint(n) + tail;
  }

  lemma {:induction false} VarintInjective(m: nat, n: nat)
    requires Varint(m) == Varint(n)
    ensures m == n
  {
    if m >= 128 && n >= 128 {
      assert Varint(m)[0] == Varint(n)[0] && Varint(m)[1..] == Varint(n)[1..];
      VarintInjective(m / 128, n / 128);
    } else {
      assert Varint(m)[0] == Varint(n)[0];
    }
  }

  // ---------------------------------------------------------------------------------------------
  // SSZ

  const STATUS_SIZE := 84
  const PING_SIZE := 8
  const METADATA_SIZE := 17

  function StatusSsz(s: StatusMessage): (b: Bytes)
    ensures |b| == STATUS_SIZE
  {
    s.forkDigest + s.finalizedRoot + U64Bytes(s.finalizedEpoch) + s.headRoot + U64Bytes(s.headSlot)
  }

  function ReadStatus(b: Bytes): StatusMessage
    requires |b| == STATUS_SIZE
  {
    StatusMessage(b[..4], b[4..36], U64(b[36..44]), b[44..76], U64(b[76..84]))
  }

  function MetaDataSsz(m: MetaData): (b: Bytes)
    ensures |b| == METADATA_SIZE
  {
    U64Bytes(m.seqNumber) + m.attnets + [m.syncnets]
  }

  /** No value if the last byte has one of its upper four bits set. */
  function ReadMetaData(b: Bytes): Option<MetaData>
    requires |b| == METADATA_SIZE
  {
    if b[16] < 16 then Some(MetaData(U64(b[..8]), b[8..16], b[16])) else None
  }

  lemma StatusRoundTrip(s: StatusMessage)
    ensures ReadStatus(StatusSsz(s)) == s
  {
    var b := StatusSsz(s);
    U64RoundTrip(s.finalizedEpoch);
    U64RoundTrip(s.headSlot);
    assert b[..4] == s.forkDigest && b[4..36] == s.finalizedRoot && b[36..44] == U64Bytes(s.finalizedEpoch);
    assert b[44..76] == s.headRoot && b[76..84] == U64Bytes(s.headSlot);
  }

  lemma StatusCanonical(b: Bytes)
    requires |b| == STATUS_SIZE
    ensures StatusSsz(ReadStatus(b)) == b
  {
    U64Canonical(b[36..44]);
    U64Canonical(b[76..84]);
    assert b == b[..4] + b[4..36] + b[36..44] + b[44..76] + b[76..84];
  }

  lemma MetaDataRoundTrip(m: MetaData)
    ensures ReadMetaData(MetaDataSsz(m)) == Some(m)
  {
    var b := MetaDataSsz(m);
    U64RoundTrip(m.seqNumber);
    assert b[..8] == U64Bytes(m.seqNumber) && b[8..16] == m.attnets && b[16] == m.syncnets;
  }

  lemma MetaDataCanonical(b: Bytes)
    requires |b| == METADATA_SIZE && ReadMetaData(b).Some?
    ensures MetaDataSsz(ReadMetaData(b).value) == b
  {
    U64Canonical(b[..8]);
    assert b == b[..8] + b[8..16] + [b[16]];
  }

  /** The layout of a status message: offsets 0, 4, 36, 44 and 76. */
  lemma StatusLayout(s: StatusMessage)
    ensures var b := StatusSsz(s);
            && |b| == 84 && b[0..4] == s.forkDigest && b[4..36] == s.finalizedRoot && SpellsU64(b[36..44], s.finalizedEpoch)
            && b[44..76] == s.headRoot && SpellsU64(b[76..84], s.headSlot)
  {
    var b := StatusSsz(s);
    U64Layout(s.finalizedEpoch);
    U64Layout(s.headSlot);
    assert b[36..44] == U64Bytes(s.finalizedEpoch) && b[76..84] == U64Bytes(s.headSlot);
  }

  /** The layout of metadata: offsets 0, 8 and 16. */
  lemma MetaDataLayout(m: MetaData)
    ensures var b := MetaDataSsz(m);
            |b| == 17 && SpellsU64(b[0..8], m.seqNumber) && b[8..16] == m.attnets && b[16] == m.syncnets
  {
    var b := MetaDataSsz(m);
    U64Layout(m.seqNumber);
    assert b[0..8] == U64Bytes(m.seqNumber);
  }
}
