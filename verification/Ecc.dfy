/**
 * The (72,64) error-correcting code: encoder, decoder, and what the decoder makes of every pattern of
 * inverted bits. Words are sequences of bits, least significant first.
 */
module Ecc {

  type Bits = seq<bool>

  const DATA_WIDTH := 64
  const PARITY_BITS := 7

  // ---------------------------------------------------------------- bit vectors

  function Xor(x: Bits, y: Bits): (z: Bits)
    requires |x| == |y|
    ensures |z| == |x| && forall k :: 0 <= k < |x| ==> z[k] == (x[k] != y[k])
  {
    seq(|x|, k requires 0 <= k < |x| => x[k] != y[k])
  }

  function And(x: Bits, y: Bits): (z: Bits)
    requires |x| == |y|
    ensures |z| == |x| && forall k :: 0 <= k < |x| ==> z[k] == (x[k] && y[k])
  {
    seq(|x|, k requires 0 <= k < |x| => x[k] && y[k])
  }

  /** The reduction operator: XOR of all bits. */
  function Parity(x: Bits): bool {
    if x == [] then false else x[0] != Parity(x[1..])
  }

  function OneBit(width: nat, at: int): (z: Bits)
    ensures |z| == width && forall k :: 0 <= k < width ==> z[k] == (k == at)
  {
    seq(width, k => k == at)
  }

  function Digit(c: char): int {
    if '0' <= c <= '9' then c as int - '0' as int else if 'A' <= c <= 'F' then c as int - 'A' as int + 10 else 0
  }

  /** A 64-bit constant from its sixteen hexadecimal digits. */
  function Hex(digits: string): (z: Bits)
    requires |digits| == 16
    ensures |z| == DATA_WIDTH
    ensures forall k :: 0 <= k < DATA_WIDTH ==> z[k] == DigitBit(Digit(digits[15 - k / 4]), k % 4)
  {
    seq(DATA_WIDTH, k requires 0 <= k < DATA_WIDTH => DigitBit(Digit(digits[15 - k / 4]), k % 4))
  }

  predicate DigitBit(d: int, k: int) {
    (if k == 0 then d else if k == 1 then d / 2 else if k == 2 then d / 4 else d / 8) % 2 == 1
  }

  // ---------------------------------------------------------------- encoder and decoder

  /** The data bits covered by each Hamming check bit. */
  function Mask(k: int): (z: Bits)
    ensures |z| == DATA_WIDTH
  {
    if k == 0 then Hex("AAAAAAAAAAAAAAAA")
    else if k == 1 then Hex("CCCCCCCCCCCCCCCC")
    else if k == 2 then Hex("F0F0F0F0F0F0F0F0")
    else if k == 3 then Hex("FF00FF00FF00FF00")
    else if k == 4 then Hex("FFFF0000FFFF0000")
    else if k == 5 then Hex("FFFFFFFF00000000")
    else Hex("FFFFFFFFFFFFFFFF")
  }

  predicate IsData(d: Bits) { |d| == DATA_WIDTH }

  /** The eight check bits: seven Hamming bits and the overall parity. */
  datatype Code = Code(hamming: Bits, overall: bool) {
    predicate Valid() { |hamming| == PARITY_BITS }
  }

  function Hamming(data: Bits): (h: Bits)
    requires IsData(data)
    ensures |h| == PARITY_BITS
    ensures forall k :: 0 <= k < PARITY_BITS ==> h[k] == Parity(And(data, Mask(k)))
  {
    seq(PARITY_BITS, k requires 0 <= k < PARITY_BITS => Parity(And(data, Mask(k))))
  }

  function Encode(data: Bits): (c: Code)
    requires IsData(data)
    ensures c.Valid()
  {
    Code(Hamming(data), Parity(data) != Parity(Hamming(data)))
  }

  function Syndrome(data: Bits, check: Code): (s: Bits)
    requires IsData(data) && check.Valid()
    ensures |s| == PARITY_BITS
  {
    Xor(Hamming(data), check.hamming)
  }

  predicate ParityError(data: Bits, check: Code) {
    (Parity(data) != Parity(check.hamming)) != check.overall
  }

  /** The number whose binary digits are the seven syndrome bits. */
  function Value(s: Bits): (v: int)
    requires |s| == PARITY_BITS
    ensures 0 <= v < 128
  {
    (if s[0] then 1 else 0) + (if s[1] then 2 else 0) + (if s[2] then 4 else 0) + (if s[3] then 8 else 0)
    + (if s[4] then 16 else 0) + (if s[5] then 32 else 0) + if s[6] then 64 else 0
  }

  datatype Verdict = Clean | Corrected | Uncorrectable

  datatype Decoded = Decoded(data: Bits, verdict: Verdict)

  function Classify(syndrome: int, parityError: bool): Verdict {
    if syndrome == 0 && !parityError then Clean
    else if 0 < syndrome <= DATA_WIDTH && parityError then Corrected
    else Uncorrectable
  }

  /** The bits the decoder inverts: one, numbered from one, if it corrects at all. */
  function Flip(syndrome: int, parityError: bool): (z: Bits)
    ensures |z| == DATA_WIDTH
  {
    OneBit(DATA_WIDTH, if Classify(syndrome, parityError) == Corrected then syndrome - 1 else -1)
  }

  function Decode(data: Bits, check: Code): (r: Decoded)
    requires IsData(data) && check.Valid()
    ensures IsData(r.data)
  {
    var s := Value(Syndrome(data, check));
    var p := ParityError(data, check);
    Decoded(Xor(data, Flip(s, p)), Classify(s, p))
  }

  // ---------------------------------------------------------------- linearity

  lemma {:induction false} ParityOfXor(x: Bits, y: Bits)
    requires |x| == |y|
    ensures Parity(Xor(x, y)) == (Parity(x) != Parity(y))
  {
    if x != [] {
      ParityOfXor(x[1..], y[1..]);
      assert Xor(x, y)[1..] == Xor(x[1..], y[1..]);
    }
  }

  lemma HammingOfXor(x: Bits, y: Bits)
    requires IsData(x) && IsData(y)
    ensures Hamming(Xor(x, y)) == Xor(Hamming(x), Hamming(y))
  {
    forall k | 0 <= k < PARITY_BITS
      ensures Hamming(Xor(x, y))[k] == (Hamming(x)[k] != Hamming(y)[k])
    {
      assert And(Xor(x, y), Mask(k)) == Xor(And(x, Mask(k)), And(y, Mask(k)));
      ParityOfXor(And(x, Mask(k)), And(y, Mask(k)));
    }
  }

  // ---------------------------------------------------------------- arbitrary error patterns

  /** The bits of a stored codeword that arrive inverted. */
  datatype Error = Error(data: Bits, check: Code) {
    predicate Valid() { IsData(data) && check.Valid() }
  }

  function Disturb(c: Code, e: Code): (r: Code)
    requires c.Valid() && e.Valid()
    ensures r.Valid()
  {
    Code(Xor(c.hamming, e.hamming), c.overall != e.overall)
  }

  function Receive(data: Bits, e: Error): (r: Decoded)
    requires IsData(data) && e.Valid()
    ensures IsData(r.data)
  {
    Decode(Xor(data, e.data), Disturb(Encode(data), e.check))
  }

  /** The syndrome depends on the error pattern alone, whatever word was stored. */
  lemma SyndromeOfError(data: Bits, e: Error)
    requires IsData(data) && e.Valid()
    ensures Syndrome(Xor(data, e.data), Disturb(Encode(data), e.check)) == Syndrome(e.data, e.check)
    ensures ParityError(Xor(data, e.data), Disturb(Encode(data), e.check)) == ParityError(e.data, e.check)
  {
    HammingOfXor(data, e.data);
    ParityOfXor(data, e.data);
    ParityOfXor(Hamming(data), e.check.hamming);
  }

  lemma XorRestores(data: Bits, e: Bits, flip: Bits)
    requires |data| == |e| == |flip|
    ensures Xor(Xor(data, e), flip) == data <==> e == flip
  {
    var back := Xor(Xor(data, e), flip);
    if back == data {
      forall k | 0 <= k < |data| ensures e[k] == flip[k] {
        assert back[k] == data[k];
      }
    }
  }

  /**
   * For every stored word and every error pattern: the verdict is a function of the pattern, and the
   * stored word comes back exactly if the inverted data bits are those the decoder flips.
   */
  lemma DecodingOfError(data: Bits, e: Error)
    requires IsData(data) && e.Valid()
    ensures Receive(data, e).verdict == Classify(Value(Syndrome(e.data, e.check)), ParityError(e.data, e.check))
    ensures Receive(data, e).data == Xor(Xor(data, e.data), Flip(Value(Syndrome(e.data, e.check)), ParityError(e.data, e.check)))
    ensures Receive(data, e).data == data
            <==> e.data == Flip(Value(Syndrome(e.data, e.check)), ParityError(e.data, e.check))
  {
    SyndromeOfError(data, e);
    XorRestores(data, e.data, Flip(Value(Syndrome(e.data, e.check)), ParityError(e.data, e.check)));
  }

  /**
   * Bit by bit, for every word and pattern: the decoder changes bit k of the word it receives exactly if the
   * overall parity fails and the syndrome, read as a number, is k + 1.
   */
  lemma DecoderInverts(data: Bits, e: Error, k: int)
    requires IsData(data) && e.Valid() && 0 <= k < DATA_WIDTH
    ensures (Receive(data, e).data[k] != Xor(data, e.data)[k])
            <==> ParityError(e.data, e.check) && Value(Syndrome(e.data, e.check)) == k + 1
  {
    SyndromeOfError(data, e);
  }

  // ---------------------------------------------------------------- no error, one error, two errors

  function Zeros(width: nat): (z: Bits) { OneBit(width, -1) }

  const NO_ERROR := Error(Zeros(DATA_WIDTH), Code(Zeros(PARITY_BITS), false))

  /** One inverted bit of the 72. */
  datatype Place = InData(i: int) | InCheck(j: int) {
    predicate Valid() { if InData? then 0 <= i < DATA_WIDTH else 0 <= j <= PARITY_BITS }
  }

  function Single(p: Place): (e: Error)
    ensures e.Valid()
  {
    if p.InData? then Error(OneBit(DATA_WIDTH, p.i), Code(Zeros(PARITY_BITS), false))
    else Error(Zeros(DATA_WIDTH), Code(OneBit(PARITY_BITS, p.j), p.j == PARITY_BITS))
  }

  function Both(e: Error, f: Error): (g: Error)
    requires e.Valid() && f.Valid()
    ensures g.Valid()
  {
    Error(Xor(e.data, f.data), Disturb(e.check, f.check))
  }

  /** The seven syndrome bits of one inverted bit, as the source's masks give them. */
  function PlaceSyndrome(p: Place): (s: Bits)
    ensures |s| == PARITY_BITS
  {
    seq(PARITY_BITS, k => if p.InData? then k == 6 || (k < 6 && IndexBit(p.i, k)) else k == p.j)
  }

  predicate IndexBit(i: int, k: int) {
    (if k == 0 then i else if k == 1 then i / 2 else if k == 2 then i / 4
     else if k == 3 then i / 8 else if k == 4 then i / 16 else i / 32) % 2 == 1
  }

  // Each mask, digit by digit from the least significant.

  lemma Digit0(q: int)
    requires 0 <= q < 16
    ensures Digit("AAAAAAAAAAAAAAAA"[15 - q]) == 10
  {
  }

  lemma Digit1(q: int)
    requires 0 <= q < 16
    ensures Digit("CCCCCCCCCCCCCCCC"[15 - q]) == 12
  {
  }

  lemma Digit2(q: int)
    requires 0 <= q < 16
    ensures Digit("F0F0F0F0F0F0F0F0"[15 - q]) == if q % 2 == 1 then 15 else 0
  {
  }

  lemma Digit3(q: int)
    requires 0 <= q < 16
    ensures Digit("FF00FF00FF00FF00"[15 - q]) == if q / 2 % 2 == 1 then 15 else 0
  {
  }

  lemma Digit4(q: int)
    requires 0 <= q < 16
    ensures Digit("FFFF0000FFFF0000"[15 - q]) == if q / 4 % 2 == 1 then 15 else 0
  {
  }

  lemma Digit5(q: int)
    requires 0 <= q < 16
    ensures Digit("FFFFFFFF00000000"[15 - q]) == if q / 8 % 2 == 1 then 15 else 0
  {
  }

  lemma Digit6(q: int)
    requires 0 <= q < 16
    ensures Digit("FFFFFFFFFFFFFFFF"[15 - q]) == 15
  {
  }

  lemma NibbleBits(i: int)
    requires 0 <= i < DATA_WIDTH
    ensures DigitBit(15, i % 4) && !DigitBit(0, i % 4)
    ensures DigitBit(10, i % 4) == (i % 2 == 1) && DigitBit(12, i % 4) == (i / 2 % 2 == 1)
    ensures i / 4 / 2 == i / 8 && i / 4 / 4 == i / 16 && i / 4 / 8 == i / 32
  {
  }

  lemma Mask0Selects(i: int)
    requires 0 <= i < DATA_WIDTH
    ensures Hex("AAAAAAAAAAAAAAAA")[i] == (i % 2 == 1)
  {
    Digit0(i / 4);
    NibbleBits(i);
  }

  lemma Mask1Selects(i: int)
    requires 0 <= i < DATA_WIDTH
    ensures Hex("CCCCCCCCCCCCCCCC")[i] == (i / 2 % 2 == 1)
  {
    Digit1(i / 4);
    NibbleBits(i);
  }

  lemma Mask2Selects(i: int)
    requires 0 <= i < DATA_WIDTH
    ensures Hex("F0F0F0F0F0F0F0F0")[i] == (i / 4 % 2 == 1)
  {
    Digit2(i / 4);
    NibbleBits(i);
  }

  lemma Mask3Selects(i: int)
    requires 0 <= i < DATA_WIDTH
    ensures Hex("FF00FF00FF00FF00")[i] == (i / 8 % 2 == 1)
  {
    Digit3(i / 4);
    NibbleBits(i);
  }

  lemma Mask4Selects(i: int)
    requires 0 <= i < DATA_WIDTH
    ensures Hex("FFFF0000FFFF0000")[i] == (i / 16 % 2 == 1)
  {
    Digit4(i / 4);
    NibbleBits(i);
  }

  lemma Mask5Selects(i: int)
    requires 0 <= i < DATA_WIDTH
    ensures Hex("FFFFFFFF00000000")[i] == (i / 32 % 2 == 1)
  {
    Digit5(i / 4);
    NibbleBits(i);
  }

  lemma Mask6Selects(i: int)
    requires 0 <= i < DATA_WIDTH
    ensures Hex("FFFFFFFFFFFFFFFF")[i] == (true)
  {
    Digit6(i / 4);
    NibbleBits(i);
  }

  /** Mask k selects the data bits whose index has bit k; the last mask selects all. */
  lemma MaskSelects(k: int, i: int)
    requires 0 <= k < PARITY_BITS && 0 <= i < DATA_WIDTH
    ensures Mask(k)[i] == (k == 6 || (k < 6 && IndexBit(i, k)))
  {
    if k == 0 { Mask0Selects(i); }
    else if k == 1 { Mask1Selects(i); }
    else if k == 2 { Mask2Selects(i); }
    else if k == 3 { Mask3Selects(i); }
    else if k == 4 { Mask4Selects(i); }
    else if k == 5 { Mask5Selects(i); }
    else { Mask6Selects(i); }
  }

  lemma {:induction false} ParityOfZeros(x: Bits)
    requires forall k :: 0 <= k < |x| ==> !x[k]
    ensures !Parity(x)
  {
    if x != [] {
      ParityOfZeros(x[1..]);
    }
  }

  lemma {:induction false} ParityOfOne(x: Bits, i: int)
    requires 0 <= i < |x| && forall k :: 0 <= k < |x| && k != i ==> !x[k]
    ensures Parity(x) == x[i]
  {
    if i == 0 {
      ParityOfZeros(x[1..]);
    } else {
      ParityOfOne(x[1..], i - 1);
    }
  }

  lemma HammingOfZeros()
    ensures Hamming(Zeros(DATA_WIDTH)) == Zeros(PARITY_BITS)
  {
    forall k | 0 <= k < PARITY_BITS ensures !Hamming(Zeros(DATA_WIDTH))[k] {
      ParityOfZeros(And(Zeros(DATA_WIDTH), Mask(k)));
    }
  }

  lemma HammingOfOne(i: int)
    requires 0 <= i < DATA_WIDTH
    ensures Hamming(OneBit(DATA_WIDTH, i)) == PlaceSyndrome(InData(i))
  {
    forall k | 0 <= k < PARITY_BITS
      ensures Hamming(OneBit(DATA_WIDTH, i))[k] == PlaceSyndrome(InData(i))[k]
    {
      ParityOfOne(And(OneBit(DATA_WIDTH, i), Mask(k)), i);
      MaskSelects(k, i);
    }
  }

  lemma XorZeros(x: Bits)
    ensures Xor(x, Zeros(|x|)) == x && Xor(Zeros(|x|), x) == x
  {
  }

  lemma XorEqual(x: Bits, y: Bits)
    requires |x| == |y|
    ensures Xor(x, y) == Zeros(|x|) <==> x == y
  {
    if Xor(x, y) == Zeros(|x|) {
      forall k | 0 <= k < |x| ensures x[k] == y[k] {
        assert !Xor(x, y)[k];
      }
    }
  }

  lemma SameBit(width: nat, i: int, j: int)
    requires 0 <= i < width || 0 <= j < width
    ensures OneBit(width, i) == OneBit(width, j) <==> i == j
  {
    var k := if 0 <= i < width then i else j;
    assert OneBit(width, i)[k] == (k == i) && OneBit(width, j)[k] == (k == j);
  }

  lemma DataSyndrome(i: int)
    requires 0 <= i < DATA_WIDTH
    ensures Syndrome(OneBit(DATA_WIDTH, i), NO_ERROR.check) == PlaceSyndrome(InData(i))
    ensures ParityError(OneBit(DATA_WIDTH, i), NO_ERROR.check)
  {
    HammingOfOne(i);
    XorZeros(PlaceSyndrome(InData(i)));
    ParityOfOne(OneBit(DATA_WIDTH, i), i);
    ParityOfZeros(Zeros(PARITY_BITS));
  }

  lemma CheckSyndrome(j: int)
    requires 0 <= j <= PARITY_BITS
    ensures Syndrome(Zeros(DATA_WIDTH), Code(OneBit(PARITY_BITS, j), j == PARITY_BITS)) == OneBit(PARITY_BITS, j)
    ensures ParityError(Zeros(DATA_WIDTH), Code(OneBit(PARITY_BITS, j), j == PARITY_BITS))
  {
    HammingOfZeros();
    XorZeros(OneBit(PARITY_BITS, j));
    ParityOfZeros(Zeros(DATA_WIDTH));
    if j < PARITY_BITS {
      ParityOfOne(OneBit(PARITY_BITS, j), j);
    } else {
      ParityOfZeros(OneBit(PARITY_BITS, j));
    }
  }

  /** One inverted bit always upsets the overall parity, and its syndrome is its index pattern. */
  lemma SingleSyndrome(p: Place)
    requires p.Valid()
    ensures Syndrome(Single(p).data, Single(p).check) == PlaceSyndrome(p)
    ensures ParityError(Single(p).data, Single(p).check)
  {
    if p.InData? {
      DataSyndrome(p.i);
    } else {
      CheckSyndrome(p.j);
      assert PlaceSyndrome(p) == OneBit(PARITY_BITS, p.j);
    }
  }

  /** Errors add up. */
  lemma BothSyndrome(e: Error, f: Error)
    requires e.Valid() && f.Valid()
    ensures Syndrome(Both(e, f).data, Both(e, f).check)
            == Xor(Syndrome(e.data, e.check), Syndrome(f.data, f.check))
    ensures ParityError(Both(e, f).data, Both(e, f).check)
            == (ParityError(e.data, e.check) != ParityError(f.data, f.check))
  {
    HammingOfXor(e.data, f.data);
    ParityOfXor(e.data, f.data);
    ParityOfXor(e.check.hamming, f.check.hamming);
  }

  lemma Halves(i: int)
    requires i >= 0
    ensures i == i % 2 + 2 * (i / 2)
    ensures i / 2 / 2 == i / 4 && i / 4 / 2 == i / 8 && i / 8 / 2 == i / 16 && i / 16 / 2 == i / 32
  {
  }

  lemma IndexSum(i: int)
    requires 0 <= i < DATA_WIDTH
    ensures i == i % 2 + 2 * (i / 2 % 2) + 4 * (i / 4 % 2) + 8 * (i / 8 % 2) + 16 * (i / 16 % 2) + 32 * (i / 32 % 2)
  {
    Halves(i);
  }

  lemma DataIndex(i: int)
    requires 0 <= i < DATA_WIDTH
    ensures Value(PlaceSyndrome(InData(i))) == DATA_WIDTH + i
  {
    IndexSum(i);
  }

  /** The weight of a check bit in the syndrome; the overall parity bit has none. */
  function Weight(j: int): int {
    if j == 0 then 1 else if j == 1 then 2 else if j == 2 then 4 else if j == 3 then 8
    else if j == 4 then 16 else if j == 5 then 32 else if j == 6 then 64 else 0
  }

  lemma CheckIndex(j: int)
    requires 0 <= j <= PARITY_BITS
    ensures Value(PlaceSyndrome(InCheck(j))) == Weight(j)
  {
  }

  lemma SingleVerdict(p: Place)
    requires p.Valid()
    ensures Classify(Value(PlaceSyndrome(p)), true) ==
            if p == InData(0) || (p.InCheck? && p.j < PARITY_BITS) then Corrected else Uncorrectable
  {
    if p.InData? {
      DataIndex(p.i);
    } else {
      CheckIndex(p.j);
    }
  }

  /** Data bit 0 answers for bit 63; a Hamming bit makes the decoder invert a sound data bit. */
  lemma SingleFlip(p: Place)
    requires p.Valid()
    ensures Single(p).data == Flip(Value(PlaceSyndrome(p)), true) <==> p == InCheck(PARITY_BITS)
  {
    if p.InData? {
      DataIndex(p.i);
      SameBit(DATA_WIDTH, p.i, if p.i == 0 then DATA_WIDTH - 1 else -1);
    } else {
      CheckIndex(p.j);
      if p.j < PARITY_BITS {
        SameBit(DATA_WIDTH, -1, Weight(p.j) - 1);
      }
    }
  }

  /** Reading back an undisturbed word returns it without a flag. */
  lemma RoundTrip(data: Bits)
    requires IsData(data)
    ensures Decode(data, Encode(data)) == Decoded(data, Clean)
  {
    XorEqual(Hamming(data), Hamming(data));
    XorZeros(data);
  }

  /**
   * Every single inverted bit is flagged, but the correction is off: data bit 0 and the Hamming bits are
   * "corrected" by inverting some other data bit, every other data bit is only detected.
   */
  lemma SingleError(data: Bits, p: Place)
    requires IsData(data) && p.Valid()
    ensures Receive(data, Single(p)).verdict ==
            if p == InData(0) || (p.InCheck? && p.j < PARITY_BITS) then Corrected else Uncorrectable
    ensures Receive(data, Single(p)).data == data <==> p == InCheck(PARITY_BITS)
  {
    SingleSyndrome(p);
    DecodingOfError(data, Single(p));
    SingleFlip(p);
    SingleVerdict(p);
  }

  /** What arrives after one inverted bit, and the bit the decoder adds to the damage, if any. */
  function HandedOut(p: Place): (z: Bits)
    ensures |z| == DATA_WIDTH
  {
    match p
    case InData(i) => seq(DATA_WIDTH, k => k == i || (i == 0 && k == 63))
    case InCheck(j) =>
      seq(DATA_WIDTH, k => (j == 0 && k == 0) || (j == 1 && k == 1) || (j == 2 && k == 3) || (j == 3 && k == 7)
                           || (j == 4 && k == 15) || (j == 5 && k == 31) || (j == 6 && k == 63))
  }

  /**
   * Which bits of the word come out wrong after a single error: an inverted check bit j below 7 makes the decoder
   * invert bit 2^j - 1, an inverted data bit 0 comes with bit 63, and every other data bit stays as it arrived.
   */
  lemma SingleErrorHandsOut(data: Bits, p: Place)
    requires IsData(data) && p.Valid()
    ensures Receive(data, Single(p)).data == Xor(data, HandedOut(p))
  {
    var r := Receive(data, Single(p)).data;
    var z := Xor(data, HandedOut(p));
    forall k | 0 <= k < DATA_WIDTH
      ensures r[k] == z[k]
    {
      SingleErrorBit(data, p, k);
    }
    SameBits(r, z);
  }

  lemma SameBits(x: Bits, y: Bits)
    requires |x| == |y| && forall k :: 0 <= k < |x| ==> x[k] == y[k]
    ensures x == y
  {
  }

  lemma SingleErrorBit(data: Bits, p: Place, k: int)
    requires IsData(data) && p.Valid() && 0 <= k < DATA_WIDTH
    ensures Receive(data, Single(p)).data[k] == (data[k] != HandedOut(p)[k])
  {
    SingleSyndrome(p);
    PlaceValue(p);
    DecoderInverts(data, Single(p), k);
    OneBitOut(p, k);
  }

  lemma PlaceValue(p: Place)
    requires p.Valid()
    ensures Value(PlaceSyndrome(p)) == if p.InData? then DATA_WIDTH + p.i else Weight(p.j)
  {
    if p.InData? {
      DataIndex(p.i);
    } else {
      CheckIndex(p.j);
    }
  }

  lemma OneBitOut(p: Place, k: int)
    requires p.Valid() && 0 <= k < DATA_WIDTH
    requires Value(PlaceSyndrome(p)) == if p.InData? then DATA_WIDTH + p.i else Weight(p.j)
    ensures HandedOut(p)[k] == (Single(p).data[k] != (Value(PlaceSyndrome(p)) == k + 1))
  {
  }

  /** The only pair of inverted bits that cancels in syndrome and parity. */
  predicate SilentPair(p: Place, q: Place) {
    (p == InData(0) && q == InCheck(6)) || (q == InData(0) && p == InCheck(6))
  }

  lemma SyndromesDiffer(p: Place, q: Place)
    requires p.Valid() && q.Valid() && p != q
    ensures PlaceSyndrome(p) == PlaceSyndrome(q) <==> SilentPair(p, q)
  {
    if p.InData? { DataIndex(p.i); } else { CheckIndex(p.j); }
    if q.InData? { DataIndex(q.i); } else { CheckIndex(q.j); }
    if SilentPair(p, q) {
      assert PlaceSyndrome(InData(0)) == PlaceSyndrome(InCheck(6));
    }
  }

  lemma ValueZero(s: Bits)
    requires |s| == PARITY_BITS
    ensures Value(s) == 0 <==> s == Zeros(PARITY_BITS)
  {
  }

  /** Two inverted bits are always reported and left alone, except for one pair that passes as clean. */
  lemma DoubleError(data: Bits, p: Place, q: Place)
    requires IsData(data) && p.Valid() && q.Valid() && p != q
    ensures Receive(data, Both(Single(p), Single(q))).verdict == if SilentPair(p, q) then Clean else Uncorrectable
    ensures Receive(data, Both(Single(p), Single(q))).data == Xor(data, Both(Single(p), Single(q)).data)
  {
    SingleSyndrome(p);
    SingleSyndrome(q);
    BothSyndrome(Single(p), Single(q));
    DecodingOfError(data, Both(Single(p), Single(q)));
    SyndromesDiffer(p, q);
    XorEqual(PlaceSyndrome(p), PlaceSyndrome(q));
    ValueZero(Xor(PlaceSyndrome(p), PlaceSyndrome(q)));
    XorZeros(Xor(data, Both(Single(p), Single(q)).data));
  }
}
