/**
 * The value decoder of inkbird2mqtt.py (`float_value`): two little-endian
 * bytes of the sensor's characteristic become a fixed-point measurement.
 *
 * Measurements are integers counting hundredths (the source divides by 100
 * and hands a float on; here the division is only a scaling convention).
 * The sign rule is the one the code applies: a value is negative only when
 * its high byte is exactly 0xFF, which is NOT full 16-bit two's complement.
 */
module ValueDecoder {

  import opened BitOps

  /** One element of a Python `bytes` object. */
  type byte = b: int | 0 <= b < 256

  /** Smallest and largest number of hundredths the decoder can produce. */
  const MinHundredths: int := -256
  const MaxHundredths: int := 65279

  predicate InRange(v: int) {
    MinHundredths <= v <= MaxHundredths
  }

  /** `(hi << 8) | lo`: the unsigned word of a little-endian byte pair. */
  function Word(lo: byte, hi: byte): nat {
    Or(ShiftLeft(hi, 8), lo)
  }

  /**
   * `float_value(nums)`, in hundredths: combine nums[0] (low) and nums[1]
   * (high); when the high byte is 0xFF replace the word by -((word ^ 0xFFFF) + 1).
   * Only the first two bytes are read; fewer than two is an index error in
   * the source, hence the precondition.
   */
  function FloatValue(nums: seq<byte>): (r: int)
    requires |nums| >= 2
    ensures r == Hundredths(nums[0], nums[1])
    ensures InRange(r)
    ensures r < 0 <==> nums[1] == 0xFF
  {
    var num := Word(nums[0], nums[1]);
    WordValue(nums[0], nums[1]);
    if nums[1] == 0xFF then
      NegationIsWrapAround(nums[0]);
      -(Xor(num, 0xFFFF) + 1)
    else
      num
  }

  /**
   * The arithmetic meaning of the decoder: the unsigned value hi*256 + lo,
   * shifted down by 65536 exactly when the high byte is 0xFF.
   */
  function Hundredths(lo: byte, hi: byte): int {
    var unsigned := hi * 256 + lo;
    if hi == 0xFF then unsigned - 65536 else unsigned
  }

  lemma Pow2Of8And16()
    ensures Pow2(8) == 256 && Pow2(16) == 65536
  {
    assert Pow2(2) == 4;
    assert Pow2(4) == 16 by { assert Pow2(3) == 8; }
    assert Pow2(6) == 64 by { assert Pow2(5) == 32; }
    assert Pow2(8) == 256 by { assert Pow2(7) == 128; }
    assert Pow2(10) == 1024 by { assert Pow2(9) == 512; }
    assert Pow2(12) == 4096 by { assert Pow2(11) == 2048; }
    assert Pow2(14) == 16384 by { assert Pow2(13) == 8192; }
    assert Pow2(16) == 65536 by { assert Pow2(15) == 32768; }
  }

  /** Shifting the high byte and or-ing in the low one adds them: hi*256 + lo. */
  lemma WordValue(lo: byte, hi: byte)
    ensures Word(lo, hi) == hi * 256 + lo
  {
    Pow2Of8And16();
    OrDisjoint(hi, 8, lo);
  }

  /**
   * With the high byte 0xFF, the XOR-and-increment negation of the source
   * equals subtracting 2^16 from the unsigned word.
   */
  lemma NegationIsWrapAround(lo: byte)
    ensures -(Xor(Word(lo, 0xFF), 0xFFFF) + 1) == Word(lo, 0xFF) - 65536
  {
    WordValue(lo, 0xFF);
    Pow2Of8And16();
    XorAllOnes(Word(lo, 0xFF), 16);
  }

  /** A high byte other than 0xFF decodes to the plain unsigned value, 0..65279. */
  lemma NonNegativeBranch(lo: byte, hi: byte)
    requires hi != 0xFF
    ensures FloatValue([lo, hi]) == hi * 256 + lo
    ensures 0 <= FloatValue([lo, hi]) <= 65279
  {
  }

  /** A high byte of 0xFF decodes to hi*256 + lo - 65536, which lies in -256..-1. */
  lemma NegativeBranch(lo: byte)
    ensures FloatValue([lo, 0xFF]) == 0xFF * 256 + lo - 65536
    ensures -256 <= FloatValue([lo, 0xFF]) <= -1
  {
  }

  /** The inverse of the decoder: the byte pair [lo, hi] that decodes to `v`. */
  function Encode(v: int): (nums: seq<byte>)
    requires InRange(v)
    ensures |nums| == 2
    ensures (v < 0) <==> nums[1] == 0xFF
  {
    var unsigned := if v < 0 then v + 65536 else v;
    [unsigned % 256, unsigned / 256]
  }

  /** Encoding then decoding gives back every value in the decoder's range. */
  lemma DecodeEncode(v: int)
    requires InRange(v)
    ensures FloatValue(Encode(v)) == v
  {
    var unsigned := if v < 0 then v + 65536 else v;
    SplitWord(unsigned / 256, unsigned % 256);
  }

  /** Decoding then encoding gives back every byte pair. */
  lemma {:induction false} EncodeDecode(lo: byte, hi: byte)
    ensures Encode(FloatValue([lo, hi])) == [lo, hi]
  {
    var v := FloatValue([lo, hi]);
    var unsigned := hi * 256 + lo;
    assert (if v < 0 then v + 65536 else v) == unsigned;
    SplitWord(hi, lo);
  }

  lemma SplitWord(hi: int, lo: int)
    requires 0 <= lo < 256
    ensures (hi * 256 + lo) % 256 == lo && (hi * 256 + lo) / 256 == hi
  {
  }

  /** Distinct byte pairs decode to distinct values. */
  lemma DecodeInjective(lo1: byte, hi1: byte, lo2: byte, hi2: byte)
    requires FloatValue([lo1, hi1]) == FloatValue([lo2, hi2])
    ensures lo1 == lo2 && hi1 == hi2
  {
    EncodeDecode(lo1, hi1);
    EncodeDecode(lo2, hi2);
  }

  /** Only the first two bytes of the argument matter. */
  lemma DecodeReadsTwoBytes(nums: seq<byte>)
    requires |nums| >= 2
    ensures FloatValue(nums) == FloatValue(nums[..2])
  {
  }

  /**
   * Textbook 16-bit two's complement of the same word, the reading a
   * signed little-endian field usually has. Kept only to compare with.
   */
  function TwosComplement(lo: byte, hi: byte): (r: int)
    ensures -32768 <= r <= 32767
  {
    var unsigned := hi * 256 + lo;
    if unsigned >= 0x8000 then unsigned - 0x10000 else unsigned
  }

  /**
   * The decoder agrees with two's complement exactly when the high byte is
   * below 0x80 or is 0xFF; high bytes 0x80..0xFE decode as large positives.
   */
  lemma AgreesWithTwosComplementIff(lo: byte, hi: byte)
    ensures FloatValue([lo, hi]) == TwosComplement(lo, hi) <==> hi < 0x80 || hi == 0xFF
  {
  }

  /**
   * -10.00 degrees is the word 0xFC18 in two's complement; the decoder
   * reads it as 645.36.
   */
  lemma MinusTenDegrees()
    ensures TwosComplement(0x18, 0xFC) == -1000
    ensures FloatValue([0x18, 0xFC]) == 64536
  {
  }

  /** Fixed examples: the words 0x7FFF and 0x0010. */
  lemma PositiveExamples()
    ensures FloatValue([0xFF, 0x7F]) == 32767
    ensures FloatValue([0x10, 0x00]) == 16
  {
  }

  /** Fixed examples: the words 0xFF00 (the most negative value) and 0xFFFF. */
  lemma NegativeExamples()
    ensures FloatValue([0x00, 0xFF]) == -256
    ensures FloatValue([0xFF, 0xFF]) == -1
  {
  }
}
