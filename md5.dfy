/**
 * The hand-written MD5 of the worker (src/utils/md5.js, `md5Hash`), as
 * RFC 1321 describes it: padding (section 3.1), the appended length
 * (section 3.2), the initial buffer (section 3.3), four rounds of sixteen
 * steps over each 64-byte block (section 3.4) and the little-endian output
 * (section 3.5), rendered as lower-case hexadecimal.
 *
 * JavaScript numbers in the algorithm are kept to 32 bits by `>>> 0` after
 * every addition; the model computes on `bv32`, whose addition wraps the
 * same way. `TextEncoder` is the UTF-8 encoder `Utf8Encode`.
 */
module Md5 {

  type byte = bv8

  /** A rotation amount: `leftRotate` is called with 0 < n < 32. */
  type Amount = n: bv32 | 0 < n < 32 witness 1

  /** The per-step rotation amounts, one row of sixteen per round. */
  const S: seq<Amount> :=
    [7, 12, 17, 22, 7, 12, 17, 22, 7, 12, 17, 22, 7, 12, 17, 22] +
    [5, 9, 14, 20, 5, 9, 14, 20, 5, 9, 14, 20, 5, 9, 14, 20] +
    [4, 11, 16, 23, 4, 11, 16, 23, 4, 11, 16, 23, 4, 11, 16, 23] +
    [6, 10, 15, 21, 6, 10, 15, 21, 6, 10, 15, 21, 6, 10, 15, 21]

  /** The per-step additive constants, floor(abs(sin(i + 1)) * 2^32), one row of sixteen per round. */
  const K: seq<bv32> :=
    [
      0xD76A_A478, 0xE8C7_B756, 0x2420_70DB, 0xC1BD_CEEE,
      0xF57C_0FAF, 0x4787_C62A, 0xA830_4613, 0xFD46_9501,
      0x6980_98D8, 0x8B44_F7AF, 0xFFFF_5BB1, 0x895C_D7BE,
      0x6B90_1122, 0xFD98_7193, 0xA679_438E, 0x49B4_0821
    ] +
    [
      0xF61E_2562, 0xC040_B340, 0x265E_5A51, 0xE9B6_C7AA,
      0xD62F_105D, 0x0244_1453, 0xD8A1_E681, 0xE7D3_FBC8,
      0x21E1_CDE6, 0xC337_07D6, 0xF4D5_0D87, 0x455A_14ED,
      0xA9E3_E905, 0xFCEF_A3F8, 0x676F_02D9, 0x8D2A_4C8A
    ] +
    [
      0xFFFA_3942, 0x8771_F681, 0x6D9D_6122, 0xFDE5_380C,
      0xA4BE_EA44, 0x4BDE_CFA9, 0xF6BB_4B60, 0xBEBF_BC70,
      0x289B_7EC6, 0xEAA1_27FA, 0xD4EF_3085, 0x0488_1D05,
      0xD9D4_D039, 0xE6DB_99E5, 0x1FA2_7CF8, 0xC4AC_5665
    ] +
    [
      0xF429_2244, 0x432A_FF97, 0xAB94_23A7, 0xFC93_A039,
      0x655B_59C3, 0x8F0C_CC92, 0xFFEF_F47D, 0x8584_5DD1,
      0x6FA8_7E4F, 0xFE2C_E6E0, 0xA301_4314, 0x4E08_11A1,
      0xF753_7E82, 0xBD3A_F235, 0x2AD7_D2BB, 0xEB86_D391
    ]

  lemma TableSizes()
    ensures |S| == 64 && |K| == 64
  {
  }

  // ---------------------------------------------------------------------
  // `leftRotate`.
  // ---------------------------------------------------------------------

  /** `((x << n) | (x >>> (32 - n))) >>> 0`. */
  function LeftRotate(x: bv32, n: bv32): bv32
    requires 0 < n < 32
  {
    (x << n) | (x >> (32 - n))
  }

  lemma Rotate1(x: bv32)
    ensures LeftRotate(x, 1) == x.RotateLeft(1) && LeftRotate(LeftRotate(x, 1), 31) == x
  {
  }

  lemma Rotate2(x: bv32)
    ensures LeftRotate(x, 2) == x.RotateLeft(2) && LeftRotate(LeftRotate(x, 2), 30) == x
  {
  }

  lemma Rotate3(x: bv32)
    ensures LeftRotate(x, 3) == x.RotateLeft(3) && LeftRotate(LeftRotate(x, 3), 29) == x
  {
  }

  lemma Rotate4(x: bv32)
    ensures LeftRotate(x, 4) == x.RotateLeft(4) && LeftRotate(LeftRotate(x, 4), 28) == x
  {
  }

  lemma Rotate5(x: bv32)
    ensures LeftRotate(x, 5) == x.RotateLeft(5) && LeftRotate(LeftRotate(x, 5), 27) == x
  {
  }

  lemma Rotate6(x: bv32)
    ensures LeftRotate(x, 6) == x.RotateLeft(6) && LeftRotate(LeftRotate(x, 6), 26) == x
  {
  }

  lemma Rotate7(x: bv32)
    ensures LeftRotate(x, 7) == x.RotateLeft(7) && LeftRotate(LeftRotate(x, 7), 25) == x
  {
  }

  lemma Rotate8(x: bv32)
    ensures LeftRotate(x, 8) == x.RotateLeft(8) && LeftRotate(LeftRotate(x, 8), 24) == x
  {
  }

  lemma Rotate9(x: bv32)
    ensures LeftRotate(x, 9) == x.RotateLeft(9) && LeftRotate(LeftRotate(x, 9), 23) == x
  {
  }

  lemma Rotate10(x: bv32)
    ensures LeftRotate(x, 10) == x.RotateLeft(10) && LeftRotate(LeftRotate(x, 10), 22) == x
  {
  }

  lemma Rotate11(x: bv32)
    ensures LeftRotate(x, 11) == x.RotateLeft(11) && LeftRotate(LeftRotate(x, 11), 21) == x
  {
  }

  lemma Rotate12(x: bv32)
    ensures LeftRotate(x, 12) == x.RotateLeft(12) && LeftRotate(LeftRotate(x, 12), 20) == x
  {
  }

  lemma Rotate13(x: bv32)
    ensures LeftRotate(x, 13) == x.RotateLeft(13) && LeftRotate(LeftRotate(x, 13), 19) == x
  {
  }

  lemma Rotate14(x: bv32)
    ensures LeftRotate(x, 14) == x.RotateLeft(14) && LeftRotate(LeftRotate(x, 14), 18) == x
  {
  }

  lemma Rotate15(x: bv32)
    ensures LeftRotate(x, 15) == x.RotateLeft(15) && LeftRotate(LeftRotate(x, 15), 17) == x
  {
  }

  lemma Rotate16(x: bv32)
    ensures LeftRotate(x, 16) == x.RotateLeft(16) && LeftRotate(LeftRotate(x, 16), 16) == x
  {
  }

  lemma Rotate17(x: bv32)
    ensures LeftRotate(x, 17) == x.RotateLeft(17) && LeftRotate(LeftRotate(x, 17), 15) == x
  {
  }

  lemma Rotate18(x: bv32)
    ensures LeftRotate(x, 18) == x.RotateLeft(18) && LeftRotate(LeftRotate(x, 18), 14) == x
  {
  }

  lemma Rotate19(x: bv32)
    ensures LeftRotate(x, 19) == x.RotateLeft(19) && LeftRotate(LeftRotate(x, 19), 13) == x
  {
  }

  lemma Rotate20(x: bv32)
    ensures LeftRotate(x, 20) == x.RotateLeft(20) && LeftRotate(LeftRotate(x, 20), 12) == x
  {
  }

  lemma Rotate21(x: bv32)
    ensures LeftRotate(x, 21) == x.RotateLeft(21) && LeftRotate(LeftRotate(x, 21), 11) == x
  {
  }

  lemma Rotate22(x: bv32)
    ensures LeftRotate(x, 22) == x.RotateLeft(22) && LeftRotate(LeftRotate(x, 22), 10) == x
  {
  }

  lemma Rotate23(x: bv32)
    ensures LeftRotate(x, 23) == x.RotateLeft(23) && LeftRotate(LeftRotate(x, 23), 9) == x
  {
  }

  lemma Rotate24(x: bv32)
    ensures LeftRotate(x, 24) == x.RotateLeft(24) && LeftRotate(LeftRotate(x, 24), 8) == x
  {
  }

  lemma Rotate25(x: bv32)
    ensures LeftRotate(x, 25) == x.RotateLeft(25) && LeftRotate(LeftRotate(x, 25), 7) == x
  {
  }

  lemma Rotate26(x: bv32)
    ensures LeftRotate(x, 26) == x.RotateLeft(26) && LeftRotate(LeftRotate(x, 26), 6) == x
  {
  }

  lemma Rotate27(x: bv32)
    ensures LeftRotate(x, 27) == x.RotateLeft(27) && LeftRotate(LeftRotate(x, 27), 5) == x
  {
  }

  lemma Rotate28(x: bv32)
    ensures LeftRotate(x, 28) == x.RotateLeft(28) && LeftRotate(LeftRotate(x, 28), 4) == x
  {
  }

  lemma Rotate29(x: bv32)
    ensures LeftRotate(x, 29) == x.RotateLeft(29) && LeftRotate(LeftRotate(x, 29), 3) == x
  {
  }

  lemma Rotate30(x: bv32)
    ensures LeftRotate(x, 30) == x.RotateLeft(30) && LeftRotate(LeftRotate(x, 30), 2) == x
  {
  }

  lemma Rotate31(x: bv32)
    ensures LeftRotate(x, 31) == x.RotateLeft(31) && LeftRotate(LeftRotate(x, 31), 1) == x
  {
  }

  lemma RotateGroup1(x: bv32, n: bv32)
    requires 1 <= n <= 4
    ensures LeftRotate(x, n) == x.RotateLeft(n as nat)
    ensures LeftRotate(LeftRotate(x, n), 32 - n) == x
  {
    if n == 1 { Rotate1(x); }
    else if n == 2 { Rotate2(x); }
    else if n == 3 { Rotate3(x); }
    else { Rotate4(x); }
  }

  lemma RotateGroup5(x: bv32, n: bv32)
    requires 5 <= n <= 8
    ensures LeftRotate(x, n) == x.RotateLeft(n as nat)
    ensures LeftRotate(LeftRotate(x, n), 32 - n) == x
  {
    if n == 5 { Rotate5(x); }
    else if n == 6 { Rotate6(x); }
    else if n == 7 { Rotate7(x); }
    else { Rotate8(x); }
  }

  lemma RotateGroup9(x: bv32, n: bv32)
    requires 9 <= n <= 12
    ensures LeftRotate(x, n) == x.RotateLeft(n as nat)
    ensures LeftRotate(LeftRotate(x, n), 32 - n) == x
  {
    if n == 9 { Rotate9(x); }
    else if n == 10 { Rotate10(x); }
    else if n == 11 { Rotate11(x); }
    else { Rotate12(x); }
  }

  lemma RotateGroup13(x: bv32, n: bv32)
    requires 13 <= n <= 16
    ensures LeftRotate(x, n) == x.RotateLeft(n as nat)
    ensures LeftRotate(LeftRotate(x, n), 32 - n) == x
  {
    if n == 13 { Rotate13(x); }
    else if n == 14 { Rotate14(x); }
    else if n == 15 { Rotate15(x); }
    else { Rotate16(x); }
  }

  lemma RotateGroup17(x: bv32, n: bv32)
    requires 17 <= n <= 20
    ensures LeftRotate(x, n) == x.RotateLeft(n as nat)
    ensures LeftRotate(LeftRotate(x, n), 32 - n) == x
  {
    if n == 17 { Rotate17(x); }
    else if n == 18 { Rotate18(x); }
    else if n == 19 { Rotate19(x); }
    else { Rotate20(x); }
  }

  lemma RotateGroup21(x: bv32, n: bv32)
    requires 21 <= n <= 24
    ensures LeftRotate(x, n) == x.RotateLeft(n as nat)
    ensures LeftRotate(LeftRotate(x, n), 32 - n) == x
  {
    if n == 21 { Rotate21(x); }
    else if n == 22 { Rotate22(x); }
    else if n == 23 { Rotate23(x); }
    else { Rotate24(x); }
  }

  lemma RotateGroup25(x: bv32, n: bv32)
    requires 25 <= n <= 28
    ensures LeftRotate(x, n) == x.RotateLeft(n as nat)
    ensures LeftRotate(LeftRotate(x, n), 32 - n) == x
  {
    if n == 25 { Rotate25(x); }
    else if n == 26 { Rotate26(x); }
    else if n == 27 { Rotate27(x); }
    else { Rotate28(x); }
  }

  lemma RotateGroup29(x: bv32, n: bv32)
    requires 29 <= n <= 31
    ensures LeftRotate(x, n) == x.RotateLeft(n as nat)
    ensures LeftRotate(LeftRotate(x, n), 32 - n) == x
  {
    if n == 29 { Rotate29(x); }
    else if n == 30 { Rotate30(x); }
    else { Rotate31(x); }
  }

  /**
   * For every amount 0 < n < 32, `leftRotate` is rotation to the left by n
   * bits, and rotating by n and then by 32 - n gives back the argument.
   */
  lemma RotateFacts(x: bv32, n: bv32)
    requires 0 < n < 32
    ensures LeftRotate(x, n) == x.RotateLeft(n as nat)
    ensures LeftRotate(LeftRotate(x, n), 32 - n) == x
  {
    if n <= 4 { RotateGroup1(x, n); }
    else if n <= 8 { RotateGroup5(x, n); }
    else if n <= 12 { RotateGroup9(x, n); }
    else if n <= 16 { RotateGroup13(x, n); }
    else if n <= 20 { RotateGroup17(x, n); }
    else if n <= 24 { RotateGroup21(x, n); }
    else if n <= 28 { RotateGroup25(x, n); }
    else { RotateGroup29(x, n); }
  }

  // ---------------------------------------------------------------------
  // Little-endian words (`DataView` with `littleEndian = true`).
  // ---------------------------------------------------------------------

  /** The four bytes `setUint32(offset, v, true)` writes, least significant first. */
  function Uint32LE(v: bv32): (r: seq<byte>)
    ensures |r| == 4
  {
    [(v & 0xFF) as byte, ((v >> 8) & 0xFF) as byte, ((v >> 16) & 0xFF) as byte, (v >> 24) as byte]
  }

  /** `getUint32(p, true)`: the word whose least significant byte is at `p`. */
  function Word(m: seq<byte>, p: nat): bv32
    requires p + 4 <= |m|
  {
    (m[p] as bv32) | ((m[p + 1] as bv32) << 8) | ((m[p + 2] as bv32) << 16) | ((m[p + 3] as bv32) << 24)
  }

  /** Reading back a written word gives the word. */
  lemma WordOfUint32LE(v: bv32)
    ensures Word(Uint32LE(v), 0) == v
  {
  }

  /** `DataView.setUint32(off, v, true)` on the buffer `buf`. */
  method SetUint32LE(buf: array<byte>, off: nat, v: bv32)
    requires off + 4 <= buf.Length
    modifies buf
    ensures buf[..] == old(buf[..off]) + Uint32LE(v) + old(buf[off + 4..])
  {
    buf[off] := (v & 0xFF) as byte;
    buf[off + 1] := ((v >> 8) & 0xFF) as byte;
    buf[off + 2] := ((v >> 16) & 0xFF) as byte;
    buf[off + 3] := (v >> 24) as byte;
  }

  // ---------------------------------------------------------------------
  // Padding and the length field (RFC 1321 sections 3.1 and 3.2).
  // ---------------------------------------------------------------------

  /** The length of the padded message: a multiple of 64 with room for the 0x80 byte and the 8-byte length. */
  function PaddedLength(n: nat): nat {
    ((n + 8) / 64 + 1) * 64
  }

  /** It is the least multiple of 64 that is at least n + 9. */
  lemma PaddedLengthLeast(n: nat)
    ensures PaddedLength(n) % 64 == 0
    ensures PaddedLength(n) >= n + 9
    ensures PaddedLength(n) - 64 < n + 9
  {
  }

  function Zeros(k: nat): (z: seq<byte>)
    ensures |z| == k && forall i :: 0 <= i < k ==> z[i] == 0
  {
    seq(k, _ => 0)
  }

  /**
   * The bit length `msgLen * 8` as two little-endian words: `msgBits >>> 0`
   * (the low 32 bits) and `(msgBits / 0x100000000) >>> 0` (the next 32).
   */
  function LengthField(n: nat): (r: seq<byte>)
    ensures |r| == 8
  {
    Uint32LE(LowBits(n * 8)) + Uint32LE(HighBits(n * 8))
  }

  /** `msgBits >>> 0`. */
  function LowBits(bits: nat): bv32 {
    (bits % 0x1_0000_0000) as bv32
  }

  /** `(msgBits / 0x100000000) >>> 0`. */
  function HighBits(bits: nat): bv32 {
    ((bits / 0x1_0000_0000) % 0x1_0000_0000) as bv32
  }

  /** The padded message: the bytes, 0x80, zeros up to 56 modulo 64, and the length field. */
  function Padded(msg: seq<byte>): (p: seq<byte>)
    ensures |p| == PaddedLength(|msg|) && |p| % 64 == 0
    ensures p[..|msg|] == msg && p[|msg|] == 0x80
    ensures forall i :: |msg| < i < |p| - 8 ==> p[i] == 0
    ensures p[|p| - 8..] == LengthField(|msg|)
  {
    PaddedLengthLeast(|msg|);
    msg + [0x80] + Zeros(PaddedLength(|msg|) - |msg| - 9) + LengthField(|msg|)
  }

  lemma PadLoopStops(n: nat, m: nat)
    requires n + 1 <= m <= PaddedLength(n) - 8 && m % 64 == 56
    ensures m == PaddedLength(n) - 8
  {
    PaddedLengthLeast(n);
  }

  /** The padding of `md5Hash`: append 0x80, append zeros while the length is not 56 modulo 64, append the length. */
  method PadMessage(msg: seq<byte>) returns (padded: seq<byte>)
    ensures padded == Padded(msg)
  {
    PaddedLengthLeast(|msg|);
    var m := msg + [0x80];
    while |m| % 64 != 56
      invariant |msg| + 1 <= |m| <= PaddedLength(|msg|) - 8
      invariant m == msg + [0x80] + Zeros(|m| - |msg| - 1)
      decreases PaddedLength(|msg|) - 8 - |m|
    {
      m := m + [0];
    }
    PadLoopStops(|msg|, |m|);
    var lenBuf := new byte[8](_ => 0);
    var msgBits := |msg| * 8;
    SetUint32LE(lenBuf, 0, LowBits(msgBits));
    assert lenBuf[..4] == Uint32LE(LowBits(msgBits));
    SetUint32LE(lenBuf, 4, HighBits(msgBits));
    assert lenBuf[..] == LengthField(|msg|);
    padded := m + lenBuf[..];
    assert m == msg + [0x80] + Zeros(PaddedLength(|msg|) - |msg| - 9);
  }

  // ---------------------------------------------------------------------
  // The 64 steps of a block (RFC 1321 sections 3.3 and 3.4).
  // ---------------------------------------------------------------------

  /** The four registers A, B, C, D (or a0, b0, c0, d0). */
  datatype Regs = Regs(a: bv32, b: bv32, c: bv32, d: bv32)

  /** `a0 = 0x67452301; b0 = 0xefcdab89; c0 = 0x98badcfe; d0 = 0x10325476`. */
  const InitialRegs: Regs := Regs(0x6745_2301, 0xEFCD_AB89, 0x98BA_DCFE, 0x1032_5476)

  /** The index `g` of the message word step `i` reads. */
  function WordIndex(i: nat): (g: nat)
    requires i < 64
    ensures g < 16
  {
    if i < 16 then i
    else if i < 32 then (5 * i + 1) % 16
    else if i < 48 then (3 * i + 5) % 16
    else (7 * i) % 16
  }

  /** The step within group `k` that reads word `g`: the inverse of WordIndex on that group. */
  function StepOfWord(k: nat, g: nat): (j: nat)
    requires k < 4 && g < 16
    ensures j < 16
  {
    if k == 0 then g
    else if k == 1 then (13 * g + 3) % 16
    else if k == 2 then (11 * g + 9) % 16
    else (7 * g) % 16
  }

  /** The word read by step `j` of group `k`. */
  function GroupWord(k: nat, j: nat): (g: nat)
    requires k < 4 && j < 16
    ensures g < 16
  {
    WordIndex(16 * k + j)
  }

  /** Adding a multiple of sixteen does not change the remainder of a value below sixteen. */
  lemma ModSixteen(a: int, m: int)
    requires 0 <= a < 16
    ensures (a + 16 * m) % 16 == a
  {
  }

  lemma GroupInverse1(j: nat, g: nat)
    requires j < 16 && g < 16
    ensures StepOfWord(1, GroupWord(1, j)) == j
    ensures GroupWord(1, StepOfWord(1, g)) == g
  {
    var q := (81 + 5 * j) / 16;
    assert GroupWord(1, j) == 81 + 5 * j - 16 * q;
    ModSixteen(j, 66 + 4 * j - 13 * q);
    var p := (13 * g + 3) / 16;
    assert StepOfWord(1, g) == 13 * g + 3 - 16 * p;
    ModSixteen(g, 4 * g + 6 - 5 * p);
  }

  lemma GroupInverse2(j: nat, g: nat)
    requires j < 16 && g < 16
    ensures StepOfWord(2, GroupWord(2, j)) == j
    ensures GroupWord(2, StepOfWord(2, g)) == g
  {
    var q := (101 + 3 * j) / 16;
    assert GroupWord(2, j) == 101 + 3 * j - 16 * q;
    ModSixteen(j, 70 + 2 * j - 11 * q);
    var p := (11 * g + 9) / 16;
    assert StepOfWord(2, g) == 11 * g + 9 - 16 * p;
    ModSixteen(g, 2 * g + 8 - 3 * p);
  }

  lemma GroupInverse3(j: nat, g: nat)
    requires j < 16 && g < 16
    ensures StepOfWord(3, GroupWord(3, j)) == j
    ensures GroupWord(3, StepOfWord(3, g)) == g
  {
    var q := (336 + 7 * j) / 16;
    assert GroupWord(3, j) == 336 + 7 * j - 16 * q;
    ModSixteen(j, 147 + 3 * j - 7 * q);
    var p := (7 * g) / 16;
    assert StepOfWord(3, g) == 7 * g - 16 * p;
    ModSixteen(g, 3 * g + 21 - 7 * p);
  }

  lemma GroupInverse(k: nat, j: nat, g: nat)
    requires k < 4 && j < 16 && g < 16
    ensures StepOfWord(k, GroupWord(k, j)) == j
    ensures GroupWord(k, StepOfWord(k, g)) == g
  {
    if k == 1 {
      GroupInverse1(j, g);
    } else if k == 2 {
      GroupInverse2(j, g);
    } else {
      GroupInverse3(j, g);
    }
  }

  /** Within each group of sixteen steps every block word is read exactly once. */
  lemma WordIndexPermutes(k: nat)
    requires k < 4
    ensures forall j1, j2 :: 0 <= j1 < 16 && 0 <= j2 < 16 && GroupWord(k, j1) == GroupWord(k, j2) ==> j1 == j2
    ensures forall g :: 0 <= g < 16 ==> GroupWord(k, StepOfWord(k, g)) == g
  {
    forall j1, j2 | 0 <= j1 < 16 && 0 <= j2 < 16 && GroupWord(k, j1) == GroupWord(k, j2)
      ensures j1 == j2
    {
      GroupInverse(k, j1, 0);
      GroupInverse(k, j2, 0);
    }
    forall g | 0 <= g < 16
      ensures GroupWord(k, StepOfWord(k, g)) == g
    {
      GroupInverse(k, 0, g);
    }
  }

  /** The auxiliary functions F, G, H and I of RFC 1321 section 3.4, in the source's spelling. */
  function FF(b: bv32, c: bv32, d: bv32): bv32 { (b & c) | (!b & d) }

  function GG(b: bv32, c: bv32, d: bv32): bv32 { (d & b) | (!d & c) }

  function HH(b: bv32, c: bv32, d: bv32): bv32 { b ^ c ^ d }

  function II(b: bv32, c: bv32, d: bv32): bv32 { c ^ (b | !d) }

  /** The auxiliary function of step `i`: F, G, H, I for the four groups of sixteen steps. */
  function Aux(i: nat, b: bv32, c: bv32, d: bv32): bv32
    requires i < 64
  {
    if i < 16 then FF(b, c, d)
    else if i < 32 then GG(b, c, d)
    else if i < 48 then HH(b, c, d)
    else II(b, c, d)
  }

  /** The sum `(A + F + K[i] + x) >>> 0`. */
  function Sum(a: bv32, f: bv32, k: bv32, x: bv32): bv32 {
    a + f + k + x
  }

  /** `(B + leftRotate(temp, n)) >>> 0`. */
  function RotateAdd(b: bv32, temp: bv32, n: Amount): bv32 {
    b + LeftRotate(temp, n)
  }

  /** The register update of one step: the registers shift right and B adds the rotated sum. */
  function Shift(r: Regs, temp: bv32, n: Amount): Regs {
    Regs(r.d, RotateAdd(r.b, temp, n), r.b, r.c)
  }

  /** Step `i` with message word `x`. */
  function Step(r: Regs, i: nat, x: bv32): Regs
    requires i < 64
  {
    TableSizes();
    Shift(r, Sum(r.a, Aux(i, r.b, r.c, r.d), K[i], x), S[i])
  }

  /** The registers after the first `n` steps over the block at `offset`. */
  function Steps(h: Regs, m: seq<byte>, offset: nat, n: nat): Regs
    requires offset + 64 <= |m| && n <= 64
  {
    if n == 0 then h
    else Step(Steps(h, m, offset, n - 1), n - 1, Word(m, offset + 4 * WordIndex(n - 1)))
  }

  /** The chaining values after a block: each register adds the block's result. */
  function AddRegs(h: Regs, r: Regs): Regs {
    Regs(h.a + r.a, h.b + r.b, h.c + r.c, h.d + r.d)
  }

  /** One block: 64 steps, then the chaining values add the result. */
  function Compress(h: Regs, m: seq<byte>, offset: nat): Regs
    requires offset + 64 <= |m|
  {
    AddRegs(h, Steps(h, m, offset, 64))
  }

  /** The chaining values after the first `k` blocks. */
  function Chain(m: seq<byte>, k: nat): Regs
    requires 64 * k <= |m|
  {
    if k == 0 then InitialRegs else Compress(Chain(m, k - 1), m, 64 * (k - 1))
  }

  /** The digest of a byte string: a0, b0, c0, d0 after the last block, each little-endian. */
  function Digest(msg: seq<byte>): (r: seq<byte>)
    ensures |r| == 16
  {
    var p := Padded(msg);
    var h := Chain(p, |p| / 64);
    Uint32LE(h.a) + Uint32LE(h.b) + Uint32LE(h.c) + Uint32LE(h.d)
  }

  // ---------------------------------------------------------------------
  // Hexadecimal output (RFC 1321 section 3.5).
  // ---------------------------------------------------------------------

  predicate IsLowerHex(c: char) {
    '0' <= c <= '9' || 'a' <= c <= 'f'
  }

  function HexDigit(v: byte): (c: char)
    requires v < 16
    ensures IsLowerHex(c)
  {
    if v < 10 then ('0' as int + v as int) as char else ('a' as int + v as int - 10) as char
  }

  /** `b.toString(16).padStart(2, '0')`: the high and the low digit of one byte. */
  function ByteHex(b: byte): (s: string)
    ensures |s| == 2 && IsLowerHex(s[0]) && IsLowerHex(s[1])
  {
    [HexDigit(b / 16), HexDigit(b % 16)]
  }

  /** The bytes' two-digit renderings, joined. */
  function Hex(bytes: seq<byte>): (s: string)
    ensures |s| == 2 * |bytes|
    ensures forall i :: 0 <= i < |s| ==> IsLowerHex(s[i])
  {
    if bytes == [] then "" else ByteHex(bytes[0]) + Hex(bytes[1..])
  }

  /** The value of a lower-case hexadecimal digit. */
  function HexValue(c: char): (v: byte)
    requires IsLowerHex(c)
    ensures v < 16
  {
    if c <= '9' then (c as int - '0' as int) as byte else (c as int - 'a' as int + 10) as byte
  }

  /** The byte a pair of hexadecimal digits denotes. */
  function PairValue(hi: char, lo: char): byte
    requires IsLowerHex(hi) && IsLowerHex(lo)
  {
    HexValue(hi) * 16 + HexValue(lo)
  }

  /** Reading hexadecimal text back into bytes, two digits at a time. */
  function Unhex(s: string): (bytes: seq<byte>)
    requires |s| % 2 == 0 && forall i :: 0 <= i < |s| ==> IsLowerHex(s[i])
    decreases |s|
  {
    if s == [] then [] else [PairValue(s[0], s[1])] + Unhex(s[2..])
  }

  lemma HexDigitValue(v: byte)
    requires v < 16
    ensures HexValue(HexDigit(v)) == v
  {
  }

  /** The two digits of a byte denote that byte. */
  lemma ByteHexValue(b: byte)
    ensures PairValue(ByteHex(b)[0], ByteHex(b)[1]) == b
  {
    HexDigitValue(b / 16);
    HexDigitValue(b % 16);
  }

  lemma {:induction false} UnhexHex(bytes: seq<byte>)
    ensures Unhex(Hex(bytes)) == bytes
  {
    if bytes != [] {
      var pair := ByteHex(bytes[0]);
      var rest := Hex(bytes[1..]);
      var s := pair + rest;
      assert s[0] == pair[0] && s[1] == pair[1] && s[2..] == rest;
      ByteHexValue(bytes[0]);
      UnhexHex(bytes[1..]);
      assert Unhex(s) == [PairValue(s[0], s[1])] + Unhex(s[2..]);
    }
  }

  /** The MD5 of a byte string as 32 lower-case hexadecimal digits. */
  function Md5Hex(msg: seq<byte>): (hex: string)
    ensures |hex| == 32 && forall i :: 0 <= i < 32 ==> IsLowerHex(hex[i])
    ensures Unhex(hex) == Digest(msg)
  {
    UnhexHex(Digest(msg));
    Hex(Digest(msg))
  }

  // ---------------------------------------------------------------------
  // UTF-8 (`new TextEncoder().encode(message)`).
  // ---------------------------------------------------------------------

  /** The UTF-8 bytes of one Unicode scalar value. */
  function Utf8Char(c: char): (r: seq<byte>)
    ensures 1 <= |r| <= 4
    ensures c as int < 0x80 <==> |r| == 1
    ensures c as int < 0x80 ==> r == [c as int as byte]
  {
    var n := c as int;
    if n < 0x80 then [n as byte]
    else if n < 0x800 then [(0xC0 + n / 64) as byte, (0x80 + n % 64) as byte]
    else if n < 0x1_0000 then
      [(0xE0 + n / 4096) as byte, (0x80 + n / 64 % 64) as byte, (0x80 + n % 64) as byte]
    else
      [(0xF0 + n / 262144) as byte, (0x80 + n / 4096 % 64) as byte, (0x80 + n / 64 % 64) as byte,
       (0x80 + n % 64) as byte]
  }

  function Utf8Encode(s: string): (bytes: seq<byte>)
    ensures |bytes| >= |s| && (|s| == 0 ==> |bytes| == 0)
  {
    if s == [] then [] else Utf8Char(s[0]) + Utf8Encode(s[1..])
  }

  predicate IsAscii(s: string) {
    forall i :: 0 <= i < |s| ==> s[i] as int < 0x80
  }

  /** An ASCII string encodes to one byte per character, with the character's code. */
  lemma {:induction false} Utf8Ascii(s: string)
    requires IsAscii(s)
    ensures |Utf8Encode(s)| == |s|
    ensures forall i :: 0 <= i < |s| ==> Utf8Encode(s)[i] == s[i] as int as byte
  {
    if s != [] {
      var t := s[1..];
      assert IsAscii(t) by {
        forall i | 0 <= i < |t| ensures t[i] as int < 0x80 {
          assert t[i] == s[i + 1];
        }
      }
      Utf8Ascii(t);
      var e := Utf8Encode(s);
      assert e == [s[0] as int as byte] + Utf8Encode(t);
      forall i | 0 <= i < |s| ensures e[i] == s[i] as int as byte {
        if i > 0 {
          assert e[i] == Utf8Encode(t)[i - 1];
          assert t[i - 1] == s[i];
        }
      }
    }
  }

  /** Encoding a concatenation encodes the parts. */
  lemma {:induction false} Utf8Append(s: string, t: string)
    ensures Utf8Encode(s + t) == Utf8Encode(s) + Utf8Encode(t)
  {
    if s == [] {
      assert s + t == t;
    } else {
      var st := s + t;
      assert st[0] == s[0] && st[1..] == s[1..] + t;
      Utf8Append(s[1..], t);
      assert Utf8Encode(st) == Utf8Char(st[0]) + Utf8Encode(st[1..]);
      calc {
        Utf8Encode(st);
        Utf8Char(s[0]) + Utf8Encode(s[1..] + t);
        Utf8Char(s[0]) + (Utf8Encode(s[1..]) + Utf8Encode(t));
        Utf8Encode(s) + Utf8Encode(t);
      }
    }
  }

  // ---------------------------------------------------------------------
  // `md5Hash`: the block loop and the output encoding.
  // ---------------------------------------------------------------------

  /** The auxiliary function and the word index of step `i`, chosen by its group. */
  method RoundFunction(i: nat, B: bv32, C: bv32, D: bv32) returns (F: bv32, g: nat)
    requires i < 64
    ensures F == Aux(i, B, C, D) && g == WordIndex(i)
  {
    if i < 16 {
      F := FF(B, C, D);
      g := i;
    } else if i < 32 {
      F := GG(B, C, D);
      g := (5 * i + 1) % 16;
    } else if i < 48 {
      F := HH(B, C, D);
      g := (3 * i + 5) % 16;
    } else {
      F := II(B, C, D);
      g := (7 * i) % 16;
    }
  }

  /** One more step extends the run of steps by Step. */
  lemma StepsNext(h: Regs, m: seq<byte>, offset: nat, i: nat)
    requires offset + 64 <= |m| && i < 64
    ensures Steps(h, m, offset, i + 1) == Step(Steps(h, m, offset, i), i, Word(m, offset + 4 * WordIndex(i)))
  {
  }

  /** The inner loop of `md5Hash`: 64 steps over the block at `offset`, then the addition. */
  method CompressBlock(h: Regs, m: seq<byte>, offset: nat) returns (r: Regs)
    requires offset + 64 <= |m|
    ensures r == Compress(h, m, offset)
  {
    TableSizes();
    var A, B, C, D := h.a, h.b, h.c, h.d;
    var i := 0;
    while i < 64
      invariant 0 <= i <= 64
      invariant Regs(A, B, C, D) == Steps(h, m, offset, i)
    {
      ghost var before := Regs(A, B, C, D);
      var F, g := RoundFunction(i, B, C, D);
      var x := Word(m, offset + g * 4);
      var temp := Sum(A, F, K[i], x);
      A := D;
      D := C;
      C := B;
      B := RotateAdd(B, temp, S[i]);
      StepsNext(h, m, offset, i);
      i := i + 1;
    }
    r := AddRegs(h, Regs(A, B, C, D));
  }

  /** The sixteen result bytes: a0, b0, c0, d0, each little-endian. */
  method Output(h: Regs) returns (bytes: seq<byte>)
    ensures bytes == Uint32LE(h.a) + Uint32LE(h.b) + Uint32LE(h.c) + Uint32LE(h.d)
  {
    var result := new byte[16](_ => 0);
    SetUint32LE(result, 0, h.a);
    SetUint32LE(result, 4, h.b);
    SetUint32LE(result, 8, h.c);
    SetUint32LE(result, 12, h.d);
    bytes := result[..];
  }

  /** A block that starts before the end of a whole number of blocks ends within them. */
  lemma BlockFits(n: nat, k: nat)
    requires n % 64 == 0 && 64 * k < n
    ensures 64 * k + 64 <= n
  {
  }

  /** The outer loop of `md5Hash`: every 64-byte block in turn, from the initial registers. */
  method ProcessBlocks(padded: seq<byte>) returns (h: Regs)
    requires |padded| % 64 == 0
    ensures h == Chain(padded, |padded| / 64)
  {
    h := InitialRegs;
    var offset := 0;
    ghost var blocks := 0;
    while offset < |padded|
      invariant offset == 64 * blocks <= |padded|
      invariant h == Chain(padded, blocks)
      decreases |padded| - offset
    {
      BlockFits(|padded|, blocks);
      h := CompressBlock(h, padded, offset);
      offset := offset + 64;
      blocks := blocks + 1;
    }
  }

  /** `md5Hash(message)`: the lower-case hexadecimal MD5 digest of the UTF-8 bytes of `message`. */
  method Md5Hash(message: string) returns (hex: string)
    ensures hex == Md5Hex(Utf8Encode(message))
  {
    var msg := Utf8Encode(message);
    var padded := PadMessage(msg);
    var h := ProcessBlocks(padded);
    var result := Output(h);
    hex := Hex(result);
  }
}
