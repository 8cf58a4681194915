/** SHA-256 as the command line tool computes it, against FIPS 180-4. */
module Sha256 {
  type byte = b: nat | b < 256
  type word = bv32

  const TWO32: nat := 0x1_0000_0000

  // ---- constants (FIPS 180-4 sections 4.2.2 and 5.3.3) -----------------------------------------

  /** The first sixty-four primes. */
  function Prime(i: nat): nat
    requires i < 64
  {
    match i
    case 0 => 2 case 1 => 3 case 2 => 5 case 3 => 7 case 4 => 11 case 5 => 13 case 6 => 17 case 7 => 19
    case 8 => 23 case 9 => 29 case 10 => 31 case 11 => 37 case 12 => 41 case 13 => 43 case 14 => 47 case 15 => 53
    case 16 => 59 case 17 => 61 case 18 => 67 case 19 => 71 case 20 => 73 case 21 => 79 case 22 => 83 case 23 => 89
    case 24 => 97 case 25 => 101 case 26 => 103 case 27 => 107
    case 28 => 109 case 29 => 113 case 30 => 127 case 31 => 131
    case 32 => 137 case 33 => 139 case 34 => 149 case 35 => 151
    case 36 => 157 case 37 => 163 case 38 => 167 case 39 => 173
    case 40 => 179 case 41 => 181 case 42 => 191 case 43 => 193
    case 44 => 197 case 45 => 199 case 46 => 211 case 47 => 223
    case 48 => 227 case 49 => 229 case 50 => 233 case 51 => 239
    case 52 => 241 case 53 => 251 case 54 => 257 case 55 => 263
    case 56 => 269 case 57 => 271 case 58 => 277 case 59 => 281
    case 60 => 283 case 61 => 293 case 62 => 307 case _ => 311
  }

  function Square(n: nat): nat { n * n }
  function Cube(n: nat): nat { n * n * n }

  /** `k` is the first thirty-two bits of the fractional part of the cube root of `p`. */
  predicate IsCubeRootFraction(p: nat, k: nat) {
    var whole := if p < 8 then 1 else if p < 27 then 2 else if p < 64 then 3
                 else if p < 125 then 4 else if p < 216 then 5 else 6;
    var q := whole * TWO32 + k;
    k < TWO32 && Cube(q) <= p * Cube(TWO32) < Cube(q + 1)
  }

  /** `k` is the first thirty-two bits of the fractional part of the square root of `p`. */
  predicate IsSquareRootFraction(p: nat, k: nat) {
    var whole := if p < 4 then 1 else if p < 9 then 2 else if p < 16 then 3 else 4;
    var q := whole * TWO32 + k;
    k < TWO32 && Square(q) <= p * Square(TWO32) < Square(q + 1)
  }

  function RoundConstant(i: nat): nat
    requires i < 64
  {
    match i
    case 0 => 0x428a2f98 case 1 => 0x71374491 case 2 => 0xb5c0fbcf case 3 => 0xe9b5dba5
    case 4 => 0x3956c25b case 5 => 0x59f111f1 case 6 => 0x923f82a4 case 7 => 0xab1c5ed5
    case 8 => 0xd807aa98 case 9 => 0x12835b01 case 10 => 0x243185be case 11 => 0x550c7dc3
    case 12 => 0x72be5d74 case 13 => 0x80deb1fe case 14 => 0x9bdc06a7 case 15 => 0xc19bf174
    case 16 => 0xe49b69c1 case 17 => 0xefbe4786 case 18 => 0x0fc19dc6 case 19 => 0x240ca1cc
    case 20 => 0x2de92c6f case 21 => 0x4a7484aa case 22 => 0x5cb0a9dc case 23 => 0x76f988da
    case 24 => 0x983e5152 case 25 => 0xa831c66d case 26 => 0xb00327c8 case 27 => 0xbf597fc7
    case 28 => 0xc6e00bf3 case 29 => 0xd5a79147 case 30 => 0x06ca6351 case 31 => 0x14292967
    case 32 => 0x27b70a85 case 33 => 0x2e1b2138 case 34 => 0x4d2c6dfc case 35 => 0x53380d13
    case 36 => 0x650a7354 case 37 => 0x766a0abb case 38 => 0x81c2c92e case 39 => 0x92722c85
    case 40 => 0xa2bfe8a1 case 41 => 0xa81a664b case 42 => 0xc24b8b70 case 43 => 0xc76c51a3
    case 44 => 0xd192e819 case 45 => 0xd6990624 case 46 => 0xf40e3585 case 47 => 0x106aa070
    case 48 => 0x19a4c116 case 49 => 0x1e376c08 case 50 => 0x2748774c case 51 => 0x34b0bcb5
    case 52 => 0x391c0cb3 case 53 => 0x4ed8aa4a case 54 => 0x5b9cca4f case 55 => 0x682e6ff3
    case 56 => 0x748f82ee case 57 => 0x78a5636f case 58 => 0x84c87814 case 59 => 0x8cc70208
    case 60 => 0x90befffa case 61 => 0xa4506ceb case 62 => 0xbef9a3f7 case _ => 0xc67178f2
  }

  /** The round constants are what the standard says they are. */
  lemma RoundConstantsAreCubeRoots(i: nat)
    requires i < 64
    ensures IsCubeRootFraction(Prime(i), RoundConstant(i))
  {}

  function InitialHash(i: nat): (k: nat)
    requires i < 8
    ensures IsSquareRootFraction(Prime(i), k)
  {
    match i
    case 0 => 0x6a09e667 case 1 => 0xbb67ae85 case 2 => 0x3c6ef372 case 3 => 0xa54ff53a
    case 4 => 0x510e527f case 5 => 0x9b05688c case 6 => 0x1f83d9ab case _ => 0x5be0cd19
  }

  function K(i: nat): word
    requires i < 64
  {
    RoundConstantsAreCubeRoots(i);
    RoundConstant(i) as word
  }

  // ---- the specification (FIPS 180-4 sections 4.1.2, 5.1.1, 5.2.1 and 6.2.2) ---------------------

  /** Addition modulo 2^32. */
  function Add(x: word, y: word): word { x + y }

  function Add4(p: word, q: word, r: word, s: word): word { p + q + r + s }

  function Ch(x: word, y: word, z: word): word { (x & y) ^ (!x & z) }
  function Maj(x: word, y: word, z: word): word { (x & y) ^ (x & z) ^ (y & z) }
  // A right rotation by n is (x >> n) | (x << (32 - n)).
  function BigSigma0(x: word): word { ((x >> 2) | (x << 30)) ^ ((x >> 13) | (x << 19)) ^ ((x >> 22) | (x << 10)) }
  function BigSigma1(x: word): word { ((x >> 6) | (x << 26)) ^ ((x >> 11) | (x << 21)) ^ ((x >> 25) | (x << 7)) }
  function SmallSigma0(x: word): word { ((x >> 7) | (x << 25)) ^ ((x >> 18) | (x << 14)) ^ (x >> 3) }
  function SmallSigma1(x: word): word { ((x >> 17) | (x << 15)) ^ ((x >> 19) | (x << 13)) ^ (x >> 10) }

  datatype Vars = Vars(a: word, b: word, c: word, d: word, e: word, f: word, g: word, h: word)

  type Block = m: seq<byte> | |m| == 64 witness seq(64, i => 0)

  function BigEndian4(b0: byte, b1: byte, b2: byte, b3: byte): word {
    (b0 * 0x100_0000 + b1 * 0x1_0000 + b2 * 0x100 + b3) as word
  }

  function MessageWord(m: Block, t: nat): word
    requires t < 16
  {
    BigEndian4(m[4 * t], m[4 * t + 1], m[4 * t + 2], m[4 * t + 3])
  }

  /** The message schedule. */
  function W(m: Block, t: nat): word
    requires t < 64
  {
    if t < 16 then MessageWord(m, t)
    else Add4(SmallSigma1(W(m, t - 2)), W(m, t - 7), SmallSigma0(W(m, t - 15)), W(m, t - 16))
  }

  function Round(v: Vars, k: word, w: word): Vars {
    var t1 := Add(Add4(v.h, BigSigma1(v.e), Ch(v.e, v.f, v.g), k), w);
    var t2 := Add(BigSigma0(v.a), Maj(v.a, v.b, v.c));
    Vars(Add(t1, t2), v.a, v.b, v.c, Add(v.d, t1), v.e, v.f, v.g)
  }

  function Rounds(v: Vars, m: Block, t: nat): Vars
    requires t <= 64
  {
    if t == 0 then v else Round(Rounds(v, m, t - 1), K(t - 1), W(m, t - 1))
  }

  function Plus(v: Vars, w: Vars): Vars {
    Vars(Add(v.a, w.a), Add(v.b, w.b), Add(v.c, w.c), Add(v.d, w.d),
         Add(v.e, w.e), Add(v.f, w.f), Add(v.g, w.g), Add(v.h, w.h))
  }

  function Compress(h: Vars, m: Block): Vars { Plus(Rounds(h, m, 64), h) }

  function Initial(): Vars {
    Vars(InitialHash(0) as word, InitialHash(1) as word, InitialHash(2) as word, InitialHash(3) as word,
         InitialHash(4) as word, InitialHash(5) as word, InitialHash(6) as word, InitialHash(7) as word)
  }

  /** Big-endian bytes of `n`, the low `k` of them. */
  function Bytes(n: nat, k: nat): (r: seq<byte>)
    ensures |r| == k
  {
    if k == 0 then [] else Bytes(n / 256, k - 1) + [n % 256]
  }

  function Zeros(k: nat): seq<byte> { seq(k, i => 0) }

  /** The least number of zero bytes that leaves eight for the length in the last block. */
  function ZeroCount(n: nat): (k: nat)
    ensures k < 64 && (n + 1 + k) % 64 == 56
  {
    (119 - n % 64) % 64
  }

  function Pad(message: seq<byte>): seq<byte> {
    message + [0x80] + Zeros(ZeroCount(|message|)) + Bytes(8 * |message|, 8)
  }

  /** The hash value after the first `n` blocks. */
  function HashPrefix(padded: seq<byte>, n: nat): Vars
    requires 64 * n <= |padded|
  {
    if n == 0 then Initial() else Compress(HashPrefix(padded, n - 1), padded[64 * (n - 1)..64 * n])
  }

  function WordBytes(w: word): seq<byte> { Bytes(w as nat, 4) }

  function VarsBytes(v: Vars): seq<byte> {
    WordBytes(v.a) + WordBytes(v.b) + WordBytes(v.c) + WordBytes(v.d)
    + WordBytes(v.e) + WordBytes(v.f) + WordBytes(v.g) + WordBytes(v.h)
  }

  function Digest(message: seq<byte>): seq<byte> {
    VarsBytes(HashPrefix(Pad(message), |Pad(message)| / 64))
  }

  lemma PadLength(message: seq<byte>)
    ensures |Pad(message)| % 64 == 0
  {
    var n := |message|;
    var k := ZeroCount(n);
    assert |Pad(message)| == (n + 1 + k) + 8;
    hide Pad, ZeroCount;
    NextBlock(n + 1 + k);
  }

  lemma NextBlock(n: nat)
    requires n % 64 == 56
    ensures (n + 8) % 64 == 0
  {}

  // ---- padding is injective --------------------------------------------------------------------

  /** The number a big-endian byte string denotes. */
  ghost function Number(s: seq<byte>): nat {
    if s == [] then 0 else 256 * Number(s[..|s| - 1]) + s[|s| - 1]
  }

  ghost function Pow256(k: nat): nat { if k == 0 then 1 else 256 * Pow256(k - 1) }

  lemma {:induction false} NumberOfBytes(n: nat, k: nat)
    requires n < Pow256(k)
    ensures Number(Bytes(n, k)) == n
  {
    if k > 0 {
      assert n / 256 < Pow256(k - 1);
      NumberOfBytes(n / 256, k - 1);
      assert Bytes(n, k)[..k - 1] == Bytes(n / 256, k - 1);
    }
  }

  /** Two messages within the standard's limit (fewer than 2^61 bytes) never share a padded form. */
  lemma PadInjective(x: seq<byte>, y: seq<byte>)
    requires |x| < 0x2000_0000_0000_0000 && |y| < 0x2000_0000_0000_0000
    requires Pad(x) == Pad(y)
    ensures x == y
  {
    var p, q := Pad(x), Pad(y);
    assert p[|p| - 8..] == Bytes(8 * |x|, 8) && q[|q| - 8..] == Bytes(8 * |y|, 8);
    assert Pow256(8) == 0x1_0000_0000_0000_0000 by {
      assert Pow256(4) == 0x1_0000_0000;
      assert Pow256(8) == 256 * 256 * 256 * 256 * Pow256(4);
    }
    NumberOfBytes(8 * |x|, 8);
    NumberOfBytes(8 * |y|, 8);
    assert x == p[..|x|] && y == q[..|y|];
  }

  // ---- the implementation ----------------------------------------------------------------------

  function RotateSmall0(x: word): word { x.RotateRight(7) ^ x.RotateRight(18) ^ (x >> 3) }
  function RotateSmall1(x: word): word { x.RotateRight(17) ^ x.RotateRight(19) ^ (x >> 10) }
  function RotateBig0(x: word): word { x.RotateRight(2) ^ x.RotateRight(13) ^ x.RotateRight(22) }
  function RotateBig1(x: word): word { x.RotateRight(6) ^ x.RotateRight(11) ^ x.RotateRight(25) }

  /** A hardware rotation is the standard's pair of shifts. */
  lemma RotationsAgree(x: word)
    ensures RotateSmall0(x) == SmallSigma0(x) && RotateSmall1(x) == SmallSigma1(x)
    ensures RotateBig0(x) == BigSigma0(x) && RotateBig1(x) == BigSigma1(x)
  {}

  /** Addition modulo 2^32 does not depend on the order of its terms. */
  lemma Reorder(a: word, b: word, c: word, d: word)
    ensures Add4(a, b, c, d) == Add4(d, c, b, a)
  {}

  method PadMessage(input: seq<byte>) returns (msg: seq<byte>)
    requires |input| < 0x2000_0000_0000_0000
    ensures msg == Pad(input) && |msg| % 64 == 0
  {
    var bitLen := |input| * 8;
    msg := input + [0x80];
    ghost var k := 0;
    while |msg| % 64 != 56
      invariant k <= ZeroCount(|input|)
      invariant msg == input + [0x80] + Zeros(k)
      decreases ZeroCount(|input|) - k
    {
      PadGap(|input|, k);
      msg := msg + [0];
      k := k + 1;
      assert Zeros(k) == Zeros(k - 1) + [0];
    }
    PadGap(|input|, k);
    msg := msg + Bytes(bitLen, 8);
    PadLength(input);
  }

  /** Between the marker and the length, no shorter run of zeros ends at offset 56 of a block. */
  lemma PadGap(n: nat, k: nat)
    requires k <= ZeroCount(n)
    ensures (n + 1 + k) % 64 == 56 <==> k == ZeroCount(n)
  {
    var z := ZeroCount(n);
    if (n + 1 + k) % 64 == 56 {
      assert (z - k) % 64 == 0;
    }
  }

  method ExpandSchedule(chunk: Block) returns (w: array<word>)
    ensures fresh(w) && w.Length == 64 && forall i :: 0 <= i < 64 ==> w[i] == W(chunk, i)
  {
    hide NextWord, SmallSigma0, SmallSigma1, BigEndian4, Add4;
    w := new word[64];
    for i := 0 to 16
      invariant forall k :: 0 <= k < i ==> w[k] == W(chunk, k)
    {
      var j := i * 4;
      w[i] := BigEndian4(chunk[j], chunk[j + 1], chunk[j + 2], chunk[j + 3]);
    }
    for i := 16 to 64
      invariant forall k :: 0 <= k < i ==> w[k] == W(chunk, k)
    {
      var next := NextWord(w[i - 16], w[i - 15], w[i - 7], w[i - 2]);
      assert next == W(chunk, i) by { NextWordIs(chunk, i); }
      w[i] := next;
    }
  }

  function NextWord(w16: word, w15: word, w7: word, w2: word): word {
    Add4(w16, RotateSmall0(w15), w7, RotateSmall1(w2))
  }

  /** The schedule step in the source's term order, with rotations, is the standard's. */
  lemma NextWordIs(m: Block, i: nat)
    requires 16 <= i < 64
    ensures W(m, i) == NextWord(W(m, i - 16), W(m, i - 15), W(m, i - 7), W(m, i - 2))
  {
    hide NextWord, SmallSigma0, SmallSigma1, Add4, BigEndian4;
    NextWordSum(W(m, i - 16), W(m, i - 15), W(m, i - 7), W(m, i - 2));
  }

  lemma NextWordSum(w16: word, w15: word, w7: word, w2: word)
    ensures NextWord(w16, w15, w7, w2) == Add4(SmallSigma1(w2), w7, SmallSigma0(w15), w16)
  {
    hide RotateSmall0, RotateSmall1, SmallSigma0, SmallSigma1, Add4;
    RotationsAgree(w15);
    RotationsAgree(w2);
    Reorder(w16, SmallSigma0(w15), w7, SmallSigma1(w2));
  }

  method Sha256(input: seq<byte>) returns (out: seq<byte>)
    requires |input| < 0x2000_0000_0000_0000
    ensures out == Digest(input)
  {
    hide Pad, Compress, VarsBytes, Initial;
    var msg := PadMessage(input);
    var h := Initial();
    var n := 0;
    while 64 * n < |msg|
      invariant 64 * n <= |msg|
      invariant h == HashPrefix(msg, n)
    {
      BlockFits(|msg|, n);
      h := CompressBlock(h, msg[64 * n..64 * (n + 1)]);
      n := n + 1;
    }
    out := VarsBytes(h);
  }

  lemma RoundIs(v: Vars, k: word, w: word)
    ensures var t1 := Add(Add4(v.h, RotateBig1(v.e), Ch(v.e, v.f, v.g), k), w);
      var t2 := Add(RotateBig0(v.a), Maj(v.a, v.b, v.c));
      Round(v, k, w) == Vars(Add(t1, t2), v.a, v.b, v.c, Add(v.d, t1), v.e, v.f, v.g)
  {
    hide RotateBig0, RotateBig1, BigSigma0, BigSigma1, Ch, Maj, Add, Add4;
    RotationsAgree(v.a);
    RotationsAgree(v.e);
  }

  lemma Commute(v: Vars, w: Vars)
    ensures Plus(v, w) == Plus(w, v)
  {}

  lemma BlockFits(len: nat, n: nat)
    requires len % 64 == 0 && 64 * n < len
    ensures 64 * (n + 1) <= len
  {}

  method CompressBlock(h: Vars, chunk: Block) returns (r: Vars)
    ensures r == Compress(h, chunk)
  {
    hide Round, RotateBig0, RotateBig1, Ch, Maj, K, SmallSigma0, SmallSigma1, BigEndian4, Add, Add4;
    var w := ExpandSchedule(chunk);
    var a, b, c, d, e, f, g, hh := h.a, h.b, h.c, h.d, h.e, h.f, h.g, h.h;
    for i := 0 to 64
      invariant Vars(a, b, c, d, e, f, g, hh) == Rounds(h, chunk, i)
      invariant forall k :: 0 <= k < 64 ==> w[k] == W(chunk, k)
    {
      assert Rounds(h, chunk, i + 1) == Round(Rounds(h, chunk, i), K(i), W(chunk, i)) && w[i] == W(chunk, i);
      RoundIs(Vars(a, b, c, d, e, f, g, hh), K(i), w[i]);
      var temp1 := Add(Add4(hh, RotateBig1(e), Ch(e, f, g), K(i)), w[i]);
      var temp2 := Add(RotateBig0(a), Maj(a, b, c));
      hh, g, f, e, d, c, b, a := g, f, e, Add(d, temp1), c, b, a, Add(temp1, temp2);
    }
    Commute(h, Vars(a, b, c, d, e, f, g, hh));
    r := Vars(Add(h.a, a), Add(h.b, b), Add(h.c, c), Add(h.d, d), Add(h.e, e), Add(h.f, f), Add(h.g, g), Add(h.h, hh));
  }

  function HexDigit(d: nat): char
    requires d < 16
  {
    if d < 10 then '0' + d as char else 'a' + (d - 10) as char
  }

  /** Lower-case hexadecimal, two digits a byte. */
  function Hex(bytes: seq<byte>): (r: string)
    ensures |r| == 2 * |bytes|
  {
    if bytes == [] then "" else [HexDigit(bytes[0] / 16), HexDigit(bytes[0] % 16)] + Hex(bytes[1..])
  }

  function DigestHex(message: seq<byte>): (r: string)
    ensures |r| == 64
  {
    Hex(Digest(message))
  }

  lemma {:induction false} HexAppend(bytes: seq<byte>, b: byte)
    ensures Hex(bytes + [b]) == Hex(bytes) + [HexDigit(b / 16), HexDigit(b % 16)]
  {
    if bytes == [] {
      assert (bytes + [b])[1..] == [];
    } else {
      HexAppend(bytes[1..], b);
      assert (bytes + [b])[1..] == bytes[1..] + [b];
    }
  }

  lemma HexDigitInjective(c: nat, d: nat)
    requires c < 16 && d < 16 && HexDigit(c) == HexDigit(d)
    ensures c == d
  {}

  /** Byte `i` is the pair of digits at `2 * i`, the high half first. */
  lemma {:induction false} HexReads(bytes: seq<byte>, i: nat)
    requires i < |bytes|
    ensures Hex(bytes)[2 * i] == "0123456789abcdef"[bytes[i] / 16]
    ensures Hex(bytes)[2 * i + 1] == "0123456789abcdef"[bytes[i] % 16]
  {
    if i > 0 {
      HexReads(bytes[1..], i - 1);
      hide HexDigit;
      assert Hex(bytes)[2..] == Hex(bytes[1..]);
    }
  }

  /** The hexadecimal form loses nothing. */
  lemma {:induction false} HexInjective(x: seq<byte>, y: seq<byte>)
    requires Hex(x) == Hex(y)
    ensures x == y
  {
    assert |x| == |y|;
    if x != [] {
      var u, v := Hex(x), Hex(y);
      assert u[0] == HexDigit(x[0] / 16) && v[0] == HexDigit(y[0] / 16);
      assert u[1] == HexDigit(x[0] % 16) && v[1] == HexDigit(y[0] % 16);
      HexDigitInjective(x[0] / 16, y[0] / 16);
      HexDigitInjective(x[0] % 16, y[0] % 16);
      assert u[2..] == Hex(x[1..]) && v[2..] == Hex(y[1..]);
      HexInjective(x[1..], y[1..]);
      assert x == [x[0]] + x[1..] && y == [y[0]] + y[1..];
    }
  }

  method Sha256Hex(input: seq<byte>) returns (out: string)
    requires |input| < 0x2000_0000_0000_0000
    ensures out == DigestHex(input)
  {
    hide Digest;
    var digest := Sha256(input);
    out := "";
    for i := 0 to |digest|
      invariant out == Hex(digest[..i])
    {
      HexAppend(digest[..i], digest[i]);
      assert digest[..i + 1] == digest[..i] + [digest[i]];
      out := out + [HexDigit(digest[i] / 16), HexDigit(digest[i] % 16)];
    }
    assert digest[..|digest|] == digest;
  }
}
