/** The SHA-256 of src/config.rs (sha256_hex) against FIPS 180-4: padding by
    section 5.1.1, the message schedule and the rounds by section 6.2.2, and the
    constants by their definition in sections 4.2.2 and 5.3.3. */
module Sha256 {

  type Byte = x: int | 0 <= x < 256
  type Word = x: int | 0 <= x < 0x1_0000_0000

  /** The first 64 primes, in rows of eight. */
  const PRIMES: seq<seq<int>> := [
    [2, 3, 5, 7, 11, 13, 17, 19],
    [23, 29, 31, 37, 41, 43, 47, 53],
    [59, 61, 67, 71, 73, 79, 83, 89],
    [97, 101, 103, 107, 109, 113, 127, 131],
    [137, 139, 149, 151, 157, 163, 167, 173],
    [179, 181, 191, 193, 197, 199, 211, 223],
    [227, 229, 233, 239, 241, 251, 257, 263],
    [269, 271, 277, 281, 283, 293, 307, 311]
  ]

  const K: seq<seq<Word>> := [
    [0x428a2f98, 0x71374491, 0xb5c0fbcf, 0xe9b5dba5, 0x3956c25b, 0x59f111f1, 0x923f82a4, 0xab1c5ed5],
    [0xd807aa98, 0x12835b01, 0x243185be, 0x550c7dc3, 0x72be5d74, 0x80deb1fe, 0x9bdc06a7, 0xc19bf174],
    [0xe49b69c1, 0xefbe4786, 0x0fc19dc6, 0x240ca1cc, 0x2de92c6f, 0x4a7484aa, 0x5cb0a9dc, 0x76f988da],
    [0x983e5152, 0xa831c66d, 0xb00327c8, 0xbf597fc7, 0xc6e00bf3, 0xd5a79147, 0x06ca6351, 0x14292967],
    [0x27b70a85, 0x2e1b2138, 0x4d2c6dfc, 0x53380d13, 0x650a7354, 0x766a0abb, 0x81c2c92e, 0x92722c85],
    [0xa2bfe8a1, 0xa81a664b, 0xc24b8b70, 0xc76c51a3, 0xd192e819, 0xd6990624, 0xf40e3585, 0x106aa070],
    [0x19a4c116, 0x1e376c08, 0x2748774c, 0x34b0bcb5, 0x391c0cb3, 0x4ed8aa4a, 0x5b9cca4f, 0x682e6ff3],
    [0x748f82ee, 0x78a5636f, 0x84c87814, 0x8cc70208, 0x90befffa, 0xa4506ceb, 0xbef9a3f7, 0xc67178f2]
  ]

  const INITIAL: seq<Word> := [
    0x6a09e667, 0xbb67ae85, 0x3c6ef372, 0xa54ff53a, 0x510e527f, 0x9b05688c, 0x1f83d9ab, 0x5be0cd19
  ]

  // ---------------------------------------------------------------------------
  // The constants.

  /** The integer part of the cube root, for the primes in question. */
  function CubeRoot(p: int): int {
    if p < 8 then 1 else if p < 27 then 2 else if p < 64 then 3 else if p < 125 then 4 else if p < 216 then 5 else 6
  }

  function SquareRoot(p: int): int {
    if p < 4 then 1 else if p < 9 then 2 else if p < 16 then 3 else 4
  }

  /** `k` is the first 32 bits of the fraction of the cube root of `p`. */
  predicate IsCubeFraction(k: Word, p: int) {
    var c := CubeRoot(p) * 0x1_0000_0000 + k;
    c * c * c <= p * 0x1_0000_0000_0000_0000_0000_0000 < (c + 1) * (c + 1) * (c + 1)
  }

  predicate IsSquareFraction(h: Word, p: int) {
    var c := SquareRoot(p) * 0x1_0000_0000 + h;
    c * c <= p * 0x1_0000_0000_0000_0000 < (c + 1) * (c + 1)
  }

  predicate CubeRow(k: seq<Word>, p: seq<int>) {
    |k| == 8 && |p| == 8 && forall j :: 0 <= j < 8 ==> IsCubeFraction(k[j], p[j])
  }

  lemma CubeRow0()
    ensures CubeRow(K[0], PRIMES[0])
  {
    assert IsCubeFraction(0x428a2f98, 2);
    assert IsCubeFraction(0x71374491, 3);
    assert IsCubeFraction(0xb5c0fbcf, 5);
    assert IsCubeFraction(0xe9b5dba5, 7);
    assert IsCubeFraction(0x3956c25b, 11);
    assert IsCubeFraction(0x59f111f1, 13);
    assert IsCubeFraction(0x923f82a4, 17);
    assert IsCubeFraction(0xab1c5ed5, 19);
  }

  lemma CubeRow1()
    ensures CubeRow(K[1], PRIMES[1])
  {
    assert IsCubeFraction(0xd807aa98, 23);
    assert IsCubeFraction(0x12835b01, 29);
    assert IsCubeFraction(0x243185be, 31);
    assert IsCubeFraction(0x550c7dc3, 37);
    assert IsCubeFraction(0x72be5d74, 41);
    assert IsCubeFraction(0x80deb1fe, 43);
    assert IsCubeFraction(0x9bdc06a7, 47);
    assert IsCubeFraction(0xc19bf174, 53);
  }

  lemma CubeRow2()
    ensures CubeRow(K[2], PRIMES[2])
  {
    assert IsCubeFraction(0xe49b69c1, 59);
    assert IsCubeFraction(0xefbe4786, 61);
    assert IsCubeFraction(0x0fc19dc6, 67);
    assert IsCubeFraction(0x240ca1cc, 71);
    assert IsCubeFraction(0x2de92c6f, 73);
    assert IsCubeFraction(0x4a7484aa, 79);
    assert IsCubeFraction(0x5cb0a9dc, 83);
    assert IsCubeFraction(0x76f988da, 89);
  }

  lemma CubeRow3()
    ensures CubeRow(K[3], PRIMES[3])
  {
    assert IsCubeFraction(0x983e5152, 97);
    assert IsCubeFraction(0xa831c66d, 101);
    assert IsCubeFraction(0xb00327c8, 103);
    assert IsCubeFraction(0xbf597fc7, 107);
    assert IsCubeFraction(0xc6e00bf3, 109);
    assert IsCubeFraction(0xd5a79147, 113);
    assert IsCubeFraction(0x06ca6351, 127);
    assert IsCubeFraction(0x14292967, 131);
  }

  lemma CubeRow4()
    ensures CubeRow(K[4], PRIMES[4])
  {
    assert IsCubeFraction(0x27b70a85, 137);
    assert IsCubeFraction(0x2e1b2138, 139);
    assert IsCubeFraction(0x4d2c6dfc, 149);
    assert IsCubeFraction(0x53380d13, 151);
    assert IsCubeFraction(0x650a7354, 157);
    assert IsCubeFraction(0x766a0abb, 163);
    assert IsCubeFraction(0x81c2c92e, 167);
    assert IsCubeFraction(0x92722c85, 173);
  }

  lemma CubeRow5()
    ensures CubeRow(K[5], PRIMES[5])
  {
    assert IsCubeFraction(0xa2bfe8a1, 179);
    assert IsCubeFraction(0xa81a664b, 181);
    assert IsCubeFraction(0xc24b8b70, 191);
    assert IsCubeFraction(0xc76c51a3, 193);
    assert IsCubeFraction(0xd192e819, 197);
    assert IsCubeFraction(0xd6990624, 199);
    assert IsCubeFraction(0xf40e3585, 211);
    assert IsCubeFraction(0x106aa070, 223);
  }

  lemma CubeRow6()
    ensures CubeRow(K[6], PRIMES[6])
  {
    assert IsCubeFraction(0x19a4c116, 227);
    assert IsCubeFraction(0x1e376c08, 229);
    assert IsCubeFraction(0x2748774c, 233);
    assert IsCubeFraction(0x34b0bcb5, 239);
    assert IsCubeFraction(0x391c0cb3, 241);
    assert IsCubeFraction(0x4ed8aa4a, 251);
    assert IsCubeFraction(0x5b9cca4f, 257);
    assert IsCubeFraction(0x682e6ff3, 263);
  }

  lemma CubeRow7()
    ensures CubeRow(K[7], PRIMES[7])
  {
    assert IsCubeFraction(0x748f82ee, 269);
    assert IsCubeFraction(0x78a5636f, 271);
    assert IsCubeFraction(0x84c87814, 277);
    assert IsCubeFraction(0x8cc70208, 281);
    assert IsCubeFraction(0x90befffa, 283);
    assert IsCubeFraction(0xa4506ceb, 293);
    assert IsCubeFraction(0xbef9a3f7, 307);
    assert IsCubeFraction(0xc67178f2, 311);
  }

  /** Every round constant is the one section 4.2.2 defines. */
  lemma RoundConstants()
    ensures |K| == 8 && |PRIMES| == 8 && forall r :: 0 <= r < 8 ==> CubeRow(K[r], PRIMES[r])
  {
    CubeRow0();
    CubeRow1();
    CubeRow2();
    CubeRow3();
    CubeRow4();
    CubeRow5();
    CubeRow6();
    CubeRow7();
  }

  /** The initial hash value is the one section 5.3.3 defines. */
  lemma InitialHash()
    ensures |INITIAL| == 8 && forall j :: 0 <= j < 8 ==> IsSquareFraction(INITIAL[j], PRIMES[0][j])
  {
    assert IsSquareFraction(0x6a09e667, 2);
    assert IsSquareFraction(0xbb67ae85, 3);
    assert IsSquareFraction(0x3c6ef372, 5);
    assert IsSquareFraction(0xa54ff53a, 7);
    assert IsSquareFraction(0x510e527f, 11);
    assert IsSquareFraction(0x9b05688c, 13);
    assert IsSquareFraction(0x1f83d9ab, 17);
    assert IsSquareFraction(0x5be0cd19, 19);
  }

  // ---------------------------------------------------------------------------
  // Padding.

  const U64 := 0x1_0000_0000_0000_0000

  function Zeros(n: nat): seq<Byte> {
    if n == 0 then [] else Zeros(n - 1) + [0]
  }

  /** `n` in `k` bytes, most significant first. */
  function BigEndian(n: nat, k: nat): seq<Byte> {
    if k == 0 then [] else BigEndian(n / 256, k - 1) + [n % 256]
  }

  function FromBigEndian(s: seq<Byte>): nat {
    if s == [] then 0 else FromBigEndian(s[..|s| - 1]) * 256 + s[|s| - 1]
  }

  /** How many zero bytes fill a message of `l` bytes and its marker to 56 modulo 64. */
  function Gap(l: nat): nat {
    (119 - l % 64) % 64
  }

  /** The message, a one bit, zeros, and the length in bits in 64 bits. */
  function Padded(m: seq<Byte>): seq<Byte> {
    m + [0x80] + Zeros(Gap(|m|)) + LengthField(|m|)
  }

  function LengthField(l: nat): seq<Byte> {
    BigEndian(8 * l % U64, 8)
  }

  lemma Remainder(q: int, r: int)
    requires 0 <= r < 64
    ensures (64 * q + r) % 64 == r
  {
  }

  lemma GapIs(l: nat)
    ensures var r := l % 64; Gap(l) == if r <= 55 then 55 - r else 119 - r
  {
  }

  /** The gap is the smallest that leaves room for the length. */
  lemma GapIsSmallest(l: nat, k: nat)
    ensures (l + 1 + Gap(l)) % 64 == 56
    ensures (l + 1 + k) % 64 == 56 ==> Gap(l) <= k
  {
    var q, r := l / 64, l % 64;
    GapIs(l);
    Remainder(if r <= 55 then q else q + 1, 56);
    if k < Gap(l) { Remainder(if r + 1 + k < 64 then q else q + 1, if r + 1 + k < 64 then r + 1 + k else r + 1 + k - 64); }
  }

  lemma GapFills(l: nat)
    ensures (l + 9 + Gap(l)) % 64 == 0
  {
    GapIs(l);
    Remainder(if l % 64 <= 55 then l / 64 + 1 else l / 64 + 2, 0);
  }

  method Pad(input: seq<Byte>) returns (data: seq<Byte>)
    ensures data == Padded(input)
  {
    var length := LengthField(|input|);
    data := FillUp(input);
    data := data + length;
  }

  /** Appends the marker, and zeros one by one until the length fits. */
  method FillUp(input: seq<Byte>) returns (data: seq<Byte>)
    ensures data == input + [0x80] + Zeros(Gap(|input|))
  {
    data := input + [0x80];
    ghost var zeros := 0;
    while |data| % 64 != 56
      invariant zeros <= Gap(|input|) && data == input + [0x80] + Zeros(zeros)
      invariant |data| == |input| + 1 + zeros
      decreases Gap(|input|) - zeros
    {
      GapNotYet(|input|, zeros);
      data := data + [0];
      zeros := zeros + 1;
    }
    GapIsSmallest(|input|, zeros);
  }

  lemma GapNotYet(l: nat, k: nat)
    requires (l + 1 + k) % 64 != 56 && k <= Gap(l)
    ensures k < Gap(l)
  {
    GapIsSmallest(l, k);
  }

  lemma {:induction false} ZerosLength(n: nat)
    ensures |Zeros(n)| == n
  {
    if n > 0 { ZerosLength(n - 1); }
  }

  lemma {:induction false} BigEndianLength(n: nat, k: nat)
    ensures |BigEndian(n, k)| == k
  {
    if k > 0 { BigEndianLength(n / 256, k - 1); }
  }

  function Power(k: nat): nat {
    if k == 0 then 1 else 256 * Power(k - 1)
  }

  lemma {:induction false} BigEndianReadsBack(n: nat, k: nat)
    requires n < Power(k)
    ensures FromBigEndian(BigEndian(n, k)) == n
  {
    if k > 0 {
      BigEndianReadsBack(n / 256, k - 1);
      var s := BigEndian(n, k);
      assert s[..|s| - 1] == BigEndian(n / 256, k - 1);
    }
  }

  lemma PowerEight()
    ensures Power(8) == U64
  {
    assert Power(4) == 0x1_0000_0000;
    assert Power(6) == 0x1_0000_0000_0000;
  }

  lemma PaddedLength(m: seq<Byte>)
    ensures |LengthField(|m|)| == 8 && |Padded(m)| == |m| + 9 + Gap(|m|)
  {
    ZerosLength(Gap(|m|));
    BigEndianLength(8 * |m| % U64, 8);
  }

  /** A padded message is a whole number of 64-byte blocks. */
  lemma PaddedIsWhole(m: seq<Byte>)
    ensures |Padded(m)| == |m| + 9 + Gap(|m|)
    ensures |Padded(m)| % 64 == 0
  {
    PaddedLength(m);
    GapFills(|m|);
  }

  lemma LengthFieldReadsBack(l: nat)
    requires l < 0x2000_0000_0000_0000
    ensures FromBigEndian(LengthField(l)) == 8 * l
  {
    PowerEight();
    assert 8 * l < U64 && 8 * l % U64 == 8 * l;
    BigEndianReadsBack(8 * l, 8);
  }

  lemma LastEight(m: seq<Byte>)
    requires |m| < 0x2000_0000_0000_0000
    ensures |Padded(m)| >= 8 && FromBigEndian(Padded(m)[|Padded(m)| - 8..]) == 8 * |m|
  {
    PaddedLength(m);
    Tail(m + [0x80] + Zeros(Gap(|m|)), LengthField(|m|));
    LengthFieldReadsBack(|m|);
  }

  lemma Tail(a: seq<Byte>, b: seq<Byte>)
    ensures (a + b)[|a + b| - |b|..] == b
  {
  }

  /** Messages shorter than 2^61 bytes pad to different blocks. */
  lemma PaddingIsInjective(a: seq<Byte>, b: seq<Byte>)
    requires |a| < 0x2000_0000_0000_0000 && |b| < 0x2000_0000_0000_0000
    requires Padded(a) == Padded(b)
    ensures a == b
  {
    LastEight(a);
    LastEight(b);
    assert |a| == |b|;
    assert a == Padded(a)[..|a|] && b == Padded(b)[..|b|];
  }

  // ---------------------------------------------------------------------------
  // The hash of section 6.2.2 over any word operations.

  /** The operations on words: `sum4` adds the four terms of the schedule,
      `sum5` the five of the first temporary value. */
  datatype Ops<!W> = Ops(
    zero: W, word: (Byte, Byte, Byte, Byte) -> W, constant: nat -> W,
    smallSigma0: W -> W, smallSigma1: W -> W, bigSigma0: W -> W, bigSigma1: W -> W,
    choose: (W, W, W) -> W, majority: (W, W, W) -> W,
    sum: (W, W) -> W, sum4: (W, W, W, W) -> W, sum5: (W, W, W, W, W) -> W)

  function WordAt<W>(o: Ops<W>, block: seq<Byte>, t: nat): W
    requires |block| == 64 && t < 16
  {
    o.word(block[4 * t], block[4 * t + 1], block[4 * t + 2], block[4 * t + 3])
  }

  /** The message schedule, as the recurrence defines it. */
  function Schedule<W>(o: Ops<W>, block: seq<Byte>, t: nat): W
    requires |block| == 64 && t < 64
  {
    if t < 16 then WordAt(o, block, t)
    else o.sum4(Schedule(o, block, t - 16), o.smallSigma0(Schedule(o, block, t - 15)),
                Schedule(o, block, t - 7), o.smallSigma1(Schedule(o, block, t - 2)))
  }

  datatype Working<W> = Working(a: W, b: W, c: W, d: W, e: W, f: W, g: W, h: W)

  function Round<W>(o: Ops<W>, s: Working<W>, k: W, w: W): Working<W> {
    var t1 := o.sum5(s.h, o.bigSigma1(s.e), o.choose(s.e, s.f, s.g), k, w);
    var t2 := o.sum(o.bigSigma0(s.a), o.majority(s.a, s.b, s.c));
    Working(o.sum(t1, t2), s.a, s.b, s.c, o.sum(s.d, t1), s.e, s.f, s.g)
  }

  function Rounds<W>(o: Ops<W>, s: Working<W>, block: seq<Byte>, t: nat): Working<W>
    requires |block| == 64 && t <= 64
  {
    if t == 0 then s else Round(o, Rounds(o, s, block, t - 1), o.constant(t - 1), Schedule(o, block, t - 1))
  }

  function Added<W>(o: Ops<W>, x: Working<W>, y: Working<W>): Working<W> {
    Working(o.sum(x.a, y.a), o.sum(x.b, y.b), o.sum(x.c, y.c), o.sum(x.d, y.d),
            o.sum(x.e, y.e), o.sum(x.f, y.f), o.sum(x.g, y.g), o.sum(x.h, y.h))
  }

  function Compressed<W>(o: Ops<W>, hash: Working<W>, block: seq<Byte>): Working<W>
    requires |block| == 64
  {
    Added(o, hash, Rounds(o, hash, block, 64))
  }

  /** The hash of whole blocks, one after the other. */
  function Digest<W>(o: Ops<W>, hash: Working<W>, data: seq<Byte>): Working<W>
    decreases |data|
  {
    if |data| < 64 then hash else Digest(o, Compressed(o, hash, data[..64]), data[64..])
  }

  // ---------------------------------------------------------------------------
  // The same in place.

  function StateOf<W>(h: seq<W>): Working<W>
    requires |h| == 8
  {
    Working(h[0], h[1], h[2], h[3], h[4], h[5], h[6], h[7])
  }

  /** The first `n` words of the schedule are in place. */
  ghost predicate Loaded<W>(o: Ops<W>, block: seq<Byte>, w: seq<W>, n: nat)
    requires |block| == 64 && n <= |w| == 64
  {
    forall i :: 0 <= i < n ==> w[i] == Schedule(o, block, i)
  }

  method LoadWords<W>(o: Ops<W>, block: seq<Byte>, w: array<W>)
    requires |block| == 64 && w.Length == 64
    modifies w
    ensures Loaded(o, block, w[..], 16)
  {
    for t := 0 to 16
      invariant Loaded(o, block, w[..], t)
    {
      w[t] := WordAt(o, block, t);
    }
  }

  lemma NextWord<W>(o: Ops<W>, block: seq<Byte>, w: seq<W>, t: nat)
    requires |block| == 64 && 16 <= t < |w| == 64 && Loaded(o, block, w, t)
    ensures o.sum4(w[t - 16], o.smallSigma0(w[t - 15]), w[t - 7], o.smallSigma1(w[t - 2])) == Schedule(o, block, t)
  {
  }

  lemma OneMore<W>(o: Ops<W>, block: seq<Byte>, w: seq<W>, t: nat, x: W)
    requires |block| == 64 && t < |w| == 64 && Loaded(o, block, w, t) && x == Schedule(o, block, t)
    ensures Loaded(o, block, w[t := x], t + 1)
  {
  }

  method Extend<W>(o: Ops<W>, block: seq<Byte>, w: array<W>)
    requires |block| == 64 && w.Length == 64 && Loaded(o, block, w[..], 16)
    modifies w
    ensures Loaded(o, block, w[..], 64)
  {
    for t := 16 to 64
      invariant Loaded(o, block, w[..], t)
    {
      ghost var before := w[..];
      NextWord(o, block, before, t);
      var s0 := o.smallSigma0(w[t - 15]);
      var s1 := o.smallSigma1(w[t - 2]);
      w[t] := o.sum4(w[t - 16], s0, w[t - 7], s1);
      OneMore(o, block, before, t, w[t]);
      assert w[..] == before[t := w[t]];
    }
  }

  method RunRounds<W>(o: Ops<W>, s: Working<W>, block: seq<Byte>, w: array<W>) returns (r: Working<W>)
    requires |block| == 64 && w.Length == 64 && Loaded(o, block, w[..], 64)
    ensures r == Rounds(o, s, block, 64)
  {
    var a, b, c, d, e, f, g, h := s.a, s.b, s.c, s.d, s.e, s.f, s.g, s.h;
    for t := 0 to 64
      invariant Working(a, b, c, d, e, f, g, h) == Rounds(o, s, block, t)
    {
      assert w[t] == w[..][t];
      var temp1 := o.sum5(h, o.bigSigma1(e), o.choose(e, f, g), o.constant(t), w[t]);
      var temp2 := o.sum(o.bigSigma0(a), o.majority(a, b, c));
      h := g;
      g := f;
      f := e;
      e := o.sum(d, temp1);
      d := c;
      c := b;
      b := a;
      a := o.sum(temp1, temp2);
    }
    r := Working(a, b, c, d, e, f, g, h);
  }

  method Compress<W>(o: Ops<W>, h: array<W>, block: seq<Byte>)
    requires h.Length == 8 && |block| == 64
    modifies h
    ensures StateOf(h[..]) == Compressed(o, old(StateOf(h[..])), block)
  {
    var w := new W[64](_ => o.zero);
    LoadWords(o, block, w);
    Extend(o, block, w);
    var s := RunRounds(o, StateOf(h[..]), block, w);
    h[0] := o.sum(h[0], s.a);
    h[1] := o.sum(h[1], s.b);
    h[2] := o.sum(h[2], s.c);
    h[3] := o.sum(h[3], s.d);
    h[4] := o.sum(h[4], s.e);
    h[5] := o.sum(h[5], s.f);
    h[6] := o.sum(h[6], s.g);
    h[7] := o.sum(h[7], s.h);
  }

  method HashBlocks<W>(o: Ops<W>, h: array<W>, data: seq<Byte>)
    requires h.Length == 8
    modifies h
    ensures StateOf(h[..]) == Digest(o, old(StateOf(h[..])), data)
  {
    var n := 0;
    assert data[0..] == data;
    while n + 64 <= |data|
      invariant 0 <= n <= |data|
      invariant Digest(o, StateOf(h[..]), data[n..]) == Digest(o, old(StateOf(h[..])), data)
    {
      assert data[n..][..64] == data[n..n + 64] && data[n..][64..] == data[n + 64..];
      Compress(o, h, data[n..n + 64]);
      n := n + 64;
    }
  }

  // ---------------------------------------------------------------------------
  // Equal operations give equal hashes.

  ghost predicate SameOps<W(!new)>(o: Ops<W>, p: Ops<W>) {
    && (forall a, b, c, d :: o.word(a, b, c, d) == p.word(a, b, c, d))
    && (forall t :: o.constant(t) == p.constant(t))
    && (forall x :: o.smallSigma0(x) == p.smallSigma0(x)) && (forall x :: o.smallSigma1(x) == p.smallSigma1(x))
    && (forall x :: o.bigSigma0(x) == p.bigSigma0(x)) && (forall x :: o.bigSigma1(x) == p.bigSigma1(x))
    && (forall x, y, z :: o.choose(x, y, z) == p.choose(x, y, z))
    && (forall x, y, z :: o.majority(x, y, z) == p.majority(x, y, z))
    && (forall x, y :: o.sum(x, y) == p.sum(x, y))
    && (forall a, b, c, d :: o.sum4(a, b, c, d) == p.sum4(a, b, c, d))
    && (forall a, b, c, d, e :: o.sum5(a, b, c, d, e) == p.sum5(a, b, c, d, e))
  }

  lemma {:induction false} SameSchedule<W(!new)>(o: Ops<W>, p: Ops<W>, block: seq<Byte>, t: nat)
    requires SameOps(o, p) && |block| == 64 && t < 64
    ensures Schedule(o, block, t) == Schedule(p, block, t)
  {
    if t >= 16 {
      SameSchedule(o, p, block, t - 16);
      SameSchedule(o, p, block, t - 15);
      SameSchedule(o, p, block, t - 7);
      SameSchedule(o, p, block, t - 2);
    }
  }

  lemma {:induction false} SameRounds<W(!new)>(o: Ops<W>, p: Ops<W>, s: Working<W>, block: seq<Byte>, t: nat)
    requires SameOps(o, p) && |block| == 64 && t <= 64
    ensures Rounds(o, s, block, t) == Rounds(p, s, block, t)
  {
    if t > 0 {
      SameRounds(o, p, s, block, t - 1);
      SameSchedule(o, p, block, t - 1);
    }
  }

  lemma {:induction false} SameDigest<W(!new)>(o: Ops<W>, p: Ops<W>, hash: Working<W>, data: seq<Byte>)
    requires SameOps(o, p)
    ensures Digest(o, hash, data) == Digest(p, hash, data)
    decreases |data|
  {
    if |data| >= 64 {
      SameRounds(o, p, hash, data[..64], 64);
      SameDigest(o, p, Compressed(o, hash, data[..64]), data[64..]);
    }
  }

  // ---------------------------------------------------------------------------
  // The operations: as the standard writes them (sections 2.2.2, 3.2 and 4.1.2,
  // a rotation being two shifts), and as the program computes them.

  function RoundConstant(t: nat): bv32 {
    if t < 64 then K[t / 8][t % 8] as bv32 else 0
  }

  function BytesToWord(a: Byte, b: Byte, c: Byte, d: Byte): bv32 {
    ((a as bv32) << 24) | ((b as bv32) << 16) | ((c as bv32) << 8) | (d as bv32)
  }

  const FIPS: Ops<bv32> := Ops(
    0, BytesToWord, RoundConstant,
    (x: bv32) => ((x >> 7) | (x << 25)) ^ ((x >> 18) | (x << 14)) ^ (x >> 3),
    (x: bv32) => ((x >> 17) | (x << 15)) ^ ((x >> 19) | (x << 13)) ^ (x >> 10),
    (x: bv32) => ((x >> 2) | (x << 30)) ^ ((x >> 13) | (x << 19)) ^ ((x >> 22) | (x << 10)),
    (x: bv32) => ((x >> 6) | (x << 26)) ^ ((x >> 11) | (x << 21)) ^ ((x >> 25) | (x << 7)),
    (x: bv32, y: bv32, z: bv32) => (x & y) ^ ((!x) & z),
    (x: bv32, y: bv32, z: bv32) => (x & y) ^ (x & z) ^ (y & z),
    (x: bv32, y: bv32) => x + y,
    (w16: bv32, s0: bv32, w7: bv32, s1: bv32) => s1 + w7 + s0 + w16,
    (a: bv32, b: bv32, c: bv32, d: bv32, e: bv32) => a + b + c + d + e)

  const PROGRAM: Ops<bv32> := Ops(
    0, BytesToWord, RoundConstant,
    (x: bv32) => x.RotateRight(7) ^ x.RotateRight(18) ^ (x >> 3),
    (x: bv32) => x.RotateRight(17) ^ x.RotateRight(19) ^ (x >> 10),
    (x: bv32) => x.RotateRight(2) ^ x.RotateRight(13) ^ x.RotateRight(22),
    (x: bv32) => x.RotateRight(6) ^ x.RotateRight(11) ^ x.RotateRight(25),
    (x: bv32, y: bv32, z: bv32) => (x & y) ^ ((!x) & z),
    (x: bv32, y: bv32, z: bv32) => (x & y) ^ (x & z) ^ (y & z),
    (x: bv32, y: bv32) => x + y,
    (w16: bv32, s0: bv32, w7: bv32, s1: bv32) => w16 + s0 + w7 + s1,
    (a: bv32, b: bv32, c: bv32, d: bv32, e: bv32) => a + b + c + d + e)

  lemma ProgramIsFips()
    ensures SameOps(PROGRAM, FIPS)
  {
    forall x ensures PROGRAM.smallSigma0(x) == FIPS.smallSigma0(x) { }
    forall x ensures PROGRAM.smallSigma1(x) == FIPS.smallSigma1(x) { }
    forall x ensures PROGRAM.bigSigma0(x) == FIPS.bigSigma0(x) { }
    forall x ensures PROGRAM.bigSigma1(x) == FIPS.bigSigma1(x) { }
    forall a, b, c, d ensures PROGRAM.sum4(a, b, c, d) == FIPS.sum4(a, b, c, d) { }
  }

  // ---------------------------------------------------------------------------
  // The whole function.

  function InitialWord(j: nat): bv32
    requires j < 8
  {
    INITIAL[j] as bv32
  }

  function InitialValue(): Working<bv32> {
    StateOf(seq(8, j requires 0 <= j < 8 => InitialWord(j)))
  }

  /** The hash of a message as the standard defines it. */
  function Sha256Of(m: seq<Byte>): Working<bv32> {
    Digest(FIPS, InitialValue(), Padded(m))
  }

  function HexDigit(n: bv32): char {
    if n == 0 then '0' else if n == 1 then '1' else if n == 2 then '2' else if n == 3 then '3'
    else if n == 4 then '4' else if n == 5 then '5' else if n == 6 then '6' else if n == 7 then '7'
    else if n == 8 then '8' else if n == 9 then '9' else if n == 10 then 'a' else if n == 11 then 'b'
    else if n == 12 then 'c' else if n == 13 then 'd' else if n == 14 then 'e' else 'f'
  }

  function Nibbles(w: bv32): seq<bv32> {
    [w >> 28, (w >> 24) & 15, (w >> 20) & 15, (w >> 16) & 15, (w >> 12) & 15, (w >> 8) & 15, (w >> 4) & 15, w & 15]
  }

  function Digits<D>(nibbles: seq<D>, digit: D -> char): string {
    seq(|nibbles|, i requires 0 <= i < |nibbles| => digit(nibbles[i]))
  }

  /** Eight lower-case hexadecimal digits. */
  function HexWord(w: bv32): string {
    Digits(Nibbles(w), HexDigit)
  }

  function Hex<W>(x: Working<W>, word: W -> string): string {
    word(x.a) + word(x.b) + word(x.c) + word(x.d) + word(x.e) + word(x.f) + word(x.g) + word(x.h)
  }

  lemma HexDigitTells(a: bv32, b: bv32)
    requires a < 16 && b < 16 && HexDigit(a) == HexDigit(b)
    ensures a == b
  {
  }

  lemma DigitsTell<D>(s: seq<D>, t: seq<D>, digit: D -> char)
    requires Digits(s, digit) == Digits(t, digit)
    requires forall a, b :: a in s && b in t && digit(a) == digit(b) ==> a == b
    ensures s == t
  {
    assert |Digits(s, digit)| == |Digits(t, digit)|;
    forall i | 0 <= i < |s| ensures s[i] == t[i] { assert Digits(s, digit)[i] == Digits(t, digit)[i]; }
  }

  /** The digits determine the word. */
  lemma HexWordTells(x: bv32, y: bv32)
    requires HexWord(x) == HexWord(y)
    ensures x == y
  {
    forall a, b | a in Nibbles(x) && b in Nibbles(y) && HexDigit(a) == HexDigit(b) ensures a == b { HexDigitTells(a, b); }
    DigitsTell(Nibbles(x), Nibbles(y), HexDigit);
  }

  lemma SameParts<T>(a: seq<T>, b: seq<T>, c: seq<T>, d: seq<T>)
    requires |a| == |c| && a + b == c + d
    ensures a == c && b == d
  {
    assert a == (a + b)[..|a|] && c == (c + d)[..|c|];
    assert b == (a + b)[|a|..] && d == (c + d)[|c|..];
  }

  /** Words of one length, joined, determine each of them. */
  lemma {:induction false} JoinedTell(s: seq<string>, t: seq<string>)
    requires |s| == |t| && (forall w :: w in s + t ==> |w| == 8) && Joined(s) == Joined(t)
    ensures s == t
  {
    if s != [] {
      assert s[0] in s + t && t[0] in s + t;
      SameParts(s[0], Joined(s[1..]), t[0], Joined(t[1..]));
      forall w | w in s[1..] + t[1..] ensures |w| == 8 { assert w in s + t; }
      JoinedTell(s[1..], t[1..]);
    }
  }

  function Joined(words: seq<string>): string {
    if words == [] then "" else words[0] + Joined(words[1..])
  }

  function WordsOf<W>(x: Working<W>): seq<W> {
    [x.a, x.b, x.c, x.d, x.e, x.f, x.g, x.h]
  }

  lemma HexIsJoined<W>(x: Working<W>, word: W -> string)
    ensures Hex(x, word) == Joined(Each(WordsOf(x), word))
  {
    var s := Each(WordsOf(x), word);
    assert s == [word(x.a), word(x.b), word(x.c), word(x.d), word(x.e), word(x.f), word(x.g), word(x.h)];
    JoinedEight(word(x.a), word(x.b), word(x.c), word(x.d), word(x.e), word(x.f), word(x.g), word(x.h));
  }

  lemma JoinedEight(a: string, b: string, c: string, d: string, e: string, f: string, g: string, h: string)
    ensures Joined([a, b, c, d, e, f, g, h]) == a + b + c + d + e + f + g + h
  {
    JoinedFour(a, b, c, d, [e, f, g, h]);
    JoinedFour(e, f, g, h, []);
    assert [a, b, c, d] + [e, f, g, h] == [a, b, c, d, e, f, g, h] && [e, f, g, h] + [] == [e, f, g, h];
    assert a + b + c + d + (e + f + g + h + "") == a + b + c + d + e + f + g + h;
  }

  lemma JoinedFour(a: string, b: string, c: string, d: string, rest: seq<string>)
    ensures Joined([a, b, c, d] + rest) == a + b + c + d + Joined(rest)
  {
    JoinedOne(a, [b, c, d] + rest);
    JoinedOne(b, [c, d] + rest);
    JoinedOne(c, [d] + rest);
    JoinedOne(d, rest);
    assert [a] + ([b, c, d] + rest) == [a, b, c, d] + rest && [b] + ([c, d] + rest) == [b, c, d] + rest && [c] + ([d] + rest) == [c, d] + rest;
    assert a + (b + (c + (d + Joined(rest)))) == a + b + c + d + Joined(rest);
  }

  lemma JoinedOne(a: string, rest: seq<string>)
    ensures Joined([a] + rest) == a + Joined(rest)
  {
    assert ([a] + rest)[1..] == rest;
  }

  function Each<W>(s: seq<W>, word: W -> string): seq<string> {
    seq(|s|, i requires 0 <= i < |s| => word(s[i]))
  }

  lemma EachTells<W>(s: seq<W>, t: seq<W>, word: W -> string)
    requires Each(s, word) == Each(t, word) && forall v, w :: word(v) == word(w) ==> v == w
    ensures s == t
  {
    assert |Each(s, word)| == |Each(t, word)|;
    forall i | 0 <= i < |s| ensures s[i] == t[i] { assert Each(s, word)[i] == Each(t, word)[i]; }
  }

  lemma HexTellsBy<W>(x: Working<W>, y: Working<W>, word: W -> string)
    requires (forall w :: |word(w)| == 8) && (forall v, w :: word(v) == word(w) ==> v == w)
    requires Hex(x, word) == Hex(y, word)
    ensures x == y
  {
    HexIsJoined(x, word);
    HexIsJoined(y, word);
    JoinedTell(Each(WordsOf(x), word), Each(WordsOf(y), word));
    EachTells(WordsOf(x), WordsOf(y), word);
    SameWords(x, y);
  }

  /** The text determines the whole digest, so comparing digests as text is exact. */
  lemma HexTells(x: Working<bv32>, y: Working<bv32>)
    requires Hex(x, HexWord) == Hex(y, HexWord)
    ensures x == y
  {
    forall v, w | HexWord(v) == HexWord(w) ensures v == w { HexWordTells(v, w); }
    HexTellsBy(x, y, HexWord);
  }

  lemma SameWords<W>(x: Working<W>, y: Working<W>)
    requires WordsOf(x) == WordsOf(y)
    ensures x == y
  {
    assert forall i :: 0 <= i < 8 ==> WordsOf(x)[i] == WordsOf(y)[i];
  }

  method HashWith<W>(o: Ops<W>, initial: seq<W>, data: seq<Byte>, word: W -> string) returns (hex: string)
    requires |initial| == 8
    ensures hex == Hex(Digest(o, StateOf(initial), data), word)
  {
    var h := new W[8](i requires 0 <= i < 8 => initial[i]);
    assert h[..] == initial;
    HashBlocks(o, h, data);
    hex := Hex(StateOf(h[..]), word);
  }

  /** For every input the in-place computation gives the hexadecimal digits of
      the hash the standard defines. */
  method Sha256Hex(input: seq<Byte>) returns (hex: string)
    ensures hex == Hex(Sha256Of(input), HexWord)
  {
    var data := Pad(input);
    ProgramIsFips();
    SameDigest(PROGRAM, FIPS, InitialValue(), data);
    hex := HashWith(PROGRAM, seq(8, j requires 0 <= j < 8 => InitialWord(j)), data, HexWord);
  }
}
