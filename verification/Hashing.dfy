/** SHA-256 over any words: the definition of FIPS 180-4 and the loops that compute it. Keeping the word
    operations apart leaves the loops to be proved without any reasoning about bits. */
module Hashing {

  newtype byte = x: int | 0 <= x < 256

  const BLOCK: nat := 64
  const DIGEST: nat := 32

  // ---------------------------------------------------------------- padding (section 5.1.1)

  function Zeros(n: nat): (zeros: seq<byte>)
    ensures |zeros| == n
  {
    if n == 0 then [] else Zeros(n - 1) + [0]
  }

  /** The `width` low bytes of `n`, most significant first. */
  function BigEndian(n: nat, width: nat): (bytes: seq<byte>)
    ensures |bytes| == width
  {
    if width == 0 then [] else BigEndian(n / 256, width - 1) + [(n % 256) as byte]
  }

  function Power256(width: nat): nat {
    if width == 0 then 1 else 256 * Power256(width - 1)
  }

  /** The number of zero bytes between the end mark and the length. */
  function ZeroBytes(length: nat): nat {
    (119 - length % BLOCK) % BLOCK
  }

  /** It is the least number that makes the length come out at 448 bits modulo 512. */
  lemma ZeroBytesLeast(length: nat, zeros: nat)
    requires (length + 1 + zeros) % BLOCK == 56
    ensures (length + 1 + ZeroBytes(length)) % BLOCK == 56 && ZeroBytes(length) <= zeros
  {
    var r, q := length % BLOCK, length / BLOCK;
    assert (BLOCK * q + r + 1 + zeros) % BLOCK == (r + 1 + zeros) % BLOCK;
  }

  /** The padded message: end mark, zeros, and the length in bits as 64 bits. */
  function Pad(message: seq<byte>): seq<byte> {
    message + [0x80] + Zeros(ZeroBytes(|message|)) + BigEndian(8 * |message|, 8)
  }

  lemma PadIsBlocks(message: seq<byte>)
    ensures |Pad(message)| % BLOCK == 0 && |message| < |Pad(message)| <= |message| + 72
  {
    ZeroBytesLeast(|message|, ZeroBytes(|message|) + 0);
  }

  function FromBigEndian(bytes: seq<byte>): nat {
    if bytes == [] then 0 else 256 * FromBigEndian(bytes[..|bytes| - 1]) + bytes[|bytes| - 1] as int
  }

  lemma {:induction false} BigEndianRoundTrip(n: nat, width: nat)
    requires n < Power256(width)
    ensures FromBigEndian(BigEndian(n, width)) == n
  {
    if width > 0 {
      BigEndianRoundTrip(n / 256, width - 1);
      assert BigEndian(n, width)[..width - 1] == BigEndian(n / 256, width - 1);
    }
  }

  /** No two messages whose lengths fit in 64 bits are padded alike. */
  lemma PadIsInjective(x: seq<byte>, y: seq<byte>)
    requires 8 * |x| < Power256(8) && 8 * |y| < Power256(8) && Pad(x) == Pad(y)
    ensures x == y
  {
    var n := |Pad(x)|;
    assert Pad(x)[n - 8..] == BigEndian(8 * |x|, 8);
    assert Pad(y)[n - 8..] == BigEndian(8 * |y|, 8);
    BigEndianRoundTrip(8 * |x|, 8);
    BigEndianRoundTrip(8 * |y|, 8);
    assert Pad(x)[..|x|] == x;
    assert Pad(y)[..|y|] == y;
  }

  /** Arithmetic on 64 bits loses nothing that the length field holds. */
  lemma {:induction false} BigEndianWraps(n: nat, q: nat, width: nat)
    ensures Power256(width) * q >= 0 && BigEndian(n + Power256(width) * q, width) == BigEndian(n, width)
  {
    if width > 0 {
      var t := Power256(width - 1) * q;
      BigEndianWraps(n / 256, q, width - 1);
      assert Power256(width) * q == 256 * t;
      assert (n + 256 * t) / 256 == n / 256 + t && (n + 256 * t) % 256 == n % 256;
    }
  }

  const TWO_TO_THE_64: nat := 0x1_0000_0000_0000_0000

  lemma LengthField(bits: nat)
    ensures BigEndian(bits % TWO_TO_THE_64, 8) == BigEndian(bits, 8)
  {
    assert Power256(8) == 256 * (256 * (256 * (256 * (256 * (256 * (256 * (256 * Power256(0))))))));
    BigEndianWraps(bits % TWO_TO_THE_64, bits / TWO_TO_THE_64, 8);
  }

  // ---------------------------------------------------------------- words

  datatype Words<W> = Words(a: W, b: W, c: W, d: W, e: W, f: W, g: W, h: W)

  /** The operations and constants of sections 3.2, 4.1.2, 4.2.2 and 5.3.3; there is one round for each round
      constant. */
  datatype Algebra<!W> = Algebra(
    word: (byte, byte, byte, byte) -> W, bytes: W -> seq<byte>, plus: (W, W) -> W,
    ch: (W, W, W) -> W, maj: (W, W, W) -> W,
    big0: W -> W, big1: W -> W, small0: W -> W, small1: W -> W,
    round: seq<W>, initial: Words<W>)

  /** Four words can be added from either end. */
  ghost predicate AddsBackwards<W>(m: Algebra<W>, x: W, y: W, z: W, u: W) {
    m.plus(m.plus(m.plus(x, y), z), u) == m.plus(m.plus(m.plus(u, z), y), x)
  }

  ghost predicate Valid<W(!new)>(m: Algebra<W>) {
    && |m.round| >= 16
    && (forall w :: |m.bytes(w)| == 4)
    && (forall x, y, z, u :: AddsBackwards(m, x, y, z, u))
  }

  // ---------------------------------------------------------------- hash (section 6.2)

  /** The `t`th word of a block. */
  function Word<W>(m: Algebra<W>, block: seq<byte>, t: nat): W
    requires |block| == BLOCK && t < 16
  {
    m.word(block[4 * t], block[4 * t + 1], block[4 * t + 2], block[4 * t + 3])
  }

  /** The `t`th word of the message schedule. */
  function Schedule<W>(m: Algebra<W>, block: seq<byte>, t: nat): W
    requires |block| == BLOCK
  {
    if t < 16 then
      Word(m, block, t)
    else
      m.plus(m.plus(m.plus(m.small1(Schedule(m, block, t - 2)), Schedule(m, block, t - 7)),
                    m.small0(Schedule(m, block, t - 15))),
             Schedule(m, block, t - 16))
  }

  function Round<W>(m: Algebra<W>, v: Words<W>, k: W, w: W): Words<W> {
    var first := m.plus(m.plus(m.plus(m.plus(v.h, m.big1(v.e)), m.ch(v.e, v.f, v.g)), k), w);
    var second := m.plus(m.big0(v.a), m.maj(v.a, v.b, v.c));
    Words(m.plus(first, second), v.a, v.b, v.c, m.plus(v.d, first), v.e, v.f, v.g)
  }

  /** The working variables after `t` rounds. */
  function Rounds<W>(m: Algebra<W>, v: Words<W>, block: seq<byte>, t: nat): Words<W>
    requires |block| == BLOCK && t <= |m.round|
  {
    if t == 0 then v else Round(m, Rounds(m, v, block, t - 1), m.round[t - 1], Schedule(m, block, t - 1))
  }

  function Plus<W>(m: Algebra<W>, x: Words<W>, y: Words<W>): Words<W> {
    Words(m.plus(x.a, y.a), m.plus(x.b, y.b), m.plus(x.c, y.c), m.plus(x.d, y.d),
          m.plus(x.e, y.e), m.plus(x.f, y.f), m.plus(x.g, y.g), m.plus(x.h, y.h))
  }

  function Block(padded: seq<byte>, i: nat): (block: seq<byte>)
    requires BLOCK * (i + 1) <= |padded|
    ensures |block| == BLOCK
  {
    padded[BLOCK * i..BLOCK * (i + 1)]
  }

  function Compressed<W>(m: Algebra<W>, hash: Words<W>, block: seq<byte>): Words<W>
    requires |block| == BLOCK
  {
    Plus(m, hash, Rounds(m, hash, block, |m.round|))
  }

  /** The hash value after the first `n` blocks. */
  function HashValue<W>(m: Algebra<W>, padded: seq<byte>, n: nat): Words<W>
    requires BLOCK * n <= |padded|
  {
    if n == 0 then m.initial else
      Compressed(m, HashValue(m, padded, n - 1), Block(padded, n - 1))
  }

  function Concatenated<W>(m: Algebra<W>, v: Words<W>): seq<byte> {
    m.bytes(v.a) + m.bytes(v.b) + m.bytes(v.c) + m.bytes(v.d) + m.bytes(v.e) + m.bytes(v.f) + m.bytes(v.g)
        + m.bytes(v.h)
  }

  /** The digest of a message. */
  function Digest<W>(m: Algebra<W>, message: seq<byte>): seq<byte>
  {
    PadIsBlocks(message);
    Concatenated(m, HashValue(m, Pad(message), |Pad(message)| / BLOCK))
  }

  const DIGITS := "0123456789abcdef"

  function Hex(bytes: seq<byte>): (hex: string)
    ensures |hex| == 2 * |bytes|
  {
    if bytes == [] then [] else
      var last := bytes[|bytes| - 1] as int;
      Hex(bytes[..|bytes| - 1]) + [DIGITS[last / 16], DIGITS[last % 16]]
  }

  // ---------------------------------------------------------------- the loops

  method PadBytes(value: seq<byte>) returns (padded: seq<byte>)
    ensures padded == Pad(value)
  {
    var bitLength := 8 * |value| % TWO_TO_THE_64;
    LengthField(8 * |value|);
    padded := value + [0x80];
    padded := AppendZeros(padded);
    assert padded == value + [0x80] + Zeros(ZeroBytes(|value|));
    padded := padded + BigEndian(bitLength, 8);
  }

  method AppendZeros(start: seq<byte>) returns (padded: seq<byte>)
    requires |start| > 0
    ensures padded == start + Zeros(ZeroBytes(|start| - 1))
  {
    padded := start;
    ghost var zeros := 0;
    ZeroBytesLeast(|start| - 1, ZeroBytes(|start| - 1));
    while |padded| % BLOCK != 56
      invariant padded == start + Zeros(zeros) && zeros <= ZeroBytes(|start| - 1)
      decreases ZeroBytes(|start| - 1) - zeros
    {
      padded := padded + [0];
      zeros := zeros + 1;
    }
    ZeroBytesLeast(|start| - 1, zeros);
  }

  ghost predicate Expanded<W(!new)>(m: Algebra<W>, block: seq<byte>, words: seq<W>)
    requires |block| == BLOCK
  {
    forall t {:trigger words[t]} :: 0 <= t < |words| ==> words[t] == Schedule(m, block, t)
  }

  lemma ExpandedGrows<W(!new)>(m: Algebra<W>, block: seq<byte>, words: seq<W>, longer: seq<W>)
    requires |block| == BLOCK && Expanded(m, block, words)
    requires |longer| == |words| + 1 && longer[..|words|] == words && longer[|words|] == Schedule(m, block, |words|)
    ensures Expanded(m, block, longer)
  {
    forall t | 0 <= t < |longer|
      ensures longer[t] == Schedule(m, block, t)
    {
      if t < |words| {
        assert longer[t] == words[t];
      }
    }
  }

  method ExpandSchedule<W(0, !new)>(m: Algebra<W>, block: seq<byte>) returns (words: seq<W>)
    requires Valid(m) && |block| == BLOCK
    ensures |words| == |m.round| && Expanded(m, block, words)
  {
    var schedule := new W[|m.round|];
    LoadBlock(m, block, schedule);
    ExtendSchedule(m, block, schedule, 16);
    words := schedule[..];
  }

  method LoadBlock<W(!new)>(m: Algebra<W>, block: seq<byte>, schedule: array<W>)
    requires |block| == BLOCK && schedule.Length >= 16
    modifies schedule
    ensures Expanded(m, block, schedule[..16])
  {
    for index := 0 to 16
      invariant Expanded(m, block, schedule[..index])
    {
      ghost var before := schedule[..index];
      schedule[index] := Word(m, block, index);
      ExpandedGrows(m, block, before, schedule[..index + 1]);
    }
  }

  method ExtendSchedule<W(!new)>(m: Algebra<W>, block: seq<byte>, schedule: array<W>, loaded: nat)
    requires Valid(m) && |block| == BLOCK && 16 <= loaded <= schedule.Length
    requires Expanded(m, block, schedule[..loaded])
    modifies schedule
    ensures Expanded(m, block, schedule[..])
  {
    for index := loaded to schedule.Length
      invariant Expanded(m, block, schedule[..index])
    {
      ghost var before := schedule[..index];
      var word := NextWord(m, block, schedule, index);
      schedule[index] := word;
      ExpandedGrows(m, block, before, schedule[..index + 1]);
    }
    assert schedule[..schedule.Length] == schedule[..];
  }

  method NextWord<W(!new)>(m: Algebra<W>, block: seq<byte>, schedule: array<W>, index: nat) returns (word: W)
    requires Valid(m) && |block| == BLOCK && 16 <= index <= schedule.Length
    requires Expanded(m, block, schedule[..index])
    ensures word == Schedule(m, block, index)
  {
    ghost var words := schedule[..index];
    assert words[index - 16] == schedule[index - 16] && words[index - 15] == schedule[index - 15];
    assert words[index - 7] == schedule[index - 7] && words[index - 2] == schedule[index - 2];
    var first, second := m.small0(schedule[index - 15]), m.small1(schedule[index - 2]);
    assert AddsBackwards(m, schedule[index - 16], first, schedule[index - 7], second);
    word := m.plus(m.plus(m.plus(schedule[index - 16], first), schedule[index - 7]), second);
  }

  /** One pass of the outer loop. */
  method Compress<W(0, !new)>(m: Algebra<W>, hash: Words<W>, block: seq<byte>) returns (next: Words<W>)
    requires Valid(m) && |block| == BLOCK
    ensures next == Compressed(m, hash, block)
  {
    var schedule := ExpandSchedule(m, block);
    var a, b, c, d, e, f, g, h := hash.a, hash.b, hash.c, hash.d, hash.e, hash.f, hash.g, hash.h;
    for index := 0 to |m.round|
      invariant Words(a, b, c, d, e, f, g, h) == Rounds(m, hash, block, index)
    {
      var choose, majority := m.ch(e, f, g), m.maj(a, b, c);
      var first := m.plus(m.plus(m.plus(m.plus(h, m.big1(e)), choose), m.round[index]), schedule[index]);
      var second := m.plus(m.big0(a), majority);
      h, g, f := g, f, e;
      e := m.plus(d, first);
      d, c, b := c, b, a;
      a := m.plus(first, second);
    }
    next := Plus(m, hash, Words(a, b, c, d, e, f, g, h));
  }

  /** `sha256_prefix` over these words: the leading bytes of the digest, in hexadecimal. */
  method DigestPrefix<W(0, !new)>(m: Algebra<W>, value: seq<byte>, bytes: nat) returns (hex: string)
    requires Valid(m) && bytes <= DIGEST
    ensures |Digest(m, value)| == DIGEST && hex == Hex(Digest(m, value)[..bytes])
  {
    var padded := PadBytes(value);
    PadIsBlocks(value);
    var hash := HashBlocks(m, padded, |padded| / BLOCK);
    hex := HexPrefix(Concatenated(m, hash), bytes);
  }

  method HashBlocks<W(0, !new)>(m: Algebra<W>, padded: seq<byte>, count: nat) returns (hash: Words<W>)
    requires Valid(m) && |padded| == BLOCK * count
    ensures hash == HashValue(m, padded, count)
  {
    hash := m.initial;
    for i := 0 to count
      invariant BLOCK * i <= |padded|
      invariant hash == HashValue(m, padded, i)
    {
      assert BLOCK * (i + 1) <= |padded|;
      hash := HashBlock(m, padded, i, hash);
    }
  }

  /** One block more. */
  method HashBlock<W(0, !new)>(m: Algebra<W>, padded: seq<byte>, i: nat, hash: Words<W>) returns (next: Words<W>)
    requires Valid(m) && BLOCK * (i + 1) <= |padded| && hash == HashValue(m, padded, i)
    ensures next == HashValue(m, padded, i + 1)
  {
    next := Compress(m, hash, Block(padded, i));
  }

  method HexPrefix(digest: seq<byte>, bytes: nat) returns (hex: string)
    requires bytes <= |digest|
    ensures hex == Hex(digest[..bytes])
  {
    hex := "";
    for i := 0 to bytes
      invariant hex == Hex(digest[..i])
    {
      assert digest[..i + 1][..i] == digest[..i];
      hex := hex + [DIGITS[digest[i] as int / 16], DIGITS[digest[i] as int % 16]];
    }
  }

  // ---------------------------------------------------------------- two ways to write the operations

  /** The same operations, perhaps written differently. */
  ghost predicate Agree<W(!new)>(m: Algebra<W>, n: Algebra<W>) {
    && m.round == n.round && m.initial == n.initial && m.bytes == n.bytes && m.word == n.word && m.plus == n.plus
    && (forall x, y, z :: m.ch(x, y, z) == n.ch(x, y, z) && m.maj(x, y, z) == n.maj(x, y, z))
    && (forall x ::
        m.big0(x) == n.big0(x) && m.big1(x) == n.big1(x) && m.small0(x) == n.small0(x) && m.small1(x) == n.small1(x))
  }

  lemma {:induction false} SchedulesAgree<W(!new)>(m: Algebra<W>, n: Algebra<W>, block: seq<byte>, t: nat)
    requires Agree(m, n) && |block| == BLOCK
    ensures Schedule(m, block, t) == Schedule(n, block, t)
  {
    if t >= 16 {
      SchedulesAgree(m, n, block, t - 2);
      SchedulesAgree(m, n, block, t - 7);
      SchedulesAgree(m, n, block, t - 15);
      SchedulesAgree(m, n, block, t - 16);
    }
  }

  lemma {:induction false} RoundsAgree<W(!new)>(m: Algebra<W>, n: Algebra<W>, v: Words<W>, block: seq<byte>, t: nat)
    requires Agree(m, n) && |block| == BLOCK && t <= |m.round|
    ensures Rounds(m, v, block, t) == Rounds(n, v, block, t)
  {
    if t > 0 {
      RoundsAgree(m, n, v, block, t - 1);
      SchedulesAgree(m, n, block, t - 1);
    }
  }

  lemma {:induction false} HashValuesAgree<W(!new)>(m: Algebra<W>, n: Algebra<W>, padded: seq<byte>, count: nat)
    requires Agree(m, n) && BLOCK * count <= |padded|
    ensures HashValue(m, padded, count) == HashValue(n, padded, count)
  {
    if count > 0 {
      HashValuesAgree(m, n, padded, count - 1);
      RoundsAgree(m, n, HashValue(m, padded, count - 1), Block(padded, count - 1), |m.round|);
    }
  }

  lemma DigestsAgree<W(!new)>(m: Algebra<W>, n: Algebra<W>, message: seq<byte>)
    requires Agree(m, n)
    ensures Digest(m, message) == Digest(n, message)
  {
    PadIsBlocks(message);
    HashValuesAgree(m, n, Pad(message), |Pad(message)| / BLOCK);
  }
}
