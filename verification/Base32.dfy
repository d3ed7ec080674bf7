/** Device ids: the streaming base32 encoder against section 6 of RFC 4648. */
module Base32 {
  import opened Powers
  import opened Wrappers

  newtype Byte = b: int | 0 <= b < 256

  const ALPHABET := "abcdefghijklmnopqrstuvwxyz234567"

  const WORD := 0x1_0000_0000

  // ---------- The encoding as the RFC describes it: a bit string cut into groups of five ----------

  /** The eight bits of a byte, most significant first. */
  function ByteBits(b: Byte): (r: seq<int>)
    ensures |r| == 8 && forall i :: 0 <= i < 8 ==> 0 <= r[i] <= 1
  {
    var n := b as int;
    [n / 128, n / 64 % 2, n / 32 % 2, n / 16 % 2, n / 8 % 2, n / 4 % 2, n / 2 % 2, n % 2]
  }

  function Bits(bytes: seq<Byte>): (r: seq<int>)
    ensures |r| == 8 * |bytes| && forall i :: 0 <= i < |r| ==> 0 <= r[i] <= 1
  {
    if bytes == [] then [] else Bits(bytes[..|bytes| - 1]) + ByteBits(bytes[|bytes| - 1])
  }

  function NumberOf(bits: seq<int>): int {
    if bits == [] then 0 else 2 * NumberOf(bits[..|bits| - 1]) + bits[|bits| - 1]
  }

  predicate AreBits(bits: seq<int>) {
    forall i :: 0 <= i < |bits| ==> 0 <= bits[i] <= 1
  }

  lemma {:induction false} NumberBound(bits: seq<int>)
    requires AreBits(bits)
    ensures 0 <= NumberOf(bits) < Power2(|bits|)
  {
    if bits != [] {
      NumberBound(bits[..|bits| - 1]);
    }
  }

  /** A group of five bits as a letter. */
  function Letter(group: seq<int>): char
    requires AreBits(group) && |group| == 5
  {
    NumberBound(group);
    assert Power2(5) == 32;
    ALPHABET[NumberOf(group)]
  }

  /** The letters of all full groups of five. */
  function Letters(bits: seq<int>): (r: string)
    requires AreBits(bits)
    ensures |r| == |bits| / 5
    decreases |bits|
  {
    if |bits| < 5 then [] else [Letter(bits[..5])] + Letters(bits[5..])
  }

  /** Zero bits up to the next multiple of five. */
  function Padded(bits: seq<int>): (r: seq<int>)
    requires AreBits(bits)
    ensures AreBits(r) && |r| % 5 == 0 && bits <= r && |r| < |bits| + 5
  {
    bits + seq((5 - |bits| % 5) % 5, i => 0)
  }

  function Encoded(bytes: seq<Byte>): (r: string)
    ensures |r| == (8 * |bytes| + 4) / 5
  {
    Letters(Padded(Bits(bytes)))
  }

  // ---------- The streaming encoder ----------

  /** `x << n` on a 32-bit word. */
  function ShiftLeft(x: int, n: nat): int {
    x * Power2(n) % WORD
  }

  /** `x >>> n` on a 32-bit word. */
  function ShiftRight(x: int, n: nat): int {
    x / Power2(n)
  }

  /** The letters emitted cover the first groups of the bits read, and the low `bits` bits of `value` are the rest. */
  ghost predicate Carries(read: seq<int>, out: string, value: int, bits: nat) {
    && AreBits(read) && 5 * |out| + bits == |read|
    && out == Letters(read[..5 * |out|])
    && NumberOf(read[5 * |out|..]) == value % Power2(bits)
  }

  method Base32LowerNoPad(bytes: seq<Byte>) returns (out: string)
    ensures out == Encoded(bytes)
  {
    hide Carries, NumberOf, ByteBits, Letters, Padded;
    StartEmpty();
    var bits: nat := 0;
    var value := 0;
    out := "";
    for i := 0 to |bytes|
      invariant 0 <= value < WORD && bits <= 4
      invariant Carries(Bits(bytes[..i]), out, value, bits)
    {
      ReadByte(Bits(bytes[..i]), out, value, bits, bytes[i]);
      assert bytes[..i + 1][..i] == bytes[..i];
      assert Bits(bytes[..i + 1]) == Bits(bytes[..i]) + ByteBits(bytes[i]);
      value := ShiftLeft(value, 8) + bytes[i] as int;
      bits := bits + 8;
      while bits >= 5
        invariant 0 <= value < WORD && bits <= 12
        invariant Carries(Bits(bytes[..i + 1]), out, value, bits)
      {
        EmitGroup(Bits(bytes[..i + 1]), out, value, bits);
        out := out + [ALPHABET[ShiftRight(value, bits - 5) % 32]];
        bits := bits - 5;
      }
    }
    assert bytes[..|bytes|] == bytes;
    EmitLast(Bits(bytes), out, value, bits);
    if bits > 0 {
      out := out + [ALPHABET[ShiftLeft(value, 5 - bits) % 32]];
    }
  }

  // ---------- Why the loop is right ----------

  lemma StartEmpty()
    ensures Carries(Bits([]), "", 0, 0)
  {
  }

  lemma SmallPowers()
    ensures Power2(0) == 1 && Power2(1) == 2 && Power2(2) == 4 && Power2(3) == 8 && Power2(4) == 16 && Power2(5) == 32
    ensures Power2(6) == 64 && Power2(7) == 128 && Power2(8) == 256 && Power2(9) == 512 && Power2(10) == 1024
    ensures Power2(11) == 2048 && Power2(12) == 4096
  {
    assert Power2(4) == 16 && Power2(8) == 256 && Power2(12) == 4096;
  }

  lemma {:induction false} PowerSum(m: nat, n: nat)
    ensures Power2(m + n) == Power2(m) * Power2(n)
  {
    if n > 0 {
      PowerSum(m, n - 1);
    }
  }

  lemma {:induction false} NumberOfConcat(a: seq<int>, b: seq<int>)
    ensures NumberOf(a + b) == NumberOf(a) * Power2(|b|) + NumberOf(b)
  {
    if b == [] {
      assert a + b == a;
    } else {
      var front := b[..|b| - 1];
      assert (a + b)[..|a + b| - 1] == a + front;
      NumberOfConcat(a, front);
      assert Power2(|b|) == 2 * Power2(|front|);
      assert NumberOf(a) * Power2(|b|) == 2 * (NumberOf(a) * Power2(|front|));
    }
  }

  lemma NumberOfFour(r: seq<int>)
    requires |r| == 4
    ensures NumberOf(r) == 8 * r[0] + 4 * r[1] + 2 * r[2] + r[3]
  {
    assert r[..3][..2] == r[..2] && r[..2][..1] == r[..1] && r[..1][..0] == [];
    assert NumberOf(r[..1]) == r[0];
    assert NumberOf(r[..2]) == 2 * r[0] + r[1];
    assert NumberOf(r[..3]) == 4 * r[0] + 2 * r[1] + r[2];
  }

  lemma NumberOfByte(b: Byte)
    ensures NumberOf(ByteBits(b)) == b as int
  {
    hide NumberOf, Power2;
    var r := ByteBits(b);
    assert r == r[..4] + r[4..];
    NumberOfConcat(r[..4], r[4..]);
    NumberOfFour(r[..4]);
    NumberOfFour(r[4..]);
    SmallPowers();
    ByteSum(b as int);
  }

  lemma ByteSum(n: int)
    requires 0 <= n < 256
    ensures 16 * (8 * (n / 128) + 4 * (n / 64 % 2) + 2 * (n / 32 % 2) + n / 16 % 2)
          + (8 * (n / 8 % 2) + 4 * (n / 4 % 2) + 2 * (n / 2 % 2) + n % 2) == n
  {
    assert n / 4 == n / 2 / 2 && n / 8 == n / 4 / 2 && n / 16 == n / 8 / 2;
    assert n / 32 == n / 16 / 2 && n / 64 == n / 32 / 2 && n / 128 == n / 64 / 2;
  }

  lemma MultiplyMonotone(a: int, b: int, d: int)
    requires a <= b && d >= 0
    ensures a * d <= b * d
  {
    assert b * d == a * d + (b - a) * d;
  }

  lemma CancelLess(a: int, b: int, d: int)
    requires a * d < b * d && d > 0
    ensures a < b
  {
    if b <= a {
      MultiplyMonotone(b, a, d);
    }
  }

  /** Division is determined by its quotient and remainder. */
  lemma Division(x: int, d: int, q: int, r: int)
    requires d > 0 && 0 <= r < d && x == q * d + r
    ensures x / d == q && x % d == r
  {
    var k := x / d;
    assert x == k * d + x % d;
    assert (k + 1) * d == k * d + d && (q + 1) * d == q * d + d;
    CancelLess(k, q + 1, d);
    CancelLess(q, k + 1, d);
  }

  /** `(x * k mod WORD) mod (k * m)`, when `k * m` divides the word, is `(x mod m) * k`. */
  lemma ShiftedMod(x: int, k: int, m: int, w: int, b: int)
    requires x >= 0 && k > 0 && m > 0 && w > 0 && 0 <= b < k && w * (k * m) == WORD
    ensures (x * k % WORD + b) % (k * m) == x % m * k + b
  {
    var q, c := x / m, x % m;
    var over := x * k / WORD;
    assert x == q * m + c;
    assert x * k == q * (k * m) + c * k;
    assert x * k % WORD == x * k - over * WORD;
    assert over * WORD == over * w * (k * m);
    assert x * k % WORD + b == (q - over * w) * (k * m) + (c * k + b);
    assert c * k + b < k * m by {
      assert (c + 1) * k <= m * k;
    }
    Division(x * k % WORD + b, k * m, q - over * w, c * k + b);
  }

  /** Shifting a byte in on a 32-bit word, seen through the bits that matter. */
  lemma ShiftInByte(value: int, bits: nat, b: int)
    requires 0 <= value < WORD && bits <= 4 && 0 <= b < 256
    ensures var next := ShiftLeft(value, 8) + b;
      0 <= next < WORD && next % Power2(bits + 8) == value % Power2(bits) * 256 + b
  {
    SmallPowers();
    PowerSum(8, bits);
    var m := Power2(bits);
    var w := WORD / (256 * m);
    assert w * (256 * m) == WORD by {
      assert m == 1 || m == 2 || m == 4 || m == 8 || m == 16;
    }
    ShiftedMod(value, 256, m, w, b);
    NoCarry(value, b);
  }

  /** The low eight bits of a word shifted left by eight are free, so adding a byte is or-ing it in. */
  lemma NoCarry(value: int, b: int)
    requires 0 <= value && 0 <= b < 256
    ensures 0 <= value * 256 % WORD + b < WORD && value * 256 % WORD % 256 == 0
  {
    var x := value * 256 % WORD;
    assert x == 256 * (value - value * 256 / WORD * 0x100_0000);
  }

  lemma ReadByte(read: seq<int>, out: string, value: int, bits: nat, b: Byte)
    requires Carries(read, out, value, bits) && 0 <= value < WORD && bits <= 4
    ensures var next := ShiftLeft(value, 8) + b as int;
      0 <= next < WORD && Carries(read + ByteBits(b), out, next, bits + 8)
  {
    var n := 5 * |out|;
    assert (read + ByteBits(b))[..n] == read[..n];
    assert (read + ByteBits(b))[n..] == read[n..] + ByteBits(b);
    NumberOfConcat(read[n..], ByteBits(b));
    NumberOfByte(b);
    SmallPowers();
    ShiftInByte(value, bits, b as int);
  }

  lemma {:induction false} LettersAppend(a: seq<int>, group: seq<int>)
    requires AreBits(a) && AreBits(group) && |a| % 5 == 0 && |group| == 5
    ensures Letters(a + group) == Letters(a) + [Letter(group)]
    decreases |a|
  {
    if a == [] {
      assert a + group == group && group[..5] == group;
    } else {
      assert (a + group)[..5] == a[..5] && (a + group)[5..] == a[5..] + group;
      LettersAppend(a[5..], group);
    }
  }

  /** The top five of a number's low bits, and what is below them. */
  lemma TopFive(x: int, d: int)
    requires x >= 0 && d > 0
    ensures x / d % 32 == x % (32 * d) / d
    ensures x % (32 * d) % d == x % d
  {
    var q, r := x / (32 * d), x % (32 * d);
    var t, u := r / d, r % d;
    assert x == q * (32 * d) + r && r == t * d + u;
    assert x == (32 * q + t) * d + u;
    Division(x, d, 32 * q + t, u);
    CancelLess(t, 32, d);
    Division(x / d, 32, q, t);
  }

  lemma EmitGroup(read: seq<int>, out: string, value: int, bits: nat)
    requires Carries(read, out, value, bits) && 0 <= value < WORD && 5 <= bits <= 12
    ensures Carries(read, out + [ALPHABET[ShiftRight(value, bits - 5) % 32]], value, bits - 5)
  {
    hide NumberOf, Power2, Letters;
    var n := 5 * |out|;
    var pending := read[n..];
    var group, rest := pending[..5], pending[5..];
    assert pending == group + rest && read[..n + 5] == read[..n] + group && read[n + 5..] == rest;
    NumberOfConcat(group, rest);
    NumberBound(rest);
    var d := Power2(bits - 5);
    PowerSum(5, bits - 5);
    SmallPowers();
    TopFive(value, d);
    Division(value % Power2(bits), d, NumberOf(group), NumberOf(rest));
    LettersAppend(read[..n], group);
  }

  lemma ZeroNumber(n: nat)
    ensures NumberOf(seq(n, i => 0)) == 0
  {
    if n > 0 {
      var z := seq(n, i => 0);
      assert z[..n - 1] == seq(n - 1, i => 0);
      ZeroNumber(n - 1);
    }
  }

  /** The last, short group is filled up with zero bits. */
  lemma LastShift(value: int, bits: nat)
    requires 0 <= value < WORD && 1 <= bits <= 4
    ensures ShiftLeft(value, 5 - bits) % 32 == value % Power2(bits) * Power2(5 - bits)
  {
    PowerSum(5 - bits, bits);
    SmallPowers();
    ShiftedMod(value, Power2(5 - bits), Power2(bits), 0x800_0000, 0);
  }

  lemma PaddedSplits(read: seq<int>, groups: nat, bits: nat)
    requires AreBits(read) && |read| == 5 * groups + bits && bits <= 4
    ensures AreBits(read[..5 * groups])
    ensures var group := read[5 * groups..] + seq(5 - bits, i => 0);
      && AreBits(group) && |group| == 5
      && Padded(read) == if bits == 0 then read[..5 * groups] else read[..5 * groups] + group
  {
    assert |read| % 5 == bits;
    if bits == 0 {
      assert read[..5 * groups] == read;
    }
  }

  lemma EmitLast(read: seq<int>, out: string, value: int, bits: nat)
    requires Carries(read, out, value, bits) && 0 <= value < WORD && bits <= 4
    ensures Letters(Padded(read)) == if bits == 0 then out else out + [ALPHABET[ShiftLeft(value, 5 - bits) % 32]]
  {
    hide NumberOf, Letters, ShiftLeft, Power2, Padded;
    var n := 5 * |out|;
    PaddedSplits(read, |out|, bits);
    if bits != 0 {
      LettersAppend(read[..n], read[n..] + seq(5 - bits, i => 0));
      LastGroup(read[n..], value, bits);
    }
  }

  lemma LastGroup(rest: seq<int>, value: int, bits: nat)
    requires AreBits(rest) && |rest| == bits && 1 <= bits <= 4
    requires NumberOf(rest) == value % Power2(bits) && 0 <= value < WORD
    ensures var group := rest + seq(5 - bits, i => 0);
      AreBits(group) && |group| == 5 && Letter(group) == ALPHABET[ShiftLeft(value, 5 - bits) % 32]
  {
    hide NumberOf, ShiftLeft, Power2;
    NumberOfConcat(rest, seq(5 - bits, i => 0));
    ZeroNumber(5 - bits);
    LastShift(value, bits);
  }

  // ---------- Decoding ----------

  /** The five bits of a letter's position in the alphabet; None for any other character. */
  function LetterBits(c: char): (r: Option<seq<int>>)
    ensures r.Some? ==> AreBits(r.value) && |r.value| == 5
  {
    var v := if 'a' <= c <= 'z' then c as int - 'a' as int
             else if '2' <= c <= '7' then c as int - '2' as int + 26
             else -1;
    if v < 0 then None else Some([v / 16, v / 8 % 2, v / 4 % 2, v / 2 % 2, v % 2])
  }

  function DecodedBits(s: string): (r: Option<seq<int>>)
    ensures r.Some? ==> AreBits(r.value) && |r.value| == 5 * |s|
  {
    if s == [] then Some([])
    else
      var first, rest := LetterBits(s[0]), DecodedBits(s[1..]);
      if first.None? || rest.None? then None else Some(first.value + rest.value)
  }

  /** The bytes spelled by the full groups of eight; leftover bits are padding. */
  function BytesOf(bits: seq<int>): (r: seq<Byte>)
    requires AreBits(bits)
    ensures |r| == |bits| / 8
    decreases |bits|
  {
    if |bits| < 8 then []
    else
      NumberBound(bits[..8]);
      SmallPowers();
      [NumberOf(bits[..8]) as Byte] + BytesOf(bits[8..])
  }

  function Decoded(s: string): Option<seq<Byte>> {
    var bits := DecodedBits(s);
    if bits.None? then None else Some(BytesOf(bits.value))
  }

  lemma NumberOfFive(group: seq<int>)
    requires AreBits(group) && |group| == 5
    ensures NumberOf(group) == 16 * group[0] + 8 * group[1] + 4 * group[2] + 2 * group[3] + group[4]
  {
    assert group[..4] + [group[4]] == group;
    NumberOfFour(group[..4]);
  }

  lemma SplitFive(a: int, b: int, c: int, d: int, e: int)
    requires 0 <= a <= 1 && 0 <= b <= 1 && 0 <= c <= 1 && 0 <= d <= 1 && 0 <= e <= 1
    ensures var v := 16 * a + 8 * b + 4 * c + 2 * d + e;
      0 <= v < 32 && v / 16 == a && v / 8 % 2 == b && v / 4 % 2 == c && v / 2 % 2 == d && v % 2 == e
  {
  }

  lemma FiveBits(group: seq<int>)
    requires AreBits(group) && |group| == 5
    ensures LetterBits(Letter(group)) == Some(group)
  {
    hide NumberOf;
    NumberOfFive(group);
    SplitFive(group[0], group[1], group[2], group[3], group[4]);
    AlphabetAt(NumberOf(group));
    assert group == [group[0], group[1], group[2], group[3], group[4]];
  }

  lemma AlphabetAt(v: int)
    requires 0 <= v < 32
    ensures ALPHABET[v] as int == if v < 26 then 'a' as int + v else '2' as int + v - 26
  {
  }

  lemma {:induction false} DecodeLetters(bits: seq<int>)
    requires AreBits(bits) && |bits| % 5 == 0
    ensures DecodedBits(Letters(bits)) == Some(bits)
    decreases |bits|
  {
    hide Letter, LetterBits;
    if bits != [] {
      FiveBits(bits[..5]);
      DecodeLetters(bits[5..]);
      assert Letters(bits)[1..] == Letters(bits[5..]);
      assert bits == bits[..5] + bits[5..];
    }
  }

  lemma {:induction false} BytesOfBits(bytes: seq<Byte>, padding: seq<int>)
    requires AreBits(padding) && |padding| < 8
    ensures AreBits(Bits(bytes) + padding) && BytesOf(Bits(bytes) + padding) == bytes
    decreases |bytes|
  {
    hide NumberOf, ByteBits;
    if bytes == [] {
      assert Bits(bytes) + padding == padding;
    } else {
      BitsFirst(bytes);
      var all := Bits(bytes) + padding;
      assert all[..8] == ByteBits(bytes[0]) && all[8..] == Bits(bytes[1..]) + padding;
      NumberOfByte(bytes[0]);
      BytesOfBits(bytes[1..], padding);
    }
  }

  lemma {:induction false} BitsFirst(bytes: seq<Byte>)
    requires bytes != []
    ensures Bits(bytes) == ByteBits(bytes[0]) + Bits(bytes[1..])
  {
    hide ByteBits;
    if |bytes| > 1 {
      var front := bytes[..|bytes| - 1];
      BitsFirst(front);
      assert bytes[1..][..|bytes| - 2] == front[1..];
    } else {
      assert bytes[1..] == [] && bytes[..0] == [];
    }
  }

  /** Decoding an encoding recovers the bytes, whatever their number. */
  lemma DecodeEncode(bytes: seq<Byte>)
    ensures Decoded(Encoded(bytes)) == Some(bytes)
  {
    var bits := Bits(bytes);
    DecodeLetters(Padded(bits));
    BytesOfBits(bytes, seq((5 - |bits| % 5) % 5, i => 0));
  }

  // ---------- Letter by letter ----------

  /** Bit `i` of the bytes, the most significant of each byte first, and zero past their end. */
  function BitAt(bytes: seq<Byte>, i: nat): int {
    if i < 8 * |bytes| then bytes[i / 8] as int / Power2(7 - i % 8) % 2 else 0
  }

  lemma ByteBitsAt(b: Byte, i: nat)
    requires i < 8
    ensures ByteBits(b)[i] == b as int / Power2(7 - i) % 2
  {
    hide Power2;
    SmallPowers();
  }

  lemma {:induction false} BitsAt(bytes: seq<Byte>, i: nat)
    requires i < 8 * |bytes|
    ensures Bits(bytes)[i] == BitAt(bytes, i)
  {
    hide ByteBits;
    var n := |bytes| - 1;
    if i < 8 * n {
      BitsAt(bytes[..n], i);
      assert bytes[..n][i / 8] == bytes[i / 8];
    } else {
      ByteBitsAt(bytes[n], i - 8 * n);
      assert i / 8 == n && i % 8 == i - 8 * n;
    }
  }

  lemma PaddedAt(bytes: seq<Byte>, i: nat)
    requires i < |Padded(Bits(bytes))|
    ensures Padded(Bits(bytes))[i] == BitAt(bytes, i)
  {
    hide Bits, Power2;
    if i < 8 * |bytes| {
      BitsAt(bytes, i);
    }
  }

  lemma {:induction false} LettersAt(bits: seq<int>, k: nat)
    requires AreBits(bits) && k < |bits| / 5
    ensures Letters(bits)[k] == Letter(bits[5 * k..5 * k + 5])
    decreases k
  {
    hide Letter;
    if k > 0 {
      LettersAt(bits[5..], k - 1);
      LaterSlice(bits, 5 * (k - 1));
      assert 5 * (k - 1) + 5 == 5 * k;
    }
  }

  lemma LaterSlice(bits: seq<int>, i: nat)
    requires i + 10 <= |bits|
    ensures bits[5..][i..i + 5] == bits[i + 5..i + 10]
  {
  }

  /** Letter `k` stands for bits 5k to 5k + 4: `a` to `z` for 0 to 25, `2` to `7` for 26 to 31. */
  lemma EncodedAt(bytes: seq<Byte>, k: nat)
    requires k < |Encoded(bytes)|
    ensures var v := 16 * BitAt(bytes, 5 * k) + 8 * BitAt(bytes, 5 * k + 1) + 4 * BitAt(bytes, 5 * k + 2) +
        2 * BitAt(bytes, 5 * k + 3) + BitAt(bytes, 5 * k + 4);
      0 <= v < 32 && Encoded(bytes)[k] as int == if v < 26 then 'a' as int + v else '2' as int + v - 26
  {
    hide Bits, Padded, BitAt, NumberOf, Letters, ALPHABET;
    var bits := Padded(Bits(bytes));
    var group := bits[5 * k..5 * k + 5];
    LettersAt(bits, k);
    forall j | 0 <= j < 5 ensures group[j] == BitAt(bytes, 5 * k + j) {
      PaddedAt(bytes, 5 * k + j);
    }
    NumberOfFive(group);
    AlphabetAt(NumberOf(group));
  }

  // ---------- Device ids ----------

  function DeviceIdFromSha256Digest(digest: seq<Byte>): string {
    "dev_" + Encoded(digest)
  }

  /** Different digests get different device ids, each `dev_` followed by the encoding. */
  lemma DeviceIdsAreInjective(a: seq<Byte>, b: seq<Byte>)
    ensures DeviceIdFromSha256Digest(a) == "dev_" + Encoded(a)
    ensures DeviceIdFromSha256Digest(a) == DeviceIdFromSha256Digest(b) <==> a == b
    ensures |DeviceIdFromSha256Digest(a)| == 4 + (8 * |a| + 4) / 5
  {
    hide Decoded;
    DecodeEncode(a);
    DecodeEncode(b);
    assert |Encoded(a)| == (8 * |a| + 4) / 5;
    assert |DeviceIdFromSha256Digest(a)| == |"dev_"| + |Encoded(a)|;
    assert DeviceIdFromSha256Digest(a)[4..] == Encoded(a) && DeviceIdFromSha256Digest(b)[4..] == Encoded(b);
  }
}
