/**
 * The UUIDv7 generator (packages/agent/src/uuid.ts), after sections 5.7 and 6.2 of RFC 9562: a 48-bit
 * millisecond timestamp, then a 32-bit counter in the bits that follow, split by version and variant.
 */
module Uuid {
  import opened Prelude

  type Byte = x: int | 0 <= x < 256

  const WORD: int := 0x1_0000_0000
  const SPAN: int := 0x1_0000_0000_0000

  // ----- The generator's state

  /** `lastTimestamp`, which starts below every reading, and the counter. */
  datatype Clock = Clock(last: Option<int>, sequence: int)

  /** The four bytes at offset 6, most significant first. */
  function Seed(random: seq<Byte>): int
    requires |random| == 16
  {
    ((random[6] as int * 256 + random[7] as int) * 256 + random[8] as int) * 256 + random[9] as int
  }

  function Tick(c: Clock, now: int, random: seq<Byte>): Clock
    requires |random| == 16
  {
    if c.last.None? || now > c.last.value then Clock(Some(now), Seed(random))
    else
      var next := (c.sequence + 1) % WORD;
      Clock(Some(if next == 0 then c.last.value + 1 else c.last.value), next)
  }

  ghost predicate ClockOk(c: Clock) {
    0 <= c.sequence < WORD
  }

  lemma {:induction false} SeedFits(random: seq<Byte>)
    requires |random| == 16
    ensures 0 <= Seed(random) < WORD
  {
  }

  // ----- The layout

  /** JavaScript's `(t / unit) & 0xff` for integers: the quotient cut towards zero, its low eight bits. */
  function LowByte(t: int, unit: int): Byte
    requires unit > 0
  {
    (if t >= 0 then t / unit else -((-t) / unit)) % 256
  }

  /** The sixteen bytes; disjoint bits are added where the program ors them. */
  function Layout(t: int, s: int, random: seq<Byte>): (r: seq<Byte>)
    requires 0 <= s < WORD && |random| == 16
    ensures |r| == 16
  {
    Stamp(t) + Count(s, random[10] % 4) + random[11..]
  }

  function Stamp(t: int): (r: seq<Byte>)
    ensures |r| == 6
  {
    [LowByte(t, 0x100_0000_0000), LowByte(t, 0x1_0000_0000), LowByte(t, 0x100_0000), LowByte(t, 0x1_0000),
        LowByte(t, 0x100), LowByte(t, 1)]
  }

  function Count(s: int, low: int): (r: seq<Byte>)
    requires 0 <= s < WORD && 0 <= low < 4
    ensures |r| == 5
  {
    [0x70 + s / 0x1000_0000 % 16, s / 0x10_0000 % 256, 0x80 + s / 0x4000 % 64, s / 0x40 % 256, s % 64 * 4 + low]
  }

  // ----- Reading an id back

  function Timestamp(id: seq<Byte>): int
    requires |id| == 16
  {
    ((((id[0] as int * 256 + id[1] as int) * 256 + id[2] as int) * 256 + id[3] as int) * 256 + id[4] as int) * 256
        + id[5] as int
  }

  function Counter(id: seq<Byte>): int
    requires |id| == 16
  {
    (((id[6] as int % 16 * 256 + id[7] as int) * 64 + id[8] as int % 64) * 256 + id[9] as int) * 64 + id[10] as int / 4
  }

  /** Splitting off the lowest digit. */
  lemma {:induction false} LowDigit(n: int, a: int, b: int)
    requires 0 <= n && a > 0 && b > 0
    ensures n / (a * b) == n / a / b && n / a == n / (a * b) * b + n / a % b
  {
    var q := n / a;
    var r := n % a;
    var p := q / b;
    var d := q % b;
    assert n == p * (a * b) + (d * a + r) by { assert (p * b + d) * a == p * (a * b) + d * a; }
    assert 0 <= d * a + r < a * b by { assert (d + 1) * a <= b * a by { Scale(d + 1, b, a); } Scale(0, d, a); }
    Quotient(n, a * b, p, d * a + r);
  }

  lemma {:induction false} Scale(x: int, y: int, a: int)
    requires x <= y && a >= 0
    ensures x * a <= y * a
  {
  }

  lemma {:induction false} Quotient(n: int, m: int, q: int, r: int)
    requires m > 0 && n == q * m + r && 0 <= r < m
    ensures n / m == q
  {
    var k := n / m;
    assert k > q ==> k * m >= q * m + m by { if k > q { Scale(q + 1, k, m); } }
    assert k < q ==> k * m + m <= q * m by { if k < q { Scale(k + 1, q, m); } }
  }

  /** The six bytes spell the timestamp modulo 2^48. */
  lemma {:induction false} StampReads(t: int, s: int, random: seq<Byte>)
    requires 0 <= t && 0 <= s < WORD && |random| == 16
    ensures Timestamp(Layout(t, s, random)) == t % SPAN
  {
    LowDigit(t, 1, 0x100);
    LowDigit(t, 0x100, 0x100);
    LowDigit(t, 0x1_0000, 0x100);
    LowDigit(t, 0x100_0000, 0x100);
    LowDigit(t, 0x1_0000_0000, 0x100);
    LowDigit(t, 0x100_0000_0000, 0x100);
    var id := Layout(t, s, random);
    assert id[..6] == Stamp(t);
    assert id[0] == t / 0x100_0000_0000 % 256 && id[1] == t / 0x1_0000_0000 % 256 && id[2] == t / 0x100_0000 % 256;
    assert id[3] == t / 0x1_0000 % 256 && id[4] == t / 0x100 % 256 && id[5] == t % 256;
    assert t == t / SPAN * SPAN + Timestamp(id);
  }

  lemma {:induction false} CountDigits(s: int)
    requires 0 <= s < WORD
    ensures (((s / 0x1000_0000 % 16 * 256 + s / 0x10_0000 % 256) * 64 + s / 0x4000 % 64) * 256 + s / 0x40 % 256) * 64
        + s % 64 == s
  {
    LowDigit(s, 1, 64);
    LowDigit(s, 0x40, 0x100);
    LowDigit(s, 0x4000, 64);
    LowDigit(s, 0x10_0000, 0x100);
  }

  lemma {:induction false} CountReads(t: int, s: int, random: seq<Byte>)
    requires 0 <= s < WORD && |random| == 16
    ensures Counter(Layout(t, s, random)) == s
  {
    var id, c := Layout(t, s, random), Count(s, random[10] % 4);
    assert id[6] == c[0] && id[7] == c[1] && id[8] == c[2] && id[9] == c[3] && id[10] == c[4];
    assert c[0] % 16 == s / 0x1000_0000 % 16;
    assert c[2] % 64 == s / 0x4000 % 64;
    assert c[4] / 4 == s % 64;
    CountDigits(s);
  }

  /** Version 7 and variant 10, whatever the clock and the random bytes. */
  lemma {:induction false} VersionAndVariant(t: int, s: int, random: seq<Byte>)
    requires 0 <= s < WORD && |random| == 16
    ensures Layout(t, s, random)[6] / 16 == 7 && Layout(t, s, random)[8] / 64 == 2
  {
    var id := Layout(t, s, random);
    assert id[6] == Count(s, random[10] % 4)[0] && id[8] == Count(s, random[10] % 4)[2];
  }

  // ----- Lexicographic order

  ghost predicate FirstLess(a: seq<int>, b: seq<int>, k: nat) {
    k < |a| && k < |b| && a[..k] == b[..k] && a[k] < b[k]
  }

  /** Less at the first place where the two differ; ids are all of one length. */
  ghost predicate Before(a: seq<int>, b: seq<int>) {
    exists k: nat :: FirstLess(a, b, k)
  }

  lemma {:induction false} BeforeConcat(a: seq<int>, b: seq<int>, c: seq<int>, d: seq<int>)
    requires |a| == |b|
    ensures Before(a + c, b + d) <==> Before(a, b) || (a == b && Before(c, d))
  {
    var n := |a|;
    assert (a + c)[..n] == a && (b + d)[..n] == b;
    if k: nat :| FirstLess(a + c, b + d, k) {
      if k < n {
        assert (a + c)[..k] == a[..k] && (b + d)[..k] == b[..k];
        assert FirstLess(a, b, k);
      } else {
        assert a == (a + c)[..k][..n] && b == (b + d)[..k][..n];
        assert (a + c)[..k][n..] == c[..k - n] && (b + d)[..k][n..] == d[..k - n];
        assert FirstLess(c, d, k - n);
      }
    }
    if k: nat :| FirstLess(a, b, k) {
      assert (a + c)[..k] == a[..k] && (b + d)[..k] == b[..k];
      assert FirstLess(a + c, b + d, k);
    }
    if a == b && Before(c, d) {
      var k: nat :| FirstLess(c, d, k);
      assert (a + c)[..n + k] == a + c[..k] && (b + d)[..n + k] == b + d[..k];
      assert FirstLess(a + c, b + d, n + k);
    }
  }

  lemma {:induction false} BeforeOne(x: int, y: int)
    ensures Before([x], [y]) <==> x < y
  {
    if x < y { assert FirstLess([x], [y], 0); }
  }

  /** The number a byte string spells, most significant byte first. */
  function Big(a: seq<Byte>): (r: int)
    ensures r >= 0
  {
    if a == [] then 0 else Big(a[..|a| - 1]) * 256 + a[|a| - 1] as int
  }

  /** Byte strings of one length are ordered as the numbers they spell. */
  lemma {:induction false} BigOrder(a: seq<Byte>, b: seq<Byte>)
    requires |a| == |b|
    ensures Before(a, b) <==> Big(a) < Big(b)
    ensures a == b <==> Big(a) == Big(b)
    decreases |a|
  {
    if a != [] {
      var n := |a| - 1;
      var x, y := a[..n], b[..n];
      assert a == x + [a[n]] && b == y + [b[n]];
      BigOrder(x, y);
      BeforeConcat(x, y, [a[n]], [b[n]]);
      BeforeOne(a[n], b[n]);
    }
  }

  lemma {:induction false} BigStamp(t: int)
    requires 0 <= t
    ensures Big(Stamp(t)) == t % SPAN
  {
    var a := Stamp(t);
    assert a[..5][..4] == a[..4] && a[..4][..3] == a[..3] && a[..3][..2] == a[..2] && a[..2][..1] == a[..1]
        && a[..1][..0] == [];
    assert Big(a[..1]) == a[0];
    assert Big(a[..2]) == a[0] as int * 256 + a[1] as int;
    assert Big(a[..3]) == (a[0] as int * 256 + a[1] as int) * 256 + a[2] as int;
    assert Big(a[..4]) == ((a[0] as int * 256 + a[1] as int) * 256 + a[2] as int) * 256 + a[3] as int;
    assert Big(a[..5]) ==
        (((a[0] as int * 256 + a[1] as int) * 256 + a[2] as int) * 256 + a[3] as int) * 256 + a[4] as int;
    var zeros := seq(16, i => 0);
    StampReads(t, 0, zeros);
    assert Layout(t, 0, zeros)[..6] == a;
  }

  lemma {:induction false} BigCount(a: seq<Byte>)
    requires |a| == 5
    ensures Big(a) == (((a[0] as int * 256 + a[1] as int) * 256 + a[2] as int) * 256 + a[3] as int) * 256 + a[4] as int
  {
    assert a[..4][..3] == a[..3] && a[..3][..2] == a[..2] && a[..2][..1] == a[..1] && a[..1][..0] == [];
    assert Big(a[..1]) == a[0];
    assert Big(a[..2]) == a[0] as int * 256 + a[1] as int;
    assert Big(a[..3]) == (a[0] as int * 256 + a[1] as int) * 256 + a[2] as int;
    assert Big(a[..4]) == ((a[0] as int * 256 + a[1] as int) * 256 + a[2] as int) * 256 + a[3] as int;
  }

  /** Digits of a smaller counter are lexicographically smaller, so the tagged bytes spell a smaller number. */
  lemma {:induction false} DigitsClimb(p: seq<int>, q: seq<int>, low: int, high: int)
    requires |p| == 5 && |q| == 5 && 0 <= low < 4 && 0 <= high < 4
    requires 0 <= p[0] < 16 && 0 <= p[1] < 256 && 0 <= p[2] < 64 && 0 <= p[3] < 256 && 0 <= p[4] < 64
    requires 0 <= q[0] < 16 && 0 <= q[1] < 256 && 0 <= q[2] < 64 && 0 <= q[3] < 256 && 0 <= q[4] < 64
    requires (((p[0] * 256 + p[1]) * 64 + p[2]) * 256 + p[3]) * 64
        + p[4] < (((q[0] * 256 + q[1]) * 64 + q[2]) * 256 + q[3]) * 64 + q[4]
    ensures ((((0x70 + p[0]) * 256 + p[1]) * 256 + 0x80 + p[2]) * 256 + p[3]) * 256 + p[4] * 4 + low
          < ((((0x70 + q[0]) * 256 + q[1]) * 256 + 0x80 + q[2]) * 256 + q[3]) * 256 + q[4] * 4 + high
  {
    assert p[0] <= q[0];
    assert p[0] == q[0] ==> p[1] <= q[1];
    assert p[0] == q[0] && p[1] == q[1] ==> p[2] <= q[2];
  }

  function Digits(s: int): seq<int>
    requires 0 <= s < WORD
  {
    [s / 0x1000_0000 % 16, s / 0x10_0000 % 256, s / 0x4000 % 64, s / 0x40 % 256, s % 64]
  }

  lemma {:induction false} CountClimbs(s: int, s': int, low: int, high: int)
    requires 0 <= s < s' < WORD && 0 <= low < 4 && 0 <= high < 4
    ensures Big(Count(s, low)) < Big(Count(s', high))
  {
    CountDigits(s);
    CountDigits(s');
    DigitsClimb(Digits(s), Digits(s'), low, high);
    BigCount(Count(s, low));
    BigCount(Count(s', high));
  }

  lemma {:induction false} CountOrder(s: int, s': int, low: int, high: int)
    requires 0 <= s < WORD && 0 <= s' < WORD && 0 <= low < 4 && 0 <= high < 4
    ensures Before(Count(s, low), Count(s', high)) <==> s < s' || (s == s' && low < high)
    ensures Count(s, low) == Count(s', high) <==> s == s' && low == high
  {
    BigOrder(Count(s, low), Count(s', high));
    if s < s' { CountClimbs(s, s', low, high); }
    if s' < s { CountClimbs(s', s, high, low); }
    if s == s' {
      BigCount(Count(s, low));
      BigCount(Count(s', high));
    }
  }

  /** What breaks a tie: the two lowest bits of byte 10 and the bytes after it. */
  ghost predicate TailBefore(r: seq<Byte>, r': seq<Byte>)
    requires |r| == 16 && |r'| == 16
  {
    r[10] % 4 < r'[10] % 4 || (r[10] % 4 == r'[10] % 4 && Before(r[11..], r'[11..]))
  }

  /** The order of two ids, exactly: timestamp modulo 2^48, then counter, then the random rest. */
  lemma {:induction false} LayoutOrder(t: int, s: int, r: seq<Byte>, t': int, s': int, r': seq<Byte>)
    requires 0 <= t && 0 <= s < WORD && |r| == 16 && 0 <= t' && 0 <= s' < WORD && |r'| == 16
    ensures Before(Layout(t, s, r), Layout(t', s', r')) <==>
            t % SPAN < t' % SPAN || (t % SPAN == t' % SPAN && (s < s' || (s == s' && TailBefore(r, r'))))
  {
    var c, c' := Count(s, r[10] % 4), Count(s', r'[10] % 4);
    assert Layout(t, s, r) == Stamp(t) + (c + r[11..]);
    assert Layout(t', s', r') == Stamp(t') + (c' + r'[11..]);
    BeforeConcat(Stamp(t), Stamp(t'), c + r[11..], c' + r'[11..]);
    BeforeConcat(c, c', r[11..], r'[11..]);
    BigOrder(Stamp(t), Stamp(t'));
    BigStamp(t);
    BigStamp(t');
    CountOrder(s, s', r[10] % 4, r'[10] % 4);
  }
}
