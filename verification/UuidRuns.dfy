/** Ids as text, and ids over whole runs of the generator. */
module UuidRuns {
  import opened Prelude
  import opened Uuid

  // ----- Text

  function HexDigit(d: int): char
    requires 0 <= d < 16
  {
    if d < 10 then '0' + d as char else 'a' + (d - 10) as char
  }

  function Hex(a: seq<Byte>): (r: string)
    ensures |r| == 2 * |a|
  {
    if a == [] then "" else [HexDigit(a[0] / 16), HexDigit(a[0] % 16)] + Hex(a[1..])
  }

  /** `formatUuid`: groups of 4, 2, 2, 2 and 6 bytes. */
  function Format(id: seq<Byte>): (r: string)
    requires |id| == 16
    ensures |r| == 36
  {
    Hex(id[0..4]) + "-" + Hex(id[4..6]) + "-" + Hex(id[6..8]) + "-" + Hex(id[8..10]) + "-" + Hex(id[10..16])
  }

  function Codes(text: string): seq<int> {
    seq(|text|, i requires 0 <= i < |text| => text[i] as int)
  }

  /** JavaScript's `<` on strings of one length. */
  ghost predicate TextBefore(a: string, b: string) { Before(Codes(a), Codes(b)) }

  lemma {:induction false} TextConcat(a: string, b: string, c: string, d: string)
    requires |a| == |b|
    ensures TextBefore(a + c, b + d) <==> TextBefore(a, b) || (a == b && TextBefore(c, d))
  {
    assert Codes(a + c) == Codes(a) + Codes(c) && Codes(b + d) == Codes(b) + Codes(d);
    BeforeConcat(Codes(a), Codes(b), Codes(c), Codes(d));
    if Codes(a) == Codes(b) {
      forall i | 0 <= i < |a| ensures a[i] == b[i] {
        assert Codes(a)[i] == Codes(b)[i];
      }
    }
  }

  lemma {:induction false} PairOrder(x: Byte, y: Byte)
    ensures TextBefore([HexDigit(x / 16), HexDigit(x % 16)], [HexDigit(y / 16), HexDigit(y % 16)]) <==> x < y
  {
    var h, l := [HexDigit(x / 16)], [HexDigit(x % 16)];
    var h', l' := [HexDigit(y / 16)], [HexDigit(y % 16)];
    assert [HexDigit(x / 16), HexDigit(x % 16)] == h + l && [HexDigit(y / 16), HexDigit(y % 16)] == h' + l';
    TextConcat(h, h', l, l');
    assert Codes(h) == [h[0] as int] && Codes(h') == [h'[0] as int] && Codes(l) == [l[0] as int]
        && Codes(l') == [l'[0] as int];
    BeforeOne(h[0] as int, h'[0] as int);
    BeforeOne(l[0] as int, l'[0] as int);
  }

  /** Hexadecimal text is ordered as the bytes. */
  lemma {:induction false} HexOrder(a: seq<Byte>, b: seq<Byte>)
    requires |a| == |b|
    ensures TextBefore(Hex(a), Hex(b)) <==> Before(a, b)
    ensures Hex(a) == Hex(b) <==> a == b
  {
    if a != [] {
      var p, q := [HexDigit(a[0] / 16), HexDigit(a[0] % 16)], [HexDigit(b[0] / 16), HexDigit(b[0] % 16)];
      HexOrder(a[1..], b[1..]);
      PairOrder(a[0], b[0]);
      PairSame(a[0], b[0]);
      TextConcat(p, q, Hex(a[1..]), Hex(b[1..]));
      BeforeConcat([a[0]], [b[0]], a[1..], b[1..]);
      BeforeOne(a[0], b[0]);
      assert a == [a[0]] + a[1..] && b == [b[0]] + b[1..];
      assert Hex(a)[..2] == p && Hex(b)[..2] == q && Hex(a)[2..] == Hex(a[1..]) && Hex(b)[2..] == Hex(b[1..]);
    }
  }

  lemma {:induction false} PairSame(x: Byte, y: Byte)
    ensures [HexDigit(x / 16), HexDigit(x % 16)] == [HexDigit(y / 16), HexDigit(y % 16)] <==> x == y
  {
    var p, q := [HexDigit(x / 16), HexDigit(x % 16)], [HexDigit(y / 16), HexDigit(y % 16)];
    if p == q {
      assert p[0] == q[0] && p[1] == q[1];
    }
  }

  /** One more group in front. */
  lemma {:induction false} GroupOrder(a: seq<Byte>, b: seq<Byte>, c: seq<Byte>, d: seq<Byte>, x: string, y: string)
    requires |a| == |b| && |x| == |y| && (TextBefore(x, y) <==> Before(c, d))
    ensures TextBefore(Hex(a) + "-" + x, Hex(b) + "-" + y) <==> Before(a + c, b + d)
  {
    HexOrder(a, b);
    BeforeConcat(a, b, c, d);
    TextConcat(Hex(a), Hex(b), "-" + x, "-" + y);
    TextConcat("-", "-", x, y);
    DashIsDash();
    assert Hex(a) + "-" + x == Hex(a) + ("-" + x) && Hex(b) + "-" + y == Hex(b) + ("-" + y);
  }

  lemma {:induction false} DashIsDash()
    ensures !TextBefore("-", "-")
  {
  }

  function Tail8(id: seq<Byte>): string requires |id| == 16 { Hex(id[8..10]) + "-" + Hex(id[10..16]) }
  function Tail6(id: seq<Byte>): string requires |id| == 16 { Hex(id[6..8]) + "-" + Tail8(id) }
  function Tail4(id: seq<Byte>): string requires |id| == 16 { Hex(id[4..6]) + "-" + Tail6(id) }

  lemma {:induction false} Cut(id: seq<Byte>, i: nat, j: nat)
    requires i <= j <= |id|
    ensures id[i..j] + id[j..] == id[i..]
  {
  }

  lemma {:induction false} FormatIsTails(id: seq<Byte>)
    requires |id| == 16
    ensures Format(id) == Hex(id[0..4]) + "-" + Tail4(id)
  {
  }

  /** Ids are ordered as text exactly as they are as bytes. */
  lemma {:induction false} FormatOrder(a: seq<Byte>, b: seq<Byte>)
    requires |a| == 16 && |b| == 16
    ensures TextBefore(Format(a), Format(b)) <==> Before(a, b)
  {
    assert a[10..16] == a[10..] && b[10..16] == b[10..];
    HexOrder(a[10..], b[10..]);
    TailOrder(a, b, 8, 10, Hex(a[10..]), Hex(b[10..]));
    TailOrder(a, b, 6, 8, Tail8(a), Tail8(b));
    TailOrder(a, b, 4, 6, Tail6(a), Tail6(b));
    TailOrder(a, b, 0, 4, Tail4(a), Tail4(b));
    assert a[0..] == a && b[0..] == b;
    FormatIsTails(a);
    FormatIsTails(b);
  }

  lemma {:induction false} TailOrder(a: seq<Byte>, b: seq<Byte>, i: nat, j: nat, x: string, y: string)
    requires |a| == 16 && |b| == 16 && i <= j <= 16 && |x| == |y| && (TextBefore(x, y) <==> Before(a[j..], b[j..]))
    ensures TextBefore(Hex(a[i..j]) + "-" + x, Hex(b[i..j]) + "-" + y) <==> Before(a[i..], b[i..])
  {
    Cut(a, i, j);
    Cut(b, i, j);
    GroupOrder(a[i..j], b[i..j], a[j..], b[j..], x, y);
  }

  // ----- Reading text back

  function DigitValue(c: char): Option<int> {
    if '0' <= c <= '9' then Some(c as int - '0' as int)
    else if 'a' <= c <= 'f' then Some(c as int - 'a' as int + 10)
    else None
  }

  lemma {:induction false} DigitBack(d: int)
    requires 0 <= d < 16
    ensures DigitValue(HexDigit(d)) == Some(d) && HexDigit(d) != '-'
  {
  }

  /** The bytes of a text of hexadecimal pairs and dashes. */
  function Parse(text: string): Option<seq<Byte>> {
    if text == "" then Some([])
    else if text[0] == '-' then Parse(text[1..])
    else if |text| < 2 then None
    else
      var h, l, rest := DigitValue(text[0]), DigitValue(text[1]), Parse(text[2..]);
      if h.None? || l.None? || rest.None? || !(0 <= h.value * 16 + l.value < 256) then None
      else Some([h.value * 16 + l.value] + rest.value)
  }

  lemma {:induction false} ParseHex(a: seq<Byte>, text: string, b: seq<Byte>)
    requires Parse(text) == Some(b)
    ensures Parse(Hex(a) + text) == Some(a + b)
  {
    if a == [] {
      assert Hex(a) + text == text && a + b == b;
    } else {
      var all := Hex(a) + text;
      ParseHex(a[1..], text, b);
      DigitBack(a[0] / 16);
      DigitBack(a[0] % 16);
      assert all[0] == HexDigit(a[0] / 16) && all[1] == HexDigit(a[0] % 16) && all[2..] == Hex(a[1..]) + text;
      assert a + b == [a[0]] + (a[1..] + b);
    }
  }

  lemma {:induction false} ParseGroup(a: seq<Byte>, text: string, b: seq<Byte>)
    requires Parse(text) == Some(b)
    ensures Parse(Hex(a) + "-" + text) == Some(a + b)
  {
    var dashed := "-" + text;
    assert dashed[1..] == text;
    ParseHex(a, dashed, b);
    assert Hex(a) + "-" + text == Hex(a) + dashed;
  }

  /** Reading a formatted id gives its bytes back. */
  lemma {:induction false} FormatRoundTrip(id: seq<Byte>)
    requires |id| == 16
    ensures Parse(Format(id)) == Some(id)
  {
    ParseHex(id[10..16], "", []);
    assert Hex(id[10..16]) + "" == Hex(id[10..16]) && id[10..16] + [] == id[10..];
    ParseTail(id, 8, 10, Hex(id[10..16]));
    ParseTail(id, 6, 8, Tail8(id));
    ParseTail(id, 4, 6, Tail6(id));
    ParseTail(id, 0, 4, Tail4(id));
    assert id[0..] == id;
    FormatIsTails(id);
  }

  lemma {:induction false} ParseTail(id: seq<Byte>, i: nat, j: nat, text: string)
    requires i <= j <= |id| && Parse(text) == Some(id[j..])
    ensures Parse(Hex(id[i..j]) + "-" + text) == Some(id[i..])
  {
    ParseGroup(id[i..j], text, id[j..]);
    Cut(id, i, j);
  }

  // ----- The generator

  class UuidGenerator {
    var lastTimestamp: Option<int>
    var sequence: int

    ghost function Now(): Clock reads this { Clock(lastTimestamp, sequence) }

    constructor ()
      ensures Now() == Clock(None, 0)
    {
      lastTimestamp, sequence := None, 0;
    }

    /** `uuidv7`, given the clock's reading and sixteen random bytes. */
    method Next(now: int, random: array<Byte>) returns (text: string)
      requires ClockOk(Now()) && random.Length == 16
      modifies this
      ensures Now() == Tick(old(Now()), now, random[..]) && ClockOk(Now()) && lastTimestamp.Some?
      ensures text == Format(Layout(lastTimestamp.value, sequence, random[..]))
    {
      SeedFits(random[..]);
      if lastTimestamp.None? || now > lastTimestamp.value {
        sequence := ((random[6] as int * 256 + random[7] as int) * 256 + random[8] as int) * 256 + random[9] as int;
        lastTimestamp := Some(now);
      } else {
        sequence := (sequence + 1) % WORD;
        if sequence == 0 { lastTimestamp := Some(lastTimestamp.value + 1); }
      }
      var bytes := FillId(lastTimestamp.value, sequence, random);
      text := Format(bytes[..]);
    }
  }

  /** The sixteen bytes of an id. */
  method FillId(t: int, s: int, random: array<Byte>) returns (bytes: array<Byte>)
    requires random.Length == 16 && 0 <= s < WORD
    ensures fresh(bytes) && bytes[..] == Layout(t, s, random[..])
  {
    bytes := new Byte[16](_ => 0);
    FillStamp(bytes, t);
    FillCount(bytes, s, random);
    FillTail(bytes, random);
    assert bytes[..] == bytes[..6] + bytes[6..11] + bytes[11..];
  }

  method FillStamp(bytes: array<Byte>, t: int)
    requires bytes.Length == 16
    modifies bytes
    ensures bytes[..6] == Stamp(t)
  {
    bytes[0] := LowByte(t, 0x100_0000_0000);
    bytes[1] := LowByte(t, 0x1_0000_0000);
    bytes[2] := LowByte(t, 0x100_0000);
    bytes[3] := LowByte(t, 0x1_0000);
    bytes[4] := LowByte(t, 0x100);
    bytes[5] := LowByte(t, 1);
  }

  method FillCount(bytes: array<Byte>, s: int, random: array<Byte>)
    requires bytes.Length == 16 && random.Length == 16 && bytes != random && 0 <= s < WORD
    modifies bytes
    ensures bytes[..6] == old(bytes[..6]) && bytes[6..11] == Count(s, random[10] % 4)
  {
    bytes[6] := 0x70 + s / 0x1000_0000 % 16;
    bytes[7] := s / 0x10_0000 % 256;
    bytes[8] := 0x80 + s / 0x4000 % 64;
    bytes[9] := s / 0x40 % 256;
    bytes[10] := s % 64 * 4 + random[10] % 4;
  }

  method FillTail(bytes: array<Byte>, random: array<Byte>)
    requires bytes.Length == 16 && random.Length == 16 && bytes != random
    modifies bytes
    ensures bytes[..6] == old(bytes[..6]) && bytes[6..11] == old(bytes[6..11]) && bytes[11..] == random[11..]
  {
    bytes[11] := random[11];
    bytes[12] := random[12];
    bytes[13] := random[13];
    bytes[14] := random[14];
    bytes[15] := random[15];
  }

  // ----- Runs

  /** What one call reads: the clock, and random bytes. */
  datatype Draw = Draw(now: int, random: seq<Byte>)

  ghost predicate DrawsOk(draws: seq<Draw>) { forall d :: d in draws ==> |d.random| == 16 }

  /** The generator after the first `n` calls. */
  ghost function After(c: Clock, draws: seq<Draw>, n: nat): (r: Clock)
    requires ClockOk(c) && DrawsOk(draws) && n <= |draws|
    ensures ClockOk(r) && (n > 0 ==> r.last.Some?)
  {
    if n == 0 then c else
    SeedFits(draws[n - 1].random);
    Tick(After(c, draws, n - 1), draws[n - 1].now, draws[n - 1].random)
  }

  /** The id the `n`-th call returns, as bytes. */
  ghost function Id(c: Clock, draws: seq<Draw>, n: nat): (r: seq<Byte>)
    requires ClockOk(c) && DrawsOk(draws) && n < |draws|
    ensures |r| == 16
  {
    var k := After(c, draws, n + 1);
    Layout(k.last.value, k.sequence, draws[n].random)
  }

  /** Timestamp first, then counter. */
  ghost predicate Later(a: Clock, b: Clock) {
    && b.last.Some?
    && (a.last.None? || a.last.value < b.last.value || (a.last.value == b.last.value && a.sequence < b.sequence))
  }

  /** Every call moves on, whatever the clock reads, also when the counter wraps. */
  lemma {:induction false} TickClimbs(c: Clock, now: int, random: seq<Byte>)
    requires ClockOk(c) && |random| == 16
    ensures Later(c, Tick(c, now, random))
  {
  }

  lemma {:induction false} RunClimbs(c: Clock, draws: seq<Draw>, i: nat, j: nat)
    requires ClockOk(c) && DrawsOk(draws) && i < j <= |draws|
    ensures Later(After(c, draws, i), After(c, draws, j))
    decreases j
  {
    TickClimbs(After(c, draws, j - 1), draws[j - 1].now, draws[j - 1].random);
    if i < j - 1 { RunClimbs(c, draws, i, j - 1); }
  }

  ghost predicate InRange(c: Clock) { c.last.Some? && 0 <= c.last.value < SPAN }

  /**
   * Ids increase over every run, as bytes and as text: for any two calls, whatever the clock did, while
   * the stored timestamp fits its 48 bits.
   */
  lemma {:induction false} IdsIncrease(c: Clock, draws: seq<Draw>, i: nat, j: nat)
    requires ClockOk(c) && DrawsOk(draws) && i < j < |draws|
    requires InRange(After(c, draws, i + 1)) && InRange(After(c, draws, j + 1))
    ensures Before(Id(c, draws, i), Id(c, draws, j))
    ensures TextBefore(Format(Id(c, draws, i)), Format(Id(c, draws, j)))
  {
    RunClimbs(c, draws, i + 1, j + 1);
    LaterIncreases(After(c, draws, i + 1), draws[i].random, After(c, draws, j + 1), draws[j].random);
    FormatOrder(Id(c, draws, i), Id(c, draws, j));
  }

  lemma {:induction false} LaterIncreases(a: Clock, r: seq<Byte>, b: Clock, r': seq<Byte>)
    requires ClockOk(a) && ClockOk(b) && InRange(a) && InRange(b) && Later(a, b) && |r| == 16 && |r'| == 16
    ensures Before(Layout(a.last.value, a.sequence, r), Layout(b.last.value, b.sequence, r'))
  {
    var t, t' := a.last.value, b.last.value;
    LayoutOrder(t, a.sequence, r, t', b.sequence, r');
    Small(t);
    Small(t');
  }

  lemma {:induction false} Small(t: int)
    requires 0 <= t < SPAN
    ensures t % SPAN == t
  {
  }

  /** Each id carries version, variant, stored timestamp and counter, and its text reads back to it. */
  lemma {:induction false} IdsDecode(c: Clock, draws: seq<Draw>, n: nat)
    requires ClockOk(c) && DrawsOk(draws) && n < |draws| && InRange(After(c, draws, n + 1))
    ensures var id, k := Id(c, draws, n), After(c, draws, n + 1);
            Parse(Format(id)) == Some(id) && Carries(id, k.last.value, k.sequence)
  {
    var k := After(c, draws, n + 1);
    FormatRoundTrip(Id(c, draws, n));
    LayoutCarries(k.last.value, k.sequence, draws[n].random);
  }

  /** Version 7, variant 10, timestamp and counter, as section 5.7 of RFC 9562 places them. */
  ghost predicate Carries(id: seq<Byte>, t: int, s: int)
    requires |id| == 16
  {
    Timestamp(id) == t && Counter(id) == s && id[6] / 16 == 7 && id[8] / 64 == 2
  }

  lemma {:induction false} LayoutCarries(t: int, s: int, random: seq<Byte>)
    requires 0 <= t < SPAN && 0 <= s < WORD && |random| == 16
    ensures Carries(Layout(t, s, random), t, s)
  {
    Small(t);
    StampReads(t, s, random);
    CountReads(t, s, random);
    VersionAndVariant(t, s, random);
  }

  /** The stored timestamp runs ahead of the readings by at most one millisecond a call, and never behind one. */
  lemma {:induction false} StoredBound(draws: seq<Draw>, n: nat, high: int)
    requires DrawsOk(draws) && 0 < n <= |draws|
    requires forall d :: d in draws ==> 0 <= d.now <= high
    ensures 0 <= After(Clock(None, 0), draws, n).last.value <= high + n - 1
    ensures draws[n - 1].now <= After(Clock(None, 0), draws, n).last.value
  {
    assert draws[n - 1] in draws;
    if n > 1 { StoredBound(draws, n - 1, high); }
  }

  /** So ids of a new generator increase whenever its readings leave room for the calls. */
  lemma {:induction false} IdsIncreaseFromStart(draws: seq<Draw>, i: nat, j: nat)
    requires DrawsOk(draws) && i < j < |draws|
    requires forall d :: d in draws ==> 0 <= d.now <= SPAN - |draws|
    ensures var c := Clock(None, 0);
            Before(Id(c, draws, i), Id(c, draws, j)) && TextBefore(Format(Id(c, draws, i)), Format(Id(c, draws, j)))
  {
    StoredBound(draws, i + 1, SPAN - |draws|);
    StoredBound(draws, j + 1, SPAN - |draws|);
    IdsIncrease(Clock(None, 0), draws, i, j);
  }

  /**
   * The next call moves the low 48 bits of the timestamp on, or the counter under the same timestamp: a
   * new reading has the greater low bits, an old one finds room in the counter or in the millisecond.
   */
  predicate MovesOn(c: Clock, now: int)
    requires c.last.Some?
  {
    if now > c.last.value then c.last.value % SPAN < now % SPAN
    else c.sequence < WORD - 1 || c.last.value % SPAN < SPAN - 1
  }

  /** A new reading with the old low bits: it lies a multiple of 2^48 milliseconds ahead. */
  predicate JumpsRound(c: Clock, now: int)
    requires c.last.Some?
  {
    now > c.last.value && now % SPAN == c.last.value % SPAN
  }

  /**
   * Beyond 48 bits the order can be lost: two successive ids increase exactly when the reading moves the
   * state on, or jumps round to a greater random counter or rest.
   */
  lemma {:induction false} NextIncreasesIff(c: Clock, r: seq<Byte>, now: int, random: seq<Byte>)
    requires ClockOk(c) && c.last.Some? && 0 <= c.last.value && |r| == 16 && |random| == 16
    ensures var next := Tick(c, now, random);
            && ClockOk(next) && next.last.Some?
            && (Before(Layout(c.last.value, c.sequence, r), Layout(next.last.value, next.sequence, random)) <==>
                MovesOn(c, now)
                || (JumpsRound(c, now)
                    && (c.sequence < Seed(random) || (c.sequence == Seed(random) && TailBefore(r, random)))))
    ensures now < c.last.value + SPAN ==> !JumpsRound(c, now)
  {
    var next := Tick(c, now, random);
    SeedFits(random);
    LayoutOrder(c.last.value, c.sequence, r, next.last.value, next.sequence, random);
    TickOrder(c, now, random, TailBefore(r, random));
  }

  /** The order of the stored states around one call, with `rest` for the order of the random rests. */
  lemma {:induction false} TickOrder(c: Clock, now: int, random: seq<Byte>, rest: bool)
    requires ClockOk(c) && c.last.Some? && 0 <= c.last.value && |random| == 16
    ensures var next := Tick(c, now, random);
            var t, t' := c.last.value % SPAN, next.last.value % SPAN;
            (t < t' || (t == t' && (c.sequence < next.sequence || (c.sequence == next.sequence && rest)))) <==>
            (MovesOn(c, now)
             || (JumpsRound(c, now) && (c.sequence < Seed(random) || (c.sequence == Seed(random) && rest))))
    ensures now < c.last.value + SPAN ==> !JumpsRound(c, now)
  {
    if now > c.last.value { RoundTrip48(c.last.value, now); } else { OneMore(c.last.value); }
  }

  lemma {:induction false} RoundTrip48(t: int, t': int)
    requires 0 <= t < t'
    ensures t' < t + SPAN ==> t % SPAN != t' % SPAN
  {
  }

  lemma {:induction false} OneMore(t: int)
    requires 0 <= t
    ensures if t % SPAN < SPAN - 1 then (t + 1) % SPAN == t % SPAN + 1 else (t + 1) % SPAN == 0
  {
  }

  /** The same for any two successive ids of a generator, in bytes and in text. */
  lemma {:induction false} SuccessorsIncreaseIff(draws: seq<Draw>, n: nat)
    requires DrawsOk(draws) && n + 1 < |draws| && forall d :: d in draws ==> 0 <= d.now
    ensures var c, d, e := After(Clock(None, 0), draws, n + 1), draws[n], draws[n + 1];
            var a, b := Id(Clock(None, 0), draws, n), Id(Clock(None, 0), draws, n + 1);
            && (Before(a, b) <==>
                MovesOn(c, e.now)
                || (JumpsRound(c, e.now)
                    && (c.sequence < Seed(e.random)
                        || (c.sequence == Seed(e.random) && TailBefore(d.random, e.random)))))
            && (Before(a, b) <==> TextBefore(Format(a), Format(b)))
  {
    StoredPositive(draws, n + 1);
    NextIncreasesIff(After(Clock(None, 0), draws, n + 1), draws[n].random, draws[n + 1].now, draws[n + 1].random);
    FormatOrder(Id(Clock(None, 0), draws, n), Id(Clock(None, 0), draws, n + 1));
  }

  lemma {:induction false} StoredPositive(draws: seq<Draw>, n: nat)
    requires DrawsOk(draws) && 0 < n <= |draws| && forall d :: d in draws ==> 0 <= d.now
    ensures 0 <= After(Clock(None, 0), draws, n).last.value
  {
    assert draws[n - 1] in draws;
    if n > 1 { StoredPositive(draws, n - 1); }
  }

  /**
   * A new generator that loses the order with its second id: it is asked in the last millisecond of the 48
   * bits, its random counter starts at the end, and the clock does not move on.
   */
  lemma {:induction false} OverflowGoesBack(first: seq<Byte>, e: Draw)
    requires |first| == 16 && |e.random| == 16 && e.now < SPAN
    requires first[6] == first[7] == first[8] == first[9] == 255
    ensures var draws := [Draw(SPAN - 1, first), e];
            && DrawsOk(draws)
            && After(Clock(None, 0), draws, 1) == Clock(Some(SPAN - 1), WORD - 1)
            && After(Clock(None, 0), draws, 2) == Clock(Some(SPAN), 0)
            && !Before(Id(Clock(None, 0), draws, 0), Id(Clock(None, 0), draws, 1))
  {
    var draws := [Draw(SPAN - 1, first), e];
    assert Seed(first) == WORD - 1;
    assert After(Clock(None, 0), draws, 0) == Clock(None, 0);
    assert After(Clock(None, 0), draws, 1) == Clock(Some(SPAN - 1), WORD - 1);
    LayoutOrder(SPAN - 1, WORD - 1, first, SPAN, 0, e.random);
  }
}
