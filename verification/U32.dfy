/** Compilation of an IPv6 address into the text of an ip6tables `u32` match, and what that text matches. */
module U32 {
  import opened Net
  import opened Text
  import opened Numbers

  // ---------------------------------------------------------------------------
  // Words in host and network order

  datatype ByteOrder = LittleEndian | BigEndian

  type Word = w: int | 0 <= w < 0x1_0000_0000

  /** Four bytes read most significant first, as the `u32` module reads a packet. */
  function NetworkWord(b: Bytes, at: nat): Word
    requires at + 4 <= |b|
  {
    var (b0: int, b1: int, b2: int, b3: int) := (b[at], b[at + 1], b[at + 2], b[at + 3]);
    b0 * 0x100_0000 + b1 * 0x1_0000 + b2 * 0x100 + b3
  }

  /** Four bytes of memory loaded as a `uint32_t`. */
  function Load(order: ByteOrder, b: Bytes, at: nat): Word
    requires at + 4 <= |b|
  {
    if order.BigEndian? then NetworkWord(b, at)
    else
      var (b0: int, b1: int, b2: int, b3: int) := (b[at], b[at + 1], b[at + 2], b[at + 3]);
      b3 * 0x100_0000 + b2 * 0x1_0000 + b1 * 0x100 + b0
  }

  function Htonl(order: ByteOrder, w: Word): Word {
    if order.BigEndian? then w
    else w % 0x100 * 0x100_0000 + w / 0x100 % 0x100 * 0x1_0000 + w / 0x1_0000 % 0x100 * 0x100 + w / 0x100_0000
  }

  lemma Swapped(b0: int, b1: int, b2: int, b3: int, w: int)
    requires 0 <= b0 < 256 && 0 <= b1 < 256 && 0 <= b2 < 256 && 0 <= b3 < 256
    requires w == b3 * 0x100_0000 + b2 * 0x1_0000 + b1 * 0x100 + b0
    ensures w % 0x100 == b0 && w / 0x100 % 0x100 == b1
    ensures w / 0x1_0000 % 0x100 == b2 && w / 0x100_0000 == b3
  {
    assert w / 0x100_0000 == b3;
    assert w / 0x1_0000 == b3 * 0x100 + b2;
    assert w / 0x100 == b3 * 0x1_0000 + b2 * 0x100 + b1;
  }

  /** The host-order load and `htonl` cancel on either host. */
  lemma LoadCancels(order: ByteOrder, b: Bytes, at: nat)
    requires at + 4 <= |b|
    ensures Htonl(order, Load(order, b, at)) == NetworkWord(b, at)
  {
    Swapped(b[at], b[at + 1], b[at + 2], b[at + 3], Load(LittleEndian, b, at));
  }

  lemma NetworkWordInjective(a: Bytes, i: nat, b: Bytes, j: nat)
    requires i + 4 <= |a| && j + 4 <= |b| && NetworkWord(a, i) == NetworkWord(b, j)
    ensures a[i..i + 4] == b[j..j + 4]
  {
    var (a0: int, a1: int, a2: int, a3: int) := (a[i], a[i + 1], a[i + 2], a[i + 3]);
    var (b0: int, b1: int, b2: int, b3: int) := (b[j], b[j + 1], b[j + 2], b[j + 3]);
    assert a0 == b0;
    assert a1 == b1;
    assert a2 == b2;
  }

  // ---------------------------------------------------------------------------
  // Hexadecimal text

  function HexDigit(n: nat): char
    requires n < 16
  {
    if n < 10 then Digit(n) else ('a' as int + (n - 10)) as char
  }

  predicate IsHex(c: char) {
    IsDigit(c) || 'a' <= c <= 'f'
  }

  function HexDigitValue(c: char): nat
    requires IsHex(c)
  {
    if IsDigit(c) then DigitValue(c) else c as int - 'a' as int + 10
  }

  predicate AllHex(s: string) {
    forall i :: 0 <= i < |s| ==> IsHex(s[i])
  }

  /** The last `n` hexadecimal digits of a number; `%08x` is the case of eight. */
  function Hex(v: nat, n: nat): (s: string)
    ensures |s| == n && AllHex(s)
  {
    if n == 0 then [] else Hex(v / 16, n - 1) + [HexDigit(v % 16)]
  }

  function HexValue(s: string): nat
    requires AllHex(s)
  {
    if s == [] then 0 else HexValue(s[..|s| - 1]) * 16 + HexDigitValue(s[|s| - 1])
  }

  function Pow16(n: nat): nat {
    if n == 0 then 1 else 16 * Pow16(n - 1)
  }

  lemma {:induction false} HexRoundTrip(v: nat, n: nat)
    requires v < Pow16(n)
    ensures HexValue(Hex(v, n)) == v
  {
    if n > 0 {
      assert v / 16 < Pow16(n - 1);
      HexRoundTrip(v / 16, n - 1);
      assert Hex(v, n)[..n - 1] == Hex(v / 16, n - 1);
    }
  }

  /** `uint32_t_to_eight_hex_chars` */
  function EightHexChars(order: ByteOrder, w: Word): string {
    Hex(Htonl(order, w), 8)
  }

  // ---------------------------------------------------------------------------
  // The rule text

  const BASE := 48
  const STEP := 4

  function TestText(offset: nat, w: nat): string {
    Decimal(offset) + "=" + ("0x" + Hex(w, 8))
  }

  /** The four tests of an address: each word of the target field in network order. */
  function Tests(b: Bytes): seq<(nat, nat)>
    requires |b| == 16
  {
    [(48, NetworkWord(b, 0)), (52, NetworkWord(b, 4)), (56, NetworkWord(b, 8)), (60, NetworkWord(b, 12))]
  }

  function TestTexts(tests: seq<(nat, nat)>): seq<string> {
    seq(|tests|, i requires 0 <= i < |tests| => TestText(tests[i].0, tests[i].1))
  }

  function RuleText(b: Bytes): string
    requires |b| == 16
  {
    Join(TestTexts(Tests(b)), "&&")
  }

  /** `ipv6_to_u32_rule`: a counter supplies the offsets while the address words are rendered in host order. */
  method Ipv6ToU32Rule(order: ByteOrder, ip: Ip) returns (r: Option<string>)
    requires WellFormed(ip)
    ensures r == if ip.family.IPv6? then Some(" -m u32 --u32 " + RuleText(ip.bytes)) else None
  {
    if ip.family != IPv6 { return None; }
    var pos := 0;
    var texts := [];
    while pos < 4
      invariant 0 <= pos <= 4 && texts == TestTexts(Tests(ip.bytes))[..pos]
    {
      var w := Load(order, ip.bytes, 4 * pos);
      LoadCancels(order, ip.bytes, 4 * pos);
      texts := texts + [Decimal(BASE + STEP * pos) + "=" + ("0x" + EightHexChars(order, w))];
      pos := pos + 1;
    }
    assert TestTexts(Tests(ip.bytes))[..4] == TestTexts(Tests(ip.bytes));
    var rule := JoinLoop(texts, "&&");
    return Some(" -m u32 --u32 " + rule);
  }

  // ---------------------------------------------------------------------------
  // What the text means: offset=value tests joined by &&, all of which have to hold

  function ReadTest(t: string): Option<(nat, nat)> {
    var sides := Split(t, '=');
    if |sides| == 2 && sides[0] != [] && AllDigits(sides[0])
       && |sides[1]| > 2 && sides[1][..2] == "0x" && AllHex(sides[1][2..])
    then Some((Value(sides[0]), HexValue(sides[1][2..])))
    else None
  }

  /** Splitting at single ampersands leaves an empty part between two tests. */
  function ReadTests(parts: seq<string>): Option<seq<(nat, nat)>> {
    if parts == [] then None
    else
      match ReadTest(parts[0])
      case None => None
      case Some(first) =>
        if |parts| == 1 then Some([first])
        else if parts[1] != [] then None
        else
          match ReadTests(parts[2..])
          case None => None
          case Some(rest) => Some([first] + rest)
  }

  function ReadRule(rule: string): Option<seq<(nat, nat)>> {
    ReadTests(Split(rule, '&'))
  }

  predicate Matches(tests: seq<(nat, nat)>, packet: Bytes) {
    forall i :: 0 <= i < |tests| ==> tests[i].0 + 4 <= |packet| && NetworkWord(packet, tests[i].0) == tests[i].1
  }

  lemma TestReads(offset: nat, w: nat)
    requires w < 0x1_0000_0000
    ensures ReadTest(TestText(offset, w)) == Some((offset, w))
    ensures '&' !in TestText(offset, w) && ' ' !in TestText(offset, w) && TestText(offset, w) != []
  {
    var (left, right) := (Decimal(offset), "0x" + Hex(w, 8));
    SplitHead(left, '=', right);
    SplitWhole(right, '=');
    assert right[2..] == Hex(w, 8) && right[..2] == "0x";
    DecimalRoundTrip(offset);
    assert Pow16(8) == 0x1_0000_0000 by { Pow16Eight(); }
    HexRoundTrip(w, 8);
  }

  lemma Pow16Eight()
    ensures Pow16(8) == 0x1_0000_0000
  {
    assert Pow16(2) == 0x100;
    assert Pow16(4) == 0x1_0000;
    assert Pow16(6) == 0x100_0000;
  }

  lemma SplitDouble(first: string, rest: string)
    requires '&' !in first
    ensures Split(first + "&&" + rest, '&') == [first, []] + Split(rest, '&')
  {
    assert first + "&&" + rest == first + ['&'] + ([] + ['&'] + rest);
    SplitHead(first, '&', [] + ['&'] + rest);
    SplitHead([], '&', rest);
    assert [first] + ([[]] + Split(rest, '&')) == [first, []] + Split(rest, '&');
  }

  lemma ReadTestsStep(first: string, test: (nat, nat), parts: seq<string>, tests: seq<(nat, nat)>)
    requires ReadTest(first) == Some(test) && ReadTests(parts) == Some(tests)
    ensures ReadTests([first, []] + parts) == Some([test] + tests)
  {
    assert ([first, []] + parts)[2..] == parts;
  }

  lemma JoinTests(tests: seq<(nat, nat)>)
    requires |tests| > 1
    ensures Join(TestTexts(tests), "&&") == TestText(tests[0].0, tests[0].1) + "&&" + Join(TestTexts(tests[1..]), "&&")
  {
    assert TestTexts(tests)[1..] == TestTexts(tests[1..]);
  }

  /** Reading the text of some tests gives the tests back. */
  lemma {:induction false} RuleReads(tests: seq<(nat, nat)>)
    requires tests != [] && forall i :: 0 <= i < |tests| ==> tests[i].1 < 0x1_0000_0000
    ensures ReadRule(Join(TestTexts(tests), "&&")) == Some(tests)
  {
    var first := TestText(tests[0].0, tests[0].1);
    TestReads(tests[0].0, tests[0].1);
    if |tests| == 1 {
      assert TestTexts(tests) == [first] && tests == [tests[0]];
      SplitWhole(first, '&');
    } else {
      RuleReads(tests[1..]);
      JoinTests(tests);
      var rest := Join(TestTexts(tests[1..]), "&&");
      SplitDouble(first, rest);
      ReadTestsStep(first, tests[0], Split(rest, '&'), tests[1..]);
      assert tests == [tests[0]] + tests[1..];
    }
  }

  // ---------------------------------------------------------------------------
  // Neighbour solicitations

  /** An IPv6 header (section 3 of RFC 8200), then the solicitation of section 4.3 of RFC 4861. */
  function Solicitation(header: Bytes, checksum: Bytes, reserved: Bytes, target: Bytes, options: Bytes): Bytes {
    header + ([135, 0] + checksum + reserved) + target + options
  }

  lemma MatchesTarget(b: Bytes, p: Bytes)
    requires |b| == 16 && |p| >= 64
    ensures Matches(Tests(b), p) <==> p[48..64] == b
  {
    var tests := Tests(b);
    if Matches(tests, p) {
      assert tests[0].0 == 48 && tests[1].0 == 52 && tests[2].0 == 56 && tests[3].0 == 60;
      NetworkWordInjective(p, 48, b, 0);
      NetworkWordInjective(p, 52, b, 4);
      NetworkWordInjective(p, 56, b, 8);
      NetworkWordInjective(p, 60, b, 12);
      assert p[48..64] == p[48..52] + p[52..56] + p[56..60] + p[60..64];
      assert b == b[0..4] + b[4..8] + b[8..12] + b[12..16];
    }
    if p[48..64] == b {
      assert forall i :: 0 <= i < 16 ==> p[48 + i] == p[48..64][i];
    }
  }

  /** The compiled rule matches a solicitation exactly when its target is the guarded address. */
  lemma RuleMatchesIff(b: Bytes, header: Bytes, checksum: Bytes, reserved: Bytes, target: Bytes, options: Bytes)
    requires |b| == 16 && |header| == 40 && |checksum| == 2 && |reserved| == 4 && |target| == 16
    ensures ReadRule(RuleText(b)) == Some(Tests(b))
    ensures Matches(Tests(b), Solicitation(header, checksum, reserved, target, options)) <==> target == b
  {
    RuleReads(Tests(b));
    var p := Solicitation(header, checksum, reserved, target, options);
    MatchesTarget(b, p);
    assert p[48..64] == target;
  }

  /** Different addresses have different rule texts. */
  lemma RuleTextInjective(a: Bytes, b: Bytes)
    requires |a| == 16 && |b| == 16 && RuleText(a) == RuleText(b)
    ensures a == b
  {
    RuleReads(Tests(a));
    RuleReads(Tests(b));
    var p := Solicitation(seq(40, _ => 0), [0, 0], [0, 0, 0, 0], a, []);
    MatchesTarget(a, p);
    MatchesTarget(b, p);
    assert p[48..64] == a;
  }
}
