/** The text form of addresses: `IP_address::pure`, `with_subnet` and `parse_ip`. */
module IpText {
  import opened Net
  import opened Text
  import opened Numbers

  /** The C library: how it prints and reads an IPv6 address, and how it takes a number without digits. */
  datatype Library = Library(ntop: Bytes -> string, pton: string -> Option<Bytes>, noDigits: NoDigits)

  function Dotted(b: Bytes): seq<string> {
    seq(|b|, i requires 0 <= i < |b| => Decimal(b[i]))
  }

  function Print4(b: Bytes): string {
    Join(Dotted(b), ".")
  }

  predicate Octet(s: string) {
    s != [] && AllDigits(s) && Value(s) < 256 && Decimal(Value(s)) == s
  }

  /** `inet_pton(AF_INET, ...)`: four canonical decimal octets with single dots between them. */
  function Read4(s: string): Option<Bytes> {
    var parts := Split(s, '.');
    if |parts| == 4 && Join(parts, ".") == s && (forall i :: 0 <= i < 4 ==> Octet(parts[i]))
    then Some([Value(parts[0]), Value(parts[1]), Value(parts[2]), Value(parts[3])])
    else None
  }

  function Pure(ip: Ip, lib: Library): string {
    if ip.family.IPv4? then Print4(ip.bytes) else lib.ntop(ip.bytes)
  }

  function WithSubnet(a: IpAddress, lib: Library): string {
    Pure(a.pure, lib) + "/" + Decimal(a.subnet)
  }

  const IP_CHARS := DIGITS + "." + "abcdefghijklmnopqrstuvwxyzABCDEF" + ":/%"

  function MaxSubnet(f: Family): nat {
    if f.IPv4? then 32 else 128
  }

  /** `get_af` together with the conversion that follows it */
  function ReadAddress(s: string, lib: Library): Option<Ip> {
    var four := Read4(s);
    if four.Some? then Some(Ip(IPv4, four.value))
    else
      var six := lib.pton(s);
      if six.Some? then Some(Ip(IPv6, six.value)) else None
  }

  /** `get_subnet` */
  function ReadSubnet(f: Family, parts: seq<string>, lib: Library): Converted<nat>
    requires parts != []
  {
    var given := if |parts| > 1 then StrToUnsigned(parts[1], 255, lib.noDigits)
                 else Ok(if f.IPv4? then 24 else if parts[0] == "::1" then 128 else 64);
    if given.Ok? && given.value > MaxSubnet(f) then Refused(InvalidArgument) else given
  }

  predicate SeveralSlashes(s: string) {
    exists i, j :: 0 <= i < j < |s| && s[i] == '/' && s[j] == '/'
  }

  /** `parse_ip` */
  function ParseIp(ip: string, lib: Library): Converted<IpAddress> {
    if ip == [] then Refused(InvalidArgument)
    else if !Among(ip, IP_CHARS) then Refused(RuntimeError)
    else if SeveralSlashes(ip) then Refused(InvalidArgument)
    else
      var zoned := Split(ip, '%');
      if zoned == [] then Refused(OutOfRange)
      else
        var parts := Split(zoned[0], '/');
        if parts == [] then Refused(OutOfRange)
        else
          match ReadAddress(parts[0], lib)
          case None => Refused(RuntimeError)
          case Some(pure) => (
            match ReadSubnet(pure.family, parts, lib)
            case Ok(subnet) => Ok(IpAddress(pure, subnet))
            case Refused(why) => Refused(why))
  }

  // ---------------------------------------------------------------------------
  // Round trips

  lemma NoneOf(s: string, c: char)
    requires AllDigits(s) && !IsDigit(c)
    ensures c !in s
  {
  }

  lemma {:induction false} JoinLacks(parts: seq<string>, sep: string, c: char)
    requires c !in sep && forall i :: 0 <= i < |parts| ==> c !in parts[i]
    ensures c !in Join(parts, sep)
  {
    if |parts| > 1 { JoinLacks(parts[1..], sep, c); }
  }

  lemma {:induction false} JoinAmong(parts: seq<string>, sep: string, valid: string)
    requires Among(sep, valid) && forall i :: 0 <= i < |parts| ==> Among(parts[i], valid)
    ensures Among(Join(parts, sep), valid)
  {
    if |parts| > 1 { JoinAmong(parts[1..], sep, valid); }
  }

  lemma DigitsAreIpChars(s: string)
    requires AllDigits(s)
    ensures Among(s, IP_CHARS)
  {
    DigitsAmong(s);
  }

  /** Reading a printed IPv4 address gives its four bytes back. */
  lemma Print4RoundTrip(b: Bytes)
    requires |b| == 4
    ensures Read4(Print4(b)) == Some(b)
  {
    var parts := Dotted(b);
    forall i | 0 <= i < 4 ensures '.' !in parts[i] && Value(parts[i]) == b[i] && parts[i] != [] {
      DecimalRoundTrip(b[i]);
      NoneOf(parts[i], '.');
    }
    SplitOfJoinIff(parts, '.');
    assert [Value(parts[0]), Value(parts[1]), Value(parts[2]), Value(parts[3])] == b;
  }

  lemma Print4Chars(b: Bytes)
    requires |b| == 4
    ensures Print4(b) != [] && Among(Print4(b), IP_CHARS) && '/' !in Print4(b) && '%' !in Print4(b) && ' ' !in Print4(b)
  {
    var parts := Dotted(b);
    forall i | 0 <= i < 4 ensures Among(parts[i], IP_CHARS) && '/' !in parts[i] && '%' !in parts[i] && ' ' !in parts[i] {
      DigitsAreIpChars(parts[i]);
    }
    assert '.' in ".";
    JoinAmong(parts, ".", IP_CHARS);
    JoinLacks(parts, ".", '/');
    JoinLacks(parts, ".", '%');
    JoinLacks(parts, ".", ' ');
  }

  /** The text of an address that the C library reads back as that address. */
  predicate Readable(ip: Ip, lib: Library) {
    var text := Pure(ip, lib);
    && text != [] && Among(text, IP_CHARS) && '/' !in text && '%' !in text
    && ReadAddress(text, lib) == Some(ip)
  }

  lemma SlashedText(text: string, n: nat)
    requires text != [] && Among(text, IP_CHARS) && '/' !in text && '%' !in text
    ensures var ip := text + "/" + Decimal(n);
      && ip != [] && Among(ip, IP_CHARS) && !SeveralSlashes(ip)
      && Split(ip, '%') == [ip] && Split(ip, '/') == [text, Decimal(n)]
  {
    var digits := Decimal(n);
    var ip := text + "/" + digits;
    DigitsAreIpChars(digits);
    assert '/' in ":/%";
    NoneOf(digits, '/');
    NoneOf(digits, '%');
    assert forall i :: 0 <= i < |ip| && ip[i] == '/' ==> i == |text|;
    SplitWhole(ip, '%');
    SplitHead(text, '/', digits);
    SplitWhole(digits, '/');
  }

  /**
   * Printing an address with a prefix length and parsing it gives both back when the length fits the
   * family, refuses it as an invalid argument when it does not, and as out of range from 256 on.
   */
  lemma AddressRoundTrip(ip: Ip, n: nat, lib: Library)
    requires Readable(ip, lib)
    ensures ParseIp(WithSubnet(IpAddress(ip, n), lib), lib) ==
            if n <= (if ip.family.IPv4? then 32 else 128) then Ok(IpAddress(ip, n)) else Refused(if n < 256 then InvalidArgument else OutOfRange)
  {
    SlashedText(Pure(ip, lib), n);
    UnsignedRoundTrip(n, 255, lib.noDigits);
  }

  /** An address without a slash gets the standard prefix length of its family, or 128 for the IPv6 loopback address. */
  lemma BareAddress(ip: Ip, lib: Library)
    requires Readable(ip, lib)
    ensures ParseIp(Pure(ip, lib), lib) ==
            Ok(IpAddress(ip, if ip.family.IPv4? then 24 else if Pure(ip, lib) == "::1" then 128 else 64))
  {
    SplitWhole(Pure(ip, lib), '%');
    SplitWhole(Pure(ip, lib), '/');
  }

  /** A zone behind a percent sign is ignored. */
  lemma ZoneIsIgnored(ip: Ip, zone: string, lib: Library)
    requires Readable(ip, lib) && Among(zone, IP_CHARS) && '/' !in zone
    ensures ParseIp(Pure(ip, lib) + "%" + zone, lib) == ParseIp(Pure(ip, lib), lib)
  {
    var text := Pure(ip, lib) + "%" + zone;
    assert '%' in ":/%";
    assert Among(text, IP_CHARS) && '/' !in text;
    SplitHead(Pure(ip, lib), '%', zone);
    SplitWhole(Pure(ip, lib), '%');
  }

  /** What is refused before anything is read: no text, characters outside the set, and a second slash. */
  lemma OtherTextIsRefused(s: string, i: nat, j: nat, lib: Library)
    ensures s == [] ==> ParseIp(s, lib) == Refused(InvalidArgument)
    ensures i < |s| && s[i] !in "0123456789.abcdefghijklmnopqrstuvwxyzABCDEF:/%" ==> ParseIp(s, lib) == Refused(RuntimeError)
    ensures i < j < |s| && s[i] == s[j] == '/' ==> ParseIp(s, lib).Refused?
  {
    assert IP_CHARS == "0123456789.abcdefghijklmnopqrstuvwxyzABCDEF:/%";
  }

  /** Every IPv4 address is readable, so the round trip holds for all of them and every length 0..32. */
  lemma Ipv4RoundTrip(b: Bytes, n: nat, lib: Library)
    requires |b| == 4 && n <= 32
    ensures ParseIp(WithSubnet(IpAddress(Ip(IPv4, b), n), lib), lib) == Ok(IpAddress(Ip(IPv4, b), n))
  {
    Print4RoundTrip(b);
    Print4Chars(b);
    AddressRoundTrip(Ip(IPv4, b), n, lib);
  }
}
