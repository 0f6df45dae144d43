/** The text of the capture filter, and what it accepts. */
module Filter {
  import opened Net
  import opened Firewall
  import opened Text
  import opened Numbers
  import opened IpText
  import opened Emulation
  import opened System
  import opened Verdicts

  const HOSTS := "tcp[tcpflags] == tcp-syn" + " and dst host ("
  const PORTS := " and dst port ("

  function AddressTexts(addresses: seq<IpAddress>, lib: Library): seq<string> {
    seq(|addresses|, i requires 0 <= i < |addresses| => Pure(addresses[i].pure, lib))
  }

  function PortTexts(ports: seq<Port>): seq<string> {
    seq(|ports|, i requires 0 <= i < |ports| => Decimal(ports[i]))
  }

  /** `rule_to_listen_on_ips_and_ports` */
  function FilterText(addresses: seq<IpAddress>, ports: seq<Port>, lib: Library): string {
    HOSTS + Join(AddressTexts(addresses, lib), " or ") + ")" + (PORTS + Join(PortTexts(ports), " or ") + ")")
  }

  // ---------------------------------------------------------------------------
  // Reading a filter: alternatives separated by `or` between the two pairs of parentheses

  datatype Side = Source | Destination

  /** `tcp[tcpflags] == flags and hostSide host (...) and portSide port (...)` */
  datatype Compiled = Compiled(flags: bv8, hostSide: Side, hosts: seq<string>, portSide: Side, ports: seq<string>)

  /** There is no empty list of alternatives. */
  function ReadAlternatives(words: seq<string>): Option<seq<string>> {
    if |words| == 1 then Some(words)
    else if |words| >= 3 && words[1] == "or" then
      match ReadAlternatives(words[2..])
      case None => None
      case Some(rest) => Some([words[0]] + rest)
    else None
  }

  /** The names that the filter language has for single TCP flags. */
  function ReadFlags(word: string): Option<bv8> {
    if word == "tcp-fin" then Some(0x01)
    else if word == "tcp-syn" then Some(0x02)
    else if word == "tcp-rst" then Some(0x04)
    else if word == "tcp-push" then Some(0x08)
    else if word == "tcp-ack" then Some(0x10)
    else if word == "tcp-urg" then Some(0x20)
    else None
  }

  function ReadSide(word: string): Option<Side> {
    if word == "src" then Some(Source) else if word == "dst" then Some(Destination) else None
  }

  /** The condition on the flags, and which side the first list is about. */
  function ReadHead(words: seq<string>): Option<(bv8, Side)> {
    if |words| == 6 && words[0] == "tcp[tcpflags]" && words[1] == "==" && words[3] == "and" && words[5] == "host"
       && ReadFlags(words[2]).Some? && ReadSide(words[4]).Some?
    then Some((ReadFlags(words[2]).value, ReadSide(words[4]).value))
    else None
  }

  /** Which side the second list is about; the text starts with a space. */
  function ReadMiddle(words: seq<string>): Option<Side> {
    if |words| == 4 && words[0] == "" && words[1] == "and" && words[3] == "port" then ReadSide(words[2]) else None
  }

  function ReadFilter(text: string): Option<Compiled> {
    var parts := Split(text, ')');
    if |parts| != 2 then None
    else
      var (first, second) := (Split(parts[0], '('), Split(parts[1], '('));
      if |first| != 2 || |second| != 2 then None
      else
        var (head, middle) := (ReadHead(Split(first[0], ' ')), ReadMiddle(Split(second[0], ' ')));
        var (hosts, ports) := (ReadAlternatives(Split(first[1], ' ')), ReadAlternatives(Split(second[1], ' ')));
        if head.Some? && middle.Some? && hosts.Some? && ports.Some?
        then Some(Compiled(head.value.0, head.value.1, hosts.value, middle.value, ports.value))
        else None
  }

  predicate NamesHost(text: string, ip: Ip, lib: Library) {
    ReadAddress(text, lib) == Some(ip)
  }

  predicate NamesPort(text: string, port: Port, lib: Library) {
    StrToUnsigned(text, 65535, lib.noDigits) == Ok(port)
  }

  function HostAt(side: Side, p: Packet): Ip {
    if side.Source? then p.src else p.dst
  }

  function PortAt(side: Side, p: Packet): Port {
    if side.Source? then p.body.sport else p.body.dport
  }

  /** `tcp[...]` holds of IPv4 packets only. */
  ghost predicate Accepts(f: Compiled, p: Packet, lib: Library) {
    && p.dst.family.IPv4? && p.body.TcpSegment? && p.body.flags == f.flags
    && (exists i :: 0 <= i < |f.hosts| && NamesHost(f.hosts[i], HostAt(f.hostSide, p), lib))
    && (exists i :: 0 <= i < |f.ports| && NamesPort(f.ports[i], PortAt(f.portSide, p), lib))
  }

  // ---------------------------------------------------------------------------

  predicate Words(texts: seq<string>) {
    forall i :: 0 <= i < |texts| ==> texts[i] != [] && ' ' !in texts[i] && '(' !in texts[i] && ')' !in texts[i]
  }

  lemma SplitOr(first: string, rest: string)
    requires ' ' !in first
    ensures Split(first + " or " + rest, ' ') == [first, "or"] + Split(rest, ' ')
  {
    assert first + " or " + rest == first + [' '] + ("or" + [' '] + rest);
    SplitHead(first, ' ', "or" + [' '] + rest);
    SplitHead("or", ' ', rest);
    assert [first] + (["or"] + Split(rest, ' ')) == [first, "or"] + Split(rest, ' ');
  }

  lemma ReadStep(first: string, words: seq<string>, rest: seq<string>)
    requires ReadAlternatives(words) == Some(rest)
    ensures ReadAlternatives([first, "or"] + words) == Some([first] + rest)
  {
    var all := [first, "or"] + words;
    assert all[2..] == words && all[0] == first && all[1] == "or" && |all| >= 3;
  }

  /** A list of words is read back unless it is empty. */
  lemma {:induction false} AlternativesRead(texts: seq<string>)
    requires Words(texts)
    ensures ReadAlternatives(Split(Join(texts, " or "), ' ')) == if texts == [] then None else Some(texts)
  {
    if texts == [] {
      assert Split("", ' ') == [];
    } else if |texts| == 1 {
      SplitWhole(texts[0], ' ');
      assert texts == [texts[0]];
    } else {
      var rest := Join(texts[1..], " or ");
      AlternativesRead(texts[1..]);
      SplitOr(texts[0], rest);
      ReadStep(texts[0], Split(rest, ' '), texts[1..]);
      assert texts == [texts[0]] + texts[1..] && Join(texts, " or ") == texts[0] + " or " + rest;
    }
  }

  /** Words with a space behind each. */
  function Spaced(words: seq<string>): string {
    if words == [] then "" else words[0] + " " + Spaced(words[1..])
  }

  lemma {:induction false} SpacedSplits(words: seq<string>)
    requires forall i :: 0 <= i < |words| ==> ' ' !in words[i]
    ensures Split(Spaced(words), ' ') == words
  {
    if words != [] {
      SpacedSplits(words[1..]);
      SplitHead(words[0], ' ', Spaced(words[1..]));
      assert words == [words[0]] + words[1..];
    }
  }

  lemma SpacedCons(word: string, rest: seq<string>)
    ensures Spaced([word] + rest) == word + (" " + Spaced(rest))
  {
    assert ([word] + rest)[1..] == rest;
  }

  lemma SpacedThree(a: string, b: string, c: string, rest: seq<string>)
    ensures Spaced([a, b, c] + rest) == a + (" " + (b + (" " + (c + (" " + Spaced(rest))))))
  {
    SpacedCons(c, rest);
    SpacedCons(b, [c] + rest);
    SpacedCons(a, [b] + ([c] + rest));
    assert [a, b, c] + rest == [a] + ([b] + ([c] + rest));
  }

  /** The words in front of the first list. */
  lemma HeadReads()
    ensures ReadHead(Split("tcp[tcpflags] == tcp-syn" + " and dst host ", ' ')) == Some((0x02, Destination))
  {
    var words := ["tcp[tcpflags]", "==", "tcp-syn"] + ["and", "dst", "host"];
    SpacedThree("tcp[tcpflags]", "==", "tcp-syn", ["and", "dst", "host"]);
    SpacedThree("and", "dst", "host", []);
    assert ["and", "dst", "host"] + [] == ["and", "dst", "host"];
    SpacedSplits(words);
    HeadText();
  }

  lemma HeadText()
    ensures "tcp[tcpflags] == tcp-syn" + " and dst host " ==
            "tcp[tcpflags]" + (" " + ("==" + (" " + ("tcp-syn" + (" " + ("and" + (" " + ("dst" + (" " + ("host" + (" " + "")))))))))))
  {
    var right := "and" + (" " + ("dst" + (" " + ("host" + (" " + "")))));
    assert " and dst host " == " " + right;
    assert "tcp[tcpflags] == tcp-syn" == "tcp[tcpflags]" + " " + "==" + " " + "tcp-syn";
    Nested("tcp[tcpflags]", "==", "tcp-syn", " " + right);
  }

  lemma Nested(a: string, b: string, c: string, rest: string)
    ensures a + " " + b + " " + c + rest == a + (" " + (b + (" " + (c + rest))))
  {
  }

  lemma MiddleReads()
    ensures ReadMiddle(Split(" and dst port ", ' ')) == Some(Destination)
  {
    MiddleText();
    var words := ["and", "dst", "port"];
    SpacedSplits([""] + words);
    assert ([""] + words)[1..] == words;
  }

  lemma MiddleText()
    ensures " and dst port " == Spaced([""] + ["and", "dst", "port"])
  {
    SpacedCons("", ["and", "dst", "port"]);
    SpacedThree("and", "dst", "port", []);
    assert ["and", "dst", "port"] + [] == ["and", "dst", "port"];
    assert " and dst port " == " " + "and" + " " + "dst" + " " + "port" + " ";
    Nested("and", "dst", "port", " ");
  }

  lemma Opens(front: string, list: string)
    requires '(' !in front && '(' !in list
    ensures Split(front + "(" + list, '(') == if list == [] then [front] else [front, list]
  {
    SplitHead(front, '(', list);
    if list != [] { SplitWhole(list, '('); }
  }

  lemma PrefixesClean()
    ensures ')' !in HOSTS && ')' !in PORTS && ')' !in " or " && '(' !in " or "
    ensures HOSTS == "tcp[tcpflags] == tcp-syn" + " and dst host " + "(" && PORTS == " and dst port " + "("
    ensures '(' !in "tcp[tcpflags] == tcp-syn" + " and dst host " && '(' !in " and dst port "
  {
  }

  lemma SplitFilter(hosts: string, ports: string)
    requires ')' !in hosts && ')' !in ports
    ensures Split(HOSTS + hosts + ")" + (PORTS + ports + ")"), ')') == [HOSTS + hosts, PORTS + ports]
  {
    PrefixesClean();
    SplitHead(HOSTS + hosts, ')', PORTS + ports + [')']);
    SplitHead(PORTS + ports, ')', []);
    assert PORTS + ports + [')'] + [] == PORTS + ports + [')'];
  }

  lemma {:induction false} JoinNotEmpty(texts: seq<string>, sep: string)
    requires Words(texts) && texts != []
    ensures Join(texts, sep) != []
  {
  }

  lemma WordListReads(hosts: seq<string>, ports: seq<string>)
    requires Words(hosts) && Words(ports)
    ensures ReadFilter(HOSTS + Join(hosts, " or ") + ")" + (PORTS + Join(ports, " or ") + ")")) ==
            if hosts == [] || ports == [] then None else Some(Compiled(0x02, Destination, hosts, Destination, ports))
  {
    var (h, p) := (Join(hosts, " or "), Join(ports, " or "));
    PrefixesClean();
    JoinLacks(hosts, " or ", ')');
    JoinLacks(ports, " or ", ')');
    JoinLacks(hosts, " or ", '(');
    JoinLacks(ports, " or ", '(');
    SplitFilter(h, p);
    Opens("tcp[tcpflags] == tcp-syn" + " and dst host ", h);
    Opens(" and dst port ", p);
    if hosts != [] && ports != [] {
      JoinNotEmpty(hosts, " or ");
      JoinNotEmpty(ports, " or ");
      HeadReads();
      MiddleReads();
      AlternativesRead(hosts);
      AlternativesRead(ports);
    }
  }

  ghost predicate AllReadable(addresses: seq<IpAddress>, lib: Library) {
    forall i :: 0 <= i < |addresses| ==> Readable(addresses[i].pure, lib)
  }

  lemma NotIpChar(c: char)
    requires c == ' ' || c == '(' || c == ')'
    ensures c !in IP_CHARS
  {
  }

  lemma IpCharsAreWordChars(s: string)
    requires Among(s, IP_CHARS)
    ensures ' ' !in s && '(' !in s && ')' !in s
  {
    NotIpChar(' ');
    NotIpChar('(');
    NotIpChar(')');
  }

  lemma TextsAreWords(addresses: seq<IpAddress>, ports: seq<Port>, lib: Library)
    requires AllReadable(addresses, lib)
    ensures Words(AddressTexts(addresses, lib)) && Words(PortTexts(ports))
  {
    forall i | 0 <= i < |addresses|
      ensures var t := AddressTexts(addresses, lib)[i]; ' ' !in t && '(' !in t && ')' !in t
    {
      IpCharsAreWordChars(Pure(addresses[i].pure, lib));
    }
    forall i | 0 <= i < |ports| ensures var t := PortTexts(ports)[i]; ' ' !in t && '(' !in t && ')' !in t {
      NoneOf(Decimal(ports[i]), ' ');
      NoneOf(Decimal(ports[i]), '(');
      NoneOf(Decimal(ports[i]), ')');
    }
  }

  /**
   * The generated text reads back as a test for SYN alone, for the given addresses and ports as destination, and is no
   * filter if one of the lists is empty.
   */
  lemma FilterTextReads(addresses: seq<IpAddress>, ports: seq<Port>, lib: Library)
    requires AllReadable(addresses, lib)
    ensures ReadFilter(FilterText(addresses, ports, lib)) ==
            if addresses == [] || ports == [] then None
            else Some(Compiled(0x02, Destination, AddressTexts(addresses, lib), Destination, PortTexts(ports)))
  {
    TextsAreWords(addresses, ports, lib);
    WordListReads(AddressTexts(addresses, lib), PortTexts(ports));
  }

  lemma HostNamed(addresses: seq<IpAddress>, i: nat, ip: Ip, lib: Library)
    requires i < |addresses| && Readable(addresses[i].pure, lib)
    ensures NamesHost(AddressTexts(addresses, lib)[i], ip, lib) <==> addresses[i].pure == ip
  {
  }

  lemma PortNamed(ports: seq<Port>, i: nat, port: Port, lib: Library)
    requires i < |ports|
    ensures NamesPort(PortTexts(ports)[i], port, lib) <==> ports[i] == port
  {
    UnsignedRoundTrip(ports[i], 65535, lib.noDigits);
  }

  /** What the generated text accepts is exactly what `FilterAccepts` says. */
  lemma FilterTextMeans(cfg: Config, p: Packet, lib: Library)
    requires AllReadable(cfg.addresses, lib)
    ensures FilterAccepts(cfg, p) <==>
      var f := ReadFilter(FilterText(cfg.addresses, cfg.ports, lib));
      f.Some? && Accepts(f.value, p, lib)
  {
    FilterTextReads(cfg.addresses, cfg.ports, lib);
    forall i | 0 <= i < |cfg.addresses|
      ensures NamesHost(AddressTexts(cfg.addresses, lib)[i], p.dst, lib) <==> cfg.addresses[i].pure == p.dst
    {
      HostNamed(cfg.addresses, i, p.dst, lib);
    }
    forall i | 0 <= i < |cfg.ports|
      ensures NamesPort(PortTexts(cfg.ports)[i], p.body.dport, lib) <==> cfg.ports[i] == p.body.dport
    {
      PortNamed(cfg.ports, i, p.body.dport, lib);
    }
  }

  /** Every packet that the generated filter accepts is one the firewall silently drops. */
  lemma GeneratedFilterIsShielded(k: Kernel, cfgs: seq<Config>, actions: seq<Action>, s: State, i: nat, p: Packet,
                                  others: Foreigners, lib: Library)
    requires DisjointHosts(cfgs) && Run(Start(k, cfgs), actions) == Some(s)
    requires i < |cfgs| == |s.hosts| && s.hosts[i].pc.Capturing? && AllReadable(cfgs[i].addresses, lib)
    requires var f := ReadFilter(FilterText(cfgs[i].addresses, cfgs[i].ports, lib));
      f.Some? && Accepts(f.value, p, lib)
    ensures InputVerdict(s.kernel, p, others) == Some(Dropped)
  {
    FilterTextMeans(cfgs[i], p, lib);
    CapturedIsDropped(k, cfgs, actions, s, i, p, others);
  }
}
