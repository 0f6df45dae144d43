/** What the commands do: reading iptables and ip command lines, and their effect on the kernel tables. */
module Execution {
  import opened Net
  import opened Firewall
  import opened Text
  import opened Numbers
  import opened IpText
  import opened U32
  import opened Commands
  import opened Emulation
  import opened Verdicts

  // ---------------------------------------------------------------------------
  // Reading a command line

  /** The match options and the target of an iptables command; "" is an option that is not given. */
  datatype Spec = Spec(dst: string, src: string, protocol: string, syn: bool, dport: string,
                       icmpType: string, icmp6Type: string, u32: string, target: string)

  const ANYTHING := Spec("", "", "", false, "", "", "", "", "")

  function TakeOption(spec: Spec, name: string, value: string): Option<Spec> {
    if name == "-d" then Some(spec.(dst := value))
    else if name == "-s" then Some(spec.(src := value))
    else if name == "-p" then Some(spec.(protocol := value))
    else if name == "--dport" then Some(spec.(dport := value))
    else if name == "--icmp-type" then Some(spec.(icmpType := value))
    else if name == "--icmpv6-type" then Some(spec.(icmp6Type := value))
    else if name == "-m" && value == "u32" then Some(spec)
    else if name == "--u32" then Some(spec.(u32 := value))
    else if name == "-j" then Some(spec.(target := value))
    else None
  }

  function ReadOptions(args: seq<string>, spec: Spec): Option<Spec> {
    if args == [] then Some(spec)
    else if args[0] == "--syn" then ReadOptions(args[1..], spec.(syn := true))
    else if |args| == 1 then None
    else
      match TakeOption(spec, args[0], args[1])
      case None => None
      case Some(next) => ReadOptions(args[2..], next)
  }

  predicate IsPort(text: string) {
    text != [] && AllDigits(text) && Value(text) < 65536
  }

  /** The address whose words are tested at the target field of a neighbour solicitation. */
  function TestedTarget(rule: string): Option<Bytes> {
    match ReadRule(rule)
    case None => None
    case Some(t) =>
      if |t| == 4 && t[0].0 == 48 && t[1].0 == 52 && t[2].0 == 56 && t[3].0 == 60
         && forall i :: 0 <= i < 4 ==> t[i].1 < 0x1_0000_0000
      then Some(WordBytes(t[0].1) + WordBytes(t[1].1) + WordBytes(t[2].1) + WordBytes(t[3].1))
      else None
  }

  function WordBytes(w: Word): Bytes {
    [w / 0x100_0000, w / 0x1_0000 % 0x100, w / 0x100 % 0x100, w % 0x100]
  }

  /** The rule that a specification for a chain describes, if it is one of the kinds that the guards use. */
  function RuleMeant(c: Chain, s: Spec, lib: Library): Option<Rule> {
    var plain := s.src == "" && s.icmpType == "" && s.icmp6Type == "" && s.u32 == "";
    var dst := ReadAddress(s.dst, lib);
    var sameFamily := s.dst != "" && dst.Some? && dst.value.family == c.family;
    var (icmp, icmpType, otherType) :=
      if c.family.IPv4? then ("icmp", s.icmpType, s.icmp6Type) else ("icmpv6", s.icmp6Type, s.icmpType);
    if c.hook.Input? && plain && sameFamily && s.protocol == "tcp" && s.syn && IsPort(s.dport) && s.target == "DROP" then
      Some(DropSyn(dst.value, Value(s.dport)))
    else if c.hook.Input? && plain && sameFamily && s.protocol == "tcp" && !s.syn && s.dport == "" && s.target == "REJECT" then
      Some(Reject(dst.value, Tcp))
    else if c.hook.Input? && plain && sameFamily && s.protocol == "udp" && !s.syn && s.dport == "" && s.target == "REJECT" then
      Some(Reject(dst.value, Udp))
    else if c.hook.Output? && s.src == "" && otherType == "" && s.u32 == "" && sameFamily && s.protocol == icmp && !s.syn
            && s.dport == "" && icmpType == "destination-unreachable" && s.target == "DROP" then
      Some(DropUnreachable(dst.value))
    else if c == Chain(IPv6, Input) && s.dst == "" && s.src == "::" && s.protocol == "icmpv6" && !s.syn && s.dport == ""
            && s.icmpType == "" && s.icmp6Type == "neighbour-solicitation" && s.target == "DROP" && TestedTarget(s.u32).Some? then
      Some(DropSolicitation(Ip(IPv6, TestedTarget(s.u32).value)))
    else None
  }

  datatype Instruction =
    | OnTable(insert: bool, chain: Chain, rule: Rule)
    | OnInterface(add: bool, iface: string, addr: IpAddress)

  function ReadProgram(word: string): Option<Family> {
    if word == "iptables" then Some(IPv4) else if word == "ip6tables" then Some(IPv6) else None
  }

  function ReadHook(word: string): Option<Hook> {
    if word == "INPUT" then Some(Input) else if word == "OUTPUT" then Some(Output) else None
  }

  /** Whether something is put in place or taken away. */
  function ReadVerb(word: string, put: string, take: string): Option<bool> {
    if word == put then Some(true) else if word == take then Some(false) else None
  }

  /** `-w` waits for the lock that makes the command atomic. */
  function ReadTables(args: seq<string>, lib: Library): Option<Instruction> {
    if |args| < 4 || args[1] != "-w" then None
    else
      var (family, verb, hook) := (ReadProgram(args[0]), ReadVerb(args[2], "-I", "-D"), ReadHook(args[3]));
      var spec := ReadOptions(args[4..], ANYTHING);
      if family.None? || verb.None? || hook.None? || spec.None? then None
      else
        var chain := Chain(family.value, hook.value);
        match RuleMeant(chain, spec.value, lib)
        case None => None
        case Some(rule) => Some(OnTable(verb.value, chain, rule))
  }

  /** An address and its prefix length with a slash between them */
  function ReadPrefixed(text: string, lib: Library): Option<IpAddress> {
    var parts := Split(text, '/');
    if |parts| == 2 && ReadAddress(parts[0], lib).Some? && parts[1] != [] && AllDigits(parts[1])
    then Some(IpAddress(ReadAddress(parts[0], lib).value, Value(parts[1])))
    else None
  }

  function ReadInterface(args: seq<string>, lib: Library): Option<Instruction> {
    if |args| != 6 || args[0] != "ip" || args[1] != "addr" || args[4] != "dev" then None
    else
      var (verb, addr) := (ReadVerb(args[2], "add", "del"), ReadPrefixed(args[3], lib));
      if verb.None? || addr.None? then None else Some(OnInterface(verb.value, args[5], addr.value))
  }

  function ReadCommand(args: seq<string>, lib: Library): Option<Instruction> {
    if args != [] && args[0] == "ip" then ReadInterface(args, lib) else ReadTables(args, lib)
  }

  /** Insertion is at the head, deletion of the first equal rule; `None` is a command that fails. */
  function Perform(i: Instruction, k: Kernel): Option<Kernel> {
    match i
    case OnTable(true, c, r) => Some(k.WithRules(c, [r] + k.Rules(c)))
    case OnTable(false, c, r) => if r in k.Rules(c) then Some(k.WithRules(c, RemoveFirst(k.Rules(c), r))) else None
    case OnInterface(true, iface, a) => if (iface, a) in k.links then None else Some(k.(links := k.links + {(iface, a)}))
    case OnInterface(false, iface, a) => if (iface, a) in k.links then Some(k.(links := k.links - {(iface, a)})) else None
  }

  /** `take_action` up to the spawned program: the text is split at spaces and run. */
  function TakeAction(text: string, k: Kernel, lib: Library): Option<Kernel> {
    match ReadCommand(Split(text, ' '), lib)
    case None => None
    case Some(i) => Perform(i, k)
  }

  // ---------------------------------------------------------------------------
  // The options of every kind of rule

  lemma OptionStep(name: string, value: string, rest: seq<string>, spec: Spec, next: Spec)
    requires name != "--syn" && TakeOption(spec, name, value) == Some(next)
    ensures ReadOptions([name, value] + rest, spec) == ReadOptions(rest, next)
  {
    var args := [name, value] + rest;
    assert args[2..] == rest;
  }

  lemma SynStep(rest: seq<string>, spec: Spec)
    ensures ReadOptions(["--syn"] + rest, spec) == ReadOptions(rest, spec.(syn := true))
  {
    assert (["--syn"] + rest)[1..] == rest;
  }

  lemma DropOptions(dst: string, port: string)
    ensures ReadOptions(["-d", dst, "-p", "tcp", "--syn", "--dport", port, "-j", "DROP"], ANYTHING) ==
            Some(ANYTHING.(dst := dst, protocol := "tcp", syn := true, dport := port, target := "DROP"))
  {
    var s1 := ANYTHING.(dst := dst);
    var s2 := s1.(protocol := "tcp");
    var s3 := s2.(syn := true);
    var s4 := s3.(dport := port);
    var a4 := ["-j", "DROP"];
    var a3 := ["--dport", port] + a4;
    var a2 := ["--syn"] + a3;
    var a1 := ["-p", "tcp"] + a2;
    OptionStep("-d", dst, a1, ANYTHING, s1);
    OptionStep("-p", "tcp", a2, s1, s2);
    SynStep(a3, s2);
    OptionStep("--dport", port, a4, s3, s4);
    OptionStep("-j", "DROP", [], s4, s4.(target := "DROP"));
    assert a4 + [] == a4;
    assert ["-d", dst] + a1 == ["-d", dst, "-p", "tcp", "--syn", "--dport", port, "-j", "DROP"];
  }

  lemma RejectOptions(dst: string, protocol: string)
    ensures ReadOptions(["-d", dst, "-p", protocol, "-j", "REJECT"], ANYTHING) ==
            Some(ANYTHING.(dst := dst, protocol := protocol, target := "REJECT"))
  {
    var s1 := ANYTHING.(dst := dst);
    var s2 := s1.(protocol := protocol);
    var a2 := ["-j", "REJECT"];
    var a1 := ["-p", protocol] + a2;
    OptionStep("-d", dst, a1, ANYTHING, s1);
    OptionStep("-p", protocol, a2, s1, s2);
    OptionStep("-j", "REJECT", [], s2, s2.(target := "REJECT"));
    assert a2 + [] == a2;
    assert ["-d", dst] + a1 == ["-d", dst, "-p", protocol, "-j", "REJECT"];
  }

  function IcmpSpec(f: Family, dst: string): Spec {
    var s := ANYTHING.(dst := dst, target := "DROP");
    if f.IPv4? then s.(protocol := "icmp", icmpType := "destination-unreachable")
    else s.(protocol := "icmpv6", icmp6Type := "destination-unreachable")
  }

  lemma IcmpOptionName(f: Family)
    ensures "--" + Icmp(f) + "-type" == if f.IPv4? then "--icmp-type" else "--icmpv6-type"
  {
  }

  lemma IcmpOptions(f: Family, dst: string)
    ensures ReadOptions(["-d", dst, "-p", Icmp(f), "--" + Icmp(f) + "-type", "destination-unreachable", "-j", "DROP"], ANYTHING) ==
            Some(IcmpSpec(f, dst))
  {
    IcmpOptionName(f);
    var option := "--" + Icmp(f) + "-type";
    var s1 := ANYTHING.(dst := dst);
    var s2 := s1.(protocol := Icmp(f));
    var s3 := if f.IPv4? then s2.(icmpType := "destination-unreachable") else s2.(icmp6Type := "destination-unreachable");
    var a3 := ["-j", "DROP"];
    var a2 := [option, "destination-unreachable"] + a3;
    var a1 := ["-p", Icmp(f)] + a2;
    OptionStep("-d", dst, a1, ANYTHING, s1);
    OptionStep("-p", Icmp(f), a2, s1, s2);
    OptionStep(option, "destination-unreachable", a3, s2, s3);
    OptionStep("-j", "DROP", [], s3, s3.(target := "DROP"));
    assert a3 + [] == a3;
    assert ["-d", dst] + a1 == ["-d", dst, "-p", Icmp(f), option, "destination-unreachable", "-j", "DROP"];
  }

  lemma SolicitationOptions(rule: string)
    ensures ReadOptions(["-s", "::", "-p", "icmpv6", "--icmpv6-type", "neighbour-solicitation", "-m", "u32", "--u32", rule,
                         "-j", "DROP"], ANYTHING) ==
            Some(ANYTHING.(src := "::", protocol := "icmpv6", icmp6Type := "neighbour-solicitation", u32 := rule, target := "DROP"))
  {
    var s1 := ANYTHING.(src := "::");
    var s2 := s1.(protocol := "icmpv6");
    var s3 := s2.(icmp6Type := "neighbour-solicitation");
    var s4 := s3.(u32 := rule);
    var a5 := ["-j", "DROP"];
    var a4 := ["--u32", rule] + a5;
    var a3 := ["-m", "u32"] + a4;
    var a2 := ["--icmpv6-type", "neighbour-solicitation"] + a3;
    var a1 := ["-p", "icmpv6"] + a2;
    OptionStep("-s", "::", a1, ANYTHING, s1);
    OptionStep("-p", "icmpv6", a2, s1, s2);
    OptionStep("--icmpv6-type", "neighbour-solicitation", a3, s2, s3);
    OptionStep("-m", "u32", a4, s3, s3);
    OptionStep("--u32", rule, a5, s3, s4);
    OptionStep("-j", "DROP", [], s4, s4.(target := "DROP"));
    assert a5 + [] == a5;
    assert ["-s", "::"] + a1 == ["-s", "::", "-p", "icmpv6", "--icmpv6-type", "neighbour-solicitation", "-m", "u32", "--u32", rule,
                                 "-j", "DROP"];
  }

  // ---------------------------------------------------------------------------
  // What every guard's commands are read as

  function ProgramOf(f: Family): string {
    if f.IPv4? then "iptables" else "ip6tables"
  }

  function HookName(h: Hook): string {
    if h.Input? then "INPUT" else "OUTPUT"
  }

  function Head(c: Chain, a: Action): seq<string> {
    [ProgramOf(c.family), "-w", if a.Add? then "-I" else "-D", HookName(c.hook)]
  }

  /** A command that starts like this and whose options describe a rule is read as an edit of that chain. */
  lemma TablesRead(args: seq<string>, a: Action, c: Chain, options: seq<string>, spec: Spec, rule: Rule, lib: Library)
    requires args == Head(c, a) + options
    requires ReadOptions(options, ANYTHING) == Some(spec) && RuleMeant(c, spec, lib) == Some(rule)
    ensures ReadCommand(args, lib) == Some(OnTable(a.Add?, c, rule))
  {
    assert args[4..] == options;
    assert "iptables"[1] == 'p' && "ip"[0] == 'i' && |"ip"| == 2 && |"iptables"| == 8 && |"ip6tables"| == 9;
  }

  lemma WordBytesBack(b: Bytes, at: nat)
    requires at + 4 <= |b|
    ensures WordBytes(NetworkWord(b, at)) == b[at..at + 4]
  {
    Swapped(b[at + 3], b[at + 2], b[at + 1], b[at], NetworkWord(b, at));
  }

  lemma TargetRead(b: Bytes)
    requires |b| == 16
    ensures TestedTarget(RuleText(b)) == Some(b)
  {
    RuleReads(Tests(b));
    WordBytesBack(b, 0);
    WordBytesBack(b, 4);
    WordBytesBack(b, 8);
    WordBytesBack(b, 12);
    assert b == b[0..4] + b[4..8] + b[8..12] + b[12..16];
  }

  lemma PortRead(port: Port)
    ensures IsPort(Decimal(port)) && Value(Decimal(port)) == port
  {
    DecimalRoundTrip(port);
  }

  lemma WordsDiffer()
    ensures "tcp" != "udp" && "tcp" != "icmpv6" && "udp" != "icmpv6" && "icmp" != "icmpv6" && "DROP" != "REJECT"
  {
    assert "tcp"[0] != "udp"[0] && "tcp"[0] != "icmpv6"[0] && "udp"[0] != "icmpv6"[0] && "DROP"[0] != "REJECT"[0];
  }

  /** The options that a guard's command gives, and what they are read as. */
  function OptionsOf(r: Rule, lib: Library): seq<string>
    requires WellFormedGuard(OnChain(r))
  {
    match r
    case DropSyn(dst, port) => ["-d", Pure(dst, lib), "-p", "tcp", "--syn", "--dport", Decimal(port), "-j", "DROP"]
    case Reject(dst, transport) => ["-d", Pure(dst, lib), "-p", if transport.Tcp? then "tcp" else "udp", "-j", "REJECT"]
    case DropUnreachable(dst) =>
      ["-d", Pure(dst, lib), "-p", Icmp(dst.family), "--" + Icmp(dst.family) + "-type", "destination-unreachable", "-j", "DROP"]
    case DropSolicitation(target) =>
      ["-s", "::", "-p", "icmpv6", "--icmpv6-type", "neighbour-solicitation", "-m", "u32", "--u32", RuleText(target.bytes),
       "-j", "DROP"]
  }

  function SpecOf(r: Rule, lib: Library): Spec
    requires WellFormedGuard(OnChain(r))
  {
    match r
    case DropSyn(dst, port) =>
      ANYTHING.(dst := Pure(dst, lib), protocol := "tcp", syn := true, dport := Decimal(port), target := "DROP")
    case Reject(dst, transport) =>
      ANYTHING.(dst := Pure(dst, lib), protocol := if transport.Tcp? then "tcp" else "udp", target := "REJECT")
    case DropUnreachable(dst) => IcmpSpec(dst.family, Pure(dst, lib))
    case DropSolicitation(target) =>
      ANYTHING.(src := "::", protocol := "icmpv6", icmp6Type := "neighbour-solicitation", u32 := RuleText(target.bytes),
                target := "DROP")
  }

  lemma OptionsRead(r: Rule, lib: Library)
    requires WellFormedGuard(OnChain(r))
    ensures ReadOptions(OptionsOf(r, lib), ANYTHING) == Some(SpecOf(r, lib))
  {
    match r
    case DropSyn(dst, port) => DropOptions(Pure(dst, lib), Decimal(port));
    case Reject(dst, transport) => RejectOptions(Pure(dst, lib), if transport.Tcp? then "tcp" else "udp");
    case DropUnreachable(dst) => IcmpOptions(dst.family, Pure(dst, lib));
    case DropSolicitation(target) => SolicitationOptions(RuleText(target.bytes));
  }

  lemma DropMeant(dst: Ip, d: string, port: Port, lib: Library)
    requires d != "" && ReadAddress(d, lib) == Some(dst)
    ensures RuleMeant(Chain(dst.family, Input),
                      ANYTHING.(dst := d, protocol := "tcp", syn := true, dport := Decimal(port), target := "DROP"), lib)
            == Some(DropSyn(dst, port))
  {
    PortRead(port);
  }

  lemma RejectMeant(dst: Ip, d: string, transport: Transport, lib: Library)
    requires d != "" && ReadAddress(d, lib) == Some(dst)
    ensures RuleMeant(Chain(dst.family, Input),
                      ANYTHING.(dst := d, protocol := if transport.Tcp? then "tcp" else "udp", target := "REJECT"), lib)
            == Some(Reject(dst, transport))
  {
    WordsDiffer();
  }

  lemma IcmpMeant(dst: Ip, d: string, lib: Library)
    requires d != "" && ReadAddress(d, lib) == Some(dst)
    ensures RuleMeant(Chain(dst.family, Output), IcmpSpec(dst.family, d), lib) == Some(DropUnreachable(dst))
  {
  }

  lemma SolicitationMeant(b: Bytes, lib: Library)
    requires |b| == 16
    ensures RuleMeant(Chain(IPv6, Input),
                      ANYTHING.(src := "::", protocol := "icmpv6", icmp6Type := "neighbour-solicitation", u32 := RuleText(b),
                                target := "DROP"), lib)
            == Some(DropSolicitation(Ip(IPv6, b)))
  {
    TargetRead(b);
    WordsDiffer();
  }

  lemma SpecMeant(r: Rule, lib: Library)
    requires WellFormedGuard(OnChain(r))
    requires r.DropSolicitation? || (Pure(r.dst, lib) != "" && ReadAddress(Pure(r.dst, lib), lib) == Some(r.dst))
    ensures RuleMeant(ChainOf(r), SpecOf(r, lib), lib) == Some(r)
  {
    match r
    case DropSyn(dst, port) => DropMeant(dst, Pure(dst, lib), port, lib);
    case Reject(dst, transport) => RejectMeant(dst, Pure(dst, lib), transport, lib);
    case DropUnreachable(dst) => IcmpMeant(dst, Pure(dst, lib), lib);
    case DropSolicitation(target) => SolicitationMeant(target.bytes, lib);
  }

  lemma TransportOptions(r: Rule, a: Action, lib: Library)
    requires WellFormedGuard(OnChain(r)) && TransportRule(r)
    ensures Arguments(OnChain(r), a, lib) == Head(ChainOf(r), a) + OptionsOf(r, lib)
  {
  }

  lemma ArgumentsHaveOptions(r: Rule, a: Action, lib: Library)
    requires WellFormedGuard(OnChain(r))
    ensures Arguments(OnChain(r), a, lib) == Head(ChainOf(r), a) + OptionsOf(r, lib)
  {
    if TransportRule(r) { TransportOptions(r, a, lib); }
  }

  lemma RuleArgumentsRead(r: Rule, a: Action, lib: Library)
    requires WellFormedGuard(OnChain(r)) && Readable(Named(OnChain(r)), lib)
    ensures ReadCommand(Arguments(OnChain(r), a, lib), lib) == Some(OnTable(a.Add?, ChainOf(r), r))
  {
    ArgumentsHaveOptions(r, a, lib);
    OptionsRead(r, lib);
    SpecMeant(r, lib);
    TablesRead(Arguments(OnChain(r), a, lib), a, ChainOf(r), OptionsOf(r, lib), SpecOf(r, lib), r, lib);
  }

  lemma LinkArgumentsRead(g: Guard, a: Action, lib: Library)
    requires g.OnLink? && WellFormedGuard(g) && Readable(Named(g), lib)
    ensures ReadCommand(Arguments(g, a, lib), lib) == Some(OnInterface(a.Add?, g.iface, g.addr))
  {
    SlashedText(Pure(g.addr.pure, lib), g.addr.subnet);
    DecimalRoundTrip(g.addr.subnet);
  }

  /**
   * Running the text of a guard's `add` does to the chains and addresses what adding the guard does, and running the
   * text of its `del` what deleting it does, whether they succeed or fail.
   */
  lemma CommandsDo(g: Guard, k: Kernel, lib: Library)
    requires WellFormedGuard(g) && Printable(Named(g), lib) && (g.OnLink? ==> g.iface != "" && ' ' !in g.iface)
    ensures TakeAction(Command(g, Add, lib), k, lib) == k.Add(g)
    ensures TakeAction(Command(g, Del, lib), k, lib) == k.Delete(g)
  {
    CommandTokenises(g, Add, lib);
    CommandTokenises(g, Del, lib);
    if g.OnLink? {
      LinkArgumentsRead(g, Add, lib);
      LinkArgumentsRead(g, Del, lib);
    } else {
      RuleArgumentsRead(g.rule, Add, lib);
      RuleArgumentsRead(g.rule, Del, lib);
    }
  }

  /** For IPv4 guards nothing is asked of the C library. */
  lemma Ipv4CommandsDo(g: Guard, k: Kernel, lib: Library)
    requires WellFormedGuard(g) && Named(g).family.IPv4? && (g.OnLink? ==> g.iface != "" && ' ' !in g.iface)
    ensures TakeAction(Command(g, Add, lib), k, lib) == k.Add(g)
    ensures TakeAction(Command(g, Del, lib), k, lib) == k.Delete(g)
  {
    Ipv4Printable(Named(g).bytes, lib);
    CommandsDo(g, k, lib);
  }

  // ---------------------------------------------------------------------------
  // What the read options match

  predicate ReadsAs(text: string, ip: Ip, lib: Library) {
    text == "" || ReadAddress(text, lib) == Some(ip)
  }

  /** The options of an input rule as conditions on a TCP or UDP packet. */
  predicate SpecMatches(s: Spec, p: Packet, lib: Library) {
    && ReadsAs(s.dst, p.dst, lib) && ReadsAs(s.src, p.src, lib)
    && (s.protocol == "" || s.protocol == if p.body.TcpSegment? then "tcp" else "udp")
    && (s.syn ==> p.body.TcpSegment? && p.body.flags & 0x17 == 0x02)
    && (s.dport != "" ==> IsPort(s.dport) && Value(s.dport) == p.body.dport)
  }

  function TargetVerdict(target: string): Option<Verdict> {
    if target == "DROP" then Some(Dropped) else if target == "REJECT" then Some(Rejected) else None
  }

  /** The verdict of a rule is that of the options it was read from. */
  lemma OptionsJudge(f: Family, s: Spec, rule: Rule, p: Packet, others: Foreigners, lib: Library)
    requires RuleMeant(Chain(f, Input), s, lib) == Some(rule) && p.dst.family == f
    ensures Judge(rule, p, others) == if SpecMatches(s, p, lib) then TargetVerdict(s.target) else None
  {
    WordsDiffer();
  }
}
