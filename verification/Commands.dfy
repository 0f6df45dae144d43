/** The command lines that guards run, and how `take_action` tokenises them. */
module Commands {
  import opened Net
  import opened Firewall
  import opened Text
  import opened Numbers
  import opened IpText
  import opened U32

  datatype Action = Add | Del

  function Iptables(f: Family): string {
    if f.IPv4? then "iptables" else "ip6tables"
  }

  function IptablesAction(a: Action): string {
    if a.Add? then "-I" else "-D"
  }

  function Icmp(f: Family): string {
    if f.IPv4? then "icmp" else "icmpv6"
  }

  /** The argument list of a guard's command. */
  function Arguments(g: Guard, a: Action, lib: Library): seq<string>
    requires WellFormedGuard(g)
  {
    match g
    case OnLink(iface, addr) =>
      ["ip", "addr", if a.Add? then "add" else "del", WithSubnet(addr, lib), "dev", iface]
    case OnChain(DropSyn(dst, port)) =>
      [Iptables(dst.family), "-w", IptablesAction(a), "INPUT", "-d", Pure(dst, lib),
       "-p", "tcp", "--syn", "--dport", Decimal(port), "-j", "DROP"]
    case OnChain(Reject(dst, transport)) =>
      [Iptables(dst.family), "-w", IptablesAction(a), "INPUT", "-d", Pure(dst, lib),
       "-p", if transport.Tcp? then "tcp" else "udp", "-j", "REJECT"]
    case OnChain(DropUnreachable(dst)) =>
      [Iptables(dst.family), "-w", IptablesAction(a), "OUTPUT", "-d", Pure(dst, lib),
       "-p", Icmp(dst.family), "--" + Icmp(dst.family) + "-type", "destination-unreachable", "-j", "DROP"]
    case OnChain(DropSolicitation(target)) =>
      ["ip6tables", "-w", IptablesAction(a), "INPUT", "-s", "::", "-p", "icmpv6", "--icmpv6-type",
       "neighbour-solicitation", "-m", "u32", "--u32", RuleText(target.bytes), "-j", "DROP"]
  }

  function ActionLetter(a: Action): string {
    if a.Add? then "I" else "D"
  }

  /** The command text that a guard's functor puts together. */
  function Command(g: Guard, a: Action, lib: Library): string
    requires WellFormedGuard(g)
  {
    match g
    case OnLink(iface, addr) =>
      "ip" + " addr " + (if a.Add? then "add" else "del") + " " + WithSubnet(addr, lib) + " dev " + iface
    case OnChain(DropSyn(dst, port)) =>
      Iptables(dst.family) + " -w -" + ActionLetter(a) + " INPUT -d " + Pure(dst, lib) +
      " -p tcp --syn --dport " + Decimal(port) + " -j DROP"
    case OnChain(Reject(dst, transport)) =>
      Iptables(dst.family) + " -w -" + ActionLetter(a) + " INPUT -d " + Pure(dst, lib) +
      " -p " + (if transport.Tcp? then "tcp" else "udp") + " -j REJECT"
    case OnChain(DropUnreachable(dst)) =>
      Iptables(dst.family) + " -w -" + ActionLetter(a) + " OUTPUT -d " + Pure(dst, lib) +
      " -p " + Icmp(dst.family) + (" --" + Icmp(dst.family) + "-type") + " destination-unreachable" + " -j DROP"
    case OnChain(DropSolicitation(target)) =>
      Iptables(target.family) + " -w -" + ActionLetter(a) + " INPUT -s " + "::" + " -p icmpv6" + " --icmpv6-type" +
      " neighbour-solicitation" + (" -m u32 --u32 " + RuleText(target.bytes)) + " -j DROP"
  }

  // ---------------------------------------------------------------------------
  // The text is the argument list with single spaces

  lemma {:induction false} JoinConcat(x: seq<string>, y: seq<string>, sep: string)
    requires x != [] && y != []
    ensures Join(x + y, sep) == Join(x, sep) + sep + Join(y, sep)
  {
    assert (x + y)[1..] == x[1..] + y;
    if |x| == 1 {
      assert x[1..] + y == y;
    } else {
      JoinConcat(x[1..], y, sep);
    }
  }

  /** `text` is a command line whose arguments are `args`. */
  ghost predicate Spells(text: string, args: seq<string>) {
    args != [] && text == Join(args, " ")
  }

  lemma SpellsMore(text: string, args: seq<string>, words: string, more: seq<string>)
    requires Spells(text, args) && Spells(words, more)
    ensures Spells(text + " " + words, args + more)
  {
    JoinConcat(args, more, " ");
  }

  /** Appending a literal piece of command text and then a value. */
  lemma SpellsValue(text: string, args: seq<string>, piece: string, words: string, more: seq<string>, value: string)
    requires Spells(text, args) && Spells(words, more) && piece == " " + words + " "
    ensures Spells(text + piece + value, args + more + [value])
  {
    SpellsMore(text, args, words, more);
    SpellsMore(text + " " + words, args + more, value, [value]);
    assert text + piece + value == text + " " + words + " " + value;
  }

  lemma SpellsEnd(text: string, args: seq<string>, piece: string, words: string, more: seq<string>)
    requires Spells(text, args) && Spells(words, more) && piece == " " + words
    ensures Spells(text + piece, args + more)
  {
    SpellsMore(text, args, words, more);
    assert text + piece == text + " " + words;
  }

  lemma TwoWords(a: string, b: string)
    ensures Spells(a + " " + b, [a, b])
  {
    SpellsMore(a, [a], b, [b]);
    assert [a] + [b] == [a, b];
  }

  /** The common start of the rule commands. */
  lemma SpellsStart(cmd: string, a: Action, hook: string, flag: string, value: string, piece: string)
    requires piece == " " + hook + " " + flag + " "
    ensures Spells(cmd + " -w -" + ActionLetter(a) + piece + value, [cmd, "-w", IptablesAction(a), hook, flag, value])
  {
    var start := cmd + " -w -" + ActionLetter(a);
    TwoWords("-w", IptablesAction(a));
    assert " -w -" + ActionLetter(a) == " " + ("-w" + " " + IptablesAction(a));
    SpellsEnd(cmd, [cmd], " -w -" + ActionLetter(a), "-w" + " " + IptablesAction(a), ["-w", IptablesAction(a)]);
    assert start == cmd + (" -w -" + ActionLetter(a));
    TwoWords(hook, flag);
    SpellsValue(start, [cmd] + ["-w", IptablesAction(a)], piece, hook + " " + flag, [hook, flag], value);
    assert [cmd] + ["-w", IptablesAction(a)] + [hook, flag] + [value] == [cmd, "-w", IptablesAction(a), hook, flag, value];
  }

  lemma LinkCommand(g: Guard, a: Action, lib: Library)
    requires WellFormedGuard(g) && g.OnLink?
    ensures Spells(Command(g, a, lib), Arguments(g, a, lib))
  {
    var (act, addr) := (if a.Add? then "add" else "del", WithSubnet(g.addr, lib));
    SpellsValue("ip", ["ip"], " addr ", "addr", ["addr"], act);
    SpellsMore("ip" + " addr " + act, ["ip"] + ["addr"] + [act], addr, [addr]);
    SpellsValue("ip" + " addr " + act + " " + addr, ["ip"] + ["addr"] + [act] + [addr], " dev ", "dev", ["dev"], g.iface);
    assert Arguments(g, a, lib) == ["ip"] + ["addr"] + [act] + [addr] + ["dev"] + [g.iface];
  }

  lemma DropCommand(g: Guard, a: Action, lib: Library)
    requires WellFormedGuard(g) && g.OnChain? && g.rule.DropSyn?
    ensures Spells(Command(g, a, lib), Arguments(g, a, lib))
  {
    var (cmd, dst, port) := (Iptables(g.rule.dst.family), Pure(g.rule.dst, lib), Decimal(g.rule.port));
    SpellsStart(cmd, a, "INPUT", "-d", dst, " INPUT -d ");
    TwoWords("-p", "tcp");
    TwoWords("--syn", "--dport");
    SpellsMore("-p" + " " + "tcp", ["-p", "tcp"], "--syn" + " " + "--dport", ["--syn", "--dport"]);
    TwoWords("-j", "DROP");
    var start := cmd + " -w -" + ActionLetter(a) + " INPUT -d " + dst;
    var args := [cmd, "-w", IptablesAction(a), "INPUT", "-d", dst];
    SpellsValue(start, args, " -p tcp --syn --dport ", "-p" + " " + "tcp" + " " + ("--syn" + " " + "--dport"),
                ["-p", "tcp"] + ["--syn", "--dport"], port);
    SpellsEnd(start + " -p tcp --syn --dport " + port, args + (["-p", "tcp"] + ["--syn", "--dport"]) + [port],
              " -j DROP", "-j" + " " + "DROP", ["-j", "DROP"]);
    assert Arguments(g, a, lib) == args + (["-p", "tcp"] + ["--syn", "--dport"]) + [port] + ["-j", "DROP"];
  }

  lemma RejectCommand(g: Guard, a: Action, lib: Library)
    requires WellFormedGuard(g) && g.OnChain? && g.rule.Reject?
    ensures Spells(Command(g, a, lib), Arguments(g, a, lib))
  {
    var (cmd, dst, transport) := (Iptables(g.rule.dst.family), Pure(g.rule.dst, lib), if g.rule.transport.Tcp? then "tcp" else "udp");
    SpellsStart(cmd, a, "INPUT", "-d", dst, " INPUT -d ");
    TwoWords("-j", "REJECT");
    var start := cmd + " -w -" + ActionLetter(a) + " INPUT -d " + dst;
    var args := [cmd, "-w", IptablesAction(a), "INPUT", "-d", dst];
    SpellsValue(start, args, " -p ", "-p", ["-p"], transport);
    SpellsEnd(start + " -p " + transport, args + ["-p"] + [transport], " -j REJECT", "-j" + " " + "REJECT", ["-j", "REJECT"]);
    assert Arguments(g, a, lib) == args + ["-p"] + [transport] + ["-j", "REJECT"];
  }

  lemma SpellsWord(text: string, args: seq<string>, piece: string, word: string)
    requires Spells(text, args) && piece == " " + word
    ensures Spells(text + piece, args + [word])
  {
    SpellsEnd(text, args, piece, word, [word]);
  }

  lemma IcmpCommand(g: Guard, a: Action, lib: Library)
    requires WellFormedGuard(g) && g.OnChain? && g.rule.DropUnreachable?
    ensures Spells(Command(g, a, lib), Arguments(g, a, lib))
  {
    var (cmd, dst, icmp) := (Iptables(g.rule.dst.family), Pure(g.rule.dst, lib), Icmp(g.rule.dst.family));
    SpellsStart(cmd, a, "OUTPUT", "-d", dst, " OUTPUT -d ");
    var start := cmd + " -w -" + ActionLetter(a) + " OUTPUT -d " + dst;
    var args := [cmd, "-w", IptablesAction(a), "OUTPUT", "-d", dst];
    SpellsValue(start, args, " -p ", "-p", ["-p"], icmp);
    IcmpTail(start + " -p " + icmp, args + ["-p"] + [icmp], icmp);
    assert Arguments(g, a, lib) == args + ["-p"] + [icmp] + ["--" + icmp + "-type"] + ["destination-unreachable"] + ["-j", "DROP"];
  }

  lemma IcmpTail(text: string, args: seq<string>, icmp: string)
    requires Spells(text, args)
    ensures Spells(text + (" --" + icmp + "-type") + " destination-unreachable" + " -j DROP",
                   args + ["--" + icmp + "-type"] + ["destination-unreachable"] + ["-j", "DROP"])
  {
    var option := "--" + icmp + "-type";
    SpellsWord(text, args, " --" + icmp + "-type", option);
    SpellsWord(text + (" --" + icmp + "-type"), args + [option], " destination-unreachable", "destination-unreachable");
    TwoWords("-j", "DROP");
    SpellsEnd(text + (" --" + icmp + "-type") + " destination-unreachable", args + [option] + ["destination-unreachable"],
              " -j DROP", "-j" + " " + "DROP", ["-j", "DROP"]);
  }

  lemma MatchOption(rule: string)
    ensures Spells("-m" + " " + "u32" + " " + ("--u32" + " " + rule), ["-m", "u32", "--u32", rule])
    ensures " -m u32 --u32 " + rule == " " + ("-m" + " " + "u32" + " " + ("--u32" + " " + rule))
  {
    TwoWords("-m", "u32");
    TwoWords("--u32", rule);
    SpellsMore("-m" + " " + "u32", ["-m", "u32"], "--u32" + " " + rule, ["--u32", rule]);
    assert ["-m", "u32"] + ["--u32", rule] == ["-m", "u32", "--u32", rule];
    assert " -m u32 --u32 " == " " + "-m" + " " + "u32" + " " + "--u32" + " ";
  }

  lemma SolicitationMiddle(text: string, args: seq<string>)
    requires Spells(text, args)
    ensures Spells(text + " -p icmpv6" + " --icmpv6-type" + " neighbour-solicitation",
                   args + ["-p", "icmpv6"] + ["--icmpv6-type"] + ["neighbour-solicitation"])
  {
    TwoWords("-p", "icmpv6");
    SpellsEnd(text, args, " -p icmpv6", "-p" + " " + "icmpv6", ["-p", "icmpv6"]);
    SpellsWord(text + " -p icmpv6", args + ["-p", "icmpv6"], " --icmpv6-type", "--icmpv6-type");
    SpellsWord(text + " -p icmpv6" + " --icmpv6-type", args + ["-p", "icmpv6"] + ["--icmpv6-type"],
               " neighbour-solicitation", "neighbour-solicitation");
  }

  lemma SolicitationTail(text: string, args: seq<string>, rule: string)
    requires Spells(text, args)
    ensures Spells(text + (" -m u32 --u32 " + rule) + " -j DROP", args + ["-m", "u32", "--u32", rule] + ["-j", "DROP"])
  {
    MatchOption(rule);
    SpellsEnd(text, args, " -m u32 --u32 " + rule, "-m" + " " + "u32" + " " + ("--u32" + " " + rule), ["-m", "u32", "--u32", rule]);
    TwoWords("-j", "DROP");
    SpellsEnd(text + (" -m u32 --u32 " + rule), args + ["-m", "u32", "--u32", rule], " -j DROP", "-j" + " " + "DROP", ["-j", "DROP"]);
  }

  lemma SolicitationCommand(g: Guard, a: Action, lib: Library)
    requires WellFormedGuard(g) && g.OnChain? && g.rule.DropSolicitation?
    ensures Spells(Command(g, a, lib), Arguments(g, a, lib))
  {
    var (cmd, rule) := ("ip6tables", RuleText(g.rule.target.bytes));
    SpellsStart(cmd, a, "INPUT", "-s", "::", " INPUT -s ");
    var start := cmd + " -w -" + ActionLetter(a) + " INPUT -s " + "::";
    var args := [cmd, "-w", IptablesAction(a), "INPUT", "-s", "::"];
    SolicitationMiddle(start, args);
    SolicitationTail(start + " -p icmpv6" + " --icmpv6-type" + " neighbour-solicitation",
                     args + ["-p", "icmpv6"] + ["--icmpv6-type"] + ["neighbour-solicitation"], rule);
    assert Arguments(g, a, lib) == args + ["-p", "icmpv6"] + ["--icmpv6-type"] + ["neighbour-solicitation"]
                                  + ["-m", "u32", "--u32", rule] + ["-j", "DROP"];
  }

  /** Every functor's text is its argument list with single spaces between the arguments. */
  lemma CommandIsJoined(g: Guard, a: Action, lib: Library)
    requires WellFormedGuard(g)
    ensures Command(g, a, lib) == Join(Arguments(g, a, lib), " ")
  {
    if g.OnLink? {
      LinkCommand(g, a, lib);
    } else {
      match g.rule
      case DropSyn(_, _) => DropCommand(g, a, lib);
      case Reject(_, _) => RejectCommand(g, a, lib);
      case DropUnreachable(_) => IcmpCommand(g, a, lib);
      case DropSolicitation(_) => SolicitationCommand(g, a, lib);
    }
  }

  predicate WellFormedGuard(g: Guard) {
    match g
    case OnLink(_, addr) => WellFormed(addr.pure)
    case OnChain(DropSolicitation(target)) => WellFormed(target) && target.family.IPv6?
    case OnChain(Foreign(_, _)) => false
    case OnChain(r) => WellFormed(r.dst)
  }

  /** The address the guard names in its command. */
  function Named(g: Guard): Ip
    requires WellFormedGuard(g)
  {
    match g
    case OnLink(_, addr) => addr.pure
    case OnChain(DropSolicitation(target)) => target
    case OnChain(r) => r.dst
  }

  /** An address whose text the C library reads back; every IPv4 address is one. */
  predicate Printable(ip: Ip, lib: Library) {
    Readable(ip, lib) && ' ' !in Pure(ip, lib)
  }

  lemma Ipv4Printable(b: Bytes, lib: Library)
    requires |b| == 4
    ensures Printable(Ip(IPv4, b), lib)
  {
    Print4RoundTrip(b);
    Print4Chars(b);
  }

  lemma RuleTextHasNoSpace(b: Bytes)
    requires |b| == 16
    ensures ' ' !in RuleText(b)
  {
    var tests := Tests(b);
    forall i | 0 <= i < 4 ensures ' ' !in TestTexts(tests)[i] { TestReads(tests[i].0, tests[i].1); }
    JoinLacks(TestTexts(tests), "&&", ' ');
  }

  predicate NoSpace(args: seq<string>) {
    forall i :: 0 <= i < |args| ==> ' ' !in args[i]
  }

  lemma LinkArgumentsClean(g: Guard, a: Action, lib: Library)
    requires g.OnLink? && WellFormedGuard(g) && ' ' !in Pure(Named(g), lib)
    ensures NoSpace(Arguments(g, a, lib)[..5])
  {
    NoneOf(Decimal(g.addr.subnet), ' ');
    assert ' ' !in WithSubnet(g.addr, lib);
  }

  lemma DropArgumentsClean(g: Guard, a: Action, lib: Library)
    requires g.OnChain? && g.rule.DropSyn? && WellFormedGuard(g) && ' ' !in Pure(Named(g), lib)
    ensures NoSpace(Arguments(g, a, lib))
  {
    NoneOf(Decimal(g.rule.port), ' ');
  }

  lemma RejectArgumentsClean(g: Guard, a: Action, lib: Library)
    requires g.OnChain? && g.rule.Reject? && WellFormedGuard(g) && ' ' !in Pure(Named(g), lib)
    ensures NoSpace(Arguments(g, a, lib))
  {
  }

  lemma IcmpWordsClean()
    ensures ' ' !in "destination-unreachable" && ' ' !in "neighbour-solicitation" && ' ' !in "--icmpv6-type"
    ensures forall f :: ' ' !in "--" + Icmp(f) + "-type"
  {
  }

  lemma IcmpArgumentsClean(g: Guard, a: Action, lib: Library)
    requires g.OnChain? && g.rule.DropUnreachable? && WellFormedGuard(g) && ' ' !in Pure(Named(g), lib)
    ensures NoSpace(Arguments(g, a, lib))
  {
    IcmpWordsClean();
  }

  lemma SolicitationArgumentsClean(g: Guard, a: Action, lib: Library)
    requires g.OnChain? && g.rule.DropSolicitation? && WellFormedGuard(g)
    ensures NoSpace(Arguments(g, a, lib))
  {
    RuleTextHasNoSpace(g.rule.target.bytes);
    IcmpWordsClean();
  }

  lemma RuleArgumentsClean(g: Guard, a: Action, lib: Library)
    requires g.OnChain? && WellFormedGuard(g) && ' ' !in Pure(Named(g), lib)
    ensures NoSpace(Arguments(g, a, lib))
  {
    match g.rule
    case DropSyn(_, _) => DropArgumentsClean(g, a, lib);
    case Reject(_, _) => RejectArgumentsClean(g, a, lib);
    case DropUnreachable(_) => IcmpArgumentsClean(g, a, lib);
    case DropSolicitation(_) => SolicitationArgumentsClean(g, a, lib);
  }

  lemma LastArgument(g: Guard, a: Action, lib: Library)
    requires WellFormedGuard(g)
    ensures var args := Arguments(g, a, lib);
      && |args| > 5
      && (g.OnLink? ==> args == args[..5] + [g.iface])
      && (g.OnChain? ==> args[|args| - 1] != "")
  {
  }

  /**
   * `take_action` recovers the argument list from the command text, for an address guard if and only if the
   * interface name is not empty and has no space; an empty name, which passes validation, loses its argument.
   */
  lemma CommandTokenises(g: Guard, a: Action, lib: Library)
    requires WellFormedGuard(g) && ' ' !in Pure(Named(g), lib)
    ensures Split(Command(g, a, lib), ' ') == Arguments(g, a, lib) <==> (g.OnLink? ==> g.iface != "" && ' ' !in g.iface)
  {
    var args := Arguments(g, a, lib);
    CommandIsJoined(g, a, lib);
    SplitOfJoinIff(args, ' ');
    LastArgument(g, a, lib);
    if g.OnLink? {
      LinkArgumentsClean(g, a, lib);
      var front := args[..5];
      assert args[5] == g.iface && forall i :: 0 <= i < 5 ==> args[i] == front[i];
    } else {
      RuleArgumentsClean(g, a, lib);
    }
  }

  lemma ActionsDifferInOneArgument(g: Guard, lib: Library)
    requires WellFormedGuard(g)
    ensures var (add, del) := (Arguments(g, Add, lib), Arguments(g, Del, lib));
      && |add| == |del| > 2 && add[2] != del[2]
      && forall i :: 0 <= i < |add| && i != 2 ==> add[i] == del[i]
  {
  }

  /** The command texts that add and delete a guard tokenise to argument lists that differ in exactly the action. */
  lemma CommandsDifferInAction(g: Guard, lib: Library)
    requires WellFormedGuard(g) && ' ' !in Pure(Named(g), lib) && (g.OnLink? ==> g.iface != "" && ' ' !in g.iface)
    ensures var (add, del) := (Split(Command(g, Add, lib), ' '), Split(Command(g, Del, lib), ' '));
      && |add| == |del| > 2 && add[2] != del[2]
      && forall i :: 0 <= i < |add| && i != 2 ==> add[i] == del[i]
  {
    CommandTokenises(g, Add, lib);
    CommandTokenises(g, Del, lib);
    ActionsDifferInOneArgument(g, lib);
  }

  lemma PureInjective(p: Ip, q: Ip, lib: Library)
    requires Readable(p, lib) && Readable(q, lib)
    ensures Pure(p, lib) == Pure(q, lib) ==> p == q
  {
  }

  lemma WithSubnetInjective(p: IpAddress, q: IpAddress, lib: Library)
    requires Readable(p.pure, lib) && Readable(q.pure, lib) && WithSubnet(p, lib) == WithSubnet(q, lib)
    ensures p == q
  {
    SlashedText(Pure(p.pure, lib), p.subnet);
    SlashedText(Pure(q.pure, lib), q.subnet);
    assert [Pure(p.pure, lib), Decimal(p.subnet)][0] == [Pure(q.pure, lib), Decimal(q.subnet)][0];
    assert [Pure(p.pure, lib), Decimal(p.subnet)][1] == [Pure(q.pure, lib), Decimal(q.subnet)][1];
    DecimalRoundTrip(p.subnet);
    DecimalRoundTrip(q.subnet);
  }

  /** For IPv4 nothing has to be asked of the C library. */
  lemma Ipv4ArgumentsInjective(g: Guard, a: Action, g': Guard, a': Action, lib: Library)
    requires WellFormedGuard(g) && WellFormedGuard(g') && Named(g).family.IPv4? && Named(g').family.IPv4?
    requires Arguments(g, a, lib) == Arguments(g', a', lib)
    ensures g == g' && a == a'
  {
    Ipv4Printable(Named(g).bytes, lib);
    Ipv4Printable(Named(g').bytes, lib);
    ArgumentsInjective(g, a, g', a', lib);
  }

  /** The kind of a guard shows in the number of its arguments. */
  lemma ArgumentCount(g: Guard, a: Action, lib: Library)
    requires WellFormedGuard(g)
    ensures |Arguments(g, a, lib)| ==
      if g.OnLink? then 6 else if g.rule.Reject? then 10 else if g.rule.DropUnreachable? then 12 else if g.rule.DropSyn? then 13 else 16
    ensures Arguments(g, a, lib)[2] == if g.OnLink? then (if a.Add? then "add" else "del") else IptablesAction(a)
  {
  }

  lemma LinkArgumentsInjective(g: Guard, a: Action, g': Guard, a': Action, lib: Library)
    requires WellFormedGuard(g) && WellFormedGuard(g') && g.OnLink? && g'.OnLink?
    requires Readable(g.addr.pure, lib) && Readable(g'.addr.pure, lib) && Arguments(g, a, lib) == Arguments(g', a', lib)
    ensures g == g'
  {
    assert Arguments(g, a, lib)[3] == Arguments(g', a', lib)[3] && Arguments(g, a, lib)[5] == Arguments(g', a', lib)[5];
    WithSubnetInjective(g.addr, g'.addr, lib);
  }

  lemma RuleArgumentsInjective(g: Guard, a: Action, g': Guard, a': Action, lib: Library)
    requires WellFormedGuard(g) && WellFormedGuard(g')
    requires Pure(Named(g), lib) == Pure(Named(g'), lib) ==> Named(g) == Named(g')
    requires g.OnChain? && g'.OnChain? && Arguments(g, a, lib) == Arguments(g', a', lib)
    ensures g == g'
  {
    var (x, y) := (Arguments(g, a, lib), Arguments(g', a', lib));
    ArgumentCount(g, a, lib);
    ArgumentCount(g', a', lib);
    match g.rule
    case DropSolicitation(t) =>
      assert x[13] == y[13];
      RuleTextInjective(t.bytes, g'.rule.target.bytes);
    case DropSyn(dst, port) =>
      assert x[5] == y[5] && x[10] == y[10];
      DecimalRoundTrip(port);
      DecimalRoundTrip(g'.rule.port);
    case Reject(dst, transport) =>
      assert x[5] == y[5] && x[7] == y[7];
    case DropUnreachable(dst) =>
      assert x[5] == y[5];
  }

  /** A command line determines its guard and its action: equal commands only for equal rules. */
  lemma ArgumentsInjective(g: Guard, a: Action, g': Guard, a': Action, lib: Library)
    requires WellFormedGuard(g) && WellFormedGuard(g') && Printable(Named(g), lib) && Printable(Named(g'), lib)
    requires Arguments(g, a, lib) == Arguments(g', a', lib)
    ensures g == g' && a == a'
  {
    ArgumentCount(g, a, lib);
    ArgumentCount(g', a', lib);
    PureInjective(Named(g), Named(g'), lib);
    if g.OnLink? { LinkArgumentsInjective(g, a, g', a', lib); } else { RuleArgumentsInjective(g, a, g', a', lib); }
    ActionTokens();
  }

  lemma ActionTokens()
    ensures "add" != "del" && "-I" != "-D"
  {
    assert "add"[0] != "del"[0] && "-I"[1] != "-D"[1];
  }
}
