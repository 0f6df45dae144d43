/** What the firewall does with TCP and UDP packets while a host is being emulated. */
module Verdicts {
  import opened Net
  import opened Firewall
  import opened Capture
  import opened Emulation
  import opened System
  import opened Guarantees

  datatype Body = TcpSegment(sport: Port, dport: Port, flags: bv8) | UdpDatagram(sport: Port, dport: Port)
  datatype Packet = Packet(src: Ip, dst: Ip, body: Body)
  datatype Verdict = Dropped | Rejected | Accepted

  /** How rules that are not the program's own judge a packet. */
  type Foreigners = (nat, Packet) -> Option<Verdict>

  /** iptables `--syn`: of FIN, SYN, RST and ACK only SYN is set. */
  predicate IsSyn(flags: bv8) {
    flags & 0x17 == 0x02
  }

  function Judge(r: Rule, p: Packet, others: Foreigners): Option<Verdict> {
    match r
    case DropSyn(dst, port) =>
      if p.dst == dst && p.body.TcpSegment? && IsSyn(p.body.flags) && p.body.dport == port then Some(Dropped) else None
    case Reject(dst, transport) =>
      if p.dst == dst && transport == (if p.body.TcpSegment? then Tcp else Udp) then Some(Rejected) else None
    case DropUnreachable(_) => None
    case DropSolicitation(_) => None
    case Foreign(_, id) => others(id, p)
  }

  /** First match decides; `None` leaves the packet to the chain's policy. */
  function FirstMatch(rules: seq<Rule>, p: Packet, others: Foreigners): Option<Verdict> {
    if rules == [] then None
    else
      var v := Judge(rules[0], p, others);
      if v.Some? then v else FirstMatch(rules[1..], p, others)
  }

  function InputVerdict(k: Kernel, p: Packet, others: Foreigners): Option<Verdict> {
    FirstMatch(k.Rules(Chain(p.dst.family, Input)), p, others)
  }

  lemma {:induction false} FirstMatchConcat(a: seq<Rule>, b: seq<Rule>, p: Packet, others: Foreigners)
    ensures FirstMatch(a + b, p, others) ==
            if FirstMatch(a, p, others).Some? then FirstMatch(a, p, others) else FirstMatch(b, p, others)
  {
    if a == [] {
      assert a + b == b;
    } else {
      assert (a + b)[1..] == a[1..] + b;
      FirstMatchConcat(a[1..], b, p, others);
    }
  }

  // ---------------------------------------------------------------------------
  // The rules of one host inside a chain, in the order in which they are tried

  predicate Aims(r: Rule, targets: set<Ip>) {
    TransportRule(r) && r.dst in targets
  }

  function Own(rules: seq<Rule>, targets: set<Ip>): seq<Rule> {
    if rules == [] then []
    else (if Aims(rules[0], targets) then [rules[0]] else []) + Own(rules[1..], targets)
  }

  /** Rules of a plan on the input chain of a family, the latest insertion first. */
  function Installed(plan: seq<Guard>, f: Family): seq<Rule> {
    if plan == [] then []
    else RuleOf(plan[|plan| - 1], f) + Installed(plan[..|plan| - 1], f)
  }

  function RuleOf(g: Guard, f: Family): seq<Rule> {
    if Touches(g, Chain(f, Input)) then [g.rule] else []
  }

  lemma {:induction false} OwnAfterRemoval(rules: seq<Rule>, targets: set<Ip>, r: Rule)
    requires !Aims(r, targets)
    ensures Own(RemoveFirst(rules, r), targets) == Own(rules, targets)
  {
    if rules != [] && rules[0] != r {
      OwnAfterRemoval(rules[1..], targets, r);
      assert RemoveFirst(rules, r)[1..] == RemoveFirst(rules[1..], r);
    }
  }

  lemma {:induction false} OwnEmpty(rules: seq<Rule>, targets: set<Ip>)
    requires forall r :: r in rules ==> !Aims(r, targets)
    ensures Own(rules, targets) == []
  {
    if rules != [] { OwnEmpty(rules[1..], targets); }
  }

  /** Only a host's own rules and foreign rules can match a packet to one of its addresses. */
  lemma {:induction false} FirstMatchOwn(rules: seq<Rule>, targets: set<Ip>, p: Packet, others: Foreigners)
    requires p.dst in targets && forall r :: r in rules ==> !r.Foreign?
    ensures FirstMatch(rules, p, others) == FirstMatch(Own(rules, targets), p, others)
  {
    if rules != [] {
      FirstMatchOwn(rules[1..], targets, p, others);
      var rest := Own(rules[1..], targets);
      if Aims(rules[0], targets) { assert ([rules[0]] + rest)[1..] == rest; } else { assert [] + rest == rest; }
    }
  }

  lemma {:induction false} FirstMatchElsewhere(rules: seq<Rule>, p: Packet, others: Foreigners)
    requires forall r :: r in rules ==> !r.Foreign? && (TransportRule(r) ==> r.dst != p.dst)
    ensures FirstMatch(rules, p, others) == None
  {
    if rules != [] { FirstMatchElsewhere(rules[1..], p, others); }
  }

  // ---------------------------------------------------------------------------
  // The verdict of a complete plan

  /** What the program wants to happen to a packet for an emulated address. */
  function Wanted(cfg: Config, p: Packet): Verdict {
    if p.body.TcpSegment? && IsSyn(p.body.flags) && p.body.dport in cfg.ports then Dropped else Rejected
  }

  lemma InstalledSnoc(plan: seq<Guard>, g: Guard, f: Family)
    ensures Installed(plan + [g], f) == RuleOf(g, f) + Installed(plan, f)
  {
    assert (plan + [g])[..|plan|] == plan;
  }

  lemma Regrouped<T>(x: seq<T>, y: seq<T>, z: seq<T>)
    ensures x + (y + z) == x + y + z
  {
  }

  lemma {:induction false} InstalledConcat(a: seq<Guard>, b: seq<Guard>, f: Family)
    ensures Installed(a + b, f) == Installed(b, f) + Installed(a, f)
  {
    if b == [] {
      assert a + b == a;
    } else {
      var (init, g) := (b[..|b| - 1], b[|b| - 1]);
      assert b == init + [g] && a + b == a + init + [g];
      InstalledSnoc(init, g, f);
      InstalledSnoc(a + init, g, f);
      InstalledConcat(a, init, f);
      Regrouped(RuleOf(g, f), Installed(init, f), Installed(a, f));
    }
  }

  lemma FirstMatchCons(r: Rule, rest: seq<Rule>, p: Packet, others: Foreigners)
    ensures FirstMatch([r] + rest, p, others) ==
            if Judge(r, p, others).Some? then Judge(r, p, others) else FirstMatch(rest, p, others)
  {
    assert ([r] + rest)[1..] == rest;
  }

  /** Of two parts of a plan, the later one decides first. */
  lemma LaterDecides(a: seq<Guard>, b: seq<Guard>, p: Packet, others: Foreigners)
    ensures FirstMatch(Installed(a + b, p.dst.family), p, others) ==
            var v := FirstMatch(Installed(b, p.dst.family), p, others);
            if v.Some? then v else FirstMatch(Installed(a, p.dst.family), p, others)
  {
    InstalledConcat(a, b, p.dst.family);
    FirstMatchConcat(Installed(b, p.dst.family), Installed(a, p.dst.family), p, others);
  }

  /** A rule put in front of others decides what it matches. */
  lemma GuardVerdict(plan: seq<Guard>, r: Rule, p: Packet, others: Foreigners)
    requires TransportRule(r)
    ensures FirstMatch(Installed(plan + [OnChain(r)], p.dst.family), p, others) ==
            if Judge(r, p, others).Some? then Judge(r, p, others) else FirstMatch(Installed(plan, p.dst.family), p, others)
  {
    var rest := Installed(plan, p.dst.family);
    InstalledSnoc(plan, OnChain(r), p.dst.family);
    if r.dst.family == p.dst.family { FirstMatchCons(r, rest, p, others); } else { assert [] + rest == rest; }
  }

  lemma {:induction false} DropsVerdict(ip: Ip, ports: seq<Port>, p: Packet, others: Foreigners)
    ensures FirstMatch(Installed(Drops(ip, ports), p.dst.family), p, others) ==
            if p.dst == ip && p.body.TcpSegment? && IsSyn(p.body.flags) && p.body.dport in ports then Some(Dropped) else None
  {
    if ports != [] {
      var (init, port) := (ports[..|ports| - 1], ports[|ports| - 1]);
      assert ports == init + [port];
      DropsVerdict(ip, init, p, others);
      GuardVerdict(Drops(ip, init), DropSyn(ip, port), p, others);
    }
  }

  lemma RejectsVerdict(ip: Ip, p: Packet, others: Foreigners)
    ensures FirstMatch(Installed([OnChain(Reject(ip, Tcp)), OnChain(Reject(ip, Udp))], p.dst.family), p, others) ==
            if p.dst == ip then Some(Rejected) else None
  {
    var (tcp, udp) := (Reject(ip, Tcp), Reject(ip, Udp));
    assert [] + [OnChain(tcp)] == [OnChain(tcp)] && [OnChain(tcp)] + [OnChain(udp)] == [OnChain(tcp), OnChain(udp)];
    GuardVerdict([], tcp, p, others);
    GuardVerdict([OnChain(tcp)], udp, p, others);
  }

  lemma PlanForVerdict(cfg: Config, a: IpAddress, p: Packet, others: Foreigners)
    ensures FirstMatch(Installed(PlanFor(cfg.iface, a, cfg.ports), p.dst.family), p, others) ==
            if p.dst == a.pure then Some(Wanted(cfg, p)) else None
  {
    var f := p.dst.family;
    var rejects := [OnChain(Reject(a.pure, Tcp)), OnChain(Reject(a.pure, Udp))];
    var drops := Drops(a.pure, cfg.ports);
    LaterDecides(rejects, drops, p, others);
    InstalledSnoc(rejects + drops, OnLink(cfg.iface, a), f);
    assert [] + Installed(rejects + drops, f) == Installed(rejects + drops, f);
    DropsVerdict(a.pure, cfg.ports, p, others);
    RejectsVerdict(a.pure, p, others);
  }

  lemma TogetherDecide(a: seq<Guard>, b: seq<Guard>, ab: seq<Guard>, p: Packet, others: Foreigners, inA: bool, inB: bool, v: Verdict)
    requires ab == a + b
    requires FirstMatch(Installed(a, p.dst.family), p, others) == if inA then Some(v) else None
    requires FirstMatch(Installed(b, p.dst.family), p, others) == if inB then Some(v) else None
    ensures FirstMatch(Installed(ab, p.dst.family), p, others) == if inA || inB then Some(v) else None
  {
    LaterDecides(a, b, p, others);
  }

  ghost predicate Listed(cfg: Config, n: nat, ip: Ip)
    requires n <= |cfg.addresses|
  {
    exists m :: 0 <= m < n && cfg.addresses[m].pure == ip
  }

  lemma ListedStep(cfg: Config, n: nat, ip: Ip)
    requires 0 < n <= |cfg.addresses|
    ensures Listed(cfg, n, ip) <==> cfg.addresses[n - 1].pure == ip || Listed(cfg, n - 1, ip)
  {
  }

  lemma {:induction false} PlanVerdict(cfg: Config, n: nat, p: Packet, others: Foreigners)
    requires n <= |cfg.addresses|
    ensures FirstMatch(Installed(PlanUpTo(cfg, n), p.dst.family), p, others) ==
            if Listed(cfg, n, p.dst) then Some(Wanted(cfg, p)) else None
  {
    if n > 0 {
      PlanVerdict(cfg, n - 1, p, others);
      ListedStep(cfg, n, p.dst);
      var (front, here) := (PlanUpTo(cfg, n - 1), PlanFor(cfg.iface, cfg.addresses[n - 1], cfg.ports));
      var hit := cfg.addresses[n - 1].pure == p.dst;
      PlanForVerdict(cfg, cfg.addresses[n - 1], p, others);
      TogetherDecide(front, here, PlanUpTo(cfg, n), p, others, Listed(cfg, n - 1, p.dst), hit, Wanted(cfg, p));
    }
  }

  // ---------------------------------------------------------------------------
  // The order of a host's rules is kept under interference of the other hosts

  /** No two hosts emulate the same address. */
  ghost predicate DisjointHosts(cfgs: seq<Config>) {
    forall i, j :: 0 <= i < j < |cfgs| ==> Targets(cfgs[i]) !! Targets(cfgs[j])
  }

  ghost predicate HostOrdered(k: Kernel, now: Kernel, h: Host, f: Family) {
    Held(h.pc, |h.plan|).Some? && |h.locks| <= |h.plan| ==>
      Own(Front(k.Rules(Chain(f, Input)), now.Rules(Chain(f, Input))), Targets(h.cfg)) == Installed(h.plan[..|h.locks|], f)
  }

  ghost predicate OrderInv(k: Kernel, s: State) {
    forall i, f :: 0 <= i < |s.hosts| ==> HostOrdered(k, s.kernel, s.hosts[i], f)
  }

  /** Which rules a host's live guards can be. */
  lemma LiveKinds(h: Host, g: Guard)
    requires LocksInv(h) && h.plan == Plan(h.cfg) && g in LiveGuards(h)
    ensures g.OnChain? ==> !g.rule.Foreign? && (TransportRule(g.rule) ==> g.rule.dst in Targets(h.cfg) && h.locks != [])
  {
    if g in Gather(h.locks, OwnedBy) {
      var j := GatherMember(h.locks, OwnedBy, g);
      assert h.plan[j] == g;
      PlanMember(h.cfg, |h.cfg.addresses|, g);
    } else if g in Gather(h.session.daws, SolicitationOf) {
      var d := GatherMember(h.session.daws, SolicitationOf, g);
    }
  }

  /** What a host's own step does to its locks while they are in order: empties them, leaves them alone, or pushes one. */
  ghost predicate LocksEmptied(h: Host, h': Host, e: Effect) {
    e.Silent? && h'.locks == []
  }

  ghost predicate LocksAlone(h: Host, h': Host, e: Effect) {
    && Held(h.pc, |h.plan|).Some? && h'.locks == h.locks
    && (e.Adds? || e.Deletes? ==> e.g.OnChain? && e.g.rule.DropSolicitation?)
  }

  ghost predicate LockPushed(h: Host, h': Host, e: Effect) {
    && Held(h.pc, |h.plan|).Some? && |h.locks| < |h.plan|
    && e == Adds(h.plan[|h.locks|]) && |h'.locks| == |h.locks| + 1
  }

  lemma LockOrder(h: Host, a: HostAction, signaled: bool, h': Host, e: Effect)
    requires SessionInv(h.session) && LocksInv(h) && HostMove(h, a, signaled) == Some((h', e)) && Held(h'.pc, |h'.plan|).Some?
    ensures LocksEmptied(h, h', e) || LocksAlone(h, h', e) || LockPushed(h, h', e)
  {
    if a.Watcher? { WatcherStepLive(h.session, a.watcher, h.cfg.mac, h'.session, e); }
  }

  /** How a step's effect changes the front of a chain. */
  lemma FrontAfter(k: Kernel, s: State, i: nat, e: Effect, t: State, c: Chain, live: multiset<Guard>)
    requires Conserved(k, s.kernel, live) && TakeEffect(s, i, e) == Some(t) && (e.Deletes? ==> e.g in live)
    ensures Front(k.Rules(c), t.kernel.Rules(c)) ==
            var front := Front(k.Rules(c), s.kernel.Rules(c));
            if e.Adds? then Pushed(front, e.g, c) else if e.Deletes? then Popped(front, e.g, c) else front
  {
    if e.Adds? {
      AddKeepsConserved(k, s.kernel, live, e.g, t.kernel);
    } else if e.Deletes? {
      LiveIsPresent(k, s.kernel, live, e.g);
      DeleteKeepsConserved(k, s.kernel, live, e.g, t.kernel);
    }
  }

  /** An effect on something that is not a rule for `targets` leaves their rules in order. */
  lemma OwnUndisturbed(front: seq<Rule>, targets: set<Ip>, g: Guard, c: Chain)
    requires g.OnChain? ==> !Aims(g.rule, targets)
    ensures Own(Pushed(front, g, c), targets) == Own(front, targets)
    ensures Own(Popped(front, g, c), targets) == Own(front, targets)
  {
    if Touches(g, c) {
      OwnCons(g.rule, front, targets);
      OwnAfterRemoval(front, targets, g.rule);
    }
  }

  lemma NothingOwn(k: Kernel, now: Kernel, live: multiset<Guard>, targets: set<Ip>, c: Chain)
    requires Conserved(k, now, live)
    requires forall r :: OnChain(r) in live ==> !Aims(r, targets)
    ensures Own(Front(k.Rules(c), now.Rules(c)), targets) == []
  {
    var front := Front(k.Rules(c), now.Rules(c));
    assert ChainConserved(k.Rules(c), now.Rules(c), c, live);
    forall r | r in front ensures !Aims(r, targets) { assert multiset(front)[r] > 0; }
    OwnEmpty(front, targets);
  }

  /** The setting of the ordering argument: hosts follow their plans and share no address. */
  ghost predicate Apart(hosts: seq<Host>) {
    && (forall i :: 0 <= i < |hosts| ==> hosts[i].plan == Plan(hosts[i].cfg))
    && (forall i, j :: 0 <= i < |hosts| && 0 <= j < |hosts| && i != j ==> Targets(hosts[i].cfg) !! Targets(hosts[j].cfg))
  }

  lemma StrangersGuard(h: Host, o: Host, g: Guard)
    requires LocksInv(h) && h.plan == Plan(h.cfg) && g in LiveGuards(h) && Targets(h.cfg) !! Targets(o.cfg)
    ensures g.OnChain? ==> !Aims(g.rule, Targets(o.cfg))
  {
    LiveKinds(h, g);
  }

  lemma OtherKeepsOrder(k: Kernel, s: State, i: nat, h: Host, e: Effect, t: State, o: Host, f: Family)
    requires Conserved(k, s.kernel, Gather(s.hosts, LiveGuards)) && i < |s.hosts| && TakeEffect(s, i, e) == Some(t)
    requires LiveChange(LiveGuards(s.hosts[i]), LiveGuards(h), e) && LocksInv(s.hosts[i]) && LocksInv(h)
    requires h.cfg == s.hosts[i].cfg && h.plan == s.hosts[i].plan == Plan(h.cfg) && Targets(h.cfg) !! Targets(o.cfg)
    requires HostOrdered(k, s.kernel, o, f)
    ensures HostOrdered(k, t.kernel, o, f)
  {
    var c := Chain(f, Input);
    GatherIncludes(s.hosts, i, LiveGuards);
    FrontAfter(k, s, i, e, t, c, Gather(s.hosts, LiveGuards));
    if e.Adds? {
      StrangersGuard(h, o, e.g);
      OwnUndisturbed(Front(k.Rules(c), s.kernel.Rules(c)), Targets(o.cfg), e.g, c);
    } else if e.Deletes? {
      StrangersGuard(s.hosts[i], o, e.g);
      OwnUndisturbed(Front(k.Rules(c), s.kernel.Rules(c)), Targets(o.cfg), e.g, c);
    }
  }

  lemma EmptyIsOrdered(k: Kernel, now: Kernel, hosts: seq<Host>, i: nat, f: Family)
    requires Conserved(k, now, Gather(hosts, LiveGuards)) && Apart(hosts) && i < |hosts| && hosts[i].locks == []
    requires forall j :: 0 <= j < |hosts| ==> LocksInv(hosts[j])
    ensures HostOrdered(k, now, hosts[i], f)
  {
    var targets := Targets(hosts[i].cfg);
    forall r | OnChain(r) in Gather(hosts, LiveGuards) ensures !Aims(r, targets) {
      var j := GatherMember(hosts, LiveGuards, OnChain(r));
      LiveKinds(hosts[j], OnChain(r));
      assert j != i ==> Targets(hosts[i].cfg) !! Targets(hosts[j].cfg);
    }
    NothingOwn(k, now, Gather(hosts, LiveGuards), targets, Chain(f, Input));
    assert hosts[i].plan[..0] == [];
  }

  lemma OwnCons(r: Rule, front: seq<Rule>, targets: set<Ip>)
    ensures Own([r] + front, targets) == if Aims(r, targets) then [r] + Own(front, targets) else Own(front, targets)
  {
    assert ([r] + front)[1..] == front;
  }

  lemma OwnAfterPush(front: seq<Rule>, targets: set<Ip>, plan: seq<Guard>, g: Guard, f: Family)
    requires Own(front, targets) == Installed(plan, f)
    requires Touches(g, Chain(f, Input)) ==> Aims(g.rule, targets)
    ensures Own(Pushed(front, g, Chain(f, Input)), targets) == Installed(plan + [g], f)
  {
    InstalledSnoc(plan, g, f);
    assert [] + Installed(plan, f) == Installed(plan, f);
    if Touches(g, Chain(f, Input)) { OwnCons(g.rule, front, targets); }
  }

  lemma PushKeepsOrder(k: Kernel, s: State, i: nat, h: Host, e: Effect, t: State, f: Family, live: multiset<Guard>)
    requires Conserved(k, s.kernel, live) && i < |s.hosts| && TakeEffect(s, i, e) == Some(t)
    requires LockPushed(s.hosts[i], h, e) && h.plan == s.hosts[i].plan && h.cfg == s.hosts[i].cfg
    requires e.g.OnChain? ==> Aims(e.g.rule, Targets(h.cfg))
    requires HostOrdered(k, s.kernel, s.hosts[i], f)
    ensures HostOrdered(k, t.kernel, h, f)
  {
    var c := Chain(f, Input);
    FrontAfter(k, s, i, e, t, c, live);
    var n := |s.hosts[i].locks|;
    OwnAfterPush(Front(k.Rules(c), s.kernel.Rules(c)), Targets(h.cfg), h.plan[..n], h.plan[n], f);
    assert h.plan[..n + 1] == h.plan[..n] + [h.plan[n]];
  }

  lemma AloneKeepsOrder(k: Kernel, s: State, i: nat, h: Host, e: Effect, t: State, f: Family, live: multiset<Guard>)
    requires Conserved(k, s.kernel, live) && i < |s.hosts| && TakeEffect(s, i, e) == Some(t) && (e.Deletes? ==> e.g in live)
    requires LocksAlone(s.hosts[i], h, e) && h.plan == s.hosts[i].plan && h.cfg == s.hosts[i].cfg
    requires HostOrdered(k, s.kernel, s.hosts[i], f)
    ensures HostOrdered(k, t.kernel, h, f)
  {
    var c := Chain(f, Input);
    FrontAfter(k, s, i, e, t, c, live);
    if e.Adds? || e.Deletes? {
      OwnUndisturbed(Front(k.Rules(c), s.kernel.Rules(c)), Targets(h.cfg), e.g, c);
    }
  }

  lemma SelfKeepsOrder(k: Kernel, s: State, i: nat, h: Host, e: Effect, t: State, f: Family, live: multiset<Guard>)
    requires Conserved(k, s.kernel, live) && i < |s.hosts| && TakeEffect(s, i, e) == Some(t) && (e.Deletes? ==> e.g in live)
    requires h.plan == s.hosts[i].plan == Plan(h.cfg) && h.cfg == s.hosts[i].cfg && HostOrdered(k, s.kernel, s.hosts[i], f)
    requires LocksAlone(s.hosts[i], h, e) || LockPushed(s.hosts[i], h, e)
    ensures HostOrdered(k, t.kernel, h, f)
  {
    if LocksAlone(s.hosts[i], h, e) {
      AloneKeepsOrder(k, s, i, h, e, t, f, live);
    } else {
      assert e.g in h.plan;
      PlanMember(h.cfg, |h.cfg.addresses|, e.g);
      PushKeepsOrder(k, s, i, h, e, t, f, live);
    }
  }

  /** The ordering of host `j` after host `i` has made a step; `after` are the hosts then. */
  lemma StepKeepsOrder(k: Kernel, s: State, i: nat, h: Host, e: Effect, t: State, after: seq<Host>, j: nat, f: Family)
    requires i < |s.hosts| && j < |s.hosts| && after == s.hosts[i := h] && TakeEffect(s, i, e) == Some(t)
    requires Conserved(k, s.kernel, Gather(s.hosts, LiveGuards)) && Conserved(k, t.kernel, Gather(after, LiveGuards))
    requires Apart(s.hosts) && Apart(after) && h.cfg == s.hosts[i].cfg && h.plan == s.hosts[i].plan
    requires forall m :: 0 <= m < |after| ==> LocksInv(after[m])
    requires LocksInv(s.hosts[i]) && LiveChange(LiveGuards(s.hosts[i]), LiveGuards(h), e)
    requires Held(h.pc, |h.plan|).Some? ==>
               LocksEmptied(s.hosts[i], h, e) || LocksAlone(s.hosts[i], h, e) || LockPushed(s.hosts[i], h, e)
    requires HostOrdered(k, s.kernel, s.hosts[j], f)
    ensures HostOrdered(k, t.kernel, after[j], f)
  {
    assert LocksInv(after[i]);
    if j != i {
      OtherKeepsOrder(k, s, i, h, e, t, s.hosts[j], f);
    } else if Held(h.pc, |h.plan|).Some? {
      if LocksEmptied(s.hosts[i], h, e) {
        EmptyIsOrdered(k, t.kernel, after, i, f);
      } else {
        GatherIncludes(s.hosts, i, LiveGuards);
        SelfKeepsOrder(k, s, i, h, e, t, f, Gather(s.hosts, LiveGuards));
      }
    }
  }

  lemma HostStepKeepsOrder(k: Kernel, s: State, i: nat, act: HostAction, h: Host, e: Effect, t: State, after: seq<Host>)
    requires Inv(k, s) && i < |s.hosts| && after == s.hosts[i := h] && Apart(s.hosts) && Apart(after) && OrderInv(k, s)
    requires HostMove(s.hosts[i], act, s.signaled) == Some((h, e)) && TakeEffect(s, i, e) == Some(t)
    requires Inv(k, t.(hosts := after))
    ensures OrderInv(k, t.(hosts := after))
  {
    assert HostInv(s.hosts[i], s.signaled);
    HostMoveConfig(s.hosts[i], act, s.signaled, h, e);
    HostMoveLive(s.hosts[i], act, s.signaled, h, e);
    if Held(h.pc, |h.plan|).Some? { LockOrder(s.hosts[i], act, s.signaled, h, e); }
    forall m | 0 <= m < |after| ensures LocksInv(after[m]) { assert HostInv(t.(hosts := after).hosts[m], t.signaled); }
    forall j, f | 0 <= j < |after| ensures HostOrdered(k, t.kernel, after[j], f) {
      assert HostOrdered(k, s.kernel, s.hosts[j], f);
      StepKeepsOrder(k, s, i, h, e, t, after, j, f);
    }
  }

  lemma HandlerStepKeepsOrder(k: Kernel, s: State, a: Action, s': State)
    requires Step(s, a) == Some(s') && !a.HostActs? && OrderInv(k, s)
    ensures OrderInv(k, s')
  {
    forall j, f | 0 <= j < |s'.hosts| ensures HostOrdered(k, s'.kernel, s'.hosts[j], f) {
      assert HostOrdered(k, s.kernel, s.hosts[j], f);
    }
  }

  lemma ApartRun(k: Kernel, cfgs: seq<Config>, actions: seq<Action>, s: State)
    requires DisjointHosts(cfgs) && Run(Start(k, cfgs), actions) == Some(s)
    ensures Apart(s.hosts)
  {
    RunFrame(k, cfgs, actions, s);
  }

  lemma StartOrdered(k: Kernel, cfgs: seq<Config>)
    requires DisjointHosts(cfgs)
    ensures OrderInv(k, Start(k, cfgs))
  {
    var s := Start(k, cfgs);
    StartInv(k, cfgs);
    ApartRun(k, cfgs, [], s);
    forall j | 0 <= j < |s.hosts| ensures LocksInv(s.hosts[j]) { assert HostInv(s.hosts[j], false); }
    forall j, f | 0 <= j < |s.hosts| ensures HostOrdered(k, s.kernel, s.hosts[j], f) {
      EmptyIsOrdered(k, s.kernel, s.hosts, j, f);
    }
  }

  lemma {:induction false} RunOrdered(k: Kernel, cfgs: seq<Config>, actions: seq<Action>, s: State)
    requires DisjointHosts(cfgs) && Run(Start(k, cfgs), actions) == Some(s)
    ensures OrderInv(k, s)
  {
    if actions == [] {
      StartOrdered(k, cfgs);
    } else {
      var before := actions[..|actions| - 1];
      var t := Run(Start(k, cfgs), before).value;
      RunOrdered(k, cfgs, before, t);
      RunKeeps(k, cfgs, before, t);
      RunKeeps(k, cfgs, actions, s);
      ApartRun(k, cfgs, before, t);
      ApartRun(k, cfgs, actions, s);
      var a := actions[|actions| - 1];
      if a.HostActs? {
        var Some((h, e)) := HostMove(t.hosts[a.i], a.host, t.signaled);
        HostStepKeepsOrder(k, t, a.i, a.host, h, e, TakeEffect(t, a.i, e).value, s.hosts);
      } else {
        HandlerStepKeepsOrder(k, t, a, s);
      }
    }
  }

  // ---------------------------------------------------------------------------
  // Main results

  lemma FrontRules(k: Kernel, s: State, c: Chain, r: Rule)
    requires Inv(k, s) && r in Front(k.Rules(c), s.kernel.Rules(c))
    ensures OnChain(r) in Gather(s.hosts, LiveGuards)
  {
    assert ChainConserved(k.Rules(c), s.kernel.Rules(c), c, Gather(s.hosts, LiveGuards));
    assert multiset(Front(k.Rules(c), s.kernel.Rules(c)))[r] > 0;
  }

  lemma FrontKinds(k: Kernel, cfgs: seq<Config>, actions: seq<Action>, s: State, c: Chain, r: Rule) returns (i: nat)
    requires Run(Start(k, cfgs), actions) == Some(s) && r in Front(k.Rules(c), s.kernel.Rules(c))
    ensures !r.Foreign? && i < |cfgs| && (TransportRule(r) ==> r.dst in Targets(cfgs[i]))
  {
    RunKeeps(k, cfgs, actions, s);
    RunFrame(k, cfgs, actions, s);
    FrontRules(k, s, c, r);
    i := GatherMember(s.hosts, LiveGuards, OnChain(r));
    assert HostInv(s.hosts[i], s.signaled);
    LiveKinds(s.hosts[i], OnChain(r));
  }

  lemma RunFront(k: Kernel, cfgs: seq<Config>, actions: seq<Action>, s: State, c: Chain)
    requires Run(Start(k, cfgs), actions) == Some(s)
    ensures s.kernel.Rules(c) == Front(k.Rules(c), s.kernel.Rules(c)) + k.Rules(c)
  {
    RunKeeps(k, cfgs, actions, s);
    assert ChainConserved(k.Rules(c), s.kernel.Rules(c), c, Gather(s.hosts, LiveGuards));
  }

  lemma OrderedWhole(k: Kernel, now: Kernel, h: Host, f: Family)
    requires HostOrdered(k, now, h, f) && LocksInv(h) && BeforeRelease(h.pc)
    ensures Own(Front(k.Rules(Chain(f, Input)), now.Rules(Chain(f, Input))), Targets(h.cfg)) == Installed(h.plan, f)
  {
    assert h.plan[..|h.locks|] == h.plan;
  }

  /** While a host is emulated its rules in front of a chain are its whole plan, in the order of insertion. */
  lemma CompletePlanInstalled(k: Kernel, cfgs: seq<Config>, actions: seq<Action>, s: State, i: nat, f: Family)
    requires DisjointHosts(cfgs) && Run(Start(k, cfgs), actions) == Some(s)
    requires i < |cfgs| == |s.hosts| && BeforeRelease(s.hosts[i].pc)
    ensures Own(Front(k.Rules(Chain(f, Input)), s.kernel.Rules(Chain(f, Input))), Targets(cfgs[i])) == Installed(Plan(cfgs[i]), f)
  {
    RunKeeps(k, cfgs, actions, s);
    RunFrame(k, cfgs, actions, s);
    RunOrdered(k, cfgs, actions, s);
    assert HostInv(s.hosts[i], s.signaled) && HostOrdered(k, s.kernel, s.hosts[i], f);
    OrderedWhole(k, s.kernel, s.hosts[i], f);
  }

  /**
   * While a host is emulated, and whatever the other threads are doing: a SYN to one of its addresses
   * and ports is dropped, and all other TCP and all UDP to its addresses is rejected.
   */
  lemma EmulatedVerdict(k: Kernel, cfgs: seq<Config>, actions: seq<Action>, s: State, i: nat, p: Packet, others: Foreigners)
    requires DisjointHosts(cfgs) && Run(Start(k, cfgs), actions) == Some(s)
    requires i < |cfgs| == |s.hosts| && BeforeRelease(s.hosts[i].pc) && p.dst in Targets(cfgs[i])
    ensures InputVerdict(s.kernel, p, others) == Some(Wanted(cfgs[i], p))
  {
    var c := Chain(p.dst.family, Input);
    var front := Front(k.Rules(c), s.kernel.Rules(c));
    RunFront(k, cfgs, actions, s, c);
    CompletePlanInstalled(k, cfgs, actions, s, i, p.dst.family);
    forall r | r in front ensures !r.Foreign? { var j := FrontKinds(k, cfgs, actions, s, c, r); }
    FirstMatchOwn(front, Targets(cfgs[i]), p, others);
    assert Listed(cfgs[i], |cfgs[i].addresses|, p.dst);
    PlanVerdict(cfgs[i], |cfgs[i].addresses|, p, others);
    FirstMatchConcat(front, k.Rules(c), p, others);
  }

  /** In every reachable state, TCP and UDP to addresses that no host claims fare as without the program. */
  lemma OtherTrafficUnaffected(k: Kernel, cfgs: seq<Config>, actions: seq<Action>, s: State, p: Packet, others: Foreigners)
    requires Run(Start(k, cfgs), actions) == Some(s)
    requires forall i :: 0 <= i < |cfgs| ==> p.dst !in Targets(cfgs[i])
    ensures InputVerdict(s.kernel, p, others) == InputVerdict(k, p, others)
  {
    var c := Chain(p.dst.family, Input);
    var front := Front(k.Rules(c), s.kernel.Rules(c));
    RunFront(k, cfgs, actions, s, c);
    forall r | r in front ensures !r.Foreign? && (TransportRule(r) ==> r.dst != p.dst) {
      var j := FrontKinds(k, cfgs, actions, s, c, r);
    }
    FirstMatchElsewhere(front, p, others);
    FirstMatchConcat(front, k.Rules(c), p, others);
  }

  /**
   * What the capture filter accepts.  `tcp[tcpflags] == tcp-syn` compares all flags, and an indexed `tcp` expression
   * holds of IPv4 packets only.
   */
  ghost predicate FilterAccepts(cfg: Config, p: Packet) {
    p.dst.family.IPv4? && p.body.TcpSegment? && p.body.flags == 0x02 && p.dst in Targets(cfg) && p.body.dport in cfg.ports
  }

  /** Every packet that can end the capture is one the firewall silently drops. */
  lemma CapturedIsDropped(k: Kernel, cfgs: seq<Config>, actions: seq<Action>, s: State, i: nat, p: Packet, others: Foreigners)
    requires DisjointHosts(cfgs) && Run(Start(k, cfgs), actions) == Some(s)
    requires i < |cfgs| == |s.hosts| && s.hosts[i].pc.Capturing? && FilterAccepts(cfgs[i], p)
    ensures InputVerdict(s.kernel, p, others) == Some(Dropped)
  {
    EmulatedVerdict(k, cfgs, actions, s, i, p, others);
  }

  /** The converse fails: a dropped packet wakes the host if and only if it is an IPv4 packet and SYN is its only flag. */
  lemma DroppedIsCapturedIff(k: Kernel, cfgs: seq<Config>, actions: seq<Action>, s: State, i: nat, p: Packet, others: Foreigners)
    requires DisjointHosts(cfgs) && Run(Start(k, cfgs), actions) == Some(s)
    requires i < |cfgs| == |s.hosts| && s.hosts[i].pc.Capturing? && p.dst in Targets(cfgs[i])
    requires InputVerdict(s.kernel, p, others) == Some(Dropped)
    ensures p.body.TcpSegment? && (FilterAccepts(cfgs[i], p) <==> p.dst.family.IPv4? && p.body.flags == 0x02)
  {
    EmulatedVerdict(k, cfgs, actions, s, i, p, others);
  }

  /**
   * SYNs to a listed address and port that are lost: dropped while the host is emulated, and not captured, because
   * they go over IPv6 or ask for explicit congestion notification (ECE and CWR set).
   */
  lemma LostSyns(k: Kernel, cfgs: seq<Config>, actions: seq<Action>, s: State, i: nat, p: Packet, others: Foreigners)
    requires DisjointHosts(cfgs) && Run(Start(k, cfgs), actions) == Some(s)
    requires i < |cfgs| == |s.hosts| && s.hosts[i].pc.Capturing? && p.dst in Targets(cfgs[i])
    requires p.body.TcpSegment? && p.body.dport in cfgs[i].ports
    requires (p.dst.family.IPv6? && p.body.flags == 0x02) || p.body.flags == 0xC2
    ensures InputVerdict(s.kernel, p, others) == Some(Dropped) && !FilterAccepts(cfgs[i], p)
  {
    var plain: bv8 := 0x02;
    var ecn: bv8 := 0xC2;
    assert plain & 0x17 == 0x02 && ecn & 0x17 == 0x02;
    EmulatedVerdict(k, cfgs, actions, s, i, p, others);
  }
}
