/** The kernel tables that the guards edit: iptables chains and interface addresses. */
module Firewall {
  import opened Net

  datatype Transport = Tcp | Udp
  datatype Hook = Input | Output
  datatype Chain = Chain(family: Family, hook: Hook)

  /** Rules the program installs, and rules (`Foreign`) that somebody else put there. */
  datatype Rule =
    | DropSyn(dst: Ip, port: Port)
    | Reject(dst: Ip, transport: Transport)
    | DropUnreachable(dst: Ip)
    | DropSolicitation(target: Ip)
    | Foreign(chain: Chain, id: nat)

  function ChainOf(r: Rule): Chain {
    match r
    case DropSyn(dst, _) => Chain(dst.family, Input)
    case Reject(dst, _) => Chain(dst.family, Input)
    case DropUnreachable(dst) => Chain(dst.family, Output)
    case DropSolicitation(_) => Chain(IPv6, Input)
    case Foreign(c, _) => c
  }

  /** What one `Scope_guard` adds and later deletes. */
  datatype Guard =
    | OnChain(rule: Rule)
    | OnLink(iface: string, addr: IpAddress)

  datatype Kernel = Kernel(in4: seq<Rule>, out4: seq<Rule>, in6: seq<Rule>, out6: seq<Rule>,
                           links: set<(string, IpAddress)>)
  {
    function Rules(c: Chain): seq<Rule> {
      match c
      case Chain(IPv4, Input) => in4
      case Chain(IPv4, Output) => out4
      case Chain(IPv6, Input) => in6
      case Chain(IPv6, Output) => out6
    }

    function WithRules(c: Chain, rules: seq<Rule>): Kernel {
      match c
      case Chain(IPv4, Input) => this.(in4 := rules)
      case Chain(IPv4, Output) => this.(out4 := rules)
      case Chain(IPv6, Input) => this.(in6 := rules)
      case Chain(IPv6, Output) => this.(out6 := rules)
    }

    /** `iptables -I` puts the rule first; `ip addr add` refuses an address already there. */
    function Add(g: Guard): Option<Kernel> {
      match g
      case OnChain(r) => Some(WithRules(ChainOf(r), [r] + Rules(ChainOf(r))))
      case OnLink(i, a) => if (i, a) in links then None else Some(this.(links := links + {(i, a)}))
    }

    /** `iptables -D` removes the first equal rule; deleting what is not there is an error. */
    function Delete(g: Guard): Option<Kernel> {
      match g
      case OnChain(r) =>
        if r in Rules(ChainOf(r)) then Some(WithRules(ChainOf(r), RemoveFirst(Rules(ChainOf(r)), r))) else None
      case OnLink(i, a) =>
        if (i, a) in links then Some(this.(links := links - {(i, a)})) else None
    }
  }

  function RemoveFirst<T(==)>(s: seq<T>, r: T): seq<T> {
    if s == [] then [] else if s[0] == r then s[1..] else [s[0]] + RemoveFirst(s[1..], r)
  }

  lemma {:induction false} RemoveFirstInPrefix<T>(p: seq<T>, o: seq<T>, r: T)
    requires r in p
    ensures RemoveFirst(p + o, r) == RemoveFirst(p, r) + o
    ensures multiset(RemoveFirst(p, r)) == multiset(p) - multiset{r}
    ensures |RemoveFirst(p, r)| == |p| - 1
  {
    assert p == [p[0]] + p[1..];
    if p[0] == r {
      assert (p + o)[1..] == p[1..] + o;
    } else {
      assert (p + o)[1..] == p[1..] + o;
      RemoveFirstInPrefix(p[1..], o, r);
    }
  }

  // ---------------------------------------------------------------------------
  // Conservation: the tables are what they were plus exactly the live guards

  /** The part of a chain in front of what was there originally. */
  function Front(orig: seq<Rule>, now: seq<Rule>): seq<Rule> {
    if |orig| <= |now| then now[..|now| - |orig|] else []
  }

  ghost predicate ChainConserved(orig: seq<Rule>, now: seq<Rule>, c: Chain, live: multiset<Guard>) {
    && |orig| <= |now|
    && now == Front(orig, now) + orig
    && forall r :: multiset(Front(orig, now))[r] == if ChainOf(r) == c then live[OnChain(r)] else 0
  }

  ghost predicate LinksConserved(orig: Kernel, now: Kernel, live: multiset<Guard>) {
    forall i, a ::
      && live[OnLink(i, a)] <= 1
      && (OnLink(i, a) in live ==> (i, a) !in orig.links)
      && ((i, a) in now.links <==> (i, a) in orig.links || OnLink(i, a) in live)
  }

  /** Every chain is a permutation of the live guards' rules in front of the original chain,
      and the interfaces hold the original addresses plus the live guards' addresses. */
  ghost predicate Conserved(orig: Kernel, now: Kernel, live: multiset<Guard>) {
    && (forall c :: ChainConserved(orig.Rules(c), now.Rules(c), c, live))
    && LinksConserved(orig, now, live)
  }

  lemma ConservedInitially(k: Kernel)
    ensures Conserved(k, k, multiset{})
  {
    forall c ensures ChainConserved(k.Rules(c), k.Rules(c), c, multiset{}) {
      assert Front(k.Rules(c), k.Rules(c)) == [];
    }
  }

  predicate Touches(g: Guard, c: Chain) {
    g.OnChain? && ChainOf(g.rule) == c
  }

  /** The front of a chain after `g` has been added, respectively deleted. */
  function Pushed(front: seq<Rule>, g: Guard, c: Chain): seq<Rule> {
    if Touches(g, c) then [g.rule] + front else front
  }

  function Popped(front: seq<Rule>, g: Guard, c: Chain): seq<Rule> {
    if Touches(g, c) then RemoveFirst(front, g.rule) else front
  }

  lemma ChainAfterAdd(orig: seq<Rule>, now: seq<Rule>, c: Chain, live: multiset<Guard>, g: Guard)
    requires ChainConserved(orig, now, c, live)
    ensures ChainConserved(orig, Pushed(now, g, c), c, live + multiset{g})
    ensures Front(orig, Pushed(now, g, c)) == Pushed(Front(orig, now), g, c)
  {
    if Touches(g, c) {
      assert [g.rule] + now == ([g.rule] + Front(orig, now)) + orig;
      assert Front(orig, [g.rule] + now) == [g.rule] + Front(orig, now);
    }
  }

  lemma ChainAfterDelete(orig: seq<Rule>, now: seq<Rule>, c: Chain, live: multiset<Guard>, g: Guard)
    requires ChainConserved(orig, now, c, live) && g in live
    ensures Touches(g, c) ==> g.rule in Front(orig, now) && g.rule in now
    ensures ChainConserved(orig, Popped(now, g, c), c, live - multiset{g})
    ensures Front(orig, Popped(now, g, c)) == Popped(Front(orig, now), g, c)
  {
    if Touches(g, c) {
      var f := Front(orig, now);
      assert g.rule in multiset(f);
      RemoveFirstInPrefix(f, orig, g.rule);
      assert Front(orig, RemoveFirst(f, g.rule) + orig) == RemoveFirst(f, g.rule);
    }
  }

  lemma KernelAfterAdd(now: Kernel, g: Guard, c: Chain)
    requires now.Add(g).Some?
    ensures now.Add(g).value.Rules(c) == Pushed(now.Rules(c), g, c)
  {
  }

  lemma KernelAfterDelete(now: Kernel, g: Guard, c: Chain)
    requires now.Delete(g).Some?
    ensures now.Delete(g).value.Rules(c) == Popped(now.Rules(c), g, c)
  {
  }

  lemma LinksAfterAdd(orig: Kernel, now: Kernel, live: multiset<Guard>, g: Guard)
    requires LinksConserved(orig, now, live) && now.Add(g).Some?
    ensures LinksConserved(orig, now.Add(g).value, live + multiset{g})
    ensures g.OnLink? ==> (g.iface, g.addr) !in orig.links
  {
    if g.OnChain? {
      assert now.Add(g).value.links == now.links;
    }
  }

  lemma LinksAfterDelete(orig: Kernel, now: Kernel, live: multiset<Guard>, g: Guard)
    requires LinksConserved(orig, now, live) && g in live && now.Delete(g).Some?
    ensures LinksConserved(orig, now.Delete(g).value, live - multiset{g})
  {
    if g.OnChain? {
      assert now.Delete(g).value.links == now.links;
    } else {
      assert live[OnLink(g.iface, g.addr)] == 1;
    }
  }

  lemma AddKeepsConserved(orig: Kernel, now: Kernel, live: multiset<Guard>, g: Guard, next: Kernel)
    requires Conserved(orig, now, live) && now.Add(g) == Some(next)
    ensures Conserved(orig, next, live + multiset{g})
    ensures forall c :: Front(orig.Rules(c), next.Rules(c)) == Pushed(Front(orig.Rules(c), now.Rules(c)), g, c)
    ensures g.OnLink? ==> (g.iface, g.addr) !in orig.links
  {
    forall c
      ensures ChainConserved(orig.Rules(c), next.Rules(c), c, live + multiset{g})
      ensures Front(orig.Rules(c), next.Rules(c)) == Pushed(Front(orig.Rules(c), now.Rules(c)), g, c)
    {
      KernelAfterAdd(now, g, c);
      ChainAfterAdd(orig.Rules(c), now.Rules(c), c, live, g);
    }
    LinksAfterAdd(orig, now, live, g);
  }

  /** A live guard's `del` always finds what it deletes. */
  lemma LiveIsPresent(orig: Kernel, now: Kernel, live: multiset<Guard>, g: Guard)
    requires Conserved(orig, now, live) && g in live
    ensures now.Delete(g).Some?
    ensures g.OnChain? ==> g.rule in now.Rules(ChainOf(g.rule))
    ensures g.OnLink? ==> (g.iface, g.addr) in now.links
  {
    if g.OnChain? {
      var c := ChainOf(g.rule);
      ChainAfterDelete(orig.Rules(c), now.Rules(c), c, live, g);
    }
  }

  lemma DeleteKeepsConserved(orig: Kernel, now: Kernel, live: multiset<Guard>, g: Guard, next: Kernel)
    requires Conserved(orig, now, live) && g in live && now.Delete(g) == Some(next)
    ensures Conserved(orig, next, live - multiset{g})
    ensures forall c :: Front(orig.Rules(c), next.Rules(c)) == Popped(Front(orig.Rules(c), now.Rules(c)), g, c)
  {
    forall c
      ensures ChainConserved(orig.Rules(c), next.Rules(c), c, live - multiset{g})
      ensures Front(orig.Rules(c), next.Rules(c)) == Popped(Front(orig.Rules(c), now.Rules(c)), g, c)
    {
      KernelAfterDelete(now, g, c);
      ChainAfterDelete(orig.Rules(c), now.Rules(c), c, live, g);
    }
    LinksAfterDelete(orig, now, live, g);
  }

  /** With no live guard left the tables are the original ones, rule for rule. */
  lemma NothingLiveIsOriginal(orig: Kernel, now: Kernel)
    requires Conserved(orig, now, multiset{})
    ensures now == orig
  {
    forall c ensures now.Rules(c) == orig.Rules(c) {
      var f := Front(orig.Rules(c), now.Rules(c));
      assert ChainConserved(orig.Rules(c), now.Rules(c), c, multiset{});
      assert |f| > 0 ==> multiset(f)[f[0]] > 0;
    }
    assert now.in4 == now.Rules(Chain(IPv4, Input)) && now.out4 == now.Rules(Chain(IPv4, Output));
    assert now.in6 == now.Rules(Chain(IPv6, Input)) && now.out6 == now.Rules(Chain(IPv6, Output));
    assert orig.in4 == orig.Rules(Chain(IPv4, Input)) && orig.out4 == orig.Rules(Chain(IPv4, Output));
    assert orig.in6 == orig.Rules(Chain(IPv6, Input)) && orig.out6 == orig.Rules(Chain(IPv6, Output));
    assert forall l :: l in now.links <==> l in orig.links by {
      forall l ensures l in now.links <==> l in orig.links { var (i, a) := l; }
    }
  }
}
