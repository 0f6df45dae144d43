/**
 * The wake and the release of the addresses: exactly when a host's addresses are gone from the interface
 * by the time its wake is sent.
 */
module Release {
  import opened Net
  import opened Firewall
  import opened Capture
  import opened Emulation
  import opened System
  import opened Guarantees

  // ---------------------------------------------------------------------------
  // Which part of a plan can be put in place

  /** The addresses among the first `n` guards are new to the kernel and differ from each other. */
  ghost predicate NewLinks(k: Kernel, plan: seq<Guard>, n: nat)
    requires n <= |plan|
  {
    forall p :: 0 <= p < n && plan[p].OnLink? ==>
      (plan[p].iface, plan[p].addr) !in k.links && forall q :: 0 <= q < p ==> plan[q] != plan[p]
  }

  /** The first `n` addresses of a configuration are not on its interface yet and differ from each other. */
  predicate Fits(k: Kernel, cfg: Config, n: nat)
    requires n <= |cfg.addresses|
  {
    && (forall p :: 0 <= p < n ==> (cfg.iface, cfg.addresses[p]) !in k.links)
    && (forall p, q :: 0 <= p < q < n ==> cfg.addresses[p] != cfg.addresses[q])
  }

  /** The position of address `m` in the plan. */
  function LinkIndex(cfg: Config, m: nat): nat
    requires m < |cfg.addresses|
  {
    |PlanUpTo(cfg, m)| + |PlanFor(cfg.iface, cfg.addresses[m], cfg.ports)| - 1
  }

  lemma {:induction false} PlanPrefix(cfg: Config, m: nat, n: nat)
    requires m <= n <= |cfg.addresses|
    ensures PlanUpTo(cfg, m) <= PlanUpTo(cfg, n)
  {
    if m < n { PlanPrefix(cfg, m, n - 1); }
  }

  lemma LinkAt(cfg: Config, m: nat, n: nat)
    requires m < n <= |cfg.addresses|
    ensures LinkIndex(cfg, m) == |PlanUpTo(cfg, m + 1)| - 1 < |PlanUpTo(cfg, n)|
    ensures PlanUpTo(cfg, n)[LinkIndex(cfg, m)] == OnLink(cfg.iface, cfg.addresses[m])
  {
    PlanPrefix(cfg, m + 1, n);
    var here := PlanFor(cfg.iface, cfg.addresses[m], cfg.ports);
    assert PlanUpTo(cfg, m + 1) == PlanUpTo(cfg, m) + here;
    assert PlanUpTo(cfg, m + 1)[LinkIndex(cfg, m)] == here[|here| - 1];
  }

  lemma {:induction false} LinkFrom(cfg: Config, n: nat, p: nat) returns (m: nat)
    requires n <= |cfg.addresses| && p < |PlanUpTo(cfg, n)| && PlanUpTo(cfg, n)[p].OnLink?
    ensures m < n && p == LinkIndex(cfg, m) && PlanUpTo(cfg, n)[p] == OnLink(cfg.iface, cfg.addresses[m])
  {
    var front := PlanUpTo(cfg, n - 1);
    if p < |front| {
      m := LinkFrom(cfg, n - 1, p);
    } else {
      m := n - 1;
      assert PlanUpTo(cfg, n)[p] == PlanFor(cfg.iface, cfg.addresses[m], cfg.ports)[p - |front|];
      LinkIsLast(cfg, cfg.addresses[m], p - |front|);
    }
  }

  lemma NewLinksFit(k: Kernel, cfg: Config, n: nat, plan: seq<Guard>)
    requires n <= |cfg.addresses| && plan == PlanUpTo(cfg, n) && NewLinks(k, plan, |plan|)
    ensures Fits(k, cfg, n)
  {
    forall p | 0 <= p < n ensures (cfg.iface, cfg.addresses[p]) !in k.links {
      LinkAt(cfg, p, n);
      assert plan[LinkIndex(cfg, p)].OnLink?;
    }
    forall p, q | 0 <= p < q < n ensures cfg.addresses[p] != cfg.addresses[q] {
      LinkAt(cfg, p, n);
      LinkAt(cfg, q, n);
      LaterLink(cfg, p, q);
      assert plan[LinkIndex(cfg, q)].OnLink?;
    }
  }

  lemma LaterLink(cfg: Config, p: nat, q: nat)
    requires p < q < |cfg.addresses|
    ensures LinkIndex(cfg, p) < LinkIndex(cfg, q)
  {
    LinkAt(cfg, p, q);
  }

  lemma FitIsNew(k: Kernel, cfg: Config, n: nat, plan: seq<Guard>, p: nat)
    requires n <= |cfg.addresses| && plan == PlanUpTo(cfg, n) && Fits(k, cfg, n) && p < |plan| && plan[p].OnLink?
    ensures (plan[p].iface, plan[p].addr) !in k.links && forall q :: 0 <= q < p ==> plan[q] != plan[p]
  {
    var m := LinkFrom(cfg, n, p);
    forall q | 0 <= q < p ensures plan[q] != plan[p] {
      if plan[q].OnLink? { var l := LinkFrom(cfg, n, q); }
    }
  }

  /** The part of a plan up to address `n` can be put in place if and only if those addresses fit. */
  lemma FitsIff(k: Kernel, cfg: Config, n: nat, plan: seq<Guard>)
    requires n <= |cfg.addresses| && plan == PlanUpTo(cfg, n)
    ensures NewLinks(k, plan, |plan|) <==> Fits(k, cfg, n)
  {
    if NewLinks(k, plan, |plan|) { NewLinksFit(k, cfg, n, plan); }
    if Fits(k, cfg, n) {
      forall p | 0 <= p < |plan| && plan[p].OnLink?
        ensures (plan[p].iface, plan[p].addr) !in k.links && forall q :: 0 <= q < p ==> plan[q] != plan[p]
      {
        FitIsNew(k, cfg, n, plan, p);
      }
    }
  }

  // ---------------------------------------------------------------------------
  // What a host has put in place was new

  lemma LockGrowth(h: Host, a: HostAction, signaled: bool, h': Host, e: Effect)
    requires HostMove(h, a, signaled) == Some((h', e))
    ensures |h'.locks| <= |h.locks| || (h.pc.Setup? && h.pc.k < |h.plan| && e == Adds(h.plan[h.pc.k]) && |h'.locks| == |h.locks| + 1)
  {
  }

  /** The lock behind an address guard of a host. */
  lemma LockOf(h: Host, g: Guard) returns (p: nat)
    requires g.OnLink? && g in LiveGuards(h)
    ensures p < |h.locks| && h.locks[p].owned && h.locks[p].guard == g
  {
    if g in Gather(h.session.daws, SolicitationOf) {
      var d := GatherMember(h.session.daws, SolicitationOf, g);
    }
    p := GatherMember(h.locks, OwnedBy, g);
  }

  /** An address that a host adds successfully is new. */
  lemma AddedIsNew(k: Kernel, s: State, i: nat, next: Kernel)
    requires Inv(k, s) && i < |s.hosts| && s.hosts[i].pc.Setup? && s.hosts[i].pc.k < |s.hosts[i].plan|
    requires var h := s.hosts[i]; s.kernel.Add(h.plan[h.pc.k]) == Some(next) && NewLinks(k, h.plan, h.pc.k)
    ensures NewLinks(k, s.hosts[i].plan, s.hosts[i].pc.k + 1)
  {
    var h := s.hosts[i];
    var g := h.plan[h.pc.k];
    assert HostInv(h, s.signaled);
    if g.OnLink? {
      assert (g.iface, g.addr) !in s.kernel.links;
      assert LinksConserved(k, s.kernel, Gather(s.hosts, LiveGuards));
      forall q | 0 <= q < h.pc.k ensures h.plan[q] != g {
        LockIsLive(s, i, q);
      }
    }
  }

  ghost predicate LocksNew(k: Kernel, h: Host) {
    |h.locks| <= |h.plan| && NewLinks(k, h.plan, |h.locks|)
  }

  lemma StepLocksNew(k: Kernel, s: State, a: Action, s': State, i: nat)
    requires Inv(k, s) && Step(s, a) == Some(s') && i < |s.hosts| == |s'.hosts| && LocksNew(k, s.hosts[i])
    ensures LocksNew(k, s'.hosts[i])
  {
    if a.HostActs? && a.i == i {
      var Some((h, e)) := HostMove(s.hosts[i], a.host, s.signaled);
      HostMoveConfig(s.hosts[i], a.host, s.signaled, h, e);
      LockGrowth(s.hosts[i], a.host, s.signaled, h, e);
      if |h.locks| > |s.hosts[i].locks| {
        assert HostInv(s.hosts[i], s.signaled);
        AddedIsNew(k, s, i, s.kernel.Add(e.g).value);
      }
    }
  }

  lemma {:induction false} RunLocksNew(k: Kernel, cfgs: seq<Config>, actions: seq<Action>, s: State, i: nat)
    requires Run(Start(k, cfgs), actions) == Some(s) && i < |s.hosts|
    ensures LocksNew(k, s.hosts[i])
  {
    if actions != [] {
      var before := actions[..|actions| - 1];
      var t := Run(Start(k, cfgs), before).value;
      RunKeeps(k, cfgs, before, t);
      StepConfig(t, actions[|actions| - 1], s);
      RunLocksNew(k, cfgs, before, t, i);
      StepLocksNew(k, t, actions[|actions| - 1], s, i);
    }
  }

  lemma IcmpPhaseEntry(h: Host, a: HostAction, signaled: bool, h': Host, e: Effect)
    requires HostMove(h, a, signaled) == Some((h', e)) && IcmpBlocked(h'.pc)
    ensures IcmpBlocked(h.pc) || h.pc.Blocking?
  {
  }

  lemma StepPhaseEntry(s: State, a: Action, s': State, i: nat)
    requires Step(s, a) == Some(s') && i < |s.hosts| == |s'.hosts| && IcmpBlocked(s'.hosts[i].pc)
    ensures IcmpBlocked(s.hosts[i].pc) || s.hosts[i].pc.Blocking?
  {
    if a.HostActs? && a.i == i {
      var Some((h, e)) := HostMove(s.hosts[i], a.host, s.signaled);
      IcmpPhaseEntry(s.hosts[i], a.host, s.signaled, h, e);
    }
  }

  /** A host that has caught a packet had its whole plan in place. */
  lemma {:induction false} RunPlanNew(k: Kernel, cfgs: seq<Config>, actions: seq<Action>, s: State, i: nat)
    requires Run(Start(k, cfgs), actions) == Some(s) && i < |s.hosts| && IcmpBlocked(s.hosts[i].pc)
    ensures NewLinks(k, s.hosts[i].plan, |s.hosts[i].plan|)
  {
    if actions != [] {
      var before := actions[..|actions| - 1];
      var t := Run(Start(k, cfgs), before).value;
      RunKeeps(k, cfgs, before, t);
      StepConfig(t, actions[|actions| - 1], s);
      StepPhaseEntry(t, actions[|actions| - 1], s, i);
      if IcmpBlocked(t.hosts[i].pc) {
        RunPlanNew(k, cfgs, before, t, i);
      } else {
        assert HostInv(t.hosts[i], t.signaled);
        RunLocksNew(k, cfgs, before, t, i);
      }
    }
  }

  // ---------------------------------------------------------------------------
  // When the wake is sent, only another host can hold the address

  lemma NoLocksNoLinks(h: Host, g: Guard)
    requires h.locks == [] && g.OnLink?
    ensures g !in LiveGuards(h)
  {
    if g in LiveGuards(h) { var p := LockOf(h, g); }
  }

  lemma SendWakeAt(s: State, i: nat, ok: bool)
    requires Step(s, HostActs(i, Wake(SendWake(ok)))).Some?
    ensures i < |s.hosts| && s.hosts[i].pc.Waking?
  {
  }

  lemma WakingHoldsNoLocks(k: Kernel, s: State, i: nat)
    requires HostsInv(s) && i < |s.hosts| && s.hosts[i].pc.Waking?
    ensures s.hosts[i].locks == [] && IcmpBlocked(s.hosts[i].pc)
  {
    assert HostInv(s.hosts[i], s.signaled);
  }

  lemma OtherHolder(k: Kernel, s: State, i: nat, g: Guard) returns (other: nat)
    requires LinksConserved(k, s.kernel, Gather(s.hosts, LiveGuards)) && i < |s.hosts| && g !in LiveGuards(s.hosts[i])
    requires g.OnLink? && (g.iface, g.addr) !in k.links && (g.iface, g.addr) in s.kernel.links
    ensures other < |s.hosts| && other != i && g in LiveGuards(s.hosts[other])
  {
    other := GatherMember(s.hosts, LiveGuards, g);
  }

  /** A wake of host `i` is sent after these actions while its address `m` is on the interface. */
  ghost predicate WakesUnreleased(k: Kernel, cfgs: seq<Config>, actions: seq<Action>, i: nat, m: nat)
    requires i < |cfgs| && m < |cfgs[i].addresses|
  {
    var s := Run(Start(k, cfgs), actions);
    && s.Some? && (cfgs[i].iface, cfgs[i].addresses[m]) in s.value.kernel.links
    && exists ok :: Step(s.value, HostActs(i, Wake(SendWake(ok)))).Some?
  }

  /** Host `j` can take address `n` of its list, and that is address `m` of host `i`. */
  predicate Takes(k: Kernel, cfgs: seq<Config>, i: nat, m: nat, j: nat, n: nat)
    requires i < |cfgs| && m < |cfgs[i].addresses|
  {
    && j < |cfgs| && j != i && n < |cfgs[j].addresses|
    && cfgs[j].iface == cfgs[i].iface && cfgs[j].addresses[n] == cfgs[i].addresses[m]
    && Fits(k, cfgs[j], n + 1)
  }

  /** An address in the locks is one of the configuration, and fits with those before it. */
  lemma LockFits(k: Kernel, cfg: Config, plan: seq<Guard>, count: nat, p: nat) returns (n: nat)
    requires plan == Plan(cfg) && p < count <= |plan| && NewLinks(k, plan, count) && plan[p].OnLink?
    ensures n < |cfg.addresses| && plan[p] == OnLink(cfg.iface, cfg.addresses[n]) && Fits(k, cfg, n + 1)
  {
    n := LinkFrom(cfg, |cfg.addresses|, p);
    LinkAt(cfg, n, n + 1);
    PlanPrefix(cfg, n + 1, |cfg.addresses|);
    NewPrefix(k, PlanUpTo(cfg, n + 1), plan, count);
    NewLinksFit(k, cfg, n + 1, PlanUpTo(cfg, n + 1));
  }

  lemma NewPrefix(k: Kernel, front: seq<Guard>, plan: seq<Guard>, count: nat)
    requires front <= plan && |front| <= count <= |plan| && NewLinks(k, plan, count)
    ensures NewLinks(k, front, |front|)
  {
    assert forall p :: 0 <= p < |front| ==> front[p] == plan[p];
  }

  lemma HolderTakes(k: Kernel, cfgs: seq<Config>, actions: seq<Action>, s: State, i: nat, m: nat, j: nat) returns (n: nat)
    requires Run(Start(k, cfgs), actions) == Some(s) && i < |cfgs| == |s.hosts| && m < |cfgs[i].addresses|
    requires j < |s.hosts| && j != i && OnLink(cfgs[i].iface, cfgs[i].addresses[m]) in LiveGuards(s.hosts[j])
    ensures Takes(k, cfgs, i, m, j, n)
  {
    RunKeeps(k, cfgs, actions, s);
    RunFrame(k, cfgs, actions, s);
    RunLocksNew(k, cfgs, actions, s, j);
    var h := s.hosts[j];
    var p := LockOf(h, OnLink(cfgs[i].iface, cfgs[i].addresses[m]));
    assert HostInv(h, s.signaled);
    n := LockFits(k, cfgs[j], h.plan, |h.locks|, p);
  }

  /**
   * If a wake finds one of the host's addresses on the interface, then all the host's addresses fit, and another host
   * with the same interface can take that address.
   */
  lemma UnreleasedIsTaken(k: Kernel, cfgs: seq<Config>, actions: seq<Action>, i: nat, m: nat) returns (j: nat, n: nat)
    requires i < |cfgs| && m < |cfgs[i].addresses| && WakesUnreleased(k, cfgs, actions, i, m)
    ensures Fits(k, cfgs[i], |cfgs[i].addresses|) && Takes(k, cfgs, i, m, j, n)
  {
    var s := Run(Start(k, cfgs), actions).value;
    var ok :| Step(s, HostActs(i, Wake(SendWake(ok)))).Some?;
    RunKeeps(k, cfgs, actions, s);
    RunFrame(k, cfgs, actions, s);
    SendWakeAt(s, i, ok);
    WakingHoldsNoLocks(k, s, i);
    RunPlanNew(k, cfgs, actions, s, i);
    FitsIff(k, cfgs[i], |cfgs[i].addresses|, s.hosts[i].plan);
    var g := OnLink(cfgs[i].iface, cfgs[i].addresses[m]);
    NoLocksNoLinks(s.hosts[i], g);
    j := OtherHolder(k, s, i, g);
    n := HolderTakes(k, cfgs, actions, s, i, m, j);
  }

  /**
   * The wake is sent only after all the host's addresses are gone, in every run of configurations in which no other
   * host with the same interface lists one of them.
   */
  lemma WakeAfterRelease(k: Kernel, cfgs: seq<Config>, actions: seq<Action>, s: State, i: nat, ok: bool, m: nat)
    requires Run(Start(k, cfgs), actions) == Some(s) && Step(s, HostActs(i, Wake(SendWake(ok)))).Some?
    requires i < |cfgs| && m < |cfgs[i].addresses|
    requires forall j :: 0 <= j < |cfgs| && j != i && cfgs[j].iface == cfgs[i].iface ==>
               cfgs[i].addresses[m] !in cfgs[j].addresses
    ensures (cfgs[i].iface, cfgs[i].addresses[m]) !in s.kernel.links
  {
    if (cfgs[i].iface, cfgs[i].addresses[m]) in s.kernel.links {
      var j, n := UnreleasedIsTaken(k, cfgs, actions, i, m);
    }
  }
}
