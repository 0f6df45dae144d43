/** What every run of watchHost guarantees, whatever fails and however the threads interleave. */
module Guarantees {
  import opened Net
  import opened Firewall
  import opened Capture
  import opened Emulation
  import opened System
  import Magic

  lemma HostMoveConfig(h: Host, a: HostAction, signaled: bool, h': Host, e: Effect)
    requires HostMove(h, a, signaled) == Some((h', e))
    ensures h'.cfg == h.cfg && h'.plan == h.plan
  {
  }

  lemma StepConfig(s: State, a: Action, s': State)
    requires Step(s, a) == Some(s')
    ensures |s'.hosts| == |s.hosts|
    ensures forall i :: 0 <= i < |s.hosts| ==> s'.hosts[i].cfg == s.hosts[i].cfg && s'.hosts[i].plan == s.hosts[i].plan
  {
    if a.HostActs? {
      var Some((h, e)) := HostMove(s.hosts[a.i], a.host, s.signaled);
      HostMoveConfig(s.hosts[a.i], a.host, s.signaled, h, e);
    }
  }

  lemma {:induction false} RunFrame(k: Kernel, cfgs: seq<Config>, actions: seq<Action>, s: State)
    requires Run(Start(k, cfgs), actions) == Some(s)
    ensures |s.hosts| == |cfgs|
    ensures forall i :: 0 <= i < |cfgs| ==> s.hosts[i].cfg == cfgs[i] && s.hosts[i].plan == Plan(cfgs[i])
  {
    if actions == [] {
      assert forall i :: 0 <= i < |cfgs| ==> s.hosts[i] == StartedHost(cfgs[i]);
    } else {
      var t := Run(Start(k, cfgs), actions[..|actions| - 1]).value;
      RunFrame(k, cfgs, actions[..|actions| - 1], t);
      StepConfig(t, actions[|actions| - 1], s);
    }
  }

  /** No `del` and no unregistration ever misses its object, whatever fails and in whatever order guards go. */
  lemma DeletesNeverMiss(k: Kernel, cfgs: seq<Config>, actions: seq<Action>, s: State)
    requires Run(Start(k, cfgs), actions) == Some(s)
    ensures !s.fault
  {
    RunKeeps(k, cfgs, actions, s);
  }

  /** A chain is always some order of exactly the live guards' rules in front of the original chain. */
  lemma EveryChainConserved(k: Kernel, cfgs: seq<Config>, actions: seq<Action>, s: State, c: Chain, r: Rule)
    requires Run(Start(k, cfgs), actions) == Some(s)
    ensures var front := Front(k.Rules(c), s.kernel.Rules(c));
      && s.kernel.Rules(c) == front + k.Rules(c)
      && multiset(front)[r] == if ChainOf(r) == c then Gather(s.hosts, LiveGuards)[OnChain(r)] else 0
  {
    RunKeeps(k, cfgs, actions, s);
    assert ChainConserved(k.Rules(c), s.kernel.Rules(c), c, Gather(s.hosts, LiveGuards));
  }

  /** The addresses are the original ones and those of live guards, and no address has two live guards. */
  lemma EveryAddressConserved(k: Kernel, cfgs: seq<Config>, actions: seq<Action>, s: State, iface: string, a: IpAddress)
    requires Run(Start(k, cfgs), actions) == Some(s)
    ensures var live := Gather(s.hosts, LiveGuards)[OnLink(iface, a)];
      && ((iface, a) in s.kernel.links <==> (iface, a) in k.links || live > 0)
      && live <= 1 && (live == 1 ==> (iface, a) !in k.links)
  {
    RunKeeps(k, cfgs, actions, s);
    assert LinksConserved(k, s.kernel, Gather(s.hosts, LiveGuards));
    assert OnLink(iface, a) in Gather(s.hosts, LiveGuards) <==> Gather(s.hosts, LiveGuards)[OnLink(iface, a)] > 0;
  }

  lemma FinishedHoldsNothing(h: Host, signaled: bool)
    requires HostInv(h, signaled) && h.pc.Finished?
    ensures LiveGuards(h) == multiset{}
  {
    forall i | 0 <= i < |h.session.daws| ensures SolicitationOf(h.session.daws[i]) == multiset{} {
      assert DawInv(h.session.syn, h.session.daws[i]);
    }
    GatherEmpty(h.session.daws, SolicitationOf);
  }

  /** When all host threads have finished, every chain and every interface is as it was at the start. */
  lemma CleanTermination(k: Kernel, cfgs: seq<Config>, actions: seq<Action>, s: State)
    requires Run(Start(k, cfgs), actions) == Some(s)
    requires forall i :: 0 <= i < |s.hosts| ==> s.hosts[i].pc.Finished?
    ensures s.kernel == k
  {
    RunKeeps(k, cfgs, actions, s);
    forall i | 0 <= i < |s.hosts| ensures LiveGuards(s.hosts[i]) == multiset{} {
      FinishedHoldsNothing(s.hosts[i], s.signaled);
    }
    GatherEmpty(s.hosts, LiveGuards);
    NothingLiveIsOriginal(k, s.kernel);
  }

  /** A watcher whose thread never started or has been joined. */
  predicate Joined(s: Session) {
    && (s.wol.pc.Unstarted? || s.wol.pc.Exited?)
    && forall i :: 0 <= i < |s.daws| ==> s.daws[i].pc.Idle? || s.daws[i].pc.Done?
  }

  /**
   * No `break_loop` ever reaches a capture that is not alive; and once a capture is destroyed
   * its watchers are joined, it is not in `pcaps`, and the handler is not about to touch it.
   */
  lemma BreaksOnlyLiveCaptures(k: Kernel, cfgs: seq<Config>, actions: seq<Action>, s: State, i: nat)
    requires Run(Start(k, cfgs), actions) == Some(s) && i < |s.hosts|
    ensures !s.hosts[i].session.syn.stale
    ensures !s.hosts[i].session.syn.alive ==>
      && Joined(s.hosts[i].session)
      && i !in s.pcaps
      && (s.handler.Holds? ==> i !in s.handler.todo)
  {
    RunKeeps(k, cfgs, actions, s);
    var h := s.hosts[i];
    assert HostInv(h, s.signaled);
    if !h.session.syn.alive {
      forall j | 0 <= j < |h.session.daws| ensures h.session.daws[j].pc.Idle? || h.session.daws[j].pc.Done? {
        assert DawInv(h.session.syn, h.session.daws[j]);
      }
    }
  }

  /** The end of a capture as `wait_and_listen` sees it. */
  predicate LoopEnded(pc: Pc) {
    (pc.Stopping? || pc.Closing? || pc.Deciding?) && pc.w.Waited?
  }

  /**
   * If `loop` returns at all, its reason is `packets_captured` exactly when `pcap_loop` gave 0, and
   * otherwise a reason with which some thread called `break_loop`; it is never `unset` or `error`.
   */
  lemma LoopNeverUnset(k: Kernel, cfgs: seq<Config>, actions: seq<Action>, s: State, i: nat)
    requires Run(Start(k, cfgs), actions) == Some(s) && i < |s.hosts| && LoopEnded(s.hosts[i].pc)
    ensures var (r, y) := (s.hosts[i].pc.w.reason, s.hosts[i].session);
      && (r == Captured <==> y.result == Some(Zero))
      && (r != Captured ==> r in y.syn.written && (r == Signal || r == Duplicate))
  {
    RunKeeps(k, cfgs, actions, s);
    assert HostInv(s.hosts[i], s.signaled);
  }

  /**
   * Causality: `duplicate_address` means that an occupancy check was positive or a magic packet was
   * seen, `signal_received` that the handler ran on the registered capture or a duplicate-address
   * thread caught an exception, and `undefined_error` does not happen.
   */
  lemma StatusHasCause(k: Kernel, cfgs: seq<Config>, actions: seq<Action>, s: State, i: nat)
    requires Run(Start(k, cfgs), actions) == Some(s) && i < |s.hosts| && s.hosts[i].pc.Returned?
    ensures var (o, causes) := (s.hosts[i].pc.o, s.hosts[i].session.syn.causes);
      && (o == Ended(DuplicateAddress) ==> OccupiedSeen in causes || MagicPacketSeen in causes)
      && (o == Ended(SignalReceived) ==> HandlerRan in causes || ExceptionCaught in causes)
      && o != Ended(UndefinedError)
  {
    RunKeeps(k, cfgs, actions, s);
    assert HostInv(s.hosts[i], s.signaled);
  }

  /** What happens in state `s` with action `a` when a cause is recorded for host `i`. */
  predicate Gives(s: State, a: Action, i: nat, c: Cause)
    requires i < |s.hosts|
  {
    match c
    case HandlerRan => a.HandlerWrites? && s.handler.Holds? && s.handler.todo != [] && s.handler.todo[0] == i
    case MagicPacketSeen =>
      Watches(a, i) && a.host.watcher.WolActs? && a.host.watcher.wol.PacketSniffed?
      && Magic.IsMagicPacket(a.host.watcher.wol.data, s.hosts[i].cfg.mac)
    case OccupiedSeen =>
      Watches(a, i) && a.host.watcher.DawActs? && a.host.watcher.daw == Check(Occupied)
    case ExceptionCaught =>
      Watches(a, i) && a.host.watcher.DawActs?
      && (a.host.watcher.daw == Check(CheckThrew) || a.host.watcher.daw == BlockSolicitation(false))
  }

  predicate Watches(a: Action, i: nat) {
    a.HostActs? && a.i == i && a.host.Watcher?
  }

  /** Host `i` opens a new capture. */
  predicate Opens(a: Action, i: nat) {
    a == HostActs(i, Wait(OpenCapture(true)))
  }

  lemma NewWatcherCause(s: State, i: nat, w: WatcherAction, y: Session, e: Effect, c: Cause)
    requires i < |s.hosts| && WatcherStep(s.hosts[i].session, w, s.hosts[i].cfg.mac) == Some((y, e))
    requires c in y.syn.causes && c !in s.hosts[i].session.syn.causes
    ensures Gives(s, HostActs(i, Watcher(w)), i, c)
  {
  }

  lemma OnlyWatchersNote(h: Host, act: HostAction, signaled: bool, h': Host, e: Effect, c: Cause)
    requires HostMove(h, act, signaled) == Some((h', e)) && c in h'.session.syn.causes
    ensures act != Wait(OpenCapture(true))
    ensures c in h.session.syn.causes || act.Watcher?
  {
  }

  lemma StepCause(s: State, a: Action, s': State, i: nat, c: Cause)
    requires Step(s, a) == Some(s') && i < |s.hosts| == |s'.hosts| && c in s'.hosts[i].session.syn.causes
    ensures !Opens(a, i) && (c in s.hosts[i].session.syn.causes || Gives(s, a, i, c))
  {
    if a.HostActs? && a.i == i {
      var Some((h, e)) := HostMove(s.hosts[i], a.host, s.signaled);
      OnlyWatchersNote(s.hosts[i], a.host, s.signaled, h, e, c);
      if c !in s.hosts[i].session.syn.causes { NewWatcherCause(s, i, a.host.watcher, h.session, e, c); }
    }
  }

  /**
   * Action `n` of the run gave the cause, in the reachable state `at`; host `i` has opened no capture since, and
   * if it was the handler then on the registered, live capture of host `i`.
   */
  ghost predicate GivenAt(k: Kernel, cfgs: seq<Config>, actions: seq<Action>, i: nat, c: Cause, n: nat, at: State) {
    && n < |actions| && Run(Start(k, cfgs), actions[..n]) == Some(at)
    && i < |at.hosts| == |cfgs| && at.hosts[i].cfg == cfgs[i] && Gives(at, actions[n], i, c)
    && (c == HandlerRan ==> i in at.pcaps && at.hosts[i].session.syn.alive)
    && forall m :: n <= m < |actions| ==> !Opens(actions[m], i)
  }

  lemma GivenEarlier(k: Kernel, cfgs: seq<Config>, actions: seq<Action>, i: nat, c: Cause, n: nat, at: State)
    requires actions != [] && !Opens(actions[|actions| - 1], i)
    requires GivenAt(k, cfgs, actions[..|actions| - 1], i, c, n, at)
    ensures GivenAt(k, cfgs, actions, i, c, n, at)
  {
    var before := actions[..|actions| - 1];
    assert before[..n] == actions[..n] && forall m :: 0 <= m < |before| ==> before[m] == actions[m];
  }

  lemma GivenNow(k: Kernel, cfgs: seq<Config>, actions: seq<Action>, i: nat, c: Cause, at: State)
    requires actions != [] && !Opens(actions[|actions| - 1], i)
    requires Run(Start(k, cfgs), actions[..|actions| - 1]) == Some(at) && i < |at.hosts| && i < |cfgs|
    requires Gives(at, actions[|actions| - 1], i, c)
    ensures GivenAt(k, cfgs, actions, i, c, |actions| - 1, at)
  {
    RunKeeps(k, cfgs, actions[..|actions| - 1], at);
    RunFrame(k, cfgs, actions[..|actions| - 1], at);
    HandlerAtRegistered(k, at, i, c, actions[|actions| - 1]);
  }

  lemma SamePopulation(k: Kernel, cfgs: seq<Config>, actions: seq<Action>, s: State)
    requires Run(Start(k, cfgs), actions) == Some(s)
    ensures |s.hosts| == |cfgs|
  {
    RunFrame(k, cfgs, actions, s);
  }

  lemma NothingNotedAtStart(k: Kernel, cfgs: seq<Config>, i: nat)
    requires i < |cfgs|
    ensures Start(k, cfgs).hosts[i].session.syn.causes == {}
  {
  }

  /**
   * Every recorded cause is an event of the run that happened after the host's latest capture was opened:
   * a magic packet for the host's own mac, a positive check, an exception, or the handler at this host.
   */
  lemma {:induction false} CauseIsEvent(k: Kernel, cfgs: seq<Config>, actions: seq<Action>, s: State, i: nat, c: Cause)
      returns (n: nat, at: State)
    requires Run(Start(k, cfgs), actions) == Some(s) && i < |cfgs| == |s.hosts| && c in s.hosts[i].session.syn.causes
    ensures GivenAt(k, cfgs, actions, i, c, n, at)
  {
    NothingNotedAtStart(k, cfgs, i);
    var before := actions[..|actions| - 1];
    var t := Run(Start(k, cfgs), before).value;
    SamePopulation(k, cfgs, before, t);
    StepCause(t, actions[|actions| - 1], s, i, c);
    if c in t.hosts[i].session.syn.causes {
      n, at := CauseIsEvent(k, cfgs, before, t, i, c);
      GivenEarlier(k, cfgs, actions, i, c, n, at);
    } else {
      n, at := |actions| - 1, t;
      GivenNow(k, cfgs, actions, i, c, t);
    }
  }

  lemma HandlerAtRegistered(k: Kernel, s: State, i: nat, c: Cause, a: Action)
    requires Inv(k, s) && i < |s.hosts| && Gives(s, a, i, c)
    ensures c == HandlerRan ==> i in s.pcaps && s.hosts[i].session.syn.alive
  {
    if c == HandlerRan {
      assert s.handler.todo[0] in s.pcaps;
      RegisteredAlive(s.hosts[i], s.signaled);
    }
  }

  /**
   * A host thread starts at most one emulation after the signal flag is set, and it is in a further
   * round only if the last emulation ended in success or in a duplicate address.
   */
  lemma RoundsAreBounded(k: Kernel, cfgs: seq<Config>, actions: seq<Action>, s: State, i: nat)
    requires Run(Start(k, cfgs), actions) == Some(s) && i < |s.hosts|
    ensures s.hosts[i].lateStarts <= 1
    ensures !s.hosts[i].pc.AtLoopHead? && !s.hosts[i].pc.Finished? && s.hosts[i].last.Some? ==>
      s.hosts[i].last.value == Ended(Woken) || s.hosts[i].last.value == Ended(DuplicateAddress)
  {
    RunKeeps(k, cfgs, actions, s);
    assert HostInv(s.hosts[i], s.signaled);
  }

  // ---------------------------------------------------------------------------
  // Order of setup, wake and release

  lemma {:induction false} OwnedIsGathered(locks: seq<Slot>, j: nat)
    requires j < |locks| && locks[j].owned
    ensures locks[j].guard in Gather(locks, OwnedBy)
  {
    if j > 0 { OwnedIsGathered(locks[1..], j - 1); }
  }

  lemma LockIsLive(s: State, i: nat, j: nat)
    requires i < |s.hosts| && j < |s.hosts[i].locks| && s.hosts[i].locks[j].owned
    ensures s.hosts[i].locks[j].guard in Gather(s.hosts, LiveGuards)
  {
    OwnedIsGathered(s.hosts[i].locks, j);
    GatherIncludes(s.hosts, i, LiveGuards);
  }

  /** The rules that shield an address are in the chains as soon as its guard is, until the guards are released. */
  lemma LinkIsShielded(k: Kernel, s: State, i: nat, j: nat, r: Rule)
    requires Inv(k, s) && i < |s.hosts| && s.hosts[i].plan == Plan(s.hosts[i].cfg)
    requires Held(s.hosts[i].pc, |s.hosts[i].plan|).Some?
    requires j < |s.hosts[i].locks| && s.hosts[i].locks[j].guard.OnLink?
    requires Shields(s.hosts[i].cfg, s.hosts[i].locks[j].guard.addr, r)
    ensures r in s.kernel.Rules(ChainOf(r))
  {
    var h := s.hosts[i];
    assert HostInv(h, s.signaled);
    PlanShieldsFirst(h.cfg, |h.cfg.addresses|, j, r);
    var m :| 0 <= m < j && h.plan[m] == OnChain(r);
    LockIsLive(s, i, m);
    LiveIsPresent(k, s.kernel, Gather(s.hosts, LiveGuards), OnChain(r));
  }

  /** The lock behind an address that was not there originally. */
  lemma LockOfLink(k: Kernel, s: State, iface: string, a: IpAddress) returns (i: nat, j: nat)
    requires LinksConserved(k, s.kernel, Gather(s.hosts, LiveGuards))
    requires (iface, a) in s.kernel.links && (iface, a) !in k.links
    ensures i < |s.hosts| && j < |s.hosts[i].locks| && s.hosts[i].locks[j].guard == OnLink(iface, a)
  {
    var g := OnLink(iface, a);
    assert g in Gather(s.hosts, LiveGuards);
    i := GatherMember(s.hosts, LiveGuards, g);
    var h := s.hosts[i];
    if g in Gather(h.session.daws, SolicitationOf) {
      var d := GatherMember(h.session.daws, SolicitationOf, g);
    }
    j := GatherMember(h.locks, OwnedBy, g);
  }

  /**
   * Every address on an interface that was not there at the start belongs to some host, and unless that host is
   * releasing its guards, the reject rules and all the drop rules for the address are in the chains.
   */
  lemma ShieldedBeforeAddressed(k: Kernel, cfgs: seq<Config>, actions: seq<Action>, s: State, iface: string, a: IpAddress)
      returns (i: nat)
    requires Run(Start(k, cfgs), actions) == Some(s)
    requires (iface, a) in s.kernel.links && (iface, a) !in k.links
    ensures i < |cfgs| == |s.hosts| && iface == cfgs[i].iface && a in cfgs[i].addresses
    ensures s.hosts[i].pc.Clearing? || s.hosts[i].pc.Unlocking? ||
      forall r :: Shields(cfgs[i], a, r) ==> r in s.kernel.Rules(ChainOf(r))
  {
    RunKeeps(k, cfgs, actions, s);
    RunFrame(k, cfgs, actions, s);
    var j;
    i, j := LockOfLink(k, s, iface, a);
    var h := s.hosts[i];
    assert HostInv(h, s.signaled);
    assert h.plan[j] in h.plan;
    PlanMember(h.cfg, |h.cfg.addresses|, OnLink(iface, a));
    if !h.pc.Clearing? && !h.pc.Unlocking? {
      forall r | Shields(cfgs[i], a, r) ensures r in s.kernel.Rules(ChainOf(r)) { LinkIsShielded(k, s, i, j, r); }
    }
  }

  /** From the first released guard to the end of `emulate_host`, unreachable messages to the client are dropped. */
  lemma ClientShielded(k: Kernel, cfgs: seq<Config>, actions: seq<Action>, s: State, i: nat)
    requires Run(Start(k, cfgs), actions) == Some(s) && i < |s.hosts| && IcmpBlocked(s.hosts[i].pc)
    ensures s.hosts[i].client.Some?
    ensures var r := DropUnreachable(s.hosts[i].client.value); r in s.kernel.Rules(ChainOf(r))
  {
    RunKeeps(k, cfgs, actions, s);
    var h := s.hosts[i];
    assert HostInv(h, s.signaled);
    assert OnChain(DropUnreachable(h.client.value)) in LiveGuards(h);
    GatherIncludes(s.hosts, i, LiveGuards);
    LiveIsPresent(k, s.kernel, Gather(s.hosts, LiveGuards), OnChain(DropUnreachable(h.client.value)));
  }
}
