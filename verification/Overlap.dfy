/**
 * Two hosts that share an address: whenever the configurations allow it, there is a run in which one of them takes
 * the address between the other's release and its wake.  The run is built phase by phase.
 */
module Overlap {
  import opened Net
  import opened Firewall
  import opened Capture
  import opened Emulation
  import opened System
  import opened Guarantees
  import opened Release

  // ---------------------------------------------------------------------------
  // Steps of one host that nothing can prevent

  predicate Unhindered(e: Effect) {
    !e.Raises? && (e.Adds? ==> e.g.OnChain?)
  }

  /** The host after some of its own steps, none of which can be prevented from outside. */
  function Alone(h: Host, acts: seq<HostAction>): Option<Host> {
    if acts == [] then Some(h)
    else
      match Alone(h, acts[..|acts| - 1])
      case None => None
      case Some(t) => (
        match HostMove(t, acts[|acts| - 1], false)
        case None => None
        case Some((h', e)) => if Unhindered(e) then Some(h') else None)
  }

  ghost predicate Leads(h: Host, h': Host) {
    exists acts :: Alone(h, acts) == Some(h')
  }

  lemma LeadsNowhere(h: Host)
    ensures Leads(h, h)
  {
    assert Alone(h, []) == Some(h);
  }

  lemma LeadsOn(h: Host, t: Host, a: HostAction, h': Host, e: Effect)
    requires Leads(h, t) && HostMove(t, a, false) == Some((h', e)) && Unhindered(e)
    ensures Leads(h, h')
  {
    var acts :| Alone(h, acts) == Some(t);
    assert (acts + [a])[..|acts|] == acts;
    assert Alone(h, acts + [a]) == Some(h');
  }

  /** One more step, given by its result. */
  lemma Then(h: Host, t: Host, a: HostAction) returns (h': Host)
    requires Leads(h, t) && HostMove(t, a, false).Some? && Unhindered(HostMove(t, a, false).value.1)
    ensures HostMove(t, a, false).value.0 == h' && Leads(h, h')
  {
    var Some((next, e)) := HostMove(t, a, false);
    h' := next;
    LeadsOn(h, t, a, h', e);
  }

  // ---------------------------------------------------------------------------
  // From the first watcher to a caught packet

  ghost predicate SameLocks(h: Host, h': Host) {
    h'.cfg == h.cfg && h'.plan == h.plan && h'.locks == h.locks
  }

  /** A watcher whose thread has not come further than its first check. */
  predicate Fresh(d: Daw) {
    d.guard.Running? && (d.pc.Testing? || d.pc.BlockingSolicitation?)
  }

  predicate Watching(s: Session, j: nat) {
    && (j > 0 ==> s.wol.guard.Running? && s.wol.pc.Sniffing?)
    && (j > 1 ==> s.registered)
    && forall d :: 0 <= d < |s.daws| && d + 2 < j ==> Fresh(s.daws[d])
  }

  lemma WatchingNext(s: Session, j: nat)
    requires j < |s.daws| + 2 && Watching(s, j)
    ensures Watching(BuildGuard(s, j), j + 1) && |BuildGuard(s, j).daws| == |s.daws|
  {
  }

  lemma {:induction false} BuildsAll(h: Host, t: Host) returns (h': Host)
    requires Leads(h, t) && t.pc.Building? && t.pc.j <= |t.session.daws| + 2 && Watching(t.session, t.pc.j)
    ensures Leads(h, h') && SameLocks(t, h') && h'.pc.Filtering? && Watching(h'.session, |h'.session.daws| + 2)
    decreases |t.session.daws| + 2 - t.pc.j
  {
    h' := Then(h, t, Wait(BuildNext(true)));
    if t.pc.j < |t.session.daws| + 2 {
      WatchingNext(t.session, t.pc.j);
      h' := BuildsAll(h, h');
    }
  }

  lemma Catches(h: Host, t: Host, sender: Ip) returns (h': Host)
    requires Leads(h, t) && t.pc.Filtering? && Watching(t.session, |t.session.daws| + 2)
    ensures Leads(h, h') && SameLocks(t, h') && h'.pc == Stopping(Waited(Captured, Some(sender)))
    ensures Watching(h'.session, |h'.session.daws| + 2)
  {
    h' := Then(h, t, Wait(InstallFilter(true)));
    h' := Then(h, h', Wait(LoopEnds(Zero, Some(sender))));
    h' := Then(h, h', Wait(ReadReason));
  }

  // ---------------------------------------------------------------------------
  // Stopping the watchers

  lemma StopsWol(h: Host, t: Host) returns (h': Host)
    requires Leads(h, t) && t.pc.Stopping? && t.session.wol.guard.Running? && t.session.wol.pc.Sniffing?
    ensures Leads(h, h') && SameLocks(t, h') && h'.pc == t.pc && h'.session.wol.guard.Gone?
    ensures h'.session.daws == t.session.daws && h'.session.registered == t.session.registered
  {
    h' := Then(h, t, Watcher(WolActs(InnerEnds(true))));
    h' := Then(h, h', Stop(StopWol));
    h' := Then(h, h', Stop(RequestWolStop));
    h' := Then(h, h', Stop(JoinWol));
  }

  lemma StopsDaw(h: Host, t: Host, d: nat) returns (h': Host)
    requires Leads(h, t) && t.pc.Stopping? && d < |t.session.daws| && Fresh(t.session.daws[d])
    ensures Leads(h, h') && SameLocks(t, h') && h'.pc == t.pc && h'.session.wol == t.session.wol
    ensures h'.session.registered == t.session.registered
    ensures |h'.session.daws| == |t.session.daws| && h'.session.daws[d].guard.Gone?
    ensures forall i :: 0 <= i < |t.session.daws| && i != d ==> h'.session.daws[i] == t.session.daws[i]
  {
    h' := Then(h, t, Stop(StopDaw(d)));
    if h'.session.daws[d].pc.BlockingSolicitation? {
      h' := Then(h, h', Watcher(DawActs(d, BlockSolicitation(true))));
    }
    h' := Then(h, h', Watcher(DawActs(d, Test)));
    h' := Then(h, h', Watcher(DawActs(d, Leave)));
    h' := Then(h, h', Stop(JoinDaw(d)));
  }

  lemma {:induction false} StopsDaws(h: Host, t: Host, d: nat) returns (h': Host)
    requires Leads(h, t) && t.pc.Stopping? && d <= |t.session.daws|
    requires forall i :: 0 <= i < d ==> t.session.daws[i].guard.Gone?
    requires forall i :: d <= i < |t.session.daws| ==> Fresh(t.session.daws[i])
    ensures Leads(h, h') && SameLocks(t, h') && h'.pc == t.pc && h'.session.wol == t.session.wol
    ensures h'.session.registered == t.session.registered
    ensures forall i :: 0 <= i < |h'.session.daws| ==> h'.session.daws[i].guard.Gone?
    decreases |t.session.daws| - d
  {
    h' := t;
    if d < |t.session.daws| {
      h' := StopsDaw(h, t, d);
      h' := StopsDaws(h, h', d + 1);
    }
  }

  lemma StopsAll(h: Host, t: Host) returns (h': Host)
    requires Leads(h, t) && t.pc.Stopping? && Watching(t.session, |t.session.daws| + 2)
    ensures Leads(h, h') && SameLocks(t, h') && h'.pc == Closing(t.pc.w)
  {
    h' := StopsWol(h, t);
    h' := StopsDaws(h, h', 0);
    h' := Then(h, h', Stop(Unregister));
    h' := Then(h, h', Wait(StopsComplete));
  }

  // ---------------------------------------------------------------------------
  // The release

  lemma ReachesRelease(h: Host, t: Host, sender: Ip) returns (h': Host)
    requires Leads(h, t) && t.pc == Closing(Waited(Captured, Some(sender)))
    ensures Leads(h, h') && SameLocks(t, h') && h'.pc.Clearing?
  {
    h' := Then(h, t, Wait(CloseCapture));
    h' := Then(h, h', Wake(Decide));
    h' := Then(h, h', Wake(BlockIcmp(true)));
  }

  lemma {:induction false} FreesAll(h: Host, t: Host, p: nat) returns (h': Host)
    requires Leads(h, t) && t.pc.Clearing? && p <= |t.locks| && forall q :: 0 <= q < p ==> !t.locks[q].owned
    ensures Leads(h, h') && h'.cfg == t.cfg && h'.plan == t.plan && h'.pc.Clearing? && AllFreed(h'.locks)
    decreases |t.locks| - p
  {
    h' := t;
    if p < |t.locks| {
      if t.locks[p].owned { h' := Then(h, t, Lock(ClearOne(p))); }
      h' := FreesAll(h, h', p + 1);
    }
  }

  /** A host with its plan in place can catch a packet and release all its guards. */
  lemma CatchesAndReleases(h: Host) returns (h': Host)
    requires h.pc == Setup(|h.plan|)
    ensures Leads(h, h') && h'.cfg == h.cfg && h'.plan == h.plan && h'.pc.Clearing? && AllFreed(h'.locks)
  {
    var sender := Ip(IPv4, [10, 0, 0, 1]);
    LeadsNowhere(h);
    h' := Then(h, h, Wait(OpenCapture(true)));
    h' := BuildsAll(h, h');
    h' := Catches(h, h', sender);
    h' := StopsAll(h, h');
    h' := ReachesRelease(h, h', sender);
    h' := FreesAll(h, h', 0);
  }

  /** A host thread can come to its setup. */
  lemma StartsSetup(h: Host) returns (h': Host)
    requires h.pc == AtLoopHead(true)
    ensures Leads(h, h') && SameLocks(h, h') && h'.pc == Setup(0) && h'.session == h.session
  {
    LeadsNowhere(h);
    h' := Then(h, h, Round(EnterRound));
    h' := Then(h, h', Round(PingHost(false)));
    h' := Then(h, h', Round(LeavePing));
    h' := Then(h, h', Round(StartEmulation));
  }

  // ---------------------------------------------------------------------------
  // The same steps in the whole system

  /** A reachable state in which no signal has arrived. */
  ghost predicate Reached(k: Kernel, cfgs: seq<Config>, s: State) {
    && s.handler.Free? && !s.signaled
    && exists actions :: Run(Start(k, cfgs), actions) == Some(s)
  }

  /** `t` differs from `s` in host `i` and the tables. */
  ghost predicate OnlyHost(s: State, t: State, i: nat) {
    |t.hosts| == |s.hosts| && forall j :: 0 <= j < |s.hosts| && j != i ==> t.hosts[j] == s.hosts[j]
  }

  lemma ReachedFacts(k: Kernel, cfgs: seq<Config>, s: State)
    requires Reached(k, cfgs, s)
    ensures Inv(k, s) && |s.hosts| == |cfgs|
    ensures forall i :: 0 <= i < |cfgs| ==> s.hosts[i].cfg == cfgs[i] && s.hosts[i].plan == Plan(cfgs[i])
  {
    var actions :| Run(Start(k, cfgs), actions) == Some(s);
    RunKeeps(k, cfgs, actions, s);
    RunFrame(k, cfgs, actions, s);
  }

  lemma OneMore(k: Kernel, cfgs: seq<Config>, s: State, a: Action, t: State)
    requires Reached(k, cfgs, s) && Step(s, a) == Some(t) && t.handler.Free? && !t.signaled
    ensures Reached(k, cfgs, t)
  {
    var actions :| Run(Start(k, cfgs), actions) == Some(s);
    assert (actions + [a])[..|actions|] == actions;
    assert Run(Start(k, cfgs), actions + [a]) == Some(t);
  }

  lemma HostStep(k: Kernel, cfgs: seq<Config>, s: State, i: nat, a: HostAction, h: Host, e: Effect) returns (t: State)
    requires Reached(k, cfgs, s) && i < |s.hosts| && HostMove(s.hosts[i], a, false) == Some((h, e)) && !e.Raises?
    requires e.Adds? ==> s.kernel.Add(e.g).Some?
    ensures Reached(k, cfgs, t) && OnlyHost(s, t, i) && t.hosts[i] == h
  {
    var u := TakeEffect(s, i, e).value;
    t := u.(hosts := s.hosts[i := h]);
    OneMore(k, cfgs, s, HostActs(i, a), t);
  }

  lemma {:induction false} RunsAlone(k: Kernel, cfgs: seq<Config>, s: State, i: nat, acts: seq<HostAction>, h: Host)
      returns (t: State)
    requires Reached(k, cfgs, s) && i < |s.hosts| && Alone(s.hosts[i], acts) == Some(h)
    ensures Reached(k, cfgs, t) && OnlyHost(s, t, i) && t.hosts[i] == h
  {
    if acts == [] {
      t := s;
    } else {
      var before := Alone(s.hosts[i], acts[..|acts| - 1]).value;
      var u := RunsAlone(k, cfgs, s, i, acts[..|acts| - 1], before);
      var Some((_, e)) := HostMove(before, acts[|acts| - 1], false);
      t := HostStep(k, cfgs, u, i, acts[|acts| - 1], h, e);
    }
  }

  lemma Follows(k: Kernel, cfgs: seq<Config>, s: State, i: nat, h: Host) returns (t: State)
    requires Reached(k, cfgs, s) && i < |s.hosts| && Leads(s.hosts[i], h)
    ensures Reached(k, cfgs, t) && OnlyHost(s, t, i) && t.hosts[i] == h
  {
    var acts :| Alone(s.hosts[i], acts) == Some(h);
    t := RunsAlone(k, cfgs, s, i, acts, h);
  }

  // ---------------------------------------------------------------------------
  // Taking addresses, which only succeeds where they are new

  ghost predicate HoldsNoLinks(h: Host) {
    forall g :: g in LiveGuards(h) ==> !g.OnLink?
  }

  lemma FreedHoldsNoLinks(h: Host)
    requires AllFreed(h.locks)
    ensures HoldsNoLinks(h)
  {
    forall g | g in LiveGuards(h) ensures !g.OnLink? {
      if g.OnLink? { var p := LockOf(h, g); }
    }
  }

  /** A new address can be added while no other host holds any. */
  lemma NextAddWorks(k: Kernel, s: State, i: nat)
    requires Inv(k, s) && i < |s.hosts| && s.hosts[i].pc.Setup? && s.hosts[i].pc.k < |s.hosts[i].plan|
    requires NewLinks(k, s.hosts[i].plan, s.hosts[i].pc.k + 1)
    requires forall j :: 0 <= j < |s.hosts| && j != i ==> HoldsNoLinks(s.hosts[j])
    ensures s.kernel.Add(s.hosts[i].plan[s.hosts[i].pc.k]).Some?
  {
    var h := s.hosts[i];
    var g := h.plan[h.pc.k];
    assert HostInv(h, s.signaled);
    assert LinksConserved(k, s.kernel, Gather(s.hosts, LiveGuards));
    if g.OnLink? && g in Gather(s.hosts, LiveGuards) { var p := OwnLock(s, i, g); }
  }

  lemma OwnLock(s: State, i: nat, g: Guard) returns (p: nat)
    requires i < |s.hosts| && g.OnLink? && g in Gather(s.hosts, LiveGuards)
    requires forall j :: 0 <= j < |s.hosts| && j != i ==> HoldsNoLinks(s.hosts[j])
    ensures p < |s.hosts[i].locks| && s.hosts[i].locks[p].guard == g
  {
    var j := GatherMember(s.hosts, LiveGuards, g);
    p := LockOf(s.hosts[j], g);
  }

  lemma AcquiresOne(k: Kernel, cfgs: seq<Config>, s: State, i: nat) returns (t: State)
    requires Reached(k, cfgs, s) && i < |s.hosts| && s.hosts[i].pc.Setup? && s.hosts[i].pc.k < |s.hosts[i].plan|
    requires NewLinks(k, s.hosts[i].plan, s.hosts[i].pc.k + 1)
    requires forall j :: 0 <= j < |s.hosts| && j != i ==> HoldsNoLinks(s.hosts[j])
    ensures Reached(k, cfgs, t) && OnlyHost(s, t, i) && t.hosts[i].pc == Setup(s.hosts[i].pc.k + 1)
    ensures t.hosts[i].plan == s.hosts[i].plan
  {
    ReachedFacts(k, cfgs, s);
    NextAddWorks(k, s, i);
    var Some((h, e)) := HostMove(s.hosts[i], Lock(Acquire(true)), false);
    t := HostStep(k, cfgs, s, i, Lock(Acquire(true)), h, e);
  }

  lemma {:induction false} AcquiresUpTo(k: Kernel, cfgs: seq<Config>, s: State, i: nat, n: nat) returns (t: State)
    requires Reached(k, cfgs, s) && i < |s.hosts| && s.hosts[i].pc.Setup? && s.hosts[i].pc.k <= n <= |s.hosts[i].plan|
    requires NewLinks(k, s.hosts[i].plan, n)
    requires forall j :: 0 <= j < |s.hosts| && j != i ==> HoldsNoLinks(s.hosts[j])
    ensures Reached(k, cfgs, t) && OnlyHost(s, t, i) && t.hosts[i].pc == Setup(n)
    decreases n - s.hosts[i].pc.k
  {
    t := s;
    if s.hosts[i].pc.k < n {
      t := AcquiresOne(k, cfgs, s, i);
      t := AcquiresUpTo(k, cfgs, t, i, n);
    }
  }

  // ---------------------------------------------------------------------------
  // The run

  lemma AtStart(k: Kernel, cfgs: seq<Config>) returns (s: State)
    ensures Reached(k, cfgs, s) && |s.hosts| == |cfgs|
    ensures forall i :: 0 <= i < |cfgs| ==> s.hosts[i] == StartedHost(cfgs[i])
  {
    s := Start(k, cfgs);
    assert Run(s, []) == Some(s);
  }

  /** Host `i` has released everything and is about to send its wake; all others are where they were. */
  lemma FirstHost(k: Kernel, cfgs: seq<Config>, i: nat) returns (t: State)
    requires i < |cfgs| && Fits(k, cfgs[i], |cfgs[i].addresses|)
    ensures Reached(k, cfgs, t) && |t.hosts| == |cfgs| && t.hosts[i].pc.Clearing? && AllFreed(t.hosts[i].locks)
    ensures forall j :: 0 <= j < |cfgs| && j != i ==> t.hosts[j] == StartedHost(cfgs[j])
  {
    t := AtStart(k, cfgs);
    var h := StartsSetup(t.hosts[i]);
    t := Follows(k, cfgs, t, i, h);
    FitsIff(k, cfgs[i], |cfgs[i].addresses|, h.plan);
    forall j | 0 <= j < |t.hosts| && j != i ensures HoldsNoLinks(t.hosts[j]) { FreedHoldsNoLinks(t.hosts[j]); }
    t := AcquiresUpTo(k, cfgs, t, i, |h.plan|);
    ReachedFacts(k, cfgs, t);
    h := CatchesAndReleases(t.hosts[i]);
    t := Follows(k, cfgs, t, i, h);
  }

  /** Host `j` takes its address `n`. */
  lemma SecondHost(k: Kernel, cfgs: seq<Config>, s: State, j: nat, n: nat) returns (t: State)
    requires Reached(k, cfgs, s) && j < |cfgs| == |s.hosts| && s.hosts[j] == StartedHost(cfgs[j])
    requires forall i :: 0 <= i < |s.hosts| ==> AllFreed(s.hosts[i].locks)
    requires n < |cfgs[j].addresses| && Fits(k, cfgs[j], n + 1)
    ensures Reached(k, cfgs, t) && OnlyHost(s, t, j) && t.hosts[j].pc == Setup(LinkIndex(cfgs[j], n) + 1)
  {
    var h := StartsSetup(s.hosts[j]);
    t := Follows(k, cfgs, s, j, h);
    var front := PlanUpTo(cfgs[j], n + 1);
    FitsIff(k, cfgs[j], n + 1, front);
    LinkAt(cfgs[j], n, n + 1);
    PlanPrefix(cfgs[j], n + 1, |cfgs[j].addresses|);
    NewInPlan(k, front, h.plan);
    forall i | 0 <= i < |t.hosts| && i != j ensures HoldsNoLinks(t.hosts[i]) { FreedHoldsNoLinks(t.hosts[i]); }
    t := AcquiresUpTo(k, cfgs, t, j, |front|);
  }

  lemma NewInPlan(k: Kernel, front: seq<Guard>, plan: seq<Guard>)
    requires front <= plan && NewLinks(k, front, |front|)
    ensures NewLinks(k, plan, |front|)
  {
    assert forall p :: 0 <= p < |front| ==> front[p] == plan[p];
  }

  lemma HeldLinkIsPresent(k: Kernel, cfgs: seq<Config>, s: State, j: nat, n: nat)
    requires Reached(k, cfgs, s) && j < |cfgs| == |s.hosts| && n < |cfgs[j].addresses|
    requires s.hosts[j].pc == Setup(LinkIndex(cfgs[j], n) + 1)
    ensures (cfgs[j].iface, cfgs[j].addresses[n]) in s.kernel.links
  {
    ReachedFacts(k, cfgs, s);
    var c := LinkIndex(cfgs[j], n);
    LinkAt(cfgs[j], n, |cfgs[j].addresses|);
    assert HostInv(s.hosts[j], s.signaled);
    LockIsLive(s, j, c);
    LiveIsPresent(k, s.kernel, Gather(s.hosts, LiveGuards), OnLink(cfgs[j].iface, cfgs[j].addresses[n]));
  }

  /** The last step before the wake. */
  lemma ToWaking(k: Kernel, cfgs: seq<Config>, s: State, i: nat) returns (t: State)
    requires Reached(k, cfgs, s) && i < |s.hosts| && s.hosts[i].pc.Clearing? && AllFreed(s.hosts[i].locks)
    ensures Reached(k, cfgs, t) && OnlyHost(s, t, i) && t.hosts[i].pc.Waking?
  {
    LeadsNowhere(s.hosts[i]);
    var h := Then(s.hosts[i], s.hosts[i], Lock(ClearComplete));
    t := Follows(k, cfgs, s, i, h);
  }

  /** If all addresses of a host fit and another host can take one of them, some run wakes with that address present. */
  lemma TakenIsUnreleased(k: Kernel, cfgs: seq<Config>, i: nat, m: nat, j: nat, n: nat) returns (actions: seq<Action>)
    requires i < |cfgs| && m < |cfgs[i].addresses| && Fits(k, cfgs[i], |cfgs[i].addresses|) && Takes(k, cfgs, i, m, j, n)
    ensures WakesUnreleased(k, cfgs, actions, i, m)
  {
    var s := FirstHost(k, cfgs, i);
    forall h | 0 <= h < |s.hosts| ensures AllFreed(s.hosts[h].locks) {}
    s := SecondHost(k, cfgs, s, j, n);
    s := ToWaking(k, cfgs, s, i);
    HeldLinkIsPresent(k, cfgs, s, j, n);
    actions := WakesNow(k, cfgs, s, i, m);
  }

  lemma WakesNow(k: Kernel, cfgs: seq<Config>, s: State, i: nat, m: nat) returns (actions: seq<Action>)
    requires Reached(k, cfgs, s) && i < |cfgs| == |s.hosts| && m < |cfgs[i].addresses| && s.hosts[i].pc.Waking?
    requires (cfgs[i].iface, cfgs[i].addresses[m]) in s.kernel.links
    ensures WakesUnreleased(k, cfgs, actions, i, m)
  {
    actions :| Run(Start(k, cfgs), actions) == Some(s);
    assert Step(s, HostActs(i, Wake(SendWake(true)))).Some?;
  }

  /**
   * In every run the wake is sent only after address `m` of the host is gone, if and only if the host can never
   * have its whole plan in place or no other host with the same interface can take that address.
   */
  lemma WakeAfterReleaseIff(k: Kernel, cfgs: seq<Config>, i: nat, m: nat)
    requires i < |cfgs| && m < |cfgs[i].addresses|
    ensures (forall actions :: !WakesUnreleased(k, cfgs, actions, i, m)) <==>
            !Fits(k, cfgs[i], |cfgs[i].addresses|) || forall j: nat, n: nat :: !Takes(k, cfgs, i, m, j, n)
  {
    if actions :| WakesUnreleased(k, cfgs, actions, i, m) {
      var j, n := UnreleasedIsTaken(k, cfgs, actions, i, m);
    }
    if Fits(k, cfgs[i], |cfgs[i].addresses|) {
      if j: nat, n: nat :| Takes(k, cfgs, i, m, j, n) {
        var actions := TakenIsUnreleased(k, cfgs, i, m, j, n);
      }
    }
  }

  /** Two hosts with the same single address on the same interface are enough. */
  lemma SharedAddressWitness(cfg: Config) returns (actions: seq<Action>)
    requires |cfg.addresses| == 1
    ensures WakesUnreleased(Kernel([], [], [], [], {}), [cfg, cfg], actions, 0, 0)
  {
    actions := TakenIsUnreleased(Kernel([], [], [], [], {}), [cfg, cfg], 0, 0, 1, 0);
  }
}
