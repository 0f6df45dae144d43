/** That the watchers act on what they see, and that IPv6 addresses are kept from being seen as duplicates of themselves. */
module Watchers {
  import opened Net
  import opened Firewall
  import opened Capture
  import opened Emulation
  import opened System
  import opened Guarantees
  import Magic

  // ---------------------------------------------------------------------------
  // What one capture session remembers

  /** The capture has been broken with this reason. */
  predicate Reported(y: Syn, r: Reason) {
    r in y.written && y.breakRequested
  }

  predicate Reporting(d: Daw, r: Reason) {
    (d.pc.Writing? && d.pc.reason == r) || (d.pc.Requesting? && d.pc.reason == r)
  }

  /** What duplicate-address threads saw is reported, or a thread is about to report it. */
  ghost predicate DawsHeed(s: Session, c: Cause, r: Reason) {
    c in s.syn.causes && !Reported(s.syn, r) ==> exists d :: 0 <= d < |s.daws| && Reporting(s.daws[d], r)
  }

  /**
   * A magic packet is reported, or the thread is on its way to do so; unless it was asked to stop, or its inner capture
   * ended by itself.
   */
  predicate WolHeeds(y: Syn, w: Wol) {
    && (w.pc.Unstarted? ==> MagicPacketSeen !in y.causes)
    && (MagicPacketSeen in y.causes && w.guard.Running? && w.innerReason != Captured && !Reported(y, Duplicate) ==>
          || (w.innerReason == Duplicate && (w.pc.BreakingInner? || (w.pc.Sniffing? && w.innerBreak)))
          || w.pc.Reporting? || w.pc.BreakingSyn?)
  }

  /** While an IPv6 address is checked its neighbour-solicitation rule is in place; for IPv4 there never is one. */
  predicate Guarded(d: Daw) {
    && (d.blocked || d.pc.BlockingSolicitation? ==> d.addr.pure.family.IPv6?)
    && (d.pc.Testing? || d.pc.Checking? || Reporting(d, Duplicate) ==> (d.blocked <==> d.addr.pure.family.IPv6?))
  }

  /** A thread only gives up when its flag is off, and while nobody stops it that is for a cause. */
  predicate Persistent(y: Syn, d: Daw) {
    && (d.pc.Writing? || d.pc.Requesting? || d.pc.Leaving? || d.pc.Done? ==> !d.loop)
    && (d.guard.Running? && !d.loop ==> OccupiedSeen in y.causes || ExceptionCaught in y.causes)
  }

  ghost predicate Attentive(s: Session) {
    && DawsHeed(s, OccupiedSeen, Duplicate)
    && DawsHeed(s, ExceptionCaught, Signal)
    && WolHeeds(s.syn, s.wol)
    && forall d :: 0 <= d < |s.daws| ==> Guarded(s.daws[d]) && Persistent(s.syn, s.daws[d])
  }

  // ---------------------------------------------------------------------------
  // Every step keeps that

  /** A thread that was about to report something still is, or has done it. */
  lemma DawHeeds(y: Syn, d: Daw, a: DawAction, d': Daw, op: Op, e: Effect)
    requires DawInv(y, d) && DawMove(d, a) == Some((d', op, e))
    ensures Guarded(d) ==> Guarded(d')
    ensures Persistent(y, d) ==> Persistent(Do(y, op), d')
    ensures OccupiedSeen in Do(y, op).causes && OccupiedSeen !in y.causes ==> Reporting(d', Duplicate)
    ensures ExceptionCaught in Do(y, op).causes && ExceptionCaught !in y.causes ==> Reporting(d', Signal)
    ensures MagicPacketSeen in Do(y, op).causes ==> MagicPacketSeen in y.causes
    ensures forall r :: Reporting(d, r) ==> Reporting(d', r) || Reported(Do(y, op), r)
  {
  }

  lemma DawStepHeeds(s: Session, i: nat, d: Daw, op: Op, c: Cause, r: Reason)
    requires i < |s.daws| && DawsHeed(s, c, r)
    requires c in Do(s.syn, op).causes && c !in s.syn.causes ==> Reporting(d, r)
    requires Reporting(s.daws[i], r) ==> Reporting(d, r) || Reported(Do(s.syn, op), r)
    ensures DawsHeed(s.(syn := Do(s.syn, op), daws := s.daws[i := d]), c, r)
  {
    var daws := s.daws[i := d];
    if c in s.syn.causes && !Reported(Do(s.syn, op), r) {
      var j :| 0 <= j < |s.daws| && Reporting(s.daws[j], r);
      assert Reporting(daws[j], r);
    } else if c in Do(s.syn, op).causes && !Reported(Do(s.syn, op), r) {
      assert Reporting(daws[i], r);
    }
  }

  lemma WolStepHeeds(y: Syn, w: Wol, a: WolAction, mac: Mac, w': Wol, op: Op)
    requires WolInv(y, w) && WolHeeds(y, w) && WolMove(w, a, mac) == Some((w', op))
    ensures WolHeeds(Do(y, op), w')
    ensures forall c :: c in Do(y, op).causes && c !in y.causes ==> c == MagicPacketSeen
  {
  }

  /** An operation on the capture that adds no cause the watchers would have to report. */
  lemma OpHeeds(s: Session, op: Op)
    requires Attentive(s) && (op.Note? ==> op.cause == HandlerRan)
    ensures Attentive(s.(syn := Do(s.syn, op)))
  {
  }

  lemma DawsAlike(s: Session, s': Session, c: Cause, r: Reason)
    requires DawsHeed(s, c, r) && (c in s'.syn.causes ==> c in s.syn.causes) && (Reported(s.syn, r) ==> Reported(s'.syn, r))
    requires |s'.daws| == |s.daws| && forall d :: 0 <= d < |s.daws| ==> s'.daws[d].pc == s.daws[d].pc || !Reporting(s.daws[d], r)
    ensures DawsHeed(s', c, r)
  {
    if c in s'.syn.causes && !Reported(s'.syn, r) {
      var d :| 0 <= d < |s.daws| && Reporting(s.daws[d], r);
      assert Reporting(s'.daws[d], r);
    }
  }

  lemma WatcherHeeds(s: Session, a: WatcherAction, mac: Mac, s': Session, e: Effect)
    requires SessionInv(s) && Attentive(s) && WatcherStep(s, a, mac) == Some((s', e))
    ensures Attentive(s')
  {
    match a
    case DawActs(i, act) =>
      var Some((d, op, _)) := DawMove(s.daws[i], act);
      DawHeeds(s.syn, s.daws[i], act, d, op, e);
      DawStepHeeds(s, i, d, op, OccupiedSeen, Duplicate);
      DawStepHeeds(s, i, d, op, ExceptionCaught, Signal);
    case WolActs(act) =>
      var Some((w, op)) := WolMove(s.wol, act, mac);
      WolStepHeeds(s.syn, s.wol, act, mac, w, op);
      DawsAlike(s, s', OccupiedSeen, Duplicate);
      DawsAlike(s, s', ExceptionCaught, Signal);
  }

  lemma StopHeeds(s: Session, m: StopAction, s': Session, e: Effect)
    requires SessionInv(s) && Attentive(s) && StopMove(s, m) == Some((s', e))
    ensures Attentive(s')
  {
    DawsAlike(s, s', OccupiedSeen, Duplicate);
    DawsAlike(s, s', ExceptionCaught, Signal);
  }

  lemma BuildHeeds(s: Session, j: nat)
    requires SessionInv(s) && Attentive(s) && BuildInv(s, j) && j < |s.daws| + 2
    ensures Attentive(BuildGuard(s, j))
  {
    if j >= 2 { assert DawInv(s.syn, s.daws[j - 2]); }
    DawsAlike(s, BuildGuard(s, j), OccupiedSeen, Duplicate);
    DawsAlike(s, BuildGuard(s, j), ExceptionCaught, Signal);
  }

  lemma OpenedIsAttentive(addrs: seq<IpAddress>)
    ensures Attentive(Opened(addrs)) && Attentive(Closed())
  {
  }

  lemma WaitHeeds(h: Host, m: WaitAction, h': Host, e: Effect)
    requires SessionInv(h.session) && PhaseInv(h) && Attentive(h.session) && WaitMove(h, m) == Some((h', e))
    ensures Attentive(h'.session)
  {
    if m.OpenCapture? {
      OpenedIsAttentive(h.cfg.addresses);
    } else if m.BuildNext? {
      if h.pc.j < |h.session.daws| + 2 { BuildHeeds(h.session, h.pc.j); }
    } else {
      DawsAlike(h.session, h'.session, OccupiedSeen, Duplicate);
      DawsAlike(h.session, h'.session, ExceptionCaught, Signal);
    }
  }

  lemma MoveHeeds(h: Host, a: HostAction, signaled: bool, h': Host, e: Effect)
    requires SessionInv(h.session) && PhaseInv(h) && Attentive(h.session) && HostMove(h, a, signaled) == Some((h', e))
    ensures Attentive(h'.session)
  {
    match a
    case Round(_) =>
    case Lock(_) =>
    case Wake(_) =>
    case Wait(m) => WaitHeeds(h, m, h', e);
    case Stop(m) => StopHeeds(h.session, m, h'.session, e);
    case Watcher(w) => WatcherHeeds(h.session, w, h.cfg.mac, h'.session, e);
  }

  lemma StepHeeds(k: Kernel, s: State, a: Action, t: State, i: nat)
    requires Inv(k, s) && Step(s, a) == Some(t) && i < |s.hosts| == |t.hosts| && Attentive(s.hosts[i].session)
    ensures Attentive(t.hosts[i].session)
  {
    match a
    case HostActs(j, act) =>
      if j == i {
        assert HostInv(s.hosts[i], s.signaled);
        var Some((h, e)) := HostMove(s.hosts[i], act, s.signaled);
        MoveHeeds(s.hosts[i], act, s.signaled, h, e);
      }
    case HandlerWrites =>
      OpHeeds(s.hosts[i].session, Note(HandlerRan));
      OpHeeds(OnSyn(s.hosts[i], Note(HandlerRan)).session, Write(Signal));
    case HandlerRequests => OpHeeds(s.hosts[i].session, Request);
    case SignalArrives =>
    case HandlerLocks =>
    case HandlerUnlocks =>
  }

  lemma {:induction false} RunHeeds(k: Kernel, cfgs: seq<Config>, actions: seq<Action>, s: State, i: nat)
    requires Run(Start(k, cfgs), actions) == Some(s) && i < |s.hosts|
    ensures Attentive(s.hosts[i].session)
  {
    if actions == [] {
      OpenedIsAttentive([]);
    } else {
      var before := actions[..|actions| - 1];
      var t := Run(Start(k, cfgs), before).value;
      StepConfig(t, actions[|actions| - 1], s);
      RunKeeps(k, cfgs, before, t);
      RunHeeds(k, cfgs, before, t, i);
      StepHeeds(k, t, actions[|actions| - 1], s, i);
    }
  }

  // ---------------------------------------------------------------------------
  // Events are remembered and reported

  lemma WatcherNotes(s: State, i: nat, w: WatcherAction, y: Session, e: Effect, c: Cause)
    requires i < |s.hosts| && WatcherStep(s.hosts[i].session, w, s.hosts[i].cfg.mac) == Some((y, e))
    ensures c in s.hosts[i].session.syn.causes || Gives(s, HostActs(i, Watcher(w)), i, c) ==> c in y.syn.causes
  {
  }

  lemma OthersForgetNothing(h: Host, a: HostAction, signaled: bool, h': Host, e: Effect, c: Cause)
    requires HostMove(h, a, signaled) == Some((h', e)) && a != Wait(OpenCapture(true)) && !a.Watcher?
    ensures c in h.session.syn.causes ==> c in h'.session.syn.causes
  {
  }

  lemma StepNotes(s: State, a: Action, t: State, i: nat, c: Cause)
    requires Step(s, a) == Some(t) && i < |s.hosts| == |t.hosts| && !Opens(a, i)
    requires c in s.hosts[i].session.syn.causes || Gives(s, a, i, c)
    ensures c in t.hosts[i].session.syn.causes
  {
    if a.HostActs? && a.i == i {
      var Some((h, e)) := HostMove(s.hosts[i], a.host, s.signaled);
      if a.host.Watcher? {
        WatcherNotes(s, i, a.host.watcher, h.session, e, c);
      } else {
        OthersForgetNothing(s.hosts[i], a.host, s.signaled, h, e, c);
      }
    }
  }

  lemma GivenBefore(k: Kernel, cfgs: seq<Config>, actions: seq<Action>, i: nat, c: Cause, n: nat, at: State)
    requires GivenAt(k, cfgs, actions, i, c, n, at)
    ensures !Opens(actions[|actions| - 1], i)
    ensures n < |actions| - 1 ==> GivenAt(k, cfgs, actions[..|actions| - 1], i, c, n, at)
  {
    var before := actions[..|actions| - 1];
    assert n < |actions| - 1 ==> before[..n] == actions[..n] && before[n] == actions[n];
    assert forall m :: 0 <= m < |before| ==> before[m] == actions[m];
  }

  /** Every event since the latest capture was opened is recorded as a cause: with `CauseIsEvent`, causes are exactly these events. */
  lemma {:induction false} EventIsCause(k: Kernel, cfgs: seq<Config>, actions: seq<Action>, s: State, i: nat, c: Cause, n: nat, at: State)
    requires Run(Start(k, cfgs), actions) == Some(s) && i < |s.hosts| && GivenAt(k, cfgs, actions, i, c, n, at)
    ensures c in s.hosts[i].session.syn.causes
  {
    var before := actions[..|actions| - 1];
    var t := Run(Start(k, cfgs), before).value;
    StepConfig(t, actions[|actions| - 1], s);
    GivenBefore(k, cfgs, actions, i, c, n, at);
    if n < |actions| - 1 { EventIsCause(k, cfgs, before, t, i, c, n, at); }
    StepNotes(t, actions[|actions| - 1], s, i, c);
  }

  /**
   * Once its watchers are joined, a capture for which an address was found occupied has been broken with
   * `duplicate_address`, and one for which a thread caught an exception with `signal`.
   */
  lemma ChecksAreReported(k: Kernel, cfgs: seq<Config>, actions: seq<Action>, s: State, i: nat, c: Cause, n: nat, at: State)
    requires Run(Start(k, cfgs), actions) == Some(s) && i < |s.hosts| && GivenAt(k, cfgs, actions, i, c, n, at)
    requires Joined(s.hosts[i].session)
    ensures var y := s.hosts[i].session.syn;
      && (c == OccupiedSeen ==> Duplicate in y.written && y.breakRequested)
      && (c == ExceptionCaught ==> Signal in y.written && y.breakRequested)
  {
    EventIsCause(k, cfgs, actions, s, i, c, n, at);
    RunHeeds(k, cfgs, actions, s, i);
  }

  /**
   * If the Wake-on-LAN thread has ended without being asked to stop and its inner capture did not end by itself,
   * every magic packet it saw has broken the capture with `duplicate_address`.
   */
  lemma MagicPacketsAreReported(k: Kernel, cfgs: seq<Config>, actions: seq<Action>, s: State, i: nat, n: nat, at: State)
    requires Run(Start(k, cfgs), actions) == Some(s) && i < |s.hosts| && GivenAt(k, cfgs, actions, i, MagicPacketSeen, n, at)
    requires var w := s.hosts[i].session.wol; w.pc.Exited? && w.guard.Running? && w.innerReason != Captured
    ensures var y := s.hosts[i].session.syn; Duplicate in y.written && y.breakRequested
  {
    EventIsCause(k, cfgs, actions, s, i, MagicPacketSeen, n, at);
    RunHeeds(k, cfgs, actions, s, i);
  }

  /** As long as its watcher is not stopped, a duplicate-address thread ends only after an occupied check or an exception. */
  lemma WatchIsKept(k: Kernel, cfgs: seq<Config>, actions: seq<Action>, s: State, i: nat, d: nat)
    requires Run(Start(k, cfgs), actions) == Some(s) && i < |s.hosts| && d < |s.hosts[i].session.daws|
    requires var w := s.hosts[i].session.daws[d]; w.guard.Running? && (w.pc.Leaving? || w.pc.Done?)
    ensures OccupiedSeen in s.hosts[i].session.syn.causes || ExceptionCaught in s.hosts[i].session.syn.causes
  {
    RunHeeds(k, cfgs, actions, s, i);
    assert Persistent(s.hosts[i].session.syn, s.hosts[i].session.daws[d]);
  }

  // ---------------------------------------------------------------------------
  // The inner capture of the Wake-on-LAN watcher

  /** The end reason of the inner capture by the latest event that wrote one: only a stop breaks it with `unset`. */
  function InnerAfter(before: Reason, a: Action, i: nat, mac: Mac): Reason {
    if Opens(a, i) || a == HostActs(i, Stop(StopWol)) then Unset
    else if Watches(a, i) && a.host.watcher.WolActs? then
      match a.host.watcher.wol
      case PacketSniffed(data) => if Magic.IsMagicPacket(data, mac) then Duplicate else before
      case InnerEnds(returned0) => if returned0 then Captured else before
      case _ => before
    else before
  }

  function InnerSoFar(actions: seq<Action>, i: nat, mac: Mac): Reason {
    if actions == [] then Unset
    else InnerAfter(InnerSoFar(actions[..|actions| - 1], i, mac), actions[|actions| - 1], i, mac)
  }

  lemma WatcherInner(s: Session, w: WatcherAction, mac: Mac, s': Session, e: Effect, i: nat)
    requires WatcherStep(s, w, mac) == Some((s', e))
    ensures s'.wol.innerReason == InnerAfter(s.wol.innerReason, HostActs(i, Watcher(w)), i, mac)
  {
  }

  lemma OtherInner(h: Host, a: HostAction, signaled: bool, h': Host, e: Effect, i: nat)
    requires HostMove(h, a, signaled) == Some((h', e)) && !a.Watcher?
    ensures h'.session.wol.innerReason == InnerAfter(h.session.wol.innerReason, HostActs(i, a), i, h.cfg.mac)
  {
  }

  lemma StepInner(s: State, a: Action, t: State, i: nat)
    requires Step(s, a) == Some(t) && i < |s.hosts| == |t.hosts|
    ensures t.hosts[i].session.wol.innerReason == InnerAfter(s.hosts[i].session.wol.innerReason, a, i, s.hosts[i].cfg.mac)
  {
    if a.HostActs? && a.i == i {
      var Some((h, e)) := HostMove(s.hosts[i], a.host, s.signaled);
      if a.host.Watcher? {
        WatcherInner(s.hosts[i].session, a.host.watcher, s.hosts[i].cfg.mac, h.session, e, i);
      } else {
        OtherInner(s.hosts[i], a.host, s.signaled, h, e, i);
      }
    }
  }

  /** A stop overwrites what the inner capture was broken with, so a stopped watcher reports only what it sees afterwards. */
  lemma {:induction false} InnerReasonIsLastWritten(k: Kernel, cfgs: seq<Config>, actions: seq<Action>, s: State, i: nat)
    requires Run(Start(k, cfgs), actions) == Some(s) && i < |cfgs| == |s.hosts|
    ensures s.hosts[i].session.wol.innerReason == InnerSoFar(actions, i, cfgs[i].mac)
  {
    if actions != [] {
      var before := actions[..|actions| - 1];
      var t := Run(Start(k, cfgs), before).value;
      RunFrame(k, cfgs, before, t);
      InnerReasonIsLastWritten(k, cfgs, before, t, i);
      StepInner(t, actions[|actions| - 1], s, i);
    }
  }

  // ---------------------------------------------------------------------------
  // Neighbour solicitations

  lemma {:induction false} BlockedIsGathered(daws: seq<Daw>, d: nat)
    requires d < |daws| && daws[d].blocked
    ensures SolicitationGuard(daws[d]) in Gather(daws, SolicitationOf)
  {
    if d > 0 { BlockedIsGathered(daws[1..], d - 1); }
  }

  /** While an IPv6 address is checked for duplicates, neighbour solicitations for it are dropped. */
  lemma SolicitationsAreDropped(k: Kernel, cfgs: seq<Config>, actions: seq<Action>, s: State, i: nat, d: nat)
    requires Run(Start(k, cfgs), actions) == Some(s) && i < |s.hosts| && d < |s.hosts[i].session.daws|
    requires var w := s.hosts[i].session.daws[d]; w.pc.Checking? && w.addr.pure.family.IPv6?
    ensures DropSolicitation(s.hosts[i].session.daws[d].addr.pure) in s.kernel.Rules(Chain(IPv6, Input))
  {
    RunKeeps(k, cfgs, actions, s);
    RunHeeds(k, cfgs, actions, s, i);
    assert Guarded(s.hosts[i].session.daws[d]);
    BlockedIsLive(s.hosts, i, d);
    LiveIsPresent(k, s.kernel, Gather(s.hosts, LiveGuards), SolicitationGuard(s.hosts[i].session.daws[d]));
  }

  lemma BlockedIsLive(hosts: seq<Host>, i: nat, d: nat)
    requires i < |hosts| && d < |hosts[i].session.daws| && hosts[i].session.daws[d].blocked
    ensures SolicitationGuard(hosts[i].session.daws[d]) in Gather(hosts, LiveGuards)
  {
    BlockedIsGathered(hosts[i].session.daws, d);
    GatherIncludes(hosts, i, LiveGuards);
  }

  /** There is a solicitation rule only for IPv6 addresses of the configurations' watchers, as `ipv6_to_u32_rule` demands. */
  lemma SolicitationsAreIpv6(k: Kernel, cfgs: seq<Config>, actions: seq<Action>, s: State, target: Ip)
    requires Run(Start(k, cfgs), actions) == Some(s) && OnChain(DropSolicitation(target)) in Gather(s.hosts, LiveGuards)
    ensures target.family.IPv6?
  {
    RunKeeps(k, cfgs, actions, s);
    RunFrame(k, cfgs, actions, s);
    var g := OnChain(DropSolicitation(target));
    var i := GatherMember(s.hosts, LiveGuards, g);
    RunHeeds(k, cfgs, actions, s, i);
    var h := s.hosts[i];
    assert HostInv(h, s.signaled);
    if g in Gather(h.session.daws, SolicitationOf) {
      var d := GatherMember(h.session.daws, SolicitationOf, g);
      assert Guarded(h.session.daws[d]);
    } else {
      var p := GatherMember(h.locks, OwnedBy, g);
      PlanMember(h.cfg, |h.cfg.addresses|, h.plan[p]);
    }
  }
}
