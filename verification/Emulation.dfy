/**
 * One host thread of watchHost: the round loop of `thread_main`, the sequential body of
 * `emulate_host` and `wait_and_listen`, and the scope guards it holds.  Each guard vector is
 * released in an arbitrary order.
 */
module Emulation {
  import opened Net
  import opened Firewall
  import opened Capture

  /** The part of `Args` that the emulation uses. */
  datatype Config = Config(iface: string, addresses: seq<IpAddress>, ports: seq<Port>, mac: Mac)

  // ---------------------------------------------------------------------------
  // The guards that setup_firewall_and_ips constructs, in order

  function Drops(ip: Ip, ports: seq<Port>): seq<Guard> {
    if ports == [] then [] else Drops(ip, ports[..|ports| - 1]) + [OnChain(DropSyn(ip, ports[|ports| - 1]))]
  }

  function PlanFor(iface: string, a: IpAddress, ports: seq<Port>): seq<Guard> {
    [OnChain(Reject(a.pure, Tcp)), OnChain(Reject(a.pure, Udp))] + Drops(a.pure, ports) + [OnLink(iface, a)]
  }

  function PlanUpTo(cfg: Config, n: nat): seq<Guard>
    requires n <= |cfg.addresses|
  {
    if n == 0 then [] else PlanUpTo(cfg, n - 1) + PlanFor(cfg.iface, cfg.addresses[n - 1], cfg.ports)
  }

  function Plan(cfg: Config): seq<Guard> {
    PlanUpTo(cfg, |cfg.addresses|)
  }

  lemma DropsSnoc(ip: Ip, ports: seq<Port>, j: nat)
    requires j < |ports|
    ensures Drops(ip, ports[..j + 1]) == Drops(ip, ports[..j]) + [OnChain(DropSyn(ip, ports[j]))]
  {
    assert ports[..j + 1][..j] == ports[..j];
  }

  /** The nested loops of `setup_firewall_and_ips` construct exactly the plan, in its order. */
  method SetupFirewallAndIps(cfg: Config) returns (guards: seq<Guard>)
    ensures guards == Plan(cfg)
  {
    guards := [];
    for i := 0 to |cfg.addresses|
      invariant guards == PlanUpTo(cfg, i)
    {
      var a := cfg.addresses[i];
      guards := guards + [OnChain(Reject(a.pure, Tcp))];
      guards := guards + [OnChain(Reject(a.pure, Udp))];
      ghost var before := guards;
      for j := 0 to |cfg.ports|
        invariant guards == before + Drops(a.pure, cfg.ports[..j])
      {
        guards := guards + [OnChain(DropSyn(a.pure, cfg.ports[j]))];
        DropsSnoc(a.pure, cfg.ports, j);
      }
      assert cfg.ports[..|cfg.ports|] == cfg.ports;
      guards := guards + [OnLink(cfg.iface, a)];
      assert guards == PlanUpTo(cfg, i) + PlanFor(cfg.iface, a, cfg.ports);
    }
  }

  predicate TransportRule(r: Rule) {
    r.DropSyn? || r.Reject?
  }

  ghost function Targets(cfg: Config): set<Ip> {
    set i | 0 <= i < |cfg.addresses| :: cfg.addresses[i].pure
  }

  lemma {:induction false} DropsMember(ip: Ip, ports: seq<Port>, g: Guard)
    ensures g in Drops(ip, ports) <==> g.OnChain? && g.rule.DropSyn? && g.rule.dst == ip && g.rule.port in ports
  {
    if ports != [] {
      assert ports == ports[..|ports| - 1] + [ports[|ports| - 1]];
      DropsMember(ip, ports[..|ports| - 1], g);
    }
  }

  lemma {:induction false} PlanMember(cfg: Config, n: nat, g: Guard)
    requires n <= |cfg.addresses| && g in PlanUpTo(cfg, n)
    ensures g.OnChain? ==> TransportRule(g.rule) && g.rule.dst in Targets(cfg)
    ensures g.OnLink? ==> g.iface == cfg.iface && g.addr in cfg.addresses
  {
    if g in PlanUpTo(cfg, n - 1) {
      PlanMember(cfg, n - 1, g);
    } else {
      DropsMember(cfg.addresses[n - 1].pure, cfg.ports, g);
    }
  }

  /** Everything that has to be in a chain before address `a` goes onto the interface. */
  predicate Shields(cfg: Config, a: IpAddress, r: Rule) {
    r == Reject(a.pure, Tcp) || r == Reject(a.pure, Udp) || (r.DropSyn? && r.dst == a.pure && r.port in cfg.ports)
  }

  /** The address guard is the last of its address, behind all its rules. */
  lemma LinkIsLast(cfg: Config, a: IpAddress, m: nat)
    requires m < |PlanFor(cfg.iface, a, cfg.ports)| && PlanFor(cfg.iface, a, cfg.ports)[m].OnLink?
    ensures m == |PlanFor(cfg.iface, a, cfg.ports)| - 1 && PlanFor(cfg.iface, a, cfg.ports)[m] == OnLink(cfg.iface, a)
  {
    var drops := Drops(a.pure, cfg.ports);
    if 2 <= m < 2 + |drops| {
      assert PlanFor(cfg.iface, a, cfg.ports)[m] == drops[m - 2];
      DropsMember(a.pure, cfg.ports, drops[m - 2]);
    }
  }

  lemma ShieldIsPlanned(cfg: Config, a: IpAddress, r: Rule)
    requires Shields(cfg, a, r)
    ensures OnChain(r) in PlanFor(cfg.iface, a, cfg.ports)
  {
    DropsMember(a.pure, cfg.ports, OnChain(r));
    var plan := PlanFor(cfg.iface, a, cfg.ports);
    assert plan[0] == OnChain(Reject(a.pure, Tcp)) && plan[1] == OnChain(Reject(a.pure, Udp));
  }

  lemma {:induction false} PlanShieldsFirst(cfg: Config, n: nat, k: nat, r: Rule)
    requires n <= |cfg.addresses| && k < |PlanUpTo(cfg, n)| && PlanUpTo(cfg, n)[k].OnLink?
    requires Shields(cfg, PlanUpTo(cfg, n)[k].addr, r)
    ensures OnChain(r) in PlanUpTo(cfg, n)[..k]
  {
    var front := PlanUpTo(cfg, n - 1);
    if k < |front| {
      PlanShieldsFirst(cfg, n - 1, k, r);
      assert PlanUpTo(cfg, n)[..k] == front[..k];
    } else {
      var a := cfg.addresses[n - 1];
      var here := PlanFor(cfg.iface, a, cfg.ports);
      assert PlanUpTo(cfg, n)[k] == here[k - |front|];
      LinkIsLast(cfg, a, k - |front|);
      ShieldIsPlanned(cfg, a, r);
      assert PlanUpTo(cfg, n)[..k] == front + here[..|here| - 1];
      assert here == here[..|here| - 1] + [OnLink(cfg.iface, a)];
    }
  }

  // ---------------------------------------------------------------------------
  // The host thread

  /** `Emulate_host_status` */
  datatype Status = Woken | WakeFailed | SignalReceived | DuplicateAddress | UndefinedError

  datatype Outcome = Ended(status: Status) | Threw

  /** How `wait_and_listen` came back: an end reason with the client's address, or an exception. */
  datatype Waited = Waited(reason: Reason, client: Option<Ip>) | WaitThrew

  datatype Pc =
    | AtLoopHead(loop: bool)
    | Pinging
    | PingDone
    | Cleared
    | Setup(k: nat)
    | Building(j: nat)
    | Filtering
    | Capturing
    | LoopReturned(ret: LoopResult, packet: Option<Ip>)
    | Stopping(w: Waited)
    | Closing(w: Waited)
    | Deciding(w: Waited)
    | Blocking(client: Ip)
    | Clearing
    | Waking
    | Awaiting
    | Replaying(answered: bool)
    | Unblocking(o: Outcome)
    | Unlocking(o: Outcome)
    | Returned(o: Outcome)
    | Finished

  /** One element of the guard vector: what it stands for, and whether it still owns it. */
  datatype Slot = Slot(guard: Guard, owned: bool)

  function OwnedBy(s: Slot): multiset<Guard> {
    if s.owned then multiset{s.guard} else multiset{}
  }

  /**
   * `plan` is what the loops of `setup_firewall_and_ips` construct from `cfg`; `locks` is the guard vector of `emulate_host`, `icmp` is the destination
   * of the live Block_icmp guard.  `client`, `last` and `lateStarts` are history: the sender of
   * the captured packet, how the last emulation ended, and how many emulations were started
   * with the signal flag already set.
   */
  datatype Host = Host(cfg: Config, plan: seq<Guard>, pc: Pc, locks: seq<Slot>, icmp: Option<Ip>, session: Session,
                       client: Option<Ip>, last: Option<Outcome>, lateStarts: nat)

  function StartedHost(cfg: Config): Host {
    Host(cfg, Plan(cfg), AtLoopHead(true), [], None, Closed(), None, None, 0)
  }

  datatype Answer = Alive | Silence | AwaitThrew

  datatype RoundAction = EnterRound | PingHost(alive: bool) | LeavePing | StartEmulation | ReturnToLoop

  /** `thread_main` outside `emulate_host` */
  function RoundMove(h: Host, a: RoundAction, signaled: bool): Option<(Host, Effect)> {
    match a
    case EnterRound =>
      if !h.pc.AtLoopHead? then None
      else Some((h.(pc := if !signaled && h.pc.loop then Pinging else Finished), Silent))
    case PingHost(alive) =>
      if !h.pc.Pinging? then None
      else Some((h.(pc := if alive && !signaled then Pinging else PingDone), Silent))
    case LeavePing =>
      if !h.pc.PingDone? then None
      else Some((h.(pc := if signaled then Finished else Cleared), Silent))
    case StartEmulation =>
      if !h.pc.Cleared? then None
      else Some((h.(pc := Setup(0), lateStarts := h.lateStarts + if signaled then 1 else 0), Silent))
    case ReturnToLoop =>
      if !h.pc.Returned? then None
      else if h.pc.o.Threw? then Some((h.(pc := AtLoopHead(true), last := Some(h.pc.o)), Raises))
      else Some((h.(pc := AtLoopHead(h.pc.o.status == DuplicateAddress || h.pc.o.status == Woken), last := Some(h.pc.o)), Silent))
  }

  datatype LockAction = Acquire(ok: bool) | ClearOne(i: nat) | ClearComplete | ReleaseOne(i: nat) | ReleaseComplete

  function Freed(locks: seq<Slot>, i: nat): seq<Slot>
    requires i < |locks|
  {
    locks[i := locks[i].(owned := false)]
  }

  predicate AllFreed(locks: seq<Slot>) {
    forall i :: 0 <= i < |locks| ==> !locks[i].owned
  }

  /** `setup_firewall_and_ips`, and the ways its guards are released again */
  function LockMove(h: Host, a: LockAction): Option<(Host, Effect)> {
    match a
    case Acquire(ok) =>
      if !h.pc.Setup? || h.pc.k >= |h.plan| then None
      else if ok then
        Some((h.(pc := Setup(h.pc.k + 1), locks := h.locks + [Slot(h.plan[h.pc.k], true)]), Adds(h.plan[h.pc.k])))
      else Some((h.(pc := Unlocking(Threw)), Silent))
    case ClearOne(i) =>
      if !h.pc.Clearing? || i >= |h.locks| || !h.locks[i].owned then None
      else Some((h.(locks := Freed(h.locks, i)), Deletes(h.locks[i].guard)))
    case ClearComplete =>
      if !h.pc.Clearing? || !AllFreed(h.locks) then None else Some((h.(pc := Waking, locks := []), Silent))
    case ReleaseOne(i) =>
      if !h.pc.Unlocking? || i >= |h.locks| || !h.locks[i].owned then None
      else Some((h.(locks := Freed(h.locks, i)), Deletes(h.locks[i].guard)))
    case ReleaseComplete =>
      if !h.pc.Unlocking? || !AllFreed(h.locks) then None
      else Some((h.(pc := Returned(h.pc.o), locks := []), Silent))
  }

  datatype WaitAction = OpenCapture(ok: bool) | BuildNext(ok: bool) | InstallFilter(ok: bool)
                      | LoopEnds(ret: LoopResult, packet: Option<Ip>) | ReadReason | StopsComplete | CloseCapture

  /** `wait_and_listen` up to the stopping of its guards */
  function WaitMove(h: Host, a: WaitAction): Option<(Host, Effect)> {
    var s := h.session;
    match a
    case OpenCapture(ok) =>
      if !h.pc.Setup? || h.pc.k != |h.plan| then None
      else if ok then Some((h.(pc := Building(0), session := Opened(h.cfg.addresses), client := None), Silent))
      else Some((h.(pc := Unlocking(Threw)), Silent))
    case BuildNext(ok) =>
      if !h.pc.Building? then None
      else if !ok then Some((h.(pc := Stopping(WaitThrew)), Silent))
      else if h.pc.j < |s.daws| + 2 then
        Some((h.(pc := Building(h.pc.j + 1), session := BuildGuard(s, h.pc.j)), if h.pc.j == 1 then Registers else Silent))
      else Some((h.(pc := Filtering), Silent))
    case InstallFilter(ok) =>
      if !h.pc.Filtering? then None
      else Some((h.(pc := if ok then Capturing else Stopping(WaitThrew)), Silent))
    case LoopEnds(ret, packet) =>
      if !h.pc.Capturing? || (ret == Broken && !s.syn.breakRequested) then None
      else Some((h.(pc := LoopReturned(ret, packet), session := s.(result := Some(ret))), Silent))
    case ReadReason =>
      if !h.pc.LoopReturned? then None else (
      match h.pc.ret
      case Zero =>
        Some((h.(session := s.(syn := s.syn.(reason := Captured)), client := h.pc.packet,
                 pc := Stopping(if h.pc.packet.None? then WaitThrew else Waited(Captured, h.pc.packet))), Silent))
      case PcapError =>
        Some((h.(session := s.(syn := s.syn.(reason := Failed)), pc := Stopping(WaitThrew)), Silent))
      case Broken =>
        Some((h.(pc := Stopping(Waited(s.syn.reason, h.pc.packet))), Silent)))
    case StopsComplete =>
      if !h.pc.Stopping? || !Quiet(s) then None else Some((h.(pc := Closing(h.pc.w)), Silent))
    case CloseCapture =>
      if !h.pc.Closing? then None
      else Some((h.(pc := Deciding(h.pc.w), session := s.(syn := s.syn.(alive := false))), Silent))
  }

  /** The guards of `wait_and_listen`: 0 is the Wake-on-LAN watcher, 1 the registration in `pcaps`, then one per address. */
  function BuildGuard(s: Session, j: nat): Session
    requires j < |s.daws| + 2
  {
    if j == 0 then s.(wol := s.wol.(guard := Running, pc := Sniffing))
    else if j == 1 then s.(registered := true)
    else
      var d := s.daws[j - 2];
      s.(daws := s.daws[j - 2 := d.(guard := Running, loop := true,
                                    pc := if d.addr.pure.family == IPv4 then Testing else BlockingSolicitation)])
  }

  datatype StopAction = StopWol | RequestWolStop | JoinWol | Unregister | StopDaw(i: nat) | JoinDaw(i: nat)

  /** The destruction of those guards, in any order */
  function StopMove(s: Session, a: StopAction): Option<(Session, Effect)> {
    match a
    case StopWol =>
      if !s.wol.guard.Running? then None
      else Some((s.(wol := s.wol.(guard := Asked, innerReason := Unset)), Silent))
    case RequestWolStop =>
      if !s.wol.guard.Asked? then None
      else Some((s.(wol := s.wol.(guard := Joining, innerBreak := true)), Silent))
    case JoinWol =>
      if !s.wol.guard.Joining? || !s.wol.pc.Exited? then None
      else Some((s.(wol := s.wol.(guard := Gone)), Silent))
    case Unregister =>
      if !s.registered then None else Some((s.(registered := false), Unregisters))
    case StopDaw(i) =>
      if i >= |s.daws| || !s.daws[i].guard.Running? then None
      else Some((s.(daws := s.daws[i := s.daws[i].(guard := Joining, loop := false)]), Silent))
    case JoinDaw(i) =>
      if i >= |s.daws| || !s.daws[i].guard.Joining? || !s.daws[i].pc.Done? then None
      else Some((s.(daws := s.daws[i := s.daws[i].(guard := Gone)]), Silent))
  }

  function StatusOf(r: Reason): Status {
    match r
    case Duplicate => DuplicateAddress
    case Signal => SignalReceived
    case _ => UndefinedError
  }

  datatype WakeAction = Decide | BlockIcmp(ok: bool) | SendWake(ok: bool) | AwaitHost(answer: Answer)
                      | Replay(ok: bool) | UnblockIcmp

  /** `emulate_host` after `wait_and_listen` */
  function WakeMove(h: Host, a: WakeAction): Option<(Host, Effect)> {
    match a
    case Decide =>
      if !h.pc.Deciding? then None
      else if h.pc.w.WaitThrew? || (h.pc.w.reason == Captured && h.pc.w.client.None?) then
        Some((h.(pc := Unlocking(Threw)), Silent))
      else if h.pc.w.reason == Captured then Some((h.(pc := Blocking(h.pc.w.client.value)), Silent))
      else Some((h.(pc := Unlocking(Ended(StatusOf(h.pc.w.reason)))), Silent))
    case BlockIcmp(ok) =>
      if !h.pc.Blocking? then None
      else if ok then
        Some((h.(pc := Clearing, icmp := Some(h.pc.client)), Adds(OnChain(DropUnreachable(h.pc.client)))))
      else Some((h.(pc := Unlocking(Threw)), Silent))
    case SendWake(ok) =>
      if !h.pc.Waking? then None else Some((h.(pc := if ok then Awaiting else Unblocking(Threw)), Silent))
    case AwaitHost(answer) =>
      if !h.pc.Awaiting? then None
      else Some((h.(pc := if answer.AwaitThrew? then Unblocking(Threw) else Replaying(answer.Alive?)), Silent))
    case Replay(ok) =>
      if !h.pc.Replaying? then None
      else Some((h.(pc := Unblocking(if !ok then Threw else Ended(if h.pc.answered then Woken else WakeFailed))), Silent))
    case UnblockIcmp =>
      if !h.pc.Unblocking? || h.icmp.None? then None
      else Some((h.(pc := Unlocking(h.pc.o), icmp := None), Deletes(OnChain(DropUnreachable(h.icmp.value)))))
  }

  datatype HostAction =
    | Round(round: RoundAction)
    | Lock(lock: LockAction)
    | Wait(wait: WaitAction)
    | Stop(stop: StopAction)
    | Wake(wake: WakeAction)
    | Watcher(watcher: WatcherAction)

  function HostMove(h: Host, a: HostAction, signaled: bool): Option<(Host, Effect)> {
    match a
    case Round(m) => RoundMove(h, m, signaled)
    case Lock(m) => LockMove(h, m)
    case Wait(m) => WaitMove(h, m)
    case Wake(m) => WakeMove(h, m)
    case Stop(m) => if h.pc.Stopping? then InSession(h, StopMove(h.session, m)) else None
    case Watcher(w) => InSession(h, WatcherStep(h.session, w, h.cfg.mac))
  }

  function InSession(h: Host, r: Option<(Session, Effect)>): Option<(Host, Effect)> {
    match r
    case None => None
    case Some((s, e)) => Some((h.(session := s), e))
  }

  // ---------------------------------------------------------------------------
  // Invariants of one host

  /** The live guards of a host. */
  ghost function LiveGuards(h: Host): multiset<Guard> {
    Gather(h.locks, OwnedBy) + IcmpOf(h.icmp) + Gather(h.session.daws, SolicitationOf)
  }

  function IcmpOf(icmp: Option<Ip>): multiset<Guard> {
    if icmp.Some? then multiset{OnChain(DropUnreachable(icmp.value))} else multiset{}
  }

  /** How much of the plan is in place: `Some(k)` is exactly its first `k` guards, `None` some of them. */
  function Held(pc: Pc, n: nat): Option<nat> {
    if pc.Setup? then Some(pc.k)
    else if pc.Clearing? || pc.Unlocking? then None
    else if BeforeRelease(pc) then Some(n)
    else Some(0)
  }

  predicate BeforeRelease(pc: Pc) {
    InCapture(pc) || pc.Deciding? || pc.Blocking?
  }

  predicate InCapture(pc: Pc) {
    pc.Building? || pc.Filtering? || pc.Capturing? || pc.LoopReturned? || pc.Stopping? || pc.Closing?
  }

  predicate BeforeReadingReason(pc: Pc) {
    pc.Building? || pc.Filtering? || pc.Capturing? || pc.LoopReturned?
  }

  predicate IcmpBlocked(pc: Pc) {
    pc.Clearing? || pc.Waking? || pc.Awaiting? || pc.Replaying? || pc.Unblocking?
  }

  ghost predicate LocksInv(h: Host) {
    && |h.locks| <= |h.plan|
    && (forall i :: 0 <= i < |h.locks| ==> h.locks[i].guard == h.plan[i])
    && var k := Held(h.pc, |h.plan|);
       k.Some? ==> |h.locks| == k.value && forall i :: 0 <= i < |h.locks| ==> h.locks[i].owned
  }

  ghost predicate IcmpInv(h: Host) {
    && (IcmpBlocked(h.pc) <==> h.icmp.Some?)
    && (h.pc.Blocking? ==> h.client == Some(h.pc.client))
    && (h.icmp.Some? ==> h.client == h.icmp)
  }

  ghost predicate PhaseInv(h: Host) {
    var s := h.session;
    && (s.syn.alive <==> InCapture(h.pc))
    && (InCapture(h.pc) ==> |s.daws| == |h.cfg.addresses|)
    && (h.pc.Building? ==> BuildInv(s, h.pc.j))
    && (h.pc.Closing? ==> Quiet(s))
    && (BeforeReadingReason(h.pc) ==> ReasonWritten(s.syn))
    && (h.pc.LoopReturned? ==> s.result == Some(h.pc.ret) && (h.pc.ret == Broken ==> s.syn.breakRequested))
  }

  ghost predicate BuildInv(s: Session, j: nat) {
    && (j == 0 ==> s.wol.guard.Unbuilt?)
    && (j <= 1 ==> !s.registered)
    && forall i :: 0 <= i < |s.daws| && j - 2 <= i ==> s.daws[i].guard.Unbuilt?
  }

  ghost predicate WaitedInv(h: Host, w: Waited) {
    w.WaitThrew? || (
      && (w.reason == Captured || w.reason == Signal || w.reason == Duplicate)
      && (w.reason == Captured <==> h.session.result == Some(Zero))
      && (w.reason == Captured ==> w.client.Some? && w.client == h.client)
      && (w.reason != Captured ==> w.reason in h.session.syn.written)
      && (w.reason == Duplicate ==> DuplicateCause(h.session.syn))
      && (w.reason == Signal ==> SignalCause(h.session.syn)))
  }

  ghost predicate OutcomeInv(y: Syn, o: Outcome) {
    && o != Ended(UndefinedError)
    && (o == Ended(DuplicateAddress) ==> DuplicateCause(y))
    && (o == Ended(SignalReceived) ==> SignalCause(y))
  }

  ghost predicate ResultInv(h: Host) {
    && (h.pc.Stopping? || h.pc.Closing? || h.pc.Deciding? ==> WaitedInv(h, h.pc.w))
    && (h.pc.Unblocking? || h.pc.Unlocking? || h.pc.Returned? ==> OutcomeInv(h.session.syn, h.pc.o))
  }

  predicate MayGoOn(last: Option<Outcome>) {
    last.None? || last == Some(Ended(Woken)) || last == Some(Ended(DuplicateAddress))
  }

  ghost predicate RoundInv(h: Host, signaled: bool) {
    && h.lateStarts <= 1
    && (h.lateStarts == 1 ==> signaled && !h.pc.Pinging? && !h.pc.PingDone? && !h.pc.Cleared?)
    && (h.pc == AtLoopHead(true) ==> MayGoOn(h.last) || (h.last == Some(Threw) && signaled))
    && (!h.pc.AtLoopHead? && !h.pc.Finished? ==> MayGoOn(h.last))
  }

  ghost predicate HostInv(h: Host, signaled: bool) {
    && SessionInv(h.session)
    && PhaseInv(h)
    && LocksInv(h)
    && IcmpInv(h)
    && ResultInv(h)
    && RoundInv(h, signaled)
  }

  // ---------------------------------------------------------------------------
  // Every step of the host keeps its invariant

  lemma RoundMoveRound(h: Host, m: RoundAction, signaled: bool, h': Host, e: Effect)
    requires RoundInv(h, signaled) && RoundMove(h, m, signaled) == Some((h', e))
    ensures RoundInv(h', signaled || e.Raises?)
  {
  }

  lemma RoundMoveRest(h: Host, m: RoundAction, signaled: bool, h': Host, e: Effect)
    requires PhaseInv(h) && LocksInv(h) && IcmpInv(h) && ResultInv(h) && RoundMove(h, m, signaled) == Some((h', e))
    ensures PhaseInv(h') && LocksInv(h') && IcmpInv(h') && ResultInv(h') && h'.session == h.session
  {
  }

  lemma RoundMoveLive(h: Host, m: RoundAction, signaled: bool, h': Host, e: Effect)
    requires RoundMove(h, m, signaled) == Some((h', e))
    ensures LiveGuards(h') == LiveGuards(h) && (e.Silent? || e.Raises?)
  {
  }

  lemma LockMoveKeeps(h: Host, m: LockAction, signaled: bool, h': Host, e: Effect)
    requires HostInv(h, signaled) && LockMove(h, m) == Some((h', e))
    ensures HostInv(h', signaled)
  {
  }

  lemma LockMoveLive(h: Host, m: LockAction, h': Host, e: Effect)
    requires LockMove(h, m) == Some((h', e))
    ensures LiveChange(Gather(h.locks, OwnedBy), Gather(h'.locks, OwnedBy), e)
    ensures h'.icmp == h.icmp && h'.session == h.session
  {
    match m
    case Acquire(ok) => GatherAppend(h.locks, Slot(h.plan[h.pc.k], true), OwnedBy);
    case ClearOne(i) => GatherStep(h.locks, i, h.locks[i].(owned := false), OwnedBy, e);
    case ReleaseOne(i) => GatherStep(h.locks, i, h.locks[i].(owned := false), OwnedBy, e);
    case ClearComplete => GatherEmpty(h.locks, OwnedBy);
    case ReleaseComplete => GatherEmpty(h.locks, OwnedBy);
  }

  lemma WakeMoveResult(h: Host, m: WakeAction, h': Host, e: Effect)
    requires IcmpInv(h) && ResultInv(h) && WakeMove(h, m) == Some((h', e))
    ensures IcmpInv(h') && ResultInv(h')
  {
  }

  lemma WakeMoveRest(h: Host, m: WakeAction, signaled: bool, h': Host, e: Effect)
    requires PhaseInv(h) && LocksInv(h) && RoundInv(h, signaled) && WakeMove(h, m) == Some((h', e))
    ensures PhaseInv(h') && LocksInv(h') && RoundInv(h', signaled)
    ensures h'.locks == h.locks && h'.session == h.session
  {
  }

  lemma WakeMoveLive(h: Host, m: WakeAction, h': Host, e: Effect)
    requires IcmpInv(h) && WakeMove(h, m) == Some((h', e))
    ensures LiveChange(IcmpOf(h.icmp), IcmpOf(h'.icmp), e)
  {
  }

  lemma BuildGuardKeeps(s: Session, j: nat)
    requires SessionInv(s) && s.syn.alive && BuildInv(s, j) && j < |s.daws| + 2
    ensures SessionInv(BuildGuard(s, j)) && BuildInv(BuildGuard(s, j), j + 1)
    ensures BuildGuard(s, j).syn == s.syn && |BuildGuard(s, j).daws| == |s.daws| && BuildGuard(s, j).result == s.result
  {
    if j >= 2 { assert DawInv(s.syn, s.daws[j - 2]); }
  }

  lemma WaitMoveSession(h: Host, m: WaitAction, h': Host, e: Effect)
    requires SessionInv(h.session) && PhaseInv(h) && WaitMove(h, m) == Some((h', e))
    ensures SessionInv(h'.session)
  {
    if m.BuildNext? && h.pc.j < |h.session.daws| + 2 { BuildGuardKeeps(h.session, h.pc.j); }
  }

  lemma WaitMovePhase(h: Host, m: WaitAction, h': Host, e: Effect)
    requires SessionInv(h.session) && PhaseInv(h) && WaitMove(h, m) == Some((h', e))
    ensures PhaseInv(h')
  {
    if m.BuildNext? && h.pc.j < |h.session.daws| + 2 { BuildGuardKeeps(h.session, h.pc.j); }
  }

  lemma WaitMoveResult(h: Host, m: WaitAction, h': Host, e: Effect)
    requires SessionInv(h.session) && PhaseInv(h) && ResultInv(h) && WaitMove(h, m) == Some((h', e))
    ensures ResultInv(h')
  {
  }

  lemma WaitMoveRest(h: Host, m: WaitAction, signaled: bool, h': Host, e: Effect)
    requires LocksInv(h) && IcmpInv(h) && RoundInv(h, signaled) && ResultInv(h) && WaitMove(h, m) == Some((h', e))
    ensures LocksInv(h') && IcmpInv(h') && RoundInv(h', signaled)
    ensures h'.locks == h.locks && h'.icmp == h.icmp
    ensures e == Silent || e == Registers
  {
  }

  /** Outside a capture no solicitation guard is live, and none is when a capture is opened. */
  lemma OpeningLive(s: Session, addrs: seq<IpAddress>)
    requires SessionInv(s) && !s.syn.alive
    ensures Gather(s.daws, SolicitationOf) == multiset{} == Gather(Opened(addrs).daws, SolicitationOf)
  {
    forall i | 0 <= i < |s.daws| ensures SolicitationOf(s.daws[i]) == multiset{} {
      assert DawInv(s.syn, s.daws[i]);
    }
    GatherEmpty(s.daws, SolicitationOf);
    GatherEmpty(Opened(addrs).daws, SolicitationOf);
  }

  lemma BuildGuardLive(s: Session, j: nat)
    requires j < |s.daws| + 2
    ensures Gather(BuildGuard(s, j).daws, SolicitationOf) == Gather(s.daws, SolicitationOf)
  {
    if j >= 2 { GatherStep(s.daws, j - 2, BuildGuard(s, j).daws[j - 2], SolicitationOf, Silent); }
  }

  /** How a step of the wait can change the watchers. */
  ghost predicate WatchersKept(h: Host, s': Session) {
    || s'.daws == h.session.daws
    || (h.pc.Building? && h.pc.j < |h.session.daws| + 2 && s' == BuildGuard(h.session, h.pc.j))
    || (!h.session.syn.alive && s' == Opened(h.cfg.addresses))
  }

  lemma WaitMoveWatchers(h: Host, m: WaitAction, h': Host, e: Effect)
    requires PhaseInv(h) && WaitMove(h, m) == Some((h', e))
    ensures WatchersKept(h, h'.session) && (e.Silent? || e.Registers?)
  {
  }

  lemma WatchersKeptLive(h: Host, s': Session)
    requires SessionInv(h.session) && WatchersKept(h, s')
    ensures Gather(s'.daws, SolicitationOf) == Gather(h.session.daws, SolicitationOf)
  {
    if !h.session.syn.alive { OpeningLive(h.session, h.cfg.addresses); }
    if h.pc.Building? && h.pc.j < |h.session.daws| + 2 { BuildGuardLive(h.session, h.pc.j); }
  }

  lemma WaitMoveLive(h: Host, m: WaitAction, h': Host, e: Effect)
    requires SessionInv(h.session) && PhaseInv(h) && WaitMove(h, m) == Some((h', e))
    ensures LiveChange(Gather(h.session.daws, SolicitationOf), Gather(h'.session.daws, SolicitationOf), e)
  {
    WaitMoveWatchers(h, m, h', e);
    WatchersKeptLive(h, h'.session);
  }

  lemma StopMoveKeeps(s: Session, m: StopAction, s': Session, e: Effect)
    requires SessionInv(s) && StopMove(s, m) == Some((s', e))
    ensures SessionInv(s') && s'.syn == s.syn && s'.result == s.result && |s'.daws| == |s.daws|
    ensures e.Silent? || e.Unregisters?
    ensures s'.registered == (if e.Unregisters? then false else s.registered)
    ensures e.Unregisters? ==> s.registered
  {
    if m.StopDaw? || m.JoinDaw? { assert DawInv(s.syn, s.daws[m.i]); }
  }

  lemma StopMoveLive(s: Session, m: StopAction, s': Session, e: Effect)
    requires StopMove(s, m) == Some((s', e))
    ensures LiveChange(Gather(s.daws, SolicitationOf), Gather(s'.daws, SolicitationOf), e)
  {
    match m
    case StopDaw(i) => GatherStep(s.daws, i, s.daws[i].(guard := Joining, loop := false), SolicitationOf, e);
    case JoinDaw(i) => GatherStep(s.daws, i, s.daws[i].(guard := Gone), SolicitationOf, e);
    case _ =>
  }

  /** A step inside the session that only adds to its history keeps the rest of the host's invariant. */
  lemma SessionStepKeeps(h: Host, s': Session, signaled: bool)
    requires HostInv(h, signaled) && SessionInv(s')
    requires Grows(h.session.syn, s'.syn) && s'.result == h.session.result && |s'.daws| == |h.session.daws|
    requires ReasonWritten(h.session.syn) ==> ReasonWritten(s'.syn)
    requires h.pc.Building? ==> BuildInv(s', h.pc.j)
    requires h.pc.Closing? ==> Quiet(s')
    ensures HostInv(h.(session := s'), signaled)
  {
  }

  lemma HostMoveKeeps(h: Host, a: HostAction, signaled: bool, h': Host, e: Effect)
    requires HostInv(h, signaled) && HostMove(h, a, signaled) == Some((h', e))
    ensures HostInv(h', signaled || e.Raises?)
  {
    match a
    case Round(m) =>
      RoundMoveRound(h, m, signaled, h', e);
      RoundMoveRest(h, m, signaled, h', e);
    case Lock(m) => LockMoveKeeps(h, m, signaled, h', e);
    case Wait(m) =>
      WaitMoveSession(h, m, h', e);
      WaitMovePhase(h, m, h', e);
      WaitMoveResult(h, m, h', e);
      WaitMoveRest(h, m, signaled, h', e);
    case Wake(m) =>
      WakeMoveResult(h, m, h', e);
      WakeMoveRest(h, m, signaled, h', e);
    case Stop(m) =>
      StopMoveKeeps(h.session, m, h'.session, e);
      SessionStepKeeps(h, h'.session, signaled);
    case Watcher(w) =>
      WatcherStepKeeps(h.session, w, h.cfg.mac, h'.session, e);
      WatcherStepLive(h.session, w, h.cfg.mac, h'.session, e);
      SessionStepKeeps(h, h'.session, signaled);
  }

  /** A host has three stocks of guards, and a step changes at most one of them. */
  lemma LiveParts(h: Host, h': Host, e: Effect)
    requires
      || (LiveChange(Gather(h.locks, OwnedBy), Gather(h'.locks, OwnedBy), e) && h'.icmp == h.icmp && h'.session == h.session)
      || (LiveChange(IcmpOf(h.icmp), IcmpOf(h'.icmp), e) && h'.locks == h.locks && h'.session == h.session)
      || (LiveChange(Gather(h.session.daws, SolicitationOf), Gather(h'.session.daws, SolicitationOf), e)
          && h'.locks == h.locks && h'.icmp == h.icmp)
    ensures LiveChange(LiveGuards(h), LiveGuards(h'), e)
  {
    var (a, b, c) := (Gather(h.locks, OwnedBy), IcmpOf(h.icmp), Gather(h.session.daws, SolicitationOf));
    var (a', b', c') := (Gather(h'.locks, OwnedBy), IcmpOf(h'.icmp), Gather(h'.session.daws, SolicitationOf));
    if LiveChange(a, a', e) && b' == b && c' == c {
      LiveChangeBeside(a, a', e, b);
      LiveChangeBeside(a + b, a' + b, e, c);
    } else if LiveChange(b, b', e) && a' == a && c' == c {
      LiveChangeBeside(b, b', e, a);
      LiveChangeBeside(a + b, a + b', e, c);
    } else {
      LiveChangeBeside(c, c', e, a + b);
    }
  }

  lemma HostMoveLive(h: Host, a: HostAction, signaled: bool, h': Host, e: Effect)
    requires HostInv(h, signaled) && HostMove(h, a, signaled) == Some((h', e))
    ensures LiveChange(LiveGuards(h), LiveGuards(h'), e)
  {
    match a
    case Round(m) => RoundMoveLive(h, m, signaled, h', e);
    case Lock(m) =>
      LockMoveLive(h, m, h', e);
      LiveParts(h, h', e);
    case Wait(m) =>
      WaitMoveRest(h, m, signaled, h', e);
      WaitMoveLive(h, m, h', e);
      LiveParts(h, h', e);
    case Wake(m) =>
      WakeMoveRest(h, m, signaled, h', e);
      WakeMoveLive(h, m, h', e);
      LiveParts(h, h', e);
    case Stop(m) =>
      StopMoveLive(h.session, m, h'.session, e);
      LiveParts(h, h', e);
    case Watcher(w) =>
      WatcherStepLive(h.session, w, h.cfg.mac, h'.session, e);
      LiveParts(h, h', e);
  }

  /** What a step may change of a host as the rest of the system sees it. */
  ghost predicate Framed(h: Host, h': Host, e: Effect) {
    && h'.cfg == h.cfg && h'.plan == h.plan
    && h'.session.registered == (if e.Registers? then true else if e.Unregisters? then false else h.session.registered)
    && (e.Registers? ==> !h.session.registered)
    && (e.Unregisters? ==> h.session.registered)
    && (Signal in h.session.syn.written && h.session.registered && h'.session.registered ==> Signal in h'.session.syn.written)
    && (h.session.syn.breakRequested && h.session.registered && h'.session.registered ==> h'.session.syn.breakRequested)
  }

  lemma WaitMoveFrame(h: Host, m: WaitAction, h': Host, e: Effect)
    requires SessionInv(h.session) && PhaseInv(h) && WaitMove(h, m) == Some((h', e))
    ensures Framed(h, h', e)
  {
  }

  lemma StopMoveFrame(h: Host, m: StopAction, h': Host, e: Effect)
    requires SessionInv(h.session) && InSession(h, StopMove(h.session, m)) == Some((h', e))
    ensures Framed(h, h', e)
  {
    StopMoveKeeps(h.session, m, h'.session, e);
  }

  lemma WatcherFrame(h: Host, w: WatcherAction, h': Host, e: Effect)
    requires SessionInv(h.session) && InSession(h, WatcherStep(h.session, w, h.cfg.mac)) == Some((h', e))
    ensures Framed(h, h', e)
  {
    WatcherStepKeeps(h.session, w, h.cfg.mac, h'.session, e);
    WatcherStepLive(h.session, w, h.cfg.mac, h'.session, e);
  }

  lemma HostMoveFrame(h: Host, a: HostAction, signaled: bool, h': Host, e: Effect)
    requires SessionInv(h.session) && PhaseInv(h) && HostMove(h, a, signaled) == Some((h', e))
    ensures Framed(h, h', e)
  {
    match a
    case Round(m) =>
    case Lock(m) =>
    case Wake(m) =>
    case Wait(m) => WaitMoveFrame(h, m, h', e);
    case Stop(m) => StopMoveFrame(h, m, h', e);
    case Watcher(w) => WatcherFrame(h, w, h', e);
  }

  lemma SignalKeeps(h: Host, before: bool, after: bool)
    requires HostInv(h, before) && (before ==> after)
    ensures HostInv(h, after)
  {
  }
}
