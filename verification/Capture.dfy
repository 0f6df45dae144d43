/**
 * The SYN capture of one emulated host and the threads that may end it: one
 * duplicate-address watcher per address and the Wake-on-LAN watcher with its own
 * inner capture.  Every thread moves in single atomic steps, so that the steps of
 * different threads interleave freely.
 */
module Capture {
  import opened Net
  import opened Firewall
  import Magic

  // ---------------------------------------------------------------------------
  // The capture object

  /** `Pcap_wrapper::Loop_end_reason` */
  datatype Reason = Unset | Captured | Signal | Duplicate | Failed

  /** What `pcap_loop` gave back; `Broken` also stands for a cancelled capture thread. */
  datatype LoopResult = Zero | PcapError | Broken

  /** Why a thread may want to end the capture. */
  datatype Cause = OccupiedSeen | MagicPacketSeen | HandlerRan | ExceptionCaught

  /**
   * The capture `pc` of one call of `wait_and_listen`.  `written` and `causes` are history;
   * `stale` records that `break_loop` was called on a capture that was not alive.
   */
  datatype Syn = Syn(alive: bool, reason: Reason, breakRequested: bool,
                     written: set<Reason>, causes: set<Cause>, stale: bool)

  /** What one step of some thread does to the capture; `break_loop` is `Write` and then `Request`. */
  datatype Op = Nothing | Note(cause: Cause) | Write(reason: Reason) | Request

  function Do(y: Syn, op: Op): Syn {
    match op
    case Nothing => y
    case Note(c) => y.(causes := y.causes + {c})
    case Write(r) => y.(reason := r, written := y.written + {r}, stale := y.stale || !y.alive)
    case Request => y.(breakRequested := true, stale := y.stale || !y.alive)
  }

  predicate BreakWritten(y: Syn) {
    Signal in y.written || Duplicate in y.written
  }

  predicate DuplicateCause(y: Syn) {
    OccupiedSeen in y.causes || MagicPacketSeen in y.causes
  }

  predicate SignalCause(y: Syn) {
    HandlerRan in y.causes || ExceptionCaught in y.causes
  }

  ghost predicate SynInv(y: Syn) {
    && !y.stale
    && (forall r :: r in y.written ==> r == Signal || r == Duplicate)
    && (y.breakRequested ==> BreakWritten(y))
    && (Duplicate in y.written ==> DuplicateCause(y))
    && (Signal in y.written ==> SignalCause(y))
  }

  /** As long as `loop` has not stored its own result, the reason is one that `break_loop` wrote. */
  predicate ReasonWritten(y: Syn) {
    if BreakWritten(y) then y.reason in y.written else y.reason == Unset
  }

  predicate Permitted(y: Syn, op: Op) {
    match op
    case Nothing => true
    case Note(_) => true
    case Write(r) => y.alive && ((r == Duplicate && DuplicateCause(y)) || (r == Signal && SignalCause(y)))
    case Request => y.alive && BreakWritten(y)
  }

  /** History only grows, and liveness is not changed by watchers. */
  ghost predicate Grows(y: Syn, y': Syn) {
    && y'.alive == y.alive
    && (forall r :: r in y.written ==> r in y'.written)
    && (forall c :: c in y.causes ==> c in y'.causes)
    && (y.breakRequested ==> y'.breakRequested)
  }

  lemma DoKeeps(y: Syn, op: Op)
    requires SynInv(y) && Permitted(y, op)
    ensures SynInv(Do(y, op)) && Grows(y, Do(y, op))
    ensures ReasonWritten(y) ==> ReasonWritten(Do(y, op))
  {
  }

  // ---------------------------------------------------------------------------
  // Effects outside the host's own state, and collections of guards

  datatype Effect =
    | Silent
    | Adds(g: Guard)
    | Deletes(g: Guard)
    | Registers
    | Unregisters
    | Raises

  ghost predicate LiveChange(before: multiset<Guard>, after: multiset<Guard>, e: Effect) {
    match e
    case Adds(g) => after == before + multiset{g}
    case Deletes(g) => g in before && after == before - multiset{g}
    case _ => after == before
  }

  lemma LiveChangeBeside(before: multiset<Guard>, after: multiset<Guard>, e: Effect, rest: multiset<Guard>)
    requires LiveChange(before, after, e)
    ensures LiveChange(before + rest, after + rest, e)
    ensures LiveChange(rest + before, rest + after, e)
  {
    if e.Deletes? { assert (before - multiset{e.g}) + rest == before + rest - multiset{e.g}; }
  }

  ghost function Gather<T>(s: seq<T>, f: T -> multiset<Guard>): multiset<Guard> {
    if s == [] then multiset{} else f(s[0]) + Gather(s[1..], f)
  }

  /** Replacing one element leaves what the others contribute alone. */
  lemma {:induction false} GatherRest<T>(s: seq<T>, i: nat, x: T, f: T -> multiset<Guard>) returns (rest: multiset<Guard>)
    requires i < |s|
    ensures Gather(s, f) == f(s[i]) + rest && Gather(s[i := x], f) == f(x) + rest
  {
    if i == 0 {
      assert s[i := x][1..] == s[1..];
      rest := Gather(s[1..], f);
    } else {
      assert s[i := x][1..] == s[1..][i - 1 := x];
      var inner := GatherRest(s[1..], i - 1, x, f);
      rest := f(s[0]) + inner;
      GatherSwap(f(s[0]), f(s[i]), inner);
      GatherSwap(f(s[0]), f(x), inner);
    }
  }

  lemma GatherSwap(a: multiset<Guard>, b: multiset<Guard>, c: multiset<Guard>)
    ensures a + (b + c) == b + (a + c)
  {
  }

  lemma GatherIncludes<T>(s: seq<T>, i: nat, f: T -> multiset<Guard>)
    requires i < |s|
    ensures f(s[i]) <= Gather(s, f)
  {
    var rest := GatherRest(s, i, s[i], f);
  }

  lemma GatherStep<T>(s: seq<T>, i: nat, x: T, f: T -> multiset<Guard>, e: Effect)
    requires i < |s| && LiveChange(f(s[i]), f(x), e)
    ensures LiveChange(Gather(s, f), Gather(s[i := x], f), e)
  {
    var rest := GatherRest(s, i, x, f);
    LiveChangeBeside(f(s[i]), f(x), e, rest);
  }

  lemma {:induction false} GatherAppend<T>(s: seq<T>, x: T, f: T -> multiset<Guard>)
    ensures Gather(s + [x], f) == Gather(s, f) + f(x)
  {
    if s != [] {
      assert (s + [x])[1..] == s[1..] + [x];
      GatherAppend(s[1..], x, f);
    }
  }

  lemma {:induction false} GatherMember<T>(s: seq<T>, f: T -> multiset<Guard>, g: Guard) returns (i: nat)
    requires g in Gather(s, f)
    ensures i < |s| && g in f(s[i])
  {
    if g in f(s[0]) {
      i := 0;
    } else {
      var j := GatherMember(s[1..], f, g);
      i := j + 1;
    }
  }

  lemma {:induction false} GatherEmpty<T>(s: seq<T>, f: T -> multiset<Guard>)
    requires forall i :: 0 <= i < |s| ==> f(s[i]) == multiset{}
    ensures Gather(s, f) == multiset{}
  {
    if s != [] { GatherEmpty(s[1..], f); }
  }

  // ---------------------------------------------------------------------------
  // Duplicate-address watchers

  /** Life of a watcher's scope guard: `Asked` is in the middle of `stop`, `Joining` waits for the thread. */
  datatype GuardState = Unbuilt | Running | Asked | Joining | Gone

  predicate Still(g: GuardState) {
    g.Unbuilt? || g.Gone?
  }

  datatype DawPc =
    | Idle
    | BlockingSolicitation
    | Testing
    | Checking
    | Writing(reason: Reason)
    | Requesting(reason: Reason)
    | Leaving
    | Done

  /** A watcher: its guard, its `loop` flag, whether its neighbour-solicitation rule is in, and its thread. */
  datatype Daw = Daw(addr: IpAddress, guard: GuardState, loop: bool, blocked: bool, pc: DawPc)

  datatype Occupancy = Vacant | Occupied | CheckThrew

  datatype DawAction = BlockSolicitation(ok: bool) | Test | Check(found: Occupancy) | WriteStep | RequestStep | Leave

  function SolicitationGuard(d: Daw): Guard {
    OnChain(DropSolicitation(d.addr.pure))
  }

  function SolicitationOf(d: Daw): multiset<Guard> {
    if d.blocked then multiset{SolicitationGuard(d)} else multiset{}
  }

  function DawMove(d: Daw, a: DawAction): Option<(Daw, Op, Effect)> {
    match a
    case BlockSolicitation(ok) =>
      if d.pc != BlockingSolicitation then None
      else if ok then Some((d.(pc := Testing, blocked := true), Nothing, Adds(SolicitationGuard(d))))
      else Some((d.(pc := Writing(Signal), loop := false), Note(ExceptionCaught), Silent))
    case Test =>
      if d.pc != Testing then None
      else Some((d.(pc := if d.loop then Checking else Leaving), Nothing, Silent))
    case Check(found) =>
      if d.pc != Checking then None else (
      match found
      case Vacant => Some((d.(pc := Testing), Nothing, Silent))
      case Occupied => Some((d.(pc := Writing(Duplicate), loop := false), Note(OccupiedSeen), Silent))
      case CheckThrew => Some((d.(pc := Writing(Signal), loop := false), Note(ExceptionCaught), Silent)))
    case WriteStep =>
      if !d.pc.Writing? then None
      else Some((d.(pc := Requesting(d.pc.reason)), Write(d.pc.reason), Silent))
    case RequestStep =>
      if !d.pc.Requesting? then None
      else Some((d.(pc := if d.pc.reason == Duplicate then Testing else Leaving), Request, Silent))
    case Leave =>
      if d.pc != Leaving then None
      else Some((d.(pc := Done, blocked := false), Nothing, if d.blocked then Deletes(SolicitationGuard(d)) else Silent))
  }

  ghost predicate DawInv(y: Syn, d: Daw) {
    && (d.guard.Unbuilt? ==> d.pc.Idle?)
    && (d.guard.Gone? ==> d.pc.Done?)
    && (!y.alive ==> Still(d.guard))
    && (d.pc.Idle? || d.pc.Done? || d.pc.BlockingSolicitation? ==> !d.blocked)
    && (d.pc.Writing? ==>
          (d.pc.reason == Duplicate && OccupiedSeen in y.causes) || (d.pc.reason == Signal && ExceptionCaught in y.causes))
    && (d.pc.Requesting? ==> d.pc.reason in y.written)
  }

  lemma DawMoveKeeps(y: Syn, d: Daw, a: DawAction, d': Daw, op: Op, e: Effect)
    requires SynInv(y) && DawInv(y, d) && DawMove(d, a) == Some((d', op, e))
    ensures Permitted(y, op)
    ensures DawInv(Do(y, op), d')
    ensures d'.guard == d.guard && d'.addr == d.addr
  {
  }

  lemma DawMoveLive(y: Syn, d: Daw, a: DawAction, d': Daw, op: Op, e: Effect)
    requires DawInv(y, d) && DawMove(d, a) == Some((d', op, e))
    ensures LiveChange(SolicitationOf(d), SolicitationOf(d'), e)
    ensures e == Silent || e == Adds(SolicitationGuard(d)) || e == Deletes(SolicitationGuard(d))
  {
  }

  // ---------------------------------------------------------------------------
  // Wake-on-LAN watcher

  datatype WolPc = Unstarted | Sniffing | BreakingInner | Reporting | BreakingSyn | Exited

  /** The watcher: its guard, its thread and the end reason and break flag of its inner capture. */
  datatype Wol = Wol(guard: GuardState, pc: WolPc, innerReason: Reason, innerBreak: bool)

  /** A packet on the inner capture; `InnerEnds(returned0)`: the inner `pcap_loop` gave 0, or else it was broken. */
  datatype WolAction = PacketSniffed(data: Bytes) | RequestInner | InnerEnds(returned0: bool) | Report | RequestSyn

  function WolMove(w: Wol, a: WolAction, mac: Mac): Option<(Wol, Op)> {
    match a
    case PacketSniffed(data) =>
      if w.pc != Sniffing then None
      else if !Magic.IsMagicPacket(data, mac) then Some((w, Nothing))
      else Some((w.(pc := BreakingInner, innerReason := Duplicate), Note(MagicPacketSeen)))
    case RequestInner =>
      if w.pc != BreakingInner then None else Some((w.(pc := Sniffing, innerBreak := true), Nothing))
    case InnerEnds(returned0) =>
      if w.pc != Sniffing && w.pc != BreakingInner then None
      else if returned0 then Some((w.(pc := Exited, innerReason := Captured), Nothing))
      else if !w.innerBreak then None
      else Some((w.(pc := if w.innerReason == Duplicate then Reporting else Exited), Nothing))
    case Report =>
      if w.pc != Reporting then None else Some((w.(pc := BreakingSyn), Write(Duplicate)))
    case RequestSyn =>
      if w.pc != BreakingSyn then None else Some((w.(pc := Exited), Request))
  }

  ghost predicate WolInv(y: Syn, w: Wol) {
    && (w.guard.Unbuilt? ==> w.pc.Unstarted?)
    && (w.guard.Gone? ==> w.pc.Exited?)
    && (!y.alive ==> Still(w.guard))
    && (w.innerReason == Duplicate || w.pc.Reporting? ==> MagicPacketSeen in y.causes)
    && (w.pc.BreakingSyn? ==> Duplicate in y.written)
  }

  lemma WolMoveKeeps(y: Syn, w: Wol, a: WolAction, mac: Mac, w': Wol, op: Op)
    requires SynInv(y) && WolInv(y, w) && WolMove(w, a, mac) == Some((w', op))
    ensures Permitted(y, op)
    ensures WolInv(Do(y, op), w') && w'.guard == w.guard
  {
  }

  // ---------------------------------------------------------------------------
  // One call of `wait_and_listen`

  datatype Session = Session(syn: Syn, registered: bool, wol: Wol, daws: seq<Daw>, result: Option<LoopResult>)

  function Closed(): Session {
    Session(Syn(false, Unset, false, {}, {}, false), false, Wol(Unbuilt, Unstarted, Unset, false), [], None)
  }

  function Opened(addrs: seq<IpAddress>): Session {
    Session(Syn(true, Unset, false, {}, {}, false), false, Wol(Unbuilt, Unstarted, Unset, false),
            seq(|addrs|, i requires 0 <= i < |addrs| => Daw(addrs[i], Unbuilt, false, false, Idle)), None)
  }

  predicate Quiet(s: Session) {
    && !s.registered
    && Still(s.wol.guard)
    && forall i :: 0 <= i < |s.daws| ==> Still(s.daws[i].guard)
  }

  ghost predicate SessionInv(s: Session) {
    && SynInv(s.syn)
    && WolInv(s.syn, s.wol)
    && (forall i :: 0 <= i < |s.daws| ==> DawInv(s.syn, s.daws[i]))
    && (s.registered ==> s.syn.alive)
  }

  datatype WatcherAction = DawActs(i: nat, daw: DawAction) | WolActs(wol: WolAction)

  function WatcherStep(s: Session, a: WatcherAction, mac: Mac): Option<(Session, Effect)> {
    match a
    case DawActs(i, act) =>
      if i >= |s.daws| then None else (
      match DawMove(s.daws[i], act)
      case None => None
      case Some((d, op, e)) => Some((s.(syn := Do(s.syn, op), daws := s.daws[i := d]), e)))
    case WolActs(act) => (
      match WolMove(s.wol, act, mac)
      case None => None
      case Some((w, op)) => Some((s.(syn := Do(s.syn, op), wol := w), Silent)))
  }

  /** What a watcher's step leaves alone, and what it can only add to. */
  ghost predicate Advances(s: Session, s': Session) {
    && Grows(s.syn, s'.syn)
    && (ReasonWritten(s.syn) ==> ReasonWritten(s'.syn))
    && s'.registered == s.registered && s'.result == s.result
    && s'.wol.guard == s.wol.guard
    && |s'.daws| == |s.daws|
    && forall k :: 0 <= k < |s.daws| ==> s'.daws[k].guard == s.daws[k].guard && s'.daws[k].addr == s.daws[k].addr
  }

  lemma OpKeeps(s: Session, op: Op)
    requires SessionInv(s) && Permitted(s.syn, op)
    ensures SessionInv(s.(syn := Do(s.syn, op)))
    ensures Grows(s.syn, Do(s.syn, op)) && (ReasonWritten(s.syn) ==> ReasonWritten(Do(s.syn, op)))
  {
    DoKeeps(s.syn, op);
  }

  lemma WatcherStepKeeps(s: Session, a: WatcherAction, mac: Mac, s': Session, e: Effect)
    requires SessionInv(s) && WatcherStep(s, a, mac) == Some((s', e))
    ensures SessionInv(s') && Advances(s, s')
  {
    match a
    case DawActs(i, act) =>
      var Some((d, op, _)) := DawMove(s.daws[i], act);
      DawMoveKeeps(s.syn, s.daws[i], act, d, op, e);
      OpKeeps(s, op);
    case WolActs(act) =>
      var Some((w, op)) := WolMove(s.wol, act, mac);
      WolMoveKeeps(s.syn, s.wol, act, mac, w, op);
      OpKeeps(s, op);
  }

  lemma WatcherStepLive(s: Session, a: WatcherAction, mac: Mac, s': Session, e: Effect)
    requires SessionInv(s) && WatcherStep(s, a, mac) == Some((s', e))
    ensures LiveChange(Gather(s.daws, SolicitationOf), Gather(s'.daws, SolicitationOf), e)
    ensures e.Silent? || ((e.Adds? || e.Deletes?) && e.g.OnChain? && e.g.rule.DropSolicitation?)
  {
    if a.DawActs? {
      var Some((d, op, _)) := DawMove(s.daws[a.i], a.daw);
      DawMoveLive(s.syn, s.daws[a.i], a.daw, d, op, e);
      GatherStep(s.daws, a.i, d, SolicitationOf, e);
    }
  }
}
