/** What every run of watchHost does in response: to signals, to pings, to the host's answer and to duplicate addresses. */
module Responses {
  import opened Net
  import opened Firewall
  import opened Capture
  import opened Emulation
  import opened System
  import opened Guarantees
  import Magic

  // ---------------------------------------------------------------------------
  // The signal handler reaches every registered capture

  /** The handler has broken the capture of host `i` with the reason `signal`. */
  predicate Broken(s: State, i: nat)
    requires i < |s.hosts|
  {
    Signal in s.hosts[i].session.syn.written && s.hosts[i].session.syn.breakRequested
  }

  /** While the handler holds the mutex, every registered capture is still to be visited or has been broken. */
  ghost predicate Visiting(s: State) {
    s.handler.Holds? ==>
      forall p :: 0 <= p < |s.pcaps| && s.pcaps[p] < |s.hosts| && s.pcaps[p] !in s.handler.todo ==> Broken(s, s.pcaps[p])
  }

  lemma HostStepVisits(s: State, i: nat, a: HostAction, h: Host, e: Effect, t: State)
    requires PcapsInv(s) && HostsInv(s) && Visiting(s) && i < |s.hosts|
    requires HostMove(s.hosts[i], a, s.signaled) == Some((h, e)) && TakeEffect(s, i, e) == Some(t)
    ensures Visiting(t.(hosts := s.hosts[i := h]))
  {
    assert HostInv(s.hosts[i], s.signaled);
    HostMoveFrame(s.hosts[i], a, s.signaled, h, e);
    if s.handler.Holds? {
      assert t.pcaps == s.pcaps && t.handler == s.handler;
      forall p | 0 <= p < |s.pcaps| && s.pcaps[p] !in s.handler.todo ensures Broken(t.(hosts := s.hosts[i := h]), s.pcaps[p]) {
        assert s.pcaps[p] in s.pcaps && Broken(s, s.pcaps[p]);
      }
    }
  }

  lemma RequestVisits(s: State, t: State)
    requires PcapsInv(s) && HandlerInv(s) && Visiting(s) && Step(s, HandlerRequests) == Some(t)
    ensures Visiting(t)
  {
    var i := s.handler.todo[0];
    forall p | 0 <= p < |t.pcaps| && t.pcaps[p] < |t.hosts| && t.pcaps[p] !in t.handler.todo ensures Broken(t, t.pcaps[p]) {
      if t.pcaps[p] != i {
        assert s.handler.todo == [i] + t.handler.todo;
        assert Broken(s, s.pcaps[p]);
      }
    }
  }

  lemma WriteVisits(s: State, t: State)
    requires PcapsInv(s) && Visiting(s) && Step(s, HandlerWrites) == Some(t)
    ensures Visiting(t)
  {
    forall p | 0 <= p < |t.pcaps| && t.pcaps[p] < |t.hosts| && t.pcaps[p] !in t.handler.todo ensures Broken(t, t.pcaps[p]) {
      assert Broken(s, s.pcaps[p]);
    }
  }

  lemma StepVisits(k: Kernel, s: State, a: Action, t: State)
    requires Inv(k, s) && Visiting(s) && Step(s, a) == Some(t)
    ensures Visiting(t)
  {
    match a
    case HostActs(i, act) =>
      var Some((h, e)) := HostMove(s.hosts[i], act, s.signaled);
      HostStepVisits(s, i, act, h, e, TakeEffect(s, i, e).value);
    case HandlerWrites => WriteVisits(s, t);
    case HandlerRequests => RequestVisits(s, t);
    case SignalArrives => assert forall p :: 0 <= p < |t.pcaps| && t.pcaps[p] < |t.hosts| ==> Broken(t, t.pcaps[p]) == Broken(s, s.pcaps[p]);
    case HandlerLocks =>
    case HandlerUnlocks =>
  }

  lemma {:induction false} RunVisits(k: Kernel, cfgs: seq<Config>, actions: seq<Action>, s: State)
    requires Run(Start(k, cfgs), actions) == Some(s)
    ensures Visiting(s)
  {
    if actions != [] {
      var before := actions[..|actions| - 1];
      var t := Run(Start(k, cfgs), before).value;
      RunVisits(k, cfgs, before, t);
      RunKeeps(k, cfgs, before, t);
      StepVisits(k, t, actions[|actions| - 1], s);
    }
  }

  /** Whenever the handler lets go of the mutex, every registered capture has been given the reason `signal` and a break request. */
  lemma HandlerBreaksAll(k: Kernel, cfgs: seq<Config>, actions: seq<Action>, s: State, i: nat)
    requires Run(Start(k, cfgs), actions) == Some(s) && Step(s, HandlerUnlocks).Some? && i in s.pcaps
    ensures i < |s.hosts| && Signal in s.hosts[i].session.syn.written && s.hosts[i].session.syn.breakRequested
  {
    RunVisits(k, cfgs, actions, s);
    RunKeeps(k, cfgs, actions, s);
    var p :| 0 <= p < |s.pcaps| && s.pcaps[p] == i;
  }

  /** A run that goes on from `s` to `t`. */
  ghost predicate GoesOn(s: State, acts: seq<Action>, t: State) {
    Run(s, acts) == Some(t)
  }

  lemma OneStep(s: State, acts: seq<Action>, t: State, a: Action, u: State)
    requires GoesOn(s, acts, t) && Step(t, a) == Some(u)
    ensures GoesOn(s, acts + [a], u)
  {
    assert (acts + [a])[..|acts|] == acts;
  }

  /** The handler can visit all the captures that are left. */
  lemma {:induction false} VisitsRest(k: Kernel, s: State, acts: seq<Action>, t: State) returns (more: seq<Action>, u: State)
    requires GoesOn(s, acts, t) && Inv(k, t) && Visiting(t) && t.handler.Holds? && !t.handler.wrote
    ensures GoesOn(s, more, u) && Inv(k, u) && Visiting(u) && u.handler == Holds([], false)
    ensures u.pcaps == t.pcaps && |u.hosts| == |t.hosts| && u.signaled == t.signaled && acts <= more
    decreases |t.handler.todo|
  {
    more, u := acts, t;
    if t.handler.todo != [] {
      more, u := VisitsOne(k, s, acts, t);
      more, u := VisitsRest(k, s, more, u);
    }
  }

  lemma CanVisit(t: State) returns (v: State, w: State)
    requires PcapsInv(t) && HandlerInv(t) && t.handler.Holds? && !t.handler.wrote && t.handler.todo != []
    ensures Step(t, HandlerWrites) == Some(v) && Step(v, HandlerRequests) == Some(w)
    ensures w.handler == Holds(t.handler.todo[1..], false)
    ensures w.pcaps == t.pcaps && |w.hosts| == |t.hosts| && w.signaled == t.signaled
  {
    assert t.handler.todo[0] in t.pcaps;
    v := Step(t, HandlerWrites).value;
    w := Step(v, HandlerRequests).value;
  }

  lemma VisitsOne(k: Kernel, s: State, acts: seq<Action>, t: State) returns (more: seq<Action>, w: State)
    requires GoesOn(s, acts, t) && Inv(k, t) && Visiting(t) && t.handler.Holds? && !t.handler.wrote && t.handler.todo != []
    ensures GoesOn(s, more, w) && Inv(k, w) && Visiting(w) && w.handler == Holds(t.handler.todo[1..], false)
    ensures w.pcaps == t.pcaps && |w.hosts| == |t.hosts| && w.signaled == t.signaled && acts <= more
  {
    var v;
    v, w := CanVisit(t);
    OneStep(s, acts, t, HandlerWrites, v);
    StepKeeps(k, t, HandlerWrites, v);
    StepVisits(k, t, HandlerWrites, v);
    OneStep(s, acts + [HandlerWrites], v, HandlerRequests, w);
    StepKeeps(k, v, HandlerRequests, w);
    StepVisits(k, v, HandlerRequests, w);
    more := acts + [HandlerWrites] + [HandlerRequests];
  }

  lemma AllVisited(u: State, i: nat)
    requires Visiting(u) && u.handler == Holds([], false) && i in u.pcaps && i < |u.hosts|
    ensures Broken(u, i)
  {
    var p :| 0 <= p < |u.pcaps| && u.pcaps[p] == i;
  }

  lemma LocksFirst(k: Kernel, s: State, acts: seq<Action>, t: State) returns (more: seq<Action>, u: State)
    requires GoesOn(s, acts, t) && Inv(k, t) && t.handler.Free? && t.pending > 0
    ensures acts <= more && GoesOn(s, more, u) && Inv(k, u) && Visiting(u)
    ensures u.handler == Holds(t.pcaps, false) && u.pcaps == t.pcaps && |u.hosts| == |t.hosts| && u.signaled == t.signaled
  {
    u := CanLock(t);
    StepKeeps(k, t, HandlerLocks, u);
    OneStep(s, acts, t, HandlerLocks, u);
    more := acts + [HandlerLocks];
  }

  lemma CanLock(t: State) returns (u: State)
    requires t.handler.Free? && t.pending > 0
    ensures Step(t, HandlerLocks) == Some(u) && Visiting(u)
    ensures u.handler == Holds(t.pcaps, false) && u.pcaps == t.pcaps && |u.hosts| == |t.hosts| && u.signaled == t.signaled
  {
    u := Step(t, HandlerLocks).value;
  }

  lemma UnlocksLast(s: State, acts: seq<Action>, u: State) returns (more: seq<Action>, t: State)
    requires GoesOn(s, acts, u) && Visiting(u) && u.handler == Holds([], false)
    ensures GoesOn(s, more, t) && acts <= more && t == u.(handler := Free)
    ensures forall i :: i in t.pcaps && i < |t.hosts| ==> Broken(t, i)
  {
    t := u.(handler := Free);
    OneStep(s, acts, u, HandlerUnlocks, t);
    forall i | i in u.pcaps && i < |u.hosts| ensures Broken(t, i) { AllVisited(u, i); }
    more := acts + [HandlerUnlocks];
  }

  /** A signal that waits for the mutex can be served as soon as that is free, and then every registered capture has been broken. */
  lemma PendingIsServed(k: Kernel, s: State, acts: seq<Action>, t: State) returns (more: seq<Action>, u: State)
    requires GoesOn(s, acts, t) && Inv(k, t) && t.handler.Free? && t.pending > 0
    ensures acts <= more && GoesOn(s, more, u)
    ensures u.handler.Free? && u.pcaps == t.pcaps && |u.hosts| == |t.hosts| && u.signaled == t.signaled
    ensures forall i :: i in t.pcaps && i < |t.hosts| ==> Broken(u, i)
  {
    more, u := LocksFirst(k, s, acts, t);
    more, u := VisitsRest(k, s, more, u);
    more, u := UnlocksLast(s, more, u);
  }

  lemma Raised(k: Kernel, cfgs: seq<Config>, actions: seq<Action>, s: State, a: Action, t: State)
    requires Run(Start(k, cfgs), actions) == Some(s) && Step(s, a) == Some(t)
    ensures GoesOn(s, [a], t) && Inv(k, t)
  {
    RunKeeps(k, cfgs, actions, s);
    StepKeeps(k, s, a, t);
    assert [a][..0] == [];
    assert Run(s, []) == Some(s);
  }

  /** A signal can be served at once whenever the mutex is free. */
  lemma SignalIsServed(k: Kernel, cfgs: seq<Config>, actions: seq<Action>, s: State) returns (more: seq<Action>, u: State)
    requires Run(Start(k, cfgs), actions) == Some(s) && s.handler.Free?
    ensures [SignalArrives] <= more && GoesOn(s, more, u)
    ensures u.signaled && u.handler.Free? && forall i :: i in s.pcaps && i < |s.hosts| == |u.hosts| ==> Broken(u, i)
  {
    var t := Step(s, SignalArrives).value;
    Raised(k, cfgs, actions, s, SignalArrives, t);
    more, u := PendingIsServed(k, s, [SignalArrives], t);
  }

  /** An emulation that ends in an exception raises the signal, and that can be served in the same way. */
  lemma ExceptionIsServed(k: Kernel, cfgs: seq<Config>, actions: seq<Action>, s: State, h: nat) returns (more: seq<Action>, u: State)
    requires Run(Start(k, cfgs), actions) == Some(s) && s.handler.Free?
    requires h < |s.hosts| && s.hosts[h].pc == Returned(Threw)
    ensures [HostActs(h, Round(ReturnToLoop))] <= more && GoesOn(s, more, u)
    ensures u.signaled && u.handler.Free? && forall i :: i in s.pcaps && i < |s.hosts| == |u.hosts| ==> Broken(u, i)
  {
    var a := HostActs(h, Round(ReturnToLoop));
    var t := CanRaise(s, h);
    Raised(k, cfgs, actions, s, a, t);
    more, u := PendingIsServed(k, s, [a], t);
  }

  lemma CanRaise(s: State, h: nat) returns (t: State)
    requires h < |s.hosts| && s.hosts[h].pc == Returned(Threw) && s.handler.Free?
    ensures Step(s, HostActs(h, Round(ReturnToLoop))) == Some(t) && t.signaled && t.pending > 0
    ensures t.handler.Free? && t.pcaps == s.pcaps && |t.hosts| == |s.hosts|
  {
    t := Step(s, HostActs(h, Round(ReturnToLoop))).value;
  }

  /** The number of emulations that host `i` starts. */
  function Starts(actions: seq<Action>, i: nat): nat {
    if actions == [] then 0
    else
      Starts(actions[..|actions| - 1], i) + if actions[|actions| - 1] == HostActs(i, Round(StartEmulation)) then 1 else 0
  }

  lemma LateStart(h: Host, a: HostAction, signaled: bool, h': Host, e: Effect)
    requires HostMove(h, a, signaled) == Some((h', e))
    ensures h'.lateStarts == h.lateStarts + if signaled && a == Round(StartEmulation) then 1 else 0
  {
  }

  lemma StepLateStart(s: State, a: Action, t: State, i: nat)
    requires Step(s, a) == Some(t) && i < |s.hosts| == |t.hosts|
    ensures t.hosts[i].lateStarts == s.hosts[i].lateStarts + if s.signaled && a == HostActs(i, Round(StartEmulation)) then 1 else 0
    ensures s.signaled || a.SignalArrives? ==> t.signaled
  {
    if a.HostActs? {
      var Some((h, e)) := HostMove(s.hosts[a.i], a.host, s.signaled);
      if a.i == i { LateStart(s.hosts[i], a.host, s.signaled, h, e); }
    }
  }

  lemma {:induction false} LateStartsCount(k: Kernel, cfgs: seq<Config>, actions: seq<Action>, s: State, n: nat, i: nat)
    requires Run(Start(k, cfgs), actions) == Some(s) && i < |s.hosts| && n < |actions| && actions[n] == SignalArrives
    ensures s.signaled && Starts(actions[n + 1..], i) <= s.hosts[i].lateStarts
  {
    var before := actions[..|actions| - 1];
    var t := Run(Start(k, cfgs), before).value;
    StepConfig(t, actions[|actions| - 1], s);
    StepLateStart(t, actions[|actions| - 1], s, i);
    if n < |before| {
      LateStartsCount(k, cfgs, before, t, n, i);
      assert actions[n + 1..][..|actions| - n - 2] == before[n + 1..];
    } else {
      assert actions[n + 1..] == [];
    }
  }

  /** Behind a signal, whenever it arrives, a host thread starts at most one emulation. */
  lemma OneStartAfterSignal(k: Kernel, cfgs: seq<Config>, actions: seq<Action>, s: State, n: nat, i: nat)
    requires Run(Start(k, cfgs), actions) == Some(s) && i < |s.hosts| && n < |actions| && actions[n] == SignalArrives
    ensures s.signaled && Starts(actions[n + 1..], i) <= 1
  {
    LateStartsCount(k, cfgs, actions, s, n, i);
    RoundsAreBounded(k, cfgs, actions, s, i);
  }

  // ---------------------------------------------------------------------------
  // Only a host that does not answer is emulated

  /** What host `i` has done in its round loop since it last began a round. */
  function RoundSoFar(actions: seq<Action>, i: nat): seq<RoundAction> {
    if actions == [] then []
    else
      RoundAfter(RoundSoFar(actions[..|actions| - 1], i), actions[|actions| - 1], i)
  }

  function RoundAfter(sofar: seq<RoundAction>, a: Action, i: nat): seq<RoundAction> {
    if !(a.HostActs? && a.i == i && a.host.Round?) then sofar
    else if a.host.round.EnterRound? then [EnterRound]
    else sofar + [a.host.round]
  }

  /** A round that began with answered pings only, and then went on with `rest`. */
  predicate Answered(round: seq<RoundAction>, rest: seq<RoundAction>) {
    && |round| > |rest| && round[0] == EnterRound
    && round[|round| - |rest|..] == rest
    && forall m :: 1 <= m < |round| - |rest| ==> round[m] == PingHost(true)
  }

  predicate Greeted(pc: Pc, round: seq<RoundAction>, signaled: bool) {
    && (pc.Pinging? ==> Answered(round, []))
    && (pc.PingDone? ==> Answered(round, [PingHost(false)]) || (signaled && Answered(round, [PingHost(true)])))
    && (pc.Cleared? ==> Answered(round, [PingHost(false), LeavePing]))
  }

  lemma AnsweredMore(round: seq<RoundAction>, rest: seq<RoundAction>, a: RoundAction)
    requires Answered(round, rest)
    ensures Answered(round + [a], rest + [a])
    ensures rest == [] && a == PingHost(true) ==> Answered(round + [a], [])
  {
  }

  lemma OutsideRound(h: Host, a: HostAction, signaled: bool, h': Host, e: Effect)
    requires HostMove(h, a, signaled) == Some((h', e)) && !a.Round?
    ensures h'.pc.Pinging? <==> h.pc.Pinging?
    ensures h'.pc.PingDone? <==> h.pc.PingDone?
    ensures h'.pc.Cleared? <==> h.pc.Cleared?
  {
  }

  lemma RoundGreets(h: Host, a: RoundAction, signaled: bool, h': Host, e: Effect, round: seq<RoundAction>)
    requires RoundMove(h, a, signaled) == Some((h', e)) && Greeted(h.pc, round, signaled)
    ensures Greeted(h'.pc, if a.EnterRound? then [EnterRound] else round + [a], signaled)
  {
    if h.pc.Pinging? { AnsweredMore(round, [], a); }
    if h.pc.PingDone? && !signaled { AnsweredMore(round, [PingHost(false)], a); }
    assert [PingHost(false)] + [LeavePing] == [PingHost(false), LeavePing] && [] + [a] == [a];
  }

  lemma StepGreets(s: State, a: Action, t: State, i: nat, round: seq<RoundAction>)
    requires Step(s, a) == Some(t) && i < |s.hosts| == |t.hosts| && Greeted(s.hosts[i].pc, round, s.signaled)
    ensures Greeted(t.hosts[i].pc, RoundAfter(round, a, i), t.signaled)
  {
    StepLateStart(s, a, t, i);
    if a.HostActs? && a.i == i {
      var Some((h, e)) := HostMove(s.hosts[i], a.host, s.signaled);
      if a.host.Round? {
        RoundGreets(s.hosts[i], a.host.round, s.signaled, h, e, round);
      } else {
        OutsideRound(s.hosts[i], a.host, s.signaled, h, e);
      }
    }
  }

  lemma {:induction false} RunGreets(k: Kernel, cfgs: seq<Config>, actions: seq<Action>, s: State, i: nat)
    requires Run(Start(k, cfgs), actions) == Some(s) && i < |s.hosts|
    ensures Greeted(s.hosts[i].pc, RoundSoFar(actions, i), s.signaled)
  {
    if actions != [] {
      var before := actions[..|actions| - 1];
      var t := Run(Start(k, cfgs), before).value;
      StepConfig(t, actions[|actions| - 1], s);
      RunGreets(k, cfgs, before, t, i);
      StepGreets(t, actions[|actions| - 1], s, i, RoundSoFar(before, i));
    }
  }

  /**
   * An emulation starts only in a round in which every ping but the last was answered and the last was not; so no
   * emulation follows an answered ping before another ping.
   */
  lemma OnlySilentHostsAreEmulated(k: Kernel, cfgs: seq<Config>, actions: seq<Action>, s: State, i: nat)
    requires Run(Start(k, cfgs), actions) == Some(s) && Step(s, HostActs(i, Round(StartEmulation))).Some?
    ensures Answered(RoundSoFar(actions, i), [PingHost(false), LeavePing])
  {
    RunGreets(k, cfgs, actions, s, i);
  }

  /** Without a signal, a host that answers is pinged again, and one that does not answer is emulated next. */
  lemma AnswerDecides(s: State, i: nat, alive: bool, t: State)
    requires Step(s, HostActs(i, Round(PingHost(alive)))) == Some(t) && !s.signaled
    ensures Step(t, HostActs(i, Round(PingHost(true)))).Some? <==> alive
    ensures Step(t, HostActs(i, Round(LeavePing))).Some? <==> !alive
    ensures !alive ==> Run(t, [HostActs(i, Round(LeavePing)), HostActs(i, Round(StartEmulation))]).Some?
  {
    if !alive {
      var leave, start := HostActs(i, Round(LeavePing)), HostActs(i, Round(StartEmulation));
      var u := Step(t, leave).value;
      assert [leave, start][..1] == [leave] && [leave][..0] == [];
      assert Run(t, []) == Some(t) && Run(t, [leave]) == Some(u) && Step(u, start).Some?;
    }
  }

  /** After an emulation the thread pings again exactly when it ended in success or a duplicate address and no signal came. */
  lemma NextRoundIff(s: State, i: nat, t: State, u: State)
    requires Step(s, HostActs(i, Round(ReturnToLoop))) == Some(t) && Step(t, HostActs(i, Round(EnterRound))) == Some(u)
    ensures i < |s.hosts| == |u.hosts| && s.hosts[i].pc.Returned?
    ensures u.hosts[i].pc.Pinging? <==>
      !s.signaled && (s.hosts[i].pc.o == Ended(Woken) || s.hosts[i].pc.o == Ended(DuplicateAddress))
    ensures u.hosts[i].pc.Pinging? || u.hosts[i].pc.Finished?
  {
  }

  // ---------------------------------------------------------------------------
  // What an emulation has done when it reports success or failure of the wake

  /** What host `i` has done behind the capture since it last started an emulation. */
  function WakeSoFar(actions: seq<Action>, i: nat): seq<WakeAction> {
    if actions == [] then []
    else WakeAfter(WakeSoFar(actions[..|actions| - 1], i), actions[|actions| - 1], i)
  }

  function WakeAfter(sofar: seq<WakeAction>, a: Action, i: nat): seq<WakeAction> {
    if a == HostActs(i, Round(StartEmulation)) then []
    else if a.HostActs? && a.i == i && a.host.Wake? then sofar + [a.host.wake]
    else sofar
  }

  /** The whole way: the client shielded, the wake sent, the host's answer awaited, the SYN replayed. */
  function Whole(answer: Answer): seq<WakeAction> {
    [Decide, BlockIcmp(true), SendWake(true), AwaitHost(answer), Replay(true)]
  }

  predicate Reports(o: Outcome, way: seq<WakeAction>, rest: seq<WakeAction>) {
    && (o == Ended(Woken) <==> way == Whole(Alive) + rest)
    && (o == Ended(WakeFailed) <==> way == Whole(Silence) + rest)
  }

  predicate Traced(pc: Pc, way: seq<WakeAction>) {
    && (pc.Setup? || InCapture(pc) || pc.Deciding? ==> way == [])
    && (pc.Blocking? ==> way == [Decide])
    && (pc.Clearing? || pc.Waking? ==> way == [Decide, BlockIcmp(true)])
    && (pc.Awaiting? ==> way == [Decide, BlockIcmp(true), SendWake(true)])
    && (pc.Replaying? ==> way == [Decide, BlockIcmp(true), SendWake(true), AwaitHost(if pc.answered then Alive else Silence)])
    && (pc.Unblocking? ==> Reports(pc.o, way, []))
    && (pc.Unlocking? || pc.Returned? ==> Reports(pc.o, way, [UnblockIcmp]))
  }

  lemma WakeTraces(h: Host, a: WakeAction, h': Host, e: Effect, way: seq<WakeAction>)
    requires WakeMove(h, a) == Some((h', e)) && Traced(h.pc, way) && ResultInv(h)
    ensures Traced(h'.pc, way + [a])
  {
    match a
    case Decide =>
      assert [] + [a] == [Decide];
      NotWhole(way + [a], [UnblockIcmp]);
    case BlockIcmp(_) => NotWhole(way + [a], [UnblockIcmp]);
    case SendWake(_) => NotWhole(way + [a], []);
    case AwaitHost(_) => NotWhole(way + [a], []);
    case Replay(ok) => WholeIff(h.pc.answered, ok, way);
    case UnblockIcmp => ReportsOn(h.pc.o, way);
  }

  lemma NotWhole(way: seq<WakeAction>, rest: seq<WakeAction>)
    requires |way| != 5 + |rest|
    ensures way != Whole(Alive) + rest && way != Whole(Silence) + rest
  {
  }

  lemma WholeIff(answered: bool, ok: bool, way: seq<WakeAction>)
    requires way == [Decide, BlockIcmp(true), SendWake(true), AwaitHost(if answered then Alive else Silence)]
    ensures Reports(if !ok then Threw else Ended(if answered then Woken else WakeFailed), way + [Replay(ok)], [])
  {
    var all := way + [Replay(ok)];
    assert all[3] == AwaitHost(if answered then Alive else Silence) && all[4] == Replay(ok);
    assert Whole(Alive) + [] == Whole(Alive) && Whole(Silence) + [] == Whole(Silence);
    assert Whole(Alive)[3] == AwaitHost(Alive) && Whole(Silence)[3] == AwaitHost(Silence);
    assert Whole(Alive)[4] == Replay(true) && Whole(Silence)[4] == Replay(true);
    assert ok ==> all == Whole(if answered then Alive else Silence);
  }

  lemma ReportsOn(o: Outcome, way: seq<WakeAction>)
    requires Reports(o, way, [])
    ensures Reports(o, way + [UnblockIcmp], [UnblockIcmp])
  {
    assert forall w: Answer :: Whole(w) + [] == Whole(w);
    assert forall w: Answer :: way + [UnblockIcmp] == Whole(w) + [UnblockIcmp] ==> way == (way + [UnblockIcmp])[..|way|] == Whole(w);
  }

  lemma OtherTraces(h: Host, a: HostAction, signaled: bool, h': Host, e: Effect, way: seq<WakeAction>)
    requires HostMove(h, a, signaled) == Some((h', e)) && !a.Wake? && a != Round(StartEmulation) && Traced(h.pc, way)
    requires h.pc.Deciding? ==> WaitedInv(h, h.pc.w)
    ensures Traced(h'.pc, way)
  {
  }

  lemma StepTraces(k: Kernel, s: State, a: Action, t: State, i: nat, way: seq<WakeAction>)
    requires Inv(k, s) && Step(s, a) == Some(t) && i < |s.hosts| == |t.hosts| && Traced(s.hosts[i].pc, way)
    ensures Traced(t.hosts[i].pc, WakeAfter(way, a, i))
  {
    if a.HostActs? && a.i == i {
      assert HostInv(s.hosts[i], s.signaled);
      var Some((h, e)) := HostMove(s.hosts[i], a.host, s.signaled);
      if a.host.Wake? {
        WakeTraces(s.hosts[i], a.host.wake, h, e, way);
      } else if a.host != Round(StartEmulation) {
        OtherTraces(s.hosts[i], a.host, s.signaled, h, e, way);
      }
    }
  }

  lemma {:induction false} RunTraces(k: Kernel, cfgs: seq<Config>, actions: seq<Action>, s: State, i: nat)
    requires Run(Start(k, cfgs), actions) == Some(s) && i < |s.hosts|
    ensures Traced(s.hosts[i].pc, WakeSoFar(actions, i))
  {
    if actions != [] {
      var before := actions[..|actions| - 1];
      var t := Run(Start(k, cfgs), before).value;
      StepConfig(t, actions[|actions| - 1], s);
      RunKeeps(k, cfgs, before, t);
      RunTraces(k, cfgs, before, t, i);
      StepTraces(k, t, actions[|actions| - 1], s, i, WakeSoFar(before, i));
    }
  }

  /**
   * An emulation reports success exactly when it has shielded the client, sent the wake, had an answer, replayed the
   * SYN and lifted the shield; it reports a failed wake exactly when all that happened without an answer.
   */
  lemma SuccessIffAnswered(k: Kernel, cfgs: seq<Config>, actions: seq<Action>, s: State, i: nat)
    requires Run(Start(k, cfgs), actions) == Some(s) && i < |s.hosts| && s.hosts[i].pc.Returned?
    ensures var (o, way) := (s.hosts[i].pc.o, WakeSoFar(actions, i));
      && (o == Ended(Woken) <==>
            way == [Decide, BlockIcmp(true), SendWake(true), AwaitHost(Alive), Replay(true), UnblockIcmp])
      && (o == Ended(WakeFailed) <==>
            way == [Decide, BlockIcmp(true), SendWake(true), AwaitHost(Silence), Replay(true), UnblockIcmp])
  {
    RunTraces(k, cfgs, actions, s, i);
  }

  // ---------------------------------------------------------------------------
  // A capture only runs when everything before it has worked

  /** What host `i` has done in `wait_and_listen` since it last started an emulation. */
  function WaitSoFar(actions: seq<Action>, i: nat): seq<WaitAction> {
    if actions == [] then []
    else WaitAfter(WaitSoFar(actions[..|actions| - 1], i), actions[|actions| - 1], i)
  }

  function WaitAfter(sofar: seq<WaitAction>, a: Action, i: nat): seq<WaitAction> {
    if a == HostActs(i, Round(StartEmulation)) then []
    else if a.HostActs? && a.i == i && a.host.Wait? then sofar + [a.host.wait]
    else sofar
  }

  function Builds(n: nat): seq<WaitAction> {
    if n == 0 then [OpenCapture(true)] else Builds(n - 1) + [BuildNext(true)]
  }

  predicate Prepared(pc: Pc, sofar: seq<WaitAction>, addresses: nat) {
    && (pc.Setup? ==> sofar == [])
    && (pc.Building? ==> pc.j <= addresses + 2 && sofar == Builds(pc.j))
    && (pc.Filtering? ==> sofar == Builds(addresses + 3))
    && (pc.Capturing? ==> sofar == Builds(addresses + 3) + [InstallFilter(true)])
  }

  lemma WaitPrepares(h: Host, a: WaitAction, h': Host, e: Effect, sofar: seq<WaitAction>)
    requires WaitMove(h, a) == Some((h', e)) && PhaseInv(h) && Prepared(h.pc, sofar, |h.cfg.addresses|)
    ensures Prepared(h'.pc, sofar + [a], |h.cfg.addresses|)
  {
    if a.OpenCapture? { assert [] + [a] == [a]; }
  }

  lemma OtherPrepares(h: Host, a: HostAction, signaled: bool, h': Host, e: Effect, sofar: seq<WaitAction>, n: nat)
    requires HostMove(h, a, signaled) == Some((h', e)) && !a.Wait? && a != Round(StartEmulation) && Prepared(h.pc, sofar, n)
    ensures Prepared(h'.pc, sofar, n)
  {
  }

  lemma StepPrepares(k: Kernel, s: State, a: Action, t: State, i: nat, sofar: seq<WaitAction>)
    requires Inv(k, s) && Step(s, a) == Some(t) && i < |s.hosts| == |t.hosts|
    requires Prepared(s.hosts[i].pc, sofar, |s.hosts[i].cfg.addresses|)
    ensures Prepared(t.hosts[i].pc, WaitAfter(sofar, a, i), |s.hosts[i].cfg.addresses|)
  {
    if a.HostActs? && a.i == i {
      var h := s.hosts[i];
      assert HostInv(h, s.signaled);
      var Some((h', e)) := HostMove(h, a.host, s.signaled);
      if a.host.Wait? {
        WaitPrepares(h, a.host.wait, h', e, sofar);
      } else if a.host != Round(StartEmulation) {
        OtherPrepares(h, a.host, s.signaled, h', e, sofar, |h.cfg.addresses|);
      }
    }
  }

  lemma {:induction false} RunPrepares(k: Kernel, cfgs: seq<Config>, actions: seq<Action>, s: State, i: nat)
    requires Run(Start(k, cfgs), actions) == Some(s) && i < |cfgs| == |s.hosts|
    ensures Prepared(s.hosts[i].pc, WaitSoFar(actions, i), |cfgs[i].addresses|)
  {
    if actions != [] {
      var before := actions[..|actions| - 1];
      var t := Run(Start(k, cfgs), before).value;
      RunFrame(k, cfgs, before, t);
      RunKeeps(k, cfgs, before, t);
      RunPrepares(k, cfgs, before, t, i);
      StepPrepares(k, t, actions[|actions| - 1], s, i, WaitSoFar(before, i));
    }
  }

  /**
   * A capture runs only when it was opened, all its watchers and its registration were built (one more than two and
   * one per address, counting the filter text) and the filter was installed, without a failure.
   */
  lemma CaptureIsPrepared(k: Kernel, cfgs: seq<Config>, actions: seq<Action>, s: State, i: nat)
    requires Run(Start(k, cfgs), actions) == Some(s) && i < |cfgs| == |s.hosts| && s.hosts[i].pc.Capturing?
    ensures WaitSoFar(actions, i) == Builds(|cfgs[i].addresses| + 3) + [InstallFilter(true)]
  {
    RunPrepares(k, cfgs, actions, s, i);
  }

  // ---------------------------------------------------------------------------
  // How an emulation ends is decided when its wait ends

  /** The end that is certain from here on; a captured packet leaves it open. */
  function Fate(pc: Pc): Option<Outcome> {
    if pc.Stopping? || pc.Closing? || pc.Deciding? then
      if pc.w.WaitThrew? then Some(Threw)
      else if pc.w.reason == Signal then Some(Ended(SignalReceived))
      else if pc.w.reason == Duplicate then Some(Ended(DuplicateAddress))
      else None
    else if pc.Unblocking? || pc.Unlocking? || pc.Returned? then Some(pc.o)
    else None
  }

  lemma MoveKeepsFate(h: Host, a: HostAction, signaled: bool, h': Host, e: Effect)
    requires HostMove(h, a, signaled) == Some((h', e)) && Fate(h.pc).Some? && a != Round(ReturnToLoop)
    ensures Fate(h'.pc) == Fate(h.pc)
  {
  }

  lemma StepKeepsFate(s: State, a: Action, t: State, i: nat)
    requires Step(s, a) == Some(t) && i < |s.hosts| == |t.hosts| && Fate(s.hosts[i].pc).Some?
    requires a != HostActs(i, Round(ReturnToLoop))
    ensures Fate(t.hosts[i].pc) == Fate(s.hosts[i].pc)
  {
    if a.HostActs? && a.i == i {
      var Some((h, e)) := HostMove(s.hosts[i], a.host, s.signaled);
      MoveKeepsFate(s.hosts[i], a.host, s.signaled, h, e);
    }
  }

  /**
   * Once a wait has ended with `signal`, with `duplicate_address` or with an exception, the emulation returns exactly
   * that, whatever happens in between.
   */
  lemma {:induction false} FateIsSealed(s: State, acts: seq<Action>, t: State, i: nat)
    requires Run(s, acts) == Some(t) && i < |s.hosts| && Fate(s.hosts[i].pc).Some?
    requires forall m :: 0 <= m < |acts| ==> acts[m] != HostActs(i, Round(ReturnToLoop))
    ensures i < |t.hosts| == |s.hosts| && Fate(t.hosts[i].pc) == Fate(s.hosts[i].pc)
    ensures t.hosts[i].pc.Returned? ==> Some(t.hosts[i].pc.o) == Fate(s.hosts[i].pc)
  {
    if acts != [] {
      var before := acts[..|acts| - 1];
      var u := Run(s, before).value;
      FateIsSealed(s, before, u, i);
      StepConfig(u, acts[|acts| - 1], t);
      StepKeepsFate(u, acts[|acts| - 1], t, i);
    }
  }
}
