/**
 * The whole of watchHost: any number of host threads with their watcher threads, the signal
 * handler, the list of captures it breaks, and the kernel tables they all edit.  A run is any
 * sequence of actions; every interleaving is such a sequence.
 */
module System {
  import opened Net
  import opened Firewall
  import opened Capture
  import opened Emulation

  /** The signal handler that holds `pcaps_mutex`: the captures left to break, and whether the first has its reason. */
  datatype Handler = Free | Holds(todo: seq<nat>, wrote: bool)

  /**
   * `pcaps` lists the hosts whose captures are registered, `pending` counts handlers waiting for
   * the mutex, and `fault` is set when a `del` or an unregistration does not find its object.
   */
  datatype State = State(kernel: Kernel, hosts: seq<Host>, signaled: bool, pcaps: seq<nat>,
                         pending: nat, handler: Handler, fault: bool)

  datatype Action =
    | HostActs(i: nat, host: HostAction)
    | SignalArrives
    | HandlerLocks
    | HandlerWrites
    | HandlerRequests
    | HandlerUnlocks

  function Start(k: Kernel, cfgs: seq<Config>): State {
    State(k, seq(|cfgs|, i requires 0 <= i < |cfgs| => StartedHost(cfgs[i])), false, [], 0, Free, false)
  }

  function TakeEffect(s: State, i: nat, e: Effect): Option<State> {
    match e
    case Silent => Some(s)
    case Raises => Some(s.(signaled := true, pending := s.pending + 1))
    case Adds(g) => (
      match s.kernel.Add(g)
      case None => None
      case Some(k) => Some(s.(kernel := k)))
    case Deletes(g) => (
      match s.kernel.Delete(g)
      case None => Some(s.(fault := true))
      case Some(k) => Some(s.(kernel := k)))
    case Registers => if s.handler.Free? then Some(s.(pcaps := s.pcaps + [i])) else None
    case Unregisters =>
      if !s.handler.Free? then None
      else if i in s.pcaps then Some(s.(pcaps := RemoveFirst(s.pcaps, i)))
      else Some(s.(fault := true))
  }

  function OnSyn(h: Host, op: Op): Host {
    h.(session := h.session.(syn := Do(h.session.syn, op)))
  }

  function Step(s: State, a: Action): Option<State> {
    match a
    case HostActs(i, act) =>
      if i >= |s.hosts| then None else (
      match HostMove(s.hosts[i], act, s.signaled)
      case None => None
      case Some((h, e)) => (
        match TakeEffect(s, i, e)
        case None => None
        case Some(t) => Some(t.(hosts := s.hosts[i := h]))))
    case SignalArrives => Some(s.(signaled := true, pending := s.pending + 1))
    case HandlerLocks =>
      if s.pending == 0 || !s.handler.Free? then None
      else Some(s.(pending := s.pending - 1, handler := Holds(s.pcaps, false)))
    case HandlerWrites =>
      if !s.handler.Holds? || s.handler.wrote || s.handler.todo == [] || s.handler.todo[0] >= |s.hosts| then None
      else
        var i := s.handler.todo[0];
        Some(s.(handler := s.handler.(wrote := true),
                hosts := s.hosts[i := OnSyn(OnSyn(s.hosts[i], Note(HandlerRan)), Write(Signal))]))
    case HandlerRequests =>
      if !s.handler.Holds? || !s.handler.wrote || s.handler.todo == [] || s.handler.todo[0] >= |s.hosts| then None
      else
        var i := s.handler.todo[0];
        Some(s.(handler := Holds(s.handler.todo[1..], false), hosts := s.hosts[i := OnSyn(s.hosts[i], Request)]))
    case HandlerUnlocks =>
      if s.handler != Holds([], false) then None else Some(s.(handler := Free))
  }

  function Run(s: State, actions: seq<Action>): Option<State> {
    if actions == [] then Some(s)
    else
      match Run(s, actions[..|actions| - 1])
      case None => None
      case Some(t) => Step(t, actions[|actions| - 1])
  }

  // ---------------------------------------------------------------------------
  // The invariant of every reachable state

  ghost predicate PcapsInv(s: State) {
    && Distinct(s.pcaps)
    && (forall p :: 0 <= p < |s.pcaps| ==> s.pcaps[p] < |s.hosts|)
    && (forall i :: 0 <= i < |s.hosts| ==> (s.hosts[i].session.registered <==> i in s.pcaps))
  }

  predicate HasSignal(s: State, i: nat) {
    i < |s.hosts| && Signal in s.hosts[i].session.syn.written
  }

  ghost predicate HandlerInv(s: State) {
    s.handler.Holds? ==>
      && (forall p :: 0 <= p < |s.handler.todo| ==> s.handler.todo[p] in s.pcaps)
      && (s.handler.wrote ==> s.handler.todo != [] && HasSignal(s, s.handler.todo[0]))
  }

  ghost predicate HostsInv(s: State) {
    forall i :: 0 <= i < |s.hosts| ==> HostInv(s.hosts[i], s.signaled)
  }

  ghost predicate Inv(orig: Kernel, s: State) {
    && !s.fault
    && Conserved(orig, s.kernel, Gather(s.hosts, LiveGuards))
    && HostsInv(s)
    && PcapsInv(s)
    && HandlerInv(s)
  }

  lemma HostStepConserves(orig: Kernel, s: State, i: nat, act: HostAction, h: Host, e: Effect, t: State)
    requires Conserved(orig, s.kernel, Gather(s.hosts, LiveGuards))
    requires i < |s.hosts| && HostInv(s.hosts[i], s.signaled) && HostMove(s.hosts[i], act, s.signaled) == Some((h, e))
    requires TakeEffect(s, i, e) == Some(t)
    ensures Conserved(orig, t.kernel, Gather(s.hosts[i := h], LiveGuards))
    ensures e.Deletes? ==> t.fault == s.fault
  {
    HostMoveLive(s.hosts[i], act, s.signaled, h, e);
    GatherStep(s.hosts, i, h, LiveGuards, e);
    EffectConserves(orig, s, i, e, t, Gather(s.hosts, LiveGuards), Gather(s.hosts[i := h], LiveGuards));
  }

  lemma EffectConserves(orig: Kernel, s: State, i: nat, e: Effect, t: State, before: multiset<Guard>, after: multiset<Guard>)
    requires Conserved(orig, s.kernel, before) && LiveChange(before, after, e) && TakeEffect(s, i, e) == Some(t)
    ensures Conserved(orig, t.kernel, after)
    ensures e.Deletes? ==> t.fault == s.fault
  {
    if e.Adds? {
      AddKeepsConserved(orig, s.kernel, before, e.g, t.kernel);
    } else if e.Deletes? {
      LiveIsPresent(orig, s.kernel, before, e.g);
      DeleteKeepsConserved(orig, s.kernel, before, e.g, t.kernel);
    }
  }

  ghost predicate Distinct(s: seq<nat>) {
    forall p, q :: 0 <= p < q < |s| ==> s[p] != s[q]
  }

  lemma {:induction false} RemoveFirstDistinct(s: seq<nat>, x: nat)
    requires Distinct(s)
    ensures forall y :: y in RemoveFirst(s, x) <==> y in s && y != x
    ensures Distinct(RemoveFirst(s, x))
  {
    if s != [] {
      var rest := s[1..];
      assert s == [s[0]] + rest;
      assert forall p :: 0 <= p < |rest| ==> rest[p] == s[p + 1];
      RemoveFirstDistinct(rest, x);
      assert s[0] !in rest;
      assert forall p :: 0 <= p < |RemoveFirst(rest, x)| ==> RemoveFirst(rest, x)[p] in RemoveFirst(rest, x);
    }
  }

  lemma PcapsAfter(s: State, i: nat, h: Host, e: Effect, t: State)
    requires PcapsInv(s) && i < |s.hosts| && TakeEffect(s, i, e) == Some(t) && Framed(s.hosts[i], h, e)
    ensures PcapsInv(t.(hosts := s.hosts[i := h]))
    ensures !e.Deletes? ==> t.fault == s.fault
  {
    if e.Unregisters? {
      RemoveFirstDistinct(s.pcaps, i);
      forall p | 0 <= p < |t.pcaps| ensures t.pcaps[p] < |s.hosts| {
        assert t.pcaps[p] in s.pcaps;
      }
    }
  }

  lemma HandlerAfter(s: State, i: nat, h: Host, e: Effect, t: State)
    requires PcapsInv(s) && HandlerInv(s) && i < |s.hosts| && TakeEffect(s, i, e) == Some(t) && Framed(s.hosts[i], h, e)
    ensures HandlerInv(t.(hosts := s.hosts[i := h]))
  {
    assert t.handler == s.handler;
    if s.handler.Holds? {
      assert t.pcaps == s.pcaps;
      if s.handler.wrote { assert s.handler.todo[0] in s.pcaps; }
    }
  }

  lemma HostsAfter(s: State, i: nat, h: Host, signaled: bool)
    requires HostsInv(s) && i < |s.hosts| && (s.signaled ==> signaled) && HostInv(h, signaled)
    ensures HostsInv(s.(hosts := s.hosts[i := h], signaled := signaled))
  {
    var hosts := s.hosts[i := h];
    forall j | 0 <= j < |hosts| ensures HostInv(hosts[j], signaled) {
      if j != i { SignalKeeps(s.hosts[j], s.signaled, signaled); }
    }
  }

  lemma Assemble(orig: Kernel, s: State, t: State, hosts: seq<Host>)
    requires !t.fault && Conserved(orig, t.kernel, Gather(hosts, LiveGuards))
    requires PcapsInv(t.(hosts := hosts)) && HandlerInv(t.(hosts := hosts)) && HostsInv(s.(hosts := hosts, signaled := t.signaled))
    ensures Inv(orig, t.(hosts := hosts))
  {
    assert forall i :: 0 <= i < |hosts| ==> s.(hosts := hosts, signaled := t.signaled).hosts[i] == hosts[i];
  }

  lemma HostStepKeeps(orig: Kernel, s: State, i: nat, act: HostAction, h: Host, e: Effect, t: State)
    requires Inv(orig, s) && i < |s.hosts| && HostMove(s.hosts[i], act, s.signaled) == Some((h, e))
    requires TakeEffect(s, i, e) == Some(t)
    ensures Inv(orig, t.(hosts := s.hosts[i := h]))
  {
    HostStepConserves(orig, s, i, act, h, e, t);
    HostMoveFrame(s.hosts[i], act, s.signaled, h, e);
    PcapsAfter(s, i, h, e, t);
    HandlerAfter(s, i, h, e, t);
    HostMoveKeeps(s.hosts[i], act, s.signaled, h, e);
    HostsAfter(s, i, h, t.signaled);
    Assemble(orig, s, t, s.hosts[i := h]);
  }

  lemma OnSynKeeps(h: Host, op: Op, signaled: bool)
    requires HostInv(h, signaled) && Permitted(h.session.syn, op)
    ensures HostInv(OnSyn(h, op), signaled)
    ensures LiveGuards(OnSyn(h, op)) == LiveGuards(h)
  {
    OpKeeps(h.session, op);
    SessionStepKeeps(h, OnSyn(h, op).session, signaled);
  }

  lemma RegisteredAlive(h: Host, signaled: bool)
    requires HostInv(h, signaled) && h.session.registered
    ensures h.session.syn.alive
  {
  }

  /** Replacing a host by one with the same guards and registration disturbs nothing else. */
  lemma SameGuards(orig: Kernel, s: State, i: nat, h: Host)
    requires Conserved(orig, s.kernel, Gather(s.hosts, LiveGuards)) && PcapsInv(s) && i < |s.hosts|
    requires LiveGuards(h) == LiveGuards(s.hosts[i]) && h.session.registered == s.hosts[i].session.registered
    ensures Conserved(orig, s.kernel, Gather(s.hosts[i := h], LiveGuards))
    ensures PcapsInv(s.(hosts := s.hosts[i := h]))
  {
    GatherStep(s.hosts, i, h, LiveGuards, Silent);
  }

  lemma HandlerWriteKeeps(orig: Kernel, s: State, s': State)
    requires Inv(orig, s) && Step(s, HandlerWrites) == Some(s')
    ensures Inv(orig, s')
  {
    var i := s.handler.todo[0];
    var h := s.hosts[i];
    assert i in s.pcaps;
    RegisteredAlive(h, s.signaled);
    OnSynKeeps(h, Note(HandlerRan), s.signaled);
    OnSynKeeps(OnSyn(h, Note(HandlerRan)), Write(Signal), s.signaled);
    SameGuards(orig, s, i, s'.hosts[i]);
    HostsAfter(s, i, s'.hosts[i], s.signaled);
  }

  lemma HandlerMovesOn(s: State, hosts: seq<Host>)
    requires HandlerInv(s) && s.handler.Holds? && s.handler.todo != []
    ensures HandlerInv(s.(handler := Holds(s.handler.todo[1..], false), hosts := hosts))
  {
  }

  lemma HandlerRequestKeeps(orig: Kernel, s: State, s': State)
    requires Inv(orig, s) && Step(s, HandlerRequests) == Some(s')
    ensures Inv(orig, s')
  {
    var i := s.handler.todo[0];
    var h := OnSyn(s.hosts[i], Request);
    assert i in s.pcaps;
    RegisteredAlive(s.hosts[i], s.signaled);
    OnSynKeeps(s.hosts[i], Request, s.signaled);
    SameGuards(orig, s, i, h);
    HostsAfter(s, i, h, s.signaled);
    HandlerMovesOn(s, s.hosts[i := h]);
    Assemble(orig, s, s.(handler := Holds(s.handler.todo[1..], false)), s.hosts[i := h]);
  }

  lemma SignalStepKeeps(orig: Kernel, s: State, s': State)
    requires Inv(orig, s) && Step(s, SignalArrives) == Some(s')
    ensures Inv(orig, s')
  {
    forall j | 0 <= j < |s.hosts| ensures HostInv(s.hosts[j], true) {
      SignalKeeps(s.hosts[j], s.signaled, true);
    }
  }

  lemma StepKeeps(orig: Kernel, s: State, a: Action, s': State)
    requires Inv(orig, s) && Step(s, a) == Some(s')
    ensures Inv(orig, s')
  {
    match a
    case HostActs(i, act) =>
      var Some((h, e)) := HostMove(s.hosts[i], act, s.signaled);
      HostStepKeeps(orig, s, i, act, h, e, TakeEffect(s, i, e).value);
    case SignalArrives => SignalStepKeeps(orig, s, s');
    case HandlerLocks =>
    case HandlerUnlocks =>
    case HandlerWrites => HandlerWriteKeeps(orig, s, s');
    case HandlerRequests => HandlerRequestKeeps(orig, s, s');
  }

  lemma StartedInv(cfg: Config)
    ensures HostInv(StartedHost(cfg), false) && LiveGuards(StartedHost(cfg)) == multiset{}
  {
  }

  lemma StartInv(k: Kernel, cfgs: seq<Config>)
    ensures Inv(k, Start(k, cfgs))
  {
    var s := Start(k, cfgs);
    forall i | 0 <= i < |s.hosts| ensures LiveGuards(s.hosts[i]) == multiset{} && HostInv(s.hosts[i], false) {
      assert s.hosts[i] == StartedHost(cfgs[i]);
      StartedInv(cfgs[i]);
    }
    GatherEmpty(s.hosts, LiveGuards);
    ConservedInitially(k);
  }

  lemma {:induction false} RunKeeps(k: Kernel, cfgs: seq<Config>, actions: seq<Action>, s: State)
    requires Run(Start(k, cfgs), actions) == Some(s)
    ensures Inv(k, s)
  {
    if actions == [] {
      StartInv(k, cfgs);
    } else {
      var t := Run(Start(k, cfgs), actions[..|actions| - 1]).value;
      RunKeeps(k, cfgs, actions[..|actions| - 1], t);
      StepKeeps(k, t, actions[|actions| - 1], s);
    }
  }
}
