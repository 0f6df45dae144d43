/** Scope guards as objects: who owns a successful `add`, and that it is deleted exactly once. */
module Ownership {
  import opened Net
  import opened Firewall
  import opened Capture
  import opened Emulation

  // ---------------------------------------------------------------------------
  // All object histories: constructions, moves, frees and destructions in any order

  /** A guard object: the number of the `add` it was built for (if any), its `freed` flag, and whether it exists. */
  datatype Object = Object(add: Option<nat>, freed: bool, alive: bool)

  /** `adds` says of every attempted `add` whether it succeeded, `dels` lists the `del`s that have run. */
  datatype Heap = Heap(objects: seq<Object>, adds: seq<bool>, dels: seq<nat>)

  datatype Op =
    | DefaultConstruct
    | Construct(ok: bool)
    | MoveConstruct(from: nat)
    | Free(o: nat)
    | Destroy(o: nat)

  function FreeObject(h: Heap, o: nat): Heap
    requires o < |h.objects|
  {
    var x := h.objects[o];
    if x.freed then h
    else h.(objects := h.objects[o := x.(freed := true)], dels := h.dels + if x.add.Some? then [x.add.value] else [])
  }

  /** An `Op` on an object that does not exist is not a C++ program; `None` stands for it. */
  function Apply(h: Heap, op: Op): Option<Heap> {
    match op
    case DefaultConstruct => Some(h.(objects := h.objects + [Object(None, true, true)]))
    case Construct(ok) =>
      // a throwing constructor leaves no object behind
      Some(h.(adds := h.adds + [ok],
              objects := if ok then h.objects + [Object(Some(|h.adds|), false, true)] else h.objects))
    case MoveConstruct(from) =>
      if from >= |h.objects| || !h.objects[from].alive then None
      else
        var x := h.objects[from];
        Some(h.(objects := h.objects[from := x.(freed := true)] + [x]))
    case Free(o) =>
      if o >= |h.objects| || !h.objects[o].alive then None else Some(FreeObject(h, o))
    case Destroy(o) =>
      if o >= |h.objects| || !h.objects[o].alive then None
      else
        var f := FreeObject(h, o);
        Some(f.(objects := f.objects[o := f.objects[o].(alive := false)]))
  }

  function ApplyAll(h: Heap, ops: seq<Op>): Option<Heap> {
    if ops == [] then Some(h)
    else
      match ApplyAll(h, ops[..|ops| - 1])
      case None => None
      case Some(g) => Apply(g, ops[|ops| - 1])
  }

  function Owns(x: Object, id: nat): nat {
    if x.alive && !x.freed && x.add == Some(id) then 1 else 0
  }

  /** The number of objects that still have to delete `add` number `id`. */
  function Owners(objects: seq<Object>, id: nat): nat {
    if objects == [] then 0 else Owners(objects[..|objects| - 1], id) + Owns(objects[|objects| - 1], id)
  }

  lemma {:induction false} OwnersUpdate(objects: seq<Object>, o: nat, x: Object, id: nat)
    requires o < |objects|
    ensures Owners(objects[o := x], id) == Owners(objects, id) - Owns(objects[o], id) + Owns(x, id)
  {
    var n := |objects| - 1;
    if o < n {
      OwnersUpdate(objects[..n], o, x, id);
      assert objects[o := x][..n] == objects[..n][o := x];
    } else {
      assert objects[o := x][..n] == objects[..n];
    }
  }

  lemma OwnersSnoc(objects: seq<Object>, x: Object, id: nat)
    ensures Owners(objects + [x], id) == Owners(objects, id) + Owns(x, id)
  {
    assert (objects + [x])[..|objects|] == objects;
  }

  function Times(dels: seq<nat>, id: nat): nat {
    multiset(dels)[id]
  }

  /** A successful `add` has one owner or one `del` behind it, never both and never two; a failed one has neither. */
  ghost predicate OwnedOnce(h: Heap) {
    && (forall id :: 0 <= id < |h.adds| ==> Owners(h.objects, id) + Times(h.dels, id) == if h.adds[id] then 1 else 0)
    && (forall id: nat :: |h.adds| <= id ==> Owners(h.objects, id) == Times(h.dels, id) == 0)
    && (forall o :: 0 <= o < |h.objects| ==> !h.objects[o].alive ==> h.objects[o].freed)
  }

  lemma FreeKeeps(h: Heap, o: nat)
    requires OwnedOnce(h) && o < |h.objects| && h.objects[o].alive
    ensures OwnedOnce(FreeObject(h, o)) && FreeObject(h, o).objects[o].freed
  {
    var x := h.objects[o];
    forall id: nat ensures
      Owners(FreeObject(h, o).objects, id) + Times(FreeObject(h, o).dels, id) == Owners(h.objects, id) + Times(h.dels, id)
    {
      OwnersUpdate(h.objects, o, x.(freed := true), id);
    }
  }

  lemma ApplyKeeps(h: Heap, op: Op)
    requires OwnedOnce(h) && Apply(h, op).Some?
    ensures OwnedOnce(Apply(h, op).value)
  {
    var g := Apply(h, op).value;
    match op
    case DefaultConstruct =>
      forall id: nat ensures Owners(g.objects, id) == Owners(h.objects, id) { OwnersSnoc(h.objects, Object(None, true, true), id); }
    case Construct(ok) =>
      forall id: nat ensures Owners(g.objects, id) == Owners(h.objects, id) + if ok && id == |h.adds| then 1 else 0 {
        OwnersSnoc(h.objects, Object(Some(|h.adds|), false, true), id);
      }
    case MoveConstruct(from) =>
      forall id: nat ensures Owners(g.objects, id) == Owners(h.objects, id) {
        var x := h.objects[from];
        OwnersUpdate(h.objects, from, x.(freed := true), id);
        OwnersSnoc(h.objects[from := x.(freed := true)], x, id);
      }
    case Free(o) => FreeKeeps(h, o);
    case Destroy(o) =>
      FreeKeeps(h, o);
      var f := FreeObject(h, o);
      forall id: nat ensures Owners(g.objects, id) == Owners(f.objects, id) {
        OwnersUpdate(f.objects, o, f.objects[o].(alive := false), id);
      }
  }

  /** Over every sequence of operations each successful `add` has exactly one owner until its one `del`. */
  lemma {:induction false} EveryAddOwnedOnce(ops: seq<Op>, h: Heap)
    requires ApplyAll(Heap([], [], []), ops) == Some(h)
    ensures OwnedOnce(h)
  {
    if ops != [] {
      var g := ApplyAll(Heap([], [], []), ops[..|ops| - 1]).value;
      EveryAddOwnedOnce(ops[..|ops| - 1], g);
      ApplyKeeps(g, ops[|ops| - 1]);
    }
  }

  /** When all objects are gone, exactly the successful `add`s have been deleted, each once. */
  lemma DestroyedAllDeletedAll(ops: seq<Op>, h: Heap, id: nat)
    requires ApplyAll(Heap([], [], []), ops) == Some(h) && id < |h.adds|
    requires forall o :: 0 <= o < |h.objects| ==> !h.objects[o].alive
    ensures Times(h.dels, id) == if h.adds[id] then 1 else 0
  {
    EveryAddOwnedOnce(ops, h);
    NobodyOwns(h.objects, id);
  }

  lemma {:induction false} NobodyOwns(objects: seq<Object>, id: nat)
    requires forall o :: 0 <= o < |objects| ==> !objects[o].alive
    ensures Owners(objects, id) == 0
  {
    if objects != [] { NobodyOwns(objects[..|objects| - 1], id); }
  }

  lemma FreeTwiceIsFreeOnce(h: Heap, o: nat)
    requires o < |h.objects|
    ensures FreeObject(FreeObject(h, o), o) == FreeObject(h, o)
  {
  }

  // ---------------------------------------------------------------------------
  // The class, and vectors of guards that are built, grow and are cleared

  datatype Command = Added(g: Guard) | AddFailed(g: Guard) | Deleted(g: Guard)

  /** The commands that have been run. */
  class Shell {
    var log: seq<Command>
    constructor () ensures log == [] { log := []; }
  }

  class ScopeGuard {
    const functor: Guard
    var freed: bool

    /** The guard that the acquiring constructor leaves behind. */
    constructor Owner(g: Guard)
      ensures functor == g && !freed
    {
      functor := g;
      freed := false;
    }

    constructor Move(rhs: ScopeGuard)
      modifies rhs
      ensures functor == rhs.functor && freed == old(rhs.freed) && rhs.freed
    {
      functor := rhs.functor;
      freed := rhs.freed;
      new;
      rhs.freed := true;
    }

    method Free(shell: Shell)
      modifies `freed, shell
      ensures freed && shell.log == old(shell.log) + if old(freed) then [] else [Deleted(functor)]
    {
      if !freed {
        shell.log := shell.log + [Deleted(functor)];
        freed := true;
      }
    }
  }

  /** The acquiring constructor; `works` is the outcome of its `add`, and `None` that it threw. */
  method Acquire(shell: Shell, g: Guard, works: bool) returns (r: Option<ScopeGuard>)
    modifies shell
    ensures r.Some? <==> works
    ensures works ==> fresh(r.value) && r.value.functor == g && !r.value.freed && shell.log == old(shell.log) + [Added(g)]
    ensures !works ==> shell.log == old(shell.log) + [AddFailed(g)]
  {
    if works {
      shell.log := shell.log + [Added(g)];
      var guard := new ScopeGuard.Owner(g);
      r := Some(guard);
    } else {
      shell.log := shell.log + [AddFailed(g)];
      r := None;
    }
  }

  ghost predicate Apart(guards: seq<ScopeGuard>) {
    forall i, j :: 0 <= i < j < |guards| ==> guards[i] != guards[j]
  }

  /** What guard objects stand for, as the slots of a host's guard vector. */
  ghost function View(guards: seq<ScopeGuard>): (v: seq<Slot>)
    reads guards
    ensures |v| == |guards| && forall i :: 0 <= i < |guards| ==> v[i] == Slot(guards[i].functor, !guards[i].freed)
  {
    if guards == [] then [] else View(guards[..|guards| - 1]) + [Slot(guards[|guards| - 1].functor, !guards[|guards| - 1].freed)]
  }

  /** The `del`s that guards still owe, in vector order. */
  function Owed(v: seq<Slot>): seq<Command> {
    if v == [] then [] else Owed(v[..|v| - 1]) + if v[|v| - 1].owned then [Deleted(v[|v| - 1].guard)] else []
  }

  function DeletedBy(c: Command): multiset<Guard> {
    if c.Deleted? then multiset{c.g} else multiset{}
  }

  lemma {:induction false} GatherEnd<T>(s: seq<T>, f: T -> multiset<Guard>)
    requires s != []
    ensures Gather(s, f) == Gather(s[..|s| - 1], f) + f(s[|s| - 1])
  {
    assert s == s[..|s| - 1] + [s[|s| - 1]];
    GatherAppend(s[..|s| - 1], s[|s| - 1], f);
  }

  /** The `del`s that a vector still owes are for exactly the guards that its slots hold. */
  lemma {:induction false} OwedIsHeld(v: seq<Slot>)
    ensures Gather(Owed(v), DeletedBy) == Gather(v, OwnedBy)
  {
    if v != [] {
      var last := v[|v| - 1];
      OwedIsHeld(v[..|v| - 1]);
      GatherEnd(v, OwnedBy);
      if last.owned { GatherAppend(Owed(v[..|v| - 1]), Deleted(last.guard), DeletedBy); }
      assert Owed(v[..|v| - 1]) + [] == Owed(v[..|v| - 1]);
    }
  }

  /** Reallocation of a guard vector: every guard moves to new storage, and the old storage owes nothing any more. */
  method Grow(guards: seq<ScopeGuard>) returns (moved: seq<ScopeGuard>)
    requires Apart(guards)
    modifies guards
    ensures |moved| == |guards| && Apart(moved) && fresh(moved)
    ensures View(moved) == old(View(guards))
    ensures forall i :: 0 <= i < |guards| ==> guards[i].freed
  {
    moved := [];
    for i := 0 to |guards|
      invariant |moved| == i && fresh(moved) && Apart(moved)
      invariant forall j :: 0 <= j < i ==>
        moved[j].functor == guards[j].functor && moved[j].freed == old(guards[j].freed) && guards[j].freed
      invariant forall j :: i <= j < |guards| ==> guards[j].freed == old(guards[j].freed)
    {
      var g := new ScopeGuard.Move(guards[i]);
      moved := moved + [g];
    }
  }

  /** `vector::clear`: each guard that still owns something runs its `del`, once. */
  method Clear(guards: seq<ScopeGuard>, shell: Shell)
    requires Apart(guards)
    modifies guards, shell
    ensures shell.log == old(shell.log) + Owed(old(View(guards)))
    ensures forall i :: 0 <= i < |guards| ==> guards[i].freed
  {
    ghost var v := View(guards);
    for i := 0 to |guards|
      invariant forall j :: 0 <= j < i ==> guards[j].freed
      invariant forall j :: i <= j < |guards| ==> guards[j].freed == !v[j].owned
      invariant shell.log == old(shell.log) + Owed(v[..i])
    {
      guards[i].Free(shell);
      assert v[..i + 1][..i] == v[..i];
    }
    assert v[..|guards|] == v;
  }

  function Holding(plan: seq<Guard>): (v: seq<Slot>)
    ensures |v| == |plan| && forall i :: 0 <= i < |plan| ==> v[i] == Slot(plan[i], true)
  {
    seq(|plan|, i requires 0 <= i < |plan| => Slot(plan[i], true))
  }

  function Adds(plan: seq<Guard>): seq<Command> {
    seq(|plan|, i requires 0 <= i < |plan| => Added(plan[i]))
  }

  /**
   * Construction of a whole guard vector whose first `working` `add`s succeed.  If one fails, the exception destroys
   * the vector: exactly the guards that were added are deleted again, and not the failed one.
   */
  method Build(shell: Shell, plan: seq<Guard>, working: nat) returns (r: Option<seq<ScopeGuard>>)
    modifies shell
    ensures r.Some? <==> |plan| <= working
    ensures r.Some? ==> Apart(r.value) && fresh(r.value) && View(r.value) == Holding(plan)
    ensures r.Some? ==> shell.log == old(shell.log) + Adds(plan)
    ensures r.None? ==>
      shell.log == old(shell.log) + Adds(plan[..working]) + [AddFailed(plan[working])] + Owed(Holding(plan[..working]))
  {
    var guards := [];
    for i := 0 to |plan|
      invariant i <= working && |guards| == i && Apart(guards) && fresh(guards)
      invariant forall j :: 0 <= j < i ==> guards[j].functor == plan[j] && !guards[j].freed
      invariant shell.log == old(shell.log) + Adds(plan[..i])
    {
      var guard := Acquire(shell, plan[i], i < working);
      if guard.None? {
        assert View(guards) == Holding(plan[..i]);
        Clear(guards, shell);
        return None;
      }
      assert Adds(plan[..i + 1]) == Adds(plan[..i]) + [Added(plan[i])];
      guards := guards + [guard.value];
    }
    assert plan[..|plan|] == plan;
    return Some(guards);
  }
}
