/** The client's resource layer (client/{ids,resources,instance}.rs): ids minted from per-type
    counters, reference-counted handles, creations and uses enqueued by any number of threads, and a
    destroy enqueued after the last clone is dropped. Minting and enqueueing are separate steps, as
    are the last drop and its destroy, so threads interleave between them. */
module Session {
  import opened Basics
  import opened Protocol
  import opened Gpu
  import opened Engine
  import opened Local

  datatype ResourceKind =
    BufferK | TextureK | TextureViewK | SamplerK | ShaderModuleK | BindGroupLayoutK | BindGroupK
    | PipelineLayoutK | RenderPipelineK | ComputePipelineK

  function Named(kind: ResourceKind, id: nat): ResourceId {
    match kind
    case BufferK => BufferR(id)
    case TextureK => TextureR(id)
    case TextureViewK => TextureViewR(id)
    case SamplerK => SamplerR(id)
    case ShaderModuleK => ShaderModuleR(id)
    case BindGroupLayoutK => BindGroupLayoutR(id)
    case BindGroupK => BindGroupR(id)
    case PipelineLayoutK => PipelineLayoutR(id)
    case RenderPipelineK => RenderPipelineR(id)
    case ComputePipelineK => ComputePipelineR(id)
  }

  function KindOf(r: ResourceId): Option<ResourceKind> {
    match r
    case BufferR(_) => Some(BufferK)
    case TextureR(_) => Some(TextureK)
    case TextureViewR(_) => Some(TextureViewK)
    case SamplerR(_) => Some(SamplerK)
    case ShaderModuleR(_) => Some(ShaderModuleK)
    case BindGroupLayoutR(_) => Some(BindGroupLayoutK)
    case BindGroupR(_) => Some(BindGroupK)
    case PipelineLayoutR(_) => Some(PipelineLayoutK)
    case RenderPipelineR(_) => Some(RenderPipelineK)
    case ComputePipelineR(_) => Some(ComputePipelineK)
    case _ => None
  }

  /** The id is one for resources of this kind. */
  predicate OfKind(kind: ResourceKind, r: ResourceId) {
    match kind
    case BufferK => r.BufferR?
    case TextureK => r.TextureR?
    case TextureViewK => r.TextureViewR?
    case SamplerK => r.SamplerR?
    case ShaderModuleK => r.ShaderModuleR?
    case BindGroupLayoutK => r.BindGroupLayoutR?
    case BindGroupK => r.BindGroupR?
    case PipelineLayoutK => r.PipelineLayoutR?
    case RenderPipelineK => r.RenderPipelineR?
    case ComputePipelineK => r.ComputePipelineR?
  }

  lemma NamedIs(kind: ResourceKind, id: nat)
    ensures var r := Named(kind, id); OfKind(kind, r) && KindOf(r) == Some(kind) && r.id == id
  {
  }

  // ---- the id minter ----

  type Counters = map<ResourceKind, nat>

  function Count(c: Counters, kind: ResourceKind): nat { if kind in c then c[kind] else 0 }

  /** One counter per resource type, all starting from zero; ids start from one. */
  class IdMinter {
    var counters: Counters

    constructor ()
      ensures counters == map[]
    {
      counters := map[];
    }

    method Mint(kind: ResourceKind) returns (id: nat)
      modifies this
      ensures id == Count(old(counters), kind) + 1
      ensures counters == old(counters)[kind := id]
    {
      id := Count(counters, kind) + 1;
      counters := counters[kind := id];
    }
  }

  // ---- handles ----

  /** `creating`: minted, action not enqueued yet. `live`: clone counts of handles in the program's
      hands. `dying`: last clone gone, destroy not enqueued yet. `trace`: what has been enqueued. */
  datatype State = State(
    counters: Counters,
    creating: set<ResourceId>,
    live: map<ResourceId, nat>,
    dying: set<ResourceId>,
    trace: seq<Op>)

  function Start(): State { State(map[], {}, map[], {}, []) }

  datatype Step =
    | MintId(kind: ResourceKind)
    | Create(op: Op)
    | CloneHandle(r: ResourceId)
    | DropHandle(r: ResourceId)
    | SendDestroy(r: ResourceId)
    | Use(op: Op)

  /** A call may mention only handles some thread holds while it is being enqueued. */
  predicate HoldsRefs(dev: Device, s: State, op: Op) {
    Callable(op) && forall r :: r in OpRefs(dev, op) ==> r in s.live
  }

  predicate Can(dev: Device, s: State, l: Step) {
    match l
    case MintId(_) => true
    case Create(op) => OpCreates(op).Some? && OpCreates(op).value in s.creating && HoldsRefs(dev, s, op)
    case CloneHandle(r) => r in s.live
    case DropHandle(r) => r in s.live
    case SendDestroy(r) => r in s.dying
    case Use(op) => OpCreates(op).None? && OpDestroys(op).None? && HoldsRefs(dev, s, op)
  }

  function Take(dev: Device, s: State, l: Step): State
    requires Can(dev, s, l)
  {
    match l
    case MintId(kind) =>
      var id := Count(s.counters, kind) + 1;
      s.(counters := s.counters[kind := id], creating := s.creating + {Named(kind, id)})
    case Create(op) =>
      var r := OpCreates(op).value;
      s.(creating := s.creating - {r}, live := s.live[r := 1], trace := s.trace + [op])
    case CloneHandle(r) => s.(live := s.live[r := s.live[r] + 1])
    case DropHandle(r) =>
      if s.live[r] > 1 then s.(live := s.live[r := s.live[r] - 1])
      else s.(live := s.live - {r}, dying := s.dying + {r})
    case SendDestroy(r) => s.(dying := s.dying - {r}, trace := s.trace + [Do(Destroy(r))])
    case Use(op) => s.(trace := s.trace + [op])
  }

  predicate CanAll(dev: Device, s: State, ls: seq<Step>)
    decreases |ls|
  {
    ls != [] ==> Can(dev, s, ls[0]) && CanAll(dev, Take(dev, s, ls[0]), ls[1..])
  }

  function TakeAll(dev: Device, s: State, ls: seq<Step>): State
    requires CanAll(dev, s, ls)
    decreases |ls|
  {
    if ls == [] then s else TakeAll(dev, Take(dev, s, ls[0]), ls[1..])
  }

  // ---- the invariant ----

  predicate Minted(c: Counters, r: ResourceId) {
    KindOf(r).Some? && 1 <= r.id <= Count(c, KindOf(r).value)
  }

  ghost predicate Inv(dev: Device, s: State) {
    && LegalTrace(dev, s.trace)
    && s.live.Keys + s.dying == Known(s.trace)
    && s.live.Keys !! s.dying
    && s.creating !! EverCreated(s.trace)
    && (forall r :: r in s.creating || r in EverCreated(s.trace) ==> Minted(s.counters, r))
  }

  lemma MintKeeps(dev: Device, s: State, kind: ResourceKind)
    requires Inv(dev, s)
    ensures Inv(dev, Take(dev, s, MintId(kind)))
  {
    hide LegalTrace, Known;
    var t := Take(dev, s, MintId(kind));
    hide Named, KindOf;
    var newest := Named(kind, Count(s.counters, kind) + 1);
    NamedIs(kind, Count(s.counters, kind) + 1);
    assert !Minted(s.counters, newest);
  }

  lemma CreateKeeps(dev: Device, s: State, op: Op)
    requires Inv(dev, s) && Can(dev, s, Create(op))
    ensures Inv(dev, Take(dev, s, Create(op)))
  {
    KnownAfter(s.trace, op);
    assert OpDestroys(op).None?;
    KnownWasCreated(s.trace, OpCreates(op).value);
    hide LegalTrace, Known, EverCreated, Minted, OpCreates, OpDestroys, OpRefs, Callable;
    LegalAfter(dev, s.trace, op);
  }

  lemma UseKeeps(dev: Device, s: State, op: Op)
    requires Inv(dev, s) && Can(dev, s, Use(op))
    ensures Inv(dev, Take(dev, s, Use(op)))
  {
    KnownAfter(s.trace, op);
    hide LegalTrace, Known, EverCreated, Minted, OpCreates, OpDestroys, OpRefs, Callable;
    LegalAfter(dev, s.trace, op);
  }

  lemma DestroyKeeps(dev: Device, s: State, r: ResourceId)
    requires Inv(dev, s) && Can(dev, s, SendDestroy(r))
    ensures Inv(dev, Take(dev, s, SendDestroy(r)))
  {
    var op := Do(Destroy(r));
    KnownAfter(s.trace, op);
    assert OpCreates(op).None? && OpDestroys(op) == Some(r) && OpRefs(dev, op) == [] && Callable(op);
    hide LegalTrace, Known, EverCreated, Minted, OpCreates, OpDestroys, OpRefs, Callable;
    LegalAfter(dev, s.trace, op);
  }

  lemma StepKeeps(dev: Device, s: State, l: Step)
    requires Inv(dev, s) && Can(dev, s, l)
    ensures Inv(dev, Take(dev, s, l))
  {
    match l
    case MintId(kind) => MintKeeps(dev, s, kind);
    case CloneHandle(r) => assert Take(dev, s, l).live.Keys == s.live.Keys;
    case DropHandle(r) => assert Take(dev, s, l).live.Keys + Take(dev, s, l).dying == s.live.Keys + s.dying;
    case Create(op) => CreateKeeps(dev, s, op);
    case SendDestroy(r) => DestroyKeeps(dev, s, r);
    case Use(op) => UseKeeps(dev, s, op);
  }

  /** However the threads interleave, what reaches the wire is a legal trace: every id is created at
      most once and destroyed at most once, and every reference lies strictly between. */
  lemma {:induction false} WireIsLegal(dev: Device, s: State, ls: seq<Step>)
    requires Inv(dev, s) && CanAll(dev, s, ls)
    ensures Inv(dev, TakeAll(dev, s, ls)) && LegalTrace(dev, TakeAll(dev, s, ls).trace)
    decreases |ls|
  {
    if ls != [] {
      hide Inv, Can, Take;
      StepKeeps(dev, s, ls[0]);
      WireIsLegal(dev, Take(dev, s, ls[0]), ls[1..]);
    }
  }

  lemma StartsLegal(dev: Device)
    ensures Inv(dev, Start())
  {
  }

  // ---- the same, read off the wire by position ----

  predicate CreatesAt(ops: seq<Op>, i: nat, r: ResourceId) { i < |ops| && OpCreates(ops[i]) == Some(r) }

  predicate DestroysAt(ops: seq<Op>, i: nat, r: ResourceId) { i < |ops| && OpDestroys(ops[i]) == Some(r) }

  predicate RefersAt(dev: Device, ops: seq<Op>, i: nat, r: ResourceId) { i < |ops| && r in OpRefs(dev, ops[i]) }

  lemma {:induction false} EverCreatedAt(ops: seq<Op>, r: ResourceId)
    ensures r in EverCreated(ops) <==> exists i: nat :: CreatesAt(ops, i, r)
    decreases |ops|
  {
    if ops != [] {
      var less, n := ops[..|ops| - 1], |ops| - 1;
      EverCreatedAt(less, r);
      assert forall i: nat :: i < n ==> (CreatesAt(less, i, r) <==> CreatesAt(ops, i, r));
      assert forall i: nat :: CreatesAt(less, i, r) ==> CreatesAt(ops, i, r);
      if CreatesAt(ops, n, r) { assert OpCreates(ops[n]) == Some(r); }
      assert forall i: nat :: CreatesAt(ops, i, r) && i != n ==> CreatesAt(less, i, r);
    }
  }

  /** A live id was created, and no destroy of it has been enqueued. */
  lemma {:induction false} KnownAt(dev: Device, ops: seq<Op>, r: ResourceId, k: nat)
    requires LegalTrace(dev, ops) && DestroysAt(ops, k, r)
    ensures r in EverCreated(ops) && r !in Known(ops)
    decreases |ops|
  {
    hide Callable;
    var less, op := ops[..|ops| - 1], ops[|ops| - 1];
    KnownWasCreated(less, r);
    if k < |ops| - 1 {
      assert DestroysAt(less, k, r);
      KnownAt(dev, less, r, k);
    }
  }

  /** Handle lifetime on the wire: one create, at most one destroy, the create before every
      reference and the destroy after all of them. */
  lemma LifetimeOnTheWire(dev: Device, ops: seq<Op>, r: ResourceId)
    requires LegalTrace(dev, ops)
    ensures forall i: nat, j: nat :: CreatesAt(ops, i, r) && CreatesAt(ops, j, r) ==> i == j
    ensures forall i: nat, j: nat :: DestroysAt(ops, i, r) && DestroysAt(ops, j, r) ==> i == j
    ensures forall u: nat :: RefersAt(dev, ops, u, r) || DestroysAt(ops, u, r) ==>
      exists c: nat :: c < u && CreatesAt(ops, c, r)
    ensures forall d: nat, u: nat :: DestroysAt(ops, d, r) && RefersAt(dev, ops, u, r) ==> u < d
  {
    hide LegalTrace, CreatesAt, DestroysAt, RefersAt;
    forall i: nat, j: nat | CreatesAt(ops, i, r) && CreatesAt(ops, j, r) ensures i == j {
      if i < j { OneCreate(dev, ops, r, i, j); }
      if j < i { OneCreate(dev, ops, r, j, i); }
    }
    forall i: nat, j: nat | DestroysAt(ops, i, r) && DestroysAt(ops, j, r) ensures i == j {
      if i < j { NothingAfterDestroy(dev, ops, r, i, j); }
      if j < i { NothingAfterDestroy(dev, ops, r, j, i); }
    }
    forall u: nat | RefersAt(dev, ops, u, r) || DestroysAt(ops, u, r)
      ensures exists c: nat :: c < u && CreatesAt(ops, c, r)
    {
      CreatedBefore(dev, ops, r, u);
    }
    forall d: nat, u: nat | DestroysAt(ops, d, r) && RefersAt(dev, ops, u, r) ensures u < d {
      if d <= u { NothingAfterDestroy(dev, ops, r, d, u); }
    }
  }

  lemma OneCreate(dev: Device, ops: seq<Op>, r: ResourceId, i: nat, j: nat)
    requires LegalTrace(dev, ops) && i < j && CreatesAt(ops, i, r)
    ensures !CreatesAt(ops, j, r)
  {
    if j < |ops| {
      hide Callable;
      LegalPrefix(dev, ops, j);
      assert CreatesAt(ops[..j], i, r);
      EverCreatedAt(ops[..j], r);
    }
  }

  lemma NothingAfterDestroy(dev: Device, ops: seq<Op>, r: ResourceId, d: nat, u: nat)
    requires LegalTrace(dev, ops) && d <= u && DestroysAt(ops, d, r)
    ensures !RefersAt(dev, ops, u, r) && (d < u ==> !DestroysAt(ops, u, r))
  {
    if d == u {
      assert OpRefs(dev, ops[d]) == [];
    } else if u < |ops| {
      hide Callable;
      LegalPrefix(dev, ops, u);
      assert DestroysAt(ops[..u], d, r);
      KnownAt(dev, ops[..u], r, d);
    }
  }

  lemma CreatedBefore(dev: Device, ops: seq<Op>, r: ResourceId, u: nat)
    requires LegalTrace(dev, ops) && (RefersAt(dev, ops, u, r) || DestroysAt(ops, u, r))
    ensures exists c: nat :: c < u && CreatesAt(ops, c, r)
  {
    hide Callable;
    LegalPrefix(dev, ops, u);
    KnownWasCreated(ops[..u], r);
    EverCreatedAt(ops[..u], r);
    var c: nat :| CreatesAt(ops[..u], c, r);
    assert c < u && CreatesAt(ops, c, r);
  }

  // ---- clone counts, read off the steps ----

  predicate IsMade(ls: seq<Step>, r: ResourceId) {
    exists i :: 0 <= i < |ls| && ls[i].Create? && OpCreates(ls[i].op) == Some(r)
  }

  function Clones(ls: seq<Step>, r: ResourceId): nat
    decreases |ls|
  {
    if ls == [] then 0 else Clones(ls[..|ls| - 1], r) + if ls[|ls| - 1] == CloneHandle(r) then 1 else 0
  }

  function Drops(ls: seq<Step>, r: ResourceId): nat
    decreases |ls|
  {
    if ls == [] then 0 else Drops(ls[..|ls| - 1], r) + if ls[|ls| - 1] == DropHandle(r) then 1 else 0
  }

  lemma {:induction false} TakeLast(dev: Device, s: State, ls: seq<Step>)
    requires CanAll(dev, s, ls) && ls != []
    ensures var less := ls[..|ls| - 1];
      && CanAll(dev, s, less) && Can(dev, TakeAll(dev, s, less), ls[|ls| - 1])
      && TakeAll(dev, s, ls) == Take(dev, TakeAll(dev, s, less), ls[|ls| - 1])
    decreases |ls|
  {
    hide Can, Take;
    var less := ls[..|ls| - 1];
    if |ls| > 1 {
      TakeLast(dev, Take(dev, s, ls[0]), ls[1..]);
      assert ls[1..][..|ls| - 2] == less[1..] && ls[1..][|ls| - 2] == ls[|ls| - 1];
    } else {
      assert less == [] && CanAll(dev, Take(dev, s, ls[0]), ls[1..]);
    }
  }

  /** The handle has `n` clones in the program's hands, or none if it was given up or never made. */
  predicate Holds(s: State, r: ResourceId, n: int) {
    if n > 0 then r in s.live && s.live[r] == n else r !in s.live
  }

  /** How many handles of `r` are out: the one its creation gave, and one more for each clone, but for
      those dropped. */
  function Out(ls: seq<Step>, r: ResourceId): int { (if IsMade(ls, r) then 1 else 0) + Clones(ls, r) - Drops(ls, r) }

  ghost predicate Counted(s: State, ls: seq<Step>, r: ResourceId) {
    && (IsMade(ls, r) <==> r in EverCreated(s.trace))
    && Out(ls, r) >= 0 && Holds(s, r, Out(ls, r))
    && (!IsMade(ls, r) ==> Clones(ls, r) == 0 && Drops(ls, r) == 0)
  }

  lemma CountsAfter(ls: seq<Step>, r: ResourceId)
    requires ls != []
    ensures var less, l := ls[..|ls| - 1], ls[|ls| - 1];
      && (IsMade(ls, r) <==> IsMade(less, r) || (l.Create? && OpCreates(l.op) == Some(r)))
      && Clones(ls, r) == Clones(less, r) + (if l == CloneHandle(r) then 1 else 0)
      && Drops(ls, r) == Drops(less, r) + (if l == DropHandle(r) then 1 else 0)
  {
    var less := ls[..|ls| - 1];
    if IsMade(less, r) {
      var i :| 0 <= i < |less| && less[i].Create? && OpCreates(less[i].op) == Some(r);
      assert ls[i] == less[i];
    }
    if IsMade(ls, r) {
      var i :| 0 <= i < |ls| && ls[i].Create? && OpCreates(ls[i].op) == Some(r);
      assert i < |less| ==> less[i] == ls[i];
    }
  }

  lemma TraceAfter(dev: Device, s: State, l: Step, r: ResourceId)
    requires Can(dev, s, l)
    ensures r in EverCreated(Take(dev, s, l).trace) <==>
      r in EverCreated(s.trace) || (l.Create? && OpCreates(l.op) == Some(r))
  {
    hide EverCreated, Known, HoldsRefs;
    match l
    case Create(op) => KnownAfter(s.trace, op);
    case Use(op) => KnownAfter(s.trace, op);
    case SendDestroy(q) => KnownAfter(s.trace, Do(Destroy(q)));
    case MintId(_) =>
    case CloneHandle(_) =>
    case DropHandle(_) =>
  }

  lemma CountStep(dev: Device, s: State, ls: seq<Step>, r: ResourceId)
    requires ls != [] && s.creating !! EverCreated(s.trace) && Can(dev, s, ls[|ls| - 1])
    requires Counted(s, ls[..|ls| - 1], r)
    ensures Counted(Take(dev, s, ls[|ls| - 1]), ls, r)
  {
    hide EverCreated, HoldsRefs, IsMade, Clones, Drops, OpCreates, OpDestroys;
    CountsAfter(ls, r);
    TraceAfter(dev, s, ls[|ls| - 1], r);
  }

  /** At every point of every run of the threads the clone count is the number of handles that are
      out, and only those can be used. */
  lemma {:induction false} CountsAreHandlesOut(dev: Device, ls: seq<Step>, r: ResourceId)
    requires CanAll(dev, Start(), ls)
    ensures Counted(TakeAll(dev, Start(), ls), ls, r)
    decreases |ls|
  {
    hide Can, Take, Counted, LegalTrace, Known, EverCreated, Minted;
    if ls == [] {
      assert Counted(Start(), [], r) by { NothingCounted(r); }
    } else {
      var less := ls[..|ls| - 1];
      TakeLast(dev, Start(), ls);
      CountsAreHandlesOut(dev, less, r);
      StartsLegal(dev);
      WireIsLegal(dev, Start(), less);
      CountStep(dev, TakeAll(dev, Start(), less), ls, r);
    }
  }

  lemma NothingCounted(r: ResourceId)
    ensures Counted(Start(), [], r)
  {
  }

  ghost predicate DestroySent(ops: seq<Op>, r: ResourceId) { exists d: nat :: DestroysAt(ops, d, r) }

  lemma {:induction false} DestroyedExactlyWhen(dev: Device, ops: seq<Op>, r: ResourceId)
    requires LegalTrace(dev, ops)
    ensures DestroySent(ops, r) <==> r in EverCreated(ops) && r !in Known(ops)
    decreases |ops|
  {
    hide Callable, DestroysAt;
    if DestroySent(ops, r) {
      var d: nat :| DestroysAt(ops, d, r);
      KnownAt(dev, ops, r, d);
    }
    if r in EverCreated(ops) && r !in Known(ops) {
      var n := |ops| - 1;
      if OpDestroys(ops[n]) == Some(r) {
        assert DestroysAt(ops, n, r) by { DestroysLast(ops, r); }
      } else {
        DestroyedExactlyWhen(dev, ops[..n], r);
        var d: nat :| DestroysAt(ops[..n], d, r);
        assert DestroysAt(ops, d, r) by { DestroysLater(ops, n, d, r); }
      }
    }
  }

  lemma DestroysLast(ops: seq<Op>, r: ResourceId)
    requires ops != [] && OpDestroys(ops[|ops| - 1]) == Some(r)
    ensures DestroysAt(ops, |ops| - 1, r)
  {
  }

  lemma DestroysLater(ops: seq<Op>, n: nat, d: nat, r: ResourceId)
    requires n <= |ops| && DestroysAt(ops[..n], d, r)
    ensures DestroysAt(ops, d, r)
  {
  }

  /** Handles are destroyed by their last drop and by no other. In every run of the threads, a handle
      is in the program's hands exactly while it was made and some clone of it is undropped; its destroy
      is due or sent exactly once all of them are dropped; so while one is not, no destroy is on the wire. */
  lemma LastDropDestroys(dev: Device, ls: seq<Step>, r: ResourceId)
    requires CanAll(dev, Start(), ls)
    ensures var s := TakeAll(dev, Start(), ls); var made := IsMade(ls, r);
      && (r in s.live <==> made && Drops(ls, r) < 1 + Clones(ls, r))
      && (r in s.dying || DestroySent(s.trace, r) <==> made && Drops(ls, r) == 1 + Clones(ls, r))
      && (made ==> Drops(ls, r) <= 1 + Clones(ls, r))
      && !(r in s.dying && DestroySent(s.trace, r))
  {
    var s := TakeAll(dev, Start(), ls);
    CountsAreHandlesOut(dev, ls, r);
    StartsLegal(dev);
    WireIsLegal(dev, Start(), ls);
    KnownWasCreated(s.trace, r);
    DestroyedExactlyWhen(dev, s.trace, r);
    hide TakeAll, IsMade, LegalTrace, Known, EverCreated, DestroySent, Minted;
  }

  // ---- the imperative layer ----

  /** The facade's shared state. Each method is one atomic section of one thread. */
  class Facade {
    const dev: Device
    const ids: IdMinter
    var creating: set<ResourceId>
    var live: map<ResourceId, nat>
    var dying: set<ResourceId>
    var trace: seq<Op>

    function Now(): State
      reads this, ids
    {
      State(ids.counters, creating, live, dying, trace)
    }

    constructor (dev: Device)
      ensures this.dev == dev && Now() == Start() && fresh(ids)
    {
      this.dev := dev;
      ids := new IdMinter();
      creating, live, dying, trace := {}, map[], {}, [];
    }

    method MintFor(kind: ResourceKind) returns (r: ResourceId)
      modifies this, ids
      ensures r == Named(kind, Count(old(ids.counters), kind) + 1) && OfKind(kind, r)
      ensures Now() == Take(dev, old(Now()), MintId(kind))
    {
      var id := ids.Mint(kind);
      r := Named(kind, id);
      creating := creating + {r};
    }

    /** The creating action goes out and the program gets its handle. */
    method SendCreate(op: Op)
      requires Can(dev, Now(), Create(op))
      modifies this
      ensures Now() == Take(dev, old(Now()), Create(op))
    {
      var r := OpCreates(op).value;
      trace := trace + [op];
      creating := creating - {r};
      live := live[r := 1];
    }

    method Clone(r: ResourceId)
      requires r in live
      modifies this
      ensures Now() == Take(dev, old(Now()), CloneHandle(r)) && live[r] == old(live[r]) + 1
    {
      live := live[r := live[r] + 1];
    }

    /** True when this was the last clone, so that a destroy is now due. */
    method Drop(r: ResourceId) returns (last: bool)
      requires r in live
      modifies this
      ensures last <==> old(live[r]) <= 1
      ensures Now() == Take(dev, old(Now()), DropHandle(r))
    {
      last := live[r] <= 1;
      if last {
        live := live - {r};
        dying := dying + {r};
      } else {
        live := live[r := live[r] - 1];
      }
    }

    method ShipDestroy(r: ResourceId)
      requires r in dying
      modifies this
      ensures Now() == Take(dev, old(Now()), SendDestroy(r))
    {
      dying := dying - {r};
      trace := trace + [Do(Destroy(r))];
    }

    method Send(op: Op)
      requires Can(dev, Now(), Use(op))
      modifies this
      ensures Now() == Take(dev, old(Now()), Use(op))
    {
      trace := trace + [op];
    }
  }
}
