/** The plainest reference: one byte array per buffer handle. What a program writes, copies and clears
    it means exactly as it does on such arrays; an array is given up where a shader, a texture copy or
    a copy out of an array given up can get at its buffer, and only there. */
module Plain {
  import opened Basics
  import opened Protocol
  import opened Gpu
  import opened Tables
  import opened Replay
  import opened Engine
  import opened EngineLaws
  import opened Parts
  import opened Local
  import opened Failures

  type Arrays = map<BufferId, Bytes>

  /** The arrays, the buffers each bind group binds, and those bound to the pass that is open. */
  datatype PlainState = PlainState(arrays: Arrays, groups: map<BindGroupId, set<BufferId>>, bound: set<BufferId>)

  function Put(p: Arrays, id: BufferId, offset: nat, data: Bytes): Arrays {
    if id in p && offset + |data| <= |p[id]| then p[id := Splice(p[id], offset, data)] else p
  }

  predicate MovesBytes(c: Call) {
    c.OnEncoder? && (c.command.CopyBufferToBuffer? || c.command.ClearBuffer?)
  }

  function Transfer(p: Arrays, c: EncoderCommand): Arrays
    requires c.CopyBufferToBuffer? || c.ClearBuffer?
  {
    match c
    case CopyBufferToBuffer(src, from, dst, to, size) =>
      if src !in p then p - {dst}
      else if from + size <= |p[src]| then Put(p, dst, to, p[src][from..from + size])
      else p
    case ClearBuffer(id, offset, size) =>
      if id !in p then p
      else if size.Some? then Put(p, id, offset, Zeros(size.value))
      else if offset <= |p[id]| then Put(p, id, offset, Zeros(|p[id]| - offset))
      else p
  }

  /** The buffers a call binds to the open pass. */
  function Binding(groups: map<BindGroupId, set<BufferId>>, c: Call): set<BufferId> {
    match c
    case InCompute(SetComputeBindGroup(_, group, _)) => if group in groups then groups[group] else {}
    case InRender(SetRenderBindGroup(_, group, _)) => if group in groups then groups[group] else {}
    case _ => {}
  }

  function TextureTarget(c: Call): set<BufferId> {
    match c
    case OnEncoder(CopyTextureToBuffer(_, to, _)) => {to.buffer}
    case _ => {}
  }

  predicate IsBracket(c: Call) { c.OpenCompute? || c.CloseCompute? || c.OpenRender? || c.CloseRender? }

  function PlainCall(p: PlainState, c: Call): PlainState {
    if MovesBytes(c) then p.(arrays := Transfer(p.arrays, c.command))
    else
      p.(arrays := p.arrays - (p.bound + TextureTarget(c)),
         bound := if IsBracket(c) then {} else p.bound + Binding(p.groups, c))
  }

  function PlainCalls(p: PlainState, cs: seq<Call>): PlainState
    decreases |cs|
  {
    if cs == [] then p else PlainCalls(PlainCall(p, cs[0]), cs[1..])
  }

  function BuffersBound(desc: BindGroupDescriptor): set<BufferId> {
    set e | e in desc.entries && e.resource.BufferBound? :: e.resource.binding.buffer
  }

  function PlainStep(p: PlainState, op: Op): PlainState {
    match op
    case SubmitCalls(buffers) => PlainCalls(p, AllCalls(buffers))
    case Do(CreateBuffer(id, desc)) => p.(arrays := p.arrays[id := Zeros(desc.size)])
    case Do(CreateBindGroup(id, desc)) => p.(groups := p.groups[id := BuffersBound(desc)])
    case Do(WriteBuffer(id, offset, data)) => p.(arrays := Put(p.arrays, id, offset, data))
    case Do(WriteTexture(_, _, _)) => p.(arrays := p.arrays - p.bound)
    case Do(_) => p
  }

  function PlainRun(ops: seq<Op>): PlainState
    decreases |ops|
  {
    if ops == [] then PlainState(map[], map[], {}) else PlainStep(PlainRun(ops[..|ops| - 1]), ops[|ops| - 1])
  }

  /** No passes, no textures' contents: everything the call does to buffers is a byte transfer. */
  predicate TransfersOnly(op: Op) {
    match op
    case SubmitCalls(buffers) => forall c :: c in AllCalls(buffers) ==> MovesBytes(c)
    case Do(a) => !a.WriteTexture?
  }

  /** What the call does to buffers is known where it is not a byte transfer, too. */
  ghost predicate Confined(dev: Device, op: Op) { TransfersOnly(op) || ShadeIsLocal(dev) }

  // ---- the arrays are the buffers ----

  /** Each array is the contents of the one GPU buffer made for its handle. */
  ghost predicate Holds(p: Arrays, t: Tables, m: Contents) {
    forall id :: id in p ==> id in t.buffers && Serial(id, 0) in m && m[Serial(id, 0)] == p[id]
  }

  predicate NamedById(t: Tables) { forall id :: id in t.buffers ==> t.buffers[id].serial == Serial(id, 0) }

  predicate Within(s: Serial, ids: set<BufferId>) { s.generation == 0 && s.id in ids }

  ghost predicate GroupsKnown(groups: map<BindGroupId, set<BufferId>>, t: Tables) {
    forall id, s: Serial :: id in t.bindGroups && Binds(t.bindGroups[id], s) ==> id in groups && Within(s, groups[id])
  }

  ghost predicate BoundKnown(bound: set<BufferId>, log: seq<GpuCall>) {
    forall s: Serial :: PassBinds(log, s) ==> Within(s, bound)
  }

  ghost predicate Follows(p: PlainState, t: Tables, g: GpuState) {
    && Holds(p.arrays, t, g.contents) && NamedById(t) && GroupsKnown(p.groups, t) && BoundKnown(p.bound, g.log)
  }

  ghost predicate Matches(ops: seq<Op>, p: PlainState, l: LocalState) {
    && Follows(p, l.objects, l.gpu)
    && (forall id :: id in p.arrays ==> BufferR(id) in EverCreated(ops))
    && (forall id :: id in l.gpu.bufferUses ==> BufferR(id) in EverCreated(ops))
  }

  lemma PokeMatches(p: Arrays, t: Tables, m: Contents, id: BufferId, offset: nat, data: Bytes)
    requires Holds(p, t, m)
    ensures Holds(if id in p then Put(p, id, offset, data) else p, t, Poke(m, Serial(id, 0), offset, data))
  {
    hide Splice;
  }

  lemma TransferMatches(dev: Device, p: Arrays, t: Tables, g: GpuState, c: Call)
    requires Holds(p, t, g.contents) && NamedById(t) && MovesBytes(c) && Resolve(t, c).Ok?
    ensures Holds(Transfer(p, c.command), t, Effect(dev, g, Resolve(t, c).value))
    ensures Transfer(p, c.command).Keys <= p.Keys
    ensures !Resolve(t, c).value.GSetBindGroup? && !OpensOrCloses(Resolve(t, c).value)
  {
    hide Splice, Zeros, Poke;
    match c.command
    case CopyBufferToBuffer(src, from, dst, to, size) =>
      var data := Peek(g.contents, t.buffers[src].serial, from, size);
      if data.Some? { PokeMatches(p, t, g.contents, dst, to, data.value); }
    case ClearBuffer(id, offset, size) =>
      var s, m := Serial(id, 0), g.contents;
      if size.Some? { PokeMatches(p, t, m, id, offset, Zeros(size.value)); }
      else if s in m && offset <= |m[s]| { PokeMatches(p, t, m, id, offset, Zeros(|m[s]| - offset)); }
  }

  /** Outside the buffers bound and the texture copy's target nothing changes. */
  lemma ShadeMatches(dev: Device, p: PlainState, t: Tables, g: GpuState, c: GpuCall, target: set<BufferId>)
    requires Follows(p, t, g) && ShadeIsLocal(dev)
    requires Effect(dev, g, c) == dev.shade(g.log, g.contents, c)
    requires forall s: Serial :: CopiesTextureTo(c, s) ==> Within(s, target)
    ensures Holds(p.arrays - (p.bound + target), t, Effect(dev, g, c))
  {
    hide Effect, PassBinds, GroupsKnown, NamedById;
    forall id | id in p.arrays - (p.bound + target)
      ensures SameAt(g.contents, Effect(dev, g, c), Serial(id, 0))
    {
      assert !Within(Serial(id, 0), p.bound);
    }
  }

  /** What a call that is not a byte transfer resolves to. */
  lemma ResolvesToShade(dev: Device, groups: map<BindGroupId, set<BufferId>>, t: Tables, g: GpuState, c: Call)
    requires NamedById(t) && GroupsKnown(groups, t) && !MovesBytes(c) && Resolve(t, c).Ok?
    ensures var d := Resolve(t, c).value;
      && Effect(dev, g, d) == dev.shade(g.log, g.contents, d)
      && (OpensOrCloses(d) <==> IsBracket(c))
      && (forall s: Serial :: CopiesTextureTo(d, s) ==> Within(s, TextureTarget(c)))
      && (forall s: Serial :: d.GSetBindGroup? && Binds(d.group, s) ==> Within(s, Binding(groups, c)))
  {
    hide Binds;
  }

  lemma CallMatches(dev: Device, p: PlainState, t: Tables, g: GpuState, c: Call)
    requires Follows(p, t, g) && Resolve(t, c).Ok? && (MovesBytes(c) || ShadeIsLocal(dev))
    ensures Follows(PlainCall(p, c), t, Exec(dev, g, Resolve(t, c).value))
    ensures PlainCall(p, c).arrays.Keys <= p.arrays.Keys
  {
    hide Resolve, Effect, Transfer, Binding, TextureTarget, PassBinds, ShadeIsLocal, Binds, Holds, NamedById,
      GroupsKnown;
    var d := Resolve(t, c).value;
    forall s: Serial { PassBindsAfter(g.log, d, s); }
    if MovesBytes(c) {
      TransferMatches(dev, p.arrays, t, g, c);
    } else {
      ResolvesToShade(dev, p.groups, t, g, c);
      ShadeMatches(dev, p, t, g, d, TextureTarget(c));
    }
  }

  lemma {:induction false} CallsMatch(dev: Device, p: PlainState, t: Tables, g: GpuState, cs: seq<Call>)
    requires Follows(p, t, g) && ResolveAll(t, cs).Ok?
    requires (forall c :: c in cs ==> MovesBytes(c)) || ShadeIsLocal(dev)
    ensures Follows(PlainCalls(p, cs), t, ExecAll(dev, g, ResolveAll(t, cs).value))
    ensures PlainCalls(p, cs).arrays.Keys <= p.arrays.Keys
    ensures ExecAll(dev, g, ResolveAll(t, cs).value).bufferUses == g.bufferUses
    decreases |cs|
  {
    hide Resolve, Effect, PlainCall, Follows, ShadeIsLocal, MovesBytes;
    if cs != [] {
      assert cs[0] in cs;
      CallMatches(dev, p, t, g, cs[0]);
      var first := Resolve(t, cs[0]).value;
      CallsMatch(dev, PlainCall(p, cs[0]), t, Exec(dev, g, first), cs[1..]);
      var all := ResolveAll(t, cs).value;
      assert all[0] == first && all[1..] == ResolveAll(t, cs[1..]).value;
    }
  }

  // ---- one call of the program ----

  lemma BufferMatches(ops: seq<Op>, p: PlainState, l: LocalState, id: BufferId, desc: BufferDescriptor)
    requires Matches(ops, p, l) && BufferR(id) !in EverCreated(ops)
    ensures var (g, b) := NewBuffer(l.gpu, id, desc);
      Follows(PlainStep(p, Do(CreateBuffer(id, desc))), Insert(l.objects, BufferR(id), BufferObject(b)), g)
  {
    hide PassBinds, Binds;
    assert UsesOf(l.gpu.bufferUses, id) == 0;
  }

  lemma GroupMatches(p: PlainState, t: Tables, g: GpuState, id: BindGroupId, desc: BindGroupDescriptor)
    requires Follows(p, t, g) && BuildBindGroup(t, desc).Ok?
    ensures var o := BindGroupObject(BuildBindGroup(t, desc).value);
      Follows(PlainStep(p, Do(CreateBindGroup(id, desc))), Insert(t, BindGroupR(id), o), g)
  {
    hide BuildBindGroup, Binds, PassBinds;
    forall s: Serial | Binds(BuildBindGroup(t, desc).value, s) ensures Within(s, BuffersBound(desc)) {
      var e := BindsWhatIsNamed(t, desc, s);
    }
  }

  /** Storing anything but a buffer or a bind group. */
  lemma OtherMatches(p: PlainState, t: Tables, g: GpuState, h: GpuState, r: ResourceId, o: GpuObject)
    requires Follows(p, t, g) && h.contents == g.contents && h.log == g.log
    requires Names(r, o) && !r.BufferR? && !r.BindGroupR?
    ensures Follows(p, Insert(t, r, o), h)
  {
    hide Binds, PassBinds;
  }

  lemma CreateFollows(dev: Device, ops: seq<Op>, a: Action, p: PlainState, l: LocalState)
    requires Matches(ops, p, l) && WellScoped(dev, ops, Do(a)) && Creates(a).Some?
    requires Construct(l.objects, l.gpu, a).Ok?
    ensures var (g, o) := Construct(l.objects, l.gpu, a).value;
      && Follows(PlainStep(p, Do(a)), Insert(l.objects, Creates(a).value, o), g)
      && forall id :: id in g.bufferUses ==> id in l.gpu.bufferUses || Creates(a) == Some(BufferR(id))
  {
    hide Follows, Insert, Assemble, BuildBindGroup;
    var (g, o) := Construct(l.objects, l.gpu, a).value;
    if a.CreateBuffer? {
      BufferMatches(ops, p, l, a.buffer, a.bufferDesc);
    } else if a.CreateBindGroup? {
      hide EverCreated, WellScoped;
      GroupCreated(p, l.objects, l.gpu, a);
    } else {
      hide EverCreated, WellScoped;
      OtherMatches(p, l.objects, l.gpu, g, Creates(a).value, o);
    }
  }

  lemma GroupCreated(p: PlainState, t: Tables, g: GpuState, a: Action)
    requires Follows(p, t, g) && a.CreateBindGroup? && Construct(t, g, a).Ok?
    ensures Construct(t, g, a).value.0 == g
    ensures Follows(PlainStep(p, Do(a)), Insert(t, Creates(a).value, Construct(t, g, a).value.1), g)
  {
    hide Follows, Insert, BuildBindGroup;
    GroupMatches(p, t, g, a.group, a.groupDesc);
  }

  lemma CreateMatches(dev: Device, ops: seq<Op>, a: Action, p: PlainState, l: LocalState)
    requires Matches(ops, p, l) && WellScoped(dev, ops, Do(a)) && Creates(a).Some?
    requires Construct(l.objects, l.gpu, a).Ok?
    ensures Matches(ops + [Do(a)], PlainStep(p, Do(a)), LocalStep(dev, l, Do(a)).0)
  {
    KnownAfter(ops, Do(a));
    CreateFollows(dev, ops, a, p, l);
    hide Known, EverCreated, OpRefs, Follows, Construct, Insert, BuffersBound;
  }

  lemma SubmitMatches(dev: Device, ops: seq<Op>, buffers: seq<CommandTrace>, p: PlainState, l: LocalState)
    requires Matches(ops, p, l) && Confined(dev, SubmitCalls(buffers))
    requires ResolveAll(l.objects, AllCalls(buffers)).Ok?
    ensures Matches(ops + [SubmitCalls(buffers)], PlainStep(p, SubmitCalls(buffers)),
      LocalStep(dev, l, SubmitCalls(buffers)).0)
  {
    KnownAfter(ops, SubmitCalls(buffers));
    hide Known, EverCreated, ResolveAll, ExecAll, AllCalls, Follows, PlainCalls, ShadeIsLocal, MovesBytes;
    CallsMatch(dev, p, l.objects, l.gpu, AllCalls(buffers));
  }

  lemma ExecFollows(p: PlainState, next: Arrays, t: Tables, g: GpuState, h: GpuState, c: GpuCall)
    requires Follows(p, t, g) && h.log == g.log + [c] && !c.GSetBindGroup? && !OpensOrCloses(c)
    requires Holds(next, t, h.contents)
    ensures Follows(p.(arrays := next), t, h)
  {
    hide PassBinds, Holds, GroupsKnown, NamedById;
    forall s: Serial { PassBindsAfter(g.log, c, s); }
  }

  /** The local step of the call goes through. */
  ghost predicate Succeeds(l: LocalState, op: Op) {
    match op
    case SubmitCalls(buffers) => ResolveAll(l.objects, AllCalls(buffers)).Ok?
    case Do(a) =>
      && (Creates(a).Some? ==> Construct(l.objects, l.gpu, a).Ok?)
      && (a.WriteBuffer? ==> a.target in l.objects.buffers)
      && (a.WriteTexture? ==> a.targetTexture in l.objects.textures)
  }

  lemma WriteMatches(dev: Device, p: PlainState, l: LocalState, a: Action)
    requires Follows(p, l.objects, l.gpu) && Confined(dev, Do(a)) && Succeeds(l, Do(a))
    requires a.WriteBuffer? || a.WriteTexture?
    ensures var next := LocalStep(dev, l, Do(a)).0;
      && next.objects == l.objects && next.gpu.bufferUses == l.gpu.bufferUses
      && Follows(PlainStep(p, Do(a)), next.objects, next.gpu)
  {
    hide PassBinds, Binds, GroupsKnown, ShadeIsLocal;
    var h := LocalStep(dev, l, Do(a)).0.gpu;
    if a.WriteBuffer? {
      var c := GWriteBuffer(l.objects.buffers[a.target], a.offset, a.data);
      PokeMatches(p.arrays, l.objects, l.gpu.contents, a.target, a.offset, a.data);
      hide Poke, Put, Holds;
      ExecFollows(p, Put(p.arrays, a.target, a.offset, a.data), l.objects, l.gpu, h, c);
    } else {
      var c := GWriteTexture(l.objects.textures[a.targetTexture], a.texels, a.data);
      hide Holds;
      ShadeMatches(dev, p, l.objects, l.gpu, c, {});
      assert p.bound + {} == p.bound;
      ExecFollows(p, p.arrays - p.bound, l.objects, l.gpu, h, c);
    }
  }

  lemma UseMatches(dev: Device, ops: seq<Op>, a: Action, p: PlainState, l: LocalState)
    requires Matches(ops, p, l) && Confined(dev, Do(a)) && Succeeds(l, Do(a)) && Creates(a).None?
    ensures Matches(ops + [Do(a)], PlainStep(p, Do(a)), LocalStep(dev, l, Do(a)).0)
  {
    KnownAfter(ops, Do(a));
    hide Known, EverCreated, Follows, Confined;
    if a.WriteBuffer? || a.WriteTexture? {
      WriteMatches(dev, p, l, a);
      hide LocalStep, Succeeds;
      assert PlainStep(p, Do(a)).arrays.Keys <= p.arrays.Keys;
    } else {
      hide Succeeds, Construct;
    }
  }

  lemma StepMatches(dev: Device, ops: seq<Op>, op: Op, p: PlainState, l: LocalState)
    requires Matches(ops, p, l) && WellScoped(dev, ops, op) && Confined(dev, op) && Succeeds(l, op)
    ensures Matches(ops + [op], PlainStep(p, op), LocalStep(dev, l, op).0)
  {
    hide Matches, WellScoped, Confined, PlainStep, LocalStep, Construct, ResolveAll;
    match op
    case SubmitCalls(buffers) => SubmitMatches(dev, ops, buffers, p, l);
    case Do(a) => if Creates(a).Some? { CreateMatches(dev, ops, a, p, l); } else { UseMatches(dev, ops, a, p, l); }
  }

  lemma LiveAreFound(dev: Device, ops: seq<Op>, op: Op)
    requires Codec.Faithful(dev.recordings) && LegalTrace(dev, ops) && AllServable(dev, ops) && WellScoped(dev, ops, op)
    ensures FirstMissing(LocalRun(dev, ops).objects, OpRefs(dev, op)).None?
  {
    hide LegalTrace, AllServable, OpRefs, Known, EverCreated;
    RunSimulates(dev, ops);
    NoneMissing(LocalRun(dev, ops).objects, OpRefs(dev, op));
  }

  lemma StepSucceeds(dev: Device, ops: seq<Op>, op: Op)
    requires Codec.Faithful(dev.recordings) && LegalTrace(dev, ops) && AllServable(dev, ops)
    requires Servable(dev, op) && WellScoped(dev, ops, op)
    ensures Succeeds(LocalRun(dev, ops), op)
  {
    hide LegalTrace, AllServable, WellScoped, LocalRun, Construct, Reached, AllCalls, ResolveAll;
    LiveAreFound(dev, ops, op);
    var l := LocalRun(dev, ops);
    match op
    case SubmitCalls(buffers) =>
      AllCallsProper(dev, buffers);
      CallsStop(l.objects, AllCalls(buffers));
    case Do(a) =>
      SupportedReachesAll(dev, a);
      if Creates(a).Some? { hide Refs, Supported; ConstructStops(dev, l.objects, l.gpu, a); }
      else if a.WriteBuffer? || a.WriteTexture? { FewMissing(l.objects, Refs(dev, a)); }
  }

  /** For supported programs every array that has not been given up is the contents of its handle's
      buffer, after every run. */
  lemma {:induction false} RunMatches(dev: Device, ops: seq<Op>)
    requires LegalTrace(dev, ops) && AllServable(dev, ops) && Codec.Faithful(dev.recordings)
    requires forall op :: op in ops ==> Confined(dev, op)
    ensures Matches(ops, PlainRun(ops), LocalRun(dev, ops))
    decreases |ops|
  {
    hide LocalStep, PlainStep, Callable, Servable, WellScoped, Confined, Matches, Succeeds;
    if ops != [] {
      var less, op := ops[..|ops| - 1], ops[|ops| - 1];
      RunMatches(dev, less);
      assert less + [op] == ops && op in ops;
      StepSucceeds(dev, less, op);
      StepMatches(dev, less, op, PlainRun(less), LocalRun(dev, less));
    } else {
      NothingMatches(dev);
    }
  }

  lemma NothingMatches(dev: Device)
    ensures Matches([], PlainRun([]), LocalStart())
  {
  }

  // ---- which arrays are never given up ----

  /** The call gets at no buffer in `keep`, except by moving bytes among them. */
  predicate CallSpares(groups: map<BindGroupId, set<BufferId>>, keep: set<BufferId>, c: Call) {
    if MovesBytes(c) then
      c.command.CopyBufferToBuffer? && c.command.destination in keep ==> c.command.source in keep
    else TextureTarget(c) !! keep && Binding(groups, c) !! keep
  }

  predicate OpSpares(groups: map<BindGroupId, set<BufferId>>, keep: set<BufferId>, op: Op) {
    op.SubmitCalls? ==> forall c :: c in AllCalls(op.buffers) ==> CallSpares(groups, keep, c)
  }

  predicate Spared(ops: seq<Op>, keep: set<BufferId>)
    decreases |ops|
  {
    ops == []
    || (Spared(ops[..|ops| - 1], keep) && OpSpares(PlainRun(ops[..|ops| - 1]).groups, keep, ops[|ops| - 1]))
  }

  /** Nothing but bytes out of buffers that are themselves out of reach ever goes into the buffer. */
  ghost predicate OutOfReach(ops: seq<Op>, id: BufferId) { exists keep :: id in keep && Spared(ops, keep) }

  ghost predicate Kept(p: PlainState, keep: set<BufferId>, created: set<ResourceId>) {
    p.bound !! keep && forall id :: id in keep && BufferR(id) in created ==> id in p.arrays
  }

  lemma CallKeeps(p: PlainState, keep: set<BufferId>, created: set<ResourceId>, c: Call)
    requires Kept(p, keep, created) && CallSpares(p.groups, keep, c)
    requires forall r :: r in CallRefs(c) ==> r in created
    ensures Kept(PlainCall(p, c), keep, created) && PlainCall(p, c).groups == p.groups
  {
    hide Splice, Zeros;
    if MovesBytes(c) && c.command.CopyBufferToBuffer? { assert BufferR(c.command.source) in CallRefs(c); }
  }

  lemma {:induction false} CallsKeep(p: PlainState, keep: set<BufferId>, created: set<ResourceId>, cs: seq<Call>)
    requires Kept(p, keep, created) && forall c :: c in cs ==> CallSpares(p.groups, keep, c)
    requires forall r :: r in FlatMap(CallRefs, cs) ==> r in created
    ensures Kept(PlainCalls(p, cs), keep, created) && PlainCalls(p, cs).groups == p.groups
    decreases |cs|
  {
    hide PlainCall, Kept, CallSpares, CallRefs;
    if cs != [] {
      assert cs[0] in cs;
      forall r | r in CallRefs(cs[0]) ensures r in created { InFlatMap(CallRefs, cs, cs[0], r); }
      CallKeeps(p, keep, created, cs[0]);
      CallsKeep(PlainCall(p, cs[0]), keep, created, cs[1..]);
    }
  }

  lemma StepKeeps(dev: Device, ops: seq<Op>, op: Op, p: PlainState, keep: set<BufferId>)
    requires Kept(p, keep, EverCreated(ops)) && OpSpares(p.groups, keep, op) && WellScoped(dev, ops, op)
    requires forall r :: r in Known(ops) ==> r in EverCreated(ops)
    ensures Kept(PlainStep(p, op), keep, EverCreated(ops + [op]))
  {
    KnownAfter(ops, op);
    hide EverCreated, Known, PlainCalls, CallSpares, AllCalls, Splice, BuffersBound;
    if op.SubmitCalls? { CallsKeep(p, keep, EverCreated(ops), AllCalls(op.buffers)); }
  }

  /** The arrays of buffers out of reach of every pass and texture copy are kept, whatever passes do. */
  lemma {:induction false} SparedAreKept(dev: Device, ops: seq<Op>, keep: set<BufferId>)
    requires LegalTrace(dev, ops) && Spared(ops, keep)
    ensures Kept(PlainRun(ops), keep, EverCreated(ops))
    decreases |ops|
  {
    hide PlainStep, Kept, OpSpares, Callable, WellScoped;
    if ops != [] {
      var less, op := ops[..|ops| - 1], ops[|ops| - 1];
      SparedAreKept(dev, less, keep);
      forall r | r in Known(less) ensures r in EverCreated(less) { KnownWasCreated(less, r); }
      StepKeeps(dev, less, op, PlainRun(less), keep);
      assert less + [op] == ops;
    } else {
      assert Kept(PlainState(map[], map[], {}), keep, {}) by { NothingKept(keep); }
    }
  }

  lemma NothingKept(keep: set<BufferId>)
    ensures Kept(PlainState(map[], map[], {}), keep, {})
  {
  }

  lemma TransfersSpare(dev: Device, ops: seq<Op>, op: Op, groups: map<BindGroupId, set<BufferId>>, keep: set<BufferId>)
    requires WellScoped(dev, ops, op) && TransfersOnly(op) && forall id :: BufferR(id) in Known(ops) ==> id in keep
    ensures OpSpares(groups, keep, op)
  {
    hide Known, EverCreated, AllCalls;
    if op.SubmitCalls? {
      forall c | c in AllCalls(op.buffers) ensures CallSpares(groups, keep, c) {
        if c.command.CopyBufferToBuffer? {
          InFlatMap(CallRefs, AllCalls(op.buffers), c, BufferR(c.command.source));
        }
      }
    }
  }

  /** A program that only moves bytes keeps every buffer out of reach. */
  lemma {:induction false} TransfersReachNothing(dev: Device, ops: seq<Op>, keep: set<BufferId>)
    requires LegalTrace(dev, ops) && forall op :: op in ops ==> TransfersOnly(op)
    requires forall id :: BufferR(id) in EverCreated(ops) ==> id in keep
    ensures Spared(ops, keep)
    decreases |ops|
  {
    hide OpSpares, Callable, WellScoped, TransfersOnly, OpCreates;
    if ops != [] {
      var less, op := ops[..|ops| - 1], ops[|ops| - 1];
      assert op in ops;
      forall id | BufferR(id) in EverCreated(less) ensures id in keep { assert BufferR(id) in EverCreated(ops); }
      TransfersReachNothing(dev, less, keep);
      forall id | BufferR(id) in Known(less) ensures id in keep { KnownWasCreated(less, BufferR(id)); }
      TransfersSpare(dev, less, op, PlainRun(less).groups, keep);
    }
  }

  function BuffersIn(ids: set<ResourceId>): (r: set<BufferId>)
    ensures forall id :: BufferR(id) in ids ==> id in r
  {
    set r | r in ids && r.BufferR? :: r.id
  }

  lemma TransfersLeaveOutOfReach(dev: Device, ops: seq<Op>, id: BufferId)
    requires LegalTrace(dev, ops) && (forall op :: op in ops ==> TransfersOnly(op)) && BufferR(id) in EverCreated(ops)
    ensures OutOfReach(ops, id)
  {
    hide LegalTrace, TransfersOnly, EverCreated, Spared;
    TransfersReachNothing(dev, ops, BuffersIn(EverCreated(ops)));
  }

  // ---- reads ----

  function PlainRead(p: Arrays, id: BufferId, offset: nat, size: nat): Response
    requires id in p
  {
    if offset + size <= |p[id]| then BufferData(p[id][offset..offset + size]) else ErrorResponse(Internal, MapFailed)
  }

  /** `r` is what a read shows of the arrays left by `ops`: the bytes, unless the array was given up. */
  ghost predicate ShowsArray(ops: seq<Op>, id: BufferId, offset: nat, size: nat, r: Response) {
    var p := PlainRun(ops).arrays;
    (OutOfReach(ops, id) ==> id in p) && (id in p ==> r == PlainRead(p, id, offset, size))
  }

  lemma LocalReadIsPlain(dev: Device, ops: seq<Op>, id: BufferId, offset: nat, size: nat)
    requires Codec.Faithful(dev.recordings) && LegalTrace(dev, ops) && AllServable(dev, ops)
    requires (forall op :: op in ops ==> Confined(dev, op)) && BufferR(id) in Known(ops)
    ensures ShowsArray(ops, id, offset, size, LocalAnswer(dev, ops, Do(MapBufferForRead(id, offset, size))))
  {
    hide LegalTrace, AllServable, PlainRun, LocalRun, Known, EverCreated, Construct, Confined, Spared, Binds,
      PassBinds;
    RunMatches(dev, ops);
    KnownWasCreated(ops, BufferR(id));
    if OutOfReach(ops, id) {
      var keep :| id in keep && Spared(ops, keep);
      SparedAreKept(dev, ops, keep);
    }
  }

  /** A read, whatever was dropped or refused before it, returns exactly the bytes its handle's array
      holds after the calls that took effect, and fails exactly when it runs past the end of that
      array; it is told that the buffer is unknown exactly when the buffer's creation was dropped. */
  lemma ReadsPlainBytes(dev: Device, ops: seq<Op>, sent: seq<bool>, id: BufferId, offset: nat, size: nat)
    requires Codec.Faithful(dev.recordings) && LegalTrace(dev, ops) && Shipped(dev, ops, sent)
    requires forall op :: op in Effective(dev, ops, sent) ==> Confined(dev, op)
    requires BufferR(id) in Known(ops)
    ensures var done := Effective(dev, ops, sent);
      var r := RemoteAnswer(dev, Wire(ops, sent), Do(MapBufferForRead(id, offset, size)));
      if BufferR(id) in Failed(dev, ops, sent) then r == UnknownId(BufferR(id))
      else
        && ShowsArray(done, id, offset, size, r)
        && ((forall op :: op in done ==> TransfersOnly(op)) ==> OutOfReach(done, id))
  {
    var op, failed, done := Do(MapBufferForRead(id, offset, size)), Failed(dev, ops, sent), Effective(dev, ops, sent);
    hide LegalTrace, AllServable, Known, EverCreated, Failed, Effective, Wire, RemoteAnswer, LocalAnswer,
      ShowsArray, Confined, TransfersOnly, OutOfReach;
    MapIsLegal(dev, ops, id, offset, size);
    FirstOfOne(failed, BufferR(id));
    RemoteMeansLocal(dev, ops, sent, op);
    if BufferR(id) !in failed {
      EffectiveIsLegal(dev, ops, sent);
      LocalReadIsPlain(dev, done, id, offset, size);
      KnownWasCreated(done, BufferR(id));
      if forall o :: o in done ==> TransfersOnly(o) { TransfersLeaveOutOfReach(dev, done, id); }
    }
  }

  lemma MapIsLegal(dev: Device, ops: seq<Op>, id: BufferId, offset: nat, size: nat)
    requires BufferR(id) in Known(ops)
    ensures var op := Do(MapBufferForRead(id, offset, size));
      && OpReached(dev, op) == [BufferR(id)] && OpSupported(dev, op)
      && WellScoped(dev, ops, op) && Callable(op) && Shippable(dev, op)
  {
    hide Known, EverCreated;
    assert OpRefs(dev, Do(MapBufferForRead(id, offset, size))) == [BufferR(id)];
  }

  lemma FirstOfOne(failed: set<ResourceId>, r: ResourceId)
    ensures FirstFailed(failed, [r]) == if r in failed then Some(r) else None
  {
    assert [r][1..] == [];
  }

  predicate NoBuffers(failed: set<ResourceId>) { forall r :: r in failed ==> !r.BufferR? }

  lemma {:induction false} SameArrays(p: PlainState, q: PlainState, cs: seq<Call>)
    requires p.arrays == q.arrays && forall c :: c in cs ==> MovesBytes(c)
    ensures PlainCalls(p, cs).arrays == PlainCalls(q, cs).arrays
    decreases |cs|
  {
    hide Transfer, MovesBytes;
    if cs != [] {
      assert cs[0] in cs;
      SameArrays(PlainCall(p, cs[0]), PlainCall(q, cs[0]), cs[1..]);
    }
  }

  /** Where every call was sent, what the server refuses never touches a byte: the arrays are those
      of the whole program. */
  lemma {:induction false} RefusalsMoveNoBytes(dev: Device, ops: seq<Op>, sent: seq<bool>)
    requires |sent| == |ops| && forall i :: 0 <= i < |ops| ==> sent[i]
    requires forall op :: op in ops ==> TransfersOnly(op)
    ensures NoBuffers(Failed(dev, ops, sent))
    ensures PlainRun(Effective(dev, ops, sent)).arrays == PlainRun(ops).arrays
    decreases |ops|
  {
    if ops != [] {
      var n := |ops| - 1;
      hide Refusal, PlainStep, Hollow, TransfersOnly, OpCreates;
      RefusalsMoveNoBytes(dev, ops[..n], sent[..n]);
      var failed, done := Failed(dev, ops[..n], sent[..n]), Effective(dev, ops[..n], sent[..n]);
      assert ops[n] in ops;
      RefusedMovesNothing(dev, failed, ops[n], PlainRun(done), PlainRun(ops[..n]));
      assert (done + [ops[n]])[..|done|] == done && done + [] == done;
    }
  }

  lemma RefusedMovesNothing(dev: Device, failed: set<ResourceId>, op: Op, p: PlainState, q: PlainState)
    requires NoBuffers(failed) && TransfersOnly(op) && p.arrays == q.arrays
    ensures Refusal(dev, failed, op).Some? && OpCreates(op).Some? ==> !OpCreates(op).value.BufferR?
    ensures Refusal(dev, failed, op).Some? || Hollow(failed, op) ==> PlainStep(q, op).arrays == p.arrays
    ensures PlainStep(q, op).arrays == PlainStep(p, op).arrays
  {
    RefusedExactlyWhen(dev, failed, op);
    hide Refusal, AllCalls, PlainCalls, Put;
    match op
    case SubmitCalls(buffers) =>
      forall r | r in OpRefs(dev, op) ensures r.BufferR? { TransfersReferToBuffers(AllCalls(buffers), r); }
      SameArrays(p, q, AllCalls(buffers));
    case Do(_) =>
  }

  lemma {:induction false} TransfersReferToBuffers(cs: seq<Call>, r: ResourceId)
    requires (forall c :: c in cs ==> MovesBytes(c)) && r in FlatMap(CallRefs, cs)
    ensures r.BufferR?
  {
    assert cs[0] in cs;
    if r !in CallRefs(cs[0]) { TransfersReferToBuffers(cs[1..], r); }
  }
}
