/** Which buffers a stream can get at. Streams own disjoint ids; a section of a stream keeps every
    bind group, every pass and every staged write within its stream's own buffers. */
module Ownership {
  import opened Basics
  import opened Protocol
  import opened Gpu
  import opened Tables
  import opened Replay
  import opened Engine
  import opened EngineLaws
  import opened Parts
  import opened Plain
  import opened Sections

  /** Which stream an id belongs to. */
  type Owners = ResourceId -> nat

  predicate OwnAll(own: Owners, k: nat, refs: seq<ResourceId>) { forall r :: r in refs ==> own(r) == k }

  /** The action mentions the stream's own ids only. */
  predicate OwnAction(dev: Device, own: Owners, k: nat, a: Action) {
    && OwnAll(own, k, Refs(dev, a))
    && (Creates(a).Some? ==> own(Creates(a).value) == k)
    && (a.Destroy? ==> own(a.resource) == k)
  }

  predicate TransferRecording(dev: Device, raw: Bytes) {
    var d := dev.recordings.decode(raw);
    d.Some? ==> forall c :: c in CallsOfAll(d.value.commands) ==> MovesBytes(c)
  }

  predicate TransferAction(dev: Device, a: Action) {
    !a.WriteTexture? && (a.Submit? ==> forall raw :: raw in a.recordings ==> TransferRecording(dev, raw))
  }

  predicate OwnBuffer(own: Owners, k: nat, b: GpuBuffer) { own(BufferR(b.serial.id)) == k }

  predicate OwnTransfer(own: Owners, k: nat, c: GpuCall) {
    match c
    case GWriteBuffer(b, _, _) => OwnBuffer(own, k, b)
    case GCopyBuffer(src, _, dst, _, _) => OwnBuffer(own, k, src) && OwnBuffer(own, k, dst)
    case GClearBuffer(b, _, _) => OwnBuffer(own, k, b)
    case _ => false
  }

  /** The call gets at the stream's own buffers only. */
  ghost predicate OwnReach(own: Owners, k: nat, c: GpuCall) {
    if IsTransfer(c) then OwnTransfer(own, k, c)
    else
      forall s: Serial :: (c.GSetBindGroup? && Binds(c.group, s)) || CopiesTextureTo(c, s) ==> own(BufferR(s.id)) == k
  }

  ghost predicate OwnCalls(own: Owners, k: nat, bytes: bool, cs: seq<GpuCall>) {
    forall c :: c in cs ==> OwnReach(own, k, c) && (bytes ==> IsTransfer(c))
  }

  ghost predicate NoPassOpen(log: seq<GpuCall>) { forall s: Serial :: !PassBinds(log, s) }

  ghost predicate OwnGroup(own: Owners, k: nat, group: GpuBindGroup) {
    forall s: Serial :: Binds(group, s) ==> own(BufferR(s.id)) == k
  }

  /** With `bytes`, all the stream does to contents is move bytes; without it, it also runs passes on its
      own objects. */
  ghost predicate TaskOk(dev: Device, own: Owners, k: nat, bytes: bool, t: Task) {
    match t
    case Idle => true
    case Storing(r, o) =>
      && own(r) == k && Names(r, o) && (o.BufferObject? ==> o.buffer.serial.id == r.id)
      && (o.BindGroupObject? ==> OwnGroup(own, k, o.group))
    case Building(rest, built) =>
      && (forall raw :: raw in rest ==>
            OwnAll(own, k, RecordingRefs(dev, raw)) && (bytes ==> TransferRecording(dev, raw)))
      && OwnCalls(own, k, bytes, Flatten(built)) && NoPassOpen(Flatten(built))
    case Flushing => true
    case Reading(b, _, _) => OwnBuffer(own, k, b)
  }

  ghost predicate StreamOk(dev: Device, own: Owners, k: nat, bytes: bool, s: Stream) {
    && (forall a :: a in s.todo ==> OwnAction(dev, own, k, a) && (bytes ==> TransferAction(dev, a)))
    && TaskOk(dev, own, k, bytes, s.task)
  }

  predicate Filed(t: Tables) { forall id :: id in t.buffers ==> t.buffers[id].serial.id == id }

  predicate OnlyWrites(staged: seq<GpuCall>) { forall c :: c in staged ==> c.GWriteBuffer? }

  ghost predicate OwnGroups(own: Owners, t: Tables) {
    forall id: BindGroupId :: id in t.bindGroups ==> OwnGroup(own, own(BindGroupR(id)), t.bindGroups[id])
  }

  ghost predicate EngineOk(own: Owners, st: EngineState) {
    Filed(st.tables) && OwnGroups(own, st.tables) && OnlyWrites(st.gpu.staged) && NoPassOpen(st.gpu.log)
  }

  /** A stream's own writes are staged only while it is about to flush them. */
  predicate Quiet(own: Owners, k: nat, staged: seq<GpuCall>, t: Task) {
    t.Flushing? || forall c :: c in staged && c.GWriteBuffer? ==> !OwnBuffer(own, k, c.buffer)
  }

  // ---- what one stream can see of an engine ----

  ghost predicate SameTables(own: Owners, k: nat, t: Tables, u: Tables) {
    forall r :: own(r) == k ==> Lookup(t, r) == Lookup(u, r)
  }

  ghost predicate SameContents(own: Owners, k: nat, m: Contents, n: Contents) {
    forall s: Serial :: own(BufferR(s.id)) == k ==>
      (s in m <==> s in n) && (s in m ==> m[s] == n[s])
  }

  /** The GPU once everything staged has been flushed. */
  function Settle(dev: Device, g: GpuState): GpuState { QueueSubmit(dev, g, []) }

  ghost predicate SameUses(own: Owners, k: nat, g: GpuState, h: GpuState) {
    && (forall id: nat :: own(BufferR(id)) == k ==> UsesOf(g.bufferUses, id) == UsesOf(h.bufferUses, id))
    && (forall id: nat :: own(TextureR(id)) == k ==> UsesOf(g.textureUses, id) == UsesOf(h.textureUses, id))
  }

  ghost predicate SameBytes(dev: Device, own: Owners, k: nat, g: GpuState, h: GpuState) {
    SameContents(own, k, Settle(dev, g).contents, Settle(dev, h).contents)
  }

  ghost predicate SameGpu(dev: Device, own: Owners, k: nat, bytes: bool, g: GpuState, h: GpuState) {
    SameUses(own, k, g, h) && (bytes ==> SameBytes(dev, own, k, g, h))
  }

  /** Its entries are the same, and so will its buffers be once staged writes are flushed. */
  ghost predicate SameFor(dev: Device, own: Owners, k: nat, bytes: bool, st: EngineState, u: EngineState) {
    SameTables(own, k, st.tables, u.tables) && SameGpu(dev, own, k, bytes, st.gpu, u.gpu)
  }

  /** A response with the outcome of a read left out. */
  function Shape(r: Response): Response {
    if r.BufferData? || r == ErrorResponse(Internal, MapFailed) then BufferData([]) else r
  }

  predicate SameResponses(bytes: bool, a: seq<Response>, b: seq<Response>) {
    if bytes then a == b else |a| == |b| && forall i :: 0 <= i < |a| ==> Shape(a[i]) == Shape(b[i])
  }

  predicate SameStream(bytes: bool, s: Stream, t: Stream) {
    s.todo == t.todo && s.task == t.task && SameResponses(bytes, s.got, t.got)
  }

  // ---- byte transfers on owned buffers ----

  lemma PokeSame(own: Owners, k: nat, m: Contents, n: Contents, s: Serial, offset: nat, data: Bytes)
    requires SameContents(own, k, m, n) && own(BufferR(s.id)) == k
    ensures SameContents(own, k, Poke(m, s, offset, data), Poke(n, s, offset, data))
  {
    hide Splice;
  }

  lemma PokeForeign(own: Owners, k: nat, m: Contents, s: Serial, offset: nat, data: Bytes)
    requires own(BufferR(s.id)) != k
    ensures SameContents(own, k, m, Poke(m, s, offset, data))
  {
    hide Splice;
  }

  lemma ExecOwn(dev: Device, own: Owners, k: nat, g: GpuState, h: GpuState, c: GpuCall)
    requires SameContents(own, k, g.contents, h.contents) && OwnTransfer(own, k, c)
    ensures SameContents(own, k, Effect(dev, g, c), Effect(dev, h, c))
  {
    hide Splice, Zeros, Poke;
    match c
    case GWriteBuffer(b, offset, data) => PokeSame(own, k, g.contents, h.contents, b.serial, offset, data);
    case GCopyBuffer(src, from, dst, to, size) =>
      if Peek(g.contents, src.serial, from, size).Some? {
        PokeSame(own, k, g.contents, h.contents, dst.serial, to, Peek(g.contents, src.serial, from, size).value);
      }
    case GClearBuffer(b, offset, size) =>
      if size.Some? { PokeSame(own, k, g.contents, h.contents, b.serial, offset, Zeros(size.value)); }
      else if b.serial in g.contents && offset <= |g.contents[b.serial]| {
        PokeSame(own, k, g.contents, h.contents, b.serial, offset, Zeros(|g.contents[b.serial]| - offset));
      }
  }

  lemma ExecForeign(dev: Device, own: Owners, j: nat, k: nat, g: GpuState, c: GpuCall)
    requires OwnTransfer(own, j, c) && j != k
    ensures SameContents(own, k, g.contents, Effect(dev, g, c))
  {
    hide Splice, Zeros, Poke;
    match c
    case GWriteBuffer(b, offset, data) => PokeForeign(own, k, g.contents, b.serial, offset, data);
    case GCopyBuffer(src, from, dst, to, size) =>
      if Peek(g.contents, src.serial, from, size).Some? {
        PokeForeign(own, k, g.contents, dst.serial, to, Peek(g.contents, src.serial, from, size).value);
      }
    case GClearBuffer(b, offset, size) =>
      if size.Some? { PokeForeign(own, k, g.contents, b.serial, offset, Zeros(size.value)); }
      else if b.serial in g.contents && offset <= |g.contents[b.serial]| {
        PokeForeign(own, k, g.contents, b.serial, offset, Zeros(|g.contents[b.serial]| - offset));
      }
  }

  lemma {:induction false} ExecAllOwn(dev: Device, own: Owners, k: nat, g: GpuState, h: GpuState, cs: seq<GpuCall>)
    requires SameContents(own, k, g.contents, h.contents) && OwnCalls(own, k, true, cs)
    ensures SameContents(own, k, ExecAll(dev, g, cs).contents, ExecAll(dev, h, cs).contents)
    decreases |cs|
  {
    hide Effect, SameContents, OwnTransfer, Binds;
    if cs != [] {
      assert cs[0] in cs;
      ExecOwn(dev, own, k, g, h, cs[0]);
      ExecAllOwn(dev, own, k, Exec(dev, g, cs[0]), Exec(dev, h, cs[0]), cs[1..]);
    }
  }

  /** Whatever is bound to the pass that is open belongs to stream `j`. */
  ghost predicate PassIsOf(own: Owners, j: nat, log: seq<GpuCall>) {
    forall s: Serial :: PassBinds(log, s) ==> own(BufferR(s.id)) == j
  }

  lemma PassStays(own: Owners, j: nat, log: seq<GpuCall>, c: GpuCall)
    requires PassIsOf(own, j, log) && OwnReach(own, j, c)
    ensures PassIsOf(own, j, log + [c])
  {
    hide PassBinds, Binds, CopiesTextureTo, OwnTransfer;
    forall s: Serial { PassBindsAfter(log, c, s); }
  }

  /** A shader of stream `j` changes nothing of stream `k`. */
  lemma ShadeForeign(dev: Device, own: Owners, j: nat, k: nat, g: GpuState, c: GpuCall)
    requires ShadeIsLocal(dev) && PassIsOf(own, j, g.log) && OwnReach(own, j, c) && !IsTransfer(c) && j != k
    ensures SameContents(own, k, g.contents, Effect(dev, g, c))
  {
    hide PassBinds, Binds;
    var n := Effect(dev, g, c);
    assert n == dev.shade(g.log, g.contents, c);
    forall s: Serial | own(BufferR(s.id)) == k ensures SameAt(g.contents, n, s) {
      assert !PassBinds(g.log, s) && !CopiesTextureTo(c, s);
    }
  }

  lemma {:induction false} ExecAllForeign(
      dev: Device, own: Owners, j: nat, k: nat, theirs: bool, g: GpuState, cs: seq<GpuCall>)
    requires j != k && OwnCalls(own, j, theirs, cs) && (theirs || (ShadeIsLocal(dev) && PassIsOf(own, j, g.log)))
    ensures SameContents(own, k, g.contents, ExecAll(dev, g, cs).contents)
    decreases |cs|
  {
    hide Effect, ShadeIsLocal, PassIsOf, OwnTransfer, Binds, CopiesTextureTo;
    if cs != [] {
      var c := cs[0];
      assert c in cs;
      if IsTransfer(c) { ExecForeign(dev, own, j, k, g, c); } else { ShadeForeign(dev, own, j, k, g, c); }
      if !theirs { PassStays(own, j, g.log, c); }
      ExecAllForeign(dev, own, j, k, theirs, Exec(dev, g, c), cs[1..]);
    }
  }

  // ---- no pass stays open ----

  lemma {:induction false} PassBindsAppend(a: seq<GpuCall>, b: seq<GpuCall>, s: Serial)
    ensures PassBinds(a + b, s) ==> PassBinds(a, s) || PassBinds(b, s)
    decreases |b|
  {
    hide Binds;
    if b == [] {
      assert a + b == a;
    } else {
      PassBindsAppend(a, b[..|b| - 1], s);
      assert (a + b)[..|a| + |b| - 1] == a + b[..|b| - 1];
    }
  }

  lemma NoneOpenAppend(a: seq<GpuCall>, b: seq<GpuCall>)
    requires NoPassOpen(a) && NoPassOpen(b)
    ensures NoPassOpen(a + b)
  {
    hide PassBinds;
    forall s: Serial { PassBindsAppend(a, b, s); }
  }

  lemma {:induction false} NoneBound(cs: seq<GpuCall>, s: Serial)
    requires forall c :: c in cs ==> !c.GSetBindGroup?
    ensures !PassBinds(cs, s)
    decreases |cs|
  {
    hide Binds;
    if cs != [] { NoneBound(cs[..|cs| - 1], s); }
  }

  lemma NoneOpened(cs: seq<GpuCall>)
    requires forall c :: c in cs ==> !c.GSetBindGroup?
    ensures NoPassOpen(cs)
  {
    hide PassBinds;
    forall s: Serial { NoneBound(cs, s); }
  }

  lemma CommandCloses(t: Tables, c: EncoderCommand)
    requires ReplayCommand(t, c).Ok?
    ensures NoPassOpen(ReplayCommand(t, c).value)
  {
    var calls := ReplayCommand(t, c).value;
    if IsPass(c) {
      assert OpensOrCloses(calls[|calls| - 1]);
    } else {
      NoneOpened(calls);
    }
  }

  /** A replayed recording closes every pass it opens. */
  lemma {:induction false} CommandsClose(t: Tables, cs: seq<EncoderCommand>)
    requires ReplayCommands(t, cs).Ok?
    ensures NoPassOpen(ReplayCommands(t, cs).value)
  {
    hide NoPassOpen, ReplayCommand;
    if cs == [] {
      NoneOpened([]);
    } else {
      CommandCloses(t, cs[0]);
      CommandsClose(t, cs[1..]);
      NoneOpenAppend(ReplayCommand(t, cs[0]).value, ReplayCommands(t, cs[1..]).value);
    }
  }

  lemma SubmitCloses(dev: Device, g: GpuState, built: seq<seq<GpuCall>>)
    requires NoPassOpen(g.log) && NoPassOpen(Flatten(built)) && forall c :: c in g.staged ==> !c.GSetBindGroup?
    ensures NoPassOpen(QueueSubmit(dev, g, built).log)
  {
    hide NoPassOpen, Exec;
    NoneOpened(g.staged);
    NoneOpenAppend(g.staged, Flatten(built));
    NoneOpenAppend(g.log, g.staged + Flatten(built));
    ExecLog(dev, g.(staged := []), g.staged + Flatten(built));
  }

  /** Plain writes, whoever they belong to, keep contents the same for everyone. */
  lemma {:induction false} WritesSame(dev: Device, own: Owners, k: nat, g: GpuState, h: GpuState, cs: seq<GpuCall>)
    requires SameContents(own, k, g.contents, h.contents) && OnlyWrites(cs)
    ensures SameContents(own, k, ExecAll(dev, g, cs).contents, ExecAll(dev, h, cs).contents)
    decreases |cs|
  {
    hide Splice, Poke;
    if cs != [] {
      var c := cs[0];
      assert c in cs;
      if OwnBuffer(own, k, c.buffer) {
        PokeSame(own, k, g.contents, h.contents, c.buffer.serial, c.offset, c.data);
      } else {
        PokeForeign(own, k, g.contents, c.buffer.serial, c.offset, c.data);
        PokeForeign(own, k, h.contents, c.buffer.serial, c.offset, c.data);
      }
      hide Effect;
      assert Exec(dev, g, c).contents == Effect(dev, g, c) && Exec(dev, h, c).contents == Effect(dev, h, c);
      WritesSame(dev, own, k, Exec(dev, g, c), Exec(dev, h, c), cs[1..]);
    }
  }

  lemma {:induction false} WritesForeign(dev: Device, own: Owners, k: nat, g: GpuState, cs: seq<GpuCall>)
    requires OnlyWrites(cs) && Quiet(own, k, cs, Idle)
    ensures SameContents(own, k, g.contents, ExecAll(dev, g, cs).contents)
    decreases |cs|
  {
    hide Splice, Poke;
    if cs != [] {
      var c := cs[0];
      assert c in cs;
      PokeForeign(own, k, g.contents, c.buffer.serial, c.offset, c.data);
      WritesForeign(dev, own, k, Exec(dev, g, c), cs[1..]);
    }
  }

  // ---- what is staged, once settled ----

  lemma SubmitSettles(dev: Device, g: GpuState, built: seq<seq<GpuCall>>)
    ensures var h := QueueSubmit(dev, g, built);
      && h == ExecAll(dev, Settle(dev, g), Flatten(built))
      && h.staged == [] && Settle(dev, h) == h
      && h.bufferUses == g.bufferUses && h.textureUses == g.textureUses
  {
    hide Exec;
    var start, calls := g.(staged := []), Flatten(built);
    assert g.staged + [] == g.staged;
    ExecAllAppend(dev, start, g.staged, calls);
    ExecKeepsStaged(dev, start, g.staged + calls);
    ExecKeepsUses(dev, start, g.staged + calls);
    var h := QueueSubmit(dev, g, built);
    assert h.(staged := []) == h && h.staged + [] == [];
  }

  lemma StageSettles(dev: Device, g: GpuState, c: GpuCall)
    ensures Settle(dev, Stage(g, c)) == Exec(dev, Settle(dev, g), c)
  {
    hide Exec;
    var start := g.(staged := []);
    assert g.staged + [c] + [] == g.staged + [c] && g.staged + [] == g.staged && [c][1..] == [];
    ExecAllAppend(dev, start, g.staged, [c]);
    var mid := ExecAll(dev, start, g.staged);
    assert ExecAll(dev, mid, [c]) == ExecAll(dev, Exec(dev, mid, c), [c][1..]);
  }

  /** With none of its own writes staged, a stream's buffers already are what they will be. */
  lemma QuietIsSettled(dev: Device, own: Owners, k: nat, g: GpuState)
    requires OnlyWrites(g.staged) && Quiet(own, k, g.staged, Idle)
    ensures SameContents(own, k, g.contents, Settle(dev, g).contents)
  {
    assert g.staged + [] == g.staged;
    WritesForeign(dev, own, k, g.(staged := []), g.staged);
  }

  /** What a stream builds from its own recordings gets at its own buffers only and closes its passes. */
  lemma BuildsOwn(dev: Device, own: Owners, k: nat, bytes: bool, st: EngineState, raw: Bytes)
    requires EngineOk(own, st) && OwnAll(own, k, RecordingRefs(dev, raw)) && (bytes ==> TransferRecording(dev, raw))
    requires BuildCommands(dev, st.tables, raw).Ok?
    ensures OwnCalls(own, k, bytes, BuildCommands(dev, st.tables, raw).value)
    ensures NoPassOpen(BuildCommands(dev, st.tables, raw).value)
  {
    hide Resolve, OwnReach, EngineOk, NoPassOpen, MovesBytes, CallRefs, ReplayCommand;
    var cs := dev.recordings.decode(raw).value.commands;
    var calls, built := CallsOfAll(cs), BuildCommands(dev, st.tables, raw).value;
    CommandsClose(st.tables, cs);
    ReplayIsFlat(st.tables, cs);
    TraverseLength(c => Resolve(st.tables, c), calls);
    forall c | c in built ensures OwnReach(own, k, c) && (bytes ==> IsTransfer(c)) {
      var i :| 0 <= i < |built| && built[i] == c;
      assert calls[i] in calls && Resolve(st.tables, calls[i]) == Ok(c);
      forall r | r in CallRefs(calls[i]) ensures own(r) == k {
        InFlatMap(CallRefs, calls, calls[i], r);
      }
      ResolvesOwn(own, k, st, calls[i]);
    }
  }

  lemma ResolvesOwn(own: Owners, k: nat, st: EngineState, c: Call)
    requires EngineOk(own, st) && OwnAll(own, k, CallRefs(c)) && Resolve(st.tables, c).Ok?
    ensures OwnReach(own, k, Resolve(st.tables, c).value)
    ensures MovesBytes(c) ==> IsTransfer(Resolve(st.tables, c).value)
  {
    hide NoPassOpen, Binds, OnlyWrites;
    match c
    case OnEncoder(CopyBufferToBuffer(src, _, dst, _, _)) =>
      assert BufferR(src) in CallRefs(c) && BufferR(dst) in CallRefs(c);
    case OnEncoder(ClearBuffer(id, _, _)) => assert BufferR(id) in CallRefs(c);
    case OnEncoder(CopyTextureToBuffer(_, to, _)) => assert BufferR(to.buffer) in CallRefs(c);
    case InCompute(SetComputeBindGroup(_, group, _)) => assert BindGroupR(group) in CallRefs(c);
    case InRender(SetRenderBindGroup(_, group, _)) => assert BindGroupR(group) in CallRefs(c);
    case _ =>
  }

  // ---- a turn keeps everything in order ----

  predicate AddsOwn(own: Owners, k: nat, before: seq<GpuCall>, after: seq<GpuCall>) {
    forall c :: c in after ==> c in before || (c.GWriteBuffer? && OwnBuffer(own, k, c.buffer))
  }

  ghost predicate InOrder(dev: Device, own: Owners, k: nat, bytes: bool, st: EngineState, s: Stream) {
    EngineOk(own, st) && StreamOk(dev, own, k, bytes, s) && Quiet(own, k, st.gpu.staged, s.task)
  }

  lemma CreateInOrder(dev: Device, own: Owners, k: nat, bytes: bool, st: EngineState, s: Stream)
    requires InOrder(dev, own, k, bytes, st, s) && s.task == Idle && s.todo != [] && Creates(s.todo[0]).Some?
    ensures var (e, t) := Turn(dev, st, s);
      InOrder(dev, own, k, bytes, e, t) && AddsOwn(own, k, st.gpu.staged, e.gpu.staged)
  {
    var a := s.todo[0];
    assert a in s.todo;
    if Construct(st.tables, st.gpu, a).Ok? {
      ConstructKeepsStaged(st.tables, st.gpu, a);
      ConstructKeepsLog(st.tables, st.gpu, a);
      BufferIsNamed(st.tables, st.gpu, a);
      GroupIsOwn(dev, own, k, st, a);
    }
    hide Construct, Refs, HandleQueue, TransferAction, OwnGroup, NoPassOpen;
  }

  lemma ConstructKeepsLog(t: Tables, g: GpuState, a: Action)
    requires Creates(a).Some? && Construct(t, g, a).Ok?
    ensures Construct(t, g, a).value.0.log == g.log
  {
    hide Assemble;
  }

  /** A new bind group binds its stream's own buffers. */
  lemma GroupIsOwn(dev: Device, own: Owners, k: nat, st: EngineState, a: Action)
    requires EngineOk(own, st) && Creates(a).Some? && OwnAction(dev, own, k, a) && Construct(st.tables, st.gpu, a).Ok?
    ensures var o := Construct(st.tables, st.gpu, a).value.1; o.BindGroupObject? ==> OwnGroup(own, k, o.group)
  {
    hide NoPassOpen, BuildBindGroup, Binds, OnlyWrites;
    if a.CreateBindGroup? {
      var desc := a.groupDesc;
      var group := BuildBindGroup(st.tables, desc);
      if group.Ok? {
        forall s: Serial | Binds(group.value, s) ensures own(BufferR(s.id)) == k {
          var e := BindsWhatIsNamed(st.tables, desc, s);
          assert BufferR(e.resource.binding.buffer) in BindRefs(e);
          InFlatMap(BindRefs, desc.entries, e, BufferR(e.resource.binding.buffer));
        }
      }
    }
  }

  /** A new buffer carries the id it was created under. */
  lemma BufferIsNamed(t: Tables, g: GpuState, a: Action)
    requires Creates(a).Some? && Construct(t, g, a).Ok?
    ensures var o := Construct(t, g, a).value.1; o.BufferObject? ==> o.buffer.serial.id == Creates(a).value.id
  {
    hide Assemble;
  }

  lemma SubmitInOrder(dev: Device, own: Owners, k: nat, bytes: bool, st: EngineState, s: Stream)
    requires InOrder(dev, own, k, bytes, st, s) && s.task == Idle && s.todo != [] && s.todo[0].Submit?
    ensures var (e, t) := Turn(dev, st, s);
      InOrder(dev, own, k, bytes, e, t) && AddsOwn(own, k, st.gpu.staged, e.gpu.staged)
  {
    hide RecordingRefs, TransferRecording, NoPassOpen, OwnGroup, HandleQueue, Handle, Construct, OwnReach;
    var a := s.todo[0];
    assert a in s.todo;
    forall raw | raw in a.recordings ensures OwnAll(own, k, RecordingRefs(dev, raw)) {
      forall r | r in RecordingRefs(dev, raw) ensures own(r) == k {
        InFlatMap(x => RecordingRefs(dev, x), a.recordings, raw, r);
      }
    }
    assert Turn(dev, st, s) == (st, s.(task := Building(a.recordings, [])));
    NoneOpened([]);
    hide Turn;
  }

  lemma UseInOrder(dev: Device, own: Owners, k: nat, bytes: bool, st: EngineState, s: Stream)
    requires InOrder(dev, own, k, bytes, st, s) && s.task == Idle && s.todo != []
    requires Creates(s.todo[0]).None? && !s.todo[0].Submit?
    ensures var (e, t) := Turn(dev, st, s);
      InOrder(dev, own, k, bytes, e, t) && AddsOwn(own, k, st.gpu.staged, e.gpu.staged)
  {
    hide NoPassOpen, OwnGroup, QueueSubmit, Construct, TransferAction, RecordingRefs, BuildSubmission,
      TransferRecording;
    var a := s.todo[0];
    assert a in s.todo;
    if a.WriteTexture? && a.targetTexture in st.tables.textures {
      var staged := Stage(st.gpu, GWriteTexture(st.tables.textures[a.targetTexture], a.texels, a.data));
      SubmitSettles(dev, staged, []);
      NoneOpened([]);
      SubmitCloses(dev, staged, []);
    }
    if a.WriteBuffer? || a.MapBufferForRead? { assert Refs(dev, a)[0] in Refs(dev, a); }
  }

  lemma BuildInOrder(dev: Device, own: Owners, k: nat, bytes: bool, st: EngineState, s: Stream)
    requires InOrder(dev, own, k, bytes, st, s) && s.task.Building? && s.task.rest != []
    ensures var (e, t) := Turn(dev, st, s);
      InOrder(dev, own, k, bytes, e, t) && AddsOwn(own, k, st.gpu.staged, e.gpu.staged)
  {
    hide BuildCommands, RecordingRefs, OwnAction, TransferAction, TransferRecording, OwnReach, NoPassOpen, OwnGroup,
      QueueSubmit, Handle;
    var raw, built := s.task.rest[0], s.task.built;
    assert raw in s.task.rest;
    if BuildCommands(dev, st.tables, raw).Ok? {
      var calls := BuildCommands(dev, st.tables, raw).value;
      BuildsOwn(dev, own, k, bytes, st, raw);
      FlattenAppend(built, [calls]);
      assert [calls][1..] == [];
      assert Flatten([calls]) == calls + Flatten([calls][1..]) == calls;
      NoneOpenAppend(Flatten(built), calls);
    }
  }

  lemma StoreKeepsTables(own: Owners, k: nat, t: Tables, r: ResourceId, o: GpuObject)
    requires Filed(t) && OwnGroups(own, t) && own(r) == k && Names(r, o)
    requires (o.BufferObject? ==> o.buffer.serial.id == r.id) && (o.BindGroupObject? ==> OwnGroup(own, k, o.group))
    ensures Filed(Insert(t, r, o)) && OwnGroups(own, Insert(t, r, o))
  {
    hide OwnGroup;
  }

  lemma StoreInOrder(dev: Device, own: Owners, k: nat, bytes: bool, st: EngineState, s: Stream)
    requires InOrder(dev, own, k, bytes, st, s) && s.task.Storing?
    ensures var (e, t) := Turn(dev, st, s);
      InOrder(dev, own, k, bytes, e, t) && AddsOwn(own, k, st.gpu.staged, e.gpu.staged)
  {
    hide OwnAction, TransferAction, NoPassOpen, OwnGroup, OwnGroups, Filed, Insert;
    StoreKeepsTables(own, k, st.tables, s.task.r, s.task.o);
  }

  lemma FlushInOrder(dev: Device, own: Owners, st: EngineState, built: seq<seq<GpuCall>>)
    requires EngineOk(own, st) && NoPassOpen(Flatten(built))
    ensures var g := QueueSubmit(dev, st.gpu, built); g.staged == [] && EngineOk(own, st.(gpu := g))
  {
    hide QueueSubmit, NoPassOpen, OwnGroups;
    SubmitSettles(dev, st.gpu, built);
    SubmitCloses(dev, st.gpu, built);
  }

  lemma TurnInOrder(dev: Device, own: Owners, k: nat, bytes: bool, st: EngineState, s: Stream)
    requires InOrder(dev, own, k, bytes, st, s)
    ensures var (e, t) := Turn(dev, st, s);
      InOrder(dev, own, k, bytes, e, t) && AddsOwn(own, k, st.gpu.staged, e.gpu.staged)
  {
    hide OwnAction, TransferAction, NoPassOpen, OwnGroup, OwnReach, QueueSubmit, BuildCommands, Handle, Construct;
    match s.task
    case Storing(_, _) => StoreInOrder(dev, own, k, bytes, st, s);
    case Flushing =>
      NoneOpened([]);
      FlushInOrder(dev, own, st, []);
    case Reading(_, _, _) =>
    case Building(rest, built) =>
      if rest != [] {
        hide InOrder, Turn;
        BuildInOrder(dev, own, k, bytes, st, s);
      } else {
        FlushInOrder(dev, own, st, built);
      }
    case Idle =>
      if s.todo != [] {
        hide InOrder, Turn;
        if Creates(s.todo[0]).Some? { CreateInOrder(dev, own, k, bytes, st, s); }
        else if s.todo[0].Submit? { SubmitInOrder(dev, own, k, bytes, st, s); }
        else { UseInOrder(dev, own, k, bytes, st, s); }
      }
  }
}
