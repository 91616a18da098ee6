/** Several streams on one engine (server/handler.rs:62-74): each dispatches its own actions in
    order, but the engine's lock is released and taken again inside an action. Streams whose ids are
    disjoint do not notice each other. */
module Streams {
  import opened Basics
  import opened Protocol
  import opened Gpu
  import opened Tables
  import opened Replay
  import opened Engine
  import opened EngineLaws
  import opened Ownership
  import opened Sections

  // ---- a turn of another stream ----

  lemma SettlesForeign(dev: Device, own: Owners, k: nat, bytes: bool, g: GpuState, h: GpuState)
    requires g.staged == h.staged && OnlyWrites(g.staged)
    requires SameUses(own, k, g, h) && (bytes ==> SameContents(own, k, g.contents, h.contents))
    ensures SameGpu(dev, own, k, bytes, g, h)
  {
    if bytes {
      assert g.staged + [] == g.staged;
      WritesSame(dev, own, k, g.(staged := []), h.(staged := []), g.staged);
    }
    assert SameUses(own, k, g, h);
  }

  lemma ConstructForeign(dev: Device, own: Owners, j: nat, k: nat, t: Tables, g: GpuState, a: Action)
    requires Creates(a).Some? && Construct(t, g, a).Ok? && own(Creates(a).value) == j != k
    ensures var h := Construct(t, g, a).value.0;
      SameUses(own, k, g, h) && SameContents(own, k, g.contents, h.contents) && h.staged == g.staged
  {
    hide Assemble, Zeros;
  }

  /** What stream `j` does concerns no buffer of another: it moves bytes, or its shaders are local. */
  ghost predicate Apart(dev: Device, bytes: bool, theirs: bool) { bytes ==> theirs || ShadeIsLocal(dev) }

  lemma CreateForeign(
      dev: Device, own: Owners, j: nat, k: nat, bytes: bool, theirs: bool, st: EngineState, s: Stream)
    requires InOrder(dev, own, j, theirs, st, s) && j != k && s.task == Idle && s.todo != []
    requires Creates(s.todo[0]).Some?
    ensures SameFor(dev, own, k, bytes, st, Turn(dev, st, s).0)
  {
    var a := s.todo[0];
    assert a in s.todo;
    if Construct(st.tables, st.gpu, a).Ok? {
      ConstructForeign(dev, own, j, k, st.tables, st.gpu, a);
      hide Construct, Handle;
      SettlesForeign(dev, own, k, bytes, st.gpu, Construct(st.tables, st.gpu, a).value.0);
    }
  }

  lemma SettledClosed(dev: Device, g: GpuState)
    requires NoPassOpen(g.log) && OnlyWrites(g.staged)
    ensures NoPassOpen(Settle(dev, g).log)
  {
    NoneOpened([]);
    hide NoPassOpen, QueueSubmit;
    SubmitCloses(dev, g, []);
  }

  lemma SubmitForeign(
      dev: Device, own: Owners, j: nat, k: nat, bytes: bool, theirs: bool, g: GpuState, built: seq<seq<GpuCall>>)
    requires j != k && Apart(dev, bytes, theirs) && OwnCalls(own, j, theirs, Flatten(built))
    requires NoPassOpen(g.log) && OnlyWrites(g.staged)
    ensures SameGpu(dev, own, k, bytes, g, QueueSubmit(dev, g, built))
  {
    hide ShadeIsLocal, OwnReach, PassBinds;
    SubmitSettles(dev, g, built);
    if bytes {
      SettledClosed(dev, g);
      ExecAllForeign(dev, own, j, k, theirs, Settle(dev, g), Flatten(built));
    }
    hide QueueSubmit, Settle;
  }

  lemma StageForeign(dev: Device, own: Owners, j: nat, k: nat, bytes: bool, g: GpuState, c: GpuCall)
    requires j != k && (bytes ==> OwnTransfer(own, j, c))
    ensures SameGpu(dev, own, k, bytes, g, Stage(g, c))
  {
    if bytes {
      StageSettles(dev, g, c);
      hide Settle, Effect;
      ExecForeign(dev, own, j, k, Settle(dev, g), c);
    }
  }

  lemma UseForeign(
      dev: Device, own: Owners, j: nat, k: nat, bytes: bool, theirs: bool, st: EngineState, s: Stream)
    requires InOrder(dev, own, j, theirs, st, s) && j != k && Apart(dev, bytes, theirs)
    requires s.task == Idle && s.todo != [] && Creates(s.todo[0]).None?
    ensures SameFor(dev, own, k, bytes, st, Turn(dev, st, s).0)
  {
    hide ShadeIsLocal, OwnGroup, NoPassOpen;
    var a := s.todo[0];
    assert a in s.todo;
    if a.WriteBuffer? && a.target in st.tables.buffers {
      assert Refs(dev, a)[0] in Refs(dev, a);
      StageForeign(dev, own, j, k, bytes, st.gpu, GWriteBuffer(st.tables.buffers[a.target], a.offset, a.data));
    } else if a.WriteTexture? && a.targetTexture in st.tables.textures {
      WriteTextureForeign(dev, own, j, k, bytes, st, a);
    } else if a.Destroy? && a.resource.BufferR? {
      forall r | own(r) == k ensures Lookup(st.tables, r) == Lookup(RemoveBuffer(st.tables, a.resource.id), r) {
        RemoveLookup(st.tables, a.resource.id, r);
      }
    }
    hide QueueSubmit, Stage, Construct, RecordingRefs, Lookup, RemoveBuffer;
  }

  lemma WriteTextureForeign(dev: Device, own: Owners, j: nat, k: nat, bytes: bool, st: EngineState, a: Action)
    requires a.WriteTexture? && a.targetTexture in st.tables.textures && j != k
    requires NoPassOpen(st.gpu.log) && OnlyWrites(st.gpu.staged) && (bytes ==> ShadeIsLocal(dev))
    ensures SameGpu(dev, own, k, bytes, st.gpu, HandleQueue(dev, st, a).0.gpu)
  {
    hide ShadeIsLocal, PassBinds, Effect;
    var c := GWriteTexture(st.tables.textures[a.targetTexture], a.texels, a.data);
    SubmitSettles(dev, Stage(st.gpu, c), []);
    StageSettles(dev, st.gpu, c);
    if bytes {
      SettledClosed(dev, st.gpu);
      ShadeForeign(dev, own, j, k, Settle(dev, st.gpu), c);
    }
    hide QueueSubmit;
  }

  /** Another stream's section changes nothing that stream `k` can see. */
  lemma TurnForeign(
      dev: Device, own: Owners, j: nat, k: nat, bytes: bool, theirs: bool, st: EngineState, s: Stream)
    requires InOrder(dev, own, j, theirs, st, s) && j != k && Apart(dev, bytes, theirs)
    ensures SameFor(dev, own, k, bytes, st, Turn(dev, st, s).0)
  {
    hide Apart, OwnGroup, NoPassOpen, OwnReach;
    match s.task
    case Idle =>
      if s.todo != [] {
        hide InOrder, Turn, SameFor;
        if Creates(s.todo[0]).Some? { CreateForeign(dev, own, j, k, bytes, theirs, st, s); }
        else { UseForeign(dev, own, j, k, bytes, theirs, st, s); }
      }
    case Storing(r, o) =>
      forall q | own(q) == k ensures Lookup(st.tables, q) == Lookup(Insert(st.tables, r, o), q) {
        InsertLookup(st.tables, r, o, q);
      }
      hide Lookup, Insert;
    case Building(rest, built) => if rest == [] { SubmitForeign(dev, own, j, k, bytes, theirs, st.gpu, built); }
      hide QueueSubmit;
    case Flushing => SubmitForeign(dev, own, j, k, bytes, theirs, st.gpu, []);
      hide QueueSubmit;
    case Reading(_, _, _) =>
  }

  // ---- the same turn on two engines ----

  lemma FinishSame(bytes: bool, s: Stream, t: Stream, r: Response, q: Response)
    requires SameStream(bytes, s, t) && (if bytes then r == q else Shape(r) == Shape(q))
    ensures SameStream(bytes, Finish(s, r), Finish(t, q))
  {
  }

  lemma QuietSame(dev: Device, own: Owners, k: nat, g: GpuState, h: GpuState)
    requires OnlyWrites(g.staged) && Quiet(own, k, g.staged, Idle)
    requires OnlyWrites(h.staged) && Quiet(own, k, h.staged, Idle)
    ensures SameBytes(dev, own, k, g, h) <==> SameContents(own, k, g.contents, h.contents)
  {
    QuietIsSettled(dev, own, k, g);
    QuietIsSettled(dev, own, k, h);
    hide Settle;
  }

  lemma ConstructSame(dev: Device, own: Owners, k: nat, bytes: bool, st: EngineState, u: EngineState, a: Action)
    requires EngineOk(own, st) && EngineOk(own, u) && SameFor(dev, own, k, bytes, st, u)
    requires Quiet(own, k, st.gpu.staged, Idle) && Quiet(own, k, u.gpu.staged, Idle)
    requires Creates(a).Some? && OwnAction(dev, own, k, a)
    ensures match Construct(st.tables, st.gpu, a)
      case Err(e) => Construct(u.tables, u.gpu, a) == Err(e)
      case Ok((g, o)) =>
        var made := Construct(u.tables, u.gpu, a);
        made.Ok? && made.value.1 == o && SameGpu(dev, own, k, bytes, g, made.value.0)
  {
    ConstructAgrees(dev, st.tables, u.tables, st.gpu, a) by { hide SameGpu; }
    if TakesName(a) {
      QuietSame(dev, own, k, st.gpu, u.gpu);
      NamesSame(dev, own, k, bytes, st.tables, st.gpu, u.gpu, a) by { hide SameBytes, QueueSubmit; }
    } else {
      hide Assemble, Refs, SameGpu;
    }
  }

  lemma NamesSame(dev: Device, own: Owners, k: nat, bytes: bool, t: Tables, g: GpuState, h: GpuState, a: Action)
    requires OnlyWrites(g.staged) && Quiet(own, k, g.staged, Idle)
    requires OnlyWrites(h.staged) && Quiet(own, k, h.staged, Idle)
    requires Creates(a).Some? && TakesName(a) && own(Creates(a).value) == k
    requires SameUses(own, k, g, h) && (bytes ==> SameContents(own, k, g.contents, h.contents))
    ensures var x, y := Construct(t, g, a).value, Construct(t, h, a).value;
      x.1 == y.1 && SameGpu(dev, own, k, bytes, x.0, y.0)
  {
    hide Assemble, SameBytes, Quiet, SameUses, SameContents;
    if a.CreateBuffer? {
      hide NewBuffer;
      NewBufferSame(own, k, bytes, g, h, a.buffer, a.bufferDesc);
      QuietSame(dev, own, k, NewBuffer(g, a.buffer, a.bufferDesc).0, NewBuffer(h, a.buffer, a.bufferDesc).0);
    } else {
      hide NewTexture;
      NewTextureSame(own, k, g, h, a.texture, a.textureDesc);
      QuietSame(dev, own, k, NewTexture(g, a.texture, a.textureDesc).0, NewTexture(h, a.texture, a.textureDesc).0);
    }
  }

  lemma NewBufferSame(own: Owners, k: nat, bytes: bool, g: GpuState, h: GpuState, id: BufferId, desc: BufferDescriptor)
    requires own(BufferR(id)) == k && SameUses(own, k, g, h) && (bytes ==> SameContents(own, k, g.contents, h.contents))
    ensures var (x, b) := NewBuffer(g, id, desc);
      var (y, c) := NewBuffer(h, id, desc);
      && b == c && x.staged == g.staged && y.staged == h.staged
      && SameUses(own, k, x, y) && (bytes ==> SameContents(own, k, x.contents, y.contents))
  {
    hide Zeros;
  }

  lemma NewTextureSame(own: Owners, k: nat, g: GpuState, h: GpuState, id: TextureId, desc: Blob)
    requires own(TextureR(id)) == k && SameUses(own, k, g, h)
    ensures var (x, b) := NewTexture(g, id, desc);
      var (y, c) := NewTexture(h, id, desc);
      && b == c && x.staged == g.staged && y.staged == h.staged && SameUses(own, k, x, y)
      && x.contents == g.contents && y.contents == h.contents
  {
  }

  /** What two runs of one stream have in common after a turn of each. */
  ghost predicate StillSame(
      dev: Device, own: Owners, k: nat, bytes: bool, st: EngineState, u: EngineState, s: Stream, t: Stream)
  {
    var (e, p) := Turn(dev, st, s);
    var (f, q) := Turn(dev, u, t);
    SameFor(dev, own, k, bytes, e, f) && SameStream(bytes, p, q)
  }

  ghost predicate BothInOrder(
      dev: Device, own: Owners, k: nat, bytes: bool, st: EngineState, u: EngineState, s: Stream, t: Stream)
  {
    && InOrder(dev, own, k, bytes, st, s) && InOrder(dev, own, k, bytes, u, t)
    && SameFor(dev, own, k, bytes, st, u) && SameStream(bytes, s, t)
  }

  lemma CreateSame(dev: Device, own: Owners, k: nat, bytes: bool, st: EngineState, u: EngineState, s: Stream, t: Stream)
    requires BothInOrder(dev, own, k, bytes, st, u, s, t) && s.task == Idle && s.todo != [] && Creates(s.todo[0]).Some?
    ensures StillSame(dev, own, k, bytes, st, u, s, t)
  {
    var a := s.todo[0];
    assert a in s.todo;
    ConstructSame(dev, own, k, bytes, st, u, a);
    hide Construct, Handle, SameGpu, SameTables, Finish, Creates;
    if Construct(st.tables, st.gpu, a).Err? {
      FinishSame(bytes, s, t, Construct(st.tables, st.gpu, a).error, Construct(u.tables, u.gpu, a).error);
    }
  }

  lemma StageSame(dev: Device, own: Owners, k: nat, bytes: bool, g: GpuState, h: GpuState, c: GpuCall)
    requires SameGpu(dev, own, k, bytes, g, h) && (bytes ==> OwnTransfer(own, k, c))
    ensures SameGpu(dev, own, k, bytes, Stage(g, c), Stage(h, c))
  {
    if bytes {
      StageSettles(dev, g, c);
      StageSettles(dev, h, c);
      hide Settle, Effect;
      ExecOwn(dev, own, k, Settle(dev, g), Settle(dev, h), c);
    }
  }

  lemma SubmitSame(dev: Device, own: Owners, k: nat, bytes: bool, g: GpuState, h: GpuState, built: seq<seq<GpuCall>>)
    requires SameGpu(dev, own, k, bytes, g, h) && OwnCalls(own, k, bytes, Flatten(built))
    ensures SameGpu(dev, own, k, bytes, QueueSubmit(dev, g, built), QueueSubmit(dev, h, built))
  {
    SubmitSettles(dev, g, built);
    SubmitSettles(dev, h, built);
    if bytes { ExecAllOwn(dev, own, k, Settle(dev, g), Settle(dev, h), Flatten(built)); }
    hide QueueSubmit, Settle, OwnReach;
  }

  lemma WriteSame(dev: Device, own: Owners, k: nat, bytes: bool, st: EngineState, u: EngineState, s: Stream, t: Stream)
    requires BothInOrder(dev, own, k, bytes, st, u, s, t) && s.task == Idle && s.todo != [] && s.todo[0].WriteBuffer?
    ensures StillSame(dev, own, k, bytes, st, u, s, t)
  {
    var a := s.todo[0];
    assert a in s.todo && Refs(dev, a)[0] in Refs(dev, a);
    assert Lookup(st.tables, BufferR(a.target)) == Lookup(u.tables, BufferR(a.target));
    if a.target in st.tables.buffers {
      var b := st.tables.buffers[a.target];
      assert OwnBuffer(own, k, b);
      StageSame(dev, own, k, bytes, st.gpu, u.gpu, GWriteBuffer(b, a.offset, a.data));
    } else {
      FinishSame(bytes, s, t, UnknownId(BufferR(a.target)), UnknownId(BufferR(a.target)));
    }
    hide SameGpu, SameTables, Stage, Finish;
  }

  lemma MapSame(dev: Device, own: Owners, k: nat, bytes: bool, st: EngineState, u: EngineState, s: Stream, t: Stream)
    requires BothInOrder(dev, own, k, bytes, st, u, s, t) && s.task == Idle && s.todo != []
    requires s.todo[0].MapBufferForRead? || s.todo[0].Submit?
    ensures StillSame(dev, own, k, bytes, st, u, s, t)
  {
    var a := s.todo[0];
    assert a in s.todo;
    if a.MapBufferForRead? {
      assert Refs(dev, a)[0] in Refs(dev, a);
      assert Lookup(st.tables, BufferR(a.source)) == Lookup(u.tables, BufferR(a.source));
      if a.source !in st.tables.buffers {
        FinishSame(bytes, s, t, UnknownId(BufferR(a.source)), UnknownId(BufferR(a.source)));
      }
    }
    hide SameGpu, SameTables, Finish;
  }

  lemma TextureSame(dev: Device, own: Owners, k: nat, st: EngineState, u: EngineState, a: Action)
    requires a.WriteTexture? && OwnAction(dev, own, k, a) && SameFor(dev, own, k, false, st, u)
    ensures var (e, r) := HandleQueue(dev, st, a);
      var (f, q) := HandleQueue(dev, u, a);
      r == q && SameFor(dev, own, k, false, e, f)
  {
    assert Refs(dev, a)[0] in Refs(dev, a);
    assert Lookup(st.tables, TextureR(a.targetTexture)) == Lookup(u.tables, TextureR(a.targetTexture));
    if a.targetTexture in st.tables.textures {
      var c := GWriteTexture(st.tables.textures[a.targetTexture], a.texels, a.data);
      SubmitSettles(dev, Stage(st.gpu, c), []);
      SubmitSettles(dev, Stage(u.gpu, c), []);
    }
    hide QueueSubmit, SameTables;
  }

  lemma OtherSame(dev: Device, own: Owners, k: nat, bytes: bool, st: EngineState, u: EngineState, s: Stream, t: Stream)
    requires BothInOrder(dev, own, k, bytes, st, u, s, t) && s.task == Idle && s.todo != []
    requires Creates(s.todo[0]).None? && !s.todo[0].WriteBuffer? && !s.todo[0].MapBufferForRead? && !s.todo[0].Submit?
    ensures StillSame(dev, own, k, bytes, st, u, s, t)
  {
    var a := s.todo[0];
    assert a in s.todo;
    if a.WriteTexture? {
      assert !bytes;
      TextureSame(dev, own, k, st, u, a);
    } else if a.Destroy? && a.resource.BufferR? {
      forall r | own(r) == k
        ensures Lookup(RemoveBuffer(st.tables, a.resource.id), r) == Lookup(RemoveBuffer(u.tables, a.resource.id), r)
      {
        RemoveLookup(st.tables, a.resource.id, r);
        RemoveLookup(u.tables, a.resource.id, r);
      }
    }
    var r, q := Handle(dev, st, a).1, Handle(dev, u, a).1;
    assert r == q by { hide SameGpu, SameTables, HandleQueue; }
    hide HandleQueue, SameGpu, RemoveBuffer, Lookup, Finish;
    FinishSame(bytes, s, t, r, q);
  }

  lemma BuildSame(dev: Device, own: Owners, k: nat, bytes: bool, st: EngineState, u: EngineState, s: Stream, t: Stream)
    requires BothInOrder(dev, own, k, bytes, st, u, s, t) && s.task.Building?
    ensures StillSame(dev, own, k, bytes, st, u, s, t)
  {
    if s.task.rest == [] {
      SubmitSame(dev, own, k, bytes, st.gpu, u.gpu, s.task.built);
      FinishSame(bytes, s, t, Ack, Ack);
    } else {
      var raw := s.task.rest[0];
      assert raw in s.task.rest;
      CommandsAgree(dev, st.tables, u.tables, raw) by { hide SameGpu; }
      var made := BuildCommands(dev, st.tables, raw);
      if made.Err? { FinishSame(bytes, s, t, made.error, made.error); }
    }
    hide QueueSubmit, BuildCommands, SameGpu, SameTables, Finish;
  }

  lemma ReadSame(dev: Device, own: Owners, k: nat, bytes: bool, st: EngineState, u: EngineState, s: Stream, t: Stream)
    requires BothInOrder(dev, own, k, bytes, st, u, s, t) && s.task.Reading?
    ensures StillSame(dev, own, k, bytes, st, u, s, t)
  {
    var b, offset, size := s.task.buffer, s.task.offset, s.task.size;
    var x, y := Peek(st.gpu.contents, b.serial, offset, size), Peek(u.gpu.contents, b.serial, offset, size);
    if bytes {
      QuietSame(dev, own, k, st.gpu, u.gpu);
      assert x == y by { hide QueueSubmit; }
    }
    hide QueueSubmit, Peek, SameGpu, SameTables, Finish;
    FinishSame(bytes, s, t, if x.Some? then BufferData(x.value) else ErrorResponse(Internal, MapFailed),
      if y.Some? then BufferData(y.value) else ErrorResponse(Internal, MapFailed));
  }

  lemma StoreSame(dev: Device, own: Owners, k: nat, bytes: bool, st: EngineState, u: EngineState, s: Stream, t: Stream)
    requires BothInOrder(dev, own, k, bytes, st, u, s, t) && (s.task.Storing? || s.task.Flushing?)
    ensures StillSame(dev, own, k, bytes, st, u, s, t)
  {
    FinishSame(bytes, s, t, Ack, Ack);
    match s.task
    case Storing(r, o) =>
      forall q | own(q) == k ensures Lookup(Insert(st.tables, r, o), q) == Lookup(Insert(u.tables, r, o), q) {
        InsertLookup(st.tables, r, o, q);
        InsertLookup(u.tables, r, o, q);
      }
      hide SameGpu, Lookup, Insert, Finish;
    case Flushing =>
      SubmitSame(dev, own, k, bytes, st.gpu, u.gpu, []);
      hide QueueSubmit, SameGpu, SameTables, Finish;
  }

  /** A stream's own section does the same on any two engines that look the same to it. */
  lemma TurnSame(dev: Device, own: Owners, k: nat, bytes: bool, st: EngineState, u: EngineState, s: Stream, t: Stream)
    requires BothInOrder(dev, own, k, bytes, st, u, s, t)
    ensures StillSame(dev, own, k, bytes, st, u, s, t)
  {
    if s.task.Idle? && s.todo == [] {
    } else {
      assert s.task == t.task && s.todo == t.todo;
      hide BothInOrder, StillSame, Turn;
      if s.task.Building? { BuildSame(dev, own, k, bytes, st, u, s, t); }
      else if s.task.Reading? { ReadSame(dev, own, k, bytes, st, u, s, t); }
      else if s.task.Storing? || s.task.Flushing? { StoreSame(dev, own, k, bytes, st, u, s, t); }
      else if Creates(s.todo[0]).Some? { CreateSame(dev, own, k, bytes, st, u, s, t); }
      else if s.todo[0].WriteBuffer? { WriteSame(dev, own, k, bytes, st, u, s, t); }
      else if s.todo[0].MapBufferForRead? || s.todo[0].Submit? { MapSame(dev, own, k, bytes, st, u, s, t); }
      else { OtherSame(dev, own, k, bytes, st, u, s, t); }
    }
  }

  // ---- any interleaving ----

  /** All the streams on one engine, one section at a time in the order of `schedule`. */
  function Together(dev: Device, st: EngineState, ss: seq<Stream>, schedule: seq<nat>): (r: (EngineState, seq<Stream>))
    ensures |r.1| == |ss|
    decreases |schedule|
  {
    if schedule == [] then (st, ss)
    else
      var (e, ts) := Together(dev, st, ss, schedule[..|schedule| - 1]);
      var k := schedule[|schedule| - 1];
      if k >= |ss| then (e, ts)
      else
        var (next, t) := Turn(dev, e, ts[k]);
        (next, ts[k := t])
  }

  function TurnsOf(k: nat, schedule: seq<nat>): nat
    decreases |schedule|
  {
    if schedule == [] then 0
    else TurnsOf(k, schedule[..|schedule| - 1]) + if schedule[|schedule| - 1] == k then 1 else 0
  }

  /** The streams that do nothing to buffers but move bytes. */
  type Movers = nat -> bool

  /** Every stream keeps to its own ids and is between sections as it should be. */
  ghost predicate AllInOrder(dev: Device, own: Owners, bytes: Movers, st: EngineState, ss: seq<Stream>) {
    forall k: nat :: k < |ss| ==> InOrder(dev, own, k, bytes(k), st, ss[k])
  }

  lemma OneTurnInOrder(dev: Device, own: Owners, bytes: Movers, st: EngineState, ss: seq<Stream>, j: nat)
    requires AllInOrder(dev, own, bytes, st, ss) && j < |ss|
    ensures var (e, t) := Turn(dev, st, ss[j]); AllInOrder(dev, own, bytes, e, ss[j := t])
  {
    TurnInOrder(dev, own, j, bytes(j), st, ss[j]);
    hide Turn, StreamOk, EngineOk;
    var (e, t) := Turn(dev, st, ss[j]);
    var ts := ss[j := t];
    forall k: nat | k < |ts| ensures InOrder(dev, own, k, bytes(k), e, ts[k]) {
      assert InOrder(dev, own, k, bytes(k), st, ss[k]);
    }
  }

  lemma {:induction false} TogetherInOrder(dev: Device, own: Owners, bytes: Movers, st: EngineState, ss: seq<Stream>,
      schedule: seq<nat>)
    requires AllInOrder(dev, own, bytes, st, ss)
    ensures var (e, ts) := Together(dev, st, ss, schedule); AllInOrder(dev, own, bytes, e, ts)
    decreases |schedule|
  {
    hide AllInOrder, Turn;
    if schedule != [] {
      var less := schedule[..|schedule| - 1];
      TogetherInOrder(dev, own, bytes, st, ss, less);
      var (e, ts) := Together(dev, st, ss, less);
      if schedule[|schedule| - 1] < |ss| { OneTurnInOrder(dev, own, bytes, e, ts, schedule[|schedule| - 1]); }
    }
  }

  lemma {:induction false} AloneInOrder(dev: Device, own: Owners, k: nat, bytes: bool, st: EngineState, s: Stream,
      n: nat)
    requires InOrder(dev, own, k, bytes, st, s)
    ensures var (e, t) := Alone(dev, st, s, n); InOrder(dev, own, k, bytes, e, t)
  {
    hide InOrder, Turn;
    if n > 0 {
      AloneInOrder(dev, own, k, bytes, st, s, n - 1);
      var (e, t) := Alone(dev, st, s, n - 1);
      TurnInOrder(dev, own, k, bytes, e, t);
    }
  }

  lemma SameThrough(dev: Device, own: Owners, k: nat, bytes: bool, a: EngineState, b: EngineState, c: EngineState)
    requires SameFor(dev, own, k, bytes, a, b) && SameFor(dev, own, k, bytes, a, c)
    ensures SameFor(dev, own, k, bytes, b, c)
  {
    hide Settle, Lookup;
  }

  /** Stream `k` only moves bytes, and what the others do to buffers stays within their own. */
  ghost predicate Shielded(dev: Device, bytes: Movers, n: nat, k: nat) {
    bytes(k) ==> ShadeIsLocal(dev) || forall j: nat :: j < n ==> bytes(j)
  }

  /** Non-interference. Under any schedule of critical sections, each stream has answered the same
      actions, is inside the same action at the same point and sees the same table entries as if its
      turns had been the only ones. When the stream only moves bytes (`bytes(k)`), its responses and
      the contents of its buffers are the same too, whatever passes the other streams run; otherwise
      its responses are the same up to the outcome of reads, which its own shaders decide. */
  lemma {:induction false} StreamsDoNotInterfere(
      dev: Device, own: Owners, bytes: Movers, st: EngineState, ss: seq<Stream>, schedule: seq<nat>, k: nat)
    requires AllInOrder(dev, own, bytes, st, ss) && k < |ss| && Shielded(dev, bytes, |ss|, k)
    ensures var (e, ts) := Together(dev, st, ss, schedule);
      var (u, t) := Alone(dev, st, ss[k], TurnsOf(k, schedule));
      SameStream(bytes(k), ts[k], t) && SameFor(dev, own, k, bytes(k), e, u)
    decreases |schedule|
  {
    hide Turn, SameFor, InOrder, ShadeIsLocal;
    if schedule == [] {
      assert SameFor(dev, own, k, bytes(k), st, st) by { Reflexive(dev, own, k, bytes(k), st); }
    } else {
      var less, j := schedule[..|schedule| - 1], schedule[|schedule| - 1];
      StreamsDoNotInterfere(dev, own, bytes, st, ss, less, k);
      var (e, ts) := Together(dev, st, ss, less);
      var (u, t) := Alone(dev, st, ss[k], TurnsOf(k, less));
      TogetherInOrder(dev, own, bytes, st, ss, less);
      AloneInOrder(dev, own, k, bytes(k), st, ss[k], TurnsOf(k, less));
      if j == k {
        assert InOrder(dev, own, k, bytes(k), e, ts[k]);
        TurnSame(dev, own, k, bytes(k), e, u, ts[k], t);
        hide SameStream;
        assert StillSame(dev, own, k, bytes(k), e, u, ts[k], t);
      } else if j < |ss| {
        assert InOrder(dev, own, j, bytes(j), e, ts[j]);
        TurnForeign(dev, own, j, k, bytes(k), bytes(j), e, ts[j]);
        SameThrough(dev, own, k, bytes(k), e, Turn(dev, e, ts[j]).0, u);
      }
    }
  }

  lemma Reflexive(dev: Device, own: Owners, k: nat, bytes: bool, st: EngineState)
    ensures SameFor(dev, own, k, bytes, st, st)
  {
    hide Settle;
  }

  predicate Unbegun(dev: Device, own: Owners, k: nat, bytes: bool, s: Stream) {
    && s.task == Idle
    && (forall a :: a in s.todo ==> OwnAction(dev, own, k, a) && (bytes ==> TransferAction(dev, a)))
  }

  /** A new engine and streams that have not begun are in order as soon as ids are disjoint. */
  lemma BeginsInOrder(dev: Device, own: Owners, bytes: Movers, st: EngineState, ss: seq<Stream>)
    requires st.gpu.staged == [] && st.gpu.log == [] && st.tables.buffers == map[] && st.tables.bindGroups == map[]
    requires forall k: nat :: k < |ss| ==> Unbegun(dev, own, k, bytes(k), ss[k])
    ensures AllInOrder(dev, own, bytes, st, ss)
  {
    hide OwnAction, TransferAction, Binds;
  }
}
