/** Mapped buffers in the drop-in (dispatch.rs:346-386, 411-458, 487-501, 828-845): a buffer created
    mapped keeps a local staging copy; ranges of it are handed out by value, folded back when they
    are dropped, and shipped to the server as one write when the buffer is unmapped. */
module Mapping {
  import opened Basics
  import opened Protocol
  import opened Gpu
  import opened Tables
  import opened Engine
  import opened Local
  import opened Failures

  // ---- the drop-in's objects ----

  datatype MapState = ReadMap(bytes: Bytes) | WriteMap(staging: array<byte>)

  function MapLength(m: MapState): nat {
    match m
    case ReadMap(bytes) => |bytes|
    case WriteMap(staging) => staging.Length
  }

  datatype MappedRange = ReadRange(bytes: Bytes) | WriteRange(owned: array<byte>, slot: DropInBuffer, offset: nat)

  /** What a drop does to the staging bytes: nothing unless they still hold the whole range. */
  function FoldBack(staging: Bytes, offset: nat, owned: Bytes): Bytes {
    if offset + |owned| <= |staging| then Splice(staging, offset, owned) else staging
  }

  class DropInBuffer {
    const id: BufferId
    var mapped: Option<MapState>

    constructor (id: BufferId)
      ensures this.id == id && mapped == None
    {
      this.id, mapped := id, None;
    }

    constructor MappedAtCreation(id: BufferId, size: nat)
      ensures this.id == id && mapped.Some? && mapped.value.WriteMap?
      ensures fresh(mapped.value.staging) && mapped.value.staging[..] == Zeros(size)
    {
      var staging := new byte[size](i => 0);
      this.id, mapped := id, Some(WriteMap(staging));
      assert staging[..] == Zeros(size);
    }

    /** The reply to a read map arrives: its bytes are kept for the ranges to come. */
    method MapAsync(reply: Response) returns (ok: bool)
      modifies this
      ensures ok <==> reply.BufferData?
      ensures mapped == if ok then Some(ReadMap(reply.data)) else old(mapped)
    {
      ok := reply.BufferData?;
      if ok { mapped := Some(ReadMap(reply.data)); }
    }

    /** The caller must have mapped the buffer and must stay inside the map. */
    method GetMappedRange(start: nat, end: nat) returns (r: MappedRange)
      requires mapped.Some? && start <= end <= MapLength(mapped.value)
      ensures mapped.value.ReadMap? ==> r == ReadRange(mapped.value.bytes[start..end])
      ensures mapped.value.WriteMap? ==>
        r.WriteRange? && fresh(r.owned) && r.slot == this && r.offset == start
        && r.owned[..] == mapped.value.staging[start..end]
    {
      match mapped.value
      case ReadMap(bytes) => r := ReadRange(bytes[start..end]);
      case WriteMap(staging) =>
        var owned := new byte[end - start](i requires 0 <= i < end - start reads staging => staging[start + i]);
        r := WriteRange(owned, this, start);
    }

    /** The write to enqueue, if there is one. */
    method Unmap() returns (shipped: Option<Action>)
      modifies this
      ensures mapped == None
      ensures shipped == if old(mapped).Some? && old(mapped).value.WriteMap?
        then Some(WriteBuffer(id, 0, old(mapped.value.staging[..]))) else None
    {
      var taken := mapped;
      mapped := None;
      if taken.Some? && taken.value.WriteMap? {
        return Some(WriteBuffer(id, 0, taken.value.staging[..]));
      }
      return None;
    }
  }

  /** Dropping a write range copies it into the staging in place. */
  method DropRange(r: MappedRange)
    modifies
      if r.WriteRange? && r.slot.mapped.Some? && r.slot.mapped.value.WriteMap?
      then {r.slot.mapped.value.staging} else {}
    ensures r.WriteRange? && r.slot.mapped.Some? && r.slot.mapped.value.WriteMap? ==>
      r.slot.mapped.value.staging[..]
        == FoldBack(old(r.slot.mapped.value.staging[..]), r.offset, old(r.owned[..]))
  {
    if r.WriteRange? && r.slot.mapped.Some? && r.slot.mapped.value.WriteMap? {
      var staging, owned := r.slot.mapped.value.staging, r.owned;
      if r.offset + owned.Length <= staging.Length {
        forall i | 0 <= i < owned.Length {
          staging[r.offset + i] := owned[i];
        }
        assert staging[..] == Splice(old(staging[..]), r.offset, old(owned[..]));
      }
    }
  }

  /** What the drop-in asks the server for, and the map it starts with. */
  method CreateBuffer(id: BufferId, desc: BufferDescriptor) returns (a: Action, buffer: DropInBuffer)
    ensures a == Action.CreateBuffer(id, desc.(
      usage := if desc.mappedAtCreation then desc.usage + {CopyDst} else desc.usage,
      mappedAtCreation := false))
    ensures buffer.id == id && fresh(buffer)
    ensures buffer.mapped.Some? <==> desc.mappedAtCreation
    ensures buffer.mapped.Some? ==>
      buffer.mapped.value.WriteMap? && fresh(buffer.mapped.value.staging)
      && buffer.mapped.value.staging[..] == Zeros(desc.size)
  {
    if desc.mappedAtCreation {
      var sent := desc.(usage := desc.usage + {CopyDst});
      sent := sent.(mappedAtCreation := false);
      a := Action.CreateBuffer(id, sent);
      buffer := new DropInBuffer.MappedAtCreation(id, desc.size);
    } else {
      a := Action.CreateBuffer(id, desc);
      buffer := new DropInBuffer(id);
    }
  }

  // ---- what a program sees: a byte array with a history ----

  /** `data` written at position `at` of the buffer. */
  datatype Edit = Edit(at: nat, data: Bytes)

  /** The last byte written at a position, or zero. */
  function LastWrite(history: seq<Edit>, i: nat): byte
    decreases |history|
  {
    if history == [] then 0
    else
      var e := history[|history| - 1];
      if e.at <= i < e.at + |e.data| then e.data[i - e.at] else LastWrite(history[..|history| - 1], i)
  }

  function Image(history: seq<Edit>, start: nat, end: nat): Bytes
    requires start <= end
  {
    seq<byte>(end - start, i requires 0 <= i < end - start => LastWrite(history, start + i))
  }

  // ---- any program of range acquisitions, edits and drops ----

  datatype Live = Live(offset: nat, owned: Bytes)

  datatype MapRun = MapRun(staging: Bytes, live: map<nat, Live>, history: seq<Edit>)

  datatype MapStep =
    | Acquire(handle: nat, start: nat, end: nat)
    | Change(handle: nat, at: nat, data: Bytes)
    | Release(handle: nat)

  predicate Covers(l: Live, i: int) { l.offset <= i < l.offset + |l.owned| }

  predicate Free(live: map<nat, Live>, i: int) { forall h :: h in live ==> !Covers(live[h], i) }

  /** A new range is inside the buffer, and apart from every range still live. */
  ghost predicate CanMap(m: MapRun, l: MapStep) {
    match l
    case Acquire(h, start, end) =>
      h !in m.live && start <= end <= |m.staging| && forall i :: start <= i < end ==> Free(m.live, i)
    case Change(h, at, data) => h in m.live && at + |data| <= |m.live[h].owned|
    case Release(h) => h in m.live
  }

  function MapApply(m: MapRun, l: MapStep): MapRun
    requires CanMap(m, l)
  {
    match l
    case Acquire(h, start, end) => m.(live := m.live[h := Live(start, m.staging[start..end])])
    case Change(h, at, data) =>
      var r := m.live[h];
      m.(live := m.live[h := Live(r.offset, Splice(r.owned, at, data))],
         history := m.history + [Edit(r.offset + at, data)])
    case Release(h) =>
      m.(staging := FoldBack(m.staging, m.live[h].offset, m.live[h].owned), live := m.live - {h})
  }

  ghost predicate CanMapAll(m: MapRun, ls: seq<MapStep>)
    decreases |ls|, 0
  {
    ls == [] || (CanMapAll(m, ls[..|ls| - 1]) && CanMap(MapAll(m, ls[..|ls| - 1]), ls[|ls| - 1]))
  }

  ghost function MapAll(m: MapRun, ls: seq<MapStep>): MapRun
    requires CanMapAll(m, ls)
    decreases |ls|, 1
  {
    if ls == [] then m else MapApply(MapAll(m, ls[..|ls| - 1]), ls[|ls| - 1])
  }

  function MapStart(size: nat): MapRun { MapRun(Zeros(size), map[], []) }

  predicate RangesFit(live: map<nat, Live>, size: nat) {
    forall h :: h in live ==> live[h].offset + |live[h].owned| <= size
  }

  ghost predicate RangesApart(live: map<nat, Live>) {
    forall h, g, i :: h in live && g in live && h != g && Covers(live[h], i) ==> !Covers(live[g], i)
  }

  ghost predicate RangeHolds(l: Live, history: seq<Edit>) {
    forall i: nat :: Covers(l, i) ==> l.owned[i - l.offset] == LastWrite(history, i)
  }

  ghost predicate RestHolds(staging: Bytes, live: map<nat, Live>, history: seq<Edit>) {
    forall i: nat :: i < |staging| && Free(live, i) ==> staging[i] == LastWrite(history, i)
  }

  /** A live range holds the last writes; so does the staging, wherever no range is live. */
  ghost predicate MapInv(m: MapRun) {
    && RangesFit(m.live, |m.staging|)
    && RangesApart(m.live)
    && (forall h :: h in m.live ==> RangeHolds(m.live[h], m.history))
    && RestHolds(m.staging, m.live, m.history)
  }

  lemma LastWriteAfter(history: seq<Edit>, e: Edit, i: nat)
    ensures LastWrite(history + [e], i) ==
      if e.at <= i < e.at + |e.data| then e.data[i - e.at] else LastWrite(history, i)
  {
    assert (history + [e])[..|history|] == history;
  }

  lemma AcquireKeeps(m: MapRun, h: nat, start: nat, end: nat)
    requires MapInv(m) && CanMap(m, Acquire(h, start, end))
    ensures MapInv(MapApply(m, Acquire(h, start, end)))
  {
    hide LastWrite;
    var n := MapApply(m, Acquire(h, start, end));
    assert forall i :: Free(n.live, i) ==> Free(m.live, i) by {
      forall i | Free(n.live, i) ensures Free(m.live, i) {
        forall g | g in m.live ensures !Covers(m.live[g], i) { assert g in n.live && n.live[g] == m.live[g]; }
      }
    }
    forall i | Covers(n.live[h], i) ensures Free(m.live, i) && n.live[h].owned[i - start] == LastWrite(m.history, i) {
      assert n.live[h].owned[i - start] == m.staging[i];
    }
  }

  /** The range edited holds the edit; a range that does not meet the edit is unaffected. */
  lemma EditedRangeHolds(l: Live, history: seq<Edit>, at: nat, data: Bytes)
    requires RangeHolds(l, history) && at + |data| <= |l.owned|
    ensures RangeHolds(Live(l.offset, Splice(l.owned, at, data)), history + [Edit(l.offset + at, data)])
  {
    var e := Edit(l.offset + at, data);
    forall i: nat ensures LastWrite(history + [e], i) ==
      if e.at <= i < e.at + |e.data| then e.data[i - e.at] else LastWrite(history, i)
    {
      LastWriteAfter(history, e, i);
    }
    hide LastWrite;
  }

  lemma OtherRangeHolds(l: Live, history: seq<Edit>, e: Edit)
    requires RangeHolds(l, history) && forall i :: e.at <= i < e.at + |e.data| ==> !Covers(l, i)
    ensures RangeHolds(l, history + [e])
  {
    forall i: nat | Covers(l, i) ensures LastWrite(history + [e], i) == LastWrite(history, i) {
      LastWriteAfter(history, e, i);
    }
    hide LastWrite;
  }

  lemma RestUnedited(staging: Bytes, live: map<nat, Live>, history: seq<Edit>, e: Edit, h: nat)
    requires RestHolds(staging, live, history) && h in live
    requires forall i :: e.at <= i < e.at + |e.data| ==> Covers(live[h], i)
    ensures RestHolds(staging, live, history + [e])
  {
    forall i: nat | i < |staging| && Free(live, i) ensures LastWrite(history + [e], i) == LastWrite(history, i) {
      assert !Covers(live[h], i);
      LastWriteAfter(history, e, i);
    }
    hide LastWrite;
  }

  lemma SameCover(live: map<nat, Live>, h: nat, l: Live)
    requires h in live && l.offset == live[h].offset && |l.owned| == |live[h].owned|
    ensures forall g, i :: g in live ==> (Covers(live[h := l][g], i) <==> Covers(live[g], i))
    ensures forall i :: Free(live[h := l], i) <==> Free(live, i)
  {
  }

  lemma ChangeKeeps(m: MapRun, h: nat, at: nat, data: Bytes)
    requires MapInv(m) && CanMap(m, Change(h, at, data))
    ensures MapInv(MapApply(m, Change(h, at, data)))
  {
    var n, e := MapApply(m, Change(h, at, data)), Edit(m.live[h].offset + at, data);
    SameCover(m.live, h, n.live[h]);
    EditedRangeHolds(m.live[h], m.history, at, data);
    RestUnedited(m.staging, m.live, m.history, e, h);
    hide RangeHolds, Splice, LastWrite;
    forall g | g in n.live ensures RangeHolds(n.live[g], n.history) {
      if g != h { OtherRangeHolds(m.live[g], m.history, e); }
    }
    hide Free, Covers;
  }

  lemma ReleaseKeeps(m: MapRun, h: nat)
    requires MapInv(m) && CanMap(m, Release(h))
    ensures MapInv(MapApply(m, Release(h)))
  {
    hide LastWrite, Splice;
    var n := MapApply(m, Release(h));
    forall i: nat | i < |n.staging| && Free(n.live, i) ensures n.staging[i] == LastWrite(n.history, i) {
      if !Covers(m.live[h], i) {
        forall g | g in m.live ensures !Covers(m.live[g], i) { if g != h { assert g in n.live; } }
        assert Free(m.live, i);
      }
    }
  }

  lemma {:induction false} MapRunKeeps(size: nat, ls: seq<MapStep>)
    requires CanMapAll(MapStart(size), ls)
    ensures MapInv(MapAll(MapStart(size), ls)) && |MapAll(MapStart(size), ls).staging| == size
    decreases |ls|
  {
    if ls != [] {
      var less := ls[..|ls| - 1];
      MapRunKeeps(size, less);
      var m := MapAll(MapStart(size), less);
      hide MapInv;
      match ls[|ls| - 1] {
        case Acquire(h, start, end) => AcquireKeeps(m, h, start, end);
        case Change(h, at, data) => ChangeKeeps(m, h, at, data);
        case Release(h) => ReleaseKeeps(m, h);
      }
    }
  }

  lemma FreeImage(m: MapRun, start: nat, end: nat)
    requires MapInv(m) && start <= end <= |m.staging| && (forall i :: start <= i < end ==> Free(m.live, i))
    ensures m.staging[start..end] == Image(m.history, start, end)
  {
    hide LastWrite, Free, RangesApart, RangeHolds;
    assert forall i: nat :: start <= i < end ==> m.staging[i] == LastWrite(m.history, i);
  }

  /** Mapping refines a byte array. Whatever ranges were acquired, edited and dropped, as long as
      ranges live at the same time were apart: outside the ranges still live, the staging holds the
      last byte written at each position and zero elsewhere; and a range acquired now holds exactly
      all earlier edits to it, dropped ranges' edits included. */
  lemma StagingIsLastWrite(size: nat, ls: seq<MapStep>)
    requires CanMapAll(MapStart(size), ls)
    ensures var m := MapAll(MapStart(size), ls);
      && |m.staging| == size
      && (m.live == map[] ==> m.staging == Image(m.history, 0, size))
      && (forall h: nat, start: nat, end: nat :: CanMap(m, Acquire(h, start, end)) ==>
            m.staging[start..end] == Image(m.history, start, end))
  {
    MapRunKeeps(size, ls);
    var m := MapAll(MapStart(size), ls);
    hide MapInv, Image, MapAll, CanMapAll;
    if m.live == map[] {
      FreeImage(m, 0, size);
      assert m.staging[0..size] == m.staging;
    }
    forall h: nat, start: nat, end: nat | CanMap(m, Acquire(h, start, end))
      ensures m.staging[start..end] == Image(m.history, start, end)
    {
      FreeImage(m, start, end);
    }
  }

  /** Keeping ranges apart matters: a range acquired before an edit to the same bytes and dropped
      after it erases the edit. */
  lemma OverlapErasesEdits(staging: Bytes, offset: nat, edited: Bytes)
    requires offset + |edited| <= |staging|
    ensures var stale := staging[offset..offset + |edited|];
      FoldBack(FoldBack(staging, offset, edited), offset, stale) == staging
  {
  }

  lemma {:induction false} CanMapPrefix(m: MapRun, ls: seq<MapStep>, n: nat)
    requires CanMapAll(m, ls) && n < |ls|
    ensures CanMapAll(m, ls[..n]) && CanMapAll(m, ls[..n + 1]) && CanMap(MapAll(m, ls[..n]), ls[n])
    ensures MapAll(m, ls[..n + 1]) == MapApply(MapAll(m, ls[..n]), ls[n])
    decreases |ls|
  {
    hide CanMap, MapApply;
    if n + 1 < |ls| {
      CanMapPrefix(m, ls[..|ls| - 1], n);
      assert ls[..|ls| - 1][..n + 1] == ls[..n + 1] && ls[..|ls| - 1][..n] == ls[..n];
    } else {
      assert ls[..n + 1] == ls;
    }
    assert ls[..n + 1][..n] == ls[..n];
  }

  // ---- the same program on the drop-in's objects ----

  function OwnedArrays(ranges: map<nat, MappedRange>): set<object> {
    set h | h in ranges && ranges[h].WriteRange? :: ranges[h].owned
  }

  /** The objects hold what the run says: the staging, and one separate array per live range. */
  ghost predicate Shows(buffer: DropInBuffer, staging: array<byte>, ranges: map<nat, MappedRange>, m: MapRun)
    reads buffer, staging, OwnedArrays(ranges)
  {
    && buffer.mapped == Some(WriteMap(staging)) && staging[..] == m.staging
    && ranges.Keys == m.live.Keys
    && (forall h :: h in ranges ==>
          && ranges[h].WriteRange? && ranges[h].slot == buffer && ranges[h].owned != staging
          && m.live[h] == Live(ranges[h].offset, ranges[h].owned[..]))
    && (forall h, g :: h in ranges && g in ranges && h != g ==> ranges[h].owned != ranges[g].owned)
  }

  /** The program writes into a range it holds. */
  method EditRange(owned: array<byte>, at: nat, data: Bytes)
    requires at + |data| <= owned.Length
    modifies owned
    ensures owned[..] == Splice(old(owned[..]), at, data)
  {
    forall i | 0 <= i < |data| {
      owned[at + i] := data[i];
    }
  }

  method StepMapped(buffer: DropInBuffer, staging: array<byte>, ranges: map<nat, MappedRange>, l: MapStep,
      ghost m: MapRun)
    returns (after: map<nat, MappedRange>)
    requires Shows(buffer, staging, ranges, m) && CanMap(m, l)
    modifies staging, OwnedArrays(ranges)
    ensures Shows(buffer, staging, after, MapApply(m, l))
    ensures forall o :: o in OwnedArrays(after) ==> o in OwnedArrays(ranges) || fresh(o)
  {
    match l {
      case Acquire(h, lo, hi) =>
        var r := buffer.GetMappedRange(lo, hi);
        after := ranges[h := r];
      case Change(h, at, data) =>
        after := ranges;
        EditRange(ranges[h].owned, at, data);
      case Release(h) =>
        DropRange(ranges[h]);
        after := ranges - {h};
    }
  }

  /** Creates a mapped buffer, runs any such program on it and unmaps it: exactly one write is
      shipped, of the whole staging the program built up. */
  method RunMapped(id: BufferId, desc: BufferDescriptor, ls: seq<MapStep>)
    returns (created: Action, shipped: Option<Action>)
    requires desc.mappedAtCreation && CanMapAll(MapStart(desc.size), ls)
    ensures created == Action.CreateBuffer(id, desc.(usage := desc.usage + {CopyDst}, mappedAtCreation := false))
    ensures shipped == Some(WriteBuffer(id, 0, MapAll(MapStart(desc.size), ls).staging))
  {
    hide CanMap, MapApply;
    var a, buffer := CreateBuffer(id, desc);
    var staging := buffer.mapped.value.staging;
    var ranges: map<nat, MappedRange> := map[];
    ghost var start := MapStart(desc.size);
    assert ls[..0] == [];
    assert CanMapAll(start, ls[..|ls|]) by { assert ls[..|ls|] == ls; }
    for n := 0 to |ls|
      invariant CanMapAll(start, ls[..n])
      invariant Shows(buffer, staging, ranges, MapAll(start, ls[..n]))
      invariant fresh(staging) && fresh(buffer) && forall o :: o in OwnedArrays(ranges) ==> fresh(o)
    {
      CanMapPrefix(start, ls, n);
      ranges := StepMapped(buffer, staging, ranges, ls[n], MapAll(start, ls[..n]));
    }
    assert ls[..|ls|] == ls;
    shipped := buffer.Unmap();
    created := a;
  }

  // ---- at the server ----

  ghost predicate KeepsSizes(m: Contents, n: Contents) {
    forall s :: s in m ==> s in n && |n[s]| == |m[s]|
  }

  /** Nothing a pass or a texture copy does changes how long a buffer is. */
  ghost predicate ShadeKeepsSizes(dev: Device) {
    forall log, m, c :: KeepsSizes(m, dev.shade(log, m, c))
  }

  lemma EffectKeepsSizes(dev: Device, g: GpuState, c: GpuCall)
    requires ShadeKeepsSizes(dev)
    ensures KeepsSizes(g.contents, Effect(dev, g, c))
  {
    hide Splice, Zeros;
  }

  lemma {:induction false} ExecAllKeepsSizes(dev: Device, g: GpuState, cs: seq<GpuCall>)
    requires ShadeKeepsSizes(dev)
    ensures KeepsSizes(g.contents, ExecAll(dev, g, cs).contents)
    decreases |cs|
  {
    hide Effect, ShadeKeepsSizes;
    if cs != [] {
      EffectKeepsSizes(dev, g, cs[0]);
      ExecAllKeepsSizes(dev, Exec(dev, g, cs[0]), cs[1..]);
    }
  }

  lemma SubmitKeepsSizes(dev: Device, g: GpuState, c: seq<GpuCall>, built: seq<seq<GpuCall>>)
    requires ShadeKeepsSizes(dev)
    ensures KeepsSizes(g.contents, QueueSubmit(dev, g.(staged := g.staged + c), built).contents)
  {
    hide ExecAll, KeepsSizes, ShadeKeepsSizes;
    ExecAllKeepsSizes(dev, g.(staged := []), g.staged + c + Flatten(built));
  }

  /** The buffer an id stands for, and its length. */
  predicate Stands(st: EngineState, id: BufferId, b: GpuBuffer, size: nat) {
    && id in st.tables.buffers && st.tables.buffers[id] == b && b.serial.id == id
    && b.serial in st.gpu.contents && |st.gpu.contents[b.serial]| == size
  }

  lemma CreateKeepsBuffer(dev: Device, st: EngineState, a: Action, id: BufferId, b: GpuBuffer, size: nat)
    requires Stands(st, id, b, size) && Creates(a).Some? && Creates(a) != Some(BufferR(id))
    ensures Stands(Handle(dev, st, a).0, id, b, size)
  {
    hide Assemble, Zeros, HandleQueue;
    if Construct(st.tables, st.gpu, a).Ok? {
      InsertLookup(st.tables, Creates(a).value, Construct(st.tables, st.gpu, a).value.1, BufferR(id));
    }
  }

  lemma QueueKeepsBuffer(dev: Device, st: EngineState, a: Action, id: BufferId, b: GpuBuffer, size: nat)
    requires Stands(st, id, b, size) && ShadeKeepsSizes(dev)
    requires a.WriteBuffer? || a.WriteTexture? || a.Submit? || a.MapBufferForRead?
    ensures Stands(HandleQueue(dev, st, a).0, id, b, size)
  {
    hide QueueSubmit, ShadeKeepsSizes, BuildSubmission;
    match a
    case WriteBuffer(t, offset, data) =>
      if t in st.tables.buffers {
        SubmitKeepsSizes(dev, st.gpu, [GWriteBuffer(st.tables.buffers[t], offset, data)], []);
      }
    case WriteTexture(t, texels, data) =>
      if t in st.tables.textures {
        SubmitKeepsSizes(dev, st.gpu, [GWriteTexture(st.tables.textures[t], texels, data)], []);
      }
    case Submit(recordings) =>
      if BuildSubmission(dev, st.tables, recordings).Ok? {
        assert st.gpu.(staged := st.gpu.staged + []) == st.gpu by { assert st.gpu.staged + [] == st.gpu.staged; }
        SubmitKeepsSizes(dev, st.gpu, [], BuildSubmission(dev, st.tables, recordings).value);
      }
    case MapBufferForRead(_, _, _) =>
  }

  lemma HandleKeepsBuffer(dev: Device, st: EngineState, a: Action, id: BufferId, b: GpuBuffer, size: nat)
    requires Stands(st, id, b, size) && ShadeKeepsSizes(dev)
    requires Creates(a) != Some(BufferR(id)) && a != Destroy(BufferR(id))
    ensures Stands(Handle(dev, st, a).0, id, b, size)
  {
    if Creates(a).Some? {
      CreateKeepsBuffer(dev, st, a, id, b, size);
    } else if a.WriteBuffer? || a.WriteTexture? || a.Submit? || a.MapBufferForRead? {
      hide HandleQueue, Construct;
      QueueKeepsBuffer(dev, st, a, id, b, size);
    } else {
      hide HandleQueue, Construct;
    }
  }

  /** Once created, and until it is destroyed, a buffer keeps its object and its length. */
  lemma {:induction false} BufferStands(
      dev: Device, ops: seq<Op>, sent: seq<bool>, c: nat, id: BufferId, desc: BufferDescriptor) returns (b: GpuBuffer)
    requires ShadeKeepsSizes(dev) && LegalTrace(dev, ops) && |sent| == |ops| && BufferR(id) in Known(ops)
    requires c < |ops| && sent[c] && ops[c] == Do(Action.CreateBuffer(id, desc))
    ensures Stands(RemoteRun(dev, Wire(ops, sent)), id, b, desc.size)
    decreases |ops|
  {
    var n := |ops| - 1;
    hide Callable, ShadeKeepsSizes, Stands, Handle, OpRefs;
    RunOneMore(dev, Wire(ops[..n], sent[..n]), ops[n]);
    if c == n {
      b := NewBufferStands(dev, RemoteRun(dev, Wire(ops[..n], sent[..n])), id, desc);
    } else {
      assert ops[..n][c] == ops[c] && sent[..n][c] == sent[c];
      EverCreatedHere(ops[..n], c);
      assert BufferR(id) in Known(ops[..n]) && OpCreates(ops[n]) != Some(BufferR(id));
      b := BufferStands(dev, ops[..n], sent[..n], c, id, desc);
      assert Wire(ops[..n], sent[..n]) + [] == Wire(ops[..n], sent[..n]);
      if sent[n] {
        HandleKeepsBuffer(dev, RemoteRun(dev, Wire(ops[..n], sent[..n])), ToAction(dev, ops[n]), id, b, desc.size);
      }
    }
  }

  lemma NewBufferStands(dev: Device, st: EngineState, id: BufferId, desc: BufferDescriptor) returns (b: GpuBuffer)
    ensures Stands(Handle(dev, st, Action.CreateBuffer(id, desc)).0, id, b, desc.size)
  {
    b := NewBuffer(st.gpu, id, desc).1;
  }

  lemma {:induction false} EverCreatedHere(ops: seq<Op>, c: nat)
    requires c < |ops| && OpCreates(ops[c]).Some?
    ensures OpCreates(ops[c]).value in EverCreated(ops)
    decreases |ops|
  {
    if c < |ops| - 1 { EverCreatedHere(ops[..|ops| - 1], c); }
  }

  lemma FullWriteReplaces(dev: Device, st: EngineState, id: BufferId, b: GpuBuffer, staging: Bytes)
    requires Stands(st, id, b, |staging|) && ShadeKeepsSizes(dev)
    ensures var e := Handle(dev, st, WriteBuffer(id, 0, staging)).0;
      Stands(e, id, b, |staging|) && e.gpu.contents[b.serial] == staging
  {
    var c, start := GWriteBuffer(b, 0, staging), st.gpu.(staged := []);
    hide ShadeKeepsSizes;
    ExecAllKeepsSizes(dev, start, st.gpu.staged);
    ExecAllAppend(dev, start, st.gpu.staged, [c]);
    var mid := ExecAll(dev, start, st.gpu.staged);
    assert st.gpu.staged + [c] + [] == st.gpu.staged + [c] && [c][1..] == [];
    assert ExecAll(dev, mid, [c]) == ExecAll(dev, Exec(dev, mid, c), [c][1..]) == Exec(dev, mid, c);
    assert Splice(mid.contents[b.serial], 0, staging) == staging;
    hide ExecAll, Splice;
  }

  /** What `unmap` ships is what the server's buffer then holds, all of it, whatever happened to the
      buffer since its creation, passes and texture copies included. */
  lemma UnmapPublishes(
      dev: Device, ops: seq<Op>, sent: seq<bool>, c: nat, u: nat, id: BufferId, desc: BufferDescriptor, staging: Bytes)
    requires ShadeKeepsSizes(dev) && LegalTrace(dev, ops) && |sent| == |ops|
    requires c < u < |ops| && sent[c] && sent[u] && |staging| == desc.size
    requires ops[c] == Do(Action.CreateBuffer(id, desc)) && ops[u] == Do(WriteBuffer(id, 0, staging))
    ensures var e := RemoteRun(dev, Wire(ops[..u + 1], sent[..u + 1]));
      && id in e.tables.buffers && e.tables.buffers[id].serial in e.gpu.contents
      && e.gpu.contents[e.tables.buffers[id].serial] == staging
  {
    hide ShadeKeepsSizes, LegalTrace, Known, Handle;
    LegalPrefix(dev, ops, u);
    assert BufferR(id) in OpRefs(dev, ops[u]);
    var b := BufferStands(dev, ops[..u], sent[..u], c, id, desc);
    FullWriteReplaces(dev, RemoteRun(dev, Wire(ops[..u], sent[..u])), id, b, staging);
    assert ops[..u + 1][..u] == ops[..u] && sent[..u + 1][..u] == sent[..u];
    RunOneMore(dev, Wire(ops[..u], sent[..u]), ops[u]);
    hide RemoteRun, Wire;
  }

  /** The whole life of a buffer mapped at creation: after the write that `RunMapped` ships, the
      server's buffer holds the last byte the program wrote at each position, and zero elsewhere. */
  lemma MappedLifeIsPublished(
      dev: Device, ops: seq<Op>, sent: seq<bool>, c: nat, u: nat, id: BufferId, desc: BufferDescriptor,
      ls: seq<MapStep>)
    requires ShadeKeepsSizes(dev) && LegalTrace(dev, ops) && |sent| == |ops|
    requires c < u < |ops| && sent[c] && sent[u]
    requires CanMapAll(MapStart(desc.size), ls) && MapAll(MapStart(desc.size), ls).live == map[]
    requires ops[c] == Do(Action.CreateBuffer(id, desc.(usage := desc.usage + {CopyDst}, mappedAtCreation := false)))
    requires ops[u] == Do(WriteBuffer(id, 0, MapAll(MapStart(desc.size), ls).staging))
    ensures var e := RemoteRun(dev, Wire(ops[..u + 1], sent[..u + 1]));
      && id in e.tables.buffers && e.tables.buffers[id].serial in e.gpu.contents
      && var bytes := e.gpu.contents[e.tables.buffers[id].serial];
         |bytes| == desc.size
         && forall i :: 0 <= i < desc.size ==> bytes[i] == LastWrite(MapAll(MapStart(desc.size), ls).history, i)
  {
    hide ShadeKeepsSizes, LegalTrace, CanMapAll, MapAll, RemoteRun, Wire, LastWrite;
    StagingIsLastWrite(desc.size, ls);
    var sentDesc := desc.(usage := desc.usage + {CopyDst}, mappedAtCreation := false);
    UnmapPublishes(dev, ops, sent, c, u, id, sentDesc, MapAll(MapStart(desc.size), ls).staging);
  }

  // ---- read maps ----

  /** The bytes a range of a read map shows: the fetched range, sliced by the bounds asked for; none
      when they run past what was fetched, where the drop-in panics. */
  function ShownByReadMap(contents: Bytes, lo: nat, hi: nat, start: nat, end: nat): Option<Bytes>
    requires lo <= hi <= |contents| && start <= end
  {
    if end <= hi - lo then Some(contents[lo..hi][start..end]) else None
  }

  /** Maps `lo..hi` of a buffer for reading, from the engine, and looks at `start..end` of the map. */
  method ReadThroughMap(engine: Engine, buffer: DropInBuffer, lo: nat, hi: nat, start: nat, end: nat)
    returns (shown: Option<Bytes>)
    requires buffer.id in engine.tables.buffers && engine.tables.buffers[buffer.id].serial in engine.gpu.contents
    requires lo <= hi <= |engine.gpu.contents[engine.tables.buffers[buffer.id].serial]| && start <= end
    modifies engine, buffer
    ensures engine.State() == old(engine.State())
    ensures var contents := old(engine.gpu.contents[engine.tables.buffers[buffer.id].serial]);
      shown == ShownByReadMap(contents, lo, hi, start, end)
  {
    hide Construct, QueueSubmit, BuildSubmission;
    var reply := engine.HandleAction(MapBufferForRead(buffer.id, lo, hi - lo));
    var ok := buffer.MapAsync(reply);
    if end > hi - lo { return None; }
    var r := buffer.GetMappedRange(start, end);
    return Some(r.bytes);
  }

  /** Exactly when the bounds of a range inside a read map show the buffer's bytes at those bounds,
      whatever the buffer holds: the map starts at the beginning of the buffer, or the range is empty
      and its bounds happen to fit. Bytes are fetched from `lo` on but sliced as if from zero. */
  lemma ReadMapShowsTheRange(size: nat, lo: nat, hi: nat, start: nat, end: nat)
    requires lo <= start <= end <= hi <= size
    ensures (forall contents: Bytes :: |contents| == size ==>
        ShownByReadMap(contents, lo, hi, start, end) == Some(contents[start..end]))
      <==> lo == 0 || (start == end && end <= hi - lo)
  {
    if lo > 0 && !(start == end && end <= hi - lo) {
      var contents: Bytes := seq<byte>(size, i => if i == start then 1 else 0);
      assert |contents| == size;
      if end <= hi - lo {
        assert contents[lo..hi][start..end][0] == contents[lo + start] == 0;
        assert contents[start..end][0] == 1;
      }
      assert ShownByReadMap(contents, lo, hi, start, end) != Some(contents[start..end]);
    } else {
      forall contents: Bytes | |contents| == size
        ensures ShownByReadMap(contents, lo, hi, start, end) == Some(contents[start..end])
      {
        assert contents[lo..hi][start..end] == contents[start..end];
      }
    }
  }

  // ---- the ranges `read_range` takes ----

  datatype Bound = Included(n: nat) | Excluded(n: nat) | Unbounded

  function BoundsToOffsetSize(lower: Bound, upper: Bound, total: nat): (nat, nat) {
    var start := match lower case Included(n) => n case Excluded(n) => n + 1 case Unbounded => 0;
    var end := match upper case Included(n) => n + 1 case Excluded(n) => n case Unbounded => total;
    (start, if end >= start then end - start else 0)
  }

  predicate WithinBounds(lower: Bound, upper: Bound, total: nat, i: nat) {
    && (match lower case Included(n) => n <= i case Excluded(n) => n < i case Unbounded => true)
    && (match upper case Included(n) => i <= n case Excluded(n) => i < n case Unbounded => i < total)
  }

  /** The bytes requested are those at exactly the positions the bounds describe; bounds that cross
      describe none. */
  lemma BoundsAreExact(lower: Bound, upper: Bound, total: nat, i: nat)
    ensures var (offset, size) := BoundsToOffsetSize(lower, upper, total);
      offset <= i < offset + size <==> WithinBounds(lower, upper, total, i)
  {
  }
}
