/** The two command recorders: the facade's (client/encoder.rs), whose passes borrow the encoder, and
    the drop-in's (dispatch.rs), whose passes share it and flush when they are dropped. Both turn a
    flat trace of calls into a nested recording. */
module Recorder {
  import opened Basics
  import opened Protocol
  import opened Gpu
  import opened Tables
  import opened Replay
  import opened Parts

  // ---- recording as a function of the trace ----

  datatype Pass =
    | ComputePass(name: Label, compute: seq<ComputeCommand>)
    | RenderPass(name: Label, colors: seq<Option<ColorAttachment>>, depth: Option<DepthStencilAttachment>,
                 render: seq<RenderCommand>)

  datatype Recorded = Recorded(commands: seq<EncoderCommand>, pass: Option<Pass>)

  /** Which call may come next: encoder calls and openings outside a pass, a pass's own calls and its
      close inside it. */
  predicate Accepts(pass: Option<Pass>, c: Call) {
    match c
    case OnEncoder(command) => pass.None? && !IsPass(command)
    case OpenCompute(_) => pass.None?
    case OpenRender(_, _, _) => pass.None?
    case InCompute(_) => pass.Some? && pass.value.ComputePass?
    case CloseCompute => pass.Some? && pass.value.ComputePass?
    case InRender(_) => pass.Some? && pass.value.RenderPass?
    case CloseRender => pass.Some? && pass.value.RenderPass?
  }

  function Flush(p: Pass): EncoderCommand {
    match p
    case ComputePass(name, commands) => BeginComputePass(name, commands)
    case RenderPass(name, colors, depth, commands) => BeginRenderPass(name, colors, depth, commands)
  }

  function Record(r: Recorded, c: Call): Recorded
    requires Accepts(r.pass, c)
  {
    match c
    case OnEncoder(command) => r.(commands := r.commands + [command])
    case OpenCompute(name) => r.(pass := Some(ComputePass(name, [])))
    case OpenRender(name, colors, depth) => r.(pass := Some(RenderPass(name, colors, depth, [])))
    case InCompute(command) => r.(pass := Some(r.pass.value.(compute := r.pass.value.compute + [command])))
    case InRender(command) => r.(pass := Some(r.pass.value.(render := r.pass.value.render + [command])))
    case CloseCompute => Recorded(r.commands + [Flush(r.pass.value)], None)
    case CloseRender => Recorded(r.commands + [Flush(r.pass.value)], None)
  }

  const START: Recorded := Recorded([], None)

  predicate AcceptsAll(cs: seq<Call>)
    decreases |cs|, 0
  {
    cs == [] || (AcceptsAll(cs[..|cs| - 1]) && Accepts(RecordAll(cs[..|cs| - 1]).pass, cs[|cs| - 1]))
  }

  function RecordAll(cs: seq<Call>): Recorded
    requires AcceptsAll(cs)
    decreases |cs|, 1
  {
    if cs == [] then START else Record(RecordAll(cs[..|cs| - 1]), cs[|cs| - 1])
  }

  predicate WellNested(cs: seq<Call>) { AcceptsAll(cs) && RecordAll(cs).pass.None? }

  function Nest(cs: seq<Call>): seq<EncoderCommand>
    requires WellNested(cs)
  {
    RecordAll(cs).commands
  }

  // ---- nesting and flattening are inverse ----

  function PassCalls(p: Option<Pass>): seq<Call> {
    match p
    case None => []
    case Some(ComputePass(name, commands)) =>
      [OpenCompute(name)] + ComputeCalls(commands)
    case Some(RenderPass(name, colors, depth, commands)) =>
      [OpenRender(name, colors, depth)] + RenderCalls(commands)
  }

  function CallsSoFar(r: Recorded): seq<Call> { CallsOfAll(r.commands) + PassCalls(r.pass) }

  lemma FlushCalls(p: Pass)
    ensures CallsOf(Flush(p)) == PassCalls(Some(p)) + [if p.ComputePass? then CloseCompute else CloseRender]
  {
  }

  lemma OneMore(done: seq<EncoderCommand>, c: EncoderCommand)
    ensures CallsOfAll(done + [c]) == CallsOfAll(done) + CallsOf(c)
  {
    hide CallsOf;
    FlatMapAppend(CallsOf, done, [c]);
    FlatMapOne(CallsOf, c);
  }

  lemma PassGrows(r: Recorded, c: Call)
    requires Accepts(r.pass, c) && (c.OpenCompute? || c.OpenRender? || c.InCompute? || c.InRender?)
    ensures PassCalls(Record(r, c).pass) == PassCalls(r.pass) + [c] && Record(r, c).commands == r.commands
  {
    match c
    case InCompute(command) =>
      assert ComputeCalls(r.pass.value.compute + [command]) == ComputeCalls(r.pass.value.compute) + [c];
    case InRender(command) =>
      assert RenderCalls(r.pass.value.render + [command]) == RenderCalls(r.pass.value.render) + [c];
    case _ =>
  }

  lemma RecordKeepsCalls(r: Recorded, c: Call)
    requires Accepts(r.pass, c)
    ensures CallsSoFar(Record(r, c)) == CallsSoFar(r) + [c]
  {
    hide CallsOf, CallsOfAll;
    match c
    case OnEncoder(command) =>
      OneMore(r.commands, command);
      EncoderCall(command);
    case CloseCompute =>
      OneMore(r.commands, Flush(r.pass.value));
      FlushCalls(r.pass.value);
      hide PassCalls, Flush;
      assert PassCalls(None) == [];
    case CloseRender =>
      OneMore(r.commands, Flush(r.pass.value));
      FlushCalls(r.pass.value);
      hide PassCalls, Flush;
      assert PassCalls(None) == [];
    case _ =>
      PassGrows(r, c);
      hide PassCalls, Record;
  }

  lemma EncoderCall(c: EncoderCommand)
    requires !IsPass(c)
    ensures CallsOf(c) == [OnEncoder(c)]
  {
  }

  lemma {:induction false} RecordedCalls(cs: seq<Call>)
    requires AcceptsAll(cs)
    ensures CallsSoFar(RecordAll(cs)) == cs
    decreases |cs|
  {
    if cs != [] {
      RecordedCalls(cs[..|cs| - 1]);
      RecordKeepsCalls(RecordAll(cs[..|cs| - 1]), cs[|cs| - 1]);
    }
  }

  /** A well-nested trace is exactly the calls of the recording made of it. */
  lemma FlattenNest(cs: seq<Call>)
    requires WellNested(cs)
    ensures CallsOfAll(Nest(cs)) == cs
  {
    RecordedCalls(cs);
  }

  lemma RecordNext(cs: seq<Call>, c: Call)
    requires AcceptsAll(cs) && Accepts(RecordAll(cs).pass, c)
    ensures AcceptsAll(cs + [c]) && RecordAll(cs + [c]) == Record(RecordAll(cs), c)
  {
    hide Accepts, Record;
    assert (cs + [c])[..|cs|] == cs;
  }

  lemma {:induction false} RecordCompute(before: seq<Call>, name: Label, commands: seq<ComputeCommand>)
    requires WellNested(before)
    ensures var all := before + [OpenCompute(name)] + ComputeCalls(commands);
      AcceptsAll(all) && RecordAll(all) == Recorded(Nest(before), Some(ComputePass(name, commands)))
    decreases |commands|
  {
    hide AcceptsAll, RecordAll, ComputeCalls;
    var begun := before + [OpenCompute(name)];
    if commands == [] {
      RecordNext(before, OpenCompute(name));
      assert begun + ComputeCalls(commands) == begun;
    } else {
      var less, last := commands[..|commands| - 1], commands[|commands| - 1];
      RecordCompute(before, name, less);
      RecordNext(begun + ComputeCalls(less), InCompute(last));
      assert begun + ComputeCalls(commands) == begun + ComputeCalls(less) + [InCompute(last)];
      assert less + [last] == commands;
    }
  }

  lemma {:induction false} RecordRender(
      before: seq<Call>, name: Label, colors: seq<Option<ColorAttachment>>, depth: Option<DepthStencilAttachment>,
      commands: seq<RenderCommand>)
    requires WellNested(before)
    ensures var all := before + [OpenRender(name, colors, depth)] + RenderCalls(commands);
      AcceptsAll(all) && RecordAll(all) == Recorded(Nest(before), Some(RenderPass(name, colors, depth, commands)))
    decreases |commands|
  {
    hide AcceptsAll, RecordAll, RenderCalls;
    var begun := before + [OpenRender(name, colors, depth)];
    if commands == [] {
      RecordNext(before, OpenRender(name, colors, depth));
      assert begun + RenderCalls(commands) == begun;
    } else {
      var less, last := commands[..|commands| - 1], commands[|commands| - 1];
      RecordRender(before, name, colors, depth, less);
      RecordNext(begun + RenderCalls(less), InRender(last));
      assert begun + RenderCalls(commands) == begun + RenderCalls(less) + [InRender(last)];
      assert less + [last] == commands;
    }
  }

  lemma RecordOne(before: seq<Call>, c: EncoderCommand)
    requires WellNested(before)
    ensures WellNested(before + CallsOf(c)) && Nest(before + CallsOf(c)) == Nest(before) + [c]
  {
    hide AcceptsAll, RecordAll, CallsOfAll, ComputeCalls, RenderCalls;
    match c
    case BeginComputePass(name, commands) =>
      RecordCompute(before, name, commands);
      var all := before + [OpenCompute(name)] + ComputeCalls(commands);
      RecordNext(all, CloseCompute);
      assert before + CallsOf(c) == all + [CloseCompute];
    case BeginRenderPass(name, colors, depth, commands) =>
      RecordRender(before, name, colors, depth, commands);
      var all := before + [OpenRender(name, colors, depth)] + RenderCalls(commands);
      RecordNext(all, CloseRender);
      assert before + CallsOf(c) == all + [CloseRender];
    case _ =>
      EncoderCall(c);
      RecordNext(before, OnEncoder(c));
  }

  /** Every recording is the recording of some well-nested trace, namely of its own calls. */
  lemma {:induction false} NestFlatten(cs: seq<EncoderCommand>)
    ensures WellNested(CallsOfAll(cs)) && Nest(CallsOfAll(cs)) == cs
    decreases |cs|
  {
    if cs != [] {
      var less, last := cs[..|cs| - 1], cs[|cs| - 1];
      NestFlatten(less);
      assert less + [last] == cs;
      FlatMapAppend(CallsOf, less, [last]);
      FlatMapOne(CallsOf, last);
      RecordOne(CallsOfAll(less), last);
    }
  }

  /** Record, then replay: the server issues the calls the program made, no more, no fewer, in the
      same order and with the same arguments, with ids replaced by the objects in its tables. */
  lemma ReplayOfRecording(t: Tables, cs: seq<Call>)
    requires WellNested(cs)
    ensures ReplayCommands(t, Nest(cs)) == ResolveAll(t, cs)
    ensures ReplayCommands(t, Nest(cs)).Ok? ==> MadeOn(t, cs, ReplayCommands(t, Nest(cs)).value)
  {
    hide Resolve, MadeOn;
    FlattenNest(cs);
    ReplayIsFlat(t, Nest(cs));
    if ResolveAll(t, cs).Ok? { ResolvedCallsAreMade(t, cs); }
  }

  lemma {:induction false} AcceptsPrefix(cs: seq<Call>, n: nat)
    requires AcceptsAll(cs) && n < |cs|
    ensures AcceptsAll(cs[..n + 1]) && AcceptsAll(cs[..n])
    ensures Accepts(RecordAll(cs[..n]).pass, cs[n])
    ensures RecordAll(cs[..n + 1]) == Record(RecordAll(cs[..n]), cs[n])
    decreases |cs|
  {
    if n + 1 < |cs| {
      AcceptsPrefix(cs[..|cs| - 1], n);
      assert cs[..|cs| - 1][..n + 1] == cs[..n + 1] && cs[..|cs| - 1][..n] == cs[..n];
    } else {
      assert cs[..n + 1] == cs;
    }
    assert cs[..n + 1][..n] == cs[..n];
  }

  // ---- the facade's recorder ----

  class FacadeEncoder {
    const name: Label
    var commands: seq<EncoderCommand>

    constructor (name: Label)
      ensures this.name == name && commands == []
    {
      this.name, commands := name, [];
    }

    /** `copy_buffer_to_buffer`, `clear_buffer`, `copy_texture_to_buffer`. */
    method Push(c: EncoderCommand)
      modifies this
      ensures commands == old(commands) + [c]
    {
      commands := commands + [c];
    }

    method Finish() returns (r: Recording)
      ensures r == Recording(name, commands)
    {
      return Recording(name, commands);
    }
  }

  class FacadeComputePass {
    const encoder: FacadeEncoder
    const name: Label
    var commands: seq<ComputeCommand>

    constructor (encoder: FacadeEncoder, name: Label)
      ensures this.encoder == encoder && this.name == name && commands == []
    {
      this.encoder, this.name, commands := encoder, name, [];
    }

    method Push(c: ComputeCommand)
      modifies this
      ensures commands == old(commands) + [c]
    {
      commands := commands + [c];
    }

    method Drop()
      modifies this, encoder
      ensures encoder.commands == old(encoder.commands) + [BeginComputePass(name, old(commands))]
    {
      var taken := commands;
      commands := [];
      encoder.commands := encoder.commands + [BeginComputePass(name, taken)];
    }
  }

  class FacadeRenderPass {
    const encoder: FacadeEncoder
    const name: Label
    var colors: seq<Option<ColorAttachment>>
    var depth: Option<DepthStencilAttachment>
    var commands: seq<RenderCommand>

    constructor (encoder: FacadeEncoder, name: Label, colors: seq<Option<ColorAttachment>>,
        depth: Option<DepthStencilAttachment>)
      ensures this.encoder == encoder && this.name == name && this.colors == colors
        && this.depth == depth && commands == []
    {
      this.encoder, this.name, this.colors, this.depth, commands := encoder, name, colors, depth, [];
    }

    method Push(c: RenderCommand)
      modifies this`commands
      ensures commands == old(commands) + [c]
    {
      commands := commands + [c];
    }

    method Drop()
      modifies this, encoder
      ensures encoder.commands
        == old(encoder.commands) + [BeginRenderPass(name, old(colors), old(depth), old(commands))]
    {
      var takenColors, takenDepth, taken := colors, depth, commands;
      colors, depth, commands := [], None, [];
      encoder.commands := encoder.commands + [BeginRenderPass(name, takenColors, takenDepth, taken)];
    }
  }

  // ---- the drop-in's recorder ----

  /** How much of a buffer lies after an offset; nothing when the offset is past its end. */
  function RestOf(total: nat, offset: nat): (rest: nat)
    ensures offset + rest == if offset <= total then total else offset
  {
    if offset <= total then total - offset else 0
  }

  /** A call on the drop-in: one the facade has too, or a copy whose size is left out. */
  datatype DropInCall =
    | Given(call: Call)
    | CopyToEnd(source: BufferId, sourceSize: nat, sourceOffset: nat, destination: BufferId, destinationOffset: nat)

  /** The same call with its size written out. */
  function Explicit(c: DropInCall): (r: Call)
    ensures c.Given? ==> r == c.call
    ensures c.CopyToEnd? ==>
      && r.OnEncoder? && r.command.CopyBufferToBuffer?
      && r.command.source == c.source && r.command.sourceOffset == c.sourceOffset
      && r.command.destination == c.destination && r.command.destinationOffset == c.destinationOffset
      && (c.sourceOffset <= c.sourceSize ==> c.sourceOffset + r.command.size == c.sourceSize)
      && (c.sourceOffset > c.sourceSize ==> r.command.size == 0)
  {
    match c
    case Given(call) => call
    case CopyToEnd(source, size, from, destination, to) =>
      OnEncoder(CopyBufferToBuffer(source, from, destination, to, RestOf(size, from)))
  }

  function ExplicitAll(ds: seq<DropInCall>): (cs: seq<Call>)
    ensures |cs| == |ds| && forall i :: 0 <= i < |ds| ==> cs[i] == Explicit(ds[i])
  {
    seq(|ds|, i requires 0 <= i < |ds| => Explicit(ds[i]))
  }

  /** The state an encoder shares with its passes. */
  class EncoderInner {
    var recording: Recording

    constructor (name: Label)
      ensures recording == Recording(name, [])
    {
      recording := Recording(name, []);
    }

    method Push(c: EncoderCommand)
      modifies this
      ensures recording == Recording(old(recording.name), old(recording.commands) + [c])
    {
      recording := recording.(commands := recording.commands + [c]);
    }

    /** Takes the recording out and leaves an empty, unnamed one behind. */
    method Finish() returns (r: Recording)
      modifies this
      ensures r == old(recording) && recording == Recording(None, [])
    {
      r := recording;
      recording := Recording(None, []);
    }

    /** An omitted size means "to the end of the source". */
    method CopyBufferToBuffer(source: BufferId, sourceSize: nat, sourceOffset: nat, destination: BufferId,
                              destinationOffset: nat, copySize: Option<nat>)
      modifies this
      ensures recording.name == old(recording.name)
      ensures var size := if copySize.Some? then copySize.value else RestOf(sourceSize, sourceOffset);
        recording.commands == old(recording.commands)
          + [EncoderCommand.CopyBufferToBuffer(source, sourceOffset, destination, destinationOffset, size)]
    {
      var size := if copySize.Some? then copySize.value
      else if sourceSize >= sourceOffset then sourceSize - sourceOffset
      else 0;
      Push(EncoderCommand.CopyBufferToBuffer(source, sourceOffset, destination, destinationOffset, size));
    }
  }

  class DropInComputePass {
    const parent: EncoderInner
    const name: Label
    var commands: seq<ComputeCommand>

    constructor (parent: EncoderInner, name: Label)
      ensures this.parent == parent && this.name == name && commands == []
    {
      this.parent, this.name, commands := parent, name, [];
    }

    method Push(c: ComputeCommand)
      modifies this
      ensures commands == old(commands) + [c]
    {
      commands := commands + [c];
    }

    method Drop()
      modifies this, parent
      ensures parent.recording == Recording(old(parent.recording.name),
        old(parent.recording.commands) + [BeginComputePass(name, old(commands))])
    {
      var taken := commands;
      commands := [];
      parent.Push(BeginComputePass(name, taken));
    }
  }

  class DropInRenderPass {
    const parent: EncoderInner
    const name: Label
    var colors: seq<Option<ColorAttachment>>
    var depth: Option<DepthStencilAttachment>
    var commands: seq<RenderCommand>

    constructor (parent: EncoderInner, name: Label, colors: seq<Option<ColorAttachment>>,
        depth: Option<DepthStencilAttachment>)
      ensures this.parent == parent && this.name == name && this.colors == colors
        && this.depth == depth && commands == []
    {
      this.parent, this.name, this.colors, this.depth, commands := parent, name, colors, depth, [];
    }

    method Push(c: RenderCommand)
      modifies this`commands
      ensures commands == old(commands) + [c]
    {
      commands := commands + [c];
    }

    method Drop()
      modifies this, parent
      ensures parent.recording == Recording(old(parent.recording.name),
        old(parent.recording.commands) + [BeginRenderPass(name, old(colors), old(depth), old(commands))])
    {
      var takenColors, takenDepth, taken := colors, depth, commands;
      colors, depth, commands := [], None, [];
      parent.Push(BeginRenderPass(name, takenColors, takenDepth, taken));
    }
  }

  // ---- one program, two recorders ----

  /** A program making the calls `cs` on the facade. */
  method RecordWithFacade(name: Label, cs: seq<Call>) returns (r: Recording)
    requires WellNested(cs)
    ensures r == Recording(name, Nest(cs))
  {
    var encoder := new FacadeEncoder(name);
    var compute: FacadeComputePass? := null;
    var render: FacadeRenderPass? := null;
    assert cs[..0] == [];
    assert AcceptsAll(cs[..|cs|]) by { assert cs[..|cs|] == cs; }
    for n := 0 to |cs|
      invariant AcceptsAll(cs[..n])
      invariant encoder.commands == RecordAll(cs[..n]).commands
      invariant compute != null ==> (compute.encoder == encoder && render == null
        && RecordAll(cs[..n]).pass == Some(ComputePass(compute.name, compute.commands)))
      invariant render != null ==> (render.encoder == encoder
        && RecordAll(cs[..n]).pass == Some(RenderPass(render.name, render.colors, render.depth, render.commands)))
      invariant compute == null && render == null ==> RecordAll(cs[..n]).pass == None
      invariant fresh(encoder) && (compute != null ==> fresh(compute)) && (render != null ==> fresh(render))
    {
      AcceptsPrefix(cs, n);
      match cs[n] {
        case OnEncoder(command) => encoder.Push(command);
        case OpenCompute(tag) => compute := new FacadeComputePass(encoder, tag);
        case OpenRender(tag, colors, depth) => render := new FacadeRenderPass(encoder, tag, colors, depth);
        case InCompute(command) => compute.Push(command);
        case InRender(command) => render.Push(command);
        case CloseCompute => compute.Drop(); compute := null;
        case CloseRender => render.Drop(); render := null;
      }
    }
    assert cs[..|cs|] == cs;
    r := encoder.Finish();
  }

  /** A program on the drop-in, which may leave copy sizes out. */
  method RecordWithDropIn(name: Label, ds: seq<DropInCall>) returns (r: Recording)
    requires WellNested(ExplicitAll(ds))
    ensures r == Recording(name, Nest(ExplicitAll(ds)))
  {
    ghost var cs := ExplicitAll(ds);
    var inner := new EncoderInner(name);
    var compute: DropInComputePass? := null;
    var render: DropInRenderPass? := null;
    assert cs[..0] == [];
    for n := 0 to |ds|
      invariant AcceptsAll(cs[..n])
      invariant inner.recording == Recording(name, RecordAll(cs[..n]).commands)
      invariant compute != null ==> (compute.parent == inner && render == null
        && RecordAll(cs[..n]).pass == Some(ComputePass(compute.name, compute.commands)))
      invariant render != null ==> (render.parent == inner
        && RecordAll(cs[..n]).pass == Some(RenderPass(render.name, render.colors, render.depth, render.commands)))
      invariant compute == null && render == null ==> RecordAll(cs[..n]).pass == None
      invariant fresh(inner) && (compute != null ==> fresh(compute)) && (render != null ==> fresh(render))
    {
      AcceptsPrefix(cs, n);
      match ds[n] {
        case CopyToEnd(source, size, from, destination, to) =>
          inner.CopyBufferToBuffer(source, size, from, destination, to, None);
        case Given(OnEncoder(command)) => inner.Push(command);
        case Given(OpenCompute(tag)) => compute := new DropInComputePass(inner, tag);
        case Given(OpenRender(tag, colors, depth)) => render := new DropInRenderPass(inner, tag, colors, depth);
        case Given(InCompute(command)) => compute.Push(command);
        case Given(InRender(command)) => render.Push(command);
        case Given(CloseCompute) => compute.Drop(); compute := null;
        case Given(CloseRender) => render.Drop(); render := null;
      }
    }
    assert cs[..|cs|] == cs;
    r := inner.Finish();
  }

  /** The two recorders agree on every well-nested trace, copy sizes the drop-in left out included. */
  method RecordersAgree(name: Label, ds: seq<DropInCall>) returns (facade: Recording, dropIn: Recording)
    requires WellNested(ExplicitAll(ds))
    ensures facade == dropIn && CallsOfAll(facade.commands) == ExplicitAll(ds)
  {
    facade := RecordWithFacade(name, ExplicitAll(ds));
    dropIn := RecordWithDropIn(name, ds);
    FlattenNest(ExplicitAll(ds));
  }
}
