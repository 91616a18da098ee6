/** The critical sections of the engine's lock (server/engine.rs:151-166, 388-548): it is released and
    taken again inside an action, between making an object and storing it, between the recordings of
    a submission and before the queue gets them, between staging a write and flushing it, and between
    looking a buffer up and reading it. Undisturbed, the sections add up to the action.

    A derived layout is looked up and stored under one lock; here it takes two sections like every
    other creation, which only adds interleavings. */
module Sections {
  import opened Basics
  import opened Protocol
  import opened Gpu
  import opened Tables
  import opened Replay
  import opened Engine
  import opened EngineLaws

  /** Where a stream is inside its current action, between two critical sections. */
  datatype Task =
    | Idle
    | Storing(r: ResourceId, o: GpuObject)
    | Building(rest: seq<Bytes>, built: seq<seq<GpuCall>>)
    | Flushing
    | Reading(buffer: GpuBuffer, offset: nat, size: nat)

  datatype Stream = Stream(todo: seq<Action>, task: Task, got: seq<Response>)

  function Finish(s: Stream, r: Response): Stream {
    Stream(if s.todo == [] then [] else s.todo[1..], Idle, s.got + [r])
  }

  function Start(dev: Device, st: EngineState, s: Stream, a: Action): (EngineState, Stream) {
    if Creates(a).Some? then
      match Construct(st.tables, st.gpu, a)
      case Err(e) => (st, Finish(s, e))
      case Ok((g, o)) => (st.(gpu := g), s.(task := Storing(Creates(a).value, o)))
    else if a.Submit? then
      (st, s.(task := Building(a.recordings, [])))
    else if a.WriteBuffer? then
      match FindBuffer(st.tables, a.target)
      case Err(e) => (st, Finish(s, e))
      case Ok(b) => (st.(gpu := Stage(st.gpu, GWriteBuffer(b, a.offset, a.data))), s.(task := Flushing))
    else if a.MapBufferForRead? then
      match FindBuffer(st.tables, a.source)
      case Err(e) => (st, Finish(s, e))
      case Ok(b) => (st, s.(task := Reading(b, a.offset, a.size)))
    else
      var (next, r) := Handle(dev, st, a);
      (next, Finish(s, r))
  }

  /** One critical section of one stream. */
  function Turn(dev: Device, st: EngineState, s: Stream): (EngineState, Stream) {
    match s.task
    case Idle => if s.todo == [] then (st, s) else Start(dev, st, s, s.todo[0])
    case Storing(r, o) => (st.(tables := Insert(st.tables, r, o)), Finish(s, Ack))
    case Building(rest, built) =>
      if rest == [] then (st.(gpu := QueueSubmit(dev, st.gpu, built)), Finish(s, Ack))
      else
        (match BuildCommands(dev, st.tables, rest[0])
         case Err(e) => (st, Finish(s, e))
         case Ok(calls) => (st, s.(task := Building(rest[1..], built + [calls]))))
    case Flushing => (st.(gpu := QueueSubmit(dev, st.gpu, [])), Finish(s, Ack))
    case Reading(b, offset, size) =>
      match Peek(st.gpu.contents, b.serial, offset, size)
      case Some(data) => (st, Finish(s, BufferData(data)))
      case None => (st, Finish(s, ErrorResponse(Internal, MapFailed)))
  }

  /** `n` turns of one stream on an engine of its own. */
  function Alone(dev: Device, st: EngineState, s: Stream, n: nat): (EngineState, Stream) {
    if n == 0 then (st, s)
    else
      var (before, t) := Alone(dev, st, s, n - 1);
      Turn(dev, before, t)
  }

  // ---- alone, the sections of an action add up to the action ----

  lemma {:induction false} BuildingAlone(dev: Device, st: EngineState, s: Stream, rest: seq<Bytes>,
      built: seq<seq<GpuCall>>)
    returns (n: nat)
    requires s.task == Building(rest, built)
    ensures Alone(dev, st, s, n) ==
      match BuildSubmission(dev, st.tables, rest)
      case Err(e) => (st, Finish(s, e))
      case Ok(more) => (st.(gpu := QueueSubmit(dev, st.gpu, built + more)), Finish(s, Ack))
    decreases |rest|
  {
    hide BuildCommands, QueueSubmit, Start, Insert, Peek;
    assert Alone(dev, st, s, 0) == (st, s);
    assert Alone(dev, st, s, 1) == Turn(dev, st, s);
    if rest == [] {
      assert built + [] == built;
      return 1;
    }
    var f := raw => BuildCommands(dev, st.tables, raw);
    assert f(rest[0]) == BuildCommands(dev, st.tables, rest[0]);
    if BuildCommands(dev, st.tables, rest[0]).Err? { return 1; }
    var first := BuildCommands(dev, st.tables, rest[0]).value;
    var t := s.(task := Building(rest[1..], built + [first]));
    var m := BuildingAlone(dev, st, t, rest[1..], built + [first]);
    AloneFirst(dev, st, s, m);
    if BuildSubmission(dev, st.tables, rest[1..]).Ok? {
      Assoc(built, [first], BuildSubmission(dev, st.tables, rest[1..]).value);
    }
    return m + 1;
  }

  lemma {:induction false} AloneFirst(dev: Device, st: EngineState, s: Stream, n: nat)
    ensures var (next, t) := Turn(dev, st, s); Alone(dev, st, s, n + 1) == Alone(dev, next, t, n)
  {
    hide Turn;
    if n == 0 {
      assert Alone(dev, st, s, 0) == (st, s);
      assert Alone(dev, st, s, 1) == Turn(dev, st, s);
    } else {
      AloneFirst(dev, st, s, n - 1);
    }
  }

  lemma SubmitAlone(dev: Device, st: EngineState, s: Stream) returns (n: nat)
    requires s.task == Idle && s.todo != [] && s.todo[0].Submit?
    ensures var (next, r) := HandleQueue(dev, st, s.todo[0]); Alone(dev, st, s, n) == (next, Finish(s, r))
  {
    hide BuildSubmission, QueueSubmit, Alone;
    var raws := s.todo[0].recordings;
    var t := s.(task := Building(raws, []));
    assert Turn(dev, st, s) == (st, t) by { hide HandleQueue, Handle; }
    hide Turn;
    var m := BuildingAlone(dev, st, t, raws, []);
    AloneFirst(dev, st, s, m);
    n := m + 1;
    if BuildSubmission(dev, st.tables, raws).Ok? {
      assert [] + BuildSubmission(dev, st.tables, raws).value == BuildSubmission(dev, st.tables, raws).value;
    }
  }

  lemma CreateAlone(dev: Device, st: EngineState, s: Stream) returns (n: nat)
    requires s.task == Idle && s.todo != [] && Creates(s.todo[0]).Some?
    ensures var (next, r) := Handle(dev, st, s.todo[0]); Alone(dev, st, s, n) == (next, Finish(s, r))
  {
    hide Construct, HandleQueue, Creates;
    assert Alone(dev, st, s, 0) == (st, s);
    assert Alone(dev, st, s, 1) == Turn(dev, st, s);
    n := if Construct(st.tables, st.gpu, s.todo[0]).Err? then 1 else 2;
  }

  lemma UseAlone(dev: Device, st: EngineState, s: Stream) returns (n: nat)
    requires s.task == Idle && s.todo != [] && Creates(s.todo[0]).None? && !s.todo[0].Submit?
    ensures var (next, r) := Handle(dev, st, s.todo[0]); Alone(dev, st, s, n) == (next, Finish(s, r))
  {
    hide Construct, QueueSubmit;
    assert Alone(dev, st, s, 0) == (st, s);
    assert Alone(dev, st, s, 1) == Turn(dev, st, s);
    n := if Turn(dev, st, s).1.task.Idle? then 1 else 2;
  }

  /** Undisturbed, a stream's next action ends exactly as the sequential engine handles it. */
  lemma SectionsMakeTheAction(dev: Device, st: EngineState, s: Stream) returns (n: nat)
    requires s.task == Idle && s.todo != []
    ensures var (next, r) := Handle(dev, st, s.todo[0]); Alone(dev, st, s, n) == (next, Finish(s, r))
  {
    if Creates(s.todo[0]).Some? {
      n := CreateAlone(dev, st, s);
    } else if s.todo[0].Submit? {
      hide HandleQueue;
      n := SubmitAlone(dev, st, s);
    } else {
      n := UseAlone(dev, st, s);
    }
  }
}
