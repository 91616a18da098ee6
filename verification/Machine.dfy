/** The joint machine on real objects: the multiplexer, the engine and the facade's shared state, with
    the two byte pipes between them. Any legal schedule of threads, tasks and pipes can be run on it,
    and every run does exactly what `Joint` says, so the end-to-end theorem holds of these objects. */
module Machine {
  import opened Basics
  import opened Protocol
  import opened Codec
  import opened Gpu
  import opened Engine
  import opened Client
  import opened Handler
  import Pipeline
  import PipelineLaws
  import opened Local
  import opened Failures
  import Session
  import opened Joint
  import opened EndToEnd

  lemma ReadFrameHasId(dev: Device, w: Network, s: State)
    requires Pipeline.Sound(w) && Inv(dev, w, s) && Pipeline.Enabled(w, s.net, Pipeline.ServerDispatch)
    ensures DecodeFrame(w.frames, s.net.reading).Ok? ==> DecodeFrame(w.frames, s.net.reading).value.0.requestId.Some?
  {
    InvIs(dev, w, s);
    hide Inv, DecodeFrame, Complete;
    Pipeline.EnqueuedFit(w.frames, s.net.client, s.net.answers, s.net.delivered) by {
      hide Pipeline.UpInv, Pipeline.DownInv, Pipeline.ServerInv, Pipeline.ClientInv;
    }
    Pipeline.NextFrameIsWhole(w.frames, s.net.client.enqueued, |s.net.answers|, s.net.reading, s.net.up, s.net.writing,
      s.net.client.inbox) by { hide Pipeline.UpInv, Pipeline.DownInv, Pipeline.ServerInv, Pipeline.ClientInv; }
  }

  lemma CommitIssues(dev: Device, w: Network, s: State, id: RequestId)
    requires Inv(dev, w, s) && id in s.calls
    ensures Issues(s.calls[id])
  {
    hide Pipeline.Inv, Session.Inv, WireInv, ToAction, Shippable;
  }

  /** Beginning a call, spelled out. */
  lemma BeginApplies(dev: Device, w: Network, s: State, kind: Kind, call: Session.Step)
    requires Enabled(dev, w, s, Begin(kind, call))
    ensures Issues(call) && Session.Can(dev, s.session, call)
    ensures var t := Apply(dev, w, s, Begin(kind, call));
      var id, a := s.net.client.nextId, ToAction(dev, OpOf(call));
      var minted := s.net.(client := MintCall(w.frames, s.net.client, kind, a));
      if !Shippable(dev, OpOf(call)) then t == Lose(dev, s, s.net, call)
      else if Fits(w.frames, FrameFor(id, a)) then t == s.(net := minted, calls := s.calls[id := call])
      else t == Lose(dev, s, minted, call)
  {
    hide Session.Can, Session.Take, MintCall, Fits, Shippable, ToAction, Lose;
  }

  lemma MintedStage(fc: BodyCodec<Frame<Action>>, c: ClientState<Action, Response>, kind: Kind, a: Action)
    ensures var d := MintCall(fc, c, kind, a);
      c.nextId in d.callers
      && (d.callers[c.nextId].stage.Abandoned? <==> !Fits(fc, FrameFor(c.nextId, a)))
  {
    hide EncodeFrame;
  }

  lemma NetApplies(dev: Device, w: Network, s: State, n: Pipeline.Step<Action>)
    requires Enabled(dev, w, s, Net(n))
    ensures Pipeline.Enabled(w, s.net, n) && !n.Mint? && !n.Push?
    ensures Apply(dev, w, s, Net(n)) == s.(net := Pipeline.Apply(w, s.net, n))
  {
    hide Pipeline.Apply, Pipeline.Enabled;
  }

  /** The server's turn in the machine, spelled out for a frame with a request id. */
  lemma ServeIs(dev: Device, w: Network, s: NetState)
    requires IsWorld(dev, w) && Pipeline.Enabled(w, s, Pipeline.ServerDispatch)
    ensures var t := Pipeline.Apply(w, s, Pipeline.ServerDispatch);
      match DecodeFrame(w.frames, s.reading)
      case Err(_) => t == s.(serverAlive := false)
      case Ok((f, _)) =>
        f.requestId.Some? ==>
          var (next, reply) := DispatchFrame(dev, s.server, f);
          var ran := s.(reading := [], server := next, answers := s.answers + [reply.value]);
          t == (match EncodeFrame(w.replies, reply.value)
                case Err(_) => ran.(serverAlive := false)
                case Ok(bytes) => ran.(replying := bytes))
  {
    hide DecodeFrame, EncodeFrame, Handle, Complete;
  }

  class System {
    const dev: Device
    const frames: BodyCodec<Frame<Action>>
    const replies: BodyCodec<ResponseFrame<Response>>
    const upCap: nat
    const downCap: nat
    const mux: Mux<Action, Response>
    const engine: Engine
    const facade: Session.Facade
    var writing: Bytes
    var up: Bytes
    var reading: Bytes
    var serverAlive: bool
    var replying: Bytes
    var down: Bytes
    var arriving: Bytes
    var calls: map<RequestId, Session.Step>
    ghost var answers: seq<ResponseFrame<Response>>
    ghost var delivered: nat
    ghost var sent: seq<bool>

    ghost function Here(): Network { World(dev, frames, replies, upCap, downCap) }

    ghost function NetNow(): NetState
      reads this, mux, engine
    {
      Pipeline.Sys(mux.State(), writing, up, reading, engine.State(), serverAlive, replying, down, arriving,
        answers, delivered)
    }

    ghost function Now(): State
      reads this, mux, engine, facade, facade.ids
    {
      State(NetNow(), facade.Now(), calls, sent)
    }

    ghost predicate Wired()
      reads this
    {
      mux.frames == frames && mux.replies == replies && engine.dev == dev && facade.dev == dev
    }

    ghost predicate Valid()
      reads this, mux, engine, facade, facade.ids
    {
      Wired() && Inv(dev, Here(), Now())
    }

    constructor (dev: Device, frames: BodyCodec<Frame<Action>>, replies: BodyCodec<ResponseFrame<Response>>,
                 upCap: nat, downCap: nat)
      ensures this.dev == dev && Here() == World(dev, frames, replies, upCap, downCap)
      ensures Valid() && Now() == Start(Here())
      ensures fresh(mux) && fresh(engine) && fresh(facade) && fresh(facade.ids)
    {
      this.dev, this.frames, this.replies, this.upCap, this.downCap := dev, frames, replies, upCap, downCap;
      mux := new Mux(frames, replies);
      engine := new Engine(dev);
      facade := new Session.Facade(dev);
      writing, up, reading, serverAlive, replying, down, arriving := [], [], [], true, [], [], [];
      calls, answers, delivered, sent := map[], [], 0, [];
      new;
      StartInv(dev, Here());
    }

    /** The session's side of a call: it joins the trace, and handles appear or disappear with it. */
    method Issue(call: Session.Step)
      requires Issues(call) && facade.dev == dev && Session.Can(dev, facade.Now(), call)
      modifies facade
      ensures facade.Now() == Session.Take(dev, old(facade.Now()), call)
    {
      match call
      case Create(op) => facade.SendCreate(op);
      case Use(op) => facade.Send(op);
      case SendDestroy(r) => facade.ShipDestroy(r);
    }

    /** The call is over for its thread; its frame goes nowhere. */
    method LoseCall(call: Session.Step)
      requires Issues(call) && facade.dev == dev && Session.Can(dev, facade.Now(), call)
      modifies `sent, facade
      ensures facade.Now() == Session.Take(dev, old(facade.Now()), call) && sent == old(sent) + [false]
    {
      hide Session.Can, Session.Take;
      Issue(call);
      sent := sent + [false];
    }

    method BeginCall(kind: Kind, call: Session.Step)
      requires Valid() && Enabled(dev, Here(), Now(), Begin(kind, call))
      modifies this, mux, facade
      ensures Now() == Apply(dev, Here(), old(Now()), Begin(kind, call))
    {
      hide Inv, Session.Can, Session.Take, Shippable, ToAction, Apply, Enabled, MintCall, Fits;
      BeginApplies(dev, Here(), Now(), kind, call);
      var op := OpOf(call);
      if !Shippable(dev, op) {
        LoseCall(call);
        return;
      }
      MintedStage(frames, mux.State(), kind, ToAction(dev, op));
      var id := mux.Mint(kind, ToAction(dev, op));
      if mux.callers[id].stage.Abandoned? {
        LoseCall(call);
      } else {
        calls := calls[id := call];
      }
    }

    method CommitCall(id: RequestId)
      requires Wired() && id in calls && AtStage(mux.State(), id, ToPush)
      requires Issues(calls[id]) && Session.Can(dev, facade.Now(), calls[id])
      modifies `calls, `sent, mux, facade
      ensures mux.State() == PushCall(old(mux.State()), id)
      ensures facade.Now() == Session.Take(dev, old(facade.Now()), old(calls[id]))
      ensures calls == old(calls) - {id} && sent == old(sent) + [old(mux.inboxOpen)]
    {
      hide Session.Can, Session.Take, PushCall;
      var call := calls[id];
      var ok := mux.Push(id);
      Issue(call);
      calls := calls - {id};
      sent := sent + [ok];
    }

    method MoveHandle(h: Session.Step)
      requires Valid() && Enabled(dev, Here(), Now(), Handles(h))
      modifies facade, facade.ids
      ensures Now() == Apply(dev, Here(), old(Now()), Handles(h))
    {
      hide Inv;
      match h
      case MintId(kind) => var r := facade.MintFor(kind);
      case CloneHandle(r) => facade.Clone(r);
      case DropHandle(r) => var last := facade.Drop(r);
    }

    /** One turn of the server's loop on the frame it has read. */
    method Serve()
      requires Wired() && Pipeline.Enabled(Here(), NetNow(), Pipeline.ServerDispatch)
      requires DecodeFrame(frames, reading).Ok? ==> DecodeFrame(frames, reading).value.0.requestId.Some?
      modifies `reading, `answers, `replying, `serverAlive, engine
      ensures NetNow() == Pipeline.Apply(Here(), old(NetNow()), Pipeline.ServerDispatch)
    {
      ServeIs(dev, Here(), NetNow());
      hide DecodeFrame, EncodeFrame, Handle, Pipeline.Apply, Pipeline.Enabled;
      var decoded := DecodeFrame(frames, reading);
      if decoded.Err? {
        serverAlive := false;
        return;
      }
      var response := engine.Dispatch(decoded.value.0);
      var answer := response.value;
      reading := [];
      answers := answers + [answer];
      var encoded := EncodeFrame(replies, answer);
      match encoded
      case Err(_) => serverAlive := false;
      case Ok(bytes) => replying := bytes;
    }

    /** The reader task handles the frame it has read. */
    method Receive()
      requires Wired() && Pipeline.Enabled(Here(), NetNow(), Pipeline.ReaderDeliver)
      modifies `arriving, `delivered, mux
      ensures NetNow() == Pipeline.Apply(Here(), old(NetNow()), Pipeline.ReaderDeliver)
    {
      hide DecodeFrame, DeliverReply, CloseReader, Complete;
      var decoded := DecodeFrame(replies, arriving);
      if decoded.Err? {
        mux.Close();
        return;
      }
      mux.Deliver(decoded.value.0);
      arriving := [];
      delivered := delivered + 1;
    }

    /** A thread registers, the writer takes a frame or dies, the reader exits. */
    method MoveClient(n: Pipeline.Step<Action>)
      requires Wired() && Pipeline.Enabled(Here(), NetNow(), n)
      requires n.Register? || n.WriterTake? || n.WriterFail? || n.ReaderExit?
      modifies `writing, mux
      ensures NetNow() == Pipeline.Apply(Here(), old(NetNow()), n)
    {
      hide Missing, Complete, CloseReader, RegisterCall;
      match n
      case Register(id) => mux.Register(id);
      case WriterTake =>
        writing := mux.inbox[0];
        mux.inbox := mux.inbox[1..];
      case WriterFail => mux.inboxOpen := false;
      case ReaderExit => mux.Close();
    }

    /** Bytes move along a pipe, or the server dies. */
    method MoveBytes(n: Pipeline.Step<Action>)
      requires Wired() && Pipeline.Enabled(Here(), NetNow(), n)
      requires n.WriterWrite? || n.ServerRead? || n.ServerWrite? || n.ServerFail? || n.ReaderRead?
      modifies `writing, `up, `reading, `serverAlive, `replying, `down, `arriving
      ensures NetNow() == Pipeline.Apply(Here(), old(NetNow()), n)
    {
      hide Missing, Complete;
      match n
      case WriterWrite(k) => writing, up := writing[k..], up + writing[..k];
      case ServerRead(k) => up, reading := up[k..], reading + up[..k];
      case ServerWrite(k) => replying, down := replying[k..], down + replying[..k];
      case ServerFail => serverAlive := false;
      case ReaderRead(k) => down, arriving := down[k..], arriving + down[..k];
    }

    method MoveNet(n: Pipeline.Step<Action>)
      requires Wired() && Pipeline.Enabled(Here(), NetNow(), n) && !n.Mint? && !n.Push?
      requires n.ServerDispatch? && DecodeFrame(frames, reading).Ok? ==>
        DecodeFrame(frames, reading).value.0.requestId.Some?
      modifies `writing, `up, `reading, `serverAlive, `replying, `down, `arriving, `answers, `delivered, mux, engine
      ensures NetNow() == Pipeline.Apply(Here(), old(NetNow()), n)
    {
      hide Pipeline.Apply, Pipeline.Enabled, DecodeFrame;
      match n
      case ServerDispatch => Serve();
      case ReaderDeliver => Receive();
      case WriterWrite(_) | ServerRead(_) | ServerWrite(_) | ServerFail | ReaderRead(_) => MoveBytes(n);
      case Register(_) | WriterTake | WriterFail | ReaderExit => MoveClient(n);
    }

    method DoCommit(id: RequestId)
      requires Valid() && Enabled(dev, Here(), Now(), Commit(id))
      modifies this, mux, facade
      ensures Now() == Apply(dev, Here(), old(Now()), Commit(id))
    {
      hide Inv, Apply, Enabled, Session.Can, Session.Take, PushCall;
      CommitApplies(dev, Here(), Now(), id);
      CommitIssues(dev, Here(), Now(), id);
      CommitCall(id);
    }

    method DoNet(n: Pipeline.Step<Action>)
      requires Pipeline.Sound(Here()) && Valid() && Enabled(dev, Here(), Now(), Net(n))
      modifies this, mux, engine
      ensures Now() == Apply(dev, Here(), old(Now()), Net(n))
    {
      hide Inv, Apply, Enabled, Pipeline.Apply, Pipeline.Enabled, DecodeFrame, Session.Take, Session.Can;
      NetApplies(dev, Here(), Now(), n);
      if n.ServerDispatch? { ReadFrameHasId(dev, Here(), Now()); }
      MoveNet(n);
    }

    method DoStep(l: Step)
      requires Pipeline.Sound(Here()) && Valid() && Enabled(dev, Here(), Now(), l)
      modifies this, mux, engine, facade, facade.ids
      ensures Valid() && Now() == Apply(dev, Here(), old(Now()), l)
    {
      StepKeeps(dev, Here(), Now(), l);
      hide Inv, Apply, Enabled;
      match l
      case Begin(kind, call) => BeginCall(kind, call);
      case Commit(id) => DoCommit(id);
      case Handles(h) => MoveHandle(h);
      case Net(n) => DoNet(n);
    }
  }

  /** Runs any legal schedule on the real objects. They end where the machine says, and every request
      that was answered was told its verdict. */
  method Execute(dev: Device, frames: BodyCodec<Frame<Action>>, replies: BodyCodec<ResponseFrame<Response>>,
                 upCap: nat, downCap: nat, ls: seq<Step>)
    returns (m: System)
    requires Faithful(dev.recordings) && Pipeline.Sound(World(dev, frames, replies, upCap, downCap))
    requires var w := World(dev, frames, replies, upCap, downCap); Legal(dev, w, Start(w), ls)
    ensures var w := World(dev, frames, replies, upCap, downCap); m.Now() == Run(dev, w, Start(w), ls)
    ensures forall id :: PipelineLaws.Answered(m.mux.State(), id) ==>
      var k := m.mux.callers[id];
      k.stage.Pushed? && IsVerdict(dev, m.Now(), k.stage.position, k.action, k.outcome.value.response)
  {
    m := new System(dev, frames, replies, upCap, downCap);
    ghost var w := m.Here();
    hide Inv, Enabled, Apply, IsVerdict;
    assert ls[0..] == ls;
    for i := 0 to |ls|
      invariant fresh(m) && fresh(m.mux) && fresh(m.engine) && fresh(m.facade) && fresh(m.facade.ids)
      invariant m.dev == dev && m.Here() == w && m.Valid()
      invariant Legal(dev, w, m.Now(), ls[i..]) && Run(dev, w, m.Now(), ls[i..]) == Run(dev, w, Start(w), ls)
    {
      assert ls[i..][0] == ls[i] && ls[i..][1..] == ls[i + 1..];
      m.DoStep(ls[i]);
    }
    assert ls[|ls|..] == [];
    forall id | PipelineLaws.Answered(m.mux.State(), id)
      ensures var k := m.mux.callers[id];
        k.stage.Pushed? && IsVerdict(dev, m.Now(), k.stage.position, k.action, k.outcome.value.response)
    {
      AnswersAreVerdicts(dev, w, m.Now(), id);
    }
  }
}
