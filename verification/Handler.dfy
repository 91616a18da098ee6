/** The loops that drive the pieces: the server's per-stream action loop (server/handler.rs:36-49)
    and the client's writer and reader tasks (client/client.rs:86-123), each on its own stream. */
module Handler {
  import opened Basics
  import opened Protocol
  import opened Codec
  import opened Gpu
  import opened Engine
  import opened Client

  /** The sending half of a stream; `broken` once the peer has gone. */
  class SendStream {
    var sent: Bytes
    var broken: bool
    const room: nat  // bytes the peer accepts before it goes away

    constructor (room: nat)
      ensures sent == [] && !broken && this.room == room
    {
      sent, broken, this.room := [], false, room;
    }

    /** `write_all`: everything, or a prefix and an error. */
    method WriteAll(bytes: Bytes) returns (ok: bool)
      requires !broken
      modifies this
      ensures ok <==> !broken
      ensures ok ==> sent == old(sent) + bytes
      ensures old(sent) <= sent <= old(sent) + bytes
    {
      if |sent| + |bytes| <= room {
        sent := sent + bytes;
        return true;
      }
      var n := if room > |sent| then Min(room - |sent|, |bytes|) else 0;
      sent, broken := sent + bytes[..n], true;
      return false;
    }
  }

  // ---- server ----

  function AfterFrames(dev: Device, st: EngineState, fs: seq<Frame<Action>>): EngineState
    decreases |fs|
  {
    if fs == [] then st else DispatchFrame(dev, AfterFrames(dev, st, fs[..|fs| - 1]), fs[|fs| - 1]).0
  }

  /** The response to one frame; a frame without a request id gets none. */
  function ReplyTo(dev: Device, st: EngineState, f: Frame<Action>): seq<ResponseFrame<Response>> {
    var r := DispatchFrame(dev, st, f).1;
    if r.Some? then [r.value] else []
  }

  function RepliesTo(dev: Device, st: EngineState, fs: seq<Frame<Action>>): seq<ResponseFrame<Response>>
    decreases |fs|
  {
    if fs == [] then []
    else
      var before := fs[..|fs| - 1];
      RepliesTo(dev, st, before) + ReplyTo(dev, AfterFrames(dev, st, before), fs[|fs| - 1])
  }

  /** A response there is, and it cannot be put into a frame. */
  predicate Unsendable(rc: BodyCodec<ResponseFrame<Response>>, replies: seq<ResponseFrame<Response>>) {
    replies != [] && !Fits(rc, replies[0])
  }

  /** A whole frame is there, and it does not decode. */
  predicate BadFrame<T>(c: BodyCodec<T>, left: Bytes) {
    SplitFrame(left).Some? && DecodeFrame(c, SplitFrame(left).value.0).Err?
  }

  /** One turn of the loop: the action runs, then its response goes out. */
  method ServeFrame(rc: BodyCodec<ResponseFrame<Response>>, engine: Engine, tx: SendStream, frame: Frame<Action>)
    returns (ok: bool)
    requires !tx.broken
    modifies engine, tx
    ensures engine.State() == DispatchFrame(engine.dev, old(engine.State()), frame).0
    ensures var reply := EncodeAll(rc, ReplyTo(engine.dev, old(engine.State()), frame));
      && old(tx.sent) <= tx.sent <= old(tx.sent) + reply
      && (!tx.broken ==> tx.sent == old(tx.sent) + reply)
    ensures ok ==> !tx.broken
    ensures !ok ==> tx.broken || Unsendable(rc, ReplyTo(engine.dev, old(engine.State()), frame))
  {
    hide FrameOf, DispatchFrame, EncodeFrame;
    var response := engine.Dispatch(frame);
    if response.None? {
      assert tx.sent + [] == tx.sent;
      return true;
    }
    EncodeAllOne(rc, response.value);
    IsFrame(rc, response.value);
    var bytes := EncodeFrame(rc, response.value);
    if bytes.Err? {
      assert tx.sent + [] == tx.sent;
      return false;
    }
    ok := tx.WriteAll(bytes.value);
  }

  /** Serves a stream until it ends or something on it fails. Whatever the chunking, the frames
      acted on are the first frames of the stream, each exactly once and in order; what went out is
      the encoding of exactly their responses, in order, cut short only if the peer went away. A
      clean return means every frame was served and no whole one is left; an unclean one means that
      the peer went away, that the last response cannot be sent, or that all frames up to one that
      does not decode were served. */
  method HandleStream(fc: BodyCodec<Frame<Action>>, rc: BodyCodec<ResponseFrame<Response>>,
                      engine: Engine, tx: SendStream, rx: RecvStream)
    returns (clean: bool, ghost served: nat)
    requires !tx.broken
    modifies engine, tx, rx
    ensures served <= |DecodeStream(fc, old(rx.Flat())).0|
    ensures var acted := DecodeStream(fc, old(rx.Flat())).0[..served];
      var replies := EncodeAll(rc, RepliesTo(engine.dev, old(engine.State()), acted));
      && engine.State() == AfterFrames(engine.dev, old(engine.State()), acted)
      && old(tx.sent) <= tx.sent <= old(tx.sent) + replies
      && (!tx.broken ==> tx.sent == old(tx.sent) + replies)
    ensures var (frames, left) := DecodeStream(fc, old(rx.Flat()));
      if clean then served == |frames| && !tx.broken && SplitFrame(left).None?
      else
        || tx.broken
        || (served > 0 && Unsendable(rc,
              ReplyTo(engine.dev, AfterFrames(engine.dev, old(engine.State()), frames[..served - 1]),
                      frames[served - 1])))
        || (served == |frames| && BadFrame(fc, left))
  {
    hide DispatchFrame, DecodeFrame, FrameOf, SplitFrame, Unsendable, AfterFrames, RepliesTo, ReplyTo, EncodeAll,
      DecodeStream;
    ghost var frames, left, sent := DecodeStream(fc, rx.Flat()).0, DecodeStream(fc, rx.Flat()).1, tx.sent;
    ghost var d, start := engine.dev, engine.State();
    served := 0;
    assert frames[..0] == [] && frames[0..] == frames && sent + [] == sent;
    NothingServed(rc, d, start);
    while true
      invariant served <= |frames| && !tx.broken
      invariant DecodeStream(fc, rx.Flat()) == (frames[served..], left)
      invariant engine.State() == AfterFrames(d, start, frames[..served])
      invariant tx.sent == sent + EncodeAll(rc, RepliesTo(d, start, frames[..served]))
      decreases |rx.Flat()|
    {
      ghost var wire := rx.Flat();
      var raw := rx.ReadFrame();
      NextOnStream(fc, wire);
      if raw.None? { return true, served; }
      var decoded := DecodeFrame(fc, raw.value);
      if decoded.Err? { return false, served; }
      var frame := decoded.value.0;
      assert frames[served..][0] == frames[served] && frames[served..][1..] == frames[served + 1..];
      NextServed(rc, d, start, frames, served);
      ghost var soFar := EncodeAll(rc, RepliesTo(d, start, frames[..served]));
      Assoc(sent, soFar, EncodeAll(rc, ReplyTo(d, engine.State(), frame)));
      served := served + 1;
      var ok := ServeFrame(rc, engine, tx, frame);
      if !ok { return false, served; }
    }
  }

  lemma IsFrame<T>(c: BodyCodec<T>, v: T)
    ensures FrameOf(c, v) == match EncodeFrame(c, v) case Ok(b) => b case Err(_) => []
  {
    hide EncodeFrame;
  }

  /** The first frame of a stream, as the decoder sees it. */
  lemma NextOnStream<T>(c: BodyCodec<T>, wire: Bytes)
    ensures SplitFrame(wire).None? || BadFrame(c, wire) ==> DecodeStream(c, wire) == ([], wire)
    ensures SplitFrame(wire).Some? && !BadFrame(c, wire) ==>
      var full, rest := SplitFrame(wire).value.0, SplitFrame(wire).value.1;
      && |rest| < |wire|
      && DecodeStream(c, wire)
         == ([DecodeFrame(c, full).value.0] + DecodeStream(c, rest).0, DecodeStream(c, rest).1)
  {
    hide DecodeFrame;
  }

  lemma NothingServed(rc: BodyCodec<ResponseFrame<Response>>, dev: Device, st: EngineState)
    ensures AfterFrames(dev, st, []) == st && EncodeAll(rc, RepliesTo(dev, st, [])) == []
  {
  }

  lemma NextServed(rc: BodyCodec<ResponseFrame<Response>>, dev: Device, st: EngineState, fs: seq<Frame<Action>>, n: nat)
    requires n < |fs|
    ensures AfterFrames(dev, st, fs[..n + 1]) == DispatchFrame(dev, AfterFrames(dev, st, fs[..n]), fs[n]).0
    ensures EncodeAll(rc, RepliesTo(dev, st, fs[..n + 1])) ==
      EncodeAll(rc, RepliesTo(dev, st, fs[..n])) + EncodeAll(rc, ReplyTo(dev, AfterFrames(dev, st, fs[..n]), fs[n]))
  {
    hide DispatchFrame, FrameOf;
    assert fs[..n + 1][..n] == fs[..n] && fs[..n + 1][n] == fs[n];
    EncodeAllAppend(rc, RepliesTo(dev, st, fs[..n]), ReplyTo(dev, AfterFrames(dev, st, fs[..n]), fs[n]));
  }

  // ---- client ----

  /** One section of a client thread; one that cannot run where it is does nothing. */
  datatype Section<A> = Minting(kind: Kind, action: A) | Registering(id: RequestId) | Pushing(id: RequestId)

  function DoSection<A, R>(fc: BodyCodec<Frame<A>>, c: ClientState<A, R>, x: Section<A>): ClientState<A, R> {
    match x
    case Minting(kind, action) => MintCall(fc, c, kind, action)
    case Registering(id) => if AtStage(c, id, ToRegister) then RegisterCall(c, id) else c
    case Pushing(id) => if AtStage(c, id, ToPush) then PushCall(c, id) else c
  }

  function DoSections<A, R>(fc: BodyCodec<Frame<A>>, c: ClientState<A, R>, xs: seq<Section<A>>): ClientState<A, R>
    decreases |xs|
  {
    if xs == [] then c else DoSection(fc, DoSections(fc, c, xs[..|xs| - 1]), xs[|xs| - 1])
  }

  lemma {:induction false} SectionsAppend<A, R>(
      fc: BodyCodec<Frame<A>>, c: ClientState<A, R>, xs: seq<Section<A>>, ys: seq<Section<A>>)
    ensures DoSections(fc, c, xs + ys) == DoSections(fc, DoSections(fc, c, xs), ys)
    decreases |ys|
  {
    hide DoSection;
    if ys == [] {
      assert xs + ys == xs;
    } else {
      SectionsAppend(fc, c, xs, ys[..|ys| - 1]);
      assert (xs + ys)[..|xs| + |ys| - 1] == xs + ys[..|ys| - 1];
    }
  }

  /** While the inbox is open client threads only add to its end, whatever is in it. */
  lemma {:induction false} SectionsOnlyPush<A, R>(
      fc: BodyCodec<Frame<A>>, c: ClientState<A, R>, inbox: seq<Bytes>, xs: seq<Section<A>>)
    returns (more: seq<Bytes>)
    requires c.inboxOpen
    ensures var d := DoSections(fc, c, xs);
      && d.inboxOpen && d.inbox == c.inbox + more
      && DoSections(fc, c.(inbox := inbox), xs) == d.(inbox := inbox + more)
    decreases |xs|
  {
    hide EncodeFrame;
    if xs == [] {
      assert c.inbox + [] == c.inbox && inbox + [] == inbox;
      return [];
    }
    var less, x := xs[..|xs| - 1], xs[|xs| - 1];
    var d := DoSections(fc, c, less);
    more := SectionsOnlyPush(fc, c, inbox, less);
    if x.Pushing? && AtStage(d, x.id, ToPush) {
      Assoc(c.inbox, more, [d.callers[x.id].bytes]);
      Assoc(inbox, more, [d.callers[x.id].bytes]);
      more := more + [d.callers[x.id].bytes];
    }
  }

  /** What client threads do before the `n`-th turn of a task. */
  function Meanwhile<A, R>(fc: BodyCodec<Frame<A>>, c: ClientState<A, R>, steps: seq<seq<Section<A>>>, n: nat)
    : ClientState<A, R>
  {
    if n < |steps| then DoSections(fc, c, steps[n]) else c
  }

  /** The responses delivered one by one, with client threads running in between. */
  function DeliverAmong<A, R>(
      fc: BodyCodec<Frame<A>>, c: ClientState<A, R>, rfs: seq<ResponseFrame<R>>, steps: seq<seq<Section<A>>>)
    : ClientState<A, R>
    decreases |rfs|
  {
    if rfs == [] then c
    else
      var n := |rfs| - 1;
      DeliverReply(Meanwhile(fc, DeliverAmong(fc, c, rfs[..n], steps), steps, n), rfs[n])
  }

  lemma StepsAppend<A, R>(fc: BodyCodec<Frame<A>>, c: ClientState<A, R>, steps: seq<seq<Section<A>>>, n: nat)
    requires n < |steps|
    ensures DoSections(fc, c, Flatten(steps[..n + 1])) ==
      DoSections(fc, DoSections(fc, c, Flatten(steps[..n])), steps[n])
  {
    assert steps[..n + 1] == steps[..n] + [steps[n]] && [steps[n]][1..] == [];
    FlattenAppend(steps[..n], [steps[n]]);
    assert Flatten([steps[n]]) == steps[n] + Flatten([steps[n]][1..]) == steps[n];
    SectionsAppend(fc, c, Flatten(steps[..n]), steps[n]);
  }

  lemma SameBytes(sent: Bytes, inbox: seq<Bytes>, from: Bytes, all: seq<Bytes>, more: seq<Bytes>)
    requires sent + Flatten(inbox) == from + Flatten(all)
    ensures sent + Flatten(inbox + more) == from + Flatten(all + more)
  {
    FlattenAppend(inbox, more);
    FlattenAppend(all, more);
    Assoc(sent, Flatten(inbox), Flatten(more));
    Assoc(from, Flatten(all), Flatten(more));
  }

  /** The multiplexer. Each method is one section that the source runs without interleaving. */
  class Mux<A, R> {
    const frames: BodyCodec<Frame<A>>
    const replies: BodyCodec<ResponseFrame<R>>
    var nextId: RequestId
    var callers: map<RequestId, Caller<A, R>>
    var pending: set<RequestId>
    var inbox: seq<Bytes>
    var inboxOpen: bool
    var readerAlive: bool
    var enqueued: seq<Frame<A>>

    function State(): ClientState<A, R>
      reads this
    {
      ClientState(nextId, callers, pending, inbox, inboxOpen, readerAlive, enqueued)
    }

    constructor (frames: BodyCodec<Frame<A>>, replies: BodyCodec<ResponseFrame<R>>)
      ensures this.frames == frames && this.replies == replies && State() == Fresh()
    {
      this.frames, this.replies := frames, replies;
      nextId, callers, pending, inbox, inboxOpen, readerAlive, enqueued := 1, map[], {}, [], true, true, [];
    }

    method Mint(kind: Kind, action: A) returns (id: RequestId)
      modifies this
      ensures id == old(nextId) && State() == MintCall(frames, old(State()), kind, action)
    {
      id := nextId;
      nextId := nextId + 1;
      var encoded := EncodeFrame(frames, Frame(Some(id), action));
      var caller;
      match encoded {
        case Err(e) =>
          caller := Caller(kind, action, [], Abandoned, if kind.Request? then Some(NotEncodable(e)) else None);
        case Ok(bytes) =>
          caller := Caller(kind, action, bytes, if kind.Request? then ToRegister else ToPush, None);
      }
      callers := callers[id := caller];
    }

    method Register(id: RequestId)
      requires id in callers && callers[id].stage == ToRegister
      modifies this
      ensures State() == RegisterCall(old(State()), id)
    {
      pending := pending + {id};
      callers := callers[id := callers[id].(stage := ToPush)];
    }

    method Push(id: RequestId) returns (ok: bool)
      requires id in callers && callers[id].stage == ToPush
      modifies this
      ensures ok == old(inboxOpen) && State() == PushCall(old(State()), id)
    {
      var caller := callers[id];
      if inboxOpen {
        inbox := inbox + [caller.bytes];
        callers := callers[id := caller.(stage := Pushed(|enqueued|))];
        enqueued := enqueued + [Frame(Some(id), caller.action)];
        return true;
      }
      pending := pending - {id};
      var outcome := caller.outcome;
      if caller.kind.Request? && outcome.None? { outcome := Some(ConnectionClosed); }
      callers := callers[id := caller.(stage := Abandoned, outcome := outcome)];
      return false;
    }

    method DoAll(xs: seq<Section<A>>)
      modifies this
      ensures State() == DoSections(frames, old(State()), xs)
    {
      hide MintCall, RegisterCall, PushCall;
      for i := 0 to |xs|
        invariant State() == DoSections(frames, old(State()), xs[..i])
      {
        assert xs[..i + 1][..i] == xs[..i];
        match xs[i] {
          case Minting(kind, action) => var _ := Mint(kind, action);
          case Registering(id) => if id in callers && callers[id].stage == ToRegister { Register(id); }
          case Pushing(id) => if id in callers && callers[id].stage == ToPush { var _ := Push(id); }
        }
      }
      assert xs[..|xs|] == xs;
    }

    /** The writer task, with client threads running between its turns: frames go out whole and in
        inbox order until a write fails, which closes the inbox; `n` tells how many of the turns came. */
    method WriterTask(tx: SendStream, meanwhile: seq<seq<Section<A>>>) returns (n: nat)
      requires !tx.broken && inboxOpen
      modifies this, tx
      ensures n <= |meanwhile|
      ensures var all := DoSections(frames, old(State()), Flatten(meanwhile[..n]));
        && State() == all.(inbox := inbox, inboxOpen := inboxOpen)
        && old(tx.sent) <= tx.sent <= old(tx.sent) + Flatten(all.inbox)
        && (inboxOpen ==> n == |meanwhile| && inbox == [] && tx.sent == old(tx.sent) + Flatten(all.inbox))
      ensures inboxOpen <==> !tx.broken
    {
      hide DoSection, MintCall, RegisterCall, PushCall;
      ghost var start, all, from := State(), State(), tx.sent;
      n := 0;
      assert meanwhile[..0] == [];
      while n < |meanwhile| || inbox != []
        invariant n <= |meanwhile|
        invariant !tx.broken && inboxOpen && all.inboxOpen
        invariant all == DoSections(frames, start, Flatten(meanwhile[..n])) && State() == all.(inbox := inbox)
        invariant from <= tx.sent && tx.sent + Flatten(inbox) == from + Flatten(all.inbox)
        decreases |meanwhile| - n, |inbox|
      {
        if n < |meanwhile| {
          ghost var more := SectionsOnlyPush(frames, all, inbox, meanwhile[n]);
          StepsAppend(frames, start, meanwhile, n);
          SameBytes(tx.sent, inbox, from, all.inbox, more);
          DoAll(meanwhile[n]);
          all := DoSections(frames, all, meanwhile[n]);
          n := n + 1;
        }
        if inbox != [] {
          var job := inbox[0];
          ghost var before := tx.sent;
          Assoc(before, job, Flatten(inbox[1..]));
          inbox := inbox[1..];
          var ok := tx.WriteAll(job);
          if !ok {
            inboxOpen := false;
            assert before + job <= before + job + Flatten(inbox);
            return;
          }
        }
      }
      assert tx.sent + [] == tx.sent;
    }

    /** The reader task, with client threads running between deliveries: each response on the stream is
        handed out once, in order, to whoever is registered then; when the stream ends or stops decoding,
        every waiter left is failed. */
    method ReaderTask(rx: RecvStream, meanwhile: seq<seq<Section<A>>>)
      modifies this, rx
      ensures var all := DecodeStream(replies, old(rx.Flat())).0;
        State() == CloseReader(
          Meanwhile(frames, DeliverAmong(frames, old(State()), all, meanwhile), meanwhile, |all|))
    {
      hide DecodeFrame, SplitFrame, DoSections, DeliverReply, CloseReader;
      ghost var all, start := DecodeStream(replies, rx.Flat()).0, State();
      var n := 0;
      assert all[..0] == [] && all[0..] == all;
      while true
        invariant 0 <= n <= |all|
        invariant DecodeStream(replies, rx.Flat()).0 == all[n..]
        invariant State() == DeliverAmong(frames, start, all[..n], meanwhile)
        decreases |rx.Flat()|
      {
        if n < |meanwhile| { DoAll(meanwhile[n]); }
        NextOnStream(replies, rx.Flat());
        var raw := rx.ReadFrame();
        if raw.None? { break; }
        var decoded := DecodeFrame(replies, raw.value);
        if decoded.Err? { break; }
        var rf := decoded.value.0;
        assert all[n..][0] == all[n] && all[n..][1..] == all[n + 1..];
        assert all[..n + 1][..n] == all[..n];
        Deliver(rf);
        n := n + 1;
      }
      assert all[..n] == all;
      Close();
    }

    method Deliver(rf: ResponseFrame<R>)
      modifies this
      ensures State() == DeliverReply(old(State()), rf)
    {
      if rf.requestId in pending && rf.requestId in callers {
        pending := pending - {rf.requestId};
        callers := callers[rf.requestId := callers[rf.requestId].(outcome := Some(Replied(rf.response)))];
      }
    }

    method Close()
      modifies this
      ensures State() == CloseReader(old(State()))
    {
      callers := map id | id in callers ::
        if id in pending then callers[id].(outcome := Some(ConnectionClosed)) else callers[id];
      pending := {};
      readerAlive := false;
    }
  }
}
