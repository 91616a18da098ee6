/** The whole remote-execution pipeline as a step machine: client threads, writer task, bounded byte
    pipe up, sequential server loop (server/handler.rs), bounded byte pipe down, reader task. Every
    step moves as many or as few bytes as it likes, and either direction may fail at any byte. */
module Pipeline {
  import opened Basics
  import opened Protocol
  import opened Codec
  import opened Client

  /** What the machine runs: the two serializers, the engine's meaning, and the pipe capacities. */
  datatype Env<!A, !R, !S> = Env(
    frames: BodyCodec<Frame<A>>,
    replies: BodyCodec<ResponseFrame<R>>,
    handle: (S, A) -> (S, R),
    start: S,
    upCap: nat,
    downCap: nat)

  ghost predicate Sound<A(!new), R(!new), S>(env: Env<A, R, S>) {
    Faithful(env.frames) && Faithful(env.replies)
  }

  /** `answers` and `delivered` are history: every response the engine gave, in order, and how many
      of them the client's reader has taken off the stream. */
  datatype Sys<A, R, S> = Sys(
    client: ClientState<A, R>,
    writing: Bytes,
    up: Bytes,
    reading: Bytes,
    server: S,
    serverAlive: bool,
    replying: Bytes,
    down: Bytes,
    arriving: Bytes,
    answers: seq<ResponseFrame<R>>,
    delivered: nat)

  function Init<A, R, S>(env: Env<A, R, S>): Sys<A, R, S> {
    Sys(Fresh(), [], [], [], env.start, true, [], [], [], [], 0)
  }

  datatype Step<A> =
    | Mint(kind: Kind, action: A)
    | Register(id: RequestId)
    | Push(id: RequestId)
    | WriterTake
    | WriterWrite(n: nat)
    | WriterFail
    | ServerRead(n: nat)
    | ServerDispatch
    | ServerWrite(n: nat)
    | ServerFail
    | ReaderRead(n: nat)
    | ReaderDeliver
    | ReaderExit

  predicate Enabled<A, R, S>(env: Env<A, R, S>, s: Sys<A, R, S>, l: Step<A>) {
    match l
    case Mint(_, _) => true
    case Register(id) => AtStage(s.client, id, ToRegister)
    case Push(id) => AtStage(s.client, id, ToPush)
    case WriterTake => s.client.inboxOpen && s.writing == [] && s.client.inbox != []
    case WriterWrite(n) => s.client.inboxOpen && 0 < n <= |s.writing| && |s.up| + n <= env.upCap
    case WriterFail => s.client.inboxOpen
    case ServerRead(n) => s.serverAlive && s.replying == [] && 0 < n <= |s.up| && n <= Missing(s.reading)
    case ServerDispatch => s.serverAlive && s.replying == [] && Complete(s.reading)
    case ServerWrite(n) => s.serverAlive && 0 < n <= |s.replying| && |s.down| + n <= env.downCap
    case ServerFail => s.serverAlive
    case ReaderRead(n) => s.client.readerAlive && 0 < n <= |s.down| && n <= Missing(s.arriving)
    case ReaderDeliver => s.client.readerAlive && Complete(s.arriving)
    case ReaderExit => s.client.readerAlive
  }

  function IdOf<A>(f: Frame<A>): RequestId { if f.requestId.Some? then f.requestId.value else 0 }

  /** One turn of the server loop: decode, dispatch, encode; an undecodable frame or an unencodable
      response ends the loop, the latter after the action has run. */
  function Serve<A, R, S>(env: Env<A, R, S>, s: Sys<A, R, S>): Sys<A, R, S> {
    match DecodeFrame(env.frames, s.reading)
    case Err(_) => s.(serverAlive := false)
    case Ok((f, _)) =>
      var (next, r) := env.handle(s.server, f.action);
      var answer := ResponseFrame(IdOf(f), r);
      var ran := s.(reading := [], server := next, answers := s.answers + [answer]);
      match EncodeFrame(env.replies, answer)
      case Err(_) => ran.(serverAlive := false)
      case Ok(bytes) => ran.(replying := bytes)
  }

  function Receive<A, R, S>(env: Env<A, R, S>, s: Sys<A, R, S>): Sys<A, R, S> {
    match DecodeFrame(env.replies, s.arriving)
    case Err(_) => s.(client := CloseReader(s.client))
    case Ok((rf, _)) => s.(client := DeliverReply(s.client, rf), arriving := [], delivered := s.delivered + 1)
  }

  function Apply<A, R, S>(env: Env<A, R, S>, s: Sys<A, R, S>, l: Step<A>): Sys<A, R, S>
    requires Enabled(env, s, l)
  {
    match l
    case Mint(kind, action) => s.(client := MintCall(env.frames, s.client, kind, action))
    case Register(id) => s.(client := RegisterCall(s.client, id))
    case Push(id) => s.(client := PushCall(s.client, id))
    case WriterTake => s.(writing := s.client.inbox[0], client := s.client.(inbox := s.client.inbox[1..]))
    case WriterWrite(n) => s.(writing := s.writing[n..], up := s.up + s.writing[..n])
    case WriterFail => s.(client := s.client.(inboxOpen := false))
    case ServerRead(n) => s.(up := s.up[n..], reading := s.reading + s.up[..n])
    case ServerDispatch => Serve(env, s)
    case ServerWrite(n) => s.(replying := s.replying[n..], down := s.down + s.replying[..n])
    case ServerFail => s.(serverAlive := false)
    case ReaderRead(n) => s.(down := s.down[n..], arriving := s.arriving + s.down[..n])
    case ReaderDeliver => Receive(env, s)
    case ReaderExit => s.(client := CloseReader(s.client))
  }

  predicate Legal<A, R, S>(env: Env<A, R, S>, s: Sys<A, R, S>, ls: seq<Step<A>>)
    decreases |ls|
  {
    ls != [] ==> Enabled(env, s, ls[0]) && Legal(env, Apply(env, s, ls[0]), ls[1..])
  }

  function Run<A, R, S>(env: Env<A, R, S>, s: Sys<A, R, S>, ls: seq<Step<A>>): Sys<A, R, S>
    requires Legal(env, s, ls)
    decreases |ls|
  {
    if ls == [] then s else Run(env, Apply(env, s, ls[0]), ls[1..])
  }

  // ---- the reference: the enqueued actions run in order, one at a time ----

  function StateAfter<A, R, S>(env: Env<A, R, S>, fs: seq<Frame<A>>): S
    decreases |fs|
  {
    if fs == [] then env.start
    else env.handle(StateAfter(env, fs[..|fs| - 1]), fs[|fs| - 1].action).0
  }

  function AnswerTo<A, R, S>(env: Env<A, R, S>, fs: seq<Frame<A>>, i: nat): ResponseFrame<R>
    requires i < |fs|
  {
    ResponseFrame(IdOf(fs[i]), env.handle(StateAfter(env, fs[..i]), fs[i].action).1)
  }

  lemma AnswerIgnoresLater<A, R, S>(env: Env<A, R, S>, fs: seq<Frame<A>>, more: seq<Frame<A>>, i: nat)
    requires i < |fs|
    ensures AnswerTo(env, fs + more, i) == AnswerTo(env, fs, i)
  {
    assert (fs + more)[..i] == fs[..i];
  }

  // ---- the invariant ----

  /** Every byte of every enqueued, undispatched frame is somewhere on the way up, in order. */
  ghost predicate UpInv<A>(
      fc: BodyCodec<Frame<A>>, enqueued: seq<Frame<A>>, done: nat, reading: Bytes, up: Bytes, writing: Bytes,
      inbox: seq<Bytes>)
  {
    && done <= |enqueued|
    && EncodeAll(fc, enqueued[done..]) == reading + (up + (writing + Flatten(inbox)))
    && (|reading| >= 4 ==> Missing(reading) >= 0)
  }

  /** Every byte of every undelivered response is somewhere on the way down, in order. Only a
      response that ended the server loop may be unencodable. */
  ghost predicate DownInv<R>(
      rc: BodyCodec<ResponseFrame<R>>, answers: seq<ResponseFrame<R>>, delivered: nat, serverAlive: bool,
      arriving: Bytes, down: Bytes, replying: Bytes)
  {
    && delivered <= |answers|
    && EncodeAll(rc, answers[delivered..]) == arriving + (down + replying)
    && (|arriving| >= 4 ==> Missing(arriving) >= 0)
    && (forall i :: 0 <= i < |answers| && (serverAlive || i + 1 < |answers|) ==> Fits(rc, answers[i]))
  }

  /** The engine has run exactly the first frames enqueued, and answered each as the reference does. */
  ghost predicate ServerInv<A, R, S>(
      env: Env<A, R, S>, server: S, enqueued: seq<Frame<A>>, answers: seq<ResponseFrame<R>>)
  {
    && |answers| <= |enqueued|
    && server == StateAfter(env, enqueued[..|answers|])
    && (forall i :: 0 <= i < |answers| ==> answers[i] == AnswerTo(env, enqueued, i))
  }

  ghost predicate CallerOk<A, R>(
      fc: BodyCodec<Frame<A>>, k: Caller<A, R>, id: RequestId, waiting: bool, enqueued: seq<Frame<A>>,
      answers: seq<ResponseFrame<R>>, delivered: nat)
  {
    && (waiting <==> k.kind.Request? && (k.stage.ToPush? || k.stage.Pushed?) && k.outcome.None?)
    && (k.stage.ToRegister? ==> k.kind.Request? && k.outcome.None?)
    && (k.stage.ToRegister? || k.stage.ToPush? ==> EncodeFrame(fc, FrameFor(id, k.action)) == Ok(k.bytes))
    && (k.stage.Pushed? ==>
          k.stage.position < |enqueued| && enqueued[k.stage.position] == FrameFor(id, k.action))
    && (k.stage.Pushed? && k.kind.Request? && k.stage.position < delivered ==> k.outcome.Some?)
    && (k.outcome.Some? && k.outcome.value.Replied? ==>
          && k.kind.Request? && k.stage.Pushed? && k.stage.position < delivered <= |answers|
          && answers[k.stage.position].response == k.outcome.value.response)
    && (k.stage.Abandoned? && k.kind.Request? ==> k.outcome.Some?)
    && (k.kind.Send? ==> k.outcome.None?)
  }

  /** Each id belongs to one call, each enqueued frame to the call that pushed it there, and the
      pending map holds exactly the registered requests not yet settled. */
  ghost predicate ClientInv<A, R>(
      fc: BodyCodec<Frame<A>>, c: ClientState<A, R>, answers: seq<ResponseFrame<R>>, delivered: nat)
  {
    && c.nextId >= 1
    && (forall id :: id in c.callers <==> 1 <= id < c.nextId)
    && (forall id :: id in c.pending ==> id in c.callers)
    && (forall id :: id in c.callers ==>
          CallerOk(fc, c.callers[id], id, id in c.pending, c.enqueued, answers, delivered))
    && (forall p :: 0 <= p < |c.enqueued| ==> EnqueuedOk(fc, c, p))
  }

  predicate EnqueuedOk<A, R>(fc: BodyCodec<Frame<A>>, c: ClientState<A, R>, p: nat)
    requires p < |c.enqueued|
  {
    && Fits(fc, c.enqueued[p])
    && c.enqueued[p].requestId.Some?
    && AtStage(c, c.enqueued[p].requestId.value, Pushed(p))
  }

  ghost predicate Inv<A, R, S>(env: Env<A, R, S>, s: Sys<A, R, S>) {
    && UpInv(env.frames, s.client.enqueued, |s.answers|, s.reading, s.up, s.writing, s.client.inbox)
    && DownInv(env.replies, s.answers, s.delivered, s.serverAlive, s.arriving, s.down, s.replying)
    && ServerInv(env, s.server, s.client.enqueued, s.answers)
    && ClientInv(env.frames, s.client, s.answers, s.delivered)
  }

  lemma InitInv<A, R, S>(env: Env<A, R, S>)
    ensures Inv(env, Init(env))
  {
  }

  // ---- the client's part ----

  lemma MintKeepsClient<A, R>(
      fc: BodyCodec<Frame<A>>, c: ClientState<A, R>, answers: seq<ResponseFrame<R>>, delivered: nat, kind: Kind,
      action: A)
    requires ClientInv(fc, c, answers, delivered)
    ensures ClientInv(fc, MintCall(fc, c, kind, action), answers, delivered)
  {
    hide EncodeFrame;
    var d := MintCall(fc, c, kind, action);
    forall id | id in d.callers
      ensures CallerOk(fc, d.callers[id], id, id in d.pending, d.enqueued, answers, delivered)
    {
      if id != c.nextId { assert id in c.callers; }
    }
    forall p | 0 <= p < |c.enqueued| ensures EnqueuedOk(fc, d, p) {
      assert EnqueuedOk(fc, c, p);
    }
  }

  lemma RegisterKeepsClient<A, R>(
      fc: BodyCodec<Frame<A>>, c: ClientState<A, R>, answers: seq<ResponseFrame<R>>, delivered: nat, id: RequestId)
    requires ClientInv(fc, c, answers, delivered) && AtStage(c, id, ToRegister)
    ensures ClientInv(fc, RegisterCall(c, id), answers, delivered)
  {
    hide EncodeFrame;
    forall p | 0 <= p < |c.enqueued| ensures EnqueuedOk(fc, RegisterCall(c, id), p) {
      assert EnqueuedOk(fc, c, p);
    }
  }

  lemma PushKeepsClient<A, R>(
      fc: BodyCodec<Frame<A>>, c: ClientState<A, R>, answers: seq<ResponseFrame<R>>, delivered: nat, id: RequestId)
    requires ClientInv(fc, c, answers, delivered) && AtStage(c, id, ToPush)
    requires delivered <= |answers| <= |c.enqueued|
    ensures ClientInv(fc, PushCall(c, id), answers, delivered)
  {
    hide EncodeFrame;
    var d := PushCall(c, id);
    assert CallerOk(fc, c.callers[id], id, id in c.pending, c.enqueued, answers, delivered);
    forall j | j in d.callers
      ensures CallerOk(fc, d.callers[j], j, j in d.pending, d.enqueued, answers, delivered)
    {
      assert CallerOk(fc, c.callers[j], j, j in c.pending, c.enqueued, answers, delivered);
    }
    forall p | 0 <= p < |d.enqueued| ensures EnqueuedOk(fc, d, p) {
      if p < |c.enqueued| { assert EnqueuedOk(fc, c, p); }
    }
  }

  lemma InboxKeepsClient<A, R>(
      fc: BodyCodec<Frame<A>>, c: ClientState<A, R>, answers: seq<ResponseFrame<R>>, delivered: nat,
      inbox: seq<Bytes>, inboxOpen: bool)
    requires ClientInv(fc, c, answers, delivered)
    ensures ClientInv(fc, c.(inbox := inbox, inboxOpen := inboxOpen), answers, delivered)
  {
    hide CallerOk, Fits;
    forall p | 0 <= p < |c.enqueued| ensures EnqueuedOk(fc, c.(inbox := inbox, inboxOpen := inboxOpen), p) {
      assert EnqueuedOk(fc, c, p);
    }
  }

  lemma AnswersKeepClient<A, R>(
      fc: BodyCodec<Frame<A>>, c: ClientState<A, R>, answers: seq<ResponseFrame<R>>, more: seq<ResponseFrame<R>>,
      delivered: nat)
    requires ClientInv(fc, c, answers, delivered) && delivered <= |answers|
    ensures ClientInv(fc, c, answers + more, delivered)
  {
    hide EncodeFrame, Fits;
    forall j | j in c.callers
      ensures CallerOk(fc, c.callers[j], j, j in c.pending, c.enqueued, answers + more, delivered)
    {
      assert CallerOk(fc, c.callers[j], j, j in c.pending, c.enqueued, answers, delivered);
    }
  }

  /** Delivering the next answer settles the request that asked for it, if it was a request. */
  lemma DeliverKeepsClient<A, R>(
      fc: BodyCodec<Frame<A>>, c: ClientState<A, R>, answers: seq<ResponseFrame<R>>, delivered: nat)
    requires ClientInv(fc, c, answers, delivered) && delivered < |answers| <= |c.enqueued|
    requires c.enqueued[delivered].requestId == Some(answers[delivered].requestId)
    ensures ClientInv(fc, DeliverReply(c, answers[delivered]), answers, delivered + 1)
  {
    hide EncodeFrame, Fits;
    var rf := answers[delivered];
    var d := DeliverReply(c, rf);
    assert EnqueuedOk(fc, c, delivered);
    assert CallerOk(fc, c.callers[rf.requestId], rf.requestId, rf.requestId in c.pending, c.enqueued, answers,
      delivered);
    forall j | j in d.callers
      ensures CallerOk(fc, d.callers[j], j, j in d.pending, d.enqueued, answers, delivered + 1)
    {
      assert CallerOk(fc, c.callers[j], j, j in c.pending, c.enqueued, answers, delivered);
    }
    forall p | 0 <= p < |c.enqueued| ensures EnqueuedOk(fc, d, p) {
      assert EnqueuedOk(fc, c, p);
    }
  }

  lemma CloseKeepsClient<A, R>(
      fc: BodyCodec<Frame<A>>, c: ClientState<A, R>, answers: seq<ResponseFrame<R>>, delivered: nat)
    requires ClientInv(fc, c, answers, delivered)
    ensures ClientInv(fc, CloseReader(c), answers, delivered)
  {
    hide EncodeFrame, Fits;
    var d := CloseReader(c);
    forall j | j in d.callers
      ensures CallerOk(fc, d.callers[j], j, j in d.pending, d.enqueued, answers, delivered)
    {
      assert CallerOk(fc, c.callers[j], j, j in c.pending, c.enqueued, answers, delivered);
    }
    forall p | 0 <= p < |c.enqueued| ensures EnqueuedOk(fc, d, p) {
      assert EnqueuedOk(fc, c, p);
    }
  }

  // ---- the bytes' part ----

  lemma Shift(a: Bytes, b: Bytes, rest: Bytes, n: nat)
    requires n <= |b|
    ensures (a + b[..n]) + (b[n..] + rest) == a + (b + rest)
  {
    assert b[..n] + b[n..] == b;
  }

  lemma FeedMissing(buf: Bytes, more: Bytes)
    requires |more| <= Missing(buf) && (|buf| >= 4 ==> Missing(buf) >= 0)
    ensures |buf + more| >= 4 ==> Missing(buf + more) >= 0
  {
    if |buf| >= 4 { assert (buf + more)[..4] == buf[..4]; }
  }

  lemma PushKeepsUp<A>(
      fc: BodyCodec<Frame<A>>, enqueued: seq<Frame<A>>, done: nat, reading: Bytes, up: Bytes, writing: Bytes,
      inbox: seq<Bytes>, f: Frame<A>, bytes: Bytes)
    requires UpInv(fc, enqueued, done, reading, up, writing, inbox) && EncodeFrame(fc, f) == Ok(bytes)
    ensures UpInv(fc, enqueued + [f], done, reading, up, writing, inbox + [bytes])
  {
    hide EncodeFrame, Missing;
    assert (enqueued + [f])[done..] == enqueued[done..] + [f];
    EncodeAllAppend(fc, enqueued[done..], [f]);
    EncodeAllOne(fc, f);
    assert FrameOf(fc, f) == bytes;
    FlattenAppend(inbox, [bytes]);
    FlattenOne(bytes);
    var flat := Flatten(inbox);
    Assoc(writing, flat, bytes);
    Assoc(up, writing + flat, bytes);
    Assoc(reading, up + (writing + flat), bytes);
  }

  lemma FlattenOne(b: Bytes)
    ensures Flatten([b]) == b
  {
    assert [b][1..] == [];
    assert Flatten([b]) == b + Flatten([b][1..]);
    assert b + [] == b;
  }

  /** Whatever the server is about to dispatch is the next enqueued frame, whole. */
  lemma NextFrameIsWhole<A(!new)>(
      fc: BodyCodec<Frame<A>>, enqueued: seq<Frame<A>>, done: nat, reading: Bytes, up: Bytes, writing: Bytes,
      inbox: seq<Bytes>)
    requires Faithful(fc) && UpInv(fc, enqueued, done, reading, up, writing, inbox) && Complete(reading)
    requires forall f :: f in enqueued ==> Fits(fc, f)
    ensures done < |enqueued|
    ensures DecodeFrame(fc, reading) == Ok((enqueued[done], |reading|))
    ensures UpInv(fc, enqueued, done + 1, [], up, writing, inbox)
  {
    hide FrameOf, Fits, DecodeFrame;
    var rest := enqueued[done..];
    if rest != [] { assert rest[0] == enqueued[done]; }
    HeadFrame(fc, rest, reading, up + (writing + Flatten(inbox)));
    assert rest[1..] == enqueued[done + 1..];
    assert [] + (up + (writing + Flatten(inbox))) == up + (writing + Flatten(inbox));
  }

  /** Whatever the reader is about to deliver is the next undelivered answer, whole. */
  lemma NextAnswerIsWhole<R(!new)>(
      rc: BodyCodec<ResponseFrame<R>>, answers: seq<ResponseFrame<R>>, delivered: nat, serverAlive: bool,
      arriving: Bytes, down: Bytes, replying: Bytes)
    requires Faithful(rc) && DownInv(rc, answers, delivered, serverAlive, arriving, down, replying)
    requires Complete(arriving)
    ensures delivered < |answers|
    ensures DecodeFrame(rc, arriving) == Ok((answers[delivered], |arriving|))
    ensures DownInv(rc, answers, delivered + 1, serverAlive, [], down, replying)
  {
    hide DecodeFrame;
    var rest := answers[delivered..];
    var wire := arriving + (down + replying);
    assert |wire| >= 4;
    if rest != [] {
      assert rest[0] == answers[delivered];
      if !Fits(rc, rest[0]) {
        assert rest == [rest[0]];
        EncodeAllOne(rc, rest[0]);
      }
    }
    hide FrameOf, Fits;
    HeadFrame(rc, rest, arriving, down + replying);
    assert rest[1..] == answers[delivered + 1..];
    assert [] + (down + replying) == down + replying;
  }

  /** A new answer extends what is on the way down by its frame, or by nothing if it has none. */
  lemma AnswerKeepsDown<R>(
      rc: BodyCodec<ResponseFrame<R>>, answers: seq<ResponseFrame<R>>, delivered: nat,
      arriving: Bytes, down: Bytes, answer: ResponseFrame<R>)
    requires DownInv(rc, answers, delivered, true, arriving, down, [])
    ensures DownInv(rc, answers + [answer], delivered, Fits(rc, answer), arriving, down, FrameOf(rc, answer))
  {
    hide FrameOf, Missing;
    assert (answers + [answer])[delivered..] == answers[delivered..] + [answer];
    EncodeAllAppend(rc, answers[delivered..], [answer]);
    EncodeAllOne(rc, answer);
    assert down + [] == down;
    Assoc(arriving, down, FrameOf(rc, answer));
  }

  // ---- the server's part ----

  lemma PushKeepsServer<A, R, S>(
      env: Env<A, R, S>, server: S, enqueued: seq<Frame<A>>, answers: seq<ResponseFrame<R>>, f: Frame<A>)
    requires ServerInv(env, server, enqueued, answers)
    ensures ServerInv(env, server, enqueued + [f], answers)
  {
    var n := |answers|;
    assert (enqueued + [f])[..n] == enqueued[..n];
    forall i | 0 <= i < n ensures answers[i] == AnswerTo(env, enqueued + [f], i) {
      AnswerIgnoresLater(env, enqueued, [f], i);
    }
  }

  lemma DispatchKeepsServer<A, R, S>(env: Env<A, R, S>, server: S, enqueued: seq<Frame<A>>,
      answers: seq<ResponseFrame<R>>)
    requires ServerInv(env, server, enqueued, answers) && |answers| < |enqueued|
    ensures var f := enqueued[|answers|];
      var (next, r) := env.handle(server, f.action);
      ServerInv(env, next, enqueued, answers + [ResponseFrame(IdOf(f), r)])
  {
    var n := |answers|;
    assert enqueued[..n + 1][..n] == enqueued[..n];
  }

  // ---- every step keeps the invariant ----

  lemma ClientStepKeeps<A, R, S>(env: Env<A, R, S>, s: Sys<A, R, S>, l: Step<A>)
    requires Inv(env, s) && Enabled(env, s, l) && (l.Mint? || l.Register? || l.Push?)
    ensures Inv(env, Apply(env, s, l))
  {
    hide UpInv, DownInv, ServerInv, ClientInv;
    match l
    case Mint(kind, action) => MintKeepsClient(env.frames, s.client, s.answers, s.delivered, kind, action);
    case Register(id) => RegisterKeepsClient(env.frames, s.client, s.answers, s.delivered, id);
    case Push(id) =>
      Bounds(env, s);
      PushKeepsClient(env.frames, s.client, s.answers, s.delivered, id);
      if s.client.inboxOpen {
        ReadyBytes(env.frames, s.client, s.answers, s.delivered, id);
        var caller := s.client.callers[id];
        var f := FrameFor(id, caller.action);
        PushKeepsUp(env.frames, s.client.enqueued, |s.answers|, s.reading, s.up, s.writing, s.client.inbox, f,
          caller.bytes);
        PushKeepsServer(env, s.server, s.client.enqueued, s.answers, f);
      }
  }

  lemma Bounds<A, R, S>(env: Env<A, R, S>, s: Sys<A, R, S>)
    requires Inv(env, s)
    ensures s.delivered <= |s.answers| <= |s.client.enqueued|
  {
    hide ClientInv;
  }

  lemma ReadyBytes<A, R>(
      fc: BodyCodec<Frame<A>>, c: ClientState<A, R>, answers: seq<ResponseFrame<R>>, delivered: nat, id: RequestId)
    requires ClientInv(fc, c, answers, delivered) && AtStage(c, id, ToPush)
    ensures EncodeFrame(fc, FrameFor(id, c.callers[id].action)) == Ok(c.callers[id].bytes)
  {
    hide EncodeFrame;
    assert CallerOk(fc, c.callers[id], id, id in c.pending, c.enqueued, answers, delivered);
  }

  lemma ByteStepKeeps<A, R, S>(env: Env<A, R, S>, s: Sys<A, R, S>, l: Step<A>)
    requires Inv(env, s) && Enabled(env, s, l)
    requires l.WriterTake? || l.WriterWrite? || l.ServerRead? || l.ServerWrite? || l.ReaderRead?
    ensures Inv(env, Apply(env, s, l))
  {
    hide ServerInv, ClientInv, Fits;
    match l
    case WriterTake =>
      InboxKeepsClient(env.frames, s.client, s.answers, s.delivered, s.client.inbox[1..], true);
      assert [] + Flatten(s.client.inbox) == Flatten(s.client.inbox);
    case WriterWrite(n) =>
      Shift(s.up, s.writing, Flatten(s.client.inbox), n);
    case ServerRead(n) =>
      Shift(s.reading, s.up, s.writing + Flatten(s.client.inbox), n);
      FeedMissing(s.reading, s.up[..n]);
    case ServerWrite(n) =>
      Shift(s.down, s.replying, [], n);
      assert s.replying[n..] + [] == s.replying[n..] && s.replying + [] == s.replying;
    case ReaderRead(n) =>
      Shift(s.arriving, s.down, s.replying, n);
      FeedMissing(s.arriving, s.down[..n]);
  }

  lemma FailureKeeps<A, R, S>(env: Env<A, R, S>, s: Sys<A, R, S>, l: Step<A>)
    requires Inv(env, s) && Enabled(env, s, l) && (l.WriterFail? || l.ServerFail? || l.ReaderExit?)
    ensures Inv(env, Apply(env, s, l))
  {
    hide UpInv, ServerInv, ClientInv, Fits;
    match l
    case WriterFail => InboxKeepsClient(env.frames, s.client, s.answers, s.delivered, s.client.inbox, false);
    case ServerFail =>
    case ReaderExit => CloseKeepsClient(env.frames, s.client, s.answers, s.delivered);
  }

  lemma EnqueuedFit<A, R>(fc: BodyCodec<Frame<A>>, c: ClientState<A, R>, answers: seq<ResponseFrame<R>>, delivered: nat)
    requires ClientInv(fc, c, answers, delivered)
    ensures forall f :: f in c.enqueued ==> Fits(fc, f) && f.requestId.Some?
  {
    hide Fits, CallerOk;
    forall f | f in c.enqueued ensures Fits(fc, f) && f.requestId.Some? {
      var p :| 0 <= p < |c.enqueued| && c.enqueued[p] == f;
      assert EnqueuedOk(fc, c, p);
    }
  }

  lemma DispatchKeeps<A(!new), R(!new), S>(env: Env<A, R, S>, s: Sys<A, R, S>)
    requires Sound(env) && Inv(env, s) && Enabled(env, s, ServerDispatch)
    ensures Inv(env, Apply(env, s, ServerDispatch))
    ensures Apply(env, s, ServerDispatch).answers == s.answers + [AnswerTo(env, s.client.enqueued, |s.answers|)]
  {
    hide UpInv, DownInv, ServerInv, ClientInv, DecodeFrame, Complete;
    EnqueuedFit(env.frames, s.client, s.answers, s.delivered);
    NextFrameIsWhole(env.frames, s.client.enqueued, |s.answers|, s.reading, s.up, s.writing, s.client.inbox);
    var f := s.client.enqueued[|s.answers|];
    var answer := ResponseFrame(IdOf(f), env.handle(s.server, f.action).1);
    DispatchKeepsServer(env, s.server, s.client.enqueued, s.answers);
    AnswerKeepsDown(env.replies, s.answers, s.delivered, s.arriving, s.down, answer);
    Bounds(env, s);
    AnswersKeepClient(env.frames, s.client, s.answers, [answer], s.delivered);
    assert answer == AnswerTo(env, s.client.enqueued, |s.answers|) by {
      ServerIs(env, s.server, s.client.enqueued, s.answers);
    }
  }

  lemma ServerIs<A, R, S>(env: Env<A, R, S>, server: S, enqueued: seq<Frame<A>>, answers: seq<ResponseFrame<R>>)
    requires ServerInv(env, server, enqueued, answers)
    ensures server == StateAfter(env, enqueued[..|answers|])
    ensures forall i :: 0 <= i < |answers| ==> answers[i] == AnswerTo(env, enqueued, i)
  {
  }

  lemma DeliverKeeps<A(!new), R(!new), S>(env: Env<A, R, S>, s: Sys<A, R, S>)
    requires Sound(env) && Inv(env, s) && Enabled(env, s, ReaderDeliver)
    ensures Inv(env, Apply(env, s, ReaderDeliver))
    ensures Apply(env, s, ReaderDeliver).delivered == s.delivered + 1
  {
    hide UpInv, DownInv, ServerInv, ClientInv, DecodeFrame, Complete;
    NextAnswerIsWhole(env.replies, s.answers, s.delivered, s.serverAlive, s.arriving, s.down, s.replying);
    Bounds(env, s);
    ServerIs(env, s.server, s.client.enqueued, s.answers);
    EnqueuedFit(env.frames, s.client, s.answers, s.delivered);
    assert s.client.enqueued[s.delivered] in s.client.enqueued;
    DeliverKeepsClient(env.frames, s.client, s.answers, s.delivered);
  }

  lemma StepKeeps<A(!new), R(!new), S>(env: Env<A, R, S>, s: Sys<A, R, S>, l: Step<A>)
    requires Sound(env) && Inv(env, s) && Enabled(env, s, l)
    ensures Inv(env, Apply(env, s, l))
  {
    hide Inv, Apply, Enabled;
    match l
    case ServerDispatch => DispatchKeeps(env, s);
    case ReaderDeliver => DeliverKeeps(env, s);
    case Mint(_, _) => ClientStepKeeps(env, s, l);
    case Register(_) => ClientStepKeeps(env, s, l);
    case Push(_) => ClientStepKeeps(env, s, l);
    case WriterFail => FailureKeeps(env, s, l);
    case ServerFail => FailureKeeps(env, s, l);
    case ReaderExit => FailureKeeps(env, s, l);
    case _ => ByteStepKeeps(env, s, l);
  }

  /** Every interleaving of client, writer, server and reader, with every chunking of the bytes and
      every failure, keeps the invariant. */
  lemma {:induction false} RunKeeps<A(!new), R(!new), S>(env: Env<A, R, S>, s: Sys<A, R, S>, ls: seq<Step<A>>)
    requires Sound(env) && Inv(env, s) && Legal(env, s, ls)
    ensures Inv(env, Run(env, s, ls))
    decreases |ls|
  {
    hide Inv, Apply, Enabled;
    if ls != [] {
      StepKeeps(env, s, ls[0]);
      RunKeeps(env, Apply(env, s, ls[0]), ls[1..]);
    }
  }
}
