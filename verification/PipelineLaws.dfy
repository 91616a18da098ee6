/** What every run of the pipeline guarantees: responses mean the sequential run, resolved requests
    are barriers, failures leave prefixes, waiters are settled once, and nothing gets stuck. */
module PipelineLaws {
  import opened Basics
  import opened Protocol
  import opened Codec
  import opened Client
  import opened Pipeline

  // ---- meaning of a response ----

  predicate Answered<A, R>(c: ClientState<A, R>, id: RequestId) {
    id in c.callers && c.callers[id].outcome.Some? && c.callers[id].outcome.value.Replied?
  }

  /** A response is the one the request's own action gets when all enqueued actions run in order, one
      at a time. By then the engine has run that action and every action enqueued before it. */
  ghost predicate SequentialReply<A, R, S>(env: Env<A, R, S>, s: Sys<A, R, S>, id: RequestId)
    requires id in s.client.callers
  {
    var k, enq := s.client.callers[id], s.client.enqueued;
    && k.kind.Request? && k.stage.Pushed?
    && k.stage.position < |s.answers| <= |enq|
    && enq[k.stage.position] == FrameFor(id, k.action)
    && k.outcome == Some(Replied(AnswerTo(env, enq, k.stage.position).response))
    && s.server == StateAfter(env, enq[..|s.answers|])
  }

  lemma RepliesAreSequential<A, R, S>(env: Env<A, R, S>, s: Sys<A, R, S>, id: RequestId)
    requires Inv(env, s) && Answered(s.client, id)
    ensures SequentialReply(env, s, id)
  {
    CallerIs(env.frames, s.client, s.answers, s.delivered, id);
    Bounds(env, s);
    ServerIs(env, s.server, s.client.enqueued, s.answers);
  }

  /** For every run: a request that got a response was enqueued, and the response is the sequential
      one, whichever thread enqueued whatever came before it. */
  lemma ResponseMeansSequentialRun<A(!new), R(!new), S>(env: Env<A, R, S>, ls: seq<Step<A>>, id: RequestId)
    requires Sound(env) && Legal(env, Init(env), ls)
    requires Answered(Run(env, Init(env), ls).client, id)
    ensures SequentialReply(env, Run(env, Init(env), ls), id)
  {
    InitInv(env);
    RunKeeps(env, Init(env), ls);
    hide Inv, SequentialReply, Run, Legal;
    RepliesAreSequential(env, Run(env, Init(env), ls), id);
  }

  lemma CallerIs<A, R>(
      fc: BodyCodec<Frame<A>>, c: ClientState<A, R>, answers: seq<ResponseFrame<R>>, delivered: nat, id: RequestId)
    requires ClientInv(fc, c, answers, delivered) && id in c.callers
    ensures CallerOk(fc, c.callers[id], id, id in c.pending, c.enqueued, answers, delivered)
  {
    hide CallerOk, EnqueuedOk;
  }

  // ---- what failure can leave behind ----

  /** The bytes that reached the server are a prefix of the encoded enqueued frames, the engine has
      executed exactly a prefix of the enqueued actions, and the bytes that reached the client are a
      prefix of the encoded answers. */
  ghost predicate PrefixSafe<A, R, S>(env: Env<A, R, S>, s: Sys<A, R, S>) {
    var enq, n := s.client.enqueued, |s.answers|;
    && s.delivered <= n <= |enq|
    && s.server == StateAfter(env, enq[..n])
    && EncodeAll(env.frames, enq[..n]) + s.reading + s.up <= EncodeAll(env.frames, enq)
    && EncodeAll(env.replies, s.answers[..s.delivered]) + s.arriving + s.down <= EncodeAll(env.replies, s.answers)
  }

  /** For every run, with failures at any byte, only prefixes get through: no action is torn,
      skipped or reordered. */
  lemma OnlyPrefixes<A(!new), R(!new), S>(env: Env<A, R, S>, ls: seq<Step<A>>)
    requires Sound(env) && Legal(env, Init(env), ls)
    ensures PrefixSafe(env, Run(env, Init(env), ls))
  {
    InitInv(env);
    RunKeeps(env, Init(env), ls);
    hide Inv, PrefixSafe, Enabled, Apply;
    InvIsPrefixSafe(env, Run(env, Init(env), ls));
  }

  lemma InvIsPrefixSafe<A, R, S>(env: Env<A, R, S>, s: Sys<A, R, S>)
    requires Inv(env, s)
    ensures PrefixSafe(env, s)
  {
    var enq, n := s.client.enqueued, |s.answers|;
    ServerIs(env, s.server, enq, s.answers) by { hide UpInv, DownInv, ClientInv; }
    BytesAre(env, s);
    hide Inv, FrameOf, Missing;
    PrefixOfEncoding(env.frames, enq, n, s.reading, s.up, s.writing + Flatten(s.client.inbox));
    PrefixOfEncoding(env.replies, s.answers, s.delivered, s.arriving, s.down, s.replying);
  }

  lemma PrefixOfEncoding<T>(c: BodyCodec<T>, vs: seq<T>, n: nat, a: Bytes, b: Bytes, rest: Bytes)
    requires n <= |vs| && EncodeAll(c, vs[n..]) == a + (b + rest)
    ensures EncodeAll(c, vs[..n]) + a + b <= EncodeAll(c, vs)
  {
    hide FrameOf;
    assert vs[..n] + vs[n..] == vs;
    EncodeAllAppend(c, vs[..n], vs[n..]);
    var head := EncodeAll(c, vs[..n]);
    assert head + (a + (b + rest)) == (head + a + b) + rest;
  }

  lemma BytesAre<A, R, S>(env: Env<A, R, S>, s: Sys<A, R, S>)
    requires Inv(env, s)
    ensures s.delivered <= |s.answers| <= |s.client.enqueued|
    ensures EncodeAll(env.frames, s.client.enqueued[|s.answers|..])
      == s.reading + (s.up + (s.writing + Flatten(s.client.inbox)))
    ensures EncodeAll(env.replies, s.answers[s.delivered..]) == s.arriving + (s.down + s.replying)
    ensures |s.reading| >= 4 ==> Missing(s.reading) >= 0
    ensures |s.arriving| >= 4 ==> Missing(s.arriving) >= 0
  {
    hide ServerInv, ClientInv, Missing;
  }

  // ---- every id is in one place ----

  /** For every run, an id is on at most one frame and on at most one answer, at the same place in
      the two orders. Hence a call's frame is still on its way up, being served, or its answer on its
      way down, or delivered, and never in two of these at once. */
  lemma IdsAppearOnce<A(!new), R(!new), S>(env: Env<A, R, S>, ls: seq<Step<A>>)
    requires Sound(env) && Legal(env, Init(env), ls)
    ensures var s := Run(env, Init(env), ls); var enq := s.client.enqueued;
      && s.delivered <= |s.answers| <= |enq|
      && (forall p, q :: 0 <= p < |enq| && 0 <= q < |enq| && enq[p].requestId == enq[q].requestId ==> p == q)
      && (forall p :: 0 <= p < |s.answers| ==> enq[p].requestId == Some(s.answers[p].requestId))
  {
    InitInv(env);
    RunKeeps(env, Init(env), ls);
    var s := Run(env, Init(env), ls);
    Bounds(env, s);
    ServerIs(env, s.server, s.client.enqueued, s.answers);
    FramesOnce(env.frames, s.client, s.answers, s.delivered);
    hide Inv, Legal, Run;
  }

  lemma FramesOnce<A, R>(fc: BodyCodec<Frame<A>>, c: ClientState<A, R>, answers: seq<ResponseFrame<R>>, delivered: nat)
    requires ClientInv(fc, c, answers, delivered)
    ensures forall p :: 0 <= p < |c.enqueued| ==> c.enqueued[p].requestId.Some?
    ensures var enq := c.enqueued;
      forall p, q :: 0 <= p < |enq| && 0 <= q < |enq| && enq[p].requestId == enq[q].requestId ==> p == q
  {
    hide Fits, CallerOk;
    forall p | 0 <= p < |c.enqueued|
      ensures c.enqueued[p].requestId.Some? && AtStage(c, c.enqueued[p].requestId.value, Pushed(p))
    {
      assert EnqueuedOk(fc, c, p);
    }
  }

  /** Where the call enqueued at a position has got to. */
  datatype Place = InInbox | OnTheWayUp | AtServer | OnTheWayDown | Delivered

  /** How many frames the writer has taken from the inbox. */
  function Taken<A, R, S>(s: Sys<A, R, S>): int { |s.client.enqueued| - |s.client.inbox| }

  function PlaceOf<A, R, S>(s: Sys<A, R, S>, p: nat): Place {
    if p < s.delivered then Delivered
    else if p + 1 < |s.answers| || (p + 1 == |s.answers| && s.replying == []) then OnTheWayDown
    else if p < |s.answers| then AtServer
    else if p < Taken(s) then OnTheWayUp
    else InInbox
  }

  function Rank(p: Place): nat {
    match p
    case InInbox => 0
    case OnTheWayUp => 1
    case AtServer => 2
    case OnTheWayDown => 3
    case Delivered => 4
  }

  /** A call only ever moves on: from the inbox to the wire, to the server, to the wire
      again, to its caller. */
  lemma PlacesMoveForward<A(!new), R(!new), S>(env: Env<A, R, S>, s: Sys<A, R, S>, l: Step<A>, p: nat)
    requires Inv(env, s) && Enabled(env, s, l) && p < |s.client.enqueued|
    ensures Rank(PlaceOf(Apply(env, s, l), p)) >= Rank(PlaceOf(s, p))
  {
    hide DecodeFrame, EncodeFrame, Inv;
  }

  /** The inbox holds exactly the last frames enqueued, whole. */
  ghost predicate InboxWhole<A, R>(fc: BodyCodec<Frame<A>>, c: ClientState<A, R>) {
    && |c.inbox| <= |c.enqueued|
    && (forall j :: 0 <= j < |c.inbox| ==> c.inbox[j] == FrameOf(fc, c.enqueued[|c.enqueued| - |c.inbox| + j]))
  }

  lemma PushKeepsInbox<A, R>(fc: BodyCodec<Frame<A>>, c: ClientState<A, R>, id: RequestId)
    requires InboxWhole(fc, c) && AtStage(c, id, ToPush)
    requires EncodeFrame(fc, FrameFor(id, c.callers[id].action)) == Ok(c.callers[id].bytes)
    ensures InboxWhole(fc, PushCall(c, id))
  {
    assert c.callers[id].bytes == FrameOf(fc, FrameFor(id, c.callers[id].action));
    hide EncodeFrame, FrameOf;
  }

  lemma StepKeepsInbox<A(!new), R(!new), S>(env: Env<A, R, S>, s: Sys<A, R, S>, l: Step<A>)
    requires Inv(env, s) && Enabled(env, s, l) && InboxWhole(env.frames, s.client)
    ensures InboxWhole(env.frames, Apply(env, s, l).client)
  {
    hide DecodeFrame, UpInv, DownInv, ServerInv, ClientInv, EncodeFrame, FrameOf;
    if l.Push? {
      CallerIs(env.frames, s.client, s.answers, s.delivered, l.id);
      hide InboxWhole;
      PushKeepsInbox(env.frames, s.client, l.id);
    }
  }

  lemma {:induction false} RunKeepsInbox<A(!new), R(!new), S>(env: Env<A, R, S>, s: Sys<A, R, S>, ls: seq<Step<A>>)
    requires Sound(env) && Inv(env, s) && Legal(env, s, ls) && InboxWhole(env.frames, s.client)
    ensures InboxWhole(env.frames, Run(env, s, ls).client)
    decreases |ls|
  {
    if ls != [] {
      hide Inv, Apply, Enabled, InboxWhole;
      StepKeeps(env, s, ls[0]);
      StepKeepsInbox(env, s, ls[0]);
      RunKeepsInbox(env, Apply(env, s, ls[0]), ls[1..]);
    }
  }

  lemma {:induction false} WholeInboxBytes<T>(c: BodyCodec<T>, inbox: seq<Bytes>, vs: seq<T>)
    requires |inbox| == |vs| && forall j :: 0 <= j < |vs| ==> inbox[j] == FrameOf(c, vs[j])
    ensures Flatten(inbox) == EncodeAll(c, vs)
  {
    hide FrameOf;
    if vs != [] { WholeInboxBytes(c, inbox[1..], vs[1..]); }
  }

  lemma EarlierTailIsLonger<T>(c: BodyCodec<T>, vs: seq<T>, k: nat, n: nat)
    requires k < n <= |vs| && Fits(c, vs[k])
    ensures |EncodeAll(c, vs[k..])| > |EncodeAll(c, vs[n..])|
  {
    hide Fits, FrameOf;
    assert vs[k..] == ([vs[k]] + vs[k + 1..n]) + vs[n..];
    EncodeAllAppend(c, [vs[k]] + vs[k + 1..n], vs[n..]);
    EncodeAllAppend(c, [vs[k]], vs[k + 1..n]);
    EncodeAllOne(c, vs[k]);
    FrameShape(c, vs[k]);
  }

  lemma TakenBeforeAnswered<A, R, S>(env: Env<A, R, S>, s: Sys<A, R, S>)
    requires Inv(env, s) && InboxWhole(env.frames, s.client)
    ensures s.delivered <= |s.answers| <= Taken(s) <= |s.client.enqueued|
  {
    BytesAre(env, s);
    EnqueuedFit(env.frames, s.client, s.answers, s.delivered) by { hide UpInv, DownInv, ServerInv, ClientInv; }
    hide Inv, Fits, FrameOf;
    var enq, n, k := s.client.enqueued, |s.answers|, Taken(s);
    WholeInboxBytes(env.frames, s.client.inbox, enq[k..]);
    if n > k {
      assert enq[k] in enq;
      EarlierTailIsLonger(env.frames, enq, k, n);
    }
  }

  /** The bytes on the way up are exactly the frames taken and not yet served. */
  lemma BytesUpAreTaken<A, R, S>(env: Env<A, R, S>, s: Sys<A, R, S>)
    requires Inv(env, s) && InboxWhole(env.frames, s.client)
    ensures |s.answers| <= Taken(s) <= |s.client.enqueued|
    ensures EncodeAll(env.frames, s.client.enqueued[|s.answers|..Taken(s)]) == s.reading + (s.up + s.writing)
  {
    hide Inv, FrameOf;
    TakenBeforeAnswered(env, s);
    BytesAre(env, s);
    var enq, n, k := s.client.enqueued, |s.answers|, Taken(s);
    WholeInboxBytes(env.frames, s.client.inbox, enq[k..]);
    assert enq[n..] == enq[n..k] + enq[k..];
    EncodeAllAppend(env.frames, enq[n..k], enq[k..]);
    SameFront(EncodeAll(env.frames, enq[n..k]), s.reading, s.up, s.writing, Flatten(s.client.inbox));
  }

  lemma SameFront(all: Bytes, a: Bytes, b: Bytes, c: Bytes, rest: Bytes)
    requires all + rest == a + (b + (c + rest))
    ensures all == a + (b + c)
  {
    var front := a + (b + c);
    assert a + (b + (c + rest)) == front + rest;
    assert |all| == |front|;
    assert all == (all + rest)[..|all|] == (front + rest)[..|front|] == front;
  }

  /** In every run the places are in order: nothing is delivered before it is answered, answered
      before it was taken from the inbox, or taken before it was enqueued. So each enqueued call is in
      exactly one of them, and the bytes in the pipes are exactly those of the calls on their way. */
  lemma PlacesAreInOrder<A(!new), R(!new), S>(env: Env<A, R, S>, ls: seq<Step<A>>)
    requires Sound(env) && Legal(env, Init(env), ls)
    ensures var s := Run(env, Init(env), ls);
      && s.delivered <= |s.answers| <= Taken(s) <= |s.client.enqueued|
      && EncodeAll(env.frames, s.client.enqueued[|s.answers|..Taken(s)]) == s.reading + (s.up + s.writing)
      && EncodeAll(env.replies, s.answers[s.delivered..]) == s.arriving + (s.down + s.replying)
  {
    InitInv(env);
    RunKeeps(env, Init(env), ls);
    RunKeepsInbox(env, Init(env), ls);
    var s := Run(env, Init(env), ls);
    hide Inv, InboxWhole, Run, Legal;
    TakenBeforeAnswered(env, s);
    BytesUpAreTaken(env, s);
    BytesAre(env, s);
  }

  // ---- requests are settled at most once ----

  ghost predicate Unchanged<A, R>(c: ClientState<A, R>, d: ClientState<A, R>, id: RequestId) {
    && id in c.callers && id in d.callers
    && d.callers[id].kind == c.callers[id].kind && d.callers[id].action == c.callers[id].action
    && (c.callers[id].stage.Pushed? || c.callers[id].stage.Abandoned? ==> d.callers[id].stage == c.callers[id].stage)
    && (c.callers[id].outcome.Some? ==> d.callers[id].outcome == c.callers[id].outcome)
  }

  /** No step changes what a call is, where it was enqueued, or an outcome once given. */
  lemma StepSettlesOnce<A(!new), R(!new), S>(env: Env<A, R, S>, s: Sys<A, R, S>, l: Step<A>, id: RequestId)
    requires Inv(env, s) && Enabled(env, s, l) && id in s.client.callers
    ensures Unchanged(s.client, Apply(env, s, l).client, id)
  {
    hide DecodeFrame, EncodeFrame, UpInv, DownInv, ServerInv, ClientInv;
    NextIdIsNew(env.frames, s.client, s.answers, s.delivered);
    CallerIs(env.frames, s.client, s.answers, s.delivered, id);
  }

  lemma NextIdIsNew<A, R>(fc: BodyCodec<Frame<A>>, c: ClientState<A, R>, answers: seq<ResponseFrame<R>>, delivered: nat)
    requires ClientInv(fc, c, answers, delivered)
    ensures c.nextId !in c.callers
  {
    hide CallerOk, EnqueuedOk;
  }

  lemma {:induction false} RunSettlesOnce<A(!new), R(!new), S>(env: Env<A, R, S>, s: Sys<A, R, S>, ls: seq<Step<A>>,
      id: RequestId)
    requires Sound(env) && Inv(env, s) && Legal(env, s, ls) && id in s.client.callers
    ensures Unchanged(s.client, Run(env, s, ls).client, id)
    decreases |ls|
  {
    hide Inv, Apply, Enabled;
    if ls != [] {
      StepKeeps(env, s, ls[0]);
      StepSettlesOnce(env, s, ls[0], id);
      RunSettlesOnce(env, Apply(env, s, ls[0]), ls[1..], id);
    }
  }

  // ---- a failure stops its end for good ----

  /** The writer, the server and the reader stop by failing and in no other way, the server also at a
      frame or response it has no encoding for, the reader also at bytes that do not decode. */
  lemma StopsByFailing<A, R, S>(env: Env<A, R, S>, s: Sys<A, R, S>, l: Step<A>)
    requires Enabled(env, s, l)
    ensures var t := Apply(env, s, l);
      && (t.client.inboxOpen <==> s.client.inboxOpen && !l.WriterFail?)
      && (t.serverAlive <==> s.serverAlive && !l.ServerFail? && (l.ServerDispatch? ==> t.replying != []))
      && (t.client.readerAlive <==>
            s.client.readerAlive && !l.ReaderExit? && (l.ReaderDeliver? ==> t.delivered == s.delivered + 1))
  {
    hide DecodeFrame, Missing, Complete;
  }

  /** An end that has stopped does nothing more. */
  lemma StoppedStep<A, R, S>(env: Env<A, R, S>, s: Sys<A, R, S>, l: Step<A>)
    requires Enabled(env, s, l)
    ensures var t := Apply(env, s, l); StaysStopped(s, t)
  {
    hide DecodeFrame, EncodeFrame, Missing, Complete;
  }

  ghost predicate StaysStopped<A, R, S>(s: Sys<A, R, S>, t: Sys<A, R, S>) {
    && (!s.client.inboxOpen ==>
          !t.client.inboxOpen && t.client.enqueued == s.client.enqueued && t.client.inbox == s.client.inbox
          && t.writing == s.writing)
    && (!s.serverAlive ==>
          !t.serverAlive && t.answers == s.answers && t.server == s.server && t.reading == s.reading
          && t.replying == s.replying)
    && (!s.client.readerAlive ==> !t.client.readerAlive && t.delivered == s.delivered && t.arriving == s.arriving)
  }

  /** However a run goes on after a failure: nothing more is enqueued or written by a dead writer,
      run or answered by a dead server, or delivered by a dead reader. */
  lemma {:induction false} StoppedForGood<A, R, S>(env: Env<A, R, S>, s: Sys<A, R, S>, ls: seq<Step<A>>)
    requires Legal(env, s, ls)
    ensures StaysStopped(s, Run(env, s, ls))
    decreases |ls|
  {
    hide Apply, Enabled;
    if ls != [] {
      StoppedStep(env, s, ls[0]);
      StoppedForGood(env, Apply(env, s, ls[0]), ls[1..]);
    }
  }

  /** Pushing to a dead writer fails the request at once and withdraws it. */
  lemma ClosedPushFails<A, R, S>(env: Env<A, R, S>, s: Sys<A, R, S>, id: RequestId)
    requires Inv(env, s) && Enabled(env, s, Push(id)) && !s.client.inboxOpen
    ensures var c := Apply(env, s, Push(id)).client;
      && id in c.callers && c.callers[id].stage == Abandoned && id !in c.pending && c.enqueued == s.client.enqueued
      && var was := s.client.callers[id];
         c.callers[id].outcome == if was.kind.Request? && was.outcome.None? then Some(ConnectionClosed) else was.outcome
  {
    hide UpInv, DownInv, ServerInv, ClientInv;
    CallerIs(env.frames, s.client, s.answers, s.delivered, id);
    hide EncodeFrame;
  }

  // ---- the reader's exit ----

  /** Registered in the pending map: what the reader's exit is bound to settle. */
  predicate Registered<A, R>(c: ClientState<A, R>, id: RequestId) {
    id in c.callers && c.callers[id].kind.Request? && (c.callers[id].stage.ToPush? || c.callers[id].stage.Pushed?)
  }

  /** When the reader ends, every registered request has its own response or `ConnectionClosed`. */
  lemma ExitSettlesRegistered<A, R, S>(env: Env<A, R, S>, s: Sys<A, R, S>, id: RequestId)
    requires Inv(env, s) && Enabled(env, s, ReaderExit) && Registered(s.client, id)
    ensures var k := Apply(env, s, ReaderExit).client.callers[id];
      k.outcome == if s.client.callers[id].outcome.Some? then s.client.callers[id].outcome else Some(ConnectionClosed)
  {
    hide UpInv, DownInv, ServerInv, ClientInv;
    CallerIs(env.frames, s.client, s.answers, s.delivered, id);
  }

  /** Once the reader is gone, a step settles a request only by failing to enqueue it. */
  lemma DeadReaderStep<A, R, S>(env: Env<A, R, S>, s: Sys<A, R, S>, l: Step<A>, id: RequestId)
    requires Inv(env, s) && Enabled(env, s, l) && !s.client.readerAlive
    ensures var t := Apply(env, s, l);
      && !t.client.readerAlive
      && (id in t.client.callers && !t.client.callers[id].stage.Abandoned? ==>
            (t.client.callers[id].outcome.Some? <==> id in s.client.callers && s.client.callers[id].outcome.Some?))
  {
    hide DecodeFrame, EncodeFrame, UpInv, DownInv, ServerInv, ClientInv;
    NextIdIsNew(env.frames, s.client, s.answers, s.delivered);
  }

  lemma {:induction false} DeadReaderRun<A(!new), R(!new), S>(env: Env<A, R, S>, s: Sys<A, R, S>, ls: seq<Step<A>>,
      id: RequestId)
    requires Sound(env) && Inv(env, s) && Legal(env, s, ls) && !s.client.readerAlive
    requires var c := Run(env, s, ls).client; id in c.callers && !c.callers[id].stage.Abandoned?
    ensures Run(env, s, ls).client.callers[id].outcome.Some?
      <==> id in s.client.callers && s.client.callers[id].outcome.Some?
    decreases |ls|
  {
    hide Inv, Apply, Enabled;
    if ls != [] {
      StepKeeps(env, s, ls[0]);
      var t := Apply(env, s, ls[0]);
      DeadReaderStep(env, s, ls[0], id);
      if id in s.client.callers { StepSettlesOnce(env, s, ls[0], id); }
      DeadReaderRun(env, t, ls[1..], id);
      if id in t.client.callers { RunSettlesOnce(env, t, ls[1..], id); }
    }
  }

  /** A request enqueued by the end of a run in which the reader exited is settled exactly when it
      had registered by the time of the exit. One that registers later waits for ever: nothing is
      left to clear the map again. */
  lemma SettledExactlyWhenRegisteredInTime<A(!new), R(!new), S>(
      env: Env<A, R, S>, s: Sys<A, R, S>, ls: seq<Step<A>>, id: RequestId)
    requires Sound(env) && Inv(env, s) && Enabled(env, s, ReaderExit) && Legal(env, Apply(env, s, ReaderExit), ls)
    requires var c := Run(env, Apply(env, s, ReaderExit), ls).client;
      id in c.callers && c.callers[id].kind.Request? && c.callers[id].stage.Pushed?
    ensures Run(env, Apply(env, s, ReaderExit), ls).client.callers[id].outcome.Some? <==> Registered(s.client, id)
  {
    var t := Apply(env, s, ReaderExit);
    assert !t.client.readerAlive && (id in t.client.callers <==> id in s.client.callers);
    StepKeeps(env, s, ReaderExit);
    DeadReaderRun(env, t, ls, id);
    if id in t.client.callers {
      RunSettlesOnce(env, t, ls, id);
      CallerIs(env.frames, s.client, s.answers, s.delivered, id) by { hide UpInv, DownInv, ServerInv, ClientInv; }
      if Registered(s.client, id) { ExitSettlesRegistered(env, s, id); }
    }
  }

  lemma RunOne<A, R, S>(env: Env<A, R, S>, s: Sys<A, R, S>, l: Step<A>, ls: seq<Step<A>>)
    requires Enabled(env, s, l) && Legal(env, Apply(env, s, l), ls)
    ensures Legal(env, s, [l] + ls) && Run(env, s, [l] + ls) == Run(env, Apply(env, s, l), ls)
  {
    hide Enabled, Apply;
    assert ([l] + ls)[1..] == ls;
  }

  lemma RunFour<A, R, S>(env: Env<A, R, S>, s: Sys<A, R, S>, a: Step<A>, b: Step<A>, c: Step<A>, d: Step<A>)
    requires Enabled(env, s, a)
    requires Enabled(env, Apply(env, s, a), b)
    requires Enabled(env, Apply(env, Apply(env, s, a), b), c)
    requires Enabled(env, Apply(env, Apply(env, Apply(env, s, a), b), c), d)
    ensures Legal(env, s, [a, b, c, d])
    ensures Run(env, s, [a, b, c, d]) == Apply(env, Apply(env, Apply(env, Apply(env, s, a), b), c), d)
  {
    hide Enabled, Apply;
    var t := Apply(env, s, a);
    var u := Apply(env, t, b);
    var v := Apply(env, u, c);
    var none: seq<Step<A>> := [];
    assert Legal(env, Apply(env, v, d), none) && Run(env, Apply(env, v, d), none) == Apply(env, v, d);
    RunOne(env, v, d, none);
    assert [d] + none == [d];
    RunOne(env, u, c, [d]);
    assert [c] + [d] == [c, d];
    RunOne(env, t, b, [c, d]);
    assert [b] + [c, d] == [b, c, d];
    RunOne(env, s, a, [b, c, d]);
    assert [a] + [b, c, d] == [a, b, c, d];
  }

  /** An input on which a request waits for ever: it draws its id before the reader exits and registers
      afterwards. However the run goes on, it stays enqueued, registered and without an outcome. */
  lemma LateRegistrantWaits<A(!new), R(!new), S>(env: Env<A, R, S>, action: A, more: seq<Step<A>>)
    requires Sound(env) && Fits(env.frames, FrameFor(1, action))
    ensures var late := [Mint(Request, action), ReaderExit, Register(1), Push(1)];
      && Legal(env, Init(env), late)
      && var s := Run(env, Init(env), late);
         && 1 in s.client.pending && AtStage(s.client, 1, Pushed(0)) && s.client.callers[1].outcome.None?
         && (Legal(env, s, more) ==>
               var c := Run(env, s, more).client; AtStage(c, 1, Pushed(0)) && c.callers[1].outcome.None?)
  {
    var s1 := Apply(env, Init(env), Mint(Request, action));
    var s2 := Apply(env, s1, ReaderExit);
    var s3 := Apply(env, s2, Register(1));
    var s4 := Apply(env, s3, Push(1));
    RunFour(env, Init(env), Mint(Request, action), ReaderExit, Register(1), Push(1)) by { hide DecodeFrame; }
    InitInv(env);
    var ls := [Mint(Request, action), ReaderExit, Register(1), Push(1)];
    RunKeeps(env, Init(env), ls);
    hide Inv, DecodeFrame, Legal, Run;
    if Legal(env, s4, more) {
      RunSettlesOnce(env, s4, more, 1);
      DeadReaderRun(env, s4, more, 1);
    }
  }

  // ---- progress ----

  predicate Cooperative<A>(l: Step<A>) { !(l.Mint? || l.WriterFail? || l.ServerFail? || l.ReaderExit?) }

  /** No transport failure so far, and every answer the enqueued actions call for can be sent. */
  ghost predicate Healthy<A, R, S>(env: Env<A, R, S>, s: Sys<A, R, S>) {
    && s.client.inboxOpen && s.serverAlive && s.client.readerAlive
    && (forall i :: 0 <= i < |s.client.enqueued| ==> Fits(env.replies, AnswerTo(env, s.client.enqueued, i)))
  }

  function StageWork(stage: Stage): nat {
    match stage
    case ToRegister => 2
    case ToPush => 1
    case _ => 0
  }

  /** Work left in the calls with ids below `n`. */
  function CallWork<A, R>(callers: map<RequestId, Caller<A, R>>, n: nat): nat {
    if n == 0 then 0
    else CallWork(callers, n - 1) + if n - 1 in callers then StageWork(callers[n - 1].stage) else 0
  }

  lemma {:induction false} CallWorkDrops<A, R>(
      callers: map<RequestId, Caller<A, R>>, id: RequestId, k: Caller<A, R>, n: nat)
    requires id in callers && id < n
    ensures CallWork(callers[id := k], n) + StageWork(callers[id].stage) == CallWork(callers, n) + StageWork(k.stage)
  {
    if id < n - 1 {
      CallWorkDrops(callers, id, k, n - 1);
    } else {
      CallWorkSame(callers, id, k, n - 1);
    }
  }

  lemma {:induction false} CallWorkSame<A, R>(
      callers: map<RequestId, Caller<A, R>>, id: RequestId, k: Caller<A, R>, n: nat)
    requires id >= n
    ensures CallWork(callers[id := k], n) == CallWork(callers, n)
  {
    if n > 0 { CallWorkSame(callers, id, k, n - 1); }
  }

  lemma {:induction false} CallWorkByStage<A, R>(a: map<RequestId, Caller<A, R>>, b: map<RequestId, Caller<A, R>>,
      n: nat)
    requires forall id :: id in a <==> id in b
    requires forall id :: id in a ==> a[id].stage == b[id].stage
    ensures CallWork(a, n) == CallWork(b, n)
  {
    if n > 0 { CallWorkByStage(a, b, n - 1); }
  }

  /** What serving the frames from position `k` on will still put on the way down. */
  function AnswerWork<A, R, S>(env: Env<A, R, S>, fs: seq<Frame<A>>, k: nat): nat
    decreases |fs| - k
  {
    if k >= |fs| then 0 else 2 + 2 * |FrameOf(env.replies, AnswerTo(env, fs, k))| + AnswerWork(env, fs, k + 1)
  }

  function Threads<A, R, S>(s: Sys<A, R, S>): nat { CallWork(s.client.callers, s.client.nextId) }

  /** Each byte weighs the hops it has left. */
  function Traffic<A, R, S>(env: Env<A, R, S>, s: Sys<A, R, S>): int {
    3 * |Flatten(s.client.inbox)| + |s.client.inbox| + 2 * |s.writing| + |s.up|
    + AnswerWork(env, s.client.enqueued, |s.answers|)
    + 2 * |s.replying| + |s.down| + |s.answers| - s.delivered
  }

  ghost predicate Smaller<A, R, S>(env: Env<A, R, S>, t: Sys<A, R, S>, s: Sys<A, R, S>) {
    Threads(t) < Threads(s) || (Threads(t) == Threads(s) && 0 <= Traffic(env, t) < Traffic(env, s))
  }

  lemma ClientStepShrinks<A(!new), R(!new), S>(env: Env<A, R, S>, s: Sys<A, R, S>, l: Step<A>)
    requires Inv(env, s) && Healthy(env, s) && Enabled(env, s, l) && (l.Register? || l.Push?)
    ensures Threads(Apply(env, s, l)) < Threads(s)
  {
    hide UpInv, DownInv, ServerInv, EncodeFrame;
    var t := Apply(env, s, l);
    var id := l.id;
    CallWorkDrops(s.client.callers, id, t.client.callers[id], s.client.nextId);
  }

  lemma ByteStepShrinks<A(!new), R(!new), S>(env: Env<A, R, S>, s: Sys<A, R, S>, l: Step<A>)
    requires Inv(env, s) && Enabled(env, s, l)
    requires l.WriterTake? || l.WriterWrite? || l.ServerRead? || l.ServerWrite? || l.ReaderRead?
    ensures Smaller(env, Apply(env, s, l), s)
  {
    hide UpInv, DownInv, ServerInv, ClientInv, AnswerWork, CallWork;
    Bounds(env, s);
  }

  lemma AnswerCosts<A, R, S>(env: Env<A, R, S>, s: Sys<A, R, S>, t: Sys<A, R, S>)
    requires t.client == s.client && t.up == s.up && t.writing == s.writing
      && t.down == s.down && t.delivered == s.delivered
    requires |t.answers| == |s.answers| + 1 <= |s.client.enqueued| && s.replying == [] && t.delivered <= |t.answers|
    requires |t.replying| == |FrameOf(env.replies, AnswerTo(env, s.client.enqueued, |s.answers|))|
    ensures Smaller(env, t, s)
  {
    hide CallWork, FrameOf, AnswerTo, Flatten;
  }

  lemma DispatchShrinks<A(!new), R(!new), S>(env: Env<A, R, S>, s: Sys<A, R, S>)
    requires Sound(env) && Inv(env, s) && Healthy(env, s) && Enabled(env, s, ServerDispatch)
    ensures Smaller(env, Apply(env, s, ServerDispatch), s)
  {
    var t, n := Apply(env, s, ServerDispatch), |s.answers|;
    DispatchKeeps(env, s);
    ReplyIsFrame(env, s);
    assert Fits(env.replies, AnswerTo(env, s.client.enqueued, n)) by { Bounds(env, t); hide Inv, Fits, AnswerTo; }
    hide Apply, Enabled, Healthy, Smaller, Fits, FrameOf, AnswerTo;
    Bounds(env, t);
    ServerIs(env, t.server, t.client.enqueued, t.answers) by { hide UpInv, DownInv, ClientInv; }
    hide Inv;
    AnswerCosts(env, s, t);
  }

  lemma ReplyIsFrame<A(!new), R(!new), S>(env: Env<A, R, S>, s: Sys<A, R, S>)
    requires Sound(env) && Inv(env, s) && Enabled(env, s, ServerDispatch)
    ensures var t, n := Apply(env, s, ServerDispatch), |s.answers|;
      && t.client == s.client && t.up == s.up && t.writing == s.writing
      && t.down == s.down && t.delivered == s.delivered
      && |t.answers| == n + 1 && s.replying == []
      && (Fits(env.replies, t.answers[n]) ==> t.replying == FrameOf(env.replies, t.answers[n]))
  {
    hide UpInv, DownInv, ServerInv, ClientInv, DecodeFrame, Complete;
    EnqueuedFit(env.frames, s.client, s.answers, s.delivered);
    NextFrameIsWhole(env.frames, s.client.enqueued, |s.answers|, s.reading, s.up, s.writing, s.client.inbox);
  }

  lemma DeliverShrinks<A(!new), R(!new), S>(env: Env<A, R, S>, s: Sys<A, R, S>)
    requires Sound(env) && Inv(env, s) && Enabled(env, s, ReaderDeliver)
    ensures Smaller(env, Apply(env, s, ReaderDeliver), s)
  {
    hide UpInv, DownInv, ServerInv, ClientInv, DecodeFrame, Complete, AnswerWork;
    DeliverKeeps(env, s);
    NextAnswerIsWhole(env.replies, s.answers, s.delivered, s.serverAlive, s.arriving, s.down, s.replying);
    var t := Apply(env, s, ReaderDeliver);
    Bounds(env, t);
    CallWorkByStage(s.client.callers, t.client.callers, s.client.nextId);
  }

  /** Every step of a healthy system lowers a well-founded measure. */
  lemma StepShrinks<A(!new), R(!new), S>(env: Env<A, R, S>, s: Sys<A, R, S>, l: Step<A>)
    requires Sound(env) && Inv(env, s) && Healthy(env, s) && Cooperative(l) && Enabled(env, s, l)
    ensures Smaller(env, Apply(env, s, l), s)
  {
    hide Inv, Enabled, Apply, Healthy;
    match l
    case Register(_) => ClientStepShrinks(env, s, l);
    case Push(_) => ClientStepShrinks(env, s, l);
    case ServerDispatch => DispatchShrinks(env, s);
    case ReaderDeliver => DeliverShrinks(env, s);
    case _ => ByteStepShrinks(env, s, l);
  }

  /** A call its thread is not yet done with, or whose response is still awaited. */
  predicate Outstanding<A, R>(c: ClientState<A, R>, id: RequestId) {
    && id in c.callers
    && (c.callers[id].stage.ToRegister? || c.callers[id].stage.ToPush?
        || (c.callers[id].kind.Request? && c.callers[id].outcome.None?))
  }

  predicate Idle<A, R, S>(s: Sys<A, R, S>) {
    && s.down == [] && s.replying == [] && s.up == [] && s.writing == [] && s.client.inbox == []
    && !Complete(s.arriving) && !Complete(s.reading)
  }

  /** Bytes that are somewhere can move on: the two pipes cannot block each other. */
  lemma BytesCanMove<A(!new), R(!new), S>(env: Env<A, R, S>, s: Sys<A, R, S>) returns (l: Step<A>)
    requires s.client.inboxOpen && s.serverAlive && s.client.readerAlive && env.upCap > 0 && env.downCap > 0
    requires |s.arriving| >= 4 ==> Missing(s.arriving) >= 0
    requires |s.reading| >= 4 ==> Missing(s.reading) >= 0
    requires !Idle(s)
    ensures Cooperative(l) && Enabled(env, s, l)
  {
    hide BodyLen;
    l := if Complete(s.arriving) then ReaderDeliver
    else if s.down != [] then ReaderRead(1)
    else if s.replying != [] then ServerWrite(1)
    else if Complete(s.reading) then ServerDispatch
    else if s.up != [] then ServerRead(1)
    else if s.writing != [] then WriterWrite(1)
    else WriterTake;
  }

  /** With any positive pipe capacities, a healthy system with an outstanding call can move. */
  lemma NeverStuck<A(!new), R(!new), S>(env: Env<A, R, S>, s: Sys<A, R, S>, id: RequestId) returns (l: Step<A>)
    requires Sound(env) && Inv(env, s) && Healthy(env, s) && env.upCap > 0 && env.downCap > 0
    requires Outstanding(s.client, id)
    ensures Cooperative(l) && Enabled(env, s, l)
  {
    hide UpInv, DownInv, ServerInv, ClientInv, Complete, Missing;
    match s.client.callers[id].stage {
      case ToRegister => return Register(id);
      case ToPush => return Push(id);
      case _ =>
    }
    BytesAre(env, s);
    if Idle(s) {
      EmptyPipesAreDone(env, s);
      CallerIs(env.frames, s.client, s.answers, s.delivered, id);
    }
    l := BytesCanMove(env, s);
  }

  /** With nothing in transit and no whole frame waiting, everything enqueued has been delivered. */
  lemma EmptyPipesAreDone<A(!new), R(!new), S>(env: Env<A, R, S>, s: Sys<A, R, S>)
    requires Sound(env) && Inv(env, s) && s.serverAlive
    requires Idle(s)
    ensures s.delivered == |s.answers| == |s.client.enqueued|
  {
    BytesAre(env, s);
    EnqueuedFit(env.frames, s.client, s.answers, s.delivered) by { hide UpInv, DownInv, ServerInv, ClientInv; }
    assert forall i :: 0 <= i < |s.answers| ==> Fits(env.replies, s.answers[i]) by {
      hide UpInv, ServerInv, ClientInv, Fits;
    }
    hide Inv, Fits;
    var enq, n := s.client.enqueued, |s.answers|;
    if n < |enq| {
      assert enq[n..][0] == enq[n] && enq[n] in enq;
      HeadNeedsNothing(env.frames, enq[n..], s.reading);
    }
    if s.delivered < n {
      assert s.answers[s.delivered..][0] == s.answers[s.delivered];
      HeadNeedsNothing(env.replies, s.answers[s.delivered..], s.arriving);
    }
  }

  lemma HeadNeedsNothing<T(!new)>(c: BodyCodec<T>, vs: seq<T>, buf: Bytes)
    requires vs != [] && Fits(c, vs[0]) && EncodeAll(c, vs) == buf + ([] + ([] + []))
    requires |buf| >= 4 ==> Missing(buf) >= 0
    ensures Complete(buf)
  {
    FrameShape(c, vs[0]);
    assert |EncodeAll(c, vs)| >= 4;
    assert buf + [] == buf + ([] + ([] + []));
    HeadHasMissing(c, vs, buf, []);
  }

  ghost predicate CooperativeStep<A(!new), R, S>(env: Env<A, R, S>, s: Sys<A, R, S>, t: Sys<A, R, S>) {
    exists l: Step<A> :: Cooperative(l) && Enabled(env, s, l) && t == Apply(env, s, l)
  }

  /** There is no endless run without new calls or failures. */
  lemma {:induction false} NoEndlessRun<A(!new), R(!new), S(!new)>(env: Env<A, R, S>, run: nat -> Sys<A, R, S>, k: nat)
    requires Sound(env)
    requires forall i: nat :: Inv(env, run(i)) && Healthy(env, run(i))
    requires forall i: nat :: CooperativeStep(env, run(i), run(i + 1))
    ensures false
    decreases Threads(run(k)), Traffic(env, run(k))
  {
    hide Inv, Healthy, Enabled, Apply;
    assert CooperativeStep(env, run(k), run(k + 1));
    var l: Step<A> :| Cooperative(l) && Enabled(env, run(k), l) && run(k + 1) == Apply(env, run(k), l);
    StepShrinks(env, run(k), l);
    NoEndlessRun(env, run, k + 1);
  }

  /** Where nothing but new calls or failures can happen, every request has an outcome and every
      send has been handed to the writer or dropped. With the previous lemma: every maximal run
      resolves every request, whatever the pipe capacities and frame sizes. */
  lemma MaximalRunResolvesAll<A(!new), R(!new), S>(env: Env<A, R, S>, s: Sys<A, R, S>, id: RequestId)
    requires Sound(env) && Inv(env, s) && Healthy(env, s) && env.upCap > 0 && env.downCap > 0
    requires forall l: Step<A> :: Cooperative(l) ==> !Enabled(env, s, l)
    requires id in s.client.callers
    ensures !Outstanding(s.client, id)
  {
    hide Inv, Healthy, Enabled;
    if Outstanding(s.client, id) {
      var l := NeverStuck(env, s, id);
    }
  }

  // ---- without failures, every request gets its own response ----

  /** A request is reported unencodable exactly when it is, and why, and closed only after a failure. */
  predicate OutcomeOk<A, R>(fc: BodyCodec<Frame<A>>, k: Caller<A, R>, id: RequestId, failed: bool) {
    k.kind.Request? ==>
      && (k.outcome.Some? && k.outcome.value.NotEncodable? <==> !Fits(fc, FrameFor(id, k.action)))
      && (k.outcome.Some? && k.outcome.value.NotEncodable? ==>
            EncodeFrame(fc, FrameFor(id, k.action)) == Err(k.outcome.value.why))
      && (!failed ==> k.outcome != Some(ConnectionClosed))
  }

  ghost predicate OutcomesOk<A, R>(fc: BodyCodec<Frame<A>>, c: ClientState<A, R>) {
    forall id :: id in c.callers ==> OutcomeOk(fc, c.callers[id], id, !(c.inboxOpen && c.readerAlive))
  }

  lemma ThreadKeepsOutcomes<A, R>(
      fc: BodyCodec<Frame<A>>, c: ClientState<A, R>, answers: seq<ResponseFrame<R>>, delivered: nat, id: RequestId)
    requires ClientInv(fc, c, answers, delivered) && OutcomesOk(fc, c)
    ensures AtStage(c, id, ToRegister) ==> OutcomesOk(fc, RegisterCall(c, id))
    ensures AtStage(c, id, ToPush) ==> OutcomesOk(fc, PushCall(c, id))
  {
    if id in c.callers { CallerIs(fc, c, answers, delivered, id); }
    hide EncodeFrame, ClientInv;
  }

  lemma ReaderKeepsOutcomes<A(!new), R(!new)>(
      fc: BodyCodec<Frame<A>>, c: ClientState<A, R>, answers: seq<ResponseFrame<R>>, delivered: nat)
    requires ClientInv(fc, c, answers, delivered) && OutcomesOk(fc, c)
    ensures OutcomesOk(fc, CloseReader(c)) && forall rf: ResponseFrame<R> :: OutcomesOk(fc, DeliverReply(c, rf))
  {
    forall id | id in c.pending ensures id in c.callers && Fits(fc, FrameFor(id, c.callers[id].action)) {
      PendingFit(fc, c, answers, delivered, id);
    }
    hide EncodeFrame, Fits, ClientInv;
  }

  lemma PendingFit<A, R>(
      fc: BodyCodec<Frame<A>>, c: ClientState<A, R>, answers: seq<ResponseFrame<R>>, delivered: nat, id: RequestId)
    requires ClientInv(fc, c, answers, delivered) && id in c.pending
    ensures id in c.callers && Fits(fc, FrameFor(id, c.callers[id].action))
  {
    hide EncodeFrame;
    CallerIs(fc, c, answers, delivered, id);
    if c.callers[id].stage.Pushed? { assert EnqueuedOk(fc, c, c.callers[id].stage.position); }
  }

  lemma StepKeepsOutcomes<A(!new), R(!new), S>(env: Env<A, R, S>, s: Sys<A, R, S>, l: Step<A>)
    requires Inv(env, s) && Enabled(env, s, l) && OutcomesOk(env.frames, s.client)
    ensures OutcomesOk(env.frames, Apply(env, s, l).client)
  {
    hide DecodeFrame, UpInv, DownInv, ServerInv, ClientInv;
    match l
    case Mint(_, _) => hide EncodeFrame;
    case Register(id) =>
      ThreadKeepsOutcomes(env.frames, s.client, s.answers, s.delivered, id);
      hide OutcomesOk, RegisterCall;
    case Push(id) =>
      ThreadKeepsOutcomes(env.frames, s.client, s.answers, s.delivered, id);
      hide OutcomesOk, PushCall;
    case ReaderDeliver =>
      ReaderKeepsOutcomes(env.frames, s.client, s.answers, s.delivered);
      hide OutcomesOk, DeliverReply, CloseReader;
    case ReaderExit =>
      ReaderKeepsOutcomes(env.frames, s.client, s.answers, s.delivered);
      hide OutcomesOk, CloseReader;
    case _ => hide EncodeFrame;
  }

  lemma {:induction false} OnlyFailuresClose<A(!new), R(!new), S>(env: Env<A, R, S>, s: Sys<A, R, S>, ls: seq<Step<A>>)
    requires Sound(env) && Legal(env, s, ls) && Inv(env, s) && OutcomesOk(env.frames, s.client)
    ensures OutcomesOk(env.frames, Run(env, s, ls).client)
    decreases |ls|
  {
    if ls != [] {
      hide Apply, Enabled, OutcomesOk, Inv;
      StepKeeps(env, s, ls[0]);
      StepKeepsOutcomes(env, s, ls[0]);
      OnlyFailuresClose(env, Apply(env, s, ls[0]), ls[1..]);
    }
  }

  /** At the end of every maximal run without failures, each request has the response its own action
      gets when all enqueued actions run in order; the one exception is a request that could not be
      encoded, which never went out. */
  lemma EveryRequestIsAnswered<A(!new), R(!new), S>(env: Env<A, R, S>, ls: seq<Step<A>>, id: RequestId)
    requires Sound(env) && Legal(env, Init(env), ls) && env.upCap > 0 && env.downCap > 0
    requires Healthy(env, Run(env, Init(env), ls))
    requires forall l: Step<A> :: Cooperative(l) ==> !Enabled(env, Run(env, Init(env), ls), l)
    requires var c := Run(env, Init(env), ls).client; id in c.callers && c.callers[id].kind.Request?
    ensures var c := Run(env, Init(env), ls).client; var k := c.callers[id];
      if Fits(env.frames, FrameFor(id, k.action))
      then k.stage.Pushed? && k.stage.position < |c.enqueued|
        && k.outcome == Some(Replied(AnswerTo(env, c.enqueued, k.stage.position).response))
      else k.outcome == Some(NotEncodable(EncodeFrame(env.frames, FrameFor(id, k.action)).error))
  {
    var s := Run(env, Init(env), ls);
    InitInv(env);
    RunKeeps(env, Init(env), ls);
    OnlyFailuresClose(env, Init(env), ls);
    MaximalRunResolvesAll(env, s, id);
    hide Inv, AnswerTo, EncodeFrame, Enabled, Cooperative, Run, Legal;
    if Answered(s.client, id) { ResponseMeansSequentialRun(env, ls, id); }
    assert OutcomeOk(env.frames, s.client.callers[id], id, false);
  }

  // ---- every healthy system can be run to its end ----

  /** No thread is in the middle of a call. */
  predicate ThreadsDone<A, R>(c: ClientState<A, R>) {
    forall id :: id in c.callers ==> !c.callers[id].stage.ToRegister? && !c.callers[id].stage.ToPush?
  }

  lemma DispatchStaysHealthy<A(!new), R(!new), S>(env: Env<A, R, S>, s: Sys<A, R, S>)
    requires Sound(env) && Inv(env, s) && Healthy(env, s) && Enabled(env, s, ServerDispatch)
    ensures var t := Apply(env, s, ServerDispatch); t.client == s.client && t.serverAlive
  {
    var n := |s.answers|;
    Bounds(env, s);
    EnqueuedFit(env.frames, s.client, s.answers, s.delivered) by { hide UpInv, DownInv, ServerInv, ClientInv; }
    NextFrameIsWhole(env.frames, s.client.enqueued, n, s.reading, s.up, s.writing, s.client.inbox) by {
      hide UpInv, DownInv, ServerInv, ClientInv;
    }
    ServerIs(env, s.server, s.client.enqueued, s.answers) by { hide UpInv, DownInv, ClientInv; }
    assert Fits(env.replies, AnswerTo(env, s.client.enqueued, n));
    hide Inv, DecodeFrame, Complete, Healthy;
  }

  lemma DeliverStaysHealthy<A(!new), R(!new), S>(env: Env<A, R, S>, s: Sys<A, R, S>)
    requires Sound(env) && Inv(env, s) && Healthy(env, s) && Enabled(env, s, ReaderDeliver)
    ensures var t := Apply(env, s, ReaderDeliver);
      && t.serverAlive && t.client.readerAlive && t.client.inboxOpen && t.client.enqueued == s.client.enqueued
      && (ThreadsDone(s.client) ==> ThreadsDone(t.client))
  {
    hide UpInv, DownInv, ServerInv, ClientInv, DecodeFrame, Complete;
    NextAnswerIsWhole(env.replies, s.answers, s.delivered, s.serverAlive, s.arriving, s.down, s.replying);
  }

  lemma StaysHealthy<A(!new), R(!new), S>(env: Env<A, R, S>, s: Sys<A, R, S>, l: Step<A>)
    requires Sound(env) && Inv(env, s) && Healthy(env, s) && ThreadsDone(s.client)
    requires Cooperative(l) && Enabled(env, s, l)
    ensures Healthy(env, Apply(env, s, l)) && ThreadsDone(Apply(env, s, l).client)
    ensures Apply(env, s, l).client.enqueued == s.client.enqueued && !l.Register? && !l.Push?
  {
    if l == ServerDispatch {
      hide Inv, Enabled, Apply, AnswerTo, Fits;
      DispatchStaysHealthy(env, s);
    } else if l == ReaderDeliver {
      hide Inv, Enabled, Apply, AnswerTo, Fits, ThreadsDone;
      DeliverStaysHealthy(env, s);
    } else {
      hide Inv, AnswerTo, Fits, Missing, Complete;
    }
  }

  /** Every healthy state whose threads are done has a run, of bytes moving and frames being served
      only, to a state where nothing is left to do. */
  lemma RunsToCompletion<A(!new), R(!new), S(!new)>(env: Env<A, R, S>, s: Sys<A, R, S>) returns (ls: seq<Step<A>>)
    requires Sound(env) && Inv(env, s) && Healthy(env, s) && ThreadsDone(s.client)
    ensures Legal(env, s, ls) && (forall l :: l in ls ==> Cooperative(l) && !l.Register? && !l.Push?)
    ensures Healthy(env, Run(env, s, ls)) && Run(env, s, ls).client.enqueued == s.client.enqueued
    ensures forall l: Step<A> :: Cooperative(l) ==> !Enabled(env, Run(env, s, ls), l)
    decreases Threads(s), Traffic(env, s)
  {
    hide Inv, Enabled, Apply, Healthy, ThreadsDone;
    if l: Step<A> :| Cooperative(l) && Enabled(env, s, l) {
      StepKeeps(env, s, l);
      StaysHealthy(env, s, l);
      StepShrinks(env, s, l);
      var more := RunsToCompletion(env, Apply(env, s, l));
      RunOne(env, s, l, more);
      return [l] + more;
    }
    return [];
  }
}
