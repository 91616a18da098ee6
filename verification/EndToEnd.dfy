/** The repository's central claim, end to end, for every run of threads and pipeline together:
    whatever the interleaving, the chunking of bytes and the failures, what a client is told is what
    a local run tells, except about calls that failed, and those can be read off the calls. */
module EndToEnd {
  import opened Basics
  import opened Protocol
  import opened Codec
  import opened Gpu
  import opened Engine
  import opened Client
  import Pipeline
  import PipelineLaws
  import opened Local
  import opened Failures
  import opened Actions
  import Session
  import opened Plain
  import opened Joint

  /** What a call is told after `ops`: why it is refused, or what it is told when the calls that took
      effect are run locally. */
  function Verdict(dev: Device, ops: seq<Op>, sent: seq<bool>, op: Op): Response
    requires |sent| == |ops|
  {
    match Refusal(dev, Failed(dev, ops, sent), op)
    case Some(e) => e
    case None => LocalAnswer(dev, Effective(dev, ops, sent), op)
  }

  /** The place in the session's trace of the `n`-th call on the wire. */
  function IssuedAs(ops: seq<Op>, sent: seq<bool>, n: nat): (p: nat)
    requires |sent| == |ops| && n < |Wire(ops, sent)|
    ensures p < |ops| && sent[p] && |Wire(ops[..p], sent[..p])| == n
    decreases |ops|
  {
    var m := |ops| - 1;
    if n < |Wire(ops[..m], sent[..m])| then
      var p := IssuedAs(ops[..m], sent[..m], n);
      assert ops[..m][..p] == ops[..p] && sent[..m][..p] == sent[..p];
      p
    else m
  }

  lemma {:induction false} WireAt(ops: seq<Op>, sent: seq<bool>, p: nat)
    requires |sent| == |ops| && p < |ops| && sent[p]
    ensures var n := |Wire(ops[..p], sent[..p])|;
      && n < |Wire(ops, sent)| && Wire(ops, sent)[n] == ops[p] && Wire(ops, sent)[..n] == Wire(ops[..p], sent[..p])
    decreases |ops|
  {
    var m := |ops| - 1;
    if p < m {
      WireAt(ops[..m], sent[..m], p);
      assert ops[..m][..p] == ops[..p] && sent[..m][..p] == sent[..p];
    }
  }

  lemma {:induction false} SameRun(dev: Device, w: Network, fs: seq<Frame<Action>>, ops: seq<Op>)
    requires IsWorld(dev, w) && Carries(dev, fs, ops)
    ensures Pipeline.StateAfter(w, fs) == RemoteRun(dev, ops)
    decreases |fs|
  {
    hide Handle, ToAction;
    if fs != [] {
      SameRun(dev, w, fs[..|fs| - 1], ops[..|ops| - 1]);
    }
  }

  /** The answer to a frame is the remote answer to the call it carries. */
  lemma SameAnswer(dev: Device, w: Network, fs: seq<Frame<Action>>, ops: seq<Op>, n: nat)
    requires IsWorld(dev, w) && Carries(dev, fs, ops) && n < |fs|
    ensures Pipeline.AnswerTo(w, fs, n).response == RemoteAnswer(dev, ops[..n], ops[n])
  {
    hide Handle, ToAction;
    SameRun(dev, w, fs[..n], ops[..n]);
  }

  predicate IsUnknown(r: Response) { r.ErrorResponse? && r.code == UnknownResource }

  /** The `n`-th call sent has action `a`, and `r` is its verdict after the calls issued before it; it
      reports an unknown resource if and only if a reference it gets to has failed. */
  predicate IsVerdict(dev: Device, s: State, n: nat, a: Action, r: Response) {
    && |s.sent| == |s.session.trace| && n < |Wire(s.session.trace, s.sent)|
    && var p := IssuedAs(s.session.trace, s.sent, n);
       var ops, sent, op := s.session.trace[..p], s.sent[..p], s.session.trace[p];
       && a == ToAction(dev, op) && r == Verdict(dev, ops, sent, op)
       && (IsUnknown(r) <==> FirstFailed(Failed(dev, ops, sent), OpReached(dev, op)).Some?)
  }

  /** Sequentially, every frame is answered with its call's verdict. */
  lemma FramesGetVerdicts(dev: Device, w: Network, s: State, n: nat)
    requires IsWorld(dev, w) && Faithful(dev.recordings) && Inv(dev, w, s) && n < |s.net.client.enqueued|
    ensures var enq := s.net.client.enqueued;
      IsVerdict(dev, s, n, enq[n].action, Pipeline.AnswerTo(w, enq, n).response)
  {
    hide Inv, Pipeline.Inv, Wire, ToAction, Handle, LegalTrace, RemoteAnswer, LocalAnswer, Refusal, OpReached,
      WellScoped, Callable, Pipeline.AnswerTo, Failed, Effective, FirstFailed, Shippable;
    var ops, sent, enq := s.session.trace, s.sent, s.net.client.enqueued;
    InvIs(dev, w, s);
    var p := IssuedAs(ops, sent, n);
    WireAt(ops, sent, p);
    SameAnswer(dev, w, enq, Wire(ops, sent), n);
    LegalPrefix(dev, ops, p);
    RemoteMeansLocal(dev, ops[..p], sent[..p], ops[p]);
  }

  /** Creation without waiting, for every joint run: everything the server has answered so far, sends
      included, got the verdict of the call it carries. */
  lemma ServerAnswersLocally(dev: Device, w: Network, ls: seq<Step>, n: nat)
    requires IsWorld(dev, w) && Faithful(dev.recordings) && Pipeline.Sound(w)
    requires Legal(dev, w, Start(w), ls) && n < |Run(dev, w, Start(w), ls).net.answers|
    ensures var s := Run(dev, w, Start(w), ls);
      n < |s.net.client.enqueued| && IsVerdict(dev, s, n, s.net.client.enqueued[n].action, s.net.answers[n].response)
  {
    StartInv(dev, w);
    RunKeeps(dev, w, Start(w), ls);
    hide Inv, IsVerdict, Run, Legal;
    ServedVerdicts(dev, w, Run(dev, w, Start(w), ls), n);
  }

  lemma ServedVerdicts(dev: Device, w: Network, s: State, n: nat)
    requires IsWorld(dev, w) && Faithful(dev.recordings) && Inv(dev, w, s) && n < |s.net.answers|
    ensures n < |s.net.client.enqueued|
    ensures IsVerdict(dev, s, n, s.net.client.enqueued[n].action, s.net.answers[n].response)
  {
    InvIs(dev, w, s);
    Pipeline.Bounds(w, s.net);
    Pipeline.ServerIs(w, s.net.server, s.net.client.enqueued, s.net.answers) by {
      hide Inv, IsVerdict, Pipeline.UpInv, Pipeline.DownInv, Pipeline.ClientInv;
    }
    hide Inv, IsVerdict, Pipeline.Inv, Pipeline.AnswerTo;
    FramesGetVerdicts(dev, w, s, n);
  }

  /** What a client receives, for every joint run: each answered request has the verdict of its own
      call. */
  lemma AnsweredAsLocally(dev: Device, w: Network, ls: seq<Step>, id: RequestId)
    requires IsWorld(dev, w) && Faithful(dev.recordings) && Pipeline.Sound(w)
    requires Legal(dev, w, Start(w), ls)
    requires PipelineLaws.Answered(Run(dev, w, Start(w), ls).net.client, id)
    ensures var s := Run(dev, w, Start(w), ls); var k := s.net.client.callers[id];
      k.stage.Pushed? && IsVerdict(dev, s, k.stage.position, k.action, k.outcome.value.response)
  {
    StartInv(dev, w);
    RunKeeps(dev, w, Start(w), ls);
    hide Inv, IsVerdict, Run, Legal;
    AnswersAreVerdicts(dev, w, Run(dev, w, Start(w), ls), id);
  }

  lemma AnswersAreVerdicts(dev: Device, w: Network, s: State, id: RequestId)
    requires IsWorld(dev, w) && Faithful(dev.recordings) && Inv(dev, w, s) && PipelineLaws.Answered(s.net.client, id)
    ensures var k := s.net.client.callers[id];
      k.stage.Pushed? && IsVerdict(dev, s, k.stage.position, k.action, k.outcome.value.response)
  {
    InvIs(dev, w, s);
    hide Inv, IsVerdict, Pipeline.Inv, Pipeline.AnswerTo, Pipeline.StateAfter;
    PipelineLaws.RepliesAreSequential(w, s.net, id);
    FramesGetVerdicts(dev, w, s, s.net.client.callers[id].stage.position);
  }

  /** Where nothing was lost and everything issued is supported, verdicts are plain local answers and
      nothing is ever unknown: then the remote run is the local run. */
  lemma CleanVerdictsAreLocal(dev: Device, ops: seq<Op>, sent: seq<bool>, op: Op)
    requires Faithful(dev.recordings) && LegalTrace(dev, ops + [op]) && Shippable(dev, op) && |sent| == |ops|
    requires Shipped(dev, ops, sent) && OpSupported(dev, op)
    requires forall i :: 0 <= i < |ops| ==> sent[i] && OpSupported(dev, ops[i])
    ensures var r := Verdict(dev, ops, sent, op);
      r == LocalAnswer(dev, ops, op) && (r.ErrorResponse? ==> r.code != UnknownResource)
  {
    assert (ops + [op])[..|ops|] == ops;
    LegalPrefix(dev, ops + [op], |ops|);
    hide LegalTrace, WellScoped, Callable, Shippable, OpSupported, OpReached, LocalAnswer, RemoteAnswer;
    NothingFails(dev, ops, sent);
    NoneFailed({}, OpReached(dev, op));
    RemoteMeansLocal(dev, ops, sent, op);
  }

  lemma {:induction false} AllOnWire(ops: seq<Op>, sent: seq<bool>)
    requires |sent| == |ops| && forall i :: 0 <= i < |ops| ==> sent[i]
    ensures Wire(ops, sent) == ops
    decreases |ops|
  {
    if ops != [] { AllOnWire(ops[..|ops| - 1], sent[..|ops| - 1]); }
  }

  /** Creating without waiting is safe: in every joint run that lost nothing and issued only supported
      calls, every answer so far is the one of the session run locally, and nothing was unknown. */
  lemma CleanRunIsLocal(dev: Device, w: Network, ls: seq<Step>, n: nat)
    requires IsWorld(dev, w) && Faithful(dev.recordings) && Pipeline.Sound(w)
    requires Legal(dev, w, Start(w), ls) && Lossless(dev, w, Run(dev, w, Start(w), ls))
    requires forall op :: op in Run(dev, w, Start(w), ls).session.trace ==> OpSupported(dev, op)
    requires n < |Run(dev, w, Start(w), ls).net.answers|
    ensures var s := Run(dev, w, Start(w), ls); var r := s.net.answers[n].response;
      && n < |s.session.trace|
      && r == LocalAnswer(dev, s.session.trace[..n], s.session.trace[n]) && !IsUnknown(r)
  {
    hide Inv, LossInv, IsVerdict, Run, Legal, OpSupported, Lossless;
    ServerAnswersLocally(dev, w, ls, n);
    StartInv(dev, w);
    assert LossInv(dev, w, Start(w)) by { StartLosesNothing(dev, w); }
    RunKeeps(dev, w, Start(w), ls);
    OnlyTheseAreLost(dev, w, Start(w), ls);
    InvIs(dev, w, Run(dev, w, Start(w), ls));
    CleanState(dev, w, Run(dev, w, Start(w), ls), n);
  }

  lemma StartLosesNothing(dev: Device, w: Network)
    ensures LossInv(dev, w, Start(w))
  {
    hide Fits, Shippable;
  }

  lemma CleanState(dev: Device, w: Network, s: State, n: nat)
    requires Faithful(dev.recordings) && LossInv(dev, w, s) && Lossless(dev, w, s) && LegalTrace(dev, s.session.trace)
    requires WireInv(dev, s.net.client, s.session.trace, s.sent) && n < |s.net.answers| && n < |s.net.client.enqueued|
    requires forall op :: op in s.session.trace ==> OpSupported(dev, op)
    requires IsVerdict(dev, s, n, s.net.client.enqueued[n].action, s.net.answers[n].response)
    ensures n < |s.session.trace|
    ensures s.net.answers[n].response == LocalAnswer(dev, s.session.trace[..n], s.session.trace[n])
    ensures !IsUnknown(s.net.answers[n].response)
  {
    hide LegalTrace, OpSupported, Shippable, Verdict, LocalAnswer, Wire, Fits, ToAction, Failed, OpReached;
    var ops, sent := s.session.trace, s.sent;
    AllOnWire(ops, sent);
    var p := IssuedAs(ops, sent, n);
    AllOnWire(ops[..p], sent[..p]);
    assert p == n && ops[n] in ops;
    assert ops[..n + 1] == ops[..n] + [ops[n]];
    LegalUpTo(dev, ops, n + 1);
    CleanVerdictsAreLocal(dev, ops[..n], sent[..n], ops[n]);
  }

  lemma LegalUpTo(dev: Device, ops: seq<Op>, n: nat)
    requires LegalTrace(dev, ops) && n <= |ops|
    ensures LegalTrace(dev, ops[..n])
  {
    if n < |ops| { LegalPrefix(dev, ops, n); } else { assert ops[..n] == ops; }
  }

  /** The calls carried by the frames the server has taken so far. */
  function Served(s: State): seq<Op>
    requires |s.sent| == |s.session.trace| && |s.net.answers| <= |Wire(s.session.trace, s.sent)|
  {
    Wire(s.session.trace, s.sent)[..|s.net.answers|]
  }

  /** In every joint run the server holds a buffer exactly when it has served a creation of it and no
      destroy since; so once the last clone is dropped and that has been served, the buffer is gone. */
  lemma ServerHoldsExactly(dev: Device, w: Network, ls: seq<Step>, id: BufferId)
    requires IsWorld(dev, w) && Pipeline.Sound(w) && Legal(dev, w, Start(w), ls)
    ensures var s := Run(dev, w, Start(w), ls);
      && |s.sent| == |s.session.trace| && |s.net.answers| <= |Wire(s.session.trace, s.sent)|
      && var all := seq(|Served(s)|, _ => true);
         id in s.net.server.tables.buffers <==> CreatedSince(Served(s), all, BufferR(id))
  {
    StartInv(dev, w);
    RunKeeps(dev, w, Start(w), ls);
    hide Inv, Run, Legal, CreatedSince, Wire;
    var s := Run(dev, w, Start(w), ls);
    InvIs(dev, w, s);
    ServerStateIs(dev, w, s);
    var ops, all := Served(s), seq(|Served(s)|, _ => true);
    AllOnWire(ops, all);
    BufferHeldExactlyWhen(dev, ops, all, id);
  }

  lemma ServerStateIs(dev: Device, w: Network, s: State)
    requires IsWorld(dev, w) && Pipeline.Inv(w, s.net) && WireInv(dev, s.net.client, s.session.trace, s.sent)
    ensures |s.sent| == |s.session.trace| && |s.net.answers| <= |Wire(s.session.trace, s.sent)|
    ensures s.net.server == RemoteRun(dev, Served(s))
  {
    hide Wire, ToAction, Shippable;
    Pipeline.Bounds(w, s.net);
    Pipeline.ServerIs(w, s.net.server, s.net.client.enqueued, s.net.answers) by {
      hide Pipeline.UpInv, Pipeline.DownInv, Pipeline.ClientInv;
    }
    hide Pipeline.Inv;
    SameRun(dev, w, s.net.client.enqueued[..|s.net.answers|], Served(s));
  }

  /** `r` is what a read shows of the plain arrays left by the calls issued before the `n`-th sent that
      took effect, or says that the buffer's own creation failed; the array is there at least where
      the buffer is out of reach of every pass, and always where only bytes are moved. */
  ghost predicate ShowsPlainBytes(
      dev: Device, s: State, n: nat, buffer: BufferId, offset: nat, size: nat, r: Response)
  {
    && |s.sent| == |s.session.trace| && n < |Wire(s.session.trace, s.sent)|
    && var p := IssuedAs(s.session.trace, s.sent, n);
       var ops, sent := s.session.trace[..p], s.sent[..p];
       var done := Effective(dev, ops, sent);
       if BufferR(buffer) in Failed(dev, ops, sent) then r == UnknownId(BufferR(buffer))
       else
         && ShowsArray(done, buffer, offset, size, r)
         && ((forall op :: op in s.session.trace ==> TransfersOnly(op)) ==> OutOfReach(done, buffer))
  }

  /** A read that is answered shows, for every joint run, exactly the bytes of the plain array behind
      its handle after the calls issued before it that took effect, provided that the program only moves
      bytes or that shaders are confined to the buffers bound to their pass. */
  lemma ReadReturnsPlainBytes(
      dev: Device, w: Network, ls: seq<Step>, id: RequestId, buffer: BufferId, offset: nat, size: nat)
    requires IsWorld(dev, w) && Faithful(dev.recordings) && Pipeline.Sound(w)
    requires Legal(dev, w, Start(w), ls)
    requires PipelineLaws.Answered(Run(dev, w, Start(w), ls).net.client, id)
    requires Run(dev, w, Start(w), ls).net.client.callers[id].action == MapBufferForRead(buffer, offset, size)
    requires forall op :: op in Run(dev, w, Start(w), ls).session.trace ==> Confined(dev, op)
    ensures var s := Run(dev, w, Start(w), ls); var k := s.net.client.callers[id];
      k.stage.Pushed? && ShowsPlainBytes(dev, s, k.stage.position, buffer, offset, size, k.outcome.value.response)
  {
    StartInv(dev, w);
    RunKeeps(dev, w, Start(w), ls);
    hide Inv, IsVerdict, ShowsPlainBytes, Run, Legal, Confined;
    var s := Run(dev, w, Start(w), ls);
    AnswersAreVerdicts(dev, w, s, id);
    InvIs(dev, w, s);
    var k := s.net.client.callers[id];
    ReadIsPlain(dev, s, k.stage.position, buffer, offset, size, k.outcome.value.response);
  }

  lemma ReadIsPlain(dev: Device, s: State, n: nat, buffer: BufferId, offset: nat, size: nat, r: Response)
    requires Faithful(dev.recordings) && IsVerdict(dev, s, n, MapBufferForRead(buffer, offset, size), r)
    requires WireInv(dev, s.net.client, s.session.trace, s.sent) && LegalTrace(dev, s.session.trace)
    requires forall op :: op in s.session.trace ==> Confined(dev, op)
    ensures ShowsPlainBytes(dev, s, n, buffer, offset, size, r)
  {
    var p := IssuedAs(s.session.trace, s.sent, n);
    var ops, sent, op := s.session.trace[..p], s.sent[..p], s.session.trace[p];
    assert op == Do(MapBufferForRead(buffer, offset, size));
    assert Shipped(dev, ops, sent) by { hide Shippable; }
    hide TransfersOnly, Confined, Wire, IssuedAs, ShowsArray, OutOfReach, LegalTrace, Known, LocalAnswer,
      RemoteAnswer, Callable;
    LegalPrefix(dev, s.session.trace, p);
    MapOnWire(dev, ops, sent, buffer, offset, size);
    forall o | o in Effective(dev, ops, sent) ensures o in s.session.trace {
      EffectiveAreIssued(dev, ops, sent, o);
      assert o in ops;
    }
    ReadsPlainBytes(dev, ops, sent, buffer, offset, size);
  }

  lemma {:induction false} EffectiveAreIssued(dev: Device, ops: seq<Op>, sent: seq<bool>, op: Op)
    requires |sent| == |ops| && op in Effective(dev, ops, sent)
    ensures op in ops
    decreases |ops|
  {
    hide TakesEffect, Failed;
    var n := |ops| - 1;
    if op in Effective(dev, ops[..n], sent[..n]) { EffectiveAreIssued(dev, ops[..n], sent[..n], op); }
  }

  /** The verdict of a read is the remote answer to it. */
  lemma MapOnWire(dev: Device, ops: seq<Op>, sent: seq<bool>, buffer: BufferId, offset: nat, size: nat)
    requires Faithful(dev.recordings) && LegalTrace(dev, ops) && Shipped(dev, ops, sent)
    requires WellScoped(dev, ops, Do(MapBufferForRead(buffer, offset, size)))
    ensures BufferR(buffer) in Known(ops)
    ensures Verdict(dev, ops, sent, Do(MapBufferForRead(buffer, offset, size)))
      == RemoteAnswer(dev, Wire(ops, sent), Do(MapBufferForRead(buffer, offset, size)))
  {
    var op := Do(MapBufferForRead(buffer, offset, size));
    hide LegalTrace, Known, EverCreated, Failed, Effective, Wire, RemoteAnswer, LocalAnswer, OpReached;
    assert BufferR(buffer) in OpRefs(dev, op);
    MapIsLegal(dev, ops, buffer, offset, size);
    RemoteMeansLocal(dev, ops, sent, op);
  }
}
