/** The theorems have runs to speak about: any call a session can issue goes through a live client, a
    healthy pipeline finishes what it was given, and a program that writes a buffer and reads it back
    gets its bytes, with any contents that fit a frame and pipes of any capacity. */
module Example {
  import opened Basics
  import opened Protocol
  import opened Codec
  import opened Gpu
  import opened Engine
  import opened Client
  import Pipeline
  import PipelineLaws
  import opened Local
  import opened Failures
  import Session
  import opened Plain
  import opened Joint
  import opened EndToEnd
  import opened Instance

  // ---- putting runs together ----

  lemma {:induction false} RunAppend(dev: Device, w: Network, s: State, a: seq<Step>, b: seq<Step>)
    requires Legal(dev, w, s, a) && Legal(dev, w, Run(dev, w, s, a), b)
    ensures Legal(dev, w, s, a + b) && Run(dev, w, s, a + b) == Run(dev, w, Run(dev, w, s, a), b)
    decreases |a|
  {
    hide Enabled, Apply;
    if a == [] {
      assert a + b == b;
    } else {
      RunAppend(dev, w, Apply(dev, w, s, a[0]), a[1..], b);
      assert (a + b)[0] == a[0] && (a + b)[1..] == a[1..] + b;
    }
  }

  lemma RunStep(dev: Device, w: Network, s: State, l: Step)
    requires Enabled(dev, w, s, l)
    ensures Legal(dev, w, s, [l]) && Run(dev, w, s, [l]) == Apply(dev, w, s, l)
  {
    hide Enabled, Apply;
    var none: seq<Step> := [];
    assert [l][1..] == none && Legal(dev, w, Apply(dev, w, s, l), none);
    assert Run(dev, w, Apply(dev, w, s, l), none) == Apply(dev, w, s, l);
  }

  /** A run of the pipeline that issues nothing is a run of the joint machine. */
  lemma {:induction false} NetRuns(dev: Device, w: Network, s: State, ns: seq<Pipeline.Step<Action>>)
    returns (ls: seq<Step>)
    requires Pipeline.Legal(w, s.net, ns) && forall n :: n in ns ==> !n.Mint? && !n.Push?
    ensures Legal(dev, w, s, ls) && Run(dev, w, s, ls) == s.(net := Pipeline.Run(w, s.net, ns))
    decreases |ns|
  {
    hide Pipeline.Enabled, Pipeline.Apply;
    if ns == [] { return []; }
    assert ns[0] in ns;
    var l := Net(ns[0]);
    assert Enabled(dev, w, s, l) && Apply(dev, w, s, l) == s.(net := Pipeline.Apply(w, s.net, ns[0])) by {
      hide Pipeline.Legal, Pipeline.Run;
    }
    var more := NetRuns(dev, w, Apply(dev, w, s, l), ns[1..]);
    RunStep(dev, w, s, l);
    RunAppend(dev, w, s, [l], more);
    return [l] + more;
  }

  // ---- one call through a live client ----

  predicate Fresh(s: State) {
    s.net.client.inboxOpen && s.calls == map[] && s.net.client.nextId !in s.net.client.callers
  }

  /** What issuing a call leaves behind. */
  predicate Issued(dev: Device, s: State, t: State, kind: Kind, call: Session.Step)
    requires Session.Can(dev, s.session, call) && Issues(call)
  {
    var c, d, a := s.net.client, t.net.client, ToAction(dev, OpOf(call));
    && t.session == Session.Take(dev, s.session, call) && t.sent == s.sent + [true] && t.calls == map[]
    && t.net == s.net.(client := d)
    && d.nextId == c.nextId + 1 && d.inboxOpen && d.readerAlive == c.readerAlive
    && d.enqueued == c.enqueued + [FrameFor(c.nextId, a)]
    && d.callers.Keys == c.callers.Keys + {c.nextId}
    && (forall id :: id in c.callers ==> d.callers[id] == c.callers[id])
    && d.callers[c.nextId].kind == kind && d.callers[c.nextId].action == a
    && d.callers[c.nextId].stage == Pushed(|c.enqueued|) && d.callers[c.nextId].outcome == None
  }

  lemma RunOn(dev: Device, w: Network, s: State, ls: seq<Step>, l: Step)
    requires Legal(dev, w, s, ls) && Enabled(dev, w, Run(dev, w, s, ls), l)
    ensures Legal(dev, w, s, ls + [l]) && Run(dev, w, s, ls + [l]) == Apply(dev, w, Run(dev, w, s, ls), l)
  {
    hide Enabled, Apply, Legal, Run;
    RunStep(dev, w, Run(dev, w, s, ls), l);
    RunAppend(dev, w, s, ls, [l]);
  }

  /** The call is begun and its frame is encoded. */
  ghost predicate Begun(dev: Device, s: State, t: State, kind: Kind, call: Session.Step, stage: Stage)
    requires Issues(call)
  {
    var c, d, id, a := s.net.client, t.net.client, s.net.client.nextId, ToAction(dev, OpOf(call));
    && t.session == s.session && t.sent == s.sent && t.calls == map[id := call] && t.net == s.net.(client := d)
    && id in d.callers && d.callers[id] == Caller(kind, a, d.callers[id].bytes, stage, None)
    && d == c.(nextId := id + 1, callers := c.callers[id := d.callers[id]], pending := d.pending)
  }

  lemma BeginStep(dev: Device, w: Network, s: State, kind: Kind, call: Session.Step)
    requires Fresh(s) && Issues(call) && Session.Can(dev, s.session, call) && Shippable(dev, OpOf(call))
    requires Fits(w.frames, FrameFor(s.net.client.nextId, ToAction(dev, OpOf(call))))
    ensures Enabled(dev, w, s, Begin(kind, call))
    ensures Begun(dev, s, Apply(dev, w, s, Begin(kind, call)), kind, call,
      if kind.Request? then ToRegister else ToPush)
  {
    hide Session.Can, Session.Take, Shippable, ToAction, EncodeFrame, OpOf, Issues;
  }

  lemma RegisterStep(dev: Device, w: Network, s: State, t: State, kind: Kind, call: Session.Step)
    requires Issues(call) && Begun(dev, s, t, kind, call, ToRegister)
    ensures var l := Net(Pipeline.Register(s.net.client.nextId));
      Enabled(dev, w, t, l) && Begun(dev, s, Apply(dev, w, t, l), kind, call, ToPush)
  {
    hide Session.Can, Session.Take, ToAction, OpOf, Issues;
  }

  lemma CommitStep(dev: Device, w: Network, s: State, t: State, kind: Kind, call: Session.Step)
    requires Fresh(s) && Issues(call) && Session.Can(dev, s.session, call) && Begun(dev, s, t, kind, call, ToPush)
    ensures var l := Commit(s.net.client.nextId);
      Enabled(dev, w, t, l) && Issued(dev, s, Apply(dev, w, t, l), kind, call)
  {
    hide Session.Can, Session.Take, ToAction, OpOf, Issues;
  }

  /** Any call a session can make, and that can be encoded, gets on the wire of a live client. */
  lemma CallGoesThrough(dev: Device, w: Network, s: State, kind: Kind, call: Session.Step) returns (ls: seq<Step>)
    requires Fresh(s) && Issues(call) && Session.Can(dev, s.session, call) && Shippable(dev, OpOf(call))
    requires Fits(w.frames, FrameFor(s.net.client.nextId, ToAction(dev, OpOf(call))))
    ensures Legal(dev, w, s, ls) && Issued(dev, s, Run(dev, w, s, ls), kind, call)
  {
    hide Session.Can, Shippable, ToAction, Legal, Run, Issues, Enabled, Apply, Begun, Issued, Fits;
    BeginStep(dev, w, s, kind, call);
    RunStep(dev, w, s, Begin(kind, call));
    ls := [Begin(kind, call)];
    if kind.Request? {
      RegisterStep(dev, w, s, Run(dev, w, s, ls), kind, call);
      RunOn(dev, w, s, ls, Net(Pipeline.Register(s.net.client.nextId)));
      ls := ls + [Net(Pipeline.Register(s.net.client.nextId))];
    }
    CommitStep(dev, w, s, Run(dev, w, s, ls), kind, call);
    RunOn(dev, w, s, ls, Commit(s.net.client.nextId));
    ls := ls + [Commit(s.net.client.nextId)];
  }

  // ---- a program: write a buffer, read it back ----

  function CreateCall(data: Bytes): Op { Do(CreateBuffer(1, PlainBuffer(|data|))) }

  function WriteCall(data: Bytes): Op { Do(WriteBuffer(1, 0, data)) }

  function ReadCall(data: Bytes): Op { Do(MapBufferForRead(1, 0, |data|)) }

  function Program(data: Bytes): seq<Op> { [CreateCall(data), WriteCall(data), ReadCall(data)] }

  lemma WordFits(n: nat)
    requires n <= MAX_FRAME_BYTES
    ensures Word(n).Some?
  {
    FourBytes();
    assert Pow256(8) == 0x100 * Pow256(7) && Pow256(7) == 0x100 * Pow256(6);
    assert Pow256(6) == 0x100 * Pow256(5) && Pow256(5) == 0x100 * Pow256(4);
    hide Pow256;
  }

  /** Small enough for every frame the program needs. */
  predicate Small(data: Bytes) { |data| + 4 * (1 + 2 * WORD) <= MAX_FRAME_BYTES }

  lemma ActionFits(id: RequestId, a: Action)
    requires id <= 3 && EncodeAction(a).Some? && |EncodeAction(a).value| + 1 + 2 * WORD <= MAX_FRAME_BYTES
    ensures Fits(FrameCodec(BufferActions()), FrameFor(id, a))
  {
    WordFits(id);
    WordFits(0);
    hide Word, EncodeAction;
  }

  lemma ReplyFits(id: RequestId, r: Response)
    requires id <= 3 && EncodeResponse(r).Some? && |EncodeResponse(r).value| + 1 + 2 * WORD <= MAX_FRAME_BYTES
    ensures Fits(ReplyCodec(BufferResponses()), ResponseFrame(id, r))
  {
    WordFits(id);
    WordFits(0);
    var c := ReplyCodec(BufferResponses());
    assert c.encode(ResponseFrame(id, r)) == Pack(0, id, 0, EncodeResponse(r).value);
    hide Word, EncodeResponse;
  }

  lemma ProgramFits(data: Bytes)
    requires Small(data)
    ensures Fits(FrameCodec(BufferActions()), FrameFor(1, CreateCall(data).action))
    ensures Fits(FrameCodec(BufferActions()), FrameFor(2, WriteCall(data).action))
    ensures Fits(FrameCodec(BufferActions()), FrameFor(3, ReadCall(data).action))
  {
    WordFits(0);
    WordFits(1);
    WordFits(|data|);
    hide Word, Fits;
    ActionFits(1, CreateCall(data).action);
    ActionFits(2, WriteCall(data).action);
    ActionFits(3, ReadCall(data).action);
  }

  function CallAt(data: Bytes, i: nat): Session.Step
    requires i < 3
  {
    if i == 0 then Session.Create(CreateCall(data)) else Session.Use(Program(data)[i])
  }

  ghost predicate ClientSoFar(c: ClientState<Action, Response>, data: Bytes, n: nat)
    requires n <= 3
  {
    && c.inboxOpen && c.readerAlive && c.nextId == n + 1 && |c.enqueued| == n
    && (forall i :: 0 <= i < n ==> c.enqueued[i] == FrameFor(i + 1, Program(data)[i].action))
    && (forall id :: id in c.callers <==> 1 <= id <= n)
    && (forall id :: id in c.callers ==>
          && c.callers[id].action == Program(data)[id - 1].action && c.callers[id].stage == Pushed(id - 1)
          && c.callers[id].outcome == None && (id == 3 ==> c.callers[id].kind == Request))
  }

  /** The state with the first `n` calls of the program issued and nothing else done. */
  ghost predicate IssuedSoFar(w: Network, t: State, data: Bytes, n: nat)
    requires n <= 3
  {
    && t.session.trace == Program(data)[..n] && |t.sent| == n && (forall i :: 0 <= i < n ==> t.sent[i])
    && (if n == 0 then BufferR(1) in t.session.creating else BufferR(1) in t.session.live)
    && t.calls == map[] && t.net == Pipeline.Init(w).(client := t.net.client)
    && ClientSoFar(t.net.client, data, n)
  }

  lemma CanIssue(dev: Device, w: Network, s: State, data: Bytes, n: nat)
    requires n < 3 && IssuedSoFar(w, s, data, n)
    ensures var call := CallAt(data, n);
      && Issues(call) && OpOf(call) == Program(data)[n] && ToAction(dev, OpOf(call)) == Program(data)[n].action
      && Session.Can(dev, s.session, call) && Shippable(dev, OpOf(call))
      && BufferR(1) in Session.Take(dev, s.session, call).live
      && Session.Take(dev, s.session, call).trace == s.session.trace + [OpOf(call)]
  {
    assert OpRefs(dev, CreateCall(data)) == [] && OpRefs(dev, WriteCall(data)) == [BufferR(1)];
    assert OpRefs(dev, ReadCall(data)) == [BufferR(1)];
  }

  lemma ClientOneMore(dev: Device, s: State, t: State, data: Bytes, n: nat, call: Session.Step)
    requires n < 3 && ClientSoFar(s.net.client, data, n)
    requires Issues(call) && Session.Can(dev, s.session, call)
    requires Issued(dev, s, t, if n == 2 then Request else Send, call)
    requires OpOf(call) == Program(data)[n] && ToAction(dev, Program(data)[n]) == Program(data)[n].action
    ensures ClientSoFar(t.net.client, data, n + 1)
  {
    hide Session.Can, Session.Take, ToAction, Issues, OpOf, Program;
  }

  lemma OneMoreIssued(dev: Device, w: Network, s: State, t: State, data: Bytes, n: nat)
    requires n < 3 && IssuedSoFar(w, s, data, n)
    requires Issues(CallAt(data, n)) && Session.Can(dev, s.session, CallAt(data, n))
    requires Issued(dev, s, t, if n == 2 then Request else Send, CallAt(data, n))
    requires OpOf(CallAt(data, n)) == Program(data)[n]
    requires ToAction(dev, Program(data)[n]) == Program(data)[n].action
    requires BufferR(1) in t.session.live && t.session.trace == s.session.trace + [Program(data)[n]]
    ensures IssuedSoFar(w, t, data, n + 1)
  {
    hide Session.Can, Session.Take, ToAction, Pipeline.Init, CallAt, Issues, OpOf, ClientSoFar;
    ClientOneMore(dev, s, t, data, n, CallAt(data, n));
    assert Program(data)[..n + 1] == Program(data)[..n] + [Program(data)[n]];
    hide Program;
  }

  lemma IssueNext(dev: Device, w: Network, s: State, data: Bytes, n: nat) returns (ls: seq<Step>)
    requires w.frames == FrameCodec(BufferActions()) && Small(data) && n < 3 && IssuedSoFar(w, s, data, n)
    ensures Legal(dev, w, s, ls) && IssuedSoFar(w, Run(dev, w, s, ls), data, n + 1)
  {
    ProgramFits(data);
    CanIssue(dev, w, s, data, n);
    assert Fits(w.frames, FrameFor(n + 1, Program(data)[n].action)) by { hide Fits; }
    assert Fresh(s) && s.net.client.nextId == n + 1;
    hide Legal, Run, Fits, Session.Can, Session.Take, Shippable, ToAction, Small, CallAt, IssuedSoFar, Issued, Program,
      CreateCall, WriteCall, ReadCall;
    ls := CallGoesThrough(dev, w, s, if n == 2 then Request else Send, CallAt(data, n));
    var t := Run(dev, w, s, ls);
    assert t.session == Session.Take(dev, s.session, CallAt(data, n)) by {
      IssuedTakes(dev, s, t, if n == 2 then Request else Send, CallAt(data, n));
    }
    OneMoreIssued(dev, w, s, t, data, n);
  }

  lemma IssuedTakes(dev: Device, s: State, t: State, kind: Kind, call: Session.Step)
    requires Session.Can(dev, s.session, call) && Issues(call) && Issued(dev, s, t, kind, call)
    ensures t.session == Session.Take(dev, s.session, call)
  {
    hide Session.Can, Session.Take, ToAction;
  }

  lemma IssueProgram(dev: Device, w: Network, data: Bytes) returns (ls: seq<Step>)
    requires w.frames == FrameCodec(BufferActions()) && Small(data)
    ensures Legal(dev, w, Start(w), ls) && IssuedSoFar(w, Run(dev, w, Start(w), ls), data, 3)
  {
    var mint := Handles(Session.MintId(Session.BufferK));
    RunStep(dev, w, Start(w), mint);
    assert IssuedSoFar(w, Apply(dev, w, Start(w), mint), data, 0);
    hide IssuedSoFar, Legal, Run, Apply, Enabled;
    ls := [mint];
    for i := 0 to 3
      invariant Legal(dev, w, Start(w), ls) && IssuedSoFar(w, Run(dev, w, Start(w), ls), data, i)
    {
      var more := IssueNext(dev, w, Run(dev, w, Start(w), ls), data, i);
      RunAppend(dev, w, Start(w), ls, more);
      ls := ls + more;
    }
  }

  // ---- what it is answered ----

  lemma PlainProgram(data: Bytes)
    ensures PlainRun([CreateCall(data), WriteCall(data)]).arrays == map[1 := data]
  {
    var c, ops := CreateCall(data), [CreateCall(data), WriteCall(data)];
    assert ops[..1] == [c] && [c][..0] == [];
    assert PlainRun([c]).arrays == map[1 := Zeros(|data|)];
    assert Splice(Zeros(|data|), 0, data) == data;
    hide Splice, Zeros;
  }

  lemma WritesAreAcked(dev: Device, data: Bytes)
    ensures RemoteAnswer(dev, [], CreateCall(data)) == Ack
    ensures RemoteAnswer(dev, [CreateCall(data)], WriteCall(data)) == Ack
  {
    assert [CreateCall(data)][..0] == [];
    assert RemoteRun(dev, [CreateCall(data)]) == Handle(dev, EngineStart(), CreateCall(data).action).0;
    hide QueueSubmit, Zeros, Assemble;
  }

  lemma ReadIsLegal(dev: Device, data: Bytes)
    requires LegalTrace(dev, Program(data))
    ensures LegalTrace(dev, [CreateCall(data), WriteCall(data)])
    ensures BufferR(1) in Known([CreateCall(data), WriteCall(data)])
  {
    hide LegalTrace, Known, EverCreated;
    assert Program(data)[..2] == [CreateCall(data), WriteCall(data)];
    LegalPrefix(dev, Program(data), 2);
    assert OpRefs(dev, ReadCall(data)) == [BufferR(1)];
  }

  lemma ProgramMovesBytes(dev: Device, data: Bytes)
    ensures forall i :: 0 <= i < 3 ==>
      TransfersOnly(Program(data)[i]) && OpSupported(dev, Program(data)[i]) && Shippable(dev, Program(data)[i])
  {
  }

  lemma WholeRead(data: Bytes)
    ensures PlainRead(map[1 := data], 1, 0, |data|) == BufferData(data)
  {
    assert data[0..0 + |data|] == data;
  }

  lemma ProgramPrefixes(data: Bytes)
    ensures var ops := Program(data);
      ops[..0] == [] && ops[..1] == [CreateCall(data)] && ops[..2] == [CreateCall(data), WriteCall(data)]
    ensures var ops := Program(data);
      |ops| == 3 && ops[0] == CreateCall(data) && ops[1] == WriteCall(data) && ops[2] == ReadCall(data)
    ensures CreateCall(data).Do? && WriteCall(data).Do? && ReadCall(data).Do?
  {
  }

  lemma ReadIsAnswered(dev: Device, data: Bytes)
    requires Faithful(dev.recordings) && LegalTrace(dev, Program(data))
    ensures RemoteAnswer(dev, [CreateCall(data), WriteCall(data)], ReadCall(data)) == BufferData(data)
  {
    hide LegalTrace, Known, PlainRun, RemoteAnswer, Failed, Effective, Wire, TransfersOnly, OpSupported, Shippable,
      CreateCall, WriteCall, Program, PlainRead, OutOfReach;
    ReadIsLegal(dev, data);
    ProgramMovesBytes(dev, data);
    ProgramPrefixes(data);
    var ops := [CreateCall(data), WriteCall(data)];
    WholeRead(data);
    NothingFails(dev, ops, [true, true]);
    PlainProgram(data);
    ReadsPlainBytes(dev, ops, [true, true], 1, 0, |data|);
  }

  lemma ProgramIsCarried(dev: Device, w: Network, t: State, data: Bytes)
    requires IssuedSoFar(w, t, data, 3)
    ensures Carries(dev, t.net.client.enqueued, Program(data))
    ensures forall i :: 0 <= i < 3 ==> t.net.client.enqueued[i].requestId == Some(i + 1)
  {
    hide Pipeline.Init;
    forall i | 0 <= i < 3
      ensures t.net.client.enqueued[i].action == ToAction(dev, Program(data)[i])
      ensures t.net.client.enqueued[i].requestId == Some(i + 1)
    {
      assert t.net.client.enqueued[i] == FrameFor(i + 1, Program(data)[i].action);
    }
  }

  lemma AnswerHasId(w: Network, enq: seq<Frame<Action>>, i: nat, id: RequestId)
    requires i < |enq| && enq[i].requestId == Some(id)
    ensures Pipeline.AnswerTo(w, enq, i).requestId == id
  {
  }

  lemma ProgramAnswers(dev: Device, w: Network, t: State, data: Bytes, i: nat)
    requires IsWorld(dev, w) && Faithful(dev.recordings) && LegalTrace(dev, Program(data))
    requires IssuedSoFar(w, t, data, 3) && i < 3
    ensures |t.net.client.enqueued| == 3
    ensures Pipeline.AnswerTo(w, t.net.client.enqueued, i)
      == ResponseFrame(i + 1, if i == 2 then BufferData(data) else Ack)
  {
    hide IssuedSoFar, RemoteAnswer, Pipeline.AnswerTo, LegalTrace, ToAction, Program, CreateCall, WriteCall, ReadCall;
    var enq := t.net.client.enqueued;
    ProgramPrefixes(data);
    ProgramIsCarried(dev, w, t, data);
    AnswerHasId(w, enq, i, i + 1);
    SameAnswer(dev, w, enq, Program(data), i);
    WritesAreAcked(dev, data);
    ReadIsAnswered(dev, data);
  }

  lemma AnswerFits(i: nat, data: Bytes)
    requires i < 3 && Small(data)
    ensures Fits(ReplyCodec(BufferResponses()), ResponseFrame(i + 1, if i == 2 then BufferData(data) else Ack))
  {
    WordFits(0);
    hide Word, Fits;
    ReplyFits(i + 1, if i == 2 then BufferData(data) else Ack);
  }

  lemma ClientIsFine(w: Network, t: State, data: Bytes)
    requires w.frames == FrameCodec(BufferActions()) && IssuedSoFar(w, t, data, 3) && Small(data)
    ensures t.net.client.inboxOpen && t.net.serverAlive && t.net.client.readerAlive
    ensures PipelineLaws.ThreadsDone(t.net.client) && PipelineLaws.OutcomesOk(w.frames, t.net.client)
  {
    hide Fits, Small, CreateCall, WriteCall, ReadCall, Program, FrameCodec, BufferActions;
    ProgramPrefixes(data);
    ProgramFits(data);
    forall id | id in t.net.client.callers
      ensures PipelineLaws.OutcomeOk(w.frames, t.net.client.callers[id], id, false)
    {
      assert t.net.client.callers[id].action == Program(data)[id - 1].action;
      assert Fits(w.frames, FrameFor(id, Program(data)[id - 1].action));
    }
  }

  lemma ProgramIsHealthy(dev: Device, w: Network, t: State, data: Bytes)
    requires IsWorld(dev, w) && w.frames == FrameCodec(BufferActions()) && w.replies == ReplyCodec(BufferResponses())
    requires Faithful(dev.recordings) && LegalTrace(dev, Program(data)) && IssuedSoFar(w, t, data, 3) && Small(data)
    ensures PipelineLaws.Healthy(w, t.net) && PipelineLaws.ThreadsDone(t.net.client)
    ensures PipelineLaws.OutcomesOk(w.frames, t.net.client)
  {
    hide Fits, LegalTrace, Pipeline.AnswerTo, IssuedSoFar, Small, Program, PipelineLaws.ThreadsDone,
      PipelineLaws.OutcomesOk;
    ClientIsFine(w, t, data);
    ProgramAnswers(dev, w, t, data, 0);
    forall i | 0 <= i < 3 ensures Fits(w.replies, Pipeline.AnswerTo(w, t.net.client.enqueued, i)) {
      ProgramAnswers(dev, w, t, data, i);
      AnswerFits(i, data);
    }
  }

  lemma WorldOf(dev: Device, upCap: nat, downCap: nat)
    ensures var w := BufferWorld(dev, upCap, downCap);
      IsWorld(dev, w) && w.frames == FrameCodec(BufferActions()) && w.upCap == upCap && w.downCap == downCap
      && w.replies == ReplyCodec(BufferResponses())
  {
  }

  lemma ReadIsEnqueued(w: Network, t: State, data: Bytes)
    requires IssuedSoFar(w, t, data, 3)
    ensures t.session.trace == Program(data) && 3 in t.net.client.callers
    ensures var k := t.net.client.callers[3];
      k.kind == Request && k.stage == Pushed(2) && k.action == ReadCall(data).action
  {
    assert Program(data)[..3] == Program(data);
  }

  lemma LastIsAnswered(dev: Device, w: Network, t: State, f: NetState, data: Bytes)
    requires IsWorld(dev, w) && Pipeline.Sound(w) && Faithful(dev.recordings) && LegalTrace(dev, Program(data))
    requires IssuedSoFar(w, t, data, 3) && w.upCap > 0 && w.downCap > 0
    requires Pipeline.Inv(w, f) && PipelineLaws.Healthy(w, f) && PipelineLaws.OutcomesOk(w.frames, f.client)
    requires forall l: Pipeline.Step<Action> :: PipelineLaws.Cooperative(l) ==> !Pipeline.Enabled(w, f, l)
    requires PipelineLaws.Unchanged(t.net.client, f.client, 3) && f.client.enqueued == t.net.client.enqueued
    requires Fits(w.frames, FrameFor(3, ReadCall(data).action))
    ensures f.client.callers[3].outcome == Some(Replied(BufferData(data)))
  {
    ReadIsEnqueued(w, t, data);
    hide Pipeline.Inv, IssuedSoFar, LegalTrace, Fits, Program, Pipeline.Enabled, Pipeline.AnswerTo, Pipeline.StateAfter;
    PipelineLaws.MaximalRunResolvesAll(w, f, 3);
    assert f.client.inboxOpen && f.client.readerAlive;
    assert PipelineLaws.OutcomeOk(w.frames, f.client.callers[3], 3, false);
    assert PipelineLaws.Answered(f.client, 3);
    PipelineLaws.RepliesAreSequential(w, f, 3);
    ProgramAnswers(dev, w, t, data, 2);
  }

  /** There is a run, of threads, handles, pipes, server and tasks together, on which a program that
      creates a buffer, writes it and reads it is answered with the bytes it wrote. */
  lemma WriteThenRead(shade: (seq<GpuCall>, Contents, GpuCall) -> Contents, upCap: nat, downCap: nat, data: Bytes)
    returns (ls: seq<Step>)
    requires upCap > 0 && downCap > 0 && Small(data)
    ensures var dev := BufferDevice(shade); var w := BufferWorld(dev, upCap, downCap);
      && Legal(dev, w, Start(w), ls)
      && var s := Run(dev, w, Start(w), ls);
         && s.session.trace == Program(data) && 3 in s.net.client.callers
         && s.net.client.callers[3].outcome == Some(Replied(BufferData(data)))
  {
    var dev := BufferDevice(shade);
    var w := BufferWorld(dev, upCap, downCap);
    BufferWorldsAreFaithful(shade, upCap, downCap);
    WorldOf(dev, upCap, downCap);
    ProgramFits(data);
    hide BufferWorld, BufferDevice, Inv, Enabled, Apply, IssuedSoFar, PipelineLaws.Healthy, Pipeline.Inv,
      LegalTrace, Small, Fits, PipelineLaws.OutcomesOk, PipelineLaws.ThreadsDone, Program, ReadCall;
    ls := IssueProgram(dev, w, data);
    var t := Run(dev, w, Start(w), ls);
    StartInv(dev, w);
    RunKeeps(dev, w, Start(w), ls);
    InvIs(dev, w, t);
    ReadIsEnqueued(w, t, data);
    ProgramIsHealthy(dev, w, t, data);
    var ns := PipelineLaws.RunsToCompletion(w, t.net);
    Pipeline.RunKeeps(w, t.net, ns);
    PipelineLaws.OnlyFailuresClose(w, t.net, ns);
    PipelineLaws.RunSettlesOnce(w, t.net, ns, 3);
    LastIsAnswered(dev, w, t, Pipeline.Run(w, t.net, ns), data);
    var more := NetRuns(dev, w, t, ns);
    RunAppend(dev, w, Start(w), ls, more);
    ls := ls + more;
  }
}
