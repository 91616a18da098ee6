/** Client threads with their handles (`Session`) and the pipeline (`Pipeline`) as one machine. A call
    begins when its thread encodes it and is committed when its frame is handed to the inbox, at which
    moment it also joins the session's trace; every other step moves one side only. */
module Joint {
  import opened Basics
  import opened Protocol
  import opened Codec
  import opened Gpu
  import opened Engine
  import opened Client
  import Pipeline
  import PipelineLaws
  import opened Local
  import opened Failures
  import Session

  type Network = Pipeline.Env<Action, Response, EngineState>

  type NetState = Pipeline.Sys<Action, Response, EngineState>

  /** The pipeline with the replay engine at its far end. */
  function World(dev: Device, fc: BodyCodec<Frame<Action>>, rc: BodyCodec<ResponseFrame<Response>>,
                 upCap: nat, downCap: nat)
    : Network
  {
    Pipeline.Env(fc, rc, (st: EngineState, a: Action) => Handle(dev, st, a), EngineStart(), upCap, downCap)
  }

  ghost predicate IsWorld(dev: Device, w: Network) { w == World(dev, w.frames, w.replies, w.upCap, w.downCap) }

  /** `calls`: begun and encoded, not committed yet. `sent[i]`: whether the frame of the `i`-th call of
      the session's trace entered the inbox. */
  datatype State = State(net: NetState, session: Session.State, calls: map<RequestId, Session.Step>, sent: seq<bool>)

  datatype Step =
    | Begin(kind: Kind, call: Session.Step)
    | Commit(id: RequestId)
    | Handles(l: Session.Step)
    | Net(step: Pipeline.Step<Action>)

  function Start(w: Network): State { State(Pipeline.Init(w), Session.Start(), map[], []) }

  predicate Issues(l: Session.Step) { l.Create? || l.Use? || l.SendDestroy? }

  function OpOf(l: Session.Step): Op
    requires Issues(l)
  {
    match l
    case Create(op) => op
    case Use(op) => op
    case SendDestroy(r) => Do(Destroy(r))
  }

  /** Two calls that only one thread can make: it alone holds the id. */
  predicate Clash(a: Session.Step, b: Session.Step) {
    (a.Create? && b.Create? && OpCreates(a.op) == OpCreates(b.op)) || (a.SendDestroy? && a == b)
  }

  predicate Apart(calls: map<RequestId, Session.Step>, call: Session.Step) {
    forall id :: id in calls ==> !Clash(calls[id], call)
  }

  /** A call on its way to the inbox borrows the handles it mentions. */
  predicate Borrowed(dev: Device, calls: map<RequestId, Session.Step>, r: ResourceId) {
    exists id :: id in calls && Issues(calls[id]) && r in OpRefs(dev, OpOf(calls[id]))
  }

  predicate Enabled(dev: Device, w: Network, s: State, l: Step) {
    match l
    case Begin(_, call) => Issues(call) && Session.Can(dev, s.session, call) && Apart(s.calls, call)
    case Commit(id) =>
      && id in s.calls && Pipeline.Enabled(w, s.net, Pipeline.Push(id)) && Session.Can(dev, s.session, s.calls[id])
    case Handles(h) =>
      && !Issues(h) && Session.Can(dev, s.session, h)
      && (h.DropHandle? && s.session.live[h.r] <= 1 ==> !Borrowed(dev, s.calls, h.r))
    case Net(n) => !n.Mint? && !n.Push? && Pipeline.Enabled(w, s.net, n)
  }

  /** The call is over for its thread, and its frame went nowhere. */
  function Lose(dev: Device, s: State, net: NetState, call: Session.Step): State
    requires Session.Can(dev, s.session, call)
  {
    s.(net := net, session := Session.Take(dev, s.session, call), sent := s.sent + [false])
  }

  /** A call whose recordings or frame cannot be encoded is lost at once. One that is committed is sent
      unless the writer has died. */
  function Apply(dev: Device, w: Network, s: State, l: Step): State
    requires Enabled(dev, w, s, l)
  {
    match l
    case Begin(kind, call) =>
      if !Shippable(dev, OpOf(call)) then Lose(dev, s, s.net, call)
      else
        var id, a := s.net.client.nextId, ToAction(dev, OpOf(call));
        var minted := Pipeline.Apply(w, s.net, Pipeline.Mint(kind, a));
        if Fits(w.frames, FrameFor(id, a)) then s.(net := minted, calls := s.calls[id := call])
        else Lose(dev, s, minted, call)
    case Commit(id) =>
      State(Pipeline.Apply(w, s.net, Pipeline.Push(id)), Session.Take(dev, s.session, s.calls[id]),
            s.calls - {id}, s.sent + [s.net.client.inboxOpen])
    case Handles(h) => s.(session := Session.Take(dev, s.session, h))
    case Net(n) => s.(net := Pipeline.Apply(w, s.net, n))
  }

  predicate Legal(dev: Device, w: Network, s: State, ls: seq<Step>)
    decreases |ls|
  {
    ls != [] ==> Enabled(dev, w, s, ls[0]) && Legal(dev, w, Apply(dev, w, s, ls[0]), ls[1..])
  }

  function Run(dev: Device, w: Network, s: State, ls: seq<Step>): State
    requires Legal(dev, w, s, ls)
    decreases |ls|
  {
    if ls == [] then s else Run(dev, w, Apply(dev, w, s, ls[0]), ls[1..])
  }

  // ---- the invariant: the wire carries what the session issued ----

  /** The frames in the inbox order carry exactly the actions of these calls. */
  predicate Carries(dev: Device, fs: seq<Frame<Action>>, ops: seq<Op>) {
    |fs| == |ops| && forall i :: 0 <= i < |fs| ==> fs[i].action == ToAction(dev, ops[i])
  }

  predicate CallOk(dev: Device, c: ClientState<Action, Response>, id: RequestId, call: Session.Step) {
    && Issues(call) && Shippable(dev, OpOf(call))
    && id in c.callers && c.callers[id].action == ToAction(dev, OpOf(call))
  }

  ghost predicate WireInv(dev: Device, c: ClientState<Action, Response>, ops: seq<Op>, sent: seq<bool>) {
    Shipped(dev, ops, sent) && Carries(dev, c.enqueued, Wire(ops, sent))
  }

  ghost predicate CallsOk(dev: Device, c: ClientState<Action, Response>, calls: map<RequestId, Session.Step>) {
    forall id :: id in calls ==> CallOk(dev, c, id, calls[id])
  }

  ghost predicate Inv(dev: Device, w: Network, s: State) {
    && Pipeline.Inv(w, s.net) && Session.Inv(dev, s.session)
    && WireInv(dev, s.net.client, s.session.trace, s.sent)
    && CallsOk(dev, s.net.client, s.calls)
  }

  lemma StartInv(dev: Device, w: Network)
    ensures Inv(dev, w, Start(w))
  {
    Pipeline.InitInv(w);
    Session.StartsLegal(dev);
    hide Pipeline.Inv, Session.Inv;
  }

  lemma IssuedIsTraced(dev: Device, s: Session.State, l: Session.Step)
    requires Session.Can(dev, s, l)
    ensures Session.Take(dev, s, l).trace == if Issues(l) then s.trace + [OpOf(l)] else s.trace
  {
  }

  lemma WireOneMore(ops: seq<Op>, sent: seq<bool>, op: Op, now: bool)
    requires |sent| == |ops|
    ensures Wire(ops + [op], sent + [now]) == if now then Wire(ops, sent) + [op] else Wire(ops, sent)
  {
    assert (ops + [op])[..|ops|] == ops && (sent + [now])[..|ops|] == sent;
  }

  lemma WireGrows(dev: Device, c: ClientState<Action, Response>, d: ClientState<Action, Response>, ops: seq<Op>,
                  sent: seq<bool>, op: Op, now: bool)
    requires WireInv(dev, c, ops, sent) && (now ==> Shippable(dev, op))
    requires |d.enqueued| == |c.enqueued| + (if now then 1 else 0) && d.enqueued[..|c.enqueued|] == c.enqueued
    requires now ==> d.enqueued[|c.enqueued|].action == ToAction(dev, op)
    ensures WireInv(dev, d, ops + [op], sent + [now])
  {
    hide Wire, ToAction, Shippable;
    WireOneMore(ops, sent, op, now);
    if now {
      forall i | 0 <= i < |d.enqueued|
        ensures d.enqueued[i].action == ToAction(dev, Wire(ops + [op], sent + [now])[i])
      {
        if i < |c.enqueued| { assert d.enqueued[i] == d.enqueued[..|c.enqueued|][i]; }
      }
    }
  }

  lemma MintKeepsCalls(dev: Device, w: Network, c: ClientState<Action, Response>,
                       calls: map<RequestId, Session.Step>, kind: Kind, a: Action)
    requires CallsOk(dev, c, calls) && c.nextId !in c.callers
    ensures var d := MintCall(w.frames, c, kind, a);
      CallsOk(dev, d, calls) && d.enqueued == c.enqueued && c.nextId in d.callers && d.callers[c.nextId].action == a
  {
    hide EncodeFrame, ToAction, Shippable;
  }

  lemma BeginKeeps(dev: Device, w: Network, s: State, kind: Kind, call: Session.Step)
    requires Pipeline.Sound(w) && Inv(dev, w, s) && Enabled(dev, w, s, Begin(kind, call))
    ensures Inv(dev, w, Apply(dev, w, s, Begin(kind, call)))
  {
    var op := OpOf(call);
    Session.StepKeeps(dev, s.session, call);
    IssuedIsTraced(dev, s.session, call);
    PipelineLaws.NextIdIsNew(w.frames, s.net.client, s.net.answers, s.net.delivered) by {
      assert Pipeline.Inv(w, s.net);
    }
    hide Pipeline.Inv, Session.Inv, Session.Can, Session.Take, WireInv, CallsOk, ToAction, Shippable, MintCall, Fits;
    if !Shippable(dev, op) {
      WireGrows(dev, s.net.client, s.net.client, s.session.trace, s.sent, op, false);
    } else {
      var a := ToAction(dev, op);
      Pipeline.StepKeeps(w, s.net, Pipeline.Mint(kind, a));
      MintKeepsCalls(dev, w, s.net.client, s.calls, kind, a);
      var d := MintCall(w.frames, s.net.client, kind, a);
      if Fits(w.frames, FrameFor(s.net.client.nextId, a)) {
        WireSame(dev, s.net.client, d, s.session.trace, s.sent);
        CallsGrow(dev, d, s.calls, s.net.client.nextId, call);
      } else {
        WireGrows(dev, s.net.client, d, s.session.trace, s.sent, op, false);
      }
    }
  }

  lemma WireSame(dev: Device, c: ClientState<Action, Response>, d: ClientState<Action, Response>, ops: seq<Op>,
      sent: seq<bool>)
    requires WireInv(dev, c, ops, sent) && d.enqueued == c.enqueued
    ensures WireInv(dev, d, ops, sent)
  {
    hide Wire, ToAction, Shippable;
  }

  lemma CallsGrow(dev: Device, c: ClientState<Action, Response>, calls: map<RequestId, Session.Step>,
                  id: RequestId, call: Session.Step)
    requires CallsOk(dev, c, calls) && CallOk(dev, c, id, call)
    ensures CallsOk(dev, c, calls[id := call])
  {
    hide CallOk;
  }

  lemma PushKeepsCalls(dev: Device, c: ClientState<Action, Response>, calls: map<RequestId, Session.Step>,
      id: RequestId)
    requires CallsOk(dev, c, calls) && AtStage(c, id, ToPush) && id in calls
    ensures var d := PushCall(c, id);
      && CallsOk(dev, d, calls - {id})
      && d.enqueued == (if c.inboxOpen then c.enqueued + [FrameFor(id, c.callers[id].action)] else c.enqueued)
  {
    hide ToAction, Shippable;
  }

  lemma InvIs(dev: Device, w: Network, s: State)
    requires Inv(dev, w, s)
    ensures Pipeline.Inv(w, s.net) && WireInv(dev, s.net.client, s.session.trace, s.sent)
    ensures LegalTrace(dev, s.session.trace)
  {
    hide Pipeline.Inv, CallsOk, LegalTrace, WireInv, Known, EverCreated;
  }

  lemma CommitApplies(dev: Device, w: Network, s: State, id: RequestId)
    requires Enabled(dev, w, s, Commit(id))
    ensures id in s.calls && AtStage(s.net.client, id, ToPush) && Session.Can(dev, s.session, s.calls[id])
    ensures Apply(dev, w, s, Commit(id)) == State(
      s.net.(client := PushCall(s.net.client, id)), Session.Take(dev, s.session, s.calls[id]), s.calls - {id},
      s.sent + [s.net.client.inboxOpen])
  {
    hide Session.Can, Session.Take, PushCall;
  }

  /** The session's side of a commit. */
  lemma CommitTraces(dev: Device, s: State, id: RequestId)
    requires Session.Inv(dev, s.session) && CallsOk(dev, s.net.client, s.calls)
    requires id in s.calls && Session.Can(dev, s.session, s.calls[id])
    ensures CallOk(dev, s.net.client, id, s.calls[id])
    ensures var t := Session.Take(dev, s.session, s.calls[id]);
      Session.Inv(dev, t) && t.trace == s.session.trace + [OpOf(s.calls[id])]
  {
    hide Session.Inv, Session.Can, Session.Take, ToAction, Shippable;
    Session.StepKeeps(dev, s.session, s.calls[id]);
    IssuedIsTraced(dev, s.session, s.calls[id]);
  }

  /** The pipeline's side. */
  lemma CommitNet(w: Network, s: NetState, id: RequestId)
    requires Pipeline.Sound(w) && Pipeline.Inv(w, s) && AtStage(s.client, id, ToPush)
    ensures Pipeline.Inv(w, s.(client := PushCall(s.client, id)))
  {
    hide Pipeline.Inv, PushCall;
    Pipeline.StepKeeps(w, s, Pipeline.Push(id));
  }

  lemma CommitKeeps(dev: Device, w: Network, s: State, id: RequestId)
    requires Pipeline.Sound(w) && Inv(dev, w, s) && Enabled(dev, w, s, Commit(id))
    ensures Inv(dev, w, Apply(dev, w, s, Commit(id)))
  {
    hide Pipeline.Inv, Session.Inv, Session.Can, Session.Take, WireInv, CallsOk, ToAction, Shippable, PushCall, Apply,
      Enabled;
    CommitApplies(dev, w, s, id);
    CommitTraces(dev, s, id);
    CommitNet(w, s.net, id);
    PushKeepsCalls(dev, s.net.client, s.calls, id);
    WireGrows(dev, s.net.client, PushCall(s.net.client, id), s.session.trace, s.sent, OpOf(s.calls[id]),
      s.net.client.inboxOpen);
  }

  lemma NetKeepsClient(dev: Device, w: Network, s: NetState, n: Pipeline.Step<Action>,
                       calls: map<RequestId, Session.Step>)
    requires Pipeline.Inv(w, s) && Pipeline.Enabled(w, s, n) && !n.Mint? && !n.Push? && CallsOk(dev, s.client, calls)
    ensures var d := Pipeline.Apply(w, s, n).client; d.enqueued == s.client.enqueued && CallsOk(dev, d, calls)
  {
    hide Pipeline.Inv, DecodeFrame, EncodeFrame, ToAction, Shippable;
  }

  lemma StepKeeps(dev: Device, w: Network, s: State, l: Step)
    requires Pipeline.Sound(w) && Inv(dev, w, s) && Enabled(dev, w, s, l)
    ensures Inv(dev, w, Apply(dev, w, s, l))
  {
    match l
    case Begin(kind, call) => BeginKeeps(dev, w, s, kind, call);
    case Commit(id) => CommitKeeps(dev, w, s, id);
    case Handles(h) =>
      Session.StepKeeps(dev, s.session, h);
      IssuedIsTraced(dev, s.session, h);
      hide Pipeline.Inv, Session.Inv, Session.Can, Session.Take, WireInv, CallsOk;
    case Net(n) =>
      Pipeline.StepKeeps(w, s.net, n);
      NetKeepsClient(dev, w, s.net, n, s.calls);
      WireSame(dev, s.net.client, Pipeline.Apply(w, s.net, n).client, s.session.trace, s.sent);
      hide Pipeline.Inv, Session.Inv, WireInv, CallsOk, Pipeline.Apply, Pipeline.Enabled;
  }

  /** In every joint run the inbox order carries exactly the calls that were sent, in the order the
      session issued them, and the session's trace is legal. */
  lemma {:induction false} RunKeeps(dev: Device, w: Network, s: State, ls: seq<Step>)
    requires Pipeline.Sound(w) && Inv(dev, w, s) && Legal(dev, w, s, ls)
    ensures Inv(dev, w, Run(dev, w, s, ls))
    decreases |ls|
  {
    hide Inv, Enabled, Apply;
    if ls != [] {
      StepKeeps(dev, w, s, ls[0]);
      RunKeeps(dev, w, Apply(dev, w, s, ls[0]), ls[1..]);
    }
  }

  // ---- what can be lost ----

  /** Nothing a client did so far was too large or failed to serialize, and its writer is alive. */
  ghost predicate Lossless(dev: Device, w: Network, s: State) {
    && s.net.client.inboxOpen
    && (forall id :: id in s.net.client.callers ==> Fits(w.frames, FrameFor(id, s.net.client.callers[id].action)))
    && (forall op :: op in s.session.trace ==> Shippable(dev, op))
  }

  ghost predicate LossInv(dev: Device, w: Network, s: State) {
    Lossless(dev, w, s) ==> forall i :: 0 <= i < |s.sent| ==> s.sent[i]
  }

  lemma NetInboxStays(w: Network, s: NetState, n: Pipeline.Step<Action>)
    requires Pipeline.Enabled(w, s, n)
    ensures Pipeline.Apply(w, s, n).client.inboxOpen ==> s.client.inboxOpen
  {
    hide DecodeFrame, EncodeFrame, Missing, Complete;
  }

  lemma InboxStays(dev: Device, w: Network, s: State, l: Step)
    requires Enabled(dev, w, s, l)
    ensures Apply(dev, w, s, l).net.client.inboxOpen ==> s.net.client.inboxOpen
  {
    hide Session.Can, Session.Take, Fits, Shippable, ToAction, Pipeline.Apply, Pipeline.Enabled;
    match l
    case Begin(kind, call) =>
      var mint := Pipeline.Mint(kind, ToAction(dev, OpOf(call)));
      assert Pipeline.Enabled(w, s.net, mint) by { MintIsEnabled(w, s.net, mint); }
      NetInboxStays(w, s.net, mint);
    case Commit(id) => NetInboxStays(w, s.net, Pipeline.Push(id));
    case Handles(_) =>
    case Net(n) => NetInboxStays(w, s.net, n);
  }

  lemma MintIsEnabled(w: Network, s: NetState, n: Pipeline.Step<Action>)
    requires n.Mint?
    ensures Pipeline.Enabled(w, s, n)
  {
  }

  lemma LosslessBefore(dev: Device, w: Network, s: State, l: Step)
    requires Pipeline.Sound(w) && Inv(dev, w, s) && Enabled(dev, w, s, l) && Lossless(dev, w, Apply(dev, w, s, l))
    ensures Lossless(dev, w, s)
  {
    hide Inv, Enabled, Apply, Fits, Shippable;
    var t := Apply(dev, w, s, l);
    TraceGrows(dev, w, s, l);
    InboxStays(dev, w, s, l);
    forall id | id in s.net.client.callers
      ensures id in t.net.client.callers && t.net.client.callers[id].action == s.net.client.callers[id].action
    {
      ActionsStay(dev, w, s, l, id);
    }
    forall op | op in s.session.trace ensures Shippable(dev, op) { assert op in t.session.trace; }
  }

  lemma TraceGrows(dev: Device, w: Network, s: State, l: Step)
    requires Enabled(dev, w, s, l)
    ensures s.session.trace <= Apply(dev, w, s, l).session.trace
  {
    hide Pipeline.Apply, Pipeline.Enabled, Fits, Shippable, ToAction;
  }

  lemma ActionsStay(dev: Device, w: Network, s: State, l: Step, id: RequestId)
    requires Inv(dev, w, s) && Enabled(dev, w, s, l) && id in s.net.client.callers
    ensures var c := Apply(dev, w, s, l).net.client;
      id in c.callers && c.callers[id].action == s.net.client.callers[id].action
  {
    hide Session.Can, Session.Take, Shippable, ToAction, Pipeline.Inv, WireInv, CallsOk, Session.Inv, Fits;
    match l
    case Begin(kind, call) =>
      if Shippable(dev, OpOf(call)) {
        PipelineLaws.StepSettlesOnce(w, s.net, Pipeline.Mint(kind, ToAction(dev, OpOf(call))), id);
      }
      hide Pipeline.Apply;
    case Commit(i) =>
      PipelineLaws.StepSettlesOnce(w, s.net, Pipeline.Push(i), id);
      hide Pipeline.Apply;
    case Handles(_) =>
    case Net(n) =>
      PipelineLaws.StepSettlesOnce(w, s.net, n, id);
      hide Pipeline.Apply;
  }

  lemma UnshippableIsTraced(dev: Device, w: Network, s: State, l: Step)
    requires Enabled(dev, w, s, l)
    ensures l.Begin? && !Shippable(dev, OpOf(l.call)) ==> OpOf(l.call) in Apply(dev, w, s, l).session.trace
  {
    if l.Begin? { IssuedIsTraced(dev, s.session, l.call); }
    hide Session.Can, Session.Take, Pipeline.Apply, Pipeline.Enabled, Fits, Shippable, ToAction;
  }

  lemma LostForACause(dev: Device, w: Network, s: State, kind: Kind, call: Session.Step)
    requires Enabled(dev, w, s, Begin(kind, call))
    ensures var t := Apply(dev, w, s, Begin(kind, call)); t.sent == s.sent || !Lossless(dev, w, t)
  {
    UnshippableIsTraced(dev, w, s, Begin(kind, call));
    hide Session.Can, Session.Take, EncodeFrame, Fits, Shippable, ToAction, Pipeline.Enabled;
    var t, id := Apply(dev, w, s, Begin(kind, call)), s.net.client.nextId;
    if Shippable(dev, OpOf(call)) {
      assert id in t.net.client.callers && t.net.client.callers[id].action == ToAction(dev, OpOf(call));
    }
  }

  lemma LossStep(dev: Device, w: Network, s: State, l: Step)
    requires Pipeline.Sound(w) && Inv(dev, w, s) && Enabled(dev, w, s, l) && LossInv(dev, w, s)
    ensures LossInv(dev, w, Apply(dev, w, s, l))
  {
    hide Inv, Session.Can, Session.Take, Pipeline.Apply, Pipeline.Enabled, Fits, Shippable, ToAction;
    var t := Apply(dev, w, s, l);
    if Lossless(dev, w, t) {
      LosslessBefore(dev, w, s, l);
      if l.Begin? { LostForACause(dev, w, s, l.kind, l.call); }
    }
  }

  /** The only ways a call is lost: its recordings or its frame could not be encoded, or the writer
      died. Otherwise, in every joint run, everything the session issued was sent. */
  lemma {:induction false} OnlyTheseAreLost(dev: Device, w: Network, s: State, ls: seq<Step>)
    requires Pipeline.Sound(w) && Inv(dev, w, s) && LossInv(dev, w, s) && Legal(dev, w, s, ls)
    ensures LossInv(dev, w, Run(dev, w, s, ls))
    decreases |ls|
  {
    hide Inv, Enabled, Apply, LossInv;
    if ls != [] {
      StepKeeps(dev, w, s, ls[0]);
      LossStep(dev, w, s, ls[0]);
      OnlyTheseAreLost(dev, w, Apply(dev, w, s, ls[0]), ls[1..]);
    }
  }

  // ---- the session's own steps in a joint run ----

  /** What a joint step does to the session. */
  function SessionStep(dev: Device, w: Network, s: State, l: Step): seq<Session.Step>
    requires Enabled(dev, w, s, l)
  {
    match l
    case Begin(_, call) =>
      if Shippable(dev, OpOf(call)) && Fits(w.frames, FrameFor(s.net.client.nextId, ToAction(dev, OpOf(call))))
      then [] else [call]
    case Commit(id) => [s.calls[id]]
    case Handles(h) => [h]
    case Net(_) => []
  }

  function SessionSteps(dev: Device, w: Network, s: State, ls: seq<Step>): seq<Session.Step>
    requires Legal(dev, w, s, ls)
    decreases |ls|
  {
    if ls == [] then [] else SessionStep(dev, w, s, ls[0]) + SessionSteps(dev, w, Apply(dev, w, s, ls[0]), ls[1..])
  }

  lemma SessionMoves(dev: Device, w: Network, s: State, l: Step)
    requires Enabled(dev, w, s, l)
    ensures var hs := SessionStep(dev, w, s, l); var t := Apply(dev, w, s, l).session;
      if hs == [] then t == s.session
      else |hs| == 1 && Session.Can(dev, s.session, hs[0]) && t == Session.Take(dev, s.session, hs[0])
  {
    hide Session.Can, Session.Take, Pipeline.Apply, Pipeline.Enabled, Fits, Shippable, ToAction;
  }

  /** The session part of a joint run is a run of the session: what holds of those holds of it. */
  lemma {:induction false} SessionRuns(dev: Device, w: Network, s: State, ls: seq<Step>)
    requires Legal(dev, w, s, ls)
    ensures var hs := SessionSteps(dev, w, s, ls);
      Session.CanAll(dev, s.session, hs) && Run(dev, w, s, ls).session == Session.TakeAll(dev, s.session, hs)
    decreases |ls|
  {
    hide Enabled, Apply, SessionStep, Session.Can, Session.Take;
    if ls != [] {
      SessionMoves(dev, w, s, ls[0]);
      SessionRuns(dev, w, Apply(dev, w, s, ls[0]), ls[1..]);
      var hs, more := SessionStep(dev, w, s, ls[0]), SessionSteps(dev, w, Apply(dev, w, s, ls[0]), ls[1..]);
      if hs == [] { assert hs + more == more; } else { assert (hs + more)[1..] == more; }
    }
  }

  /** In every joint run a destroy goes out only after the last clone was dropped. */
  lemma LastDropDestroys(dev: Device, w: Network, ls: seq<Step>, r: ResourceId)
    requires Legal(dev, w, Start(w), ls)
    ensures var s, hs := Run(dev, w, Start(w), ls).session, SessionSteps(dev, w, Start(w), ls);
      && (r in s.live <==> Session.IsMade(hs, r) && Session.Drops(hs, r) < 1 + Session.Clones(hs, r))
      && (Session.DestroySent(s.trace, r) ==>
            Session.IsMade(hs, r) && Session.Drops(hs, r) == 1 + Session.Clones(hs, r))
  {
    hide Enabled, Apply, Run, SessionSteps, Session.CanAll, Session.TakeAll, Session.Can, Session.Take,
      Session.IsMade, Session.DestroySent;
    SessionRuns(dev, w, Start(w), ls);
    Session.LastDropDestroys(dev, SessionSteps(dev, w, Start(w), ls), r);
  }
}
