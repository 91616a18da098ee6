/** Total correctness of threads and pipeline together: a call that has begun can be committed, a
    healthy system with something outstanding can move and cannot move for ever, and where nothing is
    left to do every request has been told its verdict. */
module Progress {
  import opened Basics
  import opened Protocol
  import opened Codec
  import opened Gpu
  import opened Engine
  import opened Client
  import Pipeline
  import PipelineLaws
  import opened Local
  import opened Failures
  import Session
  import opened Joint
  import opened EndToEnd

  // ---- a joint run is a run of the pipeline ----

  /** What a joint step does to the pipeline, if anything. */
  function NetStep(dev: Device, l: Step): Option<Pipeline.Step<Action>> {
    match l
    case Begin(kind, call) =>
      if Issues(call) && Shippable(dev, OpOf(call)) then Some(Pipeline.Mint(kind, ToAction(dev, OpOf(call)))) else None
    case Commit(id) => Some(Pipeline.Push(id))
    case Handles(_) => None
    case Net(n) => Some(n)
  }

  lemma NetMoves(dev: Device, w: Network, s: State, l: Step)
    requires Enabled(dev, w, s, l)
    ensures match NetStep(dev, l)
      case None => Apply(dev, w, s, l).net == s.net
      case Some(n) => Pipeline.Enabled(w, s.net, n) && Apply(dev, w, s, l).net == Pipeline.Apply(w, s.net, n)
  {
    hide Session.Can, Session.Take, Fits, Shippable, ToAction, Pipeline.Apply;
  }

  lemma {:induction false} NetRunOf(dev: Device, w: Network, s: State, ls: seq<Step>)
    returns (ns: seq<Pipeline.Step<Action>>)
    requires Legal(dev, w, s, ls)
    ensures Pipeline.Legal(w, s.net, ns) && Pipeline.Run(w, s.net, ns) == Run(dev, w, s, ls).net
    decreases |ls|
  {
    hide Enabled, Apply, Pipeline.Enabled, Pipeline.Apply;
    if ls == [] { return []; }
    NetMoves(dev, w, s, ls[0]);
    var more := NetRunOf(dev, w, Apply(dev, w, s, ls[0]), ls[1..]);
    match NetStep(dev, ls[0])
    case None => return more;
    case Some(n) =>
      PipelineLaws.RunOne(w, s.net, n, more);
      return [n] + more;
  }

  // ---- calls on their way can be committed ----

  ghost predicate CallsHeld(dev: Device, s: Session.State, calls: map<RequestId, Session.Step>) {
    && (forall id :: id in calls ==> Issues(calls[id]) && Session.Can(dev, s, calls[id]))
    && (forall i, j :: i in calls && j in calls && i != j ==> !Clash(calls[i], calls[j]))
  }

  predicate ThreadsInCalls(c: ClientState<Action, Response>, calls: map<RequestId, Session.Step>) {
    forall id :: id in c.callers && (c.callers[id].stage.ToRegister? || c.callers[id].stage.ToPush?) ==> id in calls
  }

  ghost predicate HeldInv(dev: Device, s: State) {
    CallsHeld(dev, s.session, s.calls) && ThreadsInCalls(s.net.client, s.calls)
  }

  /** What another step of the session takes away, a call on its way does not need. */
  lemma CanStays(dev: Device, s: Session.State, l: Session.Step, call: Session.Step)
    requires Session.Can(dev, s, l) && Session.Can(dev, s, call) && Issues(call) && !Clash(call, l)
    requires l.DropHandle? && s.live[l.r] <= 1 ==> l.r !in OpRefs(dev, OpOf(call))
    ensures Session.Can(dev, Session.Take(dev, s, l), call)
  {
    hide Callable, OpRefs, OpCreates, OpDestroys, Session.Named, Session.Count;
  }

  lemma HeldAfter(dev: Device, s: Session.State, calls: map<RequestId, Session.Step>, l: Session.Step)
    requires CallsHeld(dev, s, calls) && Session.Can(dev, s, l) && Apart(calls, l)
    requires l.DropHandle? && s.live[l.r] <= 1 ==> !Borrowed(dev, calls, l.r)
    ensures CallsHeld(dev, Session.Take(dev, s, l), calls)
  {
    hide Session.Can, Session.Take, OpRefs, Clash;
    forall id | id in calls ensures Session.Can(dev, Session.Take(dev, s, l), calls[id]) {
      CanStays(dev, s, l, calls[id]);
    }
  }

  lemma CommitHeld(dev: Device, s: Session.State, calls: map<RequestId, Session.Step>, id: RequestId)
    requires CallsHeld(dev, s, calls) && id in calls
    ensures CallsHeld(dev, Session.Take(dev, s, calls[id]), calls - {id})
  {
    hide Session.Can, Session.Take, OpRefs, Clash;
    var less := calls - {id};
    assert CallsHeld(dev, s, less);
    assert Apart(less, calls[id]);
    HeldAfter(dev, s, less, calls[id]) by { hide Apart; NotADrop(calls[id]); }
  }

  lemma NotADrop(l: Session.Step)
    requires Issues(l)
    ensures !l.DropHandle?
  {
  }

  lemma BeginHeld(dev: Device, s: Session.State, calls: map<RequestId, Session.Step>, id: RequestId, call: Session.Step)
    requires CallsHeld(dev, s, calls) && Issues(call) && Session.Can(dev, s, call) && Apart(calls, call) && id !in calls
    ensures CallsHeld(dev, s, calls[id := call])
  {
    hide Session.Can, OpCreates;
  }

  lemma ThreadsStay(dev: Device, w: Network, s: State, n: Pipeline.Step<Action>)
    requires Pipeline.Enabled(w, s.net, n) && !n.Mint? && !n.Push? && ThreadsInCalls(s.net.client, s.calls)
    ensures ThreadsInCalls(Pipeline.Apply(w, s.net, n).client, s.calls)
  {
    hide DecodeFrame, EncodeFrame, Missing, Complete;
  }

  lemma MintThreads(w: Network, c: ClientState<Action, Response>, calls: map<RequestId, Session.Step>, kind: Kind,
                    a: Action, call: Session.Step)
    requires ThreadsInCalls(c, calls)
    ensures var d := MintCall(w.frames, c, kind, a);
      ThreadsInCalls(d, if Fits(w.frames, FrameFor(c.nextId, a)) then calls[c.nextId := call] else calls)
  {
    hide EncodeFrame;
  }

  lemma PushThreads(c: ClientState<Action, Response>, calls: map<RequestId, Session.Step>, id: RequestId)
    requires ThreadsInCalls(c, calls) && AtStage(c, id, ToPush)
    ensures ThreadsInCalls(PushCall(c, id), calls - {id})
  {
  }

  lemma NextIsNew(w: Network, s: NetState)
    requires Pipeline.Inv(w, s)
    ensures s.client.nextId !in s.client.callers
  {
    hide Pipeline.UpInv, Pipeline.DownInv, Pipeline.ServerInv, Pipeline.ClientInv;
    PipelineLaws.NextIdIsNew(w.frames, s.client, s.answers, s.delivered);
  }

  lemma CallsAreCallers(dev: Device, w: Network, s: State)
    requires Inv(dev, w, s)
    ensures forall id :: id in s.calls ==> id in s.net.client.callers
  {
    hide Pipeline.Inv, Session.Inv, WireInv, ToAction, Shippable;
    assert forall id :: id in s.calls ==> CallOk(dev, s.net.client, id, s.calls[id]);
  }

  lemma BeginKeepsHeld(dev: Device, w: Network, s: State, kind: Kind, call: Session.Step)
    requires Inv(dev, w, s) && HeldInv(dev, s) && Enabled(dev, w, s, Begin(kind, call))
    ensures HeldInv(dev, Apply(dev, w, s, Begin(kind, call)))
  {
    hide Pipeline.Inv, Session.Inv, WireInv, Session.Can, Session.Take, ToAction, Shippable, Fits, MintCall, CallsHeld,
      ThreadsInCalls, Clash, Borrowed;
    var id, a := s.net.client.nextId, ToAction(dev, OpOf(call));
    InvIs(dev, w, s);
    NextIsNew(w, s.net);
    NotADrop(call);
    HeldAfter(dev, s.session, s.calls, call);
    MintThreads(w, s.net.client, s.calls, kind, a, call);
    CallsAreCallers(dev, w, s);
    BeginHeld(dev, s.session, s.calls, id, call);
  }

  lemma StepKeepsHeld(dev: Device, w: Network, s: State, l: Step)
    requires Inv(dev, w, s) && HeldInv(dev, s) && Enabled(dev, w, s, l)
    ensures HeldInv(dev, Apply(dev, w, s, l))
  {
    match l
    case Begin(kind, call) => BeginKeepsHeld(dev, w, s, kind, call);
    case Commit(id) =>
      hide Inv, CallsHeld, ThreadsInCalls, Session.Can, Session.Take, PushCall;
      CommitHeld(dev, s.session, s.calls, id);
      PushThreads(s.net.client, s.calls, id);
    case Handles(h) =>
      hide Inv, CallsHeld, ThreadsInCalls, Session.Can, Session.Take, Borrowed;
      assert Apart(s.calls, h);
      HeldAfter(dev, s.session, s.calls, h);
    case Net(n) =>
      hide Inv, CallsHeld, ThreadsInCalls, Pipeline.Apply, Pipeline.Enabled;
      ThreadsStay(dev, w, s, n);
  }

  lemma {:induction false} RunKeepsHeld(dev: Device, w: Network, s: State, ls: seq<Step>)
    requires Pipeline.Sound(w) && Inv(dev, w, s) && HeldInv(dev, s) && Legal(dev, w, s, ls)
    ensures HeldInv(dev, Run(dev, w, s, ls))
    decreases |ls|
  {
    hide Inv, HeldInv, Enabled, Apply;
    if ls != [] {
      StepKeeps(dev, w, s, ls[0]);
      StepKeepsHeld(dev, w, s, ls[0]);
      RunKeepsHeld(dev, w, Apply(dev, w, s, ls[0]), ls[1..]);
    }
  }

  /** A call whose frame is ready can always be committed: what it mentions is still held. */
  lemma CommitIsEnabled(dev: Device, w: Network, s: State, id: RequestId)
    requires HeldInv(dev, s) && AtStage(s.net.client, id, ToPush)
    ensures Enabled(dev, w, s, Commit(id))
  {
    hide Session.Can, Clash;
  }

  // ---- progress ----

  /** A step that gets on with what was begun. */
  predicate Works(l: Step) { l.Commit? || (l.Net? && PipelineLaws.Cooperative(l.step)) }

  lemma WorkIsCooperative(dev: Device, w: Network, s: State, n: Pipeline.Step<Action>) returns (l: Step)
    requires HeldInv(dev, s) && PipelineLaws.Cooperative(n) && Pipeline.Enabled(w, s.net, n)
    ensures Works(l) && Enabled(dev, w, s, l) && Apply(dev, w, s, l).net == Pipeline.Apply(w, s.net, n)
  {
    l := if n.Push? then Commit(n.id) else Net(n);
    if n.Push? { CommitIsEnabled(dev, w, s, n.id); }
    hide HeldInv, Session.Can, Session.Take, Pipeline.Apply;
  }

  /** With any positive pipe capacities, a healthy joint system with an outstanding call can move. */
  lemma JointNeverStuck(dev: Device, w: Network, s: State, id: RequestId) returns (l: Step)
    requires Pipeline.Sound(w) && Inv(dev, w, s) && HeldInv(dev, s) && PipelineLaws.Healthy(w, s.net)
    requires w.upCap > 0 && w.downCap > 0 && PipelineLaws.Outstanding(s.net.client, id)
    ensures Works(l) && Enabled(dev, w, s, l)
  {
    InvIs(dev, w, s);
    hide Inv, HeldInv, Pipeline.Inv, PipelineLaws.Healthy, Enabled, Pipeline.Enabled;
    var n := PipelineLaws.NeverStuck(w, s.net, id);
    l := WorkIsCooperative(dev, w, s, n);
  }

  ghost predicate WorkStep(dev: Device, w: Network, s: State, t: State) {
    exists l: Step :: Works(l) && Enabled(dev, w, s, l) && t == Apply(dev, w, s, l)
  }

  /** And it cannot work for ever. */
  lemma NoEndlessWork(dev: Device, w: Network, run: nat -> State)
    requires Pipeline.Sound(w)
    requires forall i: nat :: Inv(dev, w, run(i)) && PipelineLaws.Healthy(w, run(i).net)
    requires forall i: nat :: WorkStep(dev, w, run(i), run(i + 1))
    ensures false
  {
    hide Inv, PipelineLaws.Healthy, Enabled, Apply, Pipeline.Enabled, Pipeline.Apply, Pipeline.Inv;
    var nets := (i: nat) => run(i).net;
    forall i: nat
      ensures Pipeline.Inv(w, nets(i)) && PipelineLaws.Healthy(w, nets(i))
      ensures PipelineLaws.CooperativeStep(w, nets(i), nets(i + 1))
    {
      InvIs(dev, w, run(i));
      assert WorkStep(dev, w, run(i), run(i + 1));
      var l: Step :| Works(l) && Enabled(dev, w, run(i), l) && run(i + 1) == Apply(dev, w, run(i), l);
      NetMoves(dev, w, run(i), l);
    }
    PipelineLaws.NoEndlessRun(w, nets, 0);
  }

  /** Total correctness. At the end of every healthy joint run with nothing left to do, each request
      that can be encoded has been told its verdict; one that cannot was told so. */
  lemma EveryCallIsTold(dev: Device, w: Network, ls: seq<Step>, id: RequestId)
    requires IsWorld(dev, w) && Faithful(dev.recordings) && Pipeline.Sound(w) && w.upCap > 0 && w.downCap > 0
    requires Legal(dev, w, Start(w), ls)
    requires PipelineLaws.Healthy(w, Run(dev, w, Start(w), ls).net)
    requires forall l: Step :: Works(l) ==> !Enabled(dev, w, Run(dev, w, Start(w), ls), l)
    requires var c := Run(dev, w, Start(w), ls).net.client; id in c.callers && c.callers[id].kind.Request?
    ensures var s := Run(dev, w, Start(w), ls); var k := s.net.client.callers[id];
      if Fits(w.frames, FrameFor(id, k.action))
      then k.stage.Pushed? && k.outcome.Some? && k.outcome.value.Replied?
        && IsVerdict(dev, s, k.stage.position, k.action, k.outcome.value.response)
      else k.outcome == Some(NotEncodable(EncodeFrame(w.frames, FrameFor(id, k.action)).error))
  {
    var s := Run(dev, w, Start(w), ls);
    StartInv(dev, w);
    assert HeldInv(dev, Start(w));
    RunKeeps(dev, w, Start(w), ls);
    RunKeepsHeld(dev, w, Start(w), ls);
    var ns := NetRunOf(dev, w, Start(w), ls);
    hide Inv, HeldInv, PipelineLaws.Healthy, Enabled, Pipeline.Enabled, IsVerdict, Fits, Legal, Run, Pipeline.Legal,
      Pipeline.Run, Pipeline.AnswerTo, Works, PipelineLaws.Cooperative;
    forall n: Pipeline.Step<Action> | PipelineLaws.Cooperative(n) ensures !Pipeline.Enabled(w, s.net, n) {
      if Pipeline.Enabled(w, s.net, n) { var l := WorkIsCooperative(dev, w, s, n); }
    }
    PipelineLaws.EveryRequestIsAnswered(w, ns, id);
    if PipelineLaws.Answered(s.net.client, id) { AnswersAreVerdicts(dev, w, s, id); }
  }
}
