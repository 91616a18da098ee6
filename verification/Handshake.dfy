/** One stream per facade client (client/instance.rs:49-108, client/client.rs:155-227): the handshake
    hands out an adapter, then a device, only after a request has gone through, so by the time a
    `send` is possible the multiplexer exists and every frame goes through its one inbox. */
module Handshake {
  import opened Basics
  import opened Protocol

  /** `streams` lists the frames put on each stream opened so far; `mux` is the one the client keeps.
      `sent` is history: all frames, in the order they were handed over. */
  datatype State = State(
    mux: Option<nat>, streams: seq<seq<Action>>, sent: seq<Action>, adapters: nat, devices: nat)

  function Start(): State { State(None, [], [], 0, 0) }

  /** `opens`: whether opening a stream succeeds, should one be needed. `flushed`: whether a frame put on
      a stream of its own goes out before that stream's tasks are aborted. A reply of `None` is a closed
      connection. The two `Raw` steps bypass the facade and use its client directly. */
  datatype Step =
    | RequestAdapter(opens: bool, hello: Option<Response>, adapter: Option<Response>)
    | RequestDevice(opens: bool, device: Option<Response>)
    | HandleSend(opens: bool, flushed: bool, action: Action)
    | HandleRequest(opens: bool, action: Action)
    | RawRequest(opens: bool, action: Action)
    | RawSend(opens: bool, flushed: bool, action: Action)

  function Append(streams: seq<seq<Action>>, k: nat, a: Action): seq<seq<Action>> {
    if k < |streams| then streams[k := streams[k] + [a]] else streams
  }

  /** A request first makes sure there is a multiplexer. */
  function Request(s: State, opens: bool, a: Action): State {
    match s.mux
    case Some(k) => s.(streams := Append(s.streams, k, a), sent := s.sent + [a])
    case None =>
      if !opens then s
      else s.(mux := Some(|s.streams|), streams := s.streams + [[a]], sent := s.sent + [a])
  }

  /** A send without a multiplexer opens a stream that only it uses. Nobody keeps that stream's
      multiplexer, so its writer is aborted as soon as the frame has been handed to it. */
  function Send(s: State, opens: bool, flushed: bool, a: Action): State {
    match s.mux
    case Some(k) => s.(streams := Append(s.streams, k, a), sent := s.sent + [a])
    case None =>
      if !opens then s
      else s.(streams := s.streams + [if flushed then [a] else []], sent := s.sent + [a])
  }

  function AdapterFor(s: State, opens: bool, hello: Option<Response>, adapter: Option<Response>): State {
    var greeted := Request(s, opens, Hello(PROTOCOL_VERSION));
    if greeted.mux.None? || hello.None? || !hello.value.HelloAck? then greeted
    else
      var asked := Request(greeted, opens, Action.RequestAdapter);
      if adapter == Some(Ack) then asked.(adapters := asked.adapters + 1) else asked
  }

  function DeviceFor(s: State, opens: bool, device: Option<Response>): State {
    var asked := Request(s, opens, Action.RequestDevice(None));
    if asked.mux.Some? && device == Some(Ack) then asked.(devices := asked.devices + 1) else asked
  }

  predicate Can(s: State, l: Step) {
    match l
    case RequestDevice(_, _) => s.adapters > 0
    case HandleSend(_, _, _) => s.devices > 0
    case HandleRequest(_, _) => s.devices > 0
    case _ => true
  }

  function Take(s: State, l: Step): State
    requires Can(s, l)
  {
    match l
    case RequestAdapter(opens, hello, adapter) => AdapterFor(s, opens, hello, adapter)
    case RequestDevice(opens, device) => DeviceFor(s, opens, device)
    case HandleSend(opens, flushed, a) => Send(s, opens, flushed, a)
    case HandleRequest(opens, a) => Request(s, opens, a)
    case RawRequest(opens, a) => Request(s, opens, a)
    case RawSend(opens, flushed, a) => Send(s, opens, flushed, a)
  }

  predicate CanAll(s: State, ls: seq<Step>)
    decreases |ls|
  {
    ls != [] ==> Can(s, ls[0]) && CanAll(Take(s, ls[0]), ls[1..])
  }

  function TakeAll(s: State, ls: seq<Step>): State
    requires CanAll(s, ls)
    decreases |ls|
  {
    if ls == [] then s else TakeAll(Take(s, ls[0]), ls[1..])
  }

  /** A raw send that opens a stream of its own, somewhere in the run. */
  predicate ColdSend(s: State, ls: seq<Step>)
    requires CanAll(s, ls)
    decreases |ls|
  {
    ls != [] && ((ls[0].RawSend? && ls[0].opens && s.mux.None?) || ColdSend(Take(s, ls[0]), ls[1..]))
  }

  /** Everything ever handed over is on the multiplexer's stream, in that order, and there is no
      other stream. */
  predicate OneStream(s: State) {
    match s.mux
    case None => s.streams == [] && s.sent == []
    case Some(k) => k == 0 && s.streams == [s.sent]
  }

  predicate Bounded(s: State) {
    && (s.adapters > 0 || s.devices > 0 ==> s.mux.Some?)
    && (s.mux.Some? ==> s.mux.value < |s.streams|)
  }

  lemma StepKeepsBounds(s: State, l: Step)
    requires Bounded(s) && Can(s, l)
    ensures Bounded(Take(s, l)) && (s.mux.Some? ==> Take(s, l).mux == s.mux)
    ensures |Take(s, l).streams| >= |s.streams|
    ensures l.HandleSend? ==> s.mux.Some?
  {
  }

  lemma StepKeepsOneStream(s: State, l: Step)
    requires Bounded(s) && OneStream(s) && Can(s, l) && !(l.RawSend? && l.opens && s.mux.None?)
    ensures OneStream(Take(s, l))
  {
    hide AdapterFor, DeviceFor;
    match l
    case RequestAdapter(opens, hello, adapter) => AdapterOneStream(s, opens, hello, adapter);
    case RequestDevice(opens, device) =>
      RequestOneStream(s, opens, Action.RequestDevice(None));
      DeviceOneStream(s, opens, device);
    case HandleSend(opens, _, a) => RequestOneStream(s, opens, a);
    case HandleRequest(opens, a) => RequestOneStream(s, opens, a);
    case RawRequest(opens, a) => RequestOneStream(s, opens, a);
    case RawSend(opens, _, a) => if s.mux.Some? { RequestOneStream(s, opens, a); }
  }

  lemma RequestOneStream(s: State, opens: bool, a: Action)
    requires Bounded(s) && OneStream(s)
    ensures OneStream(Request(s, opens, a)) && Bounded(Request(s, opens, a))
  {
    if s.mux.Some? { assert Append([s.sent], 0, a) == [s.sent + [a]]; }
    else { assert [] + [a] == [a] && [] + [[a]] == [[a]]; }
  }

  lemma AdapterOneStream(s: State, opens: bool, hello: Option<Response>, adapter: Option<Response>)
    requires Bounded(s) && OneStream(s)
    ensures OneStream(AdapterFor(s, opens, hello, adapter))
  {
    RequestOneStream(s, opens, Hello(PROTOCOL_VERSION));
    RequestOneStream(Request(s, opens, Hello(PROTOCOL_VERSION)), opens, Action.RequestAdapter);
  }

  lemma DeviceOneStream(s: State, opens: bool, device: Option<Response>)
    requires Bounded(s) && OneStream(s) && OneStream(Request(s, opens, Action.RequestDevice(None)))
    ensures OneStream(DeviceFor(s, opens, device))
  {
  }

  /** A stream opened on the side stays. */
  predicate SideStream(s: State) { |s.streams| > if s.mux.Some? then 1 else 0 }

  lemma StepKeepsSideStream(s: State, l: Step)
    requires Bounded(s) && Can(s, l) && SideStream(s)
    ensures SideStream(Take(s, l))
  {
  }

  lemma {:induction false} SideStreamStays(s: State, ls: seq<Step>)
    requires Bounded(s) && CanAll(s, ls) && SideStream(s)
    ensures SideStream(TakeAll(s, ls))
    decreases |ls|
  {
    hide Take, Can, SideStream, Bounded;
    if ls != [] {
      StepKeepsSideStream(s, ls[0]);
      StepKeepsBounds(s, ls[0]);
      SideStreamStays(Take(s, ls[0]), ls[1..]);
    }
  }

  /** All frames of a client share one stream and one order, exactly when nobody used its raw `send`
      to open a stream before the first request did. Through the facade alone that cannot happen. */
  lemma {:induction false} OneStreamExactlyWhen(s: State, ls: seq<Step>)
    requires Bounded(s) && OneStream(s) && CanAll(s, ls)
    ensures OneStream(TakeAll(s, ls)) <==> !ColdSend(s, ls)
    decreases |ls|
  {
    if ls != [] {
      hide AdapterFor, DeviceFor;
      StepKeepsBounds(s, ls[0]);
      if ls[0].RawSend? && ls[0].opens && s.mux.None? {
        assert SideStream(Take(s, ls[0]));
        SideStreamStays(Take(s, ls[0]), ls[1..]);
        hide Take;
      } else {
        StepKeepsOneStream(s, ls[0]);
        hide Take, OneStream, Bounded;
        OneStreamExactlyWhen(Take(s, ls[0]), ls[1..]);
      }
    }
  }

  lemma {:induction false} FacadeHasOneStream(s: State, ls: seq<Step>)
    requires Bounded(s) && OneStream(s) && CanAll(s, ls)
    requires forall l :: l in ls ==> !l.RawSend?
    ensures OneStream(TakeAll(s, ls)) && !ColdSend(s, ls)
    decreases |ls|
  {
    if ls != [] {
      assert ls[0] in ls;
      StepKeepsBounds(s, ls[0]);
      StepKeepsOneStream(s, ls[0]);
      hide Take, OneStream, Bounded;
      FacadeHasOneStream(Take(s, ls[0]), ls[1..]);
    }
  }

  lemma RequestCounts(s: State, opens: bool, a: Action)
    ensures var t := Request(s, opens, a);
      t.adapters == s.adapters && t.devices == s.devices && (s.mux.Some? ==> t.mux == s.mux)
  {
  }

  // ---- what goes out and what is handed out ----

  /** The stream `k` with more frames on it; opened by them when it is the next one. */
  predicate PutOn(before: seq<seq<Action>>, after: seq<seq<Action>>, k: nat, fs: seq<Action>) {
    if k < |before| then after == before[k := before[k] + fs] else k == |before| && after == before + [fs]
  }

  /** There is a multiplexer, or one could be opened. */
  predicate Reachable(mux: Option<nat>, opens: bool) { mux.Some? || opens }

  /** `t` follows `s` by these frames, all on the multiplexer's stream, opened if it was not; without
      a stream none of them goes anywhere. */
  predicate Asked(s: State, t: State, opens: bool, fs: seq<Action>) {
    if Reachable(s.mux, opens) then
      && t.mux == Some(if s.mux.Some? then s.mux.value else |s.streams|)
      && PutOn(s.streams, t.streams, t.mux.value, fs) && t.sent == s.sent + fs
    else t.mux == s.mux && t.streams == s.streams && t.sent == s.sent
  }

  predicate Greeted(mux: Option<nat>, opens: bool, hello: Option<Response>) {
    Reachable(mux, opens) && hello.Some? && hello.value.HelloAck?
  }

  /** The frames a request for an adapter puts on the stream: a greeting, and the request itself only
      once the server has acknowledged the greeting. */
  function AdapterFrames(hello: Option<Response>): seq<Action> {
    [Hello(PROTOCOL_VERSION)] + if hello.Some? && hello.value.HelloAck? then [Action.RequestAdapter] else []
  }

  lemma RequestAsks(s: State, opens: bool, a: Action)
    requires Bounded(s)
    ensures var t := Request(s, opens, a);
      Asked(s, t, opens, [a]) && t.adapters == s.adapters && t.devices == s.devices
  {
  }

  lemma AskedTwice(s: State, t: State, u: State, opens: bool, a: Action, b: Action)
    requires Asked(s, t, opens, [a]) && Asked(t, u, opens, [b]) && Reachable(s.mux, opens) && Bounded(s)
    ensures Asked(s, u, opens, [a] + [b])
  {
    assert s.sent + [a] + [b] == s.sent + ([a] + [b]);
    if s.mux.Some? {
      var k := s.mux.value;
      assert s.streams[k] + [a] + [b] == s.streams[k] + ([a] + [b]);
      assert u.streams == s.streams[k := s.streams[k] + ([a] + [b])];
    } else {
      assert u.streams == s.streams + [[a] + [b]];
    }
  }

  /** An adapter is handed out exactly when the greeting was acknowledged and the request granted. */
  lemma AdapterExactlyWhen(s: State, opens: bool, hello: Option<Response>, adapter: Option<Response>)
    requires Bounded(s)
    ensures var t := AdapterFor(s, opens, hello, adapter);
      && t.adapters == s.adapters + (if Greeted(s.mux, opens, hello) && adapter == Some(Ack) then 1 else 0)
      && t.devices == s.devices && Asked(s, t, opens, AdapterFrames(hello))
  {
    hide Request, PutOn, Reachable;
    var greeted := Request(s, opens, Hello(PROTOCOL_VERSION));
    RequestAsks(s, opens, Hello(PROTOCOL_VERSION));
    assert [Hello(PROTOCOL_VERSION)] + [] == [Hello(PROTOCOL_VERSION)];
    if Greeted(s.mux, opens, hello) {
      StillReachable(s, greeted, opens);
      RequestAsks(greeted, opens, Action.RequestAdapter);
      AskedTwice(s, greeted, Request(greeted, opens, Action.RequestAdapter), opens, Hello(PROTOCOL_VERSION),
        Action.RequestAdapter);
    } else {
      assert greeted.mux.Some? <==> Reachable(s.mux, opens) by { MuxMeansReachable(s, greeted, opens); }
    }
  }

  lemma StillReachable(s: State, t: State, opens: bool)
    requires Bounded(s) && t == Request(s, opens, Hello(PROTOCOL_VERSION)) && Reachable(s.mux, opens)
    ensures Bounded(t) && t.mux.Some? && Reachable(t.mux, opens)
  {
  }

  lemma MuxMeansReachable(s: State, t: State, opens: bool)
    requires t == Request(s, opens, Hello(PROTOCOL_VERSION))
    ensures t.mux.Some? <==> Reachable(s.mux, opens)
  {
  }

  /** A device is handed out exactly when the request for it was granted. */
  lemma DeviceExactlyWhen(s: State, opens: bool, device: Option<Response>)
    requires Bounded(s)
    ensures var t := DeviceFor(s, opens, device);
      && t.devices == s.devices + (if Reachable(s.mux, opens) && device == Some(Ack) then 1 else 0)
      && t.adapters == s.adapters && Asked(s, t, opens, [Action.RequestDevice(None)])
  {
    RequestAsks(s, opens, Action.RequestDevice(None));
  }

  predicate Opens(l: Step) {
    match l
    case RequestAdapter(opens, _, _) => opens
    case RequestDevice(opens, _) => opens
    case HandleSend(opens, _, _) => opens
    case HandleRequest(opens, _) => opens
    case RawRequest(opens, _) => opens
    case RawSend(opens, _, _) => opens
  }

  function FramesOf(l: Step): seq<Action> {
    match l
    case RequestAdapter(_, hello, _) => AdapterFrames(hello)
    case RequestDevice(_, _) => [Action.RequestDevice(None)]
    case HandleSend(_, _, a) => [a]
    case HandleRequest(_, a) => [a]
    case RawRequest(_, a) => [a]
    case RawSend(_, _, a) => [a]
  }

  /** Every step hands over its own frames; all but a cold send put them on the multiplexer's stream. */
  lemma StepSends(s: State, l: Step)
    requires Bounded(s) && Can(s, l)
    ensures var t := Take(s, l);
      && t.sent == s.sent + (if Reachable(s.mux, Opens(l)) then FramesOf(l) else [])
      && (s.mux.Some? || !(l.HandleSend? || l.RawSend?) ==> Asked(s, t, Opens(l), FramesOf(l)))
      && (s.mux.None? && (l.HandleSend? || l.RawSend?) ==> t.mux.None?)
  {
    hide AdapterFor, DeviceFor, PutOn;
    match l
    case RequestAdapter(opens, hello, adapter) => AdapterExactlyWhen(s, opens, hello, adapter);
    case RequestDevice(opens, device) => DeviceExactlyWhen(s, opens, device);
    case HandleRequest(opens, a) => RequestAsks(s, opens, a);
    case RawRequest(opens, a) => RequestAsks(s, opens, a);
    case HandleSend(opens, _, a) => RequestAsks(s, opens, a);
    case RawSend(opens, _, a) => RequestAsks(s, opens, a);
  }

  // ---- the client and the handshake, imperatively ----

  /** The facade's client with the adapters and devices it has handed out. */
  class FacadeClient {
    var mux: Option<nat>
    var streams: seq<seq<Action>>
    var sent: seq<Action>
    var adapters: nat
    var devices: nat

    function Now(): State
      reads this
    {
      State(mux, streams, sent, adapters, devices)
    }

    constructor ()
      ensures Now() == Start()
    {
      mux, streams, sent, adapters, devices := None, [], [], 0, 0;
    }

    method Put(k: nat, a: Action)
      modifies this
      ensures Now() == old(Now()).(streams := Append(old(streams), k, a), sent := old(sent) + [a])
    {
      if k < |streams| { streams := streams[k := streams[k] + [a]]; }
      sent := sent + [a];
    }

    /** False when there is no stream and none could be opened. */
    method RequestFrame(opens: bool, a: Action) returns (ok: bool)
      modifies this
      ensures Now() == Request(old(Now()), opens, a) && (ok <==> mux.Some?)
      ensures ok <==> Reachable(old(mux), opens)
      ensures Bounded(old(Now())) ==> Asked(old(Now()), Now(), opens, [a])
    {
      if mux.None? {
        if !opens { return false; }
        mux, streams, sent := Some(|streams|), streams + [[a]], sent + [a];
        return true;
      }
      Put(mux.value, a);
      return true;
    }

    method SendFrame(opens: bool, flushed: bool, a: Action)
      modifies this
      ensures Now() == Send(old(Now()), opens, flushed, a) && mux == old(mux)
      ensures sent == old(sent) + if Reachable(mux, opens) then [a] else []
      ensures mux.None? && opens ==> streams == old(streams) + [if flushed then [a] else []]
      ensures mux.Some? && Bounded(old(Now())) ==> Asked(old(Now()), Now(), opens, [a])
    {
      if mux.Some? {
        Put(mux.value, a);
      } else if opens {
        streams, sent := streams + [if flushed then [a] else []], sent + [a];
      }
    }

    method RequestAdapter(opens: bool, hello: Option<Response>, adapter: Option<Response>) returns (ok: bool)
      modifies this
      ensures Now() == AdapterFor(old(Now()), opens, hello, adapter)
      ensures ok <==> Greeted(old(mux), opens, hello) && adapter == Some(Ack)
      ensures adapters == old(adapters) + (if ok then 1 else 0) && devices == old(devices)
      ensures Bounded(old(Now())) ==> Asked(old(Now()), Now(), opens, AdapterFrames(hello))
    {
      hide Request, Asked;
      if Bounded(Now()) { AdapterExactlyWhen(Now(), opens, hello, adapter); }
      ok := RequestFrame(opens, Hello(PROTOCOL_VERSION));
      RequestCounts(old(Now()), opens, Hello(PROTOCOL_VERSION));
      if !ok || hello.None? || !hello.value.HelloAck? { return false; }
      ghost var greeted := Now();
      ok := RequestFrame(opens, Action.RequestAdapter);
      RequestCounts(greeted, opens, Action.RequestAdapter);
      if adapter != Some(Ack) { return false; }
      adapters := adapters + 1;
      return true;
    }

    method RequestDevice(opens: bool, device: Option<Response>) returns (ok: bool)
      requires adapters > 0
      modifies this
      ensures Now() == DeviceFor(old(Now()), opens, device)
      ensures ok <==> Reachable(old(mux), opens) && device == Some(Ack)
      ensures devices == old(devices) + (if ok then 1 else 0) && adapters == old(adapters)
      ensures Bounded(old(Now())) ==> Asked(old(Now()), Now(), opens, [Action.RequestDevice(None)])
    {
      hide Request, Asked;
      if Bounded(Now()) { DeviceExactlyWhen(Now(), opens, device); }
      ok := RequestFrame(opens, Action.RequestDevice(None));
      RequestCounts(old(Now()), opens, Action.RequestDevice(None));
      if !ok || device != Some(Ack) { return false; }
      devices := devices + 1;
      return true;
    }
  }

  lemma StartsWell()
    ensures Bounded(Start()) && OneStream(Start())
  {
  }

  /** Any program on a fresh client, whatever the server answers: all its frames share one stream and
      one order exactly when it opened none on the side. */
  method RunClient(ls: seq<Step>) returns (c: FacadeClient)
    requires CanAll(Start(), ls)
    ensures c.Now() == TakeAll(Start(), ls)
    ensures OneStream(c.Now()) <==> !ColdSend(Start(), ls)
    ensures (forall l :: l in ls ==> !l.RawSend?) ==> OneStream(c.Now())
  {
    c := new FacadeClient();
    hide AdapterFor, DeviceFor, Request, Send, OneStream, ColdSend;
    assert ls[0..] == ls;
    for i := 0 to |ls|
      invariant fresh(c)
      invariant CanAll(c.Now(), ls[i..]) && TakeAll(c.Now(), ls[i..]) == TakeAll(Start(), ls)
    {
      assert ls[i..][0] == ls[i] && ls[i..][1..] == ls[i + 1..];
      var ok;
      match ls[i] {
        case RequestAdapter(opens, hello, adapter) => ok := c.RequestAdapter(opens, hello, adapter);
        case RequestDevice(opens, device) => ok := c.RequestDevice(opens, device);
        case HandleSend(opens, flushed, a) => c.SendFrame(opens, flushed, a);
        case HandleRequest(opens, a) => ok := c.RequestFrame(opens, a);
        case RawRequest(opens, a) => ok := c.RequestFrame(opens, a);
        case RawSend(opens, flushed, a) => c.SendFrame(opens, flushed, a);
      }
    }
    assert ls[|ls|..] == [];
    StartsWell();
    OneStreamExactlyWhen(Start(), ls);
    if forall l :: l in ls ==> !l.RawSend? { FacadeHasOneStream(Start(), ls); }
  }
}
