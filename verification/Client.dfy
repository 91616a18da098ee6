/** The client's request bookkeeping (client/client.rs): ids drawn from one counter by requests and
    fire-and-forget sends alike, the pending map, and the writer's inbox. Each function is one
    atomic section of the source; threads interleave between them. */
module Client {
  import opened Basics
  import opened Protocol
  import opened Codec

  datatype Kind = Request | Send

  datatype Outcome<+R> = Replied(response: R) | ConnectionClosed | NotEncodable(why: CodecError)

  /** Where one call has got to. `Pushed` records its place in the inbox order. */
  datatype Stage = ToRegister | ToPush | Pushed(position: nat) | Abandoned

  datatype Caller<A, R> =
    Caller(kind: Kind, action: A, bytes: Bytes, stage: Stage, outcome: Option<Outcome<R>>)

  /** `enqueued` is history: every frame the inbox accepted, in order. */
  datatype ClientState<A, R> = ClientState(
    nextId: RequestId,
    callers: map<RequestId, Caller<A, R>>,
    pending: set<RequestId>,
    inbox: seq<Bytes>,
    inboxOpen: bool,
    readerAlive: bool,
    enqueued: seq<Frame<A>>)

  function Fresh<A, R>(): ClientState<A, R> {
    ClientState(1, map[], {}, [], true, true, [])
  }

  function FrameFor<A>(id: RequestId, action: A): Frame<A> { Frame(Some(id), action) }

  /** Draw an id and encode. A request that cannot be encoded fails here; a send is dropped. */
  function MintCall<A, R>(fc: BodyCodec<Frame<A>>, c: ClientState<A, R>, kind: Kind, action: A): ClientState<A, R> {
    var caller :=
      match EncodeFrame(fc, FrameFor(c.nextId, action))
      case Err(e) => Caller(kind, action, [], Abandoned, if kind.Request? then Some(NotEncodable(e)) else None)
      case Ok(bytes) => Caller(kind, action, bytes, if kind.Request? then ToRegister else ToPush, None);
    c.(nextId := c.nextId + 1, callers := c.callers[c.nextId := caller])
  }

  predicate AtStage<A, R>(c: ClientState<A, R>, id: RequestId, stage: Stage) {
    id in c.callers && c.callers[id].stage == stage
  }

  function RegisterCall<A, R>(c: ClientState<A, R>, id: RequestId): ClientState<A, R>
    requires AtStage(c, id, ToRegister)
  {
    c.(pending := c.pending + {id}, callers := c.callers[id := c.callers[id].(stage := ToPush)])
  }

  /** Hand the frame to the writer; when the writer is gone, withdraw and fail the request. */
  function PushCall<A, R>(c: ClientState<A, R>, id: RequestId): ClientState<A, R>
    requires AtStage(c, id, ToPush)
  {
    var caller := c.callers[id];
    if c.inboxOpen then
      c.(inbox := c.inbox + [caller.bytes],
         enqueued := c.enqueued + [FrameFor(id, caller.action)],
         callers := c.callers[id := caller.(stage := Pushed(|c.enqueued|))])
    else
      c.(pending := c.pending - {id},
         callers := c.callers[id := caller.(
           stage := Abandoned,
           outcome := if caller.kind.Request? && caller.outcome.None? then Some(ConnectionClosed) else caller.outcome)])
  }

  /** The reader hands a response to whoever registered its id, and discards it otherwise. */
  function DeliverReply<A, R>(c: ClientState<A, R>, rf: ResponseFrame<R>): ClientState<A, R> {
    if rf.requestId in c.pending && rf.requestId in c.callers then
      c.(pending := c.pending - {rf.requestId},
         callers := c.callers[rf.requestId := c.callers[rf.requestId].(outcome := Some(Replied(rf.response)))])
    else c
  }

  /** The reader's exit drops every registered sender. */
  function CloseReader<A, R>(c: ClientState<A, R>): ClientState<A, R> {
    c.(pending := {}, readerAlive := false,
       callers := map id | id in c.callers ::
         if id in c.pending then c.callers[id].(outcome := Some(ConnectionClosed)) else c.callers[id])
  }
}
