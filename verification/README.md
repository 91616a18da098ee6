# wgpu-remote, modelled and verified

`wgpu-remote` runs a program's GPU calls on another machine. A client mints resource ids itself,
records command buffers locally, and puts one frame per call on a single byte stream; the server
decodes the frames one at a time, looks ids up in its tables and replays the calls on a real GPU. Its
central claim is that this is safe without waiting for acknowledgements: because everything shares one
ordered stream, a remote run means what a local run means.

This project models that path from the client's handles down to the bytes of GPU buffers and back, and
proves exactly how far the claim holds, for every interleaving of threads and tasks, every chunking of
bytes and every point of failure. It holds for all calls except those that are refused: a call the
server does not support, or one that refers to something whose creation the client dropped, the server
did not support, or referred to such a thing itself. Nobody is told when a creation fails; which ones
did can be read off the calls alone (`Failures.Failed`), and the calls refused change nothing. Check it with `dafny verify dfyconfig.toml`.

## How the model is built

| file | part |
|---|---|
| `Codec.dfy` | length-delimited frames, and reading them from a chunked stream |
| `Protocol.dfy`, `Gpu.dfy`, `Tables.dfy` | messages; GPU objects, a queue with deferred writes, bytes of buffers; id tables |
| `Replay.dfy`, `Engine.dfy`, `EngineLaws.dfy` | what each action does, the imperative engine proved to do it, and its laws |
| `Parts.dfy`, `Actions.dfy` | what created objects and replayed calls are made of and carry; what each action does, told without the engine's definitions |
| `Client.dfy`, `Handler.dfy` | the multiplexer and the server's loop, as specifications and as loops over streams |
| `Pipeline.dfy`, `PipelineLaws.dfy` | the step machine of client threads, writer, two bounded pipes, server and reader |
| `Recorder.dfy` | both command recorders |
| `Local.dfy`, `Failures.dfy`, `Plain.dfy` | the local run, calls that fail, and plain byte arrays with what passes can get at |
| `Session.dfy`, `Joint.dfy`, `EndToEnd.dfy` | handle lifetimes under threads, threads and pipeline as one machine, and the end-to-end theorems |
| `Progress.dfy` | the joint machine never gets stuck and tells every call its verdict |
| `Machine.dfy` | that machine run on the real objects |
| `Sections.dfy`, `Ownership.dfy`, `Streams.dfy` | the engine's critical sections, what a stream's sections can get at, and several streams on one engine |
| `Mapping.dfy` | mapped buffers of the drop-in |
| `Handshake.dfy` | why a facade client has one stream |
| `Instance.dfy`, `Example.dfy` | serializers that meet the hypotheses, and a run of a whole program |

The chain of the main results: bytes to frames (`Codec`), frames to the sequential run
(`PipelineLaws.ResponseMeansSequentialRun`), threads to legal traces (`Session.WireIsLegal`), threads and
pipeline to one machine whose inbox carries the trace (`Joint.RunKeeps`), the sequential remote run of a
legal trace to the local run (`Failures.RemoteMeansLocal`), the local run to plain byte arrays
(`Plain.ReadsPlainBytes`), and all of it together (`EndToEnd`, and on real objects `Machine.Execute`).

The local run builds objects and moves bytes with the same definitions as the engine. Those are pinned
independently: `Parts` says what every object and call is made of and every field and argument of it,
`Actions` what each action does to tables, queue and answer, `EngineLaws` when each lookup fails, `Plain`
and `Gpu.TransferPuts` what every transfer does to bytes, and `Recorder` and `Replay` relate nested recordings to the
flat calls the program made.

Two parts of the world are parameters. The body serializer is a pair of functions of which only
`decode(encode(v)) == v` is assumed, since trailing bytes in a body are ignored; `Instance` gives pairs
that meet this. `Device.shade` is the effect on buffers of everything that is not a plain byte transfer
(passes, texture copies), given all calls before it. Nothing is assumed of it, except where bytes are to
be known in spite of passes: `Gpu.ShadeIsLocal` says that a call changes only the buffers bound to the open
pass and the buffer a texture is copied to (`Instance` gives a shader that writes and meets this), and
`Mapping.ShadeKeepsSizes` that lengths stay.

## Scope conditions the code relies on

- One `request_device` per engine: each call starts a fresh id minter, and two would mint the same ids.
- Handles mentioned by a call, directly or through a recording, are still held when it is enqueued.
  Recordings carry plain ids and keep nothing alive.
- Counters and offsets stay below 2^64; sums such as `offset + size` do not wrap.
- Command traces are well nested: encoder calls happen outside passes.
- Mapped ranges are in bounds, and ranges live at the same time are apart.
- Validation never rejects a call. `Plain` and `EndToEnd.ReadReturnsPlainBytes` rest on this: wgpu answers a
  read of a buffer without MAP_READ and a write to one without COPY_DST otherwise, and a buffer the facade
  creates with `mapped_at_creation` stays mapped, since the server passes the flag on
  (`server/engine.rs:136-141`) and nobody unmaps it there.

## Where the code and its documentation differ

- `client/client.rs:13-15` says a failing reader fails all pending requests. A request that registers
  after the map was cleared is failed by nobody (`PipelineLaws.LateRegistrantWaits`; exactly when a request
  is settled: `PipelineLaws.SettledExactlyWhenRegisteredInTime`).
- `client/client.rs:9-12` and `client/instance.rs:126-130` say ordering makes creation without waiting safe.
  A handle is usable only if its creation took effect. SPIR-V and GLSL shaders and array bindings are
  accepted by both clients and rejected by the server (`server/engine.rs:362-367`, `server/engine.rs:432-438`);
  every later use is refused (`Failures.SpirvShaderIsLost`; exactly when: `Failures.RemoteMeansLocal`).
- `protocol/actions.rs:14-15` allows frames without an id for fire-and-forget actions, but `send` draws an
  id for every frame, so the server answers them all and the client's reader discards those answers.
- `dispatch.rs:411-437` presents a read map as the buffer's bytes at the bounds asked for. That holds only
  for maps from offset zero (`Mapping.ReadMapShowsTheRange`).

## Model

| member | source | states |
|---|---|---|
| `Codec.BeRoundTrip` | crates/wgpu-remote/src/protocol/codec.rs:36-51 | big-endian bytes of any width lose no number that fits them |
| `Codec.HeaderRoundTrip` | crates/wgpu-remote/src/protocol/codec.rs:32-51 | the 32-bit cast and the four-byte length field lose nothing for any body up to the 64 MiB cap |
| `Codec.FrameShape` | crates/wgpu-remote/src/protocol/codec.rs:30-39 | a frame is its own announced length: four bytes of header, then exactly the encoded body |
| `Codec.BodyLenIsBigEndian` | crates/wgpu-remote/src/protocol/codec.rs:36-51 | the length field is the big-endian number of the first four bytes |
| `Codec.EncodeOutcome` | crates/wgpu-remote/src/protocol/codec.rs:30-39 | encoding fails exactly when the body cannot be serialized or is over the cap, and otherwise gives length and body |
| `Codec.DecodeOutcome` | crates/wgpu-remote/src/protocol/codec.rs:44-64 | for any bytes at all: truncated header, over the cap before any of the body is there, truncated body, undecodable body, or the value, each exactly when |
| `Codec.DecodeEncoded` | crates/wgpu-remote/src/protocol/codec.rs:30-64 | decoding a frame gives its value and consumes exactly that frame, whatever bytes follow |
| `Codec.PrefixIsTruncated` | crates/wgpu-remote/src/protocol/codec.rs:44-61 | every strict prefix of a frame is `Truncated`, with `got < needed <=` the whole frame |
| `Codec.RetryConsumesOneFrame` | crates/wgpu-remote/src/protocol/codec.rs:41-64 | reading up to `needed` and retrying ends in success after exactly one frame, from any partial read |
| `Codec.HeadFrame` | crates/wgpu-remote/src/transport/mod.rs:25-35 | the first complete buffer on a stream of frames is the first frame, decodes to its value, and leaves the encoding of the rest |
| `Codec.HeadHasMissing` | crates/wgpu-remote/src/transport/mod.rs:25-35 | an unfinished head of a stream of frames can always be fed what it is missing from that stream |
| `Codec.CutStream` | crates/wgpu-remote/src/transport/mod.rs:20-35 | a stream cut at any byte yields exactly the frames that arrived whole, in order, and leaves exactly the torn bytes |
| `Codec.StreamRoundTrip` | crates/wgpu-remote/src/protocol/codec.rs:30-64 | reading and decoding the concatenated encodings of any list of values returns the list with nothing left over |
| `Codec.RecvStream.Read` | crates/wgpu-remote/src/transport/mod.rs:25-30 | a read hands out the next bytes, however they are chunked, and nothing only at the end |
| `Codec.RecvStream.ReadExact` | crates/wgpu-remote/src/transport/mod.rs:26-30 | succeeds exactly when enough bytes are left, and then takes exactly those |
| `Codec.RecvStream.ReadFrame` | crates/wgpu-remote/src/transport/mod.rs:25-35 | the frame read is a function of the bytes alone, the same for every chunking, and the rest of the stream is untouched |
| `Tables.InsertLookup` | crates/wgpu-remote/src/server/tables.rs:15-26 | storing an object changes what its own id stands for and no other id of any type |
| `Tables.RemoveLookup` | crates/wgpu-remote/src/server/engine.rs:146-149 | removing a buffer makes that id unknown and leaves every other id alone (that destroying does this: `Actions.TablesAfter`) |
| `Replay.ReplayCommandIsFlat` | crates/wgpu-remote/src/server/engine.rs:590-744 | replaying one encoder command issues the flat calls it stands for, passes bracketed where they were opened and closed |
| `Replay.ReplayIsFlat` | crates/wgpu-remote/src/server/engine.rs:572-878 | replaying a nested recording issues exactly its flat calls in order with ids replaced by objects, or fails as the first unresolvable call does |
| `Replay.CallsStop` | crates/wgpu-remote/src/server/engine.rs:590-878 | resolving calls reports the first unknown id in lookup order, and succeeds when there is none |
| `Replay.CallsAgree` | crates/wgpu-remote/src/server/engine.rs:590-878 | what calls resolve to depends only on the objects their ids stand for |
| `Engine.Engine.Dispatch` | crates/wgpu-remote/src/server/engine.rs:95-112 | one frame acts as its action does; a response goes out exactly when the frame has a request id, under that id |
| `Engine.Engine.HandleAction` | crates/wgpu-remote/src/server/engine.rs:114-287 | the imperative engine computes the action's specified new state and response, for every action and error path |
| `Engine.Engine.CreateBindGroup` | crates/wgpu-remote/src/server/engine.rs:388-461 | the loop over entries binds them all in order, or reports the first that fails and changes nothing |
| `Engine.Engine.CreatePipelineLayout` | crates/wgpu-remote/src/server/engine.rs:463-506 | the loop over layouts resolves them all in order, or reports the first unknown one and changes nothing |
| `Engine.Engine.SubmitRecordings` | crates/wgpu-remote/src/server/engine.rs:550-570 | the loop over recordings builds all command buffers before any reaches the queue |
| `Engine.Engine.ReplayRecording` | crates/wgpu-remote/src/server/engine.rs:572-588 | one encoder, its commands replayed in order, gives the specified calls or the first error |
| `Engine.Engine.ReplayEncoderCommand` | crates/wgpu-remote/src/server/engine.rs:590-744 | one command appends exactly its calls to the encoder |
| `Engine.Engine.ReplayComputePass` | crates/wgpu-remote/src/server/engine.rs:828-878 | the loop over a compute pass appends its calls in order |
| `Engine.Engine.ReplayRenderPass` | crates/wgpu-remote/src/server/engine.rs:746-826 | the loop over a render pass appends its calls in order |
| `EngineLaws.UnknownExactlyWhenMissing` | crates/wgpu-remote/src/server/engine.rs:114-287 | for every action: it reports `UnknownResource`, for the first missing reference it gets to and with nothing changed, exactly when there is one; otherwise it is rejected, with nothing changed, exactly when the server does not support it; otherwise it fails only on a version mismatch or a map out of range |
| `EngineLaws.ConstructStops` | crates/wgpu-remote/src/server/engine.rs:356-548 | every creation stops at the first unknown reference it gets to, then at what the server does not support (SPIR-V, GLSL, array bindings), in the engine's order, and succeeds otherwise |
| `EngineLaws.ConstructAgrees` | crates/wgpu-remote/src/server/engine.rs:388-548 | the object made depends only on the objects referred to |
| `EngineLaws.BuildsExactlyWhen` | crates/wgpu-remote/src/server/engine.rs:550-588 | a recording builds if and only if it decodes and all its ids, nested ones included, are known |
| `EngineLaws.SubmissionBuilds` | crates/wgpu-remote/src/server/engine.rs:550-570 | a submission builds if and only if all its recordings do, and then holds every call of every recording in order |
| `EngineLaws.SubmitIsAtomic` | crates/wgpu-remote/src/server/engine.rs:550-744 | unless every recording decodes and every id is known nothing changes at all; otherwise the queue runs the concatenation of all recordings in submission order |
| `EngineLaws.NothingStaysStaged` | crates/wgpu-remote/src/server/engine.rs:151-207 | after any action no write is left waiting for a later submission |
| `Parts.ObjectsAreMadeOfReferences` | crates/wgpu-remote/src/server/engine.rs:388-548 | every object created, views and derived layouts included, is made of exactly the objects its references stand for, each in its place |
| `Parts.BindGroupKeepsSlots` | crates/wgpu-remote/src/server/engine.rs:405-450 | entries keep their binding numbers, objects and buffer ranges, in the order of the descriptor |
| `Parts.ObjectsAreAsAsked` | crates/wgpu-remote/src/server/engine.rs:135-548 | every object created is the one asked for in every field: the objects its ids stand for, each in its place, and every name, entry point, range, index, state and descriptor its action gave; a buffer or texture is under its own id |
| `Parts.CallsAreMadeOnReferences` | crates/wgpu-remote/src/server/engine.rs:572-878 | every call replayed is made on exactly the objects its ids stand for, sources and destinations not exchanged |
| `Parts.ResolvedCallsAreMade` | crates/wgpu-remote/src/server/engine.rs:746-878 | every resolved call is the call made, on the objects its ids stand for, each in its place, with every count, range, offset, slot, format, image place, attachment and name it had, in order |
| `Parts.BuiltCallsAreMade` | crates/wgpu-remote/src/server/engine.rs:572-878 | the engine issues exactly the calls of a recording, each as it was recorded, in order |
| `Actions.TablesAfter` | crates/wgpu-remote/src/server/engine.rs:114-287 | creating gives an id the object asked for, destroying a buffer takes its id away, and nothing else changes what any id stands for |
| `Actions.CreatedWhereAsked` | crates/wgpu-remote/src/server/engine.rs:114-287 | each creation puts the object asked for in the table of its type under the id its action gave |
| `Actions.AnsweredExactly` | crates/wgpu-remote/src/server/engine.rs:116-287 | an action that can be done is answered as its kind says: the version check, the bytes read or the map failure, and an ack otherwise |
| `Actions.RefusedExactly` | crates/wgpu-remote/src/server/engine.rs:289-302 | an action that cannot be done changes nothing and is answered with the first unknown id it gets to, or with what is unsupported or undecodable |
| `Actions.QueueRuns` | crates/wgpu-remote/src/server/engine.rs:151-202 | a write or submission runs, after what was staged, exactly the calls it stands for, with their arguments, and nothing else |
| `Actions.RestKeepsGpu` | crates/wgpu-remote/src/server/engine.rs:114-287 | every other action leaves queue and contents alone, but for a new buffer, which is zero throughout |
| `Actions.DispatchAnswers` | crates/wgpu-remote/src/server/engine.rs:95-112 | a frame runs its action and is answered under its own request id exactly when it has one |
| `Actions.NamesNeverRepeat` | crates/wgpu-remote/src/server/engine.rs:135-144 | no two buffers and no two textures are ever the same, even when an id is used again |
| `Actions.BufferHeldExactlyWhen` | crates/wgpu-remote/src/server/engine.rs:135-149 | whatever was sent or dropped, the server holds a buffer if and only if a creation of it reached the server and no destroy of it has since |
| `Gpu.TransferPuts` | crates/wgpu-remote/src/server/engine.rs:603-625 | a write, copy or clear changes exactly the bytes it puts, no others, and no buffer's length |
| `Handler.SendStream.WriteAll` | crates/wgpu-remote/src/server/handler.rs:46-47 | all the bytes go out, or a prefix and an error |
| `Handler.ServeFrame` | crates/wgpu-remote/src/server/handler.rs:43-48 | the action runs, then exactly its response goes out, or a prefix of it if the peer has gone |
| `Handler.HandleStream` | crates/wgpu-remote/src/server/handler.rs:31-50 | for every chunking and any failure of the peer: the frames acted on are the first on the stream, once each and in order; what went out is the encoding of exactly their responses, or a prefix of it; a clean return means no whole frame is left, an unclean one that the peer broke, the last response cannot be sent, or the next frame does not decode |
| `Handler.Mux.WriterTask` | crates/wgpu-remote/src/client/client.rs:86-97 | with client threads running between its turns, frames go out whole and in inbox order until a write fails, which closes the inbox; nothing else of the client's state is touched |
| `Handler.Mux.ReaderTask` | crates/wgpu-remote/src/client/client.rs:99-123 | with client threads running between deliveries, each response settles whoever is registered under its id then, in order, and at the end every waiter left is failed |
| `Handler.Mux.Deliver` | crates/wgpu-remote/src/client/client.rs:110-118 | a response reaches the request registered under its id and is discarded when there is none |
| `Handler.Mux.Close` | crates/wgpu-remote/src/client/client.rs:120-122 | every registered waiter gets `ConnectionClosed` and the map is empty |
| `Pipeline.StepKeeps` | crates/wgpu-remote/src/client/client.rs:77-227 | the invariant, every step: no byte of a frame or response is lost, duplicated or reordered, the engine has run a prefix of the inbox order, the pending map is exactly the unsettled registered requests |
| `Pipeline.RunKeeps` | crates/wgpu-remote/src/client/client.rs:77-227 | the same for every run, whatever the interleaving, the chunking and the failures |
| `Pipeline.NextFrameIsWhole` | crates/wgpu-remote/src/server/handler.rs:36-43 | the frame the server decodes is the next one enqueued |
| `Pipeline.NextAnswerIsWhole` | crates/wgpu-remote/src/client/client.rs:101-109 | the response the client decodes is the next one answered |
| `PipelineLaws.ResponseMeansSequentialRun` | crates/wgpu-remote/src/client/client.rs:166-192 | for every run, a request's response is the one its own action gets when all enqueued actions run one at a time; by then the engine has run every action enqueued before it, whoever enqueued it |
| `PipelineLaws.IdsAppearOnce` | crates/wgpu-remote/src/client/client.rs:99-119 | an id is on at most one frame and one answer, at the same place in both orders |
| `PipelineLaws.PlacesAreInOrder` | crates/wgpu-remote/src/client/client.rs:88-119 | in every run each enqueued call is in the inbox, on the way up, at the server, on the way down or delivered, in that order; the bytes in each pipe are exactly the frames and answers on the way |
| `PipelineLaws.BytesUpAreTaken` | crates/wgpu-remote/src/client/client.rs:88-97 | the bytes on the way up are exactly the frames taken from the inbox and not yet served |
| `PipelineLaws.PlacesMoveForward` | crates/wgpu-remote/src/client/client.rs:88-119 | no step moves a call back |
| `PipelineLaws.OnlyPrefixes` | crates/wgpu-remote/src/client/client.rs:88-97 | with failures at any byte, the bytes each side got are a prefix of what was encoded and the actions run are a prefix of those enqueued |
| `PipelineLaws.StepSettlesOnce` | crates/wgpu-remote/src/client/client.rs:110-122 | no step changes an outcome once given, or where and as what a call was enqueued |
| `PipelineLaws.RunSettlesOnce` | crates/wgpu-remote/src/client/client.rs:110-122 | no run does |
| `PipelineLaws.StopsByFailing` | crates/wgpu-remote/src/client/client.rs:86-122 | writer, server and reader stop exactly by failing, the server also at a response it cannot encode, the reader also at bytes it cannot decode |
| `PipelineLaws.StoppedForGood` | crates/wgpu-remote/src/client/client.rs:86-122 | however a run goes on, a dead writer takes and writes nothing more, a dead server runs and answers nothing more, a dead reader delivers nothing more |
| `PipelineLaws.ClosedPushFails` | crates/wgpu-remote/src/client/client.rs:178-181 | a push to a dead writer withdraws the request and tells it `ConnectionClosed` |
| `PipelineLaws.ExitSettlesRegistered` | crates/wgpu-remote/src/client/client.rs:120-122 | the reader's exit leaves every registered request with its own response or `ConnectionClosed` |
| `PipelineLaws.SettledExactlyWhenRegisteredInTime` | crates/wgpu-remote/src/client/client.rs:120-122 | after the reader's exit an enqueued request is settled if and only if it had registered by then |
| `PipelineLaws.LateRegistrantWaits` | crates/wgpu-remote/src/client/client.rs:168-186 | an input on which the module comment's promise fails: a request that draws its id before the reader exits and registers after it is enqueued and waits for ever, however the run goes on |
| `PipelineLaws.StepShrinks` | crates/wgpu-remote-tests/src/in_memory.rs:15-69 | every step without failures or new calls lowers a well-founded measure |
| `PipelineLaws.NeverStuck` | crates/wgpu-remote-tests/src/in_memory.rs:15-69 | with any positive pipe capacities and frames of any size, a healthy system with an outstanding request can move |
| `PipelineLaws.NoEndlessRun` | crates/wgpu-remote-tests/src/in_memory.rs:15-69 | there is no endless run without failures or new calls |
| `PipelineLaws.MaximalRunResolvesAll` | crates/wgpu-remote/src/client/client.rs:86-123 | where no such step is left, no request is outstanding |
| `PipelineLaws.RunsToCompletion` | crates/wgpu-remote-tests/src/in_memory.rs:15-69 | every healthy state whose threads are done has a run to a state where nothing is left to do |
| `PipelineLaws.EveryRequestIsAnswered` | crates/wgpu-remote/src/client/client.rs:166-192 | at the end of every maximal healthy run each request has the response to its own action in the sequential run, or the reason why it could not be encoded |
| `Recorder.FlattenNest` | crates/wgpu-remote/src/client/encoder.rs:54-203 | the calls of the recording made of a well-nested trace are that trace |
| `Recorder.NestFlatten` | crates/wgpu-remote/src/client/encoder.rs:54-203 | every recording is the recording of its own calls |
| `Recorder.ReplayOfRecording` | crates/wgpu-remote/src/server/engine.rs:572-878 | record then replay: the server issues the program's calls, no more, no fewer, in order, each with its own arguments, ids resolved |
| `Recorder.FacadeComputePass.Drop` | crates/wgpu-remote/src/client/encoder.rs:196-204 | dropping a pass appends all its commands to the encoder as one |
| `Recorder.FacadeRenderPass.Drop` | crates/wgpu-remote/src/client/encoder.rs:330-343 | the same for render passes, attachments included |
| `Recorder.EncoderInner.Finish` | crates/wgpu-remote/src/dispatch.rs:1308-1314 | the recording is taken out whole and an empty unnamed one left behind |
| `Recorder.EncoderInner.CopyBufferToBuffer` | crates/wgpu-remote/src/dispatch.rs:1189-1213 | an omitted copy size means up to the end of the source, or nothing past it |
| `Recorder.DropInComputePass.Drop` | crates/wgpu-remote/src/dispatch.rs:1430-1437 | dropping a pass pushes all its commands to the shared recording as one |
| `Recorder.DropInRenderPass.Drop` | crates/wgpu-remote/src/dispatch.rs:1560-1573 | the same for render passes |
| `Recorder.RecordWithFacade` | crates/wgpu-remote/src/client/encoder.rs:45-204 | a program making any well-nested calls on the facade's objects gets the nested recording of them |
| `Recorder.RecordWithDropIn` | crates/wgpu-remote/src/dispatch.rs:1144-1437 | so does the same program on the drop-in's objects, with shared state, flush on drop, and copies whose size is left out |
| `Recorder.RecordersAgree` | crates/wgpu-remote/src/dispatch.rs:1144-1437 | the two recorders give equal recordings, whose calls are those made, left-out copy sizes written out |
| `Local.SubmitSimulates` | crates/wgpu-remote/src/client/instance.rs:270-281 | a submission shipped as encoded recordings has the effect and response of the flat local one |
| `Failures.RefusedExactlyWhen` | crates/wgpu-remote/src/server/engine.rs:356-548 | a call is refused if and only if the server does not support it or one of its references has failed |
| `Failures.EffectiveIsLegal` | crates/wgpu-remote/src/client/instance.rs:124-281 | the calls that take effect are a legal trace the server supports, and keep every live handle that has not failed |
| `Failures.MissingIsFailed` | crates/wgpu-remote/src/server/engine.rs:289-302 | among live handles the server misses exactly those whose creation failed |
| `Failures.WireRunsEffective` | crates/wgpu-remote/src/server/engine.rs:114-354 | the server's state after everything sent is its state after the calls that took effect alone |
| `Failures.RemoteMeansLocal` | crates/wgpu-remote/src/server/engine.rs:114-354 | every call that reaches the server, after any calls dropped, unsupported or built on those, is refused with an error read off the calls, or gets the answer of the local run of the calls that took effect; it reports an unknown resource if and only if a reference it gets to has failed, views, derived layouts, bind groups, pipelines and recordings included |
| `Failures.NothingFails` | crates/wgpu-remote/src/client/instance.rs:124-135 | with every call sent and supported nothing fails and the remote run is the local run |
| `Failures.SpirvShaderIsLost` | crates/wgpu-remote/src/server/engine.rs:356-371 | an input where creation without waiting is not safe: a SPIR-V shader is rejected unseen, and the pipeline made of it finds it unknown |
| `Session.IdMinter.Mint` | crates/wgpu-remote/src/client/ids.rs:30-37 | the next id of one type; other types' counters do not move |
| `Session.WireIsLegal` | crates/wgpu-remote/src/client/instance.rs:124-281 | however threads interleave minting, creating, cloning, dropping and using handles, what is enqueued is a legal trace |
| `Session.LifetimeOnTheWire` | crates/wgpu-remote/src/client/resources.rs:32-89 | at most one create and one destroy per id, the create before every reference and the destroy after all of them |
| `Session.CountsAreHandlesOut` | crates/wgpu-remote/src/client/resources.rs:32-89 | in every run of the threads the clone count of a handle is the one handle its creation gave and one for each clone, less those dropped |
| `Session.LastDropDestroys` | crates/wgpu-remote/src/client/resources.rs:179-191 | a handle is held exactly while some clone of it is undropped, and its destroy is due or sent exactly once all are dropped; none goes out before |
| `Joint.RunKeeps` | crates/wgpu-remote/src/client/client.rs:166-227 | in every run of threads and pipeline together, the inbox order carries exactly the calls that were sent, in the order the session issued them |
| `Joint.OnlyTheseAreLost` | crates/wgpu-remote/src/client/client.rs:198-227 | a call is lost only if its recordings or frame could not be encoded or the writer had died |
| `Joint.SessionRuns` | crates/wgpu-remote/src/client/client.rs:166-227 | the session part of every joint run is a run of the session |
| `Joint.LastDropDestroys` | crates/wgpu-remote/src/client/resources.rs:179-191 | so in every joint run a destroy is on the trace only after the last clone was dropped |
| `Plain.RunMatches` | crates/wgpu-remote/src/server/engine.rs:114-354 | for supported programs that only move bytes, or whose shaders stay within the buffers bound to their pass, each plain array not given up is its handle's GPU buffer after every run |
| `Plain.SparedAreKept` | crates/wgpu-remote/src/server/engine.rs:572-878 | whatever passes and texture copies do, the array of a buffer that no pass binds, no texture is copied to and no buffer within their reach is copied to is never given up |
| `Plain.TransfersLeaveOutOfReach` | crates/wgpu-remote/src/server/engine.rs:572-878 | in a program that only moves bytes every buffer is out of reach, so no array is given up |
| `Plain.ReadsPlainBytes` | crates/wgpu-remote/src/client/resources.rs:124-146 | after any calls dropped or refused, a read returns exactly the bytes of its handle's plain array and fails exactly when it runs past the end, the array being there wherever the buffer is out of reach of passes; it finds the buffer unknown exactly when its creation was dropped |
| `Plain.RefusalsMoveNoBytes` | crates/wgpu-remote/src/server/engine.rs:114-354 | where every call was sent, what the server refuses never touches a byte |
| `EndToEnd.ServerAnswersLocally` | crates/wgpu-remote/src/server/handler.rs:36-49 | in every joint run everything the server answered, sends included, got its call's verdict: the local answer, or the refusal read off the calls |
| `EndToEnd.AnsweredAsLocally` | crates/wgpu-remote/src/client/client.rs:166-227 | in every joint run each answered request was told its own call's verdict |
| `EndToEnd.CleanVerdictsAreLocal` | crates/wgpu-remote/src/client/instance.rs:124-135 | where nothing was lost and everything is supported, verdicts are local answers and nothing is unknown |
| `EndToEnd.CleanRunIsLocal` | crates/wgpu-remote/src/client/instance.rs:124-135 | in every joint run that lost nothing and issued only supported calls, every answer so far is the local answer and nothing was unknown |
| `EndToEnd.ServerHoldsExactly` | crates/wgpu-remote/src/server/engine.rs:135-149 | in every joint run the server holds a buffer if and only if it has served a creation of it and no destroy since |
| `EndToEnd.ReadReturnsPlainBytes` | crates/wgpu-remote/src/client/resources.rs:124-146 | in every joint run whose shaders stay within the buffers bound to their pass, an answered read shows the plain array after exactly the calls issued before it that took effect; for a program that only moves bytes, shaders may be anything |
| `Progress.CommitIsEnabled` | crates/wgpu-remote/src/client/resources.rs:32-89 | a call whose frame is ready can always be committed: the handles it mentions are still held |
| `Progress.JointNeverStuck` | crates/wgpu-remote-tests/src/in_memory.rs:15-69 | with any positive pipe capacities, threads and pipeline together can move while a call is outstanding |
| `Progress.NoEndlessWork` | crates/wgpu-remote-tests/src/in_memory.rs:15-69 | and they cannot work for ever without failures or new calls |
| `Progress.EveryCallIsTold` | crates/wgpu-remote/src/client/client.rs:166-192 | total correctness: at the end of every healthy joint run with nothing left to do each request has been told its verdict, or that it could not be encoded |
| `Machine.System.Serve` | crates/wgpu-remote/src/server/handler.rs:36-49 | one turn of the server on real objects is the machine's turn |
| `Machine.System.DoStep` | crates/wgpu-remote/src/client/client.rs:77-227 | one step of any thread, task or pipe on the multiplexer, the engine and the facade is that step of the machine and keeps its invariant |
| `Machine.Execute` | crates/wgpu-remote/src/client/client.rs:77-227 | any legal schedule run on the real objects ends where the machine says, with every answered request told its verdict |
| `Sections.SectionsMakeTheAction` | crates/wgpu-remote/src/server/engine.rs:388-461 | undisturbed, the critical sections of an action add up to the action |
| `Ownership.QuietIsSettled` | crates/wgpu-remote/src/server/engine.rs:151-166 | a stream between its actions sees its own buffers as they will be once everything staged is flushed |
| `Ownership.TurnInOrder` | crates/wgpu-remote/src/server/engine.rs:388-461 | every section keeps a stream to its own ids, its passes to its own buffers and closed, and stages nothing but its own writes |
| `Streams.TurnForeign` | crates/wgpu-remote/src/server/engine.rs:463-548 | another stream's section, the unlock between lookup and insert and its passes included, changes nothing a stream can see |
| `Streams.TurnSame` | crates/wgpu-remote/src/server/engine.rs:895-925 | a stream's own section does the same on any two engines that look the same to it |
| `Streams.StreamsDoNotInterfere` | crates/wgpu-remote/src/server/handler.rs:62-74 | under every schedule each stream with ids of its own has the progress, table entries and responses it would have alone; one that only moves bytes also has the same bytes and reads, whatever passes and texture writes the others run on their own objects |
| `Streams.BeginsInOrder` | crates/wgpu-remote/src/server/handler.rs:62-74 | disjoint ids and a new engine are all that theorem needs |
| `Mapping.DropInBuffer.GetMappedRange` | crates/wgpu-remote/src/dispatch.rs:424-447 | a read map hands out a slice, a write map an owned copy that remembers where it goes |
| `Mapping.DropInBuffer.Unmap` | crates/wgpu-remote/src/dispatch.rs:449-457 | the map is taken; a write map ships one write of the whole staging, a read map nothing |
| `Mapping.DropRange` | crates/wgpu-remote/src/dispatch.rs:487-501 | dropping a write range copies it into the staging in place, and does nothing when the map is gone or too short |
| `Mapping.CreateBuffer` | crates/wgpu-remote/src/dispatch.rs:828-846 | a mapped buffer is asked for unmapped and writable, with a zeroed local staging of its size; any other is asked for as it is |
| `Mapping.MapRunKeeps` | crates/wgpu-remote/src/dispatch.rs:346-386 | at every point live ranges hold the last writes, and so does the staging outside them |
| `Mapping.StagingIsLastWrite` | crates/wgpu-remote/src/dispatch.rs:346-501 | staging is the last write at each position and zero elsewhere; a range acquired later sees all earlier edits |
| `Mapping.OverlapErasesEdits` | crates/wgpu-remote/src/dispatch.rs:487-501 | ranges must be apart: one acquired before an edit of the same bytes and dropped after it erases the edit |
| `Mapping.StepMapped` | crates/wgpu-remote/src/dispatch.rs:424-501 | one acquisition, edit or drop on the real objects is that step of the run |
| `Mapping.RunMapped` | crates/wgpu-remote/src/dispatch.rs:424-501 | a whole mapped life on the real objects ships exactly one write, of the staging the program built |
| `Mapping.UnmapPublishes` | crates/wgpu-remote/src/dispatch.rs:449-457 | after that write the engine's buffer holds exactly the staging, whatever happened to it since its creation, passes included |
| `Mapping.MappedLifeIsPublished` | crates/wgpu-remote/src/dispatch.rs:346-501 | from creation to unmap: the engine's buffer then holds the last byte the program wrote at each position and zero elsewhere |
| `Mapping.BufferStands` | crates/wgpu-remote/src/server/engine.rs:134-149 | from its creation until its destruction an id stands for the same buffer of the same length |
| `Mapping.ReadMapShowsTheRange` | crates/wgpu-remote/src/dispatch.rs:411-437 | a range of a read map shows the buffer's bytes at its bounds, for all contents, if and only if the map starts at zero or the range is empty and fits; otherwise it shows bytes from elsewhere or panics |
| `Mapping.DropInBuffer.MapAsync` | crates/wgpu-remote/src/dispatch.rs:395-419 | the bytes of the reply are kept for the ranges to come; an error leaves the buffer as it was |
| `Mapping.ReadThroughMap` | crates/wgpu-remote/src/dispatch.rs:395-437 | mapping a range of the engine's buffer and looking at a part of it on the real objects shows what that law speaks of, and changes nothing on the server |
| `Mapping.BoundsAreExact` | crates/wgpu-remote/src/client/resources.rs:165-177 | the offset and size asked for cover exactly the positions the bounds describe |
| `Handshake.OneStreamExactlyWhen` | crates/wgpu-remote/src/client/client.rs:198-227 | all frames of a client share one stream and one order if and only if its raw `send` never opened a stream before a request had |
| `Handshake.FacadeHasOneStream` | crates/wgpu-remote/src/client/instance.rs:49-108 | through adapters, devices and handles that cannot happen |
| `Handshake.RunClient` | crates/wgpu-remote/src/client/instance.rs:49-108 | any program on the client object has one stream, exactly when it opened none on the side |
| `Handshake.AdapterExactlyWhen` | crates/wgpu-remote/src/client/instance.rs:49-74 | the same of the handshake as a step of a run: a version mismatch yields no adapter and no request for one |
| `Handshake.DeviceExactlyWhen` | crates/wgpu-remote/src/client/instance.rs:86-108 | the same for devices |
| `Handshake.StepSends` | crates/wgpu-remote/src/client/client.rs:166-227 | every step hands over exactly its own frames, all of them on the multiplexer's stream unless it is a send that opens one of its own |
| `Handshake.FacadeClient.RequestAdapter` | crates/wgpu-remote/src/client/instance.rs:49-74 | an adapter is handed out if and only if a stream was there or could be opened, the greeting was acknowledged and the request granted; the frames put on the stream are the greeting, and the request only after its ack |
| `Handshake.FacadeClient.RequestDevice` | crates/wgpu-remote/src/client/instance.rs:86-108 | a device is handed out if and only if its request went out and was granted; that request is the one frame sent |
| `Instance.FrameCodecFaithful` | crates/wgpu-remote/src/protocol/actions.rs:20-24 | frames over any serializer with a left inverse have one |
| `Instance.ReplyCodecFaithful` | crates/wgpu-remote/src/protocol/responses.rs:8-12 | so have response frames |
| `Instance.BufferRecordingsFaithful` | crates/wgpu-remote/src/protocol/commands.rs:20-45 | a serializer of recordings that copy and clear with a left inverse |
| `Instance.BufferActionsFaithful` | crates/wgpu-remote/src/protocol/actions.rs:26-60 | a serializer of the actions of buffer programs, submissions included, with a left inverse |
| `Instance.BufferResponsesFaithful` | crates/wgpu-remote/src/protocol/responses.rs:14-30 | one of their responses |
| `Instance.BufferWorldsAreFaithful` | crates/wgpu-remote/src/protocol/codec.rs:26-39 | worlds whose serializers are all faithful exist |
| `Instance.ClearingShadeIsLocal` | crates/wgpu-remote/src/server/engine.rs:828-870 | a device whose dispatches clear the buffers bound to their pass meets the locality hypothesis on shaders |
| `Example.CallGoesThrough` | crates/wgpu-remote/src/client/client.rs:166-227 | any call a session can issue and encode goes through a live client, in one joint run |
| `Example.WriteThenRead` | crates/wgpu-remote/src/client/resources.rs:124-161 | a joint run exists, for pipes of any capacity and any contents that fit a frame, on which a program that creates, writes and reads a buffer is answered with its bytes |

## Left out

- QUIC, iroh, TLS and certificates: a stream is a reliable FIFO byte pipe of finite capacity that may fail at any byte.
- Opening and accepting streams over a connection: only that opening may succeed or fail.
- The binaries, connect helpers, translation of descriptors, and the drop-in's constants and unimplemented calls: they would only add easy members.
- bincode, serde and tokio internals: the body serializer is a parameter with a left inverse; channels, oneshots and locks are atomic steps.
- Descriptor fields that neither side interprets (formats, layouts, states, label of encoders): carried as opaque values.
- Pipeline constants: the engine builds pipelines with default options, and the model's pipelines carry none.
- Shaders, rasterisation, texture contents and alignment rules: an arbitrary effect on buffers, and no validation errors.
- Writes and copies outside a buffer have no effect and a map outside it is the `Internal` error, standing in for wgpu's validation.
- GPU object identity: a buffer or texture is named by its id and how often that id was used before; any naming that never repeats would do.
- Human-readable error texts: kept as structured values.
- Wrap-around of the 64-bit counters and offsets.
- Requests cancelled by dropping their future: their late answers would be discarded like those to sends.
- Several id minters on one engine, and reclaiming table entries other than buffers, which `Destroy` only acknowledges.
- `copy_buffer_to_texture` is replayed but no recorder offers it; push constants likewise come only from a hand-built recording.
- The wgpu 29 variants of mapped ranges.
- Handler.HandleStream: runs the loop of one stream by itself; its interleaving with clients and pipes is in Pipeline, and with other streams in Streams.
- Streams.StreamsDoNotInterfere: what a stream's own shaders read and write is left open, so a stream that runs passes has its reads compared up to their outcome; and of other streams' passes it assumes `Gpu.ShadeIsLocal`.
- Plain.RunMatches: an array given up to a shader, a texture copy or a copy from such an array is not taken up again when the program overwrites the whole buffer.
- Mapping.UnmapPublishes: assumes of passes and texture copies only that they do not change the length of a buffer.
- Handshake.OneStreamExactlyWhen: a frame on a stream opened by a cold `send` may or may not go out before its writer is aborted; both are modelled, when is not.
- PipelineLaws.NeverStuck: assumes every answer fits the size cap, since a response that cannot be encoded ends the server's loop after its action has run.
