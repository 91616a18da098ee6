/** Serializers that meet the hypothesis the rest of the model makes of them, so that nothing proved
    from it is empty: frames and response frames over any faithful serializer of their contents, and
    such serializers for the actions, responses and recordings of programs that create, write, copy,
    clear, submit and read buffers. */
module Instance {
  import opened Basics
  import opened Protocol
  import opened Codec
  import opened Gpu
  import opened Joint
  import Pipeline

  const WORD: nat := 8

  /** A number as eight bytes, or nothing when it needs more. */
  function Word(n: nat): (b: Option<Bytes>)
    ensures b.Some? ==> |b.value| == WORD
  {
    if n < Pow256(WORD) then Some(ToBe(n, WORD)) else None
  }

  /** Two numbers and a tail, behind a tag. */
  function Pack(tag: byte, m: nat, n: nat, tail: Bytes): Option<Bytes> {
    match (Word(m), Word(n))
    case (Some(a), Some(b)) => Some([tag] + a + b + tail)
    case _ => None
  }

  function Unpack(b: Bytes): Option<(byte, nat, nat, Bytes)> {
    if |b| < 1 + 2 * WORD then None
    else Some((b[0], FromBe(b[1..1 + WORD]), FromBe(b[1 + WORD..1 + 2 * WORD]), b[1 + 2 * WORD..]))
  }

  lemma UnpackPack(tag: byte, m: nat, n: nat, tail: Bytes)
    requires Pack(tag, m, n, tail).Some?
    ensures Unpack(Pack(tag, m, n, tail).value) == Some((tag, m, n, tail))
  {
    hide FromBe, ToBe, Pow256;
    BeRoundTrip(m, WORD);
    BeRoundTrip(n, WORD);
    var a, b := ToBe(m, WORD), ToBe(n, WORD);
    var all := [tag] + a + b + tail;
    assert all[1..1 + WORD] == a && all[1 + WORD..1 + 2 * WORD] == b && all[1 + 2 * WORD..] == tail;
  }

  // ---- frames over any serializer of their contents ----

  function FrameCodec<A>(inner: BodyCodec<A>): BodyCodec<Frame<A>> {
    BodyCodec(
      (f: Frame<A>) =>
        match inner.encode(f.action)
        case None => None
        case Some(body) => if f.requestId.Some? then Pack(1, f.requestId.value, 0, body) else Pack(0, 0, 0, body),
      (b: Bytes) =>
        match Unpack(b)
        case None => None
        case Some((tag, id, _, body)) =>
          match inner.decode(body)
          case None => None
          case Some(a) => Some(Frame(if tag == 1 then Some(id) else None, a)))
  }

  lemma FrameCodecFaithful<A(!new)>(inner: BodyCodec<A>)
    requires Faithful(inner)
    ensures Faithful(FrameCodec(inner))
  {
    var c := FrameCodec(inner);
    forall f: Frame<A> | c.encode(f).Some? ensures c.decode(c.encode(f).value) == Some(f) {
      var body := inner.encode(f.action).value;
      UnpackPack(if f.requestId.Some? then 1 else 0, if f.requestId.Some? then f.requestId.value else 0, 0, body);
      hide Pack, Unpack;
    }
  }

  function ReplyCodec<R>(inner: BodyCodec<R>): BodyCodec<ResponseFrame<R>> {
    BodyCodec(
      (f: ResponseFrame<R>) =>
        match inner.encode(f.response)
        case None => None
        case Some(body) => Pack(0, f.requestId, 0, body),
      (b: Bytes) =>
        match Unpack(b)
        case None => None
        case Some((_, id, _, body)) =>
          match inner.decode(body)
          case None => None
          case Some(r) => Some(ResponseFrame(id, r)))
  }

  lemma ReplyCodecFaithful<R(!new)>(inner: BodyCodec<R>)
    requires Faithful(inner)
    ensures Faithful(ReplyCodec(inner))
  {
    var c := ReplyCodec(inner);
    forall f: ResponseFrame<R> | c.encode(f).Some? ensures c.decode(c.encode(f).value) == Some(f) {
      UnpackPack(0, f.requestId, 0, inner.encode(f.response).value);
      hide Pack, Unpack;
    }
  }

  // ---- recordings of copies and clears ----

  const COMMAND: nat := 1 + 5 * WORD

  function Triple(a: nat, b: nat, c: nat): Option<Bytes> {
    match (Word(a), Word(b), Word(c))
    case (Some(x), Some(y), Some(z)) => Some(x + y + z)
    case _ => None
  }

  function FromTriple(b: Bytes): (nat, nat, nat)
    requires |b| == 3 * WORD
  {
    (FromBe(b[..WORD]), FromBe(b[WORD..2 * WORD]), FromBe(b[2 * WORD..]))
  }

  lemma TripleRoundTrip(a: nat, b: nat, c: nat)
    requires Triple(a, b, c).Some?
    ensures var t := Triple(a, b, c).value; |t| == 3 * WORD && FromTriple(t) == (a, b, c)
  {
    hide FromBe, ToBe, Pow256;
    BeRoundTrip(a, WORD);
    BeRoundTrip(b, WORD);
    BeRoundTrip(c, WORD);
    var x, y, z := ToBe(a, WORD), ToBe(b, WORD), ToBe(c, WORD);
    var t := x + y + z;
    assert t[..WORD] == x && t[WORD..2 * WORD] == y && t[2 * WORD..] == z;
  }

  /** One command, always of the same length. */
  function EncodeCommand(c: EncoderCommand): (b: Option<Bytes>)
    ensures b.Some? ==> |b.value| == COMMAND
  {
    match c
    case CopyBufferToBuffer(source, from, destination, to, size) =>
      (match Triple(destination, to, size) case None => None case Some(t) => Pack(0, source, from, t))
    case ClearBuffer(buffer, offset, None) =>
      (match Triple(0, 0, 0) case None => None case Some(t) => Pack(1, buffer, offset, t))
    case ClearBuffer(buffer, offset, Some(size)) =>
      (match Triple(0, 0, size) case None => None case Some(t) => Pack(2, buffer, offset, t))
    case _ => None
  }

  function DecodeCommand(b: Bytes): EncoderCommand
    requires |b| == COMMAND
  {
    var (tag, m, n, tail) := Unpack(b).value;
    var (x, y, z) := FromTriple(tail);
    if tag == 0 then CopyBufferToBuffer(m, n, x, y, z)
    else if tag == 1 then ClearBuffer(m, n, None)
    else ClearBuffer(m, n, Some(z))
  }

  lemma CommandRoundTrip(c: EncoderCommand)
    requires EncodeCommand(c).Some?
    ensures DecodeCommand(EncodeCommand(c).value) == c
  {
    hide Word, FromBe, FromTriple;
    match c
    case CopyBufferToBuffer(source, from, destination, to, size) =>
      TripleRoundTrip(destination, to, size);
      UnpackPack(0, source, from, Triple(destination, to, size).value);
    case ClearBuffer(buffer, offset, None) =>
      TripleRoundTrip(0, 0, 0);
      UnpackPack(1, buffer, offset, Triple(0, 0, 0).value);
    case ClearBuffer(buffer, offset, Some(size)) =>
      TripleRoundTrip(0, 0, size);
      UnpackPack(2, buffer, offset, Triple(0, 0, size).value);
  }

  function EncodeCommands(cs: seq<EncoderCommand>): Option<Bytes> {
    if cs == [] then Some([])
    else
      match (EncodeCommand(cs[0]), EncodeCommands(cs[1..]))
      case (Some(b), Some(rest)) => Some(b + rest)
      case _ => None
  }

  function DecodeCommands(b: Bytes): seq<EncoderCommand>
    decreases |b|
  {
    if |b| < COMMAND then [] else [DecodeCommand(b[..COMMAND])] + DecodeCommands(b[COMMAND..])
  }

  lemma {:induction false} CommandsRoundTrip(cs: seq<EncoderCommand>)
    requires EncodeCommands(cs).Some?
    ensures DecodeCommands(EncodeCommands(cs).value) == cs
  {
    hide EncodeCommand, DecodeCommand;
    if cs != [] {
      CommandRoundTrip(cs[0]);
      CommandsRoundTrip(cs[1..]);
      var b, rest := EncodeCommand(cs[0]).value, EncodeCommands(cs[1..]).value;
      assert (b + rest)[..COMMAND] == b && (b + rest)[COMMAND..] == rest;
    }
  }

  /** Recordings without a label that only copy and clear. */
  function BufferRecordings(): BodyCodec<Recording> {
    BodyCodec(
      (r: Recording) => if r.name.Some? then None else EncodeCommands(r.commands),
      (b: Bytes) => Some(Recording(None, DecodeCommands(b))))
  }

  lemma BufferRecordingsFaithful()
    ensures Faithful(BufferRecordings())
  {
    var c := BufferRecordings();
    forall r: Recording | c.encode(r).Some? ensures c.decode(c.encode(r).value) == Some(r) {
      CommandsRoundTrip(r.commands);
    }
  }

  // ---- lists of byte strings ----

  function EncodeParts(parts: seq<Bytes>): Option<Bytes> {
    if parts == [] then Some([])
    else
      match (Word(|parts[0]|), EncodeParts(parts[1..]))
      case (Some(w), Some(rest)) => Some(w + parts[0] + rest)
      case _ => None
  }

  function DecodeParts(b: Bytes): seq<Bytes>
    decreases |b|
  {
    if |b| < WORD || |b| < WORD + FromBe(b[..WORD]) then []
    else
      var n := WORD + FromBe(b[..WORD]);
      [b[WORD..n]] + DecodeParts(b[n..])
  }

  lemma {:induction false} PartsRoundTrip(parts: seq<Bytes>)
    requires EncodeParts(parts).Some?
    ensures DecodeParts(EncodeParts(parts).value) == parts
  {
    hide FromBe, ToBe, Pow256;
    if parts != [] {
      PartsRoundTrip(parts[1..]);
      BeRoundTrip(|parts[0]|, WORD);
      var w, p, rest := ToBe(|parts[0]|, WORD), parts[0], EncodeParts(parts[1..]).value;
      var all := w + p + rest;
      assert all[..WORD] == w && all[WORD..WORD + |p|] == p && all[WORD + |p|..] == rest;
    }
  }

  // ---- buffer programs ----

  function PlainBuffer(size: nat): BufferDescriptor {
    BufferDescriptor(None, size, {MapRead, CopySrc, CopyDst}, false)
  }

  function EncodeAction(a: Action): Option<Bytes> {
    match a
    case CreateBuffer(id, desc) => if desc == PlainBuffer(desc.size) then Pack(0, id, desc.size, []) else None
    case WriteBuffer(id, offset, data) => Pack(1, id, offset, data)
    case MapBufferForRead(id, offset, size) =>
      (match Word(size)
       case None => None
       case Some(w) => Pack(2, id, offset, w))
    case Destroy(BufferR(id)) => Pack(3, id, 0, [])
    case Submit(recordings) =>
      (match EncodeParts(recordings)
       case None => None
       case Some(parts) => Pack(4, 0, 0, parts))
    case Hello(v) => Pack(5, v, 0, [])
    case RequestAdapter => Pack(6, 0, 0, [])
    case RequestDevice(None) => Pack(7, 0, 0, [])
    case _ => None
  }

  function DecodeAction(b: Bytes): Option<Action> {
    match Unpack(b)
    case None => None
    case Some((tag, m, n, tail)) =>
      if tag == 0 then Some(CreateBuffer(m, PlainBuffer(n)))
      else if tag == 1 then Some(WriteBuffer(m, n, tail))
      else if tag == 2 then Some(MapBufferForRead(m, n, FromBe(tail)))
      else if tag == 3 then Some(Destroy(BufferR(m)))
      else if tag == 4 then Some(Submit(DecodeParts(tail)))
      else if tag == 5 then Some(Hello(m))
      else if tag == 6 then Some(RequestAdapter)
      else if tag == 7 then Some(RequestDevice(None))
      else None
  }

  function EncodeResponse(r: Response): Option<Bytes> {
    match r
    case Ack => Pack(0, 0, 0, [])
    case BufferData(data) => Pack(1, 0, 0, data)
    case ErrorResponse(Internal, MapFailed) => Pack(2, 0, 0, [])
    case ErrorResponse(UnknownResource, Unknown(BufferR(id))) => Pack(3, id, 0, [])
    case HelloAck(v) => Pack(4, v, 0, [])
    case ErrorResponse(ProtocolVersionMismatch, Versions(c, s)) => Pack(5, c, s, [])
    case _ => None
  }

  function DecodeResponse(b: Bytes): Option<Response> {
    match Unpack(b)
    case None => None
    case Some((tag, m, n, tail)) =>
      if tag == 0 then Some(Ack)
      else if tag == 1 then Some(BufferData(tail))
      else if tag == 2 then Some(ErrorResponse(Internal, MapFailed))
      else if tag == 3 then Some(UnknownId(BufferR(m)))
      else if tag == 4 then Some(HelloAck(m))
      else if tag == 5 then Some(ErrorResponse(ProtocolVersionMismatch, Versions(m, n)))
      else None
  }

  function BufferActions(): BodyCodec<Action> { BodyCodec(EncodeAction, DecodeAction) }

  function BufferResponses(): BodyCodec<Response> { BodyCodec(EncodeResponse, DecodeResponse) }

  lemma BufferActionsFaithful()
    ensures Faithful(BufferActions())
  {
    forall a: Action | EncodeAction(a).Some? ensures DecodeAction(EncodeAction(a).value) == Some(a) {
      ActionRoundTrip(a);
    }
  }

  lemma ActionRoundTrip(a: Action)
    requires EncodeAction(a).Some?
    ensures DecodeAction(EncodeAction(a).value) == Some(a)
  {
    hide Unpack, FromBe, ToBe, Pow256, EncodeParts, DecodeParts;
    match a
    case CreateBuffer(id, desc) => UnpackPack(0, id, desc.size, []);
    case WriteBuffer(id, offset, data) => UnpackPack(1, id, offset, data);
    case MapBufferForRead(id, offset, size) =>
      UnpackPack(2, id, offset, Word(size).value);
      BeRoundTrip(size, WORD);
    case Destroy(r) => UnpackPack(3, r.id, 0, []);
    case Submit(recordings) =>
      UnpackPack(4, 0, 0, EncodeParts(recordings).value);
      PartsRoundTrip(recordings);
    case Hello(v) => UnpackPack(5, v, 0, []);
    case RequestAdapter => UnpackPack(6, 0, 0, []);
    case RequestDevice(_) => UnpackPack(7, 0, 0, []);
  }

  lemma BufferResponsesFaithful()
    ensures Faithful(BufferResponses())
  {
    forall r: Response | EncodeResponse(r).Some? ensures DecodeResponse(EncodeResponse(r).value) == Some(r) {
      ResponseRoundTrip(r);
    }
  }

  lemma ResponseRoundTrip(r: Response)
    requires EncodeResponse(r).Some?
    ensures DecodeResponse(EncodeResponse(r).value) == Some(r)
  {
    hide Unpack, Word;
    match r
    case Ack => UnpackPack(0, 0, 0, []);
    case BufferData(data) => UnpackPack(1, 0, 0, data);
    case ErrorResponse(Internal, MapFailed) => UnpackPack(2, 0, 0, []);
    case ErrorResponse(UnknownResource, Unknown(BufferR(id))) => UnpackPack(3, id, 0, []);
    case HelloAck(v) => UnpackPack(4, v, 0, []);
    case ErrorResponse(ProtocolVersionMismatch, Versions(c, s)) => UnpackPack(5, c, s, []);
  }

  /** A device and pipes of any capacity on which buffer programs run: every serializer is faithful. */
  function BufferDevice(shade: (seq<GpuCall>, Contents, GpuCall) -> Contents): Device {
    Device(BufferRecordings(), shade)
  }

  function BufferWorld(dev: Device, upCap: nat, downCap: nat): Network {
    World(dev, FrameCodec(BufferActions()), ReplyCodec(BufferResponses()), upCap, downCap)
  }

  lemma BufferWorldsAreFaithful(shade: (seq<GpuCall>, Contents, GpuCall) -> Contents, upCap: nat, downCap: nat)
    ensures Faithful(BufferDevice(shade).recordings)
    ensures Pipeline.Sound(BufferWorld(BufferDevice(shade), upCap, downCap))
  {
    BufferRecordingsFaithful();
    BufferActionsFaithful();
    BufferResponsesFaithful();
    FrameCodecFaithful(BufferActions());
    ReplyCodecFaithful(BufferResponses());
  }

  /** A device whose every dispatch clears the buffers bound to its pass. */
  function ClearingShade(): (seq<GpuCall>, Contents, GpuCall) -> Contents {
    (log, m: Contents, c: GpuCall) =>
      map s | s in m :: if c.GDispatch? && PassBinds(log, s) then Zeros(|m[s]|) else m[s]
  }

  lemma ClearingShadeIsLocal()
    ensures ShadeIsLocal(BufferDevice(ClearingShade()))
  {
    hide PassBinds;
    var shade := ClearingShade();
    forall log: seq<GpuCall>, m: Contents, c: GpuCall, s: Serial | !PassBinds(log, s) && !CopiesTextureTo(c, s)
      ensures SameAt(m, shade(log, m, c), s)
    {
    }
  }
}
