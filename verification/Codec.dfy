/** Length-delimited framing (protocol/codec.rs) and frame reading over a chunked byte stream
    (transport/mod.rs). The body serializer is a parameter; only that decoding an encoded body
    gives the value back is assumed of it. */
module Codec {
  import opened Basics

  const MAX_FRAME_BYTES: nat := 64 * 1024 * 1024

  datatype CodecError =
    | EncodeFailed
    | DecodeFailed
    | FrameTooLarge(len: nat)
    | Truncated(needed: nat, got: nat)

  /** The body serializer. `decode` may accept bodies `encode` never produces. */
  datatype BodyCodec<!T> = BodyCodec(encode: T -> Option<Bytes>, decode: Bytes -> Option<T>)

  /** Decoding is a left inverse of encoding. */
  ghost predicate Faithful<T(!new)>(c: BodyCodec<T>) {
    forall v :: c.encode(v).Some? ==> c.decode(c.encode(v).value) == Some(v)
  }

  /** A truncating cast to 32 bits. */
  function AsU32(n: nat): nat { n % 0x1_0000_0000 }

  /** The low `width` bytes of `n`, most significant first. */
  function ToBe(n: nat, width: nat): (b: Bytes)
    ensures |b| == width
  {
    if width == 0 then [] else ToBe(n / 0x100, width - 1) + [n % 0x100]
  }

  function FromBe(b: Bytes): nat {
    if b == [] then 0 else FromBe(b[..|b| - 1]) * 0x100 + b[|b| - 1] as nat
  }

  function Pow256(width: nat): nat { if width == 0 then 1 else 0x100 * Pow256(width - 1) }

  /** Big-endian bytes carry every number of their width. */
  lemma {:induction false} BeRoundTrip(n: nat, width: nat)
    requires n < Pow256(width)
    ensures FromBe(ToBe(n, width)) == n
  {
    if width > 0 {
      BeRoundTrip(n / 0x100, width - 1);
      var high := ToBe(n / 0x100, width - 1);
      assert (high + [n % 0x100])[..width - 1] == high;
    }
  }

  /** The length field: a 32-bit big-endian number. */
  function Header(len: nat): (h: Bytes)
    ensures |h| == 4
  {
    ToBe(AsU32(len), 4)
  }

  function BodyLen(buf: Bytes): nat
    requires |buf| >= 4
  {
    FromBe(buf[..4])
  }

  /** The length field of a buffer, byte by byte. */
  lemma BodyLenIsBigEndian(buf: Bytes)
    requires |buf| >= 4
    ensures BodyLen(buf) == 0x100_0000 * buf[0] as nat + 0x1_0000 * buf[1] as nat + 0x100 * buf[2] as nat
                            + buf[3] as nat
  {
    var h := buf[..4];
    assert h[..3][..2] == h[..2] && h[..2][..1] == h[..1] && h[..1][..0] == [];
    assert FromBe(h) == FromBe(h[..3]) * 0x100 + h[3] as nat;
    assert FromBe(h[..3]) == FromBe(h[..2]) * 0x100 + h[2] as nat;
    assert FromBe(h[..2]) == FromBe(h[..1]) * 0x100 + h[1] as nat;
    assert FromBe(h[..1]) == FromBe([]) * 0x100 + h[0] as nat;
  }

  /** The cast loses nothing for any length a frame may have. */
  lemma HeaderRoundTrip(len: nat)
    requires len <= MAX_FRAME_BYTES
    ensures BodyLen(Header(len)) == len
  {
    var h := Header(len);
    assert h[..4] == h;
    assert h == ToBe(len, 4);
    FourBytes();
    BeRoundTrip(len, 4);
  }

  lemma FourBytes()
    ensures Pow256(4) == 0x1_0000_0000
  {
    assert Pow256(2) == 0x1_0000;
  }

  function EncodeFrame<T>(c: BodyCodec<T>, v: T): Result<Bytes, CodecError> {
    match c.encode(v)
    case None => Err(EncodeFailed)
    case Some(body) =>
      if |body| > MAX_FRAME_BYTES then Err(FrameTooLarge(|body|))
      else Ok(Header(|body|) + body)
  }

  function DecodeFrame<T>(c: BodyCodec<T>, buf: Bytes): Result<(T, nat), CodecError> {
    if |buf| < 4 then Err(Truncated(4, |buf|))
    else
      var len := BodyLen(buf);
      if len > MAX_FRAME_BYTES then Err(FrameTooLarge(len))
      else if |buf| < 4 + len then Err(Truncated(4 + len, |buf|))
      else
        match c.decode(buf[4..4 + len])
        case None => Err(DecodeFailed)
        case Some(v) => Ok((v, 4 + len))
  }

  /** What decoding makes of any bytes: the length field is looked at as soon as it is there, and a
      length over the cap is refused before any of the body arrives. */
  lemma DecodeOutcome<T>(c: BodyCodec<T>, buf: Bytes)
    ensures |buf| < 4 ==> DecodeFrame(c, buf) == Err(Truncated(4, |buf|))
    ensures |buf| >= 4 ==>
      var len := 0x100_0000 * buf[0] as nat + 0x1_0000 * buf[1] as nat + 0x100 * buf[2] as nat + buf[3] as nat;
      var r := DecodeFrame(c, buf);
      && (len > MAX_FRAME_BYTES <==> r == Err(FrameTooLarge(len)))
      && (len <= MAX_FRAME_BYTES && |buf| < 4 + len <==> r == Err(Truncated(4 + len, |buf|)))
      && (len <= MAX_FRAME_BYTES && |buf| >= 4 + len ==>
            r == match c.decode(buf[4..][..len]) case None => Err(DecodeFailed) case Some(v) => Ok((v, 4 + len)))
  {
    if |buf| >= 4 {
      BodyLenIsBigEndian(buf);
      hide BodyLen;
      if |buf| >= 4 + BodyLen(buf) { assert buf[4..][..BodyLen(buf)] == buf[4..4 + BodyLen(buf)]; }
    }
  }

  /** What encoding makes of any value. */
  lemma EncodeOutcome<T>(c: BodyCodec<T>, v: T)
    ensures var body, r := c.encode(v), EncodeFrame(c, v);
      && (body.None? <==> r == Err(EncodeFailed))
      && (body.Some? && |body.value| > MAX_FRAME_BYTES ==> r == Err(FrameTooLarge(|body.value|)))
      && (body.Some? && |body.value| <= MAX_FRAME_BYTES ==>
            r.Ok? && |r.value| == 4 + |body.value| && r.value[4..] == body.value && BodyLen(r.value) == |body.value|)
  {
    if c.encode(v).Some? && |c.encode(v).value| <= MAX_FRAME_BYTES {
      var h := Header(|c.encode(v).value|);
      HeaderRoundTrip(|c.encode(v).value|);
      assert (h + c.encode(v).value)[..4] == h[..4];
    }
  }

  predicate Fits<T>(c: BodyCodec<T>, v: T) { EncodeFrame(c, v).Ok? }

  /** The bytes a value occupies on the wire; none when it cannot be sent. */
  function FrameOf<T>(c: BodyCodec<T>, v: T): Bytes {
    match EncodeFrame(c, v)
    case Ok(b) => b
    case Err(_) => []
  }

  lemma FrameShape<T>(c: BodyCodec<T>, v: T)
    requires Fits(c, v)
    ensures var f := FrameOf(c, v);
      && 4 <= |f| <= 4 + MAX_FRAME_BYTES
      && |f| == 4 + BodyLen(f)
      && Some(f[4..]) == c.encode(v)
  {
    var body := c.encode(v).value;
    HeaderRoundTrip(|body|);
    assert FrameOf(c, v)[4..] == body && FrameOf(c, v)[..4] == Header(|body|)[..4];
  }

  /** A frame decodes to its value whatever follows it, consuming exactly itself. */
  lemma DecodeEncoded<T(!new)>(c: BodyCodec<T>, v: T, rest: Bytes)
    requires Faithful(c) && Fits(c, v)
    ensures DecodeFrame(c, FrameOf(c, v) + rest) == Ok((v, |FrameOf(c, v)|))
  {
    FrameShape(c, v);
    var f := FrameOf(c, v);
    assert (f + rest)[..4] == f[..4];
    assert (f + rest)[4..|f|] == f[4..];
  }

  /** Every strict prefix of a frame is reported as truncated, and the reported need is met by the
      frame itself: the header first, then the whole frame. */
  lemma PrefixIsTruncated<T>(c: BodyCodec<T>, v: T, k: nat)
    requires Fits(c, v) && k < |FrameOf(c, v)|
    ensures var r := DecodeFrame(c, FrameOf(c, v)[..k]);
      && r == Err(Truncated(if k < 4 then 4 else |FrameOf(c, v)|, k))
      && k < r.error.needed <= |FrameOf(c, v)|
  {
    FrameShape(c, v);
    if k >= 4 {
      assert FrameOf(c, v)[..k][..4] == FrameOf(c, v)[..4];
    }
  }

  /** The caller's protocol that `Truncated` invites: read up to `needed`, then retry. */
  function DecodeWithRetry<T>(c: BodyCodec<T>, wire: Bytes, have: nat): Result<(T, nat), CodecError>
    requires have <= |wire|
    decreases |wire| - have
  {
    var r := DecodeFrame(c, wire[..have]);
    if r.Err? && r.error.Truncated? && have < r.error.needed <= |wire|
    then DecodeWithRetry(c, wire, r.error.needed)
    else r
  }

  lemma {:induction false} RetryConsumesOneFrame<T(!new)>(c: BodyCodec<T>, v: T, rest: Bytes, have: nat)
    requires Faithful(c) && Fits(c, v) && have <= |FrameOf(c, v)|
    ensures DecodeWithRetry(c, FrameOf(c, v) + rest, have) == Ok((v, |FrameOf(c, v)|))
    decreases |FrameOf(c, v)| - have
  {
    var f := FrameOf(c, v);
    assert (f + rest)[..have] == f[..have];
    if have < |f| {
      PrefixIsTruncated(c, v, have);
      RetryConsumesOneFrame(c, v, rest, if have < 4 then 4 else |f|) by { FrameShape(c, v); }
    } else {
      assert f[..have] == f + [];
      DecodeEncoded(c, v, []);
    }
  }

  // ---- whole streams of frames ----

  function EncodeAll<T>(c: BodyCodec<T>, vs: seq<T>): Bytes {
    if vs == [] then [] else FrameOf(c, vs[0]) + EncodeAll(c, vs[1..])
  }

  lemma {:induction false} EncodeAllAppend<T>(c: BodyCodec<T>, a: seq<T>, b: seq<T>)
    ensures EncodeAll(c, a + b) == EncodeAll(c, a) + EncodeAll(c, b)
  {
    hide FrameOf;
    if a == [] {
      assert a + b == b;
    } else {
      EncodeAllAppend(c, a[1..], b);
      assert (a + b)[1..] == a[1..] + b && (a + b)[0] == a[0];
      Assoc(FrameOf(c, a[0]), EncodeAll(c, a[1..]), EncodeAll(c, b));
    }
  }

  lemma EncodeAllOne<T>(c: BodyCodec<T>, v: T)
    ensures EncodeAll(c, [v]) == FrameOf(c, v)
  {
    assert [v][1..] == [];
    assert EncodeAll(c, [v]) == FrameOf(c, v) + EncodeAll(c, [v][1..]);
    assert FrameOf(c, v) + [] == FrameOf(c, v);
  }

  /** How many more bytes complete the frame that `buf` begins. */
  function Missing(buf: Bytes): int {
    if |buf| < 4 then 4 - |buf| else 4 + BodyLen(buf) - |buf|
  }

  predicate Complete(buf: Bytes) { |buf| >= 4 && Missing(buf) == 0 }

  /** A complete buffer at the head of a stream of frames is exactly the first frame. */
  lemma HeadFrame<T(!new)>(c: BodyCodec<T>, vs: seq<T>, buf: Bytes, rest: Bytes)
    requires Faithful(c) && EncodeAll(c, vs) == buf + rest && Complete(buf)
    requires vs != [] ==> Fits(c, vs[0])
    ensures vs != [] && buf == FrameOf(c, vs[0]) && rest == EncodeAll(c, vs[1..])
    ensures DecodeFrame(c, buf) == Ok((vs[0], |buf|))
  {
    assert |buf + rest| >= 4;
    if vs != [] {
      FrameShape(c, vs[0]);
      var f := FrameOf(c, vs[0]);
      var tail := EncodeAll(c, vs[1..]);
      assert f + tail == buf + rest;
      assert f[..4] == (f + tail)[..4] == (buf + rest)[..4] == buf[..4];
      assert |buf| == |f|;
      assert buf == (buf + rest)[..|buf|] == (f + tail)[..|f|] == f;
      assert rest == (buf + rest)[|buf|..] == (f + tail)[|f|..] == tail;
      assert buf == f + [];
      DecodeEncoded(c, vs[0], []);
    }
  }

  /** An unfinished buffer at the head of a stream of frames can still be fed: the stream holds
      everything it is missing. */
  lemma HeadHasMissing<T(!new)>(c: BodyCodec<T>, vs: seq<T>, buf: Bytes, rest: Bytes)
    requires EncodeAll(c, vs) == buf + rest && buf + rest != []
    requires Fits(c, vs[0])
    ensures |rest| >= Missing(buf)
  {
    FrameShape(c, vs[0]);
    var f := FrameOf(c, vs[0]);
    assert f + EncodeAll(c, vs[1..]) == buf + rest;
    if |buf| >= 4 {
      assert f[..4] == (f + EncodeAll(c, vs[1..]))[..4] == (buf + rest)[..4] == buf[..4];
    }
  }

  /** What repeated reading and decoding recovers from a byte stream that then ends. */
  function DecodeStream<T>(c: BodyCodec<T>, wire: Bytes): (seq<T>, Bytes)
    decreases |wire|
  {
    match SplitFrame(wire)
    case None => ([], wire)
    case Some((full, rest)) =>
      match DecodeFrame(c, full)
      case Err(_) => ([], wire)
      case Ok((v, _)) => var (vs, left) := DecodeStream(c, rest); ([v] + vs, left)
  }

  /** The first frame's bytes and what follows; there is no size limit at this level. */
  function SplitFrame(wire: Bytes): (r: Option<(Bytes, Bytes)>)
    ensures r.Some? ==> wire == r.value.0 + r.value.1 && Complete(r.value.0)
    ensures r.None? <==> |wire| < 4 || |wire| < 4 + BodyLen(wire)
  {
    if |wire| < 4 || |wire| < 4 + BodyLen(wire) then None
    else
      var n := 4 + BodyLen(wire);
      assert wire[..n][..4] == wire[..4];
      Some((wire[..n], wire[n..]))
  }

  /** Number of whole frames of `vs` among the first `k` bytes of their encoding. */
  function WholeFrames<T>(c: BodyCodec<T>, vs: seq<T>, k: nat): (n: nat)
    ensures n <= |vs|
  {
    if vs == [] || k < |FrameOf(c, vs[0])| then 0
    else 1 + WholeFrames(c, vs[1..], k - |FrameOf(c, vs[0])|)
  }

  /** A stream cut at an arbitrary byte yields exactly the frames that arrived whole, in order,
      and leaves exactly the bytes of the torn one. */
  lemma {:induction false} CutStream<T(!new)>(c: BodyCodec<T>, vs: seq<T>, k: nat)
    requires Faithful(c) && (forall v :: v in vs ==> Fits(c, v))
    requires k <= |EncodeAll(c, vs)|
    ensures var n := WholeFrames(c, vs, k);
      && DecodeStream(c, EncodeAll(c, vs)[..k]).0 == vs[..n]
      && EncodeAll(c, vs)[..k] == EncodeAll(c, vs[..n]) + DecodeStream(c, EncodeAll(c, vs)[..k]).1
  {
    hide FrameOf;
    if vs != [] {
      var f, tail := FrameOf(c, vs[0]), EncodeAll(c, vs[1..]);
      var wire := f + tail;
      assert vs[0] in vs;
      FrameShape(c, vs[0]);
      if k < |f| {
        if k >= 4 { SameHeader(wire, k, f); }
      } else {
        CutStream(c, vs[1..], k - |f|);
        SplitAtFrame(f, tail, k);
        DecodeEncoded(c, vs[0], []);
        assert f + [] == f;
        var m := WholeFrames(c, vs[1..], k - |f|);
        assert vs[..1 + m][1..] == vs[1..][..m];
        assert vs[..1 + m] == [vs[0]] + vs[1..][..m];
        Assoc(f, EncodeAll(c, vs[1..][..m]), DecodeStream(c, tail[..k - |f|]).1);
      }
    }
  }

  lemma SameHeader(wire: Bytes, k: nat, f: Bytes)
    requires 4 <= k <= |wire| && 4 <= |f| <= |wire| && f == wire[..|f|]
    ensures BodyLen(wire[..k]) == BodyLen(f)
  {
    assert wire[..k][..4] == f[..4];
  }

  /** Cutting a stream after its first frame leaves that frame to be split off whole. */
  lemma SplitAtFrame(f: Bytes, tail: Bytes, k: nat)
    requires Complete(f) && |f| <= k <= |f + tail|
    ensures (f + tail)[..k] == f + tail[..k - |f|]
    ensures SplitFrame((f + tail)[..k]) == Some((f, tail[..k - |f|]))
  {
    var cut := (f + tail)[..k];
    assert cut == f + tail[..k - |f|];
    assert cut[..4] == f[..4];
    assert cut[..|f|] == f && cut[|f|..] == tail[..k - |f|];
  }

  lemma {:induction false} AllWhole<T>(c: BodyCodec<T>, vs: seq<T>)
    ensures WholeFrames(c, vs, |EncodeAll(c, vs)|) == |vs|
  {
    if vs != [] {
      AllWhole(c, vs[1..]);
    }
  }

  /** Framed stream round trip: the same list comes back and nothing is left over. */
  lemma StreamRoundTrip<T(!new)>(c: BodyCodec<T>, vs: seq<T>)
    requires Faithful(c) && (forall v :: v in vs ==> Fits(c, v))
    ensures DecodeStream(c, EncodeAll(c, vs)) == (vs, [])
  {
    var wire := EncodeAll(c, vs);
    AllWhole(c, vs);
    CutStream(c, vs, |wire|);
    assert wire[..|wire|] == wire && vs[..|vs|] == vs;
    var left := DecodeStream(c, wire).1;
    assert |wire| == |wire| + |left|;
  }

  // ---- reading from a stream that delivers bytes in arbitrary chunks ----

  /** The receiving half of a stream: the chunks still to arrive before end of stream. */
  class RecvStream {
    var chunks: seq<Bytes>

    constructor (chunks: seq<Bytes>)
      ensures this.chunks == chunks
    {
      this.chunks := chunks;
    }

    function Flat(): Bytes
      reads this
    {
      Flatten(chunks)
    }

    /** One read: at most `max` bytes, as the next chunk happens to provide them; none at the end. */
    method Read(max: nat) returns (got: Bytes)
      requires max > 0
      modifies this
      ensures old(Flat()) == got + Flat()
      ensures |got| <= max
      ensures got == [] ==> old(Flat()) == []
    {
      while chunks != [] && chunks[0] == []
        invariant Flat() == old(Flat())
        decreases |chunks|
      {
        chunks := chunks[1..];
      }
      if chunks == [] { return []; }
      var n := Min(max, |chunks[0]|);
      got := chunks[0][..n];
      ghost var before := chunks;
      chunks := [chunks[0][n..]] + chunks[1..];
      assert chunks[1..] == before[1..];
      assert before[0] == got + chunks[0];
      assert Flat() == chunks[0] + Flatten(before[1..]);
      assert before[0] + Flatten(before[1..]) == got + Flat();
    }

    /** Read exactly `n` bytes, or fail with whatever there was consumed. */
    method ReadExact(n: nat) returns (r: Option<Bytes>)
      modifies this
      ensures r.Some? <==> |old(Flat())| >= n
      ensures r.Some? ==> |r.value| == n && old(Flat()) == r.value + Flat()
    {
      var buf: Bytes := [];
      while |buf| < n
        invariant |buf| <= n
        invariant old(Flat()) == buf + Flat()
        decreases n - |buf|
      {
        ghost var was, left := buf, Flat();
        var got := Read(n - |buf|);
        if got == [] { return None; }
        assert was + (got + Flat()) == (was + got) + Flat();
        buf := buf + got;
      }
      return Some(buf);
    }

    /** `read_frame`: the bytes of one frame, header included. The result depends on the bytes of
        the stream alone, not on how they were chunked. */
    method ReadFrame() returns (r: Option<Bytes>)
      modifies this
      ensures r.Some? <==> SplitFrame(old(Flat())).Some?
      ensures r.Some? ==> SplitFrame(old(Flat())) == Some((r.value, Flat()))
    {
      var wire := Flat();
      var header := ReadExact(4);
      if header.None? { return None; }
      var len := FromBe(header.value);
      assert wire[..4] == header.value;
      ghost var afterHeader := Flat();
      var body := ReadExact(len);
      if body.None? { return None; }
      r := Some(header.value + body.value);
      assert wire == header.value + (body.value + Flat()) == (header.value + body.value) + Flat();
      assert wire[..4 + len] == r.value && wire[4 + len..] == Flat();
    }
  }
}
