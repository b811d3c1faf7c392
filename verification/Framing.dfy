/**
  The wire frame of include/ipc/transport.hpp,
  [u8 kind][u32 name_len][name][u32 payload_len][payload],
  as a pair of pure functions: what build_frame emits and what one frame's worth
  of input decodes to.  u32s are taken little-endian.
*/
module Framing {
  import opened Options

  type byte = x: int | 0 <= x < 256
  type Bytes = seq<byte>

  const U32: int := 0x1_0000_0000
  const MAX_FRAME_BYTES: nat := 64 * 1024 * 1024

  datatype Frame = Frame(kind: byte, name: Bytes, payload: Bytes)

  // ---- u32 --------------------------------------------------------------------

  // memcpy of static_cast<uint32_t>(n)
  function EncodeU32(n: nat): (b: Bytes)
    ensures |b| == 4
  {
    [n % 256, n / 256 % 256, n / 256 / 256 % 256, n / 256 / 256 / 256 % 256]
  }

  function DecodeU32(b: Bytes): (n: nat)
    requires |b| >= 4
    ensures n < U32
  {
    var b0: int, b1: int, b2: int, b3: int := b[0], b[1], b[2], b[3];
    b0 + 256 * (b1 + 256 * (b2 + 256 * b3))
  }

  lemma U32RoundTrip(n: nat)
    ensures DecodeU32(EncodeU32(n)) == n % U32
  {
    var n1 := n / 256;
    var n2 := n1 / 256;
    var n3 := n2 / 256;
    assert n == n % 256 + 256 * (n1 % 256 + 256 * (n2 % 256 + 256 * (n3 % 256))) + U32 * (n3 / 256);
  }

  lemma Digit(n: int, d: int, rest: int)
    requires n == d + 256 * rest && 0 <= d < 256
    ensures n % 256 == d && n / 256 == rest
  {
  }

  lemma U32Injective(b: Bytes)
    requires |b| == 4
    ensures EncodeU32(DecodeU32(b)) == b
  {
    var b0: int, b1: int, b2: int, b3: int := b[0], b[1], b[2], b[3];
    Digit(DecodeU32(b), b0, b1 + 256 * (b2 + 256 * b3));
    Digit(b1 + 256 * (b2 + 256 * b3), b1, b2 + 256 * b3);
    Digit(b2 + 256 * b3, b2, b3);
    Digit(b3, b3, 0);
  }

  // ---- frames -----------------------------------------------------------------

  // build_frame
  function Build(f: Frame): Bytes {
    [f.kind] + EncodeU32(|f.name|) + f.name + EncodeU32(|f.payload|) + f.payload
  }

  // [u32 len][len bytes] at the head of s, as the reader takes it.
  function TakeField(s: Bytes): (r: Option<(Bytes, Bytes)>)
    ensures r.Some? ==>
      |r.value.0| <= MAX_FRAME_BYTES && s == EncodeU32(|r.value.0|) + r.value.0 + r.value.1
  {
    if |s| < 4 || DecodeU32(s) > MAX_FRAME_BYTES || |s| - 4 < DecodeU32(s) then None
    else
      var n := DecodeU32(s);
      U32Injective(s[..4]);
      assert DecodeU32(s[..4]) == n;
      assert s == s[..4] + s[4..4 + n] + s[4 + n..];
      Some((s[4..4 + n], s[4 + n..]))
  }

  lemma Assembled(s: Bytes, f: Frame, afterName: Bytes, rest: Bytes)
    requires s != [] && s[0] == f.kind && s[1..] == EncodeU32(|f.name|) + f.name + afterName
    requires afterName == EncodeU32(|f.payload|) + f.payload + rest
    ensures s == Build(f) + rest
  {
    assert s == [s[0]] + s[1..];
    assert Build(f) + rest ==
      [f.kind] + (EncodeU32(|f.name|) + f.name + (EncodeU32(|f.payload|) + f.payload + rest));
  }

  // One frame off the head of s, with what follows it; None when s ends first or
  // announces an oversized field.
  function Decode(s: Bytes): (r: Option<(Frame, Bytes)>)
    ensures r.Some? ==> s == Build(r.value.0) + r.value.1 && Fits(r.value.0)
  {
    if s == [] then None
    else
      var name := TakeField(s[1..]);
      if name.None? then None
      else
        var payload := TakeField(name.value.1);
        if payload.None? then None
        else
          var f := Frame(s[0], name.value.0, payload.value.0);
          Assembled(s, f, name.value.1, payload.value.1);
          Some((f, payload.value.1))
  }

  predicate Fits(f: Frame) {
    |f.name| <= MAX_FRAME_BYTES && |f.payload| <= MAX_FRAME_BYTES
  }

  lemma TakeFieldOf(x: Bytes, rest: Bytes)
    requires |x| <= MAX_FRAME_BYTES
    ensures TakeField(EncodeU32(|x|) + x + rest) == Some((x, rest))
  {
    var s := EncodeU32(|x|) + x + rest;
    U32RoundTrip(|x|);
    assert DecodeU32(s) == DecodeU32(EncodeU32(|x|)) == |x|;
    assert s[4..4 + |x|] == x && s[4 + |x|..] == rest;
  }

  lemma AfterKind(f: Frame, rest: Bytes)
    ensures var s := Build(f) + rest;
            && s != [] && s[0] == f.kind
            && s[1..] == EncodeU32(|f.name|) + f.name + (EncodeU32(|f.payload|) + f.payload + rest)
  {
  }

  // Whatever follows it, an emitted frame decodes to itself exactly when both of
  // its fields fit.
  lemma RoundTrip(f: Frame, rest: Bytes)
    ensures Decode(Build(f) + rest) == Some((f, rest)) <==> Fits(f)
  {
    if Fits(f) {
      var afterName := EncodeU32(|f.payload|) + f.payload + rest;
      AfterKind(f, rest);
      TakeFieldOf(f.name, afterName);
      TakeFieldOf(f.payload, rest);
    }
  }

  // A frame whose payload is too long for the reader decodes to nothing, whatever follows:
  // the stream ends there.
  lemma OversizedIsRefused(f: Frame, rest: Bytes)
    requires |f.name| <= MAX_FRAME_BYTES < |f.payload| < U32
    ensures Decode(Build(f) + rest) == None
  {
    var afterName := EncodeU32(|f.payload|) + f.payload + rest;
    AfterKind(f, rest);
    TakeFieldOf(f.name, afterName);
    LongFieldIsRefused(f.payload, rest);
  }

  lemma LongFieldIsRefused(x: Bytes, rest: Bytes)
    requires MAX_FRAME_BYTES < |x| < U32
    ensures TakeField(EncodeU32(|x|) + x + rest) == None
  {
    U32RoundTrip(|x|);
    assert DecodeU32(EncodeU32(|x|) + x + rest) == DecodeU32(EncodeU32(|x|));
  }

  // A proper prefix of an emitted frame decodes to nothing.
  lemma TruncatedIsNothing(f: Frame, n: nat)
    requires Fits(f) && n < |Build(f)|
    ensures Decode(Build(f)[..n]) == None
  {
    var whole := Build(f);
    assert whole == whole[..n] + whole[n..] == Build(f) + [];
    RoundTrip(f, []);
    if Decode(whole[..n]).Some? {
      MoreInput(whole[..n], whole[n..]);
    }
  }

  // More input never changes a frame that is already there.
  lemma MoreInput(s: Bytes, more: Bytes)
    requires Decode(s).Some?
    ensures Decode(s + more) == Some((Decode(s).value.0, Decode(s).value.1 + more))
  {
    var (f, rest) := Decode(s).value;
    Regroup(Build(f), rest, more);
    RoundTrip(f, rest + more);
  }

  // ---- streams ----------------------------------------------------------------

  function BuildAll(fs: seq<Frame>): Bytes {
    if fs == [] then [] else Build(fs[0]) + BuildAll(fs[1..])
  }

  // Every frame a stream yields before it ends, stops mid-frame or turns bad.
  function DecodeAll(s: Bytes): seq<Frame>
    decreases |s|
  {
    match Decode(s)
    case None => []
    case Some((f, rest)) => [f] + DecodeAll(rest)
  }

  // A stream of fitting frames followed by a truncated one, or by nothing at
  // all, yields exactly those frames in order.
  lemma {:induction false} StreamRoundTrip(fs: seq<Frame>, tail: Bytes)
    requires forall i :: 0 <= i < |fs| ==> Fits(fs[i])
    requires Decode(tail) == None
    ensures DecodeAll(BuildAll(fs) + tail) == fs
  {
    if fs == [] {
      assert BuildAll(fs) + tail == tail;
    } else {
      var rest := BuildAll(fs[1..]) + tail;
      assert BuildAll(fs) + tail == Build(fs[0]) + rest;
      RoundTrip(fs[0], rest);
      StreamRoundTrip(fs[1..], tail);
    }
  }

  lemma TruncatedStream(fs: seq<Frame>, last: Frame, n: nat)
    requires forall i :: 0 <= i < |fs| ==> Fits(fs[i])
    requires Fits(last) && n < |Build(last)|
    ensures DecodeAll(BuildAll(fs) + Build(last)[..n]) == fs
  {
    TruncatedIsNothing(last, n);
    StreamRoundTrip(fs, Build(last)[..n]);
  }
}
