/** The codecs in their own form: objects that change a byte buffer and what they remember between
    calls. Every method is tied to the functions of `Wire`. */
module CodecClass {
  import opened Messages
  import opened Layout
  import opened Wire

  /** A growable byte buffer. */
  class BytesMut {
    var bytes: Bytes

    constructor (bytes: Bytes)
      ensures this.bytes == bytes
    {
      this.bytes := bytes;
    }

    method Clear()
      modifies this
      ensures bytes == []
    {
      bytes := [];
    }

    method Extend(more: Bytes)
      modifies this
      ensures bytes == old(bytes) + more
    {
      bytes := bytes + more;
    }

    method SplitTo(n: nat) returns (front: Bytes)
      requires n <= |bytes|
      modifies this
      ensures front == old(bytes)[..n] && bytes == old(bytes)[n..]
    {
      front := bytes[..n];
      bytes := bytes[n..];
    }
  }

  /** `handle_length`: a length is read once and remembered; an incomplete or bad one leaves the buffer
      as it is. */
  method HandleLength(len: Option<u64>, src: BytesMut) returns (result: LengthResult, newLen: Option<u64>)
    modifies src
    ensures result == LengthOf(len, old(src.bytes))
    ensures result.Length? ==> src.bytes == result.rest && newLen == Some(result.length)
    ensures !result.Length? ==> src.bytes == old(src.bytes) && newLen == len
  {
    if len.Some? {
      return Length(len.value, src.bytes), len;
    }
    match ReadVarint(src.bytes) {
      case Value(n, used) =>
        var _ := src.SplitTo(used);
        return Length(n, src.bytes), Some(n);
      case Insufficient =>
        return Unfinished, len;
      case _ =>
        return Malformed, len;
    }
  }

  class SszSnappyInboundCodec {
    const protocol: Protocol
    const framing: Framing
    var len: Option<u64>

    constructor (protocol: Protocol, framing: Framing)
      ensures this.protocol == protocol && this.framing == framing && len == None
    {
      this.protocol, this.framing, len := protocol, framing, None;
    }

    /** `decode`, for requests. */
    method Decode(src: BytesMut) returns (outcome: RequestOutcome)
      modifies this, src
      ensures RequestDecoding(len, src.bytes, outcome) == DecodeRequest(framing, protocol, old(len), old(src.bytes))
    {
      if protocol == MetaDataProtocol {
        return GotRequest(MetaDataRequest);
      }
      var length;
      length, len := HandleLength(len, src);
      if !length.Length? {
        return if length.Unfinished? then AwaitRequest else BadRequest;
      }
      if ResponseLimits(protocol).IsOutOfBounds(length.length, MAX_RPC_SIZE_POST_MERGE) {
        return BadRequest;
      }
      var read := framing.read(length.length, Take(src.bytes, MaxCompressLen(length.length)));
      if read.Payload? {
        len := None;
        var _ := src.SplitTo(read.used);
      }
      return BadRequest;
    }

    /** Appends the response without its result byte; none of them is too long to be sent. */
    method Encode(item: CodedResponse, dst: BytesMut) returns (ok: bool)
      modifies dst
      ensures ok && dst.bytes == old(dst.bytes) + Varint(|Ssz(item)|) + framing.compress(Ssz(item))
    {
      var bytes := Ssz(item);
      HeaderSize(item);
      if |bytes| > MAX_RPC_SIZE_POST_MERGE {
        return false;
      }
      dst.Extend(Varint(|bytes|));
      dst.Extend(framing.compress(bytes));
      return true;
    }
  }

  class BaseInboundCodec {
    const inner: SszSnappyInboundCodec

    constructor (inner: SszSnappyInboundCodec)
      ensures this.inner == inner
    {
      this.inner := inner;
    }

    /** The buffer then holds this response and nothing else, whatever it held before: bytes of an
        earlier response that were not flushed are gone. */
    method Encode(item: CodedResponse, dst: BytesMut) returns (ok: bool)
      modifies dst
      ensures ok && dst.bytes == Encoded(inner.framing, item)
      ensures |dst.bytes| >= 2 && dst.bytes[0] == if item.Success? then 0 else 4
      ensures item.Error? ==> dst.bytes == [4, 0]
    {
      dst.Clear();
      dst.Extend([ResultByte(item)]);
      ok := inner.Encode(item, dst);
      ResponseBytes(inner.framing, item);
      ErrorBytes(inner.framing);
    }
  }

  class SszSnappyOutboundCodec {
    const protocol: Protocol
    const framing: Framing
    var len: Option<u64>

    constructor (protocol: Protocol, framing: Framing)
      ensures this.protocol == protocol && this.framing == framing && len == None
    {
      this.protocol, this.framing, len := protocol, framing, None;
    }

    /** `decode`, for a response whose result byte was 0. */
    method Decode(src: BytesMut) returns (outcome: Outcome)
      modifies this, src
      ensures var d := DecodeBody(framing, protocol, 0, old(len), old(src.bytes));
              outcome == d.outcome && len == d.state.len && src.bytes == d.rest
    {
      var length;
      length, len := HandleLength(len, src);
      if !length.Length? {
        return if length.Unfinished? then NeedMore else Failure;
      }
      if ResponseLimits(protocol).IsOutOfBounds(length.length, MAX_RPC_SIZE_POST_MERGE) {
        return Failure;
      }
      var read := framing.read(length.length, Take(src.bytes, MaxCompressLen(length.length)));
      if read.ReadError? {
        return Failure;
      }
      len := None;
      var _ := src.SplitTo(read.used);
      outcome := HandleResponse(protocol, read.bytes);
    }

    /** `decode_error`, for any other result byte. */
    method DecodeError(ghost code: byte, src: BytesMut) returns (outcome: Outcome)
      requires code != 0
      modifies this, src
      ensures var d := DecodeBody(framing, protocol, code, old(len), old(src.bytes));
              outcome == d.outcome && len == d.state.len && src.bytes == d.rest
    {
      var length;
      length, len := HandleLength(len, src);
      if !length.Length? {
        return if length.Unfinished? then NeedMore else Failure;
      }
      if length.length > MAX_RPC_SIZE_POST_MERGE {
        return Failure;
      }
      var read := framing.read(length.length, Take(src.bytes, MaxCompressLen(length.length)));
      if read.ReadError? {
        return Failure;
      }
      len := None;
      var _ := src.SplitTo(read.used);
      outcome := HandleError(read.bytes);
    }
  }

  class BaseOutboundCodec {
    const inner: SszSnappyOutboundCodec
    var currentResponseCode: Option<byte>

    ghost function State(): DecoderState
      reads this, inner
    {
      DecoderState(currentResponseCode, inner.len)
    }

    constructor (inner: SszSnappyOutboundCodec)
      requires inner.len == None
      ensures this.inner == inner && State() == IDLE
    {
      this.inner := inner;
      currentResponseCode := None;
    }

    method Decode(src: BytesMut) returns (outcome: Outcome)
      modifies this, inner, src
      ensures Decoding(State(), src.bytes, outcome) == Wire.Decode(inner.framing, inner.protocol, old(State()), old(src.bytes))
    {
      if |src.bytes| <= 1 {
        return NeedMore;
      }
      var code;
      if currentResponseCode.Some? {
        code := currentResponseCode.value;
      } else {
        var front := src.SplitTo(1);
        code := front[0];
        currentResponseCode := Some(code);
      }
      if code == 0 {
        outcome := inner.Decode(src);
      } else {
        outcome := inner.DecodeError(code, src);
      }
      CodeKept(inner.framing, inner.protocol, code, old(inner.len), if old(currentResponseCode).Some? then old(src.bytes) else old(src.bytes)[1..]);
      if outcome.Item? {
        currentResponseCode := None;
      }
    }
  }

  /** The result byte is forgotten exactly when an item is returned. */
  lemma CodeKept(f: Framing, p: Protocol, code: byte, len: Option<u64>, src: Bytes)
    ensures var d := DecodeBody(f, p, code, len, src); d.state.code == if d.outcome.Item? then None else Some(code)
  {
  }

  /** Over the objects themselves: encoding a response into a buffer with anything in it, and decoding
      that buffer with anything behind it. */
  method Transmit(encoder: BaseInboundCodec, decoder: BaseOutboundCodec, item: CodedResponse, dst: BytesMut, tail: Bytes)
    returns (outcome: Outcome)
    requires encoder.inner.framing == decoder.inner.framing
    requires decoder.State() == IDLE && Carries(decoder.inner.protocol, item)
    modifies decoder, decoder.inner, dst
    ensures outcome == Item(item) && dst.bytes == tail && decoder.State() == IDLE
  {
    var _ := encoder.Encode(item, dst);
    dst.Extend(tail);
    ResponseRoundTrip(decoder.inner.framing, decoder.inner.protocol, item, tail);
    outcome := decoder.Decode(dst);
  }
}
