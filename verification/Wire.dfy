/** The response wire format over values: result byte, varint length, framed SSZ payload, as
    `src/rpc/codec/base.rs` and `src/rpc/codec/ssz_snappy.rs` write and read it. Snappy framing is any
    pair of functions that keeps the contract below. */
module Wire {
  import opened Messages
  import opened Layout

  const MAX_RPC_SIZE_POST_MERGE := 10 * 1_048_576
  const MAX_ERROR_LEN := 256

  datatype ReadResult = Payload(bytes: Bytes, used: nat) | ReadError

  /** `compress` is what a `FrameEncoder` has written after `write_all` and `flush`; `read` is
      `read_exact` for so many bytes on a `FrameDecoder`, with the number of source bytes it took. */
  datatype FramePair = FramePair(compress: Bytes -> Bytes, read: (nat, Bytes) -> ReadResult)

  function MaxCompressLen(n: nat): nat {
    32 + n + n / 6
  }

  /** Reads stay in range; a frame fits its limit, is read back whatever follows, and is not read if
      any of it is missing; nothing is written for no bytes. */
  ghost predicate FramingContract(f: FramePair) {
    && (forall n: nat, src :: f.read(n, src).Payload? ==> |f.read(n, src).bytes| == n && f.read(n, src).used <= |src|)
    && (forall b :: |f.compress(b)| <= MaxCompressLen(|b|))
    && (forall b, tail :: f.read(|b|, f.compress(b) + tail) == Payload(b, |f.compress(b)|))
    && (forall b, k :: 0 <= k < |f.compress(b)| ==> f.read(|b|, f.compress(b)[..k]) == ReadError)
    && f.compress([]) == []
  }

  /** Frames that hold their bytes as they are, to show that the contract can be met. */
  const STORED := FramePair(b => b, (n: nat, src: Bytes) => if n <= |src| then Payload(src[..n], n) else ReadError)

  type Framing = f: FramePair | FramingContract(f) witness STORED

  datatype Protocol = Status | Goodbye | BlocksByRange | BlocksByRoot | PingProtocol | MetaDataProtocol | LightClientBootstrap

  datatype RpcLimits = RpcLimits(min: nat, max: nat) {
    predicate IsOutOfBounds(length: nat, maxRpcSize: nat) {
      length > (if max < maxRpcSize then max else maxRpcSize) || length < min
    }
  }

  function ResponseLimits(p: Protocol): RpcLimits {
    match p
    case Status => RpcLimits(STATUS_SIZE, STATUS_SIZE)
    case PingProtocol => RpcLimits(PING_SIZE, PING_SIZE)
    case MetaDataProtocol => RpcLimits(METADATA_SIZE, METADATA_SIZE)
    case _ => RpcLimits(0, 0)
  }

  // ---------------------------------------------------------------------------------------------
  // Encoding

  function ResultByte(item: CodedResponse): byte {
    if item.Success? then 0 else 4
  }

  function Ssz(item: CodedResponse): Bytes {
    match item
    case Success(StatusResponse(status)) => StatusSsz(status)
    case Success(Pong(ping)) => U64Bytes(ping.data)
    case Success(MetaDataResponse(metaData)) => MetaDataSsz(metaData)
    case Error => []
  }

  function Encoded(f: FramePair, item: CodedResponse): Bytes {
    [ResultByte(item)] + Varint(|Ssz(item)|) + f.compress(Ssz(item))
  }

  /** The bytes of a response: 0 and the payload's length, or 4 and 0 for an error, then the frames. */
  lemma ResponseBytes(f: FramePair, item: CodedResponse)
    ensures var b := Encoded(f, item);
            && |b| >= 2 && b[0] == (if item.Success? then 0 else 4)
            && b[1] == (match item
                        case Success(StatusResponse(_)) => 84
                        case Success(Pong(_)) => 8
                        case Success(MetaDataResponse(_)) => 17
                        case Error => 0)
            && b[2..] == f.compress(Ssz(item))
  {
    assert Varint(|Ssz(item)|) == [|Ssz(item)|];
  }

  lemma ErrorBytes(f: Framing)
    ensures Encoded(f, Error) == [4, 0]
  {
    assert Varint(0) == [0];
  }

  /** What is framed: a status or metadata with its fields at their offsets, or a number of eight bytes. */
  lemma PayloadBytes(item: CodedResponse)
    ensures var b := Ssz(item);
            match item
            case Success(StatusResponse(s)) =>
              && |b| == 84 && b[0..4] == s.forkDigest && b[4..36] == s.finalizedRoot && SpellsU64(b[36..44], s.finalizedEpoch)
              && b[44..76] == s.headRoot && SpellsU64(b[76..84], s.headSlot)
            case Success(Pong(ping)) => SpellsU64(b, ping.data)
            case Success(MetaDataResponse(m)) =>
              |b| == 17 && SpellsU64(b[0..8], m.seqNumber) && b[8..16] == m.attnets && b[16] == m.syncnets
            case Error => b == []
  {
    match item
    case Success(StatusResponse(s)) => StatusLayout(s);
    case Success(Pong(ping)) => U64Layout(ping.data);
    case Success(MetaDataResponse(m)) => MetaDataLayout(m);
    case Error =>
  }

  // ---------------------------------------------------------------------------------------------
  // Decoding

  /** What a decoder keeps between calls: the result byte and the length already read. */
  datatype DecoderState = DecoderState(code: Option<byte>, len: Option<u64>)

  const IDLE := DecoderState(None, None)

  /** `Panic` is a failed `unwrap`. */
  datatype Outcome = Item(item: CodedResponse) | NeedMore | Failure | Panic

  datatype Decoding = Decoding(state: DecoderState, rest: Bytes, outcome: Outcome)

  datatype LengthResult = Length(length: u64, rest: Bytes) | Unfinished | Malformed

  function LengthOf(len: Option<u64>, src: Bytes): LengthResult {
    if len.Some? then Length(len.value, src)
    else
      match ReadVarint(src)
      case Value(n, used) => Length(n, src[used..])
      case Insufficient => Unfinished
      case _ => Malformed
  }

  function Take(src: Bytes, limit: nat): Bytes {
    if |src| <= limit then src else src[..limit]
  }

  function ReadPayload(f: FramePair, length: nat, src: Bytes): ReadResult {
    f.read(length, Take(src, MaxCompressLen(length)))
  }

  /** `handle_response` on a buffer of the right length. */
  function HandleResponse(p: Protocol, b: Bytes): Outcome
    requires |b| == ResponseLimits(p).max
  {
    match p
    case Status => Item(Success(StatusResponse(ReadStatus(b))))
    case PingProtocol => Item(Success(Pong(Ping(U64(b)))))
    case MetaDataProtocol =>
      var metaData := ReadMetaData(b);
      if metaData.Some? then Item(Success(MetaDataResponse(metaData.value))) else Panic
    case _ => Failure
  }

  function HandleError(b: Bytes): Outcome {
    if |b| <= MAX_ERROR_LEN then Item(Error) else Failure
  }

  predicate Refused(p: Protocol, code: byte, length: nat) {
    if code == 0 then ResponseLimits(p).IsOutOfBounds(length, MAX_RPC_SIZE_POST_MERGE)
    else length > MAX_RPC_SIZE_POST_MERGE
  }

  function Handled(p: Protocol, code: byte, b: Bytes): Outcome
    requires !Refused(p, code, |b|)
  {
    if code == 0 then HandleResponse(p, b) else HandleError(b)
  }

  /** The inner decoders, `decode` for a result byte of 0 and `decode_error` for any other. */
  function DecodeBody(f: Framing, p: Protocol, code: byte, len: Option<u64>, src: Bytes): Decoding {
    match LengthOf(len, src)
    case Unfinished => Decoding(DecoderState(Some(code), len), src, NeedMore)
    case Malformed => Decoding(DecoderState(Some(code), len), src, Failure)
    case Length(length, rest) => DecodePayload(f, p, code, length, rest)
  }

  function DecodePayload(f: Framing, p: Protocol, code: byte, length: u64, src: Bytes): Decoding {
    if Refused(p, code, length) then Decoding(DecoderState(Some(code), Some(length)), src, Failure)
    else
      match ReadPayload(f, length, src)
      case ReadError => Decoding(DecoderState(Some(code), Some(length)), src, Failure)
      case Payload(b, used) =>
        var outcome := Handled(p, code, b);
        Decoding(DecoderState(if outcome.Item? then None else Some(code), None), src[used..], outcome)
  }

  /** One call of the outbound decoder. */
  function Decode(f: Framing, p: Protocol, state: DecoderState, src: Bytes): Decoding {
    if |src| <= 1 then Decoding(state, src, NeedMore)
    else if state.code.Some? then DecodeBody(f, p, state.code.value, state.len, src)
    else DecodeBody(f, p, src[0], state.len, src[1..])
  }

  // ---------------------------------------------------------------------------------------------
  // Round trip

  /** The responses a protocol carries. */
  predicate Carries(p: Protocol, item: CodedResponse) {
    match item
    case Error => true
    case Success(StatusResponse(_)) => p == Status
    case Success(Pong(_)) => p == PingProtocol
    case Success(MetaDataResponse(_)) => p == MetaDataProtocol
  }

  lemma HeaderSize(item: CodedResponse)
    ensures |Ssz(item)| <= STATUS_SIZE && Varint(|Ssz(item)|) == [|Ssz(item)|]
  {
  }

  lemma HandledBack(p: Protocol, item: CodedResponse)
    requires Carries(p, item)
    ensures !Refused(p, ResultByte(item), |Ssz(item)|) && Handled(p, ResultByte(item), Ssz(item)) == Item(item)
  {
    match item
    case Error =>
    case Success(StatusResponse(s)) => StatusRoundTrip(s);
    case Success(Pong(ping)) => U64RoundTrip(ping.data);
    case Success(MetaDataResponse(m)) => MetaDataRoundTrip(m);
  }

  lemma FrameReadBack(f: Framing, b: Bytes, tail: Bytes)
    ensures ReadPayload(f, |b|, f.compress(b) + tail) == Payload(b, |f.compress(b)|)
  {
    var frame, limit := f.compress(b), MaxCompressLen(|b|);
    var src := frame + tail;
    if |src| > limit { assert src[..limit] == frame + tail[..limit - |frame|]; }
  }

  lemma FrameIncomplete(f: Framing, b: Bytes, k: nat)
    requires k < |f.compress(b)|
    ensures ReadPayload(f, |b|, f.compress(b)[..k]) == ReadError
  {
  }

  /** A decoder between messages, given the bytes of a response its protocol carries and any further
      bytes, returns that response, leaves exactly those further bytes, and is between messages again. */
  lemma ResponseRoundTrip(f: Framing, p: Protocol, item: CodedResponse, tail: Bytes)
    requires Carries(p, item)
    ensures Decode(f, p, IDLE, Encoded(f, item) + tail) == Decoding(IDLE, tail, Item(item))
  {
    var b := Ssz(item);
    var frame, code := f.compress(b), ResultByte(item);
    var src := Encoded(f, item) + tail;
    HeaderSize(item);
    assert src[0] == code && src[1..] == Varint(|b|) + (frame + tail);
    VarintRoundTrip(|b|, frame + tail);
    assert src[1..][1..] == frame + tail;
    HandledBack(p, item);
    FrameReadBack(f, b, tail);
    assert (frame + tail)[|frame|..] == tail;
  }

  /** A peer's whole stream of responses, and what repeated calls of the decoder make of it. */
  function StreamOf(f: FramePair, items: seq<CodedResponse>): Bytes {
    if items == [] then [] else Encoded(f, items[0]) + StreamOf(f, items[1..])
  }

  ghost predicate DecodesTo(f: Framing, p: Protocol, state: DecoderState, src: Bytes, items: seq<CodedResponse>, rest: Bytes)
    decreases |items|
  {
    if items == [] then state == IDLE && src == rest
    else
      var d := Decode(f, p, state, src);
      d.outcome == Item(items[0]) && DecodesTo(f, p, d.state, d.rest, items[1..], rest)
  }

  lemma {:induction false} StreamRoundTrip(f: Framing, p: Protocol, items: seq<CodedResponse>, tail: Bytes)
    requires forall i :: 0 <= i < |items| ==> Carries(p, items[i])
    ensures DecodesTo(f, p, IDLE, StreamOf(f, items) + tail, items, tail)
    decreases |items|
  {
    if items == [] {
      assert StreamOf(f, items) + tail == tail;
    } else {
      var rest := StreamOf(f, items[1..]) + tail;
      StreamHead(f, items, tail);
      ResponseRoundTrip(f, p, items[0], rest);
      StreamRoundTrip(f, p, items[1..], tail);
    }
  }

  lemma StreamHead(f: FramePair, items: seq<CodedResponse>, tail: Bytes)
    requires items != []
    ensures StreamOf(f, items) + tail == Encoded(f, items[0]) + (StreamOf(f, items[1..]) + tail)
  {
  }

  /** A response that arrives in pieces: at most one byte is left alone, the whole is decoded, anything
      in between is an error rather than a wait for more. */
  lemma PartialResponse(f: Framing, p: Protocol, item: CodedResponse, k: nat)
    requires Carries(p, item) && k <= |Encoded(f, item)|
    ensures var src := Encoded(f, item)[..k];
            var d := Decode(f, p, IDLE, src);
            && (d.outcome == NeedMore <==> k <= 1) && (k <= 1 ==> d.state == IDLE && d.rest == src)
            && (d.outcome == Item(item) <==> k == |Encoded(f, item)|)
            && (d.outcome == Failure <==> 1 < k < |Encoded(f, item)|)
  {
    var whole := Encoded(f, item);
    var src := whole[..k];
    HeaderSize(item);
    if k == |whole| {
      assert src == whole + [];
      ResponseRoundTrip(f, p, item, []);
    } else if k > 1 {
      var b := Ssz(item);
      var part := f.compress(b)[..k - 2];
      assert src[0] == ResultByte(item) && src[1..] == Varint(|b|) + part;
      VarintRoundTrip(|b|, part);
      assert src[1..][1..] == part;
      HandledBack(p, item);
      FrameIncomplete(f, b, k - 2);
    }
  }

  // ---------------------------------------------------------------------------------------------
  // What a decoder accepts

  lemma HandledMeans(p: Protocol, code: byte, b: Bytes)
    requires !Refused(p, code, |b|)
    ensures var outcome := Handled(p, code, b);
            && (outcome.Item? ==> Carries(p, outcome.item) && (outcome.item.Success? <==> code == 0))
            && (outcome.Item? && code == 0 ==> Ssz(outcome.item) == b)
            && (outcome.Panic? <==> code == 0 && p == MetaDataProtocol && b[16] >= 16)
  {
    if code == 0 {
      match p
      case Status => StatusCanonical(b);
      case PingProtocol => U64Canonical(b);
      case MetaDataProtocol => if b[16] < 16 { MetaDataCanonical(b); }
      case _ =>
    }
  }

  /** `b` spells a response: a result byte and a length, then frames of which so many bytes are the
      response's SSZ, or, for an error, up to 256 bytes of any text. */
  predicate Spells(f: FramePair, b: Bytes, item: CodedResponse) {
    && |b| > 1 && (b[0] == 0 <==> item.Success?)
    && var length := ReadVarint(b[1..]);
       && length.Value?
       && var r := ReadPayload(f, length.n, b[1..][length.used..]);
          r.Payload? && if item.Success? then r.bytes == Ssz(item) else |r.bytes| <= 256
  }

  lemma PayloadAccepted(f: Framing, p: Protocol, code: byte, length: u64, src: Bytes, item: CodedResponse)
    ensures DecodePayload(f, p, code, length, src).outcome == Item(item) <==>
              && Carries(p, item) && (code == 0 <==> item.Success?)
              && var r := ReadPayload(f, length, src);
                 r.Payload? && if item.Success? then r.bytes == Ssz(item) else |r.bytes| <= 256
  {
    if Carries(p, item) { HandledBack(p, item); }
    if !Refused(p, code, length) && ReadPayload(f, length, src).Payload? {
      HandledMeans(p, code, ReadPayload(f, length, src).bytes);
    }
  }

  /** The decoder accepts exactly the spellings of the responses its protocol carries, and returns the
      response spelled. */
  lemma AcceptsExactlySpellings(f: Framing, p: Protocol, src: Bytes, item: CodedResponse)
    ensures Decode(f, p, IDLE, src).outcome == Item(item) <==> Carries(p, item) && Spells(f, src, item)
  {
    if |src| > 1 {
      var length := ReadVarint(src[1..]);
      if length.Value? { PayloadAccepted(f, p, src[0], length.n, src[1..][length.used..], item); }
    }
  }

  lemma PayloadPanics(f: Framing, p: Protocol, code: byte, length: u64, src: Bytes)
    ensures DecodePayload(f, p, code, length, src).outcome.Panic? <==>
              && p == MetaDataProtocol && code == 0 && length == METADATA_SIZE
              && var r := ReadPayload(f, length, src); r.Payload? && r.bytes[16] >= 16
  {
    if !Refused(p, code, length) && ReadPayload(f, length, src).Payload? {
      HandledMeans(p, code, ReadPayload(f, length, src).bytes);
    }
  }

  /** The result byte and the bytes behind it, as a decoder in this state sees them. */
  function CodeOf(state: DecoderState, src: Bytes): byte
    requires src != []
  {
    if state.code.Some? then state.code.value else src[0]
  }

  function BodyOf(state: DecoderState, src: Bytes): Bytes
    requires src != []
  {
    if state.code.Some? then src else src[1..]
  }

  /** A successful response of 17 bytes of which the last has one of its upper four bits set. */
  predicate HasStrayBits(f: FramePair, state: DecoderState, src: Bytes) {
    && |src| > 1 && CodeOf(state, src) == 0
    && var length := LengthOf(state.len, BodyOf(state, src));
       && length.Length? && length.length == METADATA_SIZE
       && var r := ReadPayload(f, METADATA_SIZE, length.rest); r.Payload? && |r.bytes| == 17 && r.bytes[16] >= 16
  }

  /** Whatever a decoder remembers and whatever it is given, it panics if and only if it decodes
      metadata with a stray bit. */
  lemma PanicsExactlyOnStrayBits(f: Framing, p: Protocol, state: DecoderState, src: Bytes)
    ensures Decode(f, p, state, src).outcome.Panic? <==> p == MetaDataProtocol && HasStrayBits(f, state, src)
  {
    if |src| > 1 {
      var length := LengthOf(state.len, BodyOf(state, src));
      if length.Length? { PayloadPanics(f, p, CodeOf(state, src), length.length, length.rest); }
    }
  }

  /** A peer brings it about with any 17 bytes that are not the encoding of metadata. */
  lemma StrayBitsPanic(f: Framing, b: Bytes, tail: Bytes)
    requires |b| == METADATA_SIZE
    ensures var src := [0] + Varint(METADATA_SIZE) + f.compress(b) + tail;
            Decode(f, MetaDataProtocol, IDLE, src).outcome.Panic? <==> forall m: MetaData :: MetaDataSsz(m) != b
  {
    var frame := f.compress(b);
    var src := [0] + Varint(METADATA_SIZE) + frame + tail;
    assert src[1..] == Varint(METADATA_SIZE) + (frame + tail);
    VarintRoundTrip(METADATA_SIZE, frame + tail);
    assert src[1..][1..] == frame + tail;
    FrameReadBack(f, b, tail);
    PanicsExactlyOnStrayBits(f, MetaDataProtocol, IDLE, src);
    NotMetaData(b);
  }

  lemma NotMetaData(b: Bytes)
    requires |b| == METADATA_SIZE
    ensures b[16] >= 16 <==> forall m: MetaData :: MetaDataSsz(m) != b
  {
    if b[16] < 16 { MetaDataCanonical(b); }
    forall m: MetaData | MetaDataSsz(m) == b ensures b[16] < 16 {
      assert MetaDataSsz(m)[16] == m.syncnets;
    }
  }

  lemma SpelledWith(f: Framing, p: Protocol, item: CodedResponse, length: Bytes, tail: Bytes)
    requires Carries(p, item) && length != []
    requires ReadVarint(length + (f.compress(Ssz(item)) + tail)) == Value(|Ssz(item)|, |length|)
    ensures Decode(f, p, IDLE, [ResultByte(item)] + length + f.compress(Ssz(item)) + tail).outcome == Item(item)
  {
    var frame := f.compress(Ssz(item));
    var src := [ResultByte(item)] + length + frame + tail;
    assert src[0] == ResultByte(item) && src[1..] == length + (frame + tail);
    assert src[1..][|length|..] == frame + tail;
    FrameReadBack(f, Ssz(item), tail);
    AcceptsExactlySpellings(f, p, src, item);
  }

  /** An over-long length is accepted in a response, too. */
  lemma OverlongResponse(f: Framing, p: Protocol, item: CodedResponse, tail: Bytes)
    requires Carries(p, item)
    ensures var src := [ResultByte(item)] + Varint(|Ssz(item)| + U64_BOUND) + f.compress(Ssz(item)) + tail;
            Decode(f, p, IDLE, src).outcome == Item(item)
  {
    HeaderSize(item);
    OverlongIsCut(|Ssz(item)|, f.compress(Ssz(item)) + tail);
    SpelledWith(f, p, item, Varint(|Ssz(item)| + U64_BOUND), tail);
  }

  /** A decoder waits for more if and only if it has at most one byte, or not yet the last byte of a length
      of fewer than ten; then it has consumed nothing but the result byte, which it remembers. */
  lemma WaitsExactly(f: Framing, p: Protocol, state: DecoderState, src: Bytes)
    ensures var d := Decode(f, p, state, src);
            && (d.outcome.NeedMore? <==>
                  || |src| <= 1
                  || (&& state.len.None? && |BodyOf(state, src)| < 10
                      && forall i :: 0 <= i < |BodyOf(state, src)| ==> BodyOf(state, src)[i] >= 128))
            && (d.outcome.NeedMore? ==>
                  && d.state.len == state.len
                  && (|src| <= 1 ==> d.rest == src && d.state == state)
                  && (|src| > 1 ==> d.rest == BodyOf(state, src) && d.state.code == Some(CodeOf(state, src))))
  {
    if |src| > 1 {
      var body := BodyOf(state, src);
      InsufficientIs(body, 0);
      var length := LengthOf(state.len, body);
      if length.Length? { NeverWaits(f, p, CodeOf(state, src), length.length, length.rest); }
    }
  }

  lemma NeverWaits(f: Framing, p: Protocol, code: byte, length: u64, src: Bytes)
    ensures !DecodePayload(f, p, code, length, src).outcome.NeedMore?
  {
  }

  /** A payload longer than 10 MiB, or of any length but the protocol's own, is refused before anything of
      it is read; a shorter error text is read in one piece of at most 32 + n + n/6 bytes. */
  lemma SizeLimits(f: Framing, p: Protocol, code: byte, length: u64, src: Bytes)
    ensures var d := DecodePayload(f, p, code, length, src);
            var own := match p case Status => 84 case PingProtocol => 8 case MetaDataProtocol => 17 case _ => 0;
            if (if code == 0 then length != own else length > 10_485_760) then
              d == Decoding(DecoderState(Some(code), Some(length)), src, Failure)
            else
              var limit := 32 + length + length / 6;
              var r := f.read(length, if |src| <= limit then src else src[..limit]);
              && d.state.len == (if r.Payload? then None else Some(length))
              && d.rest == (if r.Payload? then src[r.used..] else src)
  {
  }

  // ---------------------------------------------------------------------------------------------
  // Requests

  datatype RequestOutcome = GotRequest(request: Request) | AwaitRequest | BadRequest

  datatype RequestDecoding = RequestDecoding(len: Option<u64>, rest: Bytes, outcome: RequestOutcome)

  /** One call of the inbound decoder, which has no case for a payload it could read. */
  function DecodeRequest(f: Framing, p: Protocol, len: Option<u64>, src: Bytes): RequestDecoding {
    if p == MetaDataProtocol then RequestDecoding(len, src, GotRequest(MetaDataRequest))
    else
      match LengthOf(len, src)
      case Unfinished => RequestDecoding(len, src, AwaitRequest)
      case Malformed => RequestDecoding(len, src, BadRequest)
      case Length(length, rest) =>
        if ResponseLimits(p).IsOutOfBounds(length, MAX_RPC_SIZE_POST_MERGE) then
          RequestDecoding(Some(length), rest, BadRequest)
        else
          match ReadPayload(f, length, rest)
          case ReadError => RequestDecoding(Some(length), rest, BadRequest)
          case Payload(_, used) => RequestDecoding(None, rest[used..], BadRequest)
  }

  /** A decoder for any other protocol waits exactly for the rest of a length of fewer than ten bytes, and
      else refuses. */
  lemma RequestsAreRefused(f: Framing, p: Protocol, len: Option<u64>, src: Bytes)
    requires p != MetaDataProtocol
    ensures var d := DecodeRequest(f, p, len, src);
            var unfinished := len.None? && |src| < 10 && forall i :: 0 <= i < |src| ==> src[i] >= 128;
            d.outcome == (if unfinished then AwaitRequest else BadRequest) && (unfinished ==> d.len == len && d.rest == src)
  {
    InsufficientIs(src, 0);
  }

  /** It refuses any length but the protocol's own unread, and otherwise takes a payload that can be read
      off the buffer first. */
  lemma RequestsAreConsumed(f: Framing, p: Protocol, len: Option<u64>, src: Bytes)
    requires p != MetaDataProtocol && LengthOf(len, src).Length?
    ensures var d, length, rest := DecodeRequest(f, p, len, src), LengthOf(len, src).length, LengthOf(len, src).rest;
            var own := match p case Status => 84 case PingProtocol => 8 case _ => 0;
            var limit := 32 + length + length / 6;
            var r := f.read(length, if |rest| <= limit then rest else rest[..limit]);
            if length == own && r.Payload? then d.len == None && d.rest == rest[r.used..]
            else d.len == Some(length) && d.rest == rest
  {
  }

  /** `decode` called again and again, each time with some more bytes behind what was left. */
  ghost predicate RequestsFrom(f: Framing, p: Protocol, len: Option<u64>, left: Bytes, chunks: seq<Bytes>, outcomes: seq<RequestOutcome>)
    decreases |chunks|
  {
    if chunks == [] then outcomes == []
    else
      var d := DecodeRequest(f, p, len, left + chunks[0]);
      && outcomes != [] && outcomes[0] == d.outcome
      && RequestsFrom(f, p, d.len, d.rest, chunks[1..], outcomes[1..])
  }

  /** The decoder as it is produces metadata requests only: whatever arrives, in whatever pieces, a
      decoder for another protocol never returns a request. */
  lemma {:induction false} OnlyMetaDataRequests(
    f: Framing, p: Protocol, len: Option<u64>, left: Bytes, chunks: seq<Bytes>, outcomes: seq<RequestOutcome>)
    requires RequestsFrom(f, p, len, left, chunks, outcomes)
    ensures |outcomes| == |chunks|
    ensures forall i :: 0 <= i < |outcomes| ==>
              if p == MetaDataProtocol then outcomes[i] == GotRequest(MetaDataRequest) else !outcomes[i].GotRequest?
    decreases |chunks|
  {
    if chunks != [] {
      var d := DecodeRequest(f, p, len, left + chunks[0]);
      OnlyMetaDataRequests(f, p, d.len, d.rest, chunks[1..], outcomes[1..]);
    }
  }
}
