/** Shared vocabulary of the req/resp domain: `src/rpc/methods.rs` and the message tables of
    `src/rpc/protocol.rs`. */
module Messages {

  datatype Option<+T> = None | Some(value: T)

  type byte = x: int | 0 <= x < 256

  type Bytes = seq<byte>

  /** A `[u8; 4]`, such as a fork digest. */
  type Bytes4 = b: Bytes | |b| == 4 witness [0, 0, 0, 0]

  /** A 32-byte hash tree root. */
  type Root = b: Bytes | |b| == 32 witness seq(32, i => 0)

  /** A `BitVector<U64>` is stored as its eight bytes. */
  type Bytes8 = b: Bytes | |b| == 8 witness seq(8, i => 0)

  const U64_BOUND := 0x1_0000_0000_0000_0000

  type u64 = x: int | 0 <= x < 0x1_0000_0000_0000_0000

  datatype StatusMessage = StatusMessage(
    forkDigest: Bytes4,
    finalizedRoot: Root,
    finalizedEpoch: u64,
    headRoot: Root,
    headSlot: u64)

  datatype Ping = Ping(data: u64)

  /** `syncnets` is a `BitVector<U4>`: one byte whose upper four bits are clear. */
  type Nibble = x: int | 0 <= x < 16

  datatype MetaData = MetaData(seqNumber: u64, attnets: Bytes8, syncnets: Nibble)

  datatype RPCResponse =
    | StatusResponse(status: StatusMessage)
    | Pong(ping: Ping)
    | MetaDataResponse(metaData: MetaData)

  datatype CodedResponse = Success(response: RPCResponse) | Error {
    predicate CloseAfter() { !Success? }
  }

  /** The payload of both `InboundRequest` and `OutboundRequest`, which have the same cases. */
  datatype Request =
    | StatusRequest(status: StatusMessage)
    | Goodbye(reason: u64)
    | PingRequest(ping: Ping)
    | MetaDataRequest

  /** The table this repository uses. The handler is modelled for an arbitrary table. */
  function ExpectedResponses(request: Request): nat {
    if request.Goodbye? then 0 else 1
  }
}
