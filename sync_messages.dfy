/**
 * The wire messages of block synchronisation: what peers ask for and what
 * they get back, plus the chain data (headers, blocks) those messages carry.
 * Hashes, peer ids and transactions are opaque byte strings here.
 */
module SyncMessages {

  type BlockNumber = nat

  datatype HashValue = HashValue(bytes: seq<bv8>)

  datatype PeerId = PeerId(bytes: seq<bv8>)

  datatype PeerInfo = PeerInfo(id: PeerId)

  datatype SignedUserTransaction = SignedUserTransaction(bytes: seq<bv8>)

  /** Only the two header fields the sync core reads. */
  datatype BlockHeader = BlockHeader(id: HashValue, number: BlockNumber)

  datatype Block = Block(header: BlockHeader, transactions: seq<SignedUserTransaction>)

  datatype HashWithNumber = HashWithNumber(number: BlockNumber, hash: HashValue)

  datatype HashWithBlockHeader = HashWithBlockHeader(hash: HashValue, header: BlockHeader)

  datatype BlockBody = BlockBody(hash: HashValue, transactions: seq<SignedUserTransaction>)

  datatype DataType = Header | Body

  datatype GetHashByNumber = GetHashByNumber(numbers: seq<BlockNumber>)

  datatype GetDataByHash = GetDataByHash(hashs: seq<HashValue>, dataType: DataType)

  /** An inbound sync intent: a new peer was seen, or a peer asked for data. */
  datatype ProcessMessage =
    | NewPeerMsg(peerInfo: PeerInfo)
    | GetHashByNumberMsg(getHashByNumber: GetHashByNumber)
    | GetDataByHashMsg(getDataByHash: GetDataByHash)

  datatype LatestStateMsg = LatestStateMsg(hashHeader: HashWithBlockHeader)

  datatype BatchHashByNumberMsg = BatchHashByNumberMsg(id: HashValue, hashs: seq<HashWithNumber>)

  datatype BatchHeaderMsg = BatchHeaderMsg(headers: seq<HashWithBlockHeader>)

  datatype BatchBodyMsg = BatchBodyMsg(bodies: seq<BlockBody>)

  /** An RPC request as the network layer delivers it; the two data variants wrap a ProcessMessage. */
  datatype RPCRequest =
    | TestRequest(payload: seq<bv8>)
    | GetHashByNumberRequest(process: ProcessMessage)
    | GetDataByHashRequest(process: ProcessMessage)

  datatype RPCResponse =
    | BatchHashByNumberResponse(batch: BatchHashByNumberMsg)
    | BatchHeaderAndBodyResponse(id: HashValue, headerBatch: BatchHeaderMsg, bodyBatch: BatchBodyMsg)

  /** An RPC request together with the peer that sent it. */
  datatype RpcRequestMessage = RpcRequestMessage(peerId: PeerId, request: RPCRequest)

  /** Unsolicited messages pushed to a peer. */
  datatype PeerMessage = LatestStatePeerMsg(latestState: LatestStateMsg)

  /** A `send_peer_message` call: which peer, which message. */
  datatype PeerSend = PeerSend(to: PeerId, message: PeerMessage)

  /** A `response_for` call: which peer, under which request id, which response. */
  datatype Outbound = Outbound(peerId: PeerId, requestId: HashValue, response: RPCResponse)

  /** The request id a response carries inside its payload. */
  function ResponseId(response: RPCResponse): HashValue
  {
    match response
    case BatchHashByNumberResponse(batch) => batch.id
    case BatchHeaderAndBodyResponse(id, _, _) => id
  }
}
