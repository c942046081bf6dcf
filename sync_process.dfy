/**
 * The block-sync processor and the two handlers of the process actor.
 *
 * The chain actor is a read-only value (ChainReader); the cryptographic hash
 * of a block and the id of an RPC request are uninterpreted function
 * parameters. A missing block or header, which the source unwraps and so
 * aborts the spawned task, is an explicit failure (None): no response leaves
 * the node. Sends are returned as values instead of performed.
 */
module SyncProcess {
  import opened Wrappers
  import opened SyncMessages

  /** The chain state the processor queries: its head and three point lookups. */
  datatype ChainReader = ChainReader(
    head: Block,
    blocksByNumber: map<BlockNumber, Block>,
    headersByHash: map<HashValue, BlockHeader>,
    blocksByHash: map<HashValue, Block>)

  /** Every lookup returns a block or header that is indexed by its own number or id. */
  ghost predicate WellIndexed(chain: ChainReader)
  {
    && (forall n :: n in chain.blocksByNumber ==> chain.blocksByNumber[n].header.number == n)
    && (forall h :: h in chain.headersByHash ==> chain.headersByHash[h].id == h)
    && (forall h :: h in chain.blocksByHash ==> chain.blocksByHash[h].header.id == h)
  }

  // ---------------------------------------------------------------------------
  // Processor: the batch specifications

  /** The (number, hash) pair the hash-by-number batch reports for a block. */
  function NumberedHash(block: Block): HashWithNumber
  {
    HashWithNumber(block.header.number, block.header.id)
  }

  predicate AllNumbersKnown(chain: ChainReader, numbers: seq<BlockNumber>)
  {
    forall i :: 0 <= i < |numbers| ==> numbers[i] in chain.blocksByNumber
  }

  predicate AllHeadersKnown(chain: ChainReader, hashs: seq<HashValue>)
  {
    forall i :: 0 <= i < |hashs| ==> hashs[i] in chain.headersByHash
  }

  /**
   * The hash-by-number batch: all or nothing. It succeeds exactly when every
   * number has a block, and then it is position-for-position the pairs of
   * those blocks.
   */
  function HashesByNumber(chain: ChainReader, numbers: seq<BlockNumber>): (r: Option<seq<HashWithNumber>>)
    ensures r.Some? <==> AllNumbersKnown(chain, numbers)
    ensures r.Some? ==> |r.value| == |numbers|
    ensures r.Some? ==> forall i :: 0 <= i < |numbers| ==>
              r.value[i] == NumberedHash(chain.blocksByNumber[numbers[i]])
  {
    if numbers == [] then Some([])
    else if numbers[0] !in chain.blocksByNumber then None
    else
      match HashesByNumber(chain, numbers[1..])
      case None => None
      case Some(rest) => Some([NumberedHash(chain.blocksByNumber[numbers[0]])] + rest)
  }

  /**
   * The header batch: all or nothing. It succeeds exactly when every hash has
   * a header, and then entry i pairs hashs[i] with its header.
   */
  function HeadersByHash(chain: ChainReader, hashs: seq<HashValue>): (r: Option<seq<HashWithBlockHeader>>)
    ensures r.Some? <==> AllHeadersKnown(chain, hashs)
    ensures r.Some? ==> |r.value| == |hashs|
    ensures r.Some? ==> forall i :: 0 <= i < |hashs| ==>
              r.value[i] == HashWithBlockHeader(hashs[i], chain.headersByHash[hashs[i]])
  {
    if hashs == [] then Some([])
    else if hashs[0] !in chain.headersByHash then None
    else
      match HeadersByHash(chain, hashs[1..])
      case None => None
      case Some(rest) => Some([HashWithBlockHeader(hashs[0], chain.headersByHash[hashs[0]])] + rest)
  }

  /** The transactions reported for one hash: the block's when known, none otherwise. */
  function TransactionsOf(chain: ChainReader, hash: HashValue): seq<SignedUserTransaction>
  {
    if hash in chain.blocksByHash then chain.blocksByHash[hash].transactions else []
  }

  /**
   * The body batch: best effort. It never fails, has one entry per hash in
   * the same order, and an unknown hash gets an empty transaction list.
   */
  function BodiesByHash(chain: ChainReader, hashs: seq<HashValue>): (r: seq<BlockBody>)
    ensures |r| == |hashs|
    ensures forall i :: 0 <= i < |hashs| ==> r[i].hash == hashs[i]
    ensures forall i :: 0 <= i < |hashs| && hashs[i] in chain.blocksByHash ==>
              r[i].transactions == chain.blocksByHash[hashs[i]].transactions
    ensures forall i :: 0 <= i < |hashs| && hashs[i] !in chain.blocksByHash ==>
              r[i].transactions == []
  {
    if hashs == [] then []
    else [BlockBody(hashs[0], TransactionsOf(chain, hashs[0]))] + BodiesByHash(chain, hashs[1..])
  }

  /** The head-block announcement. */
  function LatestState(chain: ChainReader, blockHash: Block -> HashValue): (m: LatestStateMsg)
    ensures m.hashHeader.hash == blockHash(chain.head)
    ensures m.hashHeader.header == chain.head.header
  {
    LatestStateMsg(HashWithBlockHeader(blockHash(chain.head), chain.head.header))
  }

  // ---------------------------------------------------------------------------
  // Processor: the batch handlers, as the loops that build them

  method HandleGetHashByNumberMsg(reqId: HashValue, chain: ChainReader, msg: GetHashByNumber)
    returns (r: Option<BatchHashByNumberMsg>)
    ensures r.Some? <==> AllNumbersKnown(chain, msg.numbers)
    ensures r.Some? ==> r.value.id == reqId
    ensures r.Some? ==> r.value.hashs == HashesByNumber(chain, msg.numbers).value
  {
    var hashs: seq<HashWithNumber> := [];
    var i := 0;
    while i < |msg.numbers|
      invariant 0 <= i <= |msg.numbers|
      invariant |hashs| == i
      invariant forall k :: 0 <= k < i ==> msg.numbers[k] in chain.blocksByNumber
      invariant forall k :: 0 <= k < i ==> hashs[k] == NumberedHash(chain.blocksByNumber[msg.numbers[k]])
    {
      var number := msg.numbers[i];
      if number !in chain.blocksByNumber {
        return None;
      }
      var block := chain.blocksByNumber[number];
      hashs := hashs + [HashWithNumber(block.header.number, block.header.id)];
      i := i + 1;
    }
    r := Some(BatchHashByNumberMsg(reqId, hashs));
  }

  method HandleGetHeaderByHashMsg(chain: ChainReader, msg: GetDataByHash) returns (r: Option<BatchHeaderMsg>)
    ensures r.Some? <==> AllHeadersKnown(chain, msg.hashs)
    ensures r.Some? ==> r.value.headers == HeadersByHash(chain, msg.hashs).value
  {
    var headers: seq<HashWithBlockHeader> := [];
    var i := 0;
    while i < |msg.hashs|
      invariant 0 <= i <= |msg.hashs|
      invariant |headers| == i
      invariant forall k :: 0 <= k < i ==> msg.hashs[k] in chain.headersByHash
      invariant forall k :: 0 <= k < i ==>
                  headers[k] == HashWithBlockHeader(msg.hashs[k], chain.headersByHash[msg.hashs[k]])
    {
      var hash := msg.hashs[i];
      if hash !in chain.headersByHash {
        return None;
      }
      var header := chain.headersByHash[hash];
      headers := headers + [HashWithBlockHeader(hash, header)];
      i := i + 1;
    }
    r := Some(BatchHeaderMsg(headers));
  }

  method HandleGetBodyByHashMsg(chain: ChainReader, msg: GetDataByHash) returns (r: BatchBodyMsg)
    ensures r.bodies == BodiesByHash(chain, msg.hashs)
  {
    var bodies: seq<BlockBody> := [];
    var i := 0;
    while i < |msg.hashs|
      invariant 0 <= i <= |msg.hashs|
      invariant |bodies| == i
      invariant forall k :: 0 <= k < i ==> bodies[k] == BodiesByHash(chain, msg.hashs)[k]
    {
      var hash := msg.hashs[i];
      var transactions := if hash in chain.blocksByHash then chain.blocksByHash[hash].transactions else [];
      bodies := bodies + [BlockBody(hash, transactions)];
      i := i + 1;
    }
    r := BatchBodyMsg(bodies);
  }

  // ---------------------------------------------------------------------------
  // The actor handlers

  /** A ProcessMessage arriving as an RPC is never a new-peer event. */
  predicate IsRoutable(request: RPCRequest)
  {
    !request.TestRequest? ==> !request.process.NewPeerMsg?
  }

  /** The response a routable data request gets, if any: the processor part of the RPC handler. */
  function AnswerProcessMessage(chain: ChainReader, peerId: PeerId, id: HashValue, process: ProcessMessage)
    : (r: Option<Outbound>)
    requires !process.NewPeerMsg?
    ensures r.Some? ==> r.value.peerId == peerId && r.value.requestId == id && ResponseId(r.value.response) == id
  {
    match process
    case GetHashByNumberMsg(m) =>
      (match HashesByNumber(chain, m.numbers)
       case None => None
       case Some(hashs) => Some(Outbound(peerId, id, BatchHashByNumberResponse(BatchHashByNumberMsg(id, hashs)))))
    case GetDataByHashMsg(m) =>
      if m.dataType == Header then
        match HeadersByHash(chain, m.hashs)
        case None => None
        case Some(headers) =>
          Some(Outbound(peerId, id,
                        BatchHeaderAndBodyResponse(id, BatchHeaderMsg(headers), BatchBodyMsg(BodiesByHash(chain, m.hashs)))))
      else None
  }

  /**
   * The RPC handler: which response goes to which peer under which id. Every
   * response goes back to the requesting peer and carries the request's id,
   * both in the `response_for` call and inside the payload.
   */
  function HandleRpcRequest(chain: ChainReader, requestId: RPCRequest -> HashValue, msg: RpcRequestMessage)
    : (r: Option<Outbound>)
    requires IsRoutable(msg.request)
    ensures msg.request.TestRequest? ==> r.None?
    ensures r.Some? ==> r.value.peerId == msg.peerId
    ensures r.Some? ==> r.value.requestId == requestId(msg.request) && ResponseId(r.value.response) == requestId(msg.request)
  {
    var id := requestId(msg.request);
    match msg.request
    case TestRequest(_) => None
    case GetHashByNumberRequest(process) => AnswerProcessMessage(chain, msg.peerId, id, process)
    case GetDataByHashRequest(process) => AnswerProcessMessage(chain, msg.peerId, id, process)
  }

  /** The RPC handler as it runs: it calls the batch loops and sends what HandleRpcRequest describes. */
  method DispatchRpcRequest(chain: ChainReader, requestId: RPCRequest -> HashValue, msg: RpcRequestMessage)
    returns (r: Option<Outbound>)
    requires IsRoutable(msg.request)
    ensures r == HandleRpcRequest(chain, requestId, msg)
  {
    var id := requestId(msg.request);
    if msg.request.TestRequest? {
      return None;
    }
    match msg.request.process
    case GetHashByNumberMsg(m) =>
      var batch := HandleGetHashByNumberMsg(id, chain, m);
      if batch.None? {
        return None;
      }
      r := Some(Outbound(msg.peerId, id, BatchHashByNumberResponse(batch.value)));
    case GetDataByHashMsg(m) =>
      if m.dataType != Header {
        return None;
      }
      var headers := HandleGetHeaderByHashMsg(chain, m);
      if headers.None? {
        return None;
      }
      var bodies := HandleGetBodyByHashMsg(chain, m);
      r := Some(Outbound(msg.peerId, id, BatchHeaderAndBodyResponse(id, headers.value, bodies)));
  }

  /** The ProcessMessage handler: a new peer gets exactly one head announcement; nothing else is sent. */
  function HandleProcessMessage(chain: ChainReader, blockHash: Block -> HashValue, msg: ProcessMessage)
    : (sends: seq<PeerSend>)
    ensures |sends| == if msg.NewPeerMsg? then 1 else 0
    ensures msg.NewPeerMsg? ==> sends[0].to == msg.peerInfo.id
    ensures msg.NewPeerMsg? ==> sends[0].message.latestState.hashHeader.header == chain.head.header
    ensures msg.NewPeerMsg? ==> sends[0].message.latestState.hashHeader.hash == blockHash(chain.head)
  {
    match msg
    case NewPeerMsg(peerInfo) => [PeerSend(peerInfo.id, LatestStatePeerMsg(LatestState(chain, blockHash)))]
    case _ => []
  }

  // ---------------------------------------------------------------------------
  // Properties of the routing

  /** A hash-by-number request is answered iff every number is known, with the full, ordered batch. */
  lemma HashByNumberRouting(chain: ChainReader, requestId: RPCRequest -> HashValue, msg: RpcRequestMessage)
    requires !msg.request.TestRequest? && msg.request.process.GetHashByNumberMsg?
    ensures var numbers := msg.request.process.getHashByNumber.numbers;
            var r := HandleRpcRequest(chain, requestId, msg);
            && (r.Some? <==> AllNumbersKnown(chain, numbers))
            && (r.Some? ==>
                  && r.value.response.BatchHashByNumberResponse?
                  && r.value.response.batch.id == requestId(msg.request)
                  && |r.value.response.batch.hashs| == |numbers|
                  && forall i :: 0 <= i < |numbers| ==>
                       r.value.response.batch.hashs[i] == NumberedHash(chain.blocksByNumber[numbers[i]]))
  {
  }

  /**
   * A header request is answered iff every hash has a header, with one combined
   * response whose header and body batches are built over the same hash list.
   */
  lemma HeaderAndBodyRouting(chain: ChainReader, requestId: RPCRequest -> HashValue, msg: RpcRequestMessage)
    requires !msg.request.TestRequest? && msg.request.process.GetDataByHashMsg?
    requires msg.request.process.getDataByHash.dataType == Header
    ensures var hashs := msg.request.process.getDataByHash.hashs;
            var r := HandleRpcRequest(chain, requestId, msg);
            && (r.Some? <==> AllHeadersKnown(chain, hashs))
            && (r.Some? ==>
                  && r.value.response.BatchHeaderAndBodyResponse?
                  && r.value.response.id == requestId(msg.request)
                  && |r.value.response.headerBatch.headers| == |hashs|
                  && |r.value.response.bodyBatch.bodies| == |hashs|
                  && forall i :: 0 <= i < |hashs| ==>
                       && r.value.response.headerBatch.headers[i].hash == hashs[i]
                       && r.value.response.bodyBatch.bodies[i].hash == hashs[i])
  {
  }

  /** A standalone body request is not served. */
  lemma BodyOnlyRequestIgnored(chain: ChainReader, requestId: RPCRequest -> HashValue, msg: RpcRequestMessage)
    requires !msg.request.TestRequest? && msg.request.process.GetDataByHashMsg?
    requires msg.request.process.getDataByHash.dataType == Body
    ensures HandleRpcRequest(chain, requestId, msg).None?
  {
  }

  /** On a consistently indexed chain the hash-by-number response echoes the requested numbers. */
  lemma HashByNumberEchoesNumbers(chain: ChainReader, numbers: seq<BlockNumber>)
    requires WellIndexed(chain) && AllNumbersKnown(chain, numbers)
    ensures forall i :: 0 <= i < |numbers| ==> HashesByNumber(chain, numbers).value[i].number == numbers[i]
  {
  }

  /**
   * On a consistently indexed chain each header entry's hash is its header's
   * id, and each known body's hash is the id of the block it was taken from.
   */
  lemma EntriesMatchTheirHeaders(chain: ChainReader, hashs: seq<HashValue>)
    requires WellIndexed(chain)
    ensures AllHeadersKnown(chain, hashs) ==>
              forall i :: 0 <= i < |hashs| ==>
                HeadersByHash(chain, hashs).value[i].header.id == HeadersByHash(chain, hashs).value[i].hash
    ensures forall i :: 0 <= i < |hashs| && hashs[i] in chain.blocksByHash ==>
              chain.blocksByHash[hashs[i]].header.id == BodiesByHash(chain, hashs)[i].hash
  {
  }

  /** Blocks 1..5 on chain, hashes asked for [2, 4, 1]: the answer lists them in that order. */
  lemma HashByNumberScenario(chain: ChainReader)
    requires WellIndexed(chain)
    requires forall n :: 1 <= n <= 5 ==> n in chain.blocksByNumber
    ensures HashesByNumber(chain, [2, 4, 1]).Some?
    ensures var hashs := HashesByNumber(chain, [2, 4, 1]).value;
            |hashs| == 3 && hashs[0].number == 2 && hashs[1].number == 4 && hashs[2].number == 1
    ensures HashesByNumber(chain, [2, 4, 1]) ==
              Some([NumberedHash(chain.blocksByNumber[2]), NumberedHash(chain.blocksByNumber[4]),
                    NumberedHash(chain.blocksByNumber[1])])
  {
    var numbers: seq<BlockNumber> := [2, 4, 1];
    assert AllNumbersKnown(chain, numbers) by {
      assert numbers[0] == 2 && numbers[1] == 4 && numbers[2] == 1;
    }
    var hashs := HashesByNumber(chain, numbers).value;
    assert hashs[0] == NumberedHash(chain.blocksByNumber[numbers[0]]);
    assert hashs[1] == NumberedHash(chain.blocksByNumber[numbers[1]]);
    assert hashs[2] == NumberedHash(chain.blocksByNumber[numbers[2]]);
    assert hashs == [NumberedHash(chain.blocksByNumber[2]), NumberedHash(chain.blocksByNumber[4]),
                     NumberedHash(chain.blocksByNumber[1])];
  }

  /** A header request naming an unknown hash is not answered at all, neither headers nor bodies. */
  lemma UnknownHeaderScenario(chain: ChainReader, requestId: RPCRequest -> HashValue, peer: PeerId, unknown: HashValue)
    requires unknown !in chain.headersByHash
    ensures HandleRpcRequest(chain, requestId,
              RpcRequestMessage(peer, GetDataByHashRequest(GetDataByHashMsg(GetDataByHash([unknown], Header))))).None?
  {
  }

  /** Bodies for [known, unknown]: the known block's transactions, then an empty list. */
  lemma BodiesScenario(chain: ChainReader, known: HashValue, unknown: HashValue)
    requires known in chain.blocksByHash && unknown !in chain.blocksByHash
    ensures BodiesByHash(chain, [known, unknown]) ==
              [BlockBody(known, chain.blocksByHash[known].transactions), BlockBody(unknown, [])]
  {
  }
}
