/** The client's bet protocol (client/common/protocol.go): the batching rule
    `CanGroupBet`, sending a batch and waiting for the confirmation.
    `GetOverheadInBytes` and the batch message `NewMsgRegisterBets` are not
    part of this model; they are parameters of the protocol object. */
module ClientProtocol {
  import opened Wrappers
  import opened Bytes
  import opened ClientBets
  import opened ClientMessages
  import opened ClientSocket

  const BET_NUMBER_FOR_ERRORS: int := -1
  const KILO_BYTE: int := 1024
  const MAX_BETS_BATCH_SIZE: int := 8 * KILO_BYTE

  /** What `ExpectRegisterBetOk` can report. */
  datatype ProtocolError =
    | Transport(cause: SocketError)   // the socket's error, returned as it came
    | RegisterBetFailed               // "recevied MsgRegisterBetFailed"
    | UnexpectedMessage               // "received unexpected message"

  /** The admission rule of `CanGroupBet`: one more bet is allowed by the count
      limit, and the batch with that bet and the overhead for one more bet
      still fits in 8 KiB. */
  predicate Admits(batchMaxAmount: int, overhead: int -> int, numberOfBets: int, betSize: int, batchSize: int)
  {
    numberOfBets + 1 <= batchMaxAmount
    && batchSize + betSize + overhead(numberOfBets + 1) <= MAX_BETS_BATCH_SIZE
  }

  /** A batch of `count` bets whose encodings total `size` bytes obeys both
      limits. */
  predicate WithinLimits(batchMaxAmount: int, overhead: int -> int, count: int, size: int)
  {
    count <= batchMaxAmount && size + overhead(count) <= MAX_BETS_BATCH_SIZE
  }

  function Sum(sizes: seq<int>): (r: int)
    ensures sizes == [] ==> r == 0
  {
    if sizes == [] then 0 else sizes[0] + Sum(sizes[1..])
  }

  /** The encoded sizes of `bets`, in order. */
  function Sizes(bets: seq<Bet>): (r: seq<int>)
    ensures |r| == |bets| && forall i :: 0 <= i < |bets| ==> r[i] == |ClientBets.ToBytes(bets[i])|
  {
    seq(|bets|, i requires 0 <= i < |bets| => |ClientBets.ToBytes(bets[i])|)
  }

  /** A caller that offers bets of the encoded sizes `sizes` one by one to
      `CanGroupBet`, starting from a batch of `count` bets and `size` bytes,
      and stops at the first refusal: how many it took and the final batch
      size. */
  function Fill(batchMaxAmount: int, overhead: int -> int, sizes: seq<int>, count: int, size: int): (r: (nat, int))
    ensures r.0 <= |sizes|
    decreases |sizes|
  {
    if sizes == [] || !Admits(batchMaxAmount, overhead, count, sizes[0], size) then (0, size)
    else
      var rest := Fill(batchMaxAmount, overhead, sizes[1..], count + 1, size + sizes[0]);
      (rest.0 + 1, rest.1)
  }

  /** Whatever the caller starts from, once `CanGroupBet` has admitted at
      least one bet the batch obeys both limits, and the batch size has grown
      by exactly the encoded sizes of the bets taken. */
  lemma {:induction false} FillWithinLimits(batchMaxAmount: int, overhead: int -> int, sizes: seq<int>, count: int, size: int)
    ensures var r := Fill(batchMaxAmount, overhead, sizes, count, size);
      r.0 > 0 ==> WithinLimits(batchMaxAmount, overhead, count + r.0, r.1)
    ensures var r := Fill(batchMaxAmount, overhead, sizes, count, size);
      r.1 == size + Sum(sizes[..r.0])
    decreases |sizes|
  {
    var r := Fill(batchMaxAmount, overhead, sizes, count, size);
    if sizes == [] || !Admits(batchMaxAmount, overhead, count, sizes[0], size) {
      assert sizes[..0] == [];
    } else {
      var s := size + sizes[0];
      var rest := Fill(batchMaxAmount, overhead, sizes[1..], count + 1, s);
      assert r == (rest.0 + 1, rest.1);
      FillWithinLimits(batchMaxAmount, overhead, sizes[1..], count + 1, s);
      var taken := sizes[..r.0];
      assert taken[0] == sizes[0] && taken[1..] == sizes[1..][..rest.0];
    }
  }

  /** How `ExpectRegisterBetOk` reads what `ReceiveMessage` returned. */
  function Classify(received: Result<Message, SocketError>): (r: Result<(), ProtocolError>)
    ensures r.Ok? <==> received.Ok? && received.value.MsgRegisterBetOk?
    ensures received.Err? ==> r == Err(Transport(received.error))
    ensures received.Ok? && received.value.MsgRegisterBetFailed? ==> r == Err(RegisterBetFailed)
    ensures received.Ok? && (received.value.MsgRegisterBet? || received.value.OtherMessage?) ==> r == Err(UnexpectedMessage)
  {
    match received
    case Err(e) => Err(Transport(e))
    case Ok(MsgRegisterBetOk(_, _, _)) => Ok(())
    case Ok(MsgRegisterBetFailed(_, _, _, _)) => Err(RegisterBetFailed)
    case Ok(_) => Err(UnexpectedMessage)
  }

  /** The `*int` batch size that `CanGroupBet` updates through a pointer. */
  class IntCell {
    var value: int
    constructor (value: int)
      ensures this.value == value
    {
      this.value := value;
    }
  }

  class BetProtocol {
    const id: seq<char>
    const socket: Socket
    const batchMaxAmount: int
    /** `GetOverheadInBytes`. */
    const overhead: int -> int
    /** `NewMsgRegisterBets(bets).ToBytes()`. */
    const encodeBets: seq<Bet> -> seq<byte>

    /** `NewBetProtocol`: a fresh socket for the address, not yet connected. */
    constructor (serverAddress: seq<char>, id: seq<char>, batchMaxAmount: int,
                 overhead: int -> int, encodeBets: seq<Bet> -> seq<byte>)
      ensures this.id == id && this.batchMaxAmount == batchMaxAmount
      ensures this.overhead == overhead && this.encodeBets == encodeBets
      ensures fresh(socket) && socket.serverAddress == serverAddress && socket.conn == null
    {
      this.id := id;
      this.batchMaxAmount := batchMaxAmount;
      this.overhead := overhead;
      this.encodeBets := encodeBets;
      socket := new Socket(serverAddress);
    }

    /** `Init`: connect the socket; the error, if any, is returned. */
    method Init() returns (r: Result<(), IoError>)
      modifies socket`conn
      ensures r.Ok? ==> fresh(socket.conn) && socket.conn.open && socket.conn.wire == []
      ensures r.Err? ==> socket.conn == old(socket.conn)
    {
      r := socket.Init();
    }

    /** `Cleanup`: close the socket's connection. */
    method Cleanup() returns (err: Option<IoError>)
      requires socket.conn != null
      modifies socket.conn`open
      ensures !socket.conn.open
    {
      err := socket.Cleanup();
    }

    /** `CanGroupBet`: whether the bet may join a batch of `numberOfBets` bets
        whose encodings total `*betsBatchSize` bytes; only when it may does
        the size grow, by the bet's encoded length. */
    method CanGroupBet(numberOfBets: int, bet: Bet, betsBatchSize: IntCell) returns (canGroup: bool)
      modifies betsBatchSize
      ensures canGroup == Admits(batchMaxAmount, overhead, numberOfBets, |ClientBets.ToBytes(bet)|, old(betsBatchSize.value))
      ensures canGroup ==> betsBatchSize.value == old(betsBatchSize.value) + |ClientBets.ToBytes(bet)|
      ensures !canGroup ==> betsBatchSize.value == old(betsBatchSize.value)
      ensures numberOfBets + 1 > batchMaxAmount ==> !canGroup
    {
      if numberOfBets + 1 > batchMaxAmount {
        return false;
      }
      var newBetSize := |ClientBets.ToBytes(bet)|;
      var newTotalSize := betsBatchSize.value + newBetSize + overhead(numberOfBets + 1);
      canGroup := newTotalSize <= MAX_BETS_BATCH_SIZE;
      if canGroup {
        betsBatchSize.value := betsBatchSize.value + newBetSize;
      }
    }

    /** `RegisterBets`: the batch message goes out whole, or the send error is
        returned. */
    method RegisterBets(bets: seq<Bet>, betsBatchSize: int) returns (r: Result<(), SocketError>)
      requires socket.conn != null || encodeBets(bets) == []
      modifies socket.conn
      ensures r.Ok? ==> socket.conn == null || socket.conn.wire == old(socket.conn.wire) + encodeBets(bets)
      ensures r.Err? ==> && socket.conn != null && socket.conn.lastError.Some?
                         && r.error == WriteFailed(socket.conn.lastError.value)
      ensures r.Err? ==> exists k :: 0 <= k <= |encodeBets(bets)|
                                     && socket.conn.wire == old(socket.conn.wire) + encodeBets(bets)[..k]
    {
      r := socket.SendMessage(OtherMessage(encodeBets(bets)));
    }

    /** `ExpectRegisterBetOk`: with the stub `ReceiveMessage` the confirmation
        always arrives, so this never reports an error. */
    method ExpectRegisterBetOk() returns (r: Result<(), ProtocolError>)
      requires socket.conn != null
      ensures r.Ok?
    {
      var received := socket.ReceiveMessage();
      r := Classify(received);
    }
  }
}
