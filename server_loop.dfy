/** The server's accept loop (server/common/server.py): one connection at a
    time, one message per connection, a reply while the server runs, and a
    stop that closes the listener. Clients waiting to connect are a queue of
    byte streams; the termination signal is an oracle that may stop the
    server between accepting a connection and handling it. Storing a bet is
    recorded as the bet being appended to `stored`. */
module ServerLoop {
  import opened Wrappers
  import opened Bytes
  import opened ServerMessages
  import opened ServerSocket

  /** What escapes `run`: an OverflowError, from the encoder of the reply or
      from a `recv` asked for too many bytes, which the handler's except
      clause does not catch. */
  datatype RunError = UncaughtOverflow

  /** The answer `send_message_response` gives: a stored bet is confirmed with
      its own dni and number, anything else is refused with the fixed
      unknown-bet values. */
  function Reply(m: Message, unknownBetInfo: int, failureUnknownMessage: int): (r: Message)
    ensures m.RegisterBet? ==> r == RegisterBetOk(m.dni, m.number)
    ensures !m.RegisterBet? ==> r == RegisterBetFailed(unknownBetInfo, unknownBetInfo, failureUnknownMessage)
  {
    if m.RegisterBet? then RegisterBetOk(m.dni, m.number)
    else RegisterBetFailed(unknownBetInfo, unknownBetInfo, failureUnknownMessage)
  }

  /** What handling a message hands to storage. */
  function Stores(m: Message): (r: seq<Message>)
    ensures |r| <= 1 && (r != [] <==> m.RegisterBet?) && (r != [] ==> r[0] == m)
  {
    if m.RegisterBet? then [m] else []
  }

  /** The bets a client's byte stream hands to storage when it is handled:
      the bet its one frame carries, or nothing when the frame cannot be read
      or carries another message. */
  function BetsIn(stream: seq<byte>): (r: seq<Message>)
    ensures |r| <= 1
    ensures r != [] <==> ParseFrame(stream).result.Ok? && ParseFrame(stream).result.value.RegisterBet?
    ensures r != [] ==> r[0] == ParseFrame(stream).result.value
  {
    var got := ParseFrame(stream).result;
    if got.Ok? then Stores(got.value) else []
  }

  /** The bets the given clients hand to storage when each is handled, in
      order. */
  function AllBets(streams: seq<seq<byte>>): (r: seq<Message>)
    ensures |r| <= |streams|
    ensures forall i :: 0 <= i < |r| ==> r[i].RegisterBet?
  {
    if streams == [] then []
    else AllBets(streams[..|streams| - 1]) + BetsIn(streams[|streams| - 1])
  }

  /** How far `run` has got through the clients: `accepted` of them have
      connected and the rest are still waiting; every accepted client was
      handled, except the last when the server was stopped before handling
      it; storage holds what it held before plus the bets of the handled
      clients. */
  ghost predicate Progress(clients: seq<seq<byte>>, before: seq<Message>, pending: seq<seq<byte>>,
                           stored: seq<Message>, running: bool, accepted: nat, interrupted: bool, added: seq<Message>)
  {
    && accepted <= |clients| && pending == clients[accepted..]
    && (interrupted ==> accepted > 0 && !running)
    && stored == before + added
    && added == AllBets(clients[..if interrupted then accepted - 1 else accepted])
  }

  /** Serving the next client advances the progress by one client: handled
      when the server still runs, merely accepted otherwise. */
  lemma ProgressNext(clients: seq<seq<byte>>, before: seq<Message>, accepted: nat, added: seq<Message>,
                     pending: seq<seq<byte>>, stored: seq<Message>, stored': seq<Message>,
                     running': bool, more: seq<Message>)
    requires Progress(clients, before, pending, stored, true, accepted, false, added)
    requires pending != [] && stored' == stored + more
    requires more == if running' then BetsIn(pending[0]) else []
    ensures Progress(clients, before, pending[1..], stored', running', accepted + 1, !running', added + more)
  {
    assert clients[..accepted + 1][..accepted] == clients[..accepted];
    assert clients[accepted..][1..] == clients[accepted + 1..];
  }

  /** The confirmation of any decoded bet can always be encoded: the decoder
      reads dni and number as 4-byte unsigned values. */
  lemma BetReplyEncodable(payload: seq<byte>, unknownBetInfo: int, failureUnknownMessage: int)
    ensures var m := DecodeRegisterBet(payload);
      var reply := Reply(m, unknownBetInfo, failureUnknownMessage);
      Encodable(reply) && reply.dni == m.dni && reply.number == m.number
  {
    var m := DecodeRegisterBet(payload);
    var reply := Reply(m, unknownBetInfo, failureUnknownMessage);
    assert Pow256(4) == 0x1_0000_0000;
    assert PayloadSize(reply) == 8;
  }

  /** The refusal can be encoded exactly when the fixed values fit their
      fields. */
  lemma RefusalEncodable(m: Message, unknownBetInfo: int, failureUnknownMessage: int)
    requires !m.RegisterBet?
    ensures Encodable(Reply(m, unknownBetInfo, failureUnknownMessage))
      <==> IsUInt(unknownBetInfo, 4) && IsUInt(failureUnknownMessage, 2)
  {
    assert PayloadSize(Reply(m, unknownBetInfo, failureUnknownMessage)) == 10;
    assert Pow256(4) == 0x1_0000_0000;
  }

  /** `after` is `before` followed by a prefix of `bytes`. */
  ghost predicate SentPrefix(before: seq<byte>, after: seq<byte>, bytes: seq<byte>)
  {
    |before| <= |after| && after[..|before|] == before && after[|before|..] <= bytes
  }

  lemma SentPrefixAfterSend(before: seq<byte>, after: seq<byte>, bytes: seq<byte>)
    requires after == before + bytes
      || (|before| <= |after| && after[..|before|] == before && after[|before|..] <= bytes)
    ensures SentPrefix(before, after, bytes)
  {
    if after == before + bytes {
      assert after[..|before|] == before;
      assert after[|before|..] == bytes;
    }
  }

  class Server {
    var running: bool
    var stopped: bool
    /** Whether the listening socket still accepts connections. */
    var listenerOpen: bool
    /** The byte streams of the clients that will connect, in order. */
    var pending: seq<seq<byte>>
    /** The bets handed to storage, in order. */
    var stored: seq<Message>
    const unknownBetInfo: int
    const failureUnknownMessage: int

    constructor (clients: seq<seq<byte>>, unknownBetInfo: int, failureUnknownMessage: int)
      ensures !running && !stopped && listenerOpen
      ensures pending == clients && stored == []
      ensures this.unknownBetInfo == unknownBetInfo && this.failureUnknownMessage == failureUnknownMessage
    {
      running, stopped, listenerOpen := false, false, true;
      pending, stored := clients, [];
      this.unknownBetInfo := unknownBetInfo;
      this.failureUnknownMessage := failureUnknownMessage;
    }

    /** `accept_new_connection`: the next client, or none once the listener
        is closed or no client is left. */
    method AcceptNewConnection() returns (c: Connection?)
      modifies this`pending
      ensures listenerOpen && old(pending) != [] ==>
        c != null && fresh(c) && c.unread == old(pending)[0] && c.sent == [] && c.open
        && pending == old(pending)[1..]
      ensures !(listenerOpen && old(pending) != []) ==> c == null && pending == old(pending)
    {
      if listenerOpen && pending != [] {
        c := new Connection(pending[0]);
        pending := pending[1..];
      } else {
        c := null;
      }
    }

    /** `send_message_response`: a bet is handed to storage and then
        confirmed; anything else is refused. The send error, an overflow or
        a failed `sendall`, is passed on. */
    method SendMessageResponse(conn: Connection, m: Message) returns (r: Result<(), SendError>)
      modifies conn`sent, this`stored
      ensures stored == old(stored) + Stores(m)
      ensures r == Err(OverflowError) <==> !Encodable(Reply(m, unknownBetInfo, failureUnknownMessage))
      ensures r == Err(OverflowError) ==> conn.sent == old(conn.sent)
      ensures r.Ok? ==> conn.sent == old(conn.sent) + ToBytes(Reply(m, unknownBetInfo, failureUnknownMessage)).value
      ensures r == Err(SendFailed) ==> SentPrefix(old(conn.sent), conn.sent, ToBytes(Reply(m, unknownBetInfo, failureUnknownMessage)).value)
    {
      if m.RegisterBet? {
        stored := stored + [m];
      }
      r := conn.SendMessage(Reply(m, unknownBetInfo, failureUnknownMessage));
      if r == Err(SendFailed) {
        SentPrefixAfterSend(old(conn.sent), conn.sent, ToBytes(Reply(m, unknownBetInfo, failureUnknownMessage)).value);
      }
    }

    /** Whether handling a client that sends `stream` lets an OverflowError
        escape: recv's, whatever the server's state, or the encoder's, when
        the server still runs (`serving`) and the reply does not fit. */
    predicate Escapes(stream: seq<byte>, serving: bool)
    {
      var got := ParseFrame(stream).result;
      || got == Err(RecvOverflow)
      || (serving && got.Ok? && !Encodable(Reply(got.value, unknownBetInfo, failureUnknownMessage)))
    }

    /** None of the first `n` clients, handled while the server ran, let an
        OverflowError escape. */
    ghost predicate Quiet(clients: seq<seq<byte>>, n: nat)
    {
      n <= |clients| && forall i :: 0 <= i < n ==> !Escapes(clients[i], true)
    }

    /** After `accepted` clients: none before the last let an error escape,
        and `failed` says whether the last one did (it was handled while the
        server ran unless `interrupted`). */
    ghost predicate Handled(clients: seq<seq<byte>>, accepted: nat, interrupted: bool, failed: bool)
    {
      && accepted <= |clients|
      && (accepted == 0 ==> !failed)
      && (accepted > 0 ==> Quiet(clients, accepted - 1) && (failed <==> Escapes(clients[accepted - 1], !interrupted)))
    }

    /** Handling one more client, after a last one that was handled quietly
        while the server ran. */
    lemma HandledNext(clients: seq<seq<byte>>, accepted: nat, serving: bool, failed: bool)
      requires Handled(clients, accepted, false, false) && accepted < |clients|
      requires failed <==> Escapes(clients[accepted], serving)
      ensures Handled(clients, accepted + 1, !serving, failed)
    {
    }

    /** `__handle_client_connection`: read one message and, while the server
        runs, answer it (`replied` is the outcome of that answer). A failed
        read or a failed `sendall` is logged and swallowed; an OverflowError,
        from `recv` or from the encoder, escapes. The connection is closed on
        every path. */
    method HandleClientConnection(conn: Connection)
      returns (r: Result<(), RunError>, ghost got: Result<Message, DecodeError>,
               ghost replied: Option<Result<(), SendError>>, ghost added: seq<Message>)
      modifies conn, this`stored
      ensures got == ParseFrame(old(conn.unread)).result
      ensures !conn.open
      ensures stored == old(stored) + added
      ensures r.Err? <==> Escapes(old(conn.unread), running)
      ensures replied.Some? <==> got.Ok? && running
      ensures replied.None? ==> conn.sent == old(conn.sent) && added == []
      ensures got.Ok? && running ==> added == Stores(got.value)
      ensures |added| <= 1 && forall i :: 0 <= i < |added| ==> added[i].RegisterBet?
      ensures replied.Some? ==>
        (replied.value == Err(OverflowError) <==> !Encodable(Reply(got.value, unknownBetInfo, failureUnknownMessage)))
      ensures replied == Some(Ok(())) ==>
        conn.sent == old(conn.sent) + ToBytes(Reply(got.value, unknownBetInfo, failureUnknownMessage)).value
      ensures replied == Some(Err(SendFailed)) ==>
        SentPrefix(old(conn.sent), conn.sent, ToBytes(Reply(got.value, unknownBetInfo, failureUnknownMessage)).value)
    {
      var msg := conn.ReceiveMessage();
      got, replied, added := msg, None, [];
      r := Ok(());
      if msg == Err(RecvOverflow) {
        r := Err(UncaughtOverflow);
      } else if msg.Ok? && running {
        added := Stores(msg.value);
        var sent := SendMessageResponse(conn, msg.value);
        replied := Some(sent);
        if sent == Err(OverflowError) {
          r := Err(UncaughtOverflow);
        }
      }
      conn.Shutdown();
    }

    /** `run`: mark the server running; unless already stopped, handle clients
        one after another until the server is stopped, the listener yields
        no connection, or an overflow escapes. */
    method Run() returns (r: Result<(), RunError>, ghost accepted: nat, ghost interrupted: bool, ghost added: seq<Message>)
      modifies this
      ensures old(stopped) ==> running
      ensures !old(stopped) ==> (running <==> !stopped)
      ensures old(stopped) ==> r.Ok? && accepted == 0 && pending == old(pending)
      ensures accepted <= |old(pending)| && pending == old(pending)[accepted..]
      ensures interrupted ==> accepted > 0 && !running
      ensures stored == old(stored) + added
      ensures added == AllBets(old(pending)[..if interrupted then accepted - 1 else accepted])
      ensures r.Ok? && !old(stopped) ==> stopped || !listenerOpen || pending == []
      ensures r.Err? ==> accepted > 0
      ensures accepted > 0 ==> (r.Err? <==> Escapes(old(pending)[accepted - 1], !interrupted))
      ensures accepted > 0 ==> Quiet(old(pending), accepted - 1)
    {
      running := true;
      accepted, interrupted, added := 0, false, [];
      r := Ok(());
      if stopped {
        return;
      }
      ghost var clients, before := pending, stored;
      while running
        invariant r.Ok?
        invariant running <==> !stopped
        invariant Progress(clients, before, pending, stored, running, accepted, interrupted, added)
        invariant Handled(clients, accepted, interrupted, false)
        decreases running, |pending|
      {
        ghost var pending0, stored0 := pending, stored;
        var served: bool;
        ghost var more;
        r, served, more := ServeNext();
        if !served {
          break;
        }
        assert pending0[0] == clients[accepted];
        HandledNext(clients, accepted, running, r.Err?);
        ProgressNext(clients, before, accepted, added, pending0, stored0, stored, running, more);
        accepted, interrupted, added := accepted + 1, !running, added + more;
        if r.Err? {
          return;
        }
      }
    }

    /** One turn of `run`'s loop: accept a client, let the signal handler
        run (the oracle `signal` says whether it does), then handle the client. */
    method ServeNext() returns (r: Result<(), RunError>, served: bool, ghost more: seq<Message>)
      requires running <==> !stopped
      modifies this
      ensures running <==> !stopped
      ensures !served ==>
        r.Ok? && pending == old(pending) && stored == old(stored) && !(listenerOpen && old(pending) != [])
      ensures served ==> old(pending) != [] && pending == old(pending)[1..]
      ensures stored == old(stored) + more
      ensures !served ==> more == []
      ensures served ==> more == if running then BetsIn(old(pending)[0]) else []
      ensures served ==> (r.Err? <==> Escapes(old(pending)[0], running))
    {
      more := [];
      r := Ok(());
      var conn := AcceptNewConnection();
      served := conn != null;
      if conn == null {
        return;
      }
      // The termination signal is looked at only here, between accept and
      // handle; a signal that arrives during `accept` or after the handling
      // is the one seen on the next turn.
      var signal: bool :| true;
      if signal {
        Stop();
      }
      ghost var got, replied;
      r, got, replied, more := HandleClientConnection(conn);
    }

    /** `stop`: the first call closes the listener and marks the server
        stopped and not running; a later call changes nothing. */
    method Stop()
      modifies this`stopped, this`running, this`listenerOpen
      ensures stopped
      ensures old(stopped) ==> running == old(running) && listenerOpen == old(listenerOpen)
      ensures !old(stopped) ==> !running && !listenerOpen
    {
      if stopped {
        return;
      }
      listenerOpen := false;
      stopped := true;
      running := false;
    }
  }
}
