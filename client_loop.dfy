/** The client's main loop (client/common/client.go): one fresh connection per
    iteration, one text message per connection, and a reply line read back.
    Dialing, writing, reading, the wait between iterations and the
    cancellation signal are oracles. */
module ClientLoop {
  import opened Wrappers
  import opened Bytes
  import opened ClientSocket

  const CONTINUE: int := 0
  const STOP: int := 1

  /** The decimal digits of `n`, as `%v` prints a non-negative int. */
  function Decimal(n: nat): (r: seq<byte>)
    ensures r != [] && (forall k :: 0 <= k < |r| ==> 48 <= r[k] <= 57)
    ensures |r| > 1 ==> r[0] != 48
  {
    if n < 10 then [48 + n] else Decimal(n / 10) + [48 + n % 10]
  }

  /** Reads decimal digits back into a number. */
  function ParseDecimal(s: seq<byte>): nat
  {
    if s == [] then 0 else 10 * ParseDecimal(s[..|s| - 1]) + (if 48 <= s[|s| - 1] <= 57 then s[|s| - 1] - 48 else 0)
  }

  lemma {:induction false} DecimalRoundTrip(n: nat)
    ensures ParseDecimal(Decimal(n)) == n
  {
    if n >= 10 {
      var d := Decimal(n);
      assert d[..|d| - 1] == Decimal(n / 10);
      DecimalRoundTrip(n / 10);
    }
  }

  /** "[CLIENT ", the client id, then "] Message N°" with the degree sign in
      UTF-8. */
  function Header(id: seq<byte>): (r: seq<byte>)
    ensures |r| == |id| + 21
  {
    [91, 67, 76, 73, 69, 78, 84, 32] + id
    + [93, 32, 77, 101, 115, 115, 97, 103, 101, 32, 78, 0xC2, 0xB0]
  }

  /** The text `sendMessage` formats for message number `msgID`. */
  function MessageText(id: seq<byte>, msgID: nat): (r: seq<byte>)
    ensures |r| > |Header(id)| && r[|r| - 1] == MESSAGE_DELIMITER
  {
    Header(id) + Decimal(msgID) + [MESSAGE_DELIMITER]
  }

  /** The message is one line: it starts with the header, ends with the
      delimiter, holds no other delimiter when the id holds none, and the
      digits between header and delimiter read back as `msgID`. */
  lemma MessageRoundTrip(id: seq<byte>, msgID: nat)
    ensures var r := MessageText(id, msgID);
      r[..|Header(id)|] == Header(id) && ParseDecimal(r[|Header(id)|..|r| - 1]) == msgID
    ensures var r := MessageText(id, msgID);
      MESSAGE_DELIMITER !in id ==> forall k :: 0 <= k < |r| - 1 ==> r[k] != MESSAGE_DELIMITER
  {
    var r := MessageText(id, msgID);
    assert r[|Header(id)|..|r| - 1] == Decimal(msgID);
    DecimalRoundTrip(msgID);
    forall k | 0 <= k < |r| - 1 && MESSAGE_DELIMITER !in id
      ensures r[k] != MESSAGE_DELIMITER
    {
      if 8 <= k < 8 + |id| {
        assert r[k] == id[k - 8];
      }
    }
  }

  /** How an iteration ended. */
  datatype Outcome = DialFailed | SendFailed | ReceiveFailed | Completed(cancelled: bool)

  /** What `runIteration` returns after ending with `outcome`. */
  function ResultOf(outcome: Outcome): (r: int)
    ensures r == STOP <==> outcome in {SendFailed, ReceiveFailed, Completed(true)}
    ensures r == CONTINUE || r == STOP
  {
    match outcome
    case DialFailed => CONTINUE
    case Completed(cancelled) => if cancelled then STOP else CONTINUE
    case _ => STOP
  }

  /** Iteration i + 1 ended with `outcomes[i]`, returned `results[i]` and,
      unless its dial failed, wrote `wires[i]`: message i + 1, or a prefix of
      it when the send failed. Every iteration but the last said CONTINUE. */
  ghost predicate Reported(id: seq<byte>, outcomes: seq<Outcome>, wires: seq<seq<byte>>, results: seq<int>)
  {
    && |outcomes| == |wires| == |results|
    && (forall i :: 0 <= i < |results| ==> results[i] == ResultOf(outcomes[i]))
    && (forall i :: 0 <= i < |wires| && !outcomes[i].DialFailed? ==> wires[i] <= MessageText(id, i + 1))
    && (forall i :: 0 <= i < |wires| && !outcomes[i].DialFailed? && outcomes[i] != SendFailed ==>
          wires[i] == MessageText(id, i + 1))
    && (forall i :: 0 <= i < |results| - 1 ==> results[i] == CONTINUE)
  }

  /** One more iteration, after a run of iterations that all said CONTINUE. */
  lemma ReportedNext(id: seq<byte>, outcomes: seq<Outcome>, wires: seq<seq<byte>>, results: seq<int>,
                     outcome: Outcome, wire: seq<byte>)
    requires Reported(id, outcomes, wires, results)
    requires results == [] || results[|results| - 1] == CONTINUE
    requires !outcome.DialFailed? ==> wire <= MessageText(id, |outcomes| + 1)
    requires !outcome.DialFailed? && outcome != SendFailed ==> wire == MessageText(id, |outcomes| + 1)
    ensures Reported(id, outcomes + [outcome], wires + [wire], results + [ResultOf(outcome)])
  {
  }

  /** The connection the client holds after iterations ending with
      `outcomes`, whose connections were `conns`: the last one dialled, or
      `start` when every dial failed. */
  ghost function LastConn(outcomes: seq<Outcome>, conns: seq<Conn?>, start: Conn?): Conn?
    requires |conns| == |outcomes|
  {
    if outcomes == [] then start
    else if outcomes[|outcomes| - 1].DialFailed? then LastConn(outcomes[..|outcomes| - 1], conns[..|conns| - 1], start)
    else conns[|conns| - 1]
  }

  /** Iteration i + 1 used the connection `conns[i]`, none when its dial
      failed; that connection is used by no other iteration, holds `wires[i]`
      and stays open exactly when the send or the read failed. */
  ghost predicate Connected(outcomes: seq<Outcome>, conns: seq<Conn?>, wires: seq<seq<byte>>)
    reads set i | 0 <= i < |conns| && conns[i] != null :: conns[i]
  {
    && |outcomes| == |conns| == |wires|
    && (forall i :: 0 <= i < |conns| ==> (conns[i] == null <==> outcomes[i].DialFailed?))
    && (forall i :: 0 <= i < |conns| && conns[i] != null ==>
          conns[i].wire == wires[i] && (conns[i].open <==> outcomes[i] in {SendFailed, ReceiveFailed}))
    && (forall i, j :: 0 <= i < j < |conns| && conns[i] != null ==> conns[i] != conns[j])
  }

  lemma ConnectedNext(outcomes: seq<Outcome>, conns: seq<Conn?>, wires: seq<seq<byte>>,
                      outcome: Outcome, c: Conn?, wire: seq<byte>)
    requires Connected(outcomes, conns, wires)
    requires c == null <==> outcome.DialFailed?
    requires c != null ==> c !in conns && c.wire == wire && (c.open <==> outcome in {SendFailed, ReceiveFailed})
    ensures Connected(outcomes + [outcome], conns + [c], wires + [wire])
  {
  }

  lemma LastConnNext(outcomes: seq<Outcome>, conns: seq<Conn?>, start: Conn?, outcome: Outcome, c: Conn?)
    requires |conns| == |outcomes|
    ensures LastConn(outcomes + [outcome], conns + [c], start)
            == if outcome.DialFailed? then LastConn(outcomes, conns, start) else c
  {
    assert (outcomes + [outcome])[..|outcomes|] == outcomes && (conns + [c])[..|conns|] == conns;
  }

  class Client {
    const id: seq<byte>
    const serverAddress: seq<char>
    const loopAmount: int
    var conn: Conn?

    constructor (id: seq<byte>, serverAddress: seq<char>, loopAmount: int)
      ensures this.id == id && this.serverAddress == serverAddress
      ensures this.loopAmount == loopAmount && conn == null
    {
      this.id := id;
      this.serverAddress := serverAddress;
      this.loopAmount := loopAmount;
      conn := null;
    }

    /** `createClientSocket`: on success the new connection replaces the old
        one; on failure nothing changes. */
    method CreateClientSocket() returns (r: Result<(), IoError>)
      modifies this`conn
      ensures r.Ok? ==> fresh(conn) && conn.open && conn.wire == [] && conn.lastError == None
      ensures r.Err? ==> conn == old(conn)
    {
      var dialled: bool :| true;
      if dialled {
        conn := new Conn();
        r := Ok(());
      } else {
        var code: int :| true;
        r := Err(IoError(code));
      }
    }

    /** `runIteration`: dial, send the message, read one line, close, then
        wait or notice the signal. A failed dial moves on; a failed send or
        read stops the loop and leaves that connection open. */
    method RunIteration(msgID: nat) returns (result: int, ghost outcome: Outcome)
      modifies this`conn
      ensures result == ResultOf(outcome)
      ensures outcome == DialFailed ==> result == CONTINUE && conn == old(conn)
      ensures !outcome.DialFailed? ==> fresh(conn)
      ensures outcome == SendFailed ==>
        result == STOP && conn.open && exists k :: 0 <= k <= |MessageText(id, msgID)| && conn.wire == MessageText(id, msgID)[..k]
      ensures outcome == ReceiveFailed ==> result == STOP && conn.open && conn.wire == MessageText(id, msgID)
      ensures outcome.Completed? ==>
        !conn.open && conn.wire == MessageText(id, msgID) && result == (if outcome.cancelled then STOP else CONTINUE)
      ensures !outcome.DialFailed? ==>
        conn.wire <= MessageText(id, msgID) && (conn.open <==> outcome in {SendFailed, ReceiveFailed})
    {
      var dial := CreateClientSocket();
      if dial.Err? {
        return CONTINUE, DialFailed;
      }
      var sent := SendAll(conn, MessageText(id, msgID));
      if sent.Err? {
        return STOP, SendFailed;
      }
      var line := conn.ReadString(MESSAGE_DELIMITER);
      if line.Err? {
        return STOP, ReceiveFailed;
      }
      var _ := conn.Close();
      var cancelled: bool :| true;
      result := if cancelled then STOP else CONTINUE;
      outcome := Completed(cancelled);
    }

    /** `StartClientLoop`: iterations numbered 1, 2, ... in order, at most
        `loopAmount` of them. Iteration i + 1 ends with `outcomes[i]` and
        returns `results[i]`, STOP exactly when its send or read failed or the
        signal came during its wait. Unless its dial failed, it used its own
        new connection `conns[i]`, which holds `wires[i]`: a prefix of message
        i + 1 that is the whole message unless the send failed; the
        connection stays open exactly when the send or the read failed. The
        client ends up holding the last connection dialled. Every iteration
        but the last said CONTINUE, and the loop ends early only on a STOP or
        on the signal, which is looked at before each iteration. */
    method StartClientLoop() returns (ghost outcomes: seq<Outcome>, ghost conns: seq<Conn?>, ghost wires: seq<seq<byte>>,
                                      ghost results: seq<int>, ghost signalled: bool)
      modifies this`conn
      ensures |outcomes| == |conns| == |wires| == |results| && |results| <= if loopAmount < 0 then 0 else loopAmount
      ensures forall i :: 0 <= i < |conns| ==> (conns[i] == null <==> outcomes[i].DialFailed?)
      ensures forall i :: 0 <= i < |conns| && conns[i] != null ==>
        && fresh(conns[i]) && conns[i].wire == wires[i]
        && (conns[i].open <==> outcomes[i] in {SendFailed, ReceiveFailed})
      ensures forall i, j :: 0 <= i < j < |conns| && conns[i] != null ==> conns[i] != conns[j]
      ensures conn == LastConn(outcomes, conns, old(conn))
      ensures forall i :: 0 <= i < |results| ==>
        results[i] == (if outcomes[i] in {SendFailed, ReceiveFailed, Completed(true)} then STOP else CONTINUE)
      ensures forall i :: 0 <= i < |wires| && !outcomes[i].DialFailed? ==> wires[i] <= MessageText(id, i + 1)
      ensures forall i :: 0 <= i < |wires| && !outcomes[i].DialFailed? && outcomes[i] != SendFailed ==>
        wires[i] == MessageText(id, i + 1)
      ensures forall i :: 0 <= i < |results| - 1 ==> results[i] == CONTINUE
      ensures signalled ==> results == [] || results[|results| - 1] == CONTINUE
      ensures |results| < loopAmount ==> signalled || (results != [] && results[|results| - 1] == STOP)
    {
      outcomes, conns, wires, results, signalled := [], [], [], [], false;
      var result := CONTINUE;
      var msgID := 1;
      while msgID <= loopAmount && result == CONTINUE
        invariant 1 <= msgID && |outcomes| == |conns| == |wires| == |results| == msgID - 1
        invariant Reported(id, outcomes, wires, results)
        invariant Connected(outcomes, conns, wires)
        invariant forall i :: 0 <= i < |conns| && conns[i] != null ==> fresh(conns[i])
        invariant conn == LastConn(outcomes, conns, old(conn))
        invariant msgID <= (if loopAmount < 0 then 0 else loopAmount) + 1
        invariant results != [] ==> result == results[|results| - 1]
        invariant results == [] ==> result == CONTINUE
        decreases loopAmount - msgID, if result == CONTINUE then 1 else 0
      {
        var done: bool :| true;
        if done {
          signalled := true;
          return;
        }
        ghost var outcome;
        result, outcome := RunIteration(msgID);
        ghost var used: Conn? := if outcome.DialFailed? then null else conn;
        ghost var wire := if outcome.DialFailed? then [] else conn.wire;
        ReportedNext(id, outcomes, wires, results, outcome, wire);
        ConnectedNext(outcomes, conns, wires, outcome, used, wire);
        LastConnNext(outcomes, conns, old(conn), outcome, used);
        outcomes, conns, wires, results := outcomes + [outcome], conns + [used], wires + [wire], results + [result];
        msgID := msgID + 1;
      }
    }
  }
}
