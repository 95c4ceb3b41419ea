/** The client's protocol socket (client/common/socket.go): the reliable send
    loop over partial writes, `SendMessage`, and the stub `ReceiveMessage`.
    The connection is an oracle: each `Write` delivers some prefix of what it
    is handed, at least one byte when it does not fail. */
module ClientSocket {
  import opened Wrappers
  import opened Bytes
  import opened ClientMessages

  const MESSAGE_DELIMITER: byte := 10

  /** An error reported by the operating system. */
  datatype IoError = IoError(code: int)

  /** "failed to write to connection: %w" around the first `Write` error. */
  datatype SocketError = WriteFailed(cause: IoError)

  /** A TCP connection: what it has carried to the peer so far. */
  class Conn {
    var wire: seq<byte>
    var open: bool
    /** The error of the most recent `Write`, if it failed. */
    ghost var lastError: Option<IoError>

    constructor ()
      ensures wire == [] && open && lastError == None
    {
      wire := [];
      open := true;
      lastError := None;
    }

    /** `net.Conn.Write`: some prefix of `data` goes out; without an error that
        prefix is not empty. */
    method Write(data: seq<byte>) returns (n: nat, err: Option<IoError>)
      modifies this`wire, this`lastError
      ensures n <= |data| && wire == old(wire) + data[..n]
      ensures err.None? && data != [] ==> n > 0
      ensures lastError == err
    {
      var fails: bool :| true;
      if fails {
        var k: nat, code: int :| k <= |data|;
        n, err := k, Some(IoError(code));
      } else {
        var k: nat :| k <= |data| && (data != [] ==> k > 0);
        n, err := k, None;
      }
      wire := wire + data[..n];
      lastError := err;
    }

    /** `bufio.NewReader(conn).ReadString(delim)`: a line ending in `delim`,
        or an error. */
    method ReadString(delim: byte) returns (r: Result<seq<byte>, IoError>)
      ensures r.Ok? ==> r.value != [] && r.value[|r.value| - 1] == delim
    {
      var ok: bool :| true;
      if ok {
        var line: seq<byte> :| true;
        r := Ok(line + [delim]);
      } else {
        var code: int :| true;
        r := Err(IoError(code));
      }
    }

    /** `Close`: the connection is closed whether or not an error is
        reported. */
    method Close() returns (err: Option<IoError>)
      modifies this`open
      ensures !open
    {
      open := false;
      err :| true;
    }
  }

  /** `sendAll`: hand `data[total:]` to `Write` until every byte is out. On
      success the connection carried exactly `data`, in order; the first
      failing `Write` ends the loop, having carried a prefix of `data`, and
      its error is returned wrapped. */
  method SendAll(conn: Conn?, data: seq<byte>) returns (r: Result<(), SocketError>)
    requires conn != null || data == []
    modifies conn
    ensures conn != null ==> conn.open == old(conn.open)
    ensures r.Ok? ==> conn == null || conn.wire == old(conn.wire) + data
    ensures r.Err? ==> conn != null && conn.lastError.Some? && r.error == WriteFailed(conn.lastError.value)
    ensures data == [] ==> r.Ok?
    ensures r.Err? ==> exists k :: 0 <= k <= |data| && conn.wire == old(conn.wire) + data[..k]
  {
    var total := 0;
    while total < |data|
      invariant 0 <= total <= |data|
      invariant conn != null ==> conn.wire == old(conn.wire) + data[..total] && conn.open == old(conn.open)
      decreases |data| - total
    {
      var n, err := conn.Write(data[total..]);
      if err.Some? {
        assert data[total..][..n] == data[total..total + n];
        assert data[..total] + data[total..total + n] == data[..total + n];
        return Err(WriteFailed(err.value));
      }
      assert data[total..][..n] == data[total..total + n];
      assert data[..total] + data[total..total + n] == data[..total + n];
      total := total + n;
    }
    assert data[..total] == data;
    r := Ok(());
  }

  class Socket {
    const serverAddress: seq<char>
    var conn: Conn?

    /** `NewSocket`: the address, and no connection yet. */
    constructor (serverAddress: seq<char>)
      ensures this.serverAddress == serverAddress && conn == null
    {
      this.serverAddress := serverAddress;
      conn := null;
    }

    /** `Init`: dial the server; on success the socket holds the new
        connection, on failure it is left as it was and the error returned. */
    method Init() returns (r: Result<(), IoError>)
      modifies this`conn
      ensures r.Ok? ==> fresh(conn) && conn.open && conn.wire == [] && conn.lastError == None
      ensures r.Err? ==> conn == old(conn)
    {
      var dialled: bool :| true;
      if dialled {
        conn := new Conn();
        r := Ok(());
      } else {
        var code: int :| true;
        r := Err(IoError(code));
      }
    }

    /** `Cleanup`: close the connection and return what `Close` reports. */
    method Cleanup() returns (err: Option<IoError>)
      requires conn != null
      modifies conn`open
      ensures !conn.open
    {
      err := conn.Close();
    }

    /** `SendMessage`: exactly `msg.ToBytes()` goes out through `sendAll`,
        whose error is returned. The message.go stubs encode to nothing, so
        sending one of them succeeds without touching the connection. */
    method SendMessage(msg: Message) returns (r: Result<(), SocketError>)
      requires conn != null || ToBytes(msg) == []
      modifies conn
      ensures r.Ok? ==> conn == null || conn.wire == old(conn.wire) + ToBytes(msg)
      ensures r.Err? ==> conn != null && conn.lastError.Some? && r.error == WriteFailed(conn.lastError.value)
      ensures r.Err? ==> exists k :: 0 <= k <= |ToBytes(msg)| && conn.wire == old(conn.wire) + ToBytes(msg)[..k]
      ensures !msg.OtherMessage? ==> r.Ok? && (conn != null ==> conn.wire == old(conn.wire))
    {
      r := SendAll(conn, ToBytes(msg));
    }

    /** The stub `ReceiveMessage`: it reads one line and discards it, then
        returns a `MsgRegisterBetOk` for dni 0 and number 0 and no error,
        whatever the read gave. */
    method ReceiveMessage() returns (r: Result<Message, SocketError>)
      requires conn != null
      ensures r.Ok? && r.value.MsgRegisterBetOk? && Tagged(r.value)
      ensures r.value.dni == 0 && r.value.number == 0
    {
      var _ := conn.ReadString(MESSAGE_DELIMITER);
      r := Ok(NewMsgRegisterBetOk(0, 0));
    }
  }
}
