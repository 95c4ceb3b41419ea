/** The server's protocol socket (server/common/socket.py): the `__receive_all`
    loop over `recv`, the frame header and dispatch of `__decode_message`, the
    three payload decoders and `send_message`. The peer and the operating
    system are an oracle: `recv` hands over some non-empty prefix of what the
    peer still has to send, or nothing once the peer has closed, and `sendall`
    either delivers every byte or fails with OSError. */
module ServerSocket {
  import opened Wrappers
  import opened Bytes
  import opened ServerMessages

  /** Width of the length field the decoder reads (an unsigned 64-bit value). */
  const SIZEOF_UINT64 := 8
  const SIZEOF_HEADER := SIZEOF_UINT16 + SIZEOF_UINT64

  /** The first buffer size `recv` refuses: its argument is converted to a C
      `ssize_t`, so a size of 2^63 or more raises OverflowError before
      anything is read. */
  const RECV_SIZE_LIMIT := 0x8000_0000_0000_0000

  /** What `__decode_message` raises: ConnectionError when the peer closes
      early, ValueError for an unknown type tag, and the OverflowError of a
      `recv` asked for `RECV_SIZE_LIMIT` bytes or more. */
  datatype DecodeError = ConnectionError | UnknownMsgType(msgType: int) | RecvOverflow

  /** What `send_message` raises: OverflowError from `to_bytes`, OSError from
      `sendall`. */
  datatype SendError = OverflowError | SendFailed

  /** A 4-byte length read at `offset` and the bytes it announces, as
      `__decode_register_bet` reads the name and the surname; the second
      component is the offset just past them. */
  function ReadLengthPrefixed(payload: seq<byte>, offset: nat): (r: (seq<byte>, nat))
    ensures r.1 == offset + SIZEOF_UINT32 + ReadUInt(payload, offset, SIZEOF_UINT32)
    ensures r.1 <= |payload| ==> r.0 == payload[offset + SIZEOF_UINT32..r.1]
  {
    var len := ReadUInt(payload, offset, SIZEOF_UINT32);
    var start := offset + SIZEOF_UINT32;
    (PySlice(payload, start, start + len), start + len)
  }

  /** `__decode_register_bet`: agency, name, surname, dni, birthdate and number,
      read at an offset that moves forward field by field. Python slicing never
      fails, so a short payload yields short fields rather than an error. */
  function DecodeRegisterBet(payload: seq<byte>): (m: Message)
    ensures m.RegisterBet?
    ensures 0 <= m.agency < Pow256(4) && 0 <= m.dni < Pow256(4) && 0 <= m.number < Pow256(4)
    ensures -Pow256(8) / 2 <= m.birthdate < Pow256(8) / 2
  {
    var agency := ReadUInt(payload, 0, SIZEOF_UINT32);
    var (name, offset) := ReadLengthPrefixed(payload, SIZEOF_UINT32);
    var (surname, offset) := ReadLengthPrefixed(payload, offset);
    var dni := ReadUInt(payload, offset, SIZEOF_UINT32);
    var birthdate := ReadInt(payload, offset + SIZEOF_UINT32, SIZEOF_INT64);
    var number := ReadUInt(payload, offset + SIZEOF_UINT32 + SIZEOF_INT64, SIZEOF_UINT32);
    RegisterBet(agency, name, surname, dni, birthdate, number)
  }

  /** `__decode_register_bet_ok`: dni then number, both unsigned. */
  function DecodeRegisterBetOk(payload: seq<byte>): (m: Message)
    ensures m.RegisterBetOk? && Encodable(m)
  {
    var dni := ReadUInt(payload, 0, SIZEOF_UINT32);
    var number := ReadUInt(payload, SIZEOF_UINT32, SIZEOF_UINT32);
    RegisterBetOk(dni, number)
  }

  /** `__decode_register_bet_failed`: dni, number, then a 2-byte error code. */
  function DecodeRegisterBetFailed(payload: seq<byte>): (m: Message)
    ensures m.RegisterBetFailed? && Encodable(m)
  {
    var dni := ReadUInt(payload, 0, SIZEOF_UINT32);
    var number := ReadUInt(payload, SIZEOF_UINT32, SIZEOF_UINT32);
    var errorCode := ReadUInt(payload, 2 * SIZEOF_UINT32, SIZEOF_UINT16);
    RegisterBetFailed(dni, number, errorCode)
  }

  /** The dispatch at the end of `__decode_message`: the decoded message always
      carries the tag it was dispatched on, and only tags 1, 2 and 3 decode. */
  function Dispatch(msgType: int, payload: seq<byte>): (r: Result<Message, DecodeError>)
    ensures r.Ok? <==> msgType in {MSG_TYPE_REGISTER_BET, MSG_TYPE_REGISTER_BET_OK, MSG_TYPE_REGISTER_BET_FAILED}
    ensures r.Ok? ==> MsgType(r.value) == msgType
    ensures r.Err? ==> r.error == UnknownMsgType(msgType)
  {
    if msgType == MSG_TYPE_REGISTER_BET then Ok(DecodeRegisterBet(payload))
    else if msgType == MSG_TYPE_REGISTER_BET_OK then Ok(DecodeRegisterBetOk(payload))
    else if msgType == MSG_TYPE_REGISTER_BET_FAILED then Ok(DecodeRegisterBetFailed(payload))
    else Err(UnknownMsgType(msgType))
  }

  /** The outcome of reading one frame from a byte stream, and how many bytes of
      the stream that read consumed. */
  datatype Frame = Frame(result: Result<Message, DecodeError>, consumed: nat)

  /** The frame `__decode_message` reads from what the peer sends before it
      closes: a 10-byte header (2-byte type, 8-byte length), then exactly
      `length` payload bytes. A stream that ends early is a ConnectionError
      after everything has been consumed; an unknown type is detected only
      after the whole payload has been read. */
  function ParseFrame(stream: seq<byte>): (f: Frame)
    ensures f.consumed <= |stream|
    ensures f.result.Ok? ==> |stream| >= SIZEOF_HEADER
    ensures f.result.Ok? ==> MsgType(f.result.value) == FromBE(stream[..SIZEOF_UINT16])
    ensures f.result.Ok? ==> f.consumed == SIZEOF_HEADER + FromBE(stream[SIZEOF_UINT16..SIZEOF_HEADER])
    ensures f.result == Err(ConnectionError) ==> f.consumed == |stream|
    ensures f.result == Err(ConnectionError) <==>
      || |stream| < SIZEOF_HEADER
      || (var length := FromBE(stream[SIZEOF_UINT16..SIZEOF_HEADER]);
          length < RECV_SIZE_LIMIT && |stream| - SIZEOF_HEADER < length)
    ensures f.result == Err(RecvOverflow) <==>
      |stream| >= SIZEOF_HEADER && FromBE(stream[SIZEOF_UINT16..SIZEOF_HEADER]) >= RECV_SIZE_LIMIT
    ensures f.result == Err(RecvOverflow) ==> f.consumed == SIZEOF_HEADER
    ensures f.result != Err(ConnectionError) && f.result != Err(RecvOverflow) ==>
      && f.consumed == SIZEOF_HEADER + FromBE(stream[SIZEOF_UINT16..SIZEOF_HEADER])
      && f.result == Dispatch(FromBE(stream[..SIZEOF_UINT16]), stream[SIZEOF_HEADER..f.consumed])
  {
    if |stream| < SIZEOF_HEADER then Frame(Err(ConnectionError), |stream|)
    else
      var msgType := FromBE(stream[..SIZEOF_UINT16]);
      var length := FromBE(stream[SIZEOF_UINT16..SIZEOF_HEADER]);
      if length >= RECV_SIZE_LIMIT then Frame(Err(RecvOverflow), SIZEOF_HEADER)
      else if |stream| - SIZEOF_HEADER < length then Frame(Err(ConnectionError), |stream|)
      else Frame(Dispatch(msgType, stream[SIZEOF_HEADER..SIZEOF_HEADER + length]), SIZEOF_HEADER + length)
  }

  /** Where the type, the length and the payload of a frame sit. */
  lemma FrameSlices(t: seq<byte>, l: seq<byte>, payload: seq<byte>, rest: seq<byte>)
    requires |t| == SIZEOF_UINT16 && |l| == SIZEOF_UINT64
    ensures var s := t + l + payload + rest;
            && s[..SIZEOF_UINT16] == t && s[SIZEOF_UINT16..SIZEOF_HEADER] == l
            && s[SIZEOF_HEADER..SIZEOF_HEADER + |payload|] == payload
  {
    var s := t + l + payload + rest;
    assert s[..2] == t;
    assert s[2..10] == l;
    assert s[10..10 + |payload|] == payload;
  }

  /** A frame laid out the way the decoder expects it (2-byte type, 8-byte
      length, payload) is read back whole, and whatever follows it is left for
      the next read; a payload too long for `recv`'s size argument makes the
      read fail right after the header. */
  lemma FrameRoundTrip(msgType: int, payload: seq<byte>, rest: seq<byte>)
    requires 0 <= msgType < Pow256(2) && |payload| < Pow256(8)
    ensures |payload| < RECV_SIZE_LIMIT ==>
              ParseFrame(ToBE(msgType, 2) + ToBE(|payload|, 8) + payload + rest)
              == Frame(Dispatch(msgType, payload), SIZEOF_HEADER + |payload|)
    ensures |payload| >= RECV_SIZE_LIMIT ==>
              ParseFrame(ToBE(msgType, 2) + ToBE(|payload|, 8) + payload + rest)
              == Frame(Err(RecvOverflow), SIZEOF_HEADER)
  {
    FrameSlices(ToBE(msgType, 2), ToBE(|payload|, 8), payload, rest);
    UnsignedRoundTrip(msgType, 2);
    UnsignedRoundTrip(|payload|, 8);
  }

  /** `__decode_register_bet_ok` inverts the payload `MsgRegisterBetOk.to_bytes`
      writes after its 6-byte header. */
  lemma RegisterBetOkRoundTrip(dni: int, number: int)
    requires IsUInt(dni, 4) && IsUInt(number, 4)
    ensures DecodeRegisterBetOk(ToBytes(RegisterBetOk(dni, number)).value[6..]) == RegisterBetOk(dni, number)
  {
    var m := RegisterBetOk(dni, number);
    var p := ToBytes(m).value[6..];
    assert p == ToBE(dni, 4) + ToBE(number, 4);
    assert p[0..4] == ToBE(dni, 4) && p[4..8] == ToBE(number, 4);
    UnsignedRoundTrip(dni, 4);
    UnsignedRoundTrip(number, 4);
  }

  /** The converse: every 8-byte Ok payload is what the encoder writes for the
      message decoded from it. */
  lemma RegisterBetOkPayloadRoundTrip(payload: seq<byte>)
    requires |payload| == 8
    ensures Payload(DecodeRegisterBetOk(payload)) == Ok(payload)
  {
    var dni, number := payload[0..4], payload[4..8];
    ToBEFromBE(dni);
    ToBEFromBE(number);
    assert DecodeRegisterBetOk(payload) == RegisterBetOk(FromBE(dni), FromBE(number));
    assert payload == dni + number;
  }

  /** `__decode_register_bet_failed` inverts the payload
      `MsgRegisterBetFailed.to_bytes` writes after its 6-byte header. */
  lemma RegisterBetFailedRoundTrip(dni: int, number: int, errorCode: int)
    requires IsUInt(dni, 4) && IsUInt(number, 4) && IsUInt(errorCode, 2)
    ensures DecodeRegisterBetFailed(ToBytes(RegisterBetFailed(dni, number, errorCode)).value[6..])
            == RegisterBetFailed(dni, number, errorCode)
  {
    var m := RegisterBetFailed(dni, number, errorCode);
    var p := ToBytes(m).value[6..];
    assert p == ToBE(dni, 4) + ToBE(number, 4) + ToBE(errorCode, 2);
    assert p[0..4] == ToBE(dni, 4) && p[4..8] == ToBE(number, 4) && p[8..10] == ToBE(errorCode, 2);
    UnsignedRoundTrip(dni, 4);
    UnsignedRoundTrip(number, 4);
    UnsignedRoundTrip(errorCode, 2);
  }

  /** The converse: every 10-byte Failed payload is what the encoder writes for
      the message decoded from it. */
  lemma RegisterBetFailedPayloadRoundTrip(payload: seq<byte>)
    requires |payload| == 10
    ensures Payload(DecodeRegisterBetFailed(payload)) == Ok(payload)
  {
    var dni, number, code := payload[0..4], payload[4..8], payload[8..10];
    ToBEFromBE(dni);
    ToBEFromBE(number);
    ToBEFromBE(code);
    assert DecodeRegisterBetFailed(payload) == RegisterBetFailed(FromBE(dni), FromBE(number), FromBE(code));
    assert payload == dni + number + code;
  }

  /** The encoder and the decoder disagree on the width of the length field:
      `to_bytes` writes 4 bytes, `__decode_message` reads 8, so it takes the
      first 4 payload bytes as the low half of the length. The length it reads
      is then at least 2^32 times the real one, and a peer that sends one
      encoded message and closes makes the decoder fail: with ConnectionError
      once the peer has closed, or with recv's OverflowError when a payload of
      2^31 bytes or more pushes the misread length past `RECV_SIZE_LIMIT`. */
  lemma EncodedFrameNotDecodable(m: Message)
    requires Encodable(m)
    ensures ParseFrame(ToBytes(m).value).result
            == if PayloadSize(m) < 0x8000_0000 then Err(ConnectionError) else Err(RecvOverflow)
  {
    var b := ToBytes(m).value;
    var size := PayloadSize(m);
    LengthMisread(b);
    var length := FromBE(b[SIZEOF_UINT16..SIZEOF_HEADER]);
    assert FromBE(b[2..6]) == size >= 8;
    if size < 0x8000_0000 {
      assert (size + 1) * 0x1_0000_0000 <= RECV_SIZE_LIMIT;
      assert size * 0x1_0000_0000 > size - 4;
      assert length < RECV_SIZE_LIMIT && |b| - SIZEOF_HEADER < length;
    } else {
      assert size * 0x1_0000_0000 >= RECV_SIZE_LIMIT;
    }
  }

  /** Eight bytes read from offset 2 start with the four-byte length field, so
      they read as at least 2^32 times that field. */
  lemma LengthMisread(b: seq<byte>)
    requires |b| >= SIZEOF_HEADER
    ensures FromBE(b[SIZEOF_UINT16..SIZEOF_HEADER]) >= FromBE(b[2..6]) * 0x1_0000_0000
    ensures FromBE(b[SIZEOF_UINT16..SIZEOF_HEADER]) < (FromBE(b[2..6]) + 1) * 0x1_0000_0000
  {
    assert Pow256(4) == 0x1_0000_0000 by {
      assert Pow256(2) == 65536;
    }
    assert b[2..10] == b[2..6] + b[6..10];
    FromBEAppend(b[2..6], b[6..10]);
  }

  /** The server misreads its own `MsgRegisterBet` encoding: the encoder writes
      no agency, so the decoder takes the name length as the agency. */
  lemma ServerBetPayloadMisread(m: Message)
    requires m.RegisterBet? && Encodable(m)
    ensures DecodeRegisterBet(ToBytes(m).value[6..]).agency == |m.name|
  {
    RegisterBetLayout(m);
    var b := ToBytes(m).value;
    assert b[6..][0..4] == b[6..10];
  }

  /** The header `__decode_message` receives is the first ten bytes of the
      stream, so its fields are the stream's. */
  lemma HeaderFields(s: seq<byte>, header: seq<byte>)
    requires |s| >= SIZEOF_HEADER && header == s[..SIZEOF_HEADER]
    ensures header[..SIZEOF_UINT16] == s[..SIZEOF_UINT16]
    ensures header[SIZEOF_UINT16..SIZEOF_HEADER] == s[SIZEOF_UINT16..SIZEOF_HEADER]
  {
  }

  /** After the header, the next `length` bytes of the stream are the payload
      and the rest stays unread. */
  lemma PayloadAt(s: seq<byte>, length: nat, payload: seq<byte>, rest: seq<byte>)
    requires |s| >= SIZEOF_HEADER + length
    requires s[SIZEOF_HEADER..] == payload + rest && |payload| == length
    ensures s[SIZEOF_HEADER..SIZEOF_HEADER + length] == payload
    ensures s[SIZEOF_HEADER + length..] == rest
  {
    assert s[SIZEOF_HEADER..][..length] == payload;
    assert s[SIZEOF_HEADER..][length..] == rest;
  }

  /** One connected peer as the server sees it. */
  class Connection {
    /** Bytes the peer still sends before it closes its end. */
    var unread: seq<byte>
    /** Bytes delivered to the peer so far. */
    var sent: seq<byte>
    var open: bool

    constructor (incoming: seq<byte>)
      ensures unread == incoming && sent == [] && open
    {
      unread := incoming;
      sent := [];
      open := true;
    }

    /** `recv(max)`: some non-empty prefix of at most `max` pending bytes, or the
        empty string once the peer has closed and nothing is pending; a `max`
        that does not fit a `ssize_t` is refused before anything is read. */
    method Recv(max: nat) returns (r: Result<seq<byte>, DecodeError>)
      requires max > 0
      modifies this`unread
      ensures r.Err? <==> max >= RECV_SIZE_LIMIT
      ensures r.Err? ==> r.error == RecvOverflow && unread == old(unread)
      ensures r.Ok? ==> |r.value| <= max && old(unread) == r.value + unread
      ensures r.Ok? ==> (r.value == [] <==> old(unread) == [])
    {
      if max >= RECV_SIZE_LIMIT {
        return Err(RecvOverflow);
      }
      var chunk: seq<byte>;
      if unread == [] {
        chunk := [];
      } else {
        var k :| 1 <= k <= max && k <= |unread|;
        chunk := unread[..k];
        unread := unread[k..];
      }
      r := Ok(chunk);
    }

    /** `__receive_all`: exactly `n` bytes, collected over as many `recv` calls
        as it takes, or ConnectionError as soon as a `recv` comes back empty.
        The first `recv` asks for all `n` bytes, so an `n` too large for it
        fails with recv's OverflowError before anything is read. */
    method ReceiveAll(n: nat) returns (r: Result<seq<byte>, DecodeError>)
      modifies this`unread
      ensures n >= RECV_SIZE_LIMIT ==> r == Err(RecvOverflow) && unread == old(unread)
      ensures n < RECV_SIZE_LIMIT && |old(unread)| >= n ==> r == Ok(old(unread)[..n]) && unread == old(unread)[n..]
      ensures n < RECV_SIZE_LIMIT && |old(unread)| < n ==> r == Err(ConnectionError) && unread == []
    {
      var data: seq<byte> := [];
      while |data| < n
        invariant old(unread) == data + unread
        invariant |data| <= n
        invariant n >= RECV_SIZE_LIMIT ==> data == []
        decreases n - |data|
      {
        var chunk := Recv(n - |data|);
        if chunk.Err? {
          return chunk;
        }
        if chunk.value == [] {
          return Err(ConnectionError);
        }
        data := data + chunk.value;
      }
      assert old(unread)[..n] == data;
      return Ok(data);
    }

    /** `receive_message` / `__decode_message`: the header, then the payload,
        then the dispatch; the result and the bytes consumed are those of
        `ParseFrame` on what the peer sends. */
    method ReceiveMessage() returns (r: Result<Message, DecodeError>)
      modifies this`unread
      ensures r == ParseFrame(old(unread)).result
      ensures unread == old(unread)[ParseFrame(old(unread)).consumed..]
    {
      ghost var s := unread;
      var header := ReceiveAll(SIZEOF_HEADER);
      if header.Err? {
        return Err(header.error);
      }
      HeaderFields(s, header.value);
      var msgType := FromBE(header.value[..SIZEOF_UINT16]);
      var length := FromBE(header.value[SIZEOF_UINT16..SIZEOF_HEADER]);
      var payload := ReceiveAll(length);
      if payload.Err? {
        return Err(payload.error);
      }
      PayloadAt(s, length, payload.value, unread);
      r := Dispatch(msgType, payload.value);
    }

    /** `send_message`: the encoded message goes out whole, or nothing goes out
        if encoding overflows, or `sendall` fails after delivering some prefix. */
    method SendMessage(m: Message) returns (r: Result<(), SendError>)
      modifies this`sent
      ensures r == Err(OverflowError) <==> !Encodable(m)
      ensures !Encodable(m) ==> sent == old(sent)
      ensures r.Ok? ==> sent == old(sent) + ToBytes(m).value
      ensures r == Err(SendFailed) ==> |old(sent)| <= |sent| && sent[..|old(sent)|] == old(sent)
                                       && sent[|old(sent)|..] <= ToBytes(m).value
    {
      var raw := ToBytes(m);
      if raw.Err? {
        return Err(OverflowError);
      }
      var delivered: bool :| true;
      if delivered {
        sent := sent + raw.value;
        r := Ok(());
      } else {
        var k :| 0 <= k <= |raw.value|;
        sent := sent + raw.value[..k];
        assert sent[..|old(sent)|] == old(sent) && sent[|old(sent)|..] == raw.value[..k];
        r := Err(SendFailed);
      }
    }

    /** `shutdown`: both directions closed. */
    method Shutdown()
      modifies this`open
      ensures !open
    {
      open := false;
    }
  }
}
