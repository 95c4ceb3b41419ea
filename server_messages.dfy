/** The server's message classes and their `to_bytes` encoders
    (server/common/messages.py). Integers are written big-endian; Python's
    `int.to_bytes` raises OverflowError for a value that does not fit its
    field, which the encoders here return as `Err(Overflow)`. Text fields are
    already byte strings (their UTF-8 encoding is not modelled). */
module ServerMessages {
  import opened Wrappers
  import opened Bytes

  const MSG_TYPE_REGISTER_BET := 1
  const MSG_TYPE_REGISTER_BET_OK := 2
  const MSG_TYPE_REGISTER_BET_FAILED := 3

  const SIZEOF_UINT16 := 2
  const SIZEOF_UINT32 := 4
  const SIZEOF_INT64 := 8

  /** The three message classes. `MsgRegisterBet` carries an agency only on the
      decoding side: the encoder's class has no such field and never writes it. */
  datatype Message =
    | RegisterBet(agency: int, name: seq<byte>, surname: seq<byte>, dni: int, birthdate: int, number: int)
    | RegisterBetOk(dni: int, number: int)
    | RegisterBetFailed(dni: int, number: int, errorCode: int)

  datatype EncodeError = Overflow

  /** The `msg_type` each constructor stamps; it alone tells the variants apart. */
  function MsgType(m: Message): (t: int)
    ensures t == MSG_TYPE_REGISTER_BET <==> m.RegisterBet?
    ensures t == MSG_TYPE_REGISTER_BET_OK <==> m.RegisterBetOk?
    ensures t == MSG_TYPE_REGISTER_BET_FAILED <==> m.RegisterBetFailed?
  {
    match m
    case RegisterBet(_, _, _, _, _, _) => MSG_TYPE_REGISTER_BET
    case RegisterBetOk(_, _) => MSG_TYPE_REGISTER_BET_OK
    case RegisterBetFailed(_, _, _) => MSG_TYPE_REGISTER_BET_FAILED
  }

  function UIntField(x: int, w: nat): Result<seq<byte>, EncodeError>
  {
    if 0 <= x < Pow256(w) then Ok(ToBE(x, w)) else Err(Overflow)
  }

  function IntField(x: int, w: nat): Result<seq<byte>, EncodeError>
  {
    if w > 0 && -(Pow256(w) / 2) <= x < Pow256(w) / 2 then Ok(ToBE(x, w)) else Err(Overflow)
  }

  predicate IsUInt(x: int, w: nat) { 0 <= x < Pow256(w) }

  predicate IsInt(x: int, w: nat) { w > 0 && -(Pow256(w) / 2) <= x < Pow256(w) / 2 }

  /** The payload each `to_bytes` builds before its header. */
  function Payload(m: Message): Result<seq<byte>, EncodeError>
  {
    match m
    case RegisterBet(_, name, surname, dni, birthdate, number) =>
      var nameLen :- UIntField(|name|, SIZEOF_UINT32);
      var surnameLen :- UIntField(|surname|, SIZEOF_UINT32);
      var dniBytes :- UIntField(dni, SIZEOF_UINT32);
      var birthBytes :- IntField(birthdate, SIZEOF_INT64);
      var numberBytes :- UIntField(number, SIZEOF_UINT32);
      Ok(nameLen + name + surnameLen + surname + dniBytes + birthBytes + numberBytes)
    case RegisterBetOk(dni, number) =>
      var dniBytes :- UIntField(dni, SIZEOF_UINT32);
      var numberBytes :- UIntField(number, SIZEOF_UINT32);
      Ok(dniBytes + numberBytes)
    case RegisterBetFailed(dni, number, errorCode) =>
      var dniBytes :- UIntField(dni, SIZEOF_UINT32);
      var numberBytes :- UIntField(number, SIZEOF_UINT32);
      var codeBytes :- UIntField(errorCode, SIZEOF_UINT16);
      Ok(dniBytes + numberBytes + codeBytes)
  }

  /** Whether every field of m fits its fixed-width slot. */
  predicate FieldsFit(m: Message)
  {
    match m
    case RegisterBet(_, name, surname, dni, birthdate, number) =>
      && IsUInt(|name|, 4) && IsUInt(|surname|, 4) && IsUInt(dni, 4)
      && IsInt(birthdate, 8) && IsUInt(number, 4)
    case RegisterBetOk(dni, number) => IsUInt(dni, 4) && IsUInt(number, 4)
    case RegisterBetFailed(dni, number, errorCode) =>
      IsUInt(dni, 4) && IsUInt(number, 4) && IsUInt(errorCode, 2)
  }

  /** Size of the payload `to_bytes` writes for m. */
  function PayloadSize(m: Message): nat
  {
    match m
    case RegisterBet(_, name, surname, _, _, _) => 24 + |name| + |surname|
    case RegisterBetOk(_, _) => 8
    case RegisterBetFailed(_, _, _) => 10
  }

  /** Whether `to_bytes` completes without OverflowError: every field fits and
      so does the payload length in the header. */
  predicate Encodable(m: Message)
  {
    FieldsFit(m) && IsUInt(PayloadSize(m), 4)
  }

  /** The payload is built exactly when every field fits, and then has the
      announced size. */
  lemma PayloadFacts(m: Message)
    ensures Payload(m).Ok? <==> FieldsFit(m)
    ensures Payload(m).Ok? ==> |Payload(m).value| == PayloadSize(m)
  {
  }

  /** `Message.to_bytes`: a 2-byte type tag, a 4-byte payload length, then the
      payload. It fails exactly when some field overflows its width; otherwise
      the header reads back as the tag and the true payload size. */
  function ToBytes(m: Message): (r: Result<seq<byte>, EncodeError>)
    ensures r.Ok? <==> Encodable(m)
    ensures r.Ok? ==> |r.value| == 6 + PayloadSize(m)
    ensures r.Ok? ==> FromBE(r.value[..2]) == MsgType(m)
    ensures r.Ok? ==> FromBE(r.value[2..6]) == PayloadSize(m) == |r.value| - 6
  {
    PayloadFacts(m);
    if !FieldsFit(m) then Err(Overflow)
    else
      var payload := Payload(m).value;
      var header := ToBE(MsgType(m), SIZEOF_UINT16);
      if !IsUInt(|payload|, SIZEOF_UINT32) then Err(Overflow)
      else
        var out := header + ToBE(|payload|, SIZEOF_UINT32) + payload;
        assert out[..2] == header && out[2..6] == ToBE(|payload|, SIZEOF_UINT32);
        UnsignedRoundTrip(MsgType(m), 2);
        UnsignedRoundTrip(|payload|, 4);
        Ok(out)
  }

  /** The encoded bytes are the header followed by the payload. */
  lemma ToBytesShape(m: Message)
    requires Encodable(m)
    ensures Payload(m).Ok? && |Payload(m).value| == PayloadSize(m)
    ensures ToBytes(m).value == ToBE(MsgType(m), 2) + ToBE(PayloadSize(m), 4) + Payload(m).value
  {
    PayloadFacts(m);
  }

  lemma RegisterBetPayload(m: Message)
    requires m.RegisterBet? && FieldsFit(m)
    ensures Payload(m) == Ok(ToBE(|m.name|, 4) + m.name + ToBE(|m.surname|, 4) + m.surname
                             + ToBE(m.dni, 4) + ToBE(m.birthdate, 8) + ToBE(m.number, 4))
  {
  }

  /** Where each field of an encoded `MsgRegisterBet` sits. */
  lemma RegisterBetSlices(m: Message)
    requires m.RegisterBet? && Encodable(m)
    ensures var b := ToBytes(m).value;
            var n, s := |m.name|, |m.surname|;
            && |b| == 30 + n + s
            && b[6..10] == ToBE(n, 4) && b[10..10 + n] == m.name
            && b[10 + n..14 + n] == ToBE(s, 4) && b[14 + n..14 + n + s] == m.surname
            && b[14 + n + s..18 + n + s] == ToBE(m.dni, 4)
            && b[18 + n + s..26 + n + s] == ToBE(m.birthdate, 8)
            && b[26 + n + s..30 + n + s] == ToBE(m.number, 4)
  {
    var n, s := |m.name|, |m.surname|;
    var h := ToBE(MsgType(m), 2) + ToBE(PayloadSize(m), 4);
    ToBytesShape(m);
    RegisterBetPayload(m);
    BetFieldsAt(6, ToBytes(m).value, h, ToBE(n, 4), m.name, ToBE(s, 4), m.surname,
                ToBE(m.dni, 4), ToBE(m.birthdate, 8), ToBE(m.number, 4));
  }

  /** Field layout of an encoded `MsgRegisterBet`: after the 6-byte header come
      the name length and the name, the surname length and the surname, then
      dni (4 bytes, unsigned), birthdate (8 bytes, two's complement) and number
      (4 bytes, unsigned). */
  lemma RegisterBetLayout(m: Message)
    requires m.RegisterBet? && Encodable(m)
    ensures var b := ToBytes(m).value;
            var n, s := |m.name|, |m.surname|;
            && |b| == 30 + n + s
            && FromBE(b[6..10]) == n && b[10..10 + n] == m.name
            && FromBE(b[10 + n..14 + n]) == s && b[14 + n..14 + n + s] == m.surname
            && FromBE(b[14 + n + s..18 + n + s]) == m.dni
            && FromBESigned(b[18 + n + s..26 + n + s]) == m.birthdate
            && FromBE(b[26 + n + s..30 + n + s]) == m.number
  {
    RegisterBetSlices(m);
    UnsignedRoundTrip(|m.name|, 4);
    UnsignedRoundTrip(|m.surname|, 4);
    UnsignedRoundTrip(m.dni, 4);
    SignedRoundTrip(m.birthdate, 8);
    UnsignedRoundTrip(m.number, 4);
  }
}
