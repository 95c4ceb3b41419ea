/** Where the two sides meet: the bytes the client's `Bet.ToBytes`
    (client/common/bet.go) writes are exactly the payload layout the server's
    `__decode_register_bet` (server/common/socket.py) reads. */
module BetWire {
  import opened Bytes
  import ClientBets
  import ServerMessages
  import ServerSocket

  /** `p` holds, in order: agency, the name's length, the name, the surname's
      length, the surname, dni, birthdate and number. */
  ghost predicate FieldsRead(p: seq<byte>, agency: int, name: seq<byte>, surname: seq<byte>,
                             dni: int, birthdate: int, number: int)
  {
    var n, s := |name|, |surname|;
    |p| >= 28 + n + s
    && FromBE(p[0..4]) == agency && FromBE(p[4..8]) == n && p[8..8 + n] == name
    && FromBE(p[8 + n..12 + n]) == s && p[12 + n..12 + n + s] == surname
    && FromBE(p[12 + n + s..16 + n + s]) == dni
    && FromBESigned(p[16 + n + s..24 + n + s]) == birthdate
    && FromBE(p[24 + n + s..28 + n + s]) == number
  }

  /** Bytes that follow a sequence do not change a slice inside it. */
  lemma SliceInPrefix(r: seq<byte>, rest: seq<byte>, i: nat, j: nat)
    requires i <= j <= |r|
    ensures (r + rest)[i..j] == r[i..j]
  {
  }

  /** Fields laid out in `r` read the same with any bytes after it. */
  lemma FieldsReadPadded(r: seq<byte>, rest: seq<byte>, agency: int, name: seq<byte>, surname: seq<byte>,
                         dni: int, birthdate: int, number: int)
    requires FieldsRead(r, agency, name, surname, dni, birthdate, number)
    ensures FieldsRead(r + rest, agency, name, surname, dni, birthdate, number)
  {
    var n, s := |name|, |surname|;
    SliceInPrefix(r, rest, 0, 4);
    SliceInPrefix(r, rest, 4, 8);
    SliceInPrefix(r, rest, 8, 8 + n);
    SliceInPrefix(r, rest, 8 + n, 12 + n);
    SliceInPrefix(r, rest, 12 + n, 12 + n + s);
    SliceInPrefix(r, rest, 12 + n + s, 16 + n + s);
    SliceInPrefix(r, rest, 16 + n + s, 24 + n + s);
    SliceInPrefix(r, rest, 24 + n + s, 28 + n + s);
  }

  /** The decoder's reads up to the end of the surname. */
  ghost predicate HeadRead(p: seq<byte>, agency: int, name: seq<byte>, surname: seq<byte>,
                           afterName: nat, afterSurname: nat)
  {
    ReadUInt(p, 0, 4) == agency
    && ServerSocket.ReadLengthPrefixed(p, 4) == (name, afterName)
    && ServerSocket.ReadLengthPrefixed(p, afterName) == (surname, afterSurname)
  }

  /** The leading fields decode to what the reads give. */
  lemma DecodeHead(p: seq<byte>, agency: int, name: seq<byte>, surname: seq<byte>,
                   afterName: nat, afterSurname: nat)
    requires HeadRead(p, agency, name, surname, afterName, afterSurname)
    ensures var m := ServerSocket.DecodeRegisterBet(p);
      m.agency == agency && m.name == name && m.surname == surname
  {
  }

  /** The decoder's reads after the surname, at the offsets it computes. */
  ghost predicate TailRead(p: seq<byte>, afterSurname: nat, dni: int, birthdate: int, number: int)
  {
    ReadUInt(p, afterSurname, ServerMessages.SIZEOF_UINT32) == dni
    && ReadInt(p, afterSurname + ServerMessages.SIZEOF_UINT32, ServerMessages.SIZEOF_INT64) == birthdate
    && ReadUInt(p, afterSurname + ServerMessages.SIZEOF_UINT32 + ServerMessages.SIZEOF_INT64, ServerMessages.SIZEOF_UINT32) == number
  }

  /** Where the name and the surname end, as the decoder's length-prefixed
      reads compute it. */
  ghost predicate TailOffset(p: seq<byte>, afterName: nat, afterSurname: nat)
  {
    ServerSocket.ReadLengthPrefixed(p, ServerMessages.SIZEOF_UINT32).1 == afterName
    && ServerSocket.ReadLengthPrefixed(p, afterName).1 == afterSurname
  }

  /** The dni is read just after the surname. */
  lemma DecodeDni(p: seq<byte>, afterName: nat, afterSurname: nat, dni: int)
    requires TailOffset(p, afterName, afterSurname)
    requires ReadUInt(p, afterSurname, ServerMessages.SIZEOF_UINT32) == dni
    ensures ServerSocket.DecodeRegisterBet(p).dni == dni
  {
  }

  /** The birthdate is read 4 bytes after the surname. */
  lemma DecodeBirthdate(p: seq<byte>, afterName: nat, afterSurname: nat, birthdate: int)
    requires TailOffset(p, afterName, afterSurname)
    requires ReadInt(p, afterSurname + ServerMessages.SIZEOF_UINT32, ServerMessages.SIZEOF_INT64) == birthdate
    ensures ServerSocket.DecodeRegisterBet(p).birthdate == birthdate
  {
  }

  /** The number is read 12 bytes after the surname. */
  lemma DecodeNumber(p: seq<byte>, afterName: nat, afterSurname: nat, number: int)
    requires TailOffset(p, afterName, afterSurname)
    requires ReadUInt(p, afterSurname + ServerMessages.SIZEOF_UINT32 + ServerMessages.SIZEOF_INT64, ServerMessages.SIZEOF_UINT32) == number
    ensures ServerSocket.DecodeRegisterBet(p).number == number
  {
  }

  /** A payload whose reads give these fields, at the offsets the reads
      themselves reach, decodes to them. */
  lemma DecodeFields(p: seq<byte>, agency: int, name: seq<byte>, surname: seq<byte>,
                     dni: int, birthdate: int, number: int, afterName: nat, afterSurname: nat)
    requires HeadRead(p, agency, name, surname, afterName, afterSurname)
    requires TailRead(p, afterSurname, dni, birthdate, number)
    ensures ServerSocket.DecodeRegisterBet(p) == ServerMessages.RegisterBet(agency, name, surname, dni, birthdate, number)
  {
    DecodeHead(p, agency, name, surname, afterName, afterSurname);
    DecodeDni(p, afterName, afterSurname, dni);
    DecodeBirthdate(p, afterName, afterSurname, birthdate);
    DecodeNumber(p, afterName, afterSurname, number);
  }

  /** What the decoder's reads give on such a payload, at the offsets the
      decoder reaches. */
  lemma ReadsOfFields(p: seq<byte>, agency: int, name: seq<byte>, surname: seq<byte>,
                      dni: int, birthdate: int, number: int)
    requires FieldsRead(p, agency, name, surname, dni, birthdate, number)
    ensures var afterSurname := 12 + |name| + |surname|;
      HeadRead(p, agency, name, surname, 8 + |name|, afterSurname)
      && TailRead(p, afterSurname, dni, birthdate, number)
  {
  }

  /** A serialised client bet lays out its fields as the decoder expects. */
  lemma BetFieldsRead(b: ClientBets.Bet)
    requires |b.name| < Pow256(4) && |b.surname| < Pow256(4)
    ensures FieldsRead(ClientBets.ToBytes(b), b.agency % Pow256(4), b.name, b.surname,
                       b.dni % Pow256(4), b.birthdate, b.number % Pow256(4))
  {
    ClientBets.BetLayout(b);
  }

  /** Fields laid out in `r` read the same, at the decoder's offsets, with
      any bytes after it. */
  lemma PaddedReads(r: seq<byte>, rest: seq<byte>, agency: int, name: seq<byte>, surname: seq<byte>,
                    dni: int, birthdate: int, number: int)
    requires FieldsRead(r, agency, name, surname, dni, birthdate, number)
    ensures var afterSurname := 12 + |name| + |surname|;
      HeadRead(r + rest, agency, name, surname, 8 + |name|, afterSurname)
      && TailRead(r + rest, afterSurname, dni, birthdate, number)
  {
    FieldsReadPadded(r, rest, agency, name, surname, dni, birthdate, number);
    ReadsOfFields(r + rest, agency, name, surname, dni, birthdate, number);
  }

  /** Fields laid out at the front of a payload decode as themselves,
      whatever follows them. */
  lemma PaddedDecodes(r: seq<byte>, rest: seq<byte>, agency: int, name: seq<byte>, surname: seq<byte>,
                      dni: int, birthdate: int, number: int)
    requires FieldsRead(r, agency, name, surname, dni, birthdate, number)
    ensures ServerSocket.DecodeRegisterBet(r + rest) == ServerMessages.RegisterBet(agency, name, surname, dni, birthdate, number)
  {
    PaddedReads(r, rest, agency, name, surname, dni, birthdate, number);
    DecodeFields(r + rest, agency, name, surname, dni, birthdate, number, 8 + |name|, 12 + |name| + |surname|);
  }

  /** The server decodes a client's serialised bet, whatever follows it, to
      the same bet, with agency, dni and number cut to their low 32 bits as
      the client's `uint32(...)` conversions leave them. */
  lemma ClientBetDecodes(b: ClientBets.Bet, rest: seq<byte>)
    requires |b.name| < Pow256(4) && |b.surname| < Pow256(4)
    ensures ServerSocket.DecodeRegisterBet(ClientBets.ToBytes(b) + rest)
      == ServerMessages.RegisterBet(b.agency % Pow256(4), b.name, b.surname,
                                    b.dni % Pow256(4), b.birthdate, b.number % Pow256(4))
  {
    BetFieldsRead(b);
    PaddedDecodes(ClientBets.ToBytes(b), rest, b.agency % Pow256(4), b.name, b.surname,
                  b.dni % Pow256(4), b.birthdate, b.number % Pow256(4));
  }
}
