/** The client's bet record, its binary serialisation and the CSV bet source
    (client/common/bet.go). Go strings are byte strings here. Go's `int` is
    64 bits wide; a `time.Time` birthdate is represented by its Unix value. */
module ClientBets {
  import opened Wrappers
  import opened Bytes

  type Int64 = x: int | -0x8000_0000_0000_0000 <= x < 0x8000_0000_0000_0000

  const COMMA: byte := 44
  const CSV_FIELDS_COUNT := 5
  const CSV_NAME_ROW_KEY := 0
  const CSV_SURNAME_ROW_KEY := 1
  const CSV_DNI_ROW_KEY := 2
  const CSV_BIRTHDATE_ROW_KEY := 3
  const CSV_NUMBER_ROW_KEY := 4

  /** `Bet`; the datatype constructor plays the part of `NewBet`. */
  datatype Bet = Bet(agency: Int64, name: seq<byte>, surname: seq<byte>, dni: Int64, birthdate: Int64, number: Int64)

  /** `Bet.ToBytes` with big-endian order: agency, name length, name, surname
      length, surname, dni, birthdate, number. `uint32(...)` keeps the low 32
      bits of agency, dni, number and the two lengths; the birthdate is the
      signed 64-bit Unix value. */
  function ToBytes(b: Bet): (r: seq<byte>)
    ensures |r| == 28 + |b.name| + |b.surname|
  {
    ToBE(b.agency, 4)
    + ToBE(|b.name|, 4) + b.name
    + ToBE(|b.surname|, 4) + b.surname
    + ToBE(b.dni, 4)
    + ToBE(b.birthdate, 8)
    + ToBE(b.number, 4)
  }

  /** Where each field of `ToBytes(b)` sits. */
  lemma BetSlices(b: Bet)
    ensures var r, n, s := ToBytes(b), |b.name|, |b.surname|;
            && r[..4] == ToBE(b.agency, 4)
            && r[4..8] == ToBE(n, 4) && r[8..8 + n] == b.name
            && r[8 + n..12 + n] == ToBE(s, 4) && r[12 + n..12 + n + s] == b.surname
            && r[12 + n + s..16 + n + s] == ToBE(b.dni, 4)
            && r[16 + n + s..24 + n + s] == ToBE(b.birthdate, 8)
            && r[24 + n + s..28 + n + s] == ToBE(b.number, 4)
  {
    var r, n, s := ToBytes(b), |b.name|, |b.surname|;
    var h := ToBE(b.agency, 4);
    assert r[..4] == h;
    BetFieldsAt(4, r, h, ToBE(n, 4), b.name, ToBE(s, 4), b.surname,
                ToBE(b.dni, 4), ToBE(b.birthdate, 8), ToBE(b.number, 4));
    assert r[..4] == h;
  }

  /** What each field of `ToBytes(b)` reads back as: agency, dni and number
      modulo 2^32, the lengths of name and surname (when they fit in 32 bits)
      right before them, the birthdate exactly. */
  lemma BetLayout(b: Bet)
    requires |b.name| < Pow256(4) && |b.surname| < Pow256(4)
    ensures var r, n, s := ToBytes(b), |b.name|, |b.surname|;
            && FromBE(r[..4]) == b.agency % Pow256(4)
            && FromBE(r[4..8]) == n && r[8..8 + n] == b.name
            && FromBE(r[8 + n..12 + n]) == s && r[12 + n..12 + n + s] == b.surname
            && FromBE(r[12 + n + s..16 + n + s]) == b.dni % Pow256(4)
            && FromBESigned(r[16 + n + s..24 + n + s]) == b.birthdate
            && FromBE(r[24 + n + s..28 + n + s]) == b.number % Pow256(4)
  {
    BetSlices(b);
    TruncatedRoundTrip(b.agency, 4);
    UnsignedRoundTrip(|b.name|, 4);
    UnsignedRoundTrip(|b.surname|, 4);
    TruncatedRoundTrip(b.dni, 4);
    assert Pow256(8) == 0x1_0000_0000_0000_0000 by {
      assert Pow256(4) == 0x1_0000_0000 by { assert Pow256(2) == 65536; }
    }
    SignedRoundTrip(b.birthdate, 8);
    TruncatedRoundTrip(b.number, 4);
  }

  // ---------------------------------------------------------------------
  // Text helpers: strings.Split and strings.TrimSpace
  // ---------------------------------------------------------------------

  /** The ASCII white space `strings.TrimSpace` removes. */
  predicate IsSpace(c: byte)
  {
    c == 9 || c == 10 || c == 11 || c == 12 || c == 13 || c == 32
  }

  /** How many white-space bytes s starts with. */
  function LeadingSpaces(s: seq<byte>): (n: nat)
    ensures n <= |s|
    ensures forall k :: 0 <= k < n ==> IsSpace(s[k])
    ensures n < |s| ==> !IsSpace(s[n])
  {
    if s != [] && IsSpace(s[0]) then 1 + LeadingSpaces(s[1..]) else 0
  }

  /** How many white-space bytes s ends with. */
  function TrailingSpaces(s: seq<byte>): (n: nat)
    ensures n <= |s|
    ensures forall k :: |s| - n <= k < |s| ==> IsSpace(s[k])
    ensures n < |s| ==> !IsSpace(s[|s| - n - 1])
  {
    if s != [] && IsSpace(s[|s| - 1]) then 1 + TrailingSpaces(s[..|s| - 1]) else 0
  }

  /** `strings.TrimSpace`: s without its leading and trailing white space; the
      result has no space at either end and is empty exactly when s is all
      space. */
  function TrimSpace(s: seq<byte>): (r: seq<byte>)
    ensures r != [] ==> !IsSpace(r[0]) && !IsSpace(r[|r| - 1])
    ensures r == [] <==> forall k :: 0 <= k < |s| ==> IsSpace(s[k])
  {
    var l := s[LeadingSpaces(s)..];
    l[..|l| - TrailingSpaces(l)]
  }

  /** What `strings.TrimSpace` removes is white space only: its result is the
      contiguous piece of s left once a run of spaces is cut from each end. */
  lemma TrimSpacePiece(s: seq<byte>)
    ensures exists i, j :: && 0 <= i <= j <= |s| && TrimSpace(s) == s[i..j]
                           && (forall k :: 0 <= k < i ==> IsSpace(s[k]))
                           && (forall k :: j <= k < |s| ==> IsSpace(s[k]))
  {
    var i := LeadingSpaces(s);
    var l := s[i..];
    var j := i + |l| - TrailingSpaces(l);
    assert TrimSpace(s) == s[i..j];
    assert forall k :: j <= k < |s| ==> s[k] == l[k - i];
  }

  /** `strings.Split(s, sep)`: the pieces between separators, in order; the
      empty string gives one empty piece. */
  function Split(s: seq<byte>, sep: byte): (r: seq<seq<byte>>)
    ensures |r| == Count(s, sep) + 1
  {
    if s == [] then [[]]
    else
      var rest := Split(s[1..], sep);
      if s[0] == sep then [[]] + rest else [[s[0]] + rest[0]] + rest[1..]
  }

  /** Gluing pieces back together with the separator. */
  function Join(pieces: seq<seq<byte>>, sep: byte): seq<byte>
    requires |pieces| >= 1
  {
    if |pieces| == 1 then pieces[0] else pieces[0] + [sep] + Join(pieces[1..], sep)
  }

  function Count(s: seq<byte>, c: byte): nat
  {
    if s == [] then 0 else (if s[0] == c then 1 else 0) + Count(s[1..], c)
  }

  /** Splitting loses nothing: joining the pieces gives s back. */
  lemma {:induction false} SplitJoin(s: seq<byte>, sep: byte)
    ensures Join(Split(s, sep), sep) == s
  {
    if s != [] {
      var rest := Split(s[1..], sep);
      SplitJoin(s[1..], sep);
      if s[0] == sep {
        assert Split(s, sep) == [[]] + rest;
        assert ([[]] + rest)[1..] == rest;
      } else {
        var pieces := [[s[0]] + rest[0]] + rest[1..];
        if |rest| == 1 {
          assert Join(pieces, sep) == [s[0]] + rest[0];
        } else {
          assert pieces[1..] == rest[1..];
          assert Join(rest, sep) == rest[0] + [sep] + Join(rest[1..], sep);
        }
      }
    }
  }

  /** No piece holds a separator. */
  lemma {:induction false} SplitPieces(s: seq<byte>, sep: byte)
    ensures forall i :: 0 <= i < |Split(s, sep)| ==> sep !in Split(s, sep)[i]
  {
    if s != [] {
      SplitPieces(s[1..], sep);
      var rest := Split(s[1..], sep);
      if s[0] != sep {
        var pieces := Split(s, sep);
        forall i | 0 <= i < |pieces| ensures sep !in pieces[i] {
          if i == 0 {
            assert pieces[0] == [s[0]] + rest[0];
          } else {
            assert pieces[i] == rest[i];
          }
        }
      }
    }
  }

  /** One step of `Split`: the first byte either closes an empty first piece
      or is prepended to the first piece of the rest. */
  lemma SplitCons(c: byte, t: seq<byte>, sep: byte)
    ensures Split([c] + t, sep)
            == if c == sep then [[]] + Split(t, sep)
               else [[c] + Split(t, sep)[0]] + Split(t, sep)[1..]
  {
    assert ([c] + t)[1..] == t;
  }

  /** Splitting at a separator splits the pieces: the pieces of `a + [sep] + b`
      are those of a followed by those of b. */
  lemma {:induction false} SplitAppend(a: seq<byte>, b: seq<byte>, sep: byte)
    ensures Split(a + [sep] + b, sep) == Split(a, sep) + Split(b, sep)
  {
    if a == [] {
      assert a + [sep] + b == [sep] + b;
      SplitCons(sep, b, sep);
    } else {
      var c, a' := a[0], a[1..];
      var t := a' + [sep] + b;
      assert a + [sep] + b == [c] + t;
      assert a == [c] + a';
      SplitAppend(a', b, sep);
      SplitCons(c, t, sep);
      SplitCons(c, a', sep);
      PiecesAppend(c, sep, Split(a', sep), Split(b, sep));
    }
  }

  /** The list manipulation behind `SplitAppend`'s inductive step: prepending
      a byte to the pieces of `ra + rb` touches only the pieces of ra. */
  lemma PiecesAppend(c: byte, sep: byte, ra: seq<seq<byte>>, rb: seq<seq<byte>>)
    requires |ra| >= 1
    ensures (if c == sep then [[]] + (ra + rb) else [[c] + (ra + rb)[0]] + (ra + rb)[1..])
            == (if c == sep then [[]] + ra else [[c] + ra[0]] + ra[1..]) + rb
  {
    if c == sep {
      assert [[]] + (ra + rb) == ([[]] + ra) + rb;
    } else {
      var p0: seq<seq<byte>> := [[c] + ra[0]];
      assert (ra + rb)[1..] == ra[1..] + rb;
      assert p0 + (ra[1..] + rb) == (p0 + ra[1..]) + rb;
    }
  }

  // ---------------------------------------------------------------------
  // parseLine
  // ---------------------------------------------------------------------

  /** `strconv.Atoi` and `time.Parse("2006-01-02", ...)` followed by `Unix()`,
      which are library code outside this model. */
  datatype Parsers = Parsers(atoi: seq<byte> -> Option<Int64>, parseDate: seq<byte> -> Option<Int64>)

  datatype ParseError = InvalidRow | InvalidDni | InvalidBirthdate | InvalidNumber

  /** The field conversions of `parseLine`, on a row known to have at least
      five fields. */
  function ParseRow(agencyID: Int64, row: seq<seq<byte>>, parsers: Parsers): (r: Result<Bet, ParseError>)
    requires |row| >= CSV_FIELDS_COUNT
    ensures r != Err(InvalidRow)
    ensures var dni := parsers.atoi(TrimSpace(row[CSV_DNI_ROW_KEY]));
            var birthdate := parsers.parseDate(TrimSpace(row[CSV_BIRTHDATE_ROW_KEY]));
            var number := parsers.atoi(TrimSpace(row[CSV_NUMBER_ROW_KEY]));
            && (r.Ok? <==> dni.Some? && birthdate.Some? && number.Some?)
            && (dni.None? ==> r == Err(InvalidDni))
            && (dni.Some? && birthdate.None? ==> r == Err(InvalidBirthdate))
            && (dni.Some? && birthdate.Some? && number.None? ==> r == Err(InvalidNumber))
    ensures r.Ok? ==> && r.value.agency == agencyID
                      && r.value.name == TrimSpace(row[CSV_NAME_ROW_KEY])
                      && r.value.surname == TrimSpace(row[CSV_SURNAME_ROW_KEY])
                      && parsers.atoi(TrimSpace(row[CSV_DNI_ROW_KEY])) == Some(r.value.dni)
                      && parsers.parseDate(TrimSpace(row[CSV_BIRTHDATE_ROW_KEY])) == Some(r.value.birthdate)
                      && parsers.atoi(TrimSpace(row[CSV_NUMBER_ROW_KEY])) == Some(r.value.number)
  {
    var name := TrimSpace(row[CSV_NAME_ROW_KEY]);
    var surname := TrimSpace(row[CSV_SURNAME_ROW_KEY]);
    match parsers.atoi(TrimSpace(row[CSV_DNI_ROW_KEY]))
    case None => Err(InvalidDni)
    case Some(dni) =>
      match parsers.parseDate(TrimSpace(row[CSV_BIRTHDATE_ROW_KEY]))
      case None => Err(InvalidBirthdate)
      case Some(birthdate) =>
        match parsers.atoi(TrimSpace(row[CSV_NUMBER_ROW_KEY]))
        case None => Err(InvalidNumber)
        case Some(number) => Ok(Bet(agencyID, name, surname, dni, birthdate, number))
  }

  /** `parseLine`: split on commas, reject rows with fewer than five fields,
      trim every field, convert dni, birthdate and number, and stamp the
      provider's agency on the bet. Fields after the fifth are ignored. */
  function ParseLine(agencyID: Int64, line: seq<byte>, parsers: Parsers): (r: Result<Bet, ParseError>)
    ensures r == Err(InvalidRow) <==> Count(line, COMMA) < CSV_FIELDS_COUNT - 1
  {
    var row := Split(line, COMMA);
    if |row| < CSV_FIELDS_COUNT then Err(InvalidRow) else ParseRow(agencyID, row, parsers)
  }

  /** A line with at least five fields is decided by its fields as
      `ParseRow` decides them; a parsed bet carries the provider's agency and
      the trimmed name and surname. */
  lemma ParseLineFields(agencyID: Int64, line: seq<byte>, parsers: Parsers)
    ensures var r := ParseLine(agencyID, line, parsers);
            var row := Split(line, COMMA);
            && (|row| >= CSV_FIELDS_COUNT ==> r == ParseRow(agencyID, row, parsers))
            && (r.Ok? ==> && |row| >= CSV_FIELDS_COUNT && r.value.agency == agencyID
                          && r.value.name == TrimSpace(row[CSV_NAME_ROW_KEY])
                          && r.value.surname == TrimSpace(row[CSV_SURNAME_ROW_KEY]))
  {
  }

  /** `parseLine` looks only at the first five fields. */
  lemma ParseRowFirstFive(agencyID: Int64, row: seq<seq<byte>>, row': seq<seq<byte>>, parsers: Parsers)
    requires |row| >= CSV_FIELDS_COUNT && |row'| >= CSV_FIELDS_COUNT
    requires row[..CSV_FIELDS_COUNT] == row'[..CSV_FIELDS_COUNT]
    ensures ParseRow(agencyID, row, parsers) == ParseRow(agencyID, row', parsers)
  {
    assert forall i :: 0 <= i < CSV_FIELDS_COUNT ==> row[i] == row[..CSV_FIELDS_COUNT][i];
    assert forall i :: 0 <= i < CSV_FIELDS_COUNT ==> row'[i] == row'[..CSV_FIELDS_COUNT][i];
  }

  /** Extra fields are ignored: appending `,extra` to a row that already has
      five fields does not change the result. */
  lemma ParseLineIgnoresExtraFields(agencyID: Int64, line: seq<byte>, extra: seq<byte>, parsers: Parsers)
    requires Count(line, COMMA) >= CSV_FIELDS_COUNT - 1
    ensures ParseLine(agencyID, line + [COMMA] + extra, parsers) == ParseLine(agencyID, line, parsers)
  {
    SplitAppend(line, extra, COMMA);
    var row, row' := Split(line, COMMA), Split(line + [COMMA] + extra, COMMA);
    assert row'[..5] == row[..5];
    ParseRowFirstFive(agencyID, row, row', parsers);
  }
}
