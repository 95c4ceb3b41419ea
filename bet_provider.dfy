/** `CsvBetProvider` (client/common/bet.go): a one-bet lookahead over the lines
    of the agency's CSV file. The file is given as the lines the scanner yields,
    whether opening it fails, and whether the scan ends in a read error instead
    of a clean end of file. */
module BetProvider {
  import opened Wrappers
  import opened Bytes
  import opened ClientBets

  datatype Source = Source(agencyID: Int64, lines: seq<seq<byte>>, openFails: bool, scanFails: bool, parsers: Parsers)

  /** The errors `NewCsvBetProvider`, `readNextLine` and `parseLine` return. */
  datatype ProviderError = OpenFailed | ReadError | InvalidLine(reason: ParseError)

  /** What `readNextLine` returns: a trimmed non-blank line, `io.EOF`, or the
      scanner's error. */
  datatype LineRead = Line(text: seq<byte>) | EndOfLines | ReadFailed

  /** The provider's fields other than the file: how many lines the scanner has
      consumed, `nextBet`, `nextBetErr` and `eof`. */
  datatype Lookahead = Lookahead(pos: nat, nextBet: Option<Bet>, nextBetErr: Option<ProviderError>, eof: bool)

  /** The state `NewCsvBetProvider` builds before preloading. */
  const Initial := Lookahead(0, None, None, false)

  /** What `NextBet` hands back: a bet, or no bet together with `nextBetErr`
      (which may itself be nil). */
  datatype Delivery = Delivered(bet: Bet) | NoBet(err: Option<ProviderError>)

  /** A line `readNextLine` skips: all white space, so nothing is left once it
      is trimmed. */
  predicate Blank(line: seq<byte>)
  {
    forall k :: 0 <= k < |line| ==> IsSpace(line[k])
  }

  /** Where the scan starting at line `pos` stops: the first line that is not
      blank, or the end; every line before it is blank. */
  function FirstNonBlank(lines: seq<seq<byte>>, pos: nat): (i: nat)
    requires pos <= |lines|
    ensures pos <= i <= |lines|
    ensures forall k :: pos <= k < i ==> Blank(lines[k])
    ensures i < |lines| ==> !Blank(lines[i])
    decreases |lines| - pos
  {
    if pos == |lines| || !Blank(lines[pos]) then pos else FirstNonBlank(lines, pos + 1)
  }

  /** One line of the scan: its trimmed text is empty exactly when it is
      blank, in which case the scan goes on past it, and otherwise stops at it. */
  lemma ScanStep(lines: seq<seq<byte>>, pos: nat)
    requires pos < |lines|
    ensures TrimSpace(lines[pos]) == [] <==> Blank(lines[pos])
    ensures Blank(lines[pos]) ==> FirstNonBlank(lines, pos) == FirstNonBlank(lines, pos + 1)
    ensures !Blank(lines[pos]) ==> FirstNonBlank(lines, pos) == pos
  {
  }

  /** `readNextLine` from line `pos` on: the first non-blank line, trimmed,
      and the position after it. At the end of the lines the scanner reports
      its error, if any, and otherwise EOF. */
  function NextNonBlankLine(lines: seq<seq<byte>>, pos: nat, scanFails: bool): (r: (LineRead, nat))
    requires pos <= |lines|
    ensures pos <= r.1 <= |lines|
    ensures r.0.Line? ==> r.0.text != [] && r.1 == FirstNonBlank(lines, pos) + 1
    ensures r.0.Line? ==> r.0.text == TrimSpace(lines[FirstNonBlank(lines, pos)])
    ensures !r.0.Line? ==> r.1 == |lines| && (r.0.ReadFailed? <==> scanFails)
    ensures !r.0.Line? <==> forall k :: pos <= k < |lines| ==> Blank(lines[k])
  {
    var i := FirstNonBlank(lines, pos);
    if i == |lines| then (if scanFails then ReadFailed else EndOfLines, i)
    else (Line(TrimSpace(lines[i])), i + 1)
  }

  /** The provider's own invariant: the scanner never runs past the lines, and
      `eof` is only set with no bet loaded once every line is consumed. */
  predicate Consistent(src: Source, st: Lookahead)
  {
    st.pos <= |src.lines| && (st.eof ==> st.nextBet == None && st.pos == |src.lines|)
  }

  /** `loadNext`: nothing once `eof` is set; otherwise read the next non-blank
      line and parse it. At EOF the lookahead is emptied and `eof` set; on a
      read or parse error the error is returned and `nextBet` is left as it
      was; on success the parsed bet is loaded. */
  function LoadNextStep(src: Source, st: Lookahead): (r: (Lookahead, Option<ProviderError>))
    requires Consistent(src, st)
    ensures Consistent(src, r.0)
    ensures r.0.nextBetErr == st.nextBetErr
    ensures st.eof ==> r == (st, None)
    ensures r.1.Some? ==> r.0.nextBet == st.nextBet && !r.0.eof
    ensures r.1 == None ==> (r.0.nextBet.Some? <==> !r.0.eof)
    ensures !st.eof ==>
      var (line, pos) := NextNonBlankLine(src.lines, st.pos, src.scanFails);
      && r.0.pos == pos
      && (line.EndOfLines? ==> r.0.eof && r.0.nextBet == None && r.1 == None)
      && (line.ReadFailed? ==> r.1 == Some(ReadError))
      && (line.Line? ==>
            var bet := ParseLine(src.agencyID, line.text, src.parsers);
            && (bet.Ok? ==> r.0.nextBet == Some(bet.value) && !r.0.eof && r.1 == None)
            && (bet.Err? ==> r.1 == Some(InvalidLine(bet.error))))
  {
    if st.eof then (st, None)
    else
      var (line, pos) := NextNonBlankLine(src.lines, st.pos, src.scanFails);
      match line
      case EndOfLines => (st.(pos := pos, nextBet := None, eof := true), None)
      case ReadFailed => (st.(pos := pos), Some(ReadError))
      case Line(text) =>
        match ParseLine(src.agencyID, text, src.parsers)
        case Err(e) => (st.(pos := pos), Some(InvalidLine(e)))
        case Ok(bet) => (st.(pos := pos, nextBet := Some(bet)), None)
  }

  /** The non-blank lines from line `pos` on, by index, in file order: the
      lines successive `loadNext` calls parse. */
  function NonBlankFrom(lines: seq<seq<byte>>, pos: nat): (r: seq<nat>)
    requires pos <= |lines|
    ensures forall k :: 0 <= k < |r| ==> pos <= r[k] < |lines|
    decreases |lines| - pos
  {
    if pos == |lines| then []
    else if Blank(lines[pos]) then NonBlankFrom(lines, pos + 1)
    else [pos] + NonBlankFrom(lines, pos + 1)
  }

  /** `NonBlankFrom` lists exactly the non-blank lines from `pos` on, each
      once and in increasing order. */
  lemma {:induction false} NonBlankFromLists(lines: seq<seq<byte>>, pos: nat)
    requires pos <= |lines|
    ensures var r := NonBlankFrom(lines, pos);
            && (forall k :: 0 <= k < |r| ==> !Blank(lines[r[k]]))
            && (forall k, l :: 0 <= k < l < |r| ==> r[k] < r[l])
            && (forall n :: pos <= n < |lines| && !Blank(lines[n]) ==> n in r)
    decreases |lines| - pos
  {
    if pos < |lines| {
      NonBlankFromLists(lines, pos + 1);
    }
  }

  /** The non-blank lines from `pos` start with the line the blank-skipping
      scan stops at. */
  lemma {:induction false} NonBlankFromFirst(lines: seq<seq<byte>>, pos: nat)
    requires pos <= |lines|
    ensures var i := FirstNonBlank(lines, pos);
            NonBlankFrom(lines, pos) == if i == |lines| then [] else [i] + NonBlankFrom(lines, i + 1)
    decreases |lines| - pos
  {
    if pos < |lines| && Blank(lines[pos]) {
      NonBlankFromFirst(lines, pos + 1);
    }
  }

  /** What `parseLine` makes of line i once `readNextLine` has trimmed it. */
  function LineResult(src: Source, i: nat): Result<Bet, ParseError>
    requires i < |src.lines|
  {
    ParseLine(src.agencyID, TrimSpace(src.lines[i]), src.parsers)
  }

  /** Every line listed in `idx` parses to a bet. */
  predicate AllParse(src: Source, idx: seq<nat>)
  {
    idx != [] ==> idx[0] < |src.lines| && LineResult(src, idx[0]).Ok? && AllParse(src, idx[1..])
  }

  /** When the rest of the file parses and the scan ends cleanly, `loadNext`
      loads the bet of the next non-blank line, or sets `eof` when there is
      none, and the non-blank lines after the new position are the others. */
  lemma LoadNextParsed(src: Source, st: Lookahead)
    requires Consistent(src, st) && !st.eof && !src.scanFails
    requires AllParse(src, NonBlankFrom(src.lines, st.pos))
    ensures var (next, err) := LoadNextStep(src, st);
            var idx := NonBlankFrom(src.lines, st.pos);
            && err == None
            && (idx == [] ==> next.eof && next.nextBet == None)
            && (idx != [] ==> && !next.eof && next.nextBet == Some(LineResult(src, idx[0]).value)
                              && NonBlankFrom(src.lines, next.pos) == idx[1..])
  {
    if FirstNonBlank(src.lines, st.pos) < |src.lines| {
      LoadNextParsedSome(src, st);
    } else {
      LoadNextParsedEnd(src, st);
    }
  }

  /** The case of `LoadNextParsed` where a non-blank line remains. */
  lemma LoadNextParsedSome(src: Source, st: Lookahead)
    requires Consistent(src, st) && !st.eof
    requires FirstNonBlank(src.lines, st.pos) < |src.lines|
    requires AllParse(src, NonBlankFrom(src.lines, st.pos))
    ensures var (next, err) := LoadNextStep(src, st);
            var idx := NonBlankFrom(src.lines, st.pos);
            && idx != [] && err == None && !next.eof && next.nextBet == Some(LineResult(src, idx[0]).value)
            && NonBlankFrom(src.lines, next.pos) == idx[1..]
  {
    NonBlankFromSplit(src.lines, st.pos);
    LoadNextParsedLine(src, st, FirstNonBlank(src.lines, st.pos));
    NonBlankAfterFirst(src.lines, st.pos, LoadNextStep(src, st).0.pos);
  }

  /** When a non-blank line remains, the non-blank lines from `pos` are the
      one the scan stops at followed by those after it. */
  lemma NonBlankFromSplit(lines: seq<seq<byte>>, pos: nat)
    requires pos <= |lines| && FirstNonBlank(lines, pos) < |lines|
    ensures var i, idx := FirstNonBlank(lines, pos), NonBlankFrom(lines, pos);
            idx != [] && idx[0] == i && idx[1..] == NonBlankFrom(lines, i + 1)
  {
    NonBlankFromFirst(lines, pos);
    var i := FirstNonBlank(lines, pos);
    var t := NonBlankFrom(lines, i + 1);
    assert ([i] + t)[1..] == t;
  }

  /** The non-blank lines after the one the scan stops at are the rest of
      those from `pos`. */
  lemma NonBlankAfterFirst(lines: seq<seq<byte>>, pos: nat, next: nat)
    requires pos <= |lines| && FirstNonBlank(lines, pos) < |lines|
    requires next == FirstNonBlank(lines, pos) + 1
    ensures NonBlankFrom(lines, pos) != [] && NonBlankFrom(lines, next) == NonBlankFrom(lines, pos)[1..]
  {
    NonBlankFromSplit(lines, pos);
  }

  /** The case of `LoadNextParsed` where only blank lines remain. */
  lemma LoadNextParsedEnd(src: Source, st: Lookahead)
    requires Consistent(src, st) && !st.eof && !src.scanFails
    requires FirstNonBlank(src.lines, st.pos) == |src.lines|
    ensures var (next, err) := LoadNextStep(src, st);
            NonBlankFrom(src.lines, st.pos) == [] && err == None && next.eof && next.nextBet == None
  {
    NonBlankFromFirst(src.lines, st.pos);
    assert NextNonBlankLine(src.lines, st.pos, src.scanFails).0 == EndOfLines;
  }

  /** The case of `LoadNextParsed` where a non-blank line `i` remains. */
  lemma LoadNextParsedLine(src: Source, st: Lookahead, i: nat)
    requires Consistent(src, st) && !st.eof
    requires i == FirstNonBlank(src.lines, st.pos) < |src.lines|
    requires LineResult(src, i).Ok?
    ensures var (next, err) := LoadNextStep(src, st);
            && err == None && !next.eof && next.pos == i + 1
            && next.nextBet == Some(LineResult(src, i).value)
  {
    var read := NextNonBlankLine(src.lines, st.pos, src.scanFails);
    assert read.0 == Line(TrimSpace(src.lines[i])) && read.1 == i + 1;
    assert ParseLine(src.agencyID, read.0.text, src.parsers) == LineResult(src, i);
  }

  /** A lookahead from which the bets still to come are those of the lines
      `rest`: the first is loaded and the others are the non-blank lines
      after the scanner; with none left, `eof` is set. No error is stored. */
  predicate Pending(src: Source, st: Lookahead, rest: seq<nat>)
  {
    && Consistent(src, st) && st.nextBetErr == None && AllParse(src, rest)
    && (rest == [] ==> st.eof)
    && (rest != [] ==> && !st.eof && st.nextBet == Some(LineResult(src, rest[0]).value)
                       && NonBlankFrom(src.lines, st.pos) == rest[1..])
  }

  /** `NextBet` from a pending state delivers the first of the rest, and the
      others are pending after it; with none left it returns nil and a nil
      error and changes nothing. */
  lemma NextBetAdvances(src: Source, st: Lookahead, rest: seq<nat>)
    requires !src.scanFails && Pending(src, st, rest)
    ensures NextBetStep(src, st).1 == if rest == [] then NoBet(None) else Delivered(LineResult(src, rest[0]).value)
    ensures Pending(src, NextBetStep(src, st).0, if rest == [] then [] else rest[1..])
  {
    if rest != [] {
      LoadNextParsed(src, st);
    }
  }

  /** One `NextBet` call takes a pending state to the next one. */
  lemma PendingStep(src: Source, st: Lookahead, next: Lookahead, rest: seq<nat>, rest': seq<nat>)
    requires !src.scanFails && Pending(src, st, rest)
    requires next == NextBetStep(src, st).0
    requires rest' == if rest == [] then [] else rest[1..]
    ensures Pending(src, next, rest')
  {
    NextBetAdvances(src, st, rest);
  }

  /** After i calls to `NextBet` from a pending state, the first i of the
      rest have been used up. */
  lemma {:induction false} RepeatPending(src: Source, st: Lookahead, rest: seq<nat>, i: nat)
    requires !src.scanFails && Pending(src, st, rest)
    ensures Pending(src, Repeat(src, st, i), if i < |rest| then rest[i..] else [])
    decreases i
  {
    if i == 0 {
      assert rest[0..] == rest;
    } else {
      RepeatPending(src, st, rest, i - 1);
      PendingStep(src, Repeat(src, st, i - 1), Repeat(src, st, i),
                  if i - 1 < |rest| then rest[i - 1..] else [], if i < |rest| then rest[i..] else []);
    }
  }

  /** From the provider `NewCsvBetProvider` builds, when every non-blank line
      parses and the scan ends cleanly: the preload succeeds, the (i+1)-th
      `NextBet` call delivers the bet of the i-th non-blank line, in file
      order, and once they are used up every call returns nil and a nil error. */
  lemma DeliversParsedLines(src: Source, i: nat)
    requires !src.scanFails && AllParse(src, NonBlankFrom(src.lines, 0))
    ensures LoadNextStep(src, Initial).1 == None
    ensures var idx := NonBlankFrom(src.lines, 0);
            var d := NextBetStep(src, Repeat(src, LoadNextStep(src, Initial).0, i)).1;
            && (i < |idx| ==> d.Delivered? && LineResult(src, idx[i]) == Ok(d.bet))
            && (i >= |idx| ==> d == NoBet(None))
  {
    var idx := NonBlankFrom(src.lines, 0);
    LoadNextParsed(src, Initial);
    var st := LoadNextStep(src, Initial).0;
    RepeatPending(src, st, idx, i);
    NextBetAdvances(src, Repeat(src, st, i), if i < |idx| then idx[i..] else []);
  }

  /** `NextBet`: with no bet loaded, nil and `nextBetErr`; otherwise the loaded
      bet, after which `loadNext` runs and its error becomes `nextBetErr`. */
  function NextBetStep(src: Source, st: Lookahead): (r: (Lookahead, Delivery))
    requires Consistent(src, st)
    ensures Consistent(src, r.0)
    ensures r.1.Delivered? <==> st.nextBet.Some?
    ensures r.1.Delivered? ==> r.1.bet == st.nextBet.value
    ensures r.1.NoBet? ==> r == (st, NoBet(st.nextBetErr))
  {
    if st.nextBet.None? then (st, NoBet(st.nextBetErr))
    else
      var (st', err) := LoadNextStep(src, st);
      (st'.(nextBetErr := err), Delivered(st.nextBet.value))
  }

  /** The lookahead a successful `NewCsvBetProvider` hands out: at most one
      blank-skipping read past the start, no stored error. */
  lemma InitialLoad(src: Source)
    requires LoadNextStep(src, Initial).1 == None
    ensures var st := LoadNextStep(src, Initial).0;
            && Consistent(src, st) && st.nextBetErr == None
            && (st.nextBet.Some? <==> !st.eof)
  {
  }

  /** Once `eof` is set, `NextBet` keeps returning no bet and no error, and
      the lookahead never changes again. */
  lemma EofIsFinal(src: Source, st: Lookahead)
    requires Consistent(src, st) && st.eof && st.nextBetErr == None
    ensures NextBetStep(src, st) == (st, NoBet(None))
    ensures NextBetStep(src, NextBetStep(src, st).0) == (st, NoBet(None))
  {
  }

  /** A stored error only ever sits beside a loaded bet: from a state where no
      bet means no error, `NextBet` leads to such a state again. */
  predicate ErrorBesideBet(st: Lookahead)
  {
    st.nextBet == None ==> st.nextBetErr == None
  }

  lemma NextBetKeepsErrorBesideBet(src: Source, st: Lookahead)
    requires Consistent(src, st)
    ensures ErrorBesideBet(st) ==> ErrorBesideBet(NextBetStep(src, st).0)
  {
  }

  /** Consequently `NextBet` never reports the error of a failed preload: it
      either delivers a bet or returns nil with a nil error. */
  lemma NextBetNeverFails(src: Source, st: Lookahead, n: nat)
    requires Consistent(src, st) && ErrorBesideBet(st)
    ensures NextBetStep(src, Repeat(src, st, n)).1 != NoBet(Some(ReadError))
    ensures forall e :: NextBetStep(src, Repeat(src, st, n)).1 != NoBet(Some(InvalidLine(e)))
  {
    RepeatKeepsErrorBesideBet(src, st, n);
  }

  /** Any number of `NextBet` calls keeps a stored error beside a loaded bet. */
  lemma {:induction false} RepeatKeepsErrorBesideBet(src: Source, st: Lookahead, n: nat)
    requires Consistent(src, st) && ErrorBesideBet(st)
    ensures ErrorBesideBet(Repeat(src, st, n))
    decreases n
  {
    if n > 0 {
      RepeatKeepsErrorBesideBet(src, st, n - 1);
      NextBetKeepsErrorBesideBet(src, Repeat(src, st, n - 1));
    }
  }

  /** The lookahead after n calls to `NextBet`. */
  function Repeat(src: Source, st: Lookahead, n: nat): (r: Lookahead)
    requires Consistent(src, st)
    ensures Consistent(src, r)
    decreases n
  {
    if n == 0 then st else NextBetStep(src, Repeat(src, st, n - 1)).0
  }

  /** A failed preload leaves the delivered bet loaded: the next `NextBet`
      delivers the same bet a second time. */
  lemma FailedPreloadRepeatsBet(src: Source, st: Lookahead)
    requires Consistent(src, st) && st.nextBet.Some?
    requires LoadNextStep(src, st).1.Some?
    ensures NextBetStep(src, st).1 == Delivered(st.nextBet.value)
    ensures NextBetStep(src, NextBetStep(src, st).0).1 == Delivered(st.nextBet.value)
  {
  }

  /** A scanner error is sticky: once every line is consumed and the scan
      failed, `NextBet` delivers the loaded bet and stays in the same state,
      so `HasNextBet` never turns false. */
  lemma ReadErrorLoopsForever(src: Source, st: Lookahead)
    requires Consistent(src, st) && st.nextBet.Some? && !st.eof
    requires src.scanFails && st.pos == |src.lines|
    ensures NextBetStep(src, st) == (st.(nextBetErr := Some(ReadError)), Delivered(st.nextBet.value))
    ensures NextBetStep(src, NextBetStep(src, st).0).0 == NextBetStep(src, st).0
  {
  }

  /** `loadNext` as its error path is evidently meant to work: a failed read
      or parse also drops the loaded bet, so that the stored error is what the
      next `NextBet` returns. It detects exactly the errors `loadNext` does. */
  function LoadNextReporting(src: Source, st: Lookahead): (r: (Lookahead, Option<ProviderError>))
    requires Consistent(src, st)
    ensures Consistent(src, r.0)
    ensures r.1 == LoadNextStep(src, st).1
    ensures r.1.Some? ==> r.0.nextBet == None && !r.0.eof
    ensures r.1 == None ==> r.0 == LoadNextStep(src, st).0
  {
    var (next, err) := LoadNextStep(src, st);
    if err.Some? then (next.(nextBet := None), err) else (next, err)
  }

  /** `NextBet` over the corrected `loadNext`. */
  function NextBetReporting(src: Source, st: Lookahead): (r: (Lookahead, Delivery))
    requires Consistent(src, st)
    ensures Consistent(src, r.0)
    ensures r.1.Delivered? <==> st.nextBet.Some?
    ensures r.1.Delivered? ==> r.1.bet == st.nextBet.value
    ensures r.1.NoBet? ==> r == (st, NoBet(st.nextBetErr))
  {
    if st.nextBet.None? then (st, NoBet(st.nextBetErr))
    else
      var (next, err) := LoadNextReporting(src, st);
      (next.(nextBetErr := err), Delivered(st.nextBet.value))
  }

  /** With the correction, the call after a failed preload returns that
      failure and no bet, and every later call does the same, so `HasNextBet`
      turns false and the caller learns why. */
  lemma FailedPreloadReported(src: Source, st: Lookahead)
    requires Consistent(src, st) && st.nextBet.Some?
    requires LoadNextStep(src, st).1.Some?
    ensures var after := NextBetReporting(src, st).0;
            && after.nextBet == None
            && NextBetReporting(src, after) == (after, NoBet(LoadNextStep(src, st).1))
  {
  }

  class CsvBetProvider {
    const src: Source
    var pos: nat
    var nextBet: Option<Bet>
    var nextBetErr: Option<ProviderError>
    var eof: bool

    function State(): Lookahead
      reads this
    {
      Lookahead(pos, nextBet, nextBetErr, eof)
    }

    predicate Valid()
      reads this
    {
      Consistent(src, State())
    }

    constructor (src: Source)
      ensures this.src == src && State() == Initial && Valid()
    {
      this.src := src;
      pos := 0;
      nextBet := None;
      nextBetErr := None;
      eof := false;
    }

    /** `readNextLine`: scan until a line is non-blank after trimming. */
    method ReadNextLine() returns (line: LineRead)
      requires Valid()
      modifies this`pos
      ensures pos <= |src.lines|
      ensures (line, pos) == NextNonBlankLine(src.lines, old(pos), src.scanFails)
    {
      while true
        invariant old(pos) <= pos <= |src.lines|
        invariant FirstNonBlank(src.lines, pos) == FirstNonBlank(src.lines, old(pos))
        decreases |src.lines| - pos
      {
        if pos == |src.lines| {
          line := if src.scanFails then ReadFailed else EndOfLines;
          return;
        }
        var text := TrimSpace(src.lines[pos]);
        ScanStep(src.lines, pos);
        pos := pos + 1;
        if text != [] {
          line := Line(text);
          return;
        }
      }
    }

    /** `loadNext`. */
    method LoadNext() returns (err: Option<ProviderError>)
      requires Valid()
      modifies this`pos, this`nextBet, this`eof
      ensures Valid()
      ensures (State(), err) == LoadNextStep(src, old(State()))
    {
      if eof {
        return None;
      }
      var line := ReadNextLine();
      match line
      case EndOfLines =>
        eof := true;
        nextBet := None;
        err := None;
      case ReadFailed =>
        err := Some(ReadError);
      case Line(text) =>
        var bet := ParseLine(src.agencyID, text, src.parsers);
        if bet.Err? {
          return Some(InvalidLine(bet.error));
        }
        nextBet := Some(bet.value);
        err := None;
    }

    /** `NextBet`. */
    method NextBet() returns (r: Delivery)
      requires Valid()
      modifies this`pos, this`nextBet, this`nextBetErr, this`eof
      ensures Valid()
      ensures (State(), r) == NextBetStep(src, old(State()))
      ensures r.Delivered? <==> old(HasNextBet())
    {
      if nextBet.None? {
        return NoBet(nextBetErr);
      }
      var bet := nextBet.value;
      nextBetErr := LoadNext();
      r := Delivered(bet);
    }

    /** `HasNextBet`: a bet is loaded. */
    predicate HasNextBet()
      reads this
    {
      nextBet.Some?
    }
  }

  /** `NewCsvBetProvider`: open the file, then preload the first bet; a
      failure in either step yields no provider and the error. */
  method NewCsvBetProvider(src: Source) returns (p: CsvBetProvider?, err: Option<ProviderError>)
    ensures src.openFails ==> p == null && err == Some(OpenFailed)
    ensures !src.openFails ==> err == LoadNextStep(src, Initial).1
    ensures p != null <==> !src.openFails && err == None
    ensures p != null ==> fresh(p) && p.src == src && p.Valid() && p.State() == LoadNextStep(src, Initial).0
  {
    if src.openFails {
      return null, Some(OpenFailed);
    }
    var provider := new CsvBetProvider(src);
    err := provider.LoadNext();
    if err.Some? {
      return null, err;
    }
    p := provider;
  }
}
