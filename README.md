# Bet registration protocol — Dafny model

This project models the core of a lottery bet-registration system in Dafny.
Go clients read bets from a CSV file, pack them into binary messages and send
them to a Python server. The server decodes each message, stores the bet,
answers with a confirmation or a refusal and, once every agency is ready,
runs the lottery and groups the winners by agency.

The model follows the source file by file, one module per file:

- `Bytes` holds the big-endian integer encoding that both sides use, with
  Python slicing semantics for the decoder.
- `ServerMessages` covers the server's three message classes and their
  `to_bytes` (`server/common/messages.py`).
- `ServerSocket` covers the server's decoders, the framing in
  `__decode_message`, and a `Connection` class with the `__receive_all`
  loop and `send_message` (`server/common/socket.py`).
- `ClientBets` covers the client `Bet`, its `ToBytes`, and `parseLine` with
  Go's `strings.Split` and `strings.TrimSpace` (`client/common/bet.go`).
  `NewBet` only binds its fields, so it is the datatype constructor
  `ClientBets.Bet`.
- `BetProvider` covers the `CsvBetProvider` lookahead state machine over a
  sequence of lines, as a class proved against step functions.
- `BetWire` relates the client's bet encoding to the server's decoder.
- `ClientMessages` covers the client message structs, their constructors
  and the stub `ToBytes` (`client/common/message.go`).
- `ClientSocket` covers `sendAll`, `SendMessage` and the stub
  `ReceiveMessage`, over a connection whose writes are an oracle
  (`client/common/socket.go`).
- `ClientProtocol` covers the batch admission test `CanGroupBet`,
  `RegisterBets` and the reply classification (`client/common/protocol.go`).
- `ClientLoop` covers the text message and the `StartClientLoop` /
  `runIteration` state machine (`client/common/client.go`).
- `Lottery` covers the `LotteryMonitor` tables, the readiness barrier, the
  once-only lottery and the winners per agency
  (`server/common/lottery_monitor.py`).
- `ServerLoop` covers `Server.run`, the connection handler, the reply choice
  and `stop` (`server/common/server.py`).

Integers are unbounded in the model. Fixed widths are written out where the
source has them:

- Python's `to_bytes` raises OverflowError, so an encoder returns an error
  when a value does not fit its field.
- Go's `uint32(...)` truncates, so the client writes values modulo 2^32.
- Go's `int` is a signed 64-bit value.

## Model

| member | source | states |
|---|---|---|
| Bytes.PySlice | server/common/socket.py:216-257 | a Python slice `payload[i:j]` is clamped to the payload, and is exactly the requested bytes when they lie inside it |
| Bytes.ReadUInt | server/common/socket.py:274-276 | `int.from_bytes` of a w-byte slice is below 256^w; inside the payload it is the big-endian value of those bytes |
| Bytes.ReadInt | server/common/socket.py:246-250 | a signed w-byte read always lies in the two's-complement range of w bytes; inside the payload it is the two's-complement value of those bytes |
| Bytes.UnsignedRoundTrip | server/common/messages.py:94-101 | unsigned `from_bytes` inverts `to_bytes` for every value that fits the width |
| Bytes.SignedRoundTrip | server/common/messages.py:57-60 | signed 8-byte `from_bytes` inverts signed `to_bytes` for every value in range |
| Bytes.TruncatedRoundTrip | client/common/bet.go:64 | a value written through `uint32(...)` reads back as the value modulo 2^32 |
| Bytes.FromBEToBE | server/common/messages.py:36-63 | reading back w big-endian bytes gives the value modulo 256^w |
| Bytes.ToBEFromBE | server/common/socket.py:273-284 | every byte string is the encoding of its own big-endian value |
| ServerMessages.MsgType | server/common/messages.py:1-3 | each message kind has its own tag, 1, 2 or 3, and the tag alone tells the kinds apart |
| ServerMessages.PayloadFacts | server/common/messages.py:29-64 | when every field fits its width, the payload is exactly the announced size: 24 + name + surname bytes, 8 for Ok, 10 for Failed |
| ServerMessages.ToBytes | server/common/messages.py:29-149 | encoding fails with OverflowError exactly when a field or the payload length does not fit; otherwise it is 6 + payload size bytes, and the header reads back as the tag and the payload length |
| ServerMessages.ToBytesShape | server/common/messages.py:65-75 | an encoded message is the 2-byte tag, then the 4-byte payload length, then the payload |
| ServerMessages.RegisterBetPayload | server/common/messages.py:32-64 | the bet payload is name length, name, surname length, surname, dni, birthdate, number, with no agency field |
| ServerMessages.RegisterBetLayout | server/common/messages.py:34-63 | each field of an encoded bet reads back at its offset: both lengths and strings, dni and number unsigned, birthdate signed |
| ServerSocket.ReadLengthPrefixed | server/common/socket.py:224-237 | a length-prefixed string ends 4 + its announced length past its start, and is that slice of the payload |
| ServerSocket.DecodeRegisterBet | server/common/socket.py:199-259 | decoding always yields a bet; agency, dni and number are below 2^32 and the birthdate lies in the signed 64-bit range |
| ServerSocket.DecodeRegisterBetOk | server/common/socket.py:261-284 | decoding yields a confirmation whose dni and number fit 4 bytes, so it can be encoded again |
| ServerSocket.DecodeRegisterBetFailed | server/common/socket.py:286-315 | decoding yields a refusal whose dni, number and error code fit their widths |
| ServerSocket.Dispatch | server/common/socket.py:157-165 | a payload is decoded exactly when its tag is 1, 2 or 3, into the message of that tag; any other tag raises ValueError |
| ServerSocket.ParseFrame | server/common/socket.py:126-165 | a frame is a 2-byte type, an 8-byte length, then that many payload bytes; an announced length of 2^63 or more ends the read right after the header with recv's OverflowError; otherwise the read ends in ConnectionError exactly when the stream is shorter than the header or than the announced payload, and otherwise the result is the dispatch of that type on exactly that payload |
| ServerSocket.FrameRoundTrip | server/common/socket.py:145-165 | a frame laid out as the decoder expects is read back whole, and the bytes after it stay unread, unless its payload is too long for `recv`'s size argument |
| ServerSocket.RegisterBetOkRoundTrip | server/common/socket.py:273-284 | decoding the payload of an encoded confirmation gives the same dni and number |
| ServerSocket.RegisterBetOkPayloadRoundTrip | server/common/socket.py:273-284 | any 8-byte payload re-encodes to itself after decoding |
| ServerSocket.RegisterBetFailedRoundTrip | server/common/socket.py:299-315 | decoding the payload of an encoded refusal gives the same dni, number and error code |
| ServerSocket.RegisterBetFailedPayloadRoundTrip | server/common/socket.py:299-315 | any 10-byte payload re-encodes to itself after decoding |
| ServerSocket.EncodedFrameNotDecodable | server/common/socket.py:145-155 | a message from the server's own encoder, sent alone on a connection, cannot be read back: its 4-byte length is read as part of an 8-byte one; the read runs out with ConnectionError, or fails with recv's OverflowError when the payload has 2^31 bytes or more |
| ServerSocket.LengthMisread | server/common/socket.py:145-153 | the 8-byte length the decoder reads from an encoded message is at least its true 4-byte length times 2^32, and below that length plus one times 2^32 |
| ServerSocket.ServerBetPayloadMisread | server/common/socket.py:216-221 | decoding the server's own bet payload takes the name length as the agency |
| ServerSocket.Connection.constructor | server/common/socket.py:55-73 | a wrapped connection starts open, with nothing sent and the given bytes unread |
| ServerSocket.Connection.Recv | server/common/socket.py:191-192 | `recv` returns at most n of the next unread bytes, in order, and returns nothing exactly at end of stream; a size of 2^63 or more raises OverflowError with nothing read |
| ServerSocket.Connection.ReceiveAll | server/common/socket.py:167-197 | returns exactly the next n bytes, or ConnectionError when the stream ends first, with everything read consumed; for n of 2^63 or more, recv's OverflowError with nothing read |
| ServerSocket.Connection.ReceiveMessage | server/common/socket.py:112-124 | the result is the frame decoder's verdict on the unread bytes, and exactly the frame's bytes are consumed |
| ServerSocket.Connection.SendMessage | server/common/socket.py:97-110 | OverflowError exactly when the message cannot be encoded, with nothing sent; on success the encoding is appended to the sent bytes; a failed `sendall` leaves a prefix of it |
| ServerSocket.Connection.Shutdown | server/common/socket.py:75-82 | the connection is closed |
| ClientBets.ToBytes | client/common/bet.go:61-86 | the encoding of a bet is 28 + name + surname bytes long |
| ClientBets.BetSlices | client/common/bet.go:61-86 | the encoding is agency(4), name length(4), name, surname length(4), surname, dni(4), birthdate(8), number(4), in that order |
| ClientBets.BetLayout | client/common/bet.go:61-86 | each field reads back: agency, dni and number modulo 2^32, the lengths as the string sizes, birthdate as its signed value |
| ClientBets.TrimSpace | client/common/bet.go:203-227 | the trimmed field has no white space at either end, and is empty exactly when the field is all white space |
| ClientBets.TrimSpacePiece | client/common/bet.go:203-227 | the trimmed field is one contiguous piece of the field, and everything cut from either end is white space |
| ClientBets.Split | client/common/bet.go:197 | splitting on commas yields one more piece than there are commas |
| ClientBets.SplitJoin | client/common/bet.go:197 | joining the pieces with commas gives back the line |
| ClientBets.SplitPieces | client/common/bet.go:197 | no piece holds a comma |
| ClientBets.SplitAppend | client/common/bet.go:197 | splitting two texts joined by a comma gives the pieces of the first followed by the pieces of the second |
| ClientBets.ParseRow | client/common/bet.go:202-227 | a row of five fields is never an invalid row; it parses exactly when the trimmed dni, birthdate and number all convert, and otherwise fails on the first of them that does not, in that order; a parsed bet carries the provider's agency, the trimmed name and surname, and the converted values |
| ClientBets.ParseLine | client/common/bet.go:195-200 | a line is an invalid row exactly when it has fewer than 4 commas, that is fewer than 5 fields |
| ClientBets.ParseLineFields | client/common/bet.go:195-228 | a line with at least 5 fields is decided by its fields as `ParseRow` decides them; a parsed bet carries the provider's agency and the trimmed name and surname fields |
| ClientBets.ParseRowFirstFive | client/common/bet.go:197-227 | two rows that agree on their first five fields parse the same |
| ClientBets.ParseLineIgnoresExtraFields | client/common/bet.go:197-200 | appending further comma-separated fields does not change the parsed bet |
| BetWire.ReadsOfFields | server/common/socket.py:215-257 | a payload in the client's layout is read field by field at strictly increasing offsets, ending at 28 + name + surname |
| BetWire.PaddedDecodes | server/common/socket.py:199-259 | trailing bytes after a bet payload do not change what is decoded |
| BetWire.ClientBetDecodes | server/common/socket.py:199-259 | the server decodes the client's bet encoding to the same name, surname and birthdate, and to agency, dni and number modulo 2^32 |
| BetProvider.FirstNonBlank | client/common/bet.go:172-191 | the first line from a position whose trimmed text is non-empty, or the end |
| BetProvider.ScanStep | client/common/bet.go:184-189 | a line trims to the empty text exactly when it is blank; the scan moves past a blank line and stops at a non-blank one |
| BetProvider.NextNonBlankLine | client/common/bet.go:172-191 | skips blank lines and returns the first non-blank line, trimmed, with the position past it; when only blank lines remain it is EOF, or the scanner's error when the scan failed |
| BetProvider.LoadNextStep | client/common/bet.go:141-168 | after EOF nothing changes; otherwise the next non-blank line is read: at the end EOF is set and the bet cleared, a read error is returned, a parse error is returned with the loaded bet left in place, and a parsed line becomes the loaded bet |
| BetProvider.NextBetStep | client/common/bet.go:231-239 | a loaded bet is delivered and the next one preloaded; without one, the stored error is reported and nothing changes |
| BetProvider.NonBlankFromLists | client/common/bet.go:172-191 | the indices `NonBlankFrom` yields are exactly the non-blank lines from a position on, each once, in file order |
| BetProvider.NonBlankFromFirst | client/common/bet.go:172-191 | the non-blank lines from a position start with the line the blank-skipping scan stops at |
| BetProvider.LoadNextParsed | client/common/bet.go:141-168 | when the rest of the file parses and the scan ends cleanly, `loadNext` loads the bet of the next non-blank line and leaves the others pending, or sets EOF when none remains, without error |
| BetProvider.NextBetAdvances | client/common/bet.go:230-239 | from a state where the bets of some lines are pending, `NextBet` delivers the first of them and the others stay pending; with none left it returns nil and a nil error |
| BetProvider.RepeatPending | client/common/bet.go:230-239 | after i calls of `NextBet` the first i pending lines have been used up |
| BetProvider.DeliversParsedLines | client/common/bet.go:113-239 | when every non-blank line parses and the scan ends cleanly, the preload succeeds and the (i+1)-th `NextBet` delivers the bet of the i-th non-blank line, in file order; afterwards every call returns nil and a nil error |
| BetProvider.InitialLoad | client/common/bet.go:113-137 | when the first preload succeeds, no error is stored and a bet is loaded exactly when EOF was not reached |
| BetProvider.EofIsFinal | client/common/bet.go:141-153 | once EOF is set, `NextBet` returns no bet and no error, and repeated calls change nothing |
| BetProvider.NextBetKeepsErrorBesideBet | client/common/bet.go:231-239 | a stored error always sits beside a loaded bet, and `NextBet` keeps it that way |
| BetProvider.NextBetNeverFails | client/common/bet.go:231-239 | however often `NextBet` runs, it never reports a read or parse error |
| BetProvider.RepeatKeepsErrorBesideBet | client/common/bet.go:230-239 | any number of `NextBet` calls keeps a stored error beside a loaded bet |
| BetProvider.FailedPreloadRepeatsBet | client/common/bet.go:155-163 | when preloading fails after a delivery, the next `NextBet` delivers the same bet again |
| BetProvider.ReadErrorLoopsForever | client/common/bet.go:172-181 | with a scanner error at the end, `NextBet` delivers the loaded bet, stores the read error and then keeps the same state, so the bet is delivered forever |
| BetProvider.LoadNextReporting | client/common/bet.go:141-168 | the corrected preload: a failure drops the loaded bet and keeps the error |
| BetProvider.NextBetReporting | client/common/bet.go:231-239 | the corrected `NextBet`: delivers the loaded bet, then reports the stored error |
| BetProvider.FailedPreloadReported | client/common/bet.go:231-239 | with the corrected preload, a failure after a delivery is reported by the next call instead of repeating the bet |
| BetProvider.CsvBetProvider.constructor | client/common/bet.go:121-128 | a new provider starts at the first line, with no bet, no error and no EOF |
| BetProvider.CsvBetProvider.ReadNextLine | client/common/bet.go:172-191 | the scanning loop returns the same line and position as the specification function |
| BetProvider.CsvBetProvider.LoadNext | client/common/bet.go:141-168 | the new state and the error are those of the step function, and the state stays consistent |
| BetProvider.CsvBetProvider.NextBet | client/common/bet.go:231-244 | the new state and result are those of the step function, and a bet is delivered exactly when `HasNextBet` held |
| BetProvider.NewCsvBetProvider | client/common/bet.go:113-137 | a failed open gives no provider; otherwise the first bet is preloaded, and the provider is returned exactly when that preload succeeded |
| ClientMessages.NewMsgRegisterBet | client/common/message.go:31-36 | tag 1 with the given bet unchanged |
| ClientMessages.NewMsgRegisterBetOk | client/common/message.go:38-44 | tag 2 with the given dni and number |
| ClientMessages.NewMsgRegisterBetFailed | client/common/message.go:46-53 | tag 3 with the given dni, number and error code |
| ClientMessages.TagNamesKind | client/common/message.go:3-7 | the tags are 1, 2 and 3, pairwise distinct, and a constructed message's tag names its kind |
| ClientMessages.ToBytes | client/common/message.go:54-64 | each of the three message kinds encodes to the empty byte slice |
| ClientSocket.SendAll | client/common/socket.go:82-93 | succeeds only after every byte is written in order; the first write error stops the loop and is returned wrapped, with a prefix of the data written |
| ClientSocket.Socket.constructor | client/common/socket.go:19-24 | the address is stored and there is no connection |
| ClientSocket.Socket.Init | client/common/socket.go:29-37 | a successful dial installs a fresh open connection; a failed one changes nothing |
| ClientSocket.Socket.Cleanup | client/common/socket.go:39-41 | the connection is closed |
| ClientSocket.Socket.SendMessage | client/common/socket.go:43-51 | on success the message's encoding is written after what was already written; on failure the write error is returned and only a prefix of it was written; the three stub messages write nothing and succeed |
| ClientSocket.Socket.ReceiveMessage | client/common/socket.go:53-57 | always a confirmation with tag 2, dni 0 and number 0, and no error |
| ClientProtocol.FillWithinLimits | client/common/protocol.go:81-96 | adding bets only while `CanGroupBet` admits them keeps the count within the batch limit and size plus overhead within 8 KiB, and the size grows by exactly the sizes taken |
| ClientProtocol.Classify | client/common/protocol.go:102-117 | a receive error is passed on; only a confirmation is success; a refusal and any other message are errors |
| ClientProtocol.BetProtocol.constructor | client/common/protocol.go:27-33 | the protocol keeps its settings and owns a fresh socket with no connection |
| ClientProtocol.BetProtocol.Init | client/common/protocol.go:37-49 | a successful dial installs a fresh open connection; a failed one changes nothing |
| ClientProtocol.BetProtocol.Cleanup | client/common/protocol.go:53-62 | the connection is closed |
| ClientProtocol.BetProtocol.CanGroupBet | client/common/protocol.go:81-96 | admits a bet exactly when count + 1 is within the batch limit and size + encoded bet + overhead fits 8 KiB; the running size grows by the bet's encoded length only on admission |
| ClientProtocol.BetProtocol.RegisterBets | client/common/protocol.go:64-77 | sends one message built from exactly the given bets: on success its encoding follows what was already written; on failure the write error is returned and only a prefix of it was written |
| ClientProtocol.BetProtocol.ExpectRegisterBetOk | client/common/protocol.go:102-117 | with the stub receiver, the reply is always a confirmation, so the result is success |
| ClientLoop.Decimal | client/common/client.go:116 | `%v` of a non-negative int is decimal digits with no leading zero |
| ClientLoop.DecimalRoundTrip | client/common/client.go:116 | the printed digits read back as the number |
| ClientLoop.MessageText | client/common/client.go:116 | the message ends with the newline delimiter |
| ClientLoop.MessageRoundTrip | client/common/client.go:116 | the message is the "[CLIENT id] Message N°" header, then the message number, which reads back, then one newline and no other |
| ClientLoop.Client.constructor | client/common/client.go:37-42 | the client keeps its id, address and loop amount, and has no connection |
| ClientLoop.Client.CreateClientSocket | client/common/client.go:47-60 | a successful dial installs a fresh open connection; a failed one changes nothing |
| ClientLoop.Client.RunIteration | client/common/client.go:81-108 | a failed dial continues without sending; a failed send or read stops and leaves the connection open; otherwise the whole message is sent, the connection closed, and the signal decides STOP or CONTINUE |
| ClientLoop.ResultOf | client/common/client.go:81-108 | what an iteration returns: STOP exactly after a failed send, a failed read or a signal during the wait, CONTINUE otherwise |
| ClientLoop.Client.StartClientLoop | client/common/client.go:63-79 | iteration i runs on its own new connection unless its dial failed; that connection holds message number i (the whole text unless the send failed, a prefix of it then) and stays open exactly when the send or the read failed; the client ends up holding the last connection dialled; iteration i returns STOP exactly when its send or read failed or the signal came during its wait; at most `LoopAmount` iterations, ending right after the first STOP or at a signal seen before an iteration |
| Lottery.WinnersOfGroupsByAgency | server/common/lottery_monitor.py:96-111 | the dnis of one agency among the winners are exactly that agency's winning bets, in load order |
| Lottery.RunGroupsByAgency | server/common/lottery_monitor.py:96-111 | after a run, each agency's list is its old list followed by its new winners |
| Lottery.RecordedLists | server/common/lottery_monitor.py:106-111 | recording a winner adds its agency as a key, appends its dni to that agency's list and leaves every other list alone |
| Lottery.RecordKeepsAgreement | server/common/lottery_monitor.py:106-111 | recording a winner keeps each per-agency list equal to the dnis of that agency's winners |
| Lottery.WinnersOfPrefix | server/common/lottery_monitor.py:96-103 | the winners of one more bet are those before it followed by the bet, exactly when it won |
| Lottery.RecordExtends | server/common/lottery_monitor.py:106-111 | recording one more winner keeps each list equal to its list before the run followed by the agency's winners so far |
| Lottery.GrownExtends | server/common/lottery_monitor.py:96-111 | recording winners one by one extends each agency's list by exactly its winners among them, in order |
| Lottery.RecordingNext | server/common/lottery_monitor.py:96-111 | one pass of the lottery loop appends the bet to the winners and records it in its agency's list when it won, and changes neither when it did not |
| Lottery.ExtendsKeepsAgreement | server/common/lottery_monitor.py:96-111 | lists that grouped the winners before a run still group them after it |
| Lottery.InitialisedOnly | server/common/lottery_monitor.py:144-146 | `add_winner` under Manager semantics makes sure the agency has a list but leaves every list's contents unchanged |
| Lottery.AddWinnerLosesDni | server/common/lottery_monitor.py:138-146 | on any monitor whose lists group its winners, `add_winner` lists the dni among all winners but not in its agency's list, so the lists no longer agree |
| Lottery.LotteryMonitor.constructor | server/common/lottery_monitor.py:7-19 | all tables are empty and the lottery has neither run nor completed |
| Lottery.LotteryMonitor.SetReadiness | server/common/lottery_monitor.py:24-26 | only the given port's state changes |
| Lottery.LotteryMonitor.GetReadiness | server/common/lottery_monitor.py:28-30 | the port's state, or None for an unknown port |
| Lottery.LotteryMonitor.AllReadiness | server/common/lottery_monitor.py:32-34 | a copy of the readiness table |
| Lottery.LotteryMonitor.CountConnectedAgencies | server/common/lottery_monitor.py:36-41 | the number of ports with a readiness state |
| Lottery.LotteryMonitor.AllAgenciesReady | server/common/lottery_monitor.py:43-64 | true exactly when at least `max_agencies` ports are registered and none is still sending bets |
| Lottery.LotteryMonitor.SetAgencyID | server/common/lottery_monitor.py:69-71 | only the given port's agency changes |
| Lottery.LotteryMonitor.GetAgencyID | server/common/lottery_monitor.py:73-75 | the port's agency, or None for an unknown port |
| Lottery.LotteryMonitor.ExecuteLottery | server/common/lottery_monitor.py:80-115 | returns true only on the first call, which appends the winning bets' (agency, dni) in load order, extends each agency's list by exactly its winners, keeps the lists grouped when they were, and sets completion; later calls change nothing |
| Lottery.LotteryMonitor.RecordWinners | server/common/lottery_monitor.py:96-111 | the loop appends the winners to the winners list in load order, and the per-agency map becomes the old one with each of them recorded in turn |
| Lottery.LotteryMonitor.IsLotteryComplete | server/common/lottery_monitor.py:129-133 | completion implies the lottery was executed |
| Lottery.LotteryMonitor.AddWinner | server/common/lottery_monitor.py:138-146 | appends the winner to the list of winners, but the per-agency lists only gain the agency's key |
| Lottery.LotteryMonitor.GetWinners | server/common/lottery_monitor.py:148-150 | a copy of the winners, in order |
| Lottery.LotteryMonitor.GetWinnersForAgency | server/common/lottery_monitor.py:152-154 | [] for an agency without a list; while the lists group the winners, exactly the dnis of that agency's winners, in order |
| Lottery.LotteryMonitor.HasLotteryOccurred | server/common/lottery_monitor.py:156-158 | exactly the executed flag, which is set whenever completion is |
| ServerLoop.BetReplyEncodable | server/common/server.py:96-104 | the confirmation of any decoded bet can be encoded and carries the bet's dni and number |
| ServerLoop.RefusalEncodable | server/common/server.py:106-115 | the refusal can be encoded exactly when the unknown-bet value fits 4 bytes and the failure code fits 2 |
| ServerLoop.BetsIn | server/common/server.py:65-104 | handling one client stores at most one message, and stores one exactly when the stream decodes to a bet, which is then the stored message |
| ServerLoop.AllBets | server/common/server.py:57-104 | the clients handled in turn store at most one message each, and only bets |
| ServerLoop.ProgressNext | server/common/server.py:57-63 | one served client moves the loop on by one client and adds its bets to storage; a stop during it marks the run interrupted |
| ServerLoop.Server.constructor | server/common/server.py:25-41 | neither running nor stopped, the listener open, nothing stored |
| ServerLoop.Server.AcceptNewConnection | server/common/server.py:57-61 | the next waiting client while the listener is open, otherwise no socket |
| ServerLoop.Server.SendMessageResponse | server/common/server.py:89-115 | a bet is stored, then confirmed with its own dni and number; anything else is refused with the fixed values; an overflow sends nothing, and a failed send leaves a prefix |
| ServerLoop.Server.HandleClientConnection | server/common/server.py:65-87 | the message is the frame decoder's verdict; a reply is attempted exactly while running and the message was read, and then the confirmation or refusal is written whole, or a prefix of it when `sendall` fails, or nothing on an encoder overflow; an OverflowError escapes exactly when it comes from recv's size or from the encoder, and every other error is swallowed; the socket is always closed |
| ServerLoop.Server.ServeNext | server/common/server.py:57-63 | serves exactly the next waiting client, or nobody when the listener is closed or no client waits; storage grows by that client's bet when the server is still running; an error escapes exactly when handling that client raises an uncaught OverflowError |
| ServerLoop.Server.Run | server/common/server.py:43-63 | marks the server running and returns at once if already stopped; otherwise accepts clients in order, and storage grows by exactly the bets of the clients it handled, all but the last accepted one when a stop interrupted it; it returns an error exactly when the last accepted client raised an uncaught OverflowError, and no earlier client did |
| ServerLoop.Server.Stop | server/common/server.py:117-129 | afterwards the server is stopped and not running, with the listener closed; a second call changes nothing |

## Left out

- Networking and the OS are oracles:
  - A server connection is the byte stream its client will send. `recv` returns any non-empty prefix of it.
  - On the client, `Write` writes some prefix of the data or fails, dial succeeds or fails, and `ReadString` returns a line or an error.
- The listening socket is a finite queue of client streams, not a blocking `accept`.
- Socket construction and `accept` (`server/common/socket.py:39-95`) are modelled only as far as `AcceptNewConnection` and the `Connection` constructor need.
- `readAll` (`client/common/client.go:161-163`) is not modelled.
- `resourceCleanup` (`client/common/client.go:110-113`) is the connection's `Close`.
- `client.go`'s own `sendAll` (147-159) is the same loop as `socket.go`'s. Both are modelled by `ClientSocket.SendAll`.
- The reply read in `receiveMessage` (`client/common/client.go:129-145`) is only checked for success. Its contents are discarded, as in the source.
- Concurrency is not modelled: each `LotteryMonitor` method is one atomic step on plain maps and lists.
  - The Manager, Lock and Event are not modelled.
  - `wait_for_lottery_completion` (117-127) blocks on the event. It is left out, and completion is the `complete` flag.
  - Manager proxy copying is modelled only where it changes results, in `add_winner`.
- Context cancellation and the wait between client iterations are oracles, so the signal decides STOP or CONTINUE.
- The server's termination signal is an oracle that may fire between accepting a client and handling it.
- Foreign helpers are parameters:
  - `load_bets` (the list of bets);
  - `has_won` (a function);
  - `store_bets`, recorded as bets appended to `stored`;
  - `GetOverheadInBytes` (a function of the bet count);
  - `NewMsgRegisterBets` plus `ToBytes` (a function from bets to bytes);
  - `time.Parse` and `strconv.Atoi` (parse oracles);
  - `UNKNOWN_BET_INFO` and `FAILURE_UNKNOWN_MESSAGE` (server constants).
- `SIZEOF_UINT64` is not defined in `server/common/messages.py`. The model takes it to be 8, the width the decoder's comment and slicing use.
- `LotteryMonitor.store_bets` (163-178) only delegates to the foreign `store_bets` under the lock, so it is not modelled separately.
- `execute_lottery` calls `int()` on the dni. The model's documents are already integers.
- Snapshot breakage is not reconciled. The model keeps each function's visible logic:
  - `MsgRegisterBet.__init__` takes five arguments, but the decoder passes six (with the agency) and the server calls `get_bet`. The model's bet message carries all six fields, which is what the decoder builds.
  - `socket.go` lines 54 and 63 do not compile, and the unused `receiveMessage` (62-78) is not modelled.
  - `protocol.go` passes a context to `SendMessage` and `ReceiveMessage`, which take none.
  - `MESSAGE_DELIMITER` is declared twice in the client package.
- `server/common/protocol.py` is not part of this model. Its delegation is modelled directly on the socket.
- Also not modelled: configuration (`server/main.py`), logging, `String`/`__str__`, and the size in KiB that `RegisterBets` logs.
- Text is bytes: `TrimSpace` strips ASCII white space only, and UTF-8 encoding and decoding are not modelled.
- ServerSocket.Connection.Recv: `recv` allocates a buffer of the requested size before reading. The model assumes that allocation succeeds. On a real host, a size below 2^63 but beyond available memory raises MemoryError, which escapes `run`. This applies to `ReceiveAll`, `ReceiveMessage`, `ParseFrame`, `HandleClientConnection` and `Run` too.
- ServerSocket.EncodedFrameNotDecodable: the ConnectionError it states assumes `recv` can allocate the misread buffer of 32 GiB or more. On most hosts the read ends with an uncaught MemoryError instead.
- The server decoders are total. A payload shorter than its fields gives shorter slices and smaller values, as Python slicing does. They never raise a truncation error.
- ServerSocket.DecodeRegisterBetOk: states only that the fields fit their widths. The partner lemmas `RegisterBetOkRoundTrip` and `RegisterBetOkPayloadRoundTrip` state the inversion.
- BetWire.ClientBetDecodes: requires the name and surname to be shorter than 2^32 bytes. Longer strings have their length truncated by `uint32(...)`, and that case is not modelled.
- ClientProtocol.BetProtocol.ExpectRegisterBetOk: states success because the stub receiver always yields a confirmation. `Classify` states the general mapping.

## Findings

| source | as written | input that shows it | evidently intended | confidence | as-written member | corrected member |
|---|---|---|---|---|---|---|
| server/common/lottery_monitor.py:138-146 | `add_winner` appends the dni to a copy of the agency's list fetched through the Manager proxy, so the stored per-agency list keeps its old contents | `add_winner(1, 42)` on an empty monitor leaves agency 1 with `[]` while the winners list holds `(1, 42)` | store the extended list back, as `execute_lottery` does at lines 106-111 | not executed | Lottery.AddWinnerLosesDni | Lottery.RecordKeepsAgreement |
| client/common/bet.go:141-168 | a failed preload returns before clearing `nextBet`, so `NextBet` delivers the previous bet again and the stored error is never reported | a CSV whose second non-blank line has an invalid DNI: the first bet is delivered twice | drop the loaded bet on failure, so that the next call reports the error | not executed | BetProvider.FailedPreloadRepeatsBet | BetProvider.FailedPreloadReported |
