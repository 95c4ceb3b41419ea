/** The client's message types (client/common/message.go). In this snapshot
    every `ToBytes` is a stub that returns no bytes. The `Message` interface is
    open: any other implementation, such as the batch message built by
    `NewMsgRegisterBets` (which is not part of this model), is represented by
    the bytes its `ToBytes` returns. */
module ClientMessages {
  import opened Bytes
  import opened ClientBets

  type uint16 = x: int | 0 <= x < 0x1_0000
  type uint32 = x: int | 0 <= x < 0x1_0000_0000

  const MSG_TYPE_REGISTER_BET: uint16 := 1
  const MSG_TYPE_REGISTER_BET_OK: uint16 := 2
  const MSG_TYPE_REGISTER_BET_FAILED: uint16 := 3

  datatype Message =
    | MsgRegisterBet(msgType: uint16, betToRegister: Bet)
    | MsgRegisterBetOk(msgType: uint16, dni: uint32, number: uint32)
    | MsgRegisterBetFailed(msgType: uint16, dni: uint32, number: uint32, errorCode: uint16)
    | OtherMessage(encoded: seq<byte>)

  /** The tag each struct of message.go is meant to carry. */
  predicate Tagged(m: Message)
  {
    match m
    case MsgRegisterBet(t, _) => t == MSG_TYPE_REGISTER_BET
    case MsgRegisterBetOk(t, _, _) => t == MSG_TYPE_REGISTER_BET_OK
    case MsgRegisterBetFailed(t, _, _, _) => t == MSG_TYPE_REGISTER_BET_FAILED
    case OtherMessage(_) => true
  }

  function NewMsgRegisterBet(bet: Bet): (m: Message)
    ensures m.MsgRegisterBet? && Tagged(m) && m.betToRegister == bet
  {
    MsgRegisterBet(MSG_TYPE_REGISTER_BET, bet)
  }

  function NewMsgRegisterBetOk(dni: uint32, number: uint32): (m: Message)
    ensures m.MsgRegisterBetOk? && Tagged(m) && m.dni == dni && m.number == number
  {
    MsgRegisterBetOk(MSG_TYPE_REGISTER_BET_OK, dni, number)
  }

  function NewMsgRegisterBetFailed(dni: uint32, number: uint32, errorCode: uint16): (m: Message)
    ensures m.MsgRegisterBetFailed? && Tagged(m)
    ensures m.dni == dni && m.number == number && m.errorCode == errorCode
  {
    MsgRegisterBetFailed(MSG_TYPE_REGISTER_BET_FAILED, dni, number, errorCode)
  }

  /** The three tags are pairwise distinct, so among the message.go structs a
      correctly tagged message's tag names its kind. */
  lemma TagNamesKind(m1: Message, m2: Message)
    requires Tagged(m1) && Tagged(m2) && !m1.OtherMessage? && !m2.OtherMessage?
    requires m1.msgType == m2.msgType
    ensures m1.MsgRegisterBet? <==> m2.MsgRegisterBet?
    ensures m1.MsgRegisterBetOk? <==> m2.MsgRegisterBetOk?
    ensures m1.MsgRegisterBetFailed? <==> m2.MsgRegisterBetFailed?
  {
  }

  /** `ToBytes`: the stubs of message.go write nothing; another implementation
      writes what it encodes. */
  function ToBytes(m: Message): (r: seq<byte>)
    ensures !m.OtherMessage? ==> r == []
    ensures m.OtherMessage? ==> r == m.encoded
  {
    if m.OtherMessage? then m.encoded else []
  }
}
