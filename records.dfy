/**
 * The records the relay stores (pkg/store/store.go). A store row pairs a
 * record with the primary key gorm assigns; the records themselves carry no
 * key, as in the api package the rest of the relay works with.
 */
module Records {

  /** The `Chatted` column: whether a buffered message reached a Telegram chat. */
  datatype Chatted = ChattedUnset | ChattedYes | ChattedNo

  /** The `Direction` column: "tg2wa", "wa2tg", or never set. */
  datatype Direction = NoDirection | Tg2wa | Wa2tg

  /** A tenant: a Telegram group whose members operate one WhatsApp account. */
  datatype MainGroup = MainGroup(
    tgChatID: int,
    name: string,
    messagePin: int,
    loggerChatID: int)

  /** A binding of a WhatsApp client to a Telegram chat, within a tenant. */
  datatype Chat = Chat(
    mgid: string,
    waClient: string,
    tgChatID: int,
    tgUserName: string,
    session: string)

  /** One relayed message, with its identities on both sides. */
  datatype Message = Message(
    mgid: string,
    waClient: string,
    waName: string,
    waFromClient: string,
    waFromName: string,
    waMessageID: string,
    waTimestamp: nat,
    waFwdMessageID: string,
    tgChatID: int,
    tgUserName: string,
    tgMessageID: int,
    tgTimestamp: int,
    tgFwdMessageID: int,
    direction: Direction,
    chatted: Chatted,
    answered: nat,
    messageStatus: int,
    text: string,
    session: string)

  /** A short name for a WhatsApp client within a tenant. */
  datatype Alias = Alias(mgid: string, waClient: string, name: string)

  datatype Contact = Contact(
    phone: string,
    email: string,
    waClient: string,
    tgUserID: int,
    name: string,
    shortName: string)

  /**
   * A message as Telegram reports it after a send (`api.TGMessage`, filled by
   * `ToAPIMessage`): chat id, sender's user name, message id, date and the id
   * of the message it forwards.
   */
  datatype TGMessage = TGMessage(
    chatID: int,
    userName: string,
    messageID: int,
    timestamp: int,
    fwdMessageID: int)

  /** A stored record and its primary key. */
  datatype Row<T> = Row(id: nat, rec: T)

  /** Go's zero value of a message: every field empty. */
  const EmptyMessage := Message("", "", "", "", "", "", 0, "", 0, "", 0, 0, 0,
    NoDirection, ChattedUnset, 0, 0, "", "")

  /** The records of a table, in row order. */
  function Records<T>(rows: seq<Row<T>>): (recs: seq<T>)
    ensures |recs| == |rows|
    ensures forall i :: 0 <= i < |rows| ==> recs[i] == rows[i].rec
  {
    if rows == [] then [] else [rows[0].rec] + Records(rows[1..])
  }
}
