/**
 * The WhatsApp side's identifier helpers and outgoing-message construction
 * (pkg/wa/api.go). They read one instance's state: its tenant id, the
 * provider's contact book and the list of clients it has seen.
 */
module WaApi {
  import opened Wrappers
  import opened GoStrings
  import opened GoStrconv
  import opened Records
  import Util
  import Store

  /** An entry of the provider's contact book. */
  datatype WaContact = WaContact(name: string, short: string)

  /** What the relay can read of one WhatsApp instance. */
  datatype InstanceView = InstanceView(
    id: int,
    contacts: map<string, WaContact>,
    clients: seq<string>,
    wid: string,
    pointTime: nat)

  const UserSuffix := "@s.whatsapp.net"
  const GroupSuffix := "@g.us"

  /**
   * `PrepareClientJID`: a client that already holds '@' is a JID; otherwise a
   * '-' marks a group, which gets "@g.us", and anything else is a user.
   */
  function PrepareClientJID(client: string): (jid: string)
    ensures HasPrefix(jid, client) && '@' in jid
  {
    if '@' in client then client
    else if '-' in client then client + GroupSuffix
    else client + UserSuffix
  }

  /** `PrepareClientJID` as written: `strings.Count` for '@', then `strings.SplitN` on '-'. */
  lemma PrepareClientJIDAsWritten(client: string)
    ensures PrepareClientJID(client) == if CountChar(client, '@') > 0 then client
      else if |SplitN2(client, '-')| == 2 then client + GroupSuffix
      else client + UserSuffix
  {
  }

  /** Every result holds '@', so normalising twice is normalising once. */
  lemma PrepareClientJIDIdempotent(client: string)
    ensures '@' in PrepareClientJID(client)
    ensures PrepareClientJID(PrepareClientJID(client)) == PrepareClientJID(client)
  {
    var jid := PrepareClientJID(client);
    if '@' !in client {
      var suffix := if '-' in client then GroupSuffix else UserSuffix;
      assert jid == client + suffix;
      assert jid[|client| + 1] == '@' || jid[|client|] == '@';
    }
  }

  /** `GetShortClient`: the text before the first '@'. */
  function GetShortClient(client: string): (short: string)
    ensures '@' !in short && HasPrefix(client, short)
    ensures '@' in client ==> client[|short|] == '@'
    ensures '@' !in client ==> short == client
  {
    Before(client, '@')
  }

  /** `GetShortClient` as written: the first part of `strings.Split(client, "@")` when there are several. */
  lemma GetShortClientIsSplit(client: string)
    ensures var parts := SplitOn(client, '@');
      GetShortClient(client) == if |parts| > 1 then parts[0] else client
  {
    SplitOnFirst(client, '@');
  }

  /** The user part of a normalised JID is the client it came from. */
  lemma ShortOfPrepared(client: string)
    requires '@' !in client
    ensures GetShortClient(PrepareClientJID(client)) == client
  {
    var jid := PrepareClientJID(client);
    var suffix := if '-' in client then GroupSuffix else UserSuffix;
    assert jid == client + suffix;
    BeforeAppend(client, suffix, '@');
  }

  /** `ClientExist`: the normalised JID is a contact or a client seen before. */
  function ClientExist(v: InstanceView, client: string): (r: bool)
    ensures r <==> (PrepareClientJID(client) in v.contacts
      || PrepareClientJID(client) in v.clients)
  {
    var jid := PrepareClientJID(client);
    var ok := jid in v.contacts;
    if !ok then
      Util.StringInSliceMember(jid, v.clients);
      Util.StringInSlice(jid, v.clients)
    else ok
  }

  const NewClientName := "New Client"
  const UnknownClientName := "Not Exist"

  /**
   * `GetClientName`: a contact's name, or its short name when it has none;
   * without a contact, whether the raw client string was seen decides.
   */
  function GetClientName(v: InstanceView, client: string): string
  {
    var jid := PrepareClientJID(client);
    if jid in v.contacts then
      var c := v.contacts[jid];
      if c.name == "" then c.short else c.name
    else if client in v.clients then NewClientName
    else UnknownClientName
  }

  /** `GetClientName` as written: the seen-clients test is `StringInSlice`. */
  lemma GetClientNameAsWritten(v: InstanceView, client: string)
    ensures var jid := PrepareClientJID(client);
      GetClientName(v, client) == if jid in v.contacts then
        (if v.contacts[jid].name == "" then v.contacts[jid].short else v.contacts[jid].name)
      else if !Util.StringInSlice(client, v.clients) then UnknownClientName else NewClientName
  {
    Util.StringInSliceMember(client, v.clients);
  }

  /** The reply context attached to an outgoing message. */
  datatype Quote = Quote(quotedMessageID: string, quotedText: string, participant: string)

  /** The content of an outgoing message (coordinates and media bytes are not modelled). */
  datatype WaPayload =
    | TextPayload(text: string)
    | ImagePayload(mimeType: string)
    | DocumentPayload(mimeType: string, fileName: string)
    | AudioPayload(mimeType: string)
    | VideoPayload(mimeType: string)
    | LocationPayload

  /** The message `Send*` hands to the provider. */
  datatype WaOutgoing = WaOutgoing(remoteJid: string, payload: WaPayload, quote: Option<Quote>)

  /**
   * The provider's answer to a send as the relay reports it (`api.WAMessage`);
   * `Send*` never fill its forwarded-message id.
   */
  datatype WAMessage = WAMessage(client: string, name: string, messageID: string, fwdMessageID: string, timestamp: nat)

  /** The quote context: present exactly when a quoted id is given. */
  function QuoteContext(jid: string, quotedID: string, quoted: string): (q: Option<Quote>)
    ensures q.Some? <==> quotedID != ""
    ensures q.Some? ==> q.value == Quote(quotedID, quoted, jid)
  {
    if |quotedID| != 0 then Some(Quote(quotedID, quoted, jid)) else None
  }

  /** The outgoing message of every `Send*`: normalised recipient, payload, quote. */
  function Outgoing(client: string, payload: WaPayload, quotedID: string, quoted: string): (m: WaOutgoing)
    ensures m.remoteJid == PrepareClientJID(client) && m.payload == payload
    ensures m.quote.Some? <==> quotedID != ""
    ensures m.quote.Some? ==> (m.quote.value.participant == PrepareClientJID(client)
      && m.quote.value.quotedMessageID == quotedID)
  {
    var jid := PrepareClientJID(client);
    WaOutgoing(jid, payload, QuoteContext(jid, quotedID, quoted))
  }

  /**
   * The answer of `Send*`, given the provider's result for the outgoing
   * message (its new message id or an error) and the current time.
   */
  function SendResponse(v: InstanceView, client: string, provider: Result<string, string>, now: nat)
    : (r: Result<WAMessage, string>)
    ensures provider.Err? ==> r == Err(provider.error)
    ensures provider.Ok? ==> (r.Ok? && r.value.client == PrepareClientJID(client)
      && r.value.messageID == provider.value && r.value.timestamp == now && r.value.fwdMessageID == ""
      && r.value.name == GetClientName(v, PrepareClientJID(client)))
  {
    match provider
    case Err(e) => Err(e)
    case Ok(id) =>
      var jid := PrepareClientJID(client);
      Ok(WAMessage(jid, GetClientName(v, jid), id, "", now))
  }

  /** `GetID`: the tenant id in decimal. */
  function GetID(v: InstanceView): (s: string)
    ensures s != []
    ensures IsInt64(v.id) ==> ParseInt(s) == Parsed(v.id, NoError)
  {
    if IsInt64(v.id) then
      FormatParseRoundTrip(v.id);
      FormatInt(v.id)
    else FormatInt(v.id)
  }

  /** The store lookup found the message and it carries a Telegram user name. */
  predicate HasStoredUserName(stored: Option<Result<Option<Message>, Store.StoreError>>)
  {
    stored.Some? && stored.value.Ok? && stored.value.value.Some?
    && stored.value.value.value.tgUserName != ""
  }

  /**
   * The screen name of a history line: "@" and the stored Telegram user
   * name for a self-sent message that has one, "Me" for other self-sent
   * messages, "Client" otherwise. `stored` is the store lookup by WhatsApp id,
   * when a store is available.
   */
  function HistoryScreenName(fromMe: bool, stored: Option<Result<Option<Message>, Store.StoreError>>)
    : (name: string)
    ensures !fromMe ==> name == "Client"
    ensures fromMe && HasStoredUserName(stored) ==> name == "@" + stored.value.value.value.tgUserName
    ensures fromMe && !HasStoredUserName(stored) ==> name == "Me"
  {
    if fromMe then
      match stored
      case Some(Ok(Some(item))) => if item.tgUserName != "" then "@" + item.tgUserName else "Me"
      case _ => "Me"
    else "Client"
  }

  /** `prepareText`: the formatted date (an input here) and the screen name. */
  function HistoryPrefix(date: string, screenName: string): (s: string)
    ensures HasPrefix(s, date) && s != [] && s[|s| - 1] == ':'
    ensures |s| == |date| + |screenName| + 2 && s[|date|] == ' '
    ensures s[..|date|] == date && s[|date| + 1..|s| - 1] == screenName
  {
    date + " " + screenName + ":"
  }
}
