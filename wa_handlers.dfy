/**
 * The inbound relay (pkg/wa/handlers.go): a WhatsApp event is filtered,
 * recorded, deduplicated by its WhatsApp id, saved, delivered to the Telegram
 * chat bound to its client (or to chat 0 when none is), and saved again with
 * its Telegram identity once delivered. Also the reconnect decision taken on
 * a provider error.
 */
module WaHandlers {
  import opened Wrappers
  import opened GoStrings
  import opened Records
  import opened WaApi
  import Util
  import Store
  import WaService

  /** The content of a WhatsApp event; only the first three kinds are relayed. */
  datatype WaBody =
    | TextBody(text: string)
    | ImageBody(caption: string, mimeType: string)
    | DocumentBody(title: string, mimeType: string, fileName: string)
    | OtherBody

  /** The provider's message info, with the quoted id of the event's context. */
  datatype WaInfo = WaInfo(id: string, remoteJid: string, fromMe: bool, timestamp: nat, quotedMessageID: string)

  datatype WaEvent = WaEvent(info: WaInfo, body: WaBody)

  /** The outcome of one media download. */
  datatype Download = Downloaded | Failed410 | Failed404 | DownloadFailed

  /** The download, media-info reload and second download an event may need. */
  datatype MediaScript = MediaScript(first: Download, reloadOk: bool, second: Download)

  /** What the relay asks Telegram to send. */
  datatype TgOutbound =
    | TgText(chatID: int, text: string)
    | TgImage(chatID: int, caption: string)
    | TgDocument(chatID: int, fileName: string)

  const BroadcastJid := "status@broadcast"

  /** The text recorded for an event; `None` for kinds the relay ignores. */
  function InboundText(body: WaBody): (t: Option<string>)
    ensures t.None? <==> body.OtherBody?
    ensures body.TextBody? ==> t == Some(body.text)
    ensures body.ImageBody? ==> t == Some(body.caption + " (" + body.mimeType + ")")
    ensures body.DocumentBody? ==> t == Some(body.title + " (" + body.mimeType + ")")
  {
    match body
    case TextBody(text) => Some(text)
    case ImageBody(caption, mime) => Some(caption + " (" + mime + ")")
    case DocumentBody(title, mime, _) => Some(title + " (" + mime + ")")
    case OtherBody => None
  }

  /** Events older than the point time, and status broadcasts, are dropped. */
  predicate Admitted(pointTime: nat, info: WaInfo)
  {
    !(info.timestamp < pointTime) && info.remoteJid != BroadcastJid
  }

  /** The name the contact book gives a JID; Go's zero value "" when absent. */
  function ContactName(v: InstanceView, jid: string): string
  {
    if jid in v.contacts then v.contacts[jid].name else ""
  }

  /** The record an inbound event is saved as; a self-sent one is marked "Self" from the own JID. */
  function InboundRecord(v: InstanceView, info: WaInfo, text: string): (m: Message)
    ensures m.waMessageID == info.id && m.waTimestamp == info.timestamp
    ensures m.waFwdMessageID == info.quotedMessageID && m.text == text
    ensures info.fromMe ==> m.waName == "Self" && m.waClient == v.wid
    ensures !info.fromMe ==> m.waName == ContactName(v, info.remoteJid) && m.waClient == info.remoteJid
    ensures m.chatted == ChattedUnset && m.direction == NoDirection && m.mgid == "" && m.session == ""
    ensures m.tgChatID == 0 && m.tgMessageID == 0 && m.tgUserName == ""
  {
    var m := EmptyMessage.(waClient := info.remoteJid, waName := ContactName(v, info.remoteJid),
      waMessageID := info.id, waTimestamp := info.timestamp,
      waFwdMessageID := info.quotedMessageID, text := text);
    if info.fromMe then m.(waName := "Self", waClient := v.wid) else m
  }

  /** The seen-clients list after an event from `client`. */
  function SeenClients(clients: seq<string>, client: string): (r: seq<string>)
    ensures client in r
    ensures forall x :: x in r <==> x in clients || x == client
    ensures r == clients || r == clients + [client]
    ensures Util.NoDuplicates(clients) ==> Util.NoDuplicates(r)
  {
    Util.StringInSliceMember(client, clients);
    if !Util.StringInSlice(client, clients) then
      Util.AppendAbsentKeepsNoDuplicates(client, clients);
      clients + [client]
    else clients
  }

  /**
   * The chat an event goes to: the bound chat, else chat 0; `None` for an
   * unbound self-sent event, which is not delivered. A failed lookup counts
   * as unbound.
   */
  function Route(lookup: Result<Option<Chat>, Store.StoreError>, fromMe: bool): (r: Option<int>)
    ensures lookup.Ok? && lookup.value.Some? ==> r == Some(lookup.value.value.tgChatID)
    ensures !(lookup.Ok? && lookup.value.Some?) ==> (r.None? <==> fromMe)
    ensures !(lookup.Ok? && lookup.value.Some?) && !fromMe ==> r == Some(0)
  {
    match lookup
    case Ok(Some(chat)) => Some(chat.tgChatID)
    case _ => if fromMe then None else Some(0)
  }

  /** The header naming the client on text delivered to chat 0. */
  function UnboundHeader(name: string, client: string): string
  {
    "Client " + name + "(" + GetShortClient(client) + "):\n"
  }

  /** The text sent for a text event: unchanged to a bound chat, headed in chat 0. */
  function DeliveryText(rec: Message, chatID: int): (t: string)
    ensures chatID != 0 ==> t == rec.text
    ensures chatID == 0 ==> t == UnboundHeader(rec.waName, rec.waClient) + rec.text
  {
    if chatID == 0 then UnboundHeader(rec.waName, rec.waClient) + rec.text else rec.text
  }

  /**
   * An image is fetched by one download, retried once after a media-info
   * reload unless the first failure was 410 or 404.
   */
  function ImageFetched(media: MediaScript): (ok: bool)
    ensures ok <==> (media.first == Downloaded
      || (media.first == DownloadFailed && media.reloadOk && media.second == Downloaded))
  {
    match media.first
    case Downloaded => true
    case Failed410 => false
    case Failed404 => false
    case DownloadFailed => media.reloadOk && media.second == Downloaded
  }

  /** The send an admitted event leads to, or `None` when its media cannot be fetched. */
  function DeliveryRequest(body: WaBody, rec: Message, chatID: int, media: MediaScript): (r: Option<TgOutbound>)
    requires !body.OtherBody?
    ensures body.TextBody? ==> r == Some(TgText(chatID, DeliveryText(rec, chatID)))
    ensures body.ImageBody? ==> r == (if ImageFetched(media) then Some(TgImage(chatID, body.caption)) else None)
    ensures body.DocumentBody? ==>
      r == (if media.first == Downloaded then Some(TgDocument(chatID, body.fileName)) else None)
  {
    match body
    case TextBody(_) => Some(TgText(chatID, DeliveryText(rec, chatID)))
    case ImageBody(caption, _) => if ImageFetched(media) then Some(TgImage(chatID, caption)) else None
    case DocumentBody(_, _, fileName) =>
      if media.first == Downloaded then Some(TgDocument(chatID, fileName)) else None
  }

  /** The record after delivery: its Telegram identity and the direction wa2tg. */
  function Stamped(rec: Message, sent: TGMessage): (m: Message)
    ensures m.tgChatID == sent.chatID && m.tgMessageID == sent.messageID
    ensures m.tgTimestamp == sent.timestamp && m.tgUserName == sent.userName
    ensures m.tgFwdMessageID == sent.fwdMessageID && m.direction == Wa2tg
    ensures m.waMessageID == rec.waMessageID && m.waClient == rec.waClient && m.text == rec.text
    ensures m.chatted == rec.chatted
  {
    rec.(tgChatID := sent.chatID, tgMessageID := sent.messageID, tgTimestamp := sent.timestamp,
      tgUserName := sent.userName, tgFwdMessageID := sent.fwdMessageID, direction := Wa2tg)
  }

  /**
   * Saving an event's record and then its stamped record leaves one row for
   * the WhatsApp id, holding the stamped record, and adds at most one row.
   */
  lemma DeliveredSavedOnce(rows: seq<Row<Message>>, rec: Message, sent: TGMessage, k1: nat, k2: nat)
    requires rec.waMessageID != "" && Store.UniqueWAIds(rows)
    ensures var r1 := Store.SaveMessageRows(rows, rec, k1);
      var r2 := Store.SaveMessageRows(r1, Stamped(rec, sent), k2);
      && |r2| == |r1| <= |rows| + 1
      && Store.UniqueWAIds(r2)
      && (exists i :: 0 <= i < |r2| && r2[i].rec == Stamped(rec, sent))
      && forall i :: 0 <= i < |r2| && r2[i].rec.waMessageID == rec.waMessageID ==>
           r2[i].rec == Stamped(rec, sent)
  {
    var r1 := Store.SaveMessageRows(rows, rec, k1);
    var s := Stamped(rec, sent);
    Store.SaveMessageUpserts(rows, rec, k1);
    Store.SaveMessageKeepsUnique(rows, rec, k1);
    Store.SaveMessageThenFind(rows, rec, k1);
    assert Store.KeyOf(s) == Store.KeyOf(rec);
    var f := Store.FindMessage(r1, Store.KeyOf(s));
    var r2 := Store.SaveMessageRows(r1, s, k2);
    Store.SaveMessageUpserts(r1, s, k2);
    Store.SaveMessageKeepsUnique(r1, s, k2);
    assert r2[f.value].rec == s;
  }

  /**
   * `handleMessage` for one event on `inst`. `media` holds the outcomes of the
   * downloads an image or document needs and `tgResult` the outcome of the
   * Telegram send; the send made is returned. The chat lookup is by client and
   * the instance's tenant id.
   */
  method HandleMessage(inst: WaService.Instance, db: Store.Store, ev: WaEvent, media: MediaScript,
                       tgResult: Result<TGMessage, string>)
    returns (request: Option<TgOutbound>)
    requires inst.Valid() && db.Valid()
    requires ev.info.id != "" && ev.info.remoteJid != ""
    modifies inst, db
    ensures inst.Valid() && db.Valid()
    ensures inst.contacts == old(inst.contacts)
    ensures db.chats == old(db.chats) && db.mainGroups == old(db.mainGroups)
    ensures var v := old(inst.View());
      var text := InboundText(ev.body);
      if text.None? || !Admitted(v.pointTime, ev.info) then
        && request.None? && inst.clients == old(inst.clients)
        && db.messages == old(db.messages) && db.nextId == old(db.nextId)
      else
        var rec := InboundRecord(v, ev.info, text.value);
        && inst.clients == SeenClients(old(inst.clients), rec.waClient)
        && if old(db.ExistMessageByWA(ev.info.id)) then
          request.None? && db.messages == old(db.messages) && db.nextId == old(db.nextId)
        else
          var saved := if db.SaveError(Store.Messages).None?
            then Store.SaveMessageRows(old(db.messages), rec, old(db.nextId)) else old(db.messages);
          var route := Route(old(db.GetChatByClient(ev.info.remoteJid, GetID(v))), ev.info.fromMe);
          && request == (if route.None? then None else DeliveryRequest(ev.body, rec, route.value, media))
          && db.messages == (if request.Some? && tgResult.Ok? && db.SaveError(Store.Messages).None?
            then Store.SaveMessageRows(saved, Stamped(rec, tgResult.value), db.nextId) else saved)
  {
    var v := inst.View();
    var text := InboundText(ev.body);
    if text.None? || !Admitted(inst.pointTime, ev.info) {
      return None;
    }
    var msg := InboundRecord(v, ev.info, text.value);
    inst.clients := SeenClients(inst.clients, msg.waClient);
    if db.ExistMessageByWA(ev.info.id) {
      return None;
    }
    request := Relay(db, ev, msg, GetID(v), media, tgResult);
  }

  /**
   * The part of `handleMessage` after the duplicate check: save the record,
   * route it by the chat bound to the client under `tenant`, send it, and
   * save it again stamped with the Telegram message when the send succeeds.
   */
  method Relay(db: Store.Store, ev: WaEvent, rec: Message, tenant: string, media: MediaScript,
               tgResult: Result<TGMessage, string>)
    returns (request: Option<TgOutbound>)
    requires db.Valid() && !ev.body.OtherBody? && rec.waMessageID == ev.info.id && ev.info.id != ""
    requires ev.info.remoteJid != "" && tenant != ""
    modifies db
    ensures db.Valid()
    ensures db.chats == old(db.chats) && db.mainGroups == old(db.mainGroups)
    ensures var saved := if db.SaveError(Store.Messages).None?
        then Store.SaveMessageRows(old(db.messages), rec, old(db.nextId)) else old(db.messages);
      var route := Route(old(db.GetChatByClient(ev.info.remoteJid, tenant)), ev.info.fromMe);
      && request == (if route.None? then None else DeliveryRequest(ev.body, rec, route.value, media))
      && db.messages == (if request.Some? && tgResult.Ok? && db.SaveError(Store.Messages).None?
        then Store.SaveMessageRows(saved, Stamped(rec, tgResult.value), db.nextId) else saved)
  {
    ghost var before := db.messages;
    ghost var key := db.nextId;
    var err := db.SaveMessage(rec);
    var chat := db.GetChatByClient(ev.info.remoteJid, tenant);
    var route := Route(chat, ev.info.fromMe);
    if route.None? {
      return None;
    }
    request := DeliveryRequest(ev.body, rec, route.value, media);
    if request.None? || tgResult.Err? {
      return request;
    }
    var stamped := Stamped(rec, tgResult.value);
    if err.None? {
      Store.SaveMessageThenFind(before, rec, key);
      assert Store.KeyOf(stamped) == Store.KeyOf(rec);
    }
    err := db.SaveMessage(stamped);
  }

  /** The kinds of provider error `HandleError` tells apart. */
  datatype WaError = ConnectionFailed(cause: string) | InvalidWsData | OtherWaError(text: string)

  /** What `HandleError` does: wait and restore the connection, or only log. */
  datatype ErrorAction = Reconnect(waitSeconds: nat) | LogOnly | Panic

  const ReconnectWait: nat := 30

  /**
   * `HandleError` as written: the underlying error is read through the result
   * of a type assertion that is nil unless the error is a connection failure,
   * so invalid websocket data dereferences nil before any reconnect.
   */
  function HandleErrorAsWritten(err: WaError): (a: ErrorAction)
    ensures err.ConnectionFailed? ==> a == Reconnect(ReconnectWait)
    ensures err.OtherWaError? ==> a == LogOnly
  {
    match err
    case ConnectionFailed(_) => Reconnect(ReconnectWait)
    case InvalidWsData => Panic
    case OtherWaError(_) => LogOnly
  }

  /** Invalid websocket data crashes the as-written handler. */
  lemma HandleErrorAsWrittenPanics()
    ensures HandleErrorAsWritten(InvalidWsData) == Panic
    ensures HandleError(InvalidWsData) == Reconnect(ReconnectWait)
  {
  }

  /**
   * `HandleError` as intended: connection failures and invalid websocket
   * data wait 30 seconds and restore; every other error is only logged.
   */
  function HandleError(err: WaError): (a: ErrorAction)
    ensures a != Panic
    ensures a == Reconnect(ReconnectWait) <==> err.ConnectionFailed? || err.InvalidWsData?
    ensures a == LogOnly <==> err.OtherWaError?
  {
    if err.ConnectionFailed? || err.InvalidWsData? then Reconnect(ReconnectWait) else LogOnly
  }
}
