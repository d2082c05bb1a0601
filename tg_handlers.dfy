/**
 * The Telegram side's handlers (pkg/tg/handlers.go): the outbound relay of a
 * chat message to its bound WhatsApp client, and the dispatch of callbacks
 * and commands.
 */
module TgHandlers {
  import opened Wrappers
  import opened GoStrings
  import opened GoStrconv
  import opened Records
  import opened WaApi
  import opened Store
  import opened TgService
  import TgCallbacks

  // The outbound relay (`HandleTextMessage`).

  const FailSendText := "Fail send message, please send admin this error: "
  const ChatNotJoin := "Chat not join!"
  const InstanceNotReady := "Instance WhatsApp not ready"
  const PhotoMime := "image/jpeg"

  /**
   * The text recorded for a message, by priority: a document's file name,
   * "PHOTO", "AUDIO " and the title, "VIDEO " and the MIME type, "LOCATION",
   * and otherwise the message's own text.
   */
  function ItemText(m: TgIncoming): (text: string)
    ensures m.document.Some? ==> text == m.document.value.fileName
    ensures m.document.None? && |m.photo| > 0 ==> text == "PHOTO"
    ensures m.document.None? && |m.photo| == 0 && m.audio.Some? ==> text == "AUDIO " + m.audio.value.title
    ensures m.document.None? && |m.photo| == 0 && m.audio.None? && m.video.Some? ==>
      text == "VIDEO " + m.video.value.mimeType
    ensures m.document.None? && |m.photo| == 0 && m.audio.None? && m.video.None? ==>
      text == (if m.hasLocation then "LOCATION" else m.text)
  {
    if m.document.Some? then m.document.value.fileName
    else if |m.photo| > 0 then "PHOTO"
    else if m.audio.Some? then "AUDIO " + m.audio.value.title
    else if m.video.Some? then "VIDEO " + m.video.value.mimeType
    else if m.hasLocation then "LOCATION"
    else m.text
  }

  /** What goes to WhatsApp: the Telegram file to fetch first, if any, and the payload. */
  datatype Dispatch = Dispatch(fetch: Option<string>, payload: WaPayload)

  /**
   * The send, chosen in its own order: audio, video (sent as audio), location
   * (nothing to fetch), the last and largest photo size as a JPEG image,
   * document, and otherwise the recorded text.
   */
  function DispatchOf(m: TgIncoming, text: string): (d: Dispatch)
    ensures m.audio.Some? ==> d == Dispatch(Some(m.audio.value.fileID), AudioPayload(m.audio.value.mimeType))
    ensures m.audio.None? && m.video.Some? ==>
      d == Dispatch(Some(m.video.value.fileID), AudioPayload(m.video.value.mimeType))
    ensures m.audio.None? && m.video.None? && m.hasLocation ==> d == Dispatch(None, LocationPayload)
    ensures m.audio.None? && m.video.None? && !m.hasLocation && |m.photo| > 0 ==>
      d == Dispatch(Some(m.photo[|m.photo| - 1].fileID), ImagePayload(PhotoMime))
    ensures m.audio.None? && m.video.None? && !m.hasLocation && |m.photo| == 0 && m.document.Some? ==>
      d == Dispatch(Some(m.document.value.fileID),
                    DocumentPayload(m.document.value.mimeType, m.document.value.fileName))
    ensures m.audio.None? && m.video.None? && !m.hasLocation && |m.photo| == 0 && m.document.None? ==>
      d == Dispatch(None, TextPayload(text))
  {
    if m.audio.Some? then Dispatch(Some(m.audio.value.fileID), AudioPayload(m.audio.value.mimeType))
    else if m.video.Some? then Dispatch(Some(m.video.value.fileID), AudioPayload(m.video.value.mimeType))
    else if m.hasLocation then Dispatch(None, LocationPayload)
    else if |m.photo| > 0 then Dispatch(Some(m.photo[|m.photo| - 1].fileID), ImagePayload(PhotoMime))
    else if m.document.Some? then
      Dispatch(Some(m.document.value.fileID), DocumentPayload(m.document.value.mimeType, m.document.value.fileName))
    else Dispatch(None, TextPayload(text))
  }

  /**
   * The two orders differ: a message carrying both a document and an audio
   * file is recorded under the document's name but sent as the audio.
   */
  lemma ClassificationAndDispatchDisagree(m: TgIncoming)
    requires m.document.Some? && m.audio.Some?
    ensures ItemText(m) == m.document.value.fileName
    ensures DispatchOf(m, ItemText(m)).payload == AudioPayload(m.audio.value.mimeType)
  {
  }

  /** The record a relayed message starts as: its Telegram identity, chatted, tg2wa. */
  function NewItem(m: TgIncoming, text: string): (item: Message)
    ensures item.tgChatID == m.chatID && item.tgUserName == m.fromUserName
    ensures item.tgMessageID == m.messageID && item.tgTimestamp == m.date
    ensures item.tgFwdMessageID == m.forwardFromMessageID && item.text == text
    ensures item.chatted == ChattedYes && item.direction == Tg2wa
  {
    EmptyMessage.(tgChatID := m.chatID, tgUserName := m.fromUserName, tgMessageID := m.messageID,
                  tgTimestamp := m.date, tgFwdMessageID := m.forwardFromMessageID,
                  chatted := ChattedYes, direction := Tg2wa, text := text)
  }

  /** The record after a successful send: tenant, the provider's answer, the binding's session. */
  function Stamped(item: Message, v: InstanceView, resp: WAMessage, chat: Chat): Message
  {
    item.(mgid := GetID(v), waClient := resp.client, waMessageID := resp.messageID, waName := resp.name,
          waFwdMessageID := resp.fwdMessageID, waTimestamp := resp.timestamp, session := chat.session)
  }

  /**
   * The outcome of one outbound message: the file fetched, the message sent
   * to WhatsApp, the record saved, and the reply posted back to the chat.
   */
  datatype OutboundPlan = OutboundPlan(fetch: Option<string>, send: Option<WaOutgoing>, saved: Option<Message>,
                                       reply: Option<Notice>)

  const Ignored := OutboundPlan(None, None, None, None)

  function ReplyOnly(n: Notice): OutboundPlan
  {
    OutboundPlan(None, None, None, Some(n))
  }

  /**
   * The relay once the binding `chat` and its instance `v` are known.
   * `download` is the error of fetching the file, if that failed, `provider`
   * the WhatsApp send's result, `saveErr` the store's answer to the save.
   */
  function Relay(v: InstanceView, chat: Chat, m: TgIncoming, text: string, download: Option<string>,
                 provider: Result<string, string>, now: nat, saveErr: Option<StoreError>): OutboundPlan
  {
    var d := DispatchOf(m, text);
    if d.fetch.Some? && download.Some? then
      OutboundPlan(d.fetch, None, None, Some(Failed(FailSendText, OtherCause(download.value))))
    else
      var out := Outgoing(chat.waClient, d.payload, "", "");
      match SendResponse(v, chat.waClient, provider, now)
      case Err(e) => OutboundPlan(d.fetch, Some(out), None, Some(Failed(FailSendText, OtherCause(e))))
      case Ok(resp) =>
        if saveErr.None? then OutboundPlan(d.fetch, Some(out), Some(Stamped(NewItem(m, text), v, resp, chat)), None)
        else OutboundPlan(d.fetch, Some(out), None, Some(Failed(FailSendText, StoreCause(saveErr.value))))
  }

  /**
   * `HandleTextMessage` over the message and chat tables, the failing store
   * operations and the running instances.
   */
  function Outbound(mainGroups: seq<int>, unavailable: set<StoreOp>, messages: seq<Row<Message>>,
                    chats: seq<Row<Chat>>, m: TgIncoming, instances: map<int, InstanceView>,
                    download: Option<string>, provider: Result<string, string>, now: nat): OutboundPlan
  {
    var text := ItemText(m);
    if IsMainGroup(mainGroups, m.chatID) || text == "" then Ignored
    else if Find(Messages) !in unavailable && FindMessage(messages, ByTG(m.messageID, m.chatID)).Some? then Ignored
    else if Find(Chats) in unavailable then ReplyOnly(Failed(FailSendText, StoreCause(StoreError(Find(Chats)))))
    else
      var bound := ChatsOf(chats, m.chatID);
      if |bound| == 0 then ReplyOnly(Say(ChatNotJoin))
      else match InstanceOf(instances, ParseInt(bound[0].mgid).value)
        case None => ReplyOnly(Say(InstanceNotReady))
        case Some(v) => Relay(v, bound[0], m, text, download, provider, now, SaveErrorIn(unavailable, Messages))
  }

  /** Messages in a main group, and messages that classify to no text, are ignored entirely. */
  lemma MainGroupAndEmptyIgnored(mainGroups: seq<int>, unavailable: set<StoreOp>, messages: seq<Row<Message>>,
                                 chats: seq<Row<Chat>>, m: TgIncoming, instances: map<int, InstanceView>,
                                 download: Option<string>, provider: Result<string, string>, now: nat)
    requires m.chatID in mainGroups || ItemText(m) == ""
    ensures Outbound(mainGroups, unavailable, messages, chats, m, instances, download, provider, now) == Ignored
  {
  }

  /** A message already stored under its (Telegram id, chat) pair is not sent again, and nothing is said. */
  lemma DuplicateIgnored(mainGroups: seq<int>, unavailable: set<StoreOp>, messages: seq<Row<Message>>,
                         chats: seq<Row<Chat>>, m: TgIncoming, instances: map<int, InstanceView>,
                         download: Option<string>, provider: Result<string, string>, now: nat, i: nat)
    requires Find(Messages) !in unavailable && i < |messages|
    requires messages[i].rec.tgMessageID == m.messageID && messages[i].rec.tgChatID == m.chatID
    ensures Outbound(mainGroups, unavailable, messages, chats, m, instances, download, provider, now) == Ignored
  {
    assert !(FirstIndex(messages, (r: Row<Message>) => MatchesKey(r.rec, ByTG(m.messageID, m.chatID))).None?)
      by { assert MatchesKey(messages[i].rec, ByTG(m.messageID, m.chatID)); }
  }

  /** A chat with no binding is told "Chat not join!", and nothing goes to WhatsApp. */
  lemma UnboundChatNotJoined(mainGroups: seq<int>, unavailable: set<StoreOp>, messages: seq<Row<Message>>,
                             chats: seq<Row<Chat>>, m: TgIncoming, instances: map<int, InstanceView>,
                             download: Option<string>, provider: Result<string, string>, now: nat)
    requires m.chatID !in mainGroups && ItemText(m) != ""
    requires Find(Messages) in unavailable || FindMessage(messages, ByTG(m.messageID, m.chatID)).None?
    requires Find(Chats) !in unavailable
    requires forall i :: 0 <= i < |chats| ==> chats[i].rec.tgChatID != m.chatID
    ensures Outbound(mainGroups, unavailable, messages, chats, m, instances, download, provider, now)
      == ReplyOnly(Say(ChatNotJoin))
  {
  }

  /**
   * Nothing is saved unless the WhatsApp send succeeded, and a failed send
   * is reported with the send's own error.
   */
  lemma {:induction false} SavedOnlyAfterSend(mainGroups: seq<int>, unavailable: set<StoreOp>,
                                              messages: seq<Row<Message>>, chats: seq<Row<Chat>>, m: TgIncoming,
                                              instances: map<int, InstanceView>, download: Option<string>,
                                              provider: Result<string, string>, now: nat)
    ensures var plan := Outbound(mainGroups, unavailable, messages, chats, m, instances, download, provider, now);
      && (plan.saved.Some? ==> plan.send.Some? && provider.Ok? && plan.reply.None?)
      && (plan.send.Some? && provider.Err? ==>
          plan.saved.None? && plan.reply == Some(Failed(FailSendText, OtherCause(provider.error))))
      && (plan.send.None? ==> plan.saved.None?)
  {
    var text := ItemText(m);
    if !(IsMainGroup(mainGroups, m.chatID) || text == "")
       && !(Find(Messages) !in unavailable && FindMessage(messages, ByTG(m.messageID, m.chatID)).Some?)
       && Find(Chats) !in unavailable {
      var bound := ChatsOf(chats, m.chatID);
      if |bound| > 0 {
        match InstanceOf(instances, ParseInt(bound[0].mgid).value)
        case None =>
        case Some(v) =>
          RelaySavesAfterSend(v, bound[0], m, text, download, provider, now, SaveErrorIn(unavailable, Messages));
      }
    }
  }

  lemma RelaySavesAfterSend(v: InstanceView, chat: Chat, m: TgIncoming, text: string, download: Option<string>,
                            provider: Result<string, string>, now: nat, saveErr: Option<StoreError>)
    ensures var plan := Relay(v, chat, m, text, download, provider, now, saveErr);
      && (plan.saved.Some? ==> plan.send.Some? && provider.Ok? && plan.reply.None?)
      && (plan.send.Some? && provider.Err? ==>
          plan.saved.None? && plan.reply == Some(Failed(FailSendText, OtherCause(provider.error))))
      && (plan.send.None? ==> plan.saved.None?)
  {
  }

  /**
   * The saved record: chatted, tg2wa, the Telegram identity of the message,
   * and from the first binding of the chat its client (normalised), its
   * session and the tenant of its instance, with the provider's message id.
   */
  lemma {:induction false} SavedRecord(mainGroups: seq<int>, unavailable: set<StoreOp>,
                                       messages: seq<Row<Message>>, chats: seq<Row<Chat>>, m: TgIncoming,
                                       instances: map<int, InstanceView>, download: Option<string>,
                                       provider: Result<string, string>, now: nat)
    requires Outbound(mainGroups, unavailable, messages, chats, m, instances, download, provider, now).saved.Some?
    ensures var item := Outbound(mainGroups, unavailable, messages, chats, m, instances, download, provider, now)
      .saved.value;
      var bound := ChatsOf(chats, m.chatID);
      && |bound| > 0
      && ParseInt(bound[0].mgid).value in instances
      && item.chatted == ChattedYes && item.direction == Tg2wa
      && item.tgChatID == m.chatID && item.tgMessageID == m.messageID && item.tgUserName == m.fromUserName
      && item.text == ItemText(m) && item.waMessageID == provider.value
      && item.waClient == PrepareClientJID(bound[0].waClient) && item.session == bound[0].session
      && item.mgid == GetID(instances[ParseInt(bound[0].mgid).value])
  {
    var text := ItemText(m);
    var bound := ChatsOf(chats, m.chatID);
    var v := instances[ParseInt(bound[0].mgid).value];
    var plan := Relay(v, bound[0], m, text, download, provider, now, SaveErrorIn(unavailable, Messages));
    assert plan == Outbound(mainGroups, unavailable, messages, chats, m, instances, download, provider, now);
    var resp := SendResponse(v, bound[0].waClient, provider, now);
    assert plan.saved.value == Stamped(NewItem(m, text), v, resp.value, bound[0]);
  }

  /**
   * `HandleTextMessage`: the record is filled step by step, sent, stamped and
   * saved once. Returns the file fetched, the WhatsApp send and the deferred
   * reply (`None` when the reply text stays empty).
   */
  method HandleTextMessage(db: Store, mainGroups: seq<int>, m: TgIncoming, instances: map<int, InstanceView>,
                           download: Option<string>, provider: Result<string, string>, now: nat)
    returns (fetch: Option<string>, send: Option<WaOutgoing>, reply: Option<Notice>)
    requires db.Valid() && m.messageID != 0 && m.chatID != 0
    modifies db
    ensures db.Valid()
    ensures var plan := Outbound(mainGroups, db.unavailable, old(db.messages), old(db.chats), m, instances,
                                 download, provider, now);
      && fetch == plan.fetch && send == plan.send && reply == plan.reply
      && db.messages == (if plan.saved.Some? then SaveMessageRows(old(db.messages), plan.saved.value, old(db.nextId))
                         else old(db.messages))
      && db.nextId == (if plan.saved.Some?
                       then NextAfter(FindMessage(old(db.messages), KeyOf(plan.saved.value)), old(db.nextId))
                       else old(db.nextId))
    ensures db.chats == old(db.chats) && db.mainGroups == old(db.mainGroups)
  {
    fetch, send, reply := None, None, None;
    if IsMainGroup(mainGroups, m.chatID) {
      return;
    }
    var text := ItemText(m);
    var item := NewItem(m, text);
    if text == "" {
      return;
    }
    if db.ExistMessageByTG(item.tgMessageID, item.tgChatID) {
      return;
    }
    var chats := db.GetChatsByChatID(item.tgChatID);
    if chats.Err? {
      reply := Some(Failed(FailSendText, StoreCause(chats.error)));
      return;
    }
    if |chats.value| == 0 {
      reply := Some(Say(ChatNotJoin));
      return;
    }
    var chat := chats.value[0];
    var wac := InstanceOf(instances, ParseInt(chat.mgid).value);
    if wac.None? {
      reply := Some(Say(InstanceNotReady));
      return;
    }
    var v := wac.value;
    var d := DispatchOf(m, text);
    fetch := d.fetch;
    if d.fetch.Some? && download.Some? {
      reply := Some(Failed(FailSendText, OtherCause(download.value)));
      return;
    }
    send := Some(Outgoing(chat.waClient, d.payload, "", ""));
    var resp := SendResponse(v, chat.waClient, provider, now);
    if resp.Err? {
      reply := Some(Failed(FailSendText, OtherCause(resp.error)));
      return;
    }
    item := item.(mgid := GetID(v), waClient := resp.value.client, waMessageID := resp.value.messageID,
                  waName := resp.value.name, waFwdMessageID := resp.value.fwdMessageID,
                  waTimestamp := resp.value.timestamp, session := chat.session);
    var err := db.SaveMessage(item);
    if err.Some? {
      reply := Some(Failed(FailSendText, StoreCause(err.value)));
    }
  }

  // Callback dispatch (`HandleCallbackQuery`).

  /** Where a callback goes, by the text before the first '.' of its data. */
  datatype CallbackRoute =
    | StatPage(page: Option<int>)
    | SomethingElseCallback(parts: seq<string>)
    | ChatCallback(parts: seq<string>)
    | UnknownCallback(reply: Notice)

  /**
   * `HandleCallbackQuery`: the data split at its first '.' into at most two
   * parts; the first part alone picks the handler, and the pinned-status
   * handler is given the page the second part asks for.
   */
  function RouteCallback(data: string): (r: CallbackRoute)
    ensures var head := Before(data, '.');
      && (head == "stat" ==> r == StatPage(TgCallbacks.StatCallback(SplitN2(data, '.'))))
      && (head == "somethingelse" ==> r == SomethingElseCallback(SplitN2(data, '.')))
      && (head == "chat" ==> r == ChatCallback(SplitN2(data, '.')))
      && (head !in {"stat", "somethingelse", "chat"} ==>
          r == UnknownCallback(Say("Callback data '" + head + "' not implement")))
  {
    var parts := SplitN2(data, '.');
    match parts[0]
    case "stat" => StatPage(TgCallbacks.StatCallback(parts))
    case "somethingelse" => SomethingElseCallback(parts)
    case "chat" => ChatCallback(parts)
    case _ => UnknownCallback(Say("Callback data '" + parts[0] + "' not implement"))
  }

  /** Data with no '.' never asks for a page, whatever handler it reaches. */
  lemma NoDotNoPage(data: string)
    requires '.' !in data
    ensures RouteCallback(data).StatPage? ==> RouteCallback(data).page == None
  {
  }

  // Command dispatch (`HandleCommand`).

  datatype Command =
    | Status | Set | Login | Logout | Join | Leave | History | Stat | CheckClient | AliasCmd
    | SetLogger | Sync | ContactCmd | RePined | Restart | AutoReplay | SomethingElse
    | Unknown(name: string)

  /** The command word each handler answers to. */
  function CommandName(c: Command): (name: string)
    ensures c.Unknown? ==> name == c.name
  {
    match c
    case Status => "status"
    case Set => "set"
    case Login => "login"
    case Logout => "logout"
    case Join => "join"
    case Leave => "leave"
    case History => "history"
    case Stat => "stat"
    case CheckClient => "check_client"
    case AliasCmd => "alias"
    case SetLogger => "set_logger"
    case Sync => "sync"
    case ContactCmd => "contact"
    case RePined => "repined"
    case Restart => "restart"
    case AutoReplay => "autoreplay"
    case SomethingElse => "somethingelse"
    case Unknown(name) => name
  }

  const CommandWords := {"status", "set", "login", "logout", "join", "leave", "history", "stat",
                         "check_client", "alias", "set_logger", "sync", "contact", "repined",
                         "restart", "autoreplay", "somethingelse"}

  /** `HandleCommand`'s switch: a known word selects its handler, anything else is unknown. */
  function CommandFor(word: string): (c: Command)
    ensures c.Unknown? <==> word !in CommandWords
    ensures CommandName(c) == word
  {
    match word
    case "status" => Status
    case "set" => Set
    case "login" => Login
    case "logout" => Logout
    case "join" => Join
    case "leave" => Leave
    case "history" => History
    case "stat" => Stat
    case "check_client" => CheckClient
    case "alias" => AliasCmd
    case "set_logger" => SetLogger
    case "sync" => Sync
    case "contact" => ContactCmd
    case "repined" => RePined
    case "restart" => Restart
    case "autoreplay" => AutoReplay
    case "somethingelse" => SomethingElse
    case _ => Unknown(word)
  }

  /** Every handler is reached by its own word, and by no other. */
  lemma CommandRoundTrip(c: Command)
    requires !c.Unknown?
    ensures CommandName(c) in CommandWords
    ensures CommandFor(CommandName(c)) == c
  {
  }

  /** The reply to an unknown command word: the word quoted between "Command '" and "' not implement". */
  function UnknownCommandReply(word: string): (n: Notice)
    ensures n.Say? && HasPrefix(n.text, "Command '")
    ensures |n.text| == |word| + 24
    ensures n.text[9..9 + |word|] == word && n.text[9 + |word|..] == "' not implement"
  {
    Say("Command '" + word + "' not implement")
  }
}
