/**
 * The main-group commands `/set`, `/repined` and the `/history` command of
 * a joined chat (pkg/tg/commands.go), and what the Telegram commands ask of
 * the outside world besides their reply.
 */
module TgCommands {
  import opened Wrappers
  import opened GoStrings
  import opened GoStrconv
  import opened Records
  import opened WaApi
  import opened Store
  import opened TgService
  import TgApi

  /** What a command asks of Telegram or WhatsApp besides its reply, in order. */
  datatype Effect =
    | Notify(chatID: int, text: string)             // a message to a main group
    | SetTitle(chatID: int, title: string)
    | DropPhoto(chatID: int)
    | MarkRead(client: string, waMessageID: string)  // `ReadMessage` on WhatsApp
    | Transfer(chatID: int, text: string)           // a buffered message sent to the chat
    | DeleteTgMessage(chatID: int, messageID: int)
    | RequestHistory(client: string, size: int)     // `GetHistory` on WhatsApp
    | RefreshStatus                                 // `UpdateStatMessage`

  const OnlyMainGroup := "Command work only 'Main group'"
  const InstanceNotReady := "Instance WhatsApp not ready"

  // `/set`: name the main group.

  const FailMember := "Fail get member of main group, please send admin this error: "
  const Forbidden := "Forbbiden, only Admin or Owner"
  const EmptyGroupName := "Name MainGroup is empty"
  const SetOK := "MainGroup Set: OK"

  /** The command's arguments, trimmed and lower-cased. */
  function NormalArgs(args: string): string
  {
    ToLower(TrimSpace(args))
  }

  function FailSet(name: string): string
  {
    "Fail set '" + name + "', please send admin this error: "
  }

  /** The sender may rename a main group: its creator or an administrator. */
  predicate MayRename(member: Result<MemberStatus, string>)
  {
    member.Ok? && (member.value == Creator || member.value == Administrator)
  }

  /**
   * What `/set` saves and replies, given the configured main groups, the
   * sender's `GetChatMember` answer and the store's failing operations.
   * The saved record is a new one: only the chat id and the name are set.
   */
  function SetOutcome(mainGroups: seq<int>, chatID: int, member: Result<MemberStatus, string>,
                      args: string, unavailable: set<StoreOp>): (r: (Option<MainGroup>, Notice))
    ensures r.0.Some? <==> chatID in mainGroups && MayRename(member) && NormalArgs(args) != ""
    ensures r.0.Some? ==> r.0.value == MainGroup(chatID, NormalArgs(args), 0, 0)
    ensures r.1 == Say(SetOK) <==> r.0.Some? && SaveErrorIn(unavailable, MainGroups).None?
    ensures chatID !in mainGroups ==> r.1 == Say(OnlyMainGroup)
    ensures chatID in mainGroups && member.Err? ==> r.1 == Failed(FailMember, OtherCause(member.error))
    ensures chatID in mainGroups && member.Ok? && !MayRename(member) ==> r.1 == Say(Forbidden)
    ensures chatID in mainGroups && MayRename(member) && NormalArgs(args) == "" ==> r.1 == Say(EmptyGroupName)
    ensures r.0.Some? && SaveErrorIn(unavailable, MainGroups).Some? ==>
      r.1 == Failed(FailSet(NormalArgs(args)), StoreCause(SaveErrorIn(unavailable, MainGroups).value))
  {
    if !IsMainGroup(mainGroups, chatID) then (None, Say(OnlyMainGroup))
    else if member.Err? then (None, Failed(FailMember, OtherCause(member.error)))
    else if !MayRename(member) then (None, Say(Forbidden))
    else
      var name := NormalArgs(args);
      if name == "" then (None, Say(EmptyGroupName))
      else
        var g := MainGroup(chatID, name, 0, 0);
        match SaveErrorIn(unavailable, MainGroups)
        case Some(e) => (Some(g), Failed(FailSet(name), StoreCause(e)))
        case None => (Some(g), Say(SetOK))
  }

  /** `CommandSet`. */
  method CommandSet(db: Store, mainGroups: seq<int>, chatID: int, member: Result<MemberStatus, string>,
                    args: string)
    returns (reply: Notice)
    requires db.Valid() && chatID != 0
    modifies db
    ensures db.Valid()
    ensures var r := SetOutcome(mainGroups, chatID, member, args, db.unavailable);
      && reply == r.1
      && db.mainGroups == (if r.1 == Say(SetOK)
        then SaveMainGroupRows(old(db.mainGroups), r.0.value, old(db.nextId)) else old(db.mainGroups))
    ensures db.messages == old(db.messages) && db.chats == old(db.chats)
  {
    if !IsMainGroup(mainGroups, chatID) {
      return Say(OnlyMainGroup);
    }
    if member.Err? {
      return Failed(FailMember, OtherCause(member.error));
    }
    if !(member.value == Creator || member.value == Administrator) {
      return Say(Forbidden);
    }
    var name := ToLower(TrimSpace(args));
    if name == "" {
      return Say(EmptyGroupName);
    }
    var err := db.SaveMainGroup(MainGroup(chatID, name, 0, 0));
    if err.Some? {
      return Failed(FailSet(name), StoreCause(err.value));
    }
    reply := Say(SetOK);
  }

  /**
   * After a successful `/set` the chat's main group carries the new name, and
   * its pinned status message and its logger chat are forgotten: the saved
   * record replaces the stored one whole.
   */
  lemma SetForgetsPinAndLogger(rows: seq<Row<MainGroup>>, mainGroups: seq<int>, chatID: int,
                               member: Result<MemberStatus, string>, args: string,
                               unavailable: set<StoreOp>, next: nat)
    requires UniqueGroups(rows)
    requires SetOutcome(mainGroups, chatID, member, args, unavailable).1 == Say(SetOK)
    ensures var r := SaveMainGroupRows(rows, SetOutcome(mainGroups, chatID, member, args, unavailable).0.value, next);
      var f := FindGroupByTGID(r, chatID);
      && f.Some? && r[f.value].rec.name == NormalArgs(args)
      && r[f.value].rec.messagePin == 0 && r[f.value].rec.loggerChatID == 0
  {
    var g := SetOutcome(mainGroups, chatID, member, args, unavailable).0.value;
    SaveMainGroupThenFind(rows, g, next);
  }

  // `/repined`: drop the pinned status message and post a new one.

  /**
   * The record `/repined` saves: the chat's stored main group with
   * `MessagePin` set to the sentinel -1, or `None` when it is not a main
   * group, the lookup fails or nothing is stored for it.
   */
  function RePinedRecord(mainGroups: seq<int>, chatID: int, rows: seq<Row<MainGroup>>,
                         unavailable: set<StoreOp>): (g: Option<MainGroup>)
    ensures g.Some? <==> (chatID in mainGroups && Find(MainGroups) !in unavailable
      && FindGroupByTGID(rows, chatID).Some?)
    ensures g.Some? ==> g.value == rows[FindGroupByTGID(rows, chatID).value].rec.(messagePin := -1)
  {
    if !IsMainGroup(mainGroups, chatID) || Find(MainGroups) in unavailable then None
    else match FindGroupByTGID(rows, chatID)
      case None => None
      case Some(i) => Some(rows[i].rec.(messagePin := -1))
  }

  /**
   * `CommandRePined`: outside a main group it only replies; otherwise it
   * replies nothing, and when the main group is stored it saves it with the
   * sentinel (ignoring the save's error) and refreshes the status messages.
   */
  method CommandRePined(db: Store, mainGroups: seq<int>, chatID: int)
    returns (reply: Option<Notice>, refresh: bool)
    requires db.Valid() && chatID != 0
    modifies db
    ensures db.Valid()
    ensures reply.Some? <==> chatID !in mainGroups
    ensures reply.Some? ==> reply.value == Say(OnlyMainGroup)
    ensures var g := RePinedRecord(mainGroups, chatID, old(db.mainGroups), db.unavailable);
      && (refresh <==> g.Some?)
      && db.mainGroups == (if g.Some? && Save(MainGroups) !in db.unavailable
        then SaveMainGroupRows(old(db.mainGroups), g.value, old(db.nextId)) else old(db.mainGroups))
    ensures db.messages == old(db.messages) && db.chats == old(db.chats)
  {
    reply, refresh := None, false;
    if !IsMainGroup(mainGroups, chatID) {
      reply := Some(Say(OnlyMainGroup));
      return;
    }
    var grp := db.GetMainGroupByTGID(chatID);
    if grp.Err? || grp.value.None? {
      return;
    }
    var _ := db.SaveMainGroup(grp.value.value.(messagePin := -1));
    refresh := true;
  }

  /**
   * Once `/repined` has saved the sentinel, the tenant's next status pass
   * edits nothing and sends a new status message exactly when the page
   * has text.
   */
  lemma RePinedSendsNewStatus(rows: seq<Row<MainGroup>>, mainGroups: seq<int>, chatID: int,
                              unavailable: set<StoreOp>, next: nat, txt: string, row: seq<TgApi.Button>,
                              editError: Option<string>, sent: Result<int, string>, saveOk: bool)
    requires UniqueGroups(rows)
    requires RePinedRecord(mainGroups, chatID, rows, unavailable).Some?
    ensures var saved := SaveMainGroupRows(rows, RePinedRecord(mainGroups, chatID, rows, unavailable).value, next);
      var f := FindGroupByTGID(saved, chatID);
      && f.Some? && saved[f.value].rec.messagePin == -1
      && var out := TgApi.PinPlan(chatID, saved[f.value].rec.messagePin, txt, row, editError, sent, saveOk);
      && !TgApi.Edits(out.effects)
      && (TgApi.Sends(out.effects) <==> txt != "")
  {
    var g := RePinedRecord(mainGroups, chatID, rows, unavailable).value;
    SaveMainGroupThenFind(rows, g, next);
    TgApi.PinPlanTransitions(chatID, -1, txt, row, editError, sent, saveOk);
  }

  // `/history`: ask WhatsApp for the chat's recent messages.

  const FailHistoryChat := "Fail get History chat, please send admin this error: "
  const ChatNotJoined := "Chat not joined!"
  const FailHistory := "Fail get History, please send admin this error: "

  function FailHistoryFor(name: string, client: string): string
  {
    "Fail get History chat for '" + name + "(" + client + ")', please send admin this error: "
  }

  /** The number of messages asked for: the arguments as an integer, else 10. */
  function HistorySize(args: string): (n: int)
    ensures Atoi(NormalArgs(args)).err == NoError ==> n == Atoi(NormalArgs(args)).value
    ensures Atoi(NormalArgs(args)).err != NoError ==> n == 10
  {
    var size := Atoi(NormalArgs(args));
    if size.err != NoError then 10 else size.value
  }

  /**
   * The steps of `/history` before its reply is decided: the request it
   * makes of the chat's WhatsApp instance with the client's name, or the
   * reply that ends it first.
   */
  datatype HistoryStart = Requested(client: string, name: string, size: int) | Refused(reply: Notice)

  function HistoryStartOf(chats: Result<seq<Chat>, StoreError>, instances: map<int, InstanceView>,
                          args: string): (h: HistoryStart)
    ensures chats.Err? ==> h == Refused(Failed(FailHistoryChat, StoreCause(chats.error)))
    ensures chats == Ok([]) ==> h == Refused(Say(ChatNotJoined))
    ensures chats.Ok? && chats.value != [] && ParseInt(chats.value[0].mgid).err != NoError ==>
      h == Refused(Failed(FailHistory, ParseCause(chats.value[0].mgid, ParseInt(chats.value[0].mgid).err)))
    ensures h.Requested? <==> (chats.Ok? && chats.value != [] && ParseInt(chats.value[0].mgid).err == NoError
      && ParseInt(chats.value[0].mgid).value in instances)
    ensures h.Requested? ==> (h.client == chats.value[0].waClient && h.size == HistorySize(args)
      && h.name == GetClientName(instances[ParseInt(chats.value[0].mgid).value], h.client))
    ensures h.Refused? && chats.Ok? && chats.value != [] && ParseInt(chats.value[0].mgid).err == NoError ==>
      h == Refused(Say(InstanceNotReady))
  {
    match chats
    case Err(e) => Refused(Failed(FailHistoryChat, StoreCause(e)))
    case Ok(items) =>
      if items == [] then Refused(Say(ChatNotJoined))
      else
        var mg := ParseInt(items[0].mgid);
        if mg.err != NoError then Refused(Failed(FailHistory, ParseCause(items[0].mgid, mg.err)))
        else match InstanceOf(instances, mg.value)
          case None => Refused(Say(InstanceNotReady))
          case Some(v) =>
            var client := items[0].waClient;
            Requested(client, GetClientName(v, client), HistorySize(args))
  }

  /**
   * `CommandHistory` as written: the reply text is cleared after the request
   * whatever its outcome, so a failed history request is not reported.
   */
  function HistoryReplyAsWritten(start: HistoryStart, historyError: Option<string>): (reply: Option<Notice>)
    ensures start.Refused? ==> reply == Some(start.reply)
    ensures start.Requested? ==> reply.None?
  {
    match start
    case Refused(n) => Some(n)
    case Requested(client, name, size) =>
      var failure := if historyError.Some?
        then Some(Failed(FailHistoryFor(name, client), OtherCause(historyError.value))) else None;
      None
  }

  /** The reply as intended: a failed history request is reported with the client's name and id. */
  function HistoryReply(start: HistoryStart, historyError: Option<string>): (reply: Option<Notice>)
    ensures start.Refused? ==> reply == Some(start.reply)
    ensures start.Requested? ==> (reply.Some? <==> historyError.Some?)
    ensures start.Requested? && historyError.Some? ==>
      reply == Some(Failed(FailHistoryFor(start.name, start.client), OtherCause(historyError.value)))
  {
    match start
    case Refused(n) => Some(n)
    case Requested(client, name, size) =>
      if historyError.Some? then Some(Failed(FailHistoryFor(name, client), OtherCause(historyError.value)))
      else None
  }

  /**
   * The two differ exactly on a failed history request: there, as written,
   * the chat hears nothing.
   */
  lemma HistoryErrorIsDropped(start: HistoryStart, historyError: Option<string>)
    ensures HistoryReplyAsWritten(start, historyError) != HistoryReply(start, historyError)
      <==> start.Requested? && historyError.Some?
  {
  }

  /**
   * `CommandHistory` as written: once the history is requested the reply
   * text is cleared, so a failed request is not reported. `historyError` is
   * the outcome of the WhatsApp instance's `GetHistory`.
   */
  method CommandHistory(db: Store, instances: map<int, InstanceView>, chatID: int, args: string,
                        historyError: Option<string>)
    returns (request: Option<Effect>, reply: Option<Notice>)
    requires chatID != 0
    ensures var start := HistoryStartOf(db.GetChatsByChatID(chatID), instances, args);
      && (request.Some? <==> start.Requested?)
      && (request.Some? ==> request.value == RequestHistory(start.client, start.size))
      && reply == HistoryReplyAsWritten(start, historyError)
    ensures request.Some? ==> reply.None?
  {
    request := None;
    var items := db.GetChatsByChatID(chatID);
    if items.Err? {
      return None, Some(Failed(FailHistoryChat, StoreCause(items.error)));
    }
    if |items.value| == 0 {
      return None, Some(Say(ChatNotJoined));
    }
    var mg := ParseInt(items.value[0].mgid);
    if mg.err != NoError {
      return None, Some(Failed(FailHistory, ParseCause(items.value[0].mgid, mg.err)));
    }
    var wac := InstanceOf(instances, mg.value);
    if wac.None? {
      return None, Some(Say(InstanceNotReady));
    }
    var client := items.value[0].waClient;
    var name := GetClientName(wac.value, client);
    var size := Atoi(ToLower(TrimSpace(args)));
    var n := if size.err != NoError then 10 else size.value;
    request := Some(RequestHistory(client, n));
    if historyError.Some? {
      reply := Some(Failed(FailHistoryFor(name, client), OtherCause(historyError.value)));
    }
    reply := None;
  }
}
