/**
 * `/join` (pkg/tg/commands.go): bind a WhatsApp client to the chat the
 * command is sent in. The arguments name the client and, optionally, the
 * main group; the tenant is resolved from an alias, the name or the sender's
 * single membership; the binding is saved, announced, and the client's
 * buffered messages are replayed into the chat.
 */
module TgJoin {
  import opened Wrappers
  import opened GoStrconv
  import opened Records
  import opened WaApi
  import opened Store
  import opened TgService
  import opened TgCommandArgs
  import opened TgCommands

  const NotJoinMain := "Main group not join client"
  const ClientNotSet := "Client not set"
  const AllClients := "all"
  const AllNotWork := "ALL not work :'("
  const SeveralGroups :=
    "Fail, You are part of severall MainGroups, please specify the one. Example: /join tel[or alias] group"
  /** The client name that skips the existence checks. */
  const CheckClient := "check"

  function FailAlias(client: string): string
  {
    "Fail get Alias '" + client + "', please send admin this error: "
  }

  function FailGroup(mgName: string): string
  {
    "Fail get MainGroup '" + mgName + "', please send admin this error: "
  }

  function GroupNotFound(mgName: string): string
  {
    "Fail, MainGroup '" + mgName + "' not found"
  }

  function NotMember(mgName: string): string
  {
    "Access denied! You are not MainGroup '" + mgName + "' member"
  }

  function ClientNotFound(client: string): string
  {
    "Client '" + client + "' not found"
  }

  function FailJoin(name: string, client: string): string
  {
    "Fail join chat '" + name + "(" + client + ")', please send admin this error: "
  }

  function AlreadyJoined(name: string, client: string): string
  {
    "Chat already joined to client '" + name + "(" + client + ")'"
  }

  function JoinNotice(name: string, client: string, userName: string): string
  {
    "Chat " + name + "(" + client + ") join to @" + userName
  }

  function JoinTitle(name: string, client: string): string
  {
    "Chat with " + name + "(" + client + ")"
  }

  function JoinOK(name: string, client: string): string
  {
    "Join '" + name + "(" + client + ")' OK"
  }

  // Reading the arguments.

  /** The client the arguments name, normalised by `prepareClient`. */
  function ClientArg(args: string): string
  {
    PrepareClient(ArgsOf(NormalArgs(args)).0)
  }

  /** The main group the arguments name, if any. */
  function GroupArg(args: string): string
  {
    ArgsOf(NormalArgs(args)).1
  }

  /** What `/join` goes on with once its arguments are accepted. */
  datatype Request = Request(client: string, mgName: string, aliases: seq<Alias>)

  /**
   * The checks before any tenant is looked at, in the order the command makes
   * them. `aliases` is the store's answer to `GetAliasesByName` for the client.
   */
  function JoinRequest(mainGroups: seq<int>, chatID: int, args: string,
                       aliases: Result<seq<Alias>, StoreError>): (r: Result<Request, Notice>)
    ensures r.Ok? <==> (chatID !in mainGroups && ClientArg(args) != "" && ClientArg(args) != AllClients
      && aliases.Ok?)
    ensures r.Ok? ==> r.value == Request(ClientArg(args), GroupArg(args), aliases.value)
    ensures chatID in mainGroups ==> r == Err(Say(NotJoinMain))
    ensures chatID !in mainGroups && ClientArg(args) == "" ==> r == Err(Say(ClientNotSet))
    ensures chatID !in mainGroups && ClientArg(args) == AllClients ==> r == Err(Say(AllNotWork))
    ensures chatID !in mainGroups && ClientArg(args) != "" && ClientArg(args) != AllClients && aliases.Err? ==>
      r == Err(Failed(FailAlias(ClientArg(args)), StoreCause(aliases.error)))
  {
    if IsMainGroup(mainGroups, chatID) then Err(Say(NotJoinMain))
    else
      var client := ClientArg(args);
      if client == "" then Err(Say(ClientNotSet))
      else if client == AllClients then Err(Say(AllNotWork))
      else match aliases
        case Err(e) => Err(Failed(FailAlias(client), StoreCause(e)))
        case Ok(list) => Ok(Request(client, GroupArg(args), list))
  }

  // Resolving the tenant.

  /** The main groups among the first `n` configured that have the sender as a member, in order. */
  function MembersIn(mainGroups: seq<int>, dir: Directory, userID: int, n: nat): seq<int>
    requires n <= |mainGroups|
  {
    if n == 0 then []
    else
      var found := if IsMemberMainGroup(dir, userID, mainGroups[n - 1]) then [mainGroups[n - 1]] else [];
      MembersIn(mainGroups, dir, userID, n - 1) + found
  }

  /** The configured main groups that have the sender as a member, in order. */
  function MemberGroups(mainGroups: seq<int>, dir: Directory, userID: int): seq<int>
  {
    MembersIn(mainGroups, dir, userID, |mainGroups|)
  }

  /** The members found in a shorter prefix are the first ones found in a longer one. */
  lemma {:induction false} MembersInPrefix(mainGroups: seq<int>, dir: Directory, userID: int, n: nat, m: nat)
    requires n <= m <= |mainGroups|
    ensures |MembersIn(mainGroups, dir, userID, n)| <= |MembersIn(mainGroups, dir, userID, m)|
    ensures MembersIn(mainGroups, dir, userID, m)[..|MembersIn(mainGroups, dir, userID, n)|]
      == MembersIn(mainGroups, dir, userID, n)
  {
    if n < m {
      MembersInPrefix(mainGroups, dir, userID, n, m - 1);
      var a := MembersIn(mainGroups, dir, userID, m - 1);
      var b := MembersIn(mainGroups, dir, userID, m);
      assert b[..|a|] == a;
    } else {
      var a := MembersIn(mainGroups, dir, userID, n);
      assert a[..|a|] == a;
    }
  }

  /** The members found in the first `n` groups are exactly those groups the sender belongs to. */
  lemma {:induction false} MembersInExact(mainGroups: seq<int>, dir: Directory, userID: int, n: nat)
    requires n <= |mainGroups|
    ensures forall x :: x in MembersIn(mainGroups, dir, userID, n) <==>
      exists i :: 0 <= i < n && mainGroups[i] == x && IsMemberMainGroup(dir, userID, x)
  {
    if n > 0 {
      MembersInExact(mainGroups, dir, userID, n - 1);
    }
  }

  /**
   * A group is listed exactly when it is configured and has the sender as a
   * member; the list is empty exactly when the sender is not authorized.
   */
  lemma MemberGroupsExact(mainGroups: seq<int>, dir: Directory, userID: int)
    ensures forall x :: x in MemberGroups(mainGroups, dir, userID) <==>
      x in mainGroups && IsMemberMainGroup(dir, userID, x)
    ensures MemberGroups(mainGroups, dir, userID) == [] <==> !IsAuthorized(mainGroups, dir, userID)
  {
    MembersInExact(mainGroups, dir, userID, |mainGroups|);
    var g := MemberGroups(mainGroups, dir, userID);
    if IsAuthorized(mainGroups, dir, userID) {
      var i :| 0 <= i < |mainGroups| && IsMemberMainGroup(dir, userID, mainGroups[i]);
      assert mainGroups[i] in g;
    }
    if g != [] {
      assert g[0] in g;
      var i :| 0 <= i < |mainGroups| && mainGroups[i] == g[0] && IsMemberMainGroup(dir, userID, g[0]);
      assert IsMemberMainGroup(dir, userID, mainGroups[i]);
    }
  }

  /**
   * The loop over the configured main groups: the one the sender belongs to,
   * 0 when there is none, and `several` when a second membership is found.
   */
  method PickMainGroup(mainGroups: seq<int>, dir: Directory, userID: int) returns (mg: int, several: bool)
    ensures several <==> |MemberGroups(mainGroups, dir, userID)| >= 2
    ensures !several ==> mg == (if MemberGroups(mainGroups, dir, userID) == [] then 0
      else MemberGroups(mainGroups, dir, userID)[0])
  {
    var isOne := true;
    mg := 0;
    for i := 0 to |mainGroups|
      invariant |MembersIn(mainGroups, dir, userID, i)| <= 1
      invariant isOne <==> MembersIn(mainGroups, dir, userID, i) == []
      invariant isOne ==> mg == 0
      invariant !isOne ==> mg == MembersIn(mainGroups, dir, userID, i)[0]
    {
      var isMember := IsMemberMainGroup(dir, userID, mainGroups[i]);
      if isMember && !isOne {
        MembersInPrefix(mainGroups, dir, userID, i + 1, |mainGroups|);
        return 0, true;
      }
      if isMember && isOne {
        isOne := false;
        mg := mainGroups[i];
      }
    }
    return mg, false;
  }

  /** The tenant of the only alias, when the sender belongs to it; 0 otherwise. */
  function AliasTenant(aliases: seq<Alias>, dir: Directory, userID: int): (mg: int)
    ensures mg != 0 ==>
      |aliases| == 1 && mg == ParseInt(aliases[0].mgid).value && IsMemberMainGroup(dir, userID, mg)
    ensures |aliases| == 1 && IsMemberMainGroup(dir, userID, ParseInt(aliases[0].mgid).value) ==>
      mg == ParseInt(aliases[0].mgid).value
    ensures |aliases| != 1 ==> mg == 0
  {
    if |aliases| == 1 && IsMemberMainGroup(dir, userID, ParseInt(aliases[0].mgid).value)
    then ParseInt(aliases[0].mgid).value
    else 0
  }

  /** `GetMainGroupByName`, made only when a name is given. */
  function NameLookup(db: Store, mgName: string): Result<Option<MainGroup>, StoreError>
    reads db
  {
    if mgName == "" then Ok(None) else db.GetMainGroupByName(mgName)
  }

  /**
   * The tenant `/join` binds to, given the alias's tenant, the named main
   * group's lookup and the sender's memberships. An alias the sender belongs
   * to decides, whatever name is given; else a named main group must exist
   * and have the sender as a member; else the sender's single membership
   * decides, none gives 0, and two or more are refused.
   */
  function TenantOf(aliasTenant: int, mgName: string, byName: Result<Option<MainGroup>, StoreError>,
                    members: seq<int>, dir: Directory, userID: int): (r: Result<int, Notice>)
    ensures aliasTenant != 0 ==> r == Ok(aliasTenant)
    ensures aliasTenant == 0 && mgName != "" ==>
      (r.Ok? <==> byName.Ok? && byName.value.Some? && IsMemberMainGroup(dir, userID, byName.value.value.tgChatID))
    ensures aliasTenant == 0 && mgName != "" && r.Ok? ==> r.value == byName.value.value.tgChatID
    ensures aliasTenant == 0 && mgName != "" && byName.Err? ==>
      r == Err(Failed(FailGroup(mgName), StoreCause(byName.error)))
    ensures aliasTenant == 0 && mgName != "" && byName == Ok(None) ==> r == Err(Say(GroupNotFound(mgName)))
    ensures aliasTenant == 0 && mgName != "" && byName.Ok? && byName.value.Some? && r.Err? ==>
      r == Err(Say(NotMember(mgName)))
    ensures aliasTenant == 0 && mgName == "" ==> (r.Err? <==> |members| >= 2)
    ensures aliasTenant == 0 && mgName == "" && r.Err? ==> r == Err(Say(SeveralGroups))
    ensures aliasTenant == 0 && mgName == "" && r.Ok? ==> r.value == (if members == [] then 0 else members[0])
  {
    if aliasTenant != 0 then Ok(aliasTenant)
    else if mgName != "" then
      match byName
      case Err(e) => Err(Failed(FailGroup(mgName), StoreCause(e)))
      case Ok(None) => Err(Say(GroupNotFound(mgName)))
      case Ok(Some(g)) =>
        if !IsMemberMainGroup(dir, userID, g.tgChatID) then Err(Say(NotMember(mgName))) else Ok(g.tgChatID)
    else if |members| >= 2 then Err(Say(SeveralGroups))
    else Ok(if members == [] then 0 else members[0])
  }

  /** The tenant resolution of `/join`, with the loop over the main groups. */
  method ResolveTenant(db: Store, req: Request, mainGroups: seq<int>, dir: Directory, userID: int)
    returns (r: Result<int, Notice>)
    ensures r == TenantOf(AliasTenant(req.aliases, dir, userID), req.mgName, NameLookup(db, req.mgName),
      MemberGroups(mainGroups, dir, userID), dir, userID)
  {
    var mgChatID := 0;
    if |req.aliases| == 1 {
      mgChatID := ParseInt(req.aliases[0].mgid).value;
      if !IsMemberMainGroup(dir, userID, mgChatID) {
        mgChatID := 0;
      }
    }
    if req.mgName != "" && mgChatID == 0 {
      var mg := db.GetMainGroupByName(req.mgName);
      if mg.Err? {
        return Err(Failed(FailGroup(req.mgName), StoreCause(mg.error)));
      }
      if mg.value.None? {
        return Err(Say(GroupNotFound(req.mgName)));
      }
      if !IsMemberMainGroup(dir, userID, mg.value.value.tgChatID) {
        return Err(Say(NotMember(req.mgName)));
      }
      mgChatID := mg.value.value.tgChatID;
    } else if mgChatID == 0 {
      var picked, several := PickMainGroup(mainGroups, dir, userID);
      if several {
        return Err(Say(SeveralGroups));
      }
      mgChatID := picked;
    }
    return Ok(mgChatID);
  }

  // Resolving the client.

  /** The last of the first `n` aliases under the tenant `mgid`. */
  function LastAlias(aliases: seq<Alias>, mgid: string, n: nat): (r: Option<nat>)
    requires n <= |aliases|
    ensures r.Some? ==> r.value < n && aliases[r.value].mgid == mgid
    ensures r.Some? ==> forall j :: r.value < j < n ==> aliases[j].mgid != mgid
    ensures r.None? <==> forall j :: 0 <= j < n ==> aliases[j].mgid != mgid
  {
    if n == 0 then None
    else if aliases[n - 1].mgid == mgid then Some(n - 1)
    else LastAlias(aliases, mgid, n - 1)
  }

  /** The client of the last alias under `mgid` among the first `n`; `client` when there is none. */
  function AliasedClient(aliases: seq<Alias>, mgid: string, client: string, n: nat): string
    requires n <= |aliases|
  {
    match LastAlias(aliases, mgid, n)
    case Some(i) => aliases[i].waClient
    case None => client
  }

  /** The loop over the aliases: each one under the tenant replaces the client. */
  method FallbackClient(aliases: seq<Alias>, mgid: string, client: string) returns (c: string)
    ensures c == AliasedClient(aliases, mgid, client, |aliases|)
  {
    c := client;
    for i := 0 to |aliases|
      invariant c == AliasedClient(aliases, mgid, client, i)
    {
      if aliases[i].mgid == mgid {
        c := aliases[i].waClient;
      }
    }
  }

  /** Where `/join` binds: the tenant, its WhatsApp instance and the client. */
  datatype Target = Target(mg: int, wac: InstanceView, client: string)

  /**
   * The client `/join` binds: the one asked for when the instance knows it (or
   * it is `check`), else the client of the last alias under the tenant.
   */
  function TargetClient(wac: InstanceView, mg: int, client: string, aliases: seq<Alias>): string
  {
    if client != CheckClient && !ClientExist(wac, client) then AliasedClient(aliases, FormatInt(mg), client, |aliases|)
    else client
  }

  /** Everything before the binding is saved: the tenant, its instance and a client it knows. */
  function Resolve(tenant: Result<int, Notice>, instances: map<int, InstanceView>, req: Request): (r: Result<Target, Notice>)
    ensures tenant.Err? ==> r == Err(tenant.error)
    ensures tenant.Ok? && tenant.value !in instances ==> r == Err(Say(InstanceNotReady))
    ensures r.Ok? ==>
      && tenant == Ok(r.value.mg) && r.value.mg in instances && r.value.wac == instances[r.value.mg]
      && r.value.client == TargetClient(r.value.wac, r.value.mg, req.client, req.aliases)
      && (r.value.client == CheckClient || ClientExist(r.value.wac, r.value.client))
    ensures tenant.Ok? && tenant.value in instances && r.Err? ==>
      var c := TargetClient(instances[tenant.value], tenant.value, req.client, req.aliases);
      c != CheckClient && !ClientExist(instances[tenant.value], c) && r == Err(Say(ClientNotFound(c)))
  {
    match tenant
    case Err(e) => Err(e)
    case Ok(mg) =>
      match InstanceOf(instances, mg)
      case None => Err(Say(InstanceNotReady))
      case Some(wac) =>
        var c := TargetClient(wac, mg, req.client, req.aliases);
        if c != CheckClient && !ClientExist(wac, c) then Err(Say(ClientNotFound(c)))
        else Ok(Target(mg, wac, c))
  }

  /**
   * What `/join` resolves before it touches the store: the accepted request,
   * its tenant and a client the tenant's instance knows.
   */
  function Plan(db: Store, mainGroups: seq<int>, instances: map<int, InstanceView>, dir: Directory,
                chatID: int, userID: int, args: string, aliases: Result<seq<Alias>, StoreError>): Result<Target, Notice>
    reads db
  {
    var rq := JoinRequest(mainGroups, chatID, args, aliases);
    if rq.Err? then Err(rq.error)
    else
      var tenant := TenantOf(AliasTenant(rq.value.aliases, dir, userID), rq.value.mgName,
        NameLookup(db, rq.value.mgName), MemberGroups(mainGroups, dir, userID), dir, userID);
      Resolve(tenant, instances, rq.value)
  }

  // Saving the binding.

  /** The binding `/join` saves: the tenant's id, the client's JID, the chat and the joiner. */
  function BoundChat(t: Target, chatID: int, userName: string): (c: Chat)
    ensures c.mgid == GetID(t.wac) && c.waClient == PrepareClientJID(t.client)
    ensures c.tgChatID == chatID && c.tgUserName == userName && c.session == ""
    ensures c.waClient != "" && c.mgid != ""
  {
    Chat(GetID(t.wac), PrepareClientJID(t.client), chatID, userName, "")
  }

  /**
   * Why the binding is not saved, if it is not: the chat's bindings cannot be
   * read, the chat already has one, or the save fails.
   */
  function BindFailure(t: Target, items: Result<seq<Chat>, StoreError>, saveErr: Option<StoreError>): (r: Option<Notice>)
    ensures r.None? <==> items == Ok([]) && saveErr.None?
    ensures items.Ok? && items.value != [] ==>
      r == Some(Say(AlreadyJoined(GetClientName(t.wac, items.value[0].waClient), items.value[0].waClient)))
  {
    var name := GetClientName(t.wac, t.client);
    match items
    case Err(e) => Some(Failed(FailJoin(name, t.client), StoreCause(e)))
    case Ok(list) =>
      if list != [] then Some(Say(AlreadyJoined(GetClientName(t.wac, list[0].waClient), list[0].waClient)))
      else match saveErr
        case Some(e) => Some(Failed(FailJoin(name, t.client), StoreCause(e)))
        case None => None
  }

  /** The binding step: read the chat's bindings, and save the new one when there is none. */
  method Bind(db: Store, t: Target, chatID: int, userName: string) returns (failure: Option<Notice>)
    requires db.Valid() && chatID != 0
    modifies db
    ensures db.Valid()
    ensures failure == BindFailure(t, old(db.GetChatsByChatID(chatID)), db.SaveError(Chats))
    ensures failure.Some? ==> db.chats == old(db.chats) && db.nextId == old(db.nextId)
    ensures failure.None? ==>
      && db.chats == SaveChatRows(old(db.chats), BoundChat(t, chatID, userName), old(db.nextId))
      && db.nextId == NextAfter(FindChatByClient(old(db.chats), BoundChat(t, chatID, userName).waClient), old(db.nextId))
    ensures db.messages == old(db.messages) && db.mainGroups == old(db.mainGroups)
  {
    var name := GetClientName(t.wac, t.client);
    var chat := BoundChat(t, chatID, userName);
    var items := db.GetChatsByChatID(chatID);
    if items.Err? {
      return Some(Failed(FailJoin(name, t.client), StoreCause(items.error)));
    }
    if |items.value| > 0 {
      var first := items.value[0].waClient;
      return Some(Say(AlreadyJoined(GetClientName(t.wac, first), first)));
    }
    var err := db.SaveChat(chat);
    if err.Some? {
      return Some(Failed(FailJoin(name, t.client), StoreCause(err.value)));
    }
    return None;
  }

  /** The notice to the tenant and the chat's new title. */
  function Welcome(t: Target, chatID: int, userName: string): seq<Effect>
  {
    var name := GetClientName(t.wac, t.client);
    [Notify(t.mg, JoinNotice(name, t.client, userName)), SetTitle(chatID, JoinTitle(name, t.client))]
  }

  // Replaying the buffered messages.

  /** What the transfer of the `k`-th buffered message reported: the message sent, if it names a chat. */
  function SendOutcome(sends: seq<Option<TGMessage>>, k: nat): Option<TGMessage>
  {
    if k < |sends| then sends[k] else None
  }

  /** Telegram gives every message it sends a chat id and a message id. */
  predicate SentIds(sends: seq<Option<TGMessage>>)
  {
    forall k :: 0 <= k < |sends| && sends[k].Some? ==> sends[k].value.chatID != 0 && sends[k].value.messageID != 0
  }

  /** Every message of `list` can be saved under its own key. */
  predicate Keyed(list: seq<Message>)
  {
    forall k :: 0 <= k < |list| ==> UsableKey(KeyOf(list[k]))
  }

  /**
   * A buffered message as the replay saves it: chatted, carrying the joiner's
   * user name and, when the transfer reported a message, its Telegram ids and
   * date; nothing else changes.
   */
  function Replayed(v: Message, sent: Option<TGMessage>, userName: string): (m: Message)
    ensures m.chatted == ChattedYes && m.tgUserName == userName
    ensures sent.Some? ==>
      && m.tgChatID == sent.value.chatID && m.tgMessageID == sent.value.messageID
      && m.tgTimestamp == sent.value.timestamp && m.tgFwdMessageID == sent.value.fwdMessageID
    ensures sent.None? ==>
      && m.tgChatID == v.tgChatID && m.tgMessageID == v.tgMessageID
      && m.tgTimestamp == v.tgTimestamp && m.tgFwdMessageID == v.tgFwdMessageID
    ensures m == v.(tgChatID := m.tgChatID, tgMessageID := m.tgMessageID, tgTimestamp := m.tgTimestamp,
      tgFwdMessageID := m.tgFwdMessageID, tgUserName := userName, chatted := ChattedYes)
  {
    var w := if sent.Some? then v.(tgChatID := sent.value.chatID, tgMessageID := sent.value.messageID,
      tgTimestamp := sent.value.timestamp, tgFwdMessageID := sent.value.fwdMessageID) else v;
    w.(tgUserName := userName, chatted := ChattedYes)
  }

  /** The messages the replay saves, one per buffered message, in order. */
  function Replays(list: seq<Message>, sends: seq<Option<TGMessage>>, userName: string): (r: seq<Message>)
  {
    seq(|list|, k requires 0 <= k < |list| => Replayed(list[k], SendOutcome(sends, k), userName))
  }

  /** The message table and next key after saving the first `n` of `ms` in order. */
  function SavedAll(rows: seq<Row<Message>>, next: nat, ms: seq<Message>, n: nat): (seq<Row<Message>>, nat)
    requires n <= |ms|
  {
    if n == 0 then (rows, next)
    else
      var p := SavedAll(rows, next, ms, n - 1);
      (SaveMessageRows(p.0, ms[n - 1], p.1), NextAfter(FindMessage(p.0, KeyOf(ms[n - 1])), p.1))
  }

  /** The calls the transfer of one buffered message makes. */
  function TransferOf(v: Message, chatID: int): seq<Effect>
  {
    [MarkRead(v.waClient, v.waMessageID), Transfer(chatID, v.text), DeleteTgMessage(v.tgChatID, v.tgMessageID)]
  }

  /** The calls the transfers of the first `n` buffered messages make, in order. */
  function ReplayEffects(list: seq<Message>, chatID: int, n: nat): (r: seq<Effect>)
    requires n <= |list|
    ensures |r| == 3 * n
  {
    if n == 0 then [] else ReplayEffects(list, chatID, n - 1) + TransferOf(list[n - 1], chatID)
  }

  /**
   * The replay loop: each buffered message is marked read on WhatsApp, sent
   * to the chat, its old Telegram copy deleted, and saved as `Replayed`. A
   * failed save is ignored.
   */
  method Replay(db: Store, list: seq<Message>, sends: seq<Option<TGMessage>>, userName: string, chatID: int)
    returns (effects: seq<Effect>)
    requires db.Valid() && Keyed(list) && SentIds(sends)
    modifies db
    ensures db.Valid()
    ensures effects == ReplayEffects(list, chatID, |list|)
    ensures db.SaveError(Messages).Some? ==> db.messages == old(db.messages) && db.nextId == old(db.nextId)
    ensures db.SaveError(Messages).None? ==>
      (db.messages, db.nextId) == SavedAll(old(db.messages), old(db.nextId), Replays(list, sends, userName), |list|)
    ensures db.chats == old(db.chats) && db.mainGroups == old(db.mainGroups)
  {
    ghost var ms := Replays(list, sends, userName);
    effects := [];
    var i := 0;
    while i < |list|
      invariant i <= |list| && db.Valid()
      invariant effects == ReplayEffects(list, chatID, i)
      invariant db.SaveError(Messages).Some? ==> db.messages == old(db.messages) && db.nextId == old(db.nextId)
      invariant db.SaveError(Messages).None? ==>
        (db.messages, db.nextId) == SavedAll(old(db.messages), old(db.nextId), ms, i)
      invariant db.chats == old(db.chats) && db.mainGroups == old(db.mainGroups)
    {
      var v := list[i];
      effects := effects + TransferOf(v, chatID);
      var sent := SendOutcome(sends, i);
      if sent.Some? {
        v := v.(tgChatID := sent.value.chatID, tgMessageID := sent.value.messageID,
          tgTimestamp := sent.value.timestamp, tgFwdMessageID := sent.value.fwdMessageID);
      }
      v := v.(tgUserName := userName, chatted := ChattedYes);
      assert v == ms[i];
      var _ := db.SaveMessage(v);
      i := i + 1;
    }
  }

  // The command as a whole.

  /** The reply, the calls and the two tables a `/join` leaves behind. */
  datatype Outcome = Outcome(reply: Notice, effects: seq<Effect>, chats: seq<Row<Chat>>, messages: seq<Row<Message>>)

  /**
   * The outcome of joining `t` once its target is resolved, in terms of the
   * store before the command: `items` is the chat's bindings as read, `msgs`
   * the client's buffered messages as read.
   */
  function Joined(t: Target, chatID: int, userName: string, sends: seq<Option<TGMessage>>,
                  items: Result<seq<Chat>, StoreError>, msgs: Result<seq<Message>, StoreError>,
                  unavailable: set<StoreOp>, chats: seq<Row<Chat>>, messages: seq<Row<Message>>, next: nat): Outcome
  {
    var bound := BoundChat(t, chatID, userName);
    var name := GetClientName(t.wac, t.client);
    match BindFailure(t, items, SaveErrorIn(unavailable, Chats))
    case Some(n) => Outcome(n, [], chats, messages)
    case None =>
      var boundRows := SaveChatRows(chats, bound, next);
      var boundNext := NextAfter(FindChatByClient(chats, bound.waClient), next);
      match msgs
      case Err(e) => Outcome(Failed(FailJoin(name, t.client), StoreCause(e)), Welcome(t, chatID, userName), boundRows, messages)
      case Ok(list) =>
        var saved := if SaveErrorIn(unavailable, Messages).None?
          then SavedAll(messages, boundNext, Replays(list, sends, userName), |list|).0 else messages;
        Outcome(Say(JoinOK(name, t.client)),
          Welcome(t, chatID, userName) + ReplayEffects(list, chatID, |list|) + [RefreshStatus], boundRows, saved)
  }

  /** `/join` once the target is resolved: bind the chat, then replay the client's buffered messages. */
  method JoinTarget(db: Store, t: Target, chatID: int, userName: string, sends: seq<Option<TGMessage>>)
    returns (reply: Notice, effects: seq<Effect>)
    requires db.Valid() && chatID != 0 && SentIds(sends)
    modifies db
    ensures db.Valid() && db.mainGroups == old(db.mainGroups)
    ensures Outcome(reply, effects, db.chats, db.messages)
      == Joined(t, chatID, userName, sends, old(db.GetChatsByChatID(chatID)),
           old(db.GetMessagesNotChattedByClient(BoundChat(t, chatID, userName).waClient)),
           db.unavailable, old(db.chats), old(db.messages), old(db.nextId))
  {
    var chat := BoundChat(t, chatID, userName);
    var failure := Bind(db, t, chatID, userName);
    if failure.Some? {
      return failure.value, [];
    }
    var name := GetClientName(t.wac, t.client);
    effects := [Notify(t.mg, JoinNotice(name, t.client, userName)), SetTitle(chatID, JoinTitle(name, t.client))];
    var msgs := db.GetMessagesNotChattedByClient(chat.waClient);
    if msgs.Err? {
      return Failed(FailJoin(name, t.client), StoreCause(msgs.error)), effects;
    }
    forall k | 0 <= k < |msgs.value|
      ensures UsableKey(KeyOf(msgs.value[k]))
    {
      assert msgs.value[k] in msgs.value;
    }
    var transfers := Replay(db, msgs.value, sends, userName, chatID);
    return Say(JoinOK(name, t.client)), effects + transfers + [RefreshStatus];
  }

  /**
   * `/join [client] [group]` in chat `chatID` by `userID`: resolve the
   * request, its tenant and its client, bind the chat to the client and
   * replay what the client has buffered. `aliases` is the alias lookup by
   * the client argument; `sends` what each transfer reported.
   */
  method CommandJoin(db: Store, mainGroups: seq<int>, instances: map<int, InstanceView>, dir: Directory,
                     chatID: int, userID: int, userName: string, args: string,
                     aliases: Result<seq<Alias>, StoreError>, sends: seq<Option<TGMessage>>)
    returns (reply: Notice, effects: seq<Effect>)
    requires db.Valid() && chatID != 0 && SentIds(sends)
    modifies db
    ensures db.Valid() && db.mainGroups == old(db.mainGroups)
    ensures var plan := old(Plan(db, mainGroups, instances, dir, chatID, userID, args, aliases));
      && (plan.Err? ==> reply == plan.error && effects == [] && db.chats == old(db.chats) && db.messages == old(db.messages))
      && (plan.Ok? ==>
            Outcome(reply, effects, db.chats, db.messages)
            == Joined(plan.value, chatID, userName, sends, old(db.GetChatsByChatID(chatID)),
                 old(db.GetMessagesNotChattedByClient(BoundChat(plan.value, chatID, userName).waClient)),
                 db.unavailable, old(db.chats), old(db.messages), old(db.nextId)))
  {
    var rq := JoinRequest(mainGroups, chatID, args, aliases);
    if rq.Err? {
      return rq.error, [];
    }
    var tenant := ResolveTenant(db, rq.value, mainGroups, dir, userID);
    if tenant.Err? {
      return tenant.error, [];
    }
    var wac := InstanceOf(instances, tenant.value);
    if wac.None? {
      return Say(InstanceNotReady), [];
    }
    var client := rq.value.client;
    if client != CheckClient && !ClientExist(wac.value, client) {
      client := FallbackClient(rq.value.aliases, FormatInt(tenant.value), client);
    }
    if client != CheckClient && !ClientExist(wac.value, client) {
      return Say(ClientNotFound(client)), [];
    }
    reply, effects := JoinTarget(db, Target(tenant.value, wac.value, client), chatID, userName, sends);
  }

  // What a join does, as lemmas over the outcome.

  /** WhatsApp ids that are set and pairwise distinct. */
  predicate DistinctWAIds(list: seq<Message>)
  {
    && (forall i :: 0 <= i < |list| ==> list[i].waMessageID != "")
    && (forall i, j :: 0 <= i < j < |list| ==> list[i].waMessageID != list[j].waMessageID)
  }

  /** The replay keeps each message's WhatsApp id, so distinct ids stay distinct. */
  lemma ReplaysKeepIds(list: seq<Message>, sends: seq<Option<TGMessage>>, userName: string)
    ensures var ms := Replays(list, sends, userName);
      && |ms| == |list|
      && (forall k :: 0 <= k < |list| ==> ms[k].waMessageID == list[k].waMessageID)
      && (DistinctWAIds(list) ==> DistinctWAIds(ms))
  {
    var ms := Replays(list, sends, userName);
    assert forall k :: 0 <= k < |list| ==> ms[k] == Replayed(list[k], SendOutcome(sends, k), userName);
  }

  /** Saving a run of messages keeps WhatsApp ids unique in the table. */
  lemma {:induction false} SavedAllKeepsUnique(rows: seq<Row<Message>>, next: nat, ms: seq<Message>, n: nat)
    requires n <= |ms| && UniqueWAIds(rows)
    ensures UniqueWAIds(SavedAll(rows, next, ms, n).0)
  {
    if n > 0 {
      var p := SavedAll(rows, next, ms, n - 1);
      SavedAllKeepsUnique(rows, next, ms, n - 1);
      SaveMessageKeepsUnique(p.0, ms[n - 1], p.1);
    }
  }

  /**
   * After saving a run of messages with distinct WhatsApp ids, each one is
   * found by its id and the row found holds exactly that message.
   */
  lemma {:induction false} SavedAllStores(rows: seq<Row<Message>>, next: nat, ms: seq<Message>, n: nat, k: nat)
    requires k < n <= |ms| && UniqueWAIds(rows) && DistinctWAIds(ms)
    ensures var r := SavedAll(rows, next, ms, n).0;
      var f := FindMessage(r, KeyOf(ms[k]));
      f.Some? && r[f.value].rec == ms[k]
  {
    var p := SavedAll(rows, next, ms, n - 1);
    SavedAllKeepsUnique(rows, next, ms, n - 1);
    if k == n - 1 {
      SaveMessageThenFind(p.0, ms[k], p.1);
    } else {
      SavedAllStores(rows, next, ms, n - 1, k);
      SaveMessageKeepsOtherFind(p.0, ms[n - 1], p.1, ms[k].waMessageID);
    }
  }

  /**
   * The replay stores every buffered message once, chatted and carrying the
   * joiner's user name, under its own WhatsApp id.
   */
  lemma ReplayStoresEach(rows: seq<Row<Message>>, next: nat, list: seq<Message>, sends: seq<Option<TGMessage>>,
                         userName: string, k: nat)
    requires k < |list| && UniqueWAIds(rows) && DistinctWAIds(list)
    ensures var r := SavedAll(rows, next, Replays(list, sends, userName), |list|).0;
      var f := FindMessage(r, ByWA(list[k].waMessageID));
      && f.Some?
      && r[f.value].rec == Replayed(list[k], SendOutcome(sends, k), userName)
      && r[f.value].rec.chatted == ChattedYes && r[f.value].rec.tgUserName == userName
      && UniqueWAIds(r)
  {
    var ms := Replays(list, sends, userName);
    ReplaysKeepIds(list, sends, userName);
    SavedAllStores(rows, next, ms, |ms|, k);
    SavedAllKeepsUnique(rows, next, ms, |ms|);
  }

  /**
   * A join refused at binding time (the chat's bindings unreadable, the chat
   * already bound, or the save failing) saves nothing, sends nothing and
   * replays nothing; an already bound chat is told which client it has.
   */
  lemma JoinRefusedKeepsTables(t: Target, chatID: int, userName: string, sends: seq<Option<TGMessage>>,
                               items: Result<seq<Chat>, StoreError>, msgs: Result<seq<Message>, StoreError>,
                               unavailable: set<StoreOp>, chats: seq<Row<Chat>>, messages: seq<Row<Message>>, next: nat)
    requires !(items == Ok([]) && SaveErrorIn(unavailable, Chats).None?)
    ensures var o := Joined(t, chatID, userName, sends, items, msgs, unavailable, chats, messages, next);
      && o.chats == chats && o.messages == messages && o.effects == []
      && (items.Ok? && items.value != [] ==>
            o.reply == Say(AlreadyJoined(GetClientName(t.wac, items.value[0].waClient), items.value[0].waClient)))
  {
  }

  /**
   * A join accepted at binding time leaves the client with exactly one
   * binding, the new one, announces it and retitles the chat before any
   * replay.
   */
  lemma JoinBindsClient(t: Target, chatID: int, userName: string, sends: seq<Option<TGMessage>>,
                        items: Result<seq<Chat>, StoreError>, msgs: Result<seq<Message>, StoreError>,
                        unavailable: set<StoreOp>, chats: seq<Row<Chat>>, messages: seq<Row<Message>>, next: nat)
    requires items == Ok([]) && SaveErrorIn(unavailable, Chats).None? && UniqueClients(chats)
    ensures var o := Joined(t, chatID, userName, sends, items, msgs, unavailable, chats, messages, next);
      var c := BoundChat(t, chatID, userName);
      && (exists i :: 0 <= i < |o.chats| && o.chats[i].rec == c)
      && (forall i :: 0 <= i < |o.chats| && o.chats[i].rec.waClient == c.waClient ==> o.chats[i].rec == c)
      && o.effects[..2] == Welcome(t, chatID, userName)
  {
    var c := BoundChat(t, chatID, userName);
    var o := Joined(t, chatID, userName, sends, items, msgs, unavailable, chats, messages, next);
    assert o.chats == SaveChatRows(chats, c, next);
    SaveChatRebinds(chats, c, next);
    var w := Welcome(t, chatID, userName);
    if msgs.Ok? {
      var rest := ReplayEffects(msgs.value, chatID, |msgs.value|) + [RefreshStatus];
      assert o.effects == w + rest;
      assert (w + rest)[..2] == w;
    } else {
      assert o.effects == w;
    }
  }

  /**
   * A join that binds and reads the buffer replies OK, transfers every
   * buffered message in order and refreshes the status; when saves work,
   * each buffered message is stored chatted under the joiner's name.
   */
  lemma JoinReplaysBuffer(t: Target, chatID: int, userName: string, sends: seq<Option<TGMessage>>,
                          list: seq<Message>, unavailable: set<StoreOp>,
                          chats: seq<Row<Chat>>, messages: seq<Row<Message>>, next: nat)
    requires SaveErrorIn(unavailable, Chats).None? && SaveErrorIn(unavailable, Messages).None?
    requires UniqueWAIds(messages) && DistinctWAIds(list)
    ensures var o := Joined(t, chatID, userName, sends, Ok([]), Ok(list), unavailable, chats, messages, next);
      && o.reply == Say(JoinOK(GetClientName(t.wac, t.client), t.client))
      && o.effects == Welcome(t, chatID, userName) + ReplayEffects(list, chatID, |list|) + [RefreshStatus]
      && forall k :: 0 <= k < |list| ==>
           var f := FindMessage(o.messages, ByWA(list[k].waMessageID));
           f.Some? && o.messages[f.value].rec == Replayed(list[k], SendOutcome(sends, k), userName)
  {
    var c := BoundChat(t, chatID, userName);
    var boundNext := NextAfter(FindChatByClient(chats, c.waClient), next);
    forall k | 0 <= k < |list|
      ensures var r := SavedAll(messages, boundNext, Replays(list, sends, userName), |list|).0;
        var f := FindMessage(r, ByWA(list[k].waMessageID));
        f.Some? && r[f.value].rec == Replayed(list[k], SendOutcome(sends, k), userName)
    {
      ReplayStoresEach(messages, boundNext, list, sends, userName, k);
    }
  }
}
