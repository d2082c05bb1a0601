/**
 * `/leave` (pkg/tg/commands.go): unbind every WhatsApp client bound to the
 * chat, one binding after another, stopping at the first that fails.
 */
module TgLeave {
  import opened Wrappers
  import opened GoStrconv
  import opened Records
  import opened WaApi
  import opened Store
  import opened TgService
  import opened TgCommands

  const FailLeaveAll := "Fail leave 'all' chats, please send admin this error: "
  const LeaveHeader := "Leave chats: \n"
  const FreeChatTitle := "H.W.Bot Free chat"

  function FailLeave(name: string, client: string): string
  {
    "Fail leave '" + name + "(" + client + ")' chat, please send admin this error: "
  }

  function LeftLine(name: string, client: string): string
  {
    " - '" + name + "(" + client + ")' OK\n"
  }

  function LeftNotice(userName: string, name: string, short: string): string
  {
    "@" + userName + " leave chat " + name + "(" + short + ")"
  }

  /** The binding's tenant id parses and its WhatsApp instance runs. */
  predicate Resolved(v: Chat, instances: map<int, InstanceView>)
  {
    ParseInt(v.mgid).err == NoError && ParseInt(v.mgid).value in instances
  }

  /** The binding can be left: it resolves, and the store can look it up. */
  predicate Leavable(v: Chat, instances: map<int, InstanceView>, unavailable: set<StoreOp>)
  {
    Resolved(v, instances) && Find(Chats) !in unavailable
  }

  /**
   * Where the pass over `list` from position `i` on stops: the first binding
   * that cannot be left, or the end of the list.
   */
  function StopFrom(list: seq<Chat>, instances: map<int, InstanceView>, unavailable: set<StoreOp>, i: nat): (r: nat)
    requires i <= |list|
    ensures i <= r <= |list|
    ensures forall j {:trigger Leavable(list[j], instances, unavailable)} :: i <= j < r ==>
      Leavable(list[j], instances, unavailable)
    ensures r < |list| ==> !Leavable(list[r], instances, unavailable)
    decreases |list| - i
  {
    if i == |list| || !Leavable(list[i], instances, unavailable) then i
    else StopFrom(list, instances, unavailable, i + 1)
  }

  /** Where the pass over the whole of `list` stops. */
  function LeaveStop(list: seq<Chat>, instances: map<int, InstanceView>, unavailable: set<StoreOp>): nat
  {
    StopFrom(list, instances, unavailable, 0)
  }

  /** A binding before the stop that can be left moves the pass on. */
  lemma StopAfter(list: seq<Chat>, instances: map<int, InstanceView>, unavailable: set<StoreOp>, i: nat)
    requires i < |list| && i <= LeaveStop(list, instances, unavailable) && Leavable(list[i], instances, unavailable)
    ensures i < LeaveStop(list, instances, unavailable)
  {
  }

  /** A binding before the stop that cannot be left is the stop. */
  lemma StopAt(list: seq<Chat>, instances: map<int, InstanceView>, unavailable: set<StoreOp>, i: nat)
    requires i < |list| && i <= LeaveStop(list, instances, unavailable) && !Leavable(list[i], instances, unavailable)
    ensures i == LeaveStop(list, instances, unavailable)
  {
  }

  /** What the reply and the tenant's notice say about a binding left. */
  datatype LeftChat = LeftChat(tenant: int, client: string, name: string, short: string)

  /** The binding as it is reported once left: its tenant, its client, the client's name and short form. */
  function LeftOf(v: Chat, instances: map<int, InstanceView>): (l: LeftChat)
    requires Resolved(v, instances)
    ensures l.tenant == ParseInt(v.mgid).value && l.client == v.waClient
    ensures l.name == GetClientName(instances[l.tenant], v.waClient) && l.short == GetShortClient(v.waClient)
  {
    var mg := ParseInt(v.mgid).value;
    LeftChat(mg, v.waClient, GetClientName(instances[mg], v.waClient), GetShortClient(v.waClient))
  }

  /** The reply of a binding that cannot be left. */
  function LeaveFailure(v: Chat, instances: map<int, InstanceView>, unavailable: set<StoreOp>): Notice
    requires !Leavable(v, instances, unavailable)
  {
    var mg := ParseInt(v.mgid);
    if mg.err != NoError then Failed(FailLeaveAll, ParseCause(v.mgid, mg.err))
    else if mg.value !in instances then Say(InstanceNotReady)
    else Failed(FailLeave(GetClientName(instances[mg.value], v.waClient), v.waClient),
                StoreCause(StoreError(Find(Chats))))
  }

  /** The reply of a pass that left the first `n` bindings: the header, then one line per binding. */
  function LeaveText(list: seq<Chat>, instances: map<int, InstanceView>, n: nat): string
    requires ResolvedPrefix(list, instances, n)
  {
    if n == 0 then LeaveHeader
    else
      var l := LeftOf(list[n - 1], instances);
      LeaveText(list, instances, n - 1) + LeftLine(l.name, l.client)
  }

  /** The notice a binding left sends to its tenant. */
  function NoticeFor(l: LeftChat, userName: string): Effect
  {
    Notify(l.tenant, LeftNotice(userName, l.name, l.short))
  }

  /** The notices of a pass that left the first `n` bindings, in order. */
  function Notices(list: seq<Chat>, instances: map<int, InstanceView>, userName: string, n: nat): seq<Effect>
    requires ResolvedPrefix(list, instances, n)
  {
    seq(n, k requires 0 <= k < |list| && Resolved(list[k], instances) => NoticeFor(LeftOf(list[k], instances), userName))
  }

  /** One more binding left adds its notice at the end. */
  lemma NoticesSnoc(list: seq<Chat>, instances: map<int, InstanceView>, userName: string, n: nat)
    requires ResolvedPrefix(list, instances, n + 1)
    ensures Notices(list, instances, userName, n + 1)
      == Notices(list, instances, userName, n) + [NoticeFor(LeftOf(list[n], instances), userName)]
  {
  }

  /** The calls that close a pass which left every binding: a free chat is renamed and loses its photo. */
  function Closing(mainGroups: seq<int>, chatID: int): (r: seq<Effect>)
    ensures chatID in mainGroups ==> r == []
    ensures chatID !in mainGroups ==> r == [SetTitle(chatID, FreeChatTitle), DropPhoto(chatID)]
  {
    if IsMainGroup(mainGroups, chatID) then [] else [SetTitle(chatID, FreeChatTitle), DropPhoto(chatID)]
  }

  /** The chat table after a `DeleteChat(c)` whose lookup succeeded. */
  function AfterDelete(rows: seq<Row<Chat>>, c: Chat, unavailable: set<StoreOp>): seq<Row<Chat>>
  {
    match FindChatByClientAndGroup(rows, c.waClient, c.mgid)
    case Some(i) => if Delete(Chats) !in unavailable then RemoveAt(rows, i) else rows
    case None => rows
  }

  /** The chat table once the first `n` bindings of `list` are deleted in order. */
  function DeleteAll(rows: seq<Row<Chat>>, list: seq<Chat>, unavailable: set<StoreOp>, n: nat): seq<Row<Chat>>
    requires n <= |list|
  {
    if n == 0 then rows else AfterDelete(DeleteAll(rows, list, unavailable, n - 1), list[n - 1], unavailable)
  }

  /**
   * One binding of `/leave`: the error that stops the pass, or the binding
   * as it is reported once `DeleteChat` has run.
   */
  method LeaveOne(db: Store, v: Chat, instances: map<int, InstanceView>)
    returns (failure: Option<Notice>, left: LeftChat)
    requires db.Valid() && v.waClient != "" && v.mgid != ""
    modifies db
    ensures db.Valid()
    ensures failure.None? <==> Leavable(v, instances, db.unavailable)
    ensures failure.Some? ==>
      failure.value == LeaveFailure(v, instances, db.unavailable) && db.chats == old(db.chats)
    ensures failure.None? ==>
      left == LeftOf(v, instances) && db.chats == AfterDelete(old(db.chats), v, db.unavailable)
    ensures db.messages == old(db.messages) && db.mainGroups == old(db.mainGroups) && db.nextId == old(db.nextId)
  {
    left := LeftChat(0, "", "", "");
    var mg := ParseInt(v.mgid);
    if mg.err != NoError {
      return Some(Failed(FailLeaveAll, ParseCause(v.mgid, mg.err))), left;
    }
    var wac := InstanceOf(instances, mg.value);
    if wac.None? {
      return Some(Say(InstanceNotReady)), left;
    }
    var name := GetClientName(wac.value, v.waClient);
    var _, err := db.DeleteChat(v);
    if err.Some? {
      return Some(Failed(FailLeave(name, v.waClient), StoreCause(err.value))), left;
    }
    return None, LeftChat(mg.value, v.waClient, name, GetShortClient(v.waClient));
  }

  /**
   * `CommandLeave`: a failed lookup of the chat's bindings is the reply.
   * Otherwise the bindings before the first that cannot be left are deleted,
   * each announced to its tenant; the reply is that binding's failure, or the
   * list of chats left, and only a complete pass frees the chat.
   */
  method CommandLeave(db: Store, mainGroups: seq<int>, instances: map<int, InstanceView>, chatID: int,
                      userName: string)
    returns (reply: Notice, effects: seq<Effect>)
    requires db.Valid() && chatID != 0
    modifies db
    ensures db.Valid()
    ensures old(db.GetChatsByChatID(chatID)).Err? ==>
      reply == Failed(FailLeaveAll, StoreCause(old(db.GetChatsByChatID(chatID)).error))
      && effects == [] && db.chats == old(db.chats)
    ensures old(db.GetChatsByChatID(chatID)).Ok? ==>
      var list := old(db.GetChatsByChatID(chatID)).value;
      var m := LeaveStop(list, instances, db.unavailable);
      ResolvedPrefix(list, instances, m)
      && db.chats == DeleteAll(old(db.chats), list, db.unavailable, m)
      && (m < |list| ==> reply == LeaveFailure(list[m], instances, db.unavailable)
                         && effects == Notices(list, instances, userName, m))
      && (m == |list| ==> reply == Say(LeaveText(list, instances, m))
                          && effects == Notices(list, instances, userName, m) + Closing(mainGroups, chatID))
    ensures db.messages == old(db.messages) && db.mainGroups == old(db.mainGroups) && db.nextId == old(db.nextId)
  {
    var found := db.GetChatsByChatID(chatID);
    if found.Err? {
      return Failed(FailLeaveAll, StoreCause(found.error)), [];
    }
    var list := found.value;
    forall k | 0 <= k < |list|
      ensures list[k].waClient != "" && list[k].mgid != ""
    {
      assert list[k] in found.value;
    }
    var failure, txt;
    failure, txt, effects := LeaveAll(db, list, instances, userName);
    if failure.Some? {
      return failure.value, effects;
    }
    return Say(txt), effects + Closing(mainGroups, chatID);
  }

  /**
   * The loop of `/leave` over the chat's bindings: leave each in order and
   * stop at the first that fails, with the text and notices of those left.
   */
  method LeaveAll(db: Store, list: seq<Chat>, instances: map<int, InstanceView>, userName: string)
    returns (failure: Option<Notice>, txt: string, effects: seq<Effect>)
    requires db.Valid()
    requires forall k :: 0 <= k < |list| ==> list[k].waClient != "" && list[k].mgid != ""
    modifies db
    ensures db.Valid()
    ensures var m := LeaveStop(list, instances, db.unavailable);
      && ResolvedPrefix(list, instances, m)
      && db.chats == DeleteAll(old(db.chats), list, db.unavailable, m)
      && effects == Notices(list, instances, userName, m)
      && (failure.Some? <==> m < |list|)
      && (m < |list| ==> failure == Some(LeaveFailure(list[m], instances, db.unavailable)))
      && (m == |list| ==> txt == LeaveText(list, instances, m))
    ensures db.messages == old(db.messages) && db.mainGroups == old(db.mainGroups) && db.nextId == old(db.nextId)
  {
    ghost var rows0 := db.chats;
    ghost var m := LeaveStop(list, instances, db.unavailable);
    StopResolves(list, instances, db.unavailable);
    txt := LeaveHeader;
    effects := [];
    var i := 0;
    while i < |list|
      invariant 0 <= i <= m && db.Valid()
      invariant db.chats == DeleteAll(rows0, list, db.unavailable, i)
      invariant txt == LeaveText(list, instances, i) && effects == Notices(list, instances, userName, i)
      invariant db.messages == old(db.messages) && db.mainGroups == old(db.mainGroups) && db.nextId == old(db.nextId)
    {
      var v := list[i];
      var left;
      failure, left := LeaveOne(db, v, instances);
      if failure.Some? {
        StopAt(list, instances, db.unavailable, i);
        return failure, txt, effects;
      }
      StopAfter(list, instances, db.unavailable, i);
      txt := txt + LeftLine(left.name, left.client);
      NoticesSnoc(list, instances, userName, i);
      effects := effects + [NoticeFor(left, userName)];
      i := i + 1;
    }
    assert i == m;
    return None, txt, effects;
  }

  /** The first `m` bindings of `list` resolve. */
  ghost predicate ResolvedPrefix(list: seq<Chat>, instances: map<int, InstanceView>, m: nat)
  {
    m <= |list| && forall j {:trigger Resolved(list[j], instances)} :: 0 <= j < m ==> Resolved(list[j], instances)
  }

  /** Every binding before the stop resolves. */
  lemma StopResolves(list: seq<Chat>, instances: map<int, InstanceView>, unavailable: set<StoreOp>)
    ensures ResolvedPrefix(list, instances, LeaveStop(list, instances, unavailable))
  {
    var m := LeaveStop(list, instances, unavailable);
    forall j | 0 <= j < m
      ensures Resolved(list[j], instances)
    {
      assert Leavable(list[j], instances, unavailable);
    }
  }

  // Properties of the pass.

  /**
   * Each binding left sends exactly one notice, in the order of the list, to
   * its own tenant, naming the client by its name and short form.
   */
  lemma NoticesSendEach(list: seq<Chat>, instances: map<int, InstanceView>, userName: string, n: nat)
    requires ResolvedPrefix(list, instances, n)
    ensures |Notices(list, instances, userName, n)| == n
    ensures forall k {:trigger Notices(list, instances, userName, n)[k]} :: 0 <= k < n ==>
      var l := LeftOf(list[k], instances);
      Notices(list, instances, userName, n)[k] == Notify(ParseInt(list[k].mgid).value,
        LeftNotice(userName, l.name, GetShortClient(list[k].waClient)))
  {
  }

  /** A row no lookup by (client, tenant) finds stays unfound once another row is removed. */
  lemma RemoveAtKeepsAbsent(rows: seq<Row<Chat>>, i: nat, client: string, mgid: string)
    requires i < |rows| && FindChatByClientAndGroup(rows, client, mgid).None?
    ensures FindChatByClientAndGroup(RemoveAt(rows, i), client, mgid).None?
  {
    var r := RemoveAt(rows, i);
    forall j | 0 <= j < |r|
      ensures !(r[j].rec.waClient == client && r[j].rec.mgid == mgid)
    {
      assert r[j] == rows[if j < i then j else j + 1];
    }
  }

  /** One deletion keeps the chat table well-formed. */
  lemma AfterDeleteKeepsValid(rows: seq<Row<Chat>>, v: Chat, unavailable: set<StoreOp>, next: nat)
    requires KeysFresh(rows, next) && UniqueClients(rows)
    ensures KeysFresh(AfterDelete(rows, v, unavailable), next) && UniqueClients(AfterDelete(rows, v, unavailable))
  {
    match FindChatByClientAndGroup(rows, v.waClient, v.mgid)
    case None =>
    case Some(i) => RemoveChatKeepsValid(rows, i, next);
  }

  /** One deletion, on a store that deletes, removes its binding. */
  lemma AfterDeleteRemoves(rows: seq<Row<Chat>>, v: Chat, unavailable: set<StoreOp>)
    requires UniqueClients(rows) && Delete(Chats) !in unavailable
    ensures FindChatByClientAndGroup(AfterDelete(rows, v, unavailable), v.waClient, v.mgid).None?
  {
    match FindChatByClientAndGroup(rows, v.waClient, v.mgid)
    case None =>
    case Some(i) => DeleteChatThenAbsent(rows, v.waClient, v.mgid);
  }

  /** One deletion brings back no binding already absent. */
  lemma AfterDeleteKeepsAbsent(rows: seq<Row<Chat>>, v: Chat, unavailable: set<StoreOp>, client: string, mgid: string)
    requires FindChatByClientAndGroup(rows, client, mgid).None?
    ensures FindChatByClientAndGroup(AfterDelete(rows, v, unavailable), client, mgid).None?
  {
    match FindChatByClientAndGroup(rows, v.waClient, v.mgid)
    case None =>
    case Some(i) => if Delete(Chats) !in unavailable { RemoveAtKeepsAbsent(rows, i, client, mgid); }
  }

  /** The pass keeps the chat table well-formed. */
  lemma {:induction false} LeaveKeepsValid(rows: seq<Row<Chat>>, list: seq<Chat>, unavailable: set<StoreOp>,
                                           n: nat, next: nat)
    requires n <= |list| && KeysFresh(rows, next) && UniqueClients(rows)
    ensures KeysFresh(DeleteAll(rows, list, unavailable, n), next)
    ensures UniqueClients(DeleteAll(rows, list, unavailable, n))
  {
    if n > 0 {
      LeaveKeepsValid(rows, list, unavailable, n - 1, next);
      AfterDeleteKeepsValid(DeleteAll(rows, list, unavailable, n - 1), list[n - 1], unavailable, next);
    }
  }

  /** On a store that deletes, the `k`-th binding left is gone from the chat table afterwards. */
  lemma {:induction false} LeaveDeletes(rows: seq<Row<Chat>>, list: seq<Chat>, unavailable: set<StoreOp>,
                                        n: nat, next: nat, k: nat)
    requires k < n <= |list| && Delete(Chats) !in unavailable
    requires KeysFresh(rows, next) && UniqueClients(rows)
    ensures FindChatByClientAndGroup(DeleteAll(rows, list, unavailable, n), list[k].waClient, list[k].mgid).None?
  {
    var p := DeleteAll(rows, list, unavailable, n - 1);
    if k == n - 1 {
      LeaveKeepsValid(rows, list, unavailable, n - 1, next);
      AfterDeleteRemoves(p, list[k], unavailable);
    } else {
      LeaveDeletes(rows, list, unavailable, n - 1, next, k);
      AfterDeleteKeepsAbsent(p, list[n - 1], unavailable, list[k].waClient, list[k].mgid);
    }
  }

  /** The binding `c` is not one of the first `n` of `list`, by client and tenant. */
  predicate NotListed(c: Chat, list: seq<Chat>, n: nat)
    requires n <= |list|
  {
    forall k :: 0 <= k < n ==> !(list[k].waClient == c.waClient && list[k].mgid == c.mgid)
  }

  /** The pass deletes nothing but the bindings it left: every other row is kept. */
  lemma {:induction false} LeaveKeepsOthers(rows: seq<Row<Chat>>, list: seq<Chat>, unavailable: set<StoreOp>,
                                            n: nat, row: Row<Chat>)
    requires n <= |list| && row in rows && NotListed(row.rec, list, n)
    ensures row in DeleteAll(rows, list, unavailable, n)
  {
    if n > 0 {
      LeaveKeepsOthers(rows, list, unavailable, n - 1, row);
      var p := DeleteAll(rows, list, unavailable, n - 1);
      var v := list[n - 1];
      match FindChatByClientAndGroup(p, v.waClient, v.mgid)
      case None =>
      case Some(i) =>
        var j :| 0 <= j < |p| && p[j] == row;
        assert j != i;
        var r := RemoveAt(p, i);
        if j < i {
          assert r[j] == row;
        } else {
          assert r[j - 1] == row;
        }
    }
  }
}
