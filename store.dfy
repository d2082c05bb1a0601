/**
 * The relay's persistent tables and the operations of pkg/store/api.go over
 * them. Every save is a find-then-save upsert by a natural key: the first row
 * matching the key is replaced in place and keeps its primary key, otherwise
 * a row with a fresh primary key is appended. Soft-deleted rows are invisible
 * to every query, so a delete removes the row from the table.
 *
 * A database failure is modelled by the set of operations the store cannot
 * perform: such an operation reports a `StoreError` and changes nothing.
 */
module Store {
  import opened Wrappers
  import opened Records

  datatype Table = Messages | Chats | MainGroups

  /** A query (`First`, `Count`, `Find`), a `Save`, or a `Delete` on a table. */
  datatype StoreOp = Find(table: Table) | Save(table: Table) | Delete(table: Table)

  datatype StoreError = StoreError(op: StoreOp)

  /** The condition `SaveMessage` looks a message up by. */
  datatype MessageKey = ByWA(waMessageID: string) | ByTG(tgMessageID: int, tgChatID: int)

  /** The WhatsApp id when there is one, else the Telegram (message, chat) pair. */
  function KeyOf(m: Message): (k: MessageKey)
    ensures k.ByWA? <==> m.waMessageID != ""
    ensures MatchesKey(m, k)
  {
    if m.waMessageID != "" then ByWA(m.waMessageID) else ByTG(m.tgMessageID, m.tgChatID)
  }

  /**
   * A key whose every field is set. A gorm condition ignores zero-valued
   * fields; the model only looks messages up by keys where that cannot happen.
   */
  predicate UsableKey(k: MessageKey)
  {
    match k
    case ByWA(id) => id != ""
    case ByTG(mid, cid) => mid != 0 && cid != 0
  }

  predicate MatchesKey(m: Message, k: MessageKey)
  {
    match k
    case ByWA(id) => m.waMessageID == id
    case ByTG(mid, cid) => m.tgMessageID == mid && m.tgChatID == cid
  }

  /** The index of the first element satisfying `p`, as gorm's `First` finds it. */
  function FirstIndex<T>(rows: seq<T>, p: T -> bool): (r: Option<nat>)
    ensures r.Some? ==> r.value < |rows| && p(rows[r.value])
    ensures r.Some? ==> forall j :: 0 <= j < r.value ==> !p(rows[j])
    ensures r.None? <==> forall j :: 0 <= j < |rows| ==> !p(rows[j])
  {
    if rows == [] then None
    else if p(rows[0]) then Some(0)
    else
      match FirstIndex(rows[1..], p)
      case None => None
      case Some(i) => Some(i + 1)
  }

  function FindMessage(rows: seq<Row<Message>>, k: MessageKey): Option<nat>
  {
    FirstIndex(rows, (r: Row<Message>) => MatchesKey(r.rec, k))
  }

  function FindChatByClient(rows: seq<Row<Chat>>, client: string): Option<nat>
  {
    FirstIndex(rows, (r: Row<Chat>) => r.rec.waClient == client)
  }

  function FindChatByClientAndGroup(rows: seq<Row<Chat>>, client: string, mgid: string): Option<nat>
  {
    FirstIndex(rows, (r: Row<Chat>) => r.rec.waClient == client && r.rec.mgid == mgid)
  }

  function FindGroupByTGID(rows: seq<Row<MainGroup>>, id: int): Option<nat>
  {
    FirstIndex(rows, (r: Row<MainGroup>) => r.rec.tgChatID == id)
  }

  function FindGroupByName(rows: seq<Row<MainGroup>>, name: string): Option<nat>
  {
    FirstIndex(rows, (r: Row<MainGroup>) => r.rec.name == name)
  }

  /** The table after saving `rec` where the lookup found `found`. */
  function Upsert<T>(rows: seq<Row<T>>, found: Option<nat>, rec: T, newKey: nat): seq<Row<T>>
    requires found.Some? ==> found.value < |rows|
  {
    match found
    case Some(i) => rows[i := Row(rows[i].id, rec)]
    case None => rows + [Row(newKey, rec)]
  }

  /** The message table after `SaveMessage(m)`. */
  function SaveMessageRows(rows: seq<Row<Message>>, m: Message, newKey: nat): seq<Row<Message>>
  {
    Upsert(rows, FindMessage(rows, KeyOf(m)), m, newKey)
  }

  /** The chat table after `SaveChat(c)`. */
  function SaveChatRows(rows: seq<Row<Chat>>, c: Chat, newKey: nat): seq<Row<Chat>>
  {
    Upsert(rows, FindChatByClient(rows, c.waClient), c, newKey)
  }

  /** The main-group table after `SaveMainGroup(g)`. */
  function SaveMainGroupRows(rows: seq<Row<MainGroup>>, g: MainGroup, newKey: nat): seq<Row<MainGroup>>
  {
    Upsert(rows, FindGroupByTGID(rows, g.tgChatID), g, newKey)
  }

  /** The bindings of one Telegram chat, in table order (`GetChatsByChatID`). */
  function ChatsOf(rows: seq<Row<Chat>>, tgChatID: int): (r: seq<Chat>)
    ensures forall c :: c in r <==> exists i :: 0 <= i < |rows| && rows[i].rec == c && c.tgChatID == tgChatID
    ensures |r| <= |rows|
  {
    if rows == [] then []
    else
      var rest := ChatsOf(rows[1..], tgChatID);
      assert forall i :: 0 < i < |rows| ==> rows[i] == rows[1..][i - 1];
      if rows[0].rec.tgChatID == tgChatID then [rows[0].rec] + rest else rest
  }

  /** A buffered message of `client` that no chat has received. */
  predicate NotChattedOf(m: Message, client: string)
  {
    m.chatted == ChattedNo && m.waClient == client
  }

  /** The buffered messages of a client, in table order (`GetMessagesNotChattedByClient`). */
  function NotChatted(rows: seq<Row<Message>>, client: string): (r: seq<Message>)
    ensures forall m :: m in r <==> exists i :: 0 <= i < |rows| && rows[i].rec == m && NotChattedOf(m, client)
    ensures |r| <= |rows|
  {
    if rows == [] then []
    else
      var rest := NotChatted(rows[1..], client);
      assert forall i :: 0 < i < |rows| ==> rows[i] == rows[1..][i - 1];
      if NotChattedOf(rows[0].rec, client) then [rows[0].rec] + rest else rest
  }

  /** The table without the row at `i`, the rest in order. */
  function RemoveAt<T>(rows: seq<T>, i: nat): (r: seq<T>)
    requires i < |rows|
    ensures |r| == |rows| - 1
    ensures forall j :: 0 <= j < |r| ==> r[j] == rows[if j < i then j else j + 1]
  {
    rows[..i] + rows[i + 1..]
  }

  /** Primary keys are positive, below the next key to hand out, and distinct. */
  ghost predicate KeysFresh<T>(rows: seq<Row<T>>, next: nat)
  {
    0 < next
    && (forall i :: 0 <= i < |rows| ==> 0 < rows[i].id < next)
    && (forall i, j :: 0 <= i < j < |rows| ==> rows[i].id != rows[j].id)
  }

  /** At most one row per non-empty WhatsApp message id. */
  ghost predicate UniqueWAIds(rows: seq<Row<Message>>)
  {
    forall i, j :: 0 <= i < j < |rows| && rows[i].rec.waMessageID != "" ==>
      rows[i].rec.waMessageID != rows[j].rec.waMessageID
  }

  /** At most one binding per WhatsApp client, each with its client and tenant set. */
  ghost predicate UniqueClients(rows: seq<Row<Chat>>)
  {
    (forall i :: 0 <= i < |rows| ==> rows[i].rec.waClient != "" && rows[i].rec.mgid != "")
    && (forall i, j :: 0 <= i < j < |rows| ==> rows[i].rec.waClient != rows[j].rec.waClient)
  }

  /** Every stored message can be looked up by its own key. */
  ghost predicate KeysUsable(rows: seq<Row<Message>>)
  {
    forall i :: 0 <= i < |rows| ==> UsableKey(KeyOf(rows[i].rec))
  }

  /** The next key after saving under the lookup result `found`: only an append uses one. */
  function NextAfter(found: Option<nat>, next: nat): (n: nat)
    ensures n == next || n == next + 1
    ensures n == next <==> found.Some?
  {
    if found.Some? then next else next + 1
  }

  /** At most one main group per Telegram chat id. */
  ghost predicate UniqueGroups(rows: seq<Row<MainGroup>>)
  {
    forall i, j :: 0 <= i < j < |rows| ==> rows[i].rec.tgChatID != rows[j].rec.tgChatID
  }

  /** The error of a find-then-save on `t` when the operations in `unavailable` fail. */
  function SaveErrorIn(unavailable: set<StoreOp>, t: Table): (err: Option<StoreError>)
    ensures err.None? <==> Find(t) !in unavailable && Save(t) !in unavailable
    ensures err.Some? ==> err.value == StoreError(if Find(t) in unavailable then Find(t) else Save(t))
  {
    if Find(t) in unavailable then Some(StoreError(Find(t)))
    else if Save(t) in unavailable then Some(StoreError(Save(t)))
    else None
  }

  class Store {
    var messages: seq<Row<Message>>
    var chats: seq<Row<Chat>>
    var mainGroups: seq<Row<MainGroup>>
    /** The next primary key to hand out, shared by all tables. */
    var nextId: nat
    /** The operations this database fails on. */
    const unavailable: set<StoreOp>

    ghost predicate Valid()
      reads this
    {
      KeysFresh(messages, nextId) && KeysFresh(chats, nextId) && KeysFresh(mainGroups, nextId)
      && UniqueWAIds(messages) && UniqueClients(chats) && UniqueGroups(mainGroups)
      && KeysUsable(messages)
    }

    constructor (unavailable: set<StoreOp>)
      ensures Valid()
      ensures messages == [] && chats == [] && mainGroups == []
      ensures this.unavailable == unavailable
    {
      messages, chats, mainGroups := [], [], [];
      nextId := 1;
      this.unavailable := unavailable;
    }

    /** The error a find-then-save on `t` reports: its lookup's, else its save's. */
    function SaveError(t: Table): (err: Option<StoreError>)
      ensures err.None? <==> Find(t) !in unavailable && Save(t) !in unavailable
      ensures err == SaveErrorIn(unavailable, t)
    {
      SaveErrorIn(unavailable, t)
    }

    method SaveMessage(m: Message) returns (err: Option<StoreError>)
      requires Valid() && UsableKey(KeyOf(m))
      modifies this
      ensures Valid()
      ensures err == SaveError(Messages)
      ensures err.Some? ==> unchanged(this)
      ensures err.None? ==> messages == SaveMessageRows(old(messages), m, old(nextId))
      ensures err.None? ==> nextId == NextAfter(FindMessage(old(messages), KeyOf(m)), old(nextId))
      ensures chats == old(chats) && mainGroups == old(mainGroups)
    {
      err := SaveError(Messages);
      if err.None? {
        var found := FindMessage(messages, KeyOf(m));
        SaveMessageKeepsKeys(messages, m, nextId);
        SaveMessageKeepsUnique(messages, m, nextId);
        SaveMessageKeepsUsable(messages, m, nextId);
        if found.Some? {
          messages := messages[found.value := Row(messages[found.value].id, m)];
        } else {
          messages := messages + [Row(nextId, m)];
          nextId := nextId + 1;
        }
      }
    }

    method SaveChat(c: Chat) returns (err: Option<StoreError>)
      requires Valid() && c.waClient != "" && c.mgid != ""
      modifies this
      ensures Valid()
      ensures err == SaveError(Chats)
      ensures err.Some? ==> unchanged(this)
      ensures err.None? ==> chats == SaveChatRows(old(chats), c, old(nextId))
      ensures err.None? ==> nextId == NextAfter(FindChatByClient(old(chats), c.waClient), old(nextId))
      ensures messages == old(messages) && mainGroups == old(mainGroups)
    {
      err := SaveError(Chats);
      if err.None? {
        var found := FindChatByClient(chats, c.waClient);
        SaveChatKeepsKeys(chats, c, nextId);
        SaveChatKeepsUnique(chats, c, nextId);
        if found.Some? {
          chats := chats[found.value := Row(chats[found.value].id, c)];
        } else {
          chats := chats + [Row(nextId, c)];
          nextId := nextId + 1;
        }
      }
    }

    method SaveMainGroup(g: MainGroup) returns (err: Option<StoreError>)
      requires Valid() && g.tgChatID != 0
      modifies this
      ensures Valid()
      ensures err == SaveError(MainGroups)
      ensures err.Some? ==> unchanged(this)
      ensures err.None? ==> mainGroups == SaveMainGroupRows(old(mainGroups), g, old(nextId))
      ensures err.None? ==> nextId == NextAfter(FindGroupByTGID(old(mainGroups), g.tgChatID), old(nextId))
      ensures messages == old(messages) && chats == old(chats)
    {
      err := SaveError(MainGroups);
      if err.None? {
        var found := FindGroupByTGID(mainGroups, g.tgChatID);
        SaveMainGroupKeepsKeys(mainGroups, g, nextId);
        SaveMainGroupKeepsUnique(mainGroups, g, nextId);
        if found.Some? {
          mainGroups := mainGroups[found.value := Row(mainGroups[found.value].id, g)];
        } else {
          mainGroups := mainGroups + [Row(nextId, g)];
          nextId := nextId + 1;
        }
      }
    }

    function GetMainGroupByName(name: string): (r: Result<Option<MainGroup>, StoreError>)
      requires name != ""
      reads this
      ensures r.Err? <==> Find(MainGroups) in unavailable
      ensures r == Ok(None) <==> (Find(MainGroups) !in unavailable
        && forall i :: 0 <= i < |mainGroups| ==> mainGroups[i].rec.name != name)
      ensures r.Ok? && r.value.Some? ==> (r.value.value.name == name
        && exists i :: 0 <= i < |mainGroups| && mainGroups[i].rec == r.value.value)
    {
      if Find(MainGroups) in unavailable then Err(StoreError(Find(MainGroups)))
      else
        match FindGroupByName(mainGroups, name)
        case None => Ok(None)
        case Some(i) => Ok(Some(mainGroups[i].rec))
    }

    function GetMainGroupByTGID(id: int): (r: Result<Option<MainGroup>, StoreError>)
      requires id != 0
      reads this
      ensures r.Err? <==> Find(MainGroups) in unavailable
      ensures r == Ok(None) <==> (Find(MainGroups) !in unavailable
        && forall i :: 0 <= i < |mainGroups| ==> mainGroups[i].rec.tgChatID != id)
      ensures r.Ok? && r.value.Some? ==> (r.value.value.tgChatID == id
        && exists i :: 0 <= i < |mainGroups| && mainGroups[i].rec == r.value.value)
      ensures r.Ok? ==> r.value == (match FindGroupByTGID(mainGroups, id)
        case None => None
        case Some(i) => Some(mainGroups[i].rec))
    {
      if Find(MainGroups) in unavailable then Err(StoreError(Find(MainGroups)))
      else
        match FindGroupByTGID(mainGroups, id)
        case None => Ok(None)
        case Some(i) => Ok(Some(mainGroups[i].rec))
    }

    function GetMessageByWA(id: string): (r: Result<Option<Message>, StoreError>)
      requires id != ""
      reads this
      ensures r.Err? <==> Find(Messages) in unavailable
      ensures r == Ok(None) <==> (Find(Messages) !in unavailable
        && forall i :: 0 <= i < |messages| ==> messages[i].rec.waMessageID != id)
      ensures r.Ok? && r.value.Some? ==> (r.value.value.waMessageID == id
        && exists i :: 0 <= i < |messages| && messages[i].rec == r.value.value)
    {
      if Find(Messages) in unavailable then Err(StoreError(Find(Messages)))
      else
        match FindMessage(messages, ByWA(id))
        case None => Ok(None)
        case Some(i) => Ok(Some(messages[i].rec))
    }

    /** A failed count is logged and reads as "absent". */
    function ExistMessageByWA(id: string): (r: bool)
      requires id != ""
      reads this
      ensures r <==> (Find(Messages) !in unavailable
        && exists i :: 0 <= i < |messages| && messages[i].rec.waMessageID == id)
    {
      Find(Messages) !in unavailable && FindMessage(messages, ByWA(id)).Some?
    }

    function ExistMessageByTG(messageID: int, chatID: int): (r: bool)
      requires messageID != 0 && chatID != 0
      reads this
      ensures r <==> (Find(Messages) !in unavailable
        && exists i :: (0 <= i < |messages|
          && messages[i].rec.tgMessageID == messageID && messages[i].rec.tgChatID == chatID))
    {
      Find(Messages) !in unavailable && FindMessage(messages, ByTG(messageID, chatID)).Some?
    }

    function GetChatByClient(client: string, mgid: string): (r: Result<Option<Chat>, StoreError>)
      requires client != "" && mgid != ""
      reads this
      ensures r.Err? <==> Find(Chats) in unavailable
      ensures r == Ok(None) <==> (Find(Chats) !in unavailable
        && forall i :: 0 <= i < |chats| ==> !(chats[i].rec.waClient == client && chats[i].rec.mgid == mgid))
      ensures r.Ok? && r.value.Some? ==> (r.value.value.waClient == client && r.value.value.mgid == mgid
        && exists i :: 0 <= i < |chats| && chats[i].rec == r.value.value)
    {
      if Find(Chats) in unavailable then Err(StoreError(Find(Chats)))
      else
        match FindChatByClientAndGroup(chats, client, mgid)
        case None => Ok(None)
        case Some(i) => Ok(Some(chats[i].rec))
    }

    function GetChatsByChatID(chatID: int): (r: Result<seq<Chat>, StoreError>)
      requires chatID != 0
      reads this
      ensures r.Err? <==> Find(Chats) in unavailable
      ensures r.Ok? ==> forall c :: c in r.value <==>
        exists i :: 0 <= i < |chats| && chats[i].rec == c && c.tgChatID == chatID
    {
      if Find(Chats) in unavailable then Err(StoreError(Find(Chats)))
      else Ok(ChatsOf(chats, chatID))
    }

    function GetMessagesNotChattedByClient(client: string): (r: Result<seq<Message>, StoreError>)
      requires client != ""
      reads this
      ensures r.Err? <==> Find(Messages) in unavailable
      ensures r.Ok? ==> forall m :: m in r.value <==>
        exists i :: 0 <= i < |messages| && messages[i].rec == m && NotChattedOf(m, client)
    {
      if Find(Messages) in unavailable then Err(StoreError(Find(Messages)))
      else Ok(NotChatted(messages, client))
    }

    /**
     * Looks the binding up by (client, tenant) and deletes that row. A lookup
     * error is reported; a failed delete is reported as "nothing deleted".
     */
    method DeleteChat(c: Chat) returns (deleted: bool, err: Option<StoreError>)
      requires Valid() && c.waClient != "" && c.mgid != ""
      modifies this
      ensures Valid()
      ensures err.Some? <==> Find(Chats) in unavailable
      ensures err.Some? ==> err.value == StoreError(Find(Chats)) && !deleted
      ensures deleted <==> (err.None? && Delete(Chats) !in unavailable
        && FindChatByClientAndGroup(old(chats), c.waClient, c.mgid).Some?)
      ensures chats == if deleted
        then RemoveAt(old(chats), FindChatByClientAndGroup(old(chats), c.waClient, c.mgid).value)
        else old(chats)
      ensures messages == old(messages) && mainGroups == old(mainGroups) && nextId == old(nextId)
    {
      var item := GetChatByClient(c.waClient, c.mgid);
      if item.Err? {
        return false, Some(item.error);
      }
      var found := FindChatByClientAndGroup(chats, c.waClient, c.mgid);
      if found.None? || Delete(Chats) in unavailable {
        return false, None;
      }
      RemoveChatKeepsValid(chats, found.value, nextId);
      chats := RemoveAt(chats, found.value);
      return true, None;
    }
  }

  // Properties of the upserts.

  /**
   * Saving a message whose key matches a row replaces that row in place, under
   * its old primary key; otherwise the message is appended under a newKey key.
   * Every other row is unchanged.
   */
  lemma SaveMessageUpserts(rows: seq<Row<Message>>, m: Message, newKey: nat)
    ensures var r := SaveMessageRows(rows, m, newKey);
      match FindMessage(rows, KeyOf(m))
      case Some(i) =>
        |r| == |rows| && r[i] == Row(rows[i].id, m)
        && forall j :: 0 <= j < |rows| && j != i ==> r[j] == rows[j]
      case None =>
        (forall j :: 0 <= j < |rows| ==> !MatchesKey(rows[j].rec, KeyOf(m)))
        && r == rows + [Row(newKey, m)]
  {
  }

  /** An upsert keeps primary keys distinct, handing out `next` only when it appends. */
  lemma UpsertKeepsKeys<T>(rows: seq<Row<T>>, found: Option<nat>, rec: T, next: nat)
    requires found.Some? ==> found.value < |rows|
    requires KeysFresh(rows, next)
    ensures var r := Upsert(rows, found, rec, next);
      KeysFresh(r, if |r| == |rows| then next else next + 1)
      && (|r| == |rows| || |r| == |rows| + 1)
  {
    var r := Upsert(rows, found, rec, next);
    if found.Some? {
      assert forall j :: 0 <= j < |r| ==> r[j].id == rows[j].id;
    } else {
      assert forall j :: 0 <= j < |rows| ==> r[j] == rows[j];
    }
  }

  lemma SaveMessageKeepsKeys(rows: seq<Row<Message>>, m: Message, next: nat)
    requires KeysFresh(rows, next)
    ensures var r := SaveMessageRows(rows, m, next);
      KeysFresh(r, if |r| == |rows| then next else next + 1)
      && (|r| == |rows| || |r| == |rows| + 1)
  {
    UpsertKeepsKeys(rows, FindMessage(rows, KeyOf(m)), m, next);
  }

  /** The upsert never creates a second row with the same WhatsApp id. */
  lemma SaveMessageKeepsUnique(rows: seq<Row<Message>>, m: Message, newKey: nat)
    requires UniqueWAIds(rows)
    ensures UniqueWAIds(SaveMessageRows(rows, m, newKey))
  {
    var r := SaveMessageRows(rows, m, newKey);
    var found := FindMessage(rows, KeyOf(m));
    forall i, j | 0 <= i < j < |r| && r[i].rec.waMessageID != ""
      ensures r[i].rec.waMessageID != r[j].rec.waMessageID
    {
      if found.None? {
        if j == |rows| && m.waMessageID != "" {
          assert !MatchesKey(rows[i].rec, KeyOf(m));
        }
      }
    }
  }

  /** Saving a message with a usable key keeps every stored key usable. */
  lemma SaveMessageKeepsUsable(rows: seq<Row<Message>>, m: Message, newKey: nat)
    requires KeysUsable(rows) && UsableKey(KeyOf(m))
    ensures KeysUsable(SaveMessageRows(rows, m, newKey))
  {
    SaveMessageUpserts(rows, m, newKey);
  }

  /**
   * After a save the key finds the saved message, so `ExistMessageBy*` holds
   * and a lookup returns exactly the record saved.
   */
  lemma {:induction false} SaveMessageThenFind(rows: seq<Row<Message>>, m: Message, newKey: nat)
    requires UniqueWAIds(rows) || !KeyOf(m).ByWA?
    ensures var r := SaveMessageRows(rows, m, newKey);
      var f := FindMessage(r, KeyOf(m));
      f.Some? && r[f.value].rec == m
  {
    var r := SaveMessageRows(rows, m, newKey);
    var found := FindMessage(rows, KeyOf(m));
    assert MatchesKey(m, KeyOf(m));
    match found
    case Some(i) =>
      assert r[i].rec == m;
      assert forall j :: 0 <= j < i ==> r[j] == rows[j];
    case None =>
      assert r[|rows|].rec == m;
      assert forall j :: 0 <= j < |rows| ==> r[j] == rows[j];
  }

  /**
   * Saving a message with a WhatsApp id leaves the lookup of every other
   * WhatsApp id, and the row it finds, as they were.
   */
  lemma SaveMessageKeepsOtherFind(rows: seq<Row<Message>>, m: Message, newKey: nat, id: string)
    requires m.waMessageID != "" && id != m.waMessageID
    ensures var r := SaveMessageRows(rows, m, newKey);
      var f := FindMessage(rows, ByWA(id));
      && FindMessage(r, ByWA(id)) == f
      && (f.Some? ==> r[f.value] == rows[f.value])
  {
    var r := SaveMessageRows(rows, m, newKey);
    SaveMessageUpserts(rows, m, newKey);
    assert forall j :: 0 <= j < |r| ==> (MatchesKey(r[j].rec, ByWA(id)) <==> j < |rows| && MatchesKey(rows[j].rec, ByWA(id)));
    var f := FindMessage(rows, ByWA(id));
    var g := FindMessage(r, ByWA(id));
    if f.Some? {
      assert MatchesKey(r[f.value].rec, ByWA(id));
      assert g.Some?;
      assert !(g.value < f.value) && !(f.value < g.value);
    } else {
      assert g.None?;
    }
  }

  /** Saving the same message twice leaves the table as saving it once. */
  lemma SaveMessageIdempotent(rows: seq<Row<Message>>, m: Message, newKey: nat, newKey2: nat)
    requires UniqueWAIds(rows) || !KeyOf(m).ByWA?
    ensures var r := SaveMessageRows(rows, m, newKey);
      SaveMessageRows(r, m, newKey2) == r
  {
    var r := SaveMessageRows(rows, m, newKey);
    SaveMessageThenFind(rows, m, newKey);
    var f := FindMessage(r, KeyOf(m));
    assert r[f.value := Row(r[f.value].id, m)] == r;
  }

  lemma SaveChatKeepsKeys(rows: seq<Row<Chat>>, c: Chat, next: nat)
    requires KeysFresh(rows, next)
    ensures var r := SaveChatRows(rows, c, next);
      KeysFresh(r, if |r| == |rows| then next else next + 1)
      && (|r| == |rows| || |r| == |rows| + 1)
  {
    UpsertKeepsKeys(rows, FindChatByClient(rows, c.waClient), c, next);
  }

  lemma SaveChatKeepsUnique(rows: seq<Row<Chat>>, c: Chat, newKey: nat)
    requires UniqueClients(rows) && c.waClient != "" && c.mgid != ""
    ensures UniqueClients(SaveChatRows(rows, c, newKey))
  {
    var r := SaveChatRows(rows, c, newKey);
    var found := FindChatByClient(rows, c.waClient);
    forall i, j | 0 <= i < j < |r|
      ensures r[i].rec.waClient != r[j].rec.waClient
    {
      if found.None? && j == |rows| {
        assert rows[i].rec.waClient != c.waClient;
      }
    }
  }

  /**
   * Re-binding a client replaces its previous binding: afterwards the client
   * has exactly one binding, the one saved, whatever tenant or chat it had.
   */
  lemma SaveChatRebinds(rows: seq<Row<Chat>>, c: Chat, newKey: nat)
    requires UniqueClients(rows) && c.waClient != "" && c.mgid != ""
    ensures var r := SaveChatRows(rows, c, newKey);
      (exists i :: 0 <= i < |r| && r[i].rec == c)
      && forall i :: 0 <= i < |r| && r[i].rec.waClient == c.waClient ==> r[i].rec == c
  {
    var r := SaveChatRows(rows, c, newKey);
    SaveChatKeepsUnique(rows, c, newKey);
    match FindChatByClient(rows, c.waClient)
    case Some(k) =>
      assert r[k].rec == c;
    case None =>
      assert r[|rows|].rec == c;
  }

  lemma SaveMainGroupKeepsKeys(rows: seq<Row<MainGroup>>, g: MainGroup, next: nat)
    requires KeysFresh(rows, next)
    ensures var r := SaveMainGroupRows(rows, g, next);
      KeysFresh(r, if |r| == |rows| then next else next + 1)
      && (|r| == |rows| || |r| == |rows| + 1)
  {
    UpsertKeepsKeys(rows, FindGroupByTGID(rows, g.tgChatID), g, next);
  }

  lemma SaveMainGroupKeepsUnique(rows: seq<Row<MainGroup>>, g: MainGroup, newKey: nat)
    requires UniqueGroups(rows)
    ensures UniqueGroups(SaveMainGroupRows(rows, g, newKey))
  {
    var r := SaveMainGroupRows(rows, g, newKey);
    var found := FindGroupByTGID(rows, g.tgChatID);
    forall i, j | 0 <= i < j < |r|
      ensures r[i].rec.tgChatID != r[j].rec.tgChatID
    {
      if found.None? && j == |rows| {
        assert rows[i].rec.tgChatID != g.tgChatID;
      }
    }
  }

  /** After saving a main group, its Telegram id finds exactly that record. */
  lemma SaveMainGroupThenFind(rows: seq<Row<MainGroup>>, g: MainGroup, newKey: nat)
    requires UniqueGroups(rows)
    ensures var r := SaveMainGroupRows(rows, g, newKey);
      var f := FindGroupByTGID(r, g.tgChatID);
      f.Some? && r[f.value].rec == g
  {
    var r := SaveMainGroupRows(rows, g, newKey);
    SaveMainGroupKeepsUnique(rows, g, newKey);
    match FindGroupByTGID(rows, g.tgChatID)
    case Some(k) =>
      assert r[k].rec == g;
    case None =>
      assert r[|rows|].rec == g;
  }

  lemma RemoveChatKeepsValid(rows: seq<Row<Chat>>, i: nat, next: nat)
    requires i < |rows| && KeysFresh(rows, next) && UniqueClients(rows)
    ensures KeysFresh(RemoveAt(rows, i), next) && UniqueClients(RemoveAt(rows, i))
  {
    var r := RemoveAt(rows, i);
    forall j | 0 <= j < |r|
      ensures r[j] == rows[if j < i then j else j + 1]
    {
    }
    forall j, k | 0 <= j < k < |r|
      ensures r[j].id != r[k].id && r[j].rec.waClient != r[k].rec.waClient
    {
      var j', k' := if j < i then j else j + 1, if k < i then k else k + 1;
      assert r[j] == rows[j'] && r[k] == rows[k'] && j' < k';
    }
  }

  /** Once its binding is deleted, the (client, tenant) pair finds nothing. */
  lemma DeleteChatThenAbsent(rows: seq<Row<Chat>>, client: string, mgid: string)
    requires UniqueClients(rows)
    requires FindChatByClientAndGroup(rows, client, mgid).Some?
    ensures var r := RemoveAt(rows, FindChatByClientAndGroup(rows, client, mgid).value);
      FindChatByClientAndGroup(r, client, mgid).None?
      && FindChatByClient(r, client).None?
  {
    var i := FindChatByClientAndGroup(rows, client, mgid).value;
    var r := RemoveAt(rows, i);
    forall j | 0 <= j < |r|
      ensures r[j].rec.waClient != client
    {
      assert r[j] == rows[if j < i then j else j + 1];
    }
  }
}
