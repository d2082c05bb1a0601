/**
 * The pinned status message of every tenant (`UpdateStatMessage` in
 * pkg/tg/api.go): one page of the clients with unanswered messages, the
 * navigation buttons, and the life of the pinned message whose id the main
 * group row keeps in `MessagePin`.
 */
module TgApi {
  import opened Wrappers
  import opened GoStrings
  import opened GoStrconv
  import opened Records
  import opened WaApi
  import opened Store
  import TgService

  /** The page size. */
  const ChunkSize := 20

  /**
   * One row of the not-chatted summary of a tenant: client, Telegram user
   * name, the day (already formatted), and the message and unread counts.
   */
  datatype StatItem = StatItem(waClient: string, tgUserName: string, date: string, count: int, countUnread: int)

  /** The first item index page `chunk` examines, in Go's 64-bit arithmetic. */
  function PageFirst(chunk: int): int
  {
    Wrap64(Wrap64(chunk - 1) * ChunkSize)
  }

  /** The last item index page `chunk` examines, in Go's 64-bit arithmetic. */
  function PageLast(chunk: int): int
  {
    Wrap64(chunk * ChunkSize)
  }

  /**
   * For every page whose bounds fit in 64 bits the window is
   * [(chunk-1)*20, chunk*20], both ends included: 21 indices.
   */
  lemma PageWindow(chunk: int)
    requires 1 <= chunk <= MaxInt64 / ChunkSize
    ensures PageFirst(chunk) == (chunk - 1) * ChunkSize
    ensures PageLast(chunk) == chunk * ChunkSize
    ensures PageLast(chunk) - PageFirst(chunk) + 1 == ChunkSize + 1
  {
  }

  /** An item the page lists: present, and not a "@c.us" client. */
  predicate Listed(item: Option<StatItem>)
  {
    item.Some? && !Contains(item.value.waClient, "@c.us")
  }

  /** The user name shown for an item: "@" and the name, or nothing. */
  function UserTag(userName: string): (tag: string)
    ensures userName == "" ==> tag == ""
    ensures userName != "" ==> tag == "@" + userName
  {
    if userName != "" then "@" + userName else ""
  }

  /** One line of the page: name, short client, user, day, counts. */
  function StatLine(v: InstanceView, it: StatItem): (line: string)
    ensures line != [] && line[0] == '\n'
    ensures var head := "\n - " + GetClientName(v, it.waClient) + "(" + GetShortClient(it.waClient) + ") from [";
      |head| <= |line| && line[..|head|] == head
    ensures var tail := ", ur: " + FormatInt(it.countUnread);
      |tail| <= |line| && line[|line| - |tail|..] == tail
    ensures var head := "\n - " + GetClientName(v, it.waClient) + "(" + GetShortClient(it.waClient) + ") from [";
      var tail := ", ur: " + FormatInt(it.countUnread);
      |head| + |tail| <= |line|
      && line[|head|..|line| - |tail|] == UserTag(it.tgUserName) + "]>" + it.date + ": " + FormatInt(it.count)
  {
    var head := "\n - " + GetClientName(v, it.waClient) + "(" + GetShortClient(it.waClient) + ") from [";
    var middle := UserTag(it.tgUserName) + "]>" + it.date + ": " + FormatInt(it.count);
    var tail := ", ur: " + FormatInt(it.countUnread);
    var line := head + middle + tail;
    assert line[..|head|] == head;
    assert line[|line| - |tail|..] == tail;
    assert line[|head|..|line| - |tail|] == middle;
    line
  }

  /** The line each item would add to the page: its `StatLine` when listed, else nothing. */
  function Lines(v: InstanceView, items: seq<Option<StatItem>>): (lines: seq<string>)
    ensures |lines| == |items|
    ensures forall k :: 0 <= k < |items| ==>
      lines[k] == (if Listed(items[k]) then StatLine(v, items[k].value) else "")
    ensures forall k :: 0 <= k < |items| ==> (|lines[k]| == 0 <==> !Listed(items[k]))
  {
    seq(|items|, k requires 0 <= k < |items| => if Listed(items[k]) then StatLine(v, items[k].value) else "")
  }

  /** The page made of the first `n` lines: those whose index lies in [lo, hi]. */
  function PageText(lines: seq<string>, lo: int, hi: int, n: nat): string
    requires n <= |lines|
  {
    if n == 0 then ""
    else PageText(lines, lo, hi, n - 1) + (if lo <= n - 1 <= hi then lines[n - 1] else "")
  }

  /** The page is empty exactly when every line inside the window is. */
  lemma {:induction false} PageTextEmpty(lines: seq<string>, lo: int, hi: int, n: nat)
    requires n <= |lines|
    ensures |PageText(lines, lo, hi, n)| == 0 <==>
      forall k :: 0 <= k < n && lo <= k <= hi ==> |lines[k]| == 0
  {
    if n > 0 {
      PageTextEmpty(lines, lo, hi, n - 1);
    }
  }

  /** So a page is empty exactly when no listed item falls inside its window. */
  lemma PageEmptyIffNoneListed(v: InstanceView, items: seq<Option<StatItem>>, chunk: int)
    ensures PageText(Lines(v, items), PageFirst(chunk), PageLast(chunk), |items|) == "" <==>
      forall k :: 0 <= k < |items| && PageFirst(chunk) <= k <= PageLast(chunk) ==> !Listed(items[k])
  {
    var lines := Lines(v, items);
    PageTextEmpty(lines, PageFirst(chunk), PageLast(chunk), |items|);
    assert forall k :: 0 <= k < |items| ==> (|lines[k]| == 0 <==> !Listed(items[k]));
  }

  /** Lines past the window add nothing, so the scan may stop at the first one. */
  lemma {:induction false} PageTextBeyond(lines: seq<string>, lo: int, hi: int, k: nat, n: nat)
    requires hi < k <= n <= |lines|
    ensures PageText(lines, lo, hi, n) == PageText(lines, lo, hi, k)
  {
    if n > k {
      PageTextBeyond(lines, lo, hi, k, n - 1);
      var prefix := PageText(lines, lo, hi, n - 1);
      assert prefix + "" == prefix;
    }
  }

  /** The page loop of `UpdateStatMessage`: skip before the window, stop after it. */
  method BuildPage(v: InstanceView, items: seq<Option<StatItem>>, chunk: int) returns (txt: string)
    ensures txt == PageText(Lines(v, items), PageFirst(chunk), PageLast(chunk), |items|)
  {
    ghost var lines := Lines(v, items);
    var lo, hi := PageFirst(chunk), PageLast(chunk);
    txt := "";
    var k := 0;
    while k < |items|
      invariant 0 <= k <= |items|
      invariant txt == PageText(lines, lo, hi, k)
    {
      if k < lo {
        assert PageText(lines, lo, hi, k + 1) == txt + "" == txt;
        k := k + 1;
        continue;
      }
      if k > hi {
        PageTextBeyond(lines, lo, hi, k, |items|);
        return;
      }
      if items[k].None? || Contains(items[k].value.waClient, "@c.us") {
        assert |lines[k]| == 0;
        assert PageText(lines, lo, hi, k + 1) == txt + lines[k] == txt;
        k := k + 1;
        continue;
      }
      assert lines[k] == StatLine(v, items[k].value);
      assert PageText(lines, lo, hi, k + 1) == txt + lines[k];
      txt := txt + StatLine(v, items[k].value);
      k := k + 1;
    }
  }

  /** An inline button: its caption and its callback data. */
  datatype Button = Button(caption: string, data: string)

  const PrevLabel := "\U{2B05} Prev"
  const RefreshLabel := "refresh \U{1F504} "
  const NextLabel := "Next \U{27A1} "
  const RefreshData := "stat.refresh"
  const PagePrefix := "stat.get#"

  /** The callback data that asks for page `chunk`. */
  function PageData(chunk: int): string
  {
    PagePrefix + FormatInt(chunk)
  }

  predicate HasButton(row: seq<Button>, data: string)
  {
    exists i :: 0 <= i < |row| && row[i].data == data
  }

  lemma PageDataDistinct(a: int, b: int)
    requires IsInt64(a) && IsInt64(b) && a != b
    ensures PageData(a) != PageData(b) && PageData(a) != RefreshData
  {
    assert PageData(a)[5] == 'g' != RefreshData[5];
    if PageData(a) == PageData(b) {
      assert FormatInt(a) == PageData(a)[|PagePrefix|..];
      assert FormatInt(b) == PageData(b)[|PagePrefix|..];
      FormatIntInjective(a, b);
    }
  }

  /**
   * The navigation row of page `chunk` of `total` items (`clock` is the time
   * shown on the refresh button): "previous" exactly when `chunk` > 1,
   * "refresh" always, "next" exactly when items remain after the window.
   */
  function NavRow(chunk: int, total: int, clock: string): (row: seq<Button>)
    requires IsInt64(chunk)
    ensures HasButton(row, RefreshData)
    ensures HasButton(row, PageData(Wrap64(chunk - 1))) <==> chunk > 1
    ensures HasButton(row, PageData(Wrap64(chunk + 1))) <==> total > PageLast(chunk)
    ensures |row| <= 3
  {
    var prevPage, nextPage := Wrap64(chunk - 1), Wrap64(chunk + 1);
    Wrap64Distinct(chunk - 1, 2);
    PageDataDistinct(prevPage, nextPage);
    PageDataDistinct(nextPage, prevPage);
    var prev := if chunk > 1 then [Button(PrevLabel, PageData(prevPage))] else [];
    var next := if total > PageLast(chunk) then [Button(NextLabel, PageData(nextPage))] else [];
    var row := prev + [Button(RefreshLabel + clock, RefreshData)] + next;
    assert row[|prev|].data == RefreshData;
    assert chunk > 1 ==> row[0].data == PageData(prevPage);
    assert total > PageLast(chunk) ==> row[|row| - 1].data == PageData(nextPage);
    assert forall i :: 0 <= i < |row| ==> (row[i].data == RefreshData
      || (chunk > 1 && row[i].data == PageData(prevPage))
      || (total > PageLast(chunk) && row[i].data == PageData(nextPage)));
    row
  }

  const PinTag := "\n #pinstat"
  const EditNotFound := "Bad Request: message to edit not found"

  /** What `UpdateStatMessage` asks of Telegram. */
  datatype StatEffect =
    | EditStat(chatID: int, messageID: int, text: string, buttons: seq<Button>)
    | DeletePin(chatID: int)
    | SendStat(chatID: int, text: string, buttons: seq<Button>)
    | PinStat(chatID: int, messageID: int)

  predicate Sends(effects: seq<StatEffect>)
  {
    exists i :: 0 <= i < |effects| && effects[i].SendStat?
  }

  predicate Edits(effects: seq<StatEffect>)
  {
    exists i :: 0 <= i < |effects| && effects[i].EditStat?
  }

  predicate Pins(effects: seq<StatEffect>)
  {
    exists i :: 0 <= i < |effects| && effects[i].PinStat?
  }

  /** The edit failed because the pinned message is gone. */
  predicate PinLost(editError: Option<string>)
  {
    editError.Some? && Contains(editError.value, EditNotFound)
  }

  /**
   * The pin decisions for one tenant: the `MessagePin` value held at the end,
   * whether it is saved, and the calls made.
   */
  datatype PinOutcome = PinOutcome(pin: int, save: bool, effects: seq<StatEffect>)

  /**
   * The pinned-message state machine of one tenant, given the current pin,
   * the page text and buttons, the edit's error, the new message's id (or the
   * send's error) and whether saving the main group succeeds.
   */
  function PinPlan(v: int, pin: int, txt: string, row: seq<Button>, editError: Option<string>,
                   sent: Result<int, string>, saveOk: bool): PinOutcome
  {
    var text := txt + PinTag;
    var first :=
      if pin > 0 && txt != "" then [EditStat(v, pin, text, row)]
      else if pin > 0 && txt == "" then [DeletePin(v)]
      else [];
    var held := if pin > 0 && txt != "" && PinLost(editError) then -1 else pin;
    if held < 1 && txt != "" then
      var send := first + [SendStat(v, text, row)];
      if sent.Ok? then
        PinOutcome(sent.value, true, if saveOk then send + [PinStat(v, sent.value)] else send)
      else PinOutcome(held, false, send)
    else PinOutcome(held, false, first)
  }

  /**
   * The transitions of the pinned message. A live pin is edited when there is
   * text and dropped when there is none; a new status message is sent when
   * there is text and no live pin, including one the edit found gone; only
   * that message's id is saved, and it is pinned once the save succeeds.
   * Without text nothing is sent and nothing is saved.
   */
  lemma PinPlanTransitions(v: int, pin: int, txt: string, row: seq<Button>, editError: Option<string>,
                           sent: Result<int, string>, saveOk: bool)
    ensures var out := PinPlan(v, pin, txt, row, editError, sent, saveOk);
      && (Edits(out.effects) <==> pin > 0 && txt != "")
      && ((DeletePin(v) in out.effects) <==> pin > 0 && txt == "")
      && (Sends(out.effects) <==> txt != "" && (pin < 1 || PinLost(editError)))
      && (out.save <==> Sends(out.effects) && sent.Ok?)
      && (out.save ==> out.pin == sent.value)
      && (!out.save ==> out.pin == (if pin > 0 && txt != "" && PinLost(editError) then -1 else pin))
      && (Pins(out.effects) <==> out.save && saveOk)
      && (Pins(out.effects) ==> PinStat(v, sent.value) in out.effects)
      && (txt == "" ==> out.effects == (if pin > 0 then [DeletePin(v)] else []))
  {
    var text := txt + PinTag;
    var first :=
      if pin > 0 && txt != "" then [EditStat(v, pin, text, row)]
      else if pin > 0 && txt == "" then [DeletePin(v)]
      else [];
    var held := if pin > 0 && txt != "" && PinLost(editError) then -1 else pin;
    assert Edits(first) <==> pin > 0 && txt != "" by {
      if pin > 0 && txt != "" { assert first[0].EditStat?; }
    }
    if held < 1 && txt != "" {
      var send := first + [SendStat(v, text, row)];
      assert send[|first|].SendStat?;
      assert |first| > 0 ==> send[0] == first[0];
      assert forall i :: 0 <= i < |send| ==> ((i < |first| && send[i] == first[i])
        || send[i] == SendStat(v, text, row));
      if sent.Ok? && saveOk {
        var all := send + [PinStat(v, sent.value)];
        assert all[|send|] == PinStat(v, sent.value);
        assert all[|first|] == SendStat(v, text, row);
        assert |first| > 0 ==> all[0] == first[0];
        assert forall i :: 0 <= i < |all| ==> ((i < |first| && all[i] == first[i])
          || all[i] == SendStat(v, text, row) || all[i] == PinStat(v, sent.value));
      }
    }
  }

  /**
   * The inputs of one tenant that come from outside the model: the
   * not-chatted summary (or the store's error), the error of editing the
   * pinned message, and the id of a newly sent status message (or the error).
   */
  datatype TenantScript = TenantScript(
    items: Result<seq<Option<StatItem>>, string>,
    editError: Option<string>,
    sent: Result<int, string>)

  /** What a pass has done so far: the main-group table, the next key, the calls, and whether it stopped. */
  datatype StatState = StatState(groups: seq<Row<MainGroup>>, next: nat, effects: seq<StatEffect>, stopped: bool)

  /** One tenant of the pass. */
  function TenantStep(st: StatState, unavailable: set<StoreOp>, v: int, script: TenantScript,
                      inst: Option<InstanceView>, chunk: int, clock: string): (r: StatState)
    requires IsInt64(chunk)
  {
    if st.stopped then st
    else match script.items
      case Err(_) => st.(stopped := true)
      case Ok(items) =>
        if inst.None? then st
        else
          var txt := PageText(Lines(inst.value, items), PageFirst(chunk), PageLast(chunk), |items|);
          var row := NavRow(chunk, |items|, clock);
          TenantPin(st, unavailable, v, txt, row, script)
  }

  /** The part of a tenant's step after its page is built: the stored main group and its pin. */
  function TenantPin(st: StatState, unavailable: set<StoreOp>, v: int, txt: string, row: seq<Button>,
                     script: TenantScript): StatState
  {
    if Find(MainGroups) in unavailable then st.(stopped := true)
    else TenantGroupPin(st, unavailable, v, txt, row, script)
  }

  function TenantGroupPin(st: StatState, unavailable: set<StoreOp>, v: int, txt: string, row: seq<Button>,
                          script: TenantScript): StatState
  {
    match FindGroupByTGID(st.groups, v)
    case None => st.(stopped := true)
    case Some(i) =>
      var grp := st.groups[i].rec;
      var saveOk := Save(MainGroups) !in unavailable;
      var out := PinPlan(v, grp.messagePin, txt, row, script.editError, script.sent, saveOk);
      var groups := if out.save && saveOk
        then SaveMainGroupRows(st.groups, grp.(messagePin := out.pin), st.next) else st.groups;
      StatState(groups, st.next, st.effects + out.effects, false)
  }

  /** The pass after its first `n` tenants. */
  function StatRun(st: StatState, unavailable: set<StoreOp>, tenants: seq<int>, scripts: seq<TenantScript>,
                   instances: map<int, InstanceView>, chunk: int, clock: string, n: nat): StatState
    requires |scripts| == |tenants| && n <= |tenants| && IsInt64(chunk)
  {
    if n == 0 then st
    else
      var k := n - 1;
      TenantStep(StatRun(st, unavailable, tenants, scripts, instances, chunk, clock, k), unavailable,
                 tenants[k], scripts[k], TgService.InstanceOf(instances, tenants[k]), chunk, clock)
  }

  /** The pass over the first i + 1 tenants is the pass over the first i, then tenant i. */
  lemma StatRunNext(st: StatState, unavailable: set<StoreOp>, tenants: seq<int>, scripts: seq<TenantScript>,
                    instances: map<int, InstanceView>, chunk: int, clock: string, i: nat, before: StatState)
    requires |scripts| == |tenants| && i < |tenants| && IsInt64(chunk)
    requires StatRun(st, unavailable, tenants, scripts, instances, chunk, clock, i) == before
    ensures StatRun(st, unavailable, tenants, scripts, instances, chunk, clock, i + 1)
      == TenantStep(before, unavailable, tenants[i], scripts[i], TgService.InstanceOf(instances, tenants[i]), chunk, clock)
  {
  }

  /**
   * Once a tenant stops the pass (a store error, or a main group that is not
   * stored), no later tenant is looked at: the state stays as it was.
   */
  lemma {:induction false} StopIsFinal(st: StatState, unavailable: set<StoreOp>, tenants: seq<int>,
                                       scripts: seq<TenantScript>, instances: map<int, InstanceView>,
                                       chunk: int, clock: string, k: nat, n: nat)
    requires |scripts| == |tenants| && k <= n <= |tenants| && IsInt64(chunk)
    requires StatRun(st, unavailable, tenants, scripts, instances, chunk, clock, k).stopped
    ensures StatRun(st, unavailable, tenants, scripts, instances, chunk, clock, n)
      == StatRun(st, unavailable, tenants, scripts, instances, chunk, clock, k)
  {
    if n > k {
      StopIsFinal(st, unavailable, tenants, scripts, instances, chunk, clock, k, n - 1);
    }
  }

  /** A tenant whose WhatsApp instance is not running is skipped, and the pass goes on. */
  lemma MissingInstanceSkips(st: StatState, unavailable: set<StoreOp>, v: int, script: TenantScript,
                             chunk: int, clock: string)
    requires IsInt64(chunk) && !st.stopped && script.items.Ok?
    ensures TenantStep(st, unavailable, v, script, None, chunk, clock) == st
  {
  }

  /**
   * A tenant's main group is only ever saved with the id of a status message
   * just sent, and then that message is pinned; every other row is untouched.
   */
  lemma {:induction false} TenantStepSavesNewPin(st: StatState, unavailable: set<StoreOp>, v: int,
                                                 script: TenantScript, inst: Option<InstanceView>,
                                                 chunk: int, clock: string)
    requires IsInt64(chunk) && UniqueGroups(st.groups)
    requires TenantStep(st, unavailable, v, script, inst, chunk, clock).groups != st.groups
    ensures var r := TenantStep(st, unavailable, v, script, inst, chunk, clock);
      && script.sent.Ok? && |r.groups| == |st.groups|
      && (exists i :: (0 <= i < |st.groups| && st.groups[i].rec.tgChatID == v
          && r.groups == st.groups[i := Row(st.groups[i].id, st.groups[i].rec.(messagePin := script.sent.value))]))
      && PinStat(v, script.sent.value) in r.effects
  {
    var items := script.items.value;
    var txt := PageText(Lines(inst.value, items), PageFirst(chunk), PageLast(chunk), |items|);
    var row := NavRow(chunk, |items|, clock);
    assert TenantStep(st, unavailable, v, script, inst, chunk, clock)
      == TenantGroupPin(st, unavailable, v, txt, row, script);
    GroupPinSavesNewPin(st, unavailable, v, txt, row, script);
  }

  lemma GroupPinSavesNewPin(st: StatState, unavailable: set<StoreOp>, v: int, txt: string,
                            row: seq<Button>, script: TenantScript)
    requires UniqueGroups(st.groups)
    requires TenantGroupPin(st, unavailable, v, txt, row, script).groups != st.groups
    ensures var r := TenantGroupPin(st, unavailable, v, txt, row, script);
      && script.sent.Ok? && |r.groups| == |st.groups|
      && (exists i :: (0 <= i < |st.groups| && st.groups[i].rec.tgChatID == v
          && r.groups == st.groups[i := Row(st.groups[i].id, st.groups[i].rec.(messagePin := script.sent.value))]))
      && PinStat(v, script.sent.value) in r.effects
  {
    var r := TenantGroupPin(st, unavailable, v, txt, row, script);
    var i := FindGroupByTGID(st.groups, v).value;
    var grp := st.groups[i].rec;
    var saveOk := Save(MainGroups) !in unavailable;
    var out := PinPlan(v, grp.messagePin, txt, row, script.editError, script.sent, saveOk);
    PinPlanTransitions(v, grp.messagePin, txt, row, script.editError, script.sent, saveOk);
    assert out.save && saveOk;
    var g := grp.(messagePin := out.pin);
    assert FindGroupByTGID(st.groups, g.tgChatID) == Some(i);
    assert r.effects == st.effects + out.effects;
  }

  /**
   * The pin state machine of one tenant against the store: edit or drop the
   * live pin, send a new status message when there is none, save its id on
   * the stored main group `grp` and pin it.
   */
  method ApplyPin(db: Store, v: int, grp: MainGroup, txt: string, row: seq<Button>, script: TenantScript,
                  ghost prior: seq<StatEffect>)
    returns (effects: seq<StatEffect>)
    requires db.Valid() && v != 0 && Find(MainGroups) !in db.unavailable
    requires FindGroupByTGID(db.mainGroups, v).Some?
    requires grp == db.mainGroups[FindGroupByTGID(db.mainGroups, v).value].rec
    modifies db
    ensures db.Valid()
    ensures var r := TenantGroupPin(StatState(old(db.mainGroups), old(db.nextId), prior, false),
                                    db.unavailable, v, txt, row, script);
      && db.mainGroups == r.groups && db.nextId == r.next && prior + effects == r.effects && !r.stopped
    ensures db.messages == old(db.messages) && db.chats == old(db.chats)
  {
    ghost var out := PinPlan(v, grp.messagePin, txt, row, script.editError, script.sent,
                             Save(MainGroups) !in db.unavailable);
    var text := txt + PinTag;
    var pin := grp.messagePin;
    var first: seq<StatEffect> := [];
    if pin > 0 && txt != "" {
      first := [EditStat(v, pin, text, row)];
      if script.editError.Some? && Contains(script.editError.value, EditNotFound) {
        pin := -1;
      }
    } else if pin > 0 && txt == "" {
      first := [DeletePin(v)];
    }
    effects := first;
    if pin < 1 && txt != "" {
      effects := first + [SendStat(v, text, row)];
      if script.sent.Ok? {
        var err := db.SaveMainGroup(grp.(messagePin := script.sent.value));
        if err.None? {
          effects := effects + [PinStat(v, script.sent.value)];
        }
        assert out.save && out.pin == script.sent.value;
      }
    }
    assert effects == out.effects;
  }

  /**
   * One tenant of `UpdateStatMessage`: the summary, the instance, the page,
   * the stored main group, and the pin state machine.
   */
  method UpdateTenant(db: Store, v: int, script: TenantScript, inst: Option<InstanceView>,
                      chunk: int, clock: string, ghost prior: seq<StatEffect>)
    returns (effects: seq<StatEffect>, stop: bool)
    requires db.Valid() && v != 0 && IsInt64(chunk)
    modifies db
    ensures db.Valid()
    ensures TenantStep(StatState(old(db.mainGroups), old(db.nextId), prior, false),
                       db.unavailable, v, script, inst, chunk, clock)
      == StatState(db.mainGroups, db.nextId, prior + effects, stop)
    ensures db.messages == old(db.messages) && db.chats == old(db.chats)
  {
    effects, stop := [], false;
    assert prior + effects == prior;
    if script.items.Err? {
      stop := true;
    } else if inst.Some? {
      var items := script.items.value;
      var txt := BuildPage(inst.value, items, chunk);
      var row := NavRow(chunk, |items|, clock);
      effects, stop := PinTenant(db, v, txt, row, script, prior);
    }
  }

  /** The stored main group of tenant `v` and its pin, once the page is built. */
  method PinTenant(db: Store, v: int, txt: string, row: seq<Button>, script: TenantScript,
                   ghost prior: seq<StatEffect>)
    returns (effects: seq<StatEffect>, stop: bool)
    requires db.Valid() && v != 0
    modifies db
    ensures db.Valid()
    ensures var r := TenantPin(StatState(old(db.mainGroups), old(db.nextId), prior, false),
                               db.unavailable, v, txt, row, script);
      && db.mainGroups == r.groups && db.nextId == r.next && prior + effects == r.effects && stop == r.stopped
    ensures db.messages == old(db.messages) && db.chats == old(db.chats)
  {
    var found := db.GetMainGroupByTGID(v);
    if found.Err? || found.value.None? {
      assert prior + [] == prior;
      return [], true;
    }
    effects := ApplyPin(db, v, found.value.value, txt, row, script, prior);
    stop := false;
  }

  /**
   * `UpdateStatMessage(chunk)`: every tenant in turn, until one stops the
   * pass. `scripts[i]` and the running instances give what tenant
   * `tenants[i]` sees; `clock` is the time shown on the refresh button.
   */
  method UpdateStatMessage(db: Store, tenants: seq<int>, scripts: seq<TenantScript>,
                           instances: map<int, InstanceView>, chunk: int, clock: string)
    returns (effects: seq<StatEffect>)
    requires db.Valid() && |scripts| == |tenants| && IsInt64(chunk)
    requires forall i :: 0 <= i < |tenants| ==> tenants[i] != 0
    modifies db
    ensures db.Valid()
    ensures var r := StatRun(StatState(old(db.mainGroups), old(db.nextId), [], false), db.unavailable,
                             tenants, scripts, instances, chunk, clock, |tenants|);
      db.mainGroups == r.groups && db.nextId == r.next && effects == r.effects
    ensures db.messages == old(db.messages) && db.chats == old(db.chats)
  {
    ghost var st0 := StatState(db.mainGroups, db.nextId, [], false);
    effects := [];
    var i := 0;
    while i < |tenants|
      invariant 0 <= i <= |tenants| && db.Valid()
      invariant StatRun(st0, db.unavailable, tenants, scripts, instances, chunk, clock, i)
        == StatState(db.mainGroups, db.nextId, effects, false)
      invariant db.messages == old(db.messages) && db.chats == old(db.chats)
    {
      ghost var before := StatState(db.mainGroups, db.nextId, effects, false);
      var inst := TgService.InstanceOf(instances, tenants[i]);
      var more, stop := UpdateTenant(db, tenants[i], scripts[i], inst, chunk, clock, effects);
      StatRunNext(st0, db.unavailable, tenants, scripts, instances, chunk, clock, i, before);
      ghost var after := TenantStep(before, db.unavailable, tenants[i], scripts[i], inst, chunk, clock);
      effects := effects + more;
      assert after == StatState(db.mainGroups, db.nextId, effects, stop);
      if stop {
        StopIsFinal(st0, db.unavailable, tenants, scripts, instances, chunk, clock, i + 1, |tenants|);
        return;
      }
      i := i + 1;
    }
  }
}
