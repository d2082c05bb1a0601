# go-tgwabr relay coordination, modelled in Dafny

go-tgwabr is a bridge between WhatsApp and Telegram. Each WhatsApp account
(a tenant) has a Telegram "main group" that acts as its control room.
Messages from a WhatsApp client are relayed into a Telegram chat bound to
that client. Messages no chat is bound to yet are relayed into chat 0 with
the sender named, and they are listed on a pinned status message in the
main group. Telegram commands bind a chat to a client (`/join`), unbind it
(`/leave`), name a main group (`/set`), re-pin the status (`/repined`) and
ask for history (`/history`). Replies written in a bound chat go back to
WhatsApp.

The model has one Dafny module per source file of this coordination layer.
Four more modules hold the library behaviour it relies on:

- `Wrappers`: `Option` and `Result`.
- `GoStrings`: `strings.ReplaceAll` of one character, `Count`, `Contains`,
  `Split`/`SplitN`, `TrimSpace`, an ASCII `ToLower`, and the regex
  character classes.
- `GoStrconv`: `ParseInt`/`Atoi`, with Go's syntax and range errors and
  clamped values, `FormatInt`, and 64-bit wrap-around.
- `Records`: the rows of pkg/store/store.go.

| module | source | form |
|---|---|---|
| `Util` | pkg/util.go | functions and lemmas |
| `Store` | pkg/store/api.go | class `Store` holding the chat, message and main-group tables as sequences of keyed rows, plus the upsert functions that specify its methods |
| `WaApi` | pkg/wa/api.go | functions over a read-only view (`InstanceView`) of an instance's contacts, seen clients and ids |
| `WaHandlers` | pkg/wa/handlers.go | `HandleMessage` as a method on the instance and the store; `HandleError` as a classification |
| `WaService` | pkg/wa/wa.go | session decisions as functions of provider outcomes; `New` as a loop filling the `Service` class's instance map |
| `TgService` | pkg/tg/tg.go | the `BotSend` retry loop over a finite run of send outcomes; membership and routing functions |
| `TgHandlers` | pkg/tg/handlers.go | `HandleTextMessage` as a method on the store, proved against `Outbound`; callback and command dispatch |
| `TgCallbacks` | pkg/tg/callbacks.go | the stat callback parser, with round trips against the buttons `TgApi` builds |
| `TgApi` | pkg/tg/api.go | `UpdateStatMessage` as a loop over tenants on the store, proved against `StatRun`; page window, buttons and the pin state machine |
| `TgCommandArgs`, `TgCommandArgsTable` | pkg/tg/commands.go, pkg/tg/commands_test.go | `prepareArgs`, `prepareClient`, and every row of the table test |
| `TgCommands` | pkg/tg/commands.go | `/set`, `/repined`, `/history` |
| `TgJoin` | pkg/tg/commands.go | `/join`: checks, tenant resolution, alias fallback, binding and the replay loop |
| `TgLeave` | pkg/tg/commands.go | `/leave`: the loop over the chat's bindings |

Calls into the Telegram bot, the WhatsApp connection and gorm are inputs.
These are send outcomes, member statuses (`Directory`), download errors and
provider answers. A store operation fails when it is in the store's
`unavailable` set; a failed operation changes nothing. The set is fixed for
the store, so a kind of operation (a lookup or a save on one table) fails on
every call or on none. Calls whose effect
lies outside the tables (a notice to a main group, a title change, a read
receipt, a pin) are returned as effect values in order. The sleeps of
`BotSend` are returned as a list of waits.

## Model

| member | source | states |
|---|---|---|
| Util.StringInSlice | pkg/util.go:12-19 | true exactly when some element of the list equals the string |
| Util.StringInSliceEmpty | pkg/util.go:12-19 | the empty list never contains the string |
| Util.StringInSliceAppended | pkg/util.go:12-19 | a list with the string appended contains it |
| Util.StringInSliceMember | pkg/util.go:12-19 | the scan agrees with sequence membership |
| Util.AppendAbsentKeepsNoDuplicates | pkg/wa/handlers.go:62-64 | appending a client only when the scan misses it keeps the seen-clients list duplicate-free |
| Records.Records | pkg/store/store.go:92-100 | converting rows to records keeps their number and order, one record per row |
| Store.KeyOf | pkg/store/api.go:11-14 | the save key is the WhatsApp id when it is set, else the Telegram (message, chat) pair; the message matches its own key |
| Store.ChatsOf | pkg/store/api.go:130-138 | the bindings with the Telegram chat id, exactly those of the table, none added |
| Store.NotChatted | pkg/store/api.go:140-148 | the messages of the client with Chatted = no, exactly those of the table |
| Store.RemoveAt | pkg/store/api.go:162 | deleting a row keeps every other row, in order |
| Store.NextAfter | pkg/store/api.go:19-22 | only a save that found no row uses up a new primary key |
| Store.SaveErrorIn | pkg/store/api.go:15-25 | a find-then-save reports its lookup's error first, then its save's, and none when both work |
| Store.Store.constructor | pkg/store/store.go:204-239 | a new store has empty tables and satisfies the table invariant |
| Store.Store.SaveError | pkg/store/api.go:15-25 | the error of a save on a table, none exactly when both its find and its save work |
| Store.Store.SaveMessage | pkg/store/api.go:9-27 | upsert by key: the first row matching the key is replaced in place under its id, otherwise a row is appended; on error nothing changes; other tables unchanged; invariants kept |
| Store.Store.SaveChat | pkg/store/api.go:29-44 | upsert by WhatsApp client alone; on error nothing changes; other tables unchanged |
| Store.Store.SaveMainGroup | pkg/store/api.go:46-61 | upsert by Telegram chat id; on error nothing changes; other tables unchanged |
| Store.Store.GetMainGroupByName | pkg/store/api.go:63-74 | an error exactly when the query fails; no group and no error exactly when no row has the name; a group found has the name and is in the table |
| Store.Store.GetMainGroupByTGID | pkg/store/api.go:76-87 | as by name, keyed by the Telegram chat id; the first matching row is returned |
| Store.Store.GetMessageByWA | pkg/store/api.go:89-99 | an error exactly when the query fails; nothing exactly when no row has the WhatsApp id; a message found has it |
| Store.Store.ExistMessageByWA | pkg/store/api.go:101-107 | true exactly when the query works and some row has the WhatsApp id; a failed query reads as absent |
| Store.Store.ExistMessageByTG | pkg/store/api.go:109-115 | true exactly when the query works and some row has the (message, chat) pair |
| Store.Store.GetChatByClient | pkg/store/api.go:117-128 | an error exactly when the query fails; nothing exactly when no row has the (client, tenant) pair; a binding found has both |
| Store.Store.GetChatsByChatID | pkg/store/api.go:130-138 | an error exactly when the query fails, else exactly the bindings with that chat id |
| Store.Store.GetMessagesNotChattedByClient | pkg/store/api.go:140-148 | an error exactly when the query fails, else exactly the messages with Chatted = no and that client |
| Store.Store.DeleteChat | pkg/store/api.go:154-167 | a lookup error is reported; no matching row, or a failed delete, gives false and removes nothing; otherwise exactly that row is removed and true is returned |
| Store.SaveMessageUpserts | pkg/store/api.go:9-27 | a matched row is replaced under its own id with every other row unchanged; without a match, no row matches and the message is appended |
| Store.UpsertKeepsKeys | pkg/store/api.go:19-22 | primary keys stay positive, fresh and distinct, and a key is used only when a row is appended |
| Store.SaveMessageKeepsKeys | pkg/store/api.go:19-22 | saving a message keeps primary keys distinct and adds at most one row |
| Store.SaveMessageKeepsUnique | pkg/store/api.go:11-22 | saving never creates a second row with the same WhatsApp id |
| Store.SaveMessageKeepsUsable | pkg/store/api.go:11-14 | saving a message with a usable key keeps every stored key usable |
| Store.SaveMessageThenFind | pkg/store/api.go:101-115 | after a save the key finds a row holding exactly the saved message, so the existence check holds |
| Store.SaveMessageKeepsOtherFind | pkg/store/api.go:9-27 | saving under one WhatsApp id leaves the lookup of every other id, and the row it finds, unchanged |
| Store.SaveMessageIdempotent | pkg/store/api.go:9-27 | saving the same message twice leaves the table as saving it once |
| Store.SaveChatKeepsKeys | pkg/store/api.go:36-39 | saving a binding keeps primary keys distinct and adds at most one row |
| Store.SaveChatKeepsUnique | pkg/store/api.go:32-39 | saving a binding keeps at most one binding per client |
| Store.SaveChatRebinds | pkg/store/api.go:29-44 | re-binding a client replaces its previous binding: afterwards the client's only binding is the saved one |
| Store.SaveMainGroupKeepsKeys | pkg/store/api.go:53-56 | saving a main group keeps primary keys distinct and adds at most one row |
| Store.SaveMainGroupKeepsUnique | pkg/store/api.go:49-56 | saving keeps at most one main group per Telegram chat id |
| Store.SaveMainGroupThenFind | pkg/store/api.go:46-61 | after a save, the lookup by its chat id finds exactly the saved group |
| Store.RemoveChatKeepsValid | pkg/store/api.go:162 | removing a binding keeps the key and one-binding-per-client invariants |
| Store.DeleteChatThenAbsent | pkg/store/api.go:154-167 | once a binding is deleted, neither its (client, tenant) pair nor its client finds a row |
| WaApi.PrepareClientJID | pkg/wa/api.go:410-419 | the client is a prefix of the JID and the JID always holds '@' |
| WaApi.PrepareClientJIDAsWritten | pkg/wa/api.go:410-419 | a client holding '@' is returned unchanged; else one with a '-' gets "@g.us"; else "@s.whatsapp.net" |
| WaApi.PrepareClientJIDIdempotent | pkg/wa/api.go:411-418 | every JID holds '@', so normalising twice is normalising once |
| WaApi.GetShortClient | pkg/wa/api.go:63-69 | the text before the first '@', or the whole client when it holds none |
| WaApi.GetShortClientIsSplit | pkg/wa/api.go:63-69 | agrees with taking the first part of the split on "@" when there are several parts |
| WaApi.ShortOfPrepared | pkg/wa/api.go:63-69 | the short form of a normalised client is the client it came from |
| WaApi.ClientExist | pkg/wa/api.go:54-61 | true exactly when the normalised JID is a contact key or in the seen-clients list |
| WaApi.GetClientNameAsWritten | pkg/wa/api.go:71-85 | a contact's non-empty name, else its short name; with no contact, "New Client" when the raw client was seen, else "Not Exist" |
| WaApi.QuoteContext | pkg/wa/api.go:95-107 | a quote context exactly when the quoted id is non-empty, naming that id, the quoted text and the normalised JID |
| WaApi.Outgoing | pkg/wa/api.go:87-107 | every send goes to the normalised JID with its payload, quoted exactly when a quoted id is given |
| WaApi.SendResponse | pkg/wa/api.go:109-119 | a provider error is returned as is; on success the answer has the normalised JID, the provider's id, the time and the client's name |
| WaApi.GetID | pkg/wa/api.go:421-423 | the tenant id in decimal: never empty, and it parses back to the id |
| WaApi.HistoryScreenName | pkg/wa/api.go:317-331 | "@" and the stored user name for a self-sent message that has one, "Me" for other self-sent messages, "Client" otherwise |
| WaApi.HistoryPrefix | pkg/wa/api.go:333-334 | the line is the date, a space, the screen name and ':', so both can be read back from it |
| WaHandlers.InboundText | pkg/wa/handlers.go:21-37 | only text, image and document events are relayed: the text, "caption (mime)" or "title (mime)"; every other kind gives nothing |
| WaHandlers.InboundRecord | pkg/wa/handlers.go:47-60 | the record carries the event's WhatsApp id, time, quoted id and text; a self-sent event is named "Self" under the own wid, any other under its sender and contact name; nothing else is set |
| WaHandlers.SeenClients | pkg/wa/handlers.go:62-64 | the client is appended only when absent: the list then holds exactly the old clients and the client, and stays duplicate-free |
| WaHandlers.Route | pkg/wa/handlers.go:87-96 | a bound event goes to its chat; an unbound one to chat 0, except that an unbound self-sent event is not delivered; a failed lookup counts as unbound |
| WaHandlers.DeliveryText | pkg/wa/handlers.go:99-106 | text for a bound chat is sent unchanged; in chat 0 it is headed "Client name(short):" followed by a newline |
| WaHandlers.ImageFetched | pkg/wa/handlers.go:108-117 | an image is fetched by the first download, or after a 410/404-free failure by one media-info reload and a second download |
| WaHandlers.DeliveryRequest | pkg/wa/handlers.go:97-131 | text always produces a send; an image only when fetched; a document only when its single download works |
| WaHandlers.Stamped | pkg/wa/handlers.go:138-143 | the delivered record carries the Telegram chat, message id, date, user name and forwarded id, direction wa2tg; its WhatsApp identity is kept |
| WaHandlers.DeliveredSavedOnce | pkg/wa/handlers.go:76-148 | saving before and after delivery leaves one row for the WhatsApp id, holding the stamped record, and adds at most one row |
| WaHandlers.HandleMessage | pkg/wa/handlers.go:18-149 | an ignored kind, an old event or a status broadcast changes nothing; an admitted event updates the seen clients; a stored WhatsApp id stops before any save or send; otherwise as Relay; the contact book is never changed |
| WaHandlers.Relay | pkg/wa/handlers.go:76-148 | the record is saved once before delivery; the send goes to the routed chat; only a successful send is followed by the stamped save; chats and main groups unchanged |
| WaHandlers.HandleErrorAsWritten | pkg/wa/handlers.go:151-165 | a connection failure waits 30 s and reconnects, other errors are logged, invalid websocket data panics on the nil dereference |
| WaHandlers.HandleErrorAsWrittenPanics | pkg/wa/handlers.go:153-154 | invalid websocket data panics as written, while the intended handler reconnects |
| WaHandlers.HandleError | pkg/wa/handlers.go:151-165 | reconnect after 30 s exactly for a connection failure or invalid websocket data; log only exactly for every other error; never panics |
| WaService.Restore | pkg/wa/wa.go:158-166 | never an error; not up exactly for an invalid session, up for already-connected, already-logged-in, success and every other error |
| WaService.RestoreSession | pkg/wa/wa.go:168-186 | with no readable session or an empty client id, not up and no error, without the provider; already-connected or logged-in is up; invalid session is not up; any other error writes the session back and fails, a failed write taking precedence |
| WaService.LoginSessionAsWritten | pkg/wa/wa.go:188-217 | as written, a failed delete of the QR post is reported, and a login error is forgotten once the post is deleted |
| WaService.LoginSessionAsWrittenMasksFailure | pkg/wa/wa.go:201-208 | a failed login whose QR post is deleted is reported as a successful login, where the intended login reports the failure |
| WaService.LoginSession | pkg/wa/wa.go:188-217 | up exactly when the provider's login succeeded, the QR post (if any) was deleted and the session was written; the delete error first, then the login error |
| WaService.Login | pkg/wa/wa.go:107-156 | the login as written, through loginSession as written: restore is always called first, and the stored session is tried exactly when restore does not bring the session up |
| WaService.LoginIntended | pkg/wa/wa.go:107-156 | the same login through the intended QR login: restore is always called first, and the stored session is tried exactly when restore does not bring the session up |
| WaService.RestoreOnlyLoginUnaffected | pkg/wa/wa.go:118-130 | when only restoring, as `New` does, the QR login is never reached, so the login as written and as intended agree |
| WaService.LoginSessionCalledWhen | pkg/wa/wa.go:118-130 | a QR login is attempted exactly when restore failed, the stored session failed quietly and more than restoring is asked for |
| WaService.OnlyRestoreFailsOnVersion | pkg/wa/wa.go:112-148 | when only restoring, the version check is the only error |
| WaService.FullLoginFailsWithoutSession | pkg/wa/wa.go:126-134 | a full login where restore, the stored session and the QR login as written all leave the session down fails, and never with "bad status" because the QR login reports its own error |
| WaService.FullLoginSucceedsOnMaskedFailure | pkg/wa/wa.go:126-130 | as written, a full login whose QR login failed but whose QR post was deleted succeeds, where the intended login fails with the login error |
| WaService.IntendedLoginFailsWithoutSession | pkg/wa/wa.go:126-134 | with the QR login's own error kept, a full login where no step brings the session up fails, and never with "bad status" |
| WaService.PingFatalOnlyForFullLogin | pkg/wa/wa.go:136-141 | a ping error is fatal to a full login and ignored when only restoring |
| WaService.Instance.constructor | pkg/wa/wa.go:62 | a new instance has its tenant id, point time, contacts and own JID, and no seen client |
| WaService.Instance.View | pkg/wa/wa.go:34-42 | the view of an instance carries each of its fields |
| WaService.Service.constructor | pkg/wa/wa.go:46 | a new service has no instance |
| WaService.Service.GetInstance | pkg/wa/wa.go:102-105 | the instance exactly when one was registered under the id |
| WaService.PointTime | pkg/wa/wa.go:47-51 | an unparseable WA_POINT_TIME, including an unset one, becomes 0; otherwise its decimal value |
| WaService.SetupFailure | pkg/wa/wa.go:57-74 | an unparseable id aborts with a parse error; an item starts exactly when its id parses, its connection is made and its restore-only login works |
| WaService.Started | pkg/wa/wa.go:55-78 | the items before the first failure all start, and the item at that index fails |
| WaService.StartedPast | pkg/wa/wa.go:55-78 | an item up to the first failure that starts lies before it |
| WaService.StartedAt | pkg/wa/wa.go:55-78 | an item up to the first failure that fails is the first failure |
| WaService.StartedIdsMembers | pkg/wa/wa.go:57-77 | the tenant ids registered by the first k items are exactly the ids those items parse to |
| WaService.UnsetGroupsAbort | pkg/wa/wa.go:53-60 | an unset TG_MAIN_GROUPS splits into one empty item, which fails to parse before any instance is started |
| WaService.StartOne | pkg/wa/wa.go:57-77 | the item's failure, if any, leaves the instances unchanged; otherwise exactly one instance, fresh, registered under the parsed id with no seen clients and the point time, is added |
| WaService.StartAll | pkg/wa/wa.go:55-78 | stops at the first failing item and returns its error; the registered ids are exactly those of the items before it, each a fresh instance |
| WaService.NewErrorIntended | pkg/wa/wa.go:48-51 | as intended, only a failing item is an error, that item's own, and an unparseable point time is never one |
| WaService.NewErrorAsWritten | pkg/wa/wa.go:47-80 | as written, no error exactly when every item starts and WA_POINT_TIME parses; a failing item's error first, then the point time's parse error |
| WaService.UnsetPointTimeFailsNew | pkg/wa/wa.go:47-80 | with WA_POINT_TIME unset and one tenant that starts, the error as written is the point time's syntax error, where as intended there is none |
| WaService.New | pkg/wa/wa.go:44-81 | the loop of StartAll on the split TG_MAIN_GROUPS with the parsed point time (0 when unparseable); the error is NewErrorAsWritten's, so when every item starts an unparseable WA_POINT_TIME is still returned as an error; the partly built service is returned on failure |
| TgService.ToAPIMessage | pkg/tg/tg.go:97-106 | the relay's view of a Telegram message carries its chat id, sender user name, message id, date and forwarded message id |
| TgService.RetryDelay | pkg/tg/tg.go:116-131 | a structured error asks for a retry exactly when its text holds "Too Many Requests" and RetryAfter is non-zero, and then waits RetryAfter; a plain error asks for one only when it holds the retry prefix and the rest, trimmed, is a number, and then waits that number |
| TgService.BotSendSpec | pkg/tg/tg.go:108-140 | over a finite run of send outcomes, at most one wait per attempt |
| TgService.Delays | pkg/tg/tg.go:117-131 | the waits of the first k attempts, one per attempt, each the delay that attempt asked for |
| TgService.BotSendDecidedBy | pkg/tg/tg.go:112-139 | the first attempt that does not ask for a retry decides the result: a delivery is returned as sent, any other error is returned as it came from the send (the parse error is shadowed), after exactly the waits the earlier attempts asked for |
| TgService.DelaysShift | pkg/tg/tg.go:112-134 | the waits of a run are the first attempt's wait followed by the waits of the rest |
| TgService.ApiErrorWithoutDelayGivesUp | pkg/tg/tg.go:118-124 | a structured error with RetryAfter 0 is never retried, whatever its text |
| TgService.BotSend | pkg/tg/tg.go:108-140 | the retry loop ends with the outcome and the waits BotSendSpec gives |
| TgService.InstanceOf | pkg/wa/wa.go:102-105 | the running WhatsApp instance of a main group, present exactly when the group has one |
| TgService.IsMainGroup | pkg/tg/tg.go:153-160 | true exactly when the id is one of the configured main groups |
| TgService.IsMemberMainGroup | pkg/tg/tg.go:162-178 | true exactly when the member lookup succeeds and the status is member, creator or administrator |
| TgService.IsAuthorized | pkg/tg/tg.go:142-151 | true exactly when the sender is a member of at least one main group |
| TgService.RouteUpdate | pkg/tg/tg.go:184-205 | a callback goes to the callback handler when its message's sender is authorized and is dropped otherwise; a non-message update or an unauthorized sender is dropped; an authorized command goes to the command handler and any other authorized message to the text handler |
| TgCallbacks.StatCallback | pkg/tg/callbacks.go:11-31 | data with no second part asks for nothing, and any page asked for is non-zero and a 64-bit value |
| TgCallbacks.StatCallbackShapes | pkg/tg/callbacks.go:18-31 | only "refresh" and "get#" followed by text without '#' open a page; any other data opens none |
| TgCallbacks.RefreshIsFirstPage | pkg/tg/callbacks.go:20-21 | "refresh" asks for page 1 |
| TgCallbacks.GetParsedPage | pkg/tg/callbacks.go:22-30 | "get#N" with N a number asks for page N, and for nothing when N is 0 |
| TgCallbacks.GetUnparseableIgnored | pkg/tg/callbacks.go:22-30 | "get#N" with N not a number leaves the chunk at 0 and asks for nothing |
| TgCallbacks.FormatIntNoHash | pkg/tg/api.go:171-175 | the decimal text of a page number holds neither '#' nor '.' |
| TgCallbacks.PageDataSplits | pkg/tg/handlers.go:198-201 | a page button's data splits at its first '.' into "stat" and "get#N" |
| TgCallbacks.PageDataRoundTrip | pkg/tg/callbacks.go:18-30 | the data of the button for a non-zero page asks for exactly that page |
| TgCallbacks.RefreshDataRoundTrip | pkg/tg/api.go:173 | the refresh button's data routes to the stat callback and asks for page 1 |
| TgCallbacks.NavRowRoundTrip | pkg/tg/api.go:169-176 | every button of a page's navigation row asks for page 1, the previous page or the next page (the next page wraps at 64 bits as the Go int does) |
| TgApi.PageWindow | pkg/tg/api.go:145-151 | page N examines the item indices (N-1)*20 to N*20, both included: 21 indices per page |
| TgApi.UserTag | pkg/tg/api.go:163-166 | an empty user name shows as nothing, any other as "@" and the name |
| TgApi.StatLine | pkg/tg/api.go:159-167 | the line is, in order: a new line and " - ", the client's name, its short form in parentheses, " from [", the user tag, "]>", the date, ": ", the message count, ", ur: " and the unread count |
| TgApi.Lines | pkg/tg/api.go:152-167 | each item adds its line exactly when it is present and not a "@c.us" client, and nothing otherwise |
| TgApi.PageTextEmpty | pkg/tg/api.go:144-168 | the page is empty exactly when every line inside its window is empty |
| TgApi.PageEmptyIffNoneListed | pkg/tg/api.go:144-168 | a page is empty exactly when no listed item falls inside its window |
| TgApi.PageTextBeyond | pkg/tg/api.go:149-151 | lines past the window add nothing, so stopping the scan at the first one changes nothing |
| TgApi.BuildPage | pkg/tg/api.go:144-168 | the page loop, with its skip and its early stop, yields the page text of the window |
| TgApi.PageDataDistinct | pkg/tg/api.go:171-175 | different pages have different button data, and none equals the refresh button's |
| TgApi.NavRow | pkg/tg/api.go:169-176 | the row always holds the refresh button, holds the previous-page button exactly when the page is past the first and the next-page button exactly when there are items past the window; at most three buttons |
| TgApi.PinPlanTransitions | pkg/tg/api.go:191-215 | a live pin is edited when there is text and dropped when there is none; a new status message is sent when there is text and no live pin, including a pin the edit found gone; only the new message's id is saved, and it is pinned exactly when the save succeeds |
| TgApi.StopIsFinal | pkg/tg/api.go:133-187 | once a tenant stops the pass (the summary or the main group cannot be read, or the group is not stored) no later tenant changes anything |
| TgApi.MissingInstanceSkips | pkg/tg/api.go:139-143 | a tenant without a running WhatsApp instance is skipped and the pass goes on |
| TgApi.TenantStepSavesNewPin | pkg/tg/api.go:133-216 | a tenant's step changes the main-group table only by setting that tenant's row's pin to the id of the status message just sent, and that message is then pinned |
| TgApi.GroupPinSavesNewPin | pkg/tg/api.go:189-215 | the same, once the page and the stored main group are known |
| TgApi.ApplyPin | pkg/tg/api.go:189-215 | against the store, the tenant's pin step leaves the main-group table, the next key and the calls made as TenantGroupPin says, and the other tables unchanged |
| TgApi.UpdateTenant | pkg/tg/api.go:134-215 | one tenant of the pass against the store matches TenantStep |
| TgApi.PinTenant | pkg/tg/api.go:178-215 | the part after the page is built matches TenantPin |
| TgApi.UpdateStatMessage | pkg/tg/api.go:121-218 | the whole pass over the main groups leaves the store and the calls made as StatRun says, and the chats and messages unchanged |
| TgHandlers.ItemText | pkg/tg/handlers.go:36-48 | the recorded text by priority: a document's file name, "PHOTO", "AUDIO " and the title, "VIDEO " and the MIME type, "LOCATION", else the message text |
| TgHandlers.DispatchOf | pkg/tg/handlers.go:99-124 | the send by its own priority: audio, video sent as audio, location with nothing to fetch, the last photo size as a JPEG image, a document, else the recorded text |
| TgHandlers.ClassificationAndDispatchDisagree | pkg/tg/handlers.go:36-124 | a message with both a document and audio is recorded by the document's file name but sent as audio |
| TgHandlers.NewItem | pkg/tg/handlers.go:23-31 | the record starts with the message's Telegram chat, user, id, date and forwarded id, chatted, direction tg2wa, and the recorded text |
| TgHandlers.MainGroupAndEmptyIgnored | pkg/tg/handlers.go:19-52 | a message in a main group, or one whose recorded text is empty, is ignored: nothing fetched, sent, saved or said |
| TgHandlers.DuplicateIgnored | pkg/tg/handlers.go:73-75 | a message already stored under its Telegram id and chat is not sent again, and nothing is said |
| TgHandlers.UnboundChatNotJoined | pkg/tg/handlers.go:77-87 | a chat with no binding is told "Chat not join!" and nothing goes to WhatsApp |
| TgHandlers.SavedOnlyAfterSend | pkg/tg/handlers.go:97-145 | nothing is saved unless the WhatsApp send succeeded; a failed send saves nothing and is reported with the send's own error; nothing is saved without a send |
| TgHandlers.RelaySavesAfterSend | pkg/tg/handlers.go:97-144 | the same, once the binding and its instance are known |
| TgHandlers.SavedRecord | pkg/tg/handlers.go:132-140 | the saved record is chatted and tg2wa, carries the message's Telegram identity and recorded text, the provider's message id, the first binding's normalised client and session, and the tenant of its instance |
| TgHandlers.HandleTextMessage | pkg/tg/handlers.go:15-145 | against the store, the fetch, the send and the reply are those Outbound plans, the message table gains the saved record through SaveMessage and nothing else, the next key moves only when a new row is saved, and the chats and main groups are unchanged |
| TgHandlers.RouteCallback | pkg/tg/handlers.go:197-208 | the data's part before its first '.' picks the handler; "stat" gets the page StatCallback reads; an unknown part is answered "Callback data '...' not implement" |
| TgHandlers.NoDotNoPage | pkg/tg/handlers.go:198-201 | data with no '.' never asks for a page |
| TgHandlers.CommandName | pkg/tg/handlers.go:156-194 | an unknown command keeps its own word |
| TgHandlers.CommandFor | pkg/tg/handlers.go:156-194 | a word selects a handler exactly when it is one of the seventeen command words, and the handler's word is the word given |
| TgHandlers.CommandRoundTrip | pkg/tg/handlers.go:156-191 | every handler is reached by its own word |
| TgHandlers.UnknownCommandReply | pkg/tg/handlers.go:192-193 | an unknown command is answered with "Command '", the word itself and "' not implement" |
| TgCommandArgs.FindSubmatch | pkg/tg/commands.go:1047-1049 | each of the four patterns matches exactly the texts of its shape (no letter; non-letters then a letter and no line break; one token; two tokens around white space) and its groups are the parts of that shape, split at the first letter or the first run of white space as RE2's leftmost-first, greedy matching does |
| TgCommandArgs.LetterSplitUnique | pkg/tg/commands.go:1047 | the second pattern can split a text in one place only |
| TgCommandArgs.TokenSplitGreedy | pkg/tg/commands.go:1047 | the fourth pattern splits a text with white space at its first run of white space only |
| TgCommandArgs.ArgsOf | pkg/tg/commands.go:1045-1064 | the arguments are those of the first pattern that matches, in the order tried, and two empty texts when none does |
| TgCommandArgs.PrepareArgs | pkg/tg/commands.go:1045-1064 | the pattern loop, with its early break, returns ArgsOf of the text |
| TgCommandArgs.UnpunctuatedChars | pkg/tg/commands.go:1079-1082 | what is left holds no punctuation and every other character of the text |
| TgCommandArgs.RemovalsUnpunctuate | pkg/tg/commands.go:1068-1082 | removing the space, brackets, dash and plus one after another removes them all |
| TgCommandArgs.PrepareClient | pkg/tg/commands.go:1066-1084 | the client has no spaces; after spaces are dropped a group id (one dash between two 64-bit integers) is kept as it is, and anything else loses all its punctuation, every other character kept in order |
| TgCommandArgs.PrepareClientIdempotent | pkg/tg/commands.go:1066-1084 | normalising a normalised client changes nothing |
| TgCommandArgs.NumberThenWord | pkg/tg/commands.go:1047 | a letter-free text, a space and a word give the text with its space and the word |
| TgCommandArgs.WordThenWord | pkg/tg/commands.go:1047 | two words starting with a letter give the two words |
| TgCommandArgs.OneWord | pkg/tg/commands.go:1047 | one word starting with a letter gives the word and an empty second part |
| TgCommandArgs.PhoneNumber | pkg/tg/commands.go:1066-1084 | a written phone number, with or without a trailing space, becomes its digits unless it holds exactly one dash |
| TgCommandArgs.JoinArgs | pkg/tg/commands_test.go:49-50 | the client is prepareClient of the first argument and the main-group name is the second, as the table test composes them |
| TgCommandArgs.PhoneArgs | pkg/tg/commands_test.go:28-35 | a phone number alone, or followed by a main-group name, gives its digits and that name |
| TgCommandArgs.AliasArgs | pkg/tg/commands_test.go:36-37 | an alias alone, or followed by a main-group name, is passed on as it is |
| TgCommandArgs.DecimalsAreGroupID | pkg/tg/commands.go:1070-1076 | two numerals of at most 18 digits around a dash are a group id |
| TgCommandArgs.GroupID | pkg/tg/commands.go:1068-1076 | a group id, with or without a trailing space, is kept as it is |
| TgCommandArgs.GroupArgs | pkg/tg/commands_test.go:38-39 | a group id alone, or followed by a main-group name, is passed on as it is |
| TgCommandArgs.DecimalBelow | pkg/tg/commands.go:1072-1073 | a numeral of k digits is below 10^k, so one of at most 18 digits is a 64-bit value |
| TgCommandArgsTable.SpacedPhoneRows | pkg/tg/commands_test.go:28-32 | "+7(911) 113 59 00", alone and with " dubai", gives "79111135900" and the group name |
| TgCommandArgsTable.DashedPhoneRows | pkg/tg/commands_test.go:29-33 | "+7(911)113-59-00", alone and with " dubai", gives "79111135900" and the group name |
| TgCommandArgsTable.PlainPhoneRows | pkg/tg/commands_test.go:30-35 | "+79111135900" and "79111135900", alone and with " dubai", give "79111135900" and the group name |
| TgCommandArgsTable.AliasRows | pkg/tg/commands_test.go:36-37 | "artem" and "artem dubai" give "artem" and the group name |
| TgCommandArgsTable.GroupRows | pkg/tg/commands_test.go:38-39 | "13258-3698" and "13258-3698 dubai" give "13258-3698" and the group name |
| TgCommandArgs.SpacedPhone | pkg/tg/commands_test.go:28-32 | the spaced spelling "+A(B) C D E" of digit runs has no letter, no dash and the digits A to E once punctuation is dropped |
| TgCommandArgs.DashedPhone | pkg/tg/commands_test.go:29-33 | the dashed spelling "+A(B)C-D-E" has no letter, two dashes, so it is no group id, and the digits A to E |
| TgCommandArgs.PlainPhone | pkg/tg/commands_test.go:30-35 | "+N" and "N" for a numeral N have no letter, no dash and the digits N |
| TgCommands.SetOutcome | pkg/tg/commands.go:287-342 | a main group is saved exactly when the chat is a main group, the sender is its creator or an administrator and the trimmed, lower-cased name is not empty; the record holds only the chat id and that name; each refusal has its own reply, and "MainGroup Set: OK" comes exactly when the save succeeds |
| TgCommands.CommandSet | pkg/tg/commands.go:287-342 | against the store, the reply is SetOutcome's and the main-group table gains the record exactly when the reply is OK; the chats and messages are unchanged |
| TgCommands.SetForgetsPinAndLogger | pkg/tg/commands.go:331-334 | after a successful /set the chat's stored main group has the new name, and its pinned message and logger chat are reset to 0 |
| TgCommands.RePinedRecord | pkg/tg/commands.go:115-137 | a record is saved exactly when the chat is a main group, the lookup succeeds and the group is stored, and it is the stored group with MessagePin -1 |
| TgCommands.CommandRePined | pkg/tg/commands.go:105-141 | outside a main group only "Command work only 'Main group'" is replied; otherwise nothing is replied, the sentinel record is saved (its error ignored) and the status refreshed exactly when the group is stored |
| TgCommands.RePinedSendsNewStatus | pkg/tg/api.go:191-215 | after /repined the next status pass edits nothing for that group and sends a new status message exactly when its page has text |
| TgCommands.HistorySize | pkg/tg/commands.go:530-535 | the size asked for is the trimmed, lower-cased arguments as an integer, and 10 when they are not one |
| TgCommands.HistoryStartOf | pkg/tg/commands.go:504-535 | a store error, an unbound chat, an unparseable tenant id and a missing instance each end the command with its own reply; otherwise the history of the first binding's client is requested with HistorySize |
| TgCommands.HistoryReplyAsWritten | pkg/tg/commands.go:537-543 | as written, nothing is replied once the history is requested, whether or not it failed |
| TgCommands.HistoryReply | pkg/tg/commands.go:537-541 | as intended, a failed history request is replied with the client's name and id and the error, and a successful one with nothing |
| TgCommands.HistoryErrorIsDropped | pkg/tg/commands.go:537-543 | the two replies differ exactly when the history request failed |
| TgCommands.CommandHistory | pkg/tg/commands.go:481-544 | requests the history exactly when HistoryStartOf does, with its client and size, and replies as HistoryReplyAsWritten: nothing once the history is requested, even when it failed |
| TgLeave.StopFrom | pkg/tg/commands.go:998-1016 | from a position on, the pass over the bindings stops at the first one that cannot be left (its tenant id does not parse, its instance is not running, or the store's lookup fails), or at the end |
| TgLeave.StopAfter | pkg/tg/commands.go:998-1016 | a binding before the stop that can be left does not stop the pass |
| TgLeave.StopAt | pkg/tg/commands.go:998-1016 | the first binding that cannot be left is where the pass stops |
| TgLeave.LeftOf | pkg/tg/commands.go:999-1018 | a binding left is reported with its tenant, its client, the client's name in that tenant's instance and its short form |
| TgLeave.NoticesSnoc | pkg/tg/commands.go:1018-1019 | each binding left adds its notice to its tenant after those of the earlier ones |
| TgLeave.Closing | pkg/tg/commands.go:1023-1030 | after a complete pass a chat that is not a main group is renamed "H.W.Bot Free chat" and loses its photo; a main group is left as it is |
| TgLeave.LeaveOne | pkg/tg/commands.go:999-1016 | one binding fails exactly when it cannot be left, with that binding's reply and the chats unchanged; otherwise its row is deleted (when found and the delete works) and it is reported as LeftOf says; the other tables are unchanged |
| TgLeave.LeaveAll | pkg/tg/commands.go:997-1020 | the loop deletes the bindings in order up to the stop, and no further; it sends one notice per binding left, fails exactly when it stopped early, with the stopping binding's reply, and otherwise yields the header and one line per binding |
| TgLeave.CommandLeave | pkg/tg/commands.go:967-1031 | a lookup error is replied and changes nothing; otherwise the bindings up to the stop are deleted, the reply is the stopping binding's failure or the full list, and only a complete pass renames and clears the chat |
| TgLeave.StopResolves | pkg/tg/commands.go:998-1009 | every binding before the stop has a parsed tenant id and a running instance |
| TgLeave.NoticesSendEach | pkg/tg/commands.go:1018-1019 | the k-th notice goes to the k-th binding's tenant and says that the user left that client's chat |
| TgLeave.AfterDeleteKeepsValid | pkg/store/api.go:154-167 | deleting a binding keeps the chat table well formed: fresh keys, and one row per client |
| TgLeave.AfterDeleteRemoves | pkg/store/api.go:154-167 | after a delete that works the binding's (client, tenant) pair is no longer stored |
| TgLeave.AfterDeleteKeepsAbsent | pkg/store/api.go:154-167 | a pair that was not stored is still not stored after a delete |
| TgLeave.LeaveKeepsValid | pkg/tg/commands.go:998-1016 | the whole pass keeps the chat table well formed |
| TgLeave.LeaveDeletes | pkg/tg/commands.go:998-1016 | every binding the pass got past is no longer stored, when the store's deletes work |
| TgLeave.LeaveKeepsOthers | pkg/tg/commands.go:998-1016 | a row that is none of the bindings the pass got past stays in the table |
| TgJoin.JoinRequest | pkg/tg/commands.go:772-809 | the request goes on exactly when the chat is not a main group, the normalised client is neither empty nor "all" and the aliases can be read; each refusal has its own reply, checked in the command's order |
| TgJoin.MembersInPrefix | pkg/tg/commands.go:838-848 | scanning more main groups only extends the list of groups the sender belongs to |
| TgJoin.MembersInExact | pkg/tg/commands.go:838-848 | the groups found among the first n are exactly those of them the sender belongs to |
| TgJoin.MemberGroupsExact | pkg/tg/commands.go:838-848 | the sender's groups are exactly the main groups it belongs to, and there are none exactly when it is not authorized |
| TgJoin.PickMainGroup | pkg/tg/commands.go:837-848 | the scan refuses exactly when the sender belongs to two or more main groups, and otherwise picks the only one, or 0 when there is none |
| TgJoin.AliasTenant | pkg/tg/commands.go:811-817 | the tenant is the only alias's tenant when the sender belongs to it, and 0 otherwise |
| TgJoin.TenantOf | pkg/tg/commands.go:811-849 | an alias the sender belongs to decides and a given name is then ignored; otherwise a named main group must be readable, stored and have the sender as a member; otherwise the sender's single group decides, and two or more are refused |
| TgJoin.ResolveTenant | pkg/tg/commands.go:811-849 | the resolution against the store yields TenantOf of the alias tenant, the name's lookup and the sender's groups |
| TgJoin.LastAlias | pkg/tg/commands.go:859-863 | the last alias under the tenant among the first n, and none exactly when no alias is under it |
| TgJoin.FallbackClient | pkg/tg/commands.go:857-864 | the loop leaves the client of the last alias under the tenant, and the client unchanged when there is none |
| TgJoin.Resolve | pkg/tg/commands.go:851-869 | a missing instance and a client the instance does not know (other than "check") are refused; otherwise the target is the tenant, its instance and a client it knows, after the alias fallback |
| TgJoin.BoundChat | pkg/tg/commands.go:873-878 | the binding holds the instance's id, the client's JID, the chat and the joiner's user name, and no session |
| TgJoin.BindFailure | pkg/tg/commands.go:880-898 | binding goes on exactly when the chat has no binding yet and the save works; a bound chat is told which client it is already joined to |
| TgJoin.Bind | pkg/tg/commands.go:880-898 | against the store, a refusal saves nothing, and otherwise the chat table gains BoundChat through SaveChat; the messages and main groups are unchanged |
| TgJoin.Replayed | pkg/tg/commands.go:946-955 | a replayed message is chatted and carries the joiner's name; its Telegram ids come from the transfer when that returned a chat and are kept otherwise; nothing else changes |
| TgJoin.ReplayEffects | pkg/tg/commands.go:933-944 | each buffered message is marked read, transferred and its old Telegram copy deleted: three calls per message |
| TgJoin.Replay | pkg/tg/commands.go:933-961 | the loop makes ReplayEffects' calls and saves every replayed message once, in order, when saving works, and changes no table when it does not; chats and main groups are unchanged |
| TgJoin.JoinTarget | pkg/tg/commands.go:871-963 | against the store, the reply, the calls and the new tables are those Joined gives for the bindings and the buffered messages found at the start |
| TgJoin.CommandJoin | pkg/tg/commands.go:759-965 | a request refused before the store is written replies and changes nothing; otherwise the command behaves as JoinTarget for the resolved target |
| TgJoin.ReplaysKeepIds | pkg/tg/commands.go:946-955 | replaying keeps every message's WhatsApp id, so distinct ids stay distinct |
| TgJoin.SavedAllKeepsUnique | pkg/store/api.go:9-27 | saving the replayed messages keeps at most one row per WhatsApp id |
| TgJoin.SavedAllStores | pkg/tg/commands.go:957 | after the saves each replayed message is found under its own key |
| TgJoin.ReplayStoresEach | pkg/tg/commands.go:933-961 | every buffered message ends stored once as its replayed form: chatted, with the joiner's user name |
| TgJoin.JoinRefusedKeepsTables | pkg/tg/commands.go:880-898 | a chat that is already bound, or a store error, saves no binding, replays nothing and calls nothing, and a bound chat is told which client it is joined to |
| TgJoin.JoinBindsClient | pkg/tg/commands.go:873-906 | an unbound chat gets the binding, it is the only row of that client, and the tenant is notified and the chat renamed first |
| TgJoin.JoinReplaysBuffer | pkg/tg/commands.go:926-964 | with a working store the reply is "Join '...' OK", the calls are the welcome, the replay and the status refresh, and every buffered message is stored as its replayed form |

## Left out

- I/O and foreign calls are inputs or recorded effects: the Telegram bot API, the WhatsApp connection, HTTP downloads (`getFileResponse`, `getPhotoByte`), gob session files, QR encoding and profile-picture JSON.
- Time: sleeps are recorded as waits (`BotSend`) or as the 30-second wait of `HandleError`. Dates are text the caller supplies, and `CommandStat`'s date parsing is not modelled.
- Concurrency: the `go` dispatch in `mainLoop` and the QR goroutine of `loginSession`. Only the routing decision and the sequential outcome are modelled, and the goroutine's write of the shared `err` is not.
- Floating point: location coordinates are not modelled; a location is a payload without data.
- `CommandStatus` is not modelled, because it iterates a Go map in an unspecified order. `GetStatOnPeriod` is a stub that returns nil. The other commands (`/login`, `/logout`, `/sync`, `/check_client`, `/alias`, `/contact`, `/set_logger`, `/stat`, `/restart`, `/autoreplay`) are reached by the dispatch but their bodies are not modelled.
- Chat photos: `GetContactPhoto`/`SetChatPhoto` in `/join` are not modelled. The photo dropped by `/leave` is recorded as an effect.
- `GetAliasesByName`, `GetNotChatted` and `deletePin` are not defined in the revision modelled: their results are inputs, and `deletePin` is the `DeletePin` effect, leaving the main group unchanged.
- The store's gorm internals (connection, migrations, reflection copies, soft delete as a flag) are not modelled; a deleted row is removed. gorm's rule that a zero field drops out of a query condition is replaced by preconditions that keys are non-empty and non-zero.
- `TgJoin.Replay`: requires that a transfer that returned a chat returned non-zero ids (`SentIds`), as Telegram does, so that every replayed message keeps a usable key.
- Store failures apply to a kind of operation for the whole command, not to single calls, so a path where one call of a kind fails after another of the same kind succeeded is not reached inside a command. `LeaveOne` and `Replay` model those branches on their own; the next two lines name what the commands then do not cover.
- TgLeave.CommandLeave: the per-binding failure reply of pkg/tg/commands.go:1010-1014 needs `DeleteChat`'s lookup to fail after `GetChatsByChatID` read the same table, which cannot happen in the model, because both use the chat table's lookup.
- TgJoin.CommandJoin: a replay whose saves fail for only some messages (pkg/tg/commands.go:957-960) cannot happen in the model; the saves all work or all fail.
- `TgJoin.CommandJoin`, `TgLeave.CommandLeave`, `TgCommands.CommandSet` and the other command methods: require a non-zero chat id, as every Telegram update has.
- `TgHandlers.HandleTextMessage`: requires a non-zero message id and chat id, the Telegram key under which the record is saved.
- `TgLeave.NoticesSendEach` follows from the definition of `Notices`, so its proof has no steps.
- `GoStrings.ToLower` lower-cases ASCII letters only, and string lengths count characters, not bytes.
- The checks that the store, WhatsApp and Telegram modules are registered in the context (`appCtx.FromDB`, `FromWA`, `FromTG`) are not modelled; every module is taken to be ready.
- The forwarded-from chat id (`TGFwdChatID`, pkg/tg/handlers.go:32-34) is not a field of the modelled message record.
- Inbound messages keep `Chatted` unset, as pkg/wa/handlers.go:47-60 is written, whereas the documented behaviour of the bridge marks them "no" or "yes". The code is followed. The model keeps "unset" distinct from "no", because the values of `api.ChattedYes` and `api.ChattedNo` are not part of the revision modelled.
- Unbound inbound messages go to Telegram chat 0, the zero value the code leaves when no binding is found (pkg/wa/handlers.go:87-106), and not to the tenant's main group that the documented behaviour of the bridge names.
- `SaveChat` upserts by WhatsApp client alone (pkg/store/api.go:29-44), so one Telegram chat can hold several bindings; the model follows the code rather than the documented behaviour of the bridge, which has the Telegram chat side unique.
- Calls whose arity does not match the callee in the revision modelled: `UpdateStatMessage()` without a page (pkg/tg/commands.go:140, 964), `CommandJoin(update, "", "")` (pkg/tg/handlers.go:167), `handleMessage(m, false)` (pkg/wa/api.go:340) and `GetChatByClient` with one argument (pkg/wa/handlers.go:87). Each function is modelled as its body is written, with the tenant and the flags as explicit parameters; the refresh after `/join` and `/repined` is an effect.
- api/api.go's interfaces are out of date with their callers and are not modelled; the records follow pkg/store/store.go.

## Findings

The operations `Login`, `New` and `CommandHistory` follow the code as written. For each finding a corrected member states what the code evidently intends, and a lemma shows where the two differ.

| source | as written | input that shows it | evidently intended | confidence | as-written member | corrected member |
|---|---|---|---|---|---|---|
| pkg/wa/handlers.go:153-154 | the type assertion `e, ok := err.(*ErrConnectionFailed)` fails for `ErrInvalidWsData`, so `e` is nil and `e.Err` dereferences nil | `HandleError(ErrInvalidWsData)` | log the error and reconnect, as for a connection failure | not executed | WaHandlers.HandleErrorAsWrittenPanics | WaHandlers.HandleError |
| pkg/wa/wa.go:201-208 | `err` from `conn.Login` is overwritten by the result of deleting the QR post | `Login` fails after the QR code was posted, and deleting the post succeeds; `login` then succeeds (`FullLoginSucceedsOnMaskedFailure`) | report the login failure | not executed | WaService.LoginSessionAsWrittenMasksFailure | WaService.LoginSession |
| pkg/wa/wa.go:47-80 | `pointTime, err :=` assigns the named result `err`, the loop's `id, err :=` hides it only inside the loop, and the bare `return` returns the point time's parse error | `New` with WA_POINT_TIME unset and every tenant starting | an unparseable point time means 0 and `New` succeeds | not executed | WaService.UnsetPointTimeFailsNew | WaService.NewErrorIntended |
| pkg/tg/commands.go:537-543 | the reply text set for a failed `GetHistory` is cleared on the next line | `/history` in a bound chat whose instance's `GetHistory` returns an error | reply with the failure | not executed | TgCommands.HistoryErrorIsDropped | TgCommands.HistoryReply |
