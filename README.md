# Indar event relay — a Dafny model

Indar takes events from client applications and forwards them to
delivery channels:

- A client posts an event to the ingestion endpoint, authenticated by a project's API key.
- The server stores the event.
- It selects the channels whose rules match the event's category (its `channel` field).
- It sends the event to each of those channels once, by email or by Telegram.
- It records every attempt in a notification ledger, ending as `sent` or `failed`.

Around this pipeline sit the owner-scoped dashboard handlers for projects, API keys, channels, rules, events and notifications, plus the client's hash router.

This project models that core and proves what its code promises:

- **Tables.** The SQLite store is a class `Db.Database` holding one map from id to row per application table. Its invariant `Valid()` is the schema's foreign keys, its UNIQUE constraints and fresh-id bookkeeping. It also holds one application invariant that the schema does not enforce: an event's API key belongs to the event's project. Ingestion keeps it, because the event takes its project from its key. Deleting a project relies on it: the cascade removes the project's keys and events together, so SQLite's foreign key on `event.apiKeyId` never refuses that delete. Each SQL statement is a method, and the deletes carry out the schema's ON DELETE CASCADE clauses.
- **Handlers.** Every HTTP handler is a method over the database. It returns a `(status, body)` pair, with the defaults of `jsonResponse` (200) and `errorResponse` (400).
- **Dispatch.** `Dispatch.DispatchNotifications` is proved against the predicate `Dispatch.Recorded`. For each matched channel, first seen first, the ledger gains exactly one row under a fresh id. That row is finalised from the sender's outcome, and no older row changes.
- **Pure parts.** Markdown escaping, message and subject composition, key generation, de-duplication in first-seen order, and newest-first pagination are functions. Lemmas state their round trips and characterisations.
- **Services.** JSON parsing and printing, the e-mail provider and the Telegram Bot API are function values held in `Dispatch.Env`. The session is an `Option<UserId>`, the clock a `now` parameter, and the random UUID of a new key a string parameter. New row ids come from the counter `nextId`.

The model follows the code wherever the two differ, for example:

- An API key still referenced by an event cannot be deleted. The schema declares no ON DELETE action for `event.apiKeyId`, so SQLite refuses the DELETE and `deleteKey` fails with an uncaught error (a 500).
- A config that is not valid JSON makes the channel `test` endpoint throw before its `try`, so that also answers 500.

## Model

| member | source | states |
|---|---|---|
| Db.CreateIfNotExists | src/server/db.ts:9-142 | every table and index of the schema exists afterwards, and nothing else is added |
| Db.Database.InitializeDatabase | src/server/db.ts:9-142 | the schema objects become `CreateIfNotExists` of those present; no row changes |
| Db.Database.constructor | src/server/db.ts:3 | a fresh database is empty and satisfies the schema invariant |
| Db.Database.FreshId | src/server/db.ts:64 | the id handed out is used by no row of any table |
| Db.Database.InsertProject | src/server/db.ts:63-71 | exactly one project row is added; the invariant is kept |
| Db.Database.UpdateProject | src/server/db.ts:63-71 | only name, description and updatedAt of that row change |
| Db.Restrict | src/server/db.ts:80-128 | a cascading delete leaves exactly the rows its condition admits, each unchanged (used for the keys, events and rules of a project, the rules and notifications of a channel, and the notifications of deleted events) |
| Db.ProjectCascadeKeepsForeignKeys | src/server/db.ts:80-128 | deleting a project with everything that cascades from it leaves no dangling foreign key |
| Db.Database.DeleteProject | src/server/db.ts:80-127 | the project goes, and with it its keys, events, rules and the notifications of those events; the invariant is kept |
| Db.Database.InsertApiKey | src/server/db.ts:76-77 | UNIQUE(key): inserted exactly when no row holds the key text, else nothing changes |
| Db.Database.TouchApiKey | src/server/lib/api-key.ts:24-27 | only that key's lastUsedAt changes, to `now` |
| Db.Database.DeleteApiKey | src/server/db.ts:106 | refused, with nothing changed, exactly when some event still refers to the key |
| Db.Database.InsertChannel | src/server/db.ts:83-93 | one channel row is added, with `enabled` at its default 1 |
| Db.Database.UpdateChannel | src/server/db.ts:83-93 | only name, config, enabled and updatedAt of that row change |
| Db.Database.DeleteChannel | src/server/db.ts:118-128 | the channel goes, with its rules and its notifications |
| Db.Database.InsertEvent | src/server/db.ts:95-107 | one event row is added under its own id |
| Db.Database.InsertPending | src/server/services/notification.ts:47-49 | one `pending` notification row is added, with no error and no sentAt |
| Db.Database.MarkSent | src/server/services/notification.ts:60-62 | only that row changes: status `sent` and sentAt `now` |
| Db.Database.MarkFailed | src/server/services/notification.ts:66-68 | only that row changes: status `failed` and the error text |
| Db.Database.InsertRule | src/server/db.ts:121-130 | UNIQUE(projectId, channelId, eventCategory): inserted exactly when the triple is new, else nothing changes |
| Db.Database.DeleteRule | src/server/routes/rules.ts:102 | exactly that rule is removed |
| Records.ParseChannelType | src/server/routes/channels.ts:30 | only "email" and "telegram" are channel types |
| Records.MetadataText | src/server/services/email.ts:9 | an absent (empty) metadata text is read as "{}"; any other is passed on unchanged |
| ApiKeys.GenerateApiKey | src/server/lib/api-key.ts:4-7 | the key starts with "indar_sk_" and after it holds exactly the UUID's characters other than `-` |
| ApiKeys.GeneratedKeyShape | src/server/lib/api-key.ts:4-7 | for a UUID in 8-4-4-4-12 text form the key is the prefix plus the 32 hex digits |
| ApiKeys.GeneratedKeysDiffer | src/server/lib/api-key.ts:4-7 | different UUIDs give different keys |
| ApiKeys.UuidFromDigits | src/server/lib/api-key.ts:5 | removing the hyphens loses nothing: the UUID text is its digits re-hyphenated |
| ApiKeys.ValidateApiKey | src/server/lib/api-key.ts:9-47 | null exactly when no row holds the key, and then nothing changes; otherwise the key row as read before the touch, its owning project, and only that row's lastUsedAt set to `now` |
| FirstSeen.DedupFromDistinct | src/server/services/notification.ts:36-41 | kept elements have pairwise different keys |
| FirstSeen.DedupFromSubset | src/server/services/notification.ts:36-41 | kept elements come from the input |
| FirstSeen.DedupFromKeys | src/server/services/notification.ts:36-41 | the set of keys is unchanged by de-duplication |
| FirstSeen.DedupFromFirst | src/server/services/notification.ts:36-41 | each kept element is the first with its key, and the kept elements keep their relative order |
| FirstSeen.DedupCharacterised | src/server/services/notification.ts:35-41 | the three facts above for a walk starting with an empty `seen` set |
| Dispatch.SelectRules | src/server/services/notification.ts:24-33 | the rows returned are exactly the project's rules with category `*` or the event's whose channel is enabled, each joined with its channel |
| Dispatch.SelectedChannels | src/server/services/notification.ts:24-33 | a channel is selected iff some rule of the project with category `*` or the event's names it and the channel has enabled = 1 |
| Dispatch.Deduplicate | src/server/services/notification.ts:35-41 | the `seen`-set filter yields the first row per channel id, in order |
| Dispatch.UniqueChannels | src/server/services/notification.ts:35-41 | after de-duplication channels are pairwise different, every matched channel is kept, and nothing new appears |
| Dispatch.Finalised | src/server/services/notification.ts:60-68 | the final row is terminal: `sent` with sentAt and no error iff the sender completed, otherwise `failed` with the error text |
| Dispatch.DeliverOne | src/server/services/notification.ts:44-69 | one fresh id; the pending row is overwritten by its final state; no other row changes |
| Dispatch.RecordedStep | src/server/services/notification.ts:43-70 | one more delivered channel extends the ledger record by exactly its row |
| Dispatch.RecordedRows | src/server/services/notification.ts:47-69 | every row created is terminal, belongs to the event and to its channel, and is `sent` iff that channel's delivery completed |
| Dispatch.DeliverNext | src/server/services/notification.ts:43-70 | one turn of the loop keeps the invariant and the record of earlier turns |
| Dispatch.DeliverAll | src/server/services/notification.ts:43-70 | one new row per de-duplicated channel, in order, under distinct fresh ids; a failure only marks its own row; rows present before are untouched |
| Dispatch.DispatchNotifications | src/server/services/notification.ts:19-71 | selection, then de-duplication, then one recorded delivery per unique channel; only the notification table (and the id counter) changes |
| Dispatch.ChannelsCarriedOver | src/server/services/notification.ts:43-49 | rows created for pairwise different channels name pairwise different channels |
| Dispatch.DispatchOneRowPerChannel | src/server/services/notification.ts:43-69 | after a dispatch every matched channel has exactly one new terminal row for the event, and no other channel has one |
| Telegram.Escape | src/server/services/telegram.ts:3-5 | the length grows by the number of reserved characters; a reserved character gets a backslash before it, any other is copied |
| Telegram.UnescapeEscape | src/server/services/telegram.ts:3-5 | dropping each escaping backslash recovers the input |
| Telegram.EscapeIsWellEscaped | src/server/services/telegram.ts:3-5 | every reserved character of the output is escaped and every backslash escapes one |
| Telegram.EscapeUnescape | src/server/services/telegram.ts:3-5 | on well-escaped text, escaping undoes unescaping |
| Telegram.MessageLines | src/server/services/telegram.ts:11-23 | line 1 is `*title*`, line 2 is `_category_`; a blank line and the description are added iff it is non-empty; a blank line and the json fence iff the metadata has keys |
| Telegram.HeaderRoundTrip | src/server/services/telegram.ts:11-14 | title and category can be read back from the first two lines |
| Telegram.MessageText | src/server/services/telegram.ts:11-32 | the lines joined with "\n", or the error JSON.parse or Object.keys throws on the metadata |
| Telegram.DescriptionOr | src/server/services/telegram.ts:40 | a non-empty description, else the fallback |
| Telegram.SendResult | src/server/services/telegram.ts:38-41 | completes iff `ok`; otherwise throws the description or "Telegram API error" |
| Telegram.SendTelegramCompletes | src/server/services/telegram.ts:7-42 | the send completes iff the message can be built and the API accepts the request carrying the configured token and chat |
| Telegram.GetMeResult | src/server/services/telegram.ts:56-63 | ok with a result gives `{username, firstName}`; anything else fails with the description or "Invalid bot token" |
| Telegram.ChatName | src/server/services/telegram.ts:97 | title, else first_name, else the chat id |
| Telegram.Summaries | src/server/services/telegram.ts:95-99 | one summary per chat, position by position |
| Telegram.ChatsOfStep | src/server/services/telegram.ts:90-92 | an update without a message contributes no chat |
| Telegram.CollectChats | src/server/services/telegram.ts:85-104 | the loop filling `chatsMap` yields `ChatList`: the chats of the updates, first seen per id |
| Telegram.GetBotUpdates | src/server/services/telegram.ts:66-105 | `[]` when the reply is not ok or has no result; otherwise the chat list; a failed call is passed on |
| Telegram.ChatListDistinct | src/server/services/telegram.ts:85-104 | no two entries of the chat list share a chat id |
| Telegram.ChatListComplete | src/server/services/telegram.ts:85-104 | every chat id among the updates has an entry |
| Telegram.ChatListFirst | src/server/services/telegram.ts:85-104 | each entry summarises the first chat seen with its id |
| Telegram.ChatListCharacterised | src/server/services/telegram.ts:85-104 | one entry per distinct chat id, each the first chat seen with that id, none missing |
| Email.SubjectDetermines | src/server/services/email.ts:18 | the subject `[category] title` determines category and title when the category holds no `]` |
| Email.SubjectLayout | src/server/services/email.ts:18 | the category sits between the brackets of the subject |
| Email.DescriptionHtml | src/server/services/email.ts:23 | the description paragraph is present iff the description is non-empty |
| Email.MetadataHtml | src/server/services/email.ts:11-13 | the `<pre>` block is present iff the parsed metadata has at least one key |
| Email.HtmlShows | src/server/services/email.ts:19-26 | the body contains the title, the info line, and the description and metadata blocks when present |
| Email.Compose | src/server/services/email.ts:15-27 | from and to are the config's fromEmail and toEmail, and the subject and body are the templates |
| Email.SendEmailResult | src/server/services/email.ts:29-31 | once the metadata is read, the send completes iff the provider reports no error; a reported error is thrown with its message |
| Query.InsertNewestFirst | src/server/routes/events.ts:87 | inserting one id keeps the listing ordered by createdAt descending, with the same elements plus the new one |
| Query.OrderNewestFirst | src/server/routes/events.ts:87 | the selected ids, each once, ordered by createdAt descending |
| Query.Rows | src/server/routes/events.ts:85-89 | the rows behind the ids, in the same order |
| Query.Window | src/server/routes/events.ts:87 | LIMIT/OFFSET: the rows from the offset on, taken consecutively; exactly `limit` of them, or all remaining when fewer remain or `limit` is negative |
| Query.ConsecutivePages | src/server/routes/events.ts:87 | two consecutive pages of size `limit` make up the page of size `2 * limit` |
| Query.EnumeratesCount | src/server/routes/events.ts:91-93 | a listing of a selection has as many rows as the selection, so the count is the listing's length |
| Query.Where | src/server/routes/events.ts:85-93 | a WHERE clause selects exactly the ids of the rows its condition admits (used for the caller's projects and channels and for a project's keys, events, rules and notifications) |
| Query.Stamps | src/server/routes/events.ts:87 | the createdAt of each row |
| Query.ListingContents | src/server/routes/projects.ts:11-14 | a listing holds each selected row exactly once, nothing else, newest first |
| Query.ListNewestFirst | src/server/routes/projects.ts:11-14 | the query's answer is a newest-first listing of the selection |
| Query.PageContents | src/server/routes/notifications.ts:23-47 | a page holds at most `limit` selected rows, newest first, non-empty while rows remain, and `total` counts the whole selection |
| Query.PageNewestFirst | src/server/routes/notifications.ts:23-47 | the page of the listing at limit/offset, with the count of the selection |
| Events.Token | src/server/routes/events.ts:15 | the header is "Bearer " followed by the token |
| Events.Normalise | src/server/routes/events.ts:34-44 | ids from the key; trimmed non-blank title; trimmed category or "default"; trimmed description or ""; icon or null; serialised metadata or "{}" |
| Events.KeyWithText | src/server/lib/api-key.ts:12-20 | the row holding the key text |
| Events.Ingest | src/server/routes/events.ts:9-65 | 401 and no change without a bearer header or with an unknown key; the key is touched even when a blank title gives 400; otherwise the normalised event is stored, then dispatched, and 201 returns its id |
| Events.Accept | src/server/routes/events.ts:33-64 | a valid key and title: the event is stored under a fresh id and dispatched, and 201 returns its id |
| Events.StoreAndDispatch | src/server/routes/events.ts:46-64 | the event row exists before dispatch, and the answer is 201 whatever the deliveries did |
| Events.ListByProject | src/server/routes/events.ts:68-96 | 401 without a session; 404 unless the caller owns the project; otherwise a newest-first page (limit 50, offset 0 by default) and the total count |
| Events.NotificationsOfEvent | src/server/routes/events.ts:114-122 | exactly the event's notifications that join with their channel |
| Events.Get | src/server/routes/events.ts:98-125 | 404 unless the event's project is the caller's; otherwise the event with its notifications newest first |
| Projects.List | src/server/routes/projects.ts:7-15 | the caller's projects, newest first |
| Projects.Create | src/server/routes/projects.ts:17-34 | a blank name gives 400 and stores nothing; otherwise one project with trimmed name and trimmed description or "", and 201 |
| Projects.Get | src/server/routes/projects.ts:36-48 | the project if the caller owns it, else 404 |
| Projects.MergeProject | src/server/routes/projects.ts:63-69 | a non-blank new name is replaced by its trim, a missing or blank one keeps the old name; a given description becomes its trim, even when empty; an absent one keeps the old; updatedAt is `now`, nothing else changes |
| Projects.MergeProjectIdempotent | src/server/routes/projects.ts:63-69 | applying the same patch twice equals applying it once |
| Projects.Update | src/server/routes/projects.ts:50-73 | 401 without a session; 404 and no change unless the caller owns the project; otherwise only that row changes, to the merge (new name trimmed when non-blank, description trimmed when given), and the new row is returned |
| Projects.Delete | src/server/routes/projects.ts:75-89 | 404 and no change unless owned; otherwise the project and everything that cascades from it go |
| Projects.ListKeys | src/server/routes/projects.ts:92-110 | 404 unless owned; otherwise the project's keys, newest first |
| Projects.CreateKey | src/server/routes/projects.ts:112-135 | 404 unless owned; otherwise one key with the generated text and the trimmed name or "Default", and 201; a taken key text throws |
| Projects.DeleteKey | src/server/routes/projects.ts:137-159 | 404 unless the key belongs to the caller's project; otherwise exactly that key goes, unless an event refers to it and the delete throws |
| Channels.List | src/server/routes/channels.ts:9-17 | the caller's channels, newest first |
| Channels.Validate | src/server/routes/channels.ts:29-32 | blank name, then bad type, then missing config, each checked only once the earlier ones passed |
| Channels.Create | src/server/routes/channels.ts:19-41 | a refused body stores nothing and gives 400 with the first failing check's message; otherwise one channel with trimmed name, serialised config and enabled 1, and 201 |
| Channels.Get | src/server/routes/channels.ts:43-55 | the channel if the caller owns it, else 404 |
| Channels.MergeChannel | src/server/routes/channels.ts:74-81 | a non-blank name becomes its trim; a truthy config becomes its serialisation; a given `enabled` becomes 1 if truthy, else 0; anything else keeps the old value; type, owner and createdAt never change |
| Channels.MergeChannelIdempotent | src/server/routes/channels.ts:74-81 | applying the same patch twice equals applying it once |
| Channels.Update | src/server/routes/channels.ts:57-85 | 401 without a session; 404 and no change unless owned; otherwise only that row changes, to the merge (trimmed name, serialised config, `enabled` as 1 or 0), and the new row is returned |
| Channels.Delete | src/server/routes/channels.ts:87-101 | 404 and no change unless owned; otherwise the channel, its rules and its notifications go |
| Channels.TestEvent | src/server/routes/channels.ts:117-127 | category "test", metadata "{}", no icon, the fixed title and description |
| Channels.TestSendIsDelivery | src/server/routes/channels.ts:129-134 | a test send is the delivery the dispatcher would make to the same channel |
| Channels.Test | src/server/routes/channels.ts:103-140 | 404 unless owned; a config that does not parse is an uncaught error; otherwise a direct send with no rule and no ledger row; success or 500 "Test failed: <message>" |
| Channels.TelegramValidate | src/server/routes/channels.ts:142-157 | 400 "Bot token is required" for a blank token; otherwise getMe on the trimmed token, its bot or its error message |
| Channels.TelegramGetUpdates | src/server/routes/channels.ts:159-174 | 400 for a blank token; otherwise the chats seen with the trimmed token, or the error message |
| Rules.ChannelJoinKeepsEveryRule | src/server/routes/rules.ts:20-26 | under the schema's foreign keys the channel join drops no rule: the listed rules are exactly the project's |
| Rules.List | src/server/routes/rules.ts:6-34 | 404 unless owned; otherwise the project's rules that join with their channel, newest first |
| Rules.Create | src/server/routes/rules.ts:36-77 | project checked before channel (404 each, nothing inserted); category trimmed or `*`; an existing triple gives 409 and no change; otherwise one new rule and 201 |
| Rules.Delete | src/server/routes/rules.ts:79-104 | 404 unless the rule belongs to the caller's project; otherwise exactly that rule goes |
| Notifications.JoinsKeepEveryRow | src/server/routes/notifications.ts:23-47 | the listed rows (joined with channel and event) are among the counted rows (joined with event only); under the schema's foreign keys the two selections are equal |
| Notifications.ListByProject | src/server/routes/notifications.ts:6-50 | 404 unless owned; otherwise a newest-first page (limit 50, offset 0 by default) of the deliveries joined with channel and event, and as total the count of those joined with their event only; on a valid store the total counts the paged selection |
| Notifications.Get | src/server/routes/notifications.ts:52-73 | 404 unless the notification's event's project is the caller's; otherwise the row; nothing changes |
| Router.Segments | src/lib/router.tsx:23 | every segment is non-empty and free of `/` |
| Router.SegmentsJoin | src/lib/router.tsx:23 | a path written as `/` and then non-empty, slash-free segments joined by `/` splits into exactly those segments, in order |
| Text.SplitJoin | src/lib/router.tsx:23 | joining pieces that do not contain the separator and splitting again gives the pieces back |
| Text.NonEmpty | src/lib/router.tsx:23 | `filter(Boolean)`: only non-empty pieces, every non-empty piece, no longer than the input, and the identity on pieces that are all non-empty |
| Text.NonEmptyAppend | src/lib/router.tsx:23 | the filter keeps order: filtering a concatenation concatenates the filtered parts |
| Text.NonEmptySingle | src/lib/router.tsx:23 | one piece is kept exactly when it is non-empty |
| Router.GetRoute | src/lib/router.tsx:21-27 | the path is the hash without `#`, or "/dashboard" when that is empty; parts are its segments |
| Router.BindingsStep | src/lib/router.tsx:33-39 | one more segment adds its binding, if it is a `:name` segment |
| Router.MatchSegments | src/lib/router.tsx:29-40 | null on different segment counts or on a differing literal segment; otherwise the bindings |
| Router.Matches | src/lib/router.tsx:28-41 | `route.matches(pattern)` is `Match` of the pattern's segments and the route's |
| Router.BindingsKeys | src/lib/router.tsx:32-40 | the names bound are exactly those of the pattern's `:name` segments |
| Router.BindingsValues | src/lib/router.tsx:32-40 | each name is bound to the path segment under its last occurrence |
| Router.LiteralPattern | src/lib/router.tsx:29-40 | an all-literal pattern matches only the same segments, and then with an empty map, not null |
| Router.ActiveBelow | src/lib/router.tsx:57 | a link is active on its own path and on every path below it |
| Router.InactiveOnSibling | src/lib/router.tsx:57 | a link is not active on a sibling path that merely extends its name |

## Left out

- Sessions: the session check is a parameter `Option<UserId>`. `None` gives 401 "Unauthorized". The auth library itself is not part of this model.
- Request parsing:
  - Bodies arrive as already-parsed records whose fields may be absent. A failing `req.json()` is not modelled.
  - Ids arrive as parameters, so extracting them from the URL path is not modelled.
- Query parameters: `limit` and `offset` arrive as already-parsed `Option<int>`, absent when missing or empty. `parseInt` and its NaN case are not modelled.
- Joined display columns: `channelName`, `channelType`, `eventTitle`, `eventCategory` and `eventDescription` are not produced. Listings and pages return the table rows themselves.
- Identifiers and clocks:
  - `crypto.randomUUID` row ids are a counter.
  - The UUID text of a generated key is a parameter.
  - `datetime('now')` and `new Date()` are one `now` per request, and timestamps are numbers.
  - The test event's ids are the text "test" in the source and 0 here; the senders never read them.
- Services:
  - JSON parsing and printing, the Resend client and the Telegram Bot API are function values.
  - Their network traffic, `async`/`await` and any concurrency between requests are not modelled. Each handler runs alone.
- Uncaught errors: an error no handler catches becomes a 500 `Crash` body with its message (an empty message when what was thrown is not an Error). Bun's own error page is not modelled.
- Email HTML: the stored `createdAt` is rendered by a `showTime` parameter, and the HTML template is fixed text around the event's fields.
- Users and auth tables: the `user`, `session`, `account` and `verification` tables belong to the auth library. Only their presence in the schema is modelled; the user foreign key of projects and channels is not.
- Client side: React pages, components, the `useRoute` hook and `navigate` are not modelled. Only `getRoute`, `matches` and the `Link` active test are.
- Telegram.GetBotUpdates: the JavaScript `Map` is modelled by the first-seen de-duplication it performs, not as a mutable map.
- Query.OrderNewestFirst: rows with equal createdAt may come in any order, as in SQLite; the tie order is not modelled.
