/**
 * The Telegram sender: MarkdownV2 escaping, the message built line by
 * line, and the mapping of Bot API replies to results and errors. The
 * HTTP calls themselves are the functions of a `TelegramApi` value.
 */
module Telegram {
  import opened Wrappers
  import opened Records
  import opened Json
  import opened Text
  import FirstSeen

  // ----- escaping -----

  /** The characters the MarkdownV2 style reserves, the backslash included. */
  const Reserved: set<char> :=
    {'_', '*', '[', ']', '(', ')', '~', '`', '>', '#', '+', '-', '=', '|', '{', '}', '.', '!', '\\'}

  function CountReserved(s: string): nat {
    if s == [] then 0 else (if s[0] in Reserved then 1 else 0) + CountReserved(s[1..])
  }

  /** `escapeMarkdown`: a backslash before every reserved character. */
  function Escape(s: string): (r: string)
    ensures |r| == |s| + CountReserved(s)
    ensures s != [] && s[0] in Reserved ==> r[..2] == ['\\', s[0]]
    ensures s != [] && s[0] !in Reserved ==> r[0] == s[0]
  {
    if s == [] then []
    else (if s[0] in Reserved then ['\\', s[0]] else [s[0]]) + Escape(s[1..])
  }

  /** Drops each escaping backslash, keeping the character after it. */
  function Unescape(t: string): string {
    if t == [] then []
    else if t[0] == '\\' && |t| >= 2 then [t[1]] + Unescape(t[2..])
    else [t[0]] + Unescape(t[1..])
  }

  /** Every reserved character of `t` is escaped, and every backslash escapes one. */
  predicate WellEscaped(t: string) {
    if t == [] then true
    else if t[0] == '\\' then |t| >= 2 && t[1] in Reserved && WellEscaped(t[2..])
    else t[0] !in Reserved && WellEscaped(t[1..])
  }

  lemma {:induction false} UnescapeEscape(s: string)
    ensures Unescape(Escape(s)) == s
  {
    if s != [] {
      var rest := Escape(s[1..]);
      UnescapeEscape(s[1..]);
      if s[0] in Reserved {
        assert Escape(s) == ['\\', s[0]] + rest;
        assert (['\\', s[0]] + rest)[2..] == rest;
      } else {
        assert Escape(s) == [s[0]] + rest;
        assert ([s[0]] + rest)[1..] == rest;
      }
    }
  }

  lemma {:induction false} EscapeIsWellEscaped(s: string)
    ensures WellEscaped(Escape(s))
  {
    if s != [] {
      var rest := Escape(s[1..]);
      EscapeIsWellEscaped(s[1..]);
      if s[0] in Reserved {
        assert (['\\', s[0]] + rest)[2..] == rest;
      } else {
        assert ([s[0]] + rest)[1..] == rest;
      }
    }
  }

  /** Every well-escaped text is the escaping of exactly one text. */
  lemma {:induction false} EscapeUnescape(t: string)
    requires WellEscaped(t)
    ensures Escape(Unescape(t)) == t
  {
    if t != [] {
      if t[0] == '\\' {
        EscapeUnescape(t[2..]);
        assert Unescape(t) == [t[1]] + Unescape(t[2..]);
        assert ([t[1]] + Unescape(t[2..]))[1..] == Unescape(t[2..]);
        assert t == [t[0], t[1]] + t[2..];
      } else {
        EscapeUnescape(t[1..]);
        assert ([t[0]] + Unescape(t[1..]))[1..] == Unescape(t[1..]);
        assert t == [t[0]] + t[1..];
      }
    }
  }

  // ----- the message -----

  /** The fenced block that carries the pretty-printed metadata. */
  function JsonFence(pretty: string): string {
    "```json\n" + pretty + "\n```"
  }

  /**
   * The `lines` array of `sendTelegram`: bold title, italic category, then
   * the description and the metadata block, each after a blank line.
   */
  function MessageLines(e: Event, metadataKeys: nat, pretty: string): (lines: seq<string>)
    ensures |lines| == 2 + (if e.description != "" then 2 else 0) + (if metadataKeys > 0 then 2 else 0)
    ensures lines[0] == "*" + Escape(e.title) + "*"
    ensures lines[1] == "_" + Escape(e.channel) + "_"
    ensures e.description != "" ==> lines[2] == "" && lines[3] == Escape(e.description)
    ensures metadataKeys > 0 ==> lines[|lines| - 2] == "" && lines[|lines| - 1] == JsonFence(pretty)
  {
    var head := ["*" + Escape(e.title) + "*", "_" + Escape(e.channel) + "_"];
    var withDescription := if e.description != "" then head + ["", Escape(e.description)] else head;
    if metadataKeys > 0 then withDescription + ["", JsonFence(pretty)] else withDescription
  }

  /** The title and category can be read back from the first two lines. */
  lemma HeaderRoundTrip(e: Event, metadataKeys: nat, pretty: string)
    ensures var lines := MessageLines(e, metadataKeys, pretty);
      && Unescape(lines[0][1..|lines[0]| - 1]) == e.title
      && Unescape(lines[1][1..|lines[1]| - 1]) == e.channel
  {
    var lines := MessageLines(e, metadataKeys, pretty);
    assert lines[0][1..|lines[0]| - 1] == Escape(e.title);
    assert lines[1][1..|lines[1]| - 1] == Escape(e.channel);
    UnescapeEscape(e.title);
    UnescapeEscape(e.channel);
  }

  /**
   * The text of the message, or what `JSON.parse` or `Object.keys` throws
   * on the event's metadata.
   */
  function MessageText(e: Event, codec: JsonCodec): (r: Result<string, Exception>)
    ensures codec.parse(MetadataText(e)).Err? ==> r == Err(codec.parse(MetadataText(e)).error)
    ensures codec.parse(MetadataText(e)) == Ok(JNull) ==> r == Err(Error(NullToObjectMessage))
    ensures r.Ok? <==> codec.parse(MetadataText(e)).Ok? && !codec.parse(MetadataText(e)).value.JNull?
    ensures r.Ok? ==>
      var m := codec.parse(MetadataText(e)).value;
      r.value == Join(MessageLines(e, KeyCount(m).value, codec.prettyPrint(m)), "\n")
  {
    match codec.parse(MetadataText(e))
    case Err(ex) => Err(ex)
    case Ok(m) =>
      match KeyCount(m)
      case Err(ex) => Err(ex)
      case Ok(n) => Ok(Join(MessageLines(e, n, codec.prettyPrint(m)), "\n"))
  }

  // ----- Bot API calls -----

  /** The body POSTed to `sendMessage` (its `parse_mode` is always MarkdownV2). */
  datatype SendRequest = SendRequest(botToken: Option<Json>, chatId: Option<Json>, text: string)

  /** `{ ok, description? }` */
  datatype SendReply = SendReply(ok: bool, description: Option<string>)

  datatype BotUser = BotUser(username: string, firstName: string)

  /** `{ ok, result?: { username, first_name }, description? }` */
  datatype GetMeReply = GetMeReply(ok: bool, result: Option<BotUser>, description: Option<string>)

  /** A chat as an update's `message.chat` carries it. */
  datatype Chat = Chat(id: int, firstName: Option<string>, title: Option<string>, kind: string)

  /** An update, reduced to `update.message?.chat`. */
  datatype Update = Update(chat: Option<Chat>)

  /** `{ ok, result?: [...] }` */
  datatype UpdatesReply = UpdatesReply(ok: bool, result: Option<seq<Update>>)

  /** The three Bot API methods; each may also throw (network, bad JSON). */
  datatype TelegramApi = TelegramApi(
    sendMessage: SendRequest -> Result<SendReply, Exception>,
    getMe: string -> Result<GetMeReply, Exception>,
    getUpdates: string -> Result<UpdatesReply, Exception>)

  /** `data.description || fallback` */
  function DescriptionOr(description: Option<string>, fallback: string): (r: string)
    ensures description.Some? && description.value != "" ==> r == description.value
    ensures description.None? || description.value == "" ==> r == fallback
  {
    if description.Some? && description.value != "" then description.value else fallback
  }

  const SendFailedMessage: string := "Telegram API error"
  const InvalidTokenMessage: string := "Invalid bot token"

  /** What `sendTelegram` makes of a `sendMessage` reply. */
  function SendResult(reply: SendReply): (r: Outcome)
    ensures r.Completed? <==> reply.ok
    ensures !reply.ok ==> r == Threw(Error(DescriptionOr(reply.description, SendFailedMessage)))
  {
    if reply.ok then Completed else Threw(Error(DescriptionOr(reply.description, SendFailedMessage)))
  }

  /** `sendTelegram(config, event)`. */
  function SendTelegram(config: Json, e: Event, codec: JsonCodec, api: TelegramApi): Outcome {
    match MessageText(e, codec)
    case Err(ex) => Threw(ex)
    case Ok(text) =>
      match api.sendMessage(SendRequest(Member(config, "botToken"), Member(config, "chatId"), text))
      case Err(ex) => Threw(ex)
      case Ok(reply) => SendResult(reply)
  }

  /**
   * The send completes exactly when the message could be built and the
   * API accepted it, and the request carries the configured token and chat.
   */
  lemma SendTelegramCompletes(config: Json, e: Event, codec: JsonCodec, api: TelegramApi)
    ensures SendTelegram(config, e, codec, api).Completed? <==>
      && MessageText(e, codec).Ok?
      && var request := SendRequest(Member(config, "botToken"), Member(config, "chatId"), MessageText(e, codec).value);
      && api.sendMessage(request).Ok? && api.sendMessage(request).value.ok
  {
  }

  /** `validateBotToken`'s reading of a `getMe` reply. */
  function GetMeResult(reply: GetMeReply): (r: Result<BotUser, Exception>)
    ensures r.Ok? <==> reply.ok && reply.result.Some?
    ensures r.Ok? ==> r.value == reply.result.value
    ensures r.Err? ==> r.error == Error(DescriptionOr(reply.description, InvalidTokenMessage))
  {
    if !reply.ok || reply.result.None? then Err(Error(DescriptionOr(reply.description, InvalidTokenMessage)))
    else Ok(reply.result.value)
  }

  /** `validateBotToken(botToken)`. */
  function ValidateBotToken(token: string, api: TelegramApi): Result<BotUser, Exception> {
    match api.getMe(token)
    case Err(ex) => Err(ex)
    case Ok(reply) => GetMeResult(reply)
  }

  // ----- chats seen by the bot -----

  /** One entry of `getBotUpdates`'s answer. */
  datatype ChatSummary = ChatSummary(chatId: string, name: string, kind: string)

  /** `String(chat.id)` */
  function ChatIdOf(c: Chat): string {
    IntToDecimal(c.id)
  }

  /** `chat.title || chat.first_name || chatId` */
  function ChatName(c: Chat): (name: string)
    ensures c.title.Some? && c.title.value != "" ==> name == c.title.value
    ensures (c.title.None? || c.title.value == "") && c.firstName.Some? && c.firstName.value != "" ==> name == c.firstName.value
    ensures (c.title.None? || c.title.value == "") && (c.firstName.None? || c.firstName.value == "") ==> name == ChatIdOf(c)
  {
    if c.title.Some? && c.title.value != "" then c.title.value
    else if c.firstName.Some? && c.firstName.value != "" then c.firstName.value
    else ChatIdOf(c)
  }

  function Summarize(c: Chat): ChatSummary {
    ChatSummary(ChatIdOf(c), ChatName(c), c.kind)
  }

  function Summaries(chats: seq<Chat>): (r: seq<ChatSummary>)
    ensures |r| == |chats| && forall i :: 0 <= i < |chats| ==> r[i] == Summarize(chats[i])
  {
    seq(|chats|, i requires 0 <= i < |chats| => Summarize(chats[i]))
  }

  /** The chats of the updates that carry a message, in order. */
  function ChatsOf(updates: seq<Update>): seq<Chat> {
    if updates == [] then []
    else (if updates[0].chat.Some? then [updates[0].chat.value] else []) + ChatsOf(updates[1..])
  }

  /** The answer of `getBotUpdates` for a list of updates: one entry per chat id, first seen first. */
  function ChatList(updates: seq<Update>): seq<ChatSummary> {
    Summaries(FirstSeen.Dedup(ChatsOf(updates), ChatIdOf))
  }

  lemma ChatsOfStep(updates: seq<Update>, i: nat)
    requires i < |updates|
    ensures ChatsOf(updates[i..]) ==
      (if updates[i].chat.Some? then [updates[i].chat.value] else []) + ChatsOf(updates[i + 1..])
  {
    assert updates[i..][1..] == updates[i + 1..];
  }

  /**
   * The loop over `data.result` that fills `chatsMap`; the map's values in
   * insertion order are `chats`, its keys `ids`.
   */
  method CollectChats(updates: seq<Update>) returns (chats: seq<ChatSummary>)
    ensures chats == ChatList(updates)
  {
    var ids: set<string> := {};
    chats := [];
    ghost var kept: seq<Chat> := [];
    for i := 0 to |updates|
      invariant |chats| == |kept| && forall j :: 0 <= j < |kept| ==> chats[j] == Summarize(kept[j])
      invariant kept + FirstSeen.DedupFrom(ChatsOf(updates[i..]), ChatIdOf, ids) == FirstSeen.Dedup(ChatsOf(updates), ChatIdOf)
    {
      ChatsOfStep(updates, i);
      var rest := ChatsOf(updates[i + 1..]);
      var chat := updates[i].chat;
      if chat.Some? {
        var c := chat.value;
        FirstSeen.DedupFromCons(c, rest, ChatIdOf, ids);
        var chatId := ChatIdOf(c);
        if chatId !in ids {
          assert kept + ([c] + FirstSeen.DedupFrom(rest, ChatIdOf, ids + {chatId})) == (kept + [c]) + FirstSeen.DedupFrom(rest, ChatIdOf, ids + {chatId});
          ids := ids + {chatId};
          kept := kept + [c];
          chats := chats + [Summarize(c)];
        }
      } else {
        assert ChatsOf(updates[i..]) == rest;
      }
    }
    assert updates[|updates|..] == [];
  }

  /** `getBotUpdates(botToken)`: nothing when the reply is not ok or has no result. */
  method GetBotUpdates(token: string, api: TelegramApi) returns (r: Result<seq<ChatSummary>, Exception>)
    ensures api.getUpdates(token).Err? ==> r == Err(api.getUpdates(token).error)
    ensures api.getUpdates(token).Ok? ==>
      var reply := api.getUpdates(token).value;
      r == Ok(if reply.ok && reply.result.Some? then ChatList(reply.result.value) else [])
  {
    match api.getUpdates(token)
    case Err(ex) =>
      r := Err(ex);
    case Ok(reply) =>
      if !reply.ok || reply.result.None? {
        r := Ok([]);
      } else {
        var chats := CollectChats(reply.result.value);
        r := Ok(chats);
      }
  }

  /** No two entries of the chat list share a chat id. */
  lemma ChatListDistinct(updates: seq<Update>)
    ensures var list := ChatList(updates);
      forall i, j :: 0 <= i < j < |list| ==> list[i].chatId != list[j].chatId
  {
    var kept := FirstSeen.Dedup(ChatsOf(updates), ChatIdOf);
    FirstSeen.DedupFromDistinct(ChatsOf(updates), ChatIdOf, {});
    assert forall i :: 0 <= i < |kept| ==> ChatList(updates)[i].chatId == ChatIdOf(kept[i]);
  }

  /** Every chat id among the updates with a message has an entry. */
  lemma ChatListComplete(updates: seq<Update>)
    ensures var chats, list := ChatsOf(updates), ChatList(updates);
      forall i :: 0 <= i < |chats| ==> exists j :: 0 <= j < |list| && list[j].chatId == ChatIdOf(chats[i])
  {
    var chats := ChatsOf(updates);
    var kept := FirstSeen.Dedup(chats, ChatIdOf);
    var list := ChatList(updates);
    FirstSeen.DedupFromKeys(chats, ChatIdOf, {});
    forall i | 0 <= i < |chats| ensures exists j :: 0 <= j < |list| && list[j].chatId == ChatIdOf(chats[i]) {
      var k := ChatIdOf(chats[i]);
      assert FirstSeen.KeysOf(chats, ChatIdOf)[i] == k;
      var ks := FirstSeen.KeysOf(kept, ChatIdOf);
      assert k in ks;
      var j :| 0 <= j < |ks| && ks[j] == k;
      assert list[j].chatId == ChatIdOf(kept[j]);
    }
  }

  /** `s` summarises the first chat of `chats` with its id. */
  ghost predicate SummarisesFirst(chats: seq<Chat>, s: ChatSummary) {
    exists i :: FirstSeen.IsFirst(chats, ChatIdOf, i) && s == Summarize(chats[i])
  }

  /** Each entry summarises the first chat seen with its id. */
  lemma ChatListFirst(updates: seq<Update>)
    ensures var chats, list := ChatsOf(updates), ChatList(updates);
      forall j :: 0 <= j < |list| ==> SummarisesFirst(chats, list[j])
  {
    var chats := ChatsOf(updates);
    var kept := FirstSeen.Dedup(chats, ChatIdOf);
    var list := ChatList(updates);
    FirstSeen.DedupCharacterised(chats, ChatIdOf);
    var ps := FirstSeen.KeptPositions(chats, ChatIdOf, {});
    forall j | 0 <= j < |list| ensures SummarisesFirst(chats, list[j]) {
      var i := ps[j];
      assert FirstSeen.IsFirst(chats, ChatIdOf, i) && chats[i] == kept[j];
      assert list[j] == Summarize(chats[i]);
    }
  }

  /**
   * One entry per distinct chat id among the updates with a message, each
   * summarising the first chat seen with that id, in first-seen order.
   */
  lemma ChatListCharacterised(updates: seq<Update>)
    ensures var chats, list := ChatsOf(updates), ChatList(updates);
      && (forall i, j :: 0 <= i < j < |list| ==> list[i].chatId != list[j].chatId)
      && (forall i :: 0 <= i < |chats| ==> exists j :: 0 <= j < |list| && list[j].chatId == ChatIdOf(chats[i]))
      && (forall j :: 0 <= j < |list| ==> SummarisesFirst(chats, list[j]))
  {
    ChatListDistinct(updates);
    ChatListComplete(updates);
    ChatListFirst(updates);
  }
}
