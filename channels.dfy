/**
 * The channel handlers (src/server/routes/channels.ts): the caller's
 * delivery targets, their validation and merge rules, the direct test
 * send and the two Telegram helper endpoints.
 */
module Channels {
  import opened Wrappers
  import opened Records
  import opened Text
  import opened Json
  import opened Http
  import opened Query
  import Db
  import Email
  import Telegram
  import Dispatch

  const NameRequired: string := "Name is required"
  const TypeInvalid: string := "Type must be 'email' or 'telegram'"
  const ConfigRequired: string := "Config is required"
  const ChannelNotFound: string := "Channel not found"
  const TokenRequired: string := "Bot token is required"
  const TestFailedPrefix: string := "Test failed: "
  const UpdatesFailedMessage: string := "Failed to get updates"

  /** The caller's channels: `WHERE userId = ?`. */
  function ChannelsOf(channels: map<Id, Channel>, user: UserId): set<Id> {
    Where(channels, (c: Channel) => c.userId == user)
  }

  function ChannelCreated(c: Channel): Timestamp { c.createdAt }

  /** `list`: the caller's channels, newest first. */
  method List(db: Db.Database, session: Option<UserId>) returns (resp: Response<seq<Channel>>)
    ensures session.None? ==> resp == Unauthorized()
    ensures session.Some? ==>
      && resp.status == 200 && resp.body.Data?
      && IsListing(resp.body.data, db.channels, ChannelsOf(db.channels, session.value), ChannelCreated)
  {
    if session.None? {
      return Unauthorized();
    }
    var rows := ListNewestFirst(db.channels, ChannelsOf(db.channels, session.value), ChannelCreated);
    resp := JsonResponse(Data(rows));
  }

  /** The JSON body of `create`. */
  datatype ChannelInput = ChannelInput(kind: Option<string>, name: Option<string>, config: Option<Json>)

  /**
   * `create`'s checks, in the order the handler makes them: the name, then
   * the type, then the config. The first that fails gives the error.
   */
  function Validate(body: ChannelInput): (r: Result<ChannelType, string>)
    ensures r == Err(NameRequired) <==> Missing(body.name)
    ensures r == Err(TypeInvalid) <==>
      !Missing(body.name) && (body.kind.None? || ParseChannelType(body.kind.value).None?)
    ensures r == Err(ConfigRequired) <==>
      !Missing(body.name) && body.kind.Some? && ParseChannelType(body.kind.value).Some? && !Given(body.config)
    ensures r.Ok? <==>
      !Missing(body.name) && body.kind.Some? && ParseChannelType(body.kind.value).Some? && Given(body.config)
    ensures r.Ok? ==> ParseChannelType(body.kind.value) == Some(r.value)
  {
    if Missing(body.name) then Err(NameRequired)
    else if body.kind.None? || ParseChannelType(body.kind.value).None? then Err(TypeInvalid)
    else if !Given(body.config) then Err(ConfigRequired)
    else Ok(ParseChannelType(body.kind.value).value)
  }

  /**
   * `create`: a refused body stores nothing; an accepted one adds one
   * channel of the caller under a fresh id, with the trimmed name, the
   * serialised config and `enabled` at its default, 1.
   */
  method Create(db: Db.Database, session: Option<UserId>, body: ChannelInput, codec: JsonCodec, now: Timestamp)
      returns (resp: Response<Channel>)
    requires db.Valid()
    modifies db`channels, db`nextId
    ensures db.Valid()
    ensures session.None? ==> resp == Unauthorized() && db.channels == old(db.channels)
    ensures session.Some? && Validate(body).Err? ==>
      resp == ErrorResponse(Validate(body).error) && db.channels == old(db.channels)
    ensures session.Some? && Validate(body).Ok? ==>
      var c := Channel(old(db.nextId), session.value, Validate(body).value, Trim(body.name.value),
                       codec.stringify(body.config.value), Db.EnabledByDefault, now, now);
      && c.id !in old(db.channels)
      && db.channels == old(db.channels)[c.id := c]
      && resp == JsonResponse(Data(c), 201)
  {
    if session.None? {
      return Unauthorized();
    }
    var checked := Validate(body);
    if checked.Err? {
      return ErrorResponse(checked.error);
    }
    var id := db.FreshId();
    db.InsertChannel(id, session.value, checked.value, Trim(body.name.value), codec.stringify(body.config.value), now);
    resp := JsonResponse(Data(db.channels[id]), 201);
  }

  /** `get`: the channel, if the caller owns it. */
  method Get(db: Db.Database, session: Option<UserId>, id: Id) returns (resp: Response<Channel>)
    ensures session.None? ==> resp == Unauthorized()
    ensures session.Some? && !OwnsChannel(db.channels, id, session.value) ==> resp == ErrorResponse(ChannelNotFound, 404)
    ensures session.Some? && OwnsChannel(db.channels, id, session.value) ==> resp == JsonResponse(Data(db.channels[id]))
  {
    if session.None? {
      return Unauthorized();
    }
    if !OwnsChannel(db.channels, id, session.value) {
      return ErrorResponse(ChannelNotFound, 404);
    }
    resp := JsonResponse(Data(db.channels[id]));
  }

  /** The JSON body of `update`; every field may be left out. */
  datatype ChannelPatch = ChannelPatch(name: Option<string>, config: Option<Json>, enabled: Option<Json>)

  /**
   * The row `update` writes: a non-blank new name (trimmed), a truthy new
   * config (serialised) and a present `enabled` (as 1 or 0) replace the old
   * values; anything else keeps them.
   */
  function MergeChannel(c: Channel, patch: ChannelPatch, codec: JsonCodec, now: Timestamp): (d: Channel)
    ensures d.id == c.id && d.userId == c.userId && d.kind == c.kind
    ensures d.createdAt == c.createdAt && d.updatedAt == now
    ensures !IsBlank(c.name) ==> !IsBlank(d.name)
    ensures Missing(patch.name) ==> d.name == c.name
    ensures !Missing(patch.name) ==> d.name == Trim(patch.name.value)
    ensures !Given(patch.config) ==> d.config == c.config
    ensures Given(patch.config) ==> d.config == codec.stringify(patch.config.value)
    ensures patch.enabled.None? ==> d.enabled == c.enabled
    ensures patch.enabled.Some? ==> d.enabled == (if Truthy(patch.enabled.value) then 1 else 0)
    ensures patch.enabled.Some? ==> (d.enabled == 1 <==> Truthy(patch.enabled.value))
    ensures (c.enabled == 0 || c.enabled == 1) ==> (d.enabled == 0 || d.enabled == 1)
  {
    c.(name := TrimmedOr(patch.name, c.name),
       config := if Given(patch.config) then codec.stringify(patch.config.value) else c.config,
       enabled := if patch.enabled.Some? then (if Truthy(patch.enabled.value) then 1 else 0) else c.enabled,
       updatedAt := now)
  }

  /** Sending the same patch twice leaves the row as sending it once (up to `updatedAt`). */
  lemma MergeChannelIdempotent(c: Channel, patch: ChannelPatch, codec: JsonCodec, now: Timestamp, later: Timestamp)
    ensures MergeChannel(MergeChannel(c, patch, codec, now), patch, codec, later) == MergeChannel(c, patch, codec, later)
  {
    if !Missing(patch.name) {
      TrimIdempotent(patch.name.value);
    }
  }

  /** `update`: merges the patch into the caller's channel. */
  method Update(db: Db.Database, session: Option<UserId>, id: Id, patch: ChannelPatch, codec: JsonCodec, now: Timestamp)
      returns (resp: Response<Channel>)
    requires db.Valid()
    modifies db`channels
    ensures db.Valid()
    ensures session.None? ==> resp == Unauthorized() && db.channels == old(db.channels)
    ensures session.Some? && !OwnsChannel(old(db.channels), id, session.value) ==>
      resp == ErrorResponse(ChannelNotFound, 404) && db.channels == old(db.channels)
    ensures session.Some? && OwnsChannel(old(db.channels), id, session.value) ==>
      var d := MergeChannel(old(db.channels)[id], patch, codec, now);
      db.channels == old(db.channels)[id := d] && resp == JsonResponse(Data(d))
  {
    if session.None? {
      return Unauthorized();
    }
    if !OwnsChannel(db.channels, id, session.value) {
      return ErrorResponse(ChannelNotFound, 404);
    }
    var d := MergeChannel(db.channels[id], patch, codec, now);
    db.UpdateChannel(id, d.name, d.config, d.enabled, now);
    assert db.channels[id] == d;
    resp := JsonResponse(Data(db.channels[id]));
  }

  /** `delete`: removes the caller's channel; its rules and notifications go with it. */
  method Delete(db: Db.Database, session: Option<UserId>, id: Id) returns (resp: Response<()>)
    requires db.Valid()
    modifies db`channels, db`rules, db`notifications
    ensures db.Valid()
    ensures session.None? || !OwnsChannel(old(db.channels), id, session.value) ==>
      && resp == (if session.None? then Unauthorized() else ErrorResponse(ChannelNotFound, 404))
      && db.channels == old(db.channels) && db.rules == old(db.rules) && db.notifications == old(db.notifications)
    ensures session.Some? && OwnsChannel(old(db.channels), id, session.value) ==>
      && resp == JsonResponse(Done)
      && db.channels == old(db.channels) - {id}
      && db.rules == Db.RulesNotTo(old(db.rules), id)
      && db.notifications == Db.NotificationsNotTo(old(db.notifications), id)
  {
    if session.None? {
      return Unauthorized();
    }
    if !OwnsChannel(db.channels, id, session.value) {
      return ErrorResponse(ChannelNotFound, 404);
    }
    db.DeleteChannel(id);
    resp := JsonResponse(Done);
  }

  const TestTitle: string := "Test notification from Indar"
  const TestDescription: string := "If you received this, your channel is configured correctly."
  const TestCategory: string := "test"

  /**
   * The event `test` sends. Its ids are the text "test" in the handler;
   * the senders never read them, and here they are 0.
   */
  function TestEvent(now: Timestamp): (e: Event)
    ensures e.channel == TestCategory && e.metadata == "{}" && e.icon.None?
    ensures e.title == TestTitle && e.description == TestDescription && e.createdAt == now
  {
    Event(0, 0, 0, TestCategory, TestTitle, TestDescription, None, "{}", now)
  }

  /** The sender `test` calls for a channel whose config parsed to `config`. */
  function TestSend(c: Channel, config: Json, env: Dispatch.Env, now: Timestamp): Outcome {
    match c.kind
    case Email => Email.SendEmail(config, TestEvent(now), env.codec, env.showTime, env.email)
    case Telegram => Telegram.SendTelegram(config, TestEvent(now), env.codec, env.telegram)
  }

  /**
   * A test send is the delivery the dispatcher would make for the same
   * channel and event: same parse of the config, same sender.
   */
  lemma TestSendIsDelivery(c: Channel, env: Dispatch.Env, now: Timestamp)
    requires env.codec.parse(c.config).Ok?
    ensures TestSend(c, env.codec.parse(c.config).value, env, now)
         == Dispatch.Deliver(Dispatch.MatchedRule(c.id, c.kind, c.config, c.enabled), TestEvent(now), env)
  {
  }

  /**
   * `test`: sends the synthetic event straight to the channel's sender; no
   * rule is consulted and no notification row is written. A config that
   * does not parse throws before the `try`, so the handler does not catch it.
   */
  method Test(db: Db.Database, session: Option<UserId>, channelId: Id, env: Dispatch.Env, now: Timestamp)
      returns (resp: Response<()>)
    ensures session.None? ==> resp == Unauthorized()
    ensures session.Some? && !OwnsChannel(db.channels, channelId, session.value) ==> resp == ErrorResponse(ChannelNotFound, 404)
    ensures session.Some? && OwnsChannel(db.channels, channelId, session.value) ==>
      var c := db.channels[channelId];
      match env.codec.parse(c.config)
      case Err(ex) => resp == Uncaught(ex.MessageOr(""))
      case Ok(config) =>
        match TestSend(c, config, env, now)
        case Completed => resp == JsonResponse(Done)
        case Threw(ex) => resp == ErrorResponse(TestFailedPrefix + ex.MessageOr(Dispatch.UnknownError), 500)
  {
    if session.None? {
      return Unauthorized();
    }
    if !OwnsChannel(db.channels, channelId, session.value) {
      return ErrorResponse(ChannelNotFound, 404);
    }
    var c := db.channels[channelId];
    match env.codec.parse(c.config)
    case Err(ex) =>
      resp := Uncaught(ex.MessageOr(""));
    case Ok(config) =>
      match TestSend(c, config, env, now)
      case Completed =>
        resp := JsonResponse(Done);
      case Threw(ex) =>
        resp := ErrorResponse(TestFailedPrefix + ex.MessageOr(Dispatch.UnknownError), 500);
  }

  /** `telegramValidate`: a blank token is refused; otherwise the trimmed token is checked with `getMe`. */
  method TelegramValidate(session: Option<UserId>, botToken: Option<string>, api: Telegram.TelegramApi)
      returns (resp: Response<Telegram.BotUser>)
    ensures session.None? ==> resp == Unauthorized()
    ensures session.Some? && Missing(botToken) ==> resp == ErrorResponse(TokenRequired)
    ensures session.Some? && !Missing(botToken) ==>
      match Telegram.ValidateBotToken(Trim(botToken.value), api)
      case Ok(bot) => resp == JsonResponse(Data(bot))
      case Err(ex) => resp == ErrorResponse(ex.MessageOr(Telegram.InvalidTokenMessage))
  {
    if session.None? {
      return Unauthorized();
    }
    if Missing(botToken) {
      return ErrorResponse(TokenRequired);
    }
    match Telegram.ValidateBotToken(Trim(botToken.value), api)
    case Ok(bot) =>
      resp := JsonResponse(Data(bot));
    case Err(ex) =>
      resp := ErrorResponse(ex.MessageOr(Telegram.InvalidTokenMessage));
  }

  /** `telegramGetUpdates`: a blank token is refused; otherwise the chats the bot has seen, by the trimmed token. */
  method TelegramGetUpdates(session: Option<UserId>, botToken: Option<string>, api: Telegram.TelegramApi)
      returns (resp: Response<seq<Telegram.ChatSummary>>)
    ensures session.None? ==> resp == Unauthorized()
    ensures session.Some? && Missing(botToken) ==> resp == ErrorResponse(TokenRequired)
    ensures session.Some? && !Missing(botToken) ==>
      match api.getUpdates(Trim(botToken.value))
      case Err(ex) => resp == ErrorResponse(ex.MessageOr(UpdatesFailedMessage))
      case Ok(reply) =>
        resp == JsonResponse(Data(if reply.ok && reply.result.Some? then Telegram.ChatList(reply.result.value) else []))
  {
    if session.None? {
      return Unauthorized();
    }
    if Missing(botToken) {
      return ErrorResponse(TokenRequired);
    }
    var chats := Telegram.GetBotUpdates(Trim(botToken.value), api);
    match chats
    case Ok(list) =>
      resp := JsonResponse(Data(list));
    case Err(ex) =>
      resp := ErrorResponse(ex.MessageOr(UpdatesFailedMessage));
  }
}
