/**
 * The event handlers (src/server/routes/events.ts): ingestion by api key,
 * which stores the event and then runs the dispatcher, and the two
 * read-side queries of the dashboard.
 */
module Events {
  import opened Wrappers
  import opened Records
  import opened Text
  import opened Json
  import opened Http
  import opened Query
  import Db
  import ApiKeys
  import Dispatch
  import FirstSeen

  const BearerPrefix: string := "Bearer "
  const MissingAuthorization: string := "Missing or invalid Authorization header"
  const InvalidKey: string := "Invalid API key"
  const TitleRequired: string := "Title is required"
  const ProjectNotFound: string := "Project not found"
  const EventNotFound: string := "Event not found"

  /** The category an event gets when none is given. */
  const DefaultCategory: string := "default"

  /** The header has the bearer form, compared case-sensitively. */
  predicate IsBearer(authorization: Option<string>) {
    authorization.Some? && StartsWith(authorization.value, BearerPrefix)
  }

  /** `authHeader.slice(7)`: what follows the prefix. */
  function Token(header: string): (token: string)
    requires StartsWith(header, BearerPrefix)
    ensures BearerPrefix + token == header
  {
    header[|BearerPrefix|..]
  }

  /** The JSON body of `ingest`; every field may be left out. */
  datatype EventInput = EventInput(
    channel: Option<string>, title: Option<string>, description: Option<string>,
    icon: Option<string>, metadata: Option<Json>)

  /**
   * The event row `ingest` stores. Its project and key come from the
   * validated key, never from the body.
   */
  function Normalise(body: EventInput, id: Id, projectId: Id, apiKeyId: Id, codec: JsonCodec, now: Timestamp): (e: Event)
    requires !Missing(body.title)
    ensures e.id == id && e.projectId == projectId && e.apiKeyId == apiKeyId && e.createdAt == now
    ensures e.title == Trim(body.title.value) && !IsBlank(e.title) && Trim(e.title) == e.title
    ensures e.channel == TrimmedOr(body.channel, DefaultCategory) && e.channel != "" && Trim(e.channel) == e.channel
    ensures e.description == TrimmedOr(body.description, "") && Trim(e.description) == e.description
    ensures e.icon.Some? <==> body.icon.Some? && body.icon.value != ""
    ensures e.icon.Some? ==> e.icon == body.icon
    ensures Given(body.metadata) ==> e.metadata == codec.stringify(body.metadata.value)
    ensures !Given(body.metadata) ==> e.metadata == codec.stringify(EmptyObject)
  {
    var title := Trim(body.title.value);
    TrimIdempotent(body.title.value);
    TrimUnpadded(DefaultCategory);
    TrimIdempotent(TrimmedOr(body.description, ""));
    Event(
      id, projectId, apiKeyId,
      TrimmedOr(body.channel, DefaultCategory),
      title,
      TrimmedOr(body.description, ""),
      if body.icon.Some? && body.icon.value != "" then body.icon else None,
      codec.stringify(if Given(body.metadata) then body.metadata.value else EmptyObject),
      now)
  }

  /** The id of the key row holding `key`; the UNIQUE constraint makes it the only one. */
  ghost function KeyWithText(apiKeys: map<Id, ApiKey>, key: string): (k: Id)
    requires exists k :: k in apiKeys && apiKeys[k].key == key
    ensures k in apiKeys && apiKeys[k].key == key
  {
    var k :| k in apiKeys && apiKeys[k].key == key; k
  }

  /**
   * `ingest`. A missing or non-bearer header and an unknown token are
   * refused with 401 and change nothing. A known token is stamped as used
   * even when the body is then refused for a blank title. Otherwise the
   * event is stored first and the dispatcher then records one delivery
   * per matched channel; the answer is 201 with the event's id whatever
   * those deliveries did.
   */
  method Ingest(db: Db.Database, authorization: Option<string>, body: EventInput, env: Dispatch.Env, now: Timestamp)
      returns (resp: Response<Id>, ruleIds: seq<Id>, matched: seq<Dispatch.MatchedRule>, created: seq<Id>, event: Event)
    requires db.Valid()
    modifies db`apiKeys, db`events, db`notifications, db`nextId
    ensures db.Valid()
    ensures !IsBearer(authorization) ==>
      && resp == ErrorResponse(MissingAuthorization, 401)
      && db.apiKeys == old(db.apiKeys) && db.events == old(db.events) && db.notifications == old(db.notifications)
    ensures IsBearer(authorization) && !old(db.HasKeyText(Token(authorization.value))) ==>
      && resp == ErrorResponse(InvalidKey, 401)
      && db.apiKeys == old(db.apiKeys) && db.events == old(db.events) && db.notifications == old(db.notifications)
    ensures IsBearer(authorization) && old(db.HasKeyText(Token(authorization.value))) ==>
      var k := KeyWithText(old(db.apiKeys), Token(authorization.value));
      && db.apiKeys == old(db.apiKeys)[k := old(db.apiKeys)[k].(lastUsedAt := Some(now))]
      && (Missing(body.title) ==>
            resp == ErrorResponse(TitleRequired) && db.events == old(db.events) && db.notifications == old(db.notifications))
      && (!Missing(body.title) ==>
            && event == Normalise(body, old(db.nextId), old(db.apiKeys)[k].projectId, k, env.codec, now)
            && event.id !in old(db.events) && db.events == old(db.events)[event.id := event]
            && resp == JsonResponse(Data(event.id), 201)
            && Dispatch.IsSelection(ruleIds, matched, db.rules, db.channels, event.projectId, event.channel)
            && Dispatch.Recorded(old(db.notifications), db.notifications, created,
                 FirstSeen.Dedup(matched, Dispatch.ChannelOf), event, env, now))
  {
    ruleIds, matched, created := [], [], [];
    event := Event(0, 0, 0, "", "", "", None, "", now);
    if !IsBearer(authorization) {
      return ErrorResponse(MissingAuthorization, 401), ruleIds, matched, created, event;
    }
    var key := Token(authorization.value);
    ghost var before := db.notifications;
    var validated := ApiKeys.ValidateApiKey(db, key, now);
    if validated.None? {
      return ErrorResponse(InvalidKey, 401), ruleIds, matched, created, event;
    }
    ghost var k := KeyWithText(old(db.apiKeys), key);
    assert validated.value.apiKey.id == k;
    if Missing(body.title) {
      return ErrorResponse(TitleRequired), ruleIds, matched, created, event;
    }
    assert db.notifications == before;
    resp, ruleIds, matched, created, event := Accept(db, validated.value.apiKey, body, env, now);
  }

  /**
   * What `ingest` does with a valid key and a title: stores the
   * normalised event under a fresh id and dispatches it.
   */
  method Accept(db: Db.Database, key: ApiKey, body: EventInput, env: Dispatch.Env, now: Timestamp)
      returns (resp: Response<Id>, ruleIds: seq<Id>, matched: seq<Dispatch.MatchedRule>, created: seq<Id>, event: Event)
    requires db.Valid() && key.id in db.apiKeys && db.apiKeys[key.id].projectId == key.projectId
    requires !Missing(body.title)
    modifies db`events, db`notifications, db`nextId
    ensures db.Valid()
    ensures event == Normalise(body, old(db.nextId), key.projectId, key.id, env.codec, now)
    ensures event.id !in old(db.events) && db.events == old(db.events)[event.id := event]
    ensures resp == JsonResponse(Data(event.id), 201)
    ensures Dispatch.IsSelection(ruleIds, matched, db.rules, db.channels, event.projectId, event.channel)
    ensures Dispatch.Recorded(old(db.notifications), db.notifications, created,
      FirstSeen.Dedup(matched, Dispatch.ChannelOf), event, env, now)
  {
    var id := db.FreshId();
    event := Normalise(body, id, key.projectId, key.id, env.codec, now);
    resp, ruleIds, matched, created := StoreAndDispatch(db, event, env, now);
  }

  /** Persists the event, then dispatches it: the delivery rows always refer to a stored event. */
  method StoreAndDispatch(db: Db.Database, e: Event, env: Dispatch.Env, now: Timestamp)
      returns (resp: Response<Id>, ruleIds: seq<Id>, matched: seq<Dispatch.MatchedRule>, created: seq<Id>)
    requires db.Valid() && e.id < db.nextId && e.id !in db.events
    requires e.projectId in db.projects && e.apiKeyId in db.apiKeys && db.apiKeys[e.apiKeyId].projectId == e.projectId
    modifies db`events, db`notifications, db`nextId
    ensures db.Valid()
    ensures db.events == old(db.events)[e.id := e]
    ensures resp == JsonResponse(Data(e.id), 201)
    ensures Dispatch.IsSelection(ruleIds, matched, db.rules, db.channels, e.projectId, e.channel)
    ensures Dispatch.Recorded(old(db.notifications), db.notifications, created,
      FirstSeen.Dedup(matched, Dispatch.ChannelOf), e, env, now)
  {
    db.InsertEvent(e);
    ruleIds, matched, created := Dispatch.DispatchNotifications(db, e, e.projectId, env, now);
    resp := JsonResponse(Data(e.id), 201);
  }

  /** A project's events: `WHERE projectId = ?`. */
  function EventsOfProject(events: map<Id, Event>, projectId: Id): set<Id> {
    Where(events, (e: Event) => e.projectId == projectId)
  }

  function EventCreated(e: Event): Timestamp { e.createdAt }

  /**
   * `listByProject`: one page of the caller's project's events, newest
   * first, and the count of all of them. `limit` and `offset` are the
   * parsed query parameters, absent when missing or empty.
   */
  method ListByProject(db: Db.Database, session: Option<UserId>, projectId: Id, limit: Option<int>, offset: Option<int>)
      returns (resp: Response<seq<Event>>)
    ensures session.None? ==> resp == Unauthorized()
    ensures session.Some? && !OwnsProject(db.projects, projectId, session.value) ==> resp == ErrorResponse(ProjectNotFound, 404)
    ensures session.Some? && OwnsProject(db.projects, projectId, session.value) ==>
      && resp.status == 200 && resp.body.Page?
      && IsPage(resp.body.data, resp.body.total, db.events, EventsOfProject(db.events, projectId), EventCreated,
           limit.GetOr(DefaultLimit), offset.GetOr(DefaultOffset))
  {
    if session.None? {
      return Unauthorized();
    }
    if !OwnsProject(db.projects, projectId, session.value) {
      return ErrorResponse(ProjectNotFound, 404);
    }
    var page, total := PageNewestFirst(db.events, EventsOfProject(db.events, projectId), EventCreated,
      limit.GetOr(DefaultLimit), offset.GetOr(DefaultOffset));
    resp := JsonResponse(Page(page, total));
  }

  /** The answer of `get`: the event and its deliveries. */
  datatype EventDetail = EventDetail(event: Event, notifications: seq<Notification>)

  /** An event's deliveries, joined with their channel: `WHERE n.eventId = ?`. */
  function NotificationsOfEvent(notifications: map<Id, Notification>, channels: map<Id, Channel>, eventId: Id): (s: set<Id>)
    ensures s <= notifications.Keys
    ensures forall k :: k in s <==> k in notifications && notifications[k].eventId == eventId && notifications[k].channelId in channels
  {
    set k | k in notifications && notifications[k].eventId == eventId && notifications[k].channelId in channels
  }

  function NotificationCreated(n: Notification): Timestamp { n.createdAt }

  /** The event is stored and its project is the caller's. */
  predicate OwnsEvent(projects: map<Id, Project>, events: map<Id, Event>, id: Id, user: UserId) {
    id in events && OwnsProject(projects, events[id].projectId, user)
  }

  /** `get`: the caller's event with its deliveries, newest first. */
  method Get(db: Db.Database, session: Option<UserId>, id: Id) returns (resp: Response<EventDetail>)
    ensures session.None? ==> resp == Unauthorized()
    ensures session.Some? && !OwnsEvent(db.projects, db.events, id, session.value) ==> resp == ErrorResponse(EventNotFound, 404)
    ensures session.Some? && OwnsEvent(db.projects, db.events, id, session.value) ==>
      && resp.status == 200 && resp.body.Data? && resp.body.data.event == db.events[id]
      && IsListing(resp.body.data.notifications, db.notifications,
           NotificationsOfEvent(db.notifications, db.channels, id), NotificationCreated)
  {
    if session.None? {
      return Unauthorized();
    }
    if !OwnsEvent(db.projects, db.events, id, session.value) {
      return ErrorResponse(EventNotFound, 404);
    }
    var rows := ListNewestFirst(db.notifications, NotificationsOfEvent(db.notifications, db.channels, id), NotificationCreated);
    resp := JsonResponse(Data(EventDetail(db.events[id], rows)));
  }
}
