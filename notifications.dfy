/**
 * The read-only ledger queries of the dashboard
 * (src/server/routes/notifications.ts). Neither handler changes a table.
 */
module Notifications {
  import opened Wrappers
  import opened Records
  import opened Http
  import opened Query
  import Db

  const ProjectNotFound: string := "Project not found"
  const NotificationNotFound: string := "Notification not found"

  /**
   * A project's deliveries, joined with their channel and their event:
   * `WHERE e.projectId = ?`.
   */
  function NotificationsOfProject(notifications: map<Id, Notification>, events: map<Id, Event>, channels: map<Id, Channel>, projectId: Id): set<Id> {
    Where(notifications, (n: Notification) =>
      n.channelId in channels && n.eventId in events && events[n.eventId].projectId == projectId)
  }

  /**
   * The rows `total` counts: `FROM notification n JOIN event e ... WHERE
   * e.projectId = ?`, without the channel join of the listing.
   */
  function NotificationsCounted(notifications: map<Id, Notification>, events: map<Id, Event>, projectId: Id): set<Id> {
    Where(notifications, (n: Notification) => n.eventId in events && events[n.eventId].projectId == projectId)
  }

  function NotificationCreated(n: Notification): Timestamp { n.createdAt }

  /**
   * The listed rows are among the counted ones; under the schema's foreign
   * keys the channel join drops no delivery, so the two selections agree.
   */
  lemma {:induction false} JoinsKeepEveryRow(db: Db.Database, projectId: Id)
    ensures NotificationsOfProject(db.notifications, db.events, db.channels, projectId) <= NotificationsCounted(db.notifications, db.events, projectId)
    ensures db.Valid() ==>
      NotificationsOfProject(db.notifications, db.events, db.channels, projectId) == NotificationsCounted(db.notifications, db.events, projectId)
  {
    var listed, counted := NotificationsOfProject(db.notifications, db.events, db.channels, projectId), NotificationsCounted(db.notifications, db.events, projectId);
    if db.Valid() {
      forall k | k in counted ensures k in listed {
        assert db.notifications[k].channelId in db.channels;
      }
    }
  }

  /**
   * `listByProject`: one page of the deliveries of the caller's project,
   * newest first, and the count of the deliveries whose event is of that
   * project; on a valid store the count is that of the listed selection.
   */
  method ListByProject(db: Db.Database, session: Option<UserId>, projectId: Id, limit: Option<int>, offset: Option<int>)
      returns (resp: Response<seq<Notification>>)
    ensures session.None? ==> resp == Unauthorized()
    ensures session.Some? && !OwnsProject(db.projects, projectId, session.value) ==> resp == ErrorResponse(ProjectNotFound, 404)
    ensures session.Some? && OwnsProject(db.projects, projectId, session.value) ==>
      && resp.status == 200 && resp.body.Page?
      && IsWindow(resp.body.data, db.notifications,
           NotificationsOfProject(db.notifications, db.events, db.channels, projectId), NotificationCreated,
           limit.GetOr(DefaultLimit), offset.GetOr(DefaultOffset))
      && resp.body.total == |NotificationsCounted(db.notifications, db.events, projectId)|
      && (db.Valid() ==>
            IsPage(resp.body.data, resp.body.total, db.notifications,
              NotificationsOfProject(db.notifications, db.events, db.channels, projectId), NotificationCreated,
              limit.GetOr(DefaultLimit), offset.GetOr(DefaultOffset)))
  {
    if session.None? {
      return Unauthorized();
    }
    if !OwnsProject(db.projects, projectId, session.value) {
      return ErrorResponse(ProjectNotFound, 404);
    }
    var page, _ := PageNewestFirst(db.notifications, NotificationsOfProject(db.notifications, db.events, db.channels, projectId),
      NotificationCreated, limit.GetOr(DefaultLimit), offset.GetOr(DefaultOffset));
    JoinsKeepEveryRow(db, projectId);
    resp := JsonResponse(Page(page, |NotificationsCounted(db.notifications, db.events, projectId)|));
  }

  /** The delivery is stored, joins with its channel and event, and its event's project is the caller's. */
  predicate OwnsNotification(db: Db.Database, id: Id, user: UserId)
    reads db
  {
    && id in db.notifications
    && db.notifications[id].channelId in db.channels
    && db.notifications[id].eventId in db.events
    && OwnsProject(db.projects, db.events[db.notifications[id].eventId].projectId, user)
  }

  /** `get`: the delivery, if its event's project is the caller's. */
  method Get(db: Db.Database, session: Option<UserId>, id: Id) returns (resp: Response<Notification>)
    ensures session.None? ==> resp == Unauthorized()
    ensures session.Some? && !OwnsNotification(db, id, session.value) ==> resp == ErrorResponse(NotificationNotFound, 404)
    ensures session.Some? && OwnsNotification(db, id, session.value) ==> resp == JsonResponse(Data(db.notifications[id]))
  {
    if session.None? {
      return Unauthorized();
    }
    if !OwnsNotification(db, id, session.value) {
      return ErrorResponse(NotificationNotFound, 404);
    }
    resp := JsonResponse(Data(db.notifications[id]));
  }
}
