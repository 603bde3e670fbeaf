/**
 * The store (src/server/db.ts): one map from id to row per application
 * table. `Valid()` is the schema read as an invariant: every row is filed
 * under its own id, every foreign key points at an existing row, the
 * UNIQUE constraints hold, and ids already handed out are all below
 * `nextId`. Each SQL statement the handlers run is a method here; deletes
 * carry out the ON DELETE CASCADE clauses.
 */
module Db {
  import opened Wrappers
  import opened Records

  /** A table or an index created by `initializeDatabase`. */
  datatype SchemaObject = Table(name: string) | Index(name: string)

  /** Everything `initializeDatabase` declares, each with IF NOT EXISTS. */
  const Schema: set<SchemaObject> := {
    Table("user"), Table("session"), Table("account"), Table("verification"),
    Table("project"), Table("api_key"), Table("channel"), Table("event"),
    Table("notification"), Table("project_channel_rule"),
    Index("idx_project_userId"), Index("idx_api_key_projectId"), Index("idx_api_key_key"),
    Index("idx_channel_userId"), Index("idx_event_projectId"), Index("idx_event_createdAt"),
    Index("idx_notification_eventId"), Index("idx_notification_channelId"),
    Index("idx_project_channel_rule_projectId")
  }

  /** Running CREATE ... IF NOT EXISTS over a database that already holds `present`. */
  function CreateIfNotExists(present: set<SchemaObject>): (r: set<SchemaObject>)
    ensures Schema <= r && present <= r
    ensures forall o :: o in r ==> o in present || o in Schema
  {
    present + Schema
  }

  /** The category a rule gets when none is given: DEFAULT '*'. */
  const Wildcard: string := "*"

  /** The key name DEFAULT 'Default'. */
  const DefaultKeyName: string := "Default"

  /** `enabled INTEGER NOT NULL DEFAULT 1` */
  const EnabledByDefault: int := 1

  /** Two rules that UNIQUE(projectId, channelId, eventCategory) would not both admit. */
  predicate SameTriple(a: Rule, b: Rule) {
    a.projectId == b.projectId && a.channelId == b.channelId && a.eventCategory == b.eventCategory
  }

  // The rows a cascading delete leaves behind.

  /** The rows of `m` that `keep` admits, each unchanged: what a DELETE leaves of a table. */
  function Restrict<T>(m: map<Id, T>, keep: T -> bool): (r: map<Id, T>)
    ensures forall k :: k in r <==> k in m && keep(m[k])
    ensures forall k :: k in r ==> r[k] == m[k]
  {
    map k | k in m && keep(m[k]) :: m[k]
  }

  function KeysNotOf(m: map<Id, ApiKey>, projectId: Id): map<Id, ApiKey> {
    Restrict(m, (a: ApiKey) => a.projectId != projectId)
  }

  function EventsNotOf(m: map<Id, Event>, projectId: Id): map<Id, Event> {
    Restrict(m, (e: Event) => e.projectId != projectId)
  }

  function RulesNotOf(m: map<Id, Rule>, projectId: Id): map<Id, Rule> {
    Restrict(m, (r: Rule) => r.projectId != projectId)
  }

  function RulesNotTo(m: map<Id, Rule>, channelId: Id): map<Id, Rule> {
    Restrict(m, (r: Rule) => r.channelId != channelId)
  }

  /** The notifications whose event is still in `events`. */
  function NotificationsOfEvents(m: map<Id, Notification>, events: map<Id, Event>): map<Id, Notification> {
    Restrict(m, (n: Notification) => n.eventId in events)
  }

  function NotificationsNotTo(m: map<Id, Notification>, channelId: Id): map<Id, Notification> {
    Restrict(m, (n: Notification) => n.channelId != channelId)
  }

  // ----- the schema as invariants over the tables' contents -----

  /** Every id handed out so far is below `nextId`. */
  ghost predicate IdsBelow(ids: set<Id>, nextId: nat) {
    forall k :: k in ids ==> k < nextId
  }

  /** Each row is filed under its own primary key. */
  ghost predicate ProjectsKeyed(m: map<Id, Project>) { forall k :: k in m ==> m[k].id == k }
  ghost predicate KeysKeyed(m: map<Id, ApiKey>) { forall k :: k in m ==> m[k].id == k }
  ghost predicate ChannelsKeyed(m: map<Id, Channel>) { forall k :: k in m ==> m[k].id == k }
  ghost predicate EventsKeyed(m: map<Id, Event>) { forall k :: k in m ==> m[k].id == k }
  ghost predicate NotificationsKeyed(m: map<Id, Notification>) { forall k :: k in m ==> m[k].id == k }
  ghost predicate RulesKeyed(m: map<Id, Rule>) { forall k :: k in m ==> m[k].id == k }

  /**
   * The FOREIGN KEY clauses, plus one invariant the ingestion path keeps:
   * an event's key belongs to the event's project.
   */
  ghost predicate ForeignKeys(
    projects: map<Id, Project>, apiKeys: map<Id, ApiKey>, channels: map<Id, Channel>,
    events: map<Id, Event>, notifications: map<Id, Notification>, rules: map<Id, Rule>)
  {
    && (forall k :: k in apiKeys ==> apiKeys[k].projectId in projects)
    && (forall k :: k in events ==>
          && events[k].projectId in projects
          && events[k].apiKeyId in apiKeys
          && apiKeys[events[k].apiKeyId].projectId == events[k].projectId)
    && (forall k :: k in notifications ==>
          notifications[k].eventId in events && notifications[k].channelId in channels)
    && (forall k :: k in rules ==> rules[k].projectId in projects && rules[k].channelId in channels)
  }

  /** UNIQUE(projectId, channelId, eventCategory) */
  ghost predicate UniqueRules(rules: map<Id, Rule>) {
    forall a, b :: a in rules && b in rules && SameTriple(rules[a], rules[b]) ==> a == b
  }

  /** `key TEXT NOT NULL UNIQUE` */
  ghost predicate UniqueKeyText(apiKeys: map<Id, ApiKey>) {
    forall a, b :: a in apiKeys && b in apiKeys && apiKeys[a].key == apiKeys[b].key ==> a == b
  }

  /** Deleting a project together with what cascades from it leaves no dangling reference. */
  lemma ProjectCascadeKeepsForeignKeys(
    projects: map<Id, Project>, apiKeys: map<Id, ApiKey>, channels: map<Id, Channel>,
    events: map<Id, Event>, notifications: map<Id, Notification>, rules: map<Id, Rule>, id: Id)
    requires ForeignKeys(projects, apiKeys, channels, events, notifications, rules)
    ensures var e := EventsNotOf(events, id);
      ForeignKeys(projects - {id}, KeysNotOf(apiKeys, id), channels, e,
        NotificationsOfEvents(notifications, e), RulesNotOf(rules, id))
  {
    var k, e := KeysNotOf(apiKeys, id), EventsNotOf(events, id);
    forall x | x in e
      ensures e[x].apiKeyId in k && k[e[x].apiKeyId].projectId == e[x].projectId
    {
      assert apiKeys[events[x].apiKeyId].projectId == events[x].projectId;
    }
  }

  class Database {
    var projects: map<Id, Project>
    var apiKeys: map<Id, ApiKey>
    var channels: map<Id, Channel>
    var events: map<Id, Event>
    var notifications: map<Id, Notification>
    var rules: map<Id, Rule>
    /** The next identifier to hand out (stands for `crypto.randomUUID()`). */
    var nextId: nat
    var schema: set<SchemaObject>

    ghost predicate Valid()
      reads this
    {
      && IdsBelow(projects.Keys, nextId) && IdsBelow(apiKeys.Keys, nextId)
      && IdsBelow(channels.Keys, nextId) && IdsBelow(events.Keys, nextId)
      && IdsBelow(notifications.Keys, nextId) && IdsBelow(rules.Keys, nextId)
      && ProjectsKeyed(projects) && KeysKeyed(apiKeys) && ChannelsKeyed(channels)
      && EventsKeyed(events) && NotificationsKeyed(notifications) && RulesKeyed(rules)
      && ForeignKeys(projects, apiKeys, channels, events, notifications, rules)
      && UniqueRules(rules) && UniqueKeyText(apiKeys)
    }

    /** Whether a rule with this (project, channel, category) triple exists. */
    predicate HasRule(projectId: Id, channelId: Id, category: string)
      reads this
    {
      exists r :: r in rules && rules[r].projectId == projectId &&
        rules[r].channelId == channelId && rules[r].eventCategory == category
    }

    /** Whether some api_key row holds exactly this key text. */
    predicate HasKeyText(key: string)
      reads this
    {
      exists k :: k in apiKeys && apiKeys[k].key == key
    }

    /** Whether some event still refers to this key. */
    predicate KeyInUse(keyId: Id)
      reads this
    {
      exists e :: e in events && events[e].apiKeyId == keyId
    }

    constructor ()
      ensures Valid()
      ensures projects == map[] && apiKeys == map[] && channels == map[]
      ensures events == map[] && notifications == map[] && rules == map[]
      ensures schema == {}
    {
      projects, apiKeys, channels := map[], map[], map[];
      events, notifications, rules := map[], map[], map[];
      nextId, schema := 0, {};
    }

    /** `initializeDatabase`: creates what is missing and leaves every row alone. */
    method InitializeDatabase()
      modifies this`schema
      ensures schema == CreateIfNotExists(old(schema))
    {
      schema := CreateIfNotExists(schema);
    }

    /** A new id, used by no row of any table. */
    method FreshId() returns (id: Id)
      requires Valid()
      modifies this`nextId
      ensures Valid() && id == old(nextId) && nextId == id + 1
      ensures id !in projects && id !in apiKeys && id !in channels
      ensures id !in events && id !in notifications && id !in rules
    {
      id := nextId;
      nextId := nextId + 1;
    }

    // ----- project -----

    method InsertProject(id: Id, userId: UserId, name: string, description: string, now: Timestamp)
      requires Valid() && id < nextId && id !in projects
      modifies this`projects
      ensures Valid()
      ensures projects == old(projects)[id := Project(id, userId, name, description, now, now)]
    {
      projects := projects[id := Project(id, userId, name, description, now, now)];
    }

    method UpdateProject(id: Id, name: string, description: string, now: Timestamp)
      requires Valid() && id in projects
      modifies this`projects
      ensures Valid()
      ensures projects == old(projects)[id := old(projects)[id].(name := name, description := description, updatedAt := now)]
    {
      projects := projects[id := projects[id].(name := name, description := description, updatedAt := now)];
    }

    /**
     * DELETE FROM project: the project's keys, events and rules go with it
     * (ON DELETE CASCADE), and with the events their notifications.
     */
    method DeleteProject(id: Id)
      requires Valid()
      modifies this`projects, this`apiKeys, this`events, this`notifications, this`rules
      ensures Valid()
      ensures projects == old(projects) - {id}
      ensures apiKeys == KeysNotOf(old(apiKeys), id)
      ensures events == EventsNotOf(old(events), id)
      ensures notifications == NotificationsOfEvents(old(notifications), events)
      ensures rules == RulesNotOf(old(rules), id)
    {
      var p, k, e := projects - {id}, KeysNotOf(apiKeys, id), EventsNotOf(events, id);
      var n, r := NotificationsOfEvents(notifications, e), RulesNotOf(rules, id);
      ProjectCascadeKeepsForeignKeys(projects, apiKeys, channels, events, notifications, rules, id);
      assert IdsBelow(p.Keys, nextId) && IdsBelow(k.Keys, nextId) && IdsBelow(e.Keys, nextId);
      assert IdsBelow(n.Keys, nextId) && IdsBelow(r.Keys, nextId);
      assert ProjectsKeyed(p) && KeysKeyed(k) && EventsKeyed(e) && NotificationsKeyed(n) && RulesKeyed(r);
      assert UniqueRules(r) && UniqueKeyText(k);
      projects, apiKeys, events, notifications, rules := p, k, e, n, r;
    }

    // ----- api_key -----

    /** INSERT INTO api_key: refused, with nothing inserted, when the key text is taken. */
    method InsertApiKey(id: Id, projectId: Id, key: string, name: string, now: Timestamp) returns (ok: bool)
      requires Valid() && id < nextId && id !in apiKeys && projectId in projects
      modifies this`apiKeys
      ensures Valid()
      ensures ok <==> !old(HasKeyText(key))
      ensures apiKeys == if ok then old(apiKeys)[id := ApiKey(id, projectId, key, name, None, now)] else old(apiKeys)
    {
      ok := !HasKeyText(key);
      if ok {
        apiKeys := apiKeys[id := ApiKey(id, projectId, key, name, None, now)];
      }
    }

    /** UPDATE api_key SET lastUsedAt = now WHERE id = ? */
    method TouchApiKey(id: Id, now: Timestamp)
      requires Valid() && id in apiKeys
      modifies this`apiKeys
      ensures Valid()
      ensures apiKeys == old(apiKeys)[id := old(apiKeys)[id].(lastUsedAt := Some(now))]
    {
      apiKeys := apiKeys[id := apiKeys[id].(lastUsedAt := Some(now))];
    }

    /**
     * DELETE FROM api_key. The event table refers to keys without an
     * ON DELETE action, so with foreign keys on the delete is refused while
     * an event still refers to the key.
     */
    method DeleteApiKey(id: Id) returns (ok: bool)
      requires Valid()
      modifies this`apiKeys
      ensures Valid()
      ensures ok <==> !old(KeyInUse(id))
      ensures apiKeys == if ok then old(apiKeys) - {id} else old(apiKeys)
    {
      ok := !KeyInUse(id);
      if ok {
        apiKeys := apiKeys - {id};
      }
    }

    // ----- channel -----

    /** INSERT INTO channel; `enabled` takes its default, 1. */
    method InsertChannel(id: Id, userId: UserId, kind: ChannelType, name: string, config: string, now: Timestamp)
      requires Valid() && id < nextId && id !in channels
      modifies this`channels
      ensures Valid()
      ensures channels == old(channels)[id := Channel(id, userId, kind, name, config, EnabledByDefault, now, now)]
    {
      channels := channels[id := Channel(id, userId, kind, name, config, EnabledByDefault, now, now)];
    }

    method UpdateChannel(id: Id, name: string, config: string, enabled: int, now: Timestamp)
      requires Valid() && id in channels
      modifies this`channels
      ensures Valid()
      ensures channels == old(channels)[id := old(channels)[id].(name := name, config := config, enabled := enabled, updatedAt := now)]
    {
      channels := channels[id := channels[id].(name := name, config := config, enabled := enabled, updatedAt := now)];
    }

    /** DELETE FROM channel: its rules and notifications go with it. */
    method DeleteChannel(id: Id)
      requires Valid()
      modifies this`channels, this`rules, this`notifications
      ensures Valid()
      ensures channels == old(channels) - {id}
      ensures rules == RulesNotTo(old(rules), id)
      ensures notifications == NotificationsNotTo(old(notifications), id)
    {
      channels := channels - {id};
      rules := RulesNotTo(rules, id);
      notifications := NotificationsNotTo(notifications, id);
    }

    // ----- event -----

    method InsertEvent(e: Event)
      requires Valid() && e.id < nextId && e.id !in events
      requires e.projectId in projects && e.apiKeyId in apiKeys
      requires apiKeys[e.apiKeyId].projectId == e.projectId
      modifies this`events
      ensures Valid()
      ensures events == old(events)[e.id := e]
    {
      events := events[e.id := e];
    }

    // ----- notification -----

    /** INSERT INTO notification (...) VALUES (..., 'pending') */
    method InsertPending(id: Id, eventId: Id, channelId: Id, now: Timestamp)
      requires Valid() && id < nextId && id !in notifications
      requires eventId in events && channelId in channels
      modifies this`notifications
      ensures Valid()
      ensures notifications == old(notifications)[id := Notification(id, eventId, channelId, Pending, None, None, now)]
    {
      notifications := notifications[id := Notification(id, eventId, channelId, Pending, None, None, now)];
    }

    /** UPDATE notification SET status = 'sent', sentAt = now WHERE id = ? */
    method MarkSent(id: Id, now: Timestamp)
      requires Valid() && id in notifications
      modifies this`notifications
      ensures Valid()
      ensures notifications == old(notifications)[id := old(notifications)[id].(status := Sent, sentAt := Some(now))]
    {
      notifications := notifications[id := notifications[id].(status := Sent, sentAt := Some(now))];
    }

    /** UPDATE notification SET status = 'failed', error = ? WHERE id = ? */
    method MarkFailed(id: Id, message: string)
      requires Valid() && id in notifications
      modifies this`notifications
      ensures Valid()
      ensures notifications == old(notifications)[id := old(notifications)[id].(status := Failed, error := Some(message))]
    {
      notifications := notifications[id := notifications[id].(status := Failed, error := Some(message))];
    }

    // ----- project_channel_rule -----

    /** INSERT INTO project_channel_rule: refused, with nothing inserted, on a duplicate triple. */
    method InsertRule(id: Id, projectId: Id, channelId: Id, category: string, now: Timestamp) returns (ok: bool)
      requires Valid() && id < nextId && id !in rules
      requires projectId in projects && channelId in channels
      modifies this`rules
      ensures Valid()
      ensures ok <==> !old(HasRule(projectId, channelId, category))
      ensures rules == if ok then old(rules)[id := Rule(id, projectId, channelId, category, now)] else old(rules)
    {
      ok := !HasRule(projectId, channelId, category);
      if ok {
        rules := rules[id := Rule(id, projectId, channelId, category, now)];
      }
    }

    method DeleteRule(id: Id)
      requires Valid()
      modifies this`rules
      ensures Valid()
      ensures rules == old(rules) - {id}
    {
      rules := rules - {id};
    }
  }
}
