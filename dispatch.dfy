/**
 * `dispatchNotifications`: the fan-out of one event to the channels its
 * project's rules select, with one ledger row per channel that ends as
 * `sent` or `failed`.
 */
module Dispatch {
  import opened Wrappers
  import opened Records
  import opened Json
  import opened Query
  import FirstSeen
  import Db
  import Email
  import Telegram

  /** A `ChannelRule` row of the selection query. */
  datatype MatchedRule = MatchedRule(channelId: Id, kind: ChannelType, config: string, enabled: int)

  /** The services the senders call and the renderer of stored times. */
  datatype Env = Env(
    codec: JsonCodec,
    showTime: Timestamp -> string,
    email: Email.EmailProvider,
    telegram: Telegram.TelegramApi)

  // ----- selection -----

  /** The WHERE clause of the selection query, with its JOIN on the channel. */
  predicate Selects(r: Rule, channels: map<Id, Channel>, projectId: Id, category: string) {
    && r.projectId == projectId
    && (r.eventCategory == Db.Wildcard || r.eventCategory == category)
    && r.channelId in channels
    && channels[r.channelId].enabled == 1
  }

  ghost function Matching(rules: map<Id, Rule>, channels: map<Id, Channel>, projectId: Id, category: string): set<Id> {
    set k | k in rules && Selects(rules[k], channels, projectId, category)
  }

  /** The selected columns for one rule. */
  function RowOf(r: Rule, channels: map<Id, Channel>): MatchedRule
    requires r.channelId in channels
  {
    var c := channels[r.channelId];
    MatchedRule(r.channelId, c.kind, c.config, c.enabled)
  }

  /** `rows` is the answer of the selection query, listing the rules `ruleIds` in some order. */
  ghost predicate IsSelection(ruleIds: seq<Id>, rows: seq<MatchedRule>, rules: map<Id, Rule>, channels: map<Id, Channel>, projectId: Id, category: string) {
    && Enumerates(ruleIds, Matching(rules, channels, projectId, category))
    && |rows| == |ruleIds|
    && forall i :: 0 <= i < |rows| ==>
         ruleIds[i] in rules && rules[ruleIds[i]].channelId in channels &&
         rows[i] == RowOf(rules[ruleIds[i]], channels)
  }

  /** The selection query: every rule of the project for this category or `*` whose channel is enabled. */
  method SelectRules(db: Db.Database, projectId: Id, category: string) returns (ruleIds: seq<Id>, rows: seq<MatchedRule>)
    ensures IsSelection(ruleIds, rows, db.rules, db.channels, projectId, category)
  {
    var rest := db.rules.Keys;
    ruleIds, rows := [], [];
    ghost var selected := Matching(db.rules, db.channels, projectId, category);
    while rest != {}
      invariant rest <= db.rules.Keys
      invariant Enumerates(ruleIds, selected - rest)
      invariant |rows| == |ruleIds|
      invariant forall i :: 0 <= i < |rows| ==>
        ruleIds[i] in db.rules && db.rules[ruleIds[i]].channelId in db.channels &&
        rows[i] == RowOf(db.rules[ruleIds[i]], db.channels)
      decreases rest
    {
      var k :| k in rest;
      var r := db.rules[k];
      if Selects(r, db.channels, projectId, category) {
        assert forall i :: 0 <= i < |ruleIds| ==> ruleIds[i] != k;
        ruleIds, rows := ruleIds + [k], rows + [RowOf(r, db.channels)];
      }
      rest := rest - {k};
    }
  }

  /** Some rule of the project for this category or `*` names the channel. */
  ghost predicate RuleNames(rules: map<Id, Rule>, projectId: Id, category: string, channelId: Id) {
    exists k :: k in rules && rules[k].projectId == projectId && rules[k].channelId == channelId &&
      (rules[k].eventCategory == Db.Wildcard || rules[k].eventCategory == category)
  }

  /** A channel is selected only through a rule of the project with category `*` or the event's, and only when enabled. */
  lemma SelectedChannels(ruleIds: seq<Id>, rows: seq<MatchedRule>, rules: map<Id, Rule>, channels: map<Id, Channel>, projectId: Id, category: string)
    requires IsSelection(ruleIds, rows, rules, channels, projectId, category)
    ensures forall row :: row in rows ==>
      && row.channelId in channels && channels[row.channelId].enabled == 1 && row.enabled == 1
      && RuleNames(rules, projectId, category, row.channelId)
    ensures forall k :: k in rules && Selects(rules[k], channels, projectId, category) ==>
      RowOf(rules[k], channels) in rows
  {
    forall row | row in rows
      ensures row.channelId in channels && channels[row.channelId].enabled == 1 && row.enabled == 1
      ensures RuleNames(rules, projectId, category, row.channelId)
    {
      var i :| 0 <= i < |rows| && rows[i] == row;
      assert ruleIds[i] in Matching(rules, channels, projectId, category);
    }
    forall k | k in rules && Selects(rules[k], channels, projectId, category)
      ensures RowOf(rules[k], channels) in rows
    {
      assert k in Matching(rules, channels, projectId, category);
      var i :| 0 <= i < |ruleIds| && ruleIds[i] == k;
      assert rows[i] == RowOf(rules[k], channels);
    }
  }

  // ----- deduplication -----

  function ChannelOf(r: MatchedRule): Id {
    r.channelId
  }

  /** The `filter` with its `seen` set: the first row for each channel, in order. */
  method Deduplicate(rows: seq<MatchedRule>) returns (unique: seq<MatchedRule>)
    ensures unique == FirstSeen.Dedup(rows, ChannelOf)
  {
    var seen: set<Id> := {};
    unique := [];
    for i := 0 to |rows|
      invariant unique + FirstSeen.DedupFrom(rows[i..], ChannelOf, seen) == FirstSeen.Dedup(rows, ChannelOf)
    {
      assert rows[i..] == [rows[i]] + rows[i + 1..];
      FirstSeen.DedupFromCons(rows[i], rows[i + 1..], ChannelOf, seen);
      if rows[i].channelId !in seen {
        seen := seen + {rows[i].channelId};
        unique := unique + [rows[i]];
      }
    }
    assert rows[|rows|..] == [];
  }

  // ----- delivery -----

  /** Parses the channel's config and hands the event to the sender of the channel's type. */
  function Deliver(row: MatchedRule, e: Event, env: Env): Outcome {
    match env.codec.parse(row.config)
    case Err(ex) => Threw(ex)
    case Ok(config) =>
      match row.kind
      case Email => Email.SendEmail(config, e, env.codec, env.showTime, env.email)
      case Telegram => Telegram.SendTelegram(config, e, env.codec, env.telegram)
  }

  const UnknownError: string := "Unknown error"

  /** The ledger row for one channel once its delivery has ended. */
  function Finalised(id: Id, eventId: Id, channelId: Id, outcome: Outcome, now: Timestamp): (n: Notification)
    ensures Terminal(n)
    ensures n.id == id && n.eventId == eventId && n.channelId == channelId && n.createdAt == now
    ensures n.status == Sent <==> outcome.Completed?
    ensures outcome.Completed? ==> n.sentAt == Some(now)
    ensures outcome.Threw? ==> n.error == Some(outcome.ex.MessageOr(UnknownError))
  {
    match outcome
    case Completed => Notification(id, eventId, channelId, Sent, None, Some(now), now)
    case Threw(ex) => Notification(id, eventId, channelId, Failed, Some(ex.MessageOr(UnknownError)), None, now)
  }

  /** The row `ids[i]` records the delivery of `rows[i]`. */
  function RowFor(ids: seq<Id>, rows: seq<MatchedRule>, i: nat, e: Event, env: Env, now: Timestamp): Notification
    requires i < |ids| == |rows|
  {
    Finalised(ids[i], e.id, rows[i].channelId, Deliver(rows[i], e, env), now)
  }

  /**
   * `after` is the notification table `before` plus one row per delivered
   * channel: `ids[i]` records the delivery to `rows[i]`, and no older row
   * changes.
   */
  ghost predicate Recorded(before: map<Id, Notification>, after: map<Id, Notification>, ids: seq<Id>, rows: seq<MatchedRule>, e: Event, env: Env, now: Timestamp) {
    && |ids| == |rows|
    && (forall k :: k in after <==> k in before || k in ids)
    && (forall k :: k in before ==> after[k] == before[k])
    && (forall i :: 0 <= i < |ids| ==> after[ids[i]] == RowFor(ids, rows, i, e, env, now))
  }

  /** Delivering one more channel under an unused id extends the record by that row. */
  lemma RecordedStep(before: map<Id, Notification>, mid: map<Id, Notification>, ids: seq<Id>, rows: seq<MatchedRule>,
                     id: Id, row: MatchedRule, e: Event, env: Env, now: Timestamp)
    requires Recorded(before, mid, ids, rows, e, env, now) && id !in mid
    ensures Recorded(before, mid[id := Finalised(id, e.id, row.channelId, Deliver(row, e, env), now)], ids + [id], rows + [row], e, env, now)
  {
    var ids', rows' := ids + [id], rows + [row];
    forall i | 0 <= i < |ids|
      ensures RowFor(ids', rows', i, e, env, now) == RowFor(ids, rows, i, e, env, now)
    {
      assert ids'[i] == ids[i] && rows'[i] == rows[i];
    }
    assert forall k :: k in ids' <==> k in ids || k == id;
  }

  /** Every new row is terminal and belongs to the event and to its row's channel. */
  lemma RecordedRows(before: map<Id, Notification>, after: map<Id, Notification>, ids: seq<Id>, rows: seq<MatchedRule>, e: Event, env: Env, now: Timestamp)
    requires Recorded(before, after, ids, rows, e, env, now)
    ensures forall i :: 0 <= i < |ids| ==>
      && ids[i] in after && Terminal(after[ids[i]])
      && after[ids[i]].eventId == e.id && after[ids[i]].channelId == rows[i].channelId
      && (after[ids[i]].status == Sent <==> Deliver(rows[i], e, env).Completed?)
  {
    forall i | 0 <= i < |ids|
      ensures ids[i] in after && Terminal(after[ids[i]])
      ensures after[ids[i]].eventId == e.id && after[ids[i]].channelId == rows[i].channelId
      ensures after[ids[i]].status == Sent <==> Deliver(rows[i], e, env).Completed?
    {
      assert ids[i] in ids;
      var n := Finalised(ids[i], e.id, rows[i].channelId, Deliver(rows[i], e, env), now);
      assert after[ids[i]] == n;
    }
  }

  /**
   * One turn of the delivery loop: a fresh id, the `pending` row, the
   * sender, and the row's final state.
   */
  method DeliverOne(db: Db.Database, e: Event, row: MatchedRule, env: Env, now: Timestamp) returns (id: Id)
    requires db.Valid() && e.id in db.events && row.channelId in db.channels
    modifies db`notifications, db`nextId
    ensures db.Valid() && id == old(db.nextId) && db.nextId == id + 1 && id !in old(db.notifications)
    ensures db.notifications == old(db.notifications)[id := Finalised(id, e.id, row.channelId, Deliver(row, e, env), now)]
  {
    id := db.FreshId();
    ghost var before := db.notifications;
    var pending := Notification(id, e.id, row.channelId, Pending, None, None, now);
    db.InsertPending(id, e.id, row.channelId, now);
    assert db.notifications == before[id := pending];
    var outcome := Deliver(row, e, env);
    ghost var final := Finalised(id, e.id, row.channelId, outcome, now);
    if outcome.Completed? {
      db.MarkSent(id, now);
      assert final == pending.(status := Sent, sentAt := Some(now));
    } else {
      db.MarkFailed(id, outcome.ex.MessageOr(UnknownError));
      assert final == pending.(status := Failed, error := Some(outcome.ex.MessageOr(UnknownError)));
    }
    OverwriteTwice(before, id, pending, final);
  }

  /** Writing a row twice leaves only the second write. */
  lemma OverwriteTwice(m: map<Id, Notification>, id: Id, first: Notification, second: Notification)
    ensures m[id := first][id := second] == m[id := second]
  {
  }

  /**
   * `dispatchNotifications(event, projectId)`. For each matched channel,
   * first seen first, it takes a fresh id, inserts the `pending` row, runs
   * the sender and finalises the row; a failure only marks that row.
   */
  method DispatchNotifications(db: Db.Database, e: Event, projectId: Id, env: Env, now: Timestamp)
      returns (ruleIds: seq<Id>, matched: seq<MatchedRule>, created: seq<Id>)
    requires db.Valid() && e.id in db.events
    modifies db`notifications, db`nextId
    ensures db.Valid()
    ensures IsSelection(ruleIds, matched, db.rules, db.channels, projectId, e.channel)
    ensures |created| == |FirstSeen.Dedup(matched, ChannelOf)| && Distinct(created)
    ensures forall i :: 0 <= i < |created| ==> created[i] !in old(db.notifications) && old(db.nextId) <= created[i] < db.nextId
    ensures Recorded(old(db.notifications), db.notifications, created, FirstSeen.Dedup(matched, ChannelOf), e, env, now)
  {
    ruleIds, matched := SelectRules(db, projectId, e.channel);
    var unique := Deduplicate(matched);
    FirstSeen.DedupFromSubset(matched, ChannelOf, {});
    forall row | row in unique ensures row.channelId in db.channels {
      var i :| 0 <= i < |matched| && matched[i] == row;
    }
    created := DeliverAll(db, e, unique, env, now);
  }

  /** The `for` loop over the deduplicated rows. */
  method DeliverAll(db: Db.Database, e: Event, unique: seq<MatchedRule>, env: Env, now: Timestamp) returns (created: seq<Id>)
    requires db.Valid() && e.id in db.events
    requires forall row :: row in unique ==> row.channelId in db.channels
    modifies db`notifications, db`nextId
    ensures db.Valid()
    ensures |created| == |unique| && Distinct(created)
    ensures forall i :: 0 <= i < |created| ==> created[i] !in old(db.notifications) && old(db.nextId) <= created[i] < db.nextId
    ensures Recorded(old(db.notifications), db.notifications, created, unique, e, env, now)
  {
    created := [];
    for i := 0 to |unique|
      invariant db.Valid()
      invariant |created| == i && Distinct(created)
      invariant forall j :: 0 <= j < i ==> created[j] !in old(db.notifications) && old(db.nextId) <= created[j] < db.nextId
      invariant old(db.nextId) <= db.nextId
      invariant Recorded(old(db.notifications), db.notifications, created, unique[..i], e, env, now)
    {
      assert unique[i] in unique;
      assert unique[..i + 1] == unique[..i] + [unique[i]];
      created := DeliverNext(db, e, unique[..i], unique[i], created, env, now, old(db.notifications), old(db.nextId));
    }
    assert unique[..|unique|] == unique;
  }

  /** The body of the delivery loop: one more channel delivered, the record extended by its row. */
  method DeliverNext(db: Db.Database, e: Event, done: seq<MatchedRule>, row: MatchedRule, created: seq<Id>, env: Env, now: Timestamp,
                     ghost before: map<Id, Notification>, ghost lo: Id) returns (created': seq<Id>)
    requires db.Valid() && e.id in db.events && row.channelId in db.channels
    requires Distinct(created) && lo <= db.nextId
    requires forall j :: 0 <= j < |created| ==> created[j] !in before && lo <= created[j] < db.nextId
    requires Recorded(before, db.notifications, created, done, e, env, now)
    modifies db`notifications, db`nextId
    ensures db.Valid() && Distinct(created') && lo <= db.nextId && |created'| == |created| + 1
    ensures forall j :: 0 <= j < |created'| ==> created'[j] !in before && lo <= created'[j] < db.nextId
    ensures Recorded(before, db.notifications, created', done + [row], e, env, now)
  {
    ghost var mid := db.notifications;
    var id := DeliverOne(db, e, row, env, now);
    RecordedStep(before, mid, created, done, id, row, e, env, now);
    created' := created + [id];
  }

  /**
   * Deduplication keeps one row per matched channel: channels are pairwise
   * different, every matched channel is kept and nothing else appears.
   */
  lemma UniqueChannels(matched: seq<MatchedRule>)
    ensures var unique := FirstSeen.Dedup(matched, ChannelOf);
      && (forall i, j :: 0 <= i < j < |unique| ==> unique[i].channelId != unique[j].channelId)
      && (forall row :: row in matched ==> exists i :: 0 <= i < |unique| && unique[i].channelId == row.channelId)
      && (forall i :: 0 <= i < |unique| ==> unique[i] in matched)
  {
    var unique := FirstSeen.Dedup(matched, ChannelOf);
    FirstSeen.DedupFromDistinct(matched, ChannelOf, {});
    FirstSeen.DedupFromKeys(matched, ChannelOf, {});
    FirstSeen.DedupFromSubset(matched, ChannelOf, {});
    forall row | row in matched ensures exists i :: 0 <= i < |unique| && unique[i].channelId == row.channelId {
      var m :| 0 <= m < |matched| && matched[m] == row;
      assert FirstSeen.KeysOf(matched, ChannelOf)[m] == row.channelId;
      var ks := FirstSeen.KeysOf(unique, ChannelOf);
      assert row.channelId in ks;
      var i :| 0 <= i < |ks| && ks[i] == row.channelId;
    }
  }

  lemma ChannelsCarriedOver(after: map<Id, Notification>, created: seq<Id>, unique: seq<MatchedRule>)
    requires |created| == |unique|
    requires forall i :: 0 <= i < |created| ==> created[i] in after && after[created[i]].channelId == unique[i].channelId
    requires forall i, j :: 0 <= i < j < |unique| ==> unique[i].channelId != unique[j].channelId
    ensures forall i, j :: 0 <= i < j < |created| ==> after[created[i]].channelId != after[created[j]].channelId
  {
  }

  /** After a dispatch each matched channel has exactly one new row, and nothing else is new. */
  lemma DispatchOneRowPerChannel(before: map<Id, Notification>, after: map<Id, Notification>, created: seq<Id>, matched: seq<MatchedRule>, e: Event, env: Env, now: Timestamp)
    requires Recorded(before, after, created, FirstSeen.Dedup(matched, ChannelOf), e, env, now)
    ensures forall i :: 0 <= i < |created| ==> created[i] in after && Terminal(after[created[i]]) && after[created[i]].eventId == e.id
    ensures forall i, j :: 0 <= i < j < |created| ==> after[created[i]].channelId != after[created[j]].channelId
    ensures forall row :: row in matched ==>
      exists i :: 0 <= i < |created| && after[created[i]].channelId == row.channelId
    ensures forall i :: 0 <= i < |created| ==>
      exists row :: row in matched && after[created[i]].channelId == row.channelId
  {
    var unique := FirstSeen.Dedup(matched, ChannelOf);
    RecordedRows(before, after, created, unique, e, env, now);
    UniqueChannels(matched);
    ChannelsCarriedOver(after, created, unique);
    forall row | row in matched
      ensures exists i :: 0 <= i < |created| && after[created[i]].channelId == row.channelId
    {
      var i :| 0 <= i < |unique| && unique[i].channelId == row.channelId;
      assert after[created[i]].channelId == row.channelId;
    }
    forall i | 0 <= i < |created|
      ensures exists row :: row in matched && after[created[i]].channelId == row.channelId
    {
      assert unique[i] in matched;
    }
  }
}
