/**
 * The rule handlers (src/server/routes/rules.ts): which of the caller's
 * channels hear which event categories of the caller's project.
 */
module Rules {
  import opened Wrappers
  import opened Records
  import opened Text
  import opened Http
  import opened Query
  import Db

  const ProjectNotFound: string := "Project not found"
  const ChannelNotFound: string := "Channel not found"
  const RuleNotFound: string := "Rule not found"
  const RuleExists: string := "This rule already exists"

  /** A project's rules that join with their channel: `JOIN channel c ... WHERE pcr.projectId = ?`. */
  function RulesOfProject(rules: map<Id, Rule>, channels: map<Id, Channel>, projectId: Id): set<Id> {
    Where(rules, (r: Rule) => r.channelId in channels && r.projectId == projectId)
  }

  function RuleCreated(r: Rule): Timestamp { r.createdAt }

  /** Under the schema's foreign keys the channel join drops no rule: the selection is every rule of the project. */
  lemma {:induction false} ChannelJoinKeepsEveryRule(db: Db.Database, projectId: Id)
    requires db.Valid()
    ensures forall k :: k in RulesOfProject(db.rules, db.channels, projectId) <==> k in db.rules && db.rules[k].projectId == projectId
  {
    forall k | k in db.rules && db.rules[k].projectId == projectId
      ensures k in RulesOfProject(db.rules, db.channels, projectId)
    {
      assert db.rules[k].channelId in db.channels;
    }
  }

  /** `list`: the rules of the caller's project, newest first. */
  method List(db: Db.Database, session: Option<UserId>, projectId: Id) returns (resp: Response<seq<Rule>>)
    ensures session.None? ==> resp == Unauthorized()
    ensures session.Some? && !OwnsProject(db.projects, projectId, session.value) ==> resp == ErrorResponse(ProjectNotFound, 404)
    ensures session.Some? && OwnsProject(db.projects, projectId, session.value) ==>
      && resp.status == 200 && resp.body.Data?
      && IsListing(resp.body.data, db.rules, RulesOfProject(db.rules, db.channels, projectId), RuleCreated)
  {
    if session.None? {
      return Unauthorized();
    }
    if !OwnsProject(db.projects, projectId, session.value) {
      return ErrorResponse(ProjectNotFound, 404);
    }
    var rows := ListNewestFirst(db.rules, RulesOfProject(db.rules, db.channels, projectId), RuleCreated);
    resp := JsonResponse(Data(rows));
  }

  /**
   * `create`: the project is checked before the channel, and both must be
   * the caller's. The category is the trimmed `eventCategory`, or `*`. A
   * triple that is already stored is refused with 409; in every refusal
   * the table is unchanged. Either way the triple is stored afterwards,
   * so a repeated request answers 409.
   */
  method Create(db: Db.Database, session: Option<UserId>, projectId: Id, channelId: Id, category: Option<string>, now: Timestamp)
      returns (resp: Response<Rule>)
    requires db.Valid()
    modifies db`rules, db`nextId
    ensures db.Valid()
    ensures session.None? ==> resp == Unauthorized() && db.rules == old(db.rules)
    ensures session.Some? && !OwnsProject(db.projects, projectId, session.value) ==>
      resp == ErrorResponse(ProjectNotFound, 404) && db.rules == old(db.rules)
    ensures session.Some? && OwnsProject(db.projects, projectId, session.value) && !OwnsChannel(db.channels, channelId, session.value) ==>
      resp == ErrorResponse(ChannelNotFound, 404) && db.rules == old(db.rules)
    ensures session.Some? && OwnsProject(db.projects, projectId, session.value) && OwnsChannel(db.channels, channelId, session.value) ==>
      var eventCategory := TrimmedOr(category, Db.Wildcard);
      var r := Rule(old(db.nextId), projectId, channelId, eventCategory, now);
      && db.HasRule(projectId, channelId, eventCategory)
      && (old(db.HasRule(projectId, channelId, eventCategory)) ==>
            resp == ErrorResponse(RuleExists, 409) && db.rules == old(db.rules))
      && (!old(db.HasRule(projectId, channelId, eventCategory)) ==>
            r.id !in old(db.rules) && db.rules == old(db.rules)[r.id := r] && resp == JsonResponse(Data(r), 201))
  {
    if session.None? {
      return Unauthorized();
    }
    if !OwnsProject(db.projects, projectId, session.value) {
      return ErrorResponse(ProjectNotFound, 404);
    }
    if !OwnsChannel(db.channels, channelId, session.value) {
      return ErrorResponse(ChannelNotFound, 404);
    }
    var id := db.FreshId();
    var eventCategory := TrimmedOr(category, Db.Wildcard);
    var ok := db.InsertRule(id, projectId, channelId, eventCategory, now);
    if !ok {
      return ErrorResponse(RuleExists, 409);
    }
    assert db.rules[id].projectId == projectId && db.rules[id].channelId == channelId && db.rules[id].eventCategory == eventCategory;
    resp := JsonResponse(Data(db.rules[id]), 201);
  }

  /** `delete`: removes exactly the named rule, and only when it belongs to the caller's project. */
  method Delete(db: Db.Database, session: Option<UserId>, projectId: Id, ruleId: Id) returns (resp: Response<()>)
    requires db.Valid()
    modifies db`rules
    ensures db.Valid()
    ensures session.None? ==> resp == Unauthorized() && db.rules == old(db.rules)
    ensures session.Some? && !OwnsProject(db.projects, projectId, session.value) ==>
      resp == ErrorResponse(ProjectNotFound, 404) && db.rules == old(db.rules)
    ensures session.Some? && OwnsProject(db.projects, projectId, session.value) ==>
      if ruleId in old(db.rules) && old(db.rules)[ruleId].projectId == projectId then
        resp == JsonResponse(Done) && db.rules == old(db.rules) - {ruleId}
      else
        resp == ErrorResponse(RuleNotFound, 404) && db.rules == old(db.rules)
  {
    if session.None? {
      return Unauthorized();
    }
    if !OwnsProject(db.projects, projectId, session.value) {
      return ErrorResponse(ProjectNotFound, 404);
    }
    if !(ruleId in db.rules && db.rules[ruleId].projectId == projectId) {
      return ErrorResponse(RuleNotFound, 404);
    }
    db.DeleteRule(ruleId);
    resp := JsonResponse(Done);
  }
}
