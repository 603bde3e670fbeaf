/**
 * The project and api-key handlers (src/server/routes/projects.ts). Every
 * handler first needs a session; every handler that names a project then
 * answers 404 unless the caller owns it.
 */
module Projects {
  import opened Wrappers
  import opened Records
  import opened Text
  import opened Http
  import opened Query
  import Db
  import ApiKeys

  const NameRequired: string := "Name is required"
  const ProjectNotFound: string := "Project not found"
  const KeyNotFound: string := "API key not found"

  /** What SQLite throws when an INSERT breaks `key TEXT NOT NULL UNIQUE`. */
  const KeyTaken: string := "UNIQUE constraint failed: api_key.key"
  /** What SQLite throws when a DELETE would leave an event's `apiKeyId` dangling. */
  const KeyReferenced: string := "FOREIGN KEY constraint failed"

  /** The caller's projects: `WHERE userId = ?`. */
  function ProjectsOf(projects: map<Id, Project>, user: UserId): set<Id> {
    Where(projects, (p: Project) => p.userId == user)
  }

  /** A project's keys: `WHERE projectId = ?`. */
  function KeysOfProject(apiKeys: map<Id, ApiKey>, projectId: Id): set<Id> {
    Where(apiKeys, (a: ApiKey) => a.projectId == projectId)
  }

  function ProjectCreated(p: Project): Timestamp { p.createdAt }
  function KeyCreated(k: ApiKey): Timestamp { k.createdAt }

  /** `list`: the caller's projects, newest first. */
  method List(db: Db.Database, session: Option<UserId>) returns (resp: Response<seq<Project>>)
    ensures session.None? ==> resp == Unauthorized()
    ensures session.Some? ==>
      && resp.status == 200 && resp.body.Data?
      && IsListing(resp.body.data, db.projects, ProjectsOf(db.projects, session.value), ProjectCreated)
  {
    if session.None? {
      return Unauthorized();
    }
    var rows := ListNewestFirst(db.projects, ProjectsOf(db.projects, session.value), ProjectCreated);
    resp := JsonResponse(Data(rows));
  }

  /** The JSON body of `create`. */
  datatype ProjectInput = ProjectInput(name: Option<string>, description: Option<string>)

  /**
   * `create`: a blank name is refused with nothing stored; otherwise one
   * project is added under a fresh id with the trimmed name and the
   * trimmed description or "".
   */
  method Create(db: Db.Database, session: Option<UserId>, body: ProjectInput, now: Timestamp) returns (resp: Response<Project>)
    requires db.Valid()
    modifies db`projects, db`nextId
    ensures db.Valid()
    ensures session.None? ==> resp == Unauthorized() && db.projects == old(db.projects)
    ensures session.Some? && Missing(body.name) ==> resp == ErrorResponse(NameRequired) && db.projects == old(db.projects)
    ensures session.Some? && !Missing(body.name) ==>
      var p := Project(old(db.nextId), session.value, Trim(body.name.value), TrimmedOr(body.description, ""), now, now);
      && p.id !in old(db.projects)
      && db.projects == old(db.projects)[p.id := p]
      && resp == JsonResponse(Data(p), 201)
  {
    if session.None? {
      return Unauthorized();
    }
    if Missing(body.name) {
      return ErrorResponse(NameRequired);
    }
    var id := db.FreshId();
    db.InsertProject(id, session.value, Trim(body.name.value), TrimmedOr(body.description, ""), now);
    resp := JsonResponse(Data(db.projects[id]), 201);
  }

  /** `get`: the project, if the caller owns it. */
  method Get(db: Db.Database, session: Option<UserId>, id: Id) returns (resp: Response<Project>)
    ensures session.None? ==> resp == Unauthorized()
    ensures session.Some? && !OwnsProject(db.projects, id, session.value) ==> resp == ErrorResponse(ProjectNotFound, 404)
    ensures session.Some? && OwnsProject(db.projects, id, session.value) ==> resp == JsonResponse(Data(db.projects[id]))
  {
    if session.None? {
      return Unauthorized();
    }
    if !OwnsProject(db.projects, id, session.value) {
      return ErrorResponse(ProjectNotFound, 404);
    }
    resp := JsonResponse(Data(db.projects[id]));
  }

  /** The JSON body of `update`; every field may be left out. */
  datatype ProjectPatch = ProjectPatch(name: Option<string>, description: Option<string>)

  /**
   * The row `update` writes: a non-blank new name replaces the old one
   * (trimmed); a given description replaces the old one (trimmed), even
   * when it trims to ""; only an absent description keeps the old one.
   */
  function MergeProject(p: Project, patch: ProjectPatch, now: Timestamp): (q: Project)
    ensures q.id == p.id && q.userId == p.userId && q.createdAt == p.createdAt && q.updatedAt == now
    ensures !IsBlank(p.name) ==> !IsBlank(q.name)
    ensures Missing(patch.name) ==> q.name == p.name
    ensures !Missing(patch.name) ==> q.name == Trim(patch.name.value)
    ensures patch.description.None? ==> q.description == p.description
    ensures patch.description.Some? ==> q.description == Trim(patch.description.value)
    ensures patch.description.Some? ==> Trim(q.description) == q.description
  {
    if patch.description.Some? then
      TrimIdempotent(patch.description.value);
      p.(name := TrimmedOr(patch.name, p.name), description := Trim(patch.description.value), updatedAt := now)
    else
      p.(name := TrimmedOr(patch.name, p.name), updatedAt := now)
  }

  /** Sending the same patch twice leaves the row as sending it once (up to `updatedAt`). */
  lemma MergeProjectIdempotent(p: Project, patch: ProjectPatch, now: Timestamp, later: Timestamp)
    ensures MergeProject(MergeProject(p, patch, now), patch, later) == MergeProject(p, patch, later)
  {
    if patch.description.Some? {
      TrimIdempotent(patch.description.value);
    }
  }

  /** `update`: merges the patch into the caller's project. */
  method Update(db: Db.Database, session: Option<UserId>, id: Id, patch: ProjectPatch, now: Timestamp) returns (resp: Response<Project>)
    requires db.Valid()
    modifies db`projects
    ensures db.Valid()
    ensures session.None? ==> resp == Unauthorized() && db.projects == old(db.projects)
    ensures session.Some? && !OwnsProject(old(db.projects), id, session.value) ==>
      resp == ErrorResponse(ProjectNotFound, 404) && db.projects == old(db.projects)
    ensures session.Some? && OwnsProject(old(db.projects), id, session.value) ==>
      var q := MergeProject(old(db.projects)[id], patch, now);
      db.projects == old(db.projects)[id := q] && resp == JsonResponse(Data(q))
  {
    if session.None? {
      return Unauthorized();
    }
    if !OwnsProject(db.projects, id, session.value) {
      return ErrorResponse(ProjectNotFound, 404);
    }
    var q := MergeProject(db.projects[id], patch, now);
    db.UpdateProject(id, q.name, q.description, now);
    assert db.projects[id] == q;
    resp := JsonResponse(Data(db.projects[id]));
  }

  /** `delete`: removes the caller's project; its keys, events, rules and the events' notifications go with it. */
  method Delete(db: Db.Database, session: Option<UserId>, id: Id) returns (resp: Response<()>)
    requires db.Valid()
    modifies db`projects, db`apiKeys, db`events, db`notifications, db`rules
    ensures db.Valid()
    ensures session.None? || !OwnsProject(old(db.projects), id, session.value) ==>
      && resp == (if session.None? then Unauthorized() else ErrorResponse(ProjectNotFound, 404))
      && db.projects == old(db.projects) && db.apiKeys == old(db.apiKeys) && db.events == old(db.events)
      && db.notifications == old(db.notifications) && db.rules == old(db.rules)
    ensures session.Some? && OwnsProject(old(db.projects), id, session.value) ==>
      && resp == JsonResponse(Done)
      && db.projects == old(db.projects) - {id}
      && db.apiKeys == Db.KeysNotOf(old(db.apiKeys), id)
      && db.events == Db.EventsNotOf(old(db.events), id)
      && db.notifications == Db.NotificationsOfEvents(old(db.notifications), db.events)
      && db.rules == Db.RulesNotOf(old(db.rules), id)
  {
    if session.None? {
      return Unauthorized();
    }
    if !OwnsProject(db.projects, id, session.value) {
      return ErrorResponse(ProjectNotFound, 404);
    }
    db.DeleteProject(id);
    resp := JsonResponse(Done);
  }

  /** `listKeys`: the keys of the caller's project, newest first. */
  method ListKeys(db: Db.Database, session: Option<UserId>, projectId: Id) returns (resp: Response<seq<ApiKey>>)
    ensures session.None? ==> resp == Unauthorized()
    ensures session.Some? && !OwnsProject(db.projects, projectId, session.value) ==> resp == ErrorResponse(ProjectNotFound, 404)
    ensures session.Some? && OwnsProject(db.projects, projectId, session.value) ==>
      && resp.status == 200 && resp.body.Data?
      && IsListing(resp.body.data, db.apiKeys, KeysOfProject(db.apiKeys, projectId), KeyCreated)
  {
    if session.None? {
      return Unauthorized();
    }
    if !OwnsProject(db.projects, projectId, session.value) {
      return ErrorResponse(ProjectNotFound, 404);
    }
    var rows := ListNewestFirst(db.apiKeys, KeysOfProject(db.apiKeys, projectId), KeyCreated);
    resp := JsonResponse(Data(rows));
  }

  /**
   * `createKey`: a key generated from `uuid`, named with the trimmed name or
   * "Default". A key text already stored makes the INSERT throw, which the
   * handler does not catch.
   */
  method CreateKey(db: Db.Database, session: Option<UserId>, projectId: Id, name: Option<string>, uuid: string, now: Timestamp)
      returns (resp: Response<ApiKey>)
    requires db.Valid()
    modifies db`apiKeys, db`nextId
    ensures db.Valid()
    ensures session.None? ==> resp == Unauthorized() && db.apiKeys == old(db.apiKeys)
    ensures session.Some? && !OwnsProject(old(db.projects), projectId, session.value) ==>
      resp == ErrorResponse(ProjectNotFound, 404) && db.apiKeys == old(db.apiKeys)
    ensures session.Some? && OwnsProject(old(db.projects), projectId, session.value) ==>
      var key := ApiKeys.GenerateApiKey(uuid);
      var k := ApiKey(old(db.nextId), projectId, key, TrimmedOr(name, Db.DefaultKeyName), None, now);
      && (old(db.HasKeyText(key)) ==> resp == Uncaught(KeyTaken) && db.apiKeys == old(db.apiKeys))
      && (!old(db.HasKeyText(key)) ==>
            && k.id !in old(db.apiKeys)
            && db.apiKeys == old(db.apiKeys)[k.id := k] && resp == JsonResponse(Data(k), 201))
  {
    if session.None? {
      return Unauthorized();
    }
    if !OwnsProject(db.projects, projectId, session.value) {
      return ErrorResponse(ProjectNotFound, 404);
    }
    var id := db.FreshId();
    var key := ApiKeys.GenerateApiKey(uuid);
    var ok := db.InsertApiKey(id, projectId, key, TrimmedOr(name, Db.DefaultKeyName), now);
    if !ok {
      return Uncaught(KeyTaken);
    }
    resp := JsonResponse(Data(db.apiKeys[id]), 201);
  }

  /**
   * `deleteKey`: 404 unless the key belongs to the caller's project. A key
   * that some event still refers to cannot be deleted: the DELETE throws
   * and the handler does not catch it.
   */
  method DeleteKey(db: Db.Database, session: Option<UserId>, projectId: Id, keyId: Id) returns (resp: Response<()>)
    requires db.Valid()
    modifies db`apiKeys
    ensures db.Valid()
    ensures session.None? ==> resp == Unauthorized() && db.apiKeys == old(db.apiKeys)
    ensures session.Some? && !OwnsProject(old(db.projects), projectId, session.value) ==>
      resp == ErrorResponse(ProjectNotFound, 404) && db.apiKeys == old(db.apiKeys)
    ensures session.Some? && OwnsProject(old(db.projects), projectId, session.value) ==>
      && (!(keyId in old(db.apiKeys) && old(db.apiKeys)[keyId].projectId == projectId) ==>
            resp == ErrorResponse(KeyNotFound, 404) && db.apiKeys == old(db.apiKeys))
      && (keyId in old(db.apiKeys) && old(db.apiKeys)[keyId].projectId == projectId ==>
            && (old(db.KeyInUse(keyId)) ==> resp == Uncaught(KeyReferenced) && db.apiKeys == old(db.apiKeys))
            && (!old(db.KeyInUse(keyId)) ==> resp == JsonResponse(Done) && db.apiKeys == old(db.apiKeys) - {keyId}))
  {
    if session.None? {
      return Unauthorized();
    }
    if !OwnsProject(db.projects, projectId, session.value) {
      return ErrorResponse(ProjectNotFound, 404);
    }
    if !(keyId in db.apiKeys && db.apiKeys[keyId].projectId == projectId) {
      return ErrorResponse(KeyNotFound, 404);
    }
    var ok := db.DeleteApiKey(keyId);
    if !ok {
      return Uncaught(KeyReferenced);
    }
    resp := JsonResponse(Done);
  }
}
