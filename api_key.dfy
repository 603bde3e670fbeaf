/** API keys: how they are generated and how a presented key is checked. */
module ApiKeys {
  import opened Wrappers
  import opened Records
  import opened Text
  import Db

  const KeyPrefix: string := "indar_sk_"

  /** `generateApiKey`, given the text of the random UUID. */
  function GenerateApiKey(uuid: string): (key: string)
    ensures StartsWith(key, KeyPrefix)
    ensures '-' !in key[|KeyPrefix|..]
    ensures forall c :: c in key[|KeyPrefix|..] <==> c in uuid && c != '-'
  {
    KeyPrefix + RemoveAll(uuid, '-')
  }

  predicate IsHexDigit(c: char) {
    '0' <= c <= '9' || 'a' <= c <= 'f' || 'A' <= c <= 'F'
  }

  predicate AllHex(s: string) {
    forall i :: 0 <= i < |s| ==> IsHexDigit(s[i])
  }

  /** The 8-4-4-4-12 text form of a UUID (section 4 of RFC 9562). */
  predicate IsUuidText(u: string) {
    && |u| == 36
    && u[8] == '-' && u[13] == '-' && u[18] == '-' && u[23] == '-'
    && AllHex(u[..8]) && AllHex(u[9..13]) && AllHex(u[14..18]) && AllHex(u[19..23]) && AllHex(u[24..])
  }

  /** The 32 hex digits of a UUID, in order. */
  function UuidDigits(u: string): string
    requires IsUuidText(u)
  {
    u[..8] + u[9..13] + u[14..18] + u[19..23] + u[24..]
  }

  /** For a UUID in text form, the key is the prefix followed by its 32 hex digits. */
  lemma GeneratedKeyShape(u: string)
    requires IsUuidText(u)
    ensures GenerateApiKey(u) == KeyPrefix + UuidDigits(u)
    ensures |GenerateApiKey(u)| == |KeyPrefix| + 32
    ensures AllHex(GenerateApiKey(u)[|KeyPrefix|..])
  {
    var a, b, c, d, e := u[..8], u[9..13], u[14..18], u[19..23], u[24..];
    assert !IsHexDigit('-');
    assert '-' !in a && '-' !in b && '-' !in c && '-' !in d && '-' !in e;
    RemoveAllAbsent(a, '-');
    RemoveAllAbsent(b, '-');
    RemoveAllAbsent(c, '-');
    RemoveAllAbsent(d, '-');
    RemoveAllAbsent(e, '-');
    var ab, abc, abcd := a + "-" + b, a + "-" + b + "-" + c, a + "-" + b + "-" + c + "-" + d;
    assert u == abcd + "-" + e;
    DropSeparator(a, b);
    DropSeparator(ab, c);
    DropSeparator(abc, d);
    DropSeparator(abcd, e);
  }

  lemma DropSeparator(x: string, y: string)
    ensures RemoveAll(x + "-" + y, '-') == RemoveAll(x, '-') + RemoveAll(y, '-')
  {
    RemoveAllAppend(x + "-", y, '-');
    RemoveAllAppend(x, "-", '-');
    assert RemoveAll("-", '-') == "";
  }

  /** Different UUIDs give different keys. */
  lemma GeneratedKeysDiffer(u: string, v: string)
    requires IsUuidText(u) && IsUuidText(v) && u != v
    ensures GenerateApiKey(u) != GenerateApiKey(v)
  {
    GeneratedKeyShape(u);
    GeneratedKeyShape(v);
    UuidFromDigits(u);
    UuidFromDigits(v);
  }

  /** The hyphenated form of 32 digits. */
  function Hyphenate(d: string): string
    requires |d| == 32
  {
    d[..8] + "-" + d[8..12] + "-" + d[12..16] + "-" + d[16..20] + "-" + d[20..]
  }

  /** A UUID's text is determined by its digits. */
  lemma UuidFromDigits(u: string)
    requires IsUuidText(u)
    ensures |UuidDigits(u)| == 32 && u == Hyphenate(UuidDigits(u))
  {
    var d := UuidDigits(u);
    assert d[..8] == u[..8];
    assert d[8..12] == u[9..13];
    assert d[12..16] == u[14..18];
    assert d[16..20] == u[19..23];
    assert d[20..] == u[24..];
  }

  /** A validated key with the project that owns it. */
  datatype Validated = Validated(apiKey: ApiKey, project: Project)

  /**
   * `validateApiKey`: finds the row holding exactly `key`, joins its
   * project and stamps the row's `lastUsedAt` with `now`. The returned key
   * row is the one read before the stamp.
   */
  method ValidateApiKey(db: Db.Database, key: string, now: Timestamp) returns (r: Option<Validated>)
    requires db.Valid()
    modifies db`apiKeys
    ensures db.Valid()
    ensures r.None? <==> !old(db.HasKeyText(key))
    ensures r.None? ==> db.apiKeys == old(db.apiKeys)
    ensures r.Some? ==>
      var k := r.value.apiKey;
      && k.id in old(db.apiKeys) && old(db.apiKeys)[k.id] == k && k.key == key
      && k.projectId in db.projects && r.value.project == db.projects[k.projectId]
      && r.value.project.id == k.projectId
      && db.apiKeys == old(db.apiKeys)[k.id := k.(lastUsedAt := Some(now))]
  {
    if k :| k in db.apiKeys && db.apiKeys[k].key == key {
      var row := db.apiKeys[k];
      var owner := db.projects[row.projectId];
      db.TouchApiKey(k, now);
      r := Some(Validated(row, owner));
    } else {
      r := None;
    }
  }
}
