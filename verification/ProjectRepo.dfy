/** The project repository with its Redis cache, and its agreement with uncached reads. */
module ProjectRepo {
  import opened Prelude
  import opened Schemas
  import opened Redis

  const CACHE_TTL: int := 60

  type Docs = map<string, ProjectDoc>
  type Cache = map<string, Stored<map<FieldName, Json>>>

  /** A partial update: the fields to set, by name. */
  datatype Patch = Patch(
    name: Option<string>, description: Option<string>, systemPrompt: Option<string>, geminiModel: Option<string>,
    voice: Option<VoiceConfig>, vad: Option<VadMode>, tools: Option<seq<ToolDefinition>>,
    sessionTtlSeconds: Option<int>, maxConcurrentSessions: Option<int>, rateLimitRpm: Option<int>,
    allowedOrigins: Option<seq<string>>, webhookUrl: Option<Option<string>>, webhookSecret: Option<Option<string>>,
    isActive: Option<bool>)

  const NO_CHANGE := Patch(None, None, None, None, None, None, None, None, None, None, None, None, None, None)

  function Or<T>(change: Option<T>, current: T): T {
    if change.Some? then change.value else current
  }

  function Apply(doc: ProjectDoc, p: Patch, now: real): ProjectDoc {
    var s := doc.settings;
    doc.(
      settings := Settings(
        Or(p.name, s.name), Or(p.systemPrompt, s.systemPrompt), Or(p.geminiModel, s.geminiModel),
        Or(p.voice, s.voice), Or(p.vad, s.vad), Or(p.tools, s.tools),
        Or(p.sessionTtlSeconds, s.sessionTtlSeconds), Or(p.maxConcurrentSessions, s.maxConcurrentSessions),
        Or(p.rateLimitRpm, s.rateLimitRpm), Or(p.allowedOrigins, s.allowedOrigins),
        Or(p.webhookUrl, s.webhookUrl), Or(p.webhookSecret, s.webhookSecret)),
      description := Or(p.description, doc.description),
      isActive := Or(p.isActive, doc.isActive),
      updatedAt := now)
  }

  /** A field that is given has the given value afterwards, and one that is not its old value. */
  ghost predicate Set<T>(before: T, after: T, change: Option<T>) {
    match change
    case Some(value) => after == value
    case None => after == before
  }

  /** Every field of the patch is set, or left; the rest of the document is as it was. */
  ghost predicate Patched(before: ProjectDoc, after: ProjectDoc, p: Patch) {
    && after.id == before.id && after.tenantId == before.tenantId && after.lastAccessed == before.lastAccessed
    && Set(before.description, after.description, p.description)
    && Set(before.isActive, after.isActive, p.isActive)
    && var a, b := before.settings, after.settings;
       && Set(a.name, b.name, p.name) && Set(a.systemPrompt, b.systemPrompt, p.systemPrompt)
       && Set(a.geminiModel, b.geminiModel, p.geminiModel) && Set(a.voice, b.voice, p.voice)
       && Set(a.vad, b.vad, p.vad) && Set(a.tools, b.tools, p.tools)
       && Set(a.sessionTtlSeconds, b.sessionTtlSeconds, p.sessionTtlSeconds)
       && Set(a.maxConcurrentSessions, b.maxConcurrentSessions, p.maxConcurrentSessions)
       && Set(a.rateLimitRpm, b.rateLimitRpm, p.rateLimitRpm)
       && Set(a.allowedOrigins, b.allowedOrigins, p.allowedOrigins)
       && Set(a.webhookUrl, b.webhookUrl, p.webhookUrl) && Set(a.webhookSecret, b.webhookSecret, p.webhookSecret)
  }

  lemma ApplyPatches(doc: ProjectDoc, p: Patch, now: real)
    ensures Patched(doc, Apply(doc, p, now), p) && Apply(doc, p, now).updatedAt == now
  {
  }

  /** get_by_id: an empty tenant id leaves the query unscoped. */
  function FindById(docs: Docs, pid: string, tenant: string): Option<ProjectDoc> {
    if pid in docs && (tenant == "" || docs[pid].tenantId == tenant) then Some(docs[pid]) else None
  }

  /** What a lookup would answer without a cache. */
  function DirectRead(docs: Docs, pid: string, tenant: string): Option<ProjectConfig> {
    var doc := FindById(docs, pid, tenant);
    if doc.Some? && doc.value.isActive then Some(ToProjectConfig(doc.value)) else None
  }

  /** What a lookup through the cache answers. */
  function CachedRead(docs: Docs, cache: Cache, pid: string, tenant: string, now: real): Option<ProjectConfig> {
    match Get(cache, pid, now)
    case Some(dict) => DictToConfig(dict)
    case None => DirectRead(docs, pid, tenant)
  }

  function FilledCache(docs: Docs, cache: Cache, pid: string, tenant: string, now: real): Cache {
    var config := DirectRead(docs, pid, tenant);
    if Get(cache, pid, now).None? && config.Some? then
      cache[pid := Stored(ConfigToDict(config.value), now + CACHE_TTL as real)]
    else cache
  }

  predicate Matches(docs: Docs, pid: string, tenant: string) {
    pid in docs && docs[pid].tenantId == tenant
  }

  function Updated(docs: Docs, pid: string, tenant: string, p: Patch, now: real): Docs {
    if Matches(docs, pid, tenant) then docs[pid := Apply(docs[pid], p, now)] else docs
  }

  /** Every cache entry is the dump of its project, which exists and is active. */
  ghost predicate Coherent(docs: Docs, cache: Cache) {
    forall pid :: pid in cache ==>
      && pid in docs && docs[pid].isActive && docs[pid].id == pid
      && cache[pid].value == ConfigToDict(ToProjectConfig(docs[pid]))
  }

  ghost predicate Keyed(docs: Docs) {
    forall pid :: pid in docs ==> docs[pid].id == pid
  }

  lemma CoherentHit(docs: Docs, cache: Cache, pid: string, now: real)
    requires Coherent(docs, cache) && Alive(cache, pid, now)
    ensures CachedRead(docs, cache, pid, "", now) == Some(ToProjectConfig(docs[pid]))
  {
    ConfigRoundTrip(ToProjectConfig(docs[pid]));
  }

  /**
   * A lookup through a coherent cache answers exactly what an uncached tenant-scoped read
   * would, unless the entry is a hit for a project that belongs to another tenant.
   */
  lemma CacheHitIgnoresTenant(docs: Docs, cache: Cache, pid: string, tenant: string, now: real)
    requires Coherent(docs, cache)
    ensures CachedRead(docs, cache, pid, tenant, now) == DirectRead(docs, pid, tenant)
            <==> !(Alive(cache, pid, now) && tenant != "" && docs[pid].tenantId != tenant)
  {
    if Alive(cache, pid, now) { CoherentHit(docs, cache, pid, now); }
  }

  class ProjectRepository {
    var docs: Docs
    var cache: Cache

    ghost predicate Valid()
      reads this
    {
      Keyed(docs) && Coherent(docs, cache)
    }

    constructor ()
      ensures Valid() && docs == map[] && cache == map[]
    {
      docs, cache := map[], map[];
    }

    method GetConfigById(pid: string, tenant: string, now: real) returns (config: Option<ProjectConfig>)
      requires Valid()
      modifies this`cache
      ensures Valid()
      ensures pid in docs && docs[pid].tenantId == tenant ==> config == DirectRead(docs, pid, tenant)
      ensures config == CachedRead(docs, old(cache), pid, tenant, now)
      ensures cache == FilledCache(docs, old(cache), pid, tenant, now)
      ensures pid in docs && docs[pid].tenantId == tenant && tenant != "" ==>
                config == if docs[pid].isActive then Some(ProjectConfig(pid, tenant, docs[pid].settings)) else None
      ensures forall q :: q in cache && (q !in old(cache) || cache[q] != old(cache)[q]) ==>
                q == pid && cache[q].dies == now + 60.0
    {
      CacheHitIgnoresTenant(docs, cache, pid, tenant, now);
      var cached := Get(cache, pid, now);
      if cached.Some? {
        return DictToConfig(cached.value);
      }
      var doc := FindById(docs, pid, tenant);
      if doc.None? || !doc.value.isActive {
        return None;
      }
      config := Some(ToProjectConfig(doc.value));
      cache := cache[pid := Stored(ConfigToDict(config.value), now + CACHE_TTL as real)];
    }

    /** The cache is invalidated only if the document has changed. */
    method Update(pid: string, tenant: string, p: Patch, now: real) returns (modified: bool)
      requires Valid()
      modifies this
      ensures Valid()
      ensures docs == Updated(old(docs), pid, tenant, p, now)
      ensures modified <==> docs != old(docs)
      ensures cache == if modified then old(cache) - {pid} else old(cache)
      ensures pid in old(docs) && old(docs)[pid].tenantId == tenant ==>
                pid in docs && Patched(old(docs)[pid], docs[pid], p) && docs[pid].updatedAt == now
      ensures docs.Keys == old(docs).Keys
      ensures forall q :: q in docs && (q != pid || docs[q].tenantId != tenant) ==> docs[q] == old(docs)[q]
    {
      modified := false;
      if Matches(docs, pid, tenant) {
        ApplyPatches(docs[pid], p, now);
        var doc := Apply(docs[pid], p, now);
        modified := doc != docs[pid];
        docs := docs[pid := doc];
      }
      if modified {
        cache := cache - {pid};
      }
    }

    /** Does not invalidate: last_accessed is not part of the configuration. */
    method TouchLastAccessed(pid: string, tenant: string, now: real)
      requires Valid()
      modifies this`docs
      ensures Valid()
      ensures docs == if Matches(old(docs), pid, tenant)
                      then old(docs)[pid := old(docs)[pid].(lastAccessed := Some(now))] else old(docs)
      ensures forall p, t :: DirectRead(docs, p, t) == DirectRead(old(docs), p, t)
    {
      if Matches(docs, pid, tenant) {
        docs := docs[pid := docs[pid].(lastAccessed := Some(now))];
      }
    }

    method SetTools(pid: string, tenant: string, tools: seq<ToolDefinition>, now: real) returns (modified: bool)
      requires Valid()
      modifies this
      ensures Valid()
      ensures docs == Updated(old(docs), pid, tenant, NO_CHANGE.(tools := Some(tools)), now)
      ensures Matches(docs, pid, tenant) ==> docs[pid].settings == old(docs)[pid].settings.(tools := tools)
      ensures Matches(docs, pid, tenant) ==>
                docs[pid] == old(docs)[pid].(settings := docs[pid].settings, updatedAt := now)
    {
      modified := Update(pid, tenant, NO_CHANGE.(tools := Some(tools)), now);
    }

    method SoftDelete(pid: string, tenant: string, now: real) returns (modified: bool)
      requires Valid()
      modifies this
      ensures Valid()
      ensures docs == Updated(old(docs), pid, tenant, NO_CHANGE.(isActive := Some(false)), now)
      ensures Matches(old(docs), pid, tenant) ==> forall t :: CachedRead(docs, cache, pid, t, now) == None
      ensures Matches(old(docs), pid, tenant) ==>
                docs[pid] == old(docs)[pid].(isActive := false, updatedAt := now)
    {
      modified := Update(pid, tenant, NO_CHANGE.(isActive := Some(false)), now);
      if modified {
        cache := cache - {pid};
      }
    }
  }

  // ---- Whole runs of non-overlapping calls -------------------------------------------------

  /** The project and tenant that an API key or a token payload names. */
  datatype Grant = Grant(project: string, tenant: string)

  datatype Platform = Platform(
    now: real,
    docs: Docs,
    cache: Cache,
    keys: map<string, Grant>,
    tokens: map<string, Grant>,
    answers: seq<Option<ProjectConfig>>)

  datatype Op =
    | Wait(elapsed: real)
    | CreateProject(doc: ProjectDoc)
    | UpdateProject(pid: string, tenant: string, patch: Patch)
    | DeleteProject(pid: string, tenant: string)
    | Touch(pid: string, tenant: string)
    | CreateKey(key: string, pid: string, tenant: string)
    | MintToken(token: string, key: string)
    | ConnectWithKey(key: string)
    | ConnectWithToken(token: string)

  const EMPTY := Platform(0.0, map[], map[], map[], map[], [])

  function Read(s: Platform, g: Grant, cached: bool): Option<ProjectConfig> {
    if cached then CachedRead(s.docs, s.cache, g.project, g.tenant, s.now)
    else DirectRead(s.docs, g.project, g.tenant)
  }

  function Filled(s: Platform, g: Grant, cached: bool): Platform {
    if cached then s.(cache := FilledCache(s.docs, s.cache, g.project, g.tenant, s.now)) else s
  }

  function Write(s: Platform, pid: string, tenant: string, p: Patch): Platform {
    var docs := Updated(s.docs, pid, tenant, p, s.now);
    s.(docs := docs, cache := if docs != s.docs then s.cache - {pid} else s.cache)
  }

  /** One API call; with `cached` false every lookup goes straight to the documents. */
  function Step(s: Platform, op: Op, cached: bool): Platform {
    match op
    case Wait(elapsed) => if elapsed >= 0.0 then s.(now := s.now + elapsed) else s
    case CreateProject(doc) =>
      if doc.id in s.docs || doc.tenantId == "" then s else s.(docs := s.docs[doc.id := doc])
    case UpdateProject(pid, tenant, patch) => Write(s, pid, tenant, patch)
    case DeleteProject(pid, tenant) => Write(s, pid, tenant, NO_CHANGE.(isActive := Some(false)))
    case Touch(pid, tenant) =>
      if Matches(s.docs, pid, tenant) then s.(docs := s.docs[pid := s.docs[pid].(lastAccessed := Some(s.now))])
      else s
    case CreateKey(key, pid, tenant) =>
      if tenant == "" || FindById(s.docs, pid, tenant).None? then s
      else s.(keys := s.keys[key := Grant(pid, tenant)])
    case MintToken(token, key) =>
      if key !in s.keys then s
      else
        (match Read(s, s.keys[key], cached)
         case None => Filled(s, s.keys[key], cached)
         case Some(config) =>
           Filled(s, s.keys[key], cached).(tokens := s.tokens[token := Grant(config.projectId, config.tenantId)]))
    case ConnectWithKey(key) =>
      if key !in s.keys then s
      else Filled(s, s.keys[key], cached).(answers := s.answers + [Read(s, s.keys[key], cached)])
    case ConnectWithToken(token) =>
      if token !in s.tokens then s
      else
        Filled(s, s.tokens[token], cached)
          .(tokens := s.tokens - {token}, answers := s.answers + [Read(s, s.tokens[token], cached)])
  }

  function Exec(ops: seq<Op>, cached: bool): Platform {
    if ops == [] then EMPTY else Step(Exec(ops[..|ops| - 1], cached), ops[|ops| - 1], cached)
  }

  ghost predicate Owns(docs: Docs, g: Grant) {
    g.project in docs && docs[g.project].tenantId == g.tenant && g.tenant != ""
  }

  /** Keys and tokens name the tenant that owns their project. */
  ghost predicate Owned(s: Platform) {
    && (forall k :: k in s.keys ==> Owns(s.docs, s.keys[k]))
    && (forall t :: t in s.tokens ==> Owns(s.docs, s.tokens[t]))
  }

  ghost predicate PlatformInv(s: Platform) {
    Keyed(s.docs) && Coherent(s.docs, s.cache) && Owned(s)
  }

  lemma ReadAgrees(s: Platform, g: Grant)
    requires PlatformInv(s) && Owns(s.docs, g)
    ensures Read(s, g, true) == Read(s, g, false)
    ensures Read(s, g, true).Some? ==>
              Grant(Read(s, g, true).value.projectId, Read(s, g, true).value.tenantId) == g
  {
    CacheHitIgnoresTenant(s.docs, s.cache, g.project, g.tenant, s.now);
  }

  lemma FillKeepsInv(s: Platform, g: Grant)
    requires PlatformInv(s)
    ensures PlatformInv(Filled(s, g, true))
  {
  }

  lemma WriteKeepsInv(s: Platform, pid: string, tenant: string, p: Patch)
    requires PlatformInv(s)
    ensures PlatformInv(Write(s, pid, tenant, p))
  {
    if Updated(s.docs, pid, tenant, p, s.now) != s.docs {
      assert Matches(s.docs, pid, tenant);
    }
  }

  lemma CreateKeepsInv(s: Platform, doc: ProjectDoc)
    requires PlatformInv(s)
    ensures PlatformInv(Step(s, CreateProject(doc), true))
  {
  }

  lemma TouchKeepsInv(s: Platform, pid: string, tenant: string)
    requires PlatformInv(s)
    ensures PlatformInv(Step(s, Touch(pid, tenant), true))
  {
  }

  lemma MintKeepsInv(s: Platform, token: string, key: string)
    requires PlatformInv(s)
    ensures PlatformInv(Step(s, MintToken(token, key), true))
  {
    if key in s.keys {
      ReadAgrees(s, s.keys[key]);
      FillKeepsInv(s, s.keys[key]);
    }
  }

  lemma StepKeepsInv(s: Platform, op: Op)
    requires PlatformInv(s)
    ensures PlatformInv(Step(s, op, true))
  {
    match op {
      case UpdateProject(pid, tenant, patch) => WriteKeepsInv(s, pid, tenant, patch);
      case DeleteProject(pid, tenant) => WriteKeepsInv(s, pid, tenant, NO_CHANGE.(isActive := Some(false)));
      case CreateProject(doc) => CreateKeepsInv(s, doc);
      case Touch(pid, tenant) => TouchKeepsInv(s, pid, tenant);
      case MintToken(token, key) => MintKeepsInv(s, token, key);
      case ConnectWithKey(key) => if key in s.keys { FillKeepsInv(s, s.keys[key]); }
      case ConnectWithToken(token) => if token in s.tokens { FillKeepsInv(s, s.tokens[token]); }
      case _ =>
    }
  }

  /** Everything but the cache is the same. */
  ghost predicate Agree(s: Platform, d: Platform) {
    s.(cache := map[]) == d.(cache := map[])
  }

  lemma StepAgrees(s: Platform, d: Platform, op: Op)
    requires PlatformInv(s) && Agree(s, d)
    ensures Agree(Step(s, op, true), Step(d, op, false))
  {
    match op {
      case MintToken(token, key) => if key in s.keys { ReadAgrees(s, s.keys[key]); }
      case ConnectWithKey(key) => if key in s.keys { ReadAgrees(s, s.keys[key]); }
      case ConnectWithToken(token) => if token in s.tokens { ReadAgrees(s, s.tokens[token]); }
      case _ =>
    }
  }

  /**
   * In every run of non-overlapping calls the platform with its cache gives the same answers,
   * keys, tokens and documents as one that reads every configuration from the document.
   */
  lemma {:induction false} CacheRefinesDirectRead(ops: seq<Op>)
    ensures PlatformInv(Exec(ops, true)) && Agree(Exec(ops, true), Exec(ops, false))
    ensures Exec(ops, true).answers == Exec(ops, false).answers
  {
    if ops != [] {
      CacheRefinesDirectRead(ops[..|ops| - 1]);
      StepKeepsInv(Exec(ops[..|ops| - 1], true), ops[|ops| - 1]);
      StepAgrees(Exec(ops[..|ops| - 1], true), Exec(ops[..|ops| - 1], false), ops[|ops| - 1]);
    }
  }
}
