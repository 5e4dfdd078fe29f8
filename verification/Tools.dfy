/**
 * A project's tool list under the add, update and delete handlers: what one call does to the
 * stored list, and what holds after any interleaving of the handlers' reads and writes.
 */
module Tools {
  import opened Prelude
  import opened Schemas
  import opened ProjectRepo
  import opened ToolExecutor

  // ---- Plan limits ---------------------------------------------------------------------------

  datatype PlanLimits = PlanLimits(tools: Option<int>, webhookTimeoutMs: int)

  const PLAN_LIMITS: map<string, PlanLimits> := map[
    "free" := PlanLimits(Some(3), 3_000),
    "starter" := PlanLimits(Some(10), 5_000),
    "pro" := PlanLimits(Some(30), 15_000),
    "enterprise" := PlanLimits(None, 30_000)]

  /** An unknown plan has the limits of the free one. */
  function LimitsOf(plan: string): (l: PlanLimits)
    ensures l.webhookTimeoutMs >= 3_000
  {
    if plan in PLAN_LIMITS then PLAN_LIMITS[plan] else PLAN_LIMITS["free"]
  }

  predicate WithinToolLimit(plan: string, count: nat) {
    LimitsOf(plan).tools.Some? ==> count < LimitsOf(plan).tools.value
  }

  function EffectiveTimeout(plan: string, requested: int): int {
    if requested <= LimitsOf(plan).webhookTimeoutMs then requested else LimitsOf(plan).webhookTimeoutMs
  }

  // ---- Parameter validation ------------------------------------------------------------------

  const VALID_PARAM_TYPES: set<string> := {"string", "number", "integer", "boolean", "array", "object"}

  datatype ParameterError =
    | TypeNotObject
    | PropertiesNotObject
    | BadProperty(name: string)
    | RequiredNotList
    | RequiredNotString(index: nat)
    | RequiredUnknown(name: string)

  /** A property schema names a supported type, and its `enum`, if any, is a non-empty list. */
  predicate ValidProperty(j: Json) {
    && j.JObj?
    && "type" in j.members && j.members["type"].JStr? && j.members["type"].s in VALID_PARAM_TYPES
    && ("enum" in j.members ==> j.members["enum"].JArr? && j.members["enum"].items != [])
  }

  function Properties(p: map<string, Json>): Json {
    if "properties" in p then p["properties"] else JObj(map[])
  }

  function Required(p: map<string, Json>): Json {
    if "required" in p then p["required"] else JArr([])
  }

  ghost predicate ValidParameters(p: map<string, Json>) {
    && "type" in p && p["type"] == JStr("object")
    && Properties(p).JObj?
    && (forall k :: k in Properties(p).members ==> ValidProperty(Properties(p).members[k]))
    && Required(p).JArr?
    && (forall i :: 0 <= i < |Required(p).items| ==>
          Required(p).items[i].JStr? && Required(p).items[i].s in Properties(p).members)
  }

  /** Checks every property, in some order, and then the required names in theirs. */
  method ValidateToolParameters(p: map<string, Json>) returns (error: Option<ParameterError>)
    ensures error.None? <==> ValidParameters(p)
    ensures error.Some? && error.value.BadProperty? ==>
              Properties(p).JObj? && error.value.name in Properties(p).members
              && !ValidProperty(Properties(p).members[error.value.name])
    ensures error.Some? && error.value.RequiredUnknown? ==>
              && Properties(p).JObj? && error.value.name !in Properties(p).members
              && Required(p).JArr? && JStr(error.value.name) in Required(p).items
    ensures error == Some(TypeNotObject) <==> !("type" in p && p["type"] == JStr("object"))
    ensures error == Some(PropertiesNotObject) ==> !Properties(p).JObj?
    ensures error == Some(RequiredNotList) ==> !Required(p).JArr?
    ensures error.Some? && error.value.RequiredNotString? ==>
              && Required(p).JArr? && error.value.index < |Required(p).items|
              && !Required(p).items[error.value.index].JStr?
  {
    if "type" !in p || p["type"] != JStr("object") {
      return Some(TypeNotObject);
    }
    var properties := Properties(p);
    if !properties.JObj? {
      return Some(PropertiesNotObject);
    }
    var todo := properties.members.Keys;
    while todo != {}
      invariant todo <= properties.members.Keys
      invariant forall k :: k in properties.members && k !in todo ==> ValidProperty(properties.members[k])
    {
      var name :| name in todo;
      if !ValidProperty(properties.members[name]) {
        return Some(BadProperty(name));
      }
      todo := todo - {name};
    }
    var required := Required(p);
    if !required.JArr? {
      return Some(RequiredNotList);
    }
    for i := 0 to |required.items|
      invariant forall j :: 0 <= j < i ==> required.items[j].JStr? && required.items[j].s in properties.members
    {
      var r := required.items[i];
      if !r.JStr? {
        return Some(RequiredNotString(i));
      }
      if r.s !in properties.members {
        return Some(RequiredUnknown(r.s));
      }
    }
    return None;
  }

  // ---- Requests ------------------------------------------------------------------------------

  datatype CreateTool = CreateTool(
    name: string,
    description: string,
    parameters: map<string, Json>,
    executionMode: string,
    staticResponse: Option<map<string, Json>>,
    webhookUrl: Option<string>,
    webhookSecret: Option<string>,
    timeoutMs: int)

  datatype UpdateTool = UpdateTool(
    description: Option<string>,
    parameters: Option<map<string, Json>>,
    executionMode: Option<string>,
    staticResponse: Option<map<string, Json>>,
    webhookUrl: Option<string>,
    webhookSecret: Option<string>,
    timeoutMs: Option<int>)

  function ModeOf(s: string): Option<ExecutionMode> {
    if s == "static" then Some(Static) else if s == "webhook" then Some(Webhook) else None
  }

  /** ^[a-z][a-z0-9_]*$, at most 64 characters. */
  predicate ValidName(name: string) {
    && 1 <= |name| <= 64
    && 'a' <= name[0] <= 'z'
    && forall i :: 0 <= i < |name| ==> 'a' <= name[i] <= 'z' || '0' <= name[i] <= '9' || name[i] == '_'
  }

  predicate ValidDescription(s: string) { 1 <= |s| <= 1000 }

  predicate ValidTimeout(ms: int) { 100 <= ms <= 30_000 }

  /** A static tool has its response and a webhook tool a URL that is not empty. */
  predicate HasModeField(mode: ExecutionMode, response: Option<map<string, Json>>, url: Option<string>) {
    match mode
    case Static => response.Some?
    case Webhook => url.Some? && url.value != ""
  }

  ghost predicate ValidCreate(r: CreateTool) {
    && ValidName(r.name) && ValidDescription(r.description) && ValidParameters(r.parameters)
    && ValidTimeout(r.timeoutMs) && ModeOf(r.executionMode).Some?
    && HasModeField(ModeOf(r.executionMode).value, r.staticResponse, r.webhookUrl)
  }

  ghost predicate ValidUpdate(r: UpdateTool) {
    && (r.description.Some? ==> ValidDescription(r.description.value))
    && (r.parameters.Some? ==> ValidParameters(r.parameters.value))
    && (r.executionMode.Some? ==> ModeOf(r.executionMode.value).Some?)
    && (r.timeoutMs.Some? ==> ValidTimeout(r.timeoutMs.value))
  }

  // ---- What one call decides -----------------------------------------------------------------

  datatype Edit = Add(create: CreateTool) | Update(name: string, update: UpdateTool) | Delete(name: string)

  datatype Status = Created | Done | NoContent | NotFound | Conflict | Forbidden | Unprocessable | ServerError

  datatype Decision = Refuse(status: Status) | Store(status: Status, tools: seq<ToolDefinition>)

  predicate Used(tools: seq<ToolDefinition>, name: string) {
    exists i :: 0 <= i < |tools| && tools[i].name == name
  }

  /** The first tool of that name, or the length of the list. */
  function First(tools: seq<ToolDefinition>, name: string): (i: nat)
    ensures i <= |tools| && (i < |tools| <==> Used(tools, name))
    ensures i < |tools| ==> tools[i].name == name
    ensures forall j :: 0 <= j < i ==> tools[j].name != name
  {
    if tools == [] then 0
    else if tools[0].name == name then 0
    else
      var i := First(tools[1..], name);
      assert forall j :: 0 < j < |tools| ==> tools[j] == tools[1..][j - 1];
      1 + i
  }

  function Without(tools: seq<ToolDefinition>, name: string): (rest: seq<ToolDefinition>)
    ensures |rest| <= |tools|
  {
    if tools == [] then []
    else (if tools[0].name == name then [] else [tools[0]]) + Without(tools[1..], name)
  }

  function Defined(plan: string, r: CreateTool): ToolDefinition
    requires ModeOf(r.executionMode).Some?
  {
    ToolDefinition(r.name, r.description, r.parameters, ModeOf(r.executionMode).value, r.staticResponse,
                   r.webhookUrl, r.webhookSecret, EffectiveTimeout(plan, r.timeoutMs))
  }

  /** A field that is absent or null in the request keeps its stored value; only a given timeout is capped. */
  function Patched(plan: string, t: ToolDefinition, r: UpdateTool): ToolDefinition
    requires r.executionMode.Some? ==> ModeOf(r.executionMode.value).Some?
  {
    ToolDefinition(
      t.name,
      Or(r.description, t.description),
      Or(r.parameters, t.parameters),
      if r.executionMode.Some? then ModeOf(r.executionMode.value).value else t.mode,
      if r.staticResponse.Some? then r.staticResponse else t.staticResponse,
      if r.webhookUrl.Some? then r.webhookUrl else t.webhookUrl,
      if r.webhookSecret.Some? then r.webhookSecret else t.webhookSecret,
      if r.timeoutMs.Some? then EffectiveTimeout(plan, r.timeoutMs.value) else t.timeoutMs)
  }

  ghost function DecideUpdate(plan: string, tools: seq<ToolDefinition>, name: string, r: UpdateTool): Decision {
    if !ValidUpdate(r) then Refuse(Unprocessable)
    else if !Used(tools, name) then Refuse(NotFound)
    else
      var i := First(tools, name);
      var t := Patched(plan, tools[i], r);
      if !HasModeField(t.mode, t.staticResponse, t.webhookUrl) then Refuse(Unprocessable)
      else Store(Done, tools[i := t])
  }

  ghost function Decide(plan: string, tools: seq<ToolDefinition>, e: Edit): Decision {
    match e
    case Add(r) =>
      if !ValidCreate(r) then Refuse(Unprocessable)
      else if Used(tools, r.name) then Refuse(Conflict)
      else if !WithinToolLimit(plan, |tools|) then Refuse(Forbidden)
      else Store(Created, tools + [Defined(plan, r)])
    case Update(name, r) => DecideUpdate(plan, tools, name, r)
    case Delete(name) =>
      if Used(tools, name) then Store(NoContent, Without(tools, name)) else Refuse(NotFound)
  }

  // ---- What a decision means -----------------------------------------------------------------

  /** How many tools a plan allows in a project. */
  ghost function ToolCap(plan: string): Option<int> {
    if plan == "enterprise" then None
    else if plan == "pro" then Some(30)
    else if plan == "starter" then Some(10)
    else Some(3)
  }

  /** The longest webhook timeout of a plan. */
  ghost function TimeoutCap(plan: string): int {
    if plan == "enterprise" then 30_000
    else if plan == "pro" then 15_000
    else if plan == "starter" then 5_000
    else 3_000
  }

  lemma PlansAre(plan: string)
    ensures LimitsOf(plan).tools == ToolCap(plan) && LimitsOf(plan).webhookTimeoutMs == TimeoutCap(plan)
  {
  }

  /** The timeout asked for, or the plan's if that is less. */
  ghost predicate CappedTimeout(plan: string, asked: int, stored: int) {
    stored <= asked && stored <= TimeoutCap(plan) && (stored == asked || stored == TimeoutCap(plan))
  }

  ghost predicate ModeNamed(name: string, mode: ExecutionMode) {
    (name == "static" && mode == Static) || (name == "webhook" && mode == Webhook)
  }

  /** The stored tool is the one asked for. */
  ghost predicate AsRequested(plan: string, r: CreateTool, t: ToolDefinition) {
    && t.name == r.name && t.description == r.description && t.parameters == r.parameters
    && ModeNamed(r.executionMode, t.mode) && t.staticResponse == r.staticResponse
    && t.webhookUrl == r.webhookUrl && t.webhookSecret == r.webhookSecret
    && CappedTimeout(plan, r.timeoutMs, t.timeoutMs)
  }

  /** When an addition is accepted or refused, and what it stores. */
  lemma AddDecides(plan: string, tools: seq<ToolDefinition>, r: CreateTool)
    ensures var d := Decide(plan, tools, Add(r));
            && (d.status == Unprocessable <==> !ValidCreate(r))
            && (d.status == Conflict <==> ValidCreate(r) && Used(tools, r.name))
            && (d.status == Forbidden <==>
                  && ValidCreate(r) && !Used(tools, r.name)
                  && ToolCap(plan).Some? && |tools| >= ToolCap(plan).value)
            && (d.Store? <==> d.status == Created)
            && (d.Store? <==>
                  && ValidCreate(r) && !Used(tools, r.name)
                  && (ToolCap(plan).None? || |tools| < ToolCap(plan).value))
            && (d.Store? ==>
                  && |d.tools| == |tools| + 1 && d.tools[..|tools|] == tools
                  && AsRequested(plan, r, d.tools[|tools|]))
  {
    PlansAre(plan);
  }

  /** The tool keeps its name, and each field that is given takes the given value. */
  ghost predicate AsUpdated(plan: string, before: ToolDefinition, after: ToolDefinition, r: UpdateTool) {
    && after.name == before.name
    && Set(before.description, after.description, r.description)
    && Set(before.parameters, after.parameters, r.parameters)
    && (if r.executionMode.Some? then ModeNamed(r.executionMode.value, after.mode) else after.mode == before.mode)
    && after.staticResponse == (if r.staticResponse.Some? then r.staticResponse else before.staticResponse)
    && after.webhookUrl == (if r.webhookUrl.Some? then r.webhookUrl else before.webhookUrl)
    && after.webhookSecret == (if r.webhookSecret.Some? then r.webhookSecret else before.webhookSecret)
    && (if r.timeoutMs.Some? then CappedTimeout(plan, r.timeoutMs.value, after.timeoutMs)
        else after.timeoutMs == before.timeoutMs)
  }

  /** The tool has what its mode needs. */
  ghost predicate Runnable(t: ToolDefinition) {
    || (t.mode == Static && t.staticResponse != None)
    || (t.mode == Webhook && t.webhookUrl != None && t.webhookUrl != Some(""))
  }

  /** When an update is accepted or refused, and what it stores, at the place of the first tool of that name. */
  lemma UpdateDecides(plan: string, tools: seq<ToolDefinition>, name: string, r: UpdateTool)
    ensures var d := Decide(plan, tools, Update(name, r));
            && (d.status == NotFound <==> ValidUpdate(r) && !Used(tools, name))
            && (d.Store? <==> d.status == Done)
            && (d.status == NotFound || d.status == Unprocessable || d.status == Done)
            && (d.Store? ==>
                  && |d.tools| == |tools| && First(tools, name) < |tools|
                  && (forall j :: 0 <= j < |tools| && j != First(tools, name) ==> d.tools[j] == tools[j])
                  && AsUpdated(plan, tools[First(tools, name)], d.tools[First(tools, name)], r)
                  && Runnable(d.tools[First(tools, name)]))
            && (ValidUpdate(r) && Used(tools, name) && !d.Store? ==>
                  exists t :: AsUpdated(plan, tools[First(tools, name)], t, r) && !Runnable(t))
  {
    PlansAre(plan);
    if ValidUpdate(r) && Used(tools, name) {
      var t := Patched(plan, tools[First(tools, name)], r);
      PatchedAsUpdated(plan, tools[First(tools, name)], r);
      assert Runnable(t) <==> HasModeField(t.mode, t.staticResponse, t.webhookUrl);
    }
  }

  lemma PatchedAsUpdated(plan: string, t: ToolDefinition, r: UpdateTool)
    requires ValidUpdate(r)
    ensures AsUpdated(plan, t, Patched(plan, t, r), r)
  {
    PlansAre(plan);
  }

  /** A deletion is refused exactly if there is no tool of that name. */
  lemma DeleteDecides(plan: string, tools: seq<ToolDefinition>, name: string)
    ensures var d := Decide(plan, tools, Delete(name));
            && (d.status == NotFound <==> !Used(tools, name)) && (d.status == NoContent <==> Used(tools, name))
            && (d.Store? <==> d.status == NoContent)
            && (d.Store? ==> forall t :: t in d.tools <==> t in tools && t.name != name)
  {
    WithoutMembers(tools, name);
  }

  ghost predicate NameChar(c: char) {
    'a' <= c <= 'z' || '0' <= c <= '9' || c == '_'
  }

  /** What a request to add a tool must meet. */
  lemma CreateRequests(r: CreateTool)
    ensures ValidCreate(r) <==>
              && 1 <= |r.name| <= 64 && 'a' <= r.name[0] <= 'z' && (forall c :: c in r.name ==> NameChar(c))
              && 1 <= |r.description| <= 1000 && 100 <= r.timeoutMs <= 30_000 && ValidParameters(r.parameters)
              && ((r.executionMode == "static" && r.staticResponse != None)
                  || (r.executionMode == "webhook" && r.webhookUrl != None && r.webhookUrl != Some("")))
  {
    assert forall i :: 0 <= i < |r.name| ==> r.name[i] in r.name;
  }

  /** What a request to change a tool must meet. */
  lemma UpdateRequests(r: UpdateTool)
    ensures ValidUpdate(r) <==>
              && (r.description.Some? ==> 1 <= |r.description.value| <= 1000)
              && (r.timeoutMs.Some? ==> 100 <= r.timeoutMs.value <= 30_000)
              && (r.executionMode == None || r.executionMode == Some("static") || r.executionMode == Some("webhook"))
              && (r.parameters.Some? ==> ValidParameters(r.parameters.value))
  {
  }

  /** Parameters are of type object, each property is valid, and each required name is a property. */
  lemma ParametersMean(t: string, properties: map<string, Json>, required: seq<string>)
    ensures var p := map[
              "type" := JStr(t), "properties" := JObj(properties), "required" := JArr(DumpStrings(required))];
            ValidParameters(p) <==>
              && t == "object"
              && (forall k :: k in properties ==> ValidProperty(properties[k]))
              && (forall r :: r in required ==> r in properties)
  {
    var p := map["type" := JStr(t), "properties" := JObj(properties), "required" := JArr(DumpStrings(required))];
    assert p["type"] == JStr(t) && p["properties"] == JObj(properties) && p["required"] == JArr(DumpStrings(required));
    DumpedStrings(required);
    assert forall i :: 0 <= i < |required| ==> required[i] in required;
  }

  lemma {:induction false} DumpedStrings(ss: seq<string>)
    ensures |DumpStrings(ss)| == |ss| && forall i :: 0 <= i < |ss| ==> DumpStrings(ss)[i] == JStr(ss[i])
  {
    if ss != [] { DumpedStrings(ss[1..]); }
  }

  /** An enum must be a non-empty list. */
  lemma EnumsNotEmpty(j: Json)
    ensures var p := map["type" := JStr("string"), "enum" := j];
            ValidProperty(JObj(p)) <==> j.JArr? && j.items != []
  {
    assert map["type" := JStr("string"), "enum" := j]["type"] == JStr("string");
  }

  /** The types that a property may have. */
  lemma TypesSupported(t: string)
    ensures ValidProperty(JObj(map["type" := JStr(t)])) <==>
              t == "string" || t == "number" || t == "integer" || t == "boolean" || t == "array" || t == "object"
  {
    assert map["type" := JStr(t)]["type"] == JStr(t);
  }

  // ---- The handlers --------------------------------------------------------------------------

  /** The request is malformed whatever the stored list is. */
  ghost predicate Malformed(e: Edit) {
    (e.Add? && !ValidCreate(e.create)) || (e.Update? && !ValidUpdate(e.update))
  }

  /** What a handler must answer and leave stored. */
  ghost predicate Applied(before: Docs, after: Docs, pid: string, tenant: string, now: real,
                          plan: string, e: Edit, status: Status)
  {
    if Malformed(e) then status == Unprocessable && after == before
    else if FindById(before, pid, tenant).None? then status == NotFound && after == before
    else
      var d := Decide(plan, before[pid].settings.tools, e);
      && status == d.status
      && after == if d.Store? then Updated(before, pid, tenant, NO_CHANGE.(tools := Some(d.tools)), now) else before
  }

  method AddTool(repo: ProjectRepository, pid: string, tenant: string, plan: string, r: CreateTool, now: real)
    returns (status: Status)
    requires repo.Valid() && tenant != ""
    modifies repo
    ensures repo.Valid()
    ensures Applied(old(repo.docs), repo.docs, pid, tenant, now, plan, Add(r), status)
  {
    var error := ValidateToolParameters(r.parameters);
    if !ValidName(r.name) || !ValidDescription(r.description) || !ValidTimeout(r.timeoutMs) || error.Some?
       || ModeOf(r.executionMode).None?
       || !HasModeField(ModeOf(r.executionMode).value, r.staticResponse, r.webhookUrl) {
      return Unprocessable;
    }
    var doc := FindById(repo.docs, pid, tenant);
    if doc.None? {
      return NotFound;
    }
    var tools := doc.value.settings.tools;
    if First(tools, r.name) < |tools| {
      return Conflict;
    }
    if !WithinToolLimit(plan, |tools|) {
      return Forbidden;
    }
    var updated := repo.SetTools(pid, tenant, tools + [Defined(plan, r)], now);
    return Created;
  }

  /**
   * The stored tool with the fields that the request gives overwritten one by one.  The
   * handler does this on the tool's dict; here on the tool that the dict is the dump of.
   */
  method OverwriteFields(plan: string, t: ToolDefinition, r: UpdateTool) returns (u: ToolDefinition)
    requires r.executionMode.Some? ==> ModeOf(r.executionMode.value).Some?
    ensures u == Patched(plan, t, r)
  {
    u := t;
    if r.description.Some? { u := u.(description := r.description.value); }
    if r.parameters.Some? { u := u.(parameters := r.parameters.value); }
    if r.executionMode.Some? { u := u.(mode := ModeOf(r.executionMode.value).value); }
    if r.staticResponse.Some? { u := u.(staticResponse := r.staticResponse); }
    if r.webhookUrl.Some? { u := u.(webhookUrl := r.webhookUrl); }
    if r.webhookSecret.Some? { u := u.(webhookSecret := r.webhookSecret); }
    if r.timeoutMs.Some? { u := u.(timeoutMs := EffectiveTimeout(plan, r.timeoutMs.value)); }
  }

  method UpdateRequestError(r: UpdateTool) returns (error: bool)
    ensures error <==> !ValidUpdate(r)
  {
    if r.parameters.Some? {
      var e := ValidateToolParameters(r.parameters.value);
      if e.Some? {
        return true;
      }
    }
    return (r.description.Some? && !ValidDescription(r.description.value))
        || (r.executionMode.Some? && ModeOf(r.executionMode.value).None?)
        || (r.timeoutMs.Some? && !ValidTimeout(r.timeoutMs.value));
  }

  method ChangeTool(repo: ProjectRepository, pid: string, tenant: string, plan: string, name: string, r: UpdateTool,
                    now: real)
    returns (status: Status)
    requires repo.Valid() && tenant != ""
    modifies repo
    ensures repo.Valid()
    ensures Applied(old(repo.docs), repo.docs, pid, tenant, now, plan, Update(name, r), status)
  {
    var malformed := UpdateRequestError(r);
    if malformed {
      return Unprocessable;
    }
    var doc := FindById(repo.docs, pid, tenant);
    if doc.None? {
      return NotFound;
    }
    var tools := doc.value.settings.tools;
    var i := First(tools, name);
    if i == |tools| {
      return NotFound;
    }
    var merged := OverwriteFields(plan, tools[i], r);
    ToolRoundTrip(merged);
    var updated := LoadTool(DumpTool(merged));
    if updated.None? {
      return ServerError;
    }
    var t := updated.value;
    if t.mode.Static? && t.staticResponse.None? {
      return Unprocessable;
    }
    if t.mode.Webhook? && (t.webhookUrl.None? || t.webhookUrl.value == "") {
      return Unprocessable;
    }
    var stored := repo.SetTools(pid, tenant, tools[i := t], now);
    return Done;
  }

  method DeleteTool(repo: ProjectRepository, pid: string, tenant: string, name: string, now: real)
    returns (status: Status)
    requires repo.Valid() && tenant != ""
    modifies repo
    ensures repo.Valid()
    ensures Applied(old(repo.docs), repo.docs, pid, tenant, now, "", Delete(name), status)
  {
    var doc := FindById(repo.docs, pid, tenant);
    if doc.None? {
      return NotFound;
    }
    var tools := doc.value.settings.tools;
    var rest := Without(tools, name);
    WithoutShrinks(tools, name);
    if |rest| == |tools| {
      return NotFound;
    }
    var stored := repo.SetTools(pid, tenant, rest, now);
    return NoContent;
  }

  // ---- Facts about one edit ------------------------------------------------------------------

  lemma {:induction false} WithoutShrinks(tools: seq<ToolDefinition>, name: string)
    ensures |Without(tools, name)| < |tools| <==> Used(tools, name)
    ensures !Used(tools, name) ==> Without(tools, name) == tools
  {
    if tools != [] {
      WithoutShrinks(tools[1..], name);
      assert tools == [tools[0]] + tools[1..];
      if Used(tools[1..], name) {
        var i :| 0 <= i < |tools[1..]| && tools[1..][i].name == name;
        assert tools[i + 1].name == name;
      }
    }
  }

  lemma {:induction false} WithoutConcat(a: seq<ToolDefinition>, b: seq<ToolDefinition>, name: string)
    ensures Without(a + b, name) == Without(a, name) + Without(b, name)
  {
    if a == [] {
      assert a + b == b;
    } else {
      var kept := if a[0].name == name then [] else [a[0]];
      WithoutConcat(a[1..], b, name);
      assert (a + b)[0] == a[0] && (a + b)[1..] == a[1..] + b;
      Associates(kept, Without(a[1..], name), Without(b, name));
    }
  }

  lemma Associates<T>(a: seq<T>, b: seq<T>, c: seq<T>)
    ensures a + (b + c) == (a + b) + c
  {
  }

  /** Deleting a tool just added restores the list. */
  lemma AddThenDelete(plan: string, tools: seq<ToolDefinition>, r: CreateTool)
    requires Decide(plan, tools, Add(r)).Store?
    ensures Decide(plan, Decide(plan, tools, Add(r)).tools, Delete(r.name)) == Store(NoContent, tools)
  {
    var t := Defined(plan, r);
    WithoutShrinks(tools, r.name);
    WithoutConcat(tools, [t], r.name);
    assert Without([t], r.name) == [];
    assert (tools + [t])[|tools|].name == r.name;
  }

  /** What is left is what had another name, in the same order. */
  lemma {:induction false} WithoutIs(tools: seq<ToolDefinition>, name: string)
    ensures Without(tools, name) == Filter((t: ToolDefinition) => t.name != name, tools)
  {
    if tools != [] {
      var n := |tools| - 1;
      WithoutIs(tools[..n], name);
      assert tools == tools[..n] + [tools[n]];
      WithoutConcat(tools[..n], [tools[n]], name);
    }
  }

  ghost predicate Unique(tools: seq<ToolDefinition>) {
    forall i, j :: 0 <= i < j < |tools| ==> tools[i].name != tools[j].name
  }

  /** A stored tool that the request models would accept, up to the cap on its timeout. */
  ghost predicate GoodTool(t: ToolDefinition, cap: int) {
    && ValidName(t.name) && ValidDescription(t.description) && ValidParameters(t.parameters)
    && HasModeField(t.mode, t.staticResponse, t.webhookUrl)
    && 100 <= t.timeoutMs <= cap
  }

  ghost predicate GoodList(tools: seq<ToolDefinition>, limit: Option<int>, cap: int) {
    && Unique(tools)
    && (forall i :: 0 <= i < |tools| ==> GoodTool(tools[i], cap))
    && (limit.Some? ==> |tools| <= limit.value)
  }

  /** The plan's limits are no larger than these. */
  ghost predicate Under(plan: string, limit: Option<int>, cap: int) {
    && LimitsOf(plan).webhookTimeoutMs <= cap
    && (limit.Some? ==> LimitsOf(plan).tools.Some? && LimitsOf(plan).tools.value <= limit.value)
  }

  lemma PatchedIsGood(plan: string, t: ToolDefinition, r: UpdateTool, limit: Option<int>, cap: int)
    requires GoodTool(t, cap) && Under(plan, limit, cap) && ValidUpdate(r)
    requires var p := Patched(plan, t, r); HasModeField(p.mode, p.staticResponse, p.webhookUrl)
    ensures GoodTool(Patched(plan, t, r), cap)
  {
  }

  lemma {:induction false} WithoutMembers(tools: seq<ToolDefinition>, name: string)
    ensures forall t :: t in Without(tools, name) <==> t in tools && t.name != name
  {
    if tools != [] {
      WithoutMembers(tools[1..], name);
      assert tools == [tools[0]] + tools[1..];
    }
  }

  lemma {:induction false} WithoutKeepsUnique(tools: seq<ToolDefinition>, name: string)
    requires Unique(tools)
    ensures Unique(Without(tools, name))
  {
    if tools != [] {
      var rest := tools[1..];
      assert forall i :: 0 <= i < |rest| ==> rest[i] == tools[i + 1];
      WithoutKeepsUnique(rest, name);
      WithoutMembers(rest, name);
    }
  }

  lemma WithoutKeepsGood(tools: seq<ToolDefinition>, name: string, limit: Option<int>, cap: int)
    requires GoodList(tools, limit, cap)
    ensures GoodList(Without(tools, name), limit, cap)
  {
    WithoutKeepsUnique(tools, name);
    WithoutMembers(tools, name);
    var rest := Without(tools, name);
    forall i | 0 <= i < |rest| ensures GoodTool(rest[i], cap) {
      assert rest[i] in rest;
    }
  }

  lemma EditKeepsGood(plan: string, tools: seq<ToolDefinition>, e: Edit, limit: Option<int>, cap: int)
    requires GoodList(tools, limit, cap) && Under(plan, limit, cap) && Decide(plan, tools, e).Store?
    ensures GoodList(Decide(plan, tools, e).tools, limit, cap)
  {
    match e {
      case Add(r) =>
      case Update(name, r) =>
        PatchedIsGood(plan, tools[First(tools, name)], r, limit, cap);
      case Delete(name) => WithoutKeepsGood(tools, name, limit, cap);
    }
  }

  // ---- Every interleaving of handlers --------------------------------------------------------

  /** One project: its stored tools, and what each running handler has read. */
  datatype Project = Project(
    tools: seq<ToolDefinition>,
    read: map<nat, seq<ToolDefinition>>,
    answers: seq<(Edit, Status)>)

  datatype Event = Get(call: nat) | Put(call: nat, plan: string, edit: Edit)

  const NEW := Project([], map[], [])

  /** A handler reads the document at Get, and decides and stores the whole list at Put. */
  ghost function Step(s: Project, e: Event): Project {
    match e
    case Get(call) => s.(read := s.read[call := s.tools])
    case Put(call, plan, edit) =>
      if call !in s.read then s
      else
        var d := Decide(plan, s.read[call], edit);
        Project(if d.Store? then d.tools else s.tools, s.read - {call}, s.answers + [(edit, d.status)])
  }

  ghost function Exec(es: seq<Event>): Project {
    if es == [] then NEW else Step(Exec(es[..|es| - 1]), es[|es| - 1])
  }

  /** Every call was made under a plan within these limits. */
  ghost predicate AllUnder(es: seq<Event>, limit: Option<int>, cap: int) {
    forall i :: 0 <= i < |es| && es[i].Put? ==> Under(es[i].plan, limit, cap)
  }

  /**
   * After any interleaving of handlers, names are unique, every tool has the field its mode
   * requires and valid parameters, and count and timeouts are within the largest plan used.
   */
  lemma {:induction false} ToolListInvariant(es: seq<Event>, limit: Option<int>, cap: int)
    requires AllUnder(es, limit, cap) && (limit.Some? ==> limit.value >= 0)
    ensures GoodList(Exec(es).tools, limit, cap)
    ensures forall c :: c in Exec(es).read ==> GoodList(Exec(es).read[c], limit, cap)
  {
    if es != [] {
      ToolListInvariant(es[..|es| - 1], limit, cap);
      var s, e := Exec(es[..|es| - 1]), es[|es| - 1];
      if e.Put? && e.call in s.read && Decide(e.plan, s.read[e.call], e.edit).Store? {
        EditKeepsGood(e.plan, s.read[e.call], e.edit, limit, cap);
      }
    }
  }

  // ---- The executor's view -------------------------------------------------------------------

  /** The first-match scan and the executor's map find the same tool under every name. */
  ghost predicate SameLookup(tools: seq<ToolDefinition>) {
    forall n :: (n in NameMap(tools) <==> Used(tools, n))
                && (Used(tools, n) ==> NameMap(tools)[n] == tools[First(tools, n)])
  }

  /** The map holds the last tool of each name. */
  lemma {:induction false} NameMapIsLast(tools: seq<ToolDefinition>, name: string)
    ensures name in NameMap(tools) <==> Used(tools, name)
    ensures forall i :: 0 <= i < |tools| && tools[i].name == name
                        && (forall j :: i < j < |tools| ==> tools[j].name != name)
                        ==> NameMap(tools)[name] == tools[i]
  {
    if tools != [] {
      var n := |tools| - 1;
      NameMapIsLast(tools[..n], name);
      assert forall i :: 0 <= i < n ==> tools[..n][i] == tools[i];
      if Used(tools, name) && tools[n].name != name {
        var i :| 0 <= i < |tools| && tools[i].name == name;
        assert tools[..n][i].name == name;
      }
    }
  }

  lemma UniqueGivesSameLookup(tools: seq<ToolDefinition>)
    requires Unique(tools)
    ensures SameLookup(tools)
  {
    forall n: string
      ensures (n in NameMap(tools) <==> Used(tools, n))
              && (Used(tools, n) ==> NameMap(tools)[n] == tools[First(tools, n)])
    {
      NameMapIsLast(tools, n);
    }
  }

  /** In every reachable list the executor calls the tool that the update handler would change. */
  lemma {:induction false} ExecutorAgrees(es: seq<Event>)
    ensures SameLookup(Exec(es).tools)
  {
    ToolListInvariant(es, None, 30_000);
    UniqueGivesSameLookup(Exec(es).tools);
  }

  // ---- What calls that do not overlap keep ---------------------------------------------------

  /** Each call stores before the next one reads. */
  ghost function OneByOne(calls: seq<(string, Edit)>): seq<Event> {
    if calls == [] then []
    else
      var n := |calls| - 1;
      OneByOne(calls[..n]) + [Get(n)] + [Put(n, calls[n].0, calls[n].1)]
  }

  ghost function Additions(name: string): ((Edit, Status)) -> bool {
    (a: (Edit, Status)) => a.0.Add? && a.0.create.name == name && a.1 == Created
  }

  ghost function Deletions(name: string): ((Edit, Status)) -> bool {
    (a: (Edit, Status)) => a.0.Delete? && a.0.name == name && a.1 == NoContent
  }

  /** How an answered edit moves a name in or out of the list. */
  lemma DecideMovesName(plan: string, tools: seq<ToolDefinition>, e: Edit, name: string)
    ensures var d := Decide(plan, tools, e);
            var after := if d.Store? then d.tools else tools;
            (if Used(after, name) then 1 else 0)
            == (if Used(tools, name) then 1 else 0)
               + (if Additions(name)((e, d.status)) then 1 else 0) - (if Deletions(name)((e, d.status)) then 1 else 0)
  {
    match e {
      case Add(r) => if Decide(plan, tools, e).Store? { UsedSnoc(tools, Defined(plan, r), name); }
      case Update(n, r) =>
        if Decide(plan, tools, e).Store? {
          UsedUpdate(tools, First(tools, n), Patched(plan, tools[First(tools, n)], r), name);
        }
      case Delete(n) => UsedWithout(tools, n, name);
    }
  }

  lemma UsedSnoc(tools: seq<ToolDefinition>, t: ToolDefinition, name: string)
    ensures Used(tools + [t], name) <==> Used(tools, name) || t.name == name
  {
    assert (tools + [t])[|tools|] == t;
    if Used(tools, name) {
      var i :| 0 <= i < |tools| && tools[i].name == name;
      assert (tools + [t])[i].name == name;
    }
  }

  lemma UsedUpdate(tools: seq<ToolDefinition>, i: nat, t: ToolDefinition, name: string)
    requires i < |tools| && tools[i].name == t.name
    ensures Used(tools[i := t], name) <==> Used(tools, name)
  {
    assert forall j :: 0 <= j < |tools| ==> tools[i := t][j].name == tools[j].name;
  }

  lemma UsedWithout(tools: seq<ToolDefinition>, n: string, name: string)
    ensures Used(Without(tools, n), name) <==> Used(tools, name) && name != n
  {
    var rest := Without(tools, n);
    WithoutMembers(tools, n);
    if Used(rest, name) {
      var i :| 0 <= i < |rest| && rest[i].name == name;
      assert rest[i] in tools;
    }
    if Used(tools, name) && name != n {
      var i :| 0 <= i < |tools| && tools[i].name == name;
      assert tools[i] in rest;
    }
  }

  /** No answered addition or deletion of this name has been lost. */
  ghost predicate Balanced(s: Project, name: string) {
    Count(Additions(name), s.answers) == Count(Deletions(name), s.answers) + if Used(s.tools, name) then 1 else 0
  }

  /** A storing call read a list that agrees with the one now stored as to whether the name is in it. */
  ghost predicate Agrees(s: Project, e: Event, name: string) {
    e.Put? && e.call in s.read && Decide(e.plan, s.read[e.call], e.edit).Store? ==>
      (Used(s.read[e.call], name) <==> Used(s.tools, name))
  }

  /** The account of a name stays balanced exactly when a call that stores has read no other presence of it. */
  lemma StepBalancedIff(s: Project, e: Event, name: string)
    requires Balanced(s, name)
    ensures Balanced(Step(s, e), name) <==> Agrees(s, e, name)
  {
    if e.Put? && e.call in s.read {
      var d := Decide(e.plan, s.read[e.call], e.edit);
      DecideMovesName(e.plan, s.read[e.call], e.edit, name);
      CountSnoc(Additions(name), s.answers, (e.edit, d.status));
      CountSnoc(Deletions(name), s.answers, (e.edit, d.status));
    }
  }

  /** Balanced now and after every earlier step. */
  ghost predicate AlwaysBalanced(es: seq<Event>, name: string) {
    Balanced(Exec(es), name) && (es != [] ==> AlwaysBalanced(es[..|es| - 1], name))
  }

  /** Every step agreed with the list it found. */
  ghost predicate AlwaysAgrees(es: seq<Event>, name: string) {
    es == [] ||
      (AlwaysAgrees(es[..|es| - 1], name) && Agrees(Exec(es[..|es| - 1]), es[|es| - 1], name))
  }

  /**
   * Over every interleaving, the answered additions and deletions of a name account for its
   * presence at every moment exactly when every call that stores read the presence of the
   * name that is now stored.
   */
  lemma {:induction false} NothingIsLostIff(es: seq<Event>, name: string)
    ensures AlwaysBalanced(es, name) <==> AlwaysAgrees(es, name)
  {
    if es != [] {
      var before := es[..|es| - 1];
      NothingIsLostIff(before, name);
      if AlwaysBalanced(before, name) { StepBalancedIff(Exec(before), es[|es| - 1], name); }
    }
  }

  /**
   * In a run of non-overlapping calls, the successful additions of a name outnumber its
   * successful deletions by one if it is in the list, and are as many if it is not.
   */
  lemma {:induction false} NothingIsLost(calls: seq<(string, Edit)>, name: string)
    ensures Balanced(Exec(OneByOne(calls)), name)
  {
    if calls != [] {
      var n := |calls| - 1;
      NothingIsLost(calls[..n], name);
      var (plan, e) := calls[n];
      var es := OneByOne(calls[..n]);
      var s := Exec(es);
      assert (es + [Get(n)])[..|es|] == es;
      assert (es + [Get(n)] + [Put(n, plan, e)])[..|es| + 1] == es + [Get(n)];
      StepBalancedIff(Step(s, Get(n)), Put(n, plan, e), name);
    }
  }

  /** What the stored list would be if every call decided on the list it finds stored. */
  ghost function Serial(es: seq<Event>): seq<ToolDefinition> {
    if es == [] then []
    else
      var before, e := es[..|es| - 1], es[|es| - 1];
      if e.Put? && e.call in Exec(before).read && Decide(e.plan, Serial(before), e.edit).Store?
      then Decide(e.plan, Serial(before), e.edit).tools
      else Serial(before)
  }

  /** Every call that stores or refuses has read the list that is now stored. */
  ghost predicate NothingBetween(es: seq<Event>) {
    es == [] ||
      var before, e := es[..|es| - 1], es[|es| - 1];
      && NothingBetween(before)
      && (e.Put? && e.call in Exec(before).read ==> Exec(before).read[e.call] == Exec(before).tools)
  }

  /** If no other call stores between a call's read and its own store, no update is lost either. */
  lemma {:induction false} SerialWhenNothingBetween(es: seq<Event>)
    requires NothingBetween(es)
    ensures Exec(es).tools == Serial(es)
  {
    if es != [] { SerialWhenNothingBetween(es[..|es| - 1]); }
  }

  /** The name that an edit is about. */
  function Subject(e: Edit): string {
    match e
    case Add(r) => r.name
    case Update(name, _) => name
    case Delete(name) => name
  }

  lemma WithoutUpdate(tools: seq<ToolDefinition>, i: nat, t: ToolDefinition)
    requires i < |tools| && tools[i].name == t.name
    ensures Without(tools[i := t], t.name) == Without(tools, t.name)
  {
    var before, after := tools[..i], tools[i + 1..];
    assert tools == before + ([tools[i]] + after) && tools[i := t] == before + ([t] + after);
    WithoutConcat(before, [tools[i]] + after, t.name);
    WithoutConcat(before, [t] + after, t.name);
    assert ([tools[i]] + after)[1..] == after && ([t] + after)[1..] == after;
  }

  lemma WithoutTwice(tools: seq<ToolDefinition>, name: string)
    ensures Without(Without(tools, name), name) == Without(tools, name)
  {
    UsedWithout(tools, name, name);
    WithoutShrinks(Without(tools, name), name);
  }

  /** An edit leaves every other tool of the list it decides on as it is. */
  lemma DecideKeepsOthers(plan: string, tools: seq<ToolDefinition>, e: Edit)
    requires Decide(plan, tools, e).Store?
    ensures Without(Decide(plan, tools, e).tools, Subject(e)) == Without(tools, Subject(e))
  {
    match e {
      case Add(r) =>
        WithoutConcat(tools, [Defined(plan, r)], r.name);
        assert Without([Defined(plan, r)], r.name) == [];
      case Update(name, r) =>
        var i := First(tools, name);
        WithoutUpdate(tools, i, Patched(plan, tools[i], r));
      case Delete(name) => WithoutTwice(tools, name);
    }
  }

  /**
   * A call that stores leaves every tool of another name, its contents and its place, as stored
   * when it stores, exactly when it has read those tools as they are now stored.
   */
  lemma OthersKeptIff(s: Project, call: nat, plan: string, e: Edit)
    requires call in s.read && Decide(plan, s.read[call], e).Store?
    ensures Without(Step(s, Put(call, plan, e)).tools, Subject(e)) == Without(s.tools, Subject(e))
            <==> Without(s.read[call], Subject(e)) == Without(s.tools, Subject(e))
  {
    DecideKeepsOthers(plan, s.read[call], e);
  }

  /**
   * A call that stores an update makes of its own tool what it would make of the one now stored
   * exactly when both, patched, are the same: when it gives every field in which they differ.
   */
  lemma OwnToolKeptIff(s: Project, call: nat, plan: string, name: string, r: UpdateTool)
    requires call in s.read && Decide(plan, s.read[call], Update(name, r)).Store? && Used(s.tools, name)
    ensures var t := Step(s, Put(call, plan, Update(name, r)));
            var seen, stored := s.read[call][First(s.read[call], name)], s.tools[First(s.tools, name)];
            && t.tools[First(s.read[call], name)] == Patched(plan, seen, r)
            && (Patched(plan, seen, r) == Patched(plan, stored, r) <==> SameBut(seen, stored, r))
  {
  }

  /** The two tools agree in every field that the request leaves as it is. */
  ghost predicate SameBut(a: ToolDefinition, b: ToolDefinition, r: UpdateTool) {
    && a.name == b.name
    && (r.description.None? ==> a.description == b.description)
    && (r.parameters.None? ==> a.parameters == b.parameters)
    && (r.executionMode.None? ==> a.mode == b.mode)
    && (r.staticResponse.None? ==> a.staticResponse == b.staticResponse)
    && (r.webhookUrl.None? ==> a.webhookUrl == b.webhookUrl)
    && (r.webhookSecret.None? ==> a.webhookSecret == b.webhookSecret)
    && (r.timeoutMs.None? ==> a.timeoutMs == b.timeoutMs)
  }

  // ---- What overlapping calls lose -----------------------------------------------------------

  ghost predicate Reachable(s: Project) {
    exists es :: s == Exec(es)
  }

  lemma ReachableStep(s: Project, e: Event) returns (t: Project)
    requires Reachable(s)
    ensures t == Step(s, e) && Reachable(t)
  {
    var es :| s == Exec(es);
    assert (es + [e])[..|es|] == es;
    t := Exec(es + [e]);
  }

  /** Two overlapping adds may both be answered 201 although the first tool is not in the list. */
  lemma OverlappingAddsLoseOne(a: CreateTool, b: CreateTool)
    requires ValidCreate(a) && ValidCreate(b) && a.name != b.name
    ensures exists s :: Reachable(s) && s.answers == [(Add(a), Created), (Add(b), Created)] && !Used(s.tools, a.name)
  {
    assert Exec([]) == NEW;
    var s := ReachableStep(NEW, Get(0));
    s := ReachableStep(s, Get(1));
    s := ReachableStep(s, Put(0, "pro", Add(a)));
    assert s.answers == [(Add(a), Created)] && 1 in s.read && s.read[1] == [];
    s := ReachableStep(s, Put(1, "pro", Add(b)));
    assert s.tools == [Defined("pro", b)];
  }

  const NO_UPDATE := UpdateTool(None, None, None, None, None, None, None)

  lemma WithOneTool(a: CreateTool) returns (s: Project)
    requires ValidCreate(a)
    ensures Reachable(s) && s.tools == [Defined("pro", a)] && s.read == map[] && s.answers == [(Add(a), Created)]
  {
    assert Exec([]) == NEW;
    s := ReachableStep(NEW, Get(0));
    s := ReachableStep(s, Put(0, "pro", Add(a)));
  }

  /** Two overlapping updates may both be answered 200 although the first one's change is gone. */
  lemma OverlappingUpdatesLoseOne(a: CreateTool, description: string, secret: string)
    requires ValidCreate(a) && ValidDescription(description) && description != a.description
    ensures var first := Update(a.name, NO_UPDATE.(description := Some(description)));
            var second := Update(a.name, NO_UPDATE.(webhookSecret := Some(secret)));
            exists s :: Reachable(s) && s.answers == [(Add(a), Created), (first, Done), (second, Done)]
                        && s.tools == [Defined("pro", a).(webhookSecret := Some(secret))]
  {
    var t := Defined("pro", a);
    var first := Update(a.name, NO_UPDATE.(description := Some(description)));
    var second := Update(a.name, NO_UPDATE.(webhookSecret := Some(secret)));
    assert [t][0].name == a.name;
    var s := WithOneTool(a);
    s := ReachableStep(s, Get(1));
    s := ReachableStep(s, Get(2));
    assert s.read[1] == [t] && s.read[2] == [t];
    s := ReachableStep(s, Put(1, "pro", first));
    assert s.answers == [(Add(a), Created), (first, Done)] && s.read[2] == [t];
    assert Decide("pro", [t], second) == Store(Done, [t.(webhookSecret := Some(secret))]);
    s := ReachableStep(s, Put(2, "pro", second));
  }
}
