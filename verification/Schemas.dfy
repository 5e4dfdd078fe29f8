/** The runtime configuration of a project, its document, and the dict form kept in Redis. */
module Schemas {
  import opened Prelude

  /** The field names of the stored models. */
  datatype FieldName =
    | FProjectId | FTenantId | FName | FSystemPrompt | FGeminiModel | FVoiceConfig | FVadConfig | FTools
    | FSessionTtlSeconds | FMaxConcurrentSessions | FRateLimitRpm | FAllowedOrigins | FWebhookUrl | FWebhookSecret
    | FDescription | FParameters | FExecutionMode | FStaticResponse | FTimeoutMs
    | FEnabled | FVoiceName | FLanguageCode | FMode

  /** JSON values; a dumped model is an object over its field names. */
  datatype Json =
    | JNull
    | JBool(b: bool)
    | JInt(i: int)
    | JReal(r: real)
    | JStr(s: string)
    | JArr(items: seq<Json>)
    | JObj(members: map<string, Json>)
    | JModel(fields: map<FieldName, Json>)

  datatype ExecutionMode = Static | Webhook

  datatype ToolDefinition = ToolDefinition(
    name: string,
    description: string,
    parameters: map<string, Json>,
    mode: ExecutionMode,
    staticResponse: Option<map<string, Json>>,
    webhookUrl: Option<string>,
    webhookSecret: Option<string>,
    timeoutMs: int)

  datatype VoiceConfig = VoiceConfig(enabled: bool, voiceName: string, languageCode: string)

  datatype VadMode = Auto | Manual

  /** The fields that a project document and its runtime configuration share. */
  datatype Settings = Settings(
    name: string,
    systemPrompt: string,
    geminiModel: string,
    voice: VoiceConfig,
    vad: VadMode,
    tools: seq<ToolDefinition>,
    sessionTtlSeconds: int,
    maxConcurrentSessions: int,
    rateLimitRpm: int,
    allowedOrigins: seq<string>,
    webhookUrl: Option<string>,
    webhookSecret: Option<string>)

  datatype ProjectConfig = ProjectConfig(projectId: string, tenantId: string, settings: Settings)

  datatype ProjectDoc = ProjectDoc(
    id: string,
    tenantId: string,
    settings: Settings,
    description: string,
    updatedAt: real,
    lastAccessed: Option<real>,
    isActive: bool)

  function ToProjectConfig(doc: ProjectDoc): ProjectConfig {
    ProjectConfig(doc.id, doc.tenantId, doc.settings)
  }

  // ---- model_dump -------------------------------------------------------------------------

  function DumpStr(s: Option<string>): Json {
    if s.Some? then JStr(s.value) else JNull
  }

  function DumpTool(t: ToolDefinition): Json {
    JModel(map[
      FName := JStr(t.name),
      FDescription := JStr(t.description),
      FParameters := JObj(t.parameters),
      FExecutionMode := JStr(if t.mode.Static? then "static" else "webhook"),
      FStaticResponse := if t.staticResponse.Some? then JObj(t.staticResponse.value) else JNull,
      FWebhookUrl := DumpStr(t.webhookUrl),
      FWebhookSecret := DumpStr(t.webhookSecret),
      FTimeoutMs := JInt(t.timeoutMs)])
  }

  function DumpTools(ts: seq<ToolDefinition>): seq<Json> {
    if ts == [] then [] else [DumpTool(ts[0])] + DumpTools(ts[1..])
  }

  function DumpStrings(ss: seq<string>): seq<Json> {
    if ss == [] then [] else [JStr(ss[0])] + DumpStrings(ss[1..])
  }

  function DumpVoice(v: VoiceConfig): Json {
    JModel(map[FEnabled := JBool(v.enabled), FVoiceName := JStr(v.voiceName), FLanguageCode := JStr(v.languageCode)])
  }

  function DumpVad(v: VadMode): Json {
    JModel(map[FMode := JStr(if v.Auto? then "auto" else "manual")])
  }

  function ConfigToDict(c: ProjectConfig): map<FieldName, Json> {
    var s := c.settings;
    map[
      FProjectId := JStr(c.projectId),
      FTenantId := JStr(c.tenantId),
      FName := JStr(s.name),
      FSystemPrompt := JStr(s.systemPrompt),
      FGeminiModel := JStr(s.geminiModel),
      FVoiceConfig := DumpVoice(s.voice),
      FVadConfig := DumpVad(s.vad),
      FTools := JArr(DumpTools(s.tools)),
      FSessionTtlSeconds := JInt(s.sessionTtlSeconds),
      FMaxConcurrentSessions := JInt(s.maxConcurrentSessions),
      FRateLimitRpm := JInt(s.rateLimitRpm),
      FAllowedOrigins := JArr(DumpStrings(s.allowedOrigins)),
      FWebhookUrl := DumpStr(s.webhookUrl),
      FWebhookSecret := DumpStr(s.webhookSecret)]
  }

  // ---- model_validate ---------------------------------------------------------------------

  function Str(m: map<FieldName, Json>, k: FieldName, default: Option<string>): Option<string> {
    if k !in m then default else if m[k].JStr? then Some(m[k].s) else None
  }

  function OptStr(m: map<FieldName, Json>, k: FieldName): Option<Option<string>> {
    if k !in m || m[k].JNull? then Some(None) else if m[k].JStr? then Some(Some(m[k].s)) else None
  }

  function Int(m: map<FieldName, Json>, k: FieldName, default: int): Option<int> {
    if k !in m then Some(default) else if m[k].JInt? then Some(m[k].i) else None
  }

  function Bool(m: map<FieldName, Json>, k: FieldName, default: bool): Option<bool> {
    if k !in m then Some(default) else if m[k].JBool? then Some(m[k].b) else None
  }

  function LoadTool(j: Json): Option<ToolDefinition> {
    if !j.JModel? then None
    else
      var m := j.fields;
      var name :- Str(m, FName, None);
      var description :- Str(m, FDescription, None);
      var parameters :- if FParameters in m && m[FParameters].JObj? then Some(m[FParameters].members) else None;
      var modeName :- Str(m, FExecutionMode, Some("static"));
      var mode :- if modeName == "static" then Some(Static) else if modeName == "webhook" then Some(Webhook) else None;
      var response :-
        if FStaticResponse !in m || m[FStaticResponse].JNull? then Some(None)
        else if m[FStaticResponse].JObj? then Some(Some(m[FStaticResponse].members)) else None;
      var url :- OptStr(m, FWebhookUrl);
      var secret :- OptStr(m, FWebhookSecret);
      var timeout :- Int(m, FTimeoutMs, 5000);
      Some(ToolDefinition(name, description, parameters, mode, response, url, secret, timeout))
  }

  function LoadTools(js: seq<Json>): Option<seq<ToolDefinition>> {
    if js == [] then Some([])
    else
      var t :- LoadTool(js[0]);
      var ts :- LoadTools(js[1..]);
      Some([t] + ts)
  }

  function LoadStrings(js: seq<Json>): Option<seq<string>> {
    if js == [] then Some([])
    else if !js[0].JStr? then None
    else
      var ss :- LoadStrings(js[1..]);
      Some([js[0].s] + ss)
  }

  function LoadVoice(m: map<FieldName, Json>): Option<VoiceConfig> {
    if FVoiceConfig !in m then Some(VoiceConfig(true, "Kore", "en-US"))
    else if !m[FVoiceConfig].JModel? then None
    else
      var v := m[FVoiceConfig].fields;
      var enabled :- Bool(v, FEnabled, true);
      var voiceName :- Str(v, FVoiceName, Some("Kore"));
      var languageCode :- Str(v, FLanguageCode, Some("en-US"));
      Some(VoiceConfig(enabled, voiceName, languageCode))
  }

  function LoadVad(m: map<FieldName, Json>): Option<VadMode> {
    if FVadConfig !in m then Some(Manual)
    else if !m[FVadConfig].JModel? then None
    else
      var name :- Str(m[FVadConfig].fields, FMode, Some("manual"));
      if name == "auto" then Some(Auto) else if name == "manual" then Some(Manual) else None
  }

  function LoadSettings(m: map<FieldName, Json>): Option<Settings> {
    var name :- Str(m, FName, None);
    var systemPrompt :- Str(m, FSystemPrompt, None);
    var geminiModel :- Str(m, FGeminiModel, Some("gemini-2.5-flash-native-audio-preview-12-2025"));
    var voice :- LoadVoice(m);
    var vad :- LoadVad(m);
    var tools :- if FTools !in m then Some([]) else if m[FTools].JArr? then LoadTools(m[FTools].items) else None;
    var ttl :- Int(m, FSessionTtlSeconds, 300);
    var cap :- Int(m, FMaxConcurrentSessions, 100);
    var rpm :- Int(m, FRateLimitRpm, 60);
    var origins :-
      if FAllowedOrigins !in m then Some([])
      else if m[FAllowedOrigins].JArr? then LoadStrings(m[FAllowedOrigins].items) else None;
    var url :- OptStr(m, FWebhookUrl);
    var secret :- OptStr(m, FWebhookSecret);
    Some(Settings(name, systemPrompt, geminiModel, voice, vad, tools, ttl, cap, rpm, origins, url, secret))
  }

  function DictToConfig(m: map<FieldName, Json>): Option<ProjectConfig> {
    var projectId :- Str(m, FProjectId, None);
    var tenantId :- Str(m, FTenantId, Some(""));
    var settings :- LoadSettings(m);
    Some(ProjectConfig(projectId, tenantId, settings))
  }

  /** A tool of which only the required fields are stored. */
  lemma ToolDefaults(name: string, description: string, parameters: map<string, Json>)
    ensures LoadTool(JModel(map[
              FName := JStr(name), FDescription := JStr(description), FParameters := JObj(parameters)]))
            == Some(ToolDefinition(name, description, parameters, Static, None, None, None, 5000))
  {
  }

  /** A configuration of which only the required fields are stored. */
  lemma ConfigDefaults(id: string, name: string, prompt: string)
    ensures DictToConfig(map[FProjectId := JStr(id), FName := JStr(name), FSystemPrompt := JStr(prompt)])
            == Some(ProjectConfig(id, "", Settings(
                 name, prompt, "gemini-2.5-flash-native-audio-preview-12-2025", VoiceConfig(true, "Kore", "en-US"),
                 Manual, [], 300, 100, 60, [], None, None)))
  {
  }

  /** A stored execution mode other than the two is refused. */
  lemma OtherModesRefused(m: map<FieldName, Json>)
    requires FExecutionMode in m && m[FExecutionMode] != JStr("static") && m[FExecutionMode] != JStr("webhook")
    ensures LoadTool(JModel(m)) == None
  {
  }

  // ---- The round trip ---------------------------------------------------------------------

  lemma ToolRoundTrip(t: ToolDefinition)
    ensures LoadTool(DumpTool(t)) == Some(t)
  {
    assert "static" != "webhook";
  }

  lemma {:induction false} ToolsRoundTrip(ts: seq<ToolDefinition>)
    ensures LoadTools(DumpTools(ts)) == Some(ts)
  {
    if ts != [] {
      ToolRoundTrip(ts[0]);
      ToolsRoundTrip(ts[1..]);
      assert DumpTools(ts)[1..] == DumpTools(ts[1..]);
      assert ts == [ts[0]] + ts[1..];
    }
  }

  lemma {:induction false} StringsRoundTrip(ss: seq<string>)
    ensures LoadStrings(DumpStrings(ss)) == Some(ss)
  {
    if ss != [] {
      StringsRoundTrip(ss[1..]);
      var js := DumpStrings(ss);
      assert js[0] == JStr(ss[0]) && js[1..] == DumpStrings(ss[1..]);
      assert LoadStrings(js) == Some([ss[0]] + ss[1..]);
      assert ss == [ss[0]] + ss[1..];
    }
  }

  lemma VoiceRoundTrip(m: map<FieldName, Json>, v: VoiceConfig)
    requires FVoiceConfig in m && m[FVoiceConfig] == DumpVoice(v)
    ensures LoadVoice(m) == Some(v)
  {
  }

  lemma VadRoundTrip(m: map<FieldName, Json>, v: VadMode)
    requires FVadConfig in m && m[FVadConfig] == DumpVad(v)
    ensures LoadVad(m) == Some(v)
  {
    assert "auto" != "manual";
  }

  ghost predicate Holds(m: map<FieldName, Json>, k: FieldName, v: Json) {
    k in m && m[k] == v
  }

  ghost predicate HoldsSettings(m: map<FieldName, Json>, s: Settings) {
    && Holds(m, FName, JStr(s.name)) && Holds(m, FSystemPrompt, JStr(s.systemPrompt))
    && Holds(m, FGeminiModel, JStr(s.geminiModel)) && Holds(m, FVoiceConfig, DumpVoice(s.voice))
    && Holds(m, FVadConfig, DumpVad(s.vad)) && Holds(m, FTools, JArr(DumpTools(s.tools)))
    && Holds(m, FSessionTtlSeconds, JInt(s.sessionTtlSeconds))
    && Holds(m, FMaxConcurrentSessions, JInt(s.maxConcurrentSessions))
    && Holds(m, FRateLimitRpm, JInt(s.rateLimitRpm))
    && Holds(m, FAllowedOrigins, JArr(DumpStrings(s.allowedOrigins)))
    && Holds(m, FWebhookUrl, DumpStr(s.webhookUrl)) && Holds(m, FWebhookSecret, DumpStr(s.webhookSecret))
  }

  lemma DictHoldsSettings(c: ProjectConfig)
    ensures var m := ConfigToDict(c);
            HoldsSettings(m, c.settings)
            && Holds(m, FProjectId, JStr(c.projectId)) && Holds(m, FTenantId, JStr(c.tenantId))
  {
  }

  lemma SettingsRoundTrip(m: map<FieldName, Json>, s: Settings)
    requires HoldsSettings(m, s)
    ensures LoadSettings(m) == Some(s)
  {
    ToolsRoundTrip(s.tools);
    StringsRoundTrip(s.allowedOrigins);
    VoiceRoundTrip(m, s.voice);
    VadRoundTrip(m, s.vad);
  }

  /** Reading back what was written to the cache gives the configuration that was written. */
  lemma ConfigRoundTrip(c: ProjectConfig)
    ensures DictToConfig(ConfigToDict(c)) == Some(c)
  {
    DictHoldsSettings(c);
    SettingsRoundTrip(ConfigToDict(c), c.settings);
  }
}
