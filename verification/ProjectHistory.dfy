/** Where every setting of an answered configuration comes from, told by the calls of the run alone. */
module ProjectHistory {
  import opened Prelude
  import opened Schemas
  import opened ProjectRepo

  /** The settings by name, as they are stored. */
  ghost function SettingValue(s: Settings, f: FieldName): Option<Json> {
    match f
    case FName => Some(JStr(s.name))
    case FSystemPrompt => Some(JStr(s.systemPrompt))
    case FGeminiModel => Some(JStr(s.geminiModel))
    case FVoiceConfig => Some(DumpVoice(s.voice))
    case FVadConfig => Some(DumpVad(s.vad))
    case FTools => Some(JArr(DumpTools(s.tools)))
    case FSessionTtlSeconds => Some(JInt(s.sessionTtlSeconds))
    case FMaxConcurrentSessions => Some(JInt(s.maxConcurrentSessions))
    case FRateLimitRpm => Some(JInt(s.rateLimitRpm))
    case FAllowedOrigins => Some(JArr(DumpStrings(s.allowedOrigins)))
    case FWebhookUrl => Some(DumpStr(s.webhookUrl))
    case FWebhookSecret => Some(DumpStr(s.webhookSecret))
    case _ => None
  }

  ghost function Dumped<T>(change: Option<T>, dump: T -> Json): Option<Json> {
    if change.Some? then Some(dump(change.value)) else None
  }

  /** What an update gives for a setting, if it gives it. */
  ghost function Given(p: Patch, f: FieldName): Option<Json> {
    match f
    case FName => Dumped(p.name, x => JStr(x))
    case FSystemPrompt => Dumped(p.systemPrompt, x => JStr(x))
    case FGeminiModel => Dumped(p.geminiModel, x => JStr(x))
    case FVoiceConfig => Dumped(p.voice, x => DumpVoice(x))
    case FVadConfig => Dumped(p.vad, x => DumpVad(x))
    case FTools => Dumped(p.tools, x => JArr(DumpTools(x)))
    case FSessionTtlSeconds => Dumped(p.sessionTtlSeconds, x => JInt(x))
    case FMaxConcurrentSessions => Dumped(p.maxConcurrentSessions, x => JInt(x))
    case FRateLimitRpm => Dumped(p.rateLimitRpm, x => JInt(x))
    case FAllowedOrigins => Dumped(p.allowedOrigins, x => JArr(DumpStrings(x)))
    case FWebhookUrl => Dumped(p.webhookUrl, x => DumpStr(x))
    case FWebhookSecret => Dumped(p.webhookSecret, x => DumpStr(x))
    case _ => None
  }

  /** The call creates this project: it has an owner, and its id is new. */
  ghost predicate Creates(before: seq<Op>, op: Op, pid: string) {
    op.CreateProject? && op.doc.id == pid && op.doc.tenantId != "" && OwnerOf(before, pid).None?
  }

  /** The tenant that created the project. */
  ghost function OwnerOf(ops: seq<Op>, pid: string): Option<string> {
    if ops == [] then None
    else
      var before, op := ops[..|ops| - 1], ops[|ops| - 1];
      var owner := OwnerOf(before, pid);
      if owner.Some? then owner
      else if op.CreateProject? && op.doc.id == pid && op.doc.tenantId != "" then Some(op.doc.tenantId)
      else None
  }

  /** An update of this project by its owner. */
  ghost predicate Changes(before: seq<Op>, op: Op, pid: string) {
    op.UpdateProject? && op.pid == pid && OwnerOf(before, pid) == Some(op.tenant)
  }

  ghost predicate Deletes(before: seq<Op>, op: Op, pid: string) {
    op.DeleteProject? && op.pid == pid && OwnerOf(before, pid) == Some(op.tenant)
  }

  /** The setting last given: by the latest update of the owner that gives it, or else at the creation. */
  ghost function LastGiven(ops: seq<Op>, pid: string, f: FieldName): Option<Json> {
    if ops == [] then None
    else
      var before, op := ops[..|ops| - 1], ops[|ops| - 1];
      if Creates(before, op, pid) then SettingValue(op.doc.settings, f)
      else if Changes(before, op, pid) && Given(op.patch, f).Some? then Given(op.patch, f)
      else LastGiven(before, pid, f)
  }

  /** The project is active: by the latest update that says so, and not deleted since. */
  ghost function ActiveNow(ops: seq<Op>, pid: string): bool {
    if ops == [] then false
    else
      var before, op := ops[..|ops| - 1], ops[|ops| - 1];
      if Creates(before, op, pid) then op.doc.isActive
      else if Changes(before, op, pid) && op.patch.isActive.Some? then op.patch.isActive.value
      else if Deletes(before, op, pid) then false
      else ActiveNow(before, pid)
  }

  /** The stored project is what the calls made of it. */
  ghost predicate Told(ops: seq<Op>, docs: Docs, pid: string) {
    && (pid in docs <==> OwnerOf(ops, pid).Some?)
    && (pid in docs ==>
          && docs[pid].id == pid
          && OwnerOf(ops, pid) == Some(docs[pid].tenantId)
          && docs[pid].isActive == ActiveNow(ops, pid)
          && forall f :: SettingValue(docs[pid].settings, f) == LastGiven(ops, pid, f))
  }

  /** An update changes the settings that it gives, to what it gives. */
  lemma PatchSetsGiven(a: ProjectDoc, b: ProjectDoc, p: Patch, f: FieldName)
    requires Patched(a, b, p)
    ensures SettingValue(b.settings, f) ==
            if Given(p, f).Some? then Given(p, f) else SettingValue(a.settings, f)
  {
  }

  lemma WriteTold(ops: seq<Op>, s: Platform, op: Op, pid: string, p: Patch)
    requires Told(ops, s.docs, pid)
    requires op.UpdateProject? || op.DeleteProject?
    requires p == if op.UpdateProject? then op.patch else NO_CHANGE.(isActive := Some(false))
    ensures Told(ops + [op], Write(s, op.pid, op.tenant, p).docs, pid)
  {
    assert (ops + [op])[..|ops|] == ops;
    if Matches(s.docs, op.pid, op.tenant) && op.pid == pid {
      var a := s.docs[pid];
      var b := Apply(a, p, s.now);
      ApplyPatches(a, p, s.now);
      forall f ensures SettingValue(b.settings, f) == LastGiven(ops + [op], pid, f) {
        PatchSetsGiven(a, b, p, f);
        assert op.DeleteProject? ==> Given(p, f) == None;
      }
    }
  }

  /** A call that is no creation, update or deletion leaves the settings. */
  lemma OtherTold(ops: seq<Op>, s: Platform, op: Op, pid: string, cached: bool)
    requires Told(ops, s.docs, pid) && !op.CreateProject? && !op.UpdateProject? && !op.DeleteProject?
    ensures Told(ops + [op], Step(s, op, cached).docs, pid)
  {
    assert (ops + [op])[..|ops|] == ops;
    var t := Step(s, op, cached);
    assert pid in t.docs <==> pid in s.docs;
    assert pid in s.docs ==> t.docs[pid] == s.docs[pid].(lastAccessed := t.docs[pid].lastAccessed);
  }

  lemma CreateTold(ops: seq<Op>, s: Platform, doc: ProjectDoc, pid: string, cached: bool)
    requires Told(ops, s.docs, pid)
    ensures Told(ops + [CreateProject(doc)], Step(s, CreateProject(doc), cached).docs, pid)
  {
    assert (ops + [CreateProject(doc)])[..|ops|] == ops;
  }

  lemma {:induction false} RunTold(ops: seq<Op>, pid: string, cached: bool)
    ensures Told(ops, Exec(ops, cached).docs, pid)
  {
    if ops != [] {
      var before, op := ops[..|ops| - 1], ops[|ops| - 1];
      var s := Exec(before, cached);
      RunTold(before, pid, cached);
      assert before + [op] == ops;
      match op {
        case CreateProject(doc) => CreateTold(before, s, doc, pid, cached);
        case UpdateProject(_, _, patch) => WriteTold(before, s, op, pid, patch);
        case DeleteProject(_, _) => WriteTold(before, s, op, pid, NO_CHANGE.(isActive := Some(false)));
        case _ => OtherTold(before, s, op, pid, cached);
      }
    }
  }

  /** What a connection is answered for a project: nothing, or its configuration as last given. */
  ghost predicate AnswerTold(ops: seq<Op>, g: Grant, answer: Option<ProjectConfig>) {
    && (answer.Some? <==> ActiveNow(ops, g.project))
    && (answer.Some? ==>
          && answer.value.projectId == g.project && answer.value.tenantId == g.tenant
          && OwnerOf(ops, g.project) == Some(g.tenant)
          && forall f :: SettingValue(answer.value.settings, f) == LastGiven(ops, g.project, f))
  }

  lemma ReadTold(ops: seq<Op>, g: Grant)
    requires Owns(Exec(ops, true).docs, g)
    ensures AnswerTold(ops, g, Read(Exec(ops, true), g, true))
  {
    CacheRefinesDirectRead(ops);
    RunTold(ops, g.project, true);
    ReadAgrees(Exec(ops, true), g);
  }

  /**
   * After any run of non-overlapping calls, a connection is answered through the cache exactly if
   * the project is active; and then each setting is the one given by the owner's last update that
   * gave it, or at the creation.
   */
  lemma {:induction false} ConnectsToLastGiven(ops: seq<Op>, credential: string)
    ensures var s := Exec(ops, true);
            credential in s.keys ==>
              var t := Step(s, ConnectWithKey(credential), true);
              |t.answers| == |s.answers| + 1 && AnswerTold(ops, s.keys[credential], t.answers[|s.answers|])
    ensures var s := Exec(ops, true);
            credential in s.tokens ==>
              var t := Step(s, ConnectWithToken(credential), true);
              |t.answers| == |s.answers| + 1 && AnswerTold(ops, s.tokens[credential], t.answers[|s.answers|])
  {
    var s := Exec(ops, true);
    CacheRefinesDirectRead(ops);
    if credential in s.keys { ReadTold(ops, s.keys[credential]); }
    if credential in s.tokens { ReadTold(ops, s.tokens[credential]); }
  }
}
