/**
 * Refresh tokens: the repository, and its documents under every interleaving of logins,
 * rotations (find, delete, insert), revocations and removal of expired documents.  A hash
 * verifies exactly the raw token it was made from; ids, raw tokens and families are fresh.
 */
module AuthTokens {
  import opened Prelude

  const REFRESH_TTL: real := 604_800.0

  datatype TokenDoc = TokenDoc(id: string, raw: string, tenant: string, family: string, expiresAt: real)

  /** The query of a lookup; no tenant, or an empty one, searches them all. */
  predicate InQuery(d: TokenDoc, tenant: Option<string>, now: real) {
    d.expiresAt > now && (tenant.Some? && tenant.value != "" ==> d.tenant == tenant.value)
  }

  /** A tenant was named, and the document is another's. */
  ghost predicate OutOfScope(d: TokenDoc, tenant: Option<string>) {
    tenant.Some? && tenant.value != "" && d.tenant != tenant.value
  }

  predicate Verifies(d: TokenDoc, raw: string) {
    d.raw == raw
  }

  function FindMatch(docs: seq<TokenDoc>, raw: string, tenant: Option<string>, now: real): (m: Option<TokenDoc>)
    ensures m.Some? ==> m.value in docs && InQuery(m.value, tenant, now) && Verifies(m.value, raw)
    ensures m.None? ==> forall d :: d in docs && InQuery(d, tenant, now) ==> !Verifies(d, raw)
  {
    if docs == [] then None
    else if InQuery(docs[0], tenant, now) && Verifies(docs[0], raw) then Some(docs[0])
    else FindMatch(docs[1..], raw, tenant, now)
  }

  function ById(docs: seq<TokenDoc>, id: string): (m: Option<TokenDoc>)
    ensures m.Some? ==> m.value in docs && m.value.id == id
    ensures m.None? ==> forall d :: d in docs ==> d.id != id
  {
    if docs == [] then None else if docs[0].id == id then Some(docs[0]) else ById(docs[1..], id)
  }

  /** delete_one by id. */
  function DeleteOne(docs: seq<TokenDoc>, id: string): seq<TokenDoc> {
    if docs == [] then [] else if docs[0].id == id then docs[1..] else [docs[0]] + DeleteOne(docs[1..], id)
  }

  function OfTenant(tenant: string): TokenDoc -> bool {
    (d: TokenDoc) => d.tenant == tenant
  }

  function OfFamily(tenant: string, family: string): TokenDoc -> bool {
    (d: TokenDoc) => d.tenant == tenant && d.family == family
  }

  function Not(p: TokenDoc -> bool): TokenDoc -> bool {
    (d: TokenDoc) => !p(d)
  }

  /** What create inserts. */
  function NewDoc(tenant: string, family: string, id: string, raw: string, now: real): TokenDoc {
    TokenDoc(id, raw, tenant, family, now + REFRESH_TTL)
  }

  /** The successor of a consumed document. */
  function Successor(d: TokenDoc, id: string, raw: string, now: real): TokenDoc {
    NewDoc(d.tenant, d.family, id, raw, now)
  }

  class AuthTokenRepository {
    var docs: seq<TokenDoc>

    constructor ()
      ensures docs == []
    {
      docs := [];
    }

    method Create(tenant: string, family: string, id: string, raw: string, now: real) returns (doc: TokenDoc)
      modifies this
      ensures doc == TokenDoc(id, raw, tenant, family, now + REFRESH_TTL)
      ensures docs == old(docs) + [doc]
      ensures doc.expiresAt == now + 7.0 * 86_400.0
    {
      doc := TokenDoc(id, raw, tenant, family, now + REFRESH_TTL);
      docs := docs + [doc];
    }

    /** Uninterrupted; a token that does not match changes nothing, not even its family. */
    method VerifyAndRotate(raw: string, tenant: Option<string>, now: real, newId: string, newRaw: string, later: real)
      returns (result: Option<TokenDoc>)
      modifies this
      ensures var m := FindMatch(old(docs), raw, tenant, now);
              if m.None? then result == None && docs == old(docs)
              else
                && result == Some(Successor(m.value, newId, newRaw, later))
                && docs == DeleteOne(old(docs), m.value.id) + [result.value]
      ensures result.None? <==>
                forall d :: d in old(docs) && d.raw == raw ==> d.expiresAt <= now || OutOfScope(d, tenant)
      ensures result.Some? ==>
                && result.value.raw == newRaw && result.value.id == newId
                && result.value.expiresAt == later + 7.0 * 86_400.0
                && exists d :: && d in old(docs) && d.raw == raw && d.expiresAt > now && !OutOfScope(d, tenant)
                               && result.value.tenant == d.tenant && result.value.family == d.family
    {
      var matched: Option<TokenDoc> := None;
      for i := 0 to |docs|
        invariant matched == None
        invariant FindMatch(docs, raw, tenant, now) == FindMatch(docs[i..], raw, tenant, now)
      {
        assert docs[i..][1..] == docs[i + 1..];
        if !InQuery(docs[i], tenant, now) {
          continue;
        }
        if Verifies(docs[i], raw) {
          matched := Some(docs[i]);
          break;
        }
      }
      if matched.None? {
        return None;
      }
      var d := matched.value;
      docs := DeleteOne(docs, d.id);
      var doc := Create(d.tenant, d.family, newId, newRaw, later);
      return Some(doc);
    }

    method RevokeForTenant(tenant: string) returns (deleted: nat)
      modifies this
      ensures docs == Filter(Not(OfTenant(tenant)), old(docs))
      ensures deleted == Count(OfTenant(tenant), old(docs))
      ensures forall d :: d in docs <==> d in old(docs) && d.tenant != tenant
    {
      FilterMembers(Not(OfTenant(tenant)), docs);
      CountSplit(Always(), OfTenant(tenant), docs);
      CountAll(docs);
      CountAll(Filter(Not(OfTenant(tenant)), docs));
      FilterCount(OfTenant(tenant), docs);
      deleted := |docs| - |Filter(Not(OfTenant(tenant)), docs)|;
      docs := Filter(Not(OfTenant(tenant)), docs);
    }

    method RevokeByFamily(tenant: string, family: string)
      modifies this
      ensures docs == Filter(Not(OfFamily(tenant, family)), old(docs))
      ensures forall d :: d in docs <==> d in old(docs) && !(d.tenant == tenant && d.family == family)
    {
      FilterMembers(Not(OfFamily(tenant, family)), docs);
      docs := Filter(Not(OfFamily(tenant, family)), docs);
    }
  }

  // ---- Counting documents --------------------------------------------------------------------

  ghost function Always(): TokenDoc -> bool {
    (d: TokenDoc) => true
  }

  lemma {:induction false} CountAll(docs: seq<TokenDoc>)
    ensures Count(Always(), docs) == |docs|
  {
    if docs != [] { CountAll(docs[..|docs| - 1]); }
  }

  lemma {:induction false} CountSplit(p: TokenDoc -> bool, q: TokenDoc -> bool, docs: seq<TokenDoc>)
    ensures Count(p, docs) == Count(p, Filter(q, docs)) + Count(p, Filter(Not(q), docs))
  {
    if docs != [] {
      var n := |docs| - 1;
      CountSplit(p, q, docs[..n]);
      var (in', out) := (Filter(q, docs[..n]), Filter(Not(q), docs[..n]));
      assert in' + [] == in' && out + [] == out;
      if q(docs[n]) { CountSnoc(p, in', docs[n]); } else { CountSnoc(p, out, docs[n]); }
    }
  }

  lemma {:induction false} FilterCount(q: TokenDoc -> bool, docs: seq<TokenDoc>)
    ensures |Filter(q, docs)| == Count(q, docs) && |docs| == Count(q, docs) + |Filter(Not(q), docs)|
  {
    if docs != [] { FilterCount(q, docs[..|docs| - 1]); }
  }

  lemma {:induction false} CountDelete(p: TokenDoc -> bool, docs: seq<TokenDoc>, id: string)
    requires ById(docs, id).Some?
    ensures Count(p, docs) == Count(p, DeleteOne(docs, id)) + if p(ById(docs, id).value) then 1 else 0
    ensures forall d :: d in DeleteOne(docs, id) ==> d in docs
  {
    assert docs == [docs[0]] + docs[1..];
    CountConcat(p, [docs[0]], docs[1..]);
    CountSnoc(p, [], docs[0]);
    assert [] + [docs[0]] == [docs[0]];
    if docs[0].id != id {
      CountDelete(p, docs[1..], id);
      CountConcat(p, [docs[0]], DeleteOne(docs[1..], id));
    }
  }

  // ---- Every interleaving --------------------------------------------------------------------

  datatype Call = Matched(doc: TokenDoc) | Removed(doc: TokenDoc) | Over

  /** The documents, the running rotations, and what has happened to every document. */
  datatype Store = Store(
    now: real,
    docs: seq<TokenDoc>,
    calls: seq<Call>,
    started: seq<TokenDoc>,     // inserted by a login
    issued: seq<TokenDoc>,      // inserted by a login or a rotation
    taken: seq<TokenDoc>,       // deleted by a rotation
    missed: seq<TokenDoc>,      // not there when a rotation went to delete it
    reissued: seq<TokenDoc>,    // answered with a successor
    cleared: seq<TokenDoc>)     // revoked, or expired and removed

  datatype Event =
    | Tick(elapsed: real)
    | Login(tenant: string, family: string, id: string, raw: string)
    | Find(raw: string, scope: Option<string>)
    | Remove(call: nat)
    | Issue(call: nat, id: string, raw: string)
    | Revoke(tenant: string)
    | RevokeFamily(tenant: string, family: string)
    | Purge(id: string)

  const EMPTY := Store(0.0, [], [], [], [], [], [], [], [])

  ghost predicate Fresh(s: Store, id: string, raw: string) {
    forall d :: d in s.issued ==> d.id != id && d.raw != raw
  }

  ghost predicate StartedFamily(started: seq<TokenDoc>, family: string) {
    exists r :: r in started && r.family == family
  }

  ghost function Started(s: Store, d: TokenDoc): Store {
    s.(docs := s.docs + [d], started := s.started + [d], issued := s.issued + [d])
  }

  ghost function LoginStep(s: Store, d: TokenDoc): Store {
    if Fresh(s, d.id, d.raw) && !StartedFamily(s.started, d.family) then Started(s, d) else s
  }

  ghost function TickStep(s: Store, elapsed: real): Store {
    if elapsed >= 0.0 then s.(now := s.now + elapsed) else s
  }

  ghost function FindStep(s: Store, raw: string, scope: Option<string>): Store {
    var m := FindMatch(s.docs, raw, scope, s.now);
    if m.None? then s else s.(calls := s.calls + [Matched(m.value)])
  }

  ghost function RemoveStep(s: Store, call: nat): Store {
    if call >= |s.calls| || !s.calls[call].Matched? then s
    else
      var d := s.calls[call].doc;
      var s1 := s.(calls := s.calls[call := Removed(d)]);
      if ById(s.docs, d.id).None? then s1.(missed := s.missed + [d])
      else s1.(docs := DeleteOne(s.docs, d.id), taken := s.taken + [d])
  }

  ghost function IssueStep(s: Store, call: nat, id: string, raw: string): Store {
    if call >= |s.calls| || !s.calls[call].Removed? || !Fresh(s, id, raw) then s
    else
      var d := s.calls[call].doc;
      var new' := Successor(d, id, raw, s.now);
      s.(calls := s.calls[call := Over], docs := s.docs + [new'], issued := s.issued + [new'],
         reissued := s.reissued + [d])
  }

  ghost function ClearStep(s: Store, p: TokenDoc -> bool): Store {
    s.(docs := Filter(Not(p), s.docs), cleared := s.cleared + Filter(p, s.docs))
  }

  ghost function PurgeStep(s: Store, id: string): Store {
    var d := ById(s.docs, id);
    if d.None? || d.value.expiresAt > s.now then s
    else s.(docs := DeleteOne(s.docs, id), cleared := s.cleared + [d.value])
  }

  ghost function Step(s: Store, e: Event): Store {
    match e
    case Tick(elapsed) => TickStep(s, elapsed)
    case Login(tenant, family, id, raw) => LoginStep(s, NewDoc(tenant, family, id, raw, s.now))
    case Find(raw, scope) => FindStep(s, raw, scope)
    case Remove(call) => RemoveStep(s, call)
    case Issue(call, id, raw) => IssueStep(s, call, id, raw)
    case Revoke(tenant) => ClearStep(s, OfTenant(tenant))
    case RevokeFamily(tenant, family) => ClearStep(s, OfFamily(tenant, family))
    case Purge(id) => PurgeStep(s, id)
  }

  ghost function Exec(s: Store, es: seq<Event>): Store {
    if es == [] then s else Step(Exec(s, es[..|es| - 1]), es[|es| - 1])
  }

  // ---- What documents are issued -------------------------------------------------------------

  ghost predicate Distinct(issued: seq<TokenDoc>) {
    forall i, j :: 0 <= i < j < |issued| ==> issued[i].id != issued[j].id && issued[i].raw != issued[j].raw
  }

  /** A login of the same tenant started the family of d. */
  ghost predicate StartedBy(started: seq<TokenDoc>, d: TokenDoc) {
    exists i :: 0 <= i < |started| && started[i].family == d.family && started[i].tenant == d.tenant
  }

  ghost predicate Descended(s: Store) {
    && (forall d :: d in s.issued ==> StartedBy(s.started, d))
    && (forall i, j :: 0 <= i < j < |s.started| ==> s.started[i].family != s.started[j].family)
  }

  ghost predicate Inv(s: Store) {
    && Distinct(s.issued)
    && Descended(s)
    && (forall d :: d in s.docs ==> d in s.issued)
    && (forall i :: 0 <= i < |s.calls| && !s.calls[i].Over? ==> s.calls[i].doc in s.issued)
  }

  lemma LoginKeepsInv(s: Store, r: TokenDoc)
    requires Inv(s)
    ensures Inv(LoginStep(s, r))
  {
    forall d | d in s.issued || d == r ensures StartedBy(s.started + [r], d) {
      if d in s.issued {
        var i :| 0 <= i < |s.started| && s.started[i].family == d.family && s.started[i].tenant == d.tenant;
        assert (s.started + [r])[i] == s.started[i];
      } else {
        assert (s.started + [r])[|s.started|] == r;
      }
    }
  }

  lemma IssueKeepsInv(s: Store, call: nat, id: string, raw: string)
    requires Inv(s)
    ensures Inv(IssueStep(s, call, id, raw))
  {
  }

  lemma {:induction false} FilterMembers(p: TokenDoc -> bool, docs: seq<TokenDoc>)
    ensures forall d :: d in Filter(p, docs) <==> d in docs && p(d)
  {
    if docs != [] {
      FilterMembers(p, docs[..|docs| - 1]);
      assert docs == docs[..|docs| - 1] + [docs[|docs| - 1]];
    }
  }

  lemma StepKeepsInv(s: Store, e: Event)
    requires Inv(s)
    ensures Inv(Step(s, e))
  {
    match e {
      case Login(tenant, family, id, raw) => LoginKeepsInv(s, NewDoc(tenant, family, id, raw, s.now));
      case Issue(call, id, raw) => IssueKeepsInv(s, call, id, raw);
      case Remove(call) =>
        if call < |s.calls| && s.calls[call].Matched? && ById(s.docs, s.calls[call].doc.id).Some? {
          CountDelete(Always(), s.docs, s.calls[call].doc.id);
        }
      case Purge(id) => if ById(s.docs, id).Some? { CountDelete(Always(), s.docs, id); }
      case Revoke(tenant) => FilterMembers(Not(OfTenant(tenant)), s.docs);
      case RevokeFamily(tenant, family) => FilterMembers(Not(OfFamily(tenant, family)), s.docs);
      case _ =>
    }
  }

  lemma {:induction false} RunKeepsInv(s: Store, es: seq<Event>)
    requires Inv(s)
    ensures Inv(Exec(s, es))
  {
    if es != [] {
      RunKeepsInv(s, es[..|es| - 1]);
      StepKeepsInv(Exec(s, es[..|es| - 1]), es[|es| - 1]);
    }
  }

  /** A document stays stored until a rotation or a revocation of its own deletes it, or it has expired. */
  lemma StaysStored(s: Store, e: Event, d: TokenDoc)
    requires Inv(s) && d in s.docs && d.expiresAt > s.now
    requires e.Remove? ==> e.call >= |s.calls| || s.calls[e.call].Over? || s.calls[e.call].doc != d
    requires e.Revoke? ==> e.tenant != d.tenant
    requires e.RevokeFamily? ==> e.tenant != d.tenant || e.family != d.family
    ensures d in Step(s, e).docs
  {
    match e {
      case Remove(call) =>
        if call < |s.calls| && s.calls[call].Matched? {
          if s.calls[call].doc.id == d.id { SameId(s, s.calls[call].doc, d); }
          DeleteKeepsOthers(s.docs, s.calls[call].doc.id, d);
        }
      case Purge(id) =>
        if ById(s.docs, id).Some? && ById(s.docs, id).value.expiresAt <= s.now {
          if id == d.id { SameId(s, ById(s.docs, id).value, d); }
          DeleteKeepsOthers(s.docs, id, d);
        }
      case Revoke(tenant) => FilterMembers(Not(OfTenant(tenant)), s.docs);
      case RevokeFamily(tenant, family) => FilterMembers(Not(OfFamily(tenant, family)), s.docs);
      case _ =>
    }
  }

  lemma {:induction false} DeleteKeepsOthers(docs: seq<TokenDoc>, id: string, d: TokenDoc)
    requires d in docs && d.id != id
    ensures d in DeleteOne(docs, id)
  {
    if docs[0].id != id && docs[0] != d { DeleteKeepsOthers(docs[1..], id, d); }
  }

  /** No refresh token outlives seven days from when it was issued, by a login or a rotation. */
  lemma {:induction false} SevenDays(es: seq<Event>, d: TokenDoc)
    requires d in Exec(EMPTY, es).issued
    ensures d.expiresAt <= Exec(EMPTY, es).now + 7.0 * 86_400.0
  {
    if es != [] {
      var s, e := Exec(EMPTY, es[..|es| - 1]), es[|es| - 1];
      NowOnlyGrows(s, e);
      if d in s.issued { SevenDays(es[..|es| - 1], d); } else { IssuedForSevenDays(s, e, d); }
    }
  }

  lemma NowOnlyGrows(s: Store, e: Event)
    ensures Step(s, e).now >= s.now
  {
  }

  lemma IssuedForSevenDays(s: Store, e: Event, d: TokenDoc)
    requires d in Step(s, e).issued && d !in s.issued
    ensures d.expiresAt == s.now + 7.0 * 86_400.0 && Step(s, e).now == s.now
  {
  }

  /** Along every rotation chain the tenant stays that of the login. */
  lemma {:induction false} FamilyKeepsTenant(es: seq<Event>, a: TokenDoc, b: TokenDoc)
    requires a in Exec(EMPTY, es).issued && b in Exec(EMPTY, es).issued && a.family == b.family
    ensures a.tenant == b.tenant
  {
    RunKeepsInv(EMPTY, es);
  }

  /** A string longer than every id and raw token issued. */
  lemma {:induction false} LongerThanAll(issued: seq<TokenDoc>) returns (x: string)
    ensures forall d :: d in issued ==> |d.id| < |x| && |d.raw| < |x|
  {
    if issued == [] {
      x := "x";
    } else {
      var n := |issued| - 1;
      var y := LongerThanAll(issued[..n]);
      x := y + issued[n].id + issued[n].raw + "x";
      assert issued == issued[..n] + [issued[n]];
    }
  }

  // ---- Conservation --------------------------------------------------------------------------

  /** Rotations that have deleted a document satisfying p and not yet issued its successor. */
  ghost function Pending(p: TokenDoc -> bool): Call -> bool {
    (c: Call) => c.Removed? && p(c.doc)
  }

  /** Every issued document is stored, taken by one rotation, or cleared. */
  ghost predicate DocumentsAccounted(s: Store, p: TokenDoc -> bool) {
    Count(p, s.docs) + Count(p, s.taken) + Count(p, s.cleared) == Count(p, s.issued)
  }

  /** Every rotation that got past its delete is answered or pending. */
  ghost predicate RotationsAccounted(s: Store, p: TokenDoc -> bool) {
    Count(p, s.reissued) + Count(Pending(p), s.calls) == Count(p, s.taken) + Count(p, s.missed)
  }

  ghost function InFamily(family: string): TokenDoc -> bool {
    (d: TokenDoc) => d.family == family
  }

  /** A family is issued what its login and its answered rotations insert. */
  ghost predicate FamilyAccounted(s: Store, family: string) {
    Count(InFamily(family), s.issued) == Count(InFamily(family), s.started) + Count(InFamily(family), s.reissued)
  }

  ghost predicate Accounted(s: Store, p: TokenDoc -> bool, family: string) {
    DocumentsAccounted(s, p) && RotationsAccounted(s, p) && FamilyAccounted(s, family)
  }

  lemma StartKeepsAccounts(s: Store, d: TokenDoc, p: TokenDoc -> bool, f: string)
    requires Accounted(s, p, f)
    ensures Accounted(Started(s, d), p, f)
  {
    CountSnoc(p, s.docs, d);
    CountSnoc(p, s.issued, d);
    CountSnoc(InFamily(f), s.issued, d);
    CountSnoc(InFamily(f), s.started, d);
  }

  lemma LoginKeepsAccounts(s: Store, d: TokenDoc, p: TokenDoc -> bool, f: string)
    requires Accounted(s, p, f)
    ensures Accounted(LoginStep(s, d), p, f)
  {
    if LoginStep(s, d) == Started(s, d) { StartKeepsAccounts(s, d, p, f); }
  }

  lemma RemoveKeepsAccounts(s: Store, call: nat, p: TokenDoc -> bool, f: string)
    requires Inv(s) && Accounted(s, p, f)
    ensures Accounted(RemoveStep(s, call), p, f)
  {
    if call < |s.calls| && s.calls[call].Matched? {
      var d := s.calls[call].doc;
      CountUpdate(Pending(p), s.calls, call, Removed(d));
      CountSnoc(p, s.missed, d);
      CountSnoc(p, s.taken, d);
      if ById(s.docs, d.id).Some? {
        CountDelete(p, s.docs, d.id);
        SameId(s, ById(s.docs, d.id).value, d);
      }
    }
  }

  lemma SameId(s: Store, a: TokenDoc, b: TokenDoc)
    requires Inv(s) && a in s.issued && b in s.issued && a.id == b.id
    ensures a == b
  {
    var i :| 0 <= i < |s.issued| && s.issued[i] == a;
    var j :| 0 <= j < |s.issued| && s.issued[j] == b;
    assert i == j;
  }

  lemma IssueKeepsAccounts(s: Store, call: nat, id: string, raw: string, p: TokenDoc -> bool, f: string)
    requires Accounted(s, p, f)
    ensures Accounted(IssueStep(s, call, id, raw), p, f)
  {
    if call < |s.calls| && s.calls[call].Removed? {
      var d := s.calls[call].doc;
      var new' := Successor(d, id, raw, s.now);
      CountUpdate(Pending(p), s.calls, call, Over);
      CountSnoc(p, s.docs, new');
      CountSnoc(p, s.issued, new');
      CountSnoc(p, s.reissued, d);
      CountSnoc(InFamily(f), s.issued, new');
      CountSnoc(InFamily(f), s.reissued, d);
    }
  }

  lemma ClearKeepsAccounts(s: Store, q: TokenDoc -> bool, p: TokenDoc -> bool, f: string)
    requires Accounted(s, p, f)
    ensures Accounted(ClearStep(s, q), p, f)
  {
    CountSplit(p, q, s.docs);
    CountConcat(p, s.cleared, Filter(q, s.docs));
  }

  lemma PurgeKeepsAccounts(s: Store, id: string, p: TokenDoc -> bool, f: string)
    requires Accounted(s, p, f)
    ensures Accounted(PurgeStep(s, id), p, f)
  {
    var d := ById(s.docs, id);
    if d.Some? {
      CountDelete(p, s.docs, id);
      CountSnoc(p, s.cleared, d.value);
    }
  }

  lemma FindKeepsAccounts(s: Store, raw: string, scope: Option<string>, p: TokenDoc -> bool, f: string)
    requires Accounted(s, p, f)
    ensures Accounted(FindStep(s, raw, scope), p, f)
  {
    var m := FindMatch(s.docs, raw, scope, s.now);
    if m.Some? { CountSnoc(Pending(p), s.calls, Matched(m.value)); }
  }

  lemma TickKeepsAccounts(s: Store, elapsed: real, p: TokenDoc -> bool, f: string)
    requires Accounted(s, p, f)
    ensures Accounted(TickStep(s, elapsed), p, f)
  {
  }

  lemma RotationKeepsAccounts(s: Store, e: Event, p: TokenDoc -> bool, f: string)
    requires Inv(s) && Accounted(s, p, f) && (e.Find? || e.Remove? || e.Issue?)
    ensures Accounted(Step(s, e), p, f)
  {
    match e {
      case Find(raw, scope) => FindKeepsAccounts(s, raw, scope, p, f);
      case Remove(call) => RemoveKeepsAccounts(s, call, p, f);
      case Issue(call, id, raw) => IssueKeepsAccounts(s, call, id, raw, p, f);
    }
  }

  lemma DeletionKeepsAccounts(s: Store, e: Event, p: TokenDoc -> bool, f: string)
    requires Accounted(s, p, f) && (e.Revoke? || e.RevokeFamily? || e.Purge?)
    ensures Accounted(Step(s, e), p, f)
  {
    match e {
      case Revoke(tenant) => ClearKeepsAccounts(s, OfTenant(tenant), p, f);
      case RevokeFamily(tenant, family) => ClearKeepsAccounts(s, OfFamily(tenant, family), p, f);
      case Purge(id) => PurgeKeepsAccounts(s, id, p, f);
    }
  }

  lemma StepKeepsAccounts(s: Store, e: Event, p: TokenDoc -> bool, f: string)
    requires Inv(s) && Accounted(s, p, f)
    ensures Accounted(Step(s, e), p, f)
  {
    match e {
      case Tick(elapsed) => TickKeepsAccounts(s, elapsed, p, f);
      case Login(tenant, family, id, raw) =>
        LoginKeepsAccounts(s, NewDoc(tenant, family, id, raw, s.now), p, f);
      case Find(_, _) => RotationKeepsAccounts(s, e, p, f);
      case Remove(_) => RotationKeepsAccounts(s, e, p, f);
      case Issue(_, _, _) => RotationKeepsAccounts(s, e, p, f);
      case _ => DeletionKeepsAccounts(s, e, p, f);
    }
  }

  lemma {:induction false} RunKeepsAccounts(es: seq<Event>, p: TokenDoc -> bool, family: string)
    ensures Inv(Exec(EMPTY, es)) && Accounted(Exec(EMPTY, es), p, family)
  {
    if es != [] {
      RunKeepsAccounts(es[..|es| - 1], p, family);
      StepKeepsInv(Exec(EMPTY, es[..|es| - 1]), es[|es| - 1]);
      StepKeepsAccounts(Exec(EMPTY, es[..|es| - 1]), es[|es| - 1], p, family);
    }
  }

  lemma {:induction false} AtMostOne(p: TokenDoc -> bool, docs: seq<TokenDoc>)
    requires forall i, j :: 0 <= i < j < |docs| ==> !(p(docs[i]) && p(docs[j]))
    ensures Count(p, docs) <= 1
  {
    if docs != [] {
      var n := |docs| - 1;
      AtMostOne(p, docs[..n]);
      if p(docs[n]) { CountNone(p, docs[..n]); }
    }
  }

  /**
   * Under every interleaving, a family's stored documents, pending rotations and cleared
   * documents together are its one login plus the rotations that found nothing to delete.
   */
  lemma {:induction false} FamilyConservation(es: seq<Event>, family: string)
    ensures var s := Exec(EMPTY, es);
            && Count(InFamily(family), s.docs) + Count(Pending(InFamily(family)), s.calls)
               + Count(InFamily(family), s.cleared)
               == Count(InFamily(family), s.started) + Count(InFamily(family), s.missed)
            && Count(InFamily(family), s.started) <= 1
  {
    RunKeepsAccounts(es, InFamily(family), family);
    AtMostOne(InFamily(family), Exec(EMPTY, es).started);
  }

  ghost function IsRaw(raw: string): TokenDoc -> bool {
    (d: TokenDoc) => d.raw == raw
  }

  /**
   * Under every interleaving a raw token is taken at most once, and the rotations of it that are
   * answered or pending are those that took it and those that found nothing to delete.
   */
  lemma {:induction false} RotatesOnce(es: seq<Event>, raw: string)
    ensures var s := Exec(EMPTY, es);
            && Count(IsRaw(raw), s.taken) <= 1
            && Count(IsRaw(raw), s.reissued) + Count(Pending(IsRaw(raw)), s.calls)
               == Count(IsRaw(raw), s.taken) + Count(IsRaw(raw), s.missed)
  {
    RunKeepsAccounts(es, IsRaw(raw), "");
    AtMostOne(IsRaw(raw), Exec(EMPTY, es).issued);
  }

  // ---- A token that is gone stays gone -------------------------------------------------------

  ghost predicate Gone(s: Store, raw: string) {
    (exists d :: d in s.issued && d.raw == raw) && forall d :: d in s.docs ==> d.raw != raw
  }

  lemma StepKeepsGone(s: Store, e: Event, raw: string)
    requires Gone(s, raw)
    ensures Gone(Step(s, e), raw)
  {
    match e {
      case Remove(call) =>
        if call < |s.calls| && s.calls[call].Matched? && ById(s.docs, s.calls[call].doc.id).Some? {
          CountDelete(Always(), s.docs, s.calls[call].doc.id);
        }
      case Purge(id) => if ById(s.docs, id).Some? { CountDelete(Always(), s.docs, id); }
      case Revoke(tenant) => FilterMembers(Not(OfTenant(tenant)), s.docs);
      case RevokeFamily(tenant, family) => FilterMembers(Not(OfFamily(tenant, family)), s.docs);
      case _ =>
    }
  }

  lemma {:induction false} RunKeepsGone(s: Store, es: seq<Event>, raw: string)
    requires Gone(s, raw)
    ensures Gone(Exec(s, es), raw)
  {
    if es != [] {
      RunKeepsGone(s, es[..|es| - 1], raw);
      StepKeepsGone(Exec(s, es[..|es| - 1]), es[|es| - 1], raw);
    }
  }

  /** After a logout no token issued to the tenant before it is found again, whatever runs beside it. */
  lemma {:induction false} RevokedNeverMatches(es: seq<Event>, d: TokenDoc, later: seq<Event>, query: Option<string>)
    requires d in Exec(EMPTY, es).issued
    ensures var s := Exec(Step(Exec(EMPTY, es), Revoke(d.tenant)), later);
            FindMatch(s.docs, d.raw, query, s.now) == None
  {
    var s := Exec(EMPTY, es);
    RunKeepsInv(EMPTY, es);
    FilterMembers(Not(OfTenant(d.tenant)), s.docs);
    forall x | x in s.docs && x.raw == d.raw ensures x == d { SameRaw(s, x, d); }
    assert Gone(Step(s, Revoke(d.tenant)), d.raw);
    RunKeepsGone(Step(s, Revoke(d.tenant)), later, d.raw);
  }

  lemma SameRaw(s: Store, a: TokenDoc, b: TokenDoc)
    requires Inv(s) && a in s.issued && b in s.issued && a.raw == b.raw
    ensures a == b
  {
    var i :| 0 <= i < |s.issued| && s.issued[i] == a;
    var j :| 0 <= j < |s.issued| && s.issued[j] == b;
    assert i == j;
  }

  // ---- Runs of calls that do not overlap -----------------------------------------------------

  datatype Operation =
    | Atomic(e: Event)
    | Refresh(raw: string, scope: Option<string>, id: string, newRaw: string)

  /** A whole call; a refresh runs its three steps together. */
  ghost function Perform(s: Store, op: Operation): Store {
    match op
    case Atomic(e) => if e.Find? || e.Remove? || e.Issue? then s else Step(s, e)
    case Refresh(raw, tenant, id, newRaw) =>
      if !Fresh(s, id, newRaw) then s
      else Step(Step(Step(s, Find(raw, tenant)), Remove(|s.calls|)), Issue(|s.calls|, id, newRaw))
  }

  ghost function PerformAll(ops: seq<Operation>): Store {
    if ops == [] then EMPTY else Perform(PerformAll(ops[..|ops| - 1]), ops[|ops| - 1])
  }

  ghost predicate Settled(s: Store) {
    s.missed == [] && forall i :: 0 <= i < |s.calls| ==> s.calls[i].Over?
  }

  /** The three steps of a refresh together do what the uninterrupted method does. */
  lemma RefreshIsAtomic(s: Store, raw: string, tenant: Option<string>, id: string, newRaw: string)
    requires Settled(s) && Fresh(s, id, newRaw)
    ensures var t := Perform(s, Refresh(raw, tenant, id, newRaw));
            var m := FindMatch(s.docs, raw, tenant, s.now);
            Settled(t)
            && (m.None? ==> t == s)
            && (m.Some? ==> t.docs == DeleteOne(s.docs, m.value.id) + [Successor(m.value, id, newRaw, s.now)])
  {
    var m := FindMatch(s.docs, raw, tenant, s.now);
    if m.Some? {
      var s1 := Step(s, Find(raw, tenant));
      assert s1.calls[|s.calls|] == Matched(m.value);
      assert ById(s.docs, m.value.id).Some?;
      var s2 := Step(s1, Remove(|s.calls|));
      assert s2.calls == s.calls + [Removed(m.value)];
      var s3 := Step(s2, Issue(|s.calls|, id, newRaw));
      assert s3.calls == s.calls + [Over];
    }
  }

  lemma RefreshKeepsAccounts(s: Store, raw: string, tenant: Option<string>, id: string, newRaw: string,
                             p: TokenDoc -> bool, family: string)
    requires Inv(s) && Accounted(s, p, family) && Fresh(s, id, newRaw)
    ensures Inv(Perform(s, Refresh(raw, tenant, id, newRaw)))
    ensures Accounted(Perform(s, Refresh(raw, tenant, id, newRaw)), p, family)
  {
    var s1 := Step(s, Find(raw, tenant));
    StepKeepsInv(s, Find(raw, tenant));
    StepKeepsAccounts(s, Find(raw, tenant), p, family);
    var s2 := Step(s1, Remove(|s.calls|));
    StepKeepsInv(s1, Remove(|s.calls|));
    StepKeepsAccounts(s1, Remove(|s.calls|), p, family);
    StepKeepsInv(s2, Issue(|s.calls|, id, newRaw));
    StepKeepsAccounts(s2, Issue(|s.calls|, id, newRaw), p, family);
  }

  lemma AtomicKeepsSettled(s: Store, e: Event)
    requires Settled(s) && !e.Find? && !e.Remove? && !e.Issue?
    ensures Settled(Step(s, e))
  {
    match e {
      case Login(tenant, family, id, raw) =>
      case Purge(id) =>
      case _ =>
    }
  }

  lemma PerformKeeps(s: Store, op: Operation, p: TokenDoc -> bool, family: string)
    requires Settled(s) && Inv(s) && Accounted(s, p, family)
    ensures var t := Perform(s, op); Settled(t) && Inv(t) && Accounted(t, p, family)
  {
    match op {
      case Atomic(e) =>
        if !e.Find? && !e.Remove? && !e.Issue? {
          AtomicKeepsSettled(s, e);
          StepKeepsInv(s, e);
          StepKeepsAccounts(s, e, p, family);
        }
      case Refresh(raw, tenant, id, newRaw) =>
        if Fresh(s, id, newRaw) {
          RefreshIsAtomic(s, raw, tenant, id, newRaw);
          RefreshKeepsAccounts(s, raw, tenant, id, newRaw, p, family);
        }
    }
  }

  lemma {:induction false} SequentialRun(ops: seq<Operation>, p: TokenDoc -> bool, family: string)
    ensures var s := PerformAll(ops); Settled(s) && Inv(s) && Accounted(s, p, family)
  {
    if ops != [] {
      SequentialRun(ops[..|ops| - 1], p, family);
      PerformKeeps(PerformAll(ops[..|ops| - 1]), ops[|ops| - 1], p, family);
    }
  }

  /** When calls do not overlap a family has at most one stored document, and a token rotates at most once. */
  lemma {:induction false} SequentialFamilies(ops: seq<Operation>, family: string, raw: string)
    ensures var s := PerformAll(ops);
            Count(InFamily(family), s.docs) <= 1 && Count(IsRaw(raw), s.reissued) <= 1
  {
    var s := PerformAll(ops);
    SequentialRun(ops, InFamily(family), family);
    AtMostOne(InFamily(family), s.started);
    SequentialRun(ops, IsRaw(raw), family);
    AtMostOne(IsRaw(raw), s.issued);
  }

  // ---- Runs of calls that do overlap ---------------------------------------------------------

  ghost predicate Reachable(s: Store) {
    exists es :: s == Exec(EMPTY, es)
  }

  lemma ReachableStep(s: Store, e: Event) returns (t: Store)
    requires Reachable(s)
    ensures t == Step(s, e) && Reachable(t)
  {
    var es :| s == Exec(EMPTY, es);
    assert (es + [e])[..|es|] == es;
    t := Exec(EMPTY, es + [e]);
  }

  const ROOT := TokenDoc("1", "a", "t", "f", REFRESH_TTL)

  lemma LoggedIn() returns (s: Store)
    ensures Reachable(s) && s == Store(0.0, [ROOT], [Matched(ROOT)], [ROOT], [ROOT], [], [], [], [])
  {
    assert Exec(EMPTY, []) == EMPTY;
    s := ReachableStep(EMPTY, Login("t", "f", "1", "a"));
    assert s.docs == [ROOT];
    s := ReachableStep(s, Find("a", None));
  }

  lemma BothRemoved() returns (s: Store)
    ensures Reachable(s)
    ensures s == Store(0.0, [], [Removed(ROOT), Removed(ROOT)], [ROOT], [ROOT], [ROOT], [ROOT], [], [])
  {
    s := LoggedIn();
    s := ReachableStep(s, Find("a", None));
    assert s.calls == [Matched(ROOT), Matched(ROOT)];
    s := ReachableStep(s, Remove(0));
    assert s.calls == [Removed(ROOT), Matched(ROOT)];
    s := ReachableStep(s, Remove(1));
    assert s.calls == [Removed(ROOT), Removed(ROOT)];
  }

  const SECOND := Successor(ROOT, "2", "b", 0.0)

  lemma FirstAnswered() returns (s: Store)
    ensures Reachable(s)
    ensures s == Store(0.0, [SECOND], [Over, Removed(ROOT)], [ROOT], [ROOT, SECOND], [ROOT], [ROOT], [ROOT], [])
  {
    s := BothRemoved();
    assert Fresh(s, "2", "b");
    s := ReachableStep(s, Issue(0, "2", "b"));
  }

  /** Two overlapping refreshes of one token both succeed, and leave two tokens of one family. */
  lemma OverlapForksFamily()
    ensures exists s :: Reachable(s) && s.reissued == [ROOT, ROOT]
                        && s.docs == [SECOND, Successor(ROOT, "3", "c", 0.0)]
  {
    var s := FirstAnswered();
    assert Fresh(s, "3", "c");
    s := ReachableStep(s, Issue(1, "3", "c"));
  }
}
