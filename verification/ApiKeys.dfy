/**
 * API keys: the prefix-filtered lookup against the meaning of a key, over every run of the
 * repository.  A hash verifies exactly the raw key it was made from; ids and key bodies are fresh.
 */
module ApiKeys {
  import opened Prelude

  const PREFIX_LEN: nat := 12
  const KEY_BODY_LEN: nat := 32

  datatype KeyType = Publishable | Secret

  datatype KeyDoc = KeyDoc(
    id: string,
    project: string,
    tenant: string,
    prefix: string,
    raw: string,            // stands for the hash
    keyType: KeyType,
    revoked: bool,
    revokedAt: Option<real>,
    lastUsedAt: Option<real>,
    expiresAt: Option<real>)

  /** raw[:12] */
  function PrefixOf(raw: string): string {
    if |raw| < PREFIX_LEN then raw else raw[..PREFIX_LEN]
  }

  function RawKey(keyType: KeyType, body: string): string {
    (match keyType case Publishable => "pk" case Secret => "sk") + "_live_" + body
  }

  predicate Expired(d: KeyDoc, now: real) {
    d.expiresAt.Some? && d.expiresAt.value < now
  }

  /** The expiry is before now. */
  ghost predicate Past(d: KeyDoc, now: real) {
    exists at :: d.expiresAt == Some(at) && at < now
  }

  predicate IsValid(d: KeyDoc, now: real) {
    !d.revoked && !Expired(d, now)
  }

  predicate Verifies(d: KeyDoc, raw: string) {
    d.raw == raw
  }

  /** The key that a raw string opens: its hash matches, and it is neither revoked nor expired. */
  ghost predicate Opens(docs: seq<KeyDoc>, raw: string, now: real, d: KeyDoc) {
    d in docs && Verifies(d, raw) && IsValid(d, now)
  }

  /** A scan over all keys. */
  function FullScan(docs: seq<KeyDoc>, raw: string, now: real): (m: Option<KeyDoc>)
    ensures m.Some? ==> Opens(docs, raw, now, m.value)
    ensures m.None? ==> forall d :: d in docs ==> !(Verifies(d, raw) && IsValid(d, now))
  {
    if docs == [] then None
    else if Verifies(docs[0], raw) && IsValid(docs[0], now) then Some(docs[0])
    else FullScan(docs[1..], raw, now)
  }

  /** The first document with this id and tenant, or the length of the collection. */
  function Find(docs: seq<KeyDoc>, id: string, tenant: Option<string>): (i: nat)
    ensures i <= |docs|
    ensures i < |docs| ==> docs[i].id == id && (tenant.Some? ==> docs[i].tenant == tenant.value)
    ensures i == |docs| ==>
              forall j :: 0 <= j < |docs| ==> !(docs[j].id == id && (tenant.Some? ==> docs[j].tenant == tenant.value))
  {
    if docs == [] then 0
    else if docs[0].id == id && (tenant.Some? ==> docs[0].tenant == tenant.value) then 0
    else
      var i := Find(docs[1..], id, tenant);
      assert forall j :: 0 < j < |docs| ==> docs[j] == docs[1..][j - 1];
      1 + i
  }

  function Created(id: string, project: string, tenant: string, keyType: KeyType, body: string): KeyDoc {
    var raw := RawKey(keyType, body);
    KeyDoc(id, project, tenant, PrefixOf(raw), raw, keyType, false, None, None, None)
  }

  function Touched(docs: seq<KeyDoc>, id: string, now: real): (r: seq<KeyDoc>)
    ensures |r| == |docs|
  {
    var i := Find(docs, id, None);
    if i < |docs| then docs[i := docs[i].(lastUsedAt := Some(now))] else docs
  }

  function Revoked(docs: seq<KeyDoc>, id: string, tenant: string, now: real): (r: seq<KeyDoc>)
    ensures |r| == |docs|
  {
    var i := Find(docs, id, Some(tenant));
    if i < |docs| then docs[i := docs[i].(revoked := true, revokedAt := Some(now))] else docs
  }

  ghost predicate Distinct(docs: seq<KeyDoc>) {
    forall i, j :: 0 <= i < j < |docs| ==> docs[i].id != docs[j].id && docs[i].raw != docs[j].raw
  }

  /** Every key is longer than the prefix stored for it, and no two share an id or a raw key. */
  ghost predicate WellFormed(docs: seq<KeyDoc>) {
    && Distinct(docs)
    && forall i :: 0 <= i < |docs| ==> |docs[i].raw| > PREFIX_LEN && docs[i].prefix == PrefixOf(docs[i].raw)
  }

  lemma ScanFindsTheOne(docs: seq<KeyDoc>, raw: string, now: real, d: KeyDoc)
    requires Distinct(docs)
    ensures Opens(docs, raw, now, d) <==> FullScan(docs, raw, now) == Some(d)
  {
    var m := FullScan(docs, raw, now);
    if Opens(docs, raw, now, d) {
      var i :| 0 <= i < |docs| && docs[i] == d;
      var j :| 0 <= j < |docs| && docs[j] == m.value;
      assert i == j;
    }
  }

  class APIKeyRepository {
    var docs: seq<KeyDoc>

    ghost predicate Valid()
      reads this
    {
      WellFormed(docs)
    }

    constructor ()
      ensures Valid() && docs == []
    {
      docs := [];
    }

    method Create(id: string, project: string, tenant: string, keyType: KeyType, body: string) returns (raw: string)
      requires Valid() && |body| == KEY_BODY_LEN
      requires forall d :: d in docs ==> d.id != id && d.raw != RawKey(keyType, body)
      modifies this
      ensures Valid() && raw == RawKey(keyType, body)
      ensures docs == old(docs) + [Created(id, project, tenant, keyType, body)]
      ensures raw == (if keyType.Publishable? then "pk_live_" else "sk_live_") + body && |raw| == 40
      ensures var d := docs[|old(docs)|];
              && d.id == id && d.project == project && d.tenant == tenant && d.keyType == keyType
              && d.raw == raw && d.prefix == raw[..12] && !d.revoked && d.expiresAt == None && d.lastUsedAt == None
    {
      raw := RawKey(keyType, body);
      docs := docs + [KeyDoc(id, project, tenant, PrefixOf(raw), raw, keyType, false, None, None, None)];
    }

    /** Only candidates with the right prefix are hashed; the answer is that of a scan over all keys. */
    method GetByRawKey(raw: string, now: real) returns (key: Option<KeyDoc>)
      requires Valid()
      modifies this
      ensures Valid()
      ensures key == FullScan(old(docs), raw, now)
      ensures docs == if key.Some? then Touched(old(docs), key.value.id, now) else old(docs)
      ensures forall d :: key == Some(d) <==> d in old(docs) && d.raw == raw && !d.revoked && !(Past(d, now))
      ensures |docs| == |old(docs)|
      ensures forall i :: 0 <= i < |docs| ==>
                docs[i] == old(docs)[i].(lastUsedAt := if key == Some(old(docs)[i]) then Some(now)
                                                       else old(docs)[i].lastUsedAt)
    {
      if raw == "" {
        NoEmptyKey(docs, now);
        return None;
      }
      var prefix := PrefixOf(raw);
      for i := 0 to |docs|
        invariant docs == old(docs)
        invariant forall j :: 0 <= j < i ==> !(Verifies(docs[j], raw) && !docs[j].revoked)
      {
        var doc := docs[i];
        if doc.prefix != prefix || doc.revoked {
          continue;
        }
        if !Verifies(doc, raw) {
          continue;
        }
        OnlyOne(docs, i, raw, now);
        if !IsValid(doc, now) {
          return None;
        }
        var at := Find(docs, doc.id, None);
        if at < |docs| {
          docs := docs[at := docs[at].(lastUsedAt := Some(now))];
        }
        return Some(doc);
      }
      return None;
    }

    method Revoke(id: string, tenant: string, now: real) returns (modified: bool)
      requires Valid()
      modifies this
      ensures Valid()
      ensures docs == Revoked(old(docs), id, tenant, now)
      ensures |docs| == |old(docs)|
      ensures forall i :: 0 <= i < |docs| ==>
                docs[i] == if old(docs)[i].id == id && old(docs)[i].tenant == tenant
                           then old(docs)[i].(revoked := true, revokedAt := Some(now)) else old(docs)[i]
      ensures modified <==> docs != old(docs)
    {
      var i := Find(docs, id, Some(tenant));
      modified := false;
      if i < |docs| {
        var revoked := docs[i].(revoked := true, revokedAt := Some(now));
        modified := revoked != docs[i];
        docs := docs[i := revoked];
      }
    }
  }

  lemma NoEmptyKey(docs: seq<KeyDoc>, now: real)
    requires WellFormed(docs)
    ensures FullScan(docs, "", now) == None
  {
  }

  /** At most one key verifies a raw string, so the first one that does decides. */
  lemma OnlyOne(docs: seq<KeyDoc>, i: nat, raw: string, now: real)
    requires Distinct(docs) && i < |docs| && Verifies(docs[i], raw)
    ensures FullScan(docs, raw, now) == if IsValid(docs[i], now) then Some(docs[i]) else None
  {
    if IsValid(docs[i], now) { ScanFindsTheOne(docs, raw, now, docs[i]); }
  }

  // ---- Whole runs ----------------------------------------------------------------------------

  datatype Op =
    | Wait(elapsed: real)
    | Create(id: string, project: string, tenant: string, keyType: KeyType, body: string)
    | Lookup(raw: string)
    | Revoke(id: string, tenant: string)
    | SetExpiry(id: string, expiresAt: Option<real>)   // no call does this; the lookup allows for it

  datatype Keys = Keys(now: real, docs: seq<KeyDoc>)

  const EMPTY := Keys(0.0, [])

  ghost function Step(s: Keys, op: Op): Keys {
    match op
    case Wait(elapsed) => if elapsed >= 0.0 then s.(now := s.now + elapsed) else s
    case Create(id, project, tenant, keyType, body) =>
      if |body| != KEY_BODY_LEN || (exists d :: d in s.docs && (d.id == id || d.raw == RawKey(keyType, body))) then s
      else s.(docs := s.docs + [Created(id, project, tenant, keyType, body)])
    case Lookup(raw) =>
      var key := FullScan(s.docs, raw, s.now);
      if key.Some? then s.(docs := Touched(s.docs, key.value.id, s.now)) else s
    case Revoke(id, tenant) => s.(docs := Revoked(s.docs, id, tenant, s.now))
    case SetExpiry(id, expiresAt) =>
      var i := Find(s.docs, id, None);
      if i < |s.docs| then s.(docs := s.docs[i := s.docs[i].(expiresAt := expiresAt)]) else s
  }

  ghost function Exec(s: Keys, ops: seq<Op>): Keys {
    if ops == [] then s else Step(Exec(s, ops[..|ops| - 1]), ops[|ops| - 1])
  }

  /** Key i keeps what identifies it, and stays revoked once it is. */
  ghost predicate Keeps(a: seq<KeyDoc>, b: seq<KeyDoc>) {
    && |a| <= |b|
    && forall i :: 0 <= i < |a| ==>
         && b[i].id == a[i].id && b[i].raw == a[i].raw && b[i].project == a[i].project && b[i].tenant == a[i].tenant
         && (a[i].revoked ==> b[i].revoked)
  }

  /** Changing only the usage, expiry and revocation of one key, and not reviving it. */
  lemma ChangeKeeps(docs: seq<KeyDoc>, i: nat, d: KeyDoc)
    requires WellFormed(docs) && i < |docs| && (docs[i].revoked ==> d.revoked)
    requires docs[i] == d.(revoked := docs[i].revoked, revokedAt := docs[i].revokedAt,
                           lastUsedAt := docs[i].lastUsedAt, expiresAt := docs[i].expiresAt)
    ensures WellFormed(docs[i := d]) && Keeps(docs, docs[i := d])
  {
  }

  lemma CreateKeeps(docs: seq<KeyDoc>, d: KeyDoc)
    requires WellFormed(docs) && |d.raw| > PREFIX_LEN && d.prefix == PrefixOf(d.raw)
    requires forall x :: x in docs ==> x.id != d.id && x.raw != d.raw
    ensures WellFormed(docs + [d]) && Keeps(docs, docs + [d])
  {
  }

  lemma StepKeeps(s: Keys, op: Op)
    requires WellFormed(s.docs)
    ensures WellFormed(Step(s, op).docs) && Keeps(s.docs, Step(s, op).docs)
  {
    match op {
      case Wait(_) =>
      case Create(id, project, tenant, keyType, body) =>
        if Step(s, op) != s { CreateKeeps(s.docs, Created(id, project, tenant, keyType, body)); }
      case Lookup(raw) =>
        var key := FullScan(s.docs, raw, s.now);
        if key.Some? {
          var i := Find(s.docs, key.value.id, None);
          if i < |s.docs| { ChangeKeeps(s.docs, i, s.docs[i].(lastUsedAt := Some(s.now))); }
        }
      case Revoke(id, tenant) =>
        var i := Find(s.docs, id, Some(tenant));
        if i < |s.docs| { ChangeKeeps(s.docs, i, s.docs[i].(revoked := true, revokedAt := Some(s.now))); }
      case SetExpiry(id, expiresAt) =>
        var i := Find(s.docs, id, None);
        if i < |s.docs| { ChangeKeeps(s.docs, i, s.docs[i].(expiresAt := expiresAt)); }
    }
  }

  lemma {:induction false} RunKeeps(s: Keys, ops: seq<Op>)
    requires WellFormed(s.docs)
    ensures WellFormed(Exec(s, ops).docs) && Keeps(s.docs, Exec(s, ops).docs)
  {
    if ops != [] {
      RunKeeps(s, ops[..|ops| - 1]);
      StepKeeps(Exec(s, ops[..|ops| - 1]), ops[|ops| - 1]);
    }
  }

  /** What the lookup answers, candidate by candidate: the first unrevoked match among those with the prefix. */
  function PrefixLookup(docs: seq<KeyDoc>, raw: string, now: real): Option<KeyDoc> {
    if raw == "" || docs == [] then None
    else if docs[0].prefix == PrefixOf(raw) && !docs[0].revoked && Verifies(docs[0], raw) then
      if IsValid(docs[0], now) then Some(docs[0]) else None
    else PrefixLookup(docs[1..], raw, now)
  }

  lemma {:induction false} PrefixLookupIsScan(docs: seq<KeyDoc>, raw: string, now: real)
    requires WellFormed(docs)
    ensures PrefixLookup(docs, raw, now) == FullScan(docs, raw, now)
  {
    if raw == "" {
      NoEmptyKey(docs, now);
    } else if docs != [] {
      assert forall i :: 0 <= i < |docs[1..]| ==> docs[1..][i] == docs[i + 1];
      if Verifies(docs[0], raw) && !docs[0].revoked { OnlyOne(docs, 0, raw, now); }
      else { PrefixLookupIsScan(docs[1..], raw, now); }
    }
  }

  /**
   * In every reachable collection the prefix lookup returns a key exactly if that key's hash
   * matches and it is neither revoked nor expired.
   */
  lemma {:induction false} LookupAgreesWithScan(ops: seq<Op>, raw: string, d: KeyDoc)
    ensures var s := Exec(EMPTY, ops);
            PrefixLookup(s.docs, raw, s.now) == Some(d) <==> Opens(s.docs, raw, s.now, d)
  {
    RunKeeps(EMPTY, ops);
    var s := Exec(EMPTY, ops);
    PrefixLookupIsScan(s.docs, raw, s.now);
    ScanFindsTheOne(s.docs, raw, s.now, d);
  }

  /** Once revoked, a key is not found again after any further calls. */
  lemma {:induction false} RevokedIsNeverFound(ops: seq<Op>, i: nat, later: seq<Op>)
    requires i < |Exec(EMPTY, ops).docs|
    ensures var s := Exec(EMPTY, ops);
            var t := Exec(Step(s, Revoke(s.docs[i].id, s.docs[i].tenant)), later);
            PrefixLookup(t.docs, s.docs[i].raw, t.now) == None
  {
    RunKeeps(EMPTY, ops);
    var s := Exec(EMPTY, ops);
    var d := s.docs[i];
    var s1 := Step(s, Revoke(d.id, d.tenant));
    StepKeeps(s, Revoke(d.id, d.tenant));
    assert s1.docs[i].revoked;
    RunKeeps(s1, later);
    var t := Exec(s1, later);
    PrefixLookupIsScan(t.docs, d.raw, t.now);
    OnlyOne(t.docs, i, d.raw, t.now);
  }

  /** A key just created is found by its raw string, with the project and tenant it was created for. */
  lemma {:induction false} CreatedIsFound(
    ops: seq<Op>, id: string, project: string, tenant: string, keyType: KeyType, body: string)
    requires |body| == KEY_BODY_LEN
    requires forall d :: d in Exec(EMPTY, ops).docs ==> d.id != id && d.raw != RawKey(keyType, body)
    ensures var s := Step(Exec(EMPTY, ops), Op.Create(id, project, tenant, keyType, body));
            PrefixLookup(s.docs, RawKey(keyType, body), s.now) == Some(Created(id, project, tenant, keyType, body))
  {
    RunKeeps(EMPTY, ops);
    var op := Op.Create(id, project, tenant, keyType, body);
    StepKeeps(Exec(EMPTY, ops), op);
    var s := Step(Exec(EMPTY, ops), op);
    PrefixLookupIsScan(s.docs, RawKey(keyType, body), s.now);
    assert s.docs[|s.docs| - 1] == Created(id, project, tenant, keyType, body);
    OnlyOne(s.docs, |s.docs| - 1, RawKey(keyType, body), s.now);
  }
}
