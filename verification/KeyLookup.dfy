/**
 * Key lookups that overlap creations, revocations and each other: the cursor reads the collection
 * in batches, the keys of a batch are checked one by one, and the key found is touched and returned.
 */
module KeyLookup {
  import opened Prelude
  import ApiKeys

  /** A running lookup; numbers of steps stand for instants. */
  datatype Lookup =
    | Reading(raw: string, asked: nat, at: nat, batch: seq<ApiKeys.KeyDoc>, readAt: nat)
    | Found(raw: string, asked: nat, key: ApiKeys.KeyDoc, readAt: nat, checkedAt: nat)
    | Over

  /** A key that was returned, with the instants of the call, of the read and of the check. */
  datatype Answer = Answer(
    raw: string,
    asked: nat,
    key: ApiKeys.KeyDoc,
    readAt: nat,
    checkedAt: nat,
    returnedAt: nat)

  datatype Service = Service(keys: ApiKeys.Keys, lookups: map<nat, Lookup>, answers: seq<Answer>, steps: nat)

  datatype Event =
    | Write(op: ApiKeys.Op)           // any step of the other calls
    | Ask(i: nat, raw: string)
    | ReadBatch(i: nat, count: nat)
    | CheckNext(i: nat)
    | Return(i: nat)

  const IDLE := Service(ApiKeys.EMPTY, map[], [], 0)

  /** What the query selects. */
  ghost function Candidate(raw: string): ApiKeys.KeyDoc -> bool {
    (d: ApiKeys.KeyDoc) => d.prefix == ApiKeys.PrefixOf(raw) && !d.revoked
  }

  /** The cursor reads on: the candidates among the next documents, as they are now. */
  ghost function ReadOn(l: Lookup, docs: seq<ApiKeys.KeyDoc>, count: nat, now: nat): Lookup
    requires l.Reading?
  {
    var end := if l.at + count <= |docs| then l.at + count else |docs|;
    if l.batch != [] || end < l.at then l
    else if l.at == |docs| then Over
    else l.(at := end, batch := Filter(Candidate(l.raw), docs[l.at..end]), readAt := now)
  }

  /** The next key of the batch: not the one, expired, or found. */
  ghost function Check(l: Lookup, now: real, step: nat): Lookup
    requires l.Reading? && l.batch != []
  {
    var d := l.batch[0];
    if !ApiKeys.Verifies(d, l.raw) then l.(batch := l.batch[1..])
    else if !ApiKeys.IsValid(d, now) then Over
    else Found(l.raw, l.asked, d, l.readAt, step)
  }

  ghost function LookupStep(s: Service, e: Event): Service {
    match e
    case Write(op) => if op.Lookup? then s else s.(keys := ApiKeys.Step(s.keys, op))
    case Ask(i, raw) =>
      if i in s.lookups then s
      else s.(lookups := s.lookups[i := if raw == "" then Over else Reading(raw, s.steps, 0, [], s.steps)])
    case ReadBatch(i, count) =>
      if i in s.lookups && s.lookups[i].Reading?
      then s.(lookups := s.lookups[i := ReadOn(s.lookups[i], s.keys.docs, count, s.steps)])
      else s
    case CheckNext(i) =>
      if i in s.lookups && s.lookups[i].Reading? && s.lookups[i].batch != []
      then s.(lookups := s.lookups[i := Check(s.lookups[i], s.keys.now, s.steps)])
      else s
    case Return(i) =>
      if i in s.lookups && s.lookups[i].Found? then
        var l := s.lookups[i];
        s.(keys := s.keys.(docs := ApiKeys.Touched(s.keys.docs, l.key.id, s.keys.now)),
           lookups := s.lookups[i := Over],
           answers := s.answers + [Answer(l.raw, l.asked, l.key, l.readAt, l.checkedAt, s.steps)])
      else s
  }

  ghost function Step(s: Service, e: Event): Service {
    LookupStep(s, e).(steps := s.steps + 1)
  }

  ghost function Exec(es: seq<Event>): Service {
    if es == [] then IDLE else Step(Exec(es[..|es| - 1]), es[|es| - 1])
  }

  /** The keys at an instant of the run. */
  ghost function KeysAt(es: seq<Event>, n: nat): ApiKeys.Keys
    requires n <= |es|
  {
    Exec(es[..n]).keys
  }

  // ---- Keys over time -----------------------------------------------------------------------

  lemma StepKeepsKeys(s: Service, e: Event)
    requires ApiKeys.WellFormed(s.keys.docs)
    ensures ApiKeys.WellFormed(Step(s, e).keys.docs) && ApiKeys.Keeps(s.keys.docs, Step(s, e).keys.docs)
  {
    match e {
      case Write(op) => if !op.Lookup? { ApiKeys.StepKeeps(s.keys, op); }
      case Return(i) =>
        if i in s.lookups && s.lookups[i].Found? {
          var docs := s.keys.docs;
          var at := ApiKeys.Find(docs, s.lookups[i].key.id, None);
          if at < |docs| { ApiKeys.ChangeKeeps(docs, at, docs[at].(lastUsedAt := Some(s.keys.now))); }
        }
      case _ =>
    }
  }

  lemma {:induction false} KeysWellFormed(es: seq<Event>)
    ensures ApiKeys.WellFormed(Exec(es).keys.docs)
  {
    if es != [] {
      KeysWellFormed(es[..|es| - 1]);
      StepKeepsKeys(Exec(es[..|es| - 1]), es[|es| - 1]);
    }
  }

  lemma KeepsTransitive(a: seq<ApiKeys.KeyDoc>, b: seq<ApiKeys.KeyDoc>, c: seq<ApiKeys.KeyDoc>)
    requires ApiKeys.Keeps(a, b) && ApiKeys.Keeps(b, c)
    ensures ApiKeys.Keeps(a, c)
  {
  }

  lemma {:induction false} KeysKept(es: seq<Event>, n: nat, m: nat)
    requires n <= m <= |es|
    ensures ApiKeys.Keeps(KeysAt(es, n).docs, KeysAt(es, m).docs)
    decreases m
  {
    if n < m {
      var before := es[..m - 1];
      KeysKept(es, n, m - 1);
      KeysWellFormed(before);
      StepKeepsKeys(Exec(before), es[m - 1]);
      assert es[..m][..m - 1] == before;
      KeepsTransitive(KeysAt(es, n).docs, KeysAt(es, m - 1).docs, KeysAt(es, m).docs);
    }
  }

  // ---- What is known of running lookups -----------------------------------------------------

  /** The key was a candidate when it was read. */
  ghost predicate ReadRight(es: seq<Event>, raw: string, d: ApiKeys.KeyDoc, readAt: nat) {
    readAt <= |es| && d in KeysAt(es, readAt).docs && Candidate(raw)(d)
  }

  /** It is the one asked for, and was not expired when it was checked. */
  ghost predicate CheckedRight(es: seq<Event>, raw: string, d: ApiKeys.KeyDoc, checkedAt: nat) {
    checkedAt <= |es| && ApiKeys.Verifies(d, raw) && !ApiKeys.Expired(d, KeysAt(es, checkedAt).now)
  }

  ghost predicate LookupRight(es: seq<Event>, l: Lookup) {
    match l
    case Reading(raw, asked, at, batch, readAt) =>
      asked <= readAt <= |es| && forall k :: 0 <= k < |batch| ==> ReadRight(es, raw, batch[k], readAt)
    case Found(raw, asked, key, readAt, checkedAt) =>
      asked <= readAt <= checkedAt <= |es| && ReadRight(es, raw, key, readAt) && CheckedRight(es, raw, key, checkedAt)
    case Over => true
  }

  ghost predicate AnswerRight(es: seq<Event>, a: Answer) {
    && a.asked <= a.readAt <= a.checkedAt <= a.returnedAt <= |es|
    && ReadRight(es, a.raw, a.key, a.readAt) && CheckedRight(es, a.raw, a.key, a.checkedAt)
  }

  ghost predicate Inv(es: seq<Event>) {
    var s := Exec(es);
    && s.steps == |es|
    && (forall i :: i in s.lookups ==> LookupRight(es, s.lookups[i]))
    && (forall k :: 0 <= k < |s.answers| ==> AnswerRight(es, s.answers[k]))
  }

  /** What was right stays right as the run goes on. */
  lemma LaterIsRight(es: seq<Event>, e: Event, l: Lookup)
    requires LookupRight(es, l)
    ensures LookupRight(es + [e], l)
  {
    forall n: nat | n <= |es| ensures KeysAt(es + [e], n) == KeysAt(es, n) { assert (es + [e])[..n] == es[..n]; }
    if l.Reading? {
      assert forall k :: 0 <= k < |l.batch| ==> ReadRight(es, l.raw, l.batch[k], l.readAt);
    }
  }

  lemma LaterAnswerIsRight(es: seq<Event>, e: Event, a: Answer)
    requires AnswerRight(es, a)
    ensures AnswerRight(es + [e], a)
  {
    forall n: nat | n <= |es| ensures KeysAt(es + [e], n) == KeysAt(es, n) { assert (es + [e])[..n] == es[..n]; }
  }

  lemma {:induction false} FilterMembers(p: ApiKeys.KeyDoc -> bool, docs: seq<ApiKeys.KeyDoc>)
    ensures forall d :: d in Filter(p, docs) ==> d in docs && p(d)
  {
    if docs != [] { FilterMembers(p, docs[..|docs| - 1]); }
  }

  lemma ReadOnIsRight(es: seq<Event>, l: Lookup, count: nat)
    requires l.Reading? && LookupRight(es, l)
    ensures LookupRight(es, ReadOn(l, Exec(es).keys.docs, count, |es|))
  {
    var docs := Exec(es).keys.docs;
    var m := ReadOn(l, docs, count, |es|);
    assert es[..|es|] == es;
    if m.Reading? && m != l {
      FilterMembers(Candidate(l.raw), docs[l.at..m.at]);
      forall k | 0 <= k < |m.batch| ensures ReadRight(es, m.raw, m.batch[k], m.readAt) {
        assert m.batch[k] in m.batch;
      }
    }
  }

  lemma CheckIsRight(es: seq<Event>, l: Lookup)
    requires l.Reading? && l.batch != [] && LookupRight(es, l)
    ensures LookupRight(es, Check(l, Exec(es).keys.now, |es|))
  {
    assert es[..|es|] == es;
    assert ReadRight(es, l.raw, l.batch[0], l.readAt);
  }

  /** The lookup that a step moves is right where it goes. */
  lemma MovedIsRight(es: seq<Event>, e: Event, i: nat)
    requires Inv(es) && i in LookupStep(Exec(es), e).lookups
    ensures LookupRight(es, LookupStep(Exec(es), e).lookups[i])
  {
    var s := Exec(es);
    match e {
      case ReadBatch(j, count) =>
        if j in s.lookups && s.lookups[j].Reading? { ReadOnIsRight(es, s.lookups[j], count); }
      case CheckNext(j) =>
        if j in s.lookups && s.lookups[j].Reading? && s.lookups[j].batch != [] { CheckIsRight(es, s.lookups[j]); }
      case _ =>
    }
  }

  lemma AnswersAreRight(es: seq<Event>, e: Event, k: nat)
    requires Inv(es) && k < |LookupStep(Exec(es), e).answers|
    ensures AnswerRight(es, LookupStep(Exec(es), e).answers[k])
  {
    var s := Exec(es);
    if k == |s.answers| { assert LookupRight(es, s.lookups[e.i]); }
  }

  lemma StepKeepsInv(es: seq<Event>, e: Event)
    requires Inv(es)
    ensures Inv(es + [e])
  {
    var t := Exec(es + [e]);
    assert (es + [e])[..|es|] == es;
    forall i | i in t.lookups ensures LookupRight(es + [e], t.lookups[i]) {
      MovedIsRight(es, e, i);
      LaterIsRight(es, e, t.lookups[i]);
    }
    forall k | 0 <= k < |t.answers| ensures AnswerRight(es + [e], t.answers[k]) {
      AnswersAreRight(es, e, k);
      LaterAnswerIsRight(es, e, t.answers[k]);
    }
  }

  lemma {:induction false} RunKeepsInv(es: seq<Event>)
    ensures Inv(es)
  {
    if es != [] {
      RunKeepsInv(es[..|es| - 1]);
      StepKeepsInv(es[..|es| - 1], es[|es| - 1]);
      assert es == es[..|es| - 1] + [es[|es| - 1]];
    }
  }

  // ---- Main results -------------------------------------------------------------------------

  /**
   * A key returned is the one asked for; it was in the collection and not revoked at an instant
   * between the call and the return, and at a later such instant not expired.
   */
  lemma {:induction false} ReturnedKeyWasValid(es: seq<Event>, k: nat)
    requires k < |Exec(es).answers|
    ensures var a := Exec(es).answers[k];
            && a.asked <= a.readAt <= a.checkedAt <= a.returnedAt <= |es|
            && a.key in KeysAt(es, a.readAt).docs && !a.key.revoked && a.key.raw == a.raw
            && !ApiKeys.Expired(a.key, KeysAt(es, a.checkedAt).now)
  {
    RunKeepsInv(es);
    assert AnswerRight(es, Exec(es).answers[k]);
  }

  /** A key that was revoked when the lookup was called is not returned, whatever runs beside it. */
  lemma {:induction false} RevokedBeforeCallIsNotReturned(es: seq<Event>, k: nat, j: nat)
    requires k < |Exec(es).answers| && Exec(es).answers[k].asked <= |es|
    requires j < |KeysAt(es, Exec(es).answers[k].asked).docs|
    requires KeysAt(es, Exec(es).answers[k].asked).docs[j].raw == Exec(es).answers[k].raw
    ensures !KeysAt(es, Exec(es).answers[k].asked).docs[j].revoked
  {
    var a := Exec(es).answers[k];
    ReturnedKeyWasValid(es, k);
    KeysKept(es, a.asked, a.readAt);
    KeysWellFormed(es[..a.readAt]);
    OnlyKey(KeysAt(es, a.readAt).docs, j, a.key);
  }

  lemma OnlyKey(docs: seq<ApiKeys.KeyDoc>, j: nat, d: ApiKeys.KeyDoc)
    requires ApiKeys.WellFormed(docs) && j < |docs| && d in docs && docs[j].raw == d.raw
    ensures docs[j] == d
  {
    var i :| 0 <= i < |docs| && docs[i] == d;
    assert i == j;
  }
}
