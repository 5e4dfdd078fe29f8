/**
 * The configuration cache of one project under every interleaving of readers (cache get, document
 * read, cache set, return) and writers (document write, invalidation), with time passing between
 * any two calls.
 */
module CacheStaleness {
  import opened Prelude
  import opened Schemas
  import opened ProjectRepo

  /** A commit of the document; None before it exists. */
  datatype Version = Version(at: real, doc: Option<ProjectDoc>)

  /** A cache entry with its history: when the document was read and when the entry was set. */
  datatype Entry = Entry(config: ProjectConfig, readAt: real, setAt: real, dies: real)

  datatype Reader =
    | Asking
    | Missed
    | Filling(config: ProjectConfig, readAt: real)
    /** About to return; `lag` is the time from document read to cache set, `since` the last Redis call. */
    | Holding(config: ProjectConfig, lag: real, since: real)
    | Returned

  datatype Writer = Committed | Finished

  /** A configuration handed to a reader, and the delays spent around reading, setting and returning it. */
  datatype Served = Served(reader: nat, config: ProjectConfig, at: real, delay: real)

  datatype Timeline = Timeline(
    now: real,
    commits: seq<Version>,
    cache: Option<Entry>,
    readers: map<nat, Reader>,
    writers: map<nat, Writer>,
    served: seq<Served>)

  datatype Event =
    | Tick(elapsed: real)
    | Commit(w: nat, doc: ProjectDoc)
    | Invalidate(w: nat)
    | Ask(r: nat)
    | CacheGet(r: nat)
    | DocumentRead(r: nat)
    | CacheSet(r: nat)
    | Return(r: nat)

  const START := Timeline(0.0, [Version(0.0, None)], None, map[], map[], [])

  function Current(s: Timeline): Option<ProjectDoc>
    requires s.commits != []
  {
    s.commits[|s.commits| - 1].doc
  }

  function NewEntry(config: ProjectConfig, readAt: real, now: real): Entry {
    Entry(config, readAt, now, now + CACHE_TTL as real)
  }

  function ReaderStep(s: Timeline, r: nat, at: Reader, e: Event): Timeline
    requires s.commits != []
  {
    match e
    case CacheGet(_) =>
      if !at.Asking? then s
      else if s.cache.Some? && s.now < s.cache.value.dies then
        var c := s.cache.value;
        s.(readers := s.readers[r := Holding(c.config, c.setAt - c.readAt, s.now)])
      else s.(readers := s.readers[r := Missed])
    case DocumentRead(_) =>
      if !at.Missed? then s
      else
        var doc := Current(s);
        s.(readers := s.readers[r :=
          if doc.Some? && doc.value.isActive then Filling(ToProjectConfig(doc.value), s.now) else Returned])
    case CacheSet(_) =>
      if !at.Filling? then s
      else
        s.(cache := Some(NewEntry(at.config, at.readAt, s.now)),
           readers := s.readers[r := Holding(at.config, s.now - at.readAt, s.now)])
    case Return(_) =>
      if !at.Holding? then s
      else
        s.(readers := s.readers[r := Returned],
           served := s.served + [Served(r, at.config, s.now, at.lag + (s.now - at.since))])
    case _ => s
  }

  function Step(s: Timeline, e: Event): Timeline
    requires s.commits != []
  {
    match e
    case Tick(elapsed) => if elapsed >= 0.0 then s.(now := s.now + elapsed) else s
    case Commit(w, doc) =>
      if w in s.writers then s
      else s.(commits := s.commits + [Version(s.now, Some(doc))], writers := s.writers[w := Committed])
    case Invalidate(w) =>
      if w in s.writers && s.writers[w].Committed? then s.(cache := None, writers := s.writers[w := Finished])
      else s
    case Ask(r) => if r in s.readers then s else s.(readers := s.readers[r := Asking])
    case CacheGet(r) => if r in s.readers then ReaderStep(s, r, s.readers[r], e) else s
    case DocumentRead(r) => if r in s.readers then ReaderStep(s, r, s.readers[r], e) else s
    case CacheSet(r) => if r in s.readers then ReaderStep(s, r, s.readers[r], e) else s
    case Return(r) => if r in s.readers then ReaderStep(s, r, s.readers[r], e) else s
  }

  function Exec(s: Timeline, events: seq<Event>): (t: Timeline)
    requires s.commits != []
    ensures t.commits != []
  {
    if events == [] then s else Step(Exec(s, events[..|events| - 1]), events[|events| - 1])
  }

  /** Version i was the document at instant t. */
  ghost predicate InForce(commits: seq<Version>, i: nat, t: real) {
    i < |commits| && commits[i].at <= t && (i + 1 < |commits| ==> t <= commits[i + 1].at)
  }

  ghost predicate Projects(v: Version, config: ProjectConfig) {
    v.doc.Some? && v.doc.value.isActive && config == ToProjectConfig(v.doc.value)
  }

  /** At instant t the document was active and projected to this configuration. */
  ghost predicate WasCurrent(commits: seq<Version>, config: ProjectConfig, t: real) {
    exists i: nat :: InForce(commits, i, t) && Projects(commits[i], config)
  }

  /** The configuration was current at some instant between `from` and `to`. */
  ghost predicate CurrentWithin(commits: seq<Version>, config: ProjectConfig, from: real, to: real) {
    exists t: real :: from <= t <= to && WasCurrent(commits, config, t)
  }

  /** The earliest instant that an answer given at `at` may stem from, after this delay. */
  ghost function Earliest(at: real, delay: real): real {
    at - CACHE_TTL as real - delay
  }

  ghost predicate Ordered(s: Timeline) {
    && s.commits != []
    && (forall i, j :: 0 <= i < j < |s.commits| ==> s.commits[i].at <= s.commits[j].at)
    && (forall i :: 0 <= i < |s.commits| ==> s.commits[i].at <= s.now)
  }

  ghost predicate ReaderRight(s: Timeline, at: Reader) {
    match at
    case Filling(config, readAt) => readAt <= s.now && WasCurrent(s.commits, config, readAt)
    case Holding(config, lag, since) =>
      since <= s.now && lag >= 0.0 && CurrentWithin(s.commits, config, Earliest(since, lag), since)
    case _ => true
  }

  ghost predicate EntryRight(s: Timeline, c: Entry) {
    c.readAt <= c.setAt <= s.now && c.dies == c.setAt + CACHE_TTL as real && WasCurrent(s.commits, c.config, c.readAt)
  }

  ghost predicate ServedRight(s: Timeline, v: Served) {
    v.at <= s.now && v.delay >= 0.0 && CurrentWithin(s.commits, v.config, Earliest(v.at, v.delay), v.at)
  }

  ghost predicate Inv(s: Timeline) {
    && Ordered(s)
    && (s.cache.Some? ==> EntryRight(s, s.cache.value))
    && (forall r :: r in s.readers ==> ReaderRight(s, s.readers[r]))
    && (forall k :: 0 <= k < |s.served| ==> ServedRight(s, s.served[k]))
  }

  /** A later commit does not change what was in force before it. */
  lemma CommitKeepsPast(s: Timeline, v: Version, config: ProjectConfig, t: real)
    requires Ordered(s) && t <= s.now <= v.at && WasCurrent(s.commits, config, t)
    ensures WasCurrent(s.commits + [v], config, t)
  {
    var i: nat :| InForce(s.commits, i, t) && Projects(s.commits[i], config);
    assert InForce(s.commits + [v], i, t);
  }

  lemma CommitKeepsWithin(s: Timeline, v: Version, config: ProjectConfig, from: real, to: real)
    requires Ordered(s) && to <= s.now <= v.at && CurrentWithin(s.commits, config, from, to)
    ensures CurrentWithin(s.commits + [v], config, from, to)
  {
    var t: real :| from <= t <= to && WasCurrent(s.commits, config, t);
    CommitKeepsPast(s, v, config, t);
  }

  lemma CommitKeepsInv(s: Timeline, w: nat, doc: ProjectDoc)
    requires Inv(s) && w !in s.writers
    ensures Inv(Step(s, Commit(w, doc)))
  {
    var v := Version(s.now, Some(doc));
    var t := Step(s, Commit(w, doc));
    if s.cache.Some? { CommitKeepsPast(s, v, s.cache.value.config, s.cache.value.readAt); }
    forall r | r in t.readers ensures ReaderRight(t, t.readers[r]) {
      assert ReaderRight(s, s.readers[r]);
      match s.readers[r] {
        case Filling(config, readAt) => CommitKeepsPast(s, v, config, readAt);
        case Holding(config, lag, since) => CommitKeepsWithin(s, v, config, Earliest(since, lag), since);
        case _ =>
      }
    }
    forall k | 0 <= k < |t.served| ensures ServedRight(t, t.served[k]) {
      var x := s.served[k];
      assert ServedRight(s, x);
      CommitKeepsWithin(s, v, x.config, Earliest(x.at, x.delay), x.at);
    }
  }

  /** The document read just now is current. */
  lemma ReadIsCurrent(s: Timeline)
    requires Ordered(s) && Current(s).Some? && Current(s).value.isActive
    ensures WasCurrent(s.commits, ToProjectConfig(Current(s).value), s.now)
  {
    assert InForce(s.commits, |s.commits| - 1, s.now);
  }

  lemma Widen(commits: seq<Version>, config: ProjectConfig, from: real, to: real, from': real, to': real)
    requires CurrentWithin(commits, config, from, to) && from' <= from && to <= to'
    ensures CurrentWithin(commits, config, from', to')
  {
    var t: real :| from <= t <= to && WasCurrent(commits, config, t);
  }

  /** What a reader step must establish when it moves reader r to `to`. */
  lemma MovedReaderKeepsInv(s: Timeline, r: nat, to: Reader)
    requires Inv(s) && ReaderRight(s, to)
    ensures Inv(s.(readers := s.readers[r := to]))
  {
    var t := s.(readers := s.readers[r := to]);
    forall q | q in t.readers ensures ReaderRight(t, t.readers[q]) {
      assert q != r ==> ReaderRight(s, s.readers[q]);
    }
  }

  lemma CacheGetKeepsInv(s: Timeline, r: nat)
    requires Inv(s)
    ensures Inv(ReaderStep(s, r, Asking, CacheGet(r)))
  {
    if s.cache.Some? && s.now < s.cache.value.dies {
      var c := s.cache.value;
      Widen(s.commits, c.config, c.readAt, c.readAt, Earliest(s.now, c.setAt - c.readAt), s.now);
      MovedReaderKeepsInv(s, r, Holding(c.config, c.setAt - c.readAt, s.now));
    } else {
      MovedReaderKeepsInv(s, r, Missed);
    }
  }

  lemma DocumentReadKeepsInv(s: Timeline, r: nat)
    requires Inv(s)
    ensures Inv(ReaderStep(s, r, Missed, DocumentRead(r)))
  {
    var doc := Current(s);
    if doc.Some? && doc.value.isActive {
      ReadIsCurrent(s);
      MovedReaderKeepsInv(s, r, Filling(ToProjectConfig(doc.value), s.now));
    } else {
      MovedReaderKeepsInv(s, r, Returned);
    }
  }

  lemma CacheSetKeepsInv(s: Timeline, r: nat, config: ProjectConfig, readAt: real)
    requires Inv(s) && ReaderRight(s, Filling(config, readAt))
    ensures Inv(ReaderStep(s, r, Filling(config, readAt), CacheSet(r)))
  {
    assert Earliest(s.now, s.now - readAt) <= readAt <= s.now;
    Widen(s.commits, config, readAt, readAt, Earliest(s.now, s.now - readAt), s.now);
    MovedReaderKeepsInv(s, r, Holding(config, s.now - readAt, s.now));
  }

  lemma ReturnKeepsInv(s: Timeline, r: nat, at: Reader)
    requires Inv(s) && at.Holding? && ReaderRight(s, at)
    ensures Inv(ReaderStep(s, r, at, Return(r)))
  {
    Widen(s.commits, at.config, Earliest(at.since, at.lag), at.since,
          Earliest(s.now, at.lag + (s.now - at.since)), s.now);
    MovedReaderKeepsInv(s, r, Returned);
  }

  lemma ReaderKeepsInv(s: Timeline, r: nat, e: Event)
    requires Inv(s) && r in s.readers
    requires e == CacheGet(r) || e == DocumentRead(r) || e == CacheSet(r) || e == Return(r)
    ensures Inv(ReaderStep(s, r, s.readers[r], e))
  {
    var at := s.readers[r];
    assert ReaderRight(s, at);
    match e {
      case CacheGet(_) => if at.Asking? { CacheGetKeepsInv(s, r); }
      case DocumentRead(_) => if at.Missed? { DocumentReadKeepsInv(s, r); }
      case CacheSet(_) => if at.Filling? { CacheSetKeepsInv(s, r, at.config, at.readAt); }
      case Return(_) => if at.Holding? { ReturnKeepsInv(s, r, at); }
      case _ =>
    }
  }

  lemma StepKeepsInv(s: Timeline, e: Event)
    requires Inv(s)
    ensures Inv(Step(s, e))
  {
    match e {
      case Tick(elapsed) =>
        var t := Step(s, e);
        assert forall r :: r in t.readers ==> ReaderRight(s, t.readers[r]);
        assert forall k :: 0 <= k < |t.served| ==> ServedRight(s, t.served[k]);
      case Commit(w, doc) => if w !in s.writers { CommitKeepsInv(s, w, doc); }
      case Invalidate(w) =>
      case Ask(r) =>
      case CacheGet(r) => if r in s.readers { ReaderKeepsInv(s, r, e); }
      case DocumentRead(r) => if r in s.readers { ReaderKeepsInv(s, r, e); }
      case CacheSet(r) => if r in s.readers { ReaderKeepsInv(s, r, e); }
      case Return(r) => if r in s.readers { ReaderKeepsInv(s, r, e); }
    }
  }

  lemma {:induction false} RunKeepsInv(es: seq<Event>)
    ensures Inv(Exec(START, es))
  {
    if es != [] {
      RunKeepsInv(es[..|es| - 1]);
      StepKeepsInv(Exec(START, es[..|es| - 1]), es[|es| - 1]);
    }
  }

  /**
   * Every configuration handed out at time t is the projection of an active document that was
   * current at some instant of [t - 60 - d, t], where d is the time spent around the document
   * read, the cache set and the return.
   */
  lemma {:induction false} BoundedStaleness(es: seq<Event>, k: nat)
    requires k < |Exec(START, es).served|
    ensures var s := Exec(START, es);
            var v := s.served[k];
            v.delay >= 0.0 && CurrentWithin(s.commits, v.config, v.at - 60.0 - v.delay, v.at)
  {
    RunKeepsInv(es);
    assert ServedRight(Exec(START, es), Exec(START, es).served[k]);
  }

  ghost predicate InactiveFrom(commits: seq<Version>, j: nat) {
    forall i :: j <= i < |commits| && commits[i].doc.Some? ==> !commits[i].doc.value.isActive
  }

  /** What is inactive from commit j on was last current no later than commit j. */
  lemma CurrentOnlyBefore(commits: seq<Version>, config: ProjectConfig, j: nat, t: real)
    requires j < |commits| && InactiveFrom(commits, j) && WasCurrent(commits, config, t)
    requires forall i, k :: 0 <= i < k < |commits| ==> commits[i].at <= commits[k].at
    ensures t <= commits[j].at
  {
    var i: nat :| InForce(commits, i, t) && Projects(commits[i], config);
    assert i < j;
    assert t <= commits[i + 1].at;
  }

  /** A project deactivated by commit j, and not reactivated, stops resolving 60 + d seconds later. */
  lemma {:induction false} SoftDeletedStopsResolving(es: seq<Event>, j: nat, k: nat)
    requires j < |Exec(START, es).commits| && k < |Exec(START, es).served|
    requires InactiveFrom(Exec(START, es).commits, j)
    ensures var s := Exec(START, es);
            s.served[k].at <= s.commits[j].at + 60.0 + s.served[k].delay
  {
    BoundedStaleness(es, k);
    RunKeepsInv(es);
    var s := Exec(START, es);
    var v := s.served[k];
    var t: real :| Earliest(v.at, v.delay) <= t <= v.at && WasCurrent(s.commits, v.config, t);
    CurrentOnlyBefore(s.commits, v.config, j, t);
  }

  // ---- When an update is seen at once --------------------------------------------------------

  /** The document is active and projects to this configuration now. */
  ghost predicate IsCurrent(commits: seq<Version>, config: ProjectConfig)
    requires commits != []
  {
    Projects(commits[|commits| - 1], config)
  }

  ghost predicate NoCommit(es: seq<Event>) {
    forall i :: 0 <= i < |es| ==> !es[i].Commit?
  }

  /** Some reader is about to fill the cache with a configuration that is not the current one. */
  ghost predicate StaleFill(s: Timeline)
    requires s.commits != []
  {
    exists r :: r in s.readers && s.readers[r].Filling? && !IsCurrent(s.commits, s.readers[r].config)
  }

  ghost predicate CacheCurrent(s: Timeline)
    requires s.commits != []
  {
    s.cache.Some? ==> IsCurrent(s.commits, s.cache.value.config)
  }

  /** Until the next commit the cache holds the current configuration or nothing. */
  ghost predicate CacheStaysCurrent(s: Timeline)
    requires s.commits != []
  {
    forall es :: NoCommit(es) ==> CacheCurrent(Exec(s, es))
  }

  /** Whoever had not asked in state s and has been answered since was given the current configuration. */
  ghost predicate NewcomersCurrent(s: Timeline, t: Timeline)
    requires t.commits != []
  {
    forall k :: |s.served| <= k < |t.served| && t.served[k].reader !in s.readers ==>
      IsCurrent(t.commits, t.served[k].config)
  }

  /** Until the next commit every lookup that begins after s answers with the current configuration. */
  ghost predicate LookupsSeeUpdate(s: Timeline)
    requires s.commits != []
  {
    forall es :: NoCommit(es) ==> NewcomersCurrent(s, Exec(s, es))
  }

  /** Nobody who had not asked in state s holds anything but the current configuration. */
  ghost predicate NewcomersHoldCurrent(s: Timeline, t: Timeline)
    requires t.commits != []
  {
    forall r :: r in t.readers && t.readers[r].Holding? && r !in s.readers ==>
      IsCurrent(t.commits, t.readers[r].config)
  }

  ghost predicate UpToDate(s: Timeline, t: Timeline) {
    && t.commits != [] && t.commits == s.commits
    && |s.served| <= |t.served|
    && CacheCurrent(t) && !StaleFill(t)
    && NewcomersHoldCurrent(s, t) && NewcomersCurrent(s, t)
    && forall r :: r in s.readers ==> r in t.readers
  }

  lemma ReaderKeepsUpToDate(s: Timeline, t: Timeline, r: nat, e: Event)
    requires UpToDate(s, t) && r in t.readers
    ensures UpToDate(s, ReaderStep(t, r, t.readers[r], e))
  {
    var at := t.readers[r];
    if at.Filling? { assert IsCurrent(t.commits, at.config); }
  }

  lemma StepKeepsUpToDate(s: Timeline, t: Timeline, e: Event)
    requires UpToDate(s, t) && !e.Commit?
    ensures UpToDate(s, Step(t, e))
  {
    match e {
      case CacheGet(r) => if r in t.readers { ReaderKeepsUpToDate(s, t, r, e); }
      case DocumentRead(r) => if r in t.readers { ReaderKeepsUpToDate(s, t, r, e); }
      case CacheSet(r) => if r in t.readers { ReaderKeepsUpToDate(s, t, r, e); }
      case Return(r) => if r in t.readers { ReaderKeepsUpToDate(s, t, r, e); }
      case _ =>
    }
  }

  lemma {:induction false} RunKeepsUpToDate(s: Timeline, es: seq<Event>)
    requires UpToDate(s, s) && NoCommit(es)
    ensures UpToDate(s, Exec(s, es))
  {
    if es != [] {
      RunKeepsUpToDate(s, es[..|es| - 1]);
      StepKeepsUpToDate(s, Exec(s, es[..|es| - 1]), es[|es| - 1]);
    }
  }

  lemma ExecSnoc(s: Timeline, es: seq<Event>, e: Event)
    requires s.commits != []
    ensures Exec(s, es + [e]) == Step(Exec(s, es), e)
  {
    assert (es + [e])[..|es|] == es;
  }

  lemma {:induction false} Above(keys: set<nat>) returns (bound: nat)
    ensures forall r :: r in keys ==> r < bound
  {
    if keys == {} {
      bound := 0;
    } else {
      var r :| r in keys;
      var rest := Above(keys - {r});
      bound := if rest > r then rest else r + 1;
      assert forall q :: q in keys ==> q == r || q in keys - {r};
    }
  }

  /** A stale fill goes through, and a lookup begun after it is answered from it. */
  lemma StaleFillIsServed(s: Timeline, q: nat)
    requires s.commits != []
    requires q in s.readers && s.readers[q].Filling? && !IsCurrent(s.commits, s.readers[q].config)
    ensures !CacheStaysCurrent(s) && !LookupsSeeUpdate(s)
  {
    var at := s.readers[q];
    var r := Above(s.readers.Keys);
    var s1 := Step(s, CacheSet(q));
    ExecSnoc(s, [], CacheSet(q));
    assert [] + [CacheSet(q)] == [CacheSet(q)];
    assert s1.cache == Some(NewEntry(at.config, at.readAt, s.now));
    assert NoCommit([CacheSet(q)]) && !CacheCurrent(Exec(s, [CacheSet(q)]));
    var es := [CacheSet(q)] + [Ask(r)] + [CacheGet(r)] + [Return(r)];
    ExecSnoc(s, [CacheSet(q)], Ask(r));
    ExecSnoc(s, [CacheSet(q)] + [Ask(r)], CacheGet(r));
    ExecSnoc(s, [CacheSet(q)] + [Ask(r)] + [CacheGet(r)], Return(r));
    var t := HitIsServed(s1, r);
    assert t == Exec(s, es) && NoCommit(es);
    assert t.served[|s.served|].reader !in s.readers && !NewcomersCurrent(s, t);
  }

  /** A new reader that finds a fresh entry is given it. */
  lemma HitIsServed(s: Timeline, r: nat) returns (t: Timeline)
    requires s.commits != [] && r !in s.readers && s.cache.Some? && s.now < s.cache.value.dies
    ensures t == Step(Step(Step(s, Ask(r)), CacheGet(r)), Return(r))
    ensures var c := s.cache.value;
            t == s.(readers := s.readers[r := Returned],
                    served := s.served + [Served(r, c.config, s.now, c.setAt - c.readAt)])
  {
    var c := s.cache.value;
    var s1 := Step(s, Ask(r));
    var s2 := Step(s1, CacheGet(r));
    assert s2 == s.(readers := s.readers[r := Asking][r := Holding(c.config, c.setAt - c.readAt, s.now)]);
    t := Step(s2, Return(r));
    assert t.readers == s.readers[r := Returned];
  }

  /**
   * With the cache just invalidated, until the next commit the cache holds the current
   * configuration or nothing, and every lookup begun from now on answers with the current one,
   * exactly when no reader that read the document before is still to fill the cache with
   * something else.
   */
  lemma UpdateSeenIff(s: Timeline)
    requires s.commits != [] && s.cache == None
    ensures CacheStaysCurrent(s) <==> !StaleFill(s)
    ensures LookupsSeeUpdate(s) <==> !StaleFill(s)
  {
    if StaleFill(s) {
      var q :| q in s.readers && s.readers[q].Filling? && !IsCurrent(s.commits, s.readers[q].config);
      StaleFillIsServed(s, q);
    } else {
      forall es | NoCommit(es) ensures CacheCurrent(Exec(s, es)) && NewcomersCurrent(s, Exec(s, es)) {
        RunKeepsUpToDate(s, es);
      }
    }
  }

  ghost predicate Reachable(s: Timeline) {
    exists es :: s == Exec(START, es)
  }

  lemma ReachableStep(s: Timeline, e: Event) returns (t: Timeline)
    requires Reachable(s) && s.commits != []
    ensures t == Step(s, e) && Reachable(t)
  {
    var es :| s == Exec(START, es);
    assert (es + [e])[..|es|] == es;
    t := Exec(START, es + [e]);
  }

  /** A reader that has read `stale` when `later` is committed and its writer has yet to invalidate. */
  ghost predicate ReadBeforeUpdate(s: Timeline, stale: ProjectDoc, later: ProjectDoc) {
    && s.now == 0.0
    && s.commits == [Version(0.0, None), Version(0.0, Some(stale)), Version(0.0, Some(later))]
    && s.readers == map[0 := Filling(ToProjectConfig(stale), 0.0)]
    && s.writers == map[0 := Finished, 1 := Committed]
    && s.served == []
  }

  lemma CommittedIsReachable(doc: ProjectDoc) returns (s: Timeline)
    ensures Reachable(s)
    ensures s == Timeline(0.0, [Version(0.0, None), Version(0.0, Some(doc))], None, map[], map[0 := Finished], [])
  {
    assert Exec(START, []) == START;
    s := ReachableStep(START, Commit(0, doc));
    s := ReachableStep(s, Invalidate(0));
  }

  lemma ReadBeforeUpdateIsReachable(stale: ProjectDoc, later: ProjectDoc) returns (s: Timeline)
    requires stale.isActive
    ensures Reachable(s) && ReadBeforeUpdate(s, stale, later)
  {
    s := CommittedIsReachable(stale);
    s := ReachableStep(s, Ask(0));
    s := ReachableStep(s, CacheGet(0));
    assert s.readers == map[0 := Missed];
    s := ReachableStep(s, DocumentRead(0));
    assert s.readers == map[0 := Filling(ToProjectConfig(stale), 0.0)];
    s := ReachableStep(s, Commit(1, later));
  }

  /** Both writers have invalidated, and a lookup that began afterwards was served `stale`. */
  ghost predicate ServedAfterInvalidation(s: Timeline, stale: ProjectDoc, later: ProjectDoc) {
    && s.commits == [Version(0.0, None), Version(0.0, Some(stale)), Version(0.0, Some(later))]
    && s.writers == map[0 := Finished, 1 := Finished]
    && 1 in s.readers && s.readers[1] == Returned
    && s.served == [Served(1, ToProjectConfig(stale), 0.0, 0.0)]
  }

  /** Both writers are done, and the stale entry is in the cache. */
  lemma StaleEntryIsReachable(stale: ProjectDoc, later: ProjectDoc) returns (s: Timeline)
    requires stale.isActive
    ensures Reachable(s) && s.now == 0.0 && s.served == []
    ensures s.commits == [Version(0.0, None), Version(0.0, Some(stale)), Version(0.0, Some(later))]
    ensures s.writers == map[0 := Finished, 1 := Finished] && 1 !in s.readers
    ensures s.cache == Some(NewEntry(ToProjectConfig(stale), 0.0, 0.0))
  {
    s := ReadBeforeUpdateIsReachable(stale, later);
    s := ReachableStep(s, Invalidate(1));
    s := ReachableStep(s, CacheSet(0));
  }

  /**
   * The next lookup after an update does not always see it: a reader that read the document
   * before the update may fill the cache after the invalidation.
   */
  lemma UpdateMayBeMissed(stale: ProjectDoc, later: ProjectDoc)
    requires stale.isActive
    ensures exists s :: Reachable(s) && ServedAfterInvalidation(s, stale, later)
  {
    var s := StaleEntryIsReachable(stale, later);
    var t := HitIsServed(s, 1);
    s := ReachableStep(s, Ask(1));
    s := ReachableStep(s, CacheGet(1));
    s := ReachableStep(s, Return(1));
    assert ServedAfterInvalidation(s, stale, later);
  }
}
