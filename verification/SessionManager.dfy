/** The registry of live sessions on one server node. */
module SessionManager {
  import opened Prelude

  type SessionId = string
  type ProjectId = string

  /** A SessionState object, told apart from other objects by its identity. */
  datatype Entry = Entry(id: nat, sid: SessionId, project: ProjectId)

  datatype Lookup = Resumed(entry: Entry) | Created(entry: Entry) | CapExceeded

  /** The registered sessions of one project. */
  ghost function Of(sessions: map<SessionId, Entry>, project: ProjectId): set<SessionId> {
    set sid | sid in sessions && sessions[sid].project == project
  }

  /** Counts the registered sessions of one project, as get_or_create does. */
  method CountForProject(sessions: map<SessionId, Entry>, project: ProjectId) returns (n: nat)
    ensures n == |Of(sessions, project)|
  {
    n := 0;
    var left := sessions.Keys;
    ghost var seen: set<SessionId> := {};
    while left != {}
      invariant left <= sessions.Keys && seen == sessions.Keys - left
      invariant n == |set sid | sid in seen && sessions[sid].project == project|
      decreases left
    {
      var sid :| sid in left;
      ghost var before := set s | s in seen && sessions[s].project == project;
      left := left - {sid};
      seen := seen + {sid};
      ghost var after := set s | s in seen && sessions[s].project == project;
      if sessions[sid].project == project {
        assert after == before + {sid};
        n := n + 1;
      } else {
        assert after == before;
      }
    }
    assert (set sid | sid in seen && sessions[sid].project == project) == Of(sessions, project);
  }

  /** What get_or_create answers; `id` is the identity a newly built object would have. */
  ghost function Answer(
    sessions: map<SessionId, Entry>, id: nat, sid: SessionId, project: ProjectId, cap: nat): Lookup
  {
    if sid in sessions then Resumed(sessions[sid])
    else if |Of(sessions, project)| >= cap then CapExceeded
    else Created(Entry(id, sid, project))
  }

  ghost function Registered(sessions: map<SessionId, Entry>, answer: Lookup): map<SessionId, Entry> {
    if answer.Created? then sessions[answer.entry.sid := answer.entry] else sessions
  }

  /** The registry; a lock is held for no longer than one of these methods and never waited for. */
  class Registry {
    var sessions: map<SessionId, Entry>
    var next: nat

    constructor ()
      ensures sessions == map[] && next == 0
    {
      sessions, next := map[], 0;
    }

    method GetOrCreate(sid: SessionId, project: ProjectId, cap: nat) returns (answer: Lookup)
      modifies this
      ensures answer == Answer(old(sessions), old(next), sid, project, cap)
      ensures sessions == Registered(old(sessions), answer)
      ensures answer.Resumed? <==> sid in old(sessions)
      ensures answer.Resumed? ==> answer.entry == old(sessions)[sid]
      ensures answer.CapExceeded? <==> sid !in old(sessions) && |Of(old(sessions), project)| >= cap
      ensures answer.Created? ==>
                answer.entry.sid == sid && answer.entry.project == project && answer.entry.id == old(next)
      ensures sessions == if answer.Created? then old(sessions)[sid := answer.entry] else old(sessions)
      ensures next == old(next) + if answer.Created? then 1 else 0
    {
      if sid in sessions {
        return Resumed(sessions[sid]);
      }
      var count := CountForProject(sessions, project);
      if count >= cap {
        return CapExceeded;
      }
      var state := Entry(next, sid, project);
      sessions := sessions[sid := state];
      next := next + 1;
      return Created(state);
    }

    /** _on_runner_done: pops by session id, whichever object is registered under it. */
    method OnRunnerDone(sid: SessionId)
      modifies this`sessions
      ensures sessions == old(sessions) - {sid}
    {
      sessions := sessions - {sid};
    }

    /** The locked part of _terminate; the popped object is then told to stop. */
    method PopForTermination(sid: SessionId) returns (state: Option<Entry>)
      modifies this`sessions
      ensures state == if sid in old(sessions) then Some(old(sessions)[sid]) else None
      ensures sessions == old(sessions) - {sid}
    {
      state := if sid in sessions then Some(sessions[sid]) else None;
      sessions := sessions - {sid};
    }
  }

  /** stop(), with no session opened meanwhile: every registered session is popped for termination. */
  method StopAll(registry: Registry)
    modifies registry`sessions
    ensures registry.sessions == map[]
  {
    var sids := registry.sessions.Keys;
    while sids != {}
      invariant registry.sessions.Keys <= sids
      decreases sids
    {
      var sid :| sid in sids;
      var _ := registry.PopForTermination(sid);
      sids := sids - {sid};
    }
  }

  // ---- Every interleaving -----------------------------------------------------------------

  /**
   * The registry with its history.  `created` lists every object ever built, by identity;
   * `finished` holds those whose runner task has ended, `called` those whose removal callback
   * has run, `terminated` those that _terminate has popped, and `evicted` those popped by the
   * callback of another object.
   */
  datatype Node = Node(
    sessions: map<SessionId, Entry>,
    created: seq<Entry>,
    finished: set<nat>,
    called: set<nat>,
    terminated: set<nat>,
    evicted: set<nat>,
    recreated: bool,               // an id was reused before an older object's callback
    caps: map<ProjectId, nat>)     // the largest cap passed for each project

  datatype Event =
    | GetOrCreate(sid: SessionId, project: ProjectId, cap: nat)
    | RunnerEnds(id: nat)
    | Callback(id: nat)
    | Terminate(sid: SessionId)

  const START := Node(map[], [], {}, {}, {}, {}, false, map[])

  ghost predicate OlderPending(s: Node, sid: SessionId) {
    exists i :: 0 <= i < |s.created| && s.created[i].sid == sid && i !in s.called
  }

  ghost function CreateStep(s: Node, sid: SessionId, project: ProjectId, cap: nat): Node {
    var answer := Answer(s.sessions, |s.created|, sid, project, cap);
    var seen := if project in s.caps && s.caps[project] >= cap then s.caps[project] else cap;
    var s1 := s.(sessions := Registered(s.sessions, answer));
    if answer.Resumed? then s1
    else
      var s2 := s1.(caps := s.caps[project := seen]);
      if answer.CapExceeded? then s2
      else s2.(created := s.created + [answer.entry], recreated := s.recreated || OlderPending(s, sid))
  }

  ghost function CallbackStep(s: Node, id: nat): Node
    requires id < |s.created|
  {
    var sid := s.created[id].sid;
    s.(sessions := s.sessions - {sid},
       called := s.called + {id},
       evicted := if sid in s.sessions && s.sessions[sid].id != id then s.evicted + {s.sessions[sid].id}
                  else s.evicted)
  }

  ghost function Step(s: Node, e: Event): Node {
    match e
    case GetOrCreate(sid, project, cap) => CreateStep(s, sid, project, cap)
    case RunnerEnds(id) => if id < |s.created| then s.(finished := s.finished + {id}) else s
    case Callback(id) =>
      if id < |s.created| && id in s.finished && id !in s.called then CallbackStep(s, id) else s
    case Terminate(sid) =>
      if sid in s.sessions then
        s.(sessions := s.sessions - {sid}, terminated := s.terminated + {s.sessions[sid].id})
      else s
  }

  ghost function Exec(s: Node, events: seq<Event>): Node {
    if events == [] then s else Step(Exec(s, events[..|events| - 1]), events[|events| - 1])
  }

  /** Removed from the registry in one of the three ways. */
  ghost predicate Gone(s: Node, id: nat) {
    id in s.terminated || id in s.called || id in s.evicted
  }

  ghost predicate Identities(s: Node) {
    && (forall i :: 0 <= i < |s.created| ==> s.created[i].id == i)
    && Below(s.finished, |s.created|) && Below(s.terminated, |s.created|) && Below(s.evicted, |s.created|)
    && s.called <= s.finished
  }

  ghost predicate Below(ids: set<nat>, n: nat) {
    forall i :: i in ids ==> i < n
  }

  /** Each key maps to a created object with that session id that is not gone ... */
  ghost predicate KeysRight(s: Node) {
    forall sid :: sid in s.sessions ==>
      var e := s.sessions[sid];
      e.sid == sid && e.id < |s.created| && s.created[e.id] == e && !Gone(s, e.id)
  }

  /** ... and every created object that is not gone is registered. */
  ghost predicate AllThere(s: Node) {
    forall i :: 0 <= i < |s.created| && !Gone(s, i) ==>
      s.created[i].sid in s.sessions && s.sessions[s.created[i].sid] == s.created[i]
  }

  /** Without re-created ids, older objects of an id have been called back and none is evicted. */
  ghost predicate Orderly(s: Node) {
    !s.recreated ==>
      && s.evicted == {}
      && forall i, j :: 0 <= i < j < |s.created| && s.created[i].sid == s.created[j].sid ==> i in s.called
  }

  ghost predicate Consistent(s: Node) {
    Identities(s) && KeysRight(s) && AllThere(s) && Orderly(s)
  }

  lemma CreateKeepsRegistry(s: Node, sid: SessionId, project: ProjectId, cap: nat)
    requires Identities(s) && KeysRight(s) && AllThere(s)
    ensures var t := CreateStep(s, sid, project, cap); Identities(t) && KeysRight(t) && AllThere(t)
  {
    if Answer(s.sessions, |s.created|, sid, project, cap).Created? {
      RegisterKeepsRegistry(s, CreateStep(s, sid, project, cap), Entry(|s.created|, sid, project));
    }
  }

  /** A newly built object gets the next identity, and a key that was free. */
  lemma RegisterKeepsRegistry(s: Node, t: Node, e: Entry)
    requires Identities(s) && KeysRight(s) && AllThere(s) && e.sid !in s.sessions && e.id == |s.created|
    requires t.created == s.created + [e] && t.sessions == s.sessions[e.sid := e]
    requires t.finished == s.finished && t.called == s.called
    requires t.terminated == s.terminated && t.evicted == s.evicted
    ensures Identities(t) && KeysRight(t) && AllThere(t)
  {
    assert forall i :: 0 <= i < |s.created| ==> t.created[i] == s.created[i] && Gone(t, i) == Gone(s, i);
    assert forall i :: 0 <= i < |s.created| && s.created[i].sid == e.sid ==> Gone(s, i);
    assert !Gone(t, e.id);
  }

  lemma CreateKeepsOrderly(s: Node, sid: SessionId, project: ProjectId, cap: nat)
    requires Orderly(s)
    ensures Orderly(CreateStep(s, sid, project, cap))
  {
    var t := CreateStep(s, sid, project, cap);
    if !t.recreated && Answer(s.sessions, |s.created|, sid, project, cap).Created? {
      assert t.created == s.created + [Entry(|s.created|, sid, project)];
      assert !OlderPending(s, sid);
    }
  }

  lemma CreateKeepsConsistent(s: Node, sid: SessionId, project: ProjectId, cap: nat)
    requires Consistent(s)
    ensures Consistent(CreateStep(s, sid, project, cap))
  {
    CreateKeepsRegistry(s, sid, project, cap);
    CreateKeepsOrderly(s, sid, project, cap);
  }

  lemma CallbackKeepsConsistent(s: Node, id: nat)
    requires Consistent(s) && id < |s.created| && id in s.finished && id !in s.called
    ensures Consistent(CallbackStep(s, id))
  {
    var sid := s.created[id].sid;
    if !s.recreated && sid in s.sessions {
      var other := s.sessions[sid];
      assert s.created[other.id] == other;
      assert id < other.id ==> id in s.called;
      assert other.id < id ==> other.id in s.called;
    }
  }

  lemma TerminateKeepsConsistent(s: Node, sid: SessionId)
    requires Consistent(s) && sid in s.sessions
    ensures Consistent(Step(s, Terminate(sid)))
  {
    var id := s.sessions[sid].id;
    assert s.created[id] == s.sessions[sid];
  }

  lemma StepKeepsConsistent(s: Node, e: Event)
    requires Consistent(s)
    ensures Consistent(Step(s, e))
  {
    match e {
      case GetOrCreate(sid, project, cap) => CreateKeepsConsistent(s, sid, project, cap);
      case RunnerEnds(id) =>
      case Callback(id) =>
        if id < |s.created| && id in s.finished && id !in s.called { CallbackKeepsConsistent(s, id); }
      case Terminate(sid) =>
        if sid in s.sessions { TerminateKeepsConsistent(s, sid); }
    }
  }

  lemma {:induction false} RunKeepsConsistent(es: seq<Event>)
    ensures Consistent(Exec(START, es))
  {
    if es != [] {
      RunKeepsConsistent(es[..|es| - 1]);
      StepKeepsConsistent(Exec(START, es[..|es| - 1]), es[|es| - 1]);
    }
  }

  // ---- The cap ----------------------------------------------------------------------------

  ghost function CapOf(s: Node, project: ProjectId): nat {
    if project in s.caps then s.caps[project] else 0
  }

  /** For each project, no more registered sessions than the largest cap passed for it so far. */
  ghost predicate Capped(s: Node) {
    forall p :: |Of(s.sessions, p)| <= CapOf(s, p)
  }

  lemma RemovalShrinks(sessions: map<SessionId, Entry>, sid: SessionId, p: ProjectId)
    ensures |Of(sessions - {sid}, p)| <= |Of(sessions, p)|
  {
    assert Of(sessions - {sid}, p) == Of(sessions, p) - {sid};
  }

  lemma RegistrationGrows(sessions: map<SessionId, Entry>, e: Entry, p: ProjectId)
    requires e.sid !in sessions
    ensures |Of(sessions[e.sid := e], p)| == |Of(sessions, p)| + if p == e.project then 1 else 0
  {
    assert Of(sessions[e.sid := e], p) == Of(sessions, p) + (if p == e.project then {e.sid} else {});
  }

  lemma CreateKeepsCap(s: Node, sid: SessionId, project: ProjectId, cap: nat, p: ProjectId)
    requires |Of(s.sessions, p)| <= CapOf(s, p)
    ensures var t := CreateStep(s, sid, project, cap); |Of(t.sessions, p)| <= CapOf(t, p)
  {
    var answer := Answer(s.sessions, |s.created|, sid, project, cap);
    if answer.Created? {
      RegistrationGrows(s.sessions, answer.entry, p);
    }
  }

  lemma StepKeepsCap(s: Node, e: Event, p: ProjectId)
    requires |Of(s.sessions, p)| <= CapOf(s, p)
    ensures |Of(Step(s, e).sessions, p)| <= CapOf(Step(s, e), p)
  {
    match e {
      case GetOrCreate(sid, project, cap) => CreateKeepsCap(s, sid, project, cap, p);
      case RunnerEnds(id) =>
      case Callback(id) => if id < |s.created| { RemovalShrinks(s.sessions, s.created[id].sid, p); }
      case Terminate(sid) => RemovalShrinks(s.sessions, sid, p);
    }
  }

  lemma StepKeepsCapped(s: Node, e: Event)
    requires Capped(s)
    ensures Capped(Step(s, e))
  {
    forall p ensures |Of(Step(s, e).sessions, p)| <= CapOf(Step(s, e), p) {
      StepKeepsCap(s, e, p);
    }
  }

  /** In every run, each project's registered sessions stay within the largest cap ever passed for it. */
  lemma {:induction false} ConcurrencyCap(es: seq<Event>)
    ensures Capped(Exec(START, es))
  {
    if es == [] {
      assert forall p :: Of(START.sessions, p) == {};
    } else {
      ConcurrencyCap(es[..|es| - 1]);
      StepKeepsCapped(Exec(START, es[..|es| - 1]), es[|es| - 1]);
    }
  }

  // ---- Main results -----------------------------------------------------------------------

  ghost predicate IsRegistered(s: Node, id: nat) {
    exists sid :: sid in s.sessions && s.sessions[sid].id == id
  }

  /**
   * The registered objects are exactly the created ones that were neither terminated, nor
   * called back, nor evicted by the callback of another object of the same id; and eviction
   * happens only in runs that re-create an id before an older callback.
   */
  lemma {:induction false} RegistryLifecycle(es: seq<Event>, id: nat)
    ensures var s := Exec(START, es);
            && KeysRight(s)
            && (IsRegistered(s, id) <==> id < |s.created| && !Gone(s, id))
            && (!s.recreated ==> s.evicted == {})
            && (id in s.called ==> !IsRegistered(s, id))
            && ((forall i :: 0 <= i < |s.created| ==> i in s.called) ==> s.sessions == map[])
  {
    RunKeepsConsistent(es);
    var s := Exec(START, es);
    if id < |s.created| && !Gone(s, id) {
      assert s.sessions[s.created[id].sid].id == id;
    }
    if s.sessions != map[] {
      var sid :| sid in s.sessions;
      assert !Gone(s, s.sessions[sid].id);
    }
  }

  lemma {:induction false} CalledStaysCalled(s: Node, es: seq<Event>)
    ensures s.called <= Exec(s, es).called
  {
    if es != [] {
      CalledStaysCalled(s, es[..|es| - 1]);
    }
  }

  lemma {:induction false} ExecConcat(s: Node, a: seq<Event>, b: seq<Event>)
    ensures Exec(s, a + b) == Exec(Exec(s, a), b)
  {
    if b == [] {
      assert a + b == a;
    } else {
      assert (a + b)[..|a + b| - 1] == a + b[..|b| - 1];
      ExecConcat(s, a, b[..|b| - 1]);
    }
  }

  /** Once an object's removal callback has run, no continuation registers that object again. */
  lemma {:induction false} NeverRegisteredAgain(es: seq<Event>, later: seq<Event>, id: nat)
    requires id in Exec(START, es).called
    ensures !IsRegistered(Exec(START, es + later), id)
  {
    ExecConcat(START, es, later);
    CalledStaysCalled(Exec(START, es), later);
    RegistryLifecycle(es + later, id);
  }

  /**
   * The session returned may belong to another project than the one the caller was admitted for:
   * exactly when a session of that id is registered, and was created for another project.
   */
  lemma {:induction false} ResumeIgnoresProject(es: seq<Event>, sid: SessionId, project: ProjectId, cap: nat)
    requires !Answer(Exec(START, es).sessions, |Exec(START, es).created|, sid, project, cap).CapExceeded?
    ensures var s := Exec(START, es);
            var got := Answer(s.sessions, |s.created|, sid, project, cap).entry;
            && (got.project != project <==> sid in s.sessions && s.sessions[sid].project != project)
            && (got.project != project ==> got.id < |s.created| && s.created[got.id] == got)
  {
    RunKeepsConsistent(es);
  }

  /** Resuming returns the registered object and changes nothing. */
  lemma {:induction false} ResumeChangesNothing(es: seq<Event>, sid: SessionId, project: ProjectId, cap: nat)
    requires sid in Exec(START, es).sessions
    ensures var s := Exec(START, es);
            && Step(s, GetOrCreate(sid, project, cap)) == s
            && Answer(s.sessions, |s.created|, sid, project, cap) == Resumed(s.sessions[sid])
            && s.sessions[sid].sid == sid
  {
    RunKeepsConsistent(es);
  }

  ghost predicate Reachable(s: Node) {
    exists es :: s == Exec(START, es)
  }

  lemma ReachableStep(s: Node, e: Event) returns (t: Node)
    requires Reachable(s)
    ensures t == Step(s, e) && Reachable(t)
  {
    var es :| s == Exec(START, es);
    assert (es + [e])[..|es|] == es;
    t := Exec(START, es + [e]);
  }

  /** Object j is not evicted, older objects of its id are called back, and while it is there it is the newest. */
  ghost predicate Secure(s: Node, j: nat) {
    && j < |s.created| && j !in s.evicted
    && (forall i :: 0 <= i < j && s.created[i].sid == s.created[j].sid ==> i in s.called)
    && (!Gone(s, j) ==> forall i :: j < i < |s.created| ==> s.created[i].sid != s.created[j].sid)
  }

  lemma CreateKeepsSecure(s: Node, sid: SessionId, project: ProjectId, cap: nat, j: nat)
    requires Consistent(s) && Secure(s, j)
    ensures Secure(CreateStep(s, sid, project, cap), j)
  {
    var t := CreateStep(s, sid, project, cap);
    assert forall i :: 0 <= i < |s.created| ==> t.created[i] == s.created[i];
    if !Gone(s, j) { assert s.created[j].sid in s.sessions; }
  }

  lemma StepKeepsSecure(s: Node, e: Event, j: nat)
    requires Consistent(s) && Secure(s, j)
    ensures Secure(Step(s, e), j)
  {
    match e {
      case GetOrCreate(sid, project, cap) => CreateKeepsSecure(s, sid, project, cap, j);
      case RunnerEnds(id) =>
      case Callback(id) =>
        if id < |s.created| && id in s.finished && id !in s.called {
          var sid := s.created[id].sid;
          if sid in s.sessions && s.sessions[sid].id == j { assert s.created[j] == s.sessions[sid]; }
        }
      case Terminate(sid) =>
    }
  }

  lemma {:induction false} RunKeepsSecure(s: Node, later: seq<Event>, j: nat)
    requires Consistent(s) && Secure(s, j)
    ensures Consistent(Exec(s, later)) && Secure(Exec(s, later), j)
  {
    if later != [] {
      RunKeepsSecure(s, later[..|later| - 1], j);
      StepKeepsConsistent(Exec(s, later[..|later| - 1]), later[|later| - 1]);
      StepKeepsSecure(Exec(s, later[..|later| - 1]), later[|later| - 1], j);
    }
  }

  ghost predicate MayBeEvicted(s: Node, j: nat) {
    exists later :: j in Exec(s, later).evicted
  }

  /** An older object whose callback is still to come can evict the new one. */
  lemma PendingEvicts(s: Node, i: nat, j: nat)
    requires i < |s.created| && i != j && i !in s.called
    requires s.created[i].sid in s.sessions && s.sessions[s.created[i].sid].id == j
    ensures MayBeEvicted(s, j)
  {
    var later := [RunnerEnds(i), Callback(i)];
    assert later[..1][..0] == [];
    assert Exec(s, later[..1]) == Step(s, RunnerEnds(i));
    assert Exec(s, later) == Step(Step(s, RunnerEnds(i)), Callback(i));
    assert j in Exec(s, later).evicted;
  }

  /**
   * A newly created object can be evicted by the callback of another one exactly when, at its
   * creation, an older object of the same id has yet to be called back.
   */
  lemma {:induction false} EvictableIff(es: seq<Event>, sid: SessionId, project: ProjectId, cap: nat)
    requires Answer(Exec(START, es).sessions, |Exec(START, es).created|, sid, project, cap).Created?
    ensures var s := Exec(START, es);
            MayBeEvicted(Step(s, GetOrCreate(sid, project, cap)), |s.created|) <==> OlderPending(s, sid)
  {
    var s := Exec(START, es);
    var j := |s.created|;
    var t := Step(s, GetOrCreate(sid, project, cap));
    RunKeepsConsistent(es);
    StepKeepsConsistent(s, GetOrCreate(sid, project, cap));
    assert t.created == s.created + [Entry(j, sid, project)] && t.sessions[sid] == Entry(j, sid, project);
    if OlderPending(s, sid) {
      var i :| 0 <= i < |s.created| && s.created[i].sid == sid && i !in s.called;
      PendingEvicts(t, i, j);
    } else {
      assert Secure(t, j);
      forall later ensures j !in Exec(t, later).evicted {
        RunKeepsSecure(t, later, j);
      }
    }
  }

  const FIRST := Entry(0, "a", "p")
  const SECOND := Entry(1, "a", "p")

  /** A session was created and terminated; its runner is still going. */
  lemma Terminated() returns (s: Node)
    ensures Reachable(s) && s == Node(map[], [FIRST], {}, {}, {0}, {}, false, map["p" := 5])
  {
    assert Exec(START, []) == START;
    assert Of(map[], "p") == {};
    s := ReachableStep(START, GetOrCreate("a", "p", 5));
    assert s.sessions == map["a" := FIRST] && s.created == [FIRST];
    s := ReachableStep(s, Terminate("a"));
  }

  lemma Recreated() returns (s: Node)
    ensures Reachable(s)
    ensures s == Node(map["a" := SECOND], [FIRST, SECOND], {}, {}, {0}, {}, true, map["p" := 5])
  {
    s := Terminated();
    assert s.created[0].sid == "a" && OlderPending(s, "a");
    assert Of(map[], "p") == {};
    s := ReachableStep(s, GetOrCreate("a", "p", 5));
  }

  /** The older object's callback removes the newer one by id: a live session nobody can resume. */
  lemma CallbackCanEvict()
    ensures exists s :: Reachable(s) && s.recreated && s.evicted == {1} && 1 !in s.finished && !IsRegistered(s, 1)
  {
    var s := Recreated();
    s := ReachableStep(s, RunnerEnds(0));
    assert s.created[0] == FIRST && s.sessions["a"] == SECOND;
    s := ReachableStep(s, Callback(0));
    assert s.evicted == {1} && s.sessions == map[];
  }

  // ---- Running runners and the cap --------------------------------------------------------

  /** The objects of a project whose runner has not ended. */
  ghost function Running(s: Node, p: ProjectId): set<nat> {
    set i | 0 <= i < |s.created| && i !in s.finished && s.created[i].project == p
  }

  /** Those of them that are registered ... */
  ghost function RunningRegistered(s: Node, p: ProjectId): set<nat> {
    set i | i in Running(s, p) && IsRegistered(s, i)
  }

  /** ... and those whose slot was freed by _terminate or by the callback of another object. */
  ghost function RunningRemoved(s: Node, p: ProjectId): set<nat> {
    set i | i in Running(s, p) && (i in s.terminated || i in s.evicted)
  }

  /** Different objects are registered under different ids. */
  lemma {:induction false} ObjectsNeedSlots(sessions: map<SessionId, Entry>, p: ProjectId, ids: set<nat>)
    requires forall i :: i in ids ==>
               exists sid :: sid in sessions && sessions[sid].id == i && sessions[sid].project == p
    ensures |ids| <= |Of(sessions, p)|
  {
    if ids != {} {
      var i :| i in ids;
      var sid :| sid in sessions && sessions[sid].id == i && sessions[sid].project == p;
      var rest := sessions - {sid};
      forall j | j in ids - {i} ensures exists k :: k in rest && rest[k].id == j && rest[k].project == p {
        var k :| k in sessions && sessions[k].id == j && sessions[k].project == p;
        assert k in rest && rest[k].id == j;
      }
      ObjectsNeedSlots(rest, p, ids - {i});
      assert Of(rest, p) == Of(sessions, p) - {sid};
    }
  }

  lemma RegisteredFit(s: Node, p: ProjectId)
    requires Consistent(s)
    ensures |RunningRegistered(s, p)| <= |Of(s.sessions, p)|
  {
    forall i | i in RunningRegistered(s, p)
      ensures exists sid :: sid in s.sessions && s.sessions[sid].id == i && s.sessions[sid].project == p
    {
      var sid :| sid in s.sessions && s.sessions[sid].id == i;
      assert s.created[i] == s.sessions[sid];
    }
    ObjectsNeedSlots(s.sessions, p, RunningRegistered(s, p));
  }

  lemma RunningSplits(s: Node, p: ProjectId)
    requires Consistent(s)
    ensures |Running(s, p)| == |RunningRegistered(s, p)| + |RunningRemoved(s, p)|
  {
    forall i | i in Running(s, p)
      ensures IsRegistered(s, i) <==> !(i in s.terminated || i in s.evicted)
    {
      if !Gone(s, i) { assert s.sessions[s.created[i].sid].id == i; }
    }
    assert Running(s, p) == RunningRegistered(s, p) + RunningRemoved(s, p);
  }

  /**
   * In every run a project's running runners are those registered, which stay within the cap,
   * and those that were terminated or evicted.
   */
  lemma {:induction false} RunningRunners(es: seq<Event>, p: ProjectId)
    ensures var s := Exec(START, es);
            && |Running(s, p)| == |RunningRegistered(s, p)| + |RunningRemoved(s, p)|
            && |RunningRegistered(s, p)| <= CapOf(s, p)
            && |Running(s, p)| <= CapOf(s, p) + |RunningRemoved(s, p)|
  {
    var s := Exec(START, es);
    RunKeepsConsistent(es);
    ConcurrencyCap(es);
    RunningSplits(s, p);
    RegisteredFit(s, p);
    assert |Of(s.sessions, p)| <= CapOf(s, p);
  }

  /** The cap does not bound running runners: terminating frees the slot before the runner ends. */
  lemma RunnersMayExceedCap()
    ensures var es := [GetOrCreate("a", "p", 1), Terminate("a"), GetOrCreate("b", "p", 1)];
            var s := Exec(START, es);
            |s.created| == 2 && s.finished == {} && s.caps == map["p" := 1]
  {
    var s1 := Step(START, GetOrCreate("a", "p", 1));
    assert Of(map[], "p") == {};
    var s2 := Step(s1, Terminate("a"));
    assert s2.sessions == map[];
    var es := [GetOrCreate("a", "p", 1), Terminate("a"), GetOrCreate("b", "p", 1)];
    assert es[..2][..1] == es[..1] && es[..1][..0] == [];
    assert Exec(START, es[..1]) == s1;
    assert Exec(START, es[..2]) == s2;
  }
}
