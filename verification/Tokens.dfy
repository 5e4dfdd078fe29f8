/**
 * Ephemeral tokens: minting, the redeeming handshake, and the four-call rotation, interleaved in
 * any order.
 */
module Tokens {
  import opened Prelude
  import opened Redis

  /** How far a rotation request has got; `project` is that of its secret key's config. */
  datatype Rotation =
    | Asked(token: string, who: Issuer)
    | TtlKnown(token: string, who: Issuer)
    | Peeked(token: string, who: Issuer, seen: Payload)
    | Consumed(token: string, who: Issuer, metadata: map<string, string>)
    | Replaced(token: string, who: Issuer)
    | NotFound
    | Forbidden
    | Conflict

  /** A payload as first stored, the token whose rotation it came from, and what was asked for, by whom and when. */
  datatype Issue = Issue(
    payload: Payload, parent: Option<string>, who: Issuer, ttl: int, metadata: map<string, string>, at: real)

  /** What a handshake has redeemed. */
  datatype Redemption = Redemption(token: string, payload: Payload)

  /**
   * `store` is the Redis keyspace, whose expired keys count as absent; the rest is history:
   * every token ever issued, the successful redeem calls in order, those of handshakes, those of
   * handshakes that ended in a session, and the issuer of every mint.
   */
  datatype Tokens = Tokens(
    now: real,
    store: map<string, Stored<Payload>>,
    issued: map<string, Issue>,
    rotations: map<nat, Rotation>,
    spent: seq<string>,
    redemptions: seq<Redemption>,
    admissions: seq<Redemption>,
    mints: seq<Issuer>)

  /** How a handshake ends after it has redeemed its token: in a session, or with a close code. */
  datatype Verdict =
    | Admitted
    | RateLimited
    | ProjectGone
    | TenantGone
    | OriginRefused
    | TenantSuspended
    | QuotaExceeded
    | SessionCapReached

  datatype Event =
    | Tick(elapsed: real)
    | Mint(raw: string, who: Issuer, ttl: int, metadata: map<string, string>)
    | Handshake(raw: string, verdict: Verdict)
    | Ask(r: nat, token: string, who: Issuer)
    | ReadTtl(r: nat)
    | Peek(r: nat)
    | Redeem(r: nat)
    | Create(r: nat, raw: string, ttl: int)

  const START := Tokens(0.0, map[], map[], map[], [], [], [], [])

  /** A payload as stored: it dies when its clamped lifetime is over. */
  function StoredToken(p: Payload, ttl: int, now: real): Stored<Payload> {
    Stored(p, now + ClampTtl(ttl) as real)
  }

  function NewIssue(
    who: Issuer, ttl: int, metadata: map<string, string>, parent: Option<string>, now: real): Issue
  {
    Issue(MakePayload(who, ttl, metadata, now), parent, who, ttl, metadata, now)
  }

  /** create_ephemeral_token under a random string that was never issued before. */
  function Issued(
    s: Tokens, raw: string, who: Issuer, ttl: int, metadata: map<string, string>, parent: Option<string>): Tokens
  {
    var issue := NewIssue(who, ttl, metadata, parent, s.now);
    s.(store := s.store[raw := StoredToken(issue.payload, ttl, s.now)], issued := s.issued[raw := issue])
  }

  function Spent(s: Tokens, raw: string): Tokens {
    s.(store := s.store - {raw}, spent := s.spent + [raw])
  }

  function Move(s: Tokens, r: nat, to: Rotation): Tokens {
    s.(rotations := s.rotations[r := to])
  }

  function RotationStep(s: Tokens, r: nat, at: Rotation, e: Event): Tokens {
    match e
    case ReadTtl(_) =>
      if !at.Asked? then s
      else Move(s, r, if Alive(s.store, at.token, s.now) then TtlKnown(at.token, at.who) else NotFound)
    case Peek(_) =>
      if !at.TtlKnown? then s
      else
        (match Get(s.store, at.token, s.now)
         case None => Move(s, r, NotFound)
         case Some(p) => Move(s, r, if p.project != at.who.project then Forbidden else Peeked(at.token, at.who, p)))
    case Redeem(_) =>
      if !at.Peeked? then s
      else if Alive(s.store, at.token, s.now) then
        Move(Spent(s, at.token), r, Consumed(at.token, at.who, at.seen.metadata))
      else Move(s, r, Conflict)
    case Create(_, raw, ttl) =>
      if !at.Consumed? || raw in s.issued then s
      else Move(Issued(s, raw, at.who, ttl, at.metadata, Some(at.token)), r, Replaced(raw, at.who))
    case _ => s
  }

  function Step(s: Tokens, e: Event): Tokens {
    match e
    case Tick(elapsed) => if elapsed >= 0.0 then s.(now := s.now + elapsed) else s
    case Mint(raw, who, ttl, metadata) =>
      if raw in s.issued || |metadata| > 10 then s
      else Issued(s, raw, who, ttl, metadata, None).(mints := s.mints + [who])
    case Handshake(raw, verdict) =>
      (match Get(s.store, raw, s.now)
       case None => s
       case Some(p) =>
         Spent(s, raw).(redemptions := s.redemptions + [Redemption(raw, p)],
                        admissions := s.admissions + if verdict.Admitted? then [Redemption(raw, p)] else []))
    case Ask(r, token, who) => if r in s.rotations then s else Move(s, r, Asked(token, who))
    case ReadTtl(r) => if r in s.rotations then RotationStep(s, r, s.rotations[r], e) else s
    case Peek(r) => if r in s.rotations then RotationStep(s, r, s.rotations[r], e) else s
    case Redeem(r) => if r in s.rotations then RotationStep(s, r, s.rotations[r], e) else s
    case Create(r, _, _) => if r in s.rotations then RotationStep(s, r, s.rotations[r], e) else s
  }

  function Exec(s: Tokens, events: seq<Event>): Tokens {
    if events == [] then s else Step(Exec(s, events[..|events| - 1]), events[|events| - 1])
  }

  // ---- What one step answers ---------------------------------------------------------------

  /** The token is stored, alive, and of this project. */
  ghost predicate Usable(s: Tokens, token: string, project: string) {
    token in s.store && s.now < s.store[token].dies && s.store[token].value.project == project
  }

  ghost predicate Present(s: Tokens, token: string) {
    token in s.store && s.now < s.store[token].dies
  }

  /** What each call of a rotation leads to: not found, forbidden, conflict, or the next call. */
  lemma RotationAnswers(s: Tokens, r: nat, token: string, who: Issuer, seen: Payload, raw: string, ttl: int)
    ensures var t := RotationStep(s, r, Asked(token, who), ReadTtl(r)).rotations[r];
            t == if Present(s, token) then TtlKnown(token, who) else NotFound
    ensures var t := RotationStep(s, r, TtlKnown(token, who), Peek(r)).rotations[r];
            && (t == NotFound <==> !Present(s, token))
            && (t == Forbidden <==> Present(s, token) && !Usable(s, token, who.project))
            && (Usable(s, token, who.project) ==> t == Peeked(token, who, s.store[token].value))
    ensures var u := RotationStep(s, r, Peeked(token, who, seen), Redeem(r));
            && (u.rotations[r] == Conflict <==> !Present(s, token))
            && (Present(s, token) ==>
                  u.rotations[r] == Consumed(token, who, seen.metadata) && u.store == s.store - {token}
                  && u.spent == s.spent + [token])
    ensures raw !in s.issued ==>
              var u := RotationStep(s, r, Consumed(token, who, seen.metadata), Create(r, raw, ttl));
              && u.rotations[r] == Replaced(raw, who)
              && raw in u.store && Carries(u.store[raw].value, who, seen.metadata)
              && u.store[raw].dies == s.now + Lifetime(ttl) as real
              && raw in u.issued && u.issued[raw].parent == Some(token)
  {
  }

  /** A mint is refused exactly for more than ten keys of metadata; else its token is alive. */
  lemma MintAnswers(s: Tokens, raw: string, who: Issuer, ttl: int, metadata: map<string, string>)
    requires raw !in s.issued
    ensures var t := Step(s, Mint(raw, who, ttl, metadata));
            && (t == s <==> |metadata| > 10)
            && (|metadata| <= 10 ==>
                  && t.mints == s.mints + [who] && Present(t, raw) && Carries(t.store[raw].value, who, metadata)
                  && t.store[raw].dies == s.now + Lifetime(ttl) as real)
  {
    if |metadata| <= 10 { assert raw in Step(s, Mint(raw, who, ttl, metadata)).issued; }
  }

  // ---- What is known of stored payloads and of rotations ---------------------------------

  /** Stored payloads are the ones issued, and a token once spent is gone for good. */
  ghost predicate Immutable(s: Tokens) {
    && (forall t :: t in s.store ==> t in s.issued && s.store[t].value == s.issued[t].payload)
    && (forall i :: 0 <= i < |s.spent| ==> s.spent[i] in s.issued && s.spent[i] !in s.store)
    && (forall i, j :: 0 <= i < j < |s.spent| ==> s.spent[i] != s.spent[j])
  }

  /** What a rotation remembers is what was issued, of its own project. */
  ghost predicate Remembers(s: Tokens, at: Rotation) {
    match at
    case Peeked(token, who, seen) =>
      token in s.issued && s.issued[token].payload == seen && seen.project == who.project
    case Consumed(token, who, metadata) =>
      && token in s.issued && token in s.spent
      && s.issued[token].payload.project == who.project && s.issued[token].payload.metadata == metadata
    case _ => true
  }

  ghost predicate Faithful(s: Tokens) {
    forall r :: r in s.rotations ==> Remembers(s, s.rotations[r])
  }

  lemma IssueKeepsImmutable(
    s: Tokens, raw: string, who: Issuer, ttl: int, metadata: map<string, string>, parent: Option<string>)
    requires Immutable(s) && raw !in s.issued
    ensures Immutable(Issued(s, raw, who, ttl, metadata, parent))
  {
  }

  lemma SpendKeepsImmutable(s: Tokens, raw: string)
    requires Immutable(s) && raw in s.store
    ensures Immutable(Spent(s, raw))
  {
  }

  lemma RotationKeepsImmutable(s: Tokens, r: nat, at: Rotation, e: Event)
    requires Immutable(s)
    ensures Immutable(RotationStep(s, r, at, e))
  {
    if e.Redeem? && at.Peeked? && Alive(s.store, at.token, s.now) {
      SpendKeepsImmutable(s, at.token);
    } else if e.Create? && at.Consumed? && e.raw !in s.issued {
      IssueKeepsImmutable(s, e.raw, at.who, e.ttl, at.metadata, Some(at.token));
    }
  }

  lemma StepKeepsImmutable(s: Tokens, e: Event)
    requires Immutable(s)
    ensures Immutable(Step(s, e))
  {
    match e {
      case Mint(raw, who, ttl, metadata) =>
        if raw !in s.issued { IssueKeepsImmutable(s, raw, who, ttl, metadata, None); }
      case Handshake(raw, _) => if Alive(s.store, raw, s.now) { SpendKeepsImmutable(s, raw); }
      case ReadTtl(r) => if r in s.rotations { RotationKeepsImmutable(s, r, s.rotations[r], e); }
      case Peek(r) => if r in s.rotations { RotationKeepsImmutable(s, r, s.rotations[r], e); }
      case Redeem(r) => if r in s.rotations { RotationKeepsImmutable(s, r, s.rotations[r], e); }
      case Create(r, _, _) => if r in s.rotations { RotationKeepsImmutable(s, r, s.rotations[r], e); }
      case _ =>
    }
  }

  lemma StepKeepsFaithful(s: Tokens, e: Event)
    requires Immutable(s) && Faithful(s)
    ensures Faithful(Step(s, e))
  {
  }

  // ---- Conservation of credits -----------------------------------------------------------

  ghost function OfProject(p: string): Redemption -> bool {
    (q: Redemption) => q.payload.project == p
  }

  ghost function MintedFor(p: string): Issuer -> bool {
    (who: Issuer) => who.project == p
  }

  /** Tokens never redeemed, alive or expired. */
  ghost function Unused(store: map<string, Stored<Payload>>, p: string): set<string> {
    set t | t in store && store[t].value.project == p
  }

  /** Rotations that have consumed the old token and not yet issued the new one. */
  ghost function InFlight(rotations: map<nat, Rotation>, p: string): set<nat> {
    set r | r in rotations && rotations[r].Consumed? && rotations[r].who.project == p
  }

  ghost predicate Conserved(s: Tokens, p: string) {
    Count(OfProject(p), s.redemptions) + |Unused(s.store, p)| + |InFlight(s.rotations, p)|
      == Count(MintedFor(p), s.mints)
  }

  lemma UnusedAdd(store: map<string, Stored<Payload>>, t: string, v: Stored<Payload>, p: string)
    requires t !in store
    ensures |Unused(store[t := v], p)| == |Unused(store, p)| + if v.value.project == p then 1 else 0
  {
    assert Unused(store[t := v], p) == Unused(store, p) + if v.value.project == p then {t} else {};
  }

  lemma UnusedRemove(store: map<string, Stored<Payload>>, t: string, p: string)
    requires t in store
    ensures |Unused(store - {t}, p)| == |Unused(store, p)| - if store[t].value.project == p then 1 else 0
  {
    assert Unused(store - {t}, p) == Unused(store, p) - {t};
    assert t in Unused(store, p) <==> store[t].value.project == p;
  }

  ghost function Held(at: Rotation, p: string): nat {
    if at.Consumed? && at.who.project == p then 1 else 0
  }

  lemma Without(xs: set<nat>, x: nat)
    ensures |xs| == |xs - {x}| + if x in xs then 1 else 0
  {
    if x in xs {
      assert xs == (xs - {x}) + {x};
    } else {
      assert xs == xs - {x};
    }
  }

  lemma InFlightApart(rotations: map<nat, Rotation>, r: nat, to: Rotation, p: string)
    ensures InFlight(rotations[r := to], p) - {r} == InFlight(rotations, p) - {r}
  {
    var after := rotations[r := to];
    forall q ensures q in InFlight(after, p) - {r} <==> q in InFlight(rotations, p) - {r} {
      if q != r {
        assert q in after <==> q in rotations;
      }
    }
  }

  lemma InFlightMove(rotations: map<nat, Rotation>, r: nat, to: Rotation, p: string)
    ensures |InFlight(rotations[r := to], p)| ==
            |InFlight(rotations, p)| - (if r in rotations then Held(rotations[r], p) else 0) + Held(to, p)
  {
    InFlightApart(rotations, r, to, p);
    Without(InFlight(rotations, p), r);
    Without(InFlight(rotations[r := to], p), r);
  }

  lemma RotationKeepsConserved(s: Tokens, r: nat, e: Event, p: string)
    requires Immutable(s) && Faithful(s) && Conserved(s, p) && r in s.rotations
    ensures Conserved(RotationStep(s, r, s.rotations[r], e), p)
  {
    var at := s.rotations[r];
    var t := RotationStep(s, r, at, e);
    assert Remembers(s, at);
    assert t.rotations == s.rotations[r := t.rotations[r]];
    InFlightMove(s.rotations, r, t.rotations[r], p);
    if e.Redeem? && at.Peeked? && Alive(s.store, at.token, s.now) {
      UnusedRemove(s.store, at.token, p);
    } else if e.Create? && at.Consumed? && e.raw !in s.issued {
      UnusedAdd(s.store, e.raw, t.store[e.raw], p);
    }
  }

  lemma MintKeepsConserved(s: Tokens, raw: string, who: Issuer, ttl: int, metadata: map<string, string>, p: string)
    requires Immutable(s) && Conserved(s, p)
    ensures Conserved(Step(s, Mint(raw, who, ttl, metadata)), p)
  {
    if raw !in s.issued && |metadata| <= 10 {
      UnusedAdd(s.store, raw, StoredToken(MakePayload(who, ttl, metadata, s.now), ttl, s.now), p);
      CountSnoc(MintedFor(p), s.mints, who);
    }
  }

  lemma HandshakeKeepsConserved(s: Tokens, raw: string, verdict: Verdict, p: string)
    requires Conserved(s, p)
    ensures Conserved(Step(s, Handshake(raw, verdict)), p)
  {
    if Alive(s.store, raw, s.now) {
      UnusedRemove(s.store, raw, p);
      CountSnoc(OfProject(p), s.redemptions, Redemption(raw, s.store[raw].value));
    }
  }

  lemma StepKeepsConserved(s: Tokens, e: Event, p: string)
    requires Immutable(s) && Faithful(s) && Conserved(s, p)
    ensures Conserved(Step(s, e), p)
  {
    match e {
      case Tick(_) =>
      case Mint(raw, who, ttl, metadata) => MintKeepsConserved(s, raw, who, ttl, metadata, p);
      case Handshake(raw, verdict) => HandshakeKeepsConserved(s, raw, verdict, p);
      case Ask(r, token, who) => InFlightMove(s.rotations, r, Asked(token, who), p);
      case ReadTtl(r) => if r in s.rotations { RotationKeepsConserved(s, r, e, p); }
      case Peek(r) => if r in s.rotations { RotationKeepsConserved(s, r, e, p); }
      case Redeem(r) => if r in s.rotations { RotationKeepsConserved(s, r, e, p); }
      case Create(r, _, _) => if r in s.rotations { RotationKeepsConserved(s, r, e, p); }
    }
  }

  // ---- Rotation chains -------------------------------------------------------------------

  /** A token and the one it replaced agree; no token is replaced twice; lifetimes are 1 to 300 s. */
  ghost predicate Chained(issued: map<string, Issue>, spent: seq<string>) {
    && (forall t :: t in issued && issued[t].parent.Some? ==>
          var u := issued[t].parent.value;
          && u in issued && u in spent
          && issued[t].payload.project == issued[u].payload.project
          && issued[t].payload.metadata == issued[u].payload.metadata)
    && (forall t, u :: t in issued && u in issued && issued[t].parent.Some? && issued[t].parent == issued[u].parent
          ==> t == u)
    && (forall t :: t in issued ==>
          1 <= issued[t].payload.expiresAt - issued[t].payload.issuedAt <= EPHEMERAL_TOKEN_MAX_TTL)
  }

  /** The token of a rotation in flight is replaced by nothing yet, and in no other flight. */
  ghost predicate Exclusive(issued: map<string, Issue>, rotations: map<nat, Rotation>) {
    && (forall r, t :: r in rotations && rotations[r].Consumed? && t in issued ==>
          issued[t].parent != Some(rotations[r].token))
    && (forall r, q :: r in rotations && q in rotations && r != q && rotations[r].Consumed? && rotations[q].Consumed?
          ==> rotations[r].token != rotations[q].token)
  }

  lemma IssueKeepsChained(issued: map<string, Issue>, spent: seq<string>, raw: string, issue: Issue)
    requires Chained(issued, spent) && raw !in issued
    requires 1 <= issue.payload.expiresAt - issue.payload.issuedAt <= EPHEMERAL_TOKEN_MAX_TTL
    requires issue.parent.Some? ==>
               var u := issue.parent.value;
               && u in issued && u in spent
               && issue.payload.project == issued[u].payload.project
               && issue.payload.metadata == issued[u].payload.metadata
               && forall t :: t in issued ==> issued[t].parent != Some(u)
    ensures Chained(issued[raw := issue], spent)
  {
  }

  lemma RotationKeepsChained(s: Tokens, r: nat, e: Event)
    requires Immutable(s) && Faithful(s) && Chained(s.issued, s.spent) && Exclusive(s.issued, s.rotations)
    requires r in s.rotations
    ensures var t := RotationStep(s, r, s.rotations[r], e); Chained(t.issued, t.spent)
  {
    var at := s.rotations[r];
    assert Remembers(s, at);
    if e.Create? && at.Consumed? && e.raw !in s.issued {
      IssueKeepsChained(s.issued, s.spent, e.raw,
                        NewIssue(at.who, e.ttl, at.metadata, Some(at.token), s.now));
    }
  }

  lemma StepKeepsChained(s: Tokens, e: Event)
    requires Immutable(s) && Faithful(s) && Chained(s.issued, s.spent) && Exclusive(s.issued, s.rotations)
    ensures Chained(Step(s, e).issued, Step(s, e).spent)
  {
    match e {
      case Mint(raw, who, ttl, metadata) =>
        if raw !in s.issued {
          IssueKeepsChained(s.issued, s.spent, raw, NewIssue(who, ttl, metadata, None, s.now));
        }
      case ReadTtl(r) => if r in s.rotations { RotationKeepsChained(s, r, e); }
      case Peek(r) => if r in s.rotations { RotationKeepsChained(s, r, e); }
      case Redeem(r) => if r in s.rotations { RotationKeepsChained(s, r, e); }
      case Create(r, _, _) => if r in s.rotations { RotationKeepsChained(s, r, e); }
      case _ =>
    }
  }

  /** A rotation that moves on to anything but Consumed claims no token. */
  lemma MoveKeepsExclusive(issued: map<string, Issue>, rotations: map<nat, Rotation>, r: nat, to: Rotation)
    requires Exclusive(issued, rotations) && !to.Consumed?
    ensures Exclusive(issued, rotations[r := to])
  {
  }

  lemma ConsumeKeepsExclusive(issued: map<string, Issue>, rotations: map<nat, Rotation>, r: nat, to: Rotation)
    requires Exclusive(issued, rotations) && to.Consumed?
    requires forall t :: t in issued ==> issued[t].parent != Some(to.token)
    requires forall q :: q in rotations && rotations[q].Consumed? ==> rotations[q].token != to.token
    ensures Exclusive(issued, rotations[r := to])
  {
  }

  lemma ReplaceKeepsExclusive(
    issued: map<string, Issue>, rotations: map<nat, Rotation>, r: nat, raw: string, issue: Issue)
    requires Exclusive(issued, rotations) && r in rotations && rotations[r].Consumed?
    requires issue.parent == Some(rotations[r].token)
    ensures Exclusive(issued[raw := issue], rotations[r := Replaced(raw, rotations[r].who)])
  {
  }

  lemma RotationKeepsExclusive(s: Tokens, r: nat, e: Event)
    requires Immutable(s) && Faithful(s) && Chained(s.issued, s.spent) && Exclusive(s.issued, s.rotations)
    requires r in s.rotations
    ensures var t := RotationStep(s, r, s.rotations[r], e); Exclusive(t.issued, t.rotations)
  {
    var at := s.rotations[r];
    var t := RotationStep(s, r, at, e);
    if e.Redeem? && at.Peeked? && Alive(s.store, at.token, s.now) {
      assert forall q :: q in s.rotations ==> Remembers(s, s.rotations[q]);
      ConsumeKeepsExclusive(s.issued, s.rotations, r, t.rotations[r]);
    } else if e.Create? && at.Consumed? && e.raw !in s.issued {
      ReplaceKeepsExclusive(s.issued, s.rotations, r, e.raw, t.issued[e.raw]);
    } else if t.rotations != s.rotations {
      MoveKeepsExclusive(s.issued, s.rotations, r, t.rotations[r]);
    }
  }

  lemma StepKeepsExclusive(s: Tokens, e: Event)
    requires Immutable(s) && Faithful(s) && Chained(s.issued, s.spent) && Exclusive(s.issued, s.rotations)
    ensures Exclusive(Step(s, e).issued, Step(s, e).rotations)
  {
    match e {
      case ReadTtl(r) => if r in s.rotations { RotationKeepsExclusive(s, r, e); }
      case Peek(r) => if r in s.rotations { RotationKeepsExclusive(s, r, e); }
      case Redeem(r) => if r in s.rotations { RotationKeepsExclusive(s, r, e); }
      case Create(r, _, _) => if r in s.rotations { RotationKeepsExclusive(s, r, e); }
      case _ =>
    }
  }

  // ---- Main results ----------------------------------------------------------------------

  ghost predicate Inv(s: Tokens) {
    Immutable(s) && Faithful(s) && Chained(s.issued, s.spent) && Exclusive(s.issued, s.rotations)
  }

  lemma {:induction false} RunKeepsInv(es: seq<Event>)
    ensures Inv(Exec(START, es))
  {
    if es != [] {
      var s := Exec(START, es[..|es| - 1]);
      RunKeepsInv(es[..|es| - 1]);
      StepKeepsImmutable(s, es[|es| - 1]);
      StepKeepsFaithful(s, es[|es| - 1]);
      StepKeepsChained(s, es[|es| - 1]);
      StepKeepsExclusive(s, es[|es| - 1]);
    }
  }

  /** The tokens of one project that could still be redeemed, and those that expired unused. */
  ghost function LiveTokens(s: Tokens, p: string): set<string> {
    set t | t in s.store && s.store[t].value.project == p && Alive(s.store, t, s.now)
  }

  ghost function ExpiredTokens(s: Tokens, p: string): set<string> {
    set t | t in s.store && s.store[t].value.project == p && !Alive(s.store, t, s.now)
  }

  /**
   * Per project, over every interleaving: handshake redemptions, live tokens, expired tokens and
   * tokens consumed by a rotation that has not reissued them add up to the mints.
   */
  lemma {:induction false} CreditConservation(es: seq<Event>, p: string)
    ensures var s := Exec(START, es);
            Count(OfProject(p), s.redemptions) + |LiveTokens(s, p)| + |ExpiredTokens(s, p)| + |InFlight(s.rotations, p)|
            == Count(MintedFor(p), s.mints)
  {
    ConservedAlways(es, p);
    var s := Exec(START, es);
    assert Unused(s.store, p) == LiveTokens(s, p) + ExpiredTokens(s, p);
  }

  lemma {:induction false} ConservedAlways(es: seq<Event>, p: string)
    ensures Conserved(Exec(START, es), p)
  {
    if es == [] {
      assert Unused(START.store, p) == {} && InFlight(START.rotations, p) == {};
    } else {
      ConservedAlways(es[..|es| - 1], p);
      RunKeepsInv(es[..|es| - 1]);
      StepKeepsConserved(Exec(START, es[..|es| - 1]), es[|es| - 1], p);
    }
  }

  lemma OthersAdmitNobody(s: Tokens, e: Event)
    requires !e.Handshake?
    ensures Step(s, e).admissions == s.admissions && Step(s, e).redemptions == s.redemptions
  {
  }

  lemma HandshakeAdmitsAtMostItself(s: Tokens, raw: string, verdict: Verdict, p: string)
    ensures var t := Step(s, Handshake(raw, verdict));
            Count(OfProject(p), t.admissions) - Count(OfProject(p), s.admissions)
            <= Count(OfProject(p), t.redemptions) - Count(OfProject(p), s.redemptions)
  {
    if Alive(s.store, raw, s.now) {
      CountSnoc(OfProject(p), s.admissions, Redemption(raw, s.store[raw].value));
      CountSnoc(OfProject(p), s.redemptions, Redemption(raw, s.store[raw].value));
      assert s.admissions + [] == s.admissions;
    }
  }

  /** No more sessions than redemptions. */
  lemma {:induction false} AdmissionsWithinRedemptions(es: seq<Event>, p: string)
    ensures var s := Exec(START, es); Count(OfProject(p), s.admissions) <= Count(OfProject(p), s.redemptions)
  {
    if es != [] {
      var s, e := Exec(START, es[..|es| - 1]), es[|es| - 1];
      AdmissionsWithinRedemptions(es[..|es| - 1], p);
      if e.Handshake? { HandshakeAdmitsAtMostItself(s, e.raw, e.verdict, p); } else { OthersAdmitNobody(s, e); }
    }
  }

  /** However often tokens rotate, a project is entered at most once per mint. */
  lemma {:induction false} RedemptionsWithinMints(es: seq<Event>, p: string)
    ensures var s := Exec(START, es);
            Count(OfProject(p), s.admissions) <= Count(OfProject(p), s.redemptions) <= Count(MintedFor(p), s.mints)
  {
    CreditConservation(es, p);
    AdmissionsWithinRedemptions(es, p);
  }

  /** A string that was issued and is not stored is never stored again. */
  lemma {:induction false} GoneForGood(s: Tokens, later: seq<Event>, raw: string)
    requires raw in s.issued && raw !in s.store
    ensures raw in Exec(s, later).issued && raw !in Exec(s, later).store
  {
    if later != [] {
      GoneForGood(s, later[..|later| - 1], raw);
      StepKeepsGone(Exec(s, later[..|later| - 1]), later[|later| - 1], raw);
    }
  }

  lemma StepKeepsGone(s: Tokens, e: Event, raw: string)
    requires raw in s.issued && raw !in s.store
    ensures raw in Step(s, e).issued && raw !in Step(s, e).store
  {
  }

  /**
   * A handshake with a live token spends it whatever its verdict: no continuation redeems it
   * again, and a refused one has spent it without a session.
   */
  lemma {:induction false} RefusalSpendsToken(es: seq<Event>, raw: string, verdict: Verdict, later: seq<Event>)
    requires Alive(Exec(START, es).store, raw, Exec(START, es).now)
    ensures var s := Exec(START, es);
            var t := Step(s, Handshake(raw, verdict));
            && |t.redemptions| == |s.redemptions| + 1
            && (t.admissions == s.admissions <==> !verdict.Admitted?)
            && Get(Exec(t, later).store, raw, Exec(t, later).now) == None
  {
    RunKeepsInv(es);
    GoneForGood(Step(Exec(START, es), Handshake(raw, verdict)), later, raw);
  }

  /** Of all redeem calls on one token string, by handshakes and rotations, at most one gets the payload. */
  lemma {:induction false} SingleUse(es: seq<Event>, raw: string)
    ensures var s := Exec(START, es);
            && Count((t: string) => t == raw, s.spent) <= 1
            && (raw in s.spent ==> Get(s.store, raw, s.now) == None)
  {
    RunKeepsInv(es);
    DistinctCount(Exec(START, es).spent, raw);
  }

  lemma {:induction false} DistinctCount(xs: seq<string>, x: string)
    requires forall i, j :: 0 <= i < j < |xs| ==> xs[i] != xs[j]
    ensures Count((t: string) => t == x, xs) == if x in xs then 1 else 0
  {
    if xs != [] {
      var n := |xs| - 1;
      DistinctCount(xs[..n], x);
      assert xs == xs[..n] + [xs[n]];
    }
  }

  /** A chain of successful rotations: each token was issued for the one before it. */
  ghost predicate IsChain(s: Tokens, chain: seq<string>) {
    && chain != []
    && (forall i :: 0 <= i < |chain| ==> chain[i] in s.issued)
    && (forall i :: 0 < i < |chain| ==> s.issued[chain[i]].parent == Some(chain[i - 1]))
  }

  /**
   * Along a chain of rotations project and metadata stay those of the first token, every
   * lifetime is 1 to 300 seconds, every token but the last is spent, and no chain forks.
   */
  lemma {:induction false} ChainKeepsWhatWasIssued(es: seq<Event>, chain: seq<string>)
    requires IsChain(Exec(START, es), chain)
    ensures var s := Exec(START, es);
            var first, last := s.issued[chain[0]].payload, s.issued[chain[|chain| - 1]].payload;
            && last.project == first.project && last.metadata == first.metadata
            && 1 <= last.expiresAt - last.issuedAt <= EPHEMERAL_TOKEN_MAX_TTL
            && (forall i :: 0 <= i < |chain| - 1 ==> chain[i] in s.spent)
            && forall t :: t in s.issued && |chain| > 1 && s.issued[t].parent == Some(chain[|chain| - 2]) ==>
                 t == chain[|chain| - 1]
    decreases |chain|
  {
    RunKeepsInv(es);
    var s := Exec(START, es);
    if |chain| > 1 {
      var shorter := chain[..|chain| - 1];
      assert IsChain(s, shorter);
      ChainKeepsWhatWasIssued(es, shorter);
      assert s.issued[chain[|chain| - 1]].parent == Some(shorter[|shorter| - 1]);
    }
  }

  // ---- What a token grants -----------------------------------------------------------------

  /** The payload is what its issuer asked for, stamped and limited when it was issued. */
  ghost predicate AsAsked(issue: Issue) {
    && Carries(issue.payload, issue.who, issue.metadata)
    && issue.payload.issuedAt == issue.at.Floor
    && issue.payload.expiresAt - issue.payload.issuedAt == Lifetime(issue.ttl)
  }

  /** The issuer is that of a mint, or of the rotation that replaced the parent. */
  ghost predicate HasOrigin(s: Tokens, t: string)
    requires t in s.issued
  {
    if s.issued[t].parent.None? then s.issued[t].who in s.mints
    else exists r :: r in s.rotations && s.rotations[r] == Replaced(t, s.issued[t].who)
  }

  ghost predicate Granted(s: Tokens) {
    && (forall t :: t in s.issued ==> AsAsked(s.issued[t]) && HasOrigin(s, t))
    && (forall t :: t in s.store ==>
          t in s.issued && s.store[t].dies == s.issued[t].at + Lifetime(s.issued[t].ttl) as real)
    && (forall k :: 0 <= k < |s.redemptions| ==>
          s.redemptions[k].token in s.issued && s.redemptions[k].payload == s.issued[s.redemptions[k].token].payload)
  }

  lemma NewIssueAsAsked(who: Issuer, ttl: int, metadata: map<string, string>, parent: Option<string>, now: real)
    ensures AsAsked(NewIssue(who, ttl, metadata, parent, now))
    ensures StoredToken(NewIssue(who, ttl, metadata, parent, now).payload, ttl, now).dies == now + Lifetime(ttl) as real
  {
  }

  lemma MintKeepsGranted(s: Tokens, raw: string, who: Issuer, ttl: int, metadata: map<string, string>)
    requires Granted(s)
    ensures Granted(Step(s, Mint(raw, who, ttl, metadata)))
  {
    NewIssueAsAsked(who, ttl, metadata, None, s.now);
    var t := Step(s, Mint(raw, who, ttl, metadata));
    if t != s {
      assert t.mints[|s.mints|] == who;
      forall x | x in t.issued ensures HasOrigin(t, x) {
        if x != raw { OriginStays(s, t, x); }
      }
    }
  }

  /** A token keeps its origin while mints are added and finished rotations stay. */
  lemma OriginStays(s: Tokens, t: Tokens, x: string)
    requires x in s.issued && x in t.issued && t.issued[x] == s.issued[x] && HasOrigin(s, x)
    requires forall who :: who in s.mints ==> who in t.mints
    requires forall r :: r in s.rotations && s.rotations[r].Replaced? ==>
               r in t.rotations && t.rotations[r] == s.rotations[r]
    ensures HasOrigin(t, x)
  {
  }

  lemma CreateKeepsGranted(s: Tokens, r: nat, raw: string, ttl: int)
    requires Granted(s) && r in s.rotations && s.rotations[r].Consumed? && raw !in s.issued
    ensures Granted(RotationStep(s, r, s.rotations[r], Create(r, raw, ttl)))
  {
    var at := s.rotations[r];
    var t := RotationStep(s, r, at, Create(r, raw, ttl));
    NewIssueAsAsked(at.who, ttl, at.metadata, Some(at.token), s.now);
    assert t.rotations[r] == Replaced(raw, t.issued[raw].who);
    forall x | x in t.issued ensures HasOrigin(t, x) {
      if x != raw { OriginStays(s, t, x); }
    }
  }

  lemma RotationKeepsGranted(s: Tokens, r: nat, e: Event)
    requires Granted(s) && r in s.rotations && !e.Mint? && !e.Handshake?
    ensures Granted(RotationStep(s, r, s.rotations[r], e))
  {
    var at := s.rotations[r];
    if e.Create? && at.Consumed? && e.raw !in s.issued {
      assert RotationStep(s, r, at, e) == RotationStep(s, r, at, Create(r, e.raw, e.ttl));
      CreateKeepsGranted(s, r, e.raw, e.ttl);
    } else {
      NothingIssuedKeepsGranted(s, RotationStep(s, r, at, e));
    }
  }

  /** Tokens may be spent and unfinished rotations move on. */
  lemma NothingIssuedKeepsGranted(s: Tokens, t: Tokens)
    requires Granted(s) && t.issued == s.issued && t.mints == s.mints && t.redemptions == s.redemptions
    requires forall x :: x in t.store ==> x in s.store && t.store[x] == s.store[x]
    requires forall r :: r in s.rotations && s.rotations[r].Replaced? ==>
               r in t.rotations && t.rotations[r] == s.rotations[r]
    ensures Granted(t)
  {
    forall x | x in t.issued ensures HasOrigin(t, x) { OriginStays(s, t, x); }
  }

  lemma HandshakeKeepsGranted(s: Tokens, raw: string, verdict: Verdict)
    requires Granted(s) && Immutable(s)
    ensures Granted(Step(s, Handshake(raw, verdict)))
  {
    var t := Step(s, Handshake(raw, verdict));
    forall x | x in t.issued ensures HasOrigin(t, x) { OriginStays(s, t, x); }
  }

  lemma AskKeepsGranted(s: Tokens, r: nat, token: string, who: Issuer)
    requires Granted(s)
    ensures Granted(Step(s, Ask(r, token, who)))
  {
    var t := Step(s, Ask(r, token, who));
    forall x | x in t.issued ensures HasOrigin(t, x) { OriginStays(s, t, x); }
  }

  lemma StepKeepsGranted(s: Tokens, e: Event)
    requires Granted(s) && Immutable(s)
    ensures Granted(Step(s, e))
  {
    match e {
      case Mint(raw, who, ttl, metadata) => MintKeepsGranted(s, raw, who, ttl, metadata);
      case Handshake(raw, verdict) => HandshakeKeepsGranted(s, raw, verdict);
      case Ask(r, token, who) => AskKeepsGranted(s, r, token, who);
      case ReadTtl(r) => if r in s.rotations { RotationKeepsGranted(s, r, e); }
      case Peek(r) => if r in s.rotations { RotationKeepsGranted(s, r, e); }
      case Redeem(r) => if r in s.rotations { RotationKeepsGranted(s, r, e); }
      case Create(r, _, _) => if r in s.rotations { RotationKeepsGranted(s, r, e); }
      case Tick(_) => assert forall x :: x in s.issued ==> HasOrigin(s, x) == HasOrigin(Step(s, e), x);
    }
  }

  lemma {:induction false} RunKeepsGranted(es: seq<Event>)
    ensures Granted(Exec(START, es))
  {
    if es != [] {
      RunKeepsGranted(es[..|es| - 1]);
      RunKeepsInv(es[..|es| - 1]);
      StepKeepsGranted(Exec(START, es[..|es| - 1]), es[|es| - 1]);
    }
  }

  /**
   * In every run each redeemed payload carries the project, tenant, API key and rate limit of the
   * issuer who minted its token or rotated to it, and the lifetime asked for within 1 to 300 seconds.
   */
  lemma {:induction false} RedeemedAsIssued(es: seq<Event>, k: nat)
    requires k < |Exec(START, es).redemptions|
    ensures var s := Exec(START, es);
            var got := s.redemptions[k];
            && got.token in s.issued && HasOrigin(s, got.token)
            && var issue := s.issued[got.token];
               && got.payload.project == issue.who.project && got.payload.tenant == issue.who.tenant
               && got.payload.apiKey == issue.who.apiKey && got.payload.rateLimitRpm == issue.who.rateLimitRpm
               && got.payload.expiresAt - got.payload.issuedAt == Lifetime(issue.ttl)
               && got.payload.issuedAt == issue.at.Floor
  {
    RunKeepsGranted(es);
  }

  // ---- The two endpoints, when no other call comes between ---------------------------------

  datatype RotateAnswer =
    | Rotated(token: string, expiresAt: int, previousTtl: int)
    | NotFound404
    | Forbidden403
    | Conflict409

  /**
   * One rotation running alone: it succeeds exactly when the token is alive and belongs to the
   * project of the secret key, never answers Conflict, and moves the metadata to the new token.
   */
  method RotateToken(redis: RedisClient, current: string, raw: string, who: Issuer, ttl: int, now: real)
    returns (answer: RotateAnswer)
    requires raw != current
    modifies redis`tokens
    ensures var got := Get(old(redis.tokens), current, now);
            && (answer.NotFound404? <==> got.None?)
            && (answer.Forbidden403? <==> got.Some? && got.value.project != who.project)
            && !answer.Conflict409?
            && (answer.Rotated? ==>
                  var p := MakePayload(who, ttl, got.value.metadata, now);
                  && answer.token == raw && answer.expiresAt == p.expiresAt && answer.previousTtl >= 0
                  && redis.tokens == (old(redis.tokens) - {current})[raw := Stored(p, now + ClampTtl(ttl) as real)])
            && (answer.Rotated? ==>
                  raw in redis.tokens
                  && var p := redis.tokens[raw].value;
                     && Carries(p, who, got.value.metadata)
                     && p.issuedAt == now.Floor && p.expiresAt - p.issuedAt == Lifetime(ttl)
                     && answer.expiresAt == p.expiresAt)
            && (!answer.Rotated? ==> redis.tokens == old(redis.tokens))
  {
    var oldTtl := redis.GetEphemeralTokenTtl(current, now);
    if oldTtl < 0 {
      return NotFound404;
    }
    var seen := redis.PeekEphemeralToken(current, now);
    if seen.None? {
      return NotFound404;
    }
    if seen.value.project != who.project {
      return Forbidden403;
    }
    var consumed := redis.RedeemEphemeralToken(current, now);
    if consumed.None? {
      return Conflict409;
    }
    var expiresAt := redis.CreateEphemeralToken(raw, who, ttl, seen.value.metadata, now);
    return Rotated(raw, expiresAt, oldTtl);
  }
}
