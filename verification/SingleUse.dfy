/** When a refresh token is single-use: the answers that any store of tokens can still come to give for it. */
module SingleUse {
  import opened Prelude
  import opened AuthTokens

  /** A lookup would still find the token. */
  ghost predicate Findable(s: Store, raw: string) {
    exists d :: d in s.docs && d.raw == raw && d.expiresAt > s.now
  }

  ghost predicate WasIssued(s: Store, raw: string) {
    exists d :: d in s.issued && d.raw == raw
  }

  /** A rotation that has found this token and is not yet answered. */
  ghost function OpenFor(raw: string): Call -> bool {
    (c: Call) => !c.Over? && c.doc.raw == raw
  }

  /** The answers given for a token and those still to be given. */
  ghost function Answers(s: Store, raw: string): nat {
    Count(IsRaw(raw), s.reissued) + Count(OpenFor(raw), s.calls)
  }

  /** In every continuation the token is answered with a successor at most once. */
  ghost predicate StaysSingleUse(s: Store, raw: string) {
    forall later :: Count(IsRaw(raw), Exec(s, later).reissued) <= 1
  }

  ghost predicate Spent(s: Store, raw: string) {
    WasIssued(s, raw) && !Findable(s, raw)
  }

  lemma RemoveKeepsAnswers(s: Store, call: nat, raw: string)
    ensures Answers(RemoveStep(s, call), raw) == Answers(s, raw)
  {
    if call < |s.calls| && s.calls[call].Matched? {
      CountUpdate(OpenFor(raw), s.calls, call, Removed(s.calls[call].doc));
    }
  }

  lemma IssueKeepsAnswers(s: Store, call: nat, id: string, raw: string, newRaw: string)
    ensures Answers(IssueStep(s, call, id, newRaw), raw) == Answers(s, raw)
  {
    if call < |s.calls| && s.calls[call].Removed? {
      CountUpdate(OpenFor(raw), s.calls, call, Over);
      CountSnoc(IsRaw(raw), s.reissued, s.calls[call].doc);
    }
  }

  lemma FindKeepsAnswers(s: Store, found: string, scope: Option<string>, raw: string)
    requires !Findable(s, raw)
    ensures Answers(FindStep(s, found, scope), raw) == Answers(s, raw)
  {
    var m := FindMatch(s.docs, found, scope, s.now);
    if m.Some? { CountSnoc(OpenFor(raw), s.calls, Matched(m.value)); }
  }

  lemma StepKeepsAnswers(s: Store, e: Event, raw: string)
    requires Spent(s, raw)
    ensures Answers(Step(s, e), raw) == Answers(s, raw)
  {
    match e {
      case Find(found, scope) => FindKeepsAnswers(s, found, scope, raw);
      case Remove(call) => RemoveKeepsAnswers(s, call, raw);
      case Issue(call, id, newRaw) => IssueKeepsAnswers(s, call, id, raw, newRaw);
      case _ =>
    }
  }

  lemma StepKeepsSpent(s: Store, e: Event, raw: string)
    requires Spent(s, raw)
    ensures Spent(Step(s, e), raw)
  {
    match e {
      case Remove(call) =>
        if call < |s.calls| && s.calls[call].Matched? && ById(s.docs, s.calls[call].doc.id).Some? {
          CountDelete(Always(), s.docs, s.calls[call].doc.id);
        }
      case Purge(id) => if ById(s.docs, id).Some? { CountDelete(Always(), s.docs, id); }
      case Revoke(tenant) => FilterMembers(Not(OfTenant(tenant)), s.docs);
      case RevokeFamily(tenant, family) => FilterMembers(Not(OfFamily(tenant, family)), s.docs);
      case _ =>
    }
  }

  lemma {:induction false} RunKeepsAnswers(s: Store, later: seq<Event>, raw: string)
    requires Spent(s, raw)
    ensures Spent(Exec(s, later), raw) && Answers(Exec(s, later), raw) == Answers(s, raw)
  {
    if later != [] {
      RunKeepsAnswers(s, later[..|later| - 1], raw);
      StepKeepsSpent(Exec(s, later[..|later| - 1]), later[|later| - 1], raw);
      StepKeepsAnswers(Exec(s, later[..|later| - 1]), later[|later| - 1], raw);
    }
  }

  lemma {:induction false} ExecConcat(s: Store, a: seq<Event>, b: seq<Event>)
    ensures Exec(s, a + b) == Exec(Exec(s, a), b)
  {
    if b == [] {
      assert a + b == a;
    } else {
      assert (a + b)[..|a + b| - 1] == a + b[..|b| - 1];
      ExecConcat(s, a, b[..|b| - 1]);
    }
  }

  lemma ExecTwo(s: Store, e: Event, f: Event)
    ensures Exec(s, [e, f]) == Step(Step(s, e), f)
  {
    assert [e, f][..1] == [e] && [e][..0] == [];
    assert Exec(s, [e]) == Step(s, e);
  }

  /** With a fresh string an open rotation is over after its two steps. */
  lemma ClosesCall(s: Store, i: nat, x: string)
    requires i < |s.calls| && !s.calls[i].Over? && Fresh(s, x, x)
    ensures Step(Step(s, Remove(i)), Issue(i, x, x)).calls == s.calls[i := Over]
  {
    var s1 := RemoveStep(s, i);
    assert s1.calls == s.calls[i := Removed(s.calls[i].doc)] && s1.issued == s.issued;
    assert Fresh(s1, x, x);
    assert IssueStep(s1, i, x, x).calls == s1.calls[i := Over];
  }

  /** An open rotation is answered, and no answer is lost. */
  lemma AnswerOne(s: Store, raw: string, i: nat) returns (later: seq<Event>)
    requires i < |s.calls| && OpenFor(raw)(s.calls[i])
    ensures var t := Exec(s, later);
            Answers(t, raw) == Answers(s, raw) && Count(OpenFor(raw), t.calls) == Count(OpenFor(raw), s.calls) - 1
  {
    var x := LongerThanAll(s.issued);
    later := [Remove(i), Issue(i, x, x)];
    ExecTwo(s, Remove(i), Issue(i, x, x));
    RemoveKeepsAnswers(s, i, raw);
    IssueKeepsAnswers(RemoveStep(s, i), i, x, raw, x);
    assert Fresh(s, x, x);
    ClosesCall(s, i, x);
    CountUpdate(OpenFor(raw), s.calls, i, Over);
  }

  /** Every open rotation of a token can be answered. */
  lemma {:induction false} AnswerAll(s: Store, raw: string) returns (later: seq<Event>)
    ensures Count(IsRaw(raw), Exec(s, later).reissued) == Answers(s, raw)
    decreases Count(OpenFor(raw), s.calls)
  {
    if Count(OpenFor(raw), s.calls) == 0 {
      later := [];
    } else {
      if forall i :: 0 <= i < |s.calls| ==> !OpenFor(raw)(s.calls[i]) { CountNone(OpenFor(raw), s.calls); }
      var i :| 0 <= i < |s.calls| && OpenFor(raw)(s.calls[i]);
      var first := AnswerOne(s, raw, i);
      var rest := AnswerAll(Exec(s, first), raw);
      ExecConcat(s, first, rest);
      later := first + rest;
    }
  }

  /** A token that can be found can be found twice. */
  lemma FindableTwice(s: Store, raw: string)
    requires Findable(s, raw)
    ensures Answers(Exec(s, [Find(raw, None), Find(raw, None)]), raw) >= 2
  {
    var m := FindMatch(s.docs, raw, None, s.now);
    var s1 := Step(s, Find(raw, None));
    ExecTwo(s, Find(raw, None), Find(raw, None));
    CountSnoc(OpenFor(raw), s.calls, Matched(m.value));
    CountSnoc(OpenFor(raw), s1.calls, Matched(m.value));
  }

  /**
   * An issued token is answered at most once in every continuation exactly if no lookup can find
   * it any more (it was deleted or has expired) and the answers given for it, together with the
   * rotations that have found it and go on, are at most one.
   */
  lemma SingleUseIff(s: Store, raw: string)
    requires WasIssued(s, raw)
    ensures StaysSingleUse(s, raw) <==> !Findable(s, raw) && Answers(s, raw) <= 1
  {
    if Findable(s, raw) {
      var twice := [Find(raw, None), Find(raw, None)];
      FindableTwice(s, raw);
      var rest := AnswerAll(Exec(s, twice), raw);
      ExecConcat(s, twice, rest);
      assert Count(IsRaw(raw), Exec(s, twice + rest).reissued) >= 2;
    } else if Answers(s, raw) > 1 {
      var later := AnswerAll(s, raw);
    } else {
      forall later ensures Count(IsRaw(raw), Exec(s, later).reissued) <= 1 {
        RunKeepsAnswers(s, later, raw);
      }
    }
  }
}
