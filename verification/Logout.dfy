/** When a logout ends every refresh session of its tenant, whatever rotations run beside it. */
module Logout {
  import opened Prelude
  import opened AuthTokens

  /** A rotation of one of the tenant's tokens has found its document, and not yet issued a successor. */
  ghost predicate Rotating(s: Store, tenant: string) {
    exists i :: 0 <= i < |s.calls| && !s.calls[i].Over? && s.calls[i].doc.tenant == tenant
  }

  ghost predicate LoggedOut(s: Store, tenant: string) {
    forall d :: d in s.docs ==> d.tenant != tenant
  }

  ghost predicate NoLogin(es: seq<Event>, tenant: string) {
    forall i :: 0 <= i < |es| && es[i].Login? ==> es[i].tenant != tenant
  }

  /** Until the tenant logs in again it has no stored token. */
  ghost predicate StaysLoggedOut(s: Store, tenant: string) {
    forall later :: NoLogin(later, tenant) ==> LoggedOut(Exec(s, later), tenant)
  }

  lemma StepKeepsLoggedOut(s: Store, e: Event, tenant: string)
    requires LoggedOut(s, tenant) && !Rotating(s, tenant) && (e.Login? ==> e.tenant != tenant)
    ensures LoggedOut(Step(s, e), tenant) && !Rotating(Step(s, e), tenant)
  {
    match e {
      case Remove(call) =>
        if call < |s.calls| && s.calls[call].Matched? && ById(s.docs, s.calls[call].doc.id).Some? {
          CountDelete(Always(), s.docs, s.calls[call].doc.id);
        }
      case Purge(id) => if ById(s.docs, id).Some? { CountDelete(Always(), s.docs, id); }
      case Revoke(t) => FilterMembers(Not(OfTenant(t)), s.docs);
      case RevokeFamily(t, family) => FilterMembers(Not(OfFamily(t, family)), s.docs);
      case _ =>
    }
  }

  lemma {:induction false} RunKeepsLoggedOut(s: Store, later: seq<Event>, tenant: string)
    requires LoggedOut(s, tenant) && !Rotating(s, tenant) && NoLogin(later, tenant)
    ensures LoggedOut(Exec(s, later), tenant) && !Rotating(Exec(s, later), tenant)
  {
    if later != [] {
      RunKeepsLoggedOut(s, later[..|later| - 1], tenant);
      StepKeepsLoggedOut(Exec(s, later[..|later| - 1]), later[|later| - 1], tenant);
    }
  }

  /** An open rotation goes on to store a token of its tenant. */
  lemma RotationGoesOn(s: Store, tenant: string, i: nat)
    requires i < |s.calls| && !s.calls[i].Over? && s.calls[i].doc.tenant == tenant
    ensures !StaysLoggedOut(s, tenant)
  {
    var x := LongerThanAll(s.issued);
    var later := [Remove(i), Issue(i, x, x)];
    var s1 := Step(s, Remove(i));
    assert later[..1][..0] == [];
    assert Exec(s, later[..1]) == s1;
    assert s1.calls[i] == Removed(s.calls[i].doc) && s1.issued == s.issued;
    var last := Successor(s.calls[i].doc, x, x, s1.now);
    assert Fresh(s1, x, x);
    assert Step(s1, Issue(i, x, x)).docs == s1.docs + [last];
    assert last in Exec(s, later).docs;
    assert NoLogin(later, tenant) && !LoggedOut(Exec(s, later), tenant);
  }

  /**
   * A logout leaves the tenant without a stored token until the next login exactly when no
   * rotation of the tenant's tokens is between finding its document and issuing the successor.
   */
  lemma LogoutIsCompleteIff(s: Store, tenant: string)
    ensures StaysLoggedOut(Step(s, Revoke(tenant)), tenant) <==> !Rotating(s, tenant)
  {
    var t := Step(s, Revoke(tenant));
    FilterMembers(Not(OfTenant(tenant)), s.docs);
    if Rotating(s, tenant) {
      var i :| 0 <= i < |s.calls| && !s.calls[i].Over? && s.calls[i].doc.tenant == tenant;
      RotationGoesOn(t, tenant, i);
    } else {
      forall later | NoLogin(later, tenant) ensures LoggedOut(Exec(t, later), tenant) {
        RunKeepsLoggedOut(t, later, tenant);
      }
    }
  }

  lemma RevokedAfterMatch() returns (s: Store)
    ensures s == Store(0.0, [], [Matched(ROOT)], [ROOT], [ROOT], [], [], [], [ROOT])
    ensures exists before :: Reachable(before) && before.calls == [Matched(ROOT)] && s == Step(before, Revoke("t"))
  {
    var before := LoggedIn();
    s := Step(before, Revoke("t"));
    assert Filter(Not(OfTenant("t")), [ROOT]) == [] && Filter(OfTenant("t"), [ROOT]) == [ROOT];
  }

  /** A refresh whose document the logout deletes first issues a new token all the same. */
  lemma LogoutMissesMatch()
    ensures exists s, t :: Reachable(s) && s.calls == [Matched(ROOT)] && t == Step(s, Revoke("t")) && t.docs == []
                           && Step(Step(t, Remove(0)), Issue(0, "2", "b")).docs == [SECOND]
  {
    var t := RevokedAfterMatch();
    var u := Step(t, Remove(0));
    assert u == Store(0.0, [], [Removed(ROOT)], [ROOT], [ROOT], [], [ROOT], [], [ROOT]);
    assert Fresh(u, "2", "b");
    assert Step(u, Issue(0, "2", "b")).docs == [SECOND];
  }

  /** A logout between the delete and the insert of a refresh leaves the new token valid. */
  lemma LogoutMissesRotation()
    ensures exists s, t :: Reachable(s) && t == Step(s, Revoke("t")) && t.docs == []
                           && Step(t, Issue(0, "2", "b")).docs == [Successor(ROOT, "2", "b", 0.0)]
  {
    var s := LoggedIn();
    s := ReachableStep(s, Remove(0));
    assert s.calls == [Removed(ROOT)] && s.docs == [];
    var t := Step(s, Revoke("t"));
    assert Step(t, Issue(0, "2", "b")).docs == [Successor(ROOT, "2", "b", 0.0)];
  }
}
