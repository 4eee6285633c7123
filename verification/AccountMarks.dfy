/** Verification marks under updates that write back what they read: when a mark is lost, and when an
    unverified account can hold more than one identity or a link token. */
module AccountMarks {
  import opened Text
  import opened Accounts
  import opened AccountSafety
  import opened AccountFrames

  // ----- when a mark is lost -----

  /** The step writes an unset mark over account a's set one. */
  ghost predicate Reverts(s: State, step: Step, a: Id)
  {
    && step.DoUpdateWrite? && step.update in s.updates
    && var q := s.updates[step.update];
       q.account == a && !q.verified && IsVerified(s, a) && EmailFreeFor(s, q.email, a)
  }

  lemma WriteKeepsMark(s: State, n: nat, a: Id)
    requires IsVerified(s, a)
    ensures IsVerified(UpdateWrite(s, n).0, a) <==> !Reverts(s, DoUpdateWrite(n), a)
  {
  }

  lemma StepKeepsMark(cfg: Config, iso: Isolation, s: State, step: Step, a: Id)
    requires Valid(s) && IsVerified(s, a)
    ensures IsVerified(Apply(cfg, iso, s, step).0, a) <==> !Reverts(s, step, a)
  {
    if step.DoUpdateWrite? {
      WriteKeepsMark(s, step.update, a);
    } else if SignsUp(step) {
      SignUpFrame(cfg, iso, s, step);
    } else if Writes(step) {
      WritesFrame(cfg, iso, s, step);
    } else if IsDeleter(step) {
      DeleterFrame(cfg, iso, s, step);
    } else if step.DoResolve? {
      ResolveKeepsMark(cfg, s, step.p, step.now, a);
    } else if step.DoLinkCallback? {
      LinkFrame(s, step.a, step.p, step.now);
    }
  }

  lemma ResolveKeepsMark(cfg: Config, s: State, p: Principal, now: nat, a: Id)
    requires Valid(s) && IsVerified(s, a)
    ensures IsVerified(Resolve(cfg, s, p, now).0, a)
  {
    if p.email != "" && FindByEmail(cfg, s, p.email).Some? {
      JoinFrame(s, p, FindByEmail(cfg, s, p.email).value);
    }
    CreationFrame(s, p);
  }

  /** Account a is verified at every point of the run. */
  ghost predicate AlwaysVerified(cfg: Config, iso: Isolation, s: State, steps: seq<Step>, a: Id)
    decreases |steps|
  {
    IsVerified(s, a) && (steps != [] ==> AlwaysVerified(cfg, iso, Apply(cfg, iso, s, steps[0]).0, steps[1..], a))
  }

  /** No step of the run writes an unset mark over account a's set one. */
  ghost predicate NeverReverted(cfg: Config, iso: Isolation, s: State, steps: seq<Step>, a: Id)
    decreases |steps|
  {
    steps != [] ==> !Reverts(s, steps[0], a) && NeverReverted(cfg, iso, Apply(cfg, iso, s, steps[0]).0, steps[1..], a)
  }

  /** Accounts stay; a verified account is verified all along a run exactly when no update writes an
      unset mark over its set one. */
  lemma {:induction false} VerifiedForever(cfg: Config, iso: Isolation, s: State, steps: seq<Step>, a: Id)
    requires Valid(s) && a in s.accounts
    ensures a in Run(cfg, iso, s, steps).accounts
    ensures IsVerified(s, a) ==> (AlwaysVerified(cfg, iso, s, steps, a) <==> NeverReverted(cfg, iso, s, steps, a))
    ensures AlwaysVerified(cfg, iso, s, steps, a) ==> IsVerified(Run(cfg, iso, s, steps), a)
    decreases |steps|
  {
    if steps != [] {
      var t := Apply(cfg, iso, s, steps[0]).0;
      ApplyKeeps(cfg, iso, s, steps[0]);
      AccountsStay(cfg, iso, s, steps[0]);
      if IsVerified(s, a) {
        StepKeepsMark(cfg, iso, s, steps[0], a);
      }
      VerifiedForever(cfg, iso, t, steps[1..], a);
    }
  }

  // ----- unverified accounts -----

  /** The account holds a link token or two identities. */
  ghost predicate Busy(s: State, a: Id)
  {
    || a in s.links
    || exists j, k :: j in s.idents && k in s.idents && j != k && s.idents[j].account == a && s.idents[k].account == a
  }

  /** An account that is not verified holds no link token and at most one identity. */
  ghost predicate Settled(s: State, a: Id)
  {
    IsVerified(s, a) || !Busy(s, a)
  }

  ghost predicate Harms(s: State, step: Step, a: Id)
  {
    Reverts(s, step, a) && Busy(s, a)
  }

  /** No token is added, and identities are removed or touched only. */
  lemma SettledByFrame(s: State, t: State, a: Id)
    requires Settled(s, a) && (IsVerified(s, a) ==> IsVerified(t, a)) && t.links == s.links
    requires forall k | k in t.idents :: k in s.idents && SameBinding(s.idents[k], t.idents[k])
    ensures Settled(t, a)
  {
  }

  lemma WriteSettles(s: State, n: nat, a: Id)
    requires Settled(s, a)
    ensures Settled(UpdateWrite(s, n).0, a) <==> !Harms(s, DoUpdateWrite(n), a)
  {
    var t := UpdateWrite(s, n).0;
    WriteShape(s, n);
    assert Busy(t, a) <==> Busy(s, a);
    if IsVerified(s, a) {
      WriteKeepsMark(s, n, a);
    }
  }

  lemma JoinSettles(s: State, p: Principal, b: Id, a: Id)
    requires b in s.accounts && Settled(s, a)
    ensures Settled(ResolveByEmail(s, p, b).0, a)
  {
    JoinFrame(s, p, b);
    var t := ResolveByEmail(s, p, b).0;
    if !IsVerified(t, a) {
      SettledByFrameAt(s, t, a);
    }
  }

  /** The same, for the identities of account a. */
  lemma SettledByFrameAt(s: State, t: State, a: Id)
    requires Settled(s, a) && !IsVerified(s, a) && t.links == s.links
    requires forall k | k in t.idents && t.idents[k].account == a :: k in s.idents && SameBinding(s.idents[k], t.idents[k])
    ensures Settled(t, a)
  {
  }

  lemma CreationSettles(s: State, p: Principal, a: Id)
    requires Valid(s) && Settled(s, a)
    ensures Settled(AutoCreate(s, p).0, a)
  {
    CreationFrame(s, p);
    var t := AutoCreate(s, p).0;
    if !IsVerified(t, a) {
      if a == s.nextAccount {
        assert forall k | k in s.idents :: s.idents[k].account != a;
        assert forall k | k in t.idents && t.idents[k].account == a :: k == p.Key();
      } else {
        SettledByFrameAt(s, t, a);
      }
    }
  }

  lemma ResolveSettles(cfg: Config, s: State, p: Principal, now: nat, a: Id)
    requires Valid(s) && Settled(s, a)
    ensures Settled(Resolve(cfg, s, p, now).0, a)
  {
    if LocalPath(cfg, p) {
    } else if p.issuer != "" && p.subject != "" && p.Key() in s.idents {
      SettledByFrame(s, Touch(s, p.Key(), now), a);
    } else if p.email != "" && FindByEmail(cfg, s, p.email).Some? {
      JoinSettles(s, p, FindByEmail(cfg, s, p.email).value, a);
    } else {
      CreationSettles(s, p, a);
    }
  }

  lemma LinkSettles(s: State, b: Id, p: Principal, now: nat, a: Id)
    requires Settled(s, a)
    ensures Settled(LinkCallback(s, b, p, now).0, a)
  {
    LinkFrame(s, b, p, now);
  }

  lemma StartLinkSettles(s: State, b: Id, ok: bool, v: bool, a: Id)
    requires Settled(s, a)
    ensures Settled(StartLink(s, b, ok, v).0, a)
  {
    var t := StartLink(s, b, ok, v).0;
    if !IsVerified(s, a) {
      assert t.idents == s.idents && a !in t.links;
    }
  }

  lemma StepSettles(cfg: Config, iso: Isolation, s: State, step: Step, a: Id)
    requires Valid(s) && Settled(s, a)
    ensures Settled(Apply(cfg, iso, s, step).0, a) <==> !Harms(s, step, a)
  {
    if step.DoUpdateWrite? {
      WriteSettles(s, step.update, a);
    } else if step.DoResolve? {
      ResolveSettles(cfg, s, step.p, step.now, a);
    } else if step.DoLinkCallback? {
      LinkSettles(s, step.a, step.p, step.now, a);
    } else if step.DoStartLink? {
      StartLinkSettles(s, step.a, step.stepUpOk, step.providerOk, a);
    } else {
      OthersSettle(cfg, iso, s, step, a);
    }
  }

  lemma OthersSettle(cfg: Config, iso: Isolation, s: State, step: Step, a: Id)
    requires Valid(s) && Settled(s, a) && (SignsUp(step) || Writes(step) || IsDeleter(step) || step.DoUpdateRead?)
    ensures Settled(Apply(cfg, iso, s, step).0, a)
  {
    if SignsUp(step) {
      SignUpSettles(cfg, iso, s, step, a);
    } else if Writes(step) {
      WritesSettle(cfg, iso, s, step, a);
    } else if IsDeleter(step) {
      DeleterSettles(cfg, iso, s, step, a);
    } else {
      SettledByFrame(s, UpdateRead(cfg, s, step.a, step.newEmail, step.authorized).0, a);
    }
  }

  lemma SignUpSettles(cfg: Config, iso: Isolation, s: State, step: Step, a: Id)
    requires Valid(s) && Settled(s, a) && SignsUp(step)
    ensures Settled(Apply(cfg, iso, s, step).0, a)
  {
    SignUpFrame(cfg, iso, s, step);
    SettledByFrame(s, Apply(cfg, iso, s, step).0, a);
  }

  lemma WritesSettle(cfg: Config, iso: Isolation, s: State, step: Step, a: Id)
    requires Settled(s, a) && Writes(step)
    ensures Settled(Apply(cfg, iso, s, step).0, a)
  {
    WritesFrame(cfg, iso, s, step);
    SettledByFrame(s, Apply(cfg, iso, s, step).0, a);
  }

  lemma DeleterSettles(cfg: Config, iso: Isolation, s: State, step: Step, a: Id)
    requires Settled(s, a) && IsDeleter(step)
    ensures Settled(Apply(cfg, iso, s, step).0, a)
  {
    DeleterFrame(cfg, iso, s, step);
    SettledByFrame(s, Apply(cfg, iso, s, step).0, a);
  }

  ghost predicate AlwaysSettled(cfg: Config, iso: Isolation, s: State, steps: seq<Step>, a: Id)
    decreases |steps|
  {
    Settled(s, a) && (steps != [] ==> AlwaysSettled(cfg, iso, Apply(cfg, iso, s, steps[0]).0, steps[1..], a))
  }

  /** No update writes an unset mark over account a's set one while it holds a link token or two
      identities. */
  ghost predicate NeverHarmed(cfg: Config, iso: Isolation, s: State, steps: seq<Step>, a: Id)
    decreases |steps|
  {
    steps != [] ==> !Harms(s, steps[0], a) && NeverHarmed(cfg, iso, Apply(cfg, iso, s, steps[0]).0, steps[1..], a)
  }

  lemma {:induction false} RunSettles(cfg: Config, iso: Isolation, s: State, steps: seq<Step>, a: Id)
    requires Valid(s) && Settled(s, a)
    ensures AlwaysSettled(cfg, iso, s, steps, a) <==> NeverHarmed(cfg, iso, s, steps, a)
    ensures AlwaysSettled(cfg, iso, s, steps, a) ==> Settled(Run(cfg, iso, s, steps), a)
    ensures NeverReverted(cfg, iso, s, steps, a) ==> NeverHarmed(cfg, iso, s, steps, a)
    decreases |steps|
  {
    if steps != [] {
      ApplyKeeps(cfg, iso, s, steps[0]);
      StepSettles(cfg, iso, s, steps[0], a);
      if !Harms(s, steps[0], a) {
        RunSettles(cfg, iso, Apply(cfg, iso, s, steps[0]).0, steps[1..], a);
      }
    }
  }

  /** At every point of a run from the empty tables an unverified account has at most one OIDC
      identity and no link token, exactly when no update writes an unset mark over the account's set
      one while it has more; so in every run in which no update reverts the account's mark. */
  lemma UnverifiedAtMostOneIdentity(cfg: Config, iso: Isolation, steps: seq<Step>, a: Id)
    ensures AlwaysSettled(cfg, iso, EMPTY, steps, a) <==> NeverHarmed(cfg, iso, EMPTY, steps, a)
    ensures NeverReverted(cfg, iso, EMPTY, steps, a) ==> NeverHarmed(cfg, iso, EMPTY, steps, a)
    ensures var s := Run(cfg, iso, EMPTY, steps);
      NeverHarmed(cfg, iso, EMPTY, steps, a) && !IsVerified(s, a) ==> |IdentsOf(s.idents, a)| <= 1 && a !in s.links
  {
    RunSettles(cfg, iso, EMPTY, steps, a);
    var s := Run(cfg, iso, EMPTY, steps);
    var mine := IdentsOf(s.idents, a);
    if !Busy(s, a) && mine.Keys != {} {
      var j :| j in mine.Keys;
      assert mine.Keys == {j};
      assert |mine| == |mine.Keys|;
    }
  }

  // ----- the input on which both fail -----

  /** An unvouched first sign-in, an update that reads the unset mark, a verification, a second
      identity with the same email, and the update's write. */
  function LostMark(p: Principal, q: Principal, now: nat): seq<Step>
  {
    [DoResolve(p, now), DoUpdateRead(0, None, true), DoVerifyEmail(0, p.email), DoResolve(q, now), DoUpdateWrite(0)]
  }

  lemma FirstUnvouched(cfg: Config, p: Principal, now: nat)
    requires p.issuer != "" && p.subject != "" && !p.emailVerified && !LocalPath(cfg, p)
    ensures Resolve(cfg, EMPTY, p, now).0
         == EMPTY.(accounts := map[0 := Account(p.email, false)], idents := map[p.Key() := Identity(0, 0, None)], nextAccount := 1, nextUuid := 1)
  {
  }

  lemma SecondJoins(cfg: Config, s: State, p: Principal, q: Principal, now: nat)
    requires s.accounts == map[0 := Account(p.email, true)] && s.idents == map[p.Key() := Identity(0, 0, None)]
    requires q.email == p.email != "" && q.Key() != p.Key() && q.issuer != "" && q.subject != "" && !LocalPath(cfg, q)
    ensures Resolve(cfg, s, q, now).0
         == s.(idents := map[p.Key() := Identity(0, 0, None), q.Key() := Identity(s.nextUuid, 0, None)], nextUuid := s.nextUuid + 1)
  {
    assert EmailMatches(cfg, s, q.email, 0);
    assert FindByEmail(cfg, s, q.email) == Some(0);
  }

  predicate SecondIdentity(cfg: Config, p: Principal, q: Principal)
  {
    && p.issuer != "" && p.subject != "" && !p.emailVerified && !LocalPath(cfg, p)
    && q.email == p.email != "" && q.Key() != p.Key() && q.issuer != "" && q.subject != "" && !LocalPath(cfg, q)
  }

  /** The tables before the update writes: verified, with two identities. */
  function BeforeWrite(p: Principal, q: Principal): State
  {
    State(map[0 := Account(p.email, true)], map[], map[p.Key() := Identity(0, 0, None), q.Key() := Identity(1, 0, None)], {}, map[],
          map[0 := Pending(0, p.email, false)], 1, 2, 0, 1)
  }

  lemma BeforeWriteIs(cfg: Config, iso: Isolation, p: Principal, q: Principal, now: nat)
    requires SecondIdentity(cfg, p, q)
    ensures Run(cfg, iso, EMPTY, LostMark(p, q, now)[..4]) == BeforeWrite(p, q)
  {
    var steps := LostMark(p, q, now)[..4];
    FirstUnvouched(cfg, p, now);
    var s1 := Apply(cfg, iso, EMPTY, steps[0]).0;
    var s2 := Apply(cfg, iso, s1, steps[1]).0;
    assert s2 == s1.(updates := map[0 := Pending(0, p.email, false)], nextUpdate := 1);
    var s3 := Apply(cfg, iso, s2, steps[2]).0;
    assert s3 == s2.(accounts := map[0 := Account(p.email, true)]);
    SecondJoins(cfg, s3, p, q, now);
    RunOfFour(cfg, iso, EMPTY, steps);
  }

  lemma WriteReverts(p: Principal, q: Principal)
    requires p.Key() != q.Key()
    ensures var s := BeforeWrite(p, q); var t := UpdateWrite(s, 0).0;
      t.accounts == map[0 := Account(p.email, false)] && t.idents == s.idents && IdentsOf(t.idents, 0).Keys == {p.Key(), q.Key()}
  {
  }

  /** After that run the account is unverified again, with two identities. */
  lemma UpdateLosesMark(cfg: Config, iso: Isolation, p: Principal, q: Principal, now: nat)
    requires SecondIdentity(cfg, p, q)
    ensures var steps := LostMark(p, q, now); var t := Run(cfg, iso, EMPTY, steps);
      IsVerified(Run(cfg, iso, EMPTY, steps[..4]), 0) && !IsVerified(t, 0) && |IdentsOf(t.idents, 0)| == 2
  {
    BeforeWriteIs(cfg, iso, p, q, now);
    RunSnoc(cfg, iso, EMPTY, LostMark(p, q, now));
    WriteReverts(p, q);
    var t := UpdateWrite(BeforeWrite(p, q), 0).0;
    assert |IdentsOf(t.idents, 0)| == |IdentsOf(t.idents, 0).Keys|;
  }

  lemma {:induction false} RunSnoc(cfg: Config, iso: Isolation, s: State, steps: seq<Step>)
    requires steps != []
    ensures Run(cfg, iso, s, steps) == Apply(cfg, iso, Run(cfg, iso, s, steps[..|steps| - 1]), steps[|steps| - 1]).0
    decreases |steps|
  {
    if |steps| == 1 {
      assert steps[1..] == [] && steps[..0] == [];
    } else {
      assert steps[1..][..|steps| - 2] == steps[..|steps| - 1][1..];
      RunSnoc(cfg, iso, Apply(cfg, iso, s, steps[0]).0, steps[1..]);
    }
  }
}
