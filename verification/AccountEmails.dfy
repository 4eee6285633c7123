/** Emails up to case: accounts are looked up by the lower-cased email, while the unique constraint
    compares the text itself. When two accounts can share an address, and what that does to look-ups. */
module AccountEmails {
  import opened Text
  import opened Accounts
  import opened AccountSafety
  import opened AccountFrames

  /** No two accounts have one email up to case. */
  ghost predicate CaseUnique(cfg: Config, s: State)
  {
    forall a, b | a in s.accounts && EmailMatches(cfg, s, s.accounts[a].email, b) :: a == b
  }

  /** The account and the email a step writes, if it writes one. */
  function Written(cfg: Config, s: State, step: Step): Option<(Id, string)>
  {
    match step
    case DoRegister(e, p, g, f, salt) =>
      if Register(cfg, s, e, p, g, f, salt).1.Done? then Some((s.nextAccount, cfg.normalise(e))) else None
    case DoCreate(e, p, g, f, z, salt) =>
      if AdminCreate(cfg, s, e, p, g, f, z, salt).1.Done? then Some((s.nextAccount, cfg.normalise(e))) else None
    case DoUpdateWrite(n) =>
      if UpdateWrite(s, n).1.Done? then Some((s.updates[n].account, s.updates[n].email)) else None
    case DoVerifyEmail(a, e) =>
      if a in s.accounts && EmailFreeFor(s, e, a) then Some((a, e)) else None
    case DoResolve(p, now) =>
      if Resolve(cfg, s, p, now).0.nextAccount != s.nextAccount then Some((s.nextAccount, p.email)) else None
    case _ => None
  }

  ghost predicate WritesTwin(cfg: Config, s: State, step: Step)
  {
    Written(cfg, s, step).Some? && exists b :: b != Written(cfg, s, step).value.0 && EmailMatches(cfg, s, Written(cfg, s, step).value.1, b)
  }

  ghost predicate SameEmails(s: State, t: State)
  {
    t.accounts.Keys == s.accounts.Keys && forall a | a in s.accounts :: t.accounts[a].email == s.accounts[a].email
  }

  ghost predicate GivesEmail(s: State, t: State, a: Id, x: string)
  {
    && t.accounts.Keys == s.accounts.Keys + {a} && t.accounts[a].email == x
    && forall b | b in s.accounts && b != a :: t.accounts[b].email == s.accounts[b].email
  }

  ghost predicate WrittenIn(cfg: Config, s: State, step: Step, t: State)
  {
    match Written(cfg, s, step)
    case None => SameEmails(s, t)
    case Some((a, x)) => GivesEmail(s, t, a, x)
  }

  lemma RegisterWrites(cfg: Config, s: State, e: string, p: string, g: string, f: string, salt: string)
    ensures var (t, o) := Register(cfg, s, e, p, g, f, salt);
      if o.Done? then GivesEmail(s, t, s.nextAccount, cfg.normalise(e)) else t == s
  {
  }

  lemma CreateWrites(cfg: Config, s: State, e: string, p: Option<string>, g: string, f: string, z: bool, salt: string)
    ensures var (t, o) := AdminCreate(cfg, s, e, p, g, f, z, salt);
      if o.Done? then GivesEmail(s, t, s.nextAccount, cfg.normalise(e)) else t == s
  {
  }

  lemma SignUpWrites(cfg: Config, iso: Isolation, s: State, step: Step)
    requires SignsUp(step)
    ensures WrittenIn(cfg, s, step, Apply(cfg, iso, s, step).0)
  {
    hide Register, AdminCreate;
    match step
    case DoRegister(e, p, g, f, salt) => RegisterWrites(cfg, s, e, p, g, f, salt);
    case DoCreate(e, p, g, f, z, salt) => CreateWrites(cfg, s, e, p, g, f, z, salt);
  }

  lemma WritesWrite(cfg: Config, iso: Isolation, s: State, step: Step)
    requires IsUpdate(step) || Writes(step)
    ensures WrittenIn(cfg, s, step, Apply(cfg, iso, s, step).0)
  {
  }

  lemma JoinSameEmails(s: State, p: Principal, a: Id)
    requires a in s.accounts
    ensures SameEmails(s, ResolveByEmail(s, p, a).0)
  {
  }

  lemma ResolveWrites(cfg: Config, s: State, p: Principal, now: nat)
    ensures var t := Resolve(cfg, s, p, now).0;
      if t.nextAccount != s.nextAccount then GivesEmail(s, t, s.nextAccount, p.email) else SameEmails(s, t)
  {
    hide ResolveByEmail, AutoCreate;
    if p.email != "" && FindByEmail(cfg, s, p.email).Some? {
      JoinSameEmails(s, p, FindByEmail(cfg, s, p.email).value);
      JoinFrame(s, p, FindByEmail(cfg, s, p.email).value);
    }
    CreationShape(s, p);
  }

  lemma SignInWrites(cfg: Config, iso: Isolation, s: State, step: Step)
    requires step.DoResolve? || step.DoStartLink? || step.DoLinkCallback?
    ensures WrittenIn(cfg, s, step, Apply(cfg, iso, s, step).0)
  {
    hide Resolve, LinkCallback;
    if step.DoResolve? {
      ResolveWrites(cfg, s, step.p, step.now);
    } else if step.DoLinkCallback? {
      LinkFrame(s, step.a, step.p, step.now);
    }
  }

  /** What a step does to the emails. */
  lemma StepWrites(cfg: Config, iso: Isolation, s: State, step: Step)
    ensures WrittenIn(cfg, s, step, Apply(cfg, iso, s, step).0)
  {
    hide Apply;
    if SignsUp(step) {
      SignUpWrites(cfg, iso, s, step);
    } else if IsUpdate(step) || Writes(step) {
      WritesWrite(cfg, iso, s, step);
    } else if IsDeleter(step) {
      DeleterFrame(cfg, iso, s, step);
    } else {
      SignInWrites(cfg, iso, s, step);
    }
  }

  lemma SameStaysUnique(cfg: Config, s: State, t: State)
    requires SameEmails(s, t) && CaseUnique(cfg, s)
    ensures CaseUnique(cfg, t)
  {
    forall a, b | a in t.accounts && EmailMatches(cfg, t, t.accounts[a].email, b) ensures a == b {
      assert EmailMatches(cfg, s, s.accounts[a].email, b);
    }
  }

  lemma GivenStaysUnique(cfg: Config, s: State, t: State, a: Id, x: string)
    requires GivesEmail(s, t, a, x) && CaseUnique(cfg, s)
    ensures CaseUnique(cfg, t) <==> !exists b :: b != a && EmailMatches(cfg, s, x, b)
  {
    if b :| b != a && EmailMatches(cfg, s, x, b) {
      assert EmailMatches(cfg, t, t.accounts[a].email, b);
    } else {
      forall c, d | c in t.accounts && EmailMatches(cfg, t, t.accounts[c].email, d) ensures c == d {
        if c == a && d != a {
          assert EmailMatches(cfg, s, x, d);
        } else if c != a && d == a {
          assert EmailMatches(cfg, s, x, c);
        } else if c != a {
          assert EmailMatches(cfg, s, s.accounts[c].email, d);
        }
      }
    }
  }

  lemma StepKeepsCaseUnique(cfg: Config, iso: Isolation, s: State, step: Step)
    requires CaseUnique(cfg, s)
    ensures CaseUnique(cfg, Apply(cfg, iso, s, step).0) <==> !WritesTwin(cfg, s, step)
  {
    hide Apply, Written;
    StepWrites(cfg, iso, s, step);
    match Written(cfg, s, step)
    case None => SameStaysUnique(cfg, s, Apply(cfg, iso, s, step).0);
    case Some((a, x)) => GivenStaysUnique(cfg, s, Apply(cfg, iso, s, step).0, a, x);
  }

  ghost predicate AlwaysCaseUnique(cfg: Config, iso: Isolation, s: State, steps: seq<Step>)
    decreases |steps|
  {
    CaseUnique(cfg, s) && (steps != [] ==> AlwaysCaseUnique(cfg, iso, Apply(cfg, iso, s, steps[0]).0, steps[1..]))
  }

  /** No step of the run writes an email that another account has up to case. */
  ghost predicate NoTwins(cfg: Config, iso: Isolation, s: State, steps: seq<Step>)
    decreases |steps|
  {
    steps != [] ==> !WritesTwin(cfg, s, steps[0]) && NoTwins(cfg, iso, Apply(cfg, iso, s, steps[0]).0, steps[1..])
  }

  /** Emails are unique up to case at every point of a run exactly when no step writes one that another
      account has up to case; to the letter they are unique in every run (AccountSafety.RunKeeps). */
  lemma {:induction false} RunCaseUnique(cfg: Config, iso: Isolation, s: State, steps: seq<Step>)
    requires CaseUnique(cfg, s)
    ensures AlwaysCaseUnique(cfg, iso, s, steps) <==> NoTwins(cfg, iso, s, steps)
    decreases |steps|
  {
    hide Apply, WritesTwin;
    if steps != [] {
      StepKeepsCaseUnique(cfg, iso, s, steps[0]);
      if !WritesTwin(cfg, s, steps[0]) {
        RunCaseUnique(cfg, iso, Apply(cfg, iso, s, steps[0]).0, steps[1..]);
      }
    }
  }

  // ----- look-ups -----

  ghost predicate SameFinds(cfg: Config, s: State, f: set<Id> -> Id, g: set<Id> -> Id)
  {
    forall e :: FindByEmail(cfg.(pick := f), s, e) == FindByEmail(cfg.(pick := g), s, e)
  }

  /** Which account an email finds depends on nothing but the tables exactly while emails are unique up
      to case; otherwise it is up to the order in which the database returns rows. */
  lemma LookUpDeterminedIff(cfg: Config, s: State)
    ensures CaseUnique(cfg, s) <==> forall f, g :: SameFinds(cfg, s, f, g)
  {
    if CaseUnique(cfg, s) {
      forall f: set<Id> -> Id, g: set<Id> -> Id, e ensures FindByEmail(cfg.(pick := f), s, e) == FindByEmail(cfg.(pick := g), s, e) {
        OnlyFind(cfg, s, f, g, e);
      }
    } else {
      var a, b :| a in s.accounts && EmailMatches(cfg, s, s.accounts[a].email, b) && a != b;
      var first: set<Id> -> Id, second: set<Id> -> Id := _ => a, _ => b;
      var hits := Matching(cfg, s, s.accounts[a].email);
      assert a in hits && b in hits && first(hits) == a && second(hits) == b;
      assert Matching(cfg.(pick := first), s, s.accounts[a].email) == hits == Matching(cfg.(pick := second), s, s.accounts[a].email);
      assert FindByEmail(cfg.(pick := first), s, s.accounts[a].email) == Some(a);
      assert FindByEmail(cfg.(pick := second), s, s.accounts[a].email) == Some(b);
      assert !SameFinds(cfg, s, first, second);
    }
  }

  lemma OnlyFind(cfg: Config, s: State, f: set<Id> -> Id, g: set<Id> -> Id, e: string)
    requires CaseUnique(cfg, s)
    ensures FindByEmail(cfg.(pick := f), s, e) == FindByEmail(cfg.(pick := g), s, e)
  {
    var x, y := FindByEmail(cfg.(pick := f), s, e), FindByEmail(cfg.(pick := g), s, e);
    if x.Some? {
      assert EmailMatches(cfg, s, e, x.value);
      if y.Some? {
        assert EmailMatches(cfg, s, s.accounts[x.value].email, y.value);
      }
    }
  }

  // ----- two accounts with one address -----

  /** A first sign-in under a mixed-case email, then a sign-up under the same email in lower case: two
      accounts, and a look-up of either email may find either. */
  lemma CaseTwins(cfg: Config, iso: Isolation, p: Principal, now: nat, email: string, password: string, name: string, salt: string)
    requires p.issuer != "" && p.subject != "" && !LocalPath(cfg, p)
    requires var e := cfg.normalise(email); e != "" && e != p.email && cfg.lower(e) == cfg.lower(p.email)
    requires |password| >= 12 && GoTrim(name) != ""
    ensures var s := Run(cfg, iso, EMPTY, [DoResolve(p, now), DoRegister(email, password, name, name, salt)]);
      s.accounts.Keys == {0, 1} && EmailMatches(cfg, s, p.email, 0) && EmailMatches(cfg, s, p.email, 1) && !CaseUnique(cfg, s)
  {
    var x, y := DoResolve(p, now), DoRegister(email, password, name, name, salt);
    var s1 := Apply(cfg, iso, EMPTY, x).0;
    assert Matching(cfg, EMPTY, p.email) == {};
    assert s1.accounts == map[0 := Account(p.email, p.emailVerified)] && s1.nextAccount == 1;
    var s2 := Apply(cfg, iso, s1, y).0;
    assert s2.accounts == map[0 := Account(p.email, p.emailVerified), 1 := Account(cfg.normalise(email), false)];
    assert EmailMatches(cfg, s2, s2.accounts[0].email, 1);
    hide Apply;
    assert [x, y][1..] == [y] && [y][1..] == [];
    assert Run(cfg, iso, EMPTY, [x, y]) == Run(cfg, iso, s1, [y]) == Run(cfg, iso, s2, []);
  }
}
