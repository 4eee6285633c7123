/** Frames of the credential state machine: what each step leaves alone, and so which steps alone can
    change a password row, a verification mark, the tokens and pending requests, or a binding. */
module AccountFrames {
  import opened Text
  import opened Accounts
  import opened AccountSafety

  predicate SignsUp(step: Step)
  {
    step.DoRegister? || step.DoCreate?
  }

  predicate IsUpdate(step: Step)
  {
    step.DoUpdateRead? || step.DoUpdateWrite?
  }

  predicate Writes(step: Step)
  {
    step.DoVerifyEmail? || step.DoReset? || step.DoSetPassword?
  }

  predicate IsDeleter(step: Step)
  {
    step.DoBegin? || step.DoCommit? || step.DoAbort?
  }

  // ----- shapes of the steps -----

  /** A sign-up changes nothing or adds an unverified account, perhaps with a password. */
  lemma SignUpShape(cfg: Config, iso: Isolation, s: State, step: Step)
    requires SignsUp(step)
    ensures var t := Apply(cfg, iso, s, step).0;
      || t == s
      || exists e :: !Occupied(s, e)
           && (t == NewAccount(s, e, false) || exists h :: t == PutLocal(NewAccount(s, e, false), s.nextAccount, h))
  {
    match step
    case DoRegister(e, p, g, f, salt) => RegisterShape(cfg, s, e, p, g, f, salt);
    case DoCreate(e, p, g, f, z, salt) => CreateOutcomes(cfg, s, e, p, g, f, z, salt);
  }

  lemma RegisterShape(cfg: Config, s: State, e: string, p: string, g: string, f: string, salt: string)
    ensures var t := Register(cfg, s, e, p, g, f, salt).0; var n := cfg.normalise(e);
      t == s || (!Occupied(s, n) && t == PutLocal(NewAccount(s, n, false), s.nextAccount, cfg.hash(p, salt)))
  {
  }

  lemma SignUpFrame(cfg: Config, iso: Isolation, s: State, step: Step)
    requires SignsUp(step)
    ensures var t := Apply(cfg, iso, s, step).0;
      && t == s.(accounts := t.accounts, locals := t.locals, nextAccount := t.nextAccount)
      && (forall a | a != s.nextAccount :: IsVerified(t, a) == IsVerified(s, a) && Local(t, a) == Local(s, a))
      && (IsVerified(t, s.nextAccount) ==> IsVerified(s, s.nextAccount))
  {
    SignUpShape(cfg, iso, s, step);
  }

  lemma WriteShape(s: State, n: nat)
    ensures var t := UpdateWrite(s, n).0;
      || t == s || t == EndUpdate(s, n)
      || (n in s.updates && s.updates[n].account in s.accounts
          && t == SetAccount(EndUpdate(s, n), s.updates[n].account, Account(s.updates[n].email, s.updates[n].verified)))
  {
  }

  lemma UpdateFrame(cfg: Config, iso: Isolation, s: State, step: Step)
    requires IsUpdate(step)
    ensures var t := Apply(cfg, iso, s, step).0;
      && t == s.(accounts := t.accounts, updates := t.updates, nextUpdate := t.nextUpdate)
      && (forall a | IsVerified(t, a) && !IsVerified(s, a) ::
            step.DoUpdateWrite? && step.update in s.updates && s.updates[step.update].account == a && s.updates[step.update].verified)
      && (forall n | n in t.updates :: (n in s.updates && t.updates[n] == s.updates[n]) || ReadsMark(s, step, t.updates[n]))
  {
    if step.DoUpdateWrite? {
      WriteShape(s, step.update);
    }
  }

  lemma WritesFrame(cfg: Config, iso: Isolation, s: State, step: Step)
    requires Writes(step)
    ensures var t := Apply(cfg, iso, s, step).0;
      && t == s.(accounts := t.accounts, locals := t.locals)
      && (forall a | IsVerified(s, a) :: IsVerified(t, a))
      && (forall a | IsVerified(t, a) && !IsVerified(s, a) :: step.DoVerifyEmail? && step.a == a && a in s.accounts)
  {
    match step
    case DoVerifyEmail(a, e) => assert MarkVerified(s, a, e).0 in {s, SetAccount(s, a, Account(e, true))};
    case DoReset(a, p, salt) =>
    case DoSetPassword(a, ok, p, c, salt) => assert SetPassword(cfg, s, a, ok, p, c, salt).0 in {s, PutLocal(s, a, cfg.hash(p, salt))};
  }

  lemma JoinFrame(s: State, p: Principal, a: Id)
    requires a in s.accounts
    ensures var (t, o) := ResolveByEmail(s, p, a);
      && t == s.(accounts := t.accounts, idents := t.idents, nextUuid := t.nextUuid)
      && (forall b | IsVerified(s, b) :: IsVerified(t, b))
      && (forall b | IsVerified(t, b) && !IsVerified(s, b) :: p.emailVerified && a == b && o == Resolved(b) && t.accounts[b].email == s.accounts[b].email)
      && (forall k | k in t.idents && k !in s.idents :: p.Key() == k && o == Resolved(a) && t.idents[k].account == a && IsVerified(t, a))
      && (forall k | k in s.idents :: k in t.idents && SameBinding(s.idents[k], t.idents[k]))
  {
  }

  /** A creation changes nothing or adds one account, with at most the identity the principal names. */
  lemma CreationShape(s: State, p: Principal)
    ensures var (t, o) := AutoCreate(s, p); var n := NewAccount(s, p.email, p.emailVerified); var a := s.nextAccount;
      || t == s
      || (t == n && o == Resolved(a))
      || (Insert(n, p.Key(), a).Some? && t == Insert(n, p.Key(), a).value && o == Resolved(a))
  {
  }

  lemma CreationFrame(s: State, p: Principal)
    ensures var (t, o) := AutoCreate(s, p); var a := s.nextAccount;
      && t == s.(accounts := t.accounts, idents := t.idents, nextAccount := t.nextAccount, nextUuid := t.nextUuid)
      && (forall b | b != a :: IsVerified(t, b) == IsVerified(s, b))
      && (IsVerified(t, a) && !IsVerified(s, a) ==> p.emailVerified && o == Resolved(a) && t.accounts[a].email == p.email)
      && (forall k | k in t.idents && k !in s.idents :: p.Key() == k && o == Resolved(a) && t.idents[k].account == a)
      && (forall k | k in s.idents :: k in t.idents && SameBinding(s.idents[k], t.idents[k]))
  {
    CreationShape(s, p);
  }

  lemma ResolveFrame(cfg: Config, s: State, p: Principal, now: nat)
    ensures var t := Resolve(cfg, s, p, now).0;
      t == s.(accounts := t.accounts, idents := t.idents, nextAccount := t.nextAccount, nextUuid := t.nextUuid)
  {
    if p.email != "" && FindByEmail(cfg, s, p.email).Some? {
      JoinFrame(s, p, FindByEmail(cfg, s, p.email).value);
    }
    CreationFrame(s, p);
  }

  lemma LinkFrame(s: State, a: Id, p: Principal, now: nat)
    ensures var t := LinkCallback(s, a, p, now).0; t == s.(idents := t.idents, nextUuid := t.nextUuid)
  {
  }

  lemma CommitFrame(iso: Isolation, s: State, n: nat)
    ensures var t := Commit(iso, s, n).0;
      && t == s.(locals := t.locals, idents := t.idents, txs := t.txs)
      && (forall k | k in t.idents :: k in s.idents && t.idents[k] == s.idents[k])
      && (forall m | m in t.txs :: m in s.txs && t.txs[m].account == s.txs[m].account)
  {
    CommitOutcomes(iso, s, n);
    hide Commit, Decide, Conflict;
    if n in s.txs && Decide(s.txs[n]).Remove? {
      RemovalFrame(Close(s, n), s.txs[n].account, Decide(s.txs[n]).keys, Decide(s.txs[n]).local);
    }
  }

  lemma RemovalFrame(s: State, a: Id, keys: set<Key>, local: bool)
    ensures var t := RemoveRows(s, a, keys, local);
      && t == s.(locals := t.locals, idents := t.idents, txs := t.txs)
      && (forall k | k in t.idents :: k in s.idents && t.idents[k] == s.idents[k])
      && (forall m | m in t.txs :: m in s.txs && t.txs[m].account == s.txs[m].account)
  {
  }

  lemma DeleterFrame(cfg: Config, iso: Isolation, s: State, step: Step)
    requires IsDeleter(step)
    ensures var t := Apply(cfg, iso, s, step).0;
      && t == s.(locals := t.locals, idents := t.idents, txs := t.txs, nextTx := t.nextTx)
      && (forall k | k in t.idents :: k in s.idents && t.idents[k] == s.idents[k])
      && (forall n | n in t.txs :: (n in s.txs && t.txs[n].account == s.txs[n].account) || (step.DoBegin? && t.txs[n].account == step.a))
  {
    hide Commit;
    if step.DoCommit? {
      CommitFrame(iso, s, step.tx);
    }
  }

  // ----- passwords -----

  function Local(s: State, a: Id): Option<string>
  {
    if a in s.locals then Some(s.locals[a]) else None
  }

  /** The steps that may leave an existing account's password row as after. */
  predicate SetsPassword(cfg: Config, s: State, step: Step, a: Id, after: Option<string>)
  {
    match step
    case DoReset(b, p, salt) => b == a && after == Some(cfg.hash(p, salt))
    case DoSetPassword(b, ok, p, c, salt) =>
      && b == a && Gate(s, a, ok) && |p| >= 12 && after == Some(cfg.hash(p, salt))
      && (a in s.locals ==> c != "" && cfg.verify(c, s.locals[a]))
    case DoCommit(n) => n in s.txs && s.txs[n].account == a && s.txs[n].kind.RemovePasswordTx? && after == None
    case _ => false
  }

  /** Frame: an existing account's password row is changed only by a reset of it, by its own
      SetPassword past the gate with the stored password, or by its own removal. */
  lemma PasswordChangedOnlyBy(cfg: Config, iso: Isolation, s: State, step: Step, a: Id)
    requires Valid(s) && a in s.accounts
    ensures var t := Apply(cfg, iso, s, step).0;
      Local(s, a) != Local(t, a) ==> SetsPassword(cfg, s, step, a, Local(t, a))
  {
    if step.DoReset? || step.DoSetPassword? {
      OwnPassword(cfg, iso, s, step, a);
    } else if step.DoCommit? {
      CommitPassword(iso, s, step.tx, a);
    } else {
      OthersKeepPassword(cfg, iso, s, step, a);
    }
  }

  lemma OthersKeepPassword(cfg: Config, iso: Isolation, s: State, step: Step, a: Id)
    requires Valid(s) && a in s.accounts && !step.DoReset? && !step.DoSetPassword? && !step.DoCommit?
    ensures Local(Apply(cfg, iso, s, step).0, a) == Local(s, a)
  {
    if SignsUp(step) {
      SignUpFrame(cfg, iso, s, step);
    } else if IsUpdate(step) {
      UpdateFrame(cfg, iso, s, step);
    } else if step.DoResolve? {
      ResolveFrame(cfg, s, step.p, step.now);
    } else {
      OthersKeepLocals(cfg, iso, s, step);
    }
  }

  lemma OthersKeepLocals(cfg: Config, iso: Isolation, s: State, step: Step)
    requires step.DoVerifyEmail? || step.DoStartLink? || step.DoLinkCallback? || step.DoBegin? || step.DoAbort?
    ensures Apply(cfg, iso, s, step).0.locals == s.locals
  {
  }

  lemma OwnPassword(cfg: Config, iso: Isolation, s: State, step: Step, a: Id)
    requires step.DoReset? || step.DoSetPassword?
    ensures var t := Apply(cfg, iso, s, step).0;
      Local(t, a) == Local(s, a) || SetsPassword(cfg, s, step, a, Local(t, a))
  {
  }

  lemma CommitPassword(iso: Isolation, s: State, n: nat, a: Id)
    ensures var t := Commit(iso, s, n).0;
      Local(t, a) == Local(s, a)
      || (n in s.txs && s.txs[n].account == a && s.txs[n].kind.RemovePasswordTx? && Local(t, a) == None)
  {
    CommitOutcomes(iso, s, n);
  }

  // ----- verification marks -----

  /** Frame: an account becomes verified, or is created verified, only by the last write of an
      EmailCodeVerify of it, by a sign-in whose provider vouches for its address, or by the write of
      an update of it that read the mark set. */
  lemma VerifiedOnlyBy(cfg: Config, iso: Isolation, s: State, step: Step, a: Id)
    requires Valid(s) && !IsVerified(s, a)
    ensures var (t, o) := Apply(cfg, iso, s, step);
      IsVerified(t, a) ==>
        || (step.DoVerifyEmail? && step.a == a && a in s.accounts)
        || (step.DoUpdateWrite? && step.update in s.updates && s.updates[step.update].account == a && s.updates[step.update].verified)
        || (step.DoResolve? && VouchesFor(cfg, t, step.p, o, a))
  {
    if SignsUp(step) {
      SignUpFrame(cfg, iso, s, step);
    } else if IsUpdate(step) {
      UpdateFrame(cfg, iso, s, step);
    } else if Writes(step) {
      WritesFrame(cfg, iso, s, step);
    } else if IsDeleter(step) {
      DeleterFrame(cfg, iso, s, step);
    } else if step.DoResolve? {
      ResolveVerifies(cfg, s, step.p, step.now, a);
    } else if step.DoLinkCallback? {
      LinkFrame(s, step.a, step.p, step.now);
    }
  }

  lemma ResolveVerifies(cfg: Config, s: State, p: Principal, now: nat, a: Id)
    requires Valid(s) && !IsVerified(s, a)
    ensures var (t, o) := Resolve(cfg, s, p, now); IsVerified(t, a) ==> VouchesFor(cfg, t, p, o, a)
  {
    if p.email != "" && FindByEmail(cfg, s, p.email).Some? {
      JoinFrame(s, p, FindByEmail(cfg, s, p.email).value);
    }
    CreationFrame(s, p);
  }

  // ----- accounts and addresses -----

  lemma AccountsStay(cfg: Config, iso: Isolation, s: State, step: Step)
    requires Valid(s)
    ensures s.accounts.Keys <= Apply(cfg, iso, s, step).0.accounts.Keys
  {
    if IsDeleter(step) {
      DeleterFrame(cfg, iso, s, step);
    } else {
      ApplyKeeps(cfg, iso, s, step);
    }
  }

  /** The steps that may leave an existing account's email as after. */
  predicate SetsEmail(s: State, step: Step, a: Id, after: string)
  {
    match step
    case DoUpdateWrite(n) => n in s.updates && s.updates[n].account == a && s.updates[n].email == after
    case DoVerifyEmail(b, e) => b == a && e == after
    case _ => false
  }

  /** Frame: an account stays, and its email is changed only by the write of an update of it, or by the
      last write of an EmailCodeVerify of it, which writes back the email read at its start. */
  lemma EmailChangedOnlyBy(cfg: Config, iso: Isolation, s: State, step: Step, a: Id)
    requires Valid(s) && a in s.accounts
    ensures EmailKept(s, Apply(cfg, iso, s, step).0, step, a)
  {
    hide Apply;
    if SignsUp(step) {
      SignUpEmail(cfg, iso, s, step, a);
    } else if IsUpdate(step) || Writes(step) {
      WritesEmail(cfg, iso, s, step, a);
    } else if IsDeleter(step) {
      DeleterFrame(cfg, iso, s, step);
    } else {
      SignInEmail(cfg, iso, s, step, a);
    }
  }

  predicate EmailKept(s: State, t: State, step: Step, a: Id)
    requires a in s.accounts
  {
    a in t.accounts && (t.accounts[a].email != s.accounts[a].email ==> SetsEmail(s, step, a, t.accounts[a].email))
  }

  lemma SignUpEmail(cfg: Config, iso: Isolation, s: State, step: Step, a: Id)
    requires Valid(s) && a in s.accounts && SignsUp(step)
    ensures EmailKept(s, Apply(cfg, iso, s, step).0, step, a)
  {
    hide Apply;
    SignUpShape(cfg, iso, s, step);
  }

  lemma WritesEmail(cfg: Config, iso: Isolation, s: State, step: Step, a: Id)
    requires a in s.accounts && (IsUpdate(step) || Writes(step))
    ensures EmailKept(s, Apply(cfg, iso, s, step).0, step, a)
  {
  }

  lemma SignInEmail(cfg: Config, iso: Isolation, s: State, step: Step, a: Id)
    requires Valid(s) && a in s.accounts && (step.DoResolve? || step.DoStartLink? || step.DoLinkCallback?)
    ensures EmailKept(s, Apply(cfg, iso, s, step).0, step, a)
  {
    hide Resolve, LinkCallback;
    if step.DoResolve? {
      ResolveKeepsEmail(cfg, s, step.p, step.now, a);
    } else if step.DoLinkCallback? {
      LinkFrame(s, step.a, step.p, step.now);
    }
  }

  lemma ResolveKeepsEmail(cfg: Config, s: State, p: Principal, now: nat, a: Id)
    requires Valid(s) && a in s.accounts
    ensures var t := Resolve(cfg, s, p, now).0; a in t.accounts && t.accounts[a].email == s.accounts[a].email
  {
    hide ResolveByEmail, AutoCreate;
    if p.email != "" && FindByEmail(cfg, s, p.email).Some? {
      JoinKeepsEmail(s, p, FindByEmail(cfg, s, p.email).value, a);
    }
    CreationShape(s, p);
  }

  lemma JoinKeepsEmail(s: State, p: Principal, b: Id, a: Id)
    requires a in s.accounts && b in s.accounts
    ensures var t := ResolveByEmail(s, p, b).0; a in t.accounts && t.accounts[a].email == s.accounts[a].email
  {
  }

  // ----- tokens, transactions and pending updates -----

  /** The pending update holds the mark as the step read it. */
  predicate ReadsMark(s: State, step: Step, q: Pending)
  {
    step.DoUpdateRead? && q.account == step.a && q.verified == IsVerified(s, step.a)
  }

  /** Frame: link tokens are only added by StartLink, transactions only by a begin, pending updates
      only by the read of an update, which reads the mark as it stands; each for its own account. */
  lemma TokensOnlyBy(cfg: Config, iso: Isolation, s: State, step: Step)
    ensures var t := Apply(cfg, iso, s, step).0;
      && s.links <= t.links
      && (forall a | a in t.links && a !in s.links :: step.DoStartLink? && step.a == a && IsVerified(s, a))
      && (forall n | n in t.txs :: (n in s.txs && t.txs[n].account == s.txs[n].account) || (step.DoBegin? && t.txs[n].account == step.a))
      && (forall n | n in t.updates :: (n in s.updates && t.updates[n] == s.updates[n]) || ReadsMark(s, step, t.updates[n]))
  {
    if SignsUp(step) {
      SignUpFrame(cfg, iso, s, step);
    } else if IsUpdate(step) {
      UpdateFrame(cfg, iso, s, step);
    } else if Writes(step) {
      WritesFrame(cfg, iso, s, step);
    } else if IsDeleter(step) {
      DeleterFrame(cfg, iso, s, step);
    } else if step.DoResolve? {
      ResolveFrame(cfg, s, step.p, step.now);
    } else if step.DoLinkCallback? {
      LinkFrame(s, step.a, step.p, step.now);
    }
  }

  // ----- bindings -----

  /** A new identity row is the one the provider's reply names, bound to the account that signed in
      or to the one that started linking. */
  lemma BindingNeedsReply(cfg: Config, iso: Isolation, s: State, step: Step, key: Key)
    requires key !in s.idents
    ensures var (t, o) := Apply(cfg, iso, s, step);
      key in t.idents ==>
        || (step.DoResolve? && step.p.Key() == key && o == Resolved(t.idents[key].account))
        || (step.DoLinkCallback? && step.p.Key() == key && step.a in s.links && t.idents[key].account == step.a)
  {
    if SignsUp(step) {
      SignUpFrame(cfg, iso, s, step);
    } else if IsUpdate(step) {
      UpdateFrame(cfg, iso, s, step);
    } else if Writes(step) {
      WritesFrame(cfg, iso, s, step);
    } else if IsDeleter(step) {
      DeleterFrame(cfg, iso, s, step);
    } else if step.DoResolve? {
      ResolveInserts(cfg, s, step.p, step.now, key);
    } else if step.DoLinkCallback? {
      LinkInserts(s, step.a, step.p, step.now, key);
    }
  }

  lemma ResolveInserts(cfg: Config, s: State, p: Principal, now: nat, key: Key)
    requires key !in s.idents
    ensures var (t, o) := Resolve(cfg, s, p, now);
      key in t.idents ==> p.Key() == key && o == Resolved(t.idents[key].account)
  {
    if p.email != "" && FindByEmail(cfg, s, p.email).Some? {
      JoinFrame(s, p, FindByEmail(cfg, s, p.email).value);
    }
    CreationFrame(s, p);
  }

  lemma LinkInserts(s: State, a: Id, p: Principal, now: nat, key: Key)
    requires key !in s.idents
    ensures var t := LinkCallback(s, a, p, now).0;
      key in t.idents ==> p.Key() == key && t.idents[key].account == a && a in s.links
  {
  }

  // ----- short runs -----

  lemma RunOfFour(cfg: Config, iso: Isolation, s: State, steps: seq<Step>)
    requires |steps| == 4
    ensures Run(cfg, iso, s, steps)
         == Apply(cfg, iso, Apply(cfg, iso, Apply(cfg, iso, Apply(cfg, iso, s, steps[0]).0, steps[1]).0, steps[2]).0, steps[3]).0
  {
    var s1 := Apply(cfg, iso, s, steps[0]).0;
    var s2 := Apply(cfg, iso, s1, steps[1]).0;
    var s3 := Apply(cfg, iso, s2, steps[2]).0;
    assert Run(cfg, iso, s, steps) == Run(cfg, iso, s1, steps[1..]);
    assert Run(cfg, iso, s1, steps[1..]) == Run(cfg, iso, s2, steps[1..][1..]);
    assert steps[1..][1..] == steps[2..] && steps[2..][1..] == steps[3..] && steps[3..][1..] == [];
    assert Run(cfg, iso, s2, steps[2..]) == Run(cfg, iso, s3, steps[3..]);
    assert steps[3..][0] == steps[3] && steps[2..][0] == steps[2] && steps[1..][0] == steps[1];
    assert Run(cfg, iso, s3, steps[3..]) == Run(cfg, iso, Apply(cfg, iso, s3, steps[3]).0, []);
  }
}
