/** What every run of the credential state machine keeps. */
module AccountSafety {
  import opened Text
  import opened Accounts

  // ----- the invariant -----

  ghost predicate RowsValid(s: State)
  {
    && (forall a | a in s.accounts :: a < s.nextAccount)
    && s.locals.Keys <= s.accounts.Keys
    && (forall k | k in s.idents :: s.idents[k].account in s.accounts && s.idents[k].uuid < s.nextUuid)
    && (forall j, k | j in s.idents && k in s.idents && s.idents[j].uuid == s.idents[k].uuid :: j == k)
  }

  ghost predicate EmailsUnique(s: State)
  {
    forall a, b | a in s.accounts && b in s.accounts && s.accounts[a].email == s.accounts[b].email :: a == b
  }

  /** Every signed link token and every pending update names an account. */
  ghost predicate NamesValid(s: State)
  {
    && (forall a | a in s.links :: a in s.accounts)
    && (forall n | n in s.updates :: n < s.nextUpdate && s.updates[n].account in s.accounts)
  }

  /** Everything the transaction saw is still there. */
  ghost predicate Witnessed(s: State, tx: Tx)
  {
    && (forall k | k in tx.idents :: k in s.idents && SameBinding(tx.idents[k], s.idents[k]))
    && (tx.hasLocal ==> tx.account in s.locals)
  }

  ghost predicate TxValid(s: State, tx: Tx)
  {
    && tx.account in s.accounts
    && (forall k | k in tx.idents :: tx.idents[k].account == tx.account)
    && (forall j, k | j in tx.idents && k in tx.idents && tx.idents[j].uuid == tx.idents[k].uuid :: j == k)
    && (tx.stale || Witnessed(s, tx))
  }

  ghost predicate TxsValid(s: State)
  {
    forall t | t in s.txs :: t < s.nextTx && TxValid(s, s.txs[t])
  }

  ghost predicate Valid(s: State)
  {
    RowsValid(s) && EmailsUnique(s) && NamesValid(s) && TxsValid(s)
  }

  /** t keeps every row of s and every open transaction. */
  ghost predicate Grows(s: State, t: State)
  {
    && s.accounts.Keys <= t.accounts.Keys
    && s.locals.Keys <= t.locals.Keys
    && (forall k | k in s.idents :: k in t.idents && SameBinding(s.idents[k], t.idents[k]))
    && s.links <= t.links
    && s.txs == t.txs && s.nextTx == t.nextTx
  }

  lemma GrowsKeepsTxs(s: State, t: State)
    requires Grows(s, t) && TxsValid(s)
    ensures TxsValid(t)
  {
    forall n | n in t.txs ensures n < t.nextTx && TxValid(t, t.txs[n]) {
      assert TxValid(s, s.txs[n]);
    }
  }

  // ----- row operations -----

  lemma NewAccountKeeps(s: State, email: string, verified: bool)
    requires Valid(s) && !Occupied(s, email)
    ensures Valid(NewAccount(s, email, verified)) && Grows(s, NewAccount(s, email, verified))
  {
    var t := NewAccount(s, email, verified);
    assert s.nextAccount !in s.accounts;
    GrowsKeepsTxs(s, t);
  }

  lemma PutLocalKeeps(s: State, a: Id, hash: string)
    requires Valid(s) && a in s.accounts
    ensures Valid(PutLocal(s, a, hash)) && Grows(s, PutLocal(s, a, hash))
  {
    GrowsKeepsTxs(s, PutLocal(s, a, hash));
  }

  lemma InsertKeeps(s: State, key: Key, a: Id)
    requires Valid(s) && a in s.accounts && key !in s.idents
    ensures Valid(Insert(s, key, a).value) && Grows(s, Insert(s, key, a).value)
  {
    GrowsKeepsTxs(s, Insert(s, key, a).value);
  }

  lemma TouchKeeps(s: State, key: Key, now: nat)
    requires Valid(s) && key in s.idents
    ensures Valid(Touch(s, key, now)) && Grows(s, Touch(s, key, now))
  {
    var t := Touch(s, key, now);
    assert t.idents.Keys == s.idents.Keys && forall k | k in s.idents :: SameBinding(s.idents[k], t.idents[k]);
    GrowsKeepsTxs(s, t);
  }

  lemma SetAccountKeeps(s: State, a: Id, account: Account)
    requires Valid(s) && a in s.accounts
    requires EmailFreeFor(s, account.email, a)
    ensures Valid(SetAccount(s, a, account)) && Grows(s, SetAccount(s, a, account))
  {
    var t := SetAccount(s, a, account);
    assert t.accounts.Keys == s.accounts.Keys;
    GrowsKeepsTxs(s, t);
  }

  lemma VerifyKeeps(s: State, a: Id)
    requires Valid(s) && a in s.accounts
    ensures Valid(SetAccount(s, a, s.accounts[a].(verified := true)))
    ensures Grows(s, SetAccount(s, a, s.accounts[a].(verified := true)))
  {
    SetAccountKeeps(s, a, s.accounts[a].(verified := true));
  }

  // ----- steps -----

  lemma ResolveByEmailKeeps(s: State, p: Principal, a: Id)
    requires Valid(s) && a in s.accounts
    ensures Valid(ResolveByEmail(s, p, a).0) && Grows(s, ResolveByEmail(s, p, a).0)
  {
    if p.Key() !in s.idents {
      if s.accounts[a].verified {
        InsertKeeps(s, p.Key(), a);
      } else if p.emailVerified {
        var t := SetAccount(s, a, s.accounts[a].(verified := true));
        VerifyKeeps(s, a);
        InsertKeeps(t, p.Key(), a);
        GrowsTransitive(s, t, Insert(t, p.Key(), a).value);
      }
    }
  }

  lemma AutoCreateKeeps(s: State, p: Principal)
    requires Valid(s)
    ensures Valid(AutoCreate(s, p).0) && Grows(s, AutoCreate(s, p).0)
  {
    if !Occupied(s, p.email) {
      NewAccountKeeps(s, p.email, p.emailVerified);
      var t := NewAccount(s, p.email, p.emailVerified);
      if p.issuer != "" && p.subject != "" && p.Key() !in s.idents {
        InsertKeeps(t, p.Key(), s.nextAccount);
        GrowsTransitive(s, t, Insert(t, p.Key(), s.nextAccount).value);
      }
    }
  }

  lemma ResolveKeeps(cfg: Config, s: State, p: Principal, now: nat)
    requires Valid(s)
    ensures Valid(Resolve(cfg, s, p, now).0) && Grows(s, Resolve(cfg, s, p, now).0)
  {
    if LocalPath(cfg, p) {
    } else if p.issuer != "" && p.subject != "" && p.Key() in s.idents {
      TouchKeeps(s, p.Key(), now);
    } else if p.email != "" && FindByEmail(cfg, s, p.email).Some? {
      ResolveByEmailKeeps(s, p, FindByEmail(cfg, s, p.email).value);
    } else {
      AutoCreateKeeps(s, p);
    }
  }

  lemma GrowsTransitive(s: State, t: State, u: State)
    requires Grows(s, t) && Grows(t, u)
    ensures Grows(s, u)
  {
  }

  lemma SignUpKeeps(s: State, email: string, hash: string)
    requires Valid(s) && !Occupied(s, email)
    ensures var t := PutLocal(NewAccount(s, email, false), s.nextAccount, hash); Valid(t) && Grows(s, t)
  {
    NewAccountKeeps(s, email, false);
    var t := NewAccount(s, email, false);
    PutLocalKeeps(t, s.nextAccount, hash);
    GrowsTransitive(s, t, PutLocal(t, s.nextAccount, hash));
  }

  lemma LinkCallbackKeeps(s: State, a: Id, p: Principal, now: nat)
    requires Valid(s)
    ensures Valid(LinkCallback(s, a, p, now).0) && Grows(s, LinkCallback(s, a, p, now).0)
  {
    if a in s.links {
      if p.Key() in s.idents {
        TouchKeeps(s, p.Key(), now);
      } else {
        InsertKeeps(s, p.Key(), a);
      }
    }
  }

  lemma BeginKeeps(s: State, a: Id, stepUpOk: bool, kind: TxKind)
    requires Valid(s)
    ensures Valid(Begin(s, a, stepUpOk, kind).0)
  {
    var t := Begin(s, a, stepUpOk, kind).0;
    forall n | n in t.txs ensures n < t.nextTx && TxValid(t, t.txs[n]) {
      if n in s.txs && n != s.nextTx {
        assert TxValid(s, s.txs[n]);
      }
    }
  }

  lemma CloseKeeps(s: State, t: nat)
    requires Valid(s)
    ensures Valid(Close(s, t))
  {
    forall n | n in Close(s, t).txs ensures n < s.nextTx && TxValid(Close(s, t), s.txs[n]) {
      assert TxValid(s, s.txs[n]);
    }
  }

  /** Removing rows of account a leaves every transaction of another account a true snapshot. */
  lemma RemoveRowsKeeps(s: State, a: Id, keys: set<Key>, local: bool)
    requires Valid(s)
    requires forall k | k in keys && k in s.idents :: s.idents[k].account == a
    ensures Valid(RemoveRows(s, a, keys, local))
  {
    var t := RemoveRows(s, a, keys, local);
    forall n | n in t.txs ensures n < t.nextTx && TxValid(t, t.txs[n]) {
      assert TxValid(s, s.txs[n]);
      if s.txs[n].account != a && !s.txs[n].stale {
        assert Witnessed(s, s.txs[n]);
      }
    }
  }

  /** A commit removes the decided rows or only closes the transaction. */
  lemma CommitOutcomes(iso: Isolation, s: State, t: nat)
    ensures var u := Commit(iso, s, t).0;
      if t in s.txs && Decide(s.txs[t]).Remove? && !Conflict(iso, s, s.txs[t], Decide(s.txs[t])) then
        u == RemoveRows(Close(s, t), s.txs[t].account, Decide(s.txs[t]).keys, Decide(s.txs[t]).local)
      else u == s || u == Close(s, t)
  {
  }

  lemma CommitKeeps(iso: Isolation, s: State, t: nat)
    requires Valid(s)
    ensures Valid(Commit(iso, s, t).0)
  {
    CommitOutcomes(iso, s, t);
    CloseKeeps(s, t);
    if t in s.txs && Decide(s.txs[t]).Remove? && !Conflict(iso, s, s.txs[t], Decide(s.txs[t])) {
      var tx := s.txs[t];
      assert TxValid(s, tx);
      RemovalStaysInside(s, iso, tx);
      RemoveRowsKeeps(Close(s, t), tx.account, Decide(tx).keys, Decide(tx).local);
    }
  }

  /** A committed removal takes rows of its own account only. */
  lemma RemovalStaysInside(s: State, iso: Isolation, tx: Tx)
    requires RowsValid(s) && TxValid(s, tx)
    requires Decide(tx).Remove? && !Conflict(iso, s, tx, Decide(tx))
    ensures forall k | k in Decide(tx).keys && k in s.idents :: s.idents[k].account == tx.account
  {
  }

  lemma RegisterKeeps(cfg: Config, s: State, e: string, p: string, g: string, f: string, h: string)
    requires Valid(s)
    ensures Valid(Register(cfg, s, e, p, g, f, h).0) && Grows(s, Register(cfg, s, e, p, g, f, h).0)
  {
    if Register(cfg, s, e, p, g, f, h).1.Done? {
      SignUpKeeps(s, cfg.normalise(e), cfg.hash(p, h));
    }
  }

  lemma CreateOutcomes(cfg: Config, s: State, e: string, p: Option<string>, g: string, f: string, z: bool, h: string)
    ensures var r := AdminCreate(cfg, s, e, p, g, f, z, h).0; var n := cfg.normalise(e);
      || r == s
      || (!Occupied(s, n) && (r == NewAccount(s, n, false)
        || (p.Some? && r == PutLocal(NewAccount(s, n, false), s.nextAccount, cfg.hash(p.value, h)))))
  {
  }

  lemma CreateKeeps(cfg: Config, s: State, e: string, p: Option<string>, g: string, f: string, z: bool, h: string)
    requires Valid(s)
    ensures Valid(AdminCreate(cfg, s, e, p, g, f, z, h).0) && Grows(s, AdminCreate(cfg, s, e, p, g, f, z, h).0)
  {
    CreateOutcomes(cfg, s, e, p, g, f, z, h);
    if !Occupied(s, cfg.normalise(e)) {
      NewAccountKeeps(s, cfg.normalise(e), false);
      if p.Some? {
        SignUpKeeps(s, cfg.normalise(e), cfg.hash(p.value, h));
      }
    }
  }

  lemma UpdateReadKeeps(cfg: Config, s: State, a: Id, e: Option<string>, z: bool)
    requires Valid(s)
    ensures Valid(UpdateRead(cfg, s, a, e, z).0) && Grows(s, UpdateRead(cfg, s, a, e, z).0)
  {
    GrowsKeepsTxs(s, UpdateRead(cfg, s, a, e, z).0);
  }

  lemma UpdateWriteKeeps(s: State, n: nat)
    requires Valid(s)
    ensures Valid(UpdateWrite(s, n).0) && Grows(s, UpdateWrite(s, n).0)
  {
    var t := EndUpdate(s, n);
    assert Grows(s, t);
    GrowsKeepsTxs(s, t);
    assert Valid(t);
    if UpdateWrite(s, n).1.Done? {
      var q := s.updates[n];
      SetAccountKeeps(t, q.account, Account(q.email, q.verified));
    }
  }

  lemma MarkVerifiedKeeps(s: State, a: Id, email: string)
    requires Valid(s)
    ensures Valid(MarkVerified(s, a, email).0) && Grows(s, MarkVerified(s, a, email).0)
  {
    if a in s.accounts && EmailFreeFor(s, email, a) {
      SetAccountKeeps(s, a, Account(email, true));
    }
  }

  lemma SetPasswordKeeps(cfg: Config, s: State, a: Id, ok: bool, p: string, c: string, salt: string)
    requires Valid(s)
    ensures Valid(SetPassword(cfg, s, a, ok, p, c, salt).0) && Grows(s, SetPassword(cfg, s, a, ok, p, c, salt).0)
  {
    if SetPassword(cfg, s, a, ok, p, c, salt).1.Done? {
      PutLocalKeeps(s, a, cfg.hash(p, salt));
    }
  }

  lemma ResetKeeps(cfg: Config, s: State, a: Id, p: string, salt: string)
    requires Valid(s)
    ensures Valid(Reset(cfg, s, a, p, salt).0) && Grows(s, Reset(cfg, s, a, p, salt).0)
  {
    if a in s.accounts {
      PutLocalKeeps(s, a, cfg.hash(p, salt));
    }
  }

  lemma StartLinkKeeps(s: State, a: Id, ok: bool, v: bool)
    requires Valid(s)
    ensures Valid(StartLink(s, a, ok, v).0) && Grows(s, StartLink(s, a, ok, v).0)
  {
    GrowsKeepsTxs(s, StartLink(s, a, ok, v).0);
  }

  predicate Ordinary(step: Step)
  {
    !step.DoBegin? && !step.DoCommit? && !step.DoAbort?
  }

  lemma LocalStepKeeps(cfg: Config, iso: Isolation, s: State, step: Step)
    requires Valid(s)
    requires step.DoRegister? || step.DoCreate? || step.DoUpdateRead? || step.DoUpdateWrite? || step.DoVerifyEmail?
      || step.DoReset? || step.DoSetPassword?
    ensures Valid(Apply(cfg, iso, s, step).0) && Grows(s, Apply(cfg, iso, s, step).0)
  {
    match step
    case DoRegister(e, p, g, f, h) => RegisterKeeps(cfg, s, e, p, g, f, h);
    case DoCreate(e, p, g, f, z, h) => CreateKeeps(cfg, s, e, p, g, f, z, h);
    case DoUpdateRead(a, e, z) => UpdateReadKeeps(cfg, s, a, e, z);
    case DoUpdateWrite(n) => UpdateWriteKeeps(s, n);
    case DoVerifyEmail(a, e) => MarkVerifiedKeeps(s, a, e);
    case DoReset(a, p, h) => ResetKeeps(cfg, s, a, p, h);
    case DoSetPassword(a, ok, p, c, h) => SetPasswordKeeps(cfg, s, a, ok, p, c, h);
  }

  lemma SignInStepKeeps(cfg: Config, iso: Isolation, s: State, step: Step)
    requires Valid(s) && (step.DoResolve? || step.DoStartLink? || step.DoLinkCallback?)
    ensures Valid(Apply(cfg, iso, s, step).0) && Grows(s, Apply(cfg, iso, s, step).0)
  {
    match step
    case DoResolve(p, now) => ResolveKeeps(cfg, s, p, now);
    case DoStartLink(a, ok, v) => StartLinkKeeps(s, a, ok, v);
    case DoLinkCallback(a, p, now) => LinkCallbackKeeps(s, a, p, now);
  }

  lemma ApplyKeeps(cfg: Config, iso: Isolation, s: State, step: Step)
    requires Valid(s)
    ensures Valid(Apply(cfg, iso, s, step).0)
    ensures Ordinary(step) ==> Grows(s, Apply(cfg, iso, s, step).0)
  {
    if step.DoBegin? {
      BeginKeeps(s, step.a, step.stepUpOk, step.kind);
    } else if step.DoCommit? {
      CommitKeeps(iso, s, step.tx);
    } else if step.DoAbort? {
      CloseKeeps(s, step.tx);
    } else if step.DoResolve? || step.DoStartLink? || step.DoLinkCallback? {
      SignInStepKeeps(cfg, iso, s, step);
    } else {
      LocalStepKeeps(cfg, iso, s, step);
    }
  }

  lemma {:induction false} RunKeeps(cfg: Config, iso: Isolation, s: State, steps: seq<Step>)
    requires Valid(s)
    ensures Valid(Run(cfg, iso, s, steps))
    decreases |steps|
  {
    if steps != [] {
      ApplyKeeps(cfg, iso, s, steps[0]);
      RunKeeps(cfg, iso, Apply(cfg, iso, s, steps[0]).0, steps[1..]);
    }
  }

  // ----- last-credential safety -----

  ghost predicate HasCredential(s: State, a: Id)
  {
    a in s.locals || exists k :: k in s.idents && s.idents[k].account == a
  }

  /** A removal the snapshot allows leaves the account one of the rows the snapshot shows. */
  lemma DecisionLeavesOne(s: State, tx: Tx)
    requires TxValid(s, tx) && Witnessed(s, tx) && Decide(tx).Remove?
    ensures var v := Decide(tx);
      HasCredential(RemoveRows(s, tx.account, v.keys, v.local), tx.account)
  {
    var v := Decide(tx);
    var t := RemoveRows(s, tx.account, v.keys, v.local);
    match tx.kind
    case RemovePasswordTx =>
      assert tx.idents.Keys != {};
      var k :| k in tx.idents.Keys;
      assert k in t.idents && t.idents[k].account == tx.account;
    case UnlinkTx(uuid) =>
      if tx.hasLocal {
        assert tx.account in t.locals;
      } else {
        var k := UnlinkSpares(s, tx);
        assert k in t.idents && t.idents[k].account == tx.account;
      }
  }

  /** Without a password an unlink matches one of at least two identities and spares another. */
  lemma UnlinkSpares(s: State, tx: Tx) returns (k: Key)
    requires TxValid(s, tx) && tx.kind.UnlinkTx? && !tx.hasLocal && Decide(tx).Remove?
    ensures k in tx.idents && k !in Decide(tx).keys
  {
    var keys := Decide(tx).keys;
    var gone :| gone in keys;
    assert keys == {gone};
    assert |tx.idents.Keys| >= 2 && |tx.idents.Keys - {gone}| == |tx.idents.Keys| - 1;
    k :| k in tx.idents.Keys - {gone};
  }

  lemma SameRowsKeepCredential(s: State, t: State, a: Id)
    requires HasCredential(s, a)
    requires s.locals.Keys <= t.locals.Keys
    requires forall k | k in s.idents :: k in t.idents && SameBinding(s.idents[k], t.idents[k])
    ensures HasCredential(t, a)
  {
    if a !in s.locals {
      var k :| k in s.idents && s.idents[k].account == a;
      assert k in t.idents && t.idents[k].account == a;
    }
  }

  /** Whatever the isolation, a commit takes nothing from any other account. */
  lemma CommitSparesOthers(iso: Isolation, s: State, t: nat, a: Id)
    requires Valid(s) && HasCredential(s, a)
    requires t in s.txs ==> s.txs[t].account != a
    ensures HasCredential(Commit(iso, s, t).0, a)
  {
    CommitOutcomes(iso, s, t);
    if t in s.txs && Decide(s.txs[t]).Remove? && !Conflict(iso, s, s.txs[t], Decide(s.txs[t])) {
      RemovalStaysInside(s, iso, s.txs[t]);
      RemovalSparesOthers(Close(s, t), s.txs[t].account, Decide(s.txs[t]).keys, Decide(s.txs[t]).local, a);
    } else {
      SameRowsKeepCredential(s, Commit(iso, s, t).0, a);
    }
  }

  lemma RemovalSparesOthers(s: State, b: Id, keys: set<Key>, local: bool, a: Id)
    requires HasCredential(s, a) && a != b && forall k | k in keys && k in s.idents :: s.idents[k].account == b
    ensures HasCredential(RemoveRows(s, b, keys, local), a)
  {
    var t := RemoveRows(s, b, keys, local);
    if a !in s.locals {
      var k :| k in s.idents && s.idents[k].account == a;
      assert k in t.idents && t.idents[k].account == a;
    }
  }

  lemma WitnessAfterClose(s: State, t: nat, tx: Tx)
    requires TxValid(s, tx) && !tx.stale
    ensures TxValid(Close(s, t), tx) && Witnessed(Close(s, t), tx)
  {
  }

  lemma SerializableCommitKeepsCredential(s: State, t: nat, a: Id)
    requires Valid(s) && HasCredential(s, a)
    ensures HasCredential(Commit(Serializable, s, t).0, a)
  {
    CommitOutcomes(Serializable, s, t);
    if t in s.txs && s.txs[t].account == a {
      var tx := s.txs[t];
      assert TxValid(s, tx);
      if Decide(tx).Remove? && !tx.stale {
        WitnessAfterClose(s, t, tx);
        DecisionLeavesOne(Close(s, t), tx);
      } else {
        SameRowsKeepCredential(s, Close(s, t), a);
      }
    } else {
      CommitSparesOthers(Serializable, s, t, a);
    }
  }

  lemma OpenAndAbortKeepRows(cfg: Config, iso: Isolation, s: State, step: Step)
    requires step.DoBegin? || step.DoAbort?
    ensures var t := Apply(cfg, iso, s, step).0; t.locals == s.locals && t.idents == s.idents
  {
  }

  lemma SerializableStepKeepsCredential(cfg: Config, s: State, step: Step, a: Id)
    requires Valid(s) && HasCredential(s, a)
    ensures HasCredential(Apply(cfg, Serializable, s, step).0, a)
  {
    hide Commit;
    if step.DoCommit? {
      SerializableCommitKeepsCredential(s, step.tx, a);
    } else if Ordinary(step) {
      ApplyKeeps(cfg, Serializable, s, step);
      SameRowsKeepCredential(s, Apply(cfg, Serializable, s, step).0, a);
    } else {
      OpenAndAbortKeepRows(cfg, Serializable, s, step);
      SameRowsKeepCredential(s, Apply(cfg, Serializable, s, step).0, a);
    }
  }

  /** Under serializable deleters no interleaving takes an account's last credential. */
  lemma {:induction false} NeverLosesLastCredential(cfg: Config, s: State, steps: seq<Step>, a: Id)
    requires Valid(s) && HasCredential(s, a)
    ensures HasCredential(Run(cfg, Serializable, s, steps), a)
    decreases |steps|
  {
    if steps != [] {
      ApplyKeeps(cfg, Serializable, s, steps[0]);
      SerializableStepKeepsCredential(cfg, s, steps[0], a);
      NeverLosesLastCredential(cfg, Apply(cfg, Serializable, s, steps[0]).0, steps[1..], a);
    }
  }
}
