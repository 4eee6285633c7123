/** Main results about runs of the credential state machine, beside last-credential safety. */
module AccountTheorems {
  import opened Text
  import opened Accounts
  import opened AccountSafety
  import opened AccountFrames

  // ----- why serializable isolation is needed -----

  /** An unlink and a password removal of the same account, both begun before either commits. */
  function RacingDeleters(s: State, a: Id, uuid: nat): seq<Step>
  {
    [DoBegin(a, true, UnlinkTx(uuid)), DoBegin(a, true, RemovePasswordTx), DoCommit(s.nextTx), DoCommit(s.nextTx + 1)]
  }

  ghost predicate OnlyTwoCredentials(s: State, a: Id, key: Key)
  {
    && a in s.accounts && s.accounts[a].verified && a in s.locals
    && IdentsOf(s.idents, a).Keys == {key}
    && s.nextTx !in s.txs && s.nextTx + 1 !in s.txs
  }

  lemma AfterBegins(cfg: Config, iso: Isolation, s: State, a: Id, key: Key)
    requires OnlyTwoCredentials(s, a, key)
    ensures var uuid := s.idents[key].uuid;
      var t1 := Tx(a, UnlinkTx(uuid), IdentsOf(s.idents, a), true, false);
      var t2 := Tx(a, RemovePasswordTx, IdentsOf(s.idents, a), true, false);
      && Apply(cfg, iso, Apply(cfg, iso, s, DoBegin(a, true, UnlinkTx(uuid))).0, DoBegin(a, true, RemovePasswordTx)).0
         == s.(txs := s.txs[s.nextTx := t1][s.nextTx + 1 := t2], nextTx := s.nextTx + 2)
      && Decide(t1) == Remove({key}, false) && Decide(t2) == Remove({}, true)
  {
    var uuid := s.idents[key].uuid;
    var mine := IdentsOf(s.idents, a);
    assert |mine| == |mine.Keys| == 1;
    assert key in mine && MatchingKeys(mine, uuid) == {key};
  }

  lemma RaceIsTwoCommits(cfg: Config, iso: Isolation, s: State, a: Id, key: Key)
    requires OnlyTwoCredentials(s, a, key)
    ensures Run(cfg, iso, s, RacingDeleters(s, a, s.idents[key].uuid))
         == Commit(iso, Commit(iso, Begun(s, a, key), s.nextTx).0, s.nextTx + 1).0
  {
    hide Commit, Decide;
    RunOfFour(cfg, iso, s, RacingDeleters(s, a, s.idents[key].uuid));
    AfterBegins(cfg, iso, s, a, key);
  }

  /** Under plain snapshot isolation the race empties every account with these two credentials;
      under serializable isolation the second commit aborts and the password survives. */
  lemma RaceOutcomes(cfg: Config, s: State, a: Id, key: Key)
    requires OnlyTwoCredentials(s, a, key)
    ensures !HasCredential(Run(cfg, SnapshotOnly, s, RacingDeleters(s, a, s.idents[key].uuid)), a)
    ensures a in Run(cfg, Serializable, s, RacingDeleters(s, a, s.idents[key].uuid)).locals
  {
    RaceIsTwoCommits(cfg, SnapshotOnly, s, a, key);
    RaceIsTwoCommits(cfg, Serializable, s, a, key);
    SnapshotRace(cfg, s, a, key);
    SerializableRace(cfg, s, a, key);
  }

  /** Such a state is two requests away from the empty tables: a first sign-in vouched for by its
      provider, then a password. So plain snapshot isolation does lose an account's last credential. */
  lemma SnapshotLosesLastCredential(cfg: Config, p: Principal, now: nat, password: string, salt: string)
    requires p.issuer != "" && p.subject != "" && p.emailVerified && !LocalPath(cfg, p) && |password| >= 12
    ensures var s := Run(cfg, SnapshotOnly, EMPTY, [DoResolve(p, now), DoSetPassword(0, true, password, "", salt)]);
      && OnlyTwoCredentials(s, 0, p.Key()) && HasCredential(s, 0)
      && !HasCredential(Run(cfg, SnapshotOnly, s, RacingDeleters(s, 0, s.idents[p.Key()].uuid)), 0)
  {
    var steps := [DoResolve(p, now), DoSetPassword(0, true, password, "", salt)];
    var s1 := Apply(cfg, SnapshotOnly, EMPTY, steps[0]).0;
    FirstSignIn(cfg, p, now);
    var s := Apply(cfg, SnapshotOnly, s1, steps[1]).0;
    assert s == PutLocal(s1, 0, cfg.hash(password, salt));
    assert steps[1..][0] == steps[1] && steps[1..][1..] == [];
    assert Run(cfg, SnapshotOnly, EMPTY, steps) == Run(cfg, SnapshotOnly, s1, steps[1..]) == Run(cfg, SnapshotOnly, s, []) == s;
    assert IdentsOf(s.idents, 0).Keys == {p.Key()};
    RaceOutcomes(cfg, s, 0, p.Key());
  }

  lemma FirstSignIn(cfg: Config, p: Principal, now: nat)
    requires p.issuer != "" && p.subject != "" && p.emailVerified && !LocalPath(cfg, p)
    ensures Resolve(cfg, EMPTY, p, now).0
         == EMPTY.(accounts := map[0 := Account(p.email, true)], idents := map[p.Key() := Identity(0, 0, None)], nextAccount := 1, nextUuid := 1)
  {
  }

  ghost function Begun(s: State, a: Id, key: Key): State
    requires OnlyTwoCredentials(s, a, key)
  {
    var t1 := Tx(a, UnlinkTx(s.idents[key].uuid), IdentsOf(s.idents, a), true, false);
    var t2 := Tx(a, RemovePasswordTx, IdentsOf(s.idents, a), true, false);
    s.(txs := s.txs[s.nextTx := t1][s.nextTx + 1 := t2], nextTx := s.nextTx + 2)
  }

  /** The first commit removes the identity row and marks the second transaction. */
  lemma FirstCommit(cfg: Config, iso: Isolation, s: State, a: Id, key: Key)
    requires OnlyTwoCredentials(s, a, key)
    ensures var u := Commit(iso, Begun(s, a, key), s.nextTx).0;
      && u.idents == s.idents - {key} && u.locals == s.locals
      && s.nextTx + 1 in u.txs && u.txs[s.nextTx + 1] == Tx(a, RemovePasswordTx, IdentsOf(s.idents, a), true, true)
  {
    AfterBegins(cfg, iso, s, a, key);
    assert key in IdentsOf(s.idents, a);
  }

  lemma SnapshotRace(cfg: Config, s: State, a: Id, key: Key)
    requires OnlyTwoCredentials(s, a, key)
    ensures !HasCredential(Commit(SnapshotOnly, Commit(SnapshotOnly, Begun(s, a, key), s.nextTx).0, s.nextTx + 1).0, a)
  {
    FirstCommit(cfg, SnapshotOnly, s, a, key);
    AfterBegins(cfg, SnapshotOnly, s, a, key);
    var u := Commit(SnapshotOnly, Begun(s, a, key), s.nextTx).0;
    assert Decide(u.txs[s.nextTx + 1]) == Remove({}, true);
    var v := Commit(SnapshotOnly, u, s.nextTx + 1).0;
    assert v.idents == s.idents - {key} && v.locals == s.locals - {a};
    forall k | k in v.idents ensures v.idents[k].account != a {
      assert k in IdentsOf(s.idents, a) ==> k == key;
    }
  }

  lemma SerializableRace(cfg: Config, s: State, a: Id, key: Key)
    requires OnlyTwoCredentials(s, a, key)
    ensures a in Commit(Serializable, Commit(Serializable, Begun(s, a, key), s.nextTx).0, s.nextTx + 1).0.locals
  {
    FirstCommit(cfg, Serializable, s, a, key);
    AfterBegins(cfg, Serializable, s, a, key);
    var u := Commit(Serializable, Begun(s, a, key), s.nextTx).0;
    assert Decide(u.txs[s.nextTx + 1]) == Remove({}, true);
  }

  // ----- what an undisturbed deleter does -----

  ghost predicate OwnsUuid(s: State, a: Id, uuid: nat, key: Key)
  {
    key in s.idents && s.idents[key].account == a && s.idents[key].uuid == uuid
  }

  function CredentialCount(s: State, a: Id): nat
  {
    |IdentsOf(s.idents, a)| + if a in s.locals then 1 else 0
  }

  lemma OwnedKeys(s: State, a: Id, uuid: nat)
    requires RowsValid(s)
    ensures var keys := MatchingKeys(IdentsOf(s.idents, a), uuid);
      && (forall k :: k in keys <==> OwnsUuid(s, a, uuid, k))
      && (forall k | k in keys :: keys == {k})
      && (keys != {} ==> |IdentsOf(s.idents, a)| >= 1)
  {
    var mine := IdentsOf(s.idents, a);
    var keys := MatchingKeys(mine, uuid);
    forall k | k in keys ensures keys == {k} {
      forall j | j in keys ensures j == k {
        assert s.idents[j].uuid == s.idents[k].uuid;
      }
    }
    if keys != {} {
      var k :| k in keys;
      assert k in mine.Keys && |mine| == |mine.Keys|;
    }
  }

  ghost predicate SameRows(s: State, t: State)
  {
    t.idents == s.idents && t.locals == s.locals && t.accounts == s.accounts
  }

  /** Run alone, Unlink removes exactly the caller's row with that uuid when the caller has
      another credential. Otherwise no row changes: 409 when exactly one credential is counted,
      whatever the uuid, and 404 in the remaining cases. */
  lemma UnlinkAlone(cfg: Config, iso: Isolation, s: State, a: Id, uuid: nat, key: Key)
    requires Valid(s) && Gate(s, a, true)
    ensures var (t, o) := Commit(iso, Begin(s, a, true, UnlinkTx(uuid)).0, s.nextTx);
      && (CredentialCount(s, a) == 1 ==> o == LastIdentity && SameRows(s, t))
      && (CredentialCount(s, a) != 1 && OwnsUuid(s, a, uuid, key) ==> o == Done && SameRows(s.(idents := s.idents - {key}), t))
      && (CredentialCount(s, a) != 1 && (forall k :: !OwnsUuid(s, a, uuid, k)) ==> o == NotFound && SameRows(s, t))
  {
    var tx := Tx(a, UnlinkTx(uuid), IdentsOf(s.idents, a), a in s.locals, false);
    var b := Begin(s, a, true, UnlinkTx(uuid)).0;
    assert b == s.(txs := s.txs[s.nextTx := tx], nextTx := s.nextTx + 1);
    UnlinkDecision(s, a, uuid, tx);
    OwnedKeys(s, a, uuid);
    if Decide(tx).Remove? {
      NoConflictAlone(iso, b, tx);
    }
    CommitBegun(iso, b, s.nextTx, tx);
  }

  /** Run alone, RemovePassword removes exactly the caller's password row when an identity is
      left, refuses when none is, and does nothing when there is no password. */
  lemma RemovePasswordAlone(cfg: Config, iso: Isolation, s: State, a: Id)
    requires Valid(s) && Gate(s, a, true)
    ensures var (t, o) := Commit(iso, Begin(s, a, true, RemovePasswordTx).0, s.nextTx);
      if a !in s.locals then o == Done && SameRows(s, t)
      else if CredentialCount(s, a) == 1 then o == LastIdentity && SameRows(s, t)
      else o == Done && SameRows(s.(locals := s.locals - {a}), t)
  {
    var tx := Tx(a, RemovePasswordTx, IdentsOf(s.idents, a), a in s.locals, false);
    var b := Begin(s, a, true, RemovePasswordTx).0;
    assert b == s.(txs := s.txs[s.nextTx := tx], nextTx := s.nextTx + 1);
    RemovalDecision(s, a, tx);
    if Decide(tx).Remove? {
      NoConflictAlone(iso, b, tx);
    }
    CommitBegun(iso, b, s.nextTx, tx);
  }

  lemma CommitBegun(iso: Isolation, b: State, n: nat, tx: Tx)
    requires n in b.txs && b.txs[n] == tx
    requires Decide(tx).Remove? ==> !Conflict(iso, b, tx, Decide(tx))
    ensures var (t, o) := Commit(iso, b, n); var v := Decide(tx);
      && t.accounts == b.accounts
      && (v.Remove? ==> o == Done && t.idents == b.idents - v.keys && t.locals == if v.local then b.locals - {tx.account} else b.locals)
      && (!v.Remove? ==> t.idents == b.idents && t.locals == b.locals)
      && (v.Refuse? ==> o == LastIdentity) && (v.Missing? ==> o == NotFound) && (v.Nothing? ==> o == Done)
  {
    var v := Decide(tx);
    match v
    case Remove(keys, local) =>
      assert Commit(iso, b, n) == (RemoveRows(Close(b, n), tx.account, keys, local), Done);
    case _ =>
      assert Commit(iso, b, n).0 == Close(b, n);
  }

  lemma UnlinkDecision(s: State, a: Id, uuid: nat, tx: Tx)
    requires RowsValid(s) && tx == Tx(a, UnlinkTx(uuid), IdentsOf(s.idents, a), a in s.locals, false)
    ensures Decide(tx) ==
      if CredentialCount(s, a) == 1 then Refuse
      else if exists k :: OwnsUuid(s, a, uuid, k) then Remove(MatchingKeys(tx.idents, uuid), false)
      else Missing
  {
    OwnedKeys(s, a, uuid);
  }

  lemma RemovalDecision(s: State, a: Id, tx: Tx)
    requires tx == Tx(a, RemovePasswordTx, IdentsOf(s.idents, a), a in s.locals, false)
    ensures Decide(tx) == if a !in s.locals then Nothing else if CredentialCount(s, a) == 1 then Refuse else Remove({}, true)
  {
  }

  lemma NoConflictAlone(iso: Isolation, s: State, tx: Tx)
    requires tx.idents == IdentsOf(s.idents, tx.account) && tx.hasLocal == (tx.account in s.locals) && !tx.stale
    requires Decide(tx).Remove?
    ensures !Conflict(iso, s, tx, Decide(tx))
  {
  }

  lemma EmptyValid()
    ensures Valid(EMPTY)
  {
  }

  // ----- an identity keeps reaching its account -----

  /** The key is never unlinked along the run. */
  ghost predicate KeyStays(cfg: Config, iso: Isolation, s: State, steps: seq<Step>, key: Key)
    decreases |steps|
  {
    key in s.idents && (steps != [] ==> KeyStays(cfg, iso, Apply(cfg, iso, s, steps[0]).0, steps[1..], key))
  }

  lemma CommitKeepsBinding(iso: Isolation, s: State, t: nat, key: Key)
    requires TxsValid(s) && RowsValid(s) && key in s.idents
    ensures var u := Commit(iso, s, t).0;
      if key in u.idents then u.idents[key] == s.idents[key]
      else t in s.txs && s.txs[t].kind == UnlinkTx(s.idents[key].uuid) && s.txs[t].account == s.idents[key].account
  {
    CommitOutcomes(iso, s, t);
    if t in s.txs {
      var tx := s.txs[t];
      assert TxValid(s, tx);
      var v := Decide(tx);
      if v.Remove? && !Conflict(iso, s, tx, v) && key in v.keys {
        RemovalStaysInside(s, iso, tx);
        assert key in MatchingKeys(tx.idents, tx.kind.uuid);
        assert SameBinding(tx.idents[key], s.idents[key]);
      }
    }
  }

  lemma StepKeepsBinding(cfg: Config, iso: Isolation, s: State, step: Step, key: Key)
    requires Valid(s) && key in s.idents
    ensures var t := Apply(cfg, iso, s, step).0;
      if key in t.idents then SameBinding(s.idents[key], t.idents[key])
      else step.DoCommit? && step.tx in s.txs && s.txs[step.tx].kind == UnlinkTx(s.idents[key].uuid)
           && s.txs[step.tx].account == s.idents[key].account
  {
    if step.DoCommit? {
      CommitKeepsBinding(iso, s, step.tx, key);
    } else if Ordinary(step) {
      OrdinaryKeepsBinding(cfg, iso, s, step, key);
    } else {
      OpenAndAbortKeepRows(cfg, iso, s, step);
    }
  }

  lemma OrdinaryKeepsBinding(cfg: Config, iso: Isolation, s: State, step: Step, key: Key)
    requires Valid(s) && key in s.idents && Ordinary(step)
    ensures var t := Apply(cfg, iso, s, step).0; key in t.idents && SameBinding(s.idents[key], t.idents[key])
  {
    ApplyKeeps(cfg, iso, s, step);
  }

  lemma {:induction false} BindingStable(cfg: Config, iso: Isolation, s: State, steps: seq<Step>, key: Key)
    requires Valid(s) && KeyStays(cfg, iso, s, steps, key)
    ensures var t := Run(cfg, iso, s, steps); key in t.idents && SameBinding(s.idents[key], t.idents[key])
    decreases |steps|
  {
    if steps != [] {
      ApplyKeeps(cfg, iso, s, steps[0]);
      StepKeepsBinding(cfg, iso, s, steps[0], key);
      BindingStable(cfg, iso, Apply(cfg, iso, s, steps[0]).0, steps[1..], key);
    }
  }

  /** A linked identity, until it is unlinked, resolves to the account it was bound to, whatever
      email the provider now sends. This holds exactly when its issuer does not take the
      local-issuer path, or that path happens to name the same account. */
  lemma IdentityReachesItsAccount(cfg: Config, iso: Isolation, s: State, steps: seq<Step>, p: Principal, now: nat)
    requires Valid(s) && KeyStays(cfg, iso, s, steps, p.Key())
    requires p.issuer != "" && p.subject != ""
    ensures Resolve(cfg, Run(cfg, iso, s, steps), p, now).1 == Resolved(s.idents[p.Key()].account)
       <==> (!LocalPath(cfg, p) || cfg.parseUuid(p.subject) == Some(s.idents[p.Key()].account))
  {
    RunKeeps(cfg, iso, s, steps);
    BindingStable(cfg, iso, s, steps, p.Key());
  }

  /** The exception is reachable: an identity of the local issuer, linked by a session, whose subject
      is no account's UUID, is refused at its next sign-in. */
  lemma LocalIssuerLinkIsLost(cfg: Config, iso: Isolation, q: Principal, p: Principal, now: nat, later: nat)
    requires q.issuer != "" && q.subject != "" && q.emailVerified && !LocalPath(cfg, q)
    requires LocalPath(cfg, p) && cfg.parseUuid(p.subject) == None
    ensures var s := Run(cfg, iso, EMPTY, [DoResolve(q, now), DoStartLink(0, true, true), DoLinkCallback(0, p, now)]);
      && p.Key() in s.idents && s.idents[p.Key()].account == 0
      && Resolve(cfg, s, p, later) == (s, BadSubject)
  {
    var steps := [DoResolve(q, now), DoStartLink(0, true, true), DoLinkCallback(0, p, now)];
    FirstSignIn(cfg, q, now);
    var s1 := Apply(cfg, iso, EMPTY, steps[0]).0;
    var s2 := Apply(cfg, iso, s1, steps[1]).0;
    var s3 := Apply(cfg, iso, s2, steps[2]).0;
    assert s2 == s1.(links := {0});
    assert p.Key() !in s2.idents;
    assert steps[1..][1..] == steps[2..] && steps[2..][1..] == [];
    assert Run(cfg, iso, EMPTY, steps) == Run(cfg, iso, s1, steps[1..]) == Run(cfg, iso, s2, steps[2..]) == Run(cfg, iso, s3, []);
  }

  /** A successful sign-in leaves its identity bound to the account it returned. */
  lemma ResolveBinds(cfg: Config, s: State, p: Principal, now: nat)
    requires Valid(s) && p.issuer != "" && p.subject != "" && !LocalPath(cfg, p)
    requires Resolve(cfg, s, p, now).1.Resolved?
    ensures var (t, o) := Resolve(cfg, s, p, now);
      p.Key() in t.idents && t.idents[p.Key()].account == o.account && o.account in t.accounts
  {
    if p.Key() in s.idents {
      assert RowsValid(s);
    } else if p.email != "" && FindByEmail(cfg, s, p.email).Some? {
      JoinBinds(s, p, FindByEmail(cfg, s, p.email).value);
    } else {
      CreationBinds(s, p);
    }
  }

  lemma JoinBinds(s: State, p: Principal, a: Id)
    requires a in s.accounts && ResolveByEmail(s, p, a).1.Resolved?
    ensures var (t, o) := ResolveByEmail(s, p, a);
      o == Resolved(a) && p.Key() in t.idents && t.idents[p.Key()].account == a && a in t.accounts
  {
  }

  lemma CreationBinds(s: State, p: Principal)
    requires p.issuer != "" && p.subject != "" && AutoCreate(s, p).1.Resolved?
    ensures var (t, o) := AutoCreate(s, p);
      p.Key() in t.idents && t.idents[p.Key()].account == o.account && o.account in t.accounts
  {
  }

  /** Signing in again with the same identity, under any email, reaches the same account and
      changes nothing but the last-seen time. */
  lemma ResolveAgain(cfg: Config, s: State, p: Principal, now: nat, q: Principal, later: nat)
    requires Valid(s) && p.issuer != "" && p.subject != "" && q.Key() == p.Key()
    requires Resolve(cfg, s, p, now).1.Resolved?
    ensures var (t, o) := Resolve(cfg, s, p, now);
      Resolve(cfg, t, q, later) == (if LocalPath(cfg, p) || p.Key() !in t.idents then t else Touch(t, p.Key(), later), o)
    ensures !LocalPath(cfg, p) ==> p.Key() in Resolve(cfg, s, p, now).0.idents
  {
    if !LocalPath(cfg, p) {
      ResolveBinds(cfg, s, p, now);
    }
  }

  /** A new identity joins an existing account by email only when the account was verified or the
      provider vouches for the email, and the account is verified afterwards. */
  lemma ResolveJoinsOnlyProven(cfg: Config, s: State, p: Principal, now: nat)
    requires Valid(s) && !LocalPath(cfg, p) && p.Key() !in s.idents
    requires Resolve(cfg, s, p, now).1.Resolved? && Resolve(cfg, s, p, now).1.account in s.accounts
    ensures var (t, o) := Resolve(cfg, s, p, now);
      && cfg.lower(s.accounts[o.account].email) == cfg.lower(p.email)
      && (s.accounts[o.account].verified || p.emailVerified)
      && t.accounts[o.account].verified
  {
  }
}
