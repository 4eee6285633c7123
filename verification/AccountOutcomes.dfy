/** What every request on the account tables answers and writes, in every state. */
module AccountOutcomes {
  import opened Text
  import opened Accounts
  import opened AccountSafety
  import opened AccountFrames

  // ----- signing up -----

  /** An email that normalises to something, and two names that are not blank. */
  ghost predicate WellFormed(cfg: Config, email: string, given: string, family: string)
  {
    cfg.normalise(email) != "" && GoTrim(given) != "" && GoTrim(family) != ""
  }

  /** t has one account more than s: this unverified one, with this password row if any. */
  ghost predicate SignedUp(s: State, t: State, email: string, stored: Option<string>)
  {
    && t.accounts == s.accounts[s.nextAccount := Account(email, false)] && t.nextAccount == s.nextAccount + 1
    && t.locals == (if stored.Some? then s.locals[s.nextAccount := stored.value] else s.locals)
    && t == s.(accounts := t.accounts, nextAccount := t.nextAccount, locals := t.locals)
  }

  /** A sign-up is accepted exactly with a well-formed body, a password of twelve bytes or more and an email no
      account has to the letter; it then adds one unverified account with the hash of that password. */
  lemma RegisterExact(cfg: Config, s: State, email: string, password: string, given: string, family: string, salt: string)
    ensures var (t, o) := Register(cfg, s, email, password, given, family, salt);
      var ok := WellFormed(cfg, email, given, family) && |password| >= 12;
      var taken := exists b | b in s.accounts :: s.accounts[b].email == cfg.normalise(email);
      && o == (if !ok then BadRequest else if taken then EmailTaken else Done)
      && (o == Done ==> SignedUp(s, t, cfg.normalise(email), Some(cfg.hash(password, salt))))
      && (o != Done ==> t == s)
  {
  }

  /** An administrator's creation: the same with an optional password, and only for a permitted caller, which is
      asked after the body is checked. */
  lemma CreateExact(cfg: Config, s: State, email: string, password: Option<string>, given: string, family: string, authorized: bool, salt: string)
    ensures var (t, o) := AdminCreate(cfg, s, email, password, given, family, authorized, salt);
      var ok := WellFormed(cfg, email, given, family) && (password.Some? ==> |password.value| >= 12);
      var taken := exists b | b in s.accounts :: s.accounts[b].email == cfg.normalise(email);
      && o == (if !ok then BadRequest else if !authorized then Denied else if taken then EmailTaken else Done)
      && (o == Done ==> SignedUp(s, t, cfg.normalise(email), if password.Some? then Some(cfg.hash(password.value, salt)) else None))
      && (o != Done ==> t == s)
  {
  }

  // ----- administration and passwords -----

  /** An undisturbed update: a permitted caller gives a known account the normalised email, if the constraint lets
      it have that, and nothing else changes; without an email nothing changes at all. */
  lemma UpdateAlone(cfg: Config, s: State, a: Id, email: Option<string>, authorized: bool)
    requires Valid(s)
    ensures var (u, o) := UpdateRead(cfg, s, a, email, authorized);
      && (a !in s.accounts ==> o == NotFound) && (a in s.accounts && !authorized ==> o == Denied)
      && (a !in s.accounts || !authorized ==> u == s)
      && (a in s.accounts && authorized ==>
            && o == Updating(s.nextUpdate)
            && var (t, w) := UpdateWrite(u, s.nextUpdate);
               var e := if email.Some? then cfg.normalise(email.value) else s.accounts[a].email;
               var free := forall b | b in s.accounts && b != a :: s.accounts[b].email != e;
               && w == (if free then Done else WriteFailed)
               && t.accounts == (if free then s.accounts[a := Account(e, s.accounts[a].verified)] else s.accounts)
               && (email.None? ==> t.accounts == s.accounts)
               && t == s.(accounts := t.accounts, nextUpdate := s.nextUpdate + 1))
  {
    hide Valid, UpdateWrite;
    if a in s.accounts && authorized {
      var u := UpdateRead(cfg, s, a, email, authorized).0;
      NoUpdateYet(s);
      assert u.updates - {s.nextUpdate} == s.updates;
      PendingWritten(u, s.nextUpdate);
      if email.None? {
        assert s.accounts[a := s.accounts[a]] == s.accounts;
      }
    }
  }

  lemma NoUpdateYet(s: State)
    requires Valid(s)
    ensures s.nextUpdate !in s.updates
  {
  }

  /** A pending update is written whatever the account holds now, or refused by the constraint; it is over either way. */
  lemma PendingWritten(s: State, n: nat)
    requires n in s.updates && s.updates[n].account in s.accounts
    ensures var q := s.updates[n]; var (t, o) := UpdateWrite(s, n);
      var free := forall b | b in s.accounts && b != q.account :: s.accounts[b].email != q.email;
      && o == (if free then Done else WriteFailed)
      && t == s.(updates := s.updates - {n}, accounts := if free then s.accounts[q.account := Account(q.email, q.verified)] else s.accounts)
  {
  }

  /** SetPassword past the gate: refused as too short before anything is compared; over a stored password it
      succeeds exactly with one that the stored hash accepts, and then that hash alone is replaced. */
  lemma SetPasswordExact(cfg: Config, s: State, a: Id, stepUpOk: bool, password: string, current: string, salt: string)
    ensures var (t, o) := SetPassword(cfg, s, a, stepUpOk, password, current, salt);
      var past := IsVerified(s, a) && stepUpOk;
      var knows := a in s.locals ==> current != "" && cfg.verify(current, s.locals[a]);
      && o == (if !past then Denied else if |password| < 12 then BadRequest else if knows then Done else Denied)
      && t == if o == Done then s.(locals := s.locals[a := cfg.hash(password, salt)]) else s
  {
  }

  // ----- signing in -----

  /** t is s with these two rows written: the account's, if it is given, and the identity's. */
  ghost predicate Wrote(s: State, t: State, a: Id, account: Account, key: Key, identity: Identity)
  {
    && t.accounts == s.accounts[a := account] && t.idents == s.idents[key := identity]
    && t.locals == s.locals && t.links == s.links && t.txs == s.txs && t.updates == s.updates
  }

  /** A principal of another issuer than the local one, or of any where there is no local one. */
  ghost predicate Foreign(cfg: Config, p: Principal)
  {
    cfg.localIssuer == "" || p.issuer != cfg.localIssuer
  }

  /** A principal whose issuer and subject name an identity row. */
  ghost predicate Known(s: State, p: Principal)
  {
    p.issuer != "" && p.subject != "" && p.Key() in s.idents
  }

  /** The local issuer's tokens and known identities: the former reach the account of the UUID they name and
      change nothing, the latter the account they are bound to and change the last-seen time. */
  lemma KnownExact(cfg: Config, s: State, p: Principal, now: nat)
    requires Valid(s)
    ensures !Foreign(cfg, p) ==>
      Resolve(cfg, s, p, now) == (s, match cfg.parseUuid(p.subject)
                                     case None => BadSubject
                                     case Some(a) => if a in s.accounts then Resolved(a) else UserGone)
    ensures Foreign(cfg, p) && Known(s, p) ==>
      var i := s.idents[p.Key()];
      Resolve(cfg, s, p, now) == (s.(idents := s.idents[p.Key() := Identity(i.uuid, i.account, Some(now))]), Resolved(i.account))
  {
  }

  /** A new identity under an account's email joins that account exactly when the account is verified or the
      provider vouches, unless its row is taken; the account is verified from then on, and keeps its email.
      Otherwise nothing changes and an unproven claim is refused as a takeover. */
  lemma JoinExact(cfg: Config, s: State, p: Principal, now: nat, a: Id)
    requires Foreign(cfg, p) && !Known(s, p) && p.email != "" && FindByEmail(cfg, s, p.email) == Some(a)
    ensures var (t, o) := Resolve(cfg, s, p, now);
      var proven := s.accounts[a].verified || p.emailVerified;
      && o == (if !proven then UnverifiedTakeover else if p.Key() in s.idents then WriteFailed else Resolved(a))
      && (o == Resolved(a) ==> Wrote(s, t, a, Account(s.accounts[a].email, true), p.Key(), Identity(s.nextUuid, a, None)))
      && (o != Resolved(a) ==> t == s)
  {
    if s.accounts[a].verified {
      assert s.accounts[a := s.accounts[a]] == s.accounts;
    }
  }

  /** A new identity under an email no account has creates its account, verified exactly if the provider
      vouches, and its row, if it has both its parts. */
  lemma FreshExact(cfg: Config, s: State, p: Principal, now: nat)
    requires Foreign(cfg, p) && !Known(s, p) && (p.email == "" || FindByEmail(cfg, s, p.email).None?)
    ensures var (t, o) := Resolve(cfg, s, p, now); var a := s.nextAccount;
      var taken := exists b | b in s.accounts :: s.accounts[b].email == p.email;
      && o == (if taken then WriteFailed else Resolved(a))
      && (o == Resolved(a) && p.issuer != "" && p.subject != "" ==>
            Wrote(s, t, a, Account(p.email, p.emailVerified), p.Key(), Identity(s.nextUuid, a, None)))
      && (o == Resolved(a) && (p.issuer == "" || p.subject == "") ==>
            t == s.(accounts := s.accounts[a := Account(p.email, p.emailVerified)], nextAccount := a + 1))
      && (o == WriteFailed ==> t == s)
  {
  }

  /** A callback in link mode: with a minted token a new identity is bound to its account, an own one touched,
      and another account's refused; nothing else changes. Tokens are minted past the gate for a usable provider. */
  lemma LinkExact(cfg: Config, s: State, a: Id, p: Principal, now: nat, stepUpOk: bool, providerOk: bool)
    ensures var (t, o) := LinkCallback(s, a, p, now); var named := a in s.links && a in s.accounts;
      var taken := p.Key() in s.idents && s.idents[p.Key()].account != a;
      && o == (if !named then Denied else if taken then IdentityInUse else Done)
      && (o != Done ==> t == s)
      && (o == Done ==>
            && t.idents == s.idents[p.Key() := if p.Key() in s.idents then Identity(s.idents[p.Key()].uuid, a, Some(now)) else Identity(s.nextUuid, a, None)]
            && t == s.(idents := t.idents, nextUuid := t.nextUuid))
    ensures var (t, o) := StartLink(s, a, stepUpOk, providerOk);
      && o == (if !(IsVerified(s, a) && stepUpOk) then Denied else if !providerOk then NotFound else Done)
      && t == if o == Done then s.(links := s.links + {a}) else s
  {
  }

  // ----- the deleters -----

  /** A row the transaction would delete is gone, or is another one by now. */
  ghost predicate RowGone(s: State, tx: Tx)
  {
    match tx.kind
    case UnlinkTx(uuid) =>
      exists k | k in tx.idents && tx.idents[k].uuid == uuid :: !(k in s.idents && s.idents[k].uuid == uuid && s.idents[k].account == tx.account)
    case RemovePasswordTx => tx.account !in s.locals
  }

  /** An abort ends its own transaction and changes no row. */
  lemma AbortOnlyCloses(cfg: Config, iso: Isolation, s: State, n: nat)
    ensures Apply(cfg, iso, s, DoAbort(n)) == (s.(txs := s.txs - {n}), Aborted)
  {
  }

  /** A removal that the snapshot allows aborts exactly when another one has touched its account since, under
      serializable isolation, or has taken its own row, under snapshot isolation. Every other open transaction
      stays, and one of the same account is marked exactly by a removal that commits. */
  lemma CommitExact(iso: Isolation, s: State, n: nat, m: nat)
    requires n in s.txs && TxValid(s, s.txs[n]) && m != n
    ensures var tx := s.txs[n]; var (t, o) := Commit(iso, s, n); var removes := Decide(tx).Remove?;
      && (o == Aborted <==> removes && if iso.Serializable? then tx.stale else RowGone(s, tx))
      && n !in t.txs && (m in t.txs <==> m in s.txs)
      && (m in s.txs ==> t.txs[m] == if removes && o == Done && s.txs[m].account == tx.account then s.txs[m].(stale := true) else s.txs[m])
  {
    var tx := s.txs[n];
    CommitOutcomes(iso, s, n);
    match tx.kind
    case UnlinkTx(uuid) =>
      forall k | k in MatchingKeys(tx.idents, uuid) ensures k in tx.idents && tx.idents[k].uuid == uuid && tx.idents[k].account == tx.account {
      }
      forall k | k in tx.idents && tx.idents[k].uuid == uuid ensures k in MatchingKeys(tx.idents, uuid) {
      }
    case RemovePasswordTx =>
  }
}
