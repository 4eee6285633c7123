/** The credential tables as the handlers change them, one method a request or a
    transaction step, each proved against the state machine and keeping its invariant. */
module AccountDb {
  import opened Text
  import A = Accounts
  import Safety = AccountSafety

  class Store {
    const cfg: A.Config
    var accounts: map<A.Id, A.Account>
    var locals: map<A.Id, string>
    var idents: map<A.Key, A.Identity>
    var links: set<A.Id>
    var txs: map<nat, A.Tx>
    var updates: map<nat, A.Pending>
    var nextAccount: A.Id
    var nextUuid: nat
    var nextTx: nat
    var nextUpdate: nat

    ghost function State(): A.State
      reads this
    {
      A.State(accounts, locals, idents, links, txs, updates, nextAccount, nextUuid, nextTx, nextUpdate)
    }

    ghost predicate Valid()
      reads this
    {
      Safety.Valid(State())
    }

    constructor (cfg: A.Config)
      ensures this.cfg == cfg && State() == A.EMPTY && Valid()
    {
      this.cfg := cfg;
      accounts, locals, idents, links, txs, updates := map[], map[], map[], {}, map[], map[];
      nextAccount, nextUuid, nextTx, nextUpdate := 0, 0, 0, 0;
    }

    /** RequireVerifiedEmail and requireStepUp, in front of every identity endpoint. */
    predicate Passes(a: A.Id, stepUpOk: bool)
      reads this`accounts
    {
      a in accounts && accounts[a].verified && stepUpOk
    }

    // ----- queries -----

    method FindByEmail(email: string) returns (r: Option<A.Id>)
      ensures r == A.FindByEmail(cfg, State(), email)
    {
      var hits := set a | a in accounts && cfg.lower(accounts[a].email) == cfg.lower(email);
      if hits == {} {
        return None;
      }
      var first := cfg.pick(hits);
      return Some(if first in hits then first else A.Least(hits));
    }

    /** The unique constraint on email. */
    method EmailFree(email: string, a: A.Id) returns (ok: bool)
      ensures ok <==> A.EmailFreeFor(State(), email, a)
    {
      var holders := set b | b in accounts && accounts[b].email == email;
      assert forall b | b in accounts && accounts[b].email == email :: b in holders;
      return holders <= {a};
    }

    /** The CreateUserAccount insert; None is the violation of the unique email. */
    method CreateUserAccount(email: string, verified: bool) returns (a: Option<A.Id>)
      requires Valid()
      modifies this`accounts, this`nextAccount
      ensures Valid()
      ensures if A.Occupied(old(State()), email) then a == None && State() == old(State())
              else a == Some(old(nextAccount)) && State() == A.NewAccount(old(State()), email, verified)
    {
      var ok := EmailFree(email, nextAccount);
      if !ok {
        return None;
      }
      Safety.NewAccountKeeps(State(), email, verified);
      a := Some(nextAccount);
      accounts := accounts[nextAccount := A.Account(email, verified)];
      nextAccount := nextAccount + 1;
    }

    method UpsertAuthLocal(a: A.Id, hash: string)
      requires Valid() && a in accounts
      modifies this`locals
      ensures Valid() && State() == A.PutLocal(old(State()), a, hash)
    {
      Safety.PutLocalKeeps(State(), a, hash);
      locals := locals[a := hash];
    }

    // ----- sign-up, administration and passwords -----

    method Register(email: string, password: string, given: string, family: string, salt: string) returns (o: A.Outcome)
      requires Valid()
      modifies this
      ensures Valid() && (State(), o) == A.Register(cfg, old(State()), email, password, given, family, salt)
    {
      var e := cfg.normalise(email);
      if e == "" || |password| < 12 {
        return A.BadRequest;
      }
      if GoTrim(given) == "" || GoTrim(family) == "" {
        return A.BadRequest;
      }
      var a := CreateUserAccount(e, false);
      if a.None? {
        return A.EmailTaken;
      }
      UpsertAuthLocal(a.value, cfg.hash(password, salt));
      return A.Done;
    }

    method AdminCreate(email: string, password: Option<string>, given: string, family: string, authorized: bool, salt: string)
      returns (o: A.Outcome)
      requires Valid()
      modifies this
      ensures Valid() && (State(), o) == A.AdminCreate(cfg, old(State()), email, password, given, family, authorized, salt)
    {
      var e := cfg.normalise(email);
      if e == "" || GoTrim(given) == "" || GoTrim(family) == "" {
        return A.BadRequest;
      }
      if password.Some? && |password.value| < 12 {
        return A.BadRequest;
      }
      if !authorized {
        return A.Denied;
      }
      var a := CreateUserAccount(e, false);
      if a.None? {
        return A.EmailTaken;
      }
      if password.Some? {
        UpsertAuthLocal(a.value, cfg.hash(password.value, salt));
      }
      return A.Done;
    }

    /** Update up to its transaction: the account is read. */
    method UpdateRead(a: A.Id, email: Option<string>, authorized: bool) returns (o: A.Outcome)
      requires Valid()
      modifies this`updates, this`nextUpdate
      ensures Valid() && (State(), o) == A.UpdateRead(cfg, old(State()), a, email, authorized)
    {
      Safety.UpdateReadKeeps(cfg, State(), a, email, authorized);
      if a !in accounts {
        return A.NotFound;
      }
      if !authorized {
        return A.Denied;
      }
      var e := accounts[a].email;
      if email.Some? {
        e := cfg.normalise(email.value);
      }
      o := A.Updating(nextUpdate);
      updates := updates[nextUpdate := A.Pending(a, e, accounts[a].verified)];
      nextUpdate := nextUpdate + 1;
    }

    /** Its transaction, which writes the mark read before. */
    method UpdateWrite(n: nat) returns (o: A.Outcome)
      requires Valid()
      modifies this`accounts, this`updates
      ensures Valid() && (State(), o) == A.UpdateWrite(old(State()), n)
    {
      Safety.UpdateWriteKeeps(State(), n);
      if n !in updates {
        return A.Denied;
      }
      var q := updates[n];
      var ok := EmailFree(q.email, q.account);
      updates := updates - {n};
      if !ok {
        return A.WriteFailed;
      }
      accounts := accounts[q.account := A.Account(q.email, q.verified)];
      return A.Done;
    }

    /** UpdateUserAccount, as EmailCodeVerify ends with it. */
    method MarkVerified(a: A.Id, email: string) returns (o: A.Outcome)
      requires Valid()
      modifies this`accounts
      ensures Valid() && (State(), o) == A.MarkVerified(old(State()), a, email)
    {
      Safety.MarkVerifiedKeeps(State(), a, email);
      if a !in accounts {
        return A.Done;
      }
      var ok := EmailFree(email, a);
      if !ok {
        return A.WriteFailed;
      }
      accounts := accounts[a := A.Account(email, true)];
      return A.Done;
    }

    /** UpsertAuthLocal, as PasswordResetConfirm ends with it. */
    method ResetPassword(a: A.Id, password: string, salt: string) returns (o: A.Outcome)
      requires Valid()
      modifies this`locals
      ensures Valid() && (State(), o) == A.Reset(cfg, old(State()), a, password, salt)
    {
      if a !in accounts {
        return A.WriteFailed;
      }
      UpsertAuthLocal(a, cfg.hash(password, salt));
      return A.Done;
    }

    method SetPassword(a: A.Id, stepUpOk: bool, password: string, current: string, salt: string) returns (o: A.Outcome)
      requires Valid()
      modifies this`locals
      ensures Valid() && (State(), o) == A.SetPassword(cfg, old(State()), a, stepUpOk, password, current, salt)
    {
      if !Passes(a, stepUpOk) {
        return A.Denied;
      }
      if |password| < 12 {
        return A.BadRequest;
      }
      if a in locals {
        if current == "" {
          return A.Denied;
        }
        if !cfg.verify(current, locals[a]) {
          return A.Denied;
        }
      }
      UpsertAuthLocal(a, cfg.hash(password, salt));
      return A.Done;
    }

    // ----- OIDC sign-in -----

    /** The InsertOIDCIdentity insert; false is the violation of the unique (issuer, subject). */
    method InsertIdentity(key: A.Key, a: A.Id) returns (ok: bool)
      modifies this`idents, this`nextUuid
      ensures ok == A.Insert(old(State()), key, a).Some?
      ensures State() == if ok then A.Insert(old(State()), key, a).value else old(State())
    {
      ok := key !in idents;
      if ok {
        idents := idents[key := A.Identity(nextUuid, a, None)];
        nextUuid := nextUuid + 1;
      }
    }

    method TouchLastSeen(key: A.Key, now: nat)
      requires key in idents
      modifies this`idents
      ensures State() == A.Touch(old(State()), key, now)
    {
      idents := idents[key := idents[key].(lastSeen := Some(now))];
    }

    /** Branch 3: one transaction sets the verification mark and inserts the row; a failed
        insert rolls the mark back. */
    method VerifyAndLink(a: A.Id, key: A.Key) returns (ok: bool)
      requires a in accounts
      modifies this
      ensures var t := A.SetAccount(old(State()), a, old(accounts[a]).(verified := true));
        && ok == (A.Link(t, key, a).1 == A.Resolved(a))
        && State() == if ok then A.Link(t, key, a).0 else old(State())
    {
      var before := accounts;
      accounts := accounts[a := accounts[a].(verified := true)];
      ok := InsertIdentity(key, a);
      if !ok {
        accounts := before;
      }
    }

    /** Branch 5: one transaction creates the account and its identity. */
    method AutoCreate(p: A.Principal) returns (o: A.Outcome)
      requires Valid()
      modifies this`accounts, this`nextAccount, this`idents, this`nextUuid
      ensures Valid() && (State(), o) == A.AutoCreate(old(State()), p)
    {
      hide Safety.Valid;
      ghost var start := State();
      var before, beforeNext := accounts, nextAccount;
      var a := CreateUserAccount(p.email, p.emailVerified);
      if a.None? {
        return A.WriteFailed;
      }
      if p.issuer == "" || p.subject == "" {
        return A.Resolved(a.value);
      }
      var ok := InsertIdentity(p.Key(), a.value);
      if !ok {
        accounts, nextAccount := before, beforeNext;
        assert State() == start;
        return A.WriteFailed;
      }
      Safety.AutoCreateKeeps(start, p);
      return A.Resolved(a.value);
    }

    method Resolve(p: A.Principal, now: nat) returns (o: A.Outcome)
      requires Valid()
      modifies this
      ensures Valid() && (State(), o) == A.Resolve(cfg, old(State()), p, now)
    {
      Safety.ResolveKeeps(cfg, State(), p, now);
      if cfg.localIssuer != "" && p.issuer == cfg.localIssuer {
        var parsed := cfg.parseUuid(p.subject);
        if parsed.None? {
          return A.BadSubject;
        }
        return if parsed.value in accounts then A.Resolved(parsed.value) else A.UserGone;
      }
      if p.issuer != "" && p.subject != "" && p.Key() in idents {
        var a := idents[p.Key()].account;
        TouchLastSeen(p.Key(), now);
        return if a in accounts then A.Resolved(a) else A.UserGone;
      }
      if p.email != "" {
        var hit := FindByEmail(p.email);
        if hit.Some? {
          o := ResolveExisting(p, hit.value);
          return;
        }
      }
      o := AutoCreate(p);
    }

    method ResolveExisting(p: A.Principal, a: A.Id) returns (o: A.Outcome)
      requires Valid() && a in accounts
      modifies this
      ensures Valid() && (State(), o) == A.ResolveByEmail(old(State()), p, a)
    {
      Safety.ResolveByEmailKeeps(State(), p, a);
      var linked: bool;
      if accounts[a].verified {
        linked := InsertIdentity(p.Key(), a);
      } else if p.emailVerified {
        linked := VerifyAndLink(a, p.Key());
      } else {
        return A.UnverifiedTakeover;
      }
      return if linked then A.Resolved(a) else A.WriteFailed;
    }

    method StartLink(a: A.Id, stepUpOk: bool, providerOk: bool) returns (o: A.Outcome)
      requires Valid()
      modifies this`links
      ensures Valid() && (State(), o) == A.StartLink(old(State()), a, stepUpOk, providerOk)
    {
      Safety.StartLinkKeeps(State(), a, stepUpOk, providerOk);
      if !Passes(a, stepUpOk) {
        return A.Denied;
      }
      if !providerOk {
        return A.NotFound;
      }
      links := links + {a};
      return A.Done;
    }

    method HandleLinkMode(a: A.Id, p: A.Principal, now: nat) returns (o: A.Outcome)
      requires Valid()
      modifies this`idents, this`nextUuid
      ensures Valid() && (State(), o) == A.LinkCallback(old(State()), a, p, now)
    {
      Safety.LinkCallbackKeeps(State(), a, p, now);
      if a !in links || a !in accounts {
        return A.Denied;
      }
      if p.Key() in idents {
        if idents[p.Key()].account == a {
          TouchLastSeen(p.Key(), now);
          return A.Done;
        }
        return A.IdentityInUse;
      }
      var ok := InsertIdentity(p.Key(), a);
      return A.Done;
    }

    // ----- the deleters -----

    method Begin(a: A.Id, stepUpOk: bool, kind: A.TxKind) returns (o: A.Outcome)
      requires Valid()
      modifies this`txs, this`nextTx
      ensures Valid() && (State(), o) == A.Begin(old(State()), a, stepUpOk, kind)
    {
      Safety.BeginKeeps(State(), a, stepUpOk, kind);
      if !Passes(a, stepUpOk) {
        return A.Denied;
      }
      o := A.Began(nextTx);
      txs := txs[nextTx := A.Tx(a, kind, A.IdentsOf(idents, a), a in locals, false)];
      nextTx := nextTx + 1;
    }

    /** A serializable commit, which never takes an account's last credential. */
    method Commit(t: nat) returns (o: A.Outcome)
      requires Valid()
      modifies this`txs, this`idents, this`locals
      ensures Valid() && (State(), o) == A.Commit(A.Serializable, old(State()), t)
      ensures forall a | Safety.HasCredential(old(State()), a) :: Safety.HasCredential(State(), a)
    {
      ghost var before := State();
      o := FinishTransaction(t);
      Safety.CommitKeeps(A.Serializable, before, t);
      forall a | Safety.HasCredential(before, a) ensures Safety.HasCredential(State(), a) {
        Safety.SerializableCommitKeepsCredential(before, t, a);
      }
    }

    /** The body of the RunSerializable callback and its commit. */
    method FinishTransaction(t: nat) returns (o: A.Outcome)
      modifies this`txs, this`idents, this`locals
      ensures (State(), o) == A.Commit(A.Serializable, old(State()), t)
    {
      if t !in txs {
        return A.Aborted;
      }
      var tx := txs[t];
      txs := txs - {t};
      var oidcCount, hasLocal := |tx.idents|, tx.hasLocal;
      match tx.kind
      case UnlinkTx(uuid) =>
        var remaining := oidcCount - 1;
        var hasLocalInt := if hasLocal then 1 else 0;
        if remaining + hasLocalInt == 0 {
          return A.LastIdentity;
        }
        var rows := A.MatchingKeys(tx.idents, uuid);
        if rows == {} {
          return A.NotFound;
        }
        if tx.stale {
          return A.Aborted;
        }
        idents := idents - rows;
        txs := A.MarkStale(txs, tx.account);
        return A.Done;
      case RemovePasswordTx =>
        if !hasLocal {
          return A.Done;
        }
        if oidcCount == 0 {
          return A.LastIdentity;
        }
        if tx.stale {
          return A.Aborted;
        }
        ghost var none: set<A.Key> := {};
        assert idents - none == idents;
        locals := locals - {tx.account};
        txs := A.MarkStale(txs, tx.account);
        return A.Done;
    }
  }
}
