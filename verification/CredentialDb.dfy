/** The credential handlers of one process as they run: the account tables and code rows all processes
    share, the process's consumed set, and the rows and requests of their own, each method proved
    against the whole credential system. */
module CredentialDb {
  import opened Text
  import T = Tokens
  import A = Accounts
  import Db = AccountDb
  import S = StepUp
  import G = StepUpGate
  import F = OAuthFlow
  import opened Credentials

  class Handlers {
    const u: Setup
    const store: Db.Store
    const gate: G.Gate
    var checks: map<nat, string>
    var resets: map<string, ResetRow>
    var confirms: map<nat, ResetConfirm>
    var nextConfirm: nat
    var minted: map<string, Flow>
    ghost var log: seq<Change>

    ghost function State(): Credentials.State
      reads this, store, gate
    {
      Credentials.State(store.State(), gate.History(), checks, resets, confirms, nextConfirm, minted, log)
    }

    ghost predicate Valid()
      reads this, store, gate
    {
      store.cfg == u.cfg && gate.required == u.required && store.Valid() && gate.Valid()
    }

    constructor (u: Setup, process: S.Process)
      ensures this.u == u && gate.process == process && Valid() && State() == INITIAL && fresh(store) && fresh(gate)
    {
      this.u := u;
      store := new Db.Store(u.cfg);
      gate := new G.Gate(u.required, process);
      checks, resets, confirms, nextConfirm, minted := map[], map[], map[], 0, map[];
      log := [];
    }

    /** The process starts anew over the same tables. */
    method Restart()
      requires Valid()
      modifies this`confirms, gate`consumed, gate`sets, gate`requests, gate`log
      ensures Valid() && State() == Apply(u, old(State()), Codes(S.DoRestart(gate.process))).0
    {
      hide S.Restart, EmailSend, EmailBegin, EmailEnd, ResetRequest, ResetBegin, ResetEnd, Credentials.Callback,
        ResolveStep;
      gate.Restart();
      confirms := ConfirmsElsewhere(confirms, gate.process);
    }

    // ----- email codes -----

    method EmailCodeRequest(email: string, purpose: string, secret: S.Secret) returns (o: A.Outcome)
      requires Valid()
      modifies gate`codes, gate`nextCode
      ensures Valid() && (State(), o) == EmailSend(u, old(State()), email, purpose, secret)
    {
      var a := store.FindByEmail(u.cfg.normalise(email));
      if a.Some? {
        gate.SendEmailCode(a.value, store.accounts[a.value].email, purpose, secret);
      }
      return A.Done;
    }

    method StepUpRequest(a: A.Id, secret: S.Secret) returns (o: A.Outcome)
      requires Valid()
      modifies gate`codes, gate`nextCode
      ensures Valid() && (State(), o) == StepUpSend(old(State()), a, secret)
    {
      if a !in store.accounts || !store.accounts[a].verified {
        return A.Denied;
      }
      gate.SendStepUpCode(a, store.accounts[a].email, secret);
      return A.Done;
    }

    method EmailCodeBegin(email: string, purpose: string, code: string) returns (o: A.Outcome)
      requires Valid()
      modifies this`checks, gate`requests, gate`nextRequest
      ensures Valid() && (State(), o) == EmailBegin(u, old(State()), gate.process, email, purpose, code)
    {
      var e := u.cfg.normalise(email);
      if e == "" || code == "" {
        return A.BadRequest;
      }
      var a := store.FindByEmail(e);
      if a.None? {
        return A.Denied;
      }
      var r := gate.FindCode(a.value, S.PurposeOf(purpose), code, false);
      if r.None? {
        return A.Denied;
      }
      checks := checks[r.value := store.accounts[a.value].email];
      return A.Done;
    }

    method EmailCodeEnd(r: nat, consumeOk: bool) returns (o: A.Outcome)
      requires Valid()
      modifies gate`codes, gate`requests, gate`nextJti, gate`issued, gate`log, store`accounts
      ensures Valid() && (State(), o) == EmailEnd(u, old(State()), r, consumeOk)
    {
      if r !in gate.requests || gate.requests[r].issue || gate.requests[r].code !in gate.codes || r !in checks {
        return A.Denied;
      }
      var q := gate.requests[r];
      var login := gate.codes[q.code].purpose == "login";
      var jti := gate.Finish(r, consumeOk);
      if login {
        return A.Done;
      }
      o := store.MarkVerified(q.account, checks[r]);
    }

    // ----- password reset -----

    method PasswordResetRequest(email: string, token: S.Secret) returns (o: A.Outcome)
      requires Valid()
      modifies this`resets
      ensures Valid() && (State(), o) == ResetRequest(u, old(State()), email, token)
    {
      var e := u.cfg.normalise(email);
      if e == "" {
        return A.Done;
      }
      var a := store.FindByEmail(e);
      if a.None? || u.digest(token) in resets {
        return A.Done;
      }
      resets := resets[u.digest(token) := ResetRow(a.value, gate.now + RESET_TTL, false)];
      return A.Done;
    }

    method PasswordResetBegin(token: string, password: string) returns (o: A.Outcome)
      requires Valid()
      modifies this`confirms, this`nextConfirm
      ensures Valid() && (State(), o) == ResetBegin(u, old(State()), gate.process, token, password)
    {
      if token == "" {
        return A.BadRequest;
      }
      if |password| < 12 {
        return A.BadRequest;
      }
      var h := u.digest(token);
      if h !in resets || resets[h].consumed || resets[h].expires <= gate.now {
        return A.Denied;
      }
      confirms := confirms[nextConfirm := ResetConfirm(gate.process, token, resets[h].account, password, gate.now)];
      nextConfirm := nextConfirm + 1;
      return A.Done;
    }

    method PasswordResetEnd(r: nat, salt: string, consumeOk: bool) returns (o: A.Outcome)
      requires Valid()
      modifies this`confirms, this`resets, this`log, store`locals
      ensures Valid() && (State(), o) == ResetEnd(u, old(State()), r, salt, consumeOk)
    {
      if r !in confirms {
        return A.Denied;
      }
      var q := confirms[r];
      confirms := confirms - {r};
      o := store.ResetPassword(q.account, q.password, salt);
      if o != A.Done {
        return;
      }
      var h := u.digest(q.token);
      resets := ConsumeReset(resets, h, consumeOk);
      log := log + [ResetUsed(h)];
    }

    // ----- past the gate -----

    /** A presented token is one of those issued: only they carry a valid MAC. */
    ghost predicate Presentable(presented: Option<(nat, S.Token)>)
      reads gate
    {
      presented.Some? ==> presented.value.0 in gate.issued && gate.issued[presented.value.0] == presented.value.1
    }

    method RequireGate(a: A.Id, presented: Option<(nat, S.Token)>) returns (ok: bool)
      requires Valid() && Presentable(presented)
      modifies gate`consumed, gate`sets, gate`log
      ensures Valid() && (State(), ok) == PassGate(u, old(State()), gate.process, a, Jti(presented))
    {
      if a !in store.accounts || !store.accounts[a].verified {
        return false;
      }
      ok := gate.Require(a, presented);
    }

    method SetPassword(a: A.Id, presented: Option<(nat, S.Token)>, password: string, current: string, salt: string) returns (o: A.Outcome)
      requires Valid() && Presentable(presented)
      modifies gate`consumed, gate`sets, gate`log, store`locals, this`log
      ensures Valid() && (State(), o) == Credentials.SetPassword(u, old(State()), gate.process, a, Jti(presented), password, current, salt)
    {
      hide PassGate, A.SetPassword;
      var ok := RequireGate(a, presented);
      if !ok {
        return A.Denied;
      }
      RefusedChangesNothing(u.cfg, store.State(), a, password, current, salt);
      o := store.SetPassword(a, true, password, current, salt);
      if o == A.Done {
        log := log + [Changed(a)];
      }
    }

    method StartLink(a: A.Id, presented: Option<(nat, S.Token)>, providers: map<string, bool>, provider: string,
                     returnPath: string, nonce: string) returns (o: A.Outcome)
      requires Valid() && Presentable(presented)
      modifies gate`consumed, gate`sets, gate`log, store`links, this`minted, this`log
      ensures Valid()
      ensures (State(), o) == Credentials.StartLink(u, old(State()), gate.process, a, Jti(presented), providers, provider, returnPath, nonce)
    {
      hide PassGate, A.StartLink, T.SignState;
      var ok := RequireGate(a, presented);
      if !ok {
        return A.Denied;
      }
      var purpose := F.Link(u.uuid(a));
      var state := F.AuthorizeState(u.keys, providers, u.parse, purpose, provider, returnPath, nonce, gate.now);
      if state.Err? {
        return if state.error.BadReturnPath? then A.BadRequest else A.NotFound;
      }
      var started := store.StartLink(a, true, true);
      minted := minted[state.value := Flow(purpose, provider, F.ValidateReturnPath(u.parse, returnPath).value, nonce, gate.now)];
      log := log + [Changed(a)];
      return A.Done;
    }

    /** The gate and the snapshot that Unlink and RemovePassword start with. */
    method BeginRemoval(a: A.Id, presented: Option<(nat, S.Token)>, kind: A.TxKind) returns (o: A.Outcome)
      requires Valid() && Presentable(presented)
      modifies gate`consumed, gate`sets, gate`log, store`txs, store`nextTx, this`log
      ensures Valid() && (State(), o) == Begin(u, old(State()), gate.process, a, Jti(presented), kind)
    {
      hide PassGate, A.Begin;
      var ok := RequireGate(a, presented);
      if !ok {
        return A.Denied;
      }
      o := store.Begin(a, true, kind);
      log := log + [Changed(a)];
    }

    // ----- redirect flows -----

    method Start(test: bool, providers: map<string, bool>, provider: string, returnPath: string, nonce: string) returns (o: A.Outcome)
      requires Valid()
      modifies this`minted
      ensures Valid() && (State(), o) == StartSignIn(u, old(State()), test, providers, provider, returnPath, nonce)
    {
      var purpose := if test then F.Test else F.SignIn;
      var state := F.AuthorizeState(u.keys, providers, u.parse, purpose, provider, returnPath, nonce, gate.now);
      if state.Err? {
        return if state.error.BadReturnPath? then A.BadRequest else A.NotFound;
      }
      minted := minted[state.value := Flow(purpose, provider, F.ValidateReturnPath(u.parse, returnPath).value, nonce, gate.now)];
      return A.Done;
    }

    method Resolve(p: A.Principal) returns (o: A.Outcome)
      requires Valid()
      modifies store, this`log
      ensures Valid() && (State(), o) == ResolveStep(u, old(State()), p)
    {
      o := store.Resolve(p, gate.now);
      if Vouches(u, store.State(), p, o) {
        log := log + [Vouched(o.account, store.accounts[o.account].email)];
      }
    }

    method Callback(providers: map<string, bool>, provider: string, q: F.Return, reply: F.Reply) returns (o: A.Outcome)
      requires Valid()
      modifies store, this`log
      ensures Valid() && (State(), o) == Credentials.Callback(u, old(State()), providers, provider, q, reply)
    {
      hide Follow, F.Callback;
      if q.state !in minted {
        return A.BadRequest;
      }
      var route := F.Callback(u.keys, providers, provider, q, reply, gate.now);
      ghost var before := State();
      o := FollowRoute(route);
      if route.SignInAs? || route.LinkMode? {
        log := Note(before, State(), q.state, route.principal.Key()).log;
      }
    }

    method FollowRoute(route: F.Route) returns (o: A.Outcome)
      requires Valid()
      modifies store, this`log
      ensures Valid() && (State(), o) == Follow(u, old(State()), route)
    {
      if route.SignInAs? {
        o := Resolve(route.principal);
      } else if route.LinkMode? {
        var a := u.cfg.parseUuid(route.account);
        if a.None? {
          return A.Denied;
        }
        o := store.HandleLinkMode(a.value, route.principal, gate.now);
      } else {
        return A.Denied;
      }
    }
  }

  function Jti(presented: Option<(nat, S.Token)>): Option<nat>
  {
    if presented.Some? then Some(presented.value.0) else None
  }

  lemma RefusedChangesNothing(cfg: A.Config, s: A.State, a: A.Id, password: string, current: string, salt: string)
    ensures var (t, o) := A.SetPassword(cfg, s, a, true, password, current, salt); o.Done? || t == s
  {
  }
}
