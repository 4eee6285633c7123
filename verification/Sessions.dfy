/** From a password to a session token, and from a bearer token to the entity the authorizer decides for: login,
    the session verifier, the claim mapper, the resolver, the middleware's context, and identity assumption. */
module Sessions {
  import opened Text
  import opened JsonValues
  import T = Tokens
  import A = Accounts
  import Safety = AccountSafety
  import AF = AccountFrames
  import Z = Authz

  /** holder is an account's entity and accountOf the look-up by entity; uuid is an account's public UUID. */
  datatype Directory = Directory(cfg: A.Config, keys: T.Keys, holder: A.Id -> Z.Id, accountOf: Z.Id -> Option<A.Id>, uuid: A.Id -> string)
  {
    /** One local issuer for minting, verifying and resolving; the look-ups find what they are given. */
    ghost predicate Lawful()
    {
      && keys.Lawful() && keys.localIssuer == cfg.localIssuer
      && (forall a: A.Id :: accountOf(holder(a)) == Some(a))
      && (forall a: A.Id :: uuid(a) != "" && cfg.parseUuid(uuid(a)) == Some(a))
    }
  }

  // ----- the claim mapper -----

  datatype Claims = Claims(principal: A.Principal, sudo: string)

  /** The string at the key, "" if it is absent or no string. */
  function StringClaim(o: Obj, key: string): string
  {
    if key in o && o[key].JStr? then o[key].s else ""
  }

  function BoolClaim(o: Obj, key: string): bool
  {
    key in o && (o[key] == JBool(true) || o[key] == JStr("true"))
  }

  /** genericMapper.Map; None is a missing subject or issuer. */
  function MapClaims(o: Obj): Option<Claims>
  {
    var sub, iss := StringClaim(o, "sub"), StringClaim(o, "iss");
    if sub == "" || iss == "" then None
    else Some(Claims(A.Principal(iss, sub, StringClaim(o, "email"), BoolClaim(o, "email_verified")), StringClaim(o, "sudo_user_uuid")))
  }

  // ----- RequireAuth -----

  datatype Session = InvalidToken | ClaimError | NotResolved(o: A.Outcome) | SignedIn(account: A.Id, ctx: Z.Context)

  /** The assumed user, if the claim names one that is found; otherwise it is silently dropped. */
  function AssumedUser(d: Directory, s: A.State, sudo: string): Option<A.Id>
  {
    if sudo == "" then None
    else
      match d.cfg.parseUuid(sudo)
      case None => None
      case Some(b) => if b in s.accounts then Some(b) else None
  }

  function ContextOf(d: Directory, s: A.State, a: A.Id, sudo: string): Z.Context
  {
    var b := AssumedUser(d, s, sudo);
    Z.Context(Some(d.holder(a)), if b.Some? then Some(d.holder(b.value)) else None)
  }

  function Authenticate(d: Directory, s: A.State, token: string, now: nat): (A.State, Session)
  {
    match T.VerifyLocal(d.keys, token, now)
    case None => (s, InvalidToken)
    case Some(o) =>
      match MapClaims(o)
      case None => (s, ClaimError)
      case Some(c) =>
        var (t, r) := A.Resolve(d.cfg, s, c.principal, now);
        (t, if r.Resolved? then SignedIn(r.account, ContextOf(d, t, r.account, c.sudo)) else NotResolved(r))
  }

  // ----- password login -----

  datatype Login = Malformed | Wrong | Token(account: A.Id, token: string)

  /** An unknown email, an account without a password and a wrong password are one answer. */
  function LogIn(d: Directory, s: A.State, email: string, password: string, now: nat): Login
  {
    var e := d.cfg.normalise(email);
    if e == "" || password == "" then Malformed
    else
      match A.FindByEmail(d.cfg, s, e)
      case None => Wrong
      case Some(a) =>
        if a in s.locals && d.cfg.verify(password, s.locals[a]) then Token(a, T.IssueLocal(d.keys, d.uuid(a), now)) else Wrong
  }

  // ----- assuming an identity -----

  datatype Assumption = UnknownAccount | Refused(decision: Z.Decision) | Assumed(admin: A.Id, token: string)

  /** The service and its handler: the target, then the caller's own account, then the authorizer. */
  function Assume(d: Directory, s: A.State, ctx: Z.Context, ops: seq<Z.Operation>, t: Z.Tables, f: Z.Faults, target: A.Id, now: nat): Assumption
  {
    if target !in s.accounts || ctx.actor.None? then UnknownAccount
    else
      var admin := d.accountOf(ctx.actor.value);
      if admin.None? || admin.value !in s.accounts then UnknownAccount
      else
        var decision := Z.Authorize(ctx, ops, t, f, "assume", Some(d.holder(target)));
        if !decision.Allow? then Refused(decision)
        else Assumed(admin.value, T.IssueAssume(d.keys, d.uuid(admin.value), d.uuid(target), now))
  }

  // ----- who a bearer acts as -----

  /** What the mapper reads from a session token. */
  lemma MapSession(o: Obj, issuer: string, c: T.SessionClaims, issued: int)
    requires T.SaysSession(o, issuer, c, issued)
    ensures MapClaims(o) ==
      if c.subject == "" || issuer == "" then None else Some(Claims(A.Principal(issuer, c.subject, "", false), c.sudo))
  {
    T.SessionKeysDiffer();
    assert "email" !in o.Keys && "email_verified" !in o.Keys by {
      assert "email"[1] == 'm' && "email_verified"[1] == 'm';
      assert "iss"[1] == 's' && "iat"[1] == 'a' && "sub"[1] == 'u' && "sudo_user_uuid"[1] == 'u' && "exp"[1] == 'x' && "roles"[1] == 'o';
    }
  }

  /** A session token for a known account, in time: its subject is signed in and the named sudo user, if it is
      found, acts. Out of time, or with an empty local issuer, nobody is. */
  lemma SessionActs(d: Directory, s: A.State, a: A.Id, roles: seq<string>, sudo: string, issued: nat, now: nat)
    requires d.Lawful() && a in s.accounts
    ensures Authenticate(d, s, T.IssueSession(d.keys, T.SessionClaims(d.uuid(a), roles, sudo), issued), now)
         == (s, if (T.Unix(issued) + 86400) * 1_000_000_000 < now then InvalidToken
                else if d.cfg.localIssuer == "" then ClaimError
                else SignedIn(a, ContextOf(d, s, a, sudo)))
  {
    var c := T.SessionClaims(d.uuid(a), roles, sudo);
    T.SessionRoundTrip(d.keys, c, issued, now);
    var r := T.VerifyLocal(d.keys, T.IssueSession(d.keys, c, issued), now);
    if r.Some? {
      MapSession(r.value, d.cfg.localIssuer, c, T.Unix(issued));
    }
  }

  /** A login session is decided as its account's own entity. */
  lemma LoginActsAsSelf(d: Directory, s: A.State, a: A.Id, issued: nat, now: nat)
    requires d.Lawful() && a in s.accounts && d.cfg.localIssuer != "" && now <= (T.Unix(issued) + 86400) * 1_000_000_000
    ensures var (t, r) := Authenticate(d, s, T.IssueLocal(d.keys, d.uuid(a), issued), now);
      t == s && r == SignedIn(a, Z.Context(Some(d.holder(a)), None)) && Z.ActsAs(r.ctx, d.holder(a))
  {
    SessionActs(d, s, a, [], "", issued, now);
  }

  /** No step of the run is one that sets or removes the account's password. */
  ghost predicate NoneSets(cfg: A.Config, iso: A.Isolation, s: A.State, steps: seq<A.Step>, a: A.Id)
    decreases |steps|
  {
    steps != [] ==>
      && (forall after :: !AF.SetsPassword(cfg, s, steps[0], a, after))
      && NoneSets(cfg, iso, A.Apply(cfg, iso, s, steps[0]).0, steps[1..], a)
  }

  lemma {:induction false} PasswordKept(cfg: A.Config, iso: A.Isolation, s: A.State, steps: seq<A.Step>, a: A.Id)
    requires Safety.Valid(s) && a in s.accounts && NoneSets(cfg, iso, s, steps, a)
    ensures var t := A.Run(cfg, iso, s, steps); AF.Local(t, a) == AF.Local(s, a) && a in t.accounts
    decreases |steps|
  {
    hide A.Apply, Safety.Valid, AF.SetsPassword;
    if steps != [] {
      var t := A.Apply(cfg, iso, s, steps[0]).0;
      Safety.ApplyKeeps(cfg, iso, s, steps[0]);
      AF.AccountsStay(cfg, iso, s, steps[0]);
      AF.PasswordChangedOnlyBy(cfg, iso, s, steps[0], a);
      PasswordKept(cfg, iso, t, steps[1..], a);
    }
  }

  /** After any run that does not set or remove it, the password row an account had signs in exactly the passwords
      it accepts, under every email that finds the account; the token is a day's session of that account, decided
      as its own entity. */
  lemma PasswordSignsIn(d: Directory, iso: A.Isolation, s: A.State, steps: seq<A.Step>, a: A.Id, email: string, password: string,
                        at: nat, now: nat)
    requires d.Lawful() && d.cfg.localIssuer != "" && Safety.Valid(s) && a in s.accounts && NoneSets(d.cfg, iso, s, steps, a)
    requires d.cfg.normalise(email) != "" && password != ""
    requires A.FindByEmail(d.cfg, A.Run(d.cfg, iso, s, steps), d.cfg.normalise(email)) == Some(a)
    ensures var u := A.Run(d.cfg, iso, s, steps); var r := LogIn(d, u, email, password, at);
      && (r.Token? <==> a in s.locals && d.cfg.verify(password, s.locals[a])) && !r.Malformed?
      && (r.Token? ==> r.account == a)
      && (r.Token? && now <= (T.Unix(at) + 86400) * 1_000_000_000 ==>
            Authenticate(d, u, r.token, now) == (u, SignedIn(a, Z.Context(Some(d.holder(a)), None))))
  {
    hide A.Run, Authenticate, Safety.Valid, NoneSets, A.FindByEmail;
    PasswordKept(d.cfg, iso, s, steps, a);
    if now <= (T.Unix(at) + 86400) * 1_000_000_000 {
      LoginActsAsSelf(d, A.Run(d.cfg, iso, s, steps), a, at, now);
    }
  }

  /** An identity is assumed only by an effective actor permitted to "assume" it; the token names the caller's
      own account as its subject and the target as the sudo user. */
  lemma AssumeNeedsPermission(d: Directory, s: A.State, ctx: Z.Context, ops: seq<Z.Operation>, t: Z.Tables, f: Z.Faults, target: A.Id, at: nat)
    requires Assume(d, s, ctx, ops, t, f, target, at).Assumed?
    ensures var r := Assume(d, s, ctx, ops, t, f, target, at);
      && (exists actor :: Z.ActsAs(ctx, actor) && Z.Permitted(ops, t, actor, "assume", Some(d.holder(target))))
      && ctx.actor.Some? && d.accountOf(ctx.actor.value) == Some(r.admin) && r.admin in s.accounts && target in s.accounts
      && r.token == T.IssueAssume(d.keys, d.uuid(r.admin), d.uuid(target), at)
  {
    var actor := if ctx.sudo.Some? then ctx.sudo.value else ctx.actor.value;
    PermittedIfAllowed(ctx, ops, t, f, actor, "assume", Some(d.holder(target)));
  }

  lemma PermittedIfAllowed(ctx: Z.Context, ops: seq<Z.Operation>, t: Z.Tables, f: Z.Faults, actor: Z.Id, operation: string, target: Option<Z.Id>)
    requires Z.ActsAs(ctx, actor) && Z.Authorize(ctx, ops, t, f, operation, target).Allow?
    ensures Z.Permitted(ops, t, actor, operation, target)
  {
    hide Z.Authorize, Z.Permitted;
    Z.AuthorizeExact(ctx, ops, t, f, actor, operation, target);
    if f.tag {
      Z.FewerTags(ops, t, {}, actor, operation, target);
    }
  }

  /** A session that assumes a user: the account signed in is the administrator, and the decisions are those of
      the user's own session, or of the administrator's where the user is not found. */
  lemma AssumeSession(d: Directory, s: A.State, admin: A.Id, target: A.Id, issued: nat, now: nat, ops: seq<Z.Operation>, t: Z.Tables, f: Z.Faults,
                      operation: string, resource: Option<Z.Id>)
    requires d.Lawful() && d.cfg.localIssuer != "" && admin in s.accounts && now <= (T.Unix(issued) + 86400) * 1_000_000_000
    ensures var session := Authenticate(d, s, T.IssueAssume(d.keys, d.uuid(admin), d.uuid(target), issued), now).1;
      && session.SignedIn? && session.account == admin
      && Z.Authorize(session.ctx, ops, t, f, operation, resource)
         == Z.Authorize(Z.Context(Some(d.holder(if target in s.accounts then target else admin)), None), ops, t, f, operation, resource)
  {
    hide Z.Authorize, Authenticate;
    SessionActs(d, s, admin, ["admin"], d.uuid(target), issued, now);
    Z.SudoDecides(Some(d.holder(admin)), d.holder(target), ops, t, f, operation, resource);
  }

  lemma {:induction false} AccountsStayOver(cfg: A.Config, iso: A.Isolation, s: A.State, steps: seq<A.Step>)
    requires Safety.Valid(s)
    ensures s.accounts.Keys <= A.Run(cfg, iso, s, steps).accounts.Keys
    decreases |steps|
  {
    if steps != [] {
      AF.AccountsStay(cfg, iso, s, steps[0]);
      Safety.ApplyKeeps(cfg, iso, s, steps[0]);
      AccountsStayOver(cfg, iso, A.Apply(cfg, iso, s, steps[0]).0, steps[1..]);
    }
  }

  /** An assumed identity, over any later run of the tables and until the token's day is over: the account
      signed in stays the caller's own, and every decision is the one the target's own session would get. */
  lemma AssumeActsAsTarget(d: Directory, s: A.State, ctx: Z.Context, ops: seq<Z.Operation>, t: Z.Tables, f: Z.Faults, target: A.Id, at: nat,
                           iso: A.Isolation, steps: seq<A.Step>, now: nat, ops2: seq<Z.Operation>, t2: Z.Tables, f2: Z.Faults,
                           operation: string, resource: Option<Z.Id>)
    requires d.Lawful() && d.cfg.localIssuer != "" && Safety.Valid(s)
    requires Assume(d, s, ctx, ops, t, f, target, at).Assumed? && now <= (T.Unix(at) + 86400) * 1_000_000_000
    ensures var r := Assume(d, s, ctx, ops, t, f, target, at);
      var session := Authenticate(d, A.Run(d.cfg, iso, s, steps), r.token, now).1;
      && session.SignedIn? && session.account == r.admin && ctx.actor.Some? && d.accountOf(ctx.actor.value) == Some(r.admin)
      && Z.Authorize(session.ctx, ops2, t2, f2, operation, resource)
         == Z.Authorize(Z.Context(Some(d.holder(target)), None), ops2, t2, f2, operation, resource)
  {
    hide Z.Authorize, Authenticate, Assume, A.Run, Safety.Valid;
    var r := Assume(d, s, ctx, ops, t, f, target, at);
    AssumeNeedsPermission(d, s, ctx, ops, t, f, target, at);
    AccountsStayOver(d.cfg, iso, s, steps);
    AssumeSession(d, A.Run(d.cfg, iso, s, steps), r.admin, target, at, now, ops2, t2, f2, operation, resource);
  }

  /** Whatever token is presented, a bearer request changes no table: it never creates, links or verifies. */
  lemma BearerChangesNothing(d: Directory, s: A.State, token: string, now: nat)
    requires d.keys.localIssuer == d.cfg.localIssuer
    ensures Authenticate(d, s, token, now).0 == s
  {
  }

  /** A step-up token and a state never sign anyone in, even where an empty local issuer lets a step-up token
      past the session verifier: it names no subject. */
  lemma OnlySessionsSignIn(d: Directory, s: A.State, owner: int, jti: string, issued: nat, ttl: nat, p: T.StatePayload, now: nat)
    requires d.Lawful()
    ensures !Authenticate(d, s, T.IssueStepUp(d.keys, owner, jti, issued, ttl), now).1.SignedIn?
    ensures Authenticate(d, s, T.SignState(d.keys, p), now).1 == InvalidToken
  {
    hide T.StepUpObj, T.VerifyState, T.SignState, T.IssueStepUp;
    T.StateStaysApart(d.keys, p, 0, now);
    var payload := T.StepUpPayload(owner, T.STEP_UP_PURPOSE, jti, T.Unix(issued + ttl));
    StepUpVerifiesAs(d.keys, owner, jti, issued, ttl, now);
    NamesNobody(payload);
  }

  lemma StepUpVerifiesAs(k: T.Keys, owner: int, jti: string, issued: nat, ttl: nat, now: nat)
    requires k.Lawful()
    ensures var r := T.VerifyLocal(k, T.IssueStepUp(k, owner, jti, issued, ttl), now);
      r.Some? ==> r.value == T.StepUpObj(T.StepUpPayload(owner, T.STEP_UP_PURPOSE, jti, T.Unix(issued + ttl)))
  {
    hide T.StepUpObj;
    T.CheckCompact(k, k.stepUpHeader, T.StepUpObj(T.StepUpPayload(owner, T.STEP_UP_PURPOSE, jti, T.Unix(issued + ttl))), owner, now);
  }

  lemma NamesNobody(p: T.StepUpPayload)
    ensures MapClaims(T.StepUpObj(p)) == None
  {
    assert "sub" !in T.StepUpObj(p) by {
      assert "sub"[0] == 's' && "uaid"[0] == 'u' && "p"[0] == 'p' && "jti"[0] == 'j' && "exp"[0] == 'e';
    }
  }
}
