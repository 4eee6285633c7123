/** The whole credential system: the accounts, the step-up challenge, the password reset rows and the
    redirect flows as one state machine over any number of processes, in which what a request presents
    is checked against the rows: a code against a code row, a token against the consumed set of the
    process it reaches, a password against the stored one, a reset token against its row, a state
    against those minted. */
module Credentials {
  import opened Text
  import T = Tokens
  import A = Accounts
  import S = StepUp
  import F = OAuthFlow

  /** required: the step-up flag; digest: SHA-256 of a reset token; uuid: an account's public UUID. */
  datatype Setup = Setup(cfg: A.Config, required: bool, digest: string -> string, keys: T.Keys, parse: F.UrlParse,
                         uuid: A.Id -> string)

  /** A password_resets row; the table is keyed by the token's hash. */
  datatype ResetRow = ResetRow(account: A.Id, expires: nat, consumed: bool)

  /** A PasswordResetConfirm that found its row and has not finished. */
  datatype ResetConfirm = ResetConfirm(process: S.Process, token: string, account: A.Id, password: string, at: nat)

  /** What a minted state was minted for. */
  datatype Flow = Flow(purpose: F.Purpose, provider: string, path: string, nonce: string, at: nat)

  /** History: a gated change granted to the account; a sign-in whose provider vouched for the
      account's address; a reset row that changed the password; an identity bound by a callback that
      returned the state. */
  datatype Change =
    | Changed(account: A.Id)
    | Vouched(account: A.Id, address: string)
    | ResetUsed(row: string)
    | Bound(state: string, key: A.Key)

  /** checks holds, for each EmailCodeVerify under way, the email its account had at the look-up. */
  datatype State = State(acc: A.State, su: S.State, checks: map<nat, string>, resets: map<string, ResetRow>,
                         confirms: map<nat, ResetConfirm>, nextConfirm: nat, minted: map<string, Flow>, log: seq<Change>)

  const INITIAL := State(A.EMPTY, S.INITIAL, map[], map[], map[], 0, map[], [])

  const RESET_TTL := 1800 * T.SECOND

  // ----- email codes -----

  /** EmailCodeRequest: a code is mailed to the account of the email, if there is one. */
  function EmailSend(u: Setup, s: State, email: string, purpose: string, secret: S.Secret): (State, A.Outcome)
  {
    match A.FindByEmail(u.cfg, s.acc, u.cfg.normalise(email))
    case None => (s, A.Done)
    case Some(a) => (s.(su := S.SendCode(s.su, a, s.acc.accounts[a].email, purpose, secret)), A.Done)
  }

  /** StepUpRequest, behind RequireVerifiedEmail. */
  function StepUpSend(s: State, a: A.Id, secret: S.Secret): (State, A.Outcome)
  {
    if !(a in s.acc.accounts && s.acc.accounts[a].verified) then (s, A.Denied)
    else (s.(su := S.SendCode(s.su, a, s.acc.accounts[a].email, T.STEP_UP_PURPOSE, secret)), A.Done)
  }

  /** EmailCodeVerify up to the comparison of the code, at process p. */
  function EmailBegin(u: Setup, s: State, p: S.Process, email: string, purpose: string, code: string): (State, A.Outcome)
  {
    var e := u.cfg.normalise(email);
    if e == "" || code == "" then (s, A.BadRequest)
    else
      match A.FindByEmail(u.cfg, s.acc, e)
      case None => (s, A.Denied)
      case Some(a) =>
        match S.EmailLookUp(s.su, p, a, purpose, code)
        case (_, None) => (s, A.Denied)
        case (su, Some(r)) => (s.(su := su, checks := s.checks[r := s.acc.accounts[a].email]), A.Done)
  }

  /** An EmailCodeVerify is under way. */
  predicate CheckOpen(s: State, r: nat)
  {
    r in s.su.requests && !s.su.requests[r].issue && s.su.requests[r].code in s.su.codes && r in s.checks
  }

  predicate ForLogin(s: State, r: nat)
    requires CheckOpen(s, r)
  {
    s.su.codes[s.su.requests[r].code].purpose == "login"
  }

  /** The rest of it: the row is consumed, and for every purpose but "login" the account verified. */
  function EmailEnd(u: Setup, s: State, r: nat, consumeOk: bool): (State, A.Outcome)
  {
    if !CheckOpen(s, r) then (s, A.Denied)
    else
      var q := s.su.requests[r];
      var t := s.(su := S.Finish(s.su, r, consumeOk).0);
      if ForLogin(s, r) then (t, A.Done)
      else
        var (acc, o) := A.MarkVerified(s.acc, q.account, s.checks[r]);
        (t.(acc := acc), o)
  }

  // ----- password reset -----

  /** A generated reset token is never empty. */
  function ResetRequest(u: Setup, s: State, email: string, token: S.Secret): (State, A.Outcome)
  {
    var e := u.cfg.normalise(email);
    var a := A.FindByEmail(u.cfg, s.acc, e);
    if e == "" || a.None? || u.digest(token) in s.resets then (s, A.Done)
    else (s.(resets := s.resets[u.digest(token) := ResetRow(a.value, s.su.now + RESET_TTL, false)]), A.Done)
  }

  /** GetActivePasswordReset */
  predicate ActiveReset(u: Setup, s: State, token: string)
  {
    var h := u.digest(token);
    h in s.resets && !s.resets[h].consumed && s.resets[h].expires > s.su.now
  }

  function ResetBegin(u: Setup, s: State, p: S.Process, token: string, password: string): (State, A.Outcome)
  {
    if token == "" || |password| < 12 then (s, A.BadRequest)
    else if !ActiveReset(u, s, token) then (s, A.Denied)
    else
      (s.(confirms := s.confirms[s.nextConfirm := ResetConfirm(p, token, s.resets[u.digest(token)].account, password, s.su.now)],
          nextConfirm := s.nextConfirm + 1), A.Done)
  }

  function ConsumeReset(resets: map<string, ResetRow>, h: string, consumeOk: bool): map<string, ResetRow>
  {
    if consumeOk && h in resets then resets[h := resets[h].(consumed := true)] else resets
  }

  function ResetEnd(u: Setup, s: State, r: nat, salt: string, consumeOk: bool): (State, A.Outcome)
  {
    if r !in s.confirms then (s, A.Denied)
    else
      var q := s.confirms[r];
      var h := u.digest(q.token);
      var (acc, o) := A.Reset(u.cfg, s.acc, q.account, q.password, salt);
      var t := s.(acc := acc, confirms := s.confirms - {r});
      if o.Done? then (t.(resets := ConsumeReset(s.resets, h, consumeOk), log := t.log + [ResetUsed(h)]), o) else (t, o)
  }

  // ----- past the gate -----

  /** RequireVerifiedEmail, then requireStepUp at process p, which spends the token presented there. */
  function PassGate(u: Setup, s: State, p: S.Process, a: A.Id, token: Option<nat>): (State, bool)
  {
    if !(a in s.acc.accounts && s.acc.accounts[a].verified) then (s, false)
    else
      var (su, ok) := S.RequireStepUp(u.required, s.su, p, a, token);
      (s.(su := su), ok)
  }

  function SetPassword(u: Setup, s: State, p: S.Process, a: A.Id, token: Option<nat>, password: string, current: string, salt: string): (State, A.Outcome)
  {
    var (t, ok) := PassGate(u, s, p, a, token);
    if !ok then (t, A.Denied)
    else
      var (acc, o) := A.SetPassword(u.cfg, t.acc, a, true, password, current, salt);
      if o.Done? then (t.(acc := acc, log := t.log + [Changed(a)]), o) else (t, o)
  }

  function StartLink(u: Setup, s: State, p: S.Process, a: A.Id, token: Option<nat>, providers: map<string, bool>, provider: string,
                     returnPath: string, nonce: string): (State, A.Outcome)
  {
    var (t, ok) := PassGate(u, s, p, a, token);
    if !ok then (t, A.Denied)
    else
      var purpose := F.Link(u.uuid(a));
      match F.AuthorizeState(u.keys, providers, u.parse, purpose, provider, returnPath, nonce, t.su.now)
      case Err(e) => (t, if e.BadReturnPath? then A.BadRequest else A.NotFound)
      case Ok(state) =>
        var path := F.ValidateReturnPath(u.parse, returnPath).value;
        (t.(acc := A.StartLink(t.acc, a, true, true).0, minted := t.minted[state := Flow(purpose, provider, path, nonce, t.su.now)],
            log := t.log + [Changed(a)]),
         A.Done)
  }

  /** The start of Unlink or RemovePassword: the gate, then the transaction's snapshot. */
  function Begin(u: Setup, s: State, p: S.Process, a: A.Id, token: Option<nat>, kind: A.TxKind): (State, A.Outcome)
  {
    var (t, ok) := PassGate(u, s, p, a, token);
    if !ok then (t, A.Denied)
    else
      var (acc, o) := A.Begin(t.acc, a, true, kind);
      (t.(acc := acc, log := t.log + [Changed(a)]), o)
  }

  // ----- redirect flows -----

  function StartSignIn(u: Setup, s: State, test: bool, providers: map<string, bool>, provider: string, returnPath: string, nonce: string): (State, A.Outcome)
  {
    var purpose := if test then F.Test else F.SignIn;
    match F.AuthorizeState(u.keys, providers, u.parse, purpose, provider, returnPath, nonce, s.su.now)
    case Err(e) => (s, if e.BadReturnPath? then A.BadRequest else A.NotFound)
    case Ok(state) =>
      var path := F.ValidateReturnPath(u.parse, returnPath).value;
      (s.(minted := s.minted[state := Flow(purpose, provider, path, nonce, s.su.now)]), A.Done)
  }

  /** A sign-in, not by a session token, whose provider vouches for the address of the account it reaches. */
  predicate Vouches(u: Setup, acc: A.State, p: A.Principal, o: A.Outcome)
  {
    p.emailVerified && !A.LocalPath(u.cfg, p) && o.Resolved? && A.VouchesFor(u.cfg, acc, p, o, o.account)
  }

  function ResolveStep(u: Setup, s: State, p: A.Principal): (State, A.Outcome)
  {
    var (acc, o) := A.Resolve(u.cfg, s.acc, p, s.su.now);
    (s.(acc := acc, log := if Vouches(u, acc, p, o) then s.log + [Vouched(o.account, acc.accounts[o.account].email)] else s.log), o)
  }

  /** What the callback does where it goes on to. */
  function Follow(u: Setup, s: State, route: F.Route): (State, A.Outcome)
  {
    match route
    case SignInAs(p) => ResolveStep(u, s, p)
    case LinkMode(account, p) =>
      (match u.cfg.parseUuid(account)
       case None => (s, A.Denied)
       case Some(a) => var (acc, o) := A.LinkCallback(s.acc, a, p, s.su.now); (s.(acc := acc), o))
    case _ => (s, A.Denied)
  }

  /** Records that returning the state bound the key. */
  function Note(s: State, t: State, state: string, key: A.Key): State
  {
    if key !in s.acc.idents && key in t.acc.idents then t.(log := t.log + [Bound(state, key)]) else t
  }

  /** Only minted states carry a valid MAC. */
  function Callback(u: Setup, s: State, providers: map<string, bool>, provider: string, q: F.Return, reply: F.Reply): (State, A.Outcome)
  {
    if q.state !in s.minted then (s, A.BadRequest)
    else
      var route := F.Callback(u.keys, providers, provider, q, reply, s.su.now);
      var (t, o) := Follow(u, s, route);
      (if route.SignInAs? || route.LinkMode? then Note(s, t, q.state, route.principal.Key()) else t, o)
  }

  // ----- runs -----

  datatype Step =
    | Plain(step: A.Step)
    | Codes(codeStep: S.Step)
    | DoEmailSend(email: string, purpose: string, secret: S.Secret)
    | DoStepUpSend(a: A.Id, secret: S.Secret)
    | DoEmailBegin(process: S.Process, email: string, purpose: string, code: string)
    | DoEmailEnd(request: nat, consumeOk: bool)
    | DoResetRequest(email: string, newToken: S.Secret)
    | DoResetBegin(process: S.Process, resetToken: string, password: string)
    | DoResetEnd(request: nat, salt: string, consumeOk: bool)
    | DoSetPassword(process: S.Process, a: A.Id, token: Option<nat>, password: string, current: string, salt: string)
    | DoStartLink(process: S.Process, a: A.Id, token: Option<nat>, providers: map<string, bool>, provider: string, returnPath: string, nonce: string)
    | DoBegin(process: S.Process, a: A.Id, token: Option<nat>, kind: A.TxKind)
    | DoStartSignIn(test: bool, providers: map<string, bool>, provider: string, returnPath: string, nonce: string)
    | DoBearer(p: A.Principal)
    | DoCallback(providers: map<string, bool>, provider: string, q: F.Return, reply: F.Reply)

  /** Account steps that present nothing to be checked against other rows. */
  predicate IsPlain(step: A.Step)
  {
    step.DoRegister? || step.DoCreate? || step.DoUpdateRead? || step.DoUpdateWrite? || step.DoCommit? || step.DoAbort?
  }

  /** Code steps that belong to no other request. */
  predicate IsCodes(s: State, step: S.Step)
  {
    match step
    case DoSend(_, _, _, _) => false
    case DoEmailLookUp(_, _, _, _) => false
    case DoGate(_, _, _) => false
    case DoFinish(r, _) => r in s.su.requests && s.su.requests[r].issue
    case _ => true
  }

  function ConfirmsElsewhere(confirms: map<nat, ResetConfirm>, p: S.Process): map<nat, ResetConfirm>
  {
    map r | r in confirms && confirms[r].process != p :: confirms[r]
  }

  /** A restart also forgets the process's resets under way; what other requests of it may still write
      stays possible, as a step of its own. */
  function Apply(u: Setup, s: State, step: Step): (State, A.Outcome)
  {
    match step
    case Plain(x) =>
      if !IsPlain(x) then (s, A.Denied)
      else var (acc, o) := A.Apply(u.cfg, A.Serializable, s.acc, x); (s.(acc := acc), o)
    case Codes(x) =>
      if !IsCodes(s, x) then (s, A.Denied)
      else
        var t := s.(su := S.Apply(s.su, x));
        (if x.DoRestart? then t.(confirms := ConfirmsElsewhere(s.confirms, x.process)) else t, A.Done)
    case DoEmailSend(e, p, c) => EmailSend(u, s, e, p, c)
    case DoStepUpSend(a, c) => StepUpSend(s, a, c)
    case DoEmailBegin(h, e, p, c) => EmailBegin(u, s, h, e, p, c)
    case DoEmailEnd(r, ok) => EmailEnd(u, s, r, ok)
    case DoResetRequest(e, token) => ResetRequest(u, s, e, token)
    case DoResetBegin(h, token, p) => ResetBegin(u, s, h, token, p)
    case DoResetEnd(r, salt, ok) => ResetEnd(u, s, r, salt, ok)
    case DoSetPassword(h, a, token, p, c, salt) => SetPassword(u, s, h, a, token, p, c, salt)
    case DoStartLink(h, a, token, ps, p, path, nonce) => StartLink(u, s, h, a, token, ps, p, path, nonce)
    case DoBegin(h, a, token, kind) => Begin(u, s, h, a, token, kind)
    case DoStartSignIn(test, ps, p, path, nonce) => StartSignIn(u, s, test, ps, p, path, nonce)
    case DoBearer(p) => ResolveStep(u, s, p)
    case DoCallback(ps, p, q, reply) => Callback(u, s, ps, p, q, reply)
  }

  function Run(u: Setup, s: State, steps: seq<Step>): State
    decreases |steps|
  {
    if steps == [] then s else Run(u, Apply(u, s, steps[0]).0, steps[1..])
  }

  // ----- the two halves -----

  /** The step of the step-up machine a step takes, if any. */
  function CodesPart(u: Setup, s: State, step: Step): Option<S.Step>
  {
    match step
    case Codes(x) => if IsCodes(s, x) then Some(x) else None
    case DoEmailSend(email, p, c) =>
      var a := A.FindByEmail(u.cfg, s.acc, u.cfg.normalise(email));
      if a.None? then None else Some(S.DoSend(a.value, s.acc.accounts[a.value].email, p, c))
    case DoStepUpSend(a, c) =>
      if a in s.acc.accounts && s.acc.accounts[a].verified then Some(S.DoSend(a, s.acc.accounts[a].email, T.STEP_UP_PURPOSE, c)) else None
    case DoEmailBegin(h, email, p, c) =>
      var e := u.cfg.normalise(email);
      var a := A.FindByEmail(u.cfg, s.acc, e);
      if e == "" || c == "" || a.None? then None else Some(S.DoEmailLookUp(h, a.value, p, c))
    case DoEmailEnd(r, ok) => if CheckOpen(s, r) then Some(S.DoFinish(r, ok)) else None
    case DoSetPassword(h, a, token, _, _, _) => GatePart(u, s, h, a, token)
    case DoStartLink(h, a, token, _, _, _, _) => GatePart(u, s, h, a, token)
    case DoBegin(h, a, token, _) => GatePart(u, s, h, a, token)
    case _ => None
  }

  function GatePart(u: Setup, s: State, p: S.Process, a: A.Id, token: Option<nat>): Option<S.Step>
  {
    if u.required && a in s.acc.accounts && s.acc.accounts[a].verified then Some(S.DoGate(p, a, token)) else None
  }

  function CodesRun(u: Setup, s: State, steps: seq<Step>): seq<S.Step>
    decreases |steps|
  {
    if steps == [] then []
    else
      var first := CodesPart(u, s, steps[0]);
      (if first.Some? then [first.value] else []) + CodesRun(u, Apply(u, s, steps[0]).0, steps[1..])
  }

  /** The step of the account machine a step takes, if any. */
  function AccountPart(u: Setup, s: State, step: Step): Option<A.Step>
  {
    match step
    case Plain(x) => if IsPlain(x) then Some(x) else None
    case DoEmailEnd(r, _) => if CheckOpen(s, r) && !ForLogin(s, r) then Some(A.DoVerifyEmail(s.su.requests[r].account, s.checks[r])) else None
    case DoResetEnd(r, salt, _) => if r in s.confirms then Some(A.DoReset(s.confirms[r].account, s.confirms[r].password, salt)) else None
    case DoSetPassword(_, a, _, p, c, salt) => Some(A.DoSetPassword(a, true, p, c, salt))
    case DoStartLink(_, a, _, _, _, _, _) => Some(A.DoStartLink(a, true, true))
    case DoBegin(_, a, _, kind) => Some(A.DoBegin(a, true, kind))
    case DoBearer(p) => Some(A.DoResolve(p, s.su.now))
    case DoCallback(ps, p, q, reply) => RoutePart(u, s, F.Callback(u.keys, ps, p, q, reply, s.su.now))
    case _ => None
  }

  function RoutePart(u: Setup, s: State, route: F.Route): Option<A.Step>
  {
    match route
    case SignInAs(p) => Some(A.DoResolve(p, s.su.now))
    case LinkMode(account, p) =>
      if u.cfg.parseUuid(account).Some? then Some(A.DoLinkCallback(u.cfg.parseUuid(account).value, p, s.su.now)) else None
    case _ => None
  }
}
