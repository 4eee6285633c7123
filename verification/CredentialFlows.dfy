/** Links and removals in the whole credential system: what each was granted, and what a callback that
    binds an identity answers. */
module CredentialFlows {
  import opened Text
  import T = Tokens
  import A = Accounts
  import Safety = AccountSafety
  import AF = AccountFrames
  import AT = AccountTheorems
  import S = StepUp
  import SR = StepUpRows
  import F = OAuthFlow
  import opened Credentials
  import opened CredentialTheorems
  import opened CredentialResets

  // ----- links and removals were granted -----

  ghost predicate Granted(s: State)
  {
    && (forall a | a in s.acc.links :: Changed(a) in s.log)
    && (forall n | n in s.acc.txs :: Changed(s.acc.txs[n].account) in s.log)
  }

  lemma LogStays(u: Setup, s: State, step: Step)
    ensures forall c | c in s.log :: c in Apply(u, s, step).0.log
  {
    if IsGated(step) {
      GatedIs(u, s, step);
      GateIs(u, s, step.process, step.a, step.token);
    } else {
      hide Apply;
      UngatedLog(u, s, step);
    }
  }

  lemma StepKeepsGranted(u: Setup, s: State, step: Step)
    requires Granted(s)
    ensures Granted(Apply(u, s, step).0)
  {
    hide Apply, A.Apply, AccountPart;
    LogStays(u, s, step);
    AccountStep(u, s, step);
    if Apply(u, s, step).0.acc != s.acc {
      AF.TokensOnlyBy(u.cfg, A.Serializable, s.acc, AccountPart(u, s, step).value);
      PartIs(u, s, step);
      if IsGated(step) {
        GatedIsLogged(u, s, step);
      }
    }
  }

  lemma GatedIsLogged(u: Setup, s: State, step: Step)
    requires IsGated(step) && Apply(u, s, step).0.acc != s.acc
    ensures Changed(step.a) in Apply(u, s, step).0.log
  {
    hide Apply;
    GatedIs(u, s, step);
    GateIs(u, s, step.process, step.a, step.token);
  }

  // ----- minted states -----

  ghost predicate MintedValid(u: Setup, s: State)
  {
    forall st | st in s.minted ::
      var f := s.minted[st];
      && st == T.SignState(u.keys, F.PayloadFor(f.purpose, f.provider, f.path, f.nonce, f.at))
      && (f.purpose.Link? ==> StartedBy(u, s.acc, f.purpose.account))
  }

  ghost predicate StartedBy(u: Setup, acc: A.State, uuid: string)
  {
    exists a: A.Id :: a in acc.links && uuid == u.uuid(a)
  }

  lemma OthersMintNothing(u: Setup, s: State, step: Step)
    requires !step.DoStartLink? && !step.DoStartSignIn?
    ensures Apply(u, s, step).0.minted == s.minted
  {
    if step.DoSetPassword? {
      SetPasswordStep(u, s, step);
    } else if step.DoBegin? {
      BeginStep(u, s, step);
    } else if step.DoEmailBegin? {
      EmailBeginIs(u, s, step.process, step.email, step.purpose, step.code);
    } else if step.DoCallback? {
      CallbackKeepsRest(u, s, step);
    } else if step.DoEmailEnd? || step.DoResetEnd? || step.DoBearer? {
      EndsMintNothing(u, s, step);
    } else {
      PlainMintsNothing(u, s, step);
    }
  }

  lemma EndsMintNothing(u: Setup, s: State, step: Step)
    requires step.DoEmailEnd? || step.DoResetEnd? || step.DoBearer?
    ensures Apply(u, s, step).0.minted == s.minted
  {
    hide A.Resolve, A.MarkVerified, A.Reset, S.Finish, SetPassword, StartLink, Begin, Callback, EmailBegin,
      EmailSend, StepUpSend, ResetRequest, ResetBegin, StartSignIn;
  }

  lemma PlainMintsNothing(u: Setup, s: State, step: Step)
    requires step.Plain? || (KeepsAccounts(step) && !step.DoStartSignIn?)
    ensures Apply(u, s, step).0.minted == s.minted
  {
    hide A.Apply, S.Apply, SetPassword, StartLink, Begin, EmailEnd, ResetEnd, ResolveStep, Callback, EmailBegin;
  }

  /** The flow a start mints a state for. */
  function FlowOf(u: Setup, s: State, purpose: F.Purpose, provider: string, returnPath: string, nonce: string): Flow
    requires F.ValidateReturnPath(u.parse, returnPath).Some?
  {
    Flow(purpose, provider, F.ValidateReturnPath(u.parse, returnPath).value, nonce, s.su.now)
  }

  predicate Mints(u: Setup, s: State, t: State, purpose: F.Purpose, provider: string, returnPath: string, nonce: string)
  {
    && F.ValidateReturnPath(u.parse, returnPath).Some?
    && var f := FlowOf(u, s, purpose, provider, returnPath, nonce);
       t.minted == s.minted[T.SignState(u.keys, F.PayloadFor(purpose, provider, f.path, nonce, f.at)) := f]
  }

  lemma SignInMints(u: Setup, s: State, test: bool, ps: map<string, bool>, p: string, path: string, nonce: string)
    ensures var t := StartSignIn(u, s, test, ps, p, path, nonce).0;
      t.acc == s.acc && (t.minted == s.minted || Mints(u, s, t, if test then F.Test else F.SignIn, p, path, nonce))
  {
  }

  lemma LinkMints(u: Setup, s: State, q: S.Process, a: A.Id, token: Option<nat>, ps: map<string, bool>, p: string, path: string, nonce: string)
    ensures var t := StartLink(u, s, q, a, token, ps, p, path, nonce).0;
      t.minted == s.minted || (Mints(u, s, t, F.Link(u.uuid(a)), p, path, nonce) && a in t.acc.links)
  {
    GateIs(u, s, q, a, token);
  }

  lemma StepKeepsMinted(u: Setup, s: State, step: Step)
    requires MintedValid(u, s)
    ensures MintedValid(u, Apply(u, s, step).0)
  {
    hide Apply;
    var t := Apply(u, s, step).0;
    StartersStay(u, s, step);
    if step.DoStartLink? {
      LinkKeepsMinted(u, s, step);
    } else if step.DoStartSignIn? {
      SignInKeepsMinted(u, s, step);
    } else {
      OthersMintNothing(u, s, step);
    }
  }

  lemma LinkKeepsMinted(u: Setup, s: State, step: Step)
    requires step.DoStartLink? && MintedValid(u, s) && forall x | StartedBy(u, s.acc, x) :: StartedBy(u, Apply(u, s, step).0.acc, x)
    ensures MintedValid(u, Apply(u, s, step).0)
  {
    hide StartLink;
    LinkMints(u, s, step.process, step.a, step.token, step.providers, step.provider, step.returnPath, step.nonce);
    MintKeeps(u, s, Apply(u, s, step).0, F.Link(u.uuid(step.a)), step.provider, step.returnPath, step.nonce);
  }

  lemma SignInKeepsMinted(u: Setup, s: State, step: Step)
    requires step.DoStartSignIn? && MintedValid(u, s)
    ensures MintedValid(u, Apply(u, s, step).0)
  {
    hide StartSignIn;
    SignInMints(u, s, step.test, step.providers, step.provider, step.returnPath, step.nonce);
    MintKeeps(u, s, Apply(u, s, step).0, if step.test then F.Test else F.SignIn, step.provider, step.returnPath, step.nonce);
  }

  /** Who started linking stays known. */
  lemma StartersStay(u: Setup, s: State, step: Step)
    ensures forall x | StartedBy(u, s.acc, x) :: StartedBy(u, Apply(u, s, step).0.acc, x)
  {
    hide Apply, A.Apply, AccountPart;
    AccountStep(u, s, step);
    if Apply(u, s, step).0.acc != s.acc {
      AF.TokensOnlyBy(u.cfg, A.Serializable, s.acc, AccountPart(u, s, step).value);
    }
    forall x | StartedBy(u, s.acc, x) ensures StartedBy(u, Apply(u, s, step).0.acc, x) {
      var a: A.Id :| a in s.acc.links && x == u.uuid(a);
      assert a in Apply(u, s, step).0.acc.links;
    }
  }

  lemma MintKeeps(u: Setup, s: State, t: State, purpose: F.Purpose, provider: string, returnPath: string, nonce: string)
    requires MintedValid(u, s) && (forall x | StartedBy(u, s.acc, x) :: StartedBy(u, t.acc, x))
    requires t.minted == s.minted || Mints(u, s, t, purpose, provider, returnPath, nonce)
    requires t.minted != s.minted && purpose.Link? ==> StartedBy(u, t.acc, purpose.account)
    ensures MintedValid(u, t)
  {
  }

  ghost predicate Invariant(u: Setup, s: State)
  {
    S.Valid(s.su) && Safety.Valid(s.acc) && ResetsValid(u, s) && Granted(s) && MintedValid(u, s)
  }

  lemma StepKeepsInvariant(u: Setup, s: State, step: Step)
    requires Invariant(u, s)
    ensures Invariant(u, Apply(u, s, step).0)
  {
    hide Apply, S.Valid, Safety.Valid, ResetsValid, Granted, MintedValid;
    StepKeepsCodes(u, s, step);
    StepKeepsAccounts(u, s, step);
    StepKeepsResets(u, s, step);
    StepKeepsGranted(u, s, step);
    StepKeepsMinted(u, s, step);
  }

  /** In every reachable state the tables are valid, resets under way found their rows, every link
      token and open removal belongs to an account granted one, and every link state names one. */
  lemma {:induction false} RunKeeps(u: Setup, s: State, steps: seq<Step>)
    requires Invariant(u, s)
    ensures Invariant(u, Run(u, s, steps))
    decreases |steps|
  {
    hide Apply, Invariant;
    if steps != [] {
      StepKeepsInvariant(u, s, steps[0]);
      RunKeeps(u, Apply(u, s, steps[0]).0, steps[1..]);
    }
  }

  lemma InitialHolds(u: Setup)
    ensures Invariant(u, INITIAL)
  {
    S.InitialValid();
    AT.EmptyValid();
  }

  // ----- what a callback binds -----

  ghost predicate UuidsParse(u: Setup)
  {
    forall a: A.Id :: u.cfg.parseUuid(u.uuid(a)) == Some(a)
  }

  /** What a callback that binds the key answers: a state minted for this provider, in the browser that
      started it, in time and with its nonce; the identity is the one the provider named, and its
      account is the one that started linking past the gate, or the one just signed in. */
  ghost predicate Answers(u: Setup, s: State, step: Step, key: A.Key, t: State, o: A.Outcome)
    requires step.DoCallback? && key in t.acc.idents
  {
    var owner := t.acc.idents[key].account;
    && step.q.state in s.minted
    && var f := s.minted[step.q.state];
    && step.provider == f.provider && step.q.cookie == Some(step.q.state) && T.Unix(s.su.now) <= T.Unix(f.at + F.STATE_TTL)
    && step.reply.Verified? && step.reply.nonce == f.nonce
    && step.reply.principal.Some? && step.reply.principal.value.Key() == key
    && match f.purpose
       case Link(account) => account == u.uuid(owner) && owner in s.acc.links && Changed(owner) in s.log
       case SignIn => o == A.Resolved(owner)
       case Test => false
  }

  lemma StepAnswersItsStart(u: Setup, s: State, step: Step, key: A.Key)
    requires Invariant(u, s) && u.keys.Lawful() && UuidsParse(u) && step.DoCallback?
    requires key !in s.acc.idents && key in Apply(u, s, step).0.acc.idents
    ensures var (t, o) := Apply(u, s, step); Answers(u, s, step, key, t, o)
  {
    hide Apply, Follow, F.Callback, T.SignState;
    var route := F.Callback(u.keys, step.providers, step.provider, step.q, step.reply, s.su.now);
    CallbackBinds(u, s, step, key, route);
    var f := s.minted[step.q.state];
    F.CallbackFollowsPurpose(u.keys, f.purpose, f.provider, f.path, f.nonce, f.at, step.providers, step.provider, step.q, step.reply, s.su.now);
    if route.LinkMode? {
      var a: A.Id :| a in s.acc.links && f.purpose.account == u.uuid(a);
      assert u.cfg.parseUuid(u.uuid(a)) == Some(a);
    }
  }

  /** After any run, a callback that binds a new identity answers the start whose state it returns. */
  lemma NewIdentityAnswersItsStart(u: Setup, steps: seq<Step>, step: Step, key: A.Key)
    requires u.keys.Lawful() && UuidsParse(u) && step.DoCallback?
    requires var s := Run(u, INITIAL, steps); key !in s.acc.idents && key in Apply(u, s, step).0.acc.idents
    ensures var s := Run(u, INITIAL, steps); var (t, o) := Apply(u, s, step); Answers(u, s, step, key, t, o)
  {
    hide Apply;
    InitialHolds(u);
    RunKeeps(u, INITIAL, steps);
    StepAnswersItsStart(u, Run(u, INITIAL, steps), step, key);
  }

  lemma CallbackBinds(u: Setup, s: State, step: Step, key: A.Key, route: F.Route)
    requires RouteOf(u, s, step, route)
    requires key !in s.acc.idents && key in Apply(u, s, step).0.acc.idents
    ensures var (t, o) := Apply(u, s, step); var owner := t.acc.idents[key].account;
      && step.q.state in s.minted
      && (route.SignInAs? || route.LinkMode?) && route.principal.Key() == key
      && (route.SignInAs? ==> o == A.Resolved(owner))
      && (route.LinkMode? ==> u.cfg.parseUuid(route.account) == Some(owner) && owner in s.acc.links)
      && t.log == Follow(u, s, route).0.log + [Bound(step.q.state, key)]
  {
    hide F.Callback, A.Resolve, A.LinkCallback, SetPassword, StartLink, Begin, EmailEnd, ResetEnd, EmailBegin;
    if route.SignInAs? {
      AF.ResolveInserts(u.cfg, s.acc, route.principal, s.su.now, key);
    } else if route.LinkMode? && u.cfg.parseUuid(route.account).Some? {
      AF.LinkInserts(s.acc, u.cfg.parseUuid(route.account).value, route.principal, s.su.now, key);
    }
  }

  // ----- how many identities one start binds -----

  /** The identities bound by callbacks that returned the state. */
  function BoundBy(log: seq<Change>, state: string): set<A.Key>
  {
    set c | c in log && c.Bound? && c.state == state :: c.key
  }

  /** The step returns the state, with a reply that carries the nonce and names an identity. */
  predicate Replies(step: Step, state: string, nonce: string)
  {
    && step.DoCallback? && step.q.state == state
    && step.reply.Verified? && step.reply.nonce == nonce && step.reply.principal.Some?
  }

  function RepliedKeys(steps: seq<Step>, state: string, nonce: string): set<A.Key>
  {
    set step | step in steps && Replies(step, state, nonce) :: step.reply.principal.value.Key()
  }

  ghost predicate StateOf(u: Setup, state: string, f: Flow)
  {
    state == T.SignState(u.keys, F.PayloadFor(f.purpose, f.provider, f.path, f.nonce, f.at))
  }

  lemma NoneBound(log: seq<Change>, more: seq<Change>)
    requires log <= more && forall c | c in more[|log|..] :: !c.Bound?
    ensures forall c | c in more && c.Bound? :: c in log
  {
    assert more == log + more[|log|..];
  }

  lemma StepBinds(u: Setup, s: State, step: Step, state: string, f: Flow)
    requires MintedValid(u, s) && u.keys.Lawful() && StateOf(u, state, f)
    ensures var t := Apply(u, s, step).0;
      BoundBy(t.log, state) <= BoundBy(s.log, state) + RepliedKeys([step], state, f.nonce)
  {
    if step.DoCallback? {
      CallbackRecords(u, s, step, state, f);
    } else {
      hide Apply;
      OthersRecordNothing(u, s, step);
      NoneBound(s.log, Apply(u, s, step).0.log);
    }
  }

  lemma OthersRecordNothing(u: Setup, s: State, step: Step)
    requires !step.DoCallback?
    ensures var t := Apply(u, s, step).0; s.log <= t.log && forall c | c in t.log[|s.log|..] :: !c.Bound?
  {
    hide A.Apply, EmailEnd, Callback;
    if IsGated(step) {
      GatedIs(u, s, step);
      GateIs(u, s, step.process, step.a, step.token);
    } else if step.DoEmailBegin? {
      EmailBeginIs(u, s, step.process, step.email, step.purpose, step.code);
    } else if step.DoResetEnd? {
      ResetLog(u, s, step.request, step.salt, step.consumeOk);
    } else {
      OthersLog(u, s, step);
    }
  }

  lemma CallbackRecords(u: Setup, s: State, step: Step, state: string, f: Flow)
    requires step.DoCallback? && MintedValid(u, s) && u.keys.Lawful() && StateOf(u, state, f)
    ensures var t := Apply(u, s, step).0;
      BoundBy(t.log, state) <= BoundBy(s.log, state) + RepliedKeys([step], state, f.nonce)
  {
    hide Apply, Follow, F.Callback, T.SignState;
    var route := F.Callback(u.keys, step.providers, step.provider, step.q, step.reply, s.su.now);
    CallbackIs(u, s, step, route);
    FollowKeepsRest(u, s, route);
    var t, follow := Apply(u, s, step).0, Follow(u, s, route).0;
    NoneBound(s.log, follow.log);
    if step.q.state in s.minted && t != follow && step.q.state == state {
      var g := s.minted[state];
      F.CallbackFollowsPurpose(u.keys, g.purpose, g.provider, g.path, g.nonce, g.at, step.providers, step.provider, step.q, step.reply, s.su.now);
      F.StateFixesNonce(u.keys, g.purpose, g.provider, g.path, g.nonce, g.at, f.purpose, f.provider, f.path, f.nonce, f.at);
      assert Replies([step][0], state, f.nonce);
    }
  }

  /** However often a state is returned, the identities bound by returning it are among those the
      provider named under its nonce. */
  lemma {:induction false} StartBindsReplies(u: Setup, s: State, steps: seq<Step>, state: string, f: Flow)
    requires Invariant(u, s) && u.keys.Lawful() && StateOf(u, state, f)
    ensures BoundBy(Run(u, s, steps).log, state) <= BoundBy(s.log, state) + RepliedKeys(steps, state, f.nonce)
    decreases |steps|
  {
    hide Apply;
    if steps != [] {
      StepBinds(u, s, steps[0], state, f);
      StepKeepsInvariant(u, s, steps[0]);
      StartBindsReplies(u, Apply(u, s, steps[0]).0, steps[1..], state, f);
      assert RepliedKeys([steps[0]], state, f.nonce) <= RepliedKeys(steps, state, f.nonce);
      assert RepliedKeys(steps[1..], state, f.nonce) <= RepliedKeys(steps, state, f.nonce);
    }
  }

  /** The state of a flow comes back with a reply that names p. */
  function Answer(u: Setup, f: Flow, providers: map<string, bool>, code: string, p: A.Principal): Step
  {
    var state := T.SignState(u.keys, F.PayloadFor(f.purpose, f.provider, f.path, f.nonce, f.at));
    DoCallback(providers, f.provider, F.Return("", code, state, Some(state)), F.Verified(f.nonce, true, Some(p)))
  }

  ghost predicate LiveLink(u: Setup, s: State, f: Flow, a: A.Id, providers: map<string, bool>)
  {
    && (exists state :: state in s.minted && s.minted[state] == f && StateOf(u, state, f))
    && f.purpose == F.Link(u.uuid(a)) && a in s.acc.links && a in s.acc.accounts
    && f.provider in providers && providers[f.provider] && T.Unix(s.su.now) <= T.Unix(f.at + F.STATE_TTL)
  }

  /** While a link state lives, every reply under its nonce that names a new identity binds it. */
  lemma LiveStartBinds(u: Setup, s: State, f: Flow, a: A.Id, providers: map<string, bool>, code: string, p: A.Principal)
    requires u.keys.Lawful() && UuidsParse(u) && LiveLink(u, s, f, a, providers) && code != "" && p.Key() !in s.acc.idents
    ensures var t := Apply(u, s, Answer(u, f, providers, code, p)).0;
      && LiveLink(u, t, f, a, providers) && t.su == s.su
      && t.acc.idents == s.acc.idents[p.Key() := A.Identity(s.acc.nextUuid, a, None)]
  {
    var step := Answer(u, f, providers, code, p);
    F.LiveStateGoesOn(u.keys, f.purpose, f.provider, f.path, f.nonce, f.at, providers, code, p, s.su.now);
    hide F.Callback, T.SignState;
    var route := F.Callback(u.keys, providers, f.provider, step.q, step.reply, s.su.now);
    CallbackIs(u, s, step, route);
    assert u.cfg.parseUuid(u.uuid(a)) == Some(a);
    assert Follow(u, s, route).0.acc == A.Insert(s.acc, p.Key(), a).value;
  }

  /** So one start binds two identities, though its account passed the gate once for it. */
  lemma StartAnsweredTwice(u: Setup, s: State, f: Flow, a: A.Id, providers: map<string, bool>, code: string, p: A.Principal, q: A.Principal)
    requires u.keys.Lawful() && UuidsParse(u) && LiveLink(u, s, f, a, providers) && code != ""
    requires p.Key() !in s.acc.idents && q.Key() !in s.acc.idents && p.Key() != q.Key()
    ensures var t := Run(u, s, [Answer(u, f, providers, code, p), Answer(u, f, providers, code, q)]);
      && t.su.log == s.su.log
      && p.Key() in t.acc.idents && t.acc.idents[p.Key()].account == a && q.Key() in t.acc.idents && t.acc.idents[q.Key()].account == a
  {
    hide Apply, Answer, LiveLink;
    LiveStartBinds(u, s, f, a, providers, code, p);
    var t := Apply(u, s, Answer(u, f, providers, code, p)).0;
    LiveStartBinds(u, t, f, a, providers, code, q);
    TwoSteps(u, s, Answer(u, f, providers, code, p), Answer(u, f, providers, code, q));
  }

  /** A vouched first sign-in, a step-up code mailed, found and redeemed, and a link started with the
      token: one pass, and a live link state. */
  function StartOnce(q: A.Principal, secret: S.Secret, providers: map<string, bool>, provider: string, nonce: string): seq<Step>
  {
    [DoBearer(q), DoStepUpSend(0, secret), Codes(S.DoStepUpLookUp(0, 0, secret)), Codes(S.DoFinish(0, true))]
    + [DoStartLink(0, 0, Some(0), providers, provider, "", nonce)]
  }

  predicate FirstVouched(u: Setup, q: A.Principal)
  {
    q.issuer != "" && q.subject != "" && q.emailVerified && !A.LocalPath(u.cfg, q)
  }

  /** The state once the token is issued. */
  ghost predicate TokenIssued(s: State, q: A.Principal)
  {
    && s.acc == A.EMPTY.(accounts := map[0 := A.Account(q.email, true)], idents := map[q.Key() := A.Identity(0, 0, None)], nextAccount := 1, nextUuid := 1)
    && s.minted == map[] && s.su.now == 0 && s.su.consumed == map[] && s.su.log == [S.Verified(0, 0, 0)]
    && s.su.issued == map[0 := S.Token(0, T.Unix(S.STEP_UP_TTL))]
  }

  lemma SignInFirst(u: Setup, q: A.Principal)
    requires FirstVouched(u, q)
    ensures var t := Apply(u, INITIAL, DoBearer(q)).0;
      && t.su == S.INITIAL && t.minted == map[]
      && t.acc == A.EMPTY.(accounts := map[0 := A.Account(q.email, true)], idents := map[q.Key() := A.Identity(0, 0, None)], nextAccount := 1, nextUuid := 1)
  {
    AT.FirstSignIn(u.cfg, q, 0);
  }

  lemma RedeemFirst(u: Setup, s: State, q: A.Principal, secret: S.Secret)
    requires s.su == S.INITIAL && 0 in s.acc.accounts && s.acc.accounts[0] == A.Account(q.email, true)
    ensures var s1 := Apply(u, s, DoStepUpSend(0, secret)).0;
      var s2 := Apply(u, s1, Codes(S.DoStepUpLookUp(0, 0, secret))).0;
      var s3 := Apply(u, s2, Codes(S.DoFinish(0, true))).0;
      && s3 == s.(su := s3.su) && s3.su == S.Apply(SR.Sent(0, q.email, secret, 1), S.DoFinish(0, true))
  {
    hide S.Apply;
    SR.SentIs(0, q.email, secret);
    var s1 := Apply(u, s, DoStepUpSend(0, secret)).0;
    assert s1 == s.(su := SR.Sent(0, q.email, secret, 0)) by {
      SendIs(u, s, q, secret);
    }
    var s2 := Apply(u, s1, Codes(S.DoStepUpLookUp(0, 0, secret))).0;
    assert s2 == s.(su := SR.Sent(0, q.email, secret, 1));
  }

  lemma SendIs(u: Setup, s: State, q: A.Principal, secret: S.Secret)
    requires s.su == S.INITIAL && 0 in s.acc.accounts && s.acc.accounts[0] == A.Account(q.email, true)
    ensures Apply(u, s, DoStepUpSend(0, secret)).0 == s.(su := SR.Sent(0, q.email, secret, 0))
  {
    SR.SentIs(0, q.email, secret);
  }

  lemma IssueFirst(u: Setup, q: A.Principal, secret: S.Secret, providers: map<string, bool>, provider: string, nonce: string)
    requires FirstVouched(u, q)
    ensures TokenIssued(Run(u, INITIAL, StartOnce(q, secret, providers, provider, nonce)[..4]), q)
  {
    hide Apply, S.Apply;
    var steps := StartOnce(q, secret, providers, provider, nonce);
    SignInFirst(u, q);
    RedeemFirst(u, Apply(u, INITIAL, DoBearer(q)).0, q, secret);
    SR.FirstFinish(0, q.email, secret, 1);
    assert steps[..4] == [steps[0], steps[1], steps[2], steps[3]];
    FourSteps(u, INITIAL, steps[0], steps[1], steps[2], steps[3]);
  }

  lemma StartFirst(u: Setup, s: State, q: A.Principal, providers: map<string, bool>, provider: string, nonce: string)
    requires TokenIssued(s, q) && provider in providers && providers[provider]
    ensures var t := Apply(u, s, DoStartLink(0, 0, Some(0), providers, provider, "", nonce)).0;
      && LiveLink(u, t, Flow(F.Link(u.uuid(0)), provider, "/", nonce, 0), 0, providers)
      && t.acc == s.acc.(links := {0}) && (t.su.log == s.su.log + if u.required then [S.Passed(0, 0, 0)] else [])
  {
    hide T.SignState;
    var f := Flow(F.Link(u.uuid(0)), provider, "/", nonce, 0);
    var t := Apply(u, s, DoStartLink(0, 0, Some(0), providers, provider, "", nonce)).0;
    assert StateOf(u, T.SignState(u.keys, F.PayloadFor(f.purpose, f.provider, f.path, f.nonce, f.at)), f);
    assert t.minted == map[T.SignState(u.keys, F.PayloadFor(f.purpose, f.provider, f.path, f.nonce, f.at)) := f];
  }

  /** From the empty tables, with step-up required: one verification, one pass, and two identities
      linked with the one state it paid for. */
  lemma OnePassTwoIdentities(u: Setup, q: A.Principal, secret: S.Secret, providers: map<string, bool>, provider: string, nonce: string,
                             code: string, p1: A.Principal, p2: A.Principal)
    requires u.required && u.keys.Lawful() && UuidsParse(u) && FirstVouched(u, q) && provider in providers && providers[provider] && code != ""
    requires p1.Key() != p2.Key() && p1.Key() != q.Key() && p2.Key() != q.Key()
    ensures var f := Flow(F.Link(u.uuid(0)), provider, "/", nonce, 0);
      var s := Run(u, INITIAL, StartOnce(q, secret, providers, provider, nonce) + [Answer(u, f, providers, code, p1), Answer(u, f, providers, code, p2)]);
      && S.Verifications(s.su.log, 0) == 1 && S.Passes(s.su.log, 0) == 1
      && p1.Key() in s.acc.idents && s.acc.idents[p1.Key()].account == 0 && p2.Key() in s.acc.idents && s.acc.idents[p2.Key()].account == 0
  {
    hide Apply, S.Apply, Answer, LiveLink;
    var f, steps := Flow(F.Link(u.uuid(0)), provider, "/", nonce, 0), StartOnce(q, secret, providers, provider, nonce);
    IssueFirst(u, q, secret, providers, provider, nonce);
    var s := Run(u, INITIAL, steps[..4]);
    StartFirst(u, s, q, providers, provider, nonce);
    RunAppend(u, INITIAL, steps[..4], [steps[4]]);
    assert steps == steps[..4] + [steps[4]];
    var t := Apply(u, s, steps[4]).0;
    assert Run(u, s, [steps[4]]) == t by {
      assert [steps[4]][1..] == [] && Run(u, t, []) == t;
    }
    StartAnsweredTwice(u, t, f, 0, providers, code, p1, p2);
    RunAppend(u, INITIAL, steps, [Answer(u, f, providers, code, p1), Answer(u, f, providers, code, p2)]);
    assert [S.Verified(0, 0, 0)] == [] + [S.Verified(0, 0, 0)];
    S.CountAppend([], S.Verified(0, 0, 0), 0);
    S.CountAppend([S.Verified(0, 0, 0)], S.Passed(0, 0, 0), 0);
  }
}
