/** The shapes of the credential system's steps, and what the system guarantees over every run: its runs
    project onto runs of the account and the step-up machine, gated changes are paid for by redeemed
    codes, and no last credential is lost. */
module CredentialTheorems {
  import opened Text
  import T = Tokens
  import A = Accounts
  import Safety = AccountSafety
  import S = StepUp
  import ST = StepUpTheorems
  import F = OAuthFlow
  import opened Credentials

  predicate IsGated(step: Step)
  {
    step.DoSetPassword? || step.DoStartLink? || step.DoBegin?
  }

  // ----- shapes of the steps -----

  lemma GateIs(u: Setup, s: State, p: S.Process, a: A.Id, token: Option<nat>)
    ensures var (t, ok) := PassGate(u, s, p, a, token); var x := GatePart(u, s, p, a, token);
      && t == s.(su := if x.Some? then S.Apply(s.su, x.value) else s.su)
      && (ok ==> A.IsVerified(s.acc, a))
      && (ok && u.required ==>
          token.Some? && S.RequireStepUp(true, s.su, p, a, token).1 && t.su.log == s.su.log + [S.Passed(p, a, token.value)])
      && (!ok || !u.required ==> t == s)
  {
  }

  /** Past the gate the state is left as the gate leaves it, or the step is granted and logged. */
  ghost predicate GatedOutcome(u: Setup, s: State, t: State, p: S.Process, a: A.Id, token: Option<nat>)
  {
    var (g, ok) := PassGate(u, s, p, a, token);
    && t.su == g.su && t.checks == s.checks && t.resets == s.resets && t.confirms == s.confirms && t.nextConfirm == s.nextConfirm
    && (t == g || (ok && t.log == s.log + [Changed(a)]))
  }

  lemma SetPasswordIs(u: Setup, s: State, p: S.Process, a: A.Id, token: Option<nat>, password: string, current: string, salt: string)
    ensures var t := SetPassword(u, s, p, a, token, password, current, salt).0;
      && GatedOutcome(u, s, t, p, a, token) && t.minted == s.minted
      && (t.acc == s.acc || t.acc == A.SetPassword(u.cfg, s.acc, a, true, password, current, salt).0)
  {
    GateIs(u, s, p, a, token);
  }

  lemma StartLinkIs(u: Setup, s: State, p: S.Process, a: A.Id, token: Option<nat>, providers: map<string, bool>, provider: string,
                    returnPath: string, nonce: string)
    ensures var t := StartLink(u, s, p, a, token, providers, provider, returnPath, nonce).0;
      && GatedOutcome(u, s, t, p, a, token)
      && (t.acc == s.acc || t.acc == A.StartLink(s.acc, a, true, true).0)
  {
    GateIs(u, s, p, a, token);
  }

  lemma BeginIs(u: Setup, s: State, p: S.Process, a: A.Id, token: Option<nat>, kind: A.TxKind)
    ensures var t := Begin(u, s, p, a, token, kind).0;
      && GatedOutcome(u, s, t, p, a, token) && t.minted == s.minted
      && (t.acc == s.acc || t.acc == A.Begin(s.acc, a, true, kind).0)
  {
    GateIs(u, s, p, a, token);
  }

  lemma GatedIs(u: Setup, s: State, step: Step)
    requires IsGated(step)
    ensures var t := Apply(u, s, step).0; GatedOutcome(u, s, t, step.process, step.a, step.token)
  {
    if step.DoSetPassword? {
      SetPasswordStep(u, s, step);
    } else if step.DoStartLink? {
      StartLinkStep(u, s, step);
    } else {
      BeginStep(u, s, step);
    }
  }

  ghost predicate TakesPart(u: Setup, s: State, t: State, step: Step)
  {
    t.acc == s.acc || (AccountPart(u, s, step).Some? && t.acc == A.Apply(u.cfg, A.Serializable, s.acc, AccountPart(u, s, step).value).0)
  }

  lemma SetPasswordStep(u: Setup, s: State, step: Step)
    requires step.DoSetPassword?
    ensures var t := Apply(u, s, step).0; GatedOutcome(u, s, t, step.process, step.a, step.token) && TakesPart(u, s, t, step)
    ensures Apply(u, s, step).0.minted == s.minted
  {
    hide SetPassword, PassGate, A.SetPassword, StartLink, Begin, EmailEnd, ResetEnd, ResolveStep, EmailSend,
      StepUpSend, ResetRequest, ResetBegin, StartSignIn, Callback, EmailBegin;
    SetPasswordIs(u, s, step.process, step.a, step.token, step.password, step.current, step.salt);
  }

  lemma StartLinkStep(u: Setup, s: State, step: Step)
    requires step.DoStartLink?
    ensures var t := Apply(u, s, step).0; GatedOutcome(u, s, t, step.process, step.a, step.token) && TakesPart(u, s, t, step)
  {
    hide StartLink, PassGate, A.StartLink, SetPassword, Begin, EmailEnd, ResetEnd, ResolveStep, EmailSend,
      StepUpSend, ResetRequest, ResetBegin, StartSignIn, Callback, EmailBegin;
    StartLinkIs(u, s, step.process, step.a, step.token, step.providers, step.provider, step.returnPath, step.nonce);
  }

  lemma BeginStep(u: Setup, s: State, step: Step)
    requires step.DoBegin?
    ensures var t := Apply(u, s, step).0; GatedOutcome(u, s, t, step.process, step.a, step.token) && TakesPart(u, s, t, step)
    ensures Apply(u, s, step).0.minted == s.minted
  {
    hide Begin, PassGate, A.Begin, SetPassword, StartLink, EmailEnd, ResetEnd, ResolveStep, EmailSend,
      StepUpSend, ResetRequest, ResetBegin, StartSignIn, Callback, EmailBegin;
    BeginIs(u, s, step.process, step.a, step.token, step.kind);
  }

  lemma GatedAccounts(u: Setup, s: State, step: Step)
    requires IsGated(step)
    ensures TakesPart(u, s, Apply(u, s, step).0, step)
  {
    if step.DoSetPassword? {
      SetPasswordStep(u, s, step);
    } else if step.DoStartLink? {
      StartLinkStep(u, s, step);
    } else {
      BeginStep(u, s, step);
    }
  }

  predicate OnCodes(step: Step)
  {
    step.Codes? || step.DoEmailEnd? || step.DoEmailSend? || step.DoStepUpSend?
  }

  lemma CodesStep(u: Setup, s: State, step: Step)
    ensures var x := CodesPart(u, s, step); Apply(u, s, step).0.su == if x.Some? then S.Apply(s.su, x.value) else s.su
  {
    hide Apply, S.Apply;
    if IsGated(step) {
      GatedCodes(u, s, step);
    } else if step.DoEmailBegin? {
      BeginCodes(u, s, step);
    } else if step.DoCallback? {
      CallbackKeepsRest(u, s, step);
    } else if OnCodes(step) {
      OwnCodes(u, s, step);
    } else {
      OthersKeepCodes(u, s, step);
    }
  }

  lemma GatedCodes(u: Setup, s: State, step: Step)
    requires IsGated(step)
    ensures var x := CodesPart(u, s, step); Apply(u, s, step).0.su == if x.Some? then S.Apply(s.su, x.value) else s.su
  {
    hide Apply, S.Apply;
    GatedIs(u, s, step);
    GateIs(u, s, step.process, step.a, step.token);
  }

  lemma BeginCodes(u: Setup, s: State, step: Step)
    requires step.DoEmailBegin?
    ensures var x := CodesPart(u, s, step); Apply(u, s, step).0.su == if x.Some? then S.Apply(s.su, x.value) else s.su
  {
    hide SetPassword, StartLink, Begin, EmailEnd, ResetEnd, ResolveStep, EmailSend, StepUpSend, ResetRequest,
      ResetBegin, StartSignIn, Callback;
    EmailBeginIs(u, s, step.process, step.email, step.purpose, step.code);
  }

  lemma OwnCodes(u: Setup, s: State, step: Step)
    requires OnCodes(step)
    ensures var x := CodesPart(u, s, step); Apply(u, s, step).0.su == if x.Some? then S.Apply(s.su, x.value) else s.su
  {
    hide SetPassword, StartLink, Begin, Callback, EmailBegin, ResetEnd, ResolveStep, ResetRequest, ResetBegin,
      StartSignIn, A.Apply, A.MarkVerified;
  }

  lemma OthersKeepCodes(u: Setup, s: State, step: Step)
    requires step.Plain? || step.DoResetRequest? || step.DoResetBegin? || step.DoResetEnd? || step.DoStartSignIn? || step.DoBearer?
    ensures Apply(u, s, step).0.su == s.su
  {
  }

  /** Following a route touches the accounts and the log only. */
  lemma FollowKeepsRest(u: Setup, s: State, route: F.Route)
    ensures var t := Follow(u, s, route).0; t == s.(acc := t.acc, log := t.log) && s.log <= t.log
    ensures var t := Follow(u, s, route).0; forall c | c in t.log[|s.log|..] :: c.Vouched?
  {
  }

  predicate RouteOf(u: Setup, s: State, step: Step, route: F.Route)
  {
    step.DoCallback? && route == F.Callback(u.keys, step.providers, step.provider, step.q, step.reply, s.su.now)
  }

  /** A callback does what its route does, and records the key it bound, if it bound one. */
  lemma CallbackIs(u: Setup, s: State, step: Step, route: F.Route)
    requires RouteOf(u, s, step, route)
    ensures var (t, o) := Apply(u, s, step); var (f, p) := Follow(u, s, route);
      if step.q.state in s.minted then
        o == p && t == if (route.SignInAs? || route.LinkMode?) && route.principal.Key() !in s.acc.idents && route.principal.Key() in f.acc.idents
                       then f.(log := f.log + [Bound(step.q.state, route.principal.Key())]) else f
      else t == s && o == A.BadRequest
  {
    hide SetPassword, StartLink, Begin, EmailEnd, ResetEnd, ResolveStep, EmailSend, StepUpSend, ResetRequest,
      ResetBegin, StartSignIn, EmailBegin, Follow, F.Callback;
  }

  lemma CallbackKeepsRest(u: Setup, s: State, step: Step)
    requires step.DoCallback?
    ensures var t := Apply(u, s, step).0;
      t == s.(acc := t.acc, log := t.log) && s.log <= t.log && forall c | c in t.log[|s.log|..] :: c.Vouched? || c.Bound?
  {
    var route := F.Callback(u.keys, step.providers, step.provider, step.q, step.reply, s.su.now);
    CallbackIs(u, s, step, route);
    FollowKeepsRest(u, s, route);
  }

  predicate Begun(s: State, t: State, a: A.Id, found: (S.State, Option<nat>))
  {
    a in s.acc.accounts && found.1.Some? && t == s.(su := found.0, checks := s.checks[found.1.value := s.acc.accounts[a].email])
  }

  lemma EmailBeginIs(u: Setup, s: State, p: S.Process, email: string, purpose: string, code: string)
    ensures var (t, o) := EmailBegin(u, s, p, email, purpose, code); var a := A.FindByEmail(u.cfg, s.acc, u.cfg.normalise(email));
      && (o != A.Done ==> t == s)
      && (o == A.Done ==> a.Some? && Begun(s, t, a.value, S.EmailLookUp(s.su, p, a.value, purpose, code)))
      && (o != A.Done && u.cfg.normalise(email) != "" && code != "" && a.Some? ==> S.EmailLookUp(s.su, p, a.value, purpose, code).0 == s.su)
  {
    var a := A.FindByEmail(u.cfg, s.acc, u.cfg.normalise(email));
    if a.Some? {
      S.LookUpShape(s.su, p, a.value, S.PurposeOf(purpose), code, false);
    }
  }

  predicate KeepsAccounts(step: Step)
  {
    step.Codes? || step.DoEmailSend? || step.DoStepUpSend? || step.DoResetRequest? || step.DoResetBegin? || step.DoStartSignIn?
  }

  lemma AccountStep(u: Setup, s: State, step: Step)
    ensures TakesPart(u, s, Apply(u, s, step).0, step)
  {
    if IsGated(step) {
      GatedAccounts(u, s, step);
    } else if step.DoEmailBegin? {
      EmailBeginIs(u, s, step.process, step.email, step.purpose, step.code);
    } else if step.DoCallback? {
      CallbackAccounts(u, s, step);
    } else if step.DoEmailEnd? || step.DoResetEnd? {
      EndAccounts(u, s, step);
    } else if KeepsAccounts(step) {
      AccountsKept(u, s, step);
    } else if step.DoBearer? {
      BearerAccounts(u, s, step);
    } else {
      PlainAccounts(u, s, step);
    }
  }

  lemma CallbackAccounts(u: Setup, s: State, step: Step)
    requires step.DoCallback?
    ensures TakesPart(u, s, Apply(u, s, step).0, step)
  {
    hide Follow, F.Callback, A.Apply, Apply;
    var route := F.Callback(u.keys, step.providers, step.provider, step.q, step.reply, s.su.now);
    CallbackIs(u, s, step, route);
    FollowAccounts(u, s, route);
  }

  lemma AccountsKept(u: Setup, s: State, step: Step)
    requires KeepsAccounts(step)
    ensures Apply(u, s, step).0.acc == s.acc
  {
  }

  lemma FollowAccounts(u: Setup, s: State, route: F.Route)
    ensures var t := Follow(u, s, route).0; var x := RoutePart(u, s, route);
      t.acc == s.acc || (x.Some? && t.acc == A.Apply(u.cfg, A.Serializable, s.acc, x.value).0)
  {
    hide A.Resolve, ResolveStep;
    if route.SignInAs? {
      ResolveStepIs(u, s, route.principal);
    } else if route.LinkMode? && u.cfg.parseUuid(route.account).Some? {
      assert Follow(u, s, route).0.acc == A.LinkCallback(s.acc, u.cfg.parseUuid(route.account).value, route.principal, s.su.now).0;
    }
  }

  lemma EndAccounts(u: Setup, s: State, step: Step)
    requires step.DoEmailEnd? || step.DoResetEnd?
    ensures TakesPart(u, s, Apply(u, s, step).0, step)
  {
    hide SetPassword, StartLink, Begin, Callback, EmailBegin, EmailSend, StepUpSend, ResetRequest, ResetBegin,
      StartSignIn, ResolveStep, S.Finish;
  }

  lemma PlainAccounts(u: Setup, s: State, step: Step)
    requires step.Plain?
    ensures TakesPart(u, s, Apply(u, s, step).0, step)
  {
  }

  lemma BearerAccounts(u: Setup, s: State, step: Step)
    requires step.DoBearer?
    ensures TakesPart(u, s, Apply(u, s, step).0, step)
  {
    hide A.Resolve, ResolveStep;
    ResolveStepIs(u, s, step.p);
  }

  lemma ResolveStepIs(u: Setup, s: State, p: A.Principal)
    ensures ResolveStep(u, s, p).0.acc == A.Resolve(u.cfg, s.acc, p, s.su.now).0
  {
    hide A.Resolve;
  }

  // ----- projections of runs -----

  lemma {:induction false} CodesRunIs(u: Setup, s: State, steps: seq<Step>)
    ensures Run(u, s, steps).su == S.Run(s.su, CodesRun(u, s, steps))
    decreases |steps|
  {
    if steps != [] {
      var t := Apply(u, s, steps[0]).0;
      var x, rest := CodesPart(u, s, steps[0]), CodesRun(u, t, steps[1..]);
      CodesStep(u, s, steps[0]);
      CodesRunIs(u, t, steps[1..]);
      if x.Some? {
        assert ([x.value] + rest)[1..] == rest;
      } else {
        assert [] + rest == rest;
      }
    }
  }

  /** Every gated step is taken at this process, which does not restart. */
  predicate OneProcess(steps: seq<Step>, p: S.Process)
  {
    forall step | step in steps :: (IsGated(step) ==> step.process == p) && step != Codes(S.DoRestart(p))
  }

  predicate GatedOnlyAt(steps: seq<Step>, at: set<S.Process>)
  {
    forall step | step in steps && IsGated(step) :: step.process in at
  }

  lemma {:induction false} ProcessesInCodes(u: Setup, s: State, steps: seq<Step>, p: S.Process, at: set<S.Process>)
    ensures OneProcess(steps, p) ==> S.OneProcess(CodesRun(u, s, steps), p)
    ensures GatedOnlyAt(steps, at) ==> ST.GatesOnlyAt(CodesRun(u, s, steps), at)
    decreases |steps|
  {
    if steps != [] {
      var x, rest := CodesPart(u, s, steps[0]), CodesRun(u, Apply(u, s, steps[0]).0, steps[1..]);
      assert steps[0] in steps && forall step | step in steps[1..] :: step in steps;
      PartProcess(u, s, steps[0]);
      ProcessesInCodes(u, Apply(u, s, steps[0]).0, steps[1..], p, at);
      assert CodesRun(u, s, steps) == (if x.Some? then [x.value] else []) + rest;
    }
  }

  lemma PartProcess(u: Setup, s: State, step: Step)
    ensures var x := CodesPart(u, s, step);
      x.Some? ==>
        && (x.value.DoGate? ==> IsGated(step) && x.value.process == step.process)
        && (x.value.DoRestart? ==> step == Codes(x.value))
  {
  }

  /** Every code consumption succeeds and no request finds a row another one holds. */
  ghost predicate Clean(u: Setup, steps: seq<Step>)
  {
    ST.AllClean(CodesRun(u, INITIAL, steps))
  }

  // ----- gated changes are paid for -----

  function Changes(log: seq<Change>, a: A.Id): nat
  {
    if log == [] then 0
    else Changes(log[..|log| - 1], a) + if log[|log| - 1] == Changed(a) then 1 else 0
  }

  lemma ChangesAppend(log: seq<Change>, c: Change, a: A.Id)
    ensures Changes(log + [c], a) == Changes(log, a) + if c == Changed(a) then 1 else 0
  {
    assert (log + [c])[..|log|] == log;
  }

  ghost predicate Earned(u: Setup, s: State)
  {
    u.required ==> forall a :: Changes(s.log, a) <= S.Passes(s.su.log, a)
  }

  lemma PassesGrow(su: S.State, x: S.Step, a: A.Id)
    requires S.Valid(su)
    ensures S.Passes(su.log, a) <= S.Passes(S.Apply(su, x).log, a)
  {
    var t := S.Apply(su, x);
    ST.LogGrows(su, x);
    if t.log != su.log {
      S.CountAppend(su.log, t.log[|su.log|], a);
    }
  }

  lemma {:induction false} NoChangesAdded(log: seq<Change>, more: seq<Change>, a: A.Id)
    requires log <= more && forall c | c in more[|log|..] :: !c.Changed?
    ensures Changes(more, a) == Changes(log, a)
    decreases |more|
  {
    if |more| > |log| {
      var prefix, c := more[..|more| - 1], more[|more| - 1];
      assert more[|log|..][|more| - 1 - |log|] == c && more == prefix + [c];
      assert forall d | d in prefix[|log|..] :: d in more[|log|..];
      NoChangesAdded(log, prefix, a);
      ChangesAppend(prefix, c, a);
    } else {
      assert more == log;
    }
  }

  lemma UngatedLog(u: Setup, s: State, step: Step)
    requires !IsGated(step)
    ensures var t := Apply(u, s, step).0; s.log <= t.log && forall c | c in t.log[|s.log|..] :: !c.Changed?
  {
    if step.DoEmailBegin? {
      EmailBeginIs(u, s, step.process, step.email, step.purpose, step.code);
    } else if step.DoCallback? {
      CallbackKeepsRest(u, s, step);
    } else if step.DoResetEnd? {
      ResetLog(u, s, step.request, step.salt, step.consumeOk);
    } else {
      OthersLog(u, s, step);
    }
  }

  lemma OthersLog(u: Setup, s: State, step: Step)
    requires step.Plain? || KeepsAccounts(step) || step.DoEmailEnd? || step.DoBearer?
    ensures var t := Apply(u, s, step).0; s.log <= t.log && forall c | c in t.log[|s.log|..] :: c.Vouched? && step.DoBearer?
  {
    hide SetPassword, StartLink, Begin, Callback, EmailBegin, ResetEnd, A.Apply, S.Apply, F.AuthorizeState,
      A.MarkVerified, S.Finish;
  }

  lemma ResetLog(u: Setup, s: State, r: nat, salt: string, consumeOk: bool)
    ensures var t := ResetEnd(u, s, r, salt, consumeOk).0;
      t.log == s.log || (r in s.confirms && t.log == s.log + [ResetUsed(u.digest(s.confirms[r].token))])
  {
  }

  lemma StepKeepsEarned(u: Setup, s: State, step: Step)
    requires S.Valid(s.su) && Earned(u, s)
    ensures Earned(u, Apply(u, s, step).0)
  {
    if u.required {
      if IsGated(step) {
        GatedIs(u, s, step);
        GatedEarned(u, s, Apply(u, s, step).0, step.process, step.a, step.token);
      } else {
        UngatedEarned(u, s, step);
      }
    }
  }

  lemma GatedEarned(u: Setup, s: State, t: State, p: S.Process, a: A.Id, token: Option<nat>)
    requires u.required && S.Valid(s.su) && Earned(u, s) && GatedOutcome(u, s, t, p, a, token)
    ensures Earned(u, t)
  {
    GateIs(u, s, p, a, token);
    forall b ensures Changes(t.log, b) <= S.Passes(t.su.log, b) {
      if t.log != s.log {
        ChangesAppend(s.log, Changed(a), b);
        S.CountAppend(s.su.log, S.Passed(p, a, token.value), b);
      } else if GatePart(u, s, p, a, token).Some? {
        PassesGrow(s.su, S.DoGate(p, a, token), b);
      }
    }
  }

  lemma UngatedEarned(u: Setup, s: State, step: Step)
    requires S.Valid(s.su) && u.required && Earned(u, s) && !IsGated(step)
    ensures Earned(u, Apply(u, s, step).0)
  {
    var t := Apply(u, s, step).0;
    CodesStep(u, s, step);
    UngatedLog(u, s, step);
    forall a ensures Changes(t.log, a) <= S.Passes(t.su.log, a) {
      NoChangesAdded(s.log, t.log, a);
      if CodesPart(u, s, step).Some? {
        PassesGrow(s.su, CodesPart(u, s, step).value, a);
      }
    }
  }

  lemma StepKeepsCodes(u: Setup, s: State, step: Step)
    requires S.Valid(s.su)
    ensures S.Valid(Apply(u, s, step).0.su)
  {
    CodesStep(u, s, step);
    if CodesPart(u, s, step).Some? {
      S.StepKeepsValid(s.su, CodesPart(u, s, step).value);
    }
  }

  lemma {:induction false} RunKeepsEarned(u: Setup, s: State, steps: seq<Step>)
    requires S.Valid(s.su) && Earned(u, s)
    ensures S.Valid(Run(u, s, steps).su) && Earned(u, Run(u, s, steps))
    decreases |steps|
  {
    if steps != [] {
      StepKeepsCodes(u, s, steps[0]);
      StepKeepsEarned(u, s, steps[0]);
      RunKeepsEarned(u, Apply(u, s, steps[0]).0, steps[1..]);
    }
  }

  /** With step-up required, over any run of the whole system, the gated changes granted to an account
      are at most its passes, so at most its verifications and repeats, and at most its verifications
      times the processes that take gated steps and their restarts; at one process that stays up at
      most its verifications, and in clean runs its redeemed credential_change rows. */
  lemma ChangesAreEarned(u: Setup, steps: seq<Step>, a: A.Id, p: S.Process, at: set<S.Process>)
    requires u.required
    ensures var s := Run(u, INITIAL, steps);
      && Changes(s.log, a) + |S.Outstanding(s.su, a)| <= S.Verifications(s.su.log, a) + S.Repeats(s.su.log, a)
      && (GatedOnlyAt(steps, at) ==> Changes(s.log, a) <= S.Verifications(s.su.log, a) * (|at| + ST.Restarts(s.su.log, at)))
      && (OneProcess(steps, p) ==> Changes(s.log, a) <= S.Verifications(s.su.log, a))
      && (OneProcess(steps, p) && Clean(u, steps) ==>
          Changes(s.log, a) <= |S.Redeemed(s.su.log, a)| <= |S.ConsumedCodes(s.su, a)|)
  {
    hide Apply, CodesPart;
    S.InitialValid();
    RunEarned(u, INITIAL, steps, CodesRun(u, INITIAL, steps), p, at);
    ChangesBounded(u, Run(u, INITIAL, steps), CodesRun(u, INITIAL, steps), a, p, at);
  }

  /** A run from a start without history, and the run of the step-up machine it takes. */
  lemma RunEarned(u: Setup, s: State, steps: seq<Step>, codes: seq<S.Step>, p: S.Process, at: set<S.Process>)
    requires S.Valid(s.su) && Earned(u, s) && codes == CodesRun(u, s, steps)
    ensures Earned(u, Run(u, s, steps)) && Run(u, s, steps).su == S.Run(s.su, codes)
    ensures OneProcess(steps, p) ==> S.OneProcess(codes, p)
    ensures GatedOnlyAt(steps, at) ==> ST.GatesOnlyAt(codes, at)
  {
    RunKeepsEarned(u, s, steps);
    CodesRunIs(u, s, steps);
    ProcessesInCodes(u, s, steps, p, at);
  }

  lemma ChangesBounded(u: Setup, s: State, codes: seq<S.Step>, a: A.Id, p: S.Process, at: set<S.Process>)
    requires u.required && Earned(u, s) && s.su == S.Run(S.INITIAL, codes)
    ensures Changes(s.log, a) + |S.Outstanding(s.su, a)| <= S.Verifications(s.su.log, a) + S.Repeats(s.su.log, a)
    ensures ST.GatesOnlyAt(codes, at) ==> Changes(s.log, a) <= S.Verifications(s.su.log, a) * (|at| + ST.Restarts(s.su.log, at))
    ensures S.OneProcess(codes, p) ==> Changes(s.log, a) <= S.Verifications(s.su.log, a)
    ensures S.OneProcess(codes, p) && ST.AllClean(codes) ==> Changes(s.log, a) <= |S.Redeemed(s.su.log, a)| <= |S.ConsumedCodes(s.su, a)|
  {
    ST.PassesAreEarned(codes, p, a);
    if ST.GatesOnlyAt(codes, at) {
      ST.AccountPassesBounded(codes, a, at);
    }
    if ST.AllClean(codes) {
      ST.SubsetSize(S.Redeemed(s.su.log, a), S.ConsumedCodes(s.su, a));
    }
  }

  /** Where the check on email_codes.purpose leaves out credential_change and step-up is required, no
      password change, link start or removal is ever granted. */
  lemma CheckGrantsNothing(u: Setup, steps: seq<Step>, a: A.Id, purposes: set<string>)
    requires u.required && T.STEP_UP_PURPOSE !in purposes && ST.Admits(purposes, CodesRun(u, INITIAL, steps))
    ensures Changes(Run(u, INITIAL, steps).log, a) == 0
  {
    hide Apply, CodesPart;
    S.InitialValid();
    RunEarned(u, INITIAL, steps, CodesRun(u, INITIAL, steps), 0, {});
    ST.NothingPasses(CodesRun(u, INITIAL, steps), a, purposes);
  }

  // ----- the accounts' own invariants -----

  lemma StepKeepsAccounts(u: Setup, s: State, step: Step)
    requires Safety.Valid(s.acc)
    ensures Safety.Valid(Apply(u, s, step).0.acc)
  {
    AccountStep(u, s, step);
    if AccountPart(u, s, step).Some? {
      Safety.ApplyKeeps(u.cfg, A.Serializable, s.acc, AccountPart(u, s, step).value);
    }
  }

  /** No run of the whole system takes an account's last credential. */
  lemma {:induction false} LastCredentialSurvives(u: Setup, s: State, steps: seq<Step>, a: A.Id)
    requires Safety.Valid(s.acc) && Safety.HasCredential(s.acc, a)
    ensures Safety.HasCredential(Run(u, s, steps).acc, a)
    decreases |steps|
  {
    if steps != [] {
      AccountStep(u, s, steps[0]);
      StepKeepsAccounts(u, s, steps[0]);
      if AccountPart(u, s, steps[0]).Some? {
        Safety.SerializableStepKeepsCredential(u.cfg, s.acc, AccountPart(u, s, steps[0]).value, a);
      }
      LastCredentialSurvives(u, Apply(u, s, steps[0]).0, steps[1..], a);
    }
  }

  // ----- short runs -----

  lemma TwoSteps(u: Setup, s: State, x: Step, y: Step)
    ensures Run(u, s, [x, y]) == Apply(u, Apply(u, s, x).0, y).0
  {
    hide Apply;
    assert [x, y][1..] == [y] && [y][1..] == [];
    assert Run(u, Apply(u, s, x).0, [y]) == Run(u, Apply(u, Apply(u, s, x).0, y).0, []);
  }

  lemma {:induction false} RunAppend(u: Setup, s: State, x: seq<Step>, y: seq<Step>)
    ensures Run(u, s, x + y) == Run(u, Run(u, s, x), y)
    decreases |x|
  {
    hide Apply;
    if x == [] {
      assert x + y == y;
    } else {
      assert (x + y)[1..] == x[1..] + y;
      RunAppend(u, Apply(u, s, x[0]).0, x[1..], y);
    }
  }

  lemma FourSteps(u: Setup, s: State, w: Step, x: Step, y: Step, z: Step)
    ensures Run(u, s, [w, x, y, z]) == Apply(u, Apply(u, Apply(u, Apply(u, s, w).0, x).0, y).0, z).0
  {
    hide Apply;
    assert [w, x, y, z] == [w, x] + [y, z];
    RunAppend(u, s, [w, x], [y, z]);
    TwoSteps(u, s, w, x);
    TwoSteps(u, Apply(u, Apply(u, s, w).0, x).0, y, z);
  }
}
