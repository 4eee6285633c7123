/** What stands behind a verification mark in the whole credential system: a code mailed and redeemed,
    or a provider's word; and when it is the account's own address that was proved. */
module CredentialEvidence {
  import opened Text
  import T = Tokens
  import A = Accounts
  import Safety = AccountSafety
  import AF = AccountFrames
  import AT = AccountTheorems
  import S = StepUp
  import ST = StepUpTheorems
  import F = OAuthFlow
  import opened Credentials
  import opened CredentialTheorems

  // ----- evidence -----

  /** A code mailed to x for the account and for another purpose than login was redeemed by EmailCodeVerify. */
  ghost predicate CodeProves(su: S.State, a: A.Id, x: string)
  {
    exists e :: e in su.log && e.Checked? && e.account == a && RowProves(su, e.code, a, x)
  }

  predicate RowProves(su: S.State, c: nat, a: A.Id, x: string)
  {
    c in su.codes && su.codes[c].account == a && su.codes[c].address == x && su.codes[c].purpose != "login"
  }

  ghost predicate Proved(s: State, a: A.Id, x: string)
  {
    Vouched(a, x) in s.log || CodeProves(s.su, a, x)
  }

  ghost predicate HasEvidence(s: State, a: A.Id)
  {
    exists x :: Proved(s, a, x)
  }

  /** Rows keep what they say, and a new row is the one sent. */
  lemma CodeRows(su: S.State, x: S.Step)
    requires S.Valid(su)
    ensures var t := S.Apply(su, x);
      && (forall c | c in su.codes :: c in t.codes && t.codes[c].account == su.codes[c].account
            && t.codes[c].address == su.codes[c].address && t.codes[c].purpose == su.codes[c].purpose)
      && (forall c | c in t.codes && c !in su.codes :: x.DoSend? && t.codes[c].account == x.account && t.codes[c].address == x.address)
  {
    if x.DoFinish? {
      FinishRows(su, x.request, x.consumeOk);
    } else if x.DoStepUpLookUp? {
      S.LookUpShape(su, x.process, x.account, T.STEP_UP_PURPOSE, x.code, true);
    } else if x.DoEmailLookUp? {
      S.LookUpShape(su, x.process, x.account, S.PurposeOf(x.purpose), x.code, false);
    }
  }

  lemma FinishRows(su: S.State, r: nat, consumeOk: bool)
    requires S.Valid(su)
    ensures var t := S.Finish(su, r, consumeOk).0;
      && t.codes.Keys == su.codes.Keys
      && forall c | c in su.codes :: t.codes[c] == su.codes[c].(consumed := t.codes[c].consumed)
  {
    if r in su.requests {
      S.FinishShape(su, r, consumeOk);
    }
  }

  lemma LogGrows(u: Setup, s: State, step: Step)
    ensures s.log <= Apply(u, s, step).0.log
  {
    if IsGated(step) {
      GatedIs(u, s, step);
      GateIs(u, s, step.process, step.a, step.token);
    } else {
      UngatedLog(u, s, step);
    }
  }

  lemma ProvedStays(u: Setup, s: State, step: Step)
    requires S.Valid(s.su)
    ensures forall a, x | Proved(s, a, x) :: Proved(Apply(u, s, step).0, a, x)
  {
    hide Apply, CodesPart;
    var t := Apply(u, s, step).0;
    CodesStep(u, s, step);
    LogGrows(u, s, step);
    assert forall c | c in s.log :: c in t.log;
    if CodesPart(u, s, step).Some? {
      CodesKeepProof(s.su, CodesPart(u, s, step).value);
    }
  }

  lemma CodesKeepProof(su: S.State, step: S.Step)
    requires S.Valid(su)
    ensures forall a, x | CodeProves(su, a, x) :: CodeProves(S.Apply(su, step), a, x)
  {
    hide S.Apply;
    var t := S.Apply(su, step);
    ST.LogGrows(su, step);
    CodeRows(su, step);
    forall a, x | CodeProves(su, a, x) ensures CodeProves(t, a, x) {
      var e :| e in su.log && e.Checked? && e.account == a && RowProves(su, e.code, a, x);
      assert e in t.log && RowProves(t, e.code, a, x);
    }
  }

  /** The step ends an EmailCodeVerify of the account that marks it verified. */
  predicate EndsFor(s: State, step: Step, a: A.Id)
  {
    step.DoEmailEnd? && CheckOpen(s, step.request) && !ForLogin(s, step.request) && s.su.requests[step.request].account == a
  }

  /** It proves where its code was mailed. */
  lemma EndProves(u: Setup, s: State, step: Step, a: A.Id)
    requires S.Valid(s.su) && EndsFor(s, step, a)
    ensures Proved(Apply(u, s, step).0, a, s.su.codes[s.su.requests[step.request].code].address)
  {
    hide A.MarkVerified, SetPassword, StartLink, Begin, Callback, EmailBegin, EmailSend, StepUpSend,
      ResetRequest, ResetBegin, StartSignIn, ResetEnd, ResolveStep;
    var r := step.request;
    S.FinishShape(s.su, r, step.consumeOk);
    var t := S.Finish(s.su, r, step.consumeOk).0;
    assert Apply(u, s, step).0.su == t;
    var e := t.log[|s.su.log|];
    assert e in t.log && e.Checked? && RowProves(t, e.code, a, s.su.codes[s.su.requests[r].code].address);
  }

  /** The step writes an update that read the account's mark set. */
  predicate WritesSetMark(s: State, step: Step, a: A.Id)
  {
    step.Plain? && step.step.DoUpdateWrite? && step.step.update in s.acc.updates
    && s.acc.updates[step.step.update].account == a && s.acc.updates[step.step.update].verified
  }

  /** What makes an account verified. */
  ghost predicate Marks(s: State, step: Step, t: State, a: A.Id)
  {
    || EndsFor(s, step, a)
    || (a in t.acc.accounts && Vouched(a, t.acc.accounts[a].email) in t.log)
    || WritesSetMark(s, step, a)
  }

  lemma NewlyVerified(u: Setup, s: State, step: Step, a: A.Id)
    requires Safety.Valid(s.acc)
    requires !A.IsVerified(s.acc, a) && A.IsVerified(Apply(u, s, step).0.acc, a)
    ensures Marks(s, step, Apply(u, s, step).0, a)
  {
    hide Apply, A.Apply;
    AccountStep(u, s, step);
    var x := AccountPart(u, s, step).value;
    AF.VerifiedOnlyBy(u.cfg, A.Serializable, s.acc, x, a);
    PartWrites(u, s, step);
    PartResolves(u, s, step);
    if step.DoBearer? {
      BearerVouches(u, s, step, a);
    } else if step.DoCallback? {
      CallbackVouches(u, s, step, a);
    }
  }

  predicate EndsCheck(s: State, step: Step, x: A.Step)
  {
    && step.DoEmailEnd? && CheckOpen(s, step.request) && !ForLogin(s, step.request)
    && x == A.DoVerifyEmail(s.su.requests[step.request].account, s.checks[step.request])
  }

  /** Which steps write an email or a mark. */
  lemma PartWrites(u: Setup, s: State, step: Step)
    ensures var x := AccountPart(u, s, step);
      x.Some? ==>
        && (x.value.DoUpdateWrite? ==> step == Plain(x.value))
        && (x.value.DoVerifyEmail? ==> EndsCheck(s, step, x.value))
  {
  }

  lemma PartResolves(u: Setup, s: State, step: Step)
    ensures var x := AccountPart(u, s, step); x.Some? && x.value.DoResolve? ==> step.DoBearer? || step.DoCallback?
    ensures var x := AccountPart(u, s, step); step.DoCallback? && x.Some? ==> x.value.DoResolve? || x.value.DoLinkCallback?
  {
  }

  lemma BearerVouches(u: Setup, s: State, step: Step, a: A.Id)
    requires Safety.Valid(s.acc) && step.DoBearer?
    requires !A.IsVerified(s.acc, a) && A.IsVerified(Apply(u, s, step).0.acc, a)
    ensures var t := Apply(u, s, step).0; Vouched(a, t.acc.accounts[a].email) in t.log
  {
    hide ResolveStep;
    ResolveVouches(u, s, step.p, a);
  }

  lemma ResolveVouches(u: Setup, s: State, p: A.Principal, a: A.Id)
    requires Safety.Valid(s.acc) && !A.IsVerified(s.acc, a) && A.IsVerified(ResolveStep(u, s, p).0.acc, a)
    ensures var t := ResolveStep(u, s, p).0; Vouched(a, t.acc.accounts[a].email) in t.log
  {
    AF.ResolveVerifies(u.cfg, s.acc, p, s.su.now, a);
  }

  lemma CallbackVouches(u: Setup, s: State, step: Step, a: A.Id)
    requires Safety.Valid(s.acc) && AccountPart(u, s, step).Some? && AccountPart(u, s, step).value.DoResolve? && step.DoCallback?
    requires !A.IsVerified(s.acc, a) && A.IsVerified(Apply(u, s, step).0.acc, a)
    ensures var t := Apply(u, s, step).0; Vouched(a, t.acc.accounts[a].email) in t.log
  {
    var route := F.Callback(u.keys, step.providers, step.provider, step.q, step.reply, s.su.now);
    assert route.SignInAs?;
    CallbackIs(u, s, step, route);
    var f := Follow(u, s, route).0;
    assert f == ResolveStep(u, s, route.principal).0;
    ResolveVouches(u, s, route.principal, a);
  }

  /** Verified accounts, and updates that read a set mark, have evidence. */
  ghost predicate Evidenced(s: State)
  {
    && (forall a | A.IsVerified(s.acc, a) :: HasEvidence(s, a))
    && (forall n | n in s.acc.updates && s.acc.updates[n].verified :: HasEvidence(s, s.acc.updates[n].account))
  }

  lemma UpdatesRead(u: Setup, s: State, step: Step, n: nat)
    requires n in Apply(u, s, step).0.acc.updates
    ensures var q := Apply(u, s, step).0.acc.updates[n];
      (n in s.acc.updates && q == s.acc.updates[n]) || (q.verified == A.IsVerified(s.acc, q.account))
  {
    hide Apply, A.Apply;
    AccountStep(u, s, step);
    if Apply(u, s, step).0.acc != s.acc {
      AF.TokensOnlyBy(u.cfg, A.Serializable, s.acc, AccountPart(u, s, step).value);
    }
  }

  lemma StepKeepsEvidence(u: Setup, s: State, step: Step)
    requires S.Valid(s.su) && Safety.Valid(s.acc) && Evidenced(s)
    ensures Evidenced(Apply(u, s, step).0)
  {
    hide Apply;
    var t := Apply(u, s, step).0;
    ProvedStays(u, s, step);
    assert forall a | HasEvidence(s, a) :: HasEvidence(t, a);
    forall a | A.IsVerified(t.acc, a) && !A.IsVerified(s.acc, a) ensures HasEvidence(t, a) {
      NewlyVerified(u, s, step, a);
      MarkHasEvidence(u, s, step, a);
    }
    forall n | n in t.acc.updates && t.acc.updates[n].verified ensures HasEvidence(t, t.acc.updates[n].account) {
      UpdatesRead(u, s, step, n);
    }
  }

  lemma MarkHasEvidence(u: Setup, s: State, step: Step, a: A.Id)
    requires S.Valid(s.su) && Evidenced(s) && Marks(s, step, Apply(u, s, step).0, a)
    ensures HasEvidence(Apply(u, s, step).0, a)
  {
    hide Apply;
    var t := Apply(u, s, step).0;
    ProvedStays(u, s, step);
    if EndsFor(s, step, a) {
      EndProves(u, s, step, a);
    } else if a in t.acc.accounts && Vouched(a, t.acc.accounts[a].email) in t.log {
      assert Proved(t, a, t.acc.accounts[a].email);
    }
  }

  lemma {:induction false} RunKeepsEvidence(u: Setup, s: State, steps: seq<Step>)
    requires S.Valid(s.su) && Safety.Valid(s.acc) && Evidenced(s)
    ensures Evidenced(Run(u, s, steps))
    decreases |steps|
  {
    hide Apply;
    if steps != [] {
      StepKeepsCodes(u, s, steps[0]);
      StepKeepsAccounts(u, s, steps[0]);
      StepKeepsEvidence(u, s, steps[0]);
      RunKeepsEvidence(u, Apply(u, s, steps[0]).0, steps[1..]);
    }
  }

  /** In every reachable state a verified account redeemed a code mailed for it, for a purpose other
      than login, or signed in through a provider that vouched for the address it then had. */
  lemma VerifiedHasEvidence(u: Setup, steps: seq<Step>, a: A.Id)
    ensures A.IsVerified(Run(u, INITIAL, steps).acc, a) ==> HasEvidence(Run(u, INITIAL, steps), a)
  {
    hide Apply;
    S.InitialValid();
    AT.EmptyValid();
    RunKeepsEvidence(u, INITIAL, steps);
  }

  // ----- the address proved is the account's -----

  /** The step is the write of an update that gives the account another email. */
  ghost predicate Readdresses(u: Setup, s: State, step: Step, a: A.Id)
  {
    && step.Plain? && step.step.DoUpdateWrite? && step.step.update in s.acc.updates && a in s.acc.accounts
    && var q := s.acc.updates[step.step.update];
       q.account == a && q.email != s.acc.accounts[a].email && A.EmailFreeFor(s.acc, q.email, a)
  }

  predicate HasEmail(s: State, a: A.Id, x: string)
  {
    a in s.acc.accounts && s.acc.accounts[a].email == x
  }

  /** The account's codes were mailed to its address, its requests under way read it, and its mark,
      set or read, is backed by a proof of it. */
  ghost predicate AtAddress(s: State, a: A.Id)
  {
    && (forall c | c in s.su.codes && s.su.codes[c].account == a :: HasEmail(s, a, s.su.codes[c].address))
    && (forall r | CheckOpen(s, r) && s.su.requests[r].account == a :: HasEmail(s, a, s.checks[r]))
    && (A.IsVerified(s.acc, a) ==> Proved(s, a, s.acc.accounts[a].email))
    && (forall n | n in s.acc.updates && s.acc.updates[n].account == a && s.acc.updates[n].verified ::
          a in s.acc.accounts && Proved(s, a, s.acc.accounts[a].email))
  }

  lemma EmailStays(u: Setup, s: State, step: Step, a: A.Id)
    requires Safety.Valid(s.acc) && AtAddress(s, a) && !Readdresses(u, s, step, a) && a in s.acc.accounts
    ensures HasEmail(Apply(u, s, step).0, a, s.acc.accounts[a].email)
  {
    var t := Apply(u, s, step).0;
    AccountStep(u, s, step);
    if t.acc != s.acc {
      var x := AccountPart(u, s, step).value;
      AF.EmailChangedOnlyBy(u.cfg, A.Serializable, s.acc, x, a);
      PartWrites(u, s, step);
      if x.DoUpdateWrite? {
        WriteKeepsEmail(u, s, step, a);
      }
    }
  }

  lemma WriteKeepsEmail(u: Setup, s: State, step: Step, a: A.Id)
    requires step.Plain? && step.step.DoUpdateWrite? && a in s.acc.accounts && !Readdresses(u, s, step, a)
    ensures HasEmail(Apply(u, s, step).0, a, s.acc.accounts[a].email)
  {
    AF.WriteShape(s.acc, step.step.update);
  }

  /** A code row of the account is an old one, or was just mailed to its address. */
  lemma CodesAddressed(u: Setup, s: State, step: Step, c: nat)
    requires S.Valid(s.su) && c in Apply(u, s, step).0.su.codes
    ensures var t := Apply(u, s, step).0; var row := t.su.codes[c];
      if c in s.su.codes then row.account == s.su.codes[c].account && row.address == s.su.codes[c].address
      else HasEmail(s, row.account, row.address)
  {
    hide Apply, S.Apply;
    CodesStep(u, s, step);
    if CodesPart(u, s, step).Some? {
      CodeRows(s.su, CodesPart(u, s, step).value);
      PartSends(u, s, step);
    }
  }

  lemma PartSends(u: Setup, s: State, step: Step)
    ensures var x := CodesPart(u, s, step); x.Some? && x.value.DoSend? ==> HasEmail(s, x.value.account, x.value.address)
  {
  }

  /** An EmailCodeVerify under way was under way before, or just read its account's address. */
  lemma ChecksRead(u: Setup, s: State, step: Step, r: nat)
    requires S.Valid(s.su) && CheckOpen(Apply(u, s, step).0, r)
    ensures var t := Apply(u, s, step).0; var q := t.su.requests[r];
      || (CheckOpen(s, r) && q == s.su.requests[r] && t.checks[r] == s.checks[r])
      || HasEmail(s, q.account, t.checks[r])
  {
    hide Apply, S.Apply;
    var t := Apply(u, s, step).0;
    CodesStep(u, s, step);
    if step.DoEmailBegin? {
      BeginReads(u, s, step, r);
    } else {
      OthersKeepChecks(u, s, step);
      if CodesPart(u, s, step).Some? {
        RequestsKept(s.su, CodesPart(u, s, step).value, r);
        PartLooksUp(u, s, step);
      }
    }
  }

  lemma BeginReads(u: Setup, s: State, step: Step, r: nat)
    requires S.Valid(s.su) && step.DoEmailBegin? && CheckOpen(Apply(u, s, step).0, r)
    ensures var t := Apply(u, s, step).0; var q := t.su.requests[r];
      || (CheckOpen(s, r) && q == s.su.requests[r] && t.checks[r] == s.checks[r])
      || HasEmail(s, q.account, t.checks[r])
  {
    hide SetPassword, StartLink, Begin, EmailEnd, ResetEnd, ResolveStep, EmailSend, StepUpSend, ResetRequest,
      ResetBegin, StartSignIn, Callback;
    var (t, o) := EmailBegin(u, s, step.process, step.email, step.purpose, step.code);
    EmailBeginIs(u, s, step.process, step.email, step.purpose, step.code);
    if o == A.Done {
      var a := A.FindByEmail(u.cfg, s.acc, u.cfg.normalise(step.email)).value;
      S.LookUpShape(s.su, step.process, a, S.PurposeOf(step.purpose), step.code, false);
    }
  }

  lemma OthersKeepChecks(u: Setup, s: State, step: Step)
    requires !step.DoEmailBegin?
    ensures Apply(u, s, step).0.checks == s.checks
  {
    if IsGated(step) {
      GatedIs(u, s, step);
    } else if step.DoCallback? {
      CallbackKeepsRest(u, s, step);
    } else if step.DoEmailEnd? || step.DoResetEnd? || step.DoBearer? {
      EndsKeepChecks(u, s, step);
    } else {
      ChecksKept(u, s, step);
    }
  }

  lemma EndsKeepChecks(u: Setup, s: State, step: Step)
    requires step.DoEmailEnd? || step.DoResetEnd? || step.DoBearer?
    ensures Apply(u, s, step).0.checks == s.checks
  {
    hide A.Resolve, A.MarkVerified, A.Reset, S.Finish, SetPassword, StartLink, Begin, Callback, EmailBegin,
      EmailSend, StepUpSend, ResetRequest, ResetBegin, StartSignIn;
  }

  lemma ChecksKept(u: Setup, s: State, step: Step)
    requires step.Plain? || KeepsAccounts(step)
    ensures Apply(u, s, step).0.checks == s.checks
  {
    hide A.Apply, S.Apply, F.AuthorizeState, SetPassword, StartLink, Begin, EmailEnd, ResetEnd, ResolveStep,
      Callback, EmailBegin;
  }

  /** A request that is not looking up an email code was there before, or will issue a token. */
  lemma RequestsKept(su: S.State, x: S.Step, r: nat)
    requires S.Valid(su) && r in S.Apply(su, x).requests
    ensures var t := S.Apply(su, x);
      || x.DoEmailLookUp? || t.requests[r].issue
      || (r in su.requests && t.requests[r] == su.requests[r] && su.requests[r].code in su.codes)
  {
    match x
    case DoFinish(n, ok) =>
      if n in su.requests {
        S.FinishShape(su, n, ok);
      }
    case DoStepUpLookUp(p, a, code) => S.LookUpShape(su, p, a, T.STEP_UP_PURPOSE, code, true);
    case _ =>
  }

  lemma PartLooksUp(u: Setup, s: State, step: Step)
    ensures var x := CodesPart(u, s, step); x.Some? && x.value.DoEmailLookUp? ==> step.DoEmailBegin?
  {
  }

  lemma StepKeepsAddress(u: Setup, s: State, step: Step, a: A.Id)
    requires S.Valid(s.su) && Safety.Valid(s.acc) && AtAddress(s, a) && !Readdresses(u, s, step, a)
    ensures AtAddress(Apply(u, s, step).0, a)
  {
    hide Apply;
    var t := Apply(u, s, step).0;
    if a in s.acc.accounts {
      EmailStays(u, s, step, a);
    }
    forall c | c in t.su.codes && t.su.codes[c].account == a ensures HasEmail(t, a, t.su.codes[c].address) {
      CodesAddressed(u, s, step, c);
    }
    forall r | CheckOpen(t, r) && t.su.requests[r].account == a ensures HasEmail(t, a, t.checks[r]) {
      ChecksRead(u, s, step, r);
    }
    ProofsKept(u, s, step, a);
  }

  lemma ProofsKept(u: Setup, s: State, step: Step, a: A.Id)
    requires S.Valid(s.su) && Safety.Valid(s.acc) && AtAddress(s, a)
    requires a in s.acc.accounts ==> HasEmail(Apply(u, s, step).0, a, s.acc.accounts[a].email)
    ensures var t := Apply(u, s, step).0;
      && (A.IsVerified(t.acc, a) ==> Proved(t, a, t.acc.accounts[a].email))
      && (forall n | n in t.acc.updates && t.acc.updates[n].account == a && t.acc.updates[n].verified ::
            a in t.acc.accounts && Proved(t, a, t.acc.accounts[a].email))
  {
    hide Apply;
    var t := Apply(u, s, step).0;
    ProvedStays(u, s, step);
    if A.IsVerified(t.acc, a) && !A.IsVerified(s.acc, a) {
      NewlyVerified(u, s, step, a);
      MarkProvesAddress(u, s, step, a);
    }
    forall n | n in t.acc.updates && t.acc.updates[n].account == a && t.acc.updates[n].verified
      ensures a in t.acc.accounts && Proved(t, a, t.acc.accounts[a].email)
    {
      UpdatesRead(u, s, step, n);
    }
  }

  lemma MarkProvesAddress(u: Setup, s: State, step: Step, a: A.Id)
    requires S.Valid(s.su) && AtAddress(s, a) && Marks(s, step, Apply(u, s, step).0, a)
    requires a in s.acc.accounts ==> HasEmail(Apply(u, s, step).0, a, s.acc.accounts[a].email)
    requires a in Apply(u, s, step).0.acc.accounts
    ensures Proved(Apply(u, s, step).0, a, Apply(u, s, step).0.acc.accounts[a].email)
  {
    hide Apply;
    ProvedStays(u, s, step);
    if EndsFor(s, step, a) {
      EndProves(u, s, step, a);
      assert S.CodesValid(s.su);
      assert HasEmail(s, a, s.su.codes[s.su.requests[step.request].code].address);
    }
  }

  // ----- exactly when it stays so -----

  ghost predicate HasCode(s: State, a: A.Id)
  {
    exists c :: c in s.su.codes && s.su.codes[c].account == a
  }

  /** An update other than n that read the account's mark set has not written yet. */
  ghost predicate OtherReadSet(s: State, n: nat, a: A.Id)
  {
    exists m :: m in s.acc.updates && m != n && s.acc.updates[m].account == a && s.acc.updates[m].verified
  }

  /** The step gives the account another email although a code was mailed to the old one, or with a
      mark that nothing proves for the new one. */
  ghost predicate Misaddresses(u: Setup, s: State, step: Step, a: A.Id)
  {
    && Readdresses(u, s, step, a)
    && var n := step.step.update; var q := s.acc.updates[n];
       HasCode(s, a) || (!Proved(s, a, q.email) && (q.verified || OtherReadSet(s, n, a)))
  }

  lemma ReaddressIs(u: Setup, s: State, step: Step, a: A.Id)
    requires Readdresses(u, s, step, a)
    ensures var n := step.step.update; var q := s.acc.updates[n];
      Apply(u, s, step).0 == s.(acc := A.SetAccount(A.EndUpdate(s.acc, n), a, A.Account(q.email, q.verified)))
  {
  }

  lemma ReaddressKeepsIff(u: Setup, s: State, step: Step, a: A.Id)
    requires S.Valid(s.su) && AtAddress(s, a) && Readdresses(u, s, step, a)
    ensures AtAddress(Apply(u, s, step).0, a) <==> !Misaddresses(u, s, step, a)
  {
    hide Apply;
    ReaddressIs(u, s, step, a);
    var t, n := Apply(u, s, step).0, step.step.update;
    var x := s.acc.updates[n].email;
    assert HasEmail(t, a, x) && !HasEmail(s, a, x) && t.su == s.su && t.checks == s.checks;
    assert Proved(t, a, x) <==> Proved(s, a, x);
    if HasCode(s, a) {
      var c :| c in s.su.codes && s.su.codes[c].account == a;
      assert HasEmail(s, a, s.su.codes[c].address);
      assert !HasEmail(t, a, t.su.codes[c].address);
    } else {
      forall r | CheckOpen(t, r) ensures t.su.requests[r].account != a {
        assert CheckOpen(s, r) && S.CodesValid(s.su);
      }
    }
    if OtherReadSet(s, n, a) {
      var m :| m in s.acc.updates && m != n && s.acc.updates[m].account == a && s.acc.updates[m].verified;
      assert m in t.acc.updates && t.acc.updates[m] == s.acc.updates[m];
    }
  }

  lemma StepKeepsAddressIff(u: Setup, s: State, step: Step, a: A.Id)
    requires S.Valid(s.su) && Safety.Valid(s.acc) && AtAddress(s, a)
    ensures AtAddress(Apply(u, s, step).0, a) <==> !Misaddresses(u, s, step, a)
  {
    hide Apply, AtAddress;
    if Readdresses(u, s, step, a) {
      ReaddressKeepsIff(u, s, step, a);
    } else {
      StepKeepsAddress(u, s, step, a);
    }
  }

  ghost predicate AlwaysAtAddress(u: Setup, s: State, steps: seq<Step>, a: A.Id)
    decreases |steps|
  {
    AtAddress(s, a) && (steps != [] ==> AlwaysAtAddress(u, Apply(u, s, steps[0]).0, steps[1..], a))
  }

  ghost predicate NeverMisaddressed(u: Setup, s: State, steps: seq<Step>, a: A.Id)
    decreases |steps|
  {
    steps != [] ==> !Misaddresses(u, s, steps[0], a) && NeverMisaddressed(u, Apply(u, s, steps[0]).0, steps[1..], a)
  }

  lemma {:induction false} RunKeepsAddressIff(u: Setup, s: State, steps: seq<Step>, a: A.Id)
    requires S.Valid(s.su) && Safety.Valid(s.acc) && AtAddress(s, a)
    ensures AlwaysAtAddress(u, s, steps, a) <==> NeverMisaddressed(u, s, steps, a)
    ensures NeverMisaddressed(u, s, steps, a) ==> AtAddress(Run(u, s, steps), a)
    decreases |steps|
  {
    hide Apply, AtAddress, Misaddresses;
    if steps != [] {
      StepKeepsAddressIff(u, s, steps[0], a);
      if !Misaddresses(u, s, steps[0], a) {
        StepKeepsCodes(u, s, steps[0]);
        StepKeepsAccounts(u, s, steps[0]);
        RunKeepsAddressIff(u, Apply(u, s, steps[0]).0, steps[1..], a);
      }
    }
  }

  lemma InitialAtAddress(u: Setup, a: A.Id)
    ensures S.Valid(INITIAL.su) && Safety.Valid(INITIAL.acc) && AtAddress(INITIAL, a)
  {
    S.InitialValid();
    AT.EmptyValid();
  }

  /** The account's codes were mailed to the email it has, and its mark is backed by a proof of that
      email, at every point of a run exactly when no update gives the account another email although a
      code was mailed to the old one or nothing proves the new one. Over such a run a verified account
      redeemed a code mailed to the very email it has, or a provider vouched for that email. */
  lemma VerifiedAddressIsProved(u: Setup, steps: seq<Step>, a: A.Id)
    ensures AlwaysAtAddress(u, INITIAL, steps, a) <==> NeverMisaddressed(u, INITIAL, steps, a)
    ensures var s := Run(u, INITIAL, steps);
      NeverMisaddressed(u, INITIAL, steps, a) && A.IsVerified(s.acc, a) ==> Proved(s, a, s.acc.accounts[a].email)
  {
    hide Apply;
    InitialAtAddress(u, a);
    RunKeepsAddressIff(u, INITIAL, steps, a);
  }

  // ----- the input on which it fails -----

  const VERIFY := "verify_email"

  /** A sign-up, a code mailed, an update to another email, and the code redeemed under the new one. */
  function OldCode(first: string, second: string, password: string, name: string, salt: string, secret: S.Secret): seq<Step>
  {
    [Plain(A.DoRegister(first, password, name, name, salt)), DoEmailSend(first, VERIFY, secret),
     Plain(A.DoUpdateRead(0, Some(second), true)), Plain(A.DoUpdateWrite(0))]
    + [DoEmailBegin(0, second, VERIFY, secret), DoEmailEnd(0, true)]
  }

  /** One account with this email and one code, mailed to that address. */
  function Mailed(x: string, address: string, hash: string, secret: S.Secret): State
  {
    INITIAL.(acc := A.EMPTY.(accounts := map[0 := A.Account(x, false)], locals := map[0 := hash], nextAccount := 1),
             su := S.INITIAL.(codes := map[0 := S.Code(0, address, VERIFY, secret, S.CODE_TTL, false)], nextCode := 1))
  }

  predicate Usable(u: Setup, email: string, password: string, name: string)
  {
    u.cfg.normalise(email) != "" && |password| >= 12 && GoTrim(name) != ""
  }

  lemma SignUpAndSend(u: Setup, email: string, password: string, name: string, salt: string, secret: S.Secret)
    requires Usable(u, email, password, name)
    ensures var x := u.cfg.normalise(email);
      Apply(u, Apply(u, INITIAL, Plain(A.DoRegister(email, password, name, name, salt))).0, DoEmailSend(email, VERIFY, secret)).0
        == Mailed(x, x, u.cfg.hash(password, salt), secret)
  {
    var x := u.cfg.normalise(email);
    assert A.FindByEmail(u.cfg, A.EMPTY, x).None?;
    var s1 := Apply(u, INITIAL, Plain(A.DoRegister(email, password, name, name, salt))).0;
    assert s1 == INITIAL.(acc := A.EMPTY.(accounts := map[0 := A.Account(x, false)], locals := map[0 := u.cfg.hash(password, salt)], nextAccount := 1));
    assert A.EmailMatches(u.cfg, s1.acc, x, 0);
    assert A.FindByEmail(u.cfg, s1.acc, x) == Some(0);
    assert S.PurposeOf(VERIFY) == VERIFY;
  }

  lemma Readdress(u: Setup, x: string, hash: string, secret: S.Secret, second: string)
    ensures var y := u.cfg.normalise(second); var s := Mailed(x, x, hash, secret);
      Apply(u, Apply(u, s, Plain(A.DoUpdateRead(0, Some(second), true))).0, Plain(A.DoUpdateWrite(0))).0
        == Mailed(y, x, hash, secret).(acc := Mailed(y, x, hash, secret).acc.(nextUpdate := 1))
  {
    var s := Mailed(x, x, hash, secret);
    var s1 := Apply(u, s, Plain(A.DoUpdateRead(0, Some(second), true))).0;
    assert s1 == s.(acc := s.acc.(updates := map[0 := A.Pending(0, u.cfg.normalise(second), false)], nextUpdate := 1));
    assert s1.acc.updates - {0} == map[];
  }

  lemma RedeemOld(u: Setup, s: State, y: string, x: string, hash: string, secret: S.Secret, second: string)
    requires y == u.cfg.normalise(second) != "" && s == Mailed(y, x, hash, secret).(acc := Mailed(y, x, hash, secret).acc.(nextUpdate := 1))
    ensures var t := Apply(u, Apply(u, s, DoEmailBegin(0, second, VERIFY, secret)).0, DoEmailEnd(0, true)).0;
      && t.acc.accounts == map[0 := A.Account(y, true)] && t.log == [] && t.su.log == [S.Checked(0, 0)]
      && t.su.codes.Keys == {0} && t.su.codes[0].account == 0 && t.su.codes[0].address == x && t.su.codes[0].purpose == VERIFY
  {
    hide SetPassword, StartLink, Begin, Callback, ResetEnd, ResolveStep, EmailSend, StepUpSend, ResetRequest,
      ResetBegin, StartSignIn;
    assert A.EmailMatches(u.cfg, s.acc, y, 0);
    assert A.FindByEmail(u.cfg, s.acc, y) == Some(0);
    assert S.PurposeOf(VERIFY) == VERIFY && S.IsActive(s.su.codes[0], 0, VERIFY, s.su.now);
    assert S.ActiveCode(s.su, 0, VERIFY) == Some(0) && S.Matching(s.su, 0, VERIFY, secret) == Some(0);
    S.LookUpShape(s.su, 0, 0, VERIFY, secret, false);
    var t := Apply(u, s, DoEmailBegin(0, second, VERIFY, secret)).0;
    assert t == s.(su := s.su.(requests := map[0 := S.Request(0, 0, 0, false)], nextRequest := 1), checks := map[0 := y]);
    assert CheckOpen(t, 0) && !ForLogin(t, 0);
    assert A.MarkVerified(t.acc, 0, y).0 == A.SetAccount(t.acc, 0, A.Account(y, true));
  }

  /** A code mailed to an account's old address verifies the new one, to which none was mailed. */
  lemma OldCodeVerifiesNewAddress(u: Setup, first: string, second: string, password: string, name: string, salt: string, secret: S.Secret)
    requires Usable(u, first, password, name) && u.cfg.normalise(second) != "" && u.cfg.normalise(second) != u.cfg.normalise(first)
    ensures var s := Run(u, INITIAL, OldCode(first, second, password, name, salt, secret)); var y := u.cfg.normalise(second);
      A.IsVerified(s.acc, 0) && HasEmail(s, 0, y) && Proved(s, 0, u.cfg.normalise(first)) && !Proved(s, 0, y)
  {
    hide Apply;
    var steps := OldCode(first, second, password, name, salt, secret);
    var x, y, hash := u.cfg.normalise(first), u.cfg.normalise(second), u.cfg.hash(password, salt);
    SignUpAndSend(u, first, password, name, salt, secret);
    Readdress(u, x, hash, secret, second);
    FourSteps(u, INITIAL, steps[0], steps[1], steps[2], steps[3]);
    var s := Run(u, INITIAL, steps[..4]);
    assert steps[..4] == [steps[0], steps[1], steps[2], steps[3]] && steps == steps[..4] + [steps[4], steps[5]];
    RunAppend(u, INITIAL, steps[..4], [steps[4], steps[5]]);
    TwoSteps(u, s, steps[4], steps[5]);
    RedeemOld(u, s, y, x, hash, secret, second);
    var t := Run(u, INITIAL, steps);
    assert S.Checked(0, 0) in t.su.log && RowProves(t.su, 0, 0, x);
  }
}
