/** Undisturbed flows of the credential system, from every state it can be in: what is mailed works exactly until
    it expires, changes exactly what it is for, and works once. */
module CredentialJourneys {
  import opened Text
  import A = Accounts
  import Safety = AccountSafety
  import S = StepUp
  import T = Tokens
  import F = OAuthFlow
  import opened Credentials
  import opened CredentialTheorems
  import opened CredentialResets

  /** The account an email finds. */
  ghost predicate Finds(u: Setup, s: State, email: string, a: A.Id)
  {
    u.cfg.normalise(email) != "" && A.FindByEmail(u.cfg, s.acc, u.cfg.normalise(email)) == Some(a)
  }

  function Wait(d: nat): Step
  {
    Codes(S.Advance(d))
  }

  lemma WaitIs(u: Setup, s: State, d: nat)
    ensures Apply(u, s, Wait(d)).0 == s.(su := s.su.(now := s.su.now + d))
  {
  }

  /** Sign-ups, administration, commits and aborts run as in the account machine; the clock, step-up look-ups and
      ends, janitors and restarts as in the step-up machine. */
  lemma OwnSteps(u: Setup, s: State, x: A.Step, y: S.Step)
    ensures x.DoRegister? || x.DoCreate? || x.DoUpdateRead? || x.DoUpdateWrite? || x.DoCommit? || x.DoAbort? ==>
      var (acc, o) := A.Apply(u.cfg, A.Serializable, s.acc, x); Apply(u, s, Plain(x)) == (s.(acc := acc), o)
    ensures (y.Advance? || y.DoStepUpLookUp? || (y.DoFinish? && y.request in s.su.requests && s.su.requests[y.request].issue)
             || y.DoJanitor? || y.DoRestart?) ==>
      var t := Apply(u, s, Codes(y)).0; t.su == S.Apply(s.su, y) && t.acc == s.acc && t.resets == s.resets
  {
    hide A.Apply, S.Apply;
  }

  // ----- a mailed code -----

  /** The row just mailed is the newest of its account and purpose. */
  lemma MailedIsNewest(su: S.State, a: S.Account, x: string, purpose: string, secret: S.Secret, d: nat)
    ensures var t := S.SendCode(su, a, x, purpose, secret); var v := t.(now := su.now + d); var n := su.nextCode;
      && t == su.(codes := su.codes[n := t.codes[n]], nextCode := n + 1)
      && t.codes[n].account == a && t.codes[n].address == x
      && (t.codes[n].purpose == "login" <==> purpose in {"", "login"})
      && (d < 300_000_000_000 ==> S.Matching(v, a, S.PurposeOf(purpose), secret) == Some(n))
      && (d >= 300_000_000_000 ==> S.Matching(v, a, S.PurposeOf(purpose), secret) != Some(n))
  {
    var v := S.SendCode(su, a, x, purpose, secret).(now := su.now + d);
    var p := S.PurposeOf(purpose);
    assert S.IsActive(v.codes[su.nextCode], a, p, v.now) <==> d < 300_000_000_000;
  }

  /** A code is mailed to the account an email finds, and after a delay presented under that email. */
  function MailAndVerify(s: State, email: string, purpose: string, secret: S.Secret, d: nat, p: S.Process): seq<Step>
  {
    [DoEmailSend(email, purpose, secret), Wait(d), DoEmailBegin(p, email, purpose, secret), DoEmailEnd(s.su.nextRequest, true)]
  }

  lemma Mail(u: Setup, s: State, a: A.Id, email: string, purpose: string, secret: S.Secret, d: nat)
    requires Finds(u, s, email, a)
    ensures Apply(u, Apply(u, s, DoEmailSend(email, purpose, secret)).0, Wait(d)).0
         == s.(su := S.SendCode(s.su, a, s.acc.accounts[a].email, purpose, secret).(now := s.su.now + d))
  {
    hide S.SendCode;
    var t := Apply(u, s, DoEmailSend(email, purpose, secret)).0;
    assert t == s.(su := S.SendCode(s.su, a, s.acc.accounts[a].email, purpose, secret));
    assert t.su.now == s.su.now by { MailedIsNewest(s.su, a, s.acc.accounts[a].email, purpose, secret, d); }
    WaitIs(u, t, d);
  }

  /** The request finds the matching row c, if any. */
  lemma Present(u: Setup, s: State, a: A.Id, email: string, purpose: string, secret: S.Secret, p: S.Process)
    requires Finds(u, s, email, a)
    ensures var c := S.Matching(s.su, a, S.PurposeOf(purpose), secret);
      Apply(u, s, DoEmailBegin(p, email, purpose, secret)) ==
        if c.None? then (s, A.Denied)
        else (s.(su := s.su.(requests := s.su.requests[s.su.nextRequest := S.Request(p, a, c.value, false)], nextRequest := s.su.nextRequest + 1),
                 checks := s.checks[s.su.nextRequest := s.acc.accounts[a].email]), A.Done)
  {
    hide S.Matching;
    S.LookUpShape(s.su, p, a, S.PurposeOf(purpose), secret, false);
    EmailBeginIs(u, s, p, email, purpose, secret);
  }

  /** The account an email-code request leaves: verified, with the email read at its start, unless the code was
      for a login. */
  lemma Redeem(u: Setup, s: State, r: nat, q: S.Request)
    requires Safety.Valid(s.acc) && CheckOpen(s, r) && s.su.requests[r] == q
    requires q.account in s.acc.accounts && s.checks[r] == s.acc.accounts[q.account].email
    ensures var t := Apply(u, s, DoEmailEnd(r, true)).0;
      && t.acc == (if s.su.codes[q.code].purpose == "login" then s.acc
                   else s.acc.(accounts := s.acc.accounts[q.account := A.Account(s.acc.accounts[q.account].email, true)]))
      && t.su.codes == s.su.codes[q.code := s.su.codes[q.code].(consumed := true)]
      && t.su.log == s.su.log + [S.Checked(q.account, q.code)] && t.su.now == s.su.now
  {
    hide SetPassword, StartLink, Begin, Callback, ResetEnd, ResolveStep, EmailSend, StepUpSend, ResetRequest,
      ResetBegin, StartSignIn, EmailBegin;
    var x := s.checks[r];
    assert A.EmailFreeFor(s.acc, x, q.account);
  }

  /** A request that is not open ends nothing. */
  lemma NothingToEnd(u: Setup, s: State, r: nat, consumeOk: bool)
    requires r !in s.su.requests
    ensures Apply(u, s, DoEmailEnd(r, consumeOk)).0 == s
  {
    hide SetPassword, StartLink, Begin, Callback, ResetEnd, ResolveStep, EmailSend, StepUpSend, ResetRequest,
      ResetBegin, StartSignIn, EmailBegin, S.Finish;
  }

  /** Presenting a code and ending the request: the matching row c is redeemed, or nothing happens. */
  lemma PresentAndEnd(u: Setup, s: State, a: A.Id, email: string, purpose: string, secret: S.Secret, p: S.Process)
    requires Safety.Valid(s.acc) && Finds(u, s, email, a) && s.su.nextRequest !in s.su.requests
    ensures var c := S.Matching(s.su, a, S.PurposeOf(purpose), secret); var r := s.su.nextRequest;
      var t := Apply(u, Apply(u, s, DoEmailBegin(p, email, purpose, secret)).0, DoEmailEnd(r, true)).0;
      && t.su.log == s.su.log + (if c.Some? then [S.Checked(a, c.value)] else [])
      && (c.Some? ==>
            && c.value in s.su.codes && t.su.codes == s.su.codes[c.value := s.su.codes[c.value].(consumed := true)]
            && t.acc == (if s.su.codes[c.value].purpose == "login" then s.acc
                         else s.acc.(accounts := s.acc.accounts[a := A.Account(s.acc.accounts[a].email, true)])))
  {
    hide Apply, S.Matching, Safety.Valid;
    var c, r := S.Matching(s.su, a, S.PurposeOf(purpose), secret), s.su.nextRequest;
    Present(u, s, a, email, purpose, secret, p);
    var w := Apply(u, s, DoEmailBegin(p, email, purpose, secret)).0;
    if c.None? {
      NothingToEnd(u, w, r, true);
    } else {
      MatchingFinds(s.su, a, S.PurposeOf(purpose), secret);
      Redeem(u, w, r, S.Request(p, a, c.value, false));
    }
  }

  /** From every valid state: a code mailed to an account and presented after a delay is redeemed exactly if less
      than 300 seconds have passed. It then verifies the account and nothing else, or nothing if it was for a
      login, a purpose not named meaning one; and its row is consumed, so no look-up finds it again. */
  lemma MailedCodeVerifies(u: Setup, s: State, a: A.Id, email: string, purpose: string, secret: S.Secret, d: nat, p: S.Process)
    requires S.Valid(s.su) && Safety.Valid(s.acc) && Finds(u, s, email, a)
    ensures var t := Run(u, s, MailAndVerify(s, email, purpose, secret, d, p)); var n := s.su.nextCode;
      && S.Redemptions(t.su.log, n) == (if d < 300_000_000_000 then 1 else 0)
      && (d < 300_000_000_000 ==>
            && t.acc == (if purpose in {"", "login"} then s.acc
                         else s.acc.(accounts := s.acc.accounts[a := A.Account(s.acc.accounts[a].email, true)]))
            && n in t.su.codes && t.su.codes[n].consumed && t.su.codes[n].address == s.acc.accounts[a].email)
  {
    hide Apply, S.SendCode, S.Matching, S.PurposeOf, S.Redemptions, Finds, Safety.Valid, S.Valid;
    var steps := MailAndVerify(s, email, purpose, secret, d, p);
    FourSteps(u, s, steps[0], steps[1], steps[2], steps[3]);
    SameFound(u, s, s, email, a);
    var x, n := s.acc.accounts[a].email, s.su.nextCode;
    MailedIsNewest(s.su, a, x, purpose, secret, d);
    Mail(u, s, a, email, purpose, secret, d);
    NeverRedeemed(s.su, n);
    var v := s.(su := S.SendCode(s.su, a, x, purpose, secret).(now := s.su.now + d));
    SameFound(u, s, v, email, a);
    PresentAndEnd(u, v, a, email, purpose, secret, p);
    var c := S.Matching(v.su, a, S.PurposeOf(purpose), secret);
    if c.Some? {
      S.RedeemAppend(s.su.log, S.Checked(a, c.value), n);
    } else {
      assert s.su.log + [] == s.su.log;
    }
  }

  lemma SameFound(u: Setup, s: State, v: State, email: string, a: A.Id)
    requires Finds(u, s, email, a) && v.acc == s.acc
    ensures Finds(u, v, email, a) && a in s.acc.accounts
  {
  }

  lemma MatchingFinds(su: S.State, a: S.Account, purpose: string, code: string)
    ensures var c := S.Matching(su, a, purpose, code); c.Some? ==> c.value in su.codes
  {
  }

  lemma {:induction false} UnknownRow(log: seq<S.Event>, n: nat)
    requires forall e | e in log && (e.Verified? || e.Checked?) :: e.code != n
    ensures S.Redemptions(log, n) == 0
  {
    if log != [] {
      assert log[|log| - 1] in log && forall e | e in log[..|log| - 1] :: e in log;
      UnknownRow(log[..|log| - 1], n);
    }
  }

  lemma NeverRedeemed(su: S.State, n: nat)
    requires S.Valid(su) && n == su.nextCode
    ensures S.Redemptions(su.log, n) == 0 && n !in su.codes && su.nextRequest !in su.requests
  {
    UnknownRow(su.log, n);
  }

  /** What the starts of the two mailed flows answer: a body without what they need is malformed, anything that does
      not find its account or an open row is refused, and only a request that found one is under way. */
  lemma BeginAnswers(u: Setup, s: State, p: S.Process, email: string, purpose: string, code: string, token: string, password: string)
    ensures var (t, o) := EmailBegin(u, s, p, email, purpose, code);
      var found := exists a :: Finds(u, s, email, a) && S.Matching(s.su, a, S.PurposeOf(purpose), code).Some?;
      && o == (if u.cfg.normalise(email) == "" || code == "" then A.BadRequest else if found then A.Done else A.Denied)
      && (o != A.Done ==> t == s)
    ensures var (t, o) := ResetBegin(u, s, p, token, password); var h := u.digest(token);
      && o == (if token == "" || |password| < 12 then A.BadRequest
               else if h in s.resets && !s.resets[h].consumed && s.su.now < s.resets[h].expires then A.Done else A.Denied)
      && (o != A.Done ==> t == s)
  {
    var a := A.FindByEmail(u.cfg, s.acc, u.cfg.normalise(email));
    if a.Some? && u.cfg.normalise(email) != "" {
      assert Finds(u, s, email, a.value);
      S.LookUpShape(s.su, p, a.value, S.PurposeOf(purpose), code, false);
    }
  }

  // ----- a mailed reset -----

  /** A reset is mailed to the account an email finds, and its token used after a delay. */
  function ResetAfter(s: State, email: string, token: S.Secret, d: nat, p: S.Process, password: string, salt: string): seq<Step>
  {
    [DoResetRequest(email, token), Wait(d), DoResetBegin(p, token, password), DoResetEnd(s.nextConfirm, salt, true)]
  }

  lemma ResetMails(u: Setup, s: State, a: A.Id, email: string, token: S.Secret, d: nat)
    requires Finds(u, s, email, a) && u.digest(token) !in s.resets
    ensures Apply(u, Apply(u, s, DoResetRequest(email, token)).0, Wait(d)).0
         == s.(resets := s.resets[u.digest(token) := ResetRow(a, s.su.now + 1_800_000_000_000, false)], su := s.su.(now := s.su.now + d))
  {
    var t := Apply(u, s, DoResetRequest(email, token)).0;
    WaitIs(u, t, d);
  }

  /** From every valid state: a reset mailed to an account and used after a delay changes the password exactly if
      less than 1800 seconds have passed, to the one submitted and of no other account, verified or not; its row is
      consumed, so its token is refused from then on. */
  lemma MailedResetWorksOnce(u: Setup, s: State, a: A.Id, email: string, token: S.Secret, d: nat, p: S.Process, password: string, salt: string,
                             later: nat, again: string)
    requires Safety.Valid(s.acc) && ResetsValid(u, s) && Finds(u, s, email, a) && u.digest(token) !in s.resets && |password| >= 12
    ensures var t := Run(u, s, ResetAfter(s, email, token, d, p, password, salt));
      && t.acc == (if d < 1_800_000_000_000 then s.acc.(locals := s.acc.locals[a := u.cfg.hash(password, salt)]) else s.acc)
      && (d < 1_800_000_000_000 && |again| >= 12 ==>
            var w := Apply(u, t, Wait(later)).0; Apply(u, w, DoResetBegin(p, token, again)) == (w, A.Denied))
  {
    hide Apply, Safety.Valid, ResetsValid;
    var steps, h := ResetAfter(s, email, token, d, p, password, salt), u.digest(token);
    ResetMails(u, s, a, email, token, d);
    var v := s.(resets := s.resets[h := ResetRow(a, s.su.now + 1_800_000_000_000, false)], su := s.su.(now := s.su.now + d));
    FourSteps(u, s, steps[0], steps[1], steps[2], steps[3]);
    ConfirmFinds(u, v, p, token, password);
    var w := Apply(u, v, steps[2]).0;
    FreshConfirm(u, s);
    if d < 1_800_000_000_000 {
      ConfirmWrites(u, w, s.nextConfirm, salt);
      var t := Apply(u, w, steps[3]).0;
      WaitIs(u, t, later);
      if |again| >= 12 {
        ConfirmFinds(u, Apply(u, t, Wait(later)).0, p, token, again);
      }
    } else {
      NothingToConfirm(u, w, s.nextConfirm, salt);
    }
  }

  lemma FreshConfirm(u: Setup, s: State)
    requires ResetsValid(u, s)
    ensures s.nextConfirm !in s.confirms
  {
  }

  lemma NothingToConfirm(u: Setup, s: State, r: nat, salt: string)
    requires r !in s.confirms
    ensures Apply(u, s, DoResetEnd(r, salt, true)).0 == s
  {
    hide SetPassword, StartLink, Begin, Callback, EmailEnd, ResolveStep, EmailSend, StepUpSend, ResetRequest,
      ResetBegin, StartSignIn, EmailBegin;
  }

  lemma ConfirmFinds(u: Setup, s: State, p: S.Process, token: S.Secret, password: string)
    requires |password| >= 12
    ensures var h := u.digest(token);
      Apply(u, s, DoResetBegin(p, token, password)) ==
        if h in s.resets && !s.resets[h].consumed && s.su.now < s.resets[h].expires then
          (s.(confirms := s.confirms[s.nextConfirm := ResetConfirm(p, token, s.resets[h].account, password, s.su.now)],
              nextConfirm := s.nextConfirm + 1), A.Done)
        else (s, A.Denied)
  {
  }

  lemma ConfirmWrites(u: Setup, s: State, r: nat, salt: string)
    requires r in s.confirms && s.confirms[r].account in s.acc.accounts
    ensures var q := s.confirms[r]; var h := u.digest(q.token); var t := Apply(u, s, DoResetEnd(r, salt, true)).0;
      && t.acc == s.acc.(locals := s.acc.locals[q.account := u.cfg.hash(q.password, salt)]) && t.su == s.su
      && t.resets == (if h in s.resets then s.resets[h := s.resets[h].(consumed := true)] else s.resets)
  {
  }

  // ----- a step-up -----

  /** A step-up code is mailed to a verified account, redeemed at process p after a delay, and its token presented
      with a password change at process q after another. */
  function StepUpFirst(s: State, a: A.Id, secret: S.Secret, d: nat, p: S.Process): seq<Step>
  {
    [DoStepUpSend(a, secret), Wait(d), Codes(S.DoStepUpLookUp(p, a, secret)), Codes(S.DoFinish(s.su.nextRequest, true))]
  }

  /** The step-up machine once the token with this number is issued. */
  ghost predicate Issued(su: S.State, t: S.State, a: A.Id, d: nat)
  {
    && t.now == su.now + d && t.consumed == su.consumed && t.nextJti == su.nextJti + 1
    && t.issued == su.issued[su.nextJti := S.Token(a, T.Unix(su.now + d + 300_000_000_000))]
    && t.log == su.log + [S.Verified(a, su.nextCode, su.nextJti)]
  }

  lemma CodesStepIs(u: Setup, s: State, x: S.Step)
    requires x.DoStepUpLookUp? || (x.DoFinish? && x.request in s.su.requests && s.su.requests[x.request].issue)
    ensures Apply(u, s, Codes(x)).0 == s.(su := S.Apply(s.su, x))
  {
    hide S.Apply;
  }

  lemma SendStepUp(u: Setup, s: State, a: A.Id, secret: S.Secret, d: nat)
    requires A.IsVerified(s.acc, a)
    ensures Apply(u, Apply(u, s, DoStepUpSend(a, secret)).0, Wait(d)).0
         == s.(su := S.SendCode(s.su, a, s.acc.accounts[a].email, T.STEP_UP_PURPOSE, secret).(now := s.su.now + d))
  {
    var t := Apply(u, s, DoStepUpSend(a, secret)).0;
    WaitIs(u, t, d);
  }

  lemma StepUpMatches(su: S.State, a: A.Id, x: string, secret: S.Secret, d: nat)
    requires d < 300_000_000_000
    ensures var v := S.SendCode(su, a, x, T.STEP_UP_PURPOSE, secret).(now := su.now + d);
      && S.Matching(v, a, T.STEP_UP_PURPOSE, secret) == Some(su.nextCode) && su.nextCode in v.codes
      && v.requests == su.requests && v.nextRequest == su.nextRequest && v.issued == su.issued && v.nextJti == su.nextJti
      && v.consumed == su.consumed && v.log == su.log && v.now == su.now + d
  {
    assert S.PurposeOf(T.STEP_UP_PURPOSE) == T.STEP_UP_PURPOSE;
    MailedIsNewest(su, a, x, T.STEP_UP_PURPOSE, secret, d);
  }

  lemma FoundAndFinished(v: S.State, p: S.Process, a: A.Id, secret: S.Secret, c: nat)
    requires S.Matching(v, a, T.STEP_UP_PURPOSE, secret) == Some(c) && c in v.codes
    ensures var w := S.Apply(v, S.DoStepUpLookUp(p, a, secret)); var t := S.Apply(w, S.DoFinish(v.nextRequest, true));
      && v.nextRequest in w.requests && w.requests[v.nextRequest].issue
      && t.now == v.now && t.consumed == v.consumed && t.nextJti == v.nextJti + 1
      && t.issued == v.issued[v.nextJti := S.Token(a, T.Unix(v.now + 300_000_000_000))]
      && t.log == v.log + [S.Verified(a, c, v.nextJti)]
  {
    S.LookUpShape(v, p, a, T.STEP_UP_PURPOSE, secret, true);
  }

  lemma StepUpIssues(u: Setup, s: State, a: A.Id, secret: S.Secret, d: nat, p: S.Process)
    requires A.IsVerified(s.acc, a) && d < 300_000_000_000
    ensures var t := Run(u, s, StepUpFirst(s, a, secret, d, p)); t == s.(su := t.su) && Issued(s.su, t.su, a, d)
  {
    hide Apply, S.Apply, S.SendCode, S.Matching;
    var steps := StepUpFirst(s, a, secret, d, p);
    FourSteps(u, s, steps[0], steps[1], steps[2], steps[3]);
    SendStepUp(u, s, a, secret, d);
    StepUpMatches(s.su, a, s.acc.accounts[a].email, secret, d);
    var v := s.(su := S.SendCode(s.su, a, s.acc.accounts[a].email, T.STEP_UP_PURPOSE, secret).(now := s.su.now + d));
    FoundAndFinished(v.su, p, a, secret, s.su.nextCode);
    CodesStepIs(u, v, S.DoStepUpLookUp(p, a, secret));
    CodesStepIs(u, v.(su := S.Apply(v.su, S.DoStepUpLookUp(p, a, secret))), S.DoFinish(s.su.nextRequest, true));
  }

  /** The password submitted as the current one, where one is stored. */
  ghost predicate KnowsPassword(u: Setup, s: State, a: A.Id, current: string)
  {
    a in s.acc.locals ==> current != "" && u.cfg.verify(current, s.acc.locals[a])
  }

  /** From every valid state: a step-up code redeemed in time pays for one password change, at any process, exactly
      while its token lives, to the second, with a password of twelve bytes or more and the current one where one is
      stored. A live token is spent even where the change is then refused. */
  lemma StepUpPaysForPassword(u: Setup, s: State, a: A.Id, secret: S.Secret, d: nat, p: S.Process, e: nat, q: S.Process, password: string,
                              current: string, salt: string)
    requires S.Valid(s.su) && A.IsVerified(s.acc, a) && u.required && d < 300_000_000_000
    ensures var t := Run(u, s, StepUpFirst(s, a, secret, d, p) + [Wait(e), DoSetPassword(q, a, Some(s.su.nextJti), password, current, salt)]);
      var alive := T.Unix(s.su.now + d + e) <= T.Unix(s.su.now + d + 300_000_000_000);
      && t.acc == (if alive && |password| >= 12 && KnowsPassword(u, s, a, current)
                   then s.acc.(locals := s.acc.locals[a := u.cfg.hash(password, salt)]) else s.acc)
      && S.Verifications(t.su.log, a) == S.Verifications(s.su.log, a) + 1
      && S.Passes(t.su.log, a) == S.Passes(s.su.log, a) + if alive then 1 else 0
  {
    hide Apply, S.Valid, S.Passes, S.Verifications, Run;
    var first, j := StepUpFirst(s, a, secret, d, p), s.su.nextJti;
    StepUpIssues(u, s, a, secret, d, p);
    var v := Run(u, s, first);
    RunAppend(u, s, first, [Wait(e), DoSetPassword(q, a, Some(j), password, current, salt)]);
    TwoSteps(u, v, Wait(e), DoSetPassword(q, a, Some(j), password, current, salt));
    WaitIs(u, v, e);
    UnspentAt(s.su, q);
    var w := v.(su := v.su.(now := v.su.now + e));
    PresentToken(u, w, q, a, j, password, current, salt);
    S.CountAppend(s.su.log, S.Verified(a, s.su.nextCode, j), a);
    S.CountAppend(v.su.log, S.Passed(q, a, j), a);
    var t := Apply(u, w, DoSetPassword(q, a, Some(j), password, current, salt)).0;
    assert t.su.log == v.su.log + [S.Passed(q, a, j)] || t.su.log == v.su.log + [] == v.su.log;
  }

  lemma UnspentAt(su: S.State, q: S.Process)
    requires S.Valid(su)
    ensures su.nextJti !in S.ConsumedAt(su.consumed, q)
  {
    S.NewTokenIsUnspent(su, q);
  }

  /** A password change with a token that was never spent here. */
  lemma PresentToken(u: Setup, s: State, q: S.Process, a: A.Id, j: nat, password: string, current: string, salt: string)
    requires A.IsVerified(s.acc, a) && u.required && j in s.su.issued && s.su.issued[j].account == a && j !in S.ConsumedAt(s.su.consumed, q)
    ensures var t := Apply(u, s, DoSetPassword(q, a, Some(j), password, current, salt)).0;
      var alive := T.Unix(s.su.now) <= s.su.issued[j].exp;
      && t.acc == (if alive && |password| >= 12 && KnowsPassword(u, s, a, current)
                   then s.acc.(locals := s.acc.locals[a := u.cfg.hash(password, salt)]) else s.acc)
      && t.su.log == s.su.log + if alive then [S.Passed(q, a, j)] else []
  {
    hide StartLink, Begin, Callback, EmailEnd, ResolveStep, EmailSend, StepUpSend, ResetRequest, ResetBegin, ResetEnd,
      StartSignIn, EmailBegin;
  }

  /** The state once the token is issued and time has passed. */
  lemma TokenInHand(u: Setup, s: State, a: A.Id, secret: S.Secret, d: nat, p: S.Process, e: nat, q: S.Process)
    requires S.Valid(s.su) && A.IsVerified(s.acc, a) && d < 300_000_000_000
    ensures var w := Apply(u, Run(u, s, StepUpFirst(s, a, secret, d, p)), Wait(e)).0; var j := s.su.nextJti;
      && w == s.(su := w.su) && w.su.now == s.su.now + d + e
      && j in w.su.issued && w.su.issued[j] == S.Token(a, T.Unix(s.su.now + d + 300_000_000_000)) && j !in S.ConsumedAt(w.su.consumed, q)
  {
    hide Apply, S.Valid, Run;
    StepUpIssues(u, s, a, secret, d, p);
    WaitIs(u, Run(u, s, StepUpFirst(s, a, secret, d, p)), e);
    UnspentAt(s.su, q);
  }

  /** A link started with a token that was never spent here. */
  lemma PresentForLink(u: Setup, s: State, q: S.Process, a: A.Id, j: nat, providers: map<string, bool>, provider: string, returnPath: string,
                       nonce: string)
    requires A.IsVerified(s.acc, a) && u.required && j in s.su.issued && s.su.issued[j].account == a && j !in S.ConsumedAt(s.su.consumed, q)
    ensures var (t, o) := Apply(u, s, DoStartLink(q, a, Some(j), providers, provider, returnPath, nonce));
      var r := F.AuthorizeState(u.keys, providers, u.parse, F.Link(u.uuid(a)), provider, returnPath, nonce, s.su.now);
      && o == (if T.Unix(s.su.now) > s.su.issued[j].exp then A.Denied
               else if r.Ok? then A.Done else if r.error.BadReturnPath? then A.BadRequest else A.NotFound)
      && t.acc == (if o == A.Done then s.acc.(links := s.acc.links + {a}) else s.acc)
      && t.minted.Keys == s.minted.Keys + if o == A.Done then {r.value} else {}
  {
    hide SetPassword, Begin, Callback, EmailEnd, ResolveStep, EmailSend, StepUpSend, ResetRequest, ResetBegin, ResetEnd,
      StartSignIn, EmailBegin, T.SignState;
  }

  /** A removal begun with a token that was never spent here. */
  lemma PresentForRemoval(u: Setup, s: State, q: S.Process, a: A.Id, j: nat, kind: A.TxKind)
    requires A.IsVerified(s.acc, a) && u.required && j in s.su.issued && s.su.issued[j].account == a && j !in S.ConsumedAt(s.su.consumed, q)
    ensures var t := Apply(u, s, DoBegin(q, a, Some(j), kind)).0;
      t.acc == if T.Unix(s.su.now) <= s.su.issued[j].exp then A.Begin(s.acc, a, true, kind).0 else s.acc
  {
    hide SetPassword, StartLink, Callback, EmailEnd, ResolveStep, EmailSend, StepUpSend, ResetRequest, ResetBegin, ResetEnd,
      StartSignIn, EmailBegin;
  }

  /** A step-up also pays for the start of a link: while the token lives, for a usable provider and an accepted
      path, a link token is minted with a state that names the account. */
  lemma StepUpPaysForLink(u: Setup, s: State, a: A.Id, secret: S.Secret, d: nat, p: S.Process, e: nat, q: S.Process,
                          providers: map<string, bool>, provider: string, returnPath: string, nonce: string)
    requires S.Valid(s.su) && A.IsVerified(s.acc, a) && u.required && u.keys.Lawful() && d < 300_000_000_000
    ensures var w := Apply(u, Run(u, s, StepUpFirst(s, a, secret, d, p)), Wait(e)).0;
      var (t, o) := Apply(u, w, DoStartLink(q, a, Some(s.su.nextJti), providers, provider, returnPath, nonce));
      && o == (if T.Unix(w.su.now) > T.Unix(s.su.now + d + 300_000_000_000) then A.Denied
               else if !(provider in providers && providers[provider]) then A.NotFound
               else if returnPath != "" && !F.SiteRelative(u.parse, returnPath) then A.BadRequest
               else A.Done)
      && t.acc == (if o == A.Done then s.acc.(links := s.acc.links + {a}) else s.acc)
      && (o == A.Done ==> exists state ::
            && t.minted.Keys == s.minted.Keys + {state}
            && T.VerifyState(u.keys, state, w.su.now)
               == Some(T.StatePayload(provider, if returnPath == "" then "/" else returnPath, nonce, T.Unix(w.su.now + 300_000_000_000),
                                      false, true, u.uuid(a))))
  {
    hide Apply, Run, F.AuthorizeState, T.VerifyState, T.SignState;
    TokenInHand(u, s, a, secret, d, p, e, q);
    var w := Apply(u, Run(u, s, StepUpFirst(s, a, secret, d, p)), Wait(e)).0;
    PresentForLink(u, w, q, a, s.su.nextJti, providers, provider, returnPath, nonce);
    F.StartedState(u.keys, providers, u.parse, F.Link(u.uuid(a)), provider, returnPath, nonce, w.su.now, w.su.now);
    S.UnixMonotone(w.su.now, w.su.now + 300_000_000_000);
    var r := F.AuthorizeState(u.keys, providers, u.parse, F.Link(u.uuid(a)), provider, returnPath, nonce, w.su.now);
    if r.Ok? {
      var t := Apply(u, w, DoStartLink(q, a, Some(s.su.nextJti), providers, provider, returnPath, nonce)).0;
      assert t.minted.Keys == s.minted.Keys + {r.value} || t.acc == s.acc;
    }
  }

  /** And for a removal, which undisturbed does what an undisturbed Unlink or RemovePassword does, while the token
      lives, and nothing afterwards. */
  lemma StepUpPaysForRemoval(u: Setup, s: State, a: A.Id, secret: S.Secret, d: nat, p: S.Process, e: nat, q: S.Process, kind: A.TxKind)
    requires S.Valid(s.su) && Safety.Valid(s.acc) && A.IsVerified(s.acc, a) && u.required && d < 300_000_000_000
    ensures var t := Run(u, s, StepUpFirst(s, a, secret, d, p) + [Wait(e), DoBegin(q, a, Some(s.su.nextJti), kind), Plain(A.DoCommit(s.acc.nextTx))]);
      t.acc == if T.Unix(s.su.now + d + e) <= T.Unix(s.su.now + d + 300_000_000_000)
               then A.Commit(A.Serializable, A.Begin(s.acc, a, true, kind).0, s.acc.nextTx).0 else s.acc
  {
    hide Apply, A.Commit, A.Begin, Safety.Valid, S.Valid;
    var first, n := StepUpFirst(s, a, secret, d, p), s.acc.nextTx;
    var last := [Wait(e), DoBegin(q, a, Some(s.su.nextJti), kind), Plain(A.DoCommit(n))];
    TokenInHand(u, s, a, secret, d, p, e, q);
    RunAppend(u, s, first, last);
    var v := Run(u, s, first);
    var w := Apply(u, v, last[0]).0;
    assert last[1..] == [last[1], last[2]];
    assert Run(u, v, last) == Run(u, w, last[1..]);
    TwoSteps(u, w, last[1], last[2]);
    PresentForRemoval(u, w, q, a, s.su.nextJti, kind);
    CommitIs(u, Apply(u, w, last[1]).0, n);
    NoTxYet(s.acc);
  }

  lemma CommitIs(u: Setup, s: State, n: nat)
    ensures Apply(u, s, Plain(A.DoCommit(n))).0.acc == A.Commit(A.Serializable, s.acc, n).0
    ensures n !in s.acc.txs ==> A.Commit(A.Serializable, s.acc, n).0 == s.acc
  {
  }

  lemma NoTxYet(acc: A.State)
    requires Safety.Valid(acc)
    ensures acc.nextTx !in acc.txs
  {
  }

  // ----- a redirect sign-in -----

  /** The state a sign-in or a test starts with. */
  function StartState(u: Setup, s: State, test: bool, providers: map<string, bool>, provider: string, returnPath: string, nonce: string): F.Result<string>
  {
    F.AuthorizeState(u.keys, providers, u.parse, if test then F.Test else F.SignIn, provider, returnPath, nonce, s.su.now)
  }

  lemma StartMints(u: Setup, s: State, test: bool, providers: map<string, bool>, provider: string, returnPath: string, nonce: string)
    requires StartState(u, s, test, providers, provider, returnPath, nonce).Ok?
    ensures var (t, o) := Apply(u, s, DoStartSignIn(test, providers, provider, returnPath, nonce));
      && o == A.Done && t.acc == s.acc && t.su == s.su
      && t.minted.Keys == s.minted.Keys + {StartState(u, s, test, providers, provider, returnPath, nonce).value}
  {
    hide SetPassword, StartLink, Begin, Callback, EmailEnd, ResolveStep, EmailSend, StepUpSend, ResetRequest, ResetBegin, ResetEnd,
      EmailBegin, T.SignState;
  }

  /** The callback of a flow that comes back to its browser with its nonce. */
  function Answered(providers: map<string, bool>, provider: string, code: string, state: string, nonce: string, p: A.Principal): Step
  {
    DoCallback(providers, provider, F.Return("", code, state, Some(state)), F.Verified(nonce, true, Some(p)))
  }

  lemma CallbackGoes(u: Setup, s: State, providers: map<string, bool>, provider: string, code: string, state: string, nonce: string, p: A.Principal)
    requires state in s.minted
    ensures var x := Answered(providers, provider, code, state, nonce, p);
      var route := F.Callback(u.keys, providers, provider, x.q, x.reply, s.su.now); var (t, o) := Apply(u, s, x);
      && (route == F.SignInAs(p) ==> (t.acc, o) == A.Resolve(u.cfg, s.acc, p, s.su.now))
      && (!route.SignInAs? && !route.LinkMode? ==> t.acc == s.acc && !o.Resolved?)
  {
    hide SetPassword, StartLink, Begin, EmailEnd, EmailSend, StepUpSend, ResetRequest, ResetBegin, ResetEnd,
      EmailBegin, StartSignIn, A.Resolve, F.Callback, Vouches;
  }

  /** From every state: a sign-in started for a usable provider and answered with its nonce by that provider does to
      the accounts exactly what resolving the principal does, while its state lives and the principal has an email;
      a test, a late answer and one without an email sign nobody in and change no account. */
  lemma RedirectSignsIn(u: Setup, s: State, test: bool, providers: map<string, bool>, provider: string, returnPath: string, nonce: string,
                        d: nat, code: string, p: A.Principal)
    requires u.keys.Lawful() && code != "" && StartState(u, s, test, providers, provider, returnPath, nonce).Ok?
    ensures var state := StartState(u, s, test, providers, provider, returnPath, nonce).value;
      var started := Apply(u, s, DoStartSignIn(test, providers, provider, returnPath, nonce)).0;
      var (t, o) := Apply(u, Apply(u, started, Wait(d)).0, Answered(providers, provider, code, state, nonce, p));
      var live := T.Unix(s.su.now + d) <= T.Unix(s.su.now + 300_000_000_000);
      if live && !test && p.email != "" then (t.acc, o) == A.Resolve(u.cfg, s.acc, p, s.su.now + d)
      else t.acc == s.acc && !o.Resolved?
  {
    hide Apply, A.Resolve, F.Callback, F.AuthorizeState;
    var purpose := if test then F.Test else F.SignIn;
    var state := StartState(u, s, test, providers, provider, returnPath, nonce).value;
    StartMints(u, s, test, providers, provider, returnPath, nonce);
    var started := Apply(u, s, DoStartSignIn(test, providers, provider, returnPath, nonce)).0;
    WaitIs(u, started, d);
    var w := Apply(u, started, Wait(d)).0;
    CallbackGoes(u, w, providers, provider, code, state, nonce, p);
    F.StartedState(u.keys, providers, u.parse, purpose, provider, returnPath, nonce, s.su.now, w.su.now);
    if T.Unix(w.su.now) <= T.Unix(s.su.now + 300_000_000_000) {
      F.HonestCallbackGoesOn(u.keys, purpose, provider, returnPath, nonce, s.su.now, providers, u.parse, code, p, w.su.now);
    } else {
      LateIsRefused(u.keys, providers, provider, code, state, nonce, p, w.su.now);
    }
  }

  lemma LateIsRefused(k: T.Keys, providers: map<string, bool>, provider: string, code: string, state: string, nonce: string, p: A.Principal, now: nat)
    requires T.VerifyState(k, state, now).None?
    ensures var x := Answered(providers, provider, code, state, nonce, p); var route := F.Callback(k, providers, provider, x.q, x.reply, now);
      !route.SignInAs? && !route.LinkMode?
  {
  }
}
