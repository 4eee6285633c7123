/** Passwords in the whole credential system: what a change was shown, and how often a reset row can
    change one. */
module CredentialResets {
  import opened Text
  import A = Accounts
  import Safety = AccountSafety
  import AF = AccountFrames
  import AT = AccountTheorems
  import S = StepUp
  import F = OAuthFlow
  import opened Credentials
  import opened CredentialTheorems

  // ----- password changes -----

  /** The reset found a row of its token and account, unexpired at the time. */
  predicate ResetFound(u: Setup, s: State, q: ResetConfirm)
  {
    var h := u.digest(q.token);
    && q.token != "" && |q.password| >= 12
    && h in s.resets && s.resets[h].account == q.account && s.resets[h].expires > q.at
  }

  predicate RowToken(u: Setup, token: string, h: string)
  {
    token != "" && u.digest(token) == h
  }

  /** Resets under way found their row, and every row belongs to a token and an account. */
  ghost predicate ResetsValid(u: Setup, s: State)
  {
    && (forall r | r in s.confirms :: r < s.nextConfirm && ResetFound(u, s, s.confirms[r]))
    && (forall h | h in s.resets :: s.resets[h].account in s.acc.accounts && exists token :: RowToken(u, token, h))
  }

  /** Rows stay, with their account and expiry, and a consumed one stays consumed. */
  predicate RowsStay(s: State, t: State)
  {
    forall h | h in s.resets :: h in t.resets && t.resets[h].account == s.resets[h].account
      && t.resets[h].expires == s.resets[h].expires && (s.resets[h].consumed ==> t.resets[h].consumed)
  }

  predicate IsReset(step: Step)
  {
    step.DoResetRequest? || step.DoResetBegin? || step.DoResetEnd?
  }

  predicate FewerConfirms(s: State, t: State)
  {
    forall r | r in t.confirms :: r in s.confirms && t.confirms[r] == s.confirms[r]
  }

  lemma OthersKeepResets(u: Setup, s: State, step: Step)
    requires !IsReset(step)
    ensures var t := Apply(u, s, step).0; t.resets == s.resets && t.nextConfirm == s.nextConfirm && FewerConfirms(s, t)
  {
    if IsGated(step) {
      GatedIs(u, s, step);
    } else if step.DoEmailBegin? {
      EmailBeginIs(u, s, step.process, step.email, step.purpose, step.code);
    } else if step.DoCallback? {
      CallbackKeepsRest(u, s, step);
    } else if step.DoEmailEnd? || step.DoBearer? {
      EndsKeepResets(u, s, step);
    } else {
      PlainKeepsResets(u, s, step);
    }
  }

  lemma EndsKeepResets(u: Setup, s: State, step: Step)
    requires step.DoEmailEnd? || step.DoBearer?
    ensures var t := Apply(u, s, step).0; t.resets == s.resets && t.confirms == s.confirms && t.nextConfirm == s.nextConfirm
  {
    hide A.Resolve, A.MarkVerified, S.Finish, SetPassword, StartLink, Begin, Callback, EmailBegin, EmailSend,
      StepUpSend, ResetRequest, ResetBegin, StartSignIn;
  }

  lemma PlainKeepsResets(u: Setup, s: State, step: Step)
    requires step.Plain? || (KeepsAccounts(step) && !IsReset(step))
    ensures var t := Apply(u, s, step).0; t.resets == s.resets && t.nextConfirm == s.nextConfirm && FewerConfirms(s, t)
  {
    hide A.Apply, S.Apply, F.AuthorizeState, SetPassword, StartLink, Begin, EmailEnd, ResetEnd, ResolveStep,
      Callback, EmailBegin;
  }

  lemma AccountsGrow(u: Setup, s: State, step: Step)
    requires Safety.Valid(s.acc)
    ensures s.acc.accounts.Keys <= Apply(u, s, step).0.acc.accounts.Keys
  {
    hide Apply, A.Apply;
    AccountStep(u, s, step);
    if AccountPart(u, s, step).Some? {
      AF.AccountsStay(u.cfg, A.Serializable, s.acc, AccountPart(u, s, step).value);
    }
  }

  lemma StepKeepsResets(u: Setup, s: State, step: Step)
    requires Safety.Valid(s.acc) && ResetsValid(u, s)
    ensures ResetsValid(u, Apply(u, s, step).0) && RowsStay(s, Apply(u, s, step).0)
  {
    hide Apply;
    if IsReset(step) {
      ResetKeepsResets(u, s, step);
    } else {
      AccountsGrow(u, s, step);
      OthersKeepResets(u, s, step);
    }
  }

  lemma ResetKeepsResets(u: Setup, s: State, step: Step)
    requires ResetsValid(u, s) && IsReset(step)
    ensures ResetsValid(u, Apply(u, s, step).0) && RowsStay(s, Apply(u, s, step).0)
  {
    hide ResetsValid, RowsStay, ResetRequest, ResetBegin, ResetEnd;
    if step.DoResetRequest? {
      RequestKeepsResets(u, s, step.email, step.newToken);
    } else if step.DoResetBegin? {
      BeginKeepsResets(u, s, step.process, step.resetToken, step.password);
    } else {
      EndKeepsResets(u, s, step.request, step.salt, step.consumeOk);
    }
  }

  lemma RequestKeepsResets(u: Setup, s: State, email: string, token: S.Secret)
    requires ResetsValid(u, s)
    ensures var t := ResetRequest(u, s, email, token).0; ResetsValid(u, t) && RowsStay(s, t)
  {
    assert RowToken(u, token, u.digest(token));
  }

  lemma BeginKeepsResets(u: Setup, s: State, p: S.Process, token: string, password: string)
    requires ResetsValid(u, s)
    ensures var t := ResetBegin(u, s, p, token, password).0; ResetsValid(u, t) && RowsStay(s, t)
  {
  }

  lemma EndKeepsResets(u: Setup, s: State, r: nat, salt: string, consumeOk: bool)
    requires ResetsValid(u, s)
    ensures var t := ResetEnd(u, s, r, salt, consumeOk).0; ResetsValid(u, t) && RowsStay(s, t)
  {
    var t := ResetEnd(u, s, r, salt, consumeOk).0;
    if r in s.confirms {
      ResetEndIs(u, s, r, salt, consumeOk);
    }
  }

  /** A found row's account exists, so the password is stored and the use recorded. */
  lemma ResetEndIs(u: Setup, s: State, r: nat, salt: string, consumeOk: bool)
    requires ResetsValid(u, s) && r in s.confirms
    ensures var (t, o) := ResetEnd(u, s, r, salt, consumeOk); var q := s.confirms[r]; var h := u.digest(q.token);
      && o == A.Done && t.acc == A.PutLocal(s.acc, q.account, u.cfg.hash(q.password, salt)) && t.su == s.su
      && t.confirms == s.confirms - {r} && t.nextConfirm == s.nextConfirm && t.log == s.log + [ResetUsed(h)]
      && h in s.resets && t.resets == if consumeOk then s.resets[h := s.resets[h].(consumed := true)] else s.resets
  {
    assert ResetFound(u, s, s.confirms[r]);
  }

  lemma {:induction false} RunKeepsResets(u: Setup, s: State, steps: seq<Step>)
    requires Safety.Valid(s.acc) && ResetsValid(u, s)
    ensures Safety.Valid(Run(u, s, steps).acc) && ResetsValid(u, Run(u, s, steps))
    decreases |steps|
  {
    hide Apply;
    if steps != [] {
      StepKeepsAccounts(u, s, steps[0]);
      StepKeepsResets(u, s, steps[0]);
      RunKeepsResets(u, Apply(u, s, steps[0]).0, steps[1..]);
    }
  }

  /** What a step that leaves account a's password row as after has shown. */
  predicate PasswordProved(u: Setup, s: State, t: State, step: Step, a: A.Id, after: Option<string>)
  {
    match step
    case DoResetEnd(r, salt, _) =>
      && r in s.confirms && s.confirms[r].account == a && ResetFound(u, s, s.confirms[r])
      && after == Some(u.cfg.hash(s.confirms[r].password, salt))
    case DoSetPassword(h, b, token, p, c, salt) =>
      && b == a && A.IsVerified(s.acc, a) && |p| >= 12 && after == Some(u.cfg.hash(p, salt))
      && (a in s.acc.locals ==> c != "" && u.cfg.verify(c, s.acc.locals[a]))
      && (u.required ==> token.Some? && S.RequireStepUp(true, s.su, h, a, token).1 && t.su.log == s.su.log + [S.Passed(h, a, token.value)])
    case Plain(x) =>
      x.DoCommit? && x.tx in s.acc.txs && s.acc.txs[x.tx].account == a && s.acc.txs[x.tx].kind.RemovePasswordTx? && after == None
    case _ => false
  }

  lemma StepNeedsProof(u: Setup, s: State, step: Step, a: A.Id)
    requires Safety.Valid(s.acc) && ResetsValid(u, s) && a in s.acc.accounts
    ensures var t := Apply(u, s, step).0;
      AF.Local(s.acc, a) != AF.Local(t.acc, a) ==> PasswordProved(u, s, t, step, a, AF.Local(t.acc, a))
  {
    hide Apply, A.Apply;
    var t := Apply(u, s, step).0;
    if AF.Local(s.acc, a) != AF.Local(t.acc, a) {
      AccountStep(u, s, step);
      var x := AccountPart(u, s, step).value;
      AF.PasswordChangedOnlyBy(u.cfg, A.Serializable, s.acc, x, a);
      PartIs(u, s, step);
      if IsGated(step) {
        GatedNeedsProof(u, s, step, a, AF.Local(t.acc, a));
      }
    }
  }

  lemma GatedNeedsProof(u: Setup, s: State, step: Step, a: A.Id, after: Option<string>)
    requires step.DoSetPassword? && Apply(u, s, step).0.acc != s.acc
    requires AF.SetsPassword(u.cfg, s.acc, A.DoSetPassword(step.a, true, step.password, step.current, step.salt), a, after)
    ensures PasswordProved(u, s, Apply(u, s, step).0, step, a, after)
  {
    hide Apply;
    GatedIs(u, s, step);
    GateIs(u, s, step.process, step.a, step.token);
  }

  /** After any run, an existing account's password row is changed only by a reset that found an
      unexpired row of its token for this account, by the verified owner who spent a step-up token and
      knew the stored password, or by a removal begun past the gate. */
  lemma PasswordChangeNeedsProof(u: Setup, steps: seq<Step>, step: Step, a: A.Id)
    requires a in Run(u, INITIAL, steps).acc.accounts
    ensures var s := Run(u, INITIAL, steps); var t := Apply(u, s, step).0;
      AF.Local(s.acc, a) != AF.Local(t.acc, a) ==> PasswordProved(u, s, t, step, a, AF.Local(t.acc, a))
  {
    hide Apply;
    AT.EmptyValid();
    RunKeepsResets(u, INITIAL, steps);
    StepNeedsProof(u, Run(u, INITIAL, steps), step, a);
  }

  predicate EndsReset(s: State, step: Step, x: A.Step)
  {
    && step.DoResetEnd? && step.request in s.confirms
    && x == A.DoReset(s.confirms[step.request].account, s.confirms[step.request].password, step.salt)
  }

  /** Which steps take which account step. */
  lemma PartIs(u: Setup, s: State, step: Step)
    ensures var x := AccountPart(u, s, step);
      x.Some? ==>
        && (x.value.DoReset? ==> EndsReset(s, step, x.value))
        && (x.value.DoSetPassword? ==> step.DoSetPassword? && x.value == A.DoSetPassword(step.a, true, step.password, step.current, step.salt))
        && (x.value.DoCommit? ==> step == Plain(x.value))
        && (x.value.DoStartLink? ==> step.DoStartLink? && x.value.a == step.a)
        && (x.value.DoBegin? ==> step.DoBegin? && x.value.a == step.a)
  {
  }

  // ----- when a reset row can be used again -----

  /** How often a row has changed a password. */
  function Uses(log: seq<Change>, h: string): nat
  {
    if log == [] then 0
    else Uses(log[..|log| - 1], h) + if log[|log| - 1] == ResetUsed(h) then 1 else 0
  }

  lemma UsesAppend(log: seq<Change>, c: Change, h: string)
    ensures Uses(log + [c], h) == Uses(log, h) + if c == ResetUsed(h) then 1 else 0
  {
    assert (log + [c])[..|log|] == log;
  }

  lemma {:induction false} NoUsesAdded(log: seq<Change>, more: seq<Change>, h: string)
    requires log <= more && forall c | c in more[|log|..] :: !c.ResetUsed?
    ensures Uses(more, h) == Uses(log, h)
    decreases |more|
  {
    if |more| > |log| {
      var prefix, c := more[..|more| - 1], more[|more| - 1];
      assert more[|log|..][|more| - 1 - |log|] == c && more == prefix + [c];
      assert forall d | d in prefix[|log|..] :: d in more[|log|..];
      NoUsesAdded(log, prefix, h);
      UsesAppend(prefix, c, h);
    } else {
      assert more == log;
    }
  }

  /** An unfinished PasswordResetConfirm found the row. */
  predicate ResetHeld(u: Setup, s: State, h: string)
  {
    exists r | r in s.confirms :: u.digest(s.confirms[r].token) == h
  }

  /** The row can still be found. */
  predicate ResetOpen(s: State, h: string)
  {
    h in s.resets && !s.resets[h].consumed && s.resets[h].expires > s.su.now
  }

  /** The row can change the password, or change it again, by something that happens from here. */
  ghost predicate Resettable(u: Setup, s: State, h: string)
  {
    exists steps :: Uses(Run(u, s, steps).log, h) > Uses(s.log, h)
  }

  lemma TimePasses(u: Setup, s: State, step: Step)
    requires S.Valid(s.su)
    ensures s.su.now <= Apply(u, s, step).0.su.now
  {
    hide Apply, CodesPart;
    CodesStep(u, s, step);
    if CodesPart(u, s, step).Some? {
      ClockMoves(s.su, CodesPart(u, s, step).value);
    }
  }

  lemma ClockMoves(su: S.State, x: S.Step)
    ensures su.now <= S.Apply(su, x).now
  {
  }

  /** Only the end of a reset uses a row. */
  lemma UsesOnlyBy(u: Setup, s: State, step: Step, h: string)
    requires ResetsValid(u, s) && !ResetHeld(u, s, h)
    ensures Uses(Apply(u, s, step).0.log, h) == Uses(s.log, h)
  {
    if step.DoResetEnd? {
      EndLog(u, s, step, h);
    } else {
      hide Apply;
      OthersUseNothing(u, s, step);
      NoUsesAdded(s.log, Apply(u, s, step).0.log, h);
    }
  }

  lemma EndLog(u: Setup, s: State, step: Step, h: string)
    requires step.DoResetEnd? && !ResetHeld(u, s, h)
    ensures Uses(Apply(u, s, step).0.log, h) == Uses(s.log, h)
  {
    hide ResetEnd;
    ResetLog(u, s, step.request, step.salt, step.consumeOk);
    if step.request in s.confirms {
      UsesAppend(s.log, ResetUsed(u.digest(s.confirms[step.request].token)), h);
    }
  }

  lemma OthersUseNothing(u: Setup, s: State, step: Step)
    requires !step.DoResetEnd?
    ensures var t := Apply(u, s, step).0; s.log <= t.log && forall c | c in t.log[|s.log|..] :: !c.ResetUsed?
  {
    if IsGated(step) {
      GatedIs(u, s, step);
      GateIs(u, s, step.process, step.a, step.token);
    } else if step.DoEmailBegin? {
      EmailBeginIs(u, s, step.process, step.email, step.purpose, step.code);
    } else if step.DoCallback? {
      CallbackKeepsRest(u, s, step);
    } else {
      OthersLog(u, s, step);
    }
  }

  predicate Shut(u: Setup, s: State, h: string)
  {
    h in s.resets && !ResetHeld(u, s, h) && !ResetOpen(s, h)
  }

  lemma ShutStaysShut(u: Setup, s: State, step: Step, h: string)
    requires S.Valid(s.su) && Safety.Valid(s.acc) && ResetsValid(u, s) && Shut(u, s, h)
    ensures var t := Apply(u, s, step).0; Shut(u, t, h) && Uses(t.log, h) == Uses(s.log, h)
  {
    hide Apply;
    TimePasses(u, s, step);
    StepKeepsResets(u, s, step);
    UsesOnlyBy(u, s, step, h);
    HeldOnlyBy(u, s, step, h);
  }

  /** Only the start of a reset finds a row, and only an open one. */
  lemma HeldOnlyBy(u: Setup, s: State, step: Step, h: string)
    requires ResetsValid(u, s) && h in s.resets && !ResetHeld(u, s, h)
    ensures ResetHeld(u, Apply(u, s, step).0, h) ==> ResetOpen(s, h)
  {
    if step.DoResetBegin? {
      BeginHolds(u, s, step.process, step.resetToken, step.password, h);
    } else if step.DoResetEnd? {
      EndHolds(u, s, step.request, step.salt, step.consumeOk, h);
    } else if step.DoResetRequest? {
      RequestHolds(u, s, step.email, step.newToken);
    } else {
      hide Apply;
      OthersKeepResets(u, s, step);
    }
  }

  lemma BeginHolds(u: Setup, s: State, p: S.Process, token: string, password: string, h: string)
    requires !ResetHeld(u, s, h)
    ensures ResetHeld(u, ResetBegin(u, s, p, token, password).0, h) ==> ResetOpen(s, h)
  {
  }

  lemma EndHolds(u: Setup, s: State, r: nat, salt: string, consumeOk: bool, h: string)
    requires ResetsValid(u, s) && !ResetHeld(u, s, h)
    ensures !ResetHeld(u, ResetEnd(u, s, r, salt, consumeOk).0, h)
  {
    if r in s.confirms {
      ResetEndIs(u, s, r, salt, consumeOk);
    }
  }

  lemma RequestHolds(u: Setup, s: State, email: string, token: S.Secret)
    ensures ResetRequest(u, s, email, token).0.confirms == s.confirms
  {
  }

  lemma {:induction false} ShutIsFinal(u: Setup, s: State, steps: seq<Step>, h: string)
    requires S.Valid(s.su) && Safety.Valid(s.acc) && ResetsValid(u, s) && Shut(u, s, h)
    ensures Uses(Run(u, s, steps).log, h) == Uses(s.log, h)
    decreases |steps|
  {
    hide Apply;
    if steps != [] {
      StepKeepsCodes(u, s, steps[0]);
      StepKeepsAccounts(u, s, steps[0]);
      StepKeepsResets(u, s, steps[0]);
      ShutStaysShut(u, s, steps[0], h);
      ShutIsFinal(u, Apply(u, s, steps[0]).0, steps[1..], h);
    }
  }

  lemma EndUses(u: Setup, s: State, r: nat)
    requires ResetsValid(u, s) && r in s.confirms
    ensures var h := u.digest(s.confirms[r].token); Uses(Run(u, s, [DoResetEnd(r, "", true)]).log, h) == Uses(s.log, h) + 1
  {
    var step := DoResetEnd(r, "", true);
    var h := u.digest(s.confirms[r].token);
    ResetEndIs(u, s, r, "", true);
    UsesAppend(s.log, ResetUsed(h), h);
    assert Apply(u, s, step) == ResetEnd(u, s, r, "", true);
    hide Apply;
    assert [step][1..] == [] && Run(u, s, [step]) == Run(u, Apply(u, s, step).0, []);
  }

  const ENOUGH := "correct horse"

  lemma OpenIsUsable(u: Setup, s: State, h: string)
    requires ResetsValid(u, s) && ResetOpen(s, h)
    ensures Resettable(u, s, h)
  {
    var token :| RowToken(u, token, h);
    var begin, end := DoResetBegin(0, token, ENOUGH), DoResetEnd(s.nextConfirm, "", true);
    assert |ENOUGH| >= 12;
    BeginKeepsResets(u, s, 0, token, ENOUGH);
    var t := Apply(u, s, begin).0;
    assert t == ResetBegin(u, s, 0, token, ENOUGH).0;
    EndUses(u, t, s.nextConfirm);
    hide Apply;
    RunAppend(u, s, [begin], [end]);
    assert [begin][1..] == [] && Run(u, s, [begin]) == Run(u, t, []);
  }

  /** A reset row can change the password, or change it again, exactly while an unfinished request
      holds it or it is neither consumed nor expired. */
  lemma ResettableExact(u: Setup, s: State, h: string)
    requires S.Valid(s.su) && Safety.Valid(s.acc) && ResetsValid(u, s) && h in s.resets
    ensures Resettable(u, s, h) <==> ResetHeld(u, s, h) || ResetOpen(s, h)
  {
    hide Apply;
    if ResetHeld(u, s, h) {
      var r :| r in s.confirms && u.digest(s.confirms[r].token) == h;
      EndUses(u, s, r);
    } else if ResetOpen(s, h) {
      OpenIsUsable(u, s, h);
    } else {
      forall steps ensures Uses(Run(u, s, steps).log, h) == Uses(s.log, h) {
        ShutIsFinal(u, s, steps, h);
      }
    }
  }

  predicate HeldElsewhere(u: Setup, s: State, p: S.Process, h: string)
  {
    exists q | q in s.confirms :: s.confirms[q].process != p && u.digest(s.confirms[q].token) == h
  }

  /** A restart of a process takes a reset row's use away exactly if only requests of that process held it and it
      is not open any more. */
  lemma RestartReleasesReset(u: Setup, s: State, p: S.Process, h: string)
    requires S.Valid(s.su) && Safety.Valid(s.acc) && ResetsValid(u, s) && h in s.resets
    ensures Resettable(u, Apply(u, s, Codes(S.DoRestart(p))).0, h) <==> HeldElsewhere(u, s, p, h) || ResetOpen(s, h)
  {
    hide Apply, Resettable;
    RestartIs(u, s, p);
    var t := Apply(u, s, Codes(S.DoRestart(p))).0;
    StepKeepsResets(u, s, Codes(S.DoRestart(p)));
    S.RestartKeeps(s.su, p);
    ResettableExact(u, t, h);
    if HeldElsewhere(u, s, p, h) {
      var q :| q in s.confirms && s.confirms[q].process != p && u.digest(s.confirms[q].token) == h;
      assert q in t.confirms;
    }
  }

  lemma RestartIs(u: Setup, s: State, p: S.Process)
    ensures var t := Apply(u, s, Codes(S.DoRestart(p))).0;
      && t == s.(su := S.Restart(s.su, p), confirms := t.confirms)
      && (forall r :: r in t.confirms <==> r in s.confirms && s.confirms[r].process != p)
      && (forall r | r in t.confirms :: t.confirms[r] == s.confirms[r])
  {
  }

  predicate HeldByAnother(u: Setup, s: State, r: nat, h: string)
  {
    exists q | q in s.confirms :: q != r && u.digest(s.confirms[q].token) == h
  }

  /** A reset row just used can be used again exactly when another request found it before, or
      consuming it failed and it was neither consumed already nor expired. */
  lemma UsedRowReturnsIff(u: Setup, s: State, r: nat, salt: string, consumeOk: bool)
    requires S.Valid(s.su) && Safety.Valid(s.acc) && ResetsValid(u, s) && r in s.confirms
    ensures var h := u.digest(s.confirms[r].token);
      Resettable(u, ResetEnd(u, s, r, salt, consumeOk).0, h) <==> HeldByAnother(u, s, r, h) || (!consumeOk && ResetOpen(s, h))
  {
    hide ResetEnd, Run, Resettable;
    var h, t := u.digest(s.confirms[r].token), ResetEnd(u, s, r, salt, consumeOk).0;
    ResetEndIs(u, s, r, salt, consumeOk);
    EndKeepsResets(u, s, r, salt, consumeOk);
    UsedStaysValid(u, s, r, salt, consumeOk);
    ResettableExact(u, t, h);
    if HeldByAnother(u, s, r, h) {
      var q :| q in s.confirms && q != r && u.digest(s.confirms[q].token) == h;
      assert q in t.confirms;
    }
  }

  lemma UsedStaysValid(u: Setup, s: State, r: nat, salt: string, consumeOk: bool)
    requires Safety.Valid(s.acc) && ResetsValid(u, s) && r in s.confirms
    ensures Safety.Valid(ResetEnd(u, s, r, salt, consumeOk).0.acc)
  {
    hide ResetEnd;
    ResetEndIs(u, s, r, salt, consumeOk);
    assert ResetFound(u, s, s.confirms[r]);
    Safety.PutLocalKeeps(s.acc, s.confirms[r].account, u.cfg.hash(s.confirms[r].password, salt));
  }

  // ----- two requests on one row -----

  /** A sign-up, a reset mailed, and two overlapping requests that use its row. */
  function TwoConfirms(email: string, password: string, name: string, token: S.Secret): seq<Step>
  {
    [Plain(A.DoRegister(email, password, name, name, "")), DoResetRequest(email, token),
     DoResetBegin(0, token, password), DoResetBegin(0, token, password)]
    + [DoResetEnd(0, "", true), DoResetEnd(1, "", true)]
  }

  /** The state once both requests found the row. */
  function BothFound(u: Setup, email: string, password: string, token: S.Secret): State
  {
    var q := ResetConfirm(0, token, 0, password, 0);
    INITIAL.(acc := A.EMPTY.(accounts := map[0 := A.Account(u.cfg.normalise(email), false)], locals := map[0 := u.cfg.hash(password, "")], nextAccount := 1),
             resets := map[u.digest(token) := ResetRow(0, RESET_TTL, false)], confirms := map[0 := q, 1 := q], nextConfirm := 2)
  }

  /** The state once the reset is mailed. */
  function ResetMailed(u: Setup, email: string, password: string, token: S.Secret): State
  {
    BothFound(u, email, password, token).(confirms := map[], nextConfirm := 0)
  }

  lemma MailReset(u: Setup, email: string, password: string, name: string, token: S.Secret)
    requires u.cfg.normalise(email) != "" && |password| >= 12 && GoTrim(name) != ""
    ensures Apply(u, Apply(u, INITIAL, Plain(A.DoRegister(email, password, name, name, ""))).0, DoResetRequest(email, token)).0
      == ResetMailed(u, email, password, token)
  {
    var x := u.cfg.normalise(email);
    assert A.FindByEmail(u.cfg, A.EMPTY, x).None?;
    var s1 := Apply(u, INITIAL, Plain(A.DoRegister(email, password, name, name, ""))).0;
    assert s1 == INITIAL.(acc := A.EMPTY.(accounts := map[0 := A.Account(x, false)], locals := map[0 := u.cfg.hash(password, "")], nextAccount := 1));
    assert A.EmailMatches(u.cfg, s1.acc, x, 0) && A.FindByEmail(u.cfg, s1.acc, x) == Some(0);
  }

  lemma BothFind(u: Setup, email: string, password: string, name: string, token: S.Secret)
    requires u.cfg.normalise(email) != "" && |password| >= 12 && GoTrim(name) != ""
    ensures Run(u, INITIAL, TwoConfirms(email, password, name, token)[..4]) == BothFound(u, email, password, token)
  {
    var steps := TwoConfirms(email, password, name, token);
    MailReset(u, email, password, name, token);
    var s := ResetMailed(u, email, password, token);
    assert Apply(u, Apply(u, s, steps[2]).0, steps[3]).0 == BothFound(u, email, password, token);
    hide Apply;
    assert steps[..4] == [steps[0], steps[1], steps[2], steps[3]];
    FourSteps(u, INITIAL, steps[0], steps[1], steps[2], steps[3]);
  }

  lemma BothValid(u: Setup, email: string, password: string, token: S.Secret)
    requires |password| >= 12
    ensures ResetsValid(u, BothFound(u, email, password, token))
  {
    assert RowToken(u, token, u.digest(token));
  }

  /** Two requests that hold a row both use it. */
  lemma BothUse(u: Setup, s: State, r: nat, q: nat, h: string)
    requires ResetsValid(u, s) && r in s.confirms && q in s.confirms && r != q
    requires u.digest(s.confirms[r].token) == h == u.digest(s.confirms[q].token)
    ensures Uses(ResetEnd(u, ResetEnd(u, s, r, "", true).0, q, "", true).0.log, h) == Uses(s.log, h) + 2
  {
    hide ResetEnd;
    var t := ResetEnd(u, s, r, "", true).0;
    EndKeepsResets(u, s, r, "", true);
    ResetEndIs(u, s, r, "", true);
    ResetEndIs(u, t, q, "", true);
    UsesAppend(s.log, ResetUsed(h), h);
    UsesAppend(t.log, ResetUsed(h), h);
  }

  lemma EndStep(u: Setup, s: State, r: nat)
    ensures Apply(u, s, DoResetEnd(r, "", true)) == ResetEnd(u, s, r, "", true)
  {
    hide ResetEnd;
  }

  /** One reset mailed changes the password twice, though both consumptions succeed. */
  lemma OverlapResetsTwice(u: Setup, email: string, password: string, name: string, token: S.Secret)
    requires u.cfg.normalise(email) != "" && |password| >= 12 && GoTrim(name) != ""
    ensures Uses(Run(u, INITIAL, TwoConfirms(email, password, name, token)).log, u.digest(token)) == 2
  {
    hide Apply, ResetEnd;
    var steps, h := TwoConfirms(email, password, name, token), u.digest(token);
    BothFind(u, email, password, name, token);
    BothValid(u, email, password, token);
    var s := BothFound(u, email, password, token);
    BothUse(u, s, 0, 1, h);
    EndStep(u, s, 0);
    EndStep(u, ResetEnd(u, s, 0, "", true).0, 1);
    assert steps == steps[..4] + [steps[4], steps[5]];
    RunAppend(u, INITIAL, steps[..4], [steps[4], steps[5]]);
    TwoSteps(u, s, steps[4], steps[5]);
  }
}
