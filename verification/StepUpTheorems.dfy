/** What the gates of any number of processes let through over every run: the conservation of tokens,
    and what another process or a restart re-admits. */
module StepUpTheorems {
  import opened Text
  import Tokens
  import opened StepUp
  import opened StepUpRows

  // ----- tokens are conserved -----

  /** Passes are first passes or repeats; a token issued to the account passed once or is outstanding. */
  ghost predicate Conserved(s: State)
  {
    forall a :: Passes(s.log, a) + |Outstanding(s, a)| == Verifications(s.log, a) + Repeats(s.log, a)
  }

  lemma PassKeepsConserved(s: State, p: Process, a: Account, token: Option<nat>)
    requires Valid(s) && Conserved(s)
    ensures Conserved(RequireStepUp(true, s, p, a, token).0)
  {
    var (t, ok) := RequireStepUp(true, s, p, a, token);
    if ok {
      var j := token.value;
      SpentAppend(s.log, Passed(p, a, j));
      forall b ensures Passes(t.log, b) + |Outstanding(t, b)| == Verifications(t.log, b) + Repeats(t.log, b) {
        CountAppend(s.log, Passed(p, a, j), b);
        if b == a && j !in Spent(s.log) {
          assert Outstanding(t, b) == Outstanding(s, b) - {j} && j in Outstanding(s, b);
        } else {
          assert Outstanding(t, b) == Outstanding(s, b);
        }
      }
    }
  }

  lemma OutstandingAfterIssue(s: State, t: State, a: Account, exp: int, b: Account)
    requires s.nextJti !in s.issued && s.nextJti !in Spent(s.log) && Spent(t.log) == Spent(s.log)
    requires t.issued == s.issued[s.nextJti := Token(a, exp)]
    ensures |Outstanding(t, b)| == |Outstanding(s, b)| + if b == a then 1 else 0
  {
    if b == a {
      assert Outstanding(t, b) == Outstanding(s, b) + {s.nextJti};
    } else {
      assert Outstanding(t, b) == Outstanding(s, b);
    }
  }

  lemma FinishKeepsConserved(s: State, r: nat, consumeOk: bool)
    requires Valid(s) && Conserved(s)
    ensures Conserved(Finish(s, r, consumeOk).0)
  {
    if r in s.requests {
      FinishShape(s, r, consumeOk);
      var t := Finish(s, r, consumeOk).0;
      var q, e := s.requests[r], t.log[|s.log|];
      SpentAppend(s.log, e);
      NewTokenIsUnspent(s, 0);
      forall b ensures Passes(t.log, b) + |Outstanding(t, b)| == Verifications(t.log, b) + Repeats(t.log, b) {
        CountAppend(s.log, e, b);
        if q.issue {
          OutstandingAfterIssue(s, t, q.account, Tokens.Unix(s.now + STEP_UP_TTL), b);
        } else {
          assert Outstanding(t, b) == Outstanding(s, b);
        }
      }
    }
  }

  lemma StepKeepsConserved(s: State, step: Step)
    requires Valid(s) && Conserved(s)
    ensures Conserved(Apply(s, step))
  {
    match step
    case DoFinish(r, ok) => FinishKeepsConserved(s, r, ok);
    case DoGate(p, a, t) => PassKeepsConserved(s, p, a, t);
    case DoRestart(p) => RestartKeepsConserved(s, p);
    case DoStepUpLookUp(p, a, code) =>
      LookUpShape(s, p, a, Tokens.STEP_UP_PURPOSE, code, true);
      SameHistory(s, Apply(s, step));
    case DoEmailLookUp(p, a, q, code) =>
      LookUpShape(s, p, a, PurposeOf(q), code, false);
      SameHistory(s, Apply(s, step));
    case _ => SameHistory(s, Apply(s, step));
  }

  lemma SameHistory(s: State, t: State)
    requires Conserved(s) && t.log == s.log && t.issued == s.issued
    ensures Conserved(t)
  {
    forall a ensures Outstanding(t, a) == Outstanding(s, a) {
    }
  }

  lemma RestartKeepsConserved(s: State, p: Process)
    requires Conserved(s)
    ensures Conserved(Restart(s, p))
  {
    var t := Restart(s, p);
    SpentAppend(s.log, Restarted(p, s.now));
    forall a ensures Passes(t.log, a) + |Outstanding(t, a)| == Verifications(t.log, a) + Repeats(t.log, a) {
      CountAppend(s.log, Restarted(p, s.now), a);
      assert Outstanding(t, a) == Outstanding(s, a);
    }
  }

  // ----- at one process that stays up no token passes twice -----

  ghost predicate Fresh(s: State, p: Process)
  {
    && (forall e | e in s.log :: (e.Passed? ==> e.process == p) && !RestartedAt(e, p))
    && forall a :: Repeats(s.log, a) == 0
  }

  lemma SpentSince(log: seq<Event>, p: Process, j: nat)
    requires forall e | e in log :: (e.Passed? ==> e.process == p) && !RestartedAt(e, p)
    ensures j in Spent(log) <==> PassedSinceRestart(log, p, j)
  {
    if j in Spent(log) {
      var e :| e in log && e.Passed? && e.jti == j;
      var i :| 0 <= i < |log| && log[i] == e;
      assert NoRestartAfter(log, p, i);
    }
  }

  lemma StepKeepsFresh(s: State, step: Step, p: Process)
    requires Valid(s) && Fresh(s, p) && OnlyAt(step, p)
    ensures Fresh(Apply(s, step), p)
  {
    var t := Apply(s, step);
    if step.DoFinish? {
      if step.request in s.requests {
        FinishShape(s, step.request, step.consumeOk);
        forall a ensures Repeats(t.log, a) == 0 {
          CountAppend(s.log, t.log[|s.log|], a);
        }
      }
    } else if step.DoGate? {
      if t.log != s.log {
        SpentSince(s.log, p, step.token.value);
        forall a ensures Repeats(t.log, a) == 0 {
          CountAppend(s.log, Passed(p, step.account, step.token.value), a);
        }
      }
    } else if step.DoRestart? {
      forall a ensures Repeats(t.log, a) == 0 {
        CountAppend(s.log, Restarted(step.process, s.now), a);
      }
    } else {
      assert t.log == s.log;
    }
  }

  // ----- how often a token passes -----

  /** The processes among these where the token passed and which have not restarted since. */
  ghost function Refusing(log: seq<Event>, j: nat, at: set<Process>): set<Process>
  {
    set p | p in at && PassedSinceRestart(log, p, j)
  }

  ghost predicate PassesBounded(s: State, at: set<Process>)
  {
    forall j | j in s.issued ::
      && TokenPasses(s.log, j, at) <= |at| + RestartsInLifetime(s.log, j, s.issued[j].exp, at)
      && (Tokens.Unix(s.now) <= s.issued[j].exp ==>
          TokenPasses(s.log, j, at) <= |Refusing(s.log, j, at)| + RestartsInLifetime(s.log, j, s.issued[j].exp, at))
  }

  lemma RefusingInside(log: seq<Event>, j: nat, at: set<Process>)
    ensures |Refusing(log, j, at)| <= |at|
  {
    SubsetSize(Refusing(log, j, at), at);
  }

  lemma {:induction false} UnspentNeverPassed(log: seq<Event>, j: nat, at: set<Process>)
    requires j !in Spent(log)
    ensures TokenPasses(log, j, at) == 0
  {
    if log != [] {
      var prefix, e := log[..|log| - 1], log[|log| - 1];
      assert log == prefix + [e];
      SpentAppend(prefix, e);
      UnspentNeverPassed(prefix, j, at);
    }
  }

  lemma StepKeepsBounded(s: State, step: Step, at: set<Process>)
    requires Valid(s) && PassesBounded(s, at)
    ensures PassesBounded(Apply(s, step), at)
  {
    var t := Apply(s, step);
    match step
    case Advance(d) => UnixMonotone(s.now, s.now + d);
    case DoFinish(r, ok) => FinishKeepsBounded(s, r, ok, at);
    case DoGate(p, a, token) => PassKeepsBounded(s, p, a, token, at);
    case DoRestart(p) => RestartKeepsBounded(s, p, at);
    case _ => assert t.log == s.log && t.issued == s.issued && t.now == s.now;
  }

  lemma RestartKeepsBounded(s: State, p: Process, at: set<Process>)
    requires PassesBounded(s, at)
    ensures PassesBounded(Restart(s, p), at)
  {
    var t := Restart(s, p);
    forall j | j in s.issued ensures TokenPasses(t.log, j, at) == TokenPasses(s.log, j, at)
      ensures RestartsInLifetime(t.log, j, s.issued[j].exp, at)
           == RestartsInLifetime(s.log, j, s.issued[j].exp, at) + if p in at && Tokens.Unix(s.now) <= s.issued[j].exp then 1 else 0
      ensures |Refusing(t.log, j, at)| >= |Refusing(s.log, j, at)| - if p in at then 1 else 0
    {
      TokenAppend(s.log, Restarted(p, s.now), j, s.issued[j].exp, at);
      forall q ensures PassedSinceRestart(t.log, q, j) <==> q != p && PassedSinceRestart(s.log, q, j) {
        SinceAppend(s.log, Restarted(p, s.now), q, j);
      }
      assert Refusing(t.log, j, at) == Refusing(s.log, j, at) - {p};
    }
  }

  lemma FinishKeepsBounded(s: State, r: nat, consumeOk: bool, at: set<Process>)
    requires Valid(s) && PassesBounded(s, at)
    ensures PassesBounded(Finish(s, r, consumeOk).0, at)
  {
    if r in s.requests {
      FinishShape(s, r, consumeOk);
      NewTokenIsUnspent(s, 0);
      var t := Finish(s, r, consumeOk).0;
      var e := t.log[|s.log|];
      forall j | j in t.issued ensures TokenPasses(t.log, j, at) == (if j in s.issued then TokenPasses(s.log, j, at) else 0)
        ensures j in s.issued ==> RestartsInLifetime(t.log, j, t.issued[j].exp, at) == RestartsInLifetime(s.log, j, s.issued[j].exp, at)
        ensures Refusing(t.log, j, at) == Refusing(s.log, j, at)
      {
        TokenAppend(s.log, e, j, t.issued[j].exp, at);
        forall p ensures PassedSinceRestart(t.log, p, j) <==> PassedSinceRestart(s.log, p, j) {
          SinceAppend(s.log, e, p, j);
        }
        if j !in s.issued {
          UnspentNeverPassed(s.log, j, at);
        }
      }
    }
  }

  lemma PassKeepsBounded(s: State, p: Process, a: Account, token: Option<nat>, at: set<Process>)
    requires Valid(s) && PassesBounded(s, at)
    ensures PassesBounded(RequireStepUp(true, s, p, a, token).0, at)
  {
    var (t, ok) := RequireStepUp(true, s, p, a, token);
    if ok {
      forall j | j in s.issued
        ensures TokenPasses(t.log, j, at) == TokenPasses(s.log, j, at) + if j == token.value && p in at then 1 else 0
        ensures RestartsInLifetime(t.log, j, t.issued[j].exp, at) == RestartsInLifetime(s.log, j, s.issued[j].exp, at)
        ensures |Refusing(t.log, j, at)| == |Refusing(s.log, j, at)| + if j == token.value && p in at then 1 else 0
        ensures |Refusing(t.log, j, at)| <= |at|
      {
        TokenAppend(s.log, Passed(p, a, token.value), j, s.issued[j].exp, at);
        PassAddsRefusing(s, p, a, token.value, j, at);
        RefusingInside(t.log, j, at);
      }
    }
  }

  lemma PassAddsRefusing(s: State, p: Process, a: Account, passed: nat, j: nat, at: set<Process>)
    requires !PassedSinceRestart(s.log, p, passed)
    ensures |Refusing(s.log + [Passed(p, a, passed)], j, at)| == |Refusing(s.log, j, at)| + if j == passed && p in at then 1 else 0
  {
    var log := s.log + [Passed(p, a, passed)];
    forall q ensures PassedSinceRestart(log, q, j) <==> (q == p && j == passed) || PassedSinceRestart(s.log, q, j) {
      SinceAppend(s.log, Passed(p, a, passed), q, j);
    }
    assert Refusing(log, j, at) == Refusing(s.log, j, at) + if j == passed && p in at then {p} else {};
  }

  // ----- runs -----

  lemma {:induction false} RunKeeps(s: State, steps: seq<Step>, p: Process, at: set<Process>)
    requires Valid(s) && Conserved(s) && PassesBounded(s, at)
    ensures Valid(Run(s, steps)) && Conserved(Run(s, steps)) && PassesBounded(Run(s, steps), at)
    ensures Fresh(s, p) && OneProcess(steps, p) ==> Fresh(Run(s, steps), p)
    decreases |steps|
  {
    if steps != [] {
      var t := Apply(s, steps[0]);
      StepKeepsValid(s, steps[0]);
      StepKeepsConserved(s, steps[0]);
      StepKeepsBounded(s, steps[0], at);
      if Fresh(s, p) && OneProcess(steps, p) {
        assert steps[0] in steps && OneProcess(steps[1..], p);
        StepKeepsFresh(s, steps[0], p);
      }
      RunKeeps(t, steps[1..], p, at);
    }
  }

  lemma InitialKeeps(p: Process, at: set<Process>)
    ensures Valid(INITIAL) && Conserved(INITIAL) && PassesBounded(INITIAL, at) && Fresh(INITIAL, p)
    ensures forall c :: RedeemedAtMostOnce(INITIAL, c)
  {
    forall a ensures Outstanding(INITIAL, a) == {} {
    }
  }

  ghost predicate AllClean(steps: seq<Step>)
  {
    forall c :: CleanRun(INITIAL, steps, c)
  }

  /** Over any run, with any number of processes, overlapping requests, janitor ticks and restarts,
      passes plus outstanding tokens equal verifications plus repeats, for every account. Nothing
      repeats while every token is presented to one process that stays up. In clean runs each
      verification has its own redeemed credential_change row; at one process that stays up passes
      are then bounded by those rows. */
  lemma PassesAreEarned(steps: seq<Step>, p: Process, a: Account)
    ensures var s := Run(INITIAL, steps);
      && Passes(s.log, a) + |Outstanding(s, a)| == Verifications(s.log, a) + Repeats(s.log, a)
      && (OneProcess(steps, p) ==> Repeats(s.log, a) == 0)
      && (AllClean(steps) ==> Verifications(s.log, a) == |Redeemed(s.log, a)| && Redeemed(s.log, a) <= ConsumedCodes(s, a))
      && (OneProcess(steps, p) && AllClean(steps) ==> Passes(s.log, a) <= |ConsumedCodes(s, a)|)
  {
    InitialKeeps(p, {});
    RunKeeps(INITIAL, steps, p, {});
    var s := Run(INITIAL, steps);
    if AllClean(steps) {
      forall c ensures Redemptions(s.log, c) <= 1 {
        CleanRunRedeemsOnce(INITIAL, steps, c);
      }
      OnceMeansDistinct(s.log, a);
      forall c | c in Redeemed(s.log, a) ensures c in ConsumedCodes(s, a) {
        CleanRunRedeemsOnce(INITIAL, steps, c);
        RedeemedIsCounted(s.log, c, a);
      }
      SubsetSize(Redeemed(s.log, a), ConsumedCodes(s, a));
    }
  }

  lemma {:induction false} SubsetSize(x: set<nat>, y: set<nat>)
    requires x <= y
    ensures |x| <= |y|
  {
    assert y == x + (y - x);
  }

  // ----- what the gate admits -----

  /** In every reachable state the gate of a process passes exactly an unexpired token of the account
      that has not passed there since the process last restarted. */
  lemma GateExact(steps: seq<Step>, p: Process, a: Account, j: nat)
    ensures var s := Run(INITIAL, steps);
      RequireStepUp(true, s, p, a, Some(j)).1 <==> Admissible(s, a, j) && !PassedSinceRestart(s.log, p, j)
  {
    InitialKeeps(p, {});
    RunKeeps(INITIAL, steps, p, {});
  }

  predicate NeverPassedAt(log: seq<Event>, p: Process, j: nat)
  {
    forall k | 0 <= k < |log| :: !PassedAt(log[k], p, j)
  }

  predicate NoPassAfter(log: seq<Event>, p: Process, j: nat, i: nat)
  {
    forall k | i < k < |log| :: !PassedAt(log[k], p, j)
  }

  /** A restart of the process lies after every pass of the token there. */
  ghost predicate RestartAfterLastPass(log: seq<Event>, p: Process, j: nat)
  {
    exists i :: 0 <= i < |log| && RestartedAt(log[i], p) && NoPassAfter(log, p, j, i)
  }

  lemma {:induction false} LastRestart(log: seq<Event>, p: Process) returns (i: nat)
    requires exists k :: 0 <= k < |log| && RestartedAt(log[k], p)
    ensures i < |log| && RestartedAt(log[i], p) && NoRestartAfter(log, p, i)
  {
    i := |log| - 1;
    if !RestartedAt(log[i], p) {
      var prefix := log[..|log| - 1];
      var k :| 0 <= k < |log| && RestartedAt(log[k], p);
      assert RestartedAt(prefix[k], p);
      i := LastRestart(prefix, p);
      forall m | i < m < |log| ensures !RestartedAt(log[m], p) {
        if m < |prefix| {
          assert log[m] == prefix[m];
        }
      }
    }
  }

  lemma ReturnsMeansRestarted(log: seq<Event>, p: Process, j: nat)
    ensures NeverPassedAt(log, p, j) || RestartAfterLastPass(log, p, j) <==> !PassedSinceRestart(log, p, j)
  {
    if !PassedSinceRestart(log, p, j) && !NeverPassedAt(log, p, j) {
      var k :| 0 <= k < |log| && PassedAt(log[k], p, j);
      assert !NoRestartAfter(log, p, k);
      var i := LastRestart(log, p);
      forall m | i < m < |log| ensures !PassedAt(log[m], p, j) {
        assert NoRestartAfter(log, p, m);
      }
    }
    if RestartAfterLastPass(log, p, j) {
      var i :| 0 <= i < |log| && RestartedAt(log[i], p) && NoPassAfter(log, p, j, i);
      forall k | 0 <= k < |log| && PassedAt(log[k], p, j) ensures !NoRestartAfter(log, p, k) {
      }
    }
  }

  /** A token passes at a process, though it passed before, exactly when it is presented for its
      account before it expires, and either never passed at this process or the process restarted
      after it last did. */
  lemma SpentTokenReturnsIff(steps: seq<Step>, p: Process, a: Account, j: nat)
    requires j in Spent(Run(INITIAL, steps).log)
    ensures var s := Run(INITIAL, steps);
      RequireStepUp(true, s, p, a, Some(j)).1 <==>
        Admissible(s, a, j) && (NeverPassedAt(s.log, p, j) || RestartAfterLastPass(s.log, p, j))
  {
    GateExact(steps, p, a, j);
    ReturnsMeansRestarted(Run(INITIAL, steps).log, p, j);
  }

  /** The passes of a token at any set of processes are at most as many as these are and as they
      restart in its lifetime; at one process, at most one more than its restarts. */
  lemma TokenPassesBounded(steps: seq<Step>, j: nat, at: set<Process>)
    requires j in Run(INITIAL, steps).issued
    ensures var s := Run(INITIAL, steps);
      TokenPasses(s.log, j, at) <= |at| + RestartsInLifetime(s.log, j, s.issued[j].exp, at)
  {
    InitialKeeps(0, at);
    RunKeeps(INITIAL, steps, 0, at);
  }

  /** A process that stays up never passes a token again that passed there, whatever happens in
      between, here or at other processes. */
  lemma {:induction false} PassedTokenIsSpent(s: State, steps: seq<Step>, p: Process, a: Account, j: nat)
    requires Valid(s) && PassedSinceRestart(s.log, p, j) && StaysUp(steps, p)
    ensures !RequireStepUp(true, Run(s, steps), p, a, Some(j)).1
    decreases |steps|
  {
    if steps != [] {
      assert steps[0] in steps && DoRestart(p) !in steps[1..];
      StepKeepsValid(s, steps[0]);
      var t := Apply(s, steps[0]);
      LogGrows(s, steps[0]);
      if t.log != s.log {
        SinceAppend(s.log, t.log[|s.log|], p, j);
      }
      PassedTokenIsSpent(t, steps[1..], p, a, j);
    }
  }

  lemma LogGrows(s: State, step: Step)
    requires Valid(s)
    ensures var t := Apply(s, step);
      t.log == s.log
      || (|t.log| == |s.log| + 1 && t.log == s.log + [t.log[|s.log|]]
          && forall p :: RestartedAt(t.log[|s.log|], p) ==> step == DoRestart(p))
  {
    if step.DoFinish? && step.request in s.requests {
      FinishShape(s, step.request, step.consumeOk);
    }
  }

  /** Forgetting a jti never re-admits its token: in every reachable state a janitor tick at any
      process leaves every later verdict of every gate as it was. */
  lemma JanitorIsInvisible(steps: seq<Step>, p: Process, q: Process, a: Account, token: Option<nat>, later: nat)
    ensures var s := Run(INITIAL, steps); var t := JanitorTick(s, p);
      RequireStepUp(true, s.(now := s.now + later), q, a, token).1 == RequireStepUp(true, t.(now := t.now + later), q, a, token).1
  {
    hide Run;
    InitialKeeps(p, {});
    RunKeeps(INITIAL, steps, p, {});
    var s := Run(INITIAL, steps);
    UnixMonotone(s.now, s.now + later);
  }

  /** After a janitor tick a process remembers exactly the live tokens that passed there since its last restart. */
  lemma TickLeavesLive(steps: seq<Step>, p: Process, j: nat)
    ensures var s := Run(INITIAL, steps); var t := Apply(s, DoJanitor(p));
      j in ConsumedAt(t.consumed, p) <==> j in s.issued && Tokens.Unix(s.now) <= s.issued[j].exp && PassedSinceRestart(s.log, p, j)
  {
    hide Run, PassedSinceRestart;
    InitialKeeps(p, {});
    RunKeeps(INITIAL, steps, p, {});
  }

  // ----- how often an account passes -----

  /** Every pass is at one of these processes. */
  predicate PassesOnlyAt(log: seq<Event>, at: set<Process>)
  {
    forall e | e in log && e.Passed? :: e.process in at
  }

  predicate GatesOnlyAt(steps: seq<Step>, at: set<Process>)
  {
    forall step | step in steps && step.DoGate? :: step.process in at
  }

  /** The tokens issued to an account. */
  function IssuedTo(s: State, a: Account): set<nat>
  {
    set j | j in s.issued && s.issued[j].account == a
  }

  ghost predicate IssuedOnce(s: State)
  {
    forall a :: |IssuedTo(s, a)| == Verifications(s.log, a)
  }

  lemma StepKeepsIssuedOnce(s: State, step: Step, at: set<Process>)
    requires Valid(s) && IssuedOnce(s) && PassesOnlyAt(s.log, at) && (step.DoGate? ==> step.process in at)
    ensures var t := Apply(s, step); IssuedOnce(t) && PassesOnlyAt(t.log, at)
  {
    hide Finish, Matching;
    var t := Apply(s, step);
    if step.DoFinish? {
      FinishKeepsIssuedOnce(s, step.request, step.consumeOk);
    } else if step.DoGate? && t.log != s.log {
      UnverifiedKeepsIssuedOnce(s, t, Passed(step.process, step.account, step.token.value));
    } else if step.DoRestart? {
      UnverifiedKeepsIssuedOnce(s, t, Restarted(step.process, s.now));
    } else {
      forall a ensures IssuedTo(t, a) == IssuedTo(s, a) {
      }
    }
  }

  lemma UnverifiedKeepsIssuedOnce(s: State, t: State, e: Event)
    requires IssuedOnce(s) && t.issued == s.issued && t.log == s.log + [e] && !e.Verified?
    ensures IssuedOnce(t)
  {
    forall a ensures |IssuedTo(t, a)| == Verifications(t.log, a) {
      CountAppend(s.log, e, a);
      assert IssuedTo(t, a) == IssuedTo(s, a);
    }
  }

  lemma FinishKeepsIssuedOnce(s: State, r: nat, consumeOk: bool)
    requires Valid(s) && IssuedOnce(s)
    ensures var t := Finish(s, r, consumeOk).0; IssuedOnce(t) && forall e | e in t.log && e.Passed? :: e in s.log
  {
    if r in s.requests {
      FinishShape(s, r, consumeOk);
      NewTokenIsUnspent(s, 0);
      var t := Finish(s, r, consumeOk).0;
      var q := s.requests[r];
      forall a ensures |IssuedTo(t, a)| == Verifications(t.log, a) {
        CountAppend(s.log, t.log[|s.log|], a);
        if q.issue && a == q.account {
          assert IssuedTo(t, a) == IssuedTo(s, a) + {s.nextJti};
        } else {
          assert IssuedTo(t, a) == IssuedTo(s, a);
        }
      }
    }
  }

  lemma {:induction false} RunKeepsIssuedOnce(s: State, steps: seq<Step>, at: set<Process>)
    requires Valid(s) && IssuedOnce(s) && PassesOnlyAt(s.log, at) && GatesOnlyAt(steps, at)
    ensures IssuedOnce(Run(s, steps)) && PassesOnlyAt(Run(s, steps).log, at)
    decreases |steps|
  {
    if steps != [] {
      assert steps[0] in steps && GatesOnlyAt(steps[1..], at);
      StepKeepsValid(s, steps[0]);
      StepKeepsIssuedOnce(s, steps[0], at);
      RunKeepsIssuedOnce(Apply(s, steps[0]), steps[1..], at);
    }
  }

  /** Passes with one of these tokens. */
  function PassesWith(log: seq<Event>, tokens: set<nat>): nat
  {
    if log == [] then 0
    else PassesWith(log[..|log| - 1], tokens) + if log[|log| - 1].Passed? && log[|log| - 1].jti in tokens then 1 else 0
  }

  lemma {:induction false} PassesAreWith(log: seq<Event>, a: Account, tokens: set<nat>)
    requires forall e | e in log && e.Passed? && e.account == a :: e.jti in tokens
    ensures Passes(log, a) <= PassesWith(log, tokens)
  {
    if log != [] {
      assert log[|log| - 1] in log;
      PassesAreWith(log[..|log| - 1], a, tokens);
    }
  }

  lemma {:induction false} OneTokenLess(log: seq<Event>, tokens: set<nat>, j: nat, at: set<Process>)
    requires j in tokens && PassesOnlyAt(log, at)
    ensures PassesWith(log, tokens) == PassesWith(log, tokens - {j}) + TokenPasses(log, j, at)
  {
    if log != [] {
      assert log[|log| - 1] in log;
      OneTokenLess(log[..|log| - 1], tokens, j, at);
    }
  }

  lemma {:induction false} EachTokenBounded(log: seq<Event>, tokens: set<nat>, at: set<Process>, bound: nat)
    requires PassesOnlyAt(log, at) && forall j | j in tokens :: TokenPasses(log, j, at) <= bound
    ensures PassesWith(log, tokens) <= |tokens| * bound
    decreases tokens
  {
    if tokens == {} {
      NoTokenNoPass(log);
    } else {
      var j :| j in tokens;
      OneTokenLess(log, tokens, j, at);
      EachTokenBounded(log, tokens - {j}, at, bound);
      assert |tokens| == |tokens - {j}| + 1;
      assert |tokens| * bound == |tokens - {j}| * bound + bound;
    }
  }

  lemma {:induction false} NoTokenNoPass(log: seq<Event>)
    ensures PassesWith(log, {}) == 0
  {
    if log != [] {
      NoTokenNoPass(log[..|log| - 1]);
    }
  }

  /** All restarts of these processes. */
  function Restarts(log: seq<Event>, at: set<Process>): nat
  {
    if log == [] then 0
    else Restarts(log[..|log| - 1], at) + if log[|log| - 1].Restarted? && log[|log| - 1].process in at then 1 else 0
  }

  lemma {:induction false} LifetimeInside(log: seq<Event>, j: nat, exp: int, at: set<Process>)
    ensures RestartsInLifetime(log, j, exp, at) <= Restarts(log, at)
  {
    if log != [] {
      LifetimeInside(log[..|log| - 1], j, exp, at);
    }
  }

  /** Where tokens are presented to these processes only, an account passes at most once for each of
      its verifications, each process and each restart of one. */
  lemma AccountPassesBounded(steps: seq<Step>, a: Account, at: set<Process>)
    requires GatesOnlyAt(steps, at)
    ensures var s := Run(INITIAL, steps);
      Passes(s.log, a) <= Verifications(s.log, a) * (|at| + Restarts(s.log, at))
  {
    hide Run, TokenPasses, RestartsInLifetime;
    InitialKeeps(0, at);
    RunKeeps(INITIAL, steps, 0, at);
    forall b ensures IssuedTo(INITIAL, b) == {} {
    }
    RunKeepsIssuedOnce(INITIAL, steps, at);
    var s := Run(INITIAL, steps);
    forall j | j in IssuedTo(s, a) ensures TokenPasses(s.log, j, at) <= |at| + Restarts(s.log, at) {
      LifetimeInside(s.log, j, s.issued[j].exp, at);
    }
    EachTokenBounded(s.log, IssuedTo(s, a), at, |at| + Restarts(s.log, at));
    PassesAreWith(s.log, a, IssuedTo(s, a));
  }

  // ----- runs that show the conditions are needed -----

  /** A live token passes where the consumed set does not hold it, and not again. */
  lemma LivePass(s: State, p: Process, a: Account)
    requires s.now == 0 && 0 !in ConsumedAt(s.consumed, p) && s.issued == map[0 := Token(a, Tokens.Unix(STEP_UP_TTL))]
    ensures var t := Apply(s, DoGate(p, a, Some(0)));
      && t == s.(consumed := s.consumed[p := ConsumedAt(s.consumed, p)[0 := Tokens.Unix(STEP_UP_TTL)]], log := s.log + [Passed(p, a, 0)])
      && !RequireStepUp(true, t, p, a, Some(0)).1
  {
  }

  /** Send one code, redeem it and pass at process 0. */
  function RedeemAndPass(a: Account, x: string, secret: Secret): seq<Step>
  {
    [DoSend(a, x, Tokens.STEP_UP_PURPOSE, secret), DoStepUpLookUp(0, a, secret), DoFinish(0, true), DoGate(0, a, Some(0))]
  }

  lemma OncePassed(a: Account, x: string, secret: Secret)
    ensures var s := Run(INITIAL, RedeemAndPass(a, x, secret));
      && s.now == 0 && s.consumed == map[0 := map[0 := Tokens.Unix(STEP_UP_TTL)]]
      && s.issued == map[0 := Token(a, Tokens.Unix(STEP_UP_TTL))] && s.log == [Verified(a, 0, 0)] + [Passed(0, a, 0)]
      && !RequireStepUp(true, s, 0, a, Some(0)).1
  {
    var before := RedeemAndPass(a, x, secret);
    SentIs(a, x, secret);
    FirstFinish(a, x, secret, 1);
    LivePass(Apply(Sent(a, x, secret, 1), DoFinish(0, true)), 0, a);
    FourSteps(INITIAL, before[0], before[1], before[2], before[3]);
  }

  /** After a restart the same token passes again at the same process, though one code was verified. */
  lemma RestartReadmits(a: Account, x: string, secret: Secret)
    ensures var before := RedeemAndPass(a, x, secret);
      && !RequireStepUp(true, Run(INITIAL, before), 0, a, Some(0)).1
      && var s := Run(INITIAL, before + [DoRestart(0), DoGate(0, a, Some(0))]);
         Passes(s.log, a) == 2 && Verifications(s.log, a) == 1 && Repeats(s.log, a) == 1
  {
    var before := RedeemAndPass(a, x, secret);
    OncePassed(a, x, secret);
    var s := Run(INITIAL, before);
    LivePass(Apply(s, DoRestart(0)), 0, a);
    RunAppend(INITIAL, before, [DoRestart(0), DoGate(0, a, Some(0))]);
    TwoSteps(s, DoRestart(0), DoGate(0, a, Some(0)));
    ReplayCounts(a, [Verified(a, 0, 0)] + [Passed(0, a, 0)] + [Restarted(0, 0)], 0);
  }

  /** And without any restart it passes at a second process. */
  lemma SecondProcessReadmits(a: Account, x: string, secret: Secret)
    ensures var before := RedeemAndPass(a, x, secret);
      && !RequireStepUp(true, Run(INITIAL, before), 0, a, Some(0)).1
      && var s := Run(INITIAL, before + [DoGate(1, a, Some(0))]);
         Passes(s.log, a) == 2 && Verifications(s.log, a) == 1 && Repeats(s.log, a) == 1
  {
    var before := RedeemAndPass(a, x, secret);
    OncePassed(a, x, secret);
    var s := Run(INITIAL, before);
    LivePass(s, 1, a);
    RunAppend(INITIAL, before, [DoGate(1, a, Some(0))]);
    assert Run(s, [DoGate(1, a, Some(0))]) == Apply(s, DoGate(1, a, Some(0))) by {
      assert [DoGate(1, a, Some(0))][1..] == [];
    }
    ReplayCounts(a, [Verified(a, 0, 0)] + [Passed(0, a, 0)], 1);
  }

  lemma ReplayCounts(a: Account, log: seq<Event>, p: Process)
    requires log == [Verified(a, 0, 0)] + [Passed(0, a, 0)] || log == [Verified(a, 0, 0)] + [Passed(0, a, 0)] + [Restarted(0, 0)]
    ensures Passes(log + [Passed(p, a, 0)], a) == 2 && Verifications(log + [Passed(p, a, 0)], a) == 1
    ensures Repeats(log + [Passed(p, a, 0)], a) == 1
  {
    var first: seq<Event> := [Verified(a, 0, 0)];
    assert first == [] + first;
    CountAppend([], Verified(a, 0, 0), a);
    SpentAppend([], Verified(a, 0, 0));
    CountAppend(first, Passed(0, a, 0), a);
    SpentAppend(first, Passed(0, a, 0));
    CountAppend(first + [Passed(0, a, 0)], Restarted(0, 0), a);
    SpentAppend(first + [Passed(0, a, 0)], Restarted(0, 0));
    CountAppend(log, Passed(p, a, 0), a);
  }

  // ----- the purposes the table admits -----

  /** Every code stored has one of these purposes; an insert the check refuses stores nothing. */
  predicate Admits(purposes: set<string>, steps: seq<Step>)
  {
    forall step | step in steps && step.DoSend? :: PurposeOf(step.purpose) in purposes
  }

  predicate NoTokens(s: State)
  {
    s.issued == map[] && forall c | c in s.codes :: s.codes[c].purpose != Tokens.STEP_UP_PURPOSE
  }

  lemma StepIssuesNothing(s: State, step: Step)
    requires Valid(s) && NoTokens(s) && (step.DoSend? ==> PurposeOf(step.purpose) != Tokens.STEP_UP_PURPOSE)
    ensures NoTokens(Apply(s, step))
  {
    match step
    case DoFinish(r, ok) =>
      if r in s.requests {
        FinishShape(s, r, ok);
      }
    case DoStepUpLookUp(p, a, code) => LookUpShape(s, p, a, Tokens.STEP_UP_PURPOSE, code, true);
    case DoEmailLookUp(p, a, q, code) => LookUpShape(s, p, a, PurposeOf(q), code, false);
    case _ =>
  }

  lemma {:induction false} RunIssuesNothing(s: State, steps: seq<Step>, purposes: set<string>)
    requires Valid(s) && NoTokens(s) && Admits(purposes, steps) && Tokens.STEP_UP_PURPOSE !in purposes
    ensures Valid(Run(s, steps)) && NoTokens(Run(s, steps))
    decreases |steps|
  {
    if steps != [] {
      assert steps[0] in steps && Admits(purposes, steps[1..]);
      StepKeepsValid(s, steps[0]);
      StepIssuesNothing(s, steps[0]);
      RunIssuesNothing(Apply(s, steps[0]), steps[1..], purposes);
    }
  }

  lemma {:induction false} NothingCounted(log: seq<Event>, a: Account)
    requires forall e | e in log :: !e.Passed? && !e.Verified?
    ensures Passes(log, a) == 0 && Verifications(log, a) == 0
  {
    if log != [] {
      assert log[|log| - 1] in log;
      NothingCounted(log[..|log| - 1], a);
    }
  }

  ghost predicate SomeonePasses(purposes: set<string>)
  {
    exists steps, a :: Admits(purposes, steps) && Passes(Run(INITIAL, steps).log, a) > 0
  }

  /** Someone can pass the gate exactly where the check on email_codes.purpose admits
      credential_change. */
  lemma GateOpensIff(purposes: set<string>)
    ensures SomeonePasses(purposes) <==> Tokens.STEP_UP_PURPOSE in purposes
  {
    if Tokens.STEP_UP_PURPOSE in purposes {
      var steps := RedeemAndPass(0, "", "0");
      OncePassed(0, "", "0");
      assert [Verified(0, 0, 0)] == [] + [Verified(0, 0, 0)];
      CountAppend([], Verified(0, 0, 0), 0);
      CountAppend([Verified(0, 0, 0)], Passed(0, 0, 0), 0);
      assert Admits(purposes, steps);
    } else {
      forall steps, a | Admits(purposes, steps) ensures Passes(Run(INITIAL, steps).log, a) == 0 {
        NothingPasses(steps, a, purposes);
      }
    }
  }

  lemma NothingPasses(steps: seq<Step>, a: Account, purposes: set<string>)
    requires Admits(purposes, steps) && Tokens.STEP_UP_PURPOSE !in purposes
    ensures Passes(Run(INITIAL, steps).log, a) == 0
  {
    InitialValid();
    RunIssuesNothing(INITIAL, steps, purposes);
    NothingCounted(Run(INITIAL, steps).log, a);
  }

  /** The purposes that the migrations' check admits. */
  const MIGRATED_PURPOSES := {"login", "verify_email"}

  /** credential_change is not among them: with the migrations as they stand nobody passes. */
  lemma MigrationsShutTheGate()
    ensures !SomeonePasses(MIGRATED_PURPOSES)
  {
    assert "credential_change"[0] == 'c' && "login"[0] == 'l' && "verify_email"[0] == 'v';
    GateOpensIff(MIGRATED_PURPOSES);
  }
}
