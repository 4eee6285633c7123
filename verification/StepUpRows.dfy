/** How often a code row is redeemed: at most once in runs without overlap and failures, and exactly
    when again otherwise. */
module StepUpRows {
  import opened Text
  import Tokens
  import opened StepUp

  // ----- short runs -----

  lemma TwoSteps(s: State, x: Step, y: Step)
    ensures Run(s, [x, y]) == Apply(Apply(s, x), y)
  {
    assert [x, y][1..] == [y] && [y][1..] == [];
    assert Run(Apply(s, x), [y]) == Run(Apply(Apply(s, x), y), []);
  }

  lemma {:induction false} RunAppend(s: State, x: seq<Step>, y: seq<Step>)
    ensures Run(s, x + y) == Run(Run(s, x), y)
    decreases |x|
  {
    if x == [] {
      assert x + y == y;
    } else {
      assert (x + y)[1..] == x[1..] + y;
      RunAppend(Apply(s, x[0]), x[1..], y);
    }
  }

  lemma FourSteps(s: State, w: Step, x: Step, y: Step, z: Step)
    ensures Run(s, [w, x, y, z]) == Apply(Apply(Apply(Apply(s, w), x), y), z)
  {
    assert [w, x, y, z] == [w, x] + [y, z];
    RunAppend(s, [w, x], [y, z]);
    TwoSteps(s, w, x);
    TwoSteps(Apply(Apply(s, w), x), y, z);
  }

  // ----- how often a code row is redeemed -----

  /** A request that found the row has not finished. */
  ghost predicate Held(s: State, c: nat)
  {
    exists r :: r in s.requests && s.requests[r].code == c
  }

  /** The row can still be found. */
  predicate Open(s: State, c: nat)
  {
    c in s.codes && !s.codes[c].consumed && s.codes[c].expires > s.now
  }

  /** For this row, consuming succeeds and no look-up finds it while another request holds it. */
  ghost predicate CleanStep(s: State, step: Step, c: nat)
  {
    match step
    case DoFinish(r, ok) => r in s.requests && s.requests[r].code == c ==> ok
    case DoStepUpLookUp(_, a, code) => Matching(s, a, Tokens.STEP_UP_PURPOSE, code) == Some(c) ==> !Held(s, c)
    case DoEmailLookUp(_, a, p, code) => Matching(s, a, PurposeOf(p), code) == Some(c) ==> !Held(s, c)
    case _ => true
  }

  ghost predicate CleanRun(s: State, steps: seq<Step>, c: nat)
    decreases |steps|
  {
    steps != [] ==> CleanStep(s, steps[0], c) && CleanRun(Apply(s, steps[0]), steps[1..], c)
  }

  ghost predicate RedeemedAtMostOnce(s: State, c: nat)
  {
    && Redemptions(s.log, c) <= 1
    && (Redemptions(s.log, c) > 0 ==> c in s.codes && s.codes[c].consumed && !Held(s, c))
    && (forall r, q | r in s.requests && q in s.requests && s.requests[r].code == c && s.requests[q].code == c :: r == q)
  }

  lemma LookUpKeepsOnce(s: State, p: Process, a: Account, purpose: string, code: string, issue: bool, c: nat)
    requires Valid(s) && RedeemedAtMostOnce(s, c) && (Matching(s, a, purpose, code) == Some(c) ==> !Held(s, c))
    ensures RedeemedAtMostOnce(LookUp(s, p, a, purpose, code, issue).0, c)
  {
    LookUpShape(s, p, a, purpose, code, issue);
    var t := LookUp(s, p, a, purpose, code, issue).0;
    forall r | r in s.requests && s.requests[r].code == c ensures Held(s, c) {
    }
    forall r | r in t.requests && r != s.nextRequest ensures r in s.requests && t.requests[r] == s.requests[r] {
    }
  }

  lemma FinishKeepsOnce(s: State, r: nat, consumeOk: bool, c: nat)
    requires Valid(s) && RedeemedAtMostOnce(s, c) && (r in s.requests && s.requests[r].code == c ==> consumeOk)
    ensures RedeemedAtMostOnce(Finish(s, r, consumeOk).0, c)
  {
    if r in s.requests {
      FinishShape(s, r, consumeOk);
      var t := Finish(s, r, consumeOk).0;
      RedeemAppend(s.log, t.log[|s.log|], c);
      assert Held(s, s.requests[r].code);
      forall q | q in t.requests ensures Held(s, t.requests[q].code) && q in s.requests && q != r {
        assert t.requests[q] == s.requests[q];
      }
    }
  }

  lemma UnrelatedKeepsOnce(s: State, t: State, e: Event, c: nat)
    requires RedeemedAtMostOnce(s, c) && t.codes == s.codes
    requires forall r | r in t.requests :: r in s.requests && t.requests[r] == s.requests[r]
    requires (t.log == s.log || t.log == s.log + [e]) && !e.Verified? && !e.Checked?
    ensures RedeemedAtMostOnce(t, c)
  {
    RedeemAppend(s.log, e, c);
    if Held(t, c) {
      var r :| r in t.requests && t.requests[r].code == c;
      assert Held(s, s.requests[r].code);
    }
  }

  lemma StepKeepsOnce(s: State, step: Step, c: nat)
    requires Valid(s) && RedeemedAtMostOnce(s, c) && CleanStep(s, step, c)
    ensures RedeemedAtMostOnce(Apply(s, step), c)
  {
    match step
    case DoStepUpLookUp(p, a, code) => LookUpKeepsOnce(s, p, a, Tokens.STEP_UP_PURPOSE, code, true, c);
    case DoEmailLookUp(p, a, q, code) => LookUpKeepsOnce(s, p, a, PurposeOf(q), code, false, c);
    case DoFinish(r, ok) => FinishKeepsOnce(s, r, ok, c);
    case DoGate(p, a, token) => UnrelatedKeepsOnce(s, Apply(s, step), Passed(p, a, if token.Some? then token.value else 0), c);
    case DoRestart(p) => UnrelatedKeepsOnce(s, Apply(s, step), Restarted(p, s.now), c);
    case _ =>
  }

  /** A row is redeemed at most once by every run in which consuming it succeeds and no look-up
      finds it while another request holds it, whatever happens to other rows. */
  lemma {:induction false} CleanRunRedeemsOnce(s: State, steps: seq<Step>, c: nat)
    requires Valid(s) && RedeemedAtMostOnce(s, c) && CleanRun(s, steps, c)
    ensures RedeemedAtMostOnce(Run(s, steps), c)
    decreases |steps|
  {
    if steps != [] {
      StepKeepsValid(s, steps[0]);
      StepKeepsOnce(s, steps[0], c);
      CleanRunRedeemsOnce(Apply(s, steps[0]), steps[1..], c);
    }
  }

  lemma {:induction false} OnceMeansDistinct(log: seq<Event>, a: Account)
    requires forall c :: Redemptions(log, c) <= 1
    ensures Verifications(log, a) == |Redeemed(log, a)|
  {
    if log != [] {
      var prefix, e := log[..|log| - 1], log[|log| - 1];
      assert log == prefix + [e];
      forall c ensures Redemptions(prefix, c) <= 1 && Redemptions(log, c) == Redemptions(prefix, c) + if Redeems(e, c) then 1 else 0 {
        RedeemAppend(prefix, e, c);
      }
      OnceMeansDistinct(prefix, a);
      CountAppend(prefix, e, a);
      if e.Verified? && e.account == a {
        assert Redeemed(log, a) == Redeemed(prefix, a) + {e.code};
        if e.code in Redeemed(prefix, a) {
          RedeemedIsCounted(prefix, e.code, a);
          assert Redemptions(log, e.code) > 1;
        }
      } else {
        assert Redeemed(log, a) == Redeemed(prefix, a);
      }
    }
  }

  lemma {:induction false} RedeemedIsCounted(log: seq<Event>, c: nat, a: Account)
    requires c in Redeemed(log, a)
    ensures Redemptions(log, c) > 0
  {
    var prefix, e := log[..|log| - 1], log[|log| - 1];
    assert log == prefix + [e];
    RedeemAppend(prefix, e, c);
    if !(e.Verified? && e.account == a && e.code == c) {
      var f :| f in log && f.Verified? && f.account == a && f.code == c;
      assert f in prefix;
      RedeemedIsCounted(prefix, c, a);
    }
  }

  // ----- when a row can be redeemed again -----

  /** The row can be redeemed by something that happens from here. */
  ghost predicate Redeemable(s: State, c: nat)
  {
    exists steps :: Redemptions(Run(s, steps).log, c) > Redemptions(s.log, c)
  }

  lemma ClosedStaysClosed(s: State, step: Step, c: nat)
    requires Valid(s) && c in s.codes && !Held(s, c) && !Open(s, c)
    ensures var t := Apply(s, step);
      c in t.codes && !Held(t, c) && !Open(t, c) && Redemptions(t.log, c) == Redemptions(s.log, c)
  {
    match step
    case DoStepUpLookUp(p, a, code) => LookUpLeavesClosed(s, p, a, Tokens.STEP_UP_PURPOSE, code, true, c);
    case DoEmailLookUp(p, a, q, code) => LookUpLeavesClosed(s, p, a, PurposeOf(q), code, false, c);
    case DoFinish(r, ok) => FinishLeavesClosed(s, r, ok, c);
    case DoGate(p, a, token) =>
      if RequireStepUp(true, s, p, a, token).1 {
        RedeemAppend(s.log, Passed(p, a, token.value), c);
      }
    case DoRestart(p) => RestartLeavesClosed(s, p, c);
    case _ =>
  }

  lemma RestartLeavesClosed(s: State, p: Process, c: nat)
    requires c in s.codes && !Held(s, c) && !Open(s, c)
    ensures var t := Restart(s, p);
      c in t.codes && !Held(t, c) && !Open(t, c) && Redemptions(t.log, c) == Redemptions(s.log, c)
  {
    RedeemAppend(s.log, Restarted(p, s.now), c);
    forall r | r in Restart(s, p).requests ensures s.requests[r].code != c {
      assert Held(s, s.requests[r].code);
    }
  }

  lemma LookUpLeavesClosed(s: State, p: Process, a: Account, purpose: string, code: string, issue: bool, c: nat)
    requires Valid(s) && c in s.codes && !Held(s, c) && !Open(s, c)
    ensures var t := LookUp(s, p, a, purpose, code, issue).0; t.codes == s.codes && t.now == s.now && t.log == s.log && !Held(t, c)
  {
    LookUpShape(s, p, a, purpose, code, issue);
    var t := LookUp(s, p, a, purpose, code, issue).0;
    forall r | r in t.requests ensures t.requests[r].code != c {
      if r in s.requests && r != s.nextRequest {
        assert Held(s, s.requests[r].code);
      }
    }
  }

  lemma FinishLeavesClosed(s: State, r: nat, consumeOk: bool, c: nat)
    requires Valid(s) && c in s.codes && !Held(s, c) && !Open(s, c)
    ensures var t := Finish(s, r, consumeOk).0;
      c in t.codes && !Held(t, c) && !Open(t, c) && Redemptions(t.log, c) == Redemptions(s.log, c)
  {
    if r in s.requests {
      FinishShape(s, r, consumeOk);
      assert Held(s, s.requests[r].code);
      var t := Finish(s, r, consumeOk).0;
      RedeemAppend(s.log, t.log[|s.log|], c);
      forall q | q in t.requests ensures t.requests[q].code != c {
        assert Held(s, s.requests[q].code);
      }
    }
  }

  lemma {:induction false} ClosedIsFinal(s: State, steps: seq<Step>, c: nat)
    requires Valid(s) && c in s.codes && !Held(s, c) && !Open(s, c)
    ensures Redemptions(Run(s, steps).log, c) == Redemptions(s.log, c)
    decreases |steps|
  {
    if steps != [] {
      StepKeepsValid(s, steps[0]);
      ClosedStaysClosed(s, steps[0], c);
      ClosedIsFinal(Apply(s, steps[0]), steps[1..], c);
    }
  }

  lemma FinishRedeems(s: State, r: nat, consumeOk: bool)
    requires Valid(s) && r in s.requests
    ensures var t := Apply(s, DoFinish(r, consumeOk)); var c := s.requests[r].code;
      && Redemptions(t.log, c) == Redemptions(s.log, c) + 1
      && forall d | d != c :: Redemptions(t.log, d) == Redemptions(s.log, d)
  {
    FinishShape(s, r, consumeOk);
    var t := Finish(s, r, consumeOk).0;
    forall d ensures Redemptions(t.log, d) == Redemptions(s.log, d) + if d == s.requests[r].code then 1 else 0 {
      RedeemAppend(s.log, t.log[|s.log|], d);
    }
  }

  /** Rows above c that are not consumed. */
  function Newer(s: State, c: nat): set<nat>
  {
    set k | k in s.codes && k > c && !s.codes[k].consumed
  }

  /** The newest active row of this row's account and purpose, and the two steps that redeem it. */
  lemma RedeemNewest(s: State, c: nat) returns (n: nat, steps: seq<Step>)
    requires Valid(s) && Open(s, c)
    ensures n in s.codes && n >= c && !s.codes[n].consumed
    ensures var t := Run(s, steps);
      && Valid(t) && t.now == s.now && t.codes == s.codes[n := s.codes[n].(consumed := true)]
      && Redemptions(t.log, n) == Redemptions(s.log, n) + 1 && forall d | d != n :: Redemptions(t.log, d) == Redemptions(s.log, d)
  {
    var row := s.codes[c];
    n := ActiveCode(s, row.account, row.purpose).value;
    var lookUp, finish := DoEmailLookUp(0, row.account, row.purpose, s.codes[n].secret), DoFinish(s.nextRequest, true);
    assert PurposeOf(row.purpose) == row.purpose && Matching(s, row.account, row.purpose, s.codes[n].secret) == Some(n);
    var t := Apply(s, lookUp);
    LookUpShape(s, 0, row.account, row.purpose, s.codes[n].secret, false);
    StepKeepsValid(s, lookUp);
    FinishRedeems(t, s.nextRequest, true);
    FinishShape(t, s.nextRequest, true);
    StepKeepsValid(t, finish);
    TwoSteps(s, lookUp, finish);
    steps := [lookUp, finish];
  }

  /** An open row is found once the newer rows in its way are redeemed. */
  lemma {:induction false} OpenIsRedeemable(s: State, c: nat) returns (steps: seq<Step>)
    requires Valid(s) && Open(s, c)
    ensures Redemptions(Run(s, steps).log, c) > Redemptions(s.log, c)
    decreases Newer(s, c)
  {
    var n, first := RedeemNewest(s, c);
    var t := Run(s, first);
    steps := first;
    if n != c {
      assert n in Newer(s, c) && Newer(t, c) == Newer(s, c) - {n};
      var rest := OpenIsRedeemable(t, c);
      steps := first + rest;
      RunAppend(s, first, rest);
    }
  }

  /** A row can be redeemed, or redeemed again, exactly while an unfinished request holds it or it is
      neither consumed nor expired. */
  lemma RedeemableExact(s: State, c: nat)
    requires Valid(s) && c in s.codes
    ensures Redeemable(s, c) <==> Held(s, c) || Open(s, c)
  {
    if Held(s, c) {
      var r :| r in s.requests && s.requests[r].code == c;
      FinishRedeems(s, r, true);
      assert Run(s, [DoFinish(r, true)]) == Apply(s, DoFinish(r, true)) by {
        assert [DoFinish(r, true)][1..] == [];
      }
    } else if Open(s, c) {
      var steps := OpenIsRedeemable(s, c);
    } else {
      forall steps ensures Redemptions(Run(s, steps).log, c) == Redemptions(s.log, c) {
        ClosedIsFinal(s, steps, c);
      }
    }
  }

  ghost predicate HeldElsewhere(s: State, p: Process, c: nat)
  {
    exists r :: r in s.requests && s.requests[r].process != p && s.requests[r].code == c
  }

  /** A restart of a process takes a row's redemption away exactly if only requests of that process held the row
      and it is not open any more. */
  lemma RestartReleases(s: State, p: Process, c: nat)
    requires Valid(s) && c in s.codes
    ensures Redeemable(Restart(s, p), c) <==> HeldElsewhere(s, p, c) || Open(s, c)
  {
    hide Redeemable, Valid;
    var t := Restart(s, p);
    RestartKeeps(s, p);
    RedeemableExact(t, c);
    if HeldElsewhere(s, p, c) {
      var r :| r in s.requests && s.requests[r].process != p && s.requests[r].code == c;
      assert r in t.requests;
    }
  }

  ghost predicate FoundByAnother(s: State, r: nat, c: nat)
  {
    exists q :: q in s.requests && q != r && s.requests[q].code == c
  }

  /** A row just redeemed can be redeemed again exactly when another request found it before, or
      consuming it failed and it was neither consumed already nor expired. */
  lemma RedeemedRowReturnsIff(s: State, r: nat, consumeOk: bool)
    requires Valid(s) && r in s.requests
    ensures var c := s.requests[r].code;
      Redeemable(Finish(s, r, consumeOk).0, c) <==> FoundByAnother(s, r, c) || (!consumeOk && Open(s, c))
  {
    var c, t := s.requests[r].code, Finish(s, r, consumeOk).0;
    FinishShape(s, r, consumeOk);
    FinishKeeps(s, r, consumeOk);
    RedeemableExact(t, c);
    if FoundByAnother(s, r, c) {
      var q :| q in s.requests && q != r && s.requests[q].code == c;
      assert q in t.requests;
    }
  }

  // ----- two requests on one row -----

  /** The state after one code was sent and found by this many requests. */
  function Sent(a: Account, x: string, secret: Secret, found: nat): State
    requires found <= 2
  {
    var q := Request(0, a, 0, true);
    INITIAL.(codes := map[0 := Code(a, x, Tokens.STEP_UP_PURPOSE, secret, CODE_TTL, false)], nextCode := 1,
             requests := if found == 0 then map[] else if found == 1 then map[0 := q] else map[0 := q, 1 := q], nextRequest := found)
  }

  lemma SentIs(a: Account, x: string, secret: Secret)
    ensures Apply(INITIAL, DoSend(a, x, Tokens.STEP_UP_PURPOSE, secret)) == Sent(a, x, secret, 0)
    ensures Apply(Sent(a, x, secret, 0), DoStepUpLookUp(0, a, secret)) == Sent(a, x, secret, 1)
    ensures Apply(Sent(a, x, secret, 1), DoStepUpLookUp(0, a, secret)) == Sent(a, x, secret, 2)
  {
    assert Tokens.STEP_UP_PURPOSE != "";
    forall found: nat | found <= 2 ensures Matching(Sent(a, x, secret, found), a, Tokens.STEP_UP_PURPOSE, secret) == Some(0) {
      var s := Sent(a, x, secret, found);
      assert IsActive(s.codes[0], a, Tokens.STEP_UP_PURPOSE, s.now);
      assert ActiveCode(s, a, Tokens.STEP_UP_PURPOSE) == Some(0);
    }
    LookUpShape(Sent(a, x, secret, 0), 0, a, Tokens.STEP_UP_PURPOSE, secret, true);
    LookUpShape(Sent(a, x, secret, 1), 0, a, Tokens.STEP_UP_PURPOSE, secret, true);
  }

  lemma FirstFinish(a: Account, x: string, secret: Secret, found: nat)
    requires 1 <= found <= 2
    ensures var t := Apply(Sent(a, x, secret, found), DoFinish(0, true));
      && t.now == 0 && t.consumed == map[] && t.nextJti == 1 && CodesValid(t)
      && t.issued == map[0 := Token(a, Tokens.Unix(STEP_UP_TTL))] && t.log == [Verified(a, 0, 0)]
      && t.requests == if found == 1 then map[] else map[1 := Request(0, a, 0, true)]
  {
    var s := Sent(a, x, secret, found);
    assert CodesValid(s);
    FinishShape(s, 0, true);
  }

  /** Two overlapping requests redeem one code twice, though consuming succeeds both times. */
  lemma OverlapRedeemsTwice(a: Account, x: string, secret: Secret)
    ensures var s := Run(INITIAL, [DoSend(a, x, Tokens.STEP_UP_PURPOSE, secret), DoStepUpLookUp(0, a, secret),
                                   DoStepUpLookUp(0, a, secret), DoFinish(0, true)] + [DoFinish(1, true)]);
      Redemptions(s.log, 0) == 2 && Verifications(s.log, a) == 2 && |Redeemed(s.log, a)| == 1 && |Outstanding(s, a)| == 2
  {
    var first := [DoSend(a, x, Tokens.STEP_UP_PURPOSE, secret), DoStepUpLookUp(0, a, secret), DoStepUpLookUp(0, a, secret), DoFinish(0, true)];
    SentIs(a, x, secret);
    FirstFinish(a, x, secret, 2);
    FourSteps(INITIAL, first[0], first[1], first[2], first[3]);
    RunAppend(INITIAL, first, [DoFinish(1, true)]);
    var t := Apply(Sent(a, x, secret, 2), DoFinish(0, true));
    FinishShape(t, 1, true);
    var u := Apply(t, DoFinish(1, true));
    assert Run(t, [DoFinish(1, true)]) == u by {
      assert [DoFinish(1, true)][1..] == [];
    }
    OverlapCounts(a, u);
  }

  lemma OverlapCounts(a: Account, u: State)
    requires u.log == [Verified(a, 0, 0)] + [Verified(a, 0, 1)]
    requires u.issued.Keys == {0, 1} && u.issued[0].account == a && u.issued[1].account == a
    ensures Redemptions(u.log, 0) == 2 && Verifications(u.log, a) == 2 && |Redeemed(u.log, a)| == 1 && |Outstanding(u, a)| == 2
  {
    TwoVerified(a);
    assert u.log[0] in u.log && Redeemed(u.log, a) == {0};
    assert Outstanding(u, a) == {0, 1};
  }

  lemma TwoVerified(a: Account)
    ensures var log := [Verified(a, 0, 0)] + [Verified(a, 0, 1)]; Redemptions(log, 0) == 2 && Verifications(log, a) == 2
  {
    assert [Verified(a, 0, 0)] == [] + [Verified(a, 0, 0)];
    RedeemAppend([], Verified(a, 0, 0), 0);
    RedeemAppend([Verified(a, 0, 0)], Verified(a, 0, 1), 0);
    CountAppend([], Verified(a, 0, 0), a);
    CountAppend([Verified(a, 0, 0)], Verified(a, 0, 1), a);
  }
}
