/** The step-up challenge: email codes, single-use tokens, the consumed sets and their janitors. Any
    number of server processes share the tables and the signing key, each with a consumed set of its
    own. A request that redeems a code is two steps, the look-up and the consumption, with anything
    between them; a restart of a process forgets its consumed set and its unfinished requests. */
module StepUp {
  import opened Text
  import Tokens

  type Account = nat

  /** A server process. */
  type Process = nat

  /** A generated code has six digits, so it is never empty. */
  type Secret = s: string | s != "" witness "0"

  /** address is history: where the code was mailed. */
  datatype Code = Code(account: Account, address: string, purpose: string, secret: Secret, expires: nat, consumed: bool)

  /** What an issued token says; its jti is fresh, here the next number. */
  datatype Token = Token(account: Account, exp: int)

  /** A request that found its code row and has not finished; issue tells StepUpVerify from
      EmailCodeVerify. */
  datatype Request = Request(process: Process, account: Account, code: nat, issue: bool)

  datatype Event =
    | Verified(account: Account, code: nat, jti: nat)
    | Checked(account: Account, code: nat)
    | Passed(process: Process, account: Account, jti: nat)
    | Restarted(process: Process, at: nat)

  /** consumed holds the set of each process, empty where it is missing; issued and log are history:
      every token ever issued, and every redemption, pass and restart. */
  datatype State = State(now: nat, codes: map<nat, Code>, nextCode: nat, requests: map<nat, Request>, nextRequest: nat,
                         consumed: map<Process, map<nat, int>>, issued: map<nat, Token>, nextJti: nat, log: seq<Event>)

  const INITIAL := State(0, map[], 0, map[], 0, map[], map[], 0, [])

  const CODE_TTL := 300 * Tokens.SECOND
  const STEP_UP_TTL := 300 * Tokens.SECOND

  // ----- email codes -----

  predicate IsActive(c: Code, account: Account, purpose: string, now: nat)
  {
    c.account == account && c.purpose == purpose && !c.consumed && c.expires > now
  }

  /** GetActiveEmailCode: the most recent matching row below n. */
  function Newest(codes: map<nat, Code>, n: nat, account: Account, purpose: string, now: nat): (r: Option<nat>)
    ensures r.Some? ==> r.value < n && r.value in codes && IsActive(codes[r.value], account, purpose, now)
    ensures forall k | k in codes && k < n && IsActive(codes[k], account, purpose, now) :: r.Some? && k <= r.value
  {
    if n == 0 then None
    else if n - 1 in codes && IsActive(codes[n - 1], account, purpose, now) then Some(n - 1)
    else Newest(codes, n - 1, account, purpose, now)
  }

  function ActiveCode(s: State, account: Account, purpose: string): Option<nat>
  {
    Newest(s.codes, s.nextCode, account, purpose, s.now)
  }

  /** A request that names no purpose means "login". */
  function PurposeOf(requested: string): (purpose: string)
    ensures purpose != ""
  {
    if requested == "" then "login" else requested
  }

  function SendCode(s: State, account: Account, address: string, purpose: string, secret: Secret): State
  {
    s.(codes := s.codes[s.nextCode := Code(account, address, PurposeOf(purpose), secret, s.now + CODE_TTL, false)],
       nextCode := s.nextCode + 1)
  }

  /** The code comparison (bcrypt) is equality with the code that was hashed. */
  function Matching(s: State, account: Account, purpose: string, code: string): (c: Option<nat>)
    ensures c.Some? ==> c.value in s.codes && IsActive(s.codes[c.value], account, purpose, s.now) && s.codes[c.value].secret == code
  {
    var c := ActiveCode(s, account, purpose);
    if code == "" || c.None? || s.codes[c.value].secret != code then None else c
  }

  /** The look-up and comparison that start a request. */
  function LookUp(s: State, p: Process, account: Account, purpose: string, code: string, issue: bool): (State, Option<nat>)
  {
    match Matching(s, account, purpose, code)
    case None => (s, None)
    case Some(c) =>
      (s.(requests := s.requests[s.nextRequest := Request(p, account, c, issue)], nextRequest := s.nextRequest + 1), Some(s.nextRequest))
  }

  function StepUpLookUp(s: State, p: Process, account: Account, code: string): (State, Option<nat>)
  {
    LookUp(s, p, account, Tokens.STEP_UP_PURPOSE, code, true)
  }

  /** EmailCodeVerify looks up a code of whatever purpose the request names. */
  function EmailLookUp(s: State, p: Process, account: Account, purpose: string, code: string): (State, Option<nat>)
  {
    LookUp(s, p, account, PurposeOf(purpose), code, false)
  }

  /** ConsumeEmailCode also succeeds on a row consumed meanwhile; a failure of it is only logged. */
  function Consume(codes: map<nat, Code>, c: nat, consumeOk: bool): map<nat, Code>
    requires c in codes
  {
    if consumeOk then codes[c := codes[c].(consumed := true)] else codes
  }

  function Spend(s: State, r: nat, consumeOk: bool): State
    requires r in s.requests && s.requests[r].code in s.codes
  {
    s.(codes := Consume(s.codes, s.requests[r].code, consumeOk), requests := s.requests - {r})
  }

  /** IssueStepUpToken */
  function Issue(s: State, account: Account, code: nat): State
  {
    s.(issued := s.issued[s.nextJti := Token(account, Tokens.Unix(s.now + STEP_UP_TTL))], nextJti := s.nextJti + 1,
       log := s.log + [Verified(account, code, s.nextJti)])
  }

  /** The rest of a request: consume the row it found, and issue a token if it is a StepUpVerify. */
  function Finish(s: State, r: nat, consumeOk: bool): (State, Option<nat>)
  {
    if r !in s.requests || s.requests[r].code !in s.codes then (s, None)
    else
      var q := s.requests[r];
      var t := Spend(s, r, consumeOk);
      if q.issue then (Issue(t, q.account, q.code), Some(t.nextJti))
      else (t.(log := t.log + [Checked(q.account, q.code)]), None)
  }

  /** An undisturbed StepUpVerify. */
  function StepUpVerify(s: State, p: Process, account: Account, code: string, consumeOk: bool): (State, Option<nat>)
  {
    match StepUpLookUp(s, p, account, code)
    case (t, None) => (t, None)
    case (t, Some(r)) => Finish(t, r, consumeOk)
  }

  // ----- tokens -----

  /** VerifyStepUpToken up to the single-use check: a presented token is an issued one, since
      only those carry a valid MAC. */
  predicate Admissible(s: State, account: Account, jti: nat)
  {
    jti in s.issued && s.issued[jti].account == account && Tokens.Unix(s.now) <= s.issued[jti].exp
  }

  /** The consumed set of a process. */
  function ConsumedAt(consumed: map<Process, map<nat, int>>, p: Process): map<nat, int>
  {
    if p in consumed then consumed[p] else map[]
  }

  /** The gate of process p. */
  function RequireStepUp(required: bool, s: State, p: Process, account: Account, token: Option<nat>): (State, bool)
  {
    if !required then (s, true)
    else if token.None? || !Admissible(s, account, token.value) || token.value in ConsumedAt(s.consumed, p) then (s, false)
    else
      (s.(consumed := s.consumed[p := ConsumedAt(s.consumed, p)[token.value := s.issued[token.value].exp]],
          log := s.log + [Passed(p, account, token.value)]), true)
  }

  function Prune(consumed: map<nat, int>, now: nat): map<nat, int>
  {
    map j | j in consumed && !(Tokens.Unix(now) > consumed[j]) :: consumed[j]
  }

  function JanitorTick(s: State, p: Process): State
  {
    s.(consumed := s.consumed[p := Prune(ConsumedAt(s.consumed, p), s.now)])
  }

  function RequestsElsewhere(requests: map<nat, Request>, p: Process): map<nat, Request>
  {
    map r | r in requests && requests[r].process != p :: requests[r]
  }

  /** Process p starts anew: its consumed set is empty and its unfinished requests are gone. */
  function Restart(s: State, p: Process): State
  {
    s.(consumed := s.consumed[p := map[]], requests := RequestsElsewhere(s.requests, p), log := s.log + [Restarted(p, s.now)])
  }

  // ----- runs -----

  datatype Step =
    | Advance(d: nat)
    | DoSend(account: Account, address: string, purpose: string, secret: Secret)
    | DoStepUpLookUp(process: Process, account: Account, code: string)
    | DoEmailLookUp(process: Process, account: Account, purpose: string, code: string)
    | DoFinish(request: nat, consumeOk: bool)
    | DoGate(process: Process, account: Account, token: Option<nat>)
    | DoJanitor(process: Process)
    | DoRestart(process: Process)

  function Apply(s: State, step: Step): State
  {
    match step
    case Advance(d) => s.(now := s.now + d)
    case DoSend(a, x, p, c) => SendCode(s, a, x, p, c)
    case DoStepUpLookUp(p, a, c) => StepUpLookUp(s, p, a, c).0
    case DoEmailLookUp(p, a, q, c) => EmailLookUp(s, p, a, q, c).0
    case DoFinish(r, ok) => Finish(s, r, ok).0
    case DoGate(p, a, t) => RequireStepUp(true, s, p, a, t).0
    case DoJanitor(p) => JanitorTick(s, p)
    case DoRestart(p) => Restart(s, p)
  }

  function Run(s: State, steps: seq<Step>): State
    decreases |steps|
  {
    if steps == [] then s else Run(Apply(s, steps[0]), steps[1..])
  }

  /** The process does not restart. */
  predicate StaysUp(steps: seq<Step>, p: Process)
  {
    DoRestart(p) !in steps
  }

  /** The step presents tokens to this process only, and does not restart it. */
  predicate OnlyAt(step: Step, p: Process)
  {
    (step.DoGate? ==> step.process == p) && step != DoRestart(p)
  }

  /** Every token is presented to this process, which does not restart. */
  predicate OneProcess(steps: seq<Step>, p: Process)
  {
    forall step | step in steps :: OnlyAt(step, p)
  }

  // ----- counting over the history -----

  function Passes(log: seq<Event>, a: Account): nat
  {
    if log == [] then 0
    else Passes(log[..|log| - 1], a) + if log[|log| - 1].Passed? && log[|log| - 1].account == a then 1 else 0
  }

  function Verifications(log: seq<Event>, a: Account): nat
  {
    if log == [] then 0
    else Verifications(log[..|log| - 1], a) + if log[|log| - 1].Verified? && log[|log| - 1].account == a then 1 else 0
  }

  function Spent(log: seq<Event>): set<nat>
  {
    set e | e in log && e.Passed? :: e.jti
  }

  /** Passes of an account with a token that had passed before. */
  function Repeats(log: seq<Event>, a: Account): nat
  {
    if log == [] then 0
    else
      var e := log[|log| - 1];
      Repeats(log[..|log| - 1], a) + if e.Passed? && e.account == a && e.jti in Spent(log[..|log| - 1]) then 1 else 0
  }

  /** Passes of a token at these processes. */
  function TokenPasses(log: seq<Event>, jti: nat, at: set<Process>): nat
  {
    if log == [] then 0
    else TokenPasses(log[..|log| - 1], jti, at) + if PassesAt(log[|log| - 1], jti, at) then 1 else 0
  }

  predicate PassesAt(e: Event, jti: nat, at: set<Process>)
  {
    e.Passed? && e.jti == jti && e.process in at
  }

  /** Restarts of these processes after the token was issued and not after it expired. */
  function RestartsInLifetime(log: seq<Event>, jti: nat, exp: int, at: set<Process>): nat
  {
    if log == [] then 0
    else
      var e := log[|log| - 1];
      if e.Verified? && e.jti == jti then 0
      else RestartsInLifetime(log[..|log| - 1], jti, exp, at) + if RestartsAt(e, exp, at) then 1 else 0
  }

  predicate RestartsAt(e: Event, exp: int, at: set<Process>)
  {
    e.Restarted? && e.process in at && Tokens.Unix(e.at) <= exp
  }

  predicate Redeems(e: Event, c: nat)
  {
    (e.Verified? || e.Checked?) && e.code == c
  }

  function Redemptions(log: seq<Event>, c: nat): nat
  {
    if log == [] then 0
    else Redemptions(log[..|log| - 1], c) + if Redeems(log[|log| - 1], c) then 1 else 0
  }

  lemma CountAppend(log: seq<Event>, e: Event, a: Account)
    ensures Passes(log + [e], a) == Passes(log, a) + if e.Passed? && e.account == a then 1 else 0
    ensures Verifications(log + [e], a) == Verifications(log, a) + if e.Verified? && e.account == a then 1 else 0
    ensures Repeats(log + [e], a) == Repeats(log, a) + if e.Passed? && e.account == a && e.jti in Spent(log) then 1 else 0
  {
    assert (log + [e])[..|log|] == log;
  }

  lemma TokenAppend(log: seq<Event>, e: Event, j: nat, exp: int, at: set<Process>)
    ensures TokenPasses(log + [e], j, at) == TokenPasses(log, j, at) + if PassesAt(e, j, at) then 1 else 0
    ensures RestartsInLifetime(log + [e], j, exp, at) ==
      if e.Verified? && e.jti == j then 0
      else RestartsInLifetime(log, j, exp, at) + if RestartsAt(e, exp, at) then 1 else 0
  {
    assert (log + [e])[..|log|] == log;
  }

  lemma RedeemAppend(log: seq<Event>, e: Event, c: nat)
    ensures Redemptions(log + [e], c) == Redemptions(log, c) + if Redeems(e, c) then 1 else 0
  {
    assert (log + [e])[..|log|] == log;
  }

  lemma SpentAppend(log: seq<Event>, e: Event)
    ensures Spent(log + [e]) == Spent(log) + if e.Passed? then {e.jti} else {}
  {
  }

  predicate PassedAt(e: Event, p: Process, jti: nat)
  {
    e.Passed? && e.process == p && e.jti == jti
  }

  predicate RestartedAt(e: Event, p: Process)
  {
    e.Restarted? && e.process == p
  }

  /** The token passed at process p, which has not restarted since. */
  ghost predicate PassedSinceRestart(log: seq<Event>, p: Process, jti: nat)
  {
    exists i :: 0 <= i < |log| && PassedAt(log[i], p, jti) && NoRestartAfter(log, p, i)
  }

  predicate NoRestartAfter(log: seq<Event>, p: Process, i: nat)
  {
    forall k | i < k < |log| :: !RestartedAt(log[k], p)
  }

  lemma SinceAppend(log: seq<Event>, e: Event, p: Process, j: nat)
    ensures PassedSinceRestart(log + [e], p, j) <==> PassedAt(e, p, j) || (!RestartedAt(e, p) && PassedSinceRestart(log, p, j))
  {
    var more := log + [e];
    assert more[|log|] == e;
    if PassedAt(e, p, j) {
      assert NoRestartAfter(more, p, |log|);
    } else {
      if !RestartedAt(e, p) && PassedSinceRestart(log, p, j) {
        var i :| 0 <= i < |log| && PassedAt(log[i], p, j) && NoRestartAfter(log, p, i);
        assert more[i] == log[i] && NoRestartAfter(more, p, i);
      }
      if PassedSinceRestart(more, p, j) {
        var i :| 0 <= i < |more| && PassedAt(more[i], p, j) && NoRestartAfter(more, p, i);
        assert forall k | 0 <= k < |log| :: log[k] == more[k];
        assert NoRestartAfter(log, p, i);
      }
    }
  }

  /** Tokens of an account that were issued and never passed the gate. */
  function Outstanding(s: State, a: Account): set<nat>
  {
    set j | j in s.issued && s.issued[j].account == a && j !in Spent(s.log)
  }

  /** Code rows of an account that were redeemed for a step-up token. */
  function Redeemed(log: seq<Event>, a: Account): set<nat>
  {
    set e | e in log && e.Verified? && e.account == a :: e.code
  }

  /** The account's consumed credential_change rows. */
  function ConsumedCodes(s: State, a: Account): set<nat>
  {
    set c | c in s.codes && s.codes[c].account == a && s.codes[c].purpose == Tokens.STEP_UP_PURPOSE && s.codes[c].consumed
  }

  // ----- the invariant -----

  ghost predicate TokensValid(s: State)
  {
    && (forall j | j in s.issued :: j < s.nextJti)
    && (forall p, j | j in ConsumedAt(s.consumed, p) :: j in s.issued && ConsumedAt(s.consumed, p)[j] == s.issued[j].exp)
    && (forall e | e in s.log && (e.Verified? || e.Passed?) :: e.jti in s.issued && s.issued[e.jti].account == e.account)
  }

  /** While a token lives, a process's consumed set holds it exactly if it passed there since the
      process last restarted. */
  ghost predicate ConsumedExact(s: State)
  {
    forall p, j | j in s.issued && Tokens.Unix(s.now) <= s.issued[j].exp :: j in ConsumedAt(s.consumed, p) <==> PassedSinceRestart(s.log, p, j)
  }

  ghost predicate CodesValid(s: State)
  {
    && (forall c | c in s.codes :: c < s.nextCode && s.codes[c].purpose != "")
    && (forall r | r in s.requests :: r < s.nextRequest && s.requests[r].code in s.codes
          && s.codes[s.requests[r].code].account == s.requests[r].account
          && (s.requests[r].issue ==> s.codes[s.requests[r].code].purpose == Tokens.STEP_UP_PURPOSE))
    && (forall e | e in s.log && (e.Verified? || e.Checked?) :: e.code in s.codes && s.codes[e.code].account == e.account
          && (e.Verified? ==> s.codes[e.code].purpose == Tokens.STEP_UP_PURPOSE))
  }

  ghost predicate Valid(s: State)
  {
    TokensValid(s) && ConsumedExact(s) && CodesValid(s)
  }

  lemma UnixMonotone(now: nat, later: nat)
    requires now <= later
    ensures Tokens.Unix(now) <= Tokens.Unix(later)
  {
  }

  lemma LookUpShape(s: State, p: Process, a: Account, purpose: string, code: string, issue: bool)
    ensures Matching(s, a, purpose, code).None? ==> LookUp(s, p, a, purpose, code, issue) == (s, None)
    ensures Matching(s, a, purpose, code).Some? ==>
      LookUp(s, p, a, purpose, code, issue)
        == (s.(requests := s.requests[s.nextRequest := Request(p, a, Matching(s, a, purpose, code).value, issue)],
               nextRequest := s.nextRequest + 1), Some(s.nextRequest))
  {
  }

  lemma FinishShape(s: State, r: nat, consumeOk: bool)
    requires CodesValid(s) && r in s.requests
    ensures var q := s.requests[r]; var (t, j) := Finish(s, r, consumeOk);
      && t.now == s.now && t.codes == Consume(s.codes, q.code, consumeOk) && t.nextCode == s.nextCode
      && t.requests == s.requests - {r} && t.nextRequest == s.nextRequest && t.consumed == s.consumed
      && t.log == s.log + [if q.issue then Verified(q.account, q.code, s.nextJti) else Checked(q.account, q.code)]
      && (if q.issue then
            j == Some(s.nextJti) && t.nextJti == s.nextJti + 1
            && t.issued == s.issued[s.nextJti := Token(q.account, Tokens.Unix(s.now + STEP_UP_TTL))]
          else j == None && t.nextJti == s.nextJti && t.issued == s.issued)
  {
  }

  lemma LookUpKeeps(s: State, p: Process, a: Account, purpose: string, code: string, issue: bool)
    requires Valid(s) && (issue ==> purpose == Tokens.STEP_UP_PURPOSE)
    ensures Valid(LookUp(s, p, a, purpose, code, issue).0)
  {
    LookUpShape(s, p, a, purpose, code, issue);
  }

  lemma FinishKeeps(s: State, r: nat, consumeOk: bool)
    requires Valid(s)
    ensures Valid(Finish(s, r, consumeOk).0)
  {
    if r in s.requests {
      FinishShape(s, r, consumeOk);
      var t := Finish(s, r, consumeOk).0;
      var e := t.log[|s.log|];
      assert t.codes.Keys == s.codes.Keys;
      forall c | c in s.codes ensures t.codes[c].account == s.codes[c].account && t.codes[c].purpose == s.codes[c].purpose {
      }
      forall p, j ensures PassedSinceRestart(t.log, p, j) <==> PassedSinceRestart(s.log, p, j) {
        SinceAppend(s.log, e, p, j);
      }
      if e.Verified? {
        forall p: Process ensures s.nextJti !in ConsumedAt(s.consumed, p) && !PassedSinceRestart(s.log, p, s.nextJti) {
          NewTokenIsUnspent(s, p);
        }
      }
    }
  }

  lemma NewTokenIsUnspent(s: State, p: Process)
    requires TokensValid(s)
    ensures s.nextJti !in s.issued && s.nextJti !in ConsumedAt(s.consumed, p) && s.nextJti !in Spent(s.log)
    ensures !PassedSinceRestart(s.log, p, s.nextJti)
  {
    forall i | 0 <= i < |s.log| && s.log[i].Passed? ensures s.log[i].jti != s.nextJti {
      assert s.log[i] in s.log;
    }
  }

  lemma GateKeeps(s: State, p: Process, a: Account, token: Option<nat>)
    requires Valid(s)
    ensures Valid(RequireStepUp(true, s, p, a, token).0)
  {
    var (t, ok) := RequireStepUp(true, s, p, a, token);
    if ok {
      forall q, j ensures PassedSinceRestart(t.log, q, j) <==> (q == p && j == token.value) || PassedSinceRestart(s.log, q, j) {
        SinceAppend(s.log, Passed(p, a, token.value), q, j);
      }
      var now := ConsumedAt(s.consumed, p)[token.value := s.issued[token.value].exp];
      forall q: Process ensures ConsumedAt(t.consumed, q) == if q == p then now else ConsumedAt(s.consumed, q) {
      }
    }
  }

  lemma JanitorKeeps(s: State, p: Process)
    requires Valid(s)
    ensures Valid(JanitorTick(s, p))
  {
    var t, pruned := JanitorTick(s, p), Prune(ConsumedAt(s.consumed, p), s.now);
    forall q: Process ensures ConsumedAt(t.consumed, q) == if q == p then pruned else ConsumedAt(s.consumed, q) {
    }
  }

  lemma RestartKeeps(s: State, p: Process)
    requires Valid(s)
    ensures Valid(Restart(s, p))
  {
    var t := Restart(s, p);
    forall q: Process, j ensures PassedSinceRestart(t.log, q, j) <==> q != p && PassedSinceRestart(s.log, q, j) {
      SinceAppend(s.log, Restarted(p, s.now), q, j);
    }
    forall q: Process ensures ConsumedAt(t.consumed, q) == if q == p then map[] else ConsumedAt(s.consumed, q) {
    }
  }

  lemma StepKeepsValid(s: State, step: Step)
    requires Valid(s)
    ensures Valid(Apply(s, step))
  {
    match step
    case Advance(d) => UnixMonotone(s.now, s.now + d);
    case DoSend(a, x, p, c) =>
    case DoStepUpLookUp(p, a, c) => LookUpKeeps(s, p, a, Tokens.STEP_UP_PURPOSE, c, true);
    case DoEmailLookUp(p, a, q, c) => LookUpKeeps(s, p, a, PurposeOf(q), c, false);
    case DoFinish(r, ok) => FinishKeeps(s, r, ok);
    case DoGate(p, a, t) => GateKeeps(s, p, a, t);
    case DoJanitor(p) => JanitorKeeps(s, p);
    case DoRestart(p) => RestartKeeps(s, p);
  }

  lemma {:induction false} RunKeepsValid(s: State, steps: seq<Step>)
    requires Valid(s)
    ensures Valid(Run(s, steps))
    decreases |steps|
  {
    if steps != [] {
      StepKeepsValid(s, steps[0]);
      RunKeepsValid(Apply(s, steps[0]), steps[1..]);
    }
  }

  lemma InitialValid()
    ensures Valid(INITIAL)
  {
  }
}
