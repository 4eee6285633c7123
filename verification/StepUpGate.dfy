/** The step-up handlers of one process: its consumed set, over the email_codes table and the tokens
    that all processes share, and the requests between their look-up and their end. Between its
    methods other processes may take any step of theirs. */
module StepUpGate {
  import opened Text
  import Tokens
  import opened StepUp

  class Gate {
    const required: bool
    const process: Process
    var now: nat
    var codes: map<nat, Code>
    var nextCode: nat
    var requests: map<nat, Request>
    var nextRequest: nat
    var consumed: map<nat, int>
    var nextJti: nat
    /** Every process's consumed set, this one's among them. */
    ghost var sets: map<Process, map<nat, int>>
    ghost var issued: map<nat, Token>
    ghost var log: seq<Event>

    ghost function History(): State
      reads this
    {
      State(now, codes, nextCode, requests, nextRequest, sets, issued, nextJti, log)
    }

    ghost predicate Valid()
      reads this
    {
      StepUp.Valid(History()) && ConsumedAt(sets, process) == consumed
    }

    constructor (required: bool, process: Process)
      ensures this.required == required && this.process == process && History() == INITIAL && Valid()
    {
      this.required, this.process := required, process;
      now, codes, nextCode, requests, nextRequest, consumed, nextJti := 0, map[], 0, map[], 0, map[], 0;
      sets, issued, log := map[], map[], [];
    }

    method CreateEmailCode(account: Account, address: string, purpose: string, secret: Secret)
      modifies this`codes, this`nextCode
      ensures History() == SendCode(old(History()), account, address, purpose, secret)
    {
      codes := codes[nextCode := Code(account, address, PurposeOf(purpose), secret, now + CODE_TTL, false)];
      nextCode := nextCode + 1;
    }

    method SendStepUpCode(account: Account, address: string, secret: Secret)
      requires Valid()
      modifies this`codes, this`nextCode
      ensures Valid() && History() == SendCode(old(History()), account, address, Tokens.STEP_UP_PURPOSE, secret)
    {
      StepKeepsValid(History(), DoSend(account, address, Tokens.STEP_UP_PURPOSE, secret));
      CreateEmailCode(account, address, Tokens.STEP_UP_PURPOSE, secret);
    }

    method SendEmailCode(account: Account, address: string, purpose: string, secret: Secret)
      requires Valid()
      modifies this`codes, this`nextCode
      ensures Valid() && History() == SendCode(old(History()), account, address, purpose, secret)
    {
      StepKeepsValid(History(), DoSend(account, address, purpose, secret));
      CreateEmailCode(account, address, purpose, secret);
    }

    /** The look-up and comparison that VerifyCode and EmailCode start with; no other statement of
        theirs touches the rows before Finish. */
    method FindCode(account: Account, purpose: string, code: string, issue: bool) returns (r: Option<nat>)
      requires Valid() && (issue ==> purpose == Tokens.STEP_UP_PURPOSE)
      modifies this`requests, this`nextRequest
      ensures Valid() && (History(), r) == LookUp(old(History()), process, account, purpose, code, issue)
    {
      LookUpKeeps(History(), process, account, purpose, code, issue);
      if code == "" {
        return None;
      }
      var row := Newest(codes, nextCode, account, purpose, now);
      if row.None? || codes[row.value].secret != code {
        return None;
      }
      r := Some(nextRequest);
      requests := requests[nextRequest := Request(process, account, row.value, issue)];
      nextRequest := nextRequest + 1;
    }

    /** ConsumeEmailCode, which also succeeds on a consumed row; a failure of it is only logged. */
    method SpendRow(r: nat, consumeOk: bool)
      requires r in requests && requests[r].code in codes
      modifies this`codes, this`requests
      ensures History() == Spend(old(History()), r, consumeOk)
    {
      var c := requests[r].code;
      if consumeOk {
        codes := codes[c := codes[c].(consumed := true)];
      }
      requests := requests - {r};
    }

    /** IssueStepUpToken */
    method IssueToken(account: Account, code: nat) returns (jti: nat)
      modifies this`nextJti, this`issued, this`log
      ensures jti == old(nextJti) && History() == Issue(old(History()), account, code)
    {
      jti := nextJti;
      issued := issued[jti := Token(account, Tokens.Unix(now + STEP_UP_TTL))];
      log := log + [Verified(account, code, jti)];
      nextJti := nextJti + 1;
    }

    /** Consumes the row found, whoever consumed it meanwhile, and issues a token for a step-up. */
    method Finish(r: nat, consumeOk: bool) returns (jti: Option<nat>)
      requires Valid()
      modifies this`codes, this`requests, this`nextJti, this`issued, this`log
      ensures Valid() && (History(), jti) == StepUp.Finish(old(History()), r, consumeOk)
    {
      ghost var before := History();
      if r !in requests {
        return None;
      }
      var q := requests[r];
      SpendRow(r, consumeOk);
      if q.issue {
        var n := IssueToken(q.account, q.code);
        jti := Some(n);
      } else {
        log := log + [Checked(q.account, q.code)];
        jti := None;
      }
      FinishKeeps(before, r, consumeOk);
    }

    /** An undisturbed StepUpVerify. */
    method VerifyCode(account: Account, code: string, consumeOk: bool) returns (jti: Option<nat>)
      requires Valid()
      modifies this`codes, this`requests, this`nextRequest, this`nextJti, this`issued, this`log
      ensures Valid() && (History(), jti) == StepUpVerify(old(History()), process, account, code, consumeOk)
    {
      var r := FindCode(account, Tokens.STEP_UP_PURPOSE, code, true);
      if r.None? {
        return None;
      }
      jti := Finish(r.value, consumeOk);
    }

    /** presented: jti and payload of a token whose MAC is right, so one of those issued. */
    method Require(account: Account, presented: Option<(nat, Token)>) returns (ok: bool)
      requires Valid()
      requires presented.Some? ==> presented.value.0 in issued && issued[presented.value.0] == presented.value.1
      modifies this`consumed, this`sets, this`log
      ensures Valid()
      ensures (History(), ok)
           == RequireStepUp(required, old(History()), process, account, if presented.Some? then Some(presented.value.0) else None)
    {
      if !required {
        return true;
      }
      GateKeeps(History(), process, account, if presented.Some? then Some(presented.value.0) else None);
      if presented.None? {
        return false;
      }
      var (jti, token) := presented.value;
      if Tokens.Unix(now) > token.exp || token.account != account {
        return false;
      }
      if jti in consumed {
        return false;
      }
      consumed := consumed[jti := token.exp];
      sets := sets[process := consumed];
      log := log + [Passed(process, account, jti)];
      return true;
    }

    /** Ranges over the consumed entries and deletes the expired ones. */
    method PruneConsumed()
      modifies this`consumed
      ensures consumed == Prune(old(consumed), now)
    {
      var todo := consumed.Keys;
      while todo != {}
        invariant todo <= old(consumed).Keys
        invariant consumed == map j | j in old(consumed) && (j in todo || !(Tokens.Unix(now) > old(consumed)[j])) :: old(consumed)[j]
        decreases todo
      {
        var j :| j in todo;
        if Tokens.Unix(now) > consumed[j] {
          consumed := consumed - {j};
        }
        todo := todo - {j};
      }
    }

    /** A tick of this process's janitor. */
    method Tick()
      requires Valid()
      modifies this`consumed, this`sets
      ensures Valid() && History() == JanitorTick(old(History()), process)
    {
      JanitorKeeps(History(), process);
      PruneConsumed();
      sets := sets[process := consumed];
    }

    /** The process starts anew over the same tables. */
    method Restart()
      requires Valid()
      modifies this`consumed, this`sets, this`requests, this`log
      ensures Valid() && History() == StepUp.Restart(old(History()), process)
    {
      RestartKeeps(History(), process);
      consumed, requests := map[], RequestsElsewhere(requests, process);
      sets := sets[process := consumed];
      log := log + [Restarted(process, now)];
    }
  }
}
