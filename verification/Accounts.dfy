/** The credential and identity state machine: accounts, password rows, OIDC identity rows,
    pending link tokens, the open transactions of the two credential deleters, and administrators'
    updates between their read and their write. */
module Accounts {
  import opened Text

  /** An account's internal id; its public UUID is represented by the same number. */
  type Id = nat

  /** (issuer, subject), the unique key of an identity row. */
  type Key = (string, string)

  datatype Account = Account(email: string, verified: bool)

  datatype Identity = Identity(uuid: nat, account: Id, lastSeen: Option<nat>)

  /** The same row, whenever it was last touched. */
  predicate SameBinding(i: Identity, j: Identity)
  {
    i.account == j.account && i.uuid == j.uuid
  }

  datatype Principal = Principal(issuer: string, subject: string, email: string, emailVerified: bool)
  {
    function Key(): Key
    {
      (issuer, subject)
    }
  }

  /** normalise is TrimSpace after ToLower in Go; lower is the database's lower(), by which accounts
      are looked up; pick is the row the database returns first of several; hash(password, salt) and
      verify(password, stored) are HashPassword and a VerifyPassword that answers true. */
  datatype Config = Config(localIssuer: string, parseUuid: string -> Option<Id>,
                           normalise: string -> string, lower: string -> string, pick: set<Id> -> Id,
                           hash: (string, string) -> string, verify: (string, string) -> bool)

  datatype TxKind = UnlinkTx(uuid: nat) | RemovePasswordTx

  /** A deleter's transaction: the rows of its account in its snapshot, and whether another
      serializable transaction has since removed rows it read. */
  datatype Tx = Tx(account: Id, kind: TxKind, idents: map<Key, Identity>, hasLocal: bool, stale: bool)

  /** An Update that has read its account and not written yet: the email it writes, and the
      verification mark it read and writes back. */
  datatype Pending = Pending(account: Id, email: string, verified: bool)

  datatype State = State(accounts: map<Id, Account>, locals: map<Id, string>, idents: map<Key, Identity>,
                         links: set<Id>, txs: map<nat, Tx>, updates: map<nat, Pending>,
                         nextAccount: Id, nextUuid: nat, nextTx: nat, nextUpdate: nat)

  const EMPTY := State(map[], map[], map[], {}, map[], map[], 0, 0, 0, 0)

  datatype Outcome =
    | Done | Resolved(account: Id) | Began(tx: nat) | Updating(update: nat)
    | BadRequest | EmailTaken | NotFound | Denied | UserGone | BadSubject
    | UnverifiedTakeover | IdentityInUse | WriteFailed | LastIdentity | Aborted

  // ----- rows -----

  /** The account's email is this one up to case. */
  predicate EmailMatches(cfg: Config, s: State, email: string, a: Id)
  {
    a in s.accounts && cfg.lower(s.accounts[a].email) == cfg.lower(email)
  }

  /** The unique constraint, which compares the text itself, lets account a have this email. */
  predicate EmailFreeFor(s: State, email: string, a: Id)
  {
    forall b | b in s.accounts && s.accounts[b].email == email :: b == a
  }

  /** It lets no further account have it. */
  predicate Occupied(s: State, email: string)
  {
    exists b | b in s.accounts :: s.accounts[b].email == email
  }

  predicate IsLeast(a: Id, ids: set<Id>)
  {
    a in ids && forall b | b in ids :: a <= b
  }

  lemma {:induction false} LeastExists(ids: set<Id>)
    requires ids != {}
    ensures exists a :: IsLeast(a, ids)
    decreases ids
  {
    var a :| a in ids;
    var rest := ids - {a};
    if rest == {} {
      assert ids == {a};
      assert IsLeast(a, ids);
    } else {
      LeastExists(rest);
      var l :| IsLeast(l, rest);
      assert ids == rest + {a};
      assert IsLeast(if a < l then a else l, ids);
    }
  }

  function Least(ids: set<Id>): Id
    requires ids != {}
    ensures Least(ids) in ids
  {
    LeastExists(ids);
    var a :| IsLeast(a, ids);
    a
  }

  function Matching(cfg: Config, s: State, email: string): set<Id>
  {
    set a | a in s.accounts && cfg.lower(s.accounts[a].email) == cfg.lower(email)
  }

  /** GetUserAccountByEmail, which returns the first of the rows that match up to case. */
  function FindByEmail(cfg: Config, s: State, email: string): (r: Option<Id>)
    ensures r.Some? ==> EmailMatches(cfg, s, email, r.value)
    ensures r.None? ==> forall a :: !EmailMatches(cfg, s, email, a)
  {
    var hits := Matching(cfg, s, email);
    if hits == {} then
      assert forall a | EmailMatches(cfg, s, email, a) :: a in hits;
      None
    else if cfg.pick(hits) in hits then Some(cfg.pick(hits))
    else Some(Least(hits))
  }

  function IdentsOf(idents: map<Key, Identity>, a: Id): map<Key, Identity>
  {
    map k | k in idents && idents[k].account == a :: idents[k]
  }

  function NewAccount(s: State, email: string, verified: bool): State
  {
    s.(accounts := s.accounts[s.nextAccount := Account(email, verified)], nextAccount := s.nextAccount + 1)
  }

  /** UpsertAuthLocal */
  function PutLocal(s: State, a: Id, hash: string): State
  {
    s.(locals := s.locals[a := hash])
  }

  /** InsertOIDCIdentity; None is the unique violation. */
  function Insert(s: State, key: Key, a: Id): Option<State>
  {
    if key in s.idents then None
    else Some(s.(idents := s.idents[key := Identity(s.nextUuid, a, None)], nextUuid := s.nextUuid + 1))
  }

  /** TouchOIDCIdentityLastSeen */
  function Touch(s: State, key: Key, now: nat): State
    requires key in s.idents
  {
    s.(idents := s.idents[key := s.idents[key].(lastSeen := Some(now))])
  }

  function SetAccount(s: State, a: Id, account: Account): State
  {
    s.(accounts := s.accounts[a := account])
  }

  predicate IsVerified(s: State, a: Id)
  {
    a in s.accounts && s.accounts[a].verified
  }

  // ----- local sign-up, administration and passwords -----

  function Register(cfg: Config, s: State, email: string, password: string, given: string, family: string, salt: string): (State, Outcome)
  {
    var e := cfg.normalise(email);
    if e == "" || |password| < 12 || GoTrim(given) == "" || GoTrim(family) == "" then (s, BadRequest)
    else if Occupied(s, e) then (s, EmailTaken)
    else (PutLocal(NewAccount(s, e, false), s.nextAccount, cfg.hash(password, salt)), Done)
  }

  function AdminCreate(cfg: Config, s: State, email: string, password: Option<string>, given: string, family: string,
                             authorized: bool, salt: string): (State, Outcome)
  {
    var e := cfg.normalise(email);
    if e == "" || GoTrim(given) == "" || GoTrim(family) == "" then (s, BadRequest)
    else if password.Some? && |password.value| < 12 then (s, BadRequest)
    else if !authorized then (s, Denied)
    else if Occupied(s, e) then (s, EmailTaken)
    else if password.None? then (NewAccount(s, e, false), Done)
    else (PutLocal(NewAccount(s, e, false), s.nextAccount, cfg.hash(password.value, salt)), Done)
  }

  /** The start of an administrator's Update: it reads the account before its transaction. */
  function UpdateRead(cfg: Config, s: State, a: Id, email: Option<string>, authorized: bool): (State, Outcome)
  {
    if a !in s.accounts then (s, NotFound)
    else if !authorized then (s, Denied)
    else
      var e := if email.Some? then cfg.normalise(email.value) else s.accounts[a].email;
      (s.(updates := s.updates[s.nextUpdate := Pending(a, e, s.accounts[a].verified)], nextUpdate := s.nextUpdate + 1),
       Updating(s.nextUpdate))
  }

  function EndUpdate(s: State, n: nat): State
  {
    s.(updates := s.updates - {n})
  }

  /** Its transaction: the email and the mark it read are written, whatever stands there now. */
  function UpdateWrite(s: State, n: nat): (State, Outcome)
  {
    if n !in s.updates || s.updates[n].account !in s.accounts then (s, Denied)
    else
      var q := s.updates[n];
      if !EmailFreeFor(s, q.email, q.account) then (EndUpdate(s, n), WriteFailed)
      else (SetAccount(EndUpdate(s, n), q.account, Account(q.email, q.verified)), Done)
  }

  /** The last write of an EmailCodeVerify that redeemed a code of account a: it sets the mark and
      writes back the email read when the request started. */
  function MarkVerified(s: State, a: Id, email: string): (State, Outcome)
  {
    if a !in s.accounts then (s, Done)
    else if !EmailFreeFor(s, email, a) then (s, WriteFailed)
    else (SetAccount(s, a, Account(email, true)), Done)
  }

  /** The last write of a PasswordResetConfirm whose token named an active row of account a. */
  function Reset(cfg: Config, s: State, a: Id, password: string, salt: string): (State, Outcome)
  {
    if a !in s.accounts then (s, WriteFailed) else (PutLocal(s, a, cfg.hash(password, salt)), Done)
  }

  /** RequireAuth, RequireVerifiedEmail and the step-up check in front of identity endpoints. */
  predicate Gate(s: State, a: Id, stepUpOk: bool)
  {
    a in s.accounts && s.accounts[a].verified && stepUpOk
  }

  /** current is the current password as submitted, "" if there is none. */
  function SetPassword(cfg: Config, s: State, a: Id, stepUpOk: bool, password: string, current: string, salt: string): (State, Outcome)
  {
    if !Gate(s, a, stepUpOk) then (s, Denied)
    else if |password| < 12 then (s, BadRequest)
    else if a in s.locals && (current == "" || !cfg.verify(current, s.locals[a])) then (s, Denied)
    else (PutLocal(s, a, cfg.hash(password, salt)), Done)
  }

  // ----- OIDC sign-in and linking -----

  predicate LocalPath(cfg: Config, p: Principal)
  {
    cfg.localIssuer != "" && p.issuer == cfg.localIssuer
  }

  function Link(s: State, key: Key, a: Id): (State, Outcome)
  {
    match Insert(s, key, a)
    case None => (s, WriteFailed)
    case Some(t) => (t, Resolved(a))
  }

  /** Branch 5: a fresh account, and its identity unless the principal names none. */
  function AutoCreate(s: State, p: Principal): (State, Outcome)
  {
    if Occupied(s, p.email) then (s, WriteFailed)
    else
      var t := NewAccount(s, p.email, p.emailVerified);
      if p.issuer == "" || p.subject == "" then (t, Resolved(s.nextAccount))
      else
        match Insert(t, p.Key(), s.nextAccount)
        case None => (s, WriteFailed)
        case Some(u) => (u, Resolved(s.nextAccount))
  }

  /** Branches 2, 3 and 4, for the account a that has the principal's email. */
  function ResolveByEmail(s: State, p: Principal, a: Id): (State, Outcome)
    requires a in s.accounts
  {
    if s.accounts[a].verified then Link(s, p.Key(), a)
    else if p.emailVerified then
      var (t, o) := Link(SetAccount(s, a, s.accounts[a].(verified := true)), p.Key(), a);
      if o.WriteFailed? then (s, o) else (t, o)
    else (s, UnverifiedTakeover)
  }

  function Resolve(cfg: Config, s: State, p: Principal, now: nat): (State, Outcome)
  {
    if LocalPath(cfg, p) then
      match cfg.parseUuid(p.subject)
      case None => (s, BadSubject)
      case Some(a) => (s, if a in s.accounts then Resolved(a) else UserGone)
    else if p.issuer != "" && p.subject != "" && p.Key() in s.idents then
      var a := s.idents[p.Key()].account;
      (Touch(s, p.Key(), now), if a in s.accounts then Resolved(a) else UserGone)
    else if p.email != "" && FindByEmail(cfg, s, p.email).Some? then
      ResolveByEmail(s, p, FindByEmail(cfg, s, p.email).value)
    else AutoCreate(s, p)
  }

  /** A sign-in whose provider vouches for the address of the account it reaches. */
  predicate VouchesFor(cfg: Config, t: State, p: Principal, o: Outcome, a: Id)
  {
    p.emailVerified && o == Resolved(a) && a in t.accounts && cfg.lower(t.accounts[a].email) == cfg.lower(p.email)
  }

  /** Mints a signed link token naming the session's account. */
  function StartLink(s: State, a: Id, stepUpOk: bool, providerOk: bool): (State, Outcome)
  {
    if !Gate(s, a, stepUpOk) then (s, Denied)
    else if !providerOk then (s, NotFound)
    else (s.(links := s.links + {a}), Done)
  }

  /** The link-mode callback with a token naming account a; only minted tokens verify. */
  function LinkCallback(s: State, a: Id, p: Principal, now: nat): (State, Outcome)
  {
    if a !in s.links || a !in s.accounts then (s, Denied)
    else if p.Key() in s.idents then
      if s.idents[p.Key()].account == a then (Touch(s, p.Key(), now), Done) else (s, IdentityInUse)
    else (Insert(s, p.Key(), a).value, Done)
  }

  // ----- the deleters' transactions -----

  datatype Isolation = Serializable | SnapshotOnly

  function Begin(s: State, a: Id, stepUpOk: bool, kind: TxKind): (State, Outcome)
  {
    if !Gate(s, a, stepUpOk) then (s, Denied)
    else (s.(txs := s.txs[s.nextTx := Tx(a, kind, IdentsOf(s.idents, a), a in s.locals, false)], nextTx := s.nextTx + 1), Began(s.nextTx))
  }

  datatype Verdict = Refuse | Missing | Nothing | Remove(keys: set<Key>, local: bool)

  function MatchingKeys(idents: map<Key, Identity>, uuid: nat): set<Key>
  {
    set k | k in idents && idents[k].uuid == uuid
  }

  /** What the transaction decides from its snapshot: the identity counts, the last-identity
      check, and the rows its DELETE matches. */
  function Decide(tx: Tx): Verdict
  {
    match tx.kind
    case UnlinkTx(uuid) =>
      if |tx.idents| - 1 + (if tx.hasLocal then 1 else 0) == 0 then Refuse
      else
        var keys := MatchingKeys(tx.idents, uuid);
        if keys == {} then Missing else Remove(keys, false)
    case RemovePasswordTx =>
      if !tx.hasLocal then Nothing
      else if |tx.idents| == 0 then Refuse
      else Remove({}, true)
  }

  /** Serializable isolation refuses a writer whose reads another serializable transaction has
      changed; plain snapshot isolation refuses it only when a row it deletes is already gone. */
  predicate Conflict(iso: Isolation, s: State, tx: Tx, v: Verdict)
    requires v.Remove?
  {
    match iso
    case Serializable => tx.stale
    case SnapshotOnly =>
      || (exists k | k in v.keys :: k !in s.idents || k !in tx.idents || !SameBinding(tx.idents[k], s.idents[k]))
      || (v.local && tx.account !in s.locals)
  }

  function MarkStale(txs: map<nat, Tx>, a: Id): map<nat, Tx>
  {
    map t | t in txs :: if txs[t].account == a then txs[t].(stale := true) else txs[t]
  }

  function RemoveRows(s: State, a: Id, keys: set<Key>, local: bool): State
  {
    s.(idents := s.idents - keys, locals := if local then s.locals - {a} else s.locals, txs := MarkStale(s.txs, a))
  }

  function Close(s: State, t: nat): State
  {
    s.(txs := s.txs - {t})
  }

  function Commit(iso: Isolation, s: State, t: nat): (State, Outcome)
  {
    if t !in s.txs then (s, Aborted)
    else
      var tx := s.txs[t];
      match Decide(tx)
      case Refuse => (Close(s, t), LastIdentity)
      case Missing => (Close(s, t), NotFound)
      case Nothing => (Close(s, t), Done)
      case Remove(keys, local) =>
        if Conflict(iso, s, tx, Remove(keys, local)) then (Close(s, t), Aborted)
        else (RemoveRows(Close(s, t), tx.account, keys, local), Done)
  }

  // ----- runs -----

  datatype Step =
    | DoRegister(email: string, password: string, given: string, family: string, salt: string)
    | DoCreate(email: string, optPassword: Option<string>, given: string, family: string, authorized: bool, salt: string)
    | DoUpdateRead(a: Id, newEmail: Option<string>, authorized: bool)
    | DoUpdateWrite(update: nat)
    | DoVerifyEmail(a: Id, email: string)
    | DoReset(a: Id, password: string, salt: string)
    | DoSetPassword(a: Id, stepUpOk: bool, password: string, current: string, salt: string)
    | DoResolve(p: Principal, now: nat)
    | DoStartLink(a: Id, stepUpOk: bool, providerOk: bool)
    | DoLinkCallback(a: Id, p: Principal, now: nat)
    | DoBegin(a: Id, stepUpOk: bool, kind: TxKind)
    | DoCommit(tx: nat)
    | DoAbort(tx: nat)

  function Apply(cfg: Config, iso: Isolation, s: State, step: Step): (State, Outcome)
  {
    match step
    case DoRegister(e, p, g, f, h) => Register(cfg, s, e, p, g, f, h)
    case DoCreate(e, p, g, f, z, h) => AdminCreate(cfg, s, e, p, g, f, z, h)
    case DoUpdateRead(a, e, z) => UpdateRead(cfg, s, a, e, z)
    case DoUpdateWrite(n) => UpdateWrite(s, n)
    case DoVerifyEmail(a, e) => MarkVerified(s, a, e)
    case DoReset(a, p, h) => Reset(cfg, s, a, p, h)
    case DoSetPassword(a, ok, p, c, h) => SetPassword(cfg, s, a, ok, p, c, h)
    case DoResolve(p, now) => Resolve(cfg, s, p, now)
    case DoStartLink(a, ok, v) => StartLink(s, a, ok, v)
    case DoLinkCallback(a, p, now) => LinkCallback(s, a, p, now)
    case DoBegin(a, ok, kind) => Begin(s, a, ok, kind)
    case DoCommit(t) => Commit(iso, s, t)
    case DoAbort(t) => (Close(s, t), Aborted)
  }

  /** Any interleaving of whole requests with the begins and commits of deleters and the reads and
      writes of updates. */
  function Run(cfg: Config, iso: Isolation, s: State, steps: seq<Step>): State
    decreases |steps|
  {
    if steps == [] then s else Run(cfg, iso, Apply(cfg, iso, s, steps[0]).0, steps[1..])
  }
}
