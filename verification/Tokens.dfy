/** The three HMAC token kinds that share one secret: OAuth state tokens, step-up tokens
    and local session tokens. The MAC and the JSON codec are arbitrary functions. */
module Tokens {
  import opened Text
  import opened Base64
  import opened JsonValues

  /** mac is HMAC-SHA256 under the shared secret, enc and dec are json.Marshal and json.Unmarshal;
      the headers are those of HeadersDiffer, of which only that lemma's facts matter. */
  datatype Keys = Keys(mac: string -> seq<Byte>, enc: Obj -> seq<Byte>, dec: seq<Byte> -> Option<Obj>,
                       stepUpHeader: string, sessionHeader: string, localIssuer: string)
  {
    ghost predicate Lawful()
    {
      && (forall o :: dec(enc(o)) == Some(o))
      && stepUpHeader != sessionHeader
      && '.' !in stepUpHeader && '.' !in sessionHeader
    }
  }

  /** Instants are nanoseconds; tokens carry whole seconds. */
  const SECOND := 1_000_000_000

  function Unix(now: nat): nat
  {
    now / SECOND
  }

  /** The second an instant lies in. */
  lemma UnixIs(now: nat)
    ensures Unix(now) * 1_000_000_000 <= now < (Unix(now) + 1) * 1_000_000_000
  {
  }

  function MacText(k: Keys, input: string): string
  {
    Encode(Url, k.mac(input))
  }

  function Ascii(s: string): (bs: seq<Byte>)
    ensures |bs| == |s|
  {
    seq(|s|, i requires 0 <= i < |s| => s[i] as int % 256)
  }

  const STEP_UP_PURPOSE := "credential_change"

  function HeaderBytes(typ: string): (bs: seq<Byte>)
    ensures |bs| == 24 + |typ|
  {
    Ascii("{\"alg\":\"HS256\",\"typ\":\"" + typ + "\"}")
  }

  function HeaderText(typ: string): string
  {
    Encode(Url, HeaderBytes(typ))
  }

  // ----- reading optional fields of a decoded object, as json.Unmarshal fills a struct -----

  function StrField(o: Obj, key: string): Option<string>
  {
    if key !in o || o[key].JNull? then Some("")
    else if o[key].JStr? then Some(o[key].s) else None
  }

  function IntField(o: Obj, key: string): Option<int>
  {
    if key !in o || o[key].JNull? then Some(0)
    else if o[key].JNum? then Some(o[key].n) else None
  }

  function BoolField(o: Obj, key: string): Option<bool>
  {
    if key !in o || o[key].JNull? then Some(false)
    else if o[key].JBool? then Some(o[key].b) else None
  }

  /** A null leaves a field as a missing key does, and a value of another type is an error. */
  lemma NullIsAbsent(o: Obj, key: string, v: Json)
    ensures v.JNull? ==> StrField(o[key := v], key) == StrField(o - {key}, key) == Some("")
    ensures v.JNull? ==> IntField(o[key := v], key) == IntField(o - {key}, key) == Some(0)
    ensures v.JNull? ==> BoolField(o[key := v], key) == BoolField(o - {key}, key) == Some(false)
    ensures !v.JNull? ==> (StrField(o[key := v], key).Some? <==> v.JStr?)
    ensures !v.JNull? ==> (IntField(o[key := v], key).Some? <==> v.JNum?)
    ensures !v.JNull? ==> (BoolField(o[key := v], key).Some? <==> v.JBool?)
  {
  }

  function OmitEmpty(o: Obj, key: string, s: string): Obj
  {
    if s == "" then o else o[key := JStr(s)]
  }

  function OmitFalse(o: Obj, key: string, b: bool): Obj
  {
    if b then o[key := JBool(true)] else o
  }

  // ----- OAuth state tokens: body.mac -----

  datatype StatePayload = StatePayload(provider: string, returnPath: string, nonce: string, expires: int,
                                       testMode: bool, linkMode: bool, linkAccount: string)
  {
    predicate Expired(now: nat)
    {
      Unix(now) > expires
    }
  }

  function StateObj(p: StatePayload): Obj
  {
    var o := map["p" := JStr(p.provider), "r" := JStr(p.returnPath), "n" := JStr(p.nonce), "e" := JNum(p.expires)];
    OmitEmpty(OmitFalse(OmitFalse(o, "t", p.testMode), "lm", p.linkMode), "luid", p.linkAccount)
  }

  function ReadState(o: Obj): Option<StatePayload>
  {
    match (StrField(o, "p"), StrField(o, "r"), StrField(o, "n"), IntField(o, "e"),
           BoolField(o, "t"), BoolField(o, "lm"), StrField(o, "luid"))
    case (Some(p), Some(r), Some(n), Some(e), Some(t), Some(lm), Some(luid)) => Some(StatePayload(p, r, n, e, t, lm, luid))
    case _ => None
  }

  function SignState(k: Keys, p: StatePayload): string
  {
    var body := Encode(Url, k.enc(StateObj(p)));
    body + "." + MacText(k, body)
  }

  function VerifyState(k: Keys, token: string, now: nat): Option<StatePayload>
  {
    var parts := Split(token, '.');
    if |parts| != 2 || parts[1] != MacText(k, parts[0]) then None
    else
      match Decode(Url, parts[0]) case None => None case Some(bytes) =>
      match k.dec(bytes) case None => None case Some(o) =>
      match ReadState(o) case None => None case Some(p) =>
        if p.Expired(now) then None else Some(p)
  }

  // ----- three-part tokens: header.payload.mac -----

  function Compact(k: Keys, header: string, o: Obj): string
  {
    var input := header + "." + Encode(Url, k.enc(o));
    input + "." + MacText(k, input)
  }

  /** Header and encoded payload of a three-part token whose MAC is right. */
  function Opened(k: Keys, token: string): Option<(string, string)>
  {
    var parts := Split(token, '.');
    if |parts| != 3 || parts[2] != MacText(k, parts[0] + "." + parts[1]) then None
    else Some((parts[0], parts[1]))
  }

  function Payload(k: Keys, encoded: string): Option<Obj>
  {
    match Decode(Url, encoded)
    case None => None
    case Some(bytes) => k.dec(bytes)
  }

  datatype StepUpPayload = StepUpPayload(account: int, purpose: string, jti: string, exp: int)

  function StepUpObj(p: StepUpPayload): Obj
  {
    map["uaid" := JNum(p.account), "p" := JStr(p.purpose), "jti" := JStr(p.jti), "exp" := JNum(p.exp)]
  }

  function ReadStepUp(o: Obj): Option<StepUpPayload>
  {
    match (IntField(o, "uaid"), StrField(o, "p"), StrField(o, "jti"), IntField(o, "exp"))
    case (Some(a), Some(p), Some(j), Some(e)) => Some(StepUpPayload(a, p, j, e))
    case _ => None
  }

  function IssueStepUp(k: Keys, account: int, jti: string, now: nat, ttl: nat): string
  {
    Compact(k, k.stepUpHeader, StepUpObj(StepUpPayload(account, STEP_UP_PURPOSE, jti, Unix(now + ttl))))
  }

  function AdmitStepUp(o: Obj, account: int, now: nat): Option<StepUpPayload>
  {
    match ReadStepUp(o)
    case None => None
    case Some(p) =>
      if Unix(now) > p.exp || p.purpose != STEP_UP_PURPOSE || p.account != account then None else Some(p)
  }

  /** VerifyStepUpToken up to the single-use check; the payload goes on to the consumed set. */
  function CheckStepUp(k: Keys, token: string, account: int, now: nat): Option<StepUpPayload>
  {
    match Opened(k, token)
    case None => None
    case Some((header, encoded)) =>
      if header != k.stepUpHeader then None
      else
        match Payload(k, encoded)
        case None => None
        case Some(o) => AdmitStepUp(o, account, now)
  }

  datatype SessionClaims = SessionClaims(subject: string, roles: seq<string>, sudo: string)

  function StrArr(items: seq<string>): Json
  {
    JArr(seq(|items|, i requires 0 <= i < |items| => JStr(items[i])))
  }

  function SessionObj(c: SessionClaims, issuer: string, iat: int, exp: int): Obj
  {
    var o := map["roles" := StrArr(c.roles), "iat" := JNum(iat), "exp" := JNum(exp)];
    OmitEmpty(OmitEmpty(OmitEmpty(o, "iss", issuer), "sub", c.subject), "sudo_user_uuid", c.sudo)
  }

  const DAY := 86400

  function IssueSession(k: Keys, c: SessionClaims, now: nat): string
  {
    Compact(k, k.sessionHeader, SessionObj(c, k.localIssuer, Unix(now), Unix(now) + DAY))
  }

  /** IssueLocalJWT, for the UUID of the account that signed in. */
  function IssueLocal(k: Keys, uuid: string, now: nat): string
  {
    IssueSession(k, SessionClaims(uuid, [], ""), now)
  }

  /** IssueAssumeJWT: the subject stays the administrator, the assumed user is the sudo user. */
  function IssueAssume(k: Keys, admin: string, assumed: string, now: nat): string
  {
    IssueSession(k, SessionClaims(admin, ["admin"], assumed), now)
  }

  function AdmitSession(localIssuer: string, o: Obj, now: nat): Option<Obj>
  {
    var iss := if "iss" in o && o["iss"].JStr? then o["iss"].s else "";
    if iss != localIssuer || "exp" !in o || !o["exp"].JNum? || o["exp"].n * SECOND < now then None
    else Some(o)
  }

  /** verifyLocal: the header is covered by the MAC but not inspected. */
  function VerifyLocal(k: Keys, token: string, now: nat): Option<Obj>
  {
    match Opened(k, token)
    case None => None
    case Some((_, encoded)) =>
      match Payload(k, encoded)
      case None => None
      case Some(o) => AdmitSession(k.localIssuer, o, now)
  }

  // ----- how minted tokens split -----

  lemma EncodedHasNoDot(bs: seq<Byte>)
    ensures '.' !in Encode(Url, bs)
  {
    EncodeAvoids(Url, bs, '.');
  }

  lemma SplitTwo(body: string, sig: string)
    requires '.' !in body && '.' !in sig
    ensures Split(body + "." + sig, '.') == [body, sig]
  {
    SplitCons(body, '.', sig);
    SplitAtom(sig, '.');
  }

  lemma SplitThree(header: string, body: string, sig: string)
    requires '.' !in header && '.' !in body && '.' !in sig
    ensures Split(header + "." + body + "." + sig, '.') == [header, body, sig]
  {
    assert header + "." + body + "." + sig == header + ['.'] + (body + "." + sig);
    SplitCons(header, '.', body + "." + sig);
    SplitTwo(body, sig);
  }

  lemma SplitSignedState(k: Keys, p: StatePayload)
    ensures var body := Encode(Url, k.enc(StateObj(p)));
      Split(SignState(k, p), '.') == [body, MacText(k, body)]
  {
    var body := Encode(Url, k.enc(StateObj(p)));
    EncodedHasNoDot(k.enc(StateObj(p)));
    EncodedHasNoDot(k.mac(body));
    SplitTwo(body, MacText(k, body));
  }

  lemma OpenCompact(k: Keys, header: string, o: Obj)
    requires '.' !in header
    ensures Opened(k, Compact(k, header, o)) == Some((header, Encode(Url, k.enc(o))))
    ensures |Split(Compact(k, header, o), '.')| == 3
    ensures k.Lawful() ==> Payload(k, Encode(Url, k.enc(o))) == Some(o)
  {
    var body := Encode(Url, k.enc(o));
    EncodedHasNoDot(k.enc(o));
    EncodedHasNoDot(k.mac(header + "." + body));
    SplitThree(header, body, MacText(k, header + "." + body));
    RoundTrip(Url, k.enc(o));
  }

  /** What the two three-part verifiers do with any signed object. */
  lemma CheckCompact(k: Keys, header: string, o: Obj, account: int, now: nat)
    requires '.' !in header
    ensures header != k.stepUpHeader ==> CheckStepUp(k, Compact(k, header, o), account, now) == None
    ensures header == k.stepUpHeader && k.Lawful() ==> CheckStepUp(k, Compact(k, header, o), account, now) == AdmitStepUp(o, account, now)
    ensures k.Lawful() ==> VerifyLocal(k, Compact(k, header, o), now) == AdmitSession(k.localIssuer, o, now)
    ensures VerifyState(k, Compact(k, header, o), now) == None
  {
    OpenCompact(k, header, o);
  }

  /** Headers of types of different lengths are different, and no header has a dot. */
  lemma HeadersOf(typ1: string, typ2: string)
    requires |typ1| != |typ2|
    ensures HeaderText(typ1) != HeaderText(typ2)
    ensures '.' !in HeaderText(typ1) && '.' !in HeaderText(typ2)
  {
    EncodedHasNoDot(HeaderBytes(typ1));
    EncodedHasNoDot(HeaderBytes(typ2));
    if HeaderText(typ1) == HeaderText(typ2) {
      EncodeInjective(Url, HeaderBytes(typ1), HeaderBytes(typ2));
    }
  }

  /** The header texts of the two three-part kinds are different and have no dot. */
  lemma HeadersDiffer()
    ensures HeaderText("step-up") != HeaderText("JWT")
    ensures '.' !in HeaderText("step-up") && '.' !in HeaderText("JWT")
  {
    HeadersOf("step-up", "JWT");
  }

  // ----- each kind is accepted by its own verifier -----

  lemma StateFields(p: StatePayload)
    ensures ReadState(StateObj(p)) == Some(p)
  {
  }

  lemma StepUpFields(p: StepUpPayload)
    ensures ReadStepUp(StepUpObj(p)) == Some(p)
  {
  }

  /** A signed state verifies to itself until it expires, and never afterwards. */
  lemma StateRoundTrip(k: Keys, p: StatePayload, now: nat)
    requires k.Lawful()
    ensures VerifyState(k, SignState(k, p), now) == if p.Expired(now) then None else Some(p)
  {
    SplitSignedState(k, p);
    RoundTrip(Url, k.enc(StateObj(p)));
    StateFields(p);
  }

  /** A step-up token passes the stateless checks exactly for its own account and until it expires. */
  lemma StepUpRoundTrip(k: Keys, owner: int, jti: string, issued: nat, ttl: nat, account: int, now: nat)
    requires k.Lawful()
    ensures CheckStepUp(k, IssueStepUp(k, owner, jti, issued, ttl), account, now)
         == if account == owner && Unix(now) <= Unix(issued + ttl)
            then Some(StepUpPayload(owner, "credential_change", jti, Unix(issued + ttl))) else None
  {
    var p := StepUpPayload(owner, STEP_UP_PURPOSE, jti, Unix(issued + ttl));
    StepUpFields(p);
    CheckCompact(k, k.stepUpHeader, StepUpObj(p), account, now);
  }

  /** The object has this string under the key, and no such key where the string is empty. */
  predicate Says(o: Obj, key: string, value: string)
  {
    if value == "" then key !in o else key in o && o[key] == JStr(value)
  }

  /** What a session token says: its six claims and nothing else. */
  ghost predicate SaysSession(o: Obj, issuer: string, c: SessionClaims, issued: int)
  {
    && Says(o, "iss", issuer) && Says(o, "sub", c.subject) && Says(o, "sudo_user_uuid", c.sudo)
    && "iat" in o && o["iat"] == JNum(issued) && "exp" in o && o["exp"] == JNum(issued + 86400)
    && "roles" in o && o["roles"].JArr? && |o["roles"].items| == |c.roles|
    && (forall i | 0 <= i < |c.roles| :: o["roles"].items[i] == JStr(c.roles[i]))
    && o.Keys <= {"iss", "sub", "sudo_user_uuid", "iat", "exp", "roles"}
  }

  lemma SessionKeysDiffer()
    ensures |{"iss", "sub", "sudo_user_uuid", "iat", "exp", "roles"}| == 6
  {
    assert "iss"[1] == 's' && "iat"[1] == 'a' && "sub"[1] == 'u' && "sudo_user_uuid"[1] == 'u' && "exp"[0] == 'e' && "roles"[0] == 'r';
    assert |"sub"| == 3 && |"sudo_user_uuid"| == 14;
  }

  lemma SessionSays(c: SessionClaims, issuer: string, issued: int)
    ensures SaysSession(SessionObj(c, issuer, issued, issued + DAY), issuer, c, issued)
  {
    SessionKeysDiffer();
  }

  /** A session token is accepted until its day is over, and then says the issuer, the subject and the sudo
      user it was issued with, its roles in order, and when it was issued. */
  lemma SessionRoundTrip(k: Keys, c: SessionClaims, issued: nat, now: nat)
    requires k.Lawful()
    ensures var r := VerifyLocal(k, IssueSession(k, c, issued), now);
      && (r.None? <==> (Unix(issued) + 86400) * 1_000_000_000 < now)
      && (r.Some? ==> SaysSession(r.value, k.localIssuer, c, Unix(issued)))
  {
    var o := SessionObj(c, k.localIssuer, Unix(issued), Unix(issued) + DAY);
    SessionSays(c, k.localIssuer, Unix(issued));
    CheckCompact(k, k.sessionHeader, o, 0, now);
  }

  /** A login session names its account and carries no role; an assumed one names the administrator, the one role
      "admin" and the assumed user. */
  lemma MintedSessionsSay(k: Keys, uuid: string, assumed: string, issued: nat)
    requires k.Lawful() && uuid != "" && assumed != ""
    ensures var own, other := VerifyLocal(k, IssueLocal(k, uuid, issued), issued), VerifyLocal(k, IssueAssume(k, uuid, assumed, issued), issued);
      && own.Some? && Says(own.value, "sub", uuid) && "sudo_user_uuid" !in own.value && Says(own.value, "iss", k.localIssuer)
      && "roles" in own.value && own.value["roles"] == JArr([])
      && other.Some? && Says(other.value, "sub", uuid) && Says(other.value, "sudo_user_uuid", assumed) && Says(other.value, "iss", k.localIssuer)
      && "roles" in other.value && other.value["roles"] == JArr([JStr("admin")])
  {
    SessionRoundTrip(k, SessionClaims(uuid, [], ""), issued, issued);
    SessionRoundTrip(k, SessionClaims(uuid, ["admin"], assumed), issued, issued);
  }

  // ----- only what carries its MAC is accepted -----

  lemma PartsOf(token: string, n: nat)
    requires |Split(token, '.')| == n && 2 <= n <= 3
    ensures var parts := Split(token, '.');
      token == if n == 2 then parts[0] + "." + parts[1] else parts[0] + "." + parts[1] + "." + parts[2]
  {
    var parts := Split(token, '.');
    JoinSplit(token, '.');
    assert Join(parts[1..], ".") == if n == 2 then parts[1] else parts[1] + "." + parts[2] by {
      assert Join(parts[n - 1..], ".") == parts[n - 1];
      assert parts[1..][1..] == parts[2..];
    }
  }

  /** A body, a dot and the MAC of that body. */
  predicate SignedBody(k: Keys, token: string, body: string)
  {
    '.' !in body && token == body + "." + MacText(k, body)
  }

  /** What the body encodes. */
  predicate BodySays(k: Keys, body: string, p: StatePayload)
  {
    Payload(k, body).Some? && ReadState(Payload(k, body).value) == Some(p)
  }

  /** A text is accepted as a state exactly if it is a body with its MAC, and until the time its body says. */
  lemma StateIsSigned(k: Keys, token: string, now: nat, p: StatePayload)
    ensures VerifyState(k, token, now) == Some(p)
       <==> Unix(now) <= p.expires && exists body :: SignedBody(k, token, body) && BodySays(k, body, p)
  {
    var parts := Split(token, '.');
    if VerifyState(k, token, now) == Some(p) {
      PartsOf(token, 2);
      assert parts[0] in parts;
      assert SignedBody(k, token, parts[0]) && BodySays(k, parts[0], p);
    }
    if exists body :: SignedBody(k, token, body) && BodySays(k, body, p) {
      var body :| SignedBody(k, token, body) && BodySays(k, body, p);
      EncodedHasNoDot(k.mac(body));
      SplitTwo(body, MacText(k, body));
    }
  }

  /** The two parts before the last dot of a three-part token, which must be their MAC. */
  predicate SignedParts(k: Keys, token: string, header: string, body: string)
  {
    '.' !in header && '.' !in body && token == header + "." + body + "." + MacText(k, header + "." + body)
  }

  lemma OpenedIsSigned(k: Keys, token: string, header: string, body: string)
    ensures Opened(k, token) == Some((header, body)) <==> SignedParts(k, token, header, body)
  {
    var parts := Split(token, '.');
    if Opened(k, token) == Some((header, body)) {
      PartsOf(token, 3);
      assert parts[0] in parts && parts[1] in parts;
    }
    if SignedParts(k, token, header, body) {
      EncodedHasNoDot(k.mac(header + "." + body));
      SplitThree(header, body, MacText(k, header + "." + body));
    }
  }

  /** A body that says this step-up. */
  predicate SaysStepUp(k: Keys, body: string, p: StepUpPayload)
  {
    Payload(k, body).Some? && ReadStepUp(Payload(k, body).value) == Some(p)
  }

  /** A text is accepted as a step-up token exactly if it carries the step-up header, the MAC of its first two parts,
      and a payload for this account and purpose that is not over. */
  lemma StepUpIsSigned(k: Keys, token: string, account: int, now: nat, p: StepUpPayload)
    ensures CheckStepUp(k, token, account, now) == Some(p)
       <==> p.account == account && p.purpose == "credential_change" && Unix(now) <= p.exp
            && exists body :: SignedParts(k, token, k.stepUpHeader, body) && SaysStepUp(k, body, p)
  {
    var found := Opened(k, token);
    if found.Some? {
      OpenedIsSigned(k, token, found.value.0, found.value.1);
    }
    if exists body :: SignedParts(k, token, k.stepUpHeader, body) && SaysStepUp(k, body, p) {
      var body :| SignedParts(k, token, k.stepUpHeader, body) && SaysStepUp(k, body, p);
      OpenedIsSigned(k, token, k.stepUpHeader, body);
    }
  }

  /** The claims are of the local issuer, missing or not a string standing for the empty one, and not over. */
  predicate LiveClaims(issuer: string, o: Obj, now: nat)
  {
    && (if "iss" in o && o["iss"].JStr? then o["iss"].s == issuer else issuer == "")
    && "exp" in o && o["exp"].JNum? && now <= o["exp"].n * 1_000_000_000
  }

  /** A text is accepted as a session exactly if it carries some header, the MAC of its first two parts and live
      claims, which are what is handed on. */
  lemma SessionIsSigned(k: Keys, token: string, now: nat, o: Obj)
    ensures VerifyLocal(k, token, now) == Some(o)
       <==> LiveClaims(k.localIssuer, o, now) && exists header, body :: SignedParts(k, token, header, body) && Payload(k, body) == Some(o)
  {
    var found := Opened(k, token);
    if found.Some? {
      OpenedIsSigned(k, token, found.value.0, found.value.1);
    }
    if exists header, body :: SignedParts(k, token, header, body) && Payload(k, body) == Some(o) {
      var header, body :| SignedParts(k, token, header, body) && Payload(k, body) == Some(o);
      OpenedIsSigned(k, token, header, body);
    }
  }

  // ----- no kind is accepted by another kind's verifier -----

  datatype Kind = StateKind | StepUpKind | SessionKind

  predicate Accepts(k: Keys, kind: Kind, token: string, account: int, now: nat)
  {
    match kind
    case StateKind => VerifyState(k, token, now).Some?
    case StepUpKind => CheckStepUp(k, token, account, now).Some?
    case SessionKind => VerifyLocal(k, token, now).Some?
  }

  lemma StateStaysApart(k: Keys, p: StatePayload, account: int, now: nat)
    ensures CheckStepUp(k, SignState(k, p), account, now) == None
    ensures VerifyLocal(k, SignState(k, p), now) == None
  {
    SplitSignedState(k, p);
  }

  /** Nothing signed under the session header is a state or a step-up token, whatever it claims. */
  lemma SessionStaysApart(k: Keys, o: Obj, account: int, now: nat)
    requires k.Lawful()
    ensures VerifyState(k, Compact(k, k.sessionHeader, o), now) == None
    ensures CheckStepUp(k, Compact(k, k.sessionHeader, o), account, now) == None
  {
    CheckCompact(k, k.sessionHeader, o, account, now);
  }

  /** The session verifier ignores the header, so only the issuer claim keeps a live step-up
      token out: it is taken for a session exactly when the local issuer is empty. */
  lemma StepUpStaysApart(k: Keys, owner: int, jti: string, issued: nat, ttl: nat, now: nat)
    requires k.Lawful()
    ensures VerifyState(k, IssueStepUp(k, owner, jti, issued, ttl), now) == None
    ensures VerifyLocal(k, IssueStepUp(k, owner, jti, issued, ttl), now).Some?
       <==> k.localIssuer == "" && now <= Unix(issued + ttl) * SECOND
  {
    var o := StepUpObj(StepUpPayload(owner, STEP_UP_PURPOSE, jti, Unix(issued + ttl)));
    CheckCompact(k, k.stepUpHeader, o, owner, now);
  }

  // With a non-empty local issuer every minted token is accepted by its own verifier only.

  lemma StateTokenOnlyAsState(k: Keys, p: StatePayload, kind: Kind, account: int, now: nat)
    requires Accepts(k, kind, SignState(k, p), account, now)
    ensures kind == StateKind
  {
    StateStaysApart(k, p, account, now);
  }

  lemma StepUpTokenOnlyAsStepUp(k: Keys, owner: int, jti: string, issued: nat, ttl: nat, kind: Kind, account: int, now: nat)
    requires k.Lawful() && k.localIssuer != ""
    requires Accepts(k, kind, IssueStepUp(k, owner, jti, issued, ttl), account, now)
    ensures kind == StepUpKind
  {
    StepUpStaysApart(k, owner, jti, issued, ttl, now);
  }

  /** For any object under the session header, so for every token IssueSession returns. */
  lemma SessionTokenOnlyAsSession(k: Keys, o: Obj, kind: Kind, account: int, now: nat)
    requires k.Lawful() && Accepts(k, kind, Compact(k, k.sessionHeader, o), account, now)
    ensures kind == SessionKind
  {
    SessionStaysApart(k, o, account, now);
  }
}
