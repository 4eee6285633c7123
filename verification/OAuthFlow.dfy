/** The OIDC redirect flow: minting a state for a sign-in, a test or a link, and what the
    callback does with the state that comes back. */
module OAuthFlow {
  import opened Text
  import T = Tokens
  import A = Accounts

  const STATE_TTL := 300 * T.SECOND

  datatype FlowError =
    | UnknownProvider | ProviderNotAvailable | BadReturnPath
    | StateValidation | IdpFailure | NonceMismatch

  datatype Result<T> = Ok(value: T) | Err(error: FlowError)

  /** The provider's failure to be usable, if any: states is the OAuth registry, each id with its InitOK. */
  function StateById(states: map<string, bool>, id: string): Option<FlowError>
  {
    if id !in states then Some(UnknownProvider)
    else if !states[id] then Some(ProviderNotAvailable)
    else None
  }

  /** url.Parse, as far as it is used: scheme and host, or an error. */
  type UrlParse = string -> Option<(string, string)>

  function ValidateReturnPath(parse: UrlParse, raw: string): Option<string>
  {
    if raw == "" then Some("/")
    else if !("/" <= raw) then None
    else if "//" <= raw then None
    else
      match parse(raw)
      case None => None
      case Some((scheme, host)) => if scheme != "" || host != "" then None else Some(raw)
  }

  // ----- minting -----

  /** What a flow is for: a sign-in, a test of the configuration, or a link for an account's UUID. */
  datatype Purpose = SignIn | Test | Link(account: string)

  function PayloadFor(purpose: Purpose, provider: string, returnPath: string, nonce: string, now: nat): T.StatePayload
  {
    var expires := T.Unix(now + STATE_TTL);
    match purpose
    case SignIn => T.StatePayload(provider, returnPath, nonce, expires, false, false, "")
    case Test => T.StatePayload(provider, returnPath, nonce, expires, true, false, "")
    case Link(account) => T.StatePayload(provider, returnPath, nonce, expires, false, true, account)
  }

  /** The state of AuthorizeURL and of LinkAuthorizeURL. */
  function AuthorizeState(k: T.Keys, states: map<string, bool>, parse: UrlParse, purpose: Purpose,
                          provider: string, returnPath: string, nonce: string, now: nat): Result<string>
  {
    match StateById(states, provider)
    case Some(e) => Err(e)
    case None =>
      match ValidateReturnPath(parse, returnPath)
      case None => Err(BadReturnPath)
      case Some(path) => Ok(T.SignState(k, PayloadFor(purpose, provider, path, nonce, now)))
  }

  // ----- coming back -----

  /** The provider's answer to the code: an id_token that verifies, its nonce, whether a
      multi-tenant issuer is accepted, and the principal its claims map to. */
  datatype Reply = Failed | Verified(nonce: string, issuerOk: bool, principal: Option<A.Principal>)

  function CheckState(k: T.Keys, provider: string, rawState: string, cookie: string, now: nat): Result<T.StatePayload>
  {
    if rawState == "" || cookie == "" then Err(StateValidation)
    else if rawState != cookie then Err(StateValidation)
    else
      match T.VerifyState(k, rawState, now)
      case None => Err(StateValidation)
      case Some(p) => if p.provider != provider then Err(StateValidation) else Ok(p)
  }

  const EMPTY_PAYLOAD := T.StatePayload("", "", "", 0, false, false, "")

  /** The principal or an error, and beside either a payload. */
  function Exchange(k: T.Keys, states: map<string, bool>, provider: string, reply: Reply,
                    rawState: string, cookie: string, now: nat): (Result<A.Principal>, T.StatePayload)
  {
    match StateById(states, provider)
    case Some(e) => (Err(e), EMPTY_PAYLOAD)
    case None =>
      match CheckState(k, provider, rawState, cookie, now)
      case Err(e) => (Err(e), EMPTY_PAYLOAD)
      case Ok(payload) =>
        if reply.Failed? || !reply.issuerOk then (Err(IdpFailure), EMPTY_PAYLOAD)
        else if reply.nonce != payload.nonce then (Err(NonceMismatch), EMPTY_PAYLOAD)
        else
          match reply.principal
          case None => (Err(IdpFailure), EMPTY_PAYLOAD)
          case Some(principal) => (Ok(principal), payload)
  }

  /** Where the callback goes on: to the resolver, to linking, to the test result, or nowhere. */
  datatype Route =
    | NotFound | BadRequest | ProviderRefused | AuthenticationFailed | MissingEmail
    | TestResult(principal: A.Principal) | TestFailure
    | LinkMode(account: string, principal: A.Principal)
    | SignInAs(principal: A.Principal)

  /** The callback's query string and cookie. */
  datatype Return = Return(error: string, code: string, state: string, cookie: Option<string>)

  function Callback(k: T.Keys, states: map<string, bool>, provider: string, q: Return, reply: Reply, now: nat): Route
  {
    if StateById(states, provider).Some? then NotFound
    else if q.error != "" then ProviderRefused
    else if q.code == "" || q.state == "" then BadRequest
    else if q.cookie.None? then BadRequest
    else
      match Exchange(k, states, provider, reply, q.state, q.cookie.value, now)
      case (Err(e), payload) =>
        if e.UnknownProvider? || e.ProviderNotAvailable? then NotFound
        else if e.StateValidation? then BadRequest
        else if payload.testMode then TestFailure
        else AuthenticationFailed
      case (Ok(principal), payload) =>
        if payload.testMode then TestResult(principal)
        else if payload.linkMode then LinkMode(payload.linkAccount, principal)
        else if principal.email == "" then MissingEmail
        else SignInAs(principal)
  }

  // ----- what comes back is what was started -----

  /** Site-relative, in the eyes of the URL parser too. */
  predicate SiteRelative(parse: UrlParse, path: string)
  {
    "/" <= path && !("//" <= path) && parse(path) == Some(("", ""))
  }

  /** Exactly the empty path and the site-relative ones are accepted: the former as the root, the others as they are. */
  lemma ValidatedPath(parse: UrlParse, raw: string)
    ensures ValidateReturnPath(parse, raw) == if raw == "" then Some("/") else if SiteRelative(parse, raw) then Some(raw) else None
  {
  }

  /** What a flow starts with: a state for a provider that is registered and initialized and a path that is empty
      or site-relative, and an error otherwise. For 300 seconds the state says what the flow was started for. */
  lemma StartedState(k: T.Keys, states: map<string, bool>, parse: UrlParse, purpose: Purpose, provider: string, returnPath: string,
                     nonce: string, at: nat, now: nat)
    requires k.Lawful()
    ensures var r := AuthorizeState(k, states, parse, purpose, provider, returnPath, nonce, at);
      && (r == Err(UnknownProvider) <==> provider !in states)
      && (r == Err(ProviderNotAvailable) <==> provider in states && !states[provider])
      && (r == Err(BadReturnPath) <==> provider in states && states[provider] && returnPath != "" && !SiteRelative(parse, returnPath))
      && (r.Ok? <==> provider in states && states[provider] && (returnPath == "" || SiteRelative(parse, returnPath)))
      && (r.Ok? ==>
            T.VerifyState(k, r.value, now) ==
              if T.Unix(now) > T.Unix(at + 300_000_000_000) then None
              else Some(T.StatePayload(provider, if returnPath == "" then "/" else returnPath, nonce, T.Unix(at + 300_000_000_000),
                                       purpose.Test?, purpose.Link?, if purpose.Link? then purpose.account else "")))
  {
    ValidatedPath(parse, returnPath);
    T.StateRoundTrip(k, PayloadFor(purpose, provider, if returnPath == "" then "/" else returnPath, nonce, at), now);
  }

  lemma SignedStateIsNotEmpty(k: T.Keys, p: T.StatePayload)
    ensures T.SignState(k, p) != ""
  {
  }

  /** A returned state is accepted exactly in the browser that started the flow, for the provider
      it was started for and until it expires, and gives back the payload that was signed. */
  lemma MintedStateReturns(k: T.Keys, p: T.StatePayload, provider: string, cookie: string, now: nat)
    requires k.Lawful()
    ensures CheckState(k, provider, T.SignState(k, p), cookie, now)
         == if cookie == T.SignState(k, p) && p.provider == provider && !p.Expired(now) then Ok(p) else Err(StateValidation)
  {
    T.StateRoundTrip(k, p, now);
    SignedStateIsNotEmpty(k, p);
  }

  /** The flow a minted state was started for is the only one its callback can go on with: a
      link names the account that started it, a test never signs anyone in, and a sign-in never
      links. The provider, the browser and the nonce must be those of the start. */
  lemma CallbackFollowsPurpose(k: T.Keys, purpose: Purpose, started: string, returnPath: string, nonce: string, startedAt: nat,
                               states: map<string, bool>, provider: string, q: Return, reply: Reply, now: nat)
    requires k.Lawful() && q.state == T.SignState(k, PayloadFor(purpose, started, returnPath, nonce, startedAt))
    ensures var route := Callback(k, states, provider, q, reply, now);
      && (route.LinkMode? ==> purpose == Link(route.account))
      && (route.SignInAs? || route.MissingEmail? ==> purpose == SignIn)
      && (route.TestResult? ==> purpose == Test)
      && (route.LinkMode? || route.SignInAs? || route.TestResult? || route.MissingEmail? ==>
          && provider == started && provider in states && states[provider] && q.cookie == Some(q.state)
          && T.Unix(now) <= T.Unix(startedAt + STATE_TTL)
          && reply.Verified? && reply.issuerOk && reply.nonce == nonce
          && (!route.MissingEmail? ==> reply.principal == Some(route.principal)))
  {
    var p := PayloadFor(purpose, started, returnPath, nonce, startedAt);
    if q.cookie.Some? {
      MintedStateReturns(k, p, provider, q.cookie.value, now);
      var checked := CheckState(k, provider, q.state, q.cookie.value, now);
      RouteOf(k, states, provider, q, reply, now, checked);
    }
  }

  /** The route, from what the check of the state gives. */
  lemma RouteOf(k: T.Keys, states: map<string, bool>, provider: string, q: Return, reply: Reply, now: nat, checked: Result<T.StatePayload>)
    requires q.cookie.Some? && checked == CheckState(k, provider, q.state, q.cookie.value, now)
    ensures var route := Callback(k, states, provider, q, reply, now);
      route.LinkMode? || route.SignInAs? || route.TestResult? || route.MissingEmail? ==>
        && checked.Ok? && provider in states && states[provider]
        && reply.Verified? && reply.issuerOk && reply.nonce == checked.value.nonce && reply.principal.Some?
        && (!route.MissingEmail? ==> reply.principal == Some(route.principal))
        && (route.TestResult? <==> checked.value.testMode)
        && (route.LinkMode? ==> checked.value.linkMode && route.account == checked.value.linkAccount)
        && (route.SignInAs? || route.MissingEmail? ==> !checked.value.linkMode)
  {
  }

  /** Conversely, a flow that comes back in time, in its browser, with its nonce, goes on as started. */
  lemma HonestCallbackGoesOn(k: T.Keys, purpose: Purpose, provider: string, returnPath: string, nonce: string, startedAt: nat,
                             states: map<string, bool>, parse: UrlParse, code: string, principal: A.Principal, now: nat)
    requires k.Lawful() && provider in states && states[provider] && code != "" && T.Unix(now) <= T.Unix(startedAt + STATE_TTL)
    requires AuthorizeState(k, states, parse, purpose, provider, returnPath, nonce, startedAt).Ok?
    ensures var state := AuthorizeState(k, states, parse, purpose, provider, returnPath, nonce, startedAt).value;
      Callback(k, states, provider, Return("", code, state, Some(state)), Verified(nonce, true, Some(principal)), now)
        == match purpose
           case Test => TestResult(principal)
           case Link(account) => LinkMode(account, principal)
           case SignIn => if principal.email == "" then MissingEmail else SignInAs(principal)
  {
    LiveStateGoesOn(k, purpose, provider, ValidateReturnPath(parse, returnPath).value, nonce, startedAt, states, code, principal, now);
  }

  lemma LiveStateGoesOn(k: T.Keys, purpose: Purpose, provider: string, path: string, nonce: string, startedAt: nat,
                        states: map<string, bool>, code: string, principal: A.Principal, now: nat)
    requires k.Lawful() && provider in states && states[provider] && code != "" && T.Unix(now) <= T.Unix(startedAt + STATE_TTL)
    ensures var state := T.SignState(k, PayloadFor(purpose, provider, path, nonce, startedAt));
      Callback(k, states, provider, Return("", code, state, Some(state)), Verified(nonce, true, Some(principal)), now)
        == match purpose
           case Test => TestResult(principal)
           case Link(account) => LinkMode(account, principal)
           case SignIn => if principal.email == "" then MissingEmail else SignInAs(principal)
  {
    var p := PayloadFor(purpose, provider, path, nonce, startedAt);
    var state := T.SignState(k, p);
    MintedStateReturns(k, p, provider, state, now);
    SignedStateIsNotEmpty(k, p);
  }

  /** A state says what it was minted for: two starts with one state have one nonce. */
  lemma StateFixesNonce(k: T.Keys, purpose: Purpose, provider: string, path: string, nonce: string, at: nat,
                        purpose2: Purpose, provider2: string, path2: string, nonce2: string, at2: nat)
    requires k.Lawful()
    requires T.SignState(k, PayloadFor(purpose, provider, path, nonce, at)) == T.SignState(k, PayloadFor(purpose2, provider2, path2, nonce2, at2))
    ensures nonce == nonce2
  {
    T.StateRoundTrip(k, PayloadFor(purpose, provider, path, nonce, at), 0);
    T.StateRoundTrip(k, PayloadFor(purpose2, provider2, path2, nonce2, at2), 0);
  }

  /** The state comes back in its browser, unexpired, for this provider. */
  ghost predicate StateHolds(k: T.Keys, provider: string, q: Return, now: nat)
  {
    && q.state != "" && q.cookie == Some(q.state)
    && T.VerifyState(k, q.state, now).Some? && T.VerifyState(k, q.state, now).value.provider == provider
  }

  /** The reply verifies with the state's nonce and names somebody. */
  predicate ReplyHolds(reply: Reply, nonce: string)
  {
    reply.Verified? && reply.issuerOk && reply.nonce == nonce && reply.principal.Some?
  }

  /** Where every callback ends, whatever was presented: each refusal has its one cause, tried in this order, and
      what passes them all goes where its state says. */
  lemma CallbackExact(k: T.Keys, states: map<string, bool>, provider: string, q: Return, reply: Reply, now: nat)
    ensures var route := Callback(k, states, provider, q, reply, now);
      if !(provider in states && states[provider]) then route == NotFound
      else if q.error != "" then route == ProviderRefused
      else if q.code == "" || !StateHolds(k, provider, q, now) then route == BadRequest
      else
        var p := T.VerifyState(k, q.state, now).value;
        if !ReplyHolds(reply, p.nonce) then route == AuthenticationFailed
        else
          var who := reply.principal.value;
          route == if p.testMode then TestResult(who) else if p.linkMode then LinkMode(p.linkAccount, who)
                   else if who.email == "" then MissingEmail else SignInAs(who)
  {
    hide T.VerifyState;
  }

  /** On every error path Exchange returns a payload that says neither test nor link; a payload that
      does comes only with a principal. */
  lemma ErrorsCarryNoPayload(k: T.Keys, states: map<string, bool>, provider: string, reply: Reply, rawState: string, cookie: string, now: nat)
    ensures var (r, payload) := Exchange(k, states, provider, reply, rawState, cookie, now);
      && (r.Err? ==> payload == EMPTY_PAYLOAD)
      && (r.Ok? ==> T.VerifyState(k, rawState, now) == Some(payload))
  {
  }

  /** So the callback's branch for a failed test never runs, whatever was started and however it failed. */
  lemma TestFailureUnreachable(k: T.Keys, states: map<string, bool>, provider: string, q: Return, reply: Reply, now: nat)
    ensures !Callback(k, states, provider, q, reply, now).TestFailure?
  {
    if q.cookie.Some? {
      ErrorsCarryNoPayload(k, states, provider, reply, q.state, q.cookie.value, now);
    }
  }
}
