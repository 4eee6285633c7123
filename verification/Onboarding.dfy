/** The onboarding state machine: the oidc_config row, the provider override rows, the OAuth
    registry, the cached boot state and the setup token, as each request leaves them. */
module Onboarding {
  import opened Text
  import opened JsonValues
  import opened Providers
  import opened ProviderAdmin

  // ----- the boot verdict -----

  /** Unset is the zero value, before the first refresh. */
  datatype BootState = ConfirmedOk | ConfirmedOptOut | InitFailed | NoEnvNoFlag | Unset

  predicate Confirmed(b: BootState)
  {
    b.ConfirmedOk? || b.ConfirmedOptOut?
  }

  datatype InitView = InitView(id: string, configured: bool, enabled: bool, initOk: bool)

  datatype BootResult = BootResult(state: BootState, enabled: seq<string>)

  ghost predicate SomeConfigured(views: set<InitView>)
  {
    exists v :: v in views && v.configured
  }

  predicate Counted(v: InitView)
  {
    v.configured && v.enabled
  }

  ghost predicate SomeEnabled(views: set<InitView>)
  {
    exists v :: v in views && Counted(v)
  }

  ghost predicate AllEnabledInit(views: set<InitView>)
  {
    forall v | v in views && Counted(v) :: v.initOk
  }

  /** The verdict on a set of providers: no order is given, so none can matter. */
  ghost function Verdict(views: set<InitView>, optOut: bool, noOidc: bool): BootState
  {
    if !SomeConfigured(views) then
      if optOut || noOidc then ConfirmedOptOut else NoEnvNoFlag
    else if !SomeEnabled(views) then
      if optOut then ConfirmedOptOut else InitFailed
    else if AllEnabledInit(views) then ConfirmedOk
    else InitFailed
  }

  function EnabledIds(providers: seq<InitView>): seq<string>
  {
    if providers == [] then []
    else
      var v := providers[|providers| - 1];
      EnabledIds(providers[..|providers| - 1]) + (if Counted(v) then [v.id] else [])
  }

  /** The counting loop. Enabled lists the ids in the order given: it is not sorted. */
  method DetermineBootState(providers: seq<InitView>, optOut: bool, noOidc: bool) returns (r: BootResult)
    ensures r.state == Verdict((set v | v in providers), optOut, noOidc)
    ensures r.enabled == EnabledIds(providers)
  {
    ghost var views := set v | v in providers;
    var enabled: seq<string> := [];
    var initOkCount, candidateCount := 0, 0;
    for i := 0 to |providers|
      invariant enabled == EnabledIds(providers[..i])
      invariant candidateCount >= 0 && (candidateCount == 0 <==> forall k | 0 <= k < i :: !providers[k].configured)
      invariant |enabled| == 0 <==> forall k | 0 <= k < i :: !Counted(providers[k])
      invariant initOkCount <= |enabled|
      invariant initOkCount == |enabled| <==> forall k | 0 <= k < i && Counted(providers[k]) :: providers[k].initOk
    {
      assert providers[..i + 1][..i] == providers[..i];
      var p := providers[i];
      if !p.configured {
        continue;
      }
      candidateCount := candidateCount + 1;
      if !p.enabled {
        continue;
      }
      enabled := enabled + [p.id];
      if p.initOk {
        initOkCount := initOkCount + 1;
      }
    }
    assert providers[..|providers|] == providers;
    assert forall k | 0 <= k < |providers| :: providers[k] in views;
    if candidateCount == 0 {
      if optOut || noOidc {
        return BootResult(ConfirmedOptOut, enabled);
      }
      return BootResult(NoEnvNoFlag, enabled);
    }
    if |enabled| == 0 {
      if optOut {
        return BootResult(ConfirmedOptOut, enabled);
      }
      return BootResult(InitFailed, enabled);
    }
    if |enabled| - initOkCount > 0 {
      return BootResult(InitFailed, enabled);
    }
    return BootResult(ConfirmedOk, enabled);
  }

  // ----- state -----

  /** SHA-256 in hex is never empty, nor is a generated token. */
  type Digest = s: string | s != "" witness "0"
  type Token = s: string | s != "" witness "0"

  /** What a process keeps from boot on: the registry merged once, the environment's opt-out,
      the digest of a setup token and strings.ToLower. */
  datatype Env = Env(registry: Registry, noOidc: bool, hash: string -> Digest, lower: string -> string)

  /** The oidc_config row. */
  datatype Singleton = Singleton(optOut: bool, tokenHash: Option<string>)

  /** states holds the OAuth registry: provider id to whether its initialization succeeded. */
  datatype State = State(config: Singleton, rows: Rows, states: map<string, bool>,
                         cachedConfig: Singleton, cachedBoot: BootState, plain: string)

  // ----- caches and registry -----

  predicate EnabledAt(env: Env, rows: Rows, id: string)
  {
    MergedEnabled(MergeId(env.registry, rows, id))
  }

  predicate Available(states: map<string, bool>, id: string)
  {
    id in states && states[id]
  }

  function ViewOf(env: Env, rows: Rows, states: map<string, bool>, id: string): InitView
  {
    InitView(id, true, EnabledAt(env, rows, id), Available(states, id))
  }

  function Views(env: Env, rows: Rows, states: map<string, bool>): set<InitView>
  {
    set id | id in env.registry :: ViewOf(env, rows, states, id)
  }

  ghost function FreshVerdict(env: Env, s: State): BootState
  {
    Verdict(Views(env, s.rows, s.states), s.config.optOut, env.noOidc)
  }

  ghost function Refresh(env: Env, s: State): State
  {
    s.(cachedConfig := s.config, cachedBoot := FreshVerdict(env, s))
  }

  function MergedNow(env: Env, rows: Rows): Registry
  {
    RegistryOf(Merge(env.registry, rows))
  }

  /** okIds are the providers whose discovery succeeds this time. */
  function Rebuild(env: Env, s: State, okIds: set<string>): State
  {
    s.(states := map id | id in MergedNow(env, s.rows) :: id in okIds)
  }

  ghost function RebuildAndRefresh(env: Env, s: State, okIds: set<string>): State
  {
    Refresh(env, Rebuild(env, s, okIds))
  }

  // ----- authorization -----

  /** The admin check's answer. */
  datatype Admin = IsAdmin | NotAdmin | Fault

  /** A caller: the admin check's answer for it and its X-Setup-Token header. */
  datatype Caller = Caller(admin: Admin, header: string)

  datatype Access = Granted | Denied | Faulted

  datatype Outcome = Done | BadRequest | Unauthorized | AlreadyExists | Internal

  predicate VerifySetupToken(env: Env, plain: string, storedHash: string)
  {
    storedHash != "" && env.hash(plain) == storedHash
  }

  predicate TokenAuthorizes(env: Env, s: State, token: string)
  {
    && token != ""
    && s.cachedConfig.tokenHash.Some?
    && VerifySetupToken(env, token, s.cachedConfig.tokenHash.value)
  }

  function Authorize(env: Env, s: State, c: Caller, submitted: string): Access
  {
    match c.admin
    case Fault => Faulted
    case IsAdmin => Granted
    case NotAdmin => if TokenAuthorizes(env, s, if submitted == "" then c.header else submitted) then Granted else Denied
  }

  function Refusal(a: Access): Outcome
  {
    if a.Faulted? then Internal else Unauthorized
  }

  // ----- confirm -----

  datatype ConfirmRequest = ConfirmRequest(setupToken: string, enabled: seq<string>, optOut: bool)

  /** Whether clearing the token hash, and the refresh after it, succeed: both failures are only logged. */
  datatype Clear = Clear(cleared: bool, refreshed: bool)

  predicate Requested(env: Env, enabled: seq<string>, id: string)
  {
    exists x :: x in enabled && env.lower(GoTrim(x)) == id
  }

  /** Complete over the registry: an id that is not requested is there with false. */
  function NormalizeEnabledSet(env: Env, enabled: seq<string>): map<string, bool>
  {
    map id | id in env.registry :: Requested(env, enabled, id)
  }

  /** SetOIDCProviderEnabled: an upsert that leaves every other column alone. */
  function SetEnabled(row: Option<Row>, enabled: bool): Row
  {
    RowOrEmpty(row).(enabled := enabled)
  }

  function SetAllEnabled(rows: Rows, wanted: map<string, bool>): Rows
  {
    rows + map id | id in wanted :: SetEnabled(Find(rows, id), wanted[id])
  }

  ghost function ClearToken(env: Env, s: State, clear: Clear): State
  {
    var forgotten := s.(config := if clear.cleared then s.config.(tokenHash := None) else s.config, plain := "");
    if clear.refreshed then Refresh(env, forgotten) else forgotten
  }

  /** The selection saved and the registry reloaded, before the token is looked at. */
  ghost function Reloaded(env: Env, s: State, req: ConfirmRequest, okIds: set<string>): State
  {
    var wanted := NormalizeEnabledSet(env, req.enabled);
    RebuildAndRefresh(env, s.(rows := SetAllEnabled(s.rows, wanted),
                              config := s.config.(optOut := req.optOut || |wanted| == 0)), okIds)
  }

  ghost function Confirm(env: Env, s: State, c: Caller, req: ConfirmRequest, okIds: set<string>, clear: Clear): (State, Outcome)
  {
    var access := Authorize(env, s, c, req.setupToken);
    if !access.Granted? then (s, Refusal(access))
    else
      var t := Reloaded(env, s, req, okIds);
      (if Confirmed(t.cachedBoot) then ClearToken(env, t, clear) else t, Done)
  }

  // ----- provider rows -----

  predicate ValidId(id: string)
  {
    && 2 <= |id| <= 32
    && 'a' <= id[0] <= 'z'
    && (forall i | 0 < i < |id| :: 'a' <= id[i] <= 'z' || '0' <= id[i] <= '9' || id[i] == '-')
    && id[|id| - 1] != '-'
  }

  function StringField(body: Obj, key: string): string
  {
    if key in body && body[key].JStr? then body[key].s else ""
  }

  function UpsertRow(rows: Rows, id: string, body: Obj): Rows
  {
    rows[id := Upsert(Find(rows, id), body)]
  }

  /** Reloading over changed rows. */
  ghost function Rewritten(env: Env, s: State, rows: Rows, okIds: set<string>): State
  {
    RebuildAndRefresh(env, s.(rows := rows), okIds)
  }

  /** Refusals in the handlers' order: authorization, the id's form, for a POST an existing row. */
  function Guarded(s: State, access: Access, validId: bool, taken: bool, written: State): (State, Outcome)
  {
    if !access.Granted? then (s, Refusal(access))
    else if !validId then (s, BadRequest)
    else if taken then (s, AlreadyExists)
    else (written, Done)
  }

  ghost function Put(env: Env, s: State, c: Caller, urlId: string, body: Obj, okIds: set<string>): (State, Outcome)
  {
    var id := env.lower(urlId);
    Guarded(s, Authorize(env, s, c, StringField(body, "setup_token")), ValidId(id), false,
            Rewritten(env, s, UpsertRow(s.rows, id, body), okIds))
  }

  ghost function Post(env: Env, s: State, c: Caller, body: Obj, okIds: set<string>): (State, Outcome)
  {
    var id := GoTrim(StringField(body, "id"));
    Guarded(s, Authorize(env, s, c, StringField(body, "setup_token")), ValidId(id), id in s.rows,
            Rewritten(env, s, UpsertRow(s.rows, id, body), okIds))
  }

  ghost function Revert(env: Env, s: State, c: Caller, urlId: string, okIds: set<string>): (State, Outcome)
  {
    var id := env.lower(urlId);
    Guarded(s, Authorize(env, s, c, ""), ValidId(id), false, Rewritten(env, s, s.rows - {id}, okIds))
  }

  // ----- setup token -----

  /** What the loopback endpoint hands out. */
  function SetupToken(s: State, loopback: bool): Option<string>
  {
    if !loopback || Confirmed(s.cachedBoot) || s.plain == "" then None else Some(s.plain)
  }

  ghost function EnsureSetupToken(env: Env, s: State, token: Token): (State, string)
  {
    if Confirmed(s.cachedBoot) then
      (if s.cachedConfig.tokenHash.Some? then Refresh(env, s.(config := s.config.(tokenHash := None))) else s, "")
    else if s.cachedConfig.tokenHash.Some? && s.plain != "" then (s, "")
    else (Refresh(env, s.(config := s.config.(tokenHash := Some(env.hash(token))), plain := token)), token)
  }

  // ----- boot and runs -----

  /** A process start: rows and config are what the database holds, raw is the environment's
      registry; okFirst and okReplay say whose discovery succeeds in the two rounds. */
  ghost function Boot(raw: Registry, noOidc: bool, hash: string -> Digest, lower: string -> string, config: Singleton, rows: Rows,
                      okFirst: set<string>, okReplay: set<string>, token: Token): (Env, State)
  {
    var env := Env(RegistryOf(Merge(raw, rows)), noOidc, hash, lower);
    var initial := State(config, rows, map id | id in env.registry :: id in okFirst, Singleton(false, None), Unset, "");
    (env, EnsureSetupToken(env, RebuildAndRefresh(env, Refresh(env, initial), okReplay), token).0)
  }

  datatype Step =
    | ConfirmStep(c: Caller, req: ConfirmRequest, okIds: set<string>, clear: Clear)
    | PutStep(c: Caller, id: string, body: Obj, okIds: set<string>)
    | PostStep(c: Caller, body: Obj, okIds: set<string>)
    | RevertStep(c: Caller, id: string, okIds: set<string>)

  predicate ErrorFree(step: Step)
  {
    step.ConfirmStep? ==> step.clear == Clear(true, true)
  }

  ghost function Apply(env: Env, s: State, step: Step): (State, Outcome)
  {
    match step
    case ConfirmStep(c, req, okIds, clear) => Confirm(env, s, c, req, okIds, clear)
    case PutStep(c, id, body, okIds) => Put(env, s, c, id, body, okIds)
    case PostStep(c, body, okIds) => Post(env, s, c, body, okIds)
    case RevertStep(c, id, okIds) => Revert(env, s, c, id, okIds)
  }

  ghost function Run(env: Env, s: State, steps: seq<Step>): State
    decreases |steps|
  {
    if steps == [] then s else Run(env, Apply(env, s, steps[0]).0, steps[1..])
  }

  // ----- the OAuth registry's own verdict -----

  datatype OverallStatus = StatusOk | StatusEmptyNoConsent | StatusNoEnvNoFlag | StatusInitFailed

  ghost function Status(states: map<string, bool>, noOidc: bool): OverallStatus
  {
    if states == map[] then
      if noOidc then StatusEmptyNoConsent else StatusNoEnvNoFlag
    else if exists id :: Available(states, id) then StatusOk
    else StatusInitFailed
  }
}
