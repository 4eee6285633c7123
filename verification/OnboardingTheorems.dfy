/** What the onboarding state machine keeps over every run, and what a confirmation means. */
module OnboardingTheorems {
  import opened Text
  import opened JsonValues
  import opened Providers
  import opened ProviderAdmin
  import opened Onboarding

  // ----- agreement of caches, registry and token -----

  /** Every registry entry can be initialized, as MergedRegistry leaves it. */
  predicate Complete(env: Env)
  {
    forall id | id in env.registry ::
      env.registry[id].clientId != "" && env.registry[id].issuerUrl != "" && env.registry[id].claimStyle != ""
  }

  /** The caches equal a fresh reading, and OAuth holds exactly the merged registry's ids. */
  ghost predicate Coherent(env: Env, s: State)
  {
    && s.cachedConfig == s.config
    && s.cachedBoot == FreshVerdict(env, s)
    && s.states.Keys == MergedNow(env, s.rows).Keys
  }

  /** A plaintext is held exactly when a hash is stored, and the hash is that plaintext's. */
  predicate TokenMatches(env: Env, s: State)
  {
    && (s.plain != "" <==> s.config.tokenHash.Some?)
    && (s.plain != "" ==> s.config.tokenHash == Some(env.hash(s.plain)))
  }

  lemma RebuildCoherent(env: Env, s: State, okIds: set<string>)
    ensures Coherent(env, RebuildAndRefresh(env, s, okIds))
  {
  }

  /** After boot everything agrees, whatever the environment, the database and the discoveries were. */
  lemma BootAgrees(raw: Registry, noOidc: bool, hash: string -> Digest, lower: string -> string, config: Singleton, rows: Rows,
                   okFirst: set<string>, okReplay: set<string>, token: Token)
    ensures var (env, s) := Boot(raw, noOidc, hash, lower, config, rows, okFirst, okReplay, token);
      Complete(env) && Coherent(env, s) && TokenMatches(env, s) && (s.plain != "" <==> !Confirmed(s.cachedBoot))
  {
    var env := Boot(raw, noOidc, hash, lower, config, rows, okFirst, okReplay, token).0;
    var initial := State(config, rows, map id | id in env.registry :: id in okFirst, Singleton(false, None), Unset, "");
    RebuildCoherent(env, Refresh(env, initial), okReplay);
    EnsureAgrees(env, RebuildAndRefresh(env, Refresh(env, initial), okReplay), token);
    assert Complete(env);
  }

  lemma EnsureAgrees(env: Env, s: State, token: Token)
    requires Coherent(env, s) && s.plain == ""
    ensures var t := EnsureSetupToken(env, s, token).0;
      Coherent(env, t) && TokenMatches(env, t) && (t.plain != "" <==> !Confirmed(t.cachedBoot))
  {
    hide Verdict, Views, MergedNow;
    VerdictIgnoresToken(env, s, None, "");
    VerdictIgnoresToken(env, s, Some(env.hash(token)), token);
  }

  /** The verdict and the registry do not look at the token. */
  lemma VerdictIgnoresToken(env: Env, s: State, tokenHash: Option<string>, plain: string)
    requires Coherent(env, s)
    ensures var t := Refresh(env, s.(config := s.config.(tokenHash := tokenHash), plain := plain));
      Coherent(env, t) && t.cachedBoot == s.cachedBoot
  {
  }

  /** The rows and the flag a confirmation saves. */
  lemma ReloadedSaves(env: Env, s: State, req: ConfirmRequest, okIds: set<string>)
    ensures var t := Reloaded(env, s, req, okIds); var wanted := NormalizeEnabledSet(env, req.enabled);
      && t.rows == SetAllEnabled(s.rows, wanted) && t.config.optOut == (req.optOut || |wanted| == 0)
      && t.states == map id | id in MergedNow(env, t.rows) :: id in okIds
  {
    hide Verdict, Views, SetAllEnabled, NormalizeEnabledSet;
  }

  lemma ReloadedCoherent(env: Env, s: State, req: ConfirmRequest, okIds: set<string>)
    ensures Coherent(env, Reloaded(env, s, req, okIds))
  {
    RebuildCoherent(env, s.(rows := SetAllEnabled(s.rows, NormalizeEnabledSet(env, req.enabled)),
      config := s.config.(optOut := req.optOut || |NormalizeEnabledSet(env, req.enabled)| == 0)), okIds);
  }

  lemma ConfirmIs(env: Env, s: State, c: Caller, req: ConfirmRequest, okIds: set<string>, clear: Clear)
    requires Confirm(env, s, c, req, okIds, clear).1.Done?
    ensures var t := Reloaded(env, s, req, okIds);
      Confirm(env, s, c, req, okIds, clear).0 == if Confirmed(t.cachedBoot) then ClearToken(env, t, clear) else t
  {
  }

  lemma GuardedIs(s: State, access: Access, validId: bool, taken: bool, written: State)
    ensures var (t, o) := Guarded(s, access, validId, taken, written);
      (t == s || t == written) && (t != s || o == Done ==> access.Granted?)
  {
  }

  /** A provider write leaves the state, or reloads it over changed rows. */
  lemma WriteIs(env: Env, s: State, step: Step) returns (rows: Rows)
    requires !step.ConfirmStep?
    ensures var t := Apply(env, s, step).0; t == s || t == Rewritten(env, s, rows, step.okIds)
    ensures var t := Apply(env, s, step).0;
      t.config == s.config && t.plain == s.plain && (t.cachedConfig == s.cachedConfig || t.cachedConfig == s.config)
  {
    match step
    case PutStep(c, urlId, body, okIds) =>
      var id := env.lower(urlId);
      rows := UpsertRow(s.rows, id, body);
      GuardedIs(s, Authorize(env, s, c, StringField(body, "setup_token")), ValidId(id), false, Rewritten(env, s, rows, okIds));
    case PostStep(c, body, okIds) =>
      var id := GoTrim(StringField(body, "id"));
      rows := UpsertRow(s.rows, id, body);
      GuardedIs(s, Authorize(env, s, c, StringField(body, "setup_token")), ValidId(id), id in s.rows, Rewritten(env, s, rows, okIds));
    case RevertStep(c, urlId, okIds) =>
      rows := s.rows - {env.lower(urlId)};
  }

  lemma ConfirmAgrees(env: Env, s: State, c: Caller, req: ConfirmRequest, okIds: set<string>)
    requires Coherent(env, s) && TokenMatches(env, s)
    ensures var t := Confirm(env, s, c, req, okIds, Clear(true, true)).0; Coherent(env, t) && TokenMatches(env, t)
  {
    if Confirm(env, s, c, req, okIds, Clear(true, true)).1.Done? {
      ConfirmIs(env, s, c, req, okIds, Clear(true, true));
      ReloadedCoherent(env, s, req, okIds);
      VerdictIgnoresToken(env, Reloaded(env, s, req, okIds), None, "");
    }
  }

  lemma StepAgrees(env: Env, s: State, step: Step)
    requires ErrorFree(step) && Coherent(env, s) && TokenMatches(env, s)
    ensures Coherent(env, Apply(env, s, step).0) && TokenMatches(env, Apply(env, s, step).0)
  {
    if step.ConfirmStep? {
      ConfirmAgrees(env, s, step.c, step.req, step.okIds);
    } else {
      var rows := WriteIs(env, s, step);
      RebuildCoherent(env, s.(rows := rows), step.okIds);
    }
  }

  /** Agreement holds after every error-free run of confirmations and provider writes. */
  lemma {:induction false} RunAgrees(env: Env, s: State, steps: seq<Step>)
    requires (forall step | step in steps :: ErrorFree(step)) && Coherent(env, s) && TokenMatches(env, s)
    ensures Coherent(env, Run(env, s, steps)) && TokenMatches(env, Run(env, s, steps))
    decreases |steps|
  {
    if steps != [] {
      assert steps[0] in steps && forall step | step in steps[1..] :: step in steps;
      StepAgrees(env, s, steps[0]);
      RunAgrees(env, Apply(env, s, steps[0]).0, steps[1..]);
    }
  }

  // ----- what the verdict means -----

  lemma ViewsSay(env: Env, rows: Rows, states: map<string, bool>)
    ensures var views := Views(env, rows, states);
      && (SomeConfigured(views) <==> env.registry != map[])
      && (SomeEnabled(views) <==> exists id :: id in env.registry && EnabledAt(env, rows, id))
      && (AllEnabledInit(views) <==> forall id | id in env.registry && EnabledAt(env, rows, id) :: Available(states, id))
  {
    var views := Views(env, rows, states);
    forall id | id in env.registry ensures ViewOf(env, rows, states, id) in views {
    }
    if id :| id in env.registry {
      assert ViewOf(env, rows, states, id).configured;
    }
    if id :| id in env.registry && EnabledAt(env, rows, id) {
      assert Counted(ViewOf(env, rows, states, id));
    }
    if AllEnabledInit(views) {
      forall id | id in env.registry && EnabledAt(env, rows, id) ensures Available(states, id) {
        assert Counted(ViewOf(env, rows, states, id));
      }
    }
  }

  /** confirmed_ok holds exactly when some registry provider is enabled and every enabled one is
      available, and then the OAuth status is ok; providers known only to the database do not count. */
  lemma ConfirmedOkMeans(env: Env, s: State)
    requires Coherent(env, s)
    ensures s.cachedBoot.ConfirmedOk? <==>
      && (exists id :: id in env.registry && EnabledAt(env, s.rows, id))
      && forall id | id in env.registry && EnabledAt(env, s.rows, id) :: Available(s.states, id)
    ensures s.cachedBoot.ConfirmedOk? ==> Status(s.states, env.noOidc) == StatusOk
  {
    ViewsSay(env, s.rows, s.states);
    if s.cachedBoot.ConfirmedOk? {
      var id :| id in env.registry && EnabledAt(env, s.rows, id);
      assert Available(s.states, id);
    }
  }

  /** A complete environment entry stays complete under every row. */
  lemma CompleteStays(id: string, e: Provider, row: Option<Row>, defaults: Option<Defaults>)
    requires e.clientId != "" && e.issuerUrl != "" && e.claimStyle != ""
    ensures var p := MergeFields(id, Some(e), row, defaults).effective; p.clientId != "" && p.issuerUrl != "" && p.claimStyle != ""
  {
    EffectiveIs(id, Some(e), row, defaults);
  }

  /** A complete registry entry is usable under every row that enables it. */
  lemma EnabledIsUsable(env: Env, rows: Rows, id: string)
    requires Complete(env) && id in env.registry
    ensures id in MergedNow(env, rows) <==> EnabledAt(env, rows, id)
  {
    CompleteStays(id, env.registry[id], Find(rows, id), WellKnown(id));
  }

  /** The verdict at boot: the registry was merged with the rows already, so all of it is enabled. */
  lemma BootVerdict(raw: Registry, noOidc: bool, hash: string -> Digest, lower: string -> string, config: Singleton, rows: Rows,
                    okFirst: set<string>, okReplay: set<string>, token: Token)
    ensures var (env, s) := Boot(raw, noOidc, hash, lower, config, rows, okFirst, okReplay, token);
      && s.states.Keys == env.registry.Keys
      && s.cachedBoot == if env.registry == map[] then (if config.optOut || noOidc then ConfirmedOptOut else NoEnvNoFlag)
                         else if env.registry.Keys <= okReplay then ConfirmedOk else InitFailed
  {
    var (env, s) := Boot(raw, noOidc, hash, lower, config, rows, okFirst, okReplay, token);
    BootAgrees(raw, noOidc, hash, lower, config, rows, okFirst, okReplay, token);
    BootLoads(raw, noOidc, hash, lower, config, rows, okFirst, okReplay, token);
    MergeTwice(raw, rows);
    AllEnabledVerdict(env, s, okReplay);
  }

  lemma BootLoads(raw: Registry, noOidc: bool, hash: string -> Digest, lower: string -> string, config: Singleton, rows: Rows,
                  okFirst: set<string>, okReplay: set<string>, token: Token)
    ensures var (env, s) := Boot(raw, noOidc, hash, lower, config, rows, okFirst, okReplay, token);
      && env.registry == RegistryOf(Merge(raw, rows)) && env.noOidc == noOidc
      && s.rows == rows && s.config.optOut == config.optOut
      && s.states == map id | id in MergedNow(env, rows) :: id in okReplay
  {
    var env := Boot(raw, noOidc, hash, lower, config, rows, okFirst, okReplay, token).0;
    var initial := State(config, rows, map id | id in env.registry :: id in okFirst, Singleton(false, None), Unset, "");
    EnsureKeeps(env, RebuildAndRefresh(env, Refresh(env, initial), okReplay), token);
  }

  lemma EnsureKeeps(env: Env, s: State, token: Token)
    ensures var t := EnsureSetupToken(env, s, token).0;
      t.rows == s.rows && t.config.optOut == s.config.optOut && t.states == s.states
  {
  }

  /** The verdict when the registry is what merging it again gives. */
  lemma AllEnabledVerdict(env: Env, s: State, okIds: set<string>)
    requires Complete(env) && Coherent(env, s) && MergedNow(env, s.rows) == env.registry
    requires s.states == map id | id in env.registry :: id in okIds
    ensures s.cachedBoot == if env.registry == map[] then (if s.config.optOut || env.noOidc then ConfirmedOptOut else NoEnvNoFlag)
                            else if env.registry.Keys <= okIds then ConfirmedOk else InitFailed
  {
    ViewsSay(env, s.rows, s.states);
    forall id | id in env.registry ensures EnabledAt(env, s.rows, id) {
      EnabledIsUsable(env, s.rows, id);
    }
    if env.registry != map[] {
      var id :| id in env.registry;
      assert EnabledAt(env, s.rows, id);
    }
  }

  // ----- confirm -----

  lemma SetAllEnabledAt(env: Env, rows: Rows, enabled: seq<string>, id: string)
    ensures var t := SetAllEnabled(rows, NormalizeEnabledSet(env, enabled));
      Find(t, id) == if id in env.registry then Some(SetEnabled(Find(rows, id), Requested(env, enabled, id))) else Find(rows, id)
  {
  }

  lemma EnableKeepsEffective(id: string, env: Option<Provider>, row: Option<Row>, defaults: Option<Defaults>, enabled: bool)
    ensures MergeFields(id, env, Some(SetEnabled(row, enabled)), defaults).effective == MergeFields(id, env, row, defaults).effective
  {
  }

  /** A successful Confirm changes no effective field of any provider, enables exactly the
      requested registry ids up to case and surrounding space, and leaves every other row alone. */
  lemma ConfirmExact(env: Env, s: State, c: Caller, req: ConfirmRequest, okIds: set<string>, clear: Clear, id: string)
    requires Confirm(env, s, c, req, okIds, clear).1.Done?
    ensures var t := Confirm(env, s, c, req, okIds, clear).0;
      && MergeId(env.registry, t.rows, id).effective == MergeId(env.registry, s.rows, id).effective
      && (id in env.registry ==> (EnabledAt(env, t.rows, id) <==> exists x :: x in req.enabled && env.lower(GoTrim(x)) == id))
      && (id !in env.registry ==> Find(t.rows, id) == Find(s.rows, id))
  {
    hide Confirm, Reloaded, Verdict, Views, SetAllEnabled, TitleCase, IsMultiTenantIssuer;
    ConfirmIs(env, s, c, req, okIds, clear);
    ReloadedSaves(env, s, req, okIds);
    SetAllEnabledAt(env, s.rows, req.enabled, id);
    EnableKeepsEffective(id, Find(env.registry, id), Find(s.rows, id), WellKnown(id), Requested(env, req.enabled, id));
  }

  ghost predicate RequestsSome(env: Env, enabled: seq<string>)
  {
    exists id :: id in env.registry && Requested(env, enabled, id)
  }

  /** What the confirmed rows and registry say about one provider. */
  lemma ReloadedAt(env: Env, s: State, req: ConfirmRequest, okIds: set<string>, id: string)
    requires Complete(env) && id in env.registry
    ensures var t := Reloaded(env, s, req, okIds);
      && (EnabledAt(env, t.rows, id) <==> Requested(env, req.enabled, id))
      && (EnabledAt(env, t.rows, id) ==> (Available(t.states, id) <==> id in okIds))
  {
    hide Reloaded, SetAllEnabled, MergedNow;
    var t := Reloaded(env, s, req, okIds);
    ReloadedSaves(env, s, req, okIds);
    SetAllEnabledAt(env, s.rows, req.enabled, id);
    EnabledIsUsable(env, t.rows, id);
  }

  lemma OptOutSaved(env: Env, s: State, req: ConfirmRequest, okIds: set<string>)
    ensures Reloaded(env, s, req, okIds).config.optOut <==> req.optOut || env.registry == map[]
  {
    var wanted := NormalizeEnabledSet(env, req.enabled);
    assert wanted.Keys == env.registry.Keys;
    if env.registry != map[] {
      var id :| id in env.registry;
      assert id in wanted;
    }
  }

  /** The verdict on the state just reloaded. */
  lemma ReloadedVerdict(env: Env, s: State, req: ConfirmRequest, okIds: set<string>)
    requires Complete(env)
    ensures Reloaded(env, s, req, okIds).cachedBoot == SelectionVerdict(env, req, okIds)
  {
    hide Reloaded, ViewOf, Find;
    var t := Reloaded(env, s, req, okIds);
    OptOutSaved(env, s, req, okIds);
    ReloadedCoherent(env, s, req, okIds);
    ViewsSay(env, t.rows, t.states);
    forall id | id in env.registry
      ensures EnabledAt(env, t.rows, id) <==> Requested(env, req.enabled, id)
      ensures EnabledAt(env, t.rows, id) ==> (Available(t.states, id) <==> id in okIds)
    {
      ReloadedAt(env, s, req, okIds, id);
    }
    if RequestsSome(env, req.enabled) {
      var id :| id in env.registry && Requested(env, req.enabled, id);
      assert EnabledAt(env, t.rows, id);
    }
  }

  ghost function SelectionVerdict(env: Env, req: ConfirmRequest, okIds: set<string>): BootState
  {
    if env.registry == map[] then ConfirmedOptOut
    else if !RequestsSome(env, req.enabled) then (if req.optOut then ConfirmedOptOut else InitFailed)
    else if forall id | id in env.registry && Requested(env, req.enabled, id) :: id in okIds then ConfirmedOk
    else InitFailed
  }

  /** The state a confirmation ends in, from the request alone. With providers in the registry and
      none requested it opts out only if the request says so: an empty list alone leaves init_failed. */
  lemma ConfirmVerdict(env: Env, s: State, c: Caller, req: ConfirmRequest, okIds: set<string>, clear: Clear)
    requires Complete(env) && Confirm(env, s, c, req, okIds, clear).1.Done?
    ensures Confirm(env, s, c, req, okIds, clear).0.cachedBoot == SelectionVerdict(env, req, okIds)
  {
    var t := Reloaded(env, s, req, okIds);
    ReloadedVerdict(env, s, req, okIds);
    ConfirmIs(env, s, c, req, okIds, clear);
    ReloadedCoherent(env, s, req, okIds);
    VerdictIgnoresToken(env, t, if clear.cleared then None else t.config.tokenHash, "");
  }

  /** An empty provider list over a non-empty registry does not opt out. */
  lemma EmptyListDoesNotOptOut(env: Env, s: State, c: Caller, token: string, okIds: set<string>, clear: Clear)
    requires Complete(env) && env.registry != map[] && Authorize(env, s, c, token).Granted?
    ensures Confirm(env, s, c, ConfirmRequest(token, [], false), okIds, clear).0.cachedBoot == InitFailed
  {
    ConfirmVerdict(env, s, c, ConfirmRequest(token, [], false), okIds, clear);
  }

  // ----- the setup token -----

  predicate NoTokenLeft(s: State)
  {
    s.config.tokenHash.None? && s.cachedConfig.tokenHash.None?
  }

  /** The loopback endpoint answers exactly while the state is unconfirmed and a hash is stored,
      and every token it hands out is accepted by every endpoint that asks for one. */
  lemma HandedOutIsAccepted(env: Env, s: State, loopback: bool, c: Caller)
    requires Coherent(env, s) && TokenMatches(env, s)
    ensures SetupToken(s, loopback).Some? <==> loopback && !Confirmed(s.cachedBoot) && s.config.tokenHash.Some?
    ensures SetupToken(s, loopback).Some? && !c.admin.Fault? ==> Authorize(env, s, c, SetupToken(s, loopback).value).Granted?
    ensures SetupToken(s, loopback).Some? ==> Authorize(env, s, Caller(NotAdmin, SetupToken(s, loopback).value), "").Granted?
  {
  }

  /** A Confirm that ends confirmed leaves no token that authorizes anything exactly when there
      was none, or both the clearing and the refresh after it succeed. */
  lemma ConfirmSpendsToken(env: Env, s: State, c: Caller, req: ConfirmRequest, okIds: set<string>, clear: Clear)
    requires TokenMatches(env, s)
    requires Confirm(env, s, c, req, okIds, clear).1.Done? && Confirmed(Confirm(env, s, c, req, okIds, clear).0.cachedBoot)
    ensures var t := Confirm(env, s, c, req, okIds, clear).0;
      && t.plain == ""
      && ((forall token :: !TokenAuthorizes(env, t, token)) <==> s.config.tokenHash.None? || clear == Clear(true, true))
      && (clear == Clear(true, true) ==> NoTokenLeft(t))
  {
    var r := Reloaded(env, s, req, okIds);
    var t := Confirm(env, s, c, req, okIds, clear).0;
    ConfirmIs(env, s, c, req, okIds, clear);
    ReloadedCoherent(env, s, req, okIds);
    VerdictIgnoresToken(env, r, if clear.cleared then None else r.config.tokenHash, "");
    assert r.cachedConfig.tokenHash == r.config.tokenHash == s.config.tokenHash;
    if s.config.tokenHash.Some? && clear != Clear(true, true) {
      assert TokenAuthorizes(env, t, s.plain);
    }
  }

  lemma ConfirmMintsNoToken(env: Env, s: State, c: Caller, req: ConfirmRequest, okIds: set<string>, clear: Clear)
    requires NoTokenLeft(s)
    ensures NoTokenLeft(Confirm(env, s, c, req, okIds, clear).0)
  {
    hide Verdict, Views, NormalizeEnabledSet, Merge;
    var t := Reloaded(env, s, req, okIds);
    assert NoTokenLeft(t) && NoTokenLeft(ClearToken(env, t, clear));
  }

  lemma StepMintsNoToken(env: Env, s: State, step: Step)
    requires NoTokenLeft(s)
    ensures NoTokenLeft(Apply(env, s, step).0)
  {
    if step.ConfirmStep? {
      ConfirmMintsNoToken(env, s, step.c, step.req, step.okIds, step.clear);
    } else {
      var rows := WriteIs(env, s, step);
    }
  }

  lemma {:induction false} RunMintsNoToken(env: Env, s: State, steps: seq<Step>)
    requires NoTokenLeft(s)
    ensures NoTokenLeft(Run(env, s, steps))
    decreases |steps|
  {
    if steps != [] {
      StepMintsNoToken(env, s, steps[0]);
      RunMintsNoToken(env, Apply(env, s, steps[0]).0, steps[1..]);
    }
  }

  /** From boot, through any error-free run, a Confirm that ends confirmed, and any later run:
      no setup token authorizes anything until the next boot. */
  lemma TokenIsOneShot(raw: Registry, noOidc: bool, hash: string -> Digest, lower: string -> string, config: Singleton, rows: Rows,
                       okFirst: set<string>, okReplay: set<string>, token: Token,
                       before: seq<Step>, confirm: Step, after: seq<Step>, attempt: string)
    requires (forall step | step in before :: ErrorFree(step)) && confirm.ConfirmStep? && ErrorFree(confirm)
    requires var (env, s) := Boot(raw, noOidc, hash, lower, config, rows, okFirst, okReplay, token);
      var (t, o) := Apply(env, Run(env, s, before), confirm); o.Done? && Confirmed(t.cachedBoot)
    ensures var (env, s) := Boot(raw, noOidc, hash, lower, config, rows, okFirst, okReplay, token);
      !TokenAuthorizes(env, Run(env, Apply(env, Run(env, s, before), confirm).0, after), attempt)
  {
    var (env, s) := Boot(raw, noOidc, hash, lower, config, rows, okFirst, okReplay, token);
    BootAgrees(raw, noOidc, hash, lower, config, rows, okFirst, okReplay, token);
    RunAgrees(env, s, before);
    var u := Run(env, s, before);
    ConfirmSpendsToken(env, u, confirm.c, confirm.req, confirm.okIds, confirm.clear);
    RunMintsNoToken(env, Apply(env, u, confirm).0, after);
  }

  /** Every step but Confirm leaves the token, its hash and what it authorizes alone, even a
      provider write that ends confirmed. */
  lemma OnlyConfirmSpends(env: Env, s: State, step: Step, attempt: string)
    requires Coherent(env, s) && !step.ConfirmStep?
    ensures var t := Apply(env, s, step).0;
      && t.plain == s.plain && t.config == s.config
      && (TokenAuthorizes(env, t, attempt) <==> TokenAuthorizes(env, s, attempt))
  {
    var rows := WriteIs(env, s, step);
  }

  /** A provider write can end confirmed: after an opt-out, disabling the registry's one provider
      with the setup token leaves the state confirmed and the token alive, though no longer shown. */
  lemma PutMayConfirmAndKeepToken(env: Env, s: State, id: string, body: Obj)
    requires Coherent(env, s) && TokenMatches(env, s) && s.plain != "" && s.config.optOut
    requires env.registry.Keys == {env.lower(id)} && ValidId(env.lower(id))
    requires StringField(body, "setup_token") == s.plain && BoolField(body, "enabled") == Some(false)
    ensures var (t, o) := Put(env, s, Caller(NotAdmin, ""), id, body, {});
      o.Done? && t.cachedBoot.ConfirmedOptOut? && TokenAuthorizes(env, t, s.plain) && SetupToken(t, true).None?
  {
    var rows := UpsertRow(s.rows, env.lower(id), body);
    RowOfUpsert(s.rows, env.lower(id), body);
    var t := Rewritten(env, s, rows, {});
    var access := Authorize(env, s, Caller(NotAdmin, ""), s.plain);
    assert access.Granted?;
    assert Put(env, s, Caller(NotAdmin, ""), id, body, {}) == Guarded(s, access, true, false, t);
    DisabledVerdict(env, s, rows, env.lower(id));
    assert TokenAuthorizes(env, t, s.plain);
  }

  /** That state is two requests from a boot: a Confirm that enables the one failing provider and opts
      out leaves init_failed with the opt-out saved; the PUT then confirms and the token stays. */
  lemma PutKeepsTokenReachably(raw: Registry, hash: string -> Digest, lower: string -> string, id: string, token: Token, body: Obj)
    requires raw.Keys == {id} && raw[id].clientId != "" && raw[id].issuerUrl != "" && raw[id].claimStyle != ""
    requires ValidId(id) && lower(id) == id && lower(GoTrim(id)) == id
    requires StringField(body, "setup_token") == token && BoolField(body, "enabled") == Some(false)
    ensures var (env, s) := Boot(raw, false, hash, lower, Singleton(false, None), map[], {}, {}, token);
      var t := Apply(env, s, ConfirmStep(Caller(NotAdmin, token), ConfirmRequest("", [id], true), {}, Clear(true, true))).0;
      var (w, o) := Put(env, t, Caller(NotAdmin, ""), id, body, {});
      o.Done? && w.cachedBoot.ConfirmedOptOut? && TokenAuthorizes(env, w, token) && SetupToken(w, true).None?
  {
    var (env, s) := Boot(raw, false, hash, lower, Singleton(false, None), map[], {}, {}, token);
    UnconfirmedBoot(raw, hash, lower, id, token);
    OptOutWhileFailing(env, s, id, token);
    var t := Apply(env, s, ConfirmStep(Caller(NotAdmin, token), ConfirmRequest("", [id], true), {}, Clear(true, true))).0;
    PutMayConfirmAndKeepToken(env, t, id, body);
  }

  lemma UnconfirmedBoot(raw: Registry, hash: string -> Digest, lower: string -> string, id: string, token: Token)
    requires raw.Keys == {id} && raw[id].clientId != "" && raw[id].issuerUrl != "" && raw[id].claimStyle != ""
    ensures var (env, s) := Boot(raw, false, hash, lower, Singleton(false, None), map[], {}, {}, token);
      && env.registry.Keys == {id} && env.lower == lower && Complete(env) && Coherent(env, s) && TokenMatches(env, s)
      && s.plain == token && !Confirmed(s.cachedBoot)
  {
    hide Verdict, Views, TitleCase, IsMultiTenantIssuer;
    var (env, s) := Boot(raw, false, hash, lower, Singleton(false, None), map[], {}, {}, token);
    BootAgrees(raw, false, hash, lower, Singleton(false, None), map[], {}, {}, token);
    BootVerdict(raw, false, hash, lower, Singleton(false, None), map[], {}, {}, token);
    SingleRegistry(raw, id);
    BootLoads(raw, false, hash, lower, Singleton(false, None), map[], {}, {}, token);
    assert id in env.registry.Keys && !(env.registry.Keys <= {});
  }

  lemma SingleRegistry(raw: Registry, id: string)
    requires raw.Keys == {id} && raw[id].clientId != "" && raw[id].issuerUrl != "" && raw[id].claimStyle != ""
    ensures RegistryOf(Merge(raw, map[])).Keys == {id}
  {
    hide TitleCase, IsMultiTenantIssuer;
    CompleteStays(id, raw[id], None, WellKnown(id));
    var none: Rows := map[];
    assert Find(raw, id) == Some(raw[id]) && Find(none, id) == None;
    assert Merge(raw, none).Keys == {id};
  }

  lemma OptOutWhileFailing(env: Env, s: State, id: string, token: Token)
    requires Complete(env) && Coherent(env, s) && TokenMatches(env, s) && s.plain == token
    requires env.registry.Keys == {id} && env.lower(GoTrim(id)) == id
    ensures var (t, o) := Confirm(env, s, Caller(NotAdmin, token), ConfirmRequest("", [id], true), {}, Clear(true, true));
      o.Done? && Coherent(env, t) && TokenMatches(env, t) && t.plain == token && t.config.optOut && t.cachedBoot.InitFailed?
  {
    var c, req := Caller(NotAdmin, token), ConfirmRequest("", [id], true);
    FailingSelection(env, req, id);
    assert TokenAuthorizes(env, s, token);
    UnconfirmedConfirm(env, s, c, req, {}, Clear(true, true));
    ConfirmAgrees(env, s, c, req, {});
  }

  lemma FailingSelection(env: Env, req: ConfirmRequest, id: string)
    requires env.registry.Keys == {id} && env.lower(GoTrim(id)) == id && req.enabled == [id]
    ensures SelectionVerdict(env, req, {}) == InitFailed
  {
    assert id in req.enabled && Requested(env, req.enabled, id);
    assert id in env.registry && env.registry != map[];
  }

  /** A granted confirmation whose selection is not confirmed stops at the reload. */
  lemma UnconfirmedConfirm(env: Env, s: State, c: Caller, req: ConfirmRequest, okIds: set<string>, clear: Clear)
    requires Complete(env) && Authorize(env, s, c, req.setupToken).Granted? && !Confirmed(SelectionVerdict(env, req, okIds))
    ensures var t := Reloaded(env, s, req, okIds);
      && Confirm(env, s, c, req, okIds, clear) == (t, Done)
      && t.cachedBoot == SelectionVerdict(env, req, okIds) && t.plain == s.plain
      && (t.config.optOut <==> req.optOut || env.registry == map[])
  {
    ReloadedVerdict(env, s, req, okIds);
    OptOutSaved(env, s, req, okIds);
  }

  lemma DisabledVerdict(env: Env, s: State, rows: Rows, id: string)
    requires env.registry.Keys == {id} && s.config.optOut && id in rows && !rows[id].enabled
    ensures Rewritten(env, s, rows, {}).cachedBoot.ConfirmedOptOut?
  {
    var t := Rewritten(env, s, rows, {});
    ViewsSay(env, rows, t.states);
    assert id in env.registry && env.registry != map[];
    assert !EnabledAt(env, rows, id);
  }

  lemma RowOfUpsert(rows: Rows, id: string, body: Obj)
    ensures Find(UpsertRow(rows, id, body), id).Some?
    ensures Find(UpsertRow(rows, id, body), id).value.enabled == MergeEnabled(body, RowOrEmpty(Find(rows, id)).enabled)
  {
  }

  /** A request that is not granted changes nothing and says so. */
  lemma OnlyGrantedChange(env: Env, s: State, step: Step)
    ensures var submitted := match step
        case ConfirmStep(_, req, _, _) => req.setupToken
        case PutStep(_, _, body, _) => StringField(body, "setup_token")
        case PostStep(_, body, _) => StringField(body, "setup_token")
        case RevertStep(_, _, _) => "";
      var (t, o) := Apply(env, s, step);
      var token := if submitted == "" then step.c.header else submitted;
      t != s || o == Done ==> step.c.admin.IsAdmin? || (step.c.admin.NotAdmin? && TokenAuthorizes(env, s, token))
  {
  }

  // ----- revert -----

  /** A successful DELETE makes the provider's effective values the ones shown as defaults before,
      relative to the registry merged at boot, enables it, and touches no other provider. */
  lemma RevertIsRowless(env: Env, s: State, c: Caller, urlId: string, okIds: set<string>, other: string)
    requires Revert(env, s, c, urlId, okIds).1.Done? && other != env.lower(urlId)
    ensures var id := env.lower(urlId); var t := Revert(env, s, c, urlId, okIds).0;
      && ShowsDefaults(BuildView(MergeId(env.registry, s.rows, id)), MergeId(env.registry, t.rows, id).effective)
      && EnabledAt(env, t.rows, id)
      && MergeId(env.registry, t.rows, other) == MergeId(env.registry, s.rows, other)
  {
    hide TitleCase, IsMultiTenantIssuer, Verdict;
    var id := env.lower(urlId);
    assert Revert(env, s, c, urlId, okIds).0.rows == s.rows - {id};
    DeletedRow(env, s.rows, id, other);
  }

  lemma DeletedRow(env: Env, rows: Rows, id: string, other: string)
    requires other != id
    ensures ShowsDefaults(BuildView(MergeId(env.registry, rows, id)), MergeId(env.registry, rows - {id}, id).effective)
    ensures EnabledAt(env, rows - {id}, id)
    ensures MergeId(env.registry, rows - {id}, other) == MergeId(env.registry, rows, other)
  {
    hide BuildView, TitleCase, IsMultiTenantIssuer;
    DefaultsAreRowless(id, Find(env.registry, id), Find(rows, id), WellKnown(id));
    assert Find(rows - {id}, id) == None && Find(rows - {id}, other) == Find(rows, other);
  }
}
