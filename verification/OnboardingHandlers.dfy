/** The onboarding handlers as they run: the cached fields, the loops over the registry and the
    database writes, each method proved against the state machine. */
module OnboardingHandlers {
  import opened Text
  import opened JsonValues
  import opened Providers
  import opened ProviderAdmin
  import opened Onboarding

  class Handlers {
    const env: Env
    // the database
    var optOut: bool
    var tokenHash: Option<string>
    var rows: Rows
    // the OAuth registry
    var states: map<string, bool>
    // the handler's memory
    var cachedDb: Singleton
    var cachedBoot: BootResult
    var currentPlain: string

    ghost function State(): Onboarding.State
      reads this
    {
      Onboarding.State(Singleton(optOut, tokenHash), rows, states, cachedDb, cachedBoot.state, currentPlain)
    }

    // ----- reading the layers -----

    /** A table scan, in any order. */
    method ListOIDCProviders() returns (list: seq<(string, Row)>)
      ensures ByIdOf(list) == rows
    {
      list := [];
      var todo := rows.Keys;
      while todo != {}
        invariant todo <= rows.Keys
        invariant ByIdOf(list) == map id | id in rows.Keys - todo :: rows[id]
        decreases todo
      {
        var id :| id in todo;
        todo := todo - {id};
        var longer := list + [(id, rows[id])];
        assert longer[..|longer| - 1] == list;
        list := longer;
      }
    }

    method LoadMerged() returns (merged: map<string, Merged>)
      ensures merged == Merge(env.registry, rows)
    {
      var list := ListOIDCProviders();
      merged := LoadMergedProviders(env.registry, list);
    }

    /** One view for each registry id, in map order. */
    method BuildProviderViews(merged: map<string, Merged>) returns (views: seq<InitView>)
      ensures (set v | v in views) == set id | id in env.registry :: ViewIn(merged, states, id)
    {
      views := [];
      var todo := env.registry.Keys;
      while todo != {}
        invariant todo <= env.registry.Keys
        invariant forall v | v in views :: v.id in env.registry && v == ViewIn(merged, states, v.id)
        invariant forall id | id in env.registry.Keys - todo :: ViewIn(merged, states, id) in views
        decreases todo
      {
        var id :| id in todo;
        todo := todo - {id};
        var enabled := true;
        if id in merged {
          enabled := MergedEnabled(merged[id]);
        }
        var view := InitView(id, true, enabled, id in states && states[id]);
        assert view == ViewIn(merged, states, id);
        views := views + [view];
      }
    }

    method RefreshState()
      modifies this`cachedDb, this`cachedBoot
      ensures State() == Refresh(env, old(State()))
    {
      hide Verdict, ViewOf;
      var row := Singleton(optOut, tokenHash);
      var merged := LoadMerged();
      var views := BuildProviderViews(merged);
      ViewsIn(env, rows, states);
      var result := DetermineBootState(views, row.optOut, env.noOidc);
      cachedDb := row;
      cachedBoot := result;
    }

    // ----- the OAuth registry -----

    method Rebuild(registry: Registry, okIds: set<string>)
      modifies this`states
      ensures states == map id | id in registry :: id in okIds
    {
      var newStates: map<string, bool> := map[];
      var todo := registry.Keys;
      while todo != {}
        invariant todo <= registry.Keys
        invariant newStates == map id | id in registry.Keys - todo :: id in okIds
        decreases todo
      {
        var id :| id in todo;
        todo := todo - {id};
        newStates := newStates[id := id in okIds];
      }
      states := newStates;
    }

    method OverallStatus() returns (status: OverallStatus)
      ensures status == Status(states, env.noOidc)
    {
      if |states| == 0 {
        assert states == map[];
        if env.noOidc {
          return StatusEmptyNoConsent;
        }
        return StatusNoEnvNoFlag;
      }
      var todo := states.Keys;
      while todo != {}
        invariant todo <= states.Keys
        invariant forall id | id in states.Keys - todo :: !states[id]
        decreases todo
      {
        var id :| id in todo;
        todo := todo - {id};
        if states[id] {
          assert Available(states, id);
          return StatusOk;
        }
      }
      return StatusInitFailed;
    }

    /** Shared by the boot replay, Confirm and the provider writes. */
    method RebuildFromLayers(okIds: set<string>)
      modifies this`states, this`cachedDb, this`cachedBoot
      ensures State() == RebuildAndRefresh(env, old(State()), okIds)
    {
      var merged := LoadMerged();
      var registry := MergedRegistry(merged);
      Rebuild(registry, okIds);
      RefreshState();
    }

    // ----- boot -----

    constructor (raw: Registry, noOidc: bool, hash: string -> Digest, lower: string -> string, config: Singleton,
                 dbRows: seq<(string, Row)>, okFirst: set<string>, okReplay: set<string>, token: Token)
      ensures (env, State()) == Boot(raw, noOidc, hash, lower, config, ByIdOf(dbRows), okFirst, okReplay, token)
    {
      var merged := LoadMergedProviders(raw, dbRows);
      var registry := MergedRegistry(merged);
      var stored := IndexRows(dbRows);
      env := Env(registry, noOidc, hash, lower);
      optOut, tokenHash, rows := config.optOut, config.tokenHash, stored;
      states := map[];
      cachedDb, cachedBoot, currentPlain := Singleton(false, None), BootResult(Unset, []), "";
      new;
      Start(okFirst, okReplay, token);
    }

    /** First initialization, initial state load, replay of the database layer, setup token. */
    method Start(okFirst: set<string>, okReplay: set<string>, token: Token)
      modifies this
      ensures var initial := old(State()).(states := map id | id in env.registry :: id in okFirst);
        State() == Onboarding.EnsureSetupToken(env, RebuildAndRefresh(env, Refresh(env, initial), okReplay), token).0
    {
      Rebuild(env.registry, okFirst);
      RefreshState();
      RebuildFromLayers(okReplay);
      var banner := EnsureSetupToken(token);
    }

    // ----- setup token -----

    method EnsureSetupToken(token: Token) returns (banner: string)
      modifies this
      ensures (State(), banner) == Onboarding.EnsureSetupToken(env, old(State()), token)
    {
      var state, hash, plainInMem := cachedBoot.state, cachedDb.tokenHash, currentPlain;
      if Confirmed(state) {
        if hash.Some? {
          tokenHash := None;
          RefreshState();
        }
        return "";
      }
      if hash.Some? && plainInMem != "" {
        return "";
      }
      if hash.Some? {
        tokenHash := None;
      }
      tokenHash := Some(env.hash(token));
      currentPlain := token;
      RefreshState();
      return token;
    }

    method SetupToken(loopback: bool) returns (token: Option<string>)
      ensures token == Onboarding.SetupToken(State(), loopback)
    {
      if !loopback {
        return None;
      }
      if Confirmed(cachedBoot.state) {
        return None;
      }
      if currentPlain == "" {
        return None;
      }
      return Some(currentPlain);
    }

    method AuthorizeConfirm(c: Caller, submitted: string) returns (a: Access)
      ensures a == Authorize(env, State(), c, submitted)
    {
      if c.admin.Fault? {
        return Faulted;
      }
      if c.admin.IsAdmin? {
        return Granted;
      }
      var token := submitted;
      if token == "" {
        token := c.header;
      }
      if token != "" {
        var hash := cachedDb.tokenHash;
        if hash.Some? && VerifySetupToken(env, token, hash.value) {
          return Granted;
        }
      }
      return Denied;
    }

    // ----- confirm -----

    method NormalizeEnabledSet(enabled: seq<string>) returns (out: map<string, bool>)
      ensures out == Onboarding.NormalizeEnabledSet(env, enabled)
    {
      out := map id | id in env.registry :: false;
      for i := 0 to |enabled|
        invariant out.Keys == env.registry.Keys
        invariant forall id | id in env.registry :: out[id] <==> Requested(env, enabled[..i], id)
      {
        var id := env.lower(GoTrim(enabled[i]));
        RequestedOneMore(env, enabled[..i], enabled[i]);
        assert enabled[..i + 1] == enabled[..i] + [enabled[i]];
        if id !in env.registry {
          continue;
        }
        out := out[id := true];
      }
      assert enabled[..|enabled|] == enabled;
    }

    method SaveEnabled(wanted: map<string, bool>)
      requires wanted.Keys == env.registry.Keys
      modifies this`rows
      ensures rows == SetAllEnabled(old(rows), wanted)
    {
      hide SetEnabled;
      var todo := env.registry.Keys;
      while todo != {}
        invariant todo <= env.registry.Keys
        invariant forall id :: Find(rows, id) == Find(if id in todo then old(rows) else SetAllEnabled(old(rows), wanted), id)
        decreases todo
      {
        var id :| id in todo;
        todo := todo - {id};
        rows := rows[id := SetEnabled(Find(rows, id), wanted[id])];
      }
      SameEntries(rows, SetAllEnabled(old(rows), wanted));
    }

    method SaveAndReload(req: ConfirmRequest, okIds: set<string>)
      modifies this
      ensures State() == Reloaded(env, old(State()), req, okIds)
    {
      hide RebuildAndRefresh, SetAllEnabled;
      var wanted := NormalizeEnabledSet(req.enabled);
      SaveEnabled(wanted);
      optOut := req.optOut || |wanted| == 0;
      RebuildFromLayers(okIds);
    }

    method ClearSetupToken(clear: Clear)
      modifies this
      ensures State() == ClearToken(env, old(State()), clear)
    {
      if clear.cleared {
        tokenHash := None;
      }
      currentPlain := "";
      if clear.refreshed {
        RefreshState();
      }
    }

    method Confirm(c: Caller, req: ConfirmRequest, okIds: set<string>, clear: Clear) returns (o: Outcome)
      modifies this
      ensures (State(), o) == Onboarding.Confirm(env, old(State()), c, req, okIds, clear)
    {
      var access := AuthorizeConfirm(c, req.setupToken);
      if !access.Granted? {
        return Refusal(access);
      }
      SaveAndReload(req, okIds);
      if Confirmed(cachedBoot.state) {
        ClearSetupToken(clear);
      }
      return Done;
    }

    // ----- provider rows -----

    method UpsertAndRespond(id: string, body: Obj, okIds: set<string>)
      modifies this
      ensures State() == Rewritten(env, old(State()), UpsertRow(old(rows), id, body), okIds)
    {
      rows := rows[id := Upsert(Find(rows, id), body)];
      RebuildFromLayers(okIds);
    }

    method Update(c: Caller, urlId: string, body: Obj, okIds: set<string>) returns (o: Outcome)
      modifies this
      ensures (State(), o) == Put(env, old(State()), c, urlId, body, okIds)
    {
      var access := AuthorizeConfirm(c, StringField(body, "setup_token"));
      if !access.Granted? {
        return Refusal(access);
      }
      var id := env.lower(urlId);
      if !ValidId(id) {
        return BadRequest;
      }
      UpsertAndRespond(id, body, okIds);
      return Done;
    }

    method Create(c: Caller, body: Obj, okIds: set<string>) returns (o: Outcome)
      modifies this
      ensures (State(), o) == Post(env, old(State()), c, body, okIds)
    {
      var access := AuthorizeConfirm(c, StringField(body, "setup_token"));
      if !access.Granted? {
        return Refusal(access);
      }
      var rawId := GoTrim(StringField(body, "id"));
      if rawId == "" {
        return BadRequest;
      }
      if !ValidId(rawId) {
        return BadRequest;
      }
      if rawId in rows {
        return AlreadyExists;
      }
      UpsertAndRespond(rawId, body, okIds);
      return Done;
    }

    method Revert(c: Caller, urlId: string, okIds: set<string>) returns (o: Outcome)
      modifies this
      ensures (State(), o) == Onboarding.Revert(env, old(State()), c, urlId, okIds)
    {
      var access := AuthorizeConfirm(c, "");
      if !access.Granted? {
        return Refusal(access);
      }
      var id := env.lower(urlId);
      if !ValidId(id) {
        return BadRequest;
      }
      rows := rows - {id};
      RebuildFromLayers(okIds);
      return Done;
    }
  }

  function ViewIn(merged: map<string, Merged>, states: map<string, bool>, id: string): InitView
  {
    InitView(id, true, id in merged ==> MergedEnabled(merged[id]), Available(states, id))
  }

  lemma ViewsIn(env: Env, rows: Rows, states: map<string, bool>)
    ensures (set id | id in env.registry :: ViewIn(Merge(env.registry, rows), states, id)) == Views(env, rows, states)
  {
    var merged := Merge(env.registry, rows);
    forall id | id in env.registry ensures ViewIn(merged, states, id) == ViewOf(env, rows, states, id) {
      assert id in merged;
    }
  }

  lemma RequestedOneMore(env: Env, enabled: seq<string>, x: string)
    ensures forall id :: Requested(env, enabled + [x], id) <==> Requested(env, enabled, id) || env.lower(GoTrim(x)) == id
  {
    forall id ensures Requested(env, enabled + [x], id) <==> Requested(env, enabled, id) || env.lower(GoTrim(x)) == id {
      var more := enabled + [x];
      assert more[|enabled|] == x && x in more;
      if Requested(env, enabled, id) {
        var y :| y in enabled && env.lower(GoTrim(y)) == id;
        assert y in more;
      }
    }
  }
}
