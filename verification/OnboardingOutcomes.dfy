/** What every onboarding request answers and leaves, in every state. */
module OnboardingOutcomes {
  import opened Text
  import opened JsonValues
  import opened Providers
  import opened ProviderAdmin
  import opened Onboarding
  import opened OnboardingTheorems

  // ----- who is let in -----

  /** The cached hash is this token's. */
  ghost predicate Accepts(env: Env, s: State, token: string)
  {
    token != "" && s.cachedConfig.tokenHash == Some(env.hash(token))
  }

  /** The string at a body's key, "" if it is missing or no string. */
  ghost function StringIn(body: Obj, key: string): string
  {
    if key in body && body[key].JStr? then body[key].s else ""
  }

  /** The setup token in a request's body. */
  ghost function InBody(step: Step): string
  {
    match step
    case ConfirmStep(_, req, _, _) => req.setupToken
    case PutStep(_, _, body, _) => StringIn(body, "setup_token")
    case PostStep(_, body, _) => StringIn(body, "setup_token")
    case RevertStep(_, _, _) => ""
  }

  /** The token a request presents: its body's, if there is one, else the header's. */
  ghost function Presented(step: Step): string
  {
    if InBody(step) == "" then step.c.header else InBody(step)
  }

  /** An administrator is let in without a token, anyone else exactly with one the cached hash accepts; a
      failing admin check is an internal error. */
  ghost predicate LetIn(env: Env, s: State, step: Step)
  {
    step.c.admin.IsAdmin? || (step.c.admin.NotAdmin? && Accepts(env, s, Presented(step)))
  }

  lemma AccessIs(env: Env, s: State, c: Caller, submitted: string)
    ensures Authorize(env, s, c, submitted) ==
      if c.admin.Fault? then Faulted
      else if c.admin.IsAdmin? || Accepts(env, s, if submitted == "" then c.header else submitted) then Granted
      else Denied
  {
  }

  // ----- provider ids -----

  predicate Letter(c: char)
  {
    'a' <= c <= 'z'
  }

  predicate Digit(c: char)
  {
    '0' <= c <= '9'
  }

  /** The pattern: a letter, at most thirty letters, digits or hyphens, and a letter or digit. */
  ghost predicate Slug(id: string)
  {
    exists first, middle, last :: SlugOf(id, first, middle, last)
  }

  predicate SlugOf(id: string, first: char, middle: string, last: char)
  {
    && id == [first] + middle + [last] && |middle| <= 30
    && Letter(first) && (Letter(last) || Digit(last))
    && forall c | c in middle :: Letter(c) || Digit(c) || c == '-'
  }

  lemma ValidIdIsSlug(id: string)
    ensures ValidId(id) <==> Slug(id)
  {
    if ValidId(id) {
      assert SlugOf(id, id[0], id[1..|id| - 1], id[|id| - 1]);
    }
    if Slug(id) {
      var first, middle, last :| SlugOf(id, first, middle, last);
      forall i | 0 < i < |id| - 1 ensures id[i] == middle[i - 1] && id[i] in middle {
      }
    }
  }

  // ----- provider writes -----

  /** The provider a write names: lower-cased from the URL, trimmed from a POST body. */
  ghost function Named(env: Env, step: Step): string
    requires !step.ConfirmStep?
  {
    match step
    case PutStep(_, id, _, _) => env.lower(id)
    case PostStep(_, body, _) => GoTrim(StringIn(body, "id"))
    case RevertStep(_, id, _) => env.lower(id)
  }

  /** The row it leaves there: the merge of the body over the row that was there, or none. */
  ghost function Written(s: State, step: Step, id: string): Option<Row>
    requires !step.ConfirmStep?
  {
    match step
    case PutStep(_, _, body, _) => Some(Upsert(Find(s.rows, id), body))
    case PostStep(_, body, _) => Some(Upsert(None, body))
    case RevertStep(_, _, _) => None
  }

  /** The caches are a fresh reading, and the registry says of each id whether its discovery succeeded. */
  ghost predicate LoadedFrom(env: Env, t: State, okIds: set<string>)
  {
    Coherent(env, t) && forall id | id in t.states :: t.states[id] <==> id in okIds
  }

  lemma RewrittenIs(env: Env, s: State, rows: Rows, okIds: set<string>)
    ensures var t := Rewritten(env, s, rows, okIds);
      t.rows == rows && t.config == s.config && t.plain == s.plain && LoadedFrom(env, t, okIds)
  {
    hide Verdict, Views, Merge;
    RebuildCoherent(env, s.(rows := rows), okIds);
  }

  lemma GuardedExact(s: State, access: Access, validId: bool, taken: bool, written: State)
    ensures var (t, o) := Guarded(s, access, validId, taken, written);
      && o == (if access.Faulted? then Internal else if access.Denied? then Unauthorized
               else if !validId then BadRequest else if taken then AlreadyExists else Done)
      && t == if o == Done then written else s
  {
  }

  /** The rows a write stores. */
  ghost function RowsAfter(s: State, step: Step, id: string): Rows
    requires !step.ConfirmStep?
  {
    match step
    case PutStep(_, _, body, _) => UpsertRow(s.rows, id, body)
    case PostStep(_, body, _) => UpsertRow(s.rows, id, body)
    case RevertStep(_, _, _) => s.rows - {id}
  }

  lemma WriteGuarded(env: Env, s: State, step: Step)
    requires !step.ConfirmStep?
    ensures var id := Named(env, step);
      Apply(env, s, step) == Guarded(s, Authorize(env, s, step.c, InBody(step)), ValidId(id), step.PostStep? && id in s.rows,
                                     Rewritten(env, s, RowsAfter(s, step, id), step.okIds))
  {
    hide Guarded, Authorize, ValidId, Rewritten, UpsertRow;
  }

  lemma RowsAfterAt(s: State, step: Step, id: string, other: string)
    requires !step.ConfirmStep? && (step.PostStep? ==> id !in s.rows)
    ensures Find(RowsAfter(s, step, id), other) == if other == id then Written(s, step, id) else Find(s.rows, other)
  {
    hide Upsert;
  }

  /** What a provider write answers, in the handlers' order, and what it leaves: only the named provider's row
      is written, the token and the config row stay, and everything in memory is reloaded from the rows. */
  lemma WriteExact(env: Env, s: State, step: Step, other: string)
    requires !step.ConfirmStep?
    ensures var (t, o) := Apply(env, s, step); var id := Named(env, step);
      && o == (if step.c.admin.Fault? then Internal
               else if !LetIn(env, s, step) then Unauthorized
               else if !Slug(id) then BadRequest
               else if step.PostStep? && id in s.rows then AlreadyExists
               else Done)
      && (o != Done ==> t == s)
      && (o == Done ==>
            && Find(t.rows, other) == (if other == id then Written(s, step, id) else Find(s.rows, other))
            && t.config == s.config && t.plain == s.plain && LoadedFrom(env, t, step.okIds))
  {
    hide Apply, Guarded, Authorize, Accepts, ValidId, Slug, Rewritten, LoadedFrom, RowsAfter, Written;
    var id := Named(env, step);
    ValidIdIsSlug(id);
    AccessIs(env, s, step.c, InBody(step));
    WriteGuarded(env, s, step);
    var access, written := Authorize(env, s, step.c, InBody(step)), Rewritten(env, s, RowsAfter(s, step, id), step.okIds);
    GuardedExact(s, access, ValidId(id), step.PostStep? && id in s.rows, written);
    RewrittenIs(env, s, RowsAfter(s, step, id), step.okIds);
    if !(step.PostStep? && id in s.rows) {
      RowsAfterAt(s, step, id, other);
    }
  }

  /** A confirmation is answered by who asks alone; a refused one changes nothing. What a granted one leaves is
      ConfirmExact's and ConfirmVerdict's to say. */
  lemma ConfirmAnswers(env: Env, s: State, c: Caller, req: ConfirmRequest, okIds: set<string>, clear: Clear)
    ensures var (t, o) := Confirm(env, s, c, req, okIds, clear);
      && o == (if c.admin.Fault? then Internal else if LetIn(env, s, ConfirmStep(c, req, okIds, clear)) then Done else Unauthorized)
      && (o != Done ==> t == s)
  {
    hide Reloaded, ClearToken, Authorize;
    AccessIs(env, s, c, req.setupToken);
  }

  /** Ensuring the setup token: a confirmed state forgets the stored hash, an unconfirmed one keeps a token it holds
      in full and otherwise gets the fresh one, which the banner shows exactly then; nothing else changes. */
  lemma EnsureExact(env: Env, s: State, token: Token)
    requires Coherent(env, s)
    ensures var (t, banner) := EnsureSetupToken(env, s, token);
      var held := s.config.tokenHash.Some? && s.plain != "";
      && t.config == s.config.(tokenHash := if Confirmed(s.cachedBoot) then None else if held then s.config.tokenHash else Some(env.hash(token)))
      && t.plain == (if Confirmed(s.cachedBoot) || held then s.plain else token)
      && banner == (if Confirmed(s.cachedBoot) || held then "" else token)
      && t.rows == s.rows && t.states == s.states && t.cachedBoot == s.cachedBoot && Coherent(env, t)
  {
    hide Verdict, Views, MergedNow;
    VerdictIgnoresToken(env, s, None, s.plain);
    VerdictIgnoresToken(env, s, Some(env.hash(token)), token);
  }

  /** OAuth's own status: ok while some provider is available; with none registered it tells a declared opt-out from
      a missing one, and with some, all failing, it is the failure. */
  lemma StatusExact(env: Env, s: State)
    requires Coherent(env, s)
    ensures var status := Status(s.states, env.noOidc); var none := MergedNow(env, s.rows) == map[];
      && (status.StatusOk? <==> exists id :: id in s.states && s.states[id])
      && (status.StatusEmptyNoConsent? <==> none && env.noOidc)
      && (status.StatusNoEnvNoFlag? <==> none && !env.noOidc)
      && (status.StatusInitFailed? <==> !none && forall id | id in s.states :: !s.states[id])
  {
    hide Verdict, Views, MergedNow;
    assert MergedNow(env, s.rows) == map[] <==> s.states == map[] by {
      assert s.states.Keys == MergedNow(env, s.rows).Keys;
    }
    assert forall id :: Available(s.states, id) <==> id in s.states && s.states[id];
  }
}
