/** What saving an edited form does: the columns stored, the values that take effect, and what the form shows when
    it is opened again. */
module EditedSave {
  import opened Text
  import opened JsonValues
  import opened Providers
  import opened ProviderAdmin
  import opened EditForm

  /** The column a text field stores: none where the trimmed text is empty or the trimmed default. */
  ghost predicate StoresText(column: Option<string>, typed: string, default: string, trim: string -> string)
  {
    var dropped := trim(typed) == "" || trim(typed) == trim(default);
    (column == None <==> dropped) && (!dropped ==> column == Some(trim(typed)))
  }

  /** The secret stored: the one typed, else none if it is to be cleared, else the old one. */
  ghost predicate StoresSecret(column: Option<string>, f: Form, stored: Option<string>)
  {
    && (f.clientSecret != "" ==> column == Some(f.clientSecret))
    && (f.clientSecret == "" && f.clearSecret ==> column == None)
    && (f.clientSecret == "" && !f.clearSecret ==> column == stored)
  }

  /** The scopes stored: what the server keeps of the pieces between commas, none where those are the default list
      or nothing is left. */
  ghost predicate StoresScopes(column: Option<seq<string>>, typed: string, default: seq<string>, trim: string -> string)
  {
    var parsed := TrimAll(Split(typed, ','), trim);
    var kept := TrimAll(parsed, GoTrim);
    if parsed == default || kept == [] then column == None else column == Some(kept)
  }

  // ----- the body, key by key -----

  lemma SecretKeyDiffers()
    ensures "client_secret" !in {"display_name", "issuer_url", "client_id", "claim_style", "scopes", "enabled"}
  {
    assert |"client_secret"| == 13 && |"display_name"| == 12 && |"issuer_url"| == 10 && |"client_id"| == 9 && |"claim_style"| == 11;
    assert |"scopes"| == 6 && |"enabled"| == 7;
  }

  /** A secret added to a body changes the secret column only. */
  lemma AddedSecret(row: Option<Row>, body: Obj, secret: string)
    ensures Upsert(row, body["client_secret" := JStr(secret)])
         == Upsert(row, body).(clientSecret := if secret == "" then None else Some(secret))
  {
    SecretKeyDiffers();
  }

  /** The body without a secret stores every other column as typed. */
  lemma WithoutSecret(row: Option<Row>, f: Form, v: View, trim: string -> string)
    ensures var g := f.(clientSecret := "", clearSecret := false);
      var saved := Upsert(row, BuildWriteBody(g, v, trim));
      && saved.displayName == ResolveOverride(f.displayName, v.displayName.default, trim)
      && saved.issuerUrl == ResolveOverride(f.issuerUrl, v.issuerUrl.default, trim)
      && saved.clientId == ResolveOverride(f.clientId, v.clientId.default, trim)
      && saved.claimStyle == ResolveOverride(f.claimStyle, v.claimStyle.default, trim)
      && saved.scopes == (var o := ResolveScopesOverride(f.scopes, v.scopesDefault, trim); if o.None? then None else StoredScopes(o.value))
      && saved.enabled == f.enabled && saved.clientSecret == RowOrEmpty(row).clientSecret
  {
    hide Upsert, ResolveScopesOverride, StoredScopes;
    var g := f.(clientSecret := "", clearSecret := false);
    var displayName, issuerUrl := ResolveOverride(f.displayName, v.displayName.default, trim), ResolveOverride(f.issuerUrl, v.issuerUrl.default, trim);
    var clientId, claimStyle := ResolveOverride(f.clientId, v.clientId.default, trim), ResolveOverride(f.claimStyle, v.claimStyle.default, trim);
    var scopes := ResolveScopesOverride(f.scopes, v.scopesDefault, trim);
    UneditedBody(g, v, trim, TextJson(displayName), TextJson(issuerUrl), TextJson(clientId), TextJson(claimStyle), ScopesJson(scopes));
    UpsertKeys(row, displayName, issuerUrl, clientId, claimStyle, scopes, f.enabled);
  }

  lemma SecretAside(f: Form, v: View, trim: string -> string)
    ensures var body := BuildWriteBody(f.(clientSecret := "", clearSecret := false), v, trim);
      BuildWriteBody(f, v, trim) ==
        if f.clientSecret == "" && !f.clearSecret then body else body["client_secret" := JStr(f.clientSecret)]
  {
    hide ResolveOverride, ResolveScopesOverride, FieldKeys;
  }

  /** Saving any form over any view stores, whatever the row was, exactly what was typed. */
  lemma SaveStoresTheForm(row: Option<Row>, f: Form, v: View, trim: string -> string)
    ensures var saved := Upsert(row, BuildWriteBody(f, v, trim));
      && StoresText(saved.displayName, f.displayName, TextOf(v.displayName.default), trim)
      && StoresText(saved.issuerUrl, f.issuerUrl, TextOf(v.issuerUrl.default), trim)
      && StoresText(saved.clientId, f.clientId, TextOf(v.clientId.default), trim)
      && StoresText(saved.claimStyle, f.claimStyle, TextOf(v.claimStyle.default), trim)
      && StoresSecret(saved.clientSecret, f, RowOrEmpty(row).clientSecret)
      && StoresScopes(saved.scopes, f.scopes, v.scopesDefault, trim)
      && saved.enabled == f.enabled
  {
    hide Upsert, BuildWriteBody;
    var body := BuildWriteBody(f.(clientSecret := "", clearSecret := false), v, trim);
    SecretAside(f, v, trim);
    WithoutSecret(row, f, v, trim);
    AddedSecret(row, body, f.clientSecret);
  }

  // ----- what takes effect -----

  /** The value a typed text takes effect as, over the value without an override. */
  ghost function Effective(typed: string, default: string, trim: string -> string): string
  {
    if trim(typed) == "" || trim(typed) == trim(default) then default else trim(typed)
  }

  /** The form opened on a provider shows the effective values, and never the secret. */
  lemma FormShowsEffective(id: string, env: Option<Provider>, row: Option<Row>, defaults: Option<Defaults>)
    ensures var m := MergeFields(id, env, row, defaults); var p := m.effective;
      ViewToForm(BuildView(m)) == Form(p.displayName, p.issuerUrl, p.clientId, "", false, p.claimStyle, Join(p.scopes, ", "), MergedEnabled(m))
  {
    hide TitleCase, IsMultiTenantIssuer, Join;
    var m := MergeFields(id, env, row, defaults);
    DefaultsAreRowless(id, env, row, defaults);
    EffectiveOverDefaults(id, env, row, defaults);
    FormIsOver(BuildView(m), row, MergeFields(id, env, None, defaults).effective);
  }

  lemma FormIsOver(v: View, row: Option<Row>, d: Provider)
    requires var r := RowOrEmpty(row);
      && v.displayName.own == OverrideText(r.displayName) && v.issuerUrl.own == OverrideText(r.issuerUrl)
      && v.clientId.own == OverrideText(r.clientId) && v.claimStyle.own == OverrideText(r.claimStyle)
      && v.scopes == (if r.scopes == Some([]) then None else r.scopes)
    requires ShowsDefaults(v, d)
    ensures var p := Over(RowOrEmpty(row), d);
      ViewToForm(v) == Form(p.displayName, p.issuerUrl, p.clientId, "", false, p.claimStyle, Join(p.scopes, ", "), v.enabled)
  {
    hide IsMultiTenantIssuer, Join;
  }

  lemma TextTakesEffect(column: Option<string>, typed: string, default: Option<string>, def: string, trim: string -> string)
    requires default == NonEmpty(def) && StoresText(column, typed, TextOf(default), trim)
    ensures Or(TextOf(column), def) == Effective(typed, def, trim)
  {
    assert TextOf(default) == def;
  }

  /** The values over a row that stores the form, where the row was r before and these are the values without one. */
  lemma StoredTakesEffect(v: View, r: Row, saved: Row, d: Provider, f: Form, trim: string -> string)
    requires ShowsDefaults(v, d) && d.scopes != []
    requires StoresText(saved.displayName, f.displayName, TextOf(v.displayName.default), trim)
    requires StoresText(saved.issuerUrl, f.issuerUrl, TextOf(v.issuerUrl.default), trim)
    requires StoresText(saved.clientId, f.clientId, TextOf(v.clientId.default), trim)
    requires StoresText(saved.claimStyle, f.claimStyle, TextOf(v.claimStyle.default), trim)
    requires StoresSecret(saved.clientSecret, f, r.clientSecret) && StoresScopes(saved.scopes, f.scopes, v.scopesDefault, trim)
    ensures TakesEffect(Over(saved, d), Over(r, d), d, f, trim)
  {
    hide StoresText, Effective, IsMultiTenantIssuer, TrimAll;
    TextTakesEffect(saved.displayName, f.displayName, v.displayName.default, d.displayName, trim);
    TextTakesEffect(saved.issuerUrl, f.issuerUrl, v.issuerUrl.default, d.issuerUrl, trim);
    TextTakesEffect(saved.clientId, f.clientId, v.clientId.default, d.clientId, trim);
    TextTakesEffect(saved.claimStyle, f.claimStyle, v.claimStyle.default, d.claimStyle, trim);
  }

  /** q is what was typed over the values d without an override: each text where it is not empty and says more than
      the default, the secret where one was typed or left alone, and the scopes the server keeps. */
  ghost predicate TakesEffect(q: Provider, before: Provider, d: Provider, f: Form, trim: string -> string)
  {
    && q.displayName == Effective(f.displayName, d.displayName, trim)
    && q.issuerUrl == Effective(f.issuerUrl, d.issuerUrl, trim)
    && q.clientId == Effective(f.clientId, d.clientId, trim)
    && q.claimStyle == Effective(f.claimStyle, d.claimStyle, trim)
    && q.clientSecret == (if f.clientSecret != "" then f.clientSecret else if f.clearSecret then d.clientSecret else before.clientSecret)
    && q.scopes == var parsed := TrimAll(Split(f.scopes, ','), trim); var kept := TrimAll(parsed, GoTrim);
                   if parsed == d.scopes || kept == [] then d.scopes else kept
  }

  /** Opening a provider, typing anything and saving makes what was typed take effect, and the flag. Opened again,
      the form shows exactly the values that do. */
  lemma SaveTakesEffect(id: string, env: Option<Provider>, row: Option<Row>, defaults: Option<Defaults>, f: Form, trim: string -> string)
    ensures var before, d := MergeFields(id, env, row, defaults), MergeFields(id, env, None, defaults).effective;
      var after := MergeFields(id, env, Some(Upsert(row, BuildWriteBody(f, BuildView(before), trim))), defaults);
      var q := after.effective;
      && TakesEffect(q, before.effective, d, f, trim) && MergedEnabled(after) == f.enabled
      && ViewToForm(BuildView(after))
         == Form(q.displayName, q.issuerUrl, q.clientId, "", false, q.claimStyle, Join(q.scopes, ", "), f.enabled)
  {
    hide MergeFields, Upsert, BuildWriteBody, BuildView, ViewToForm, TakesEffect, Over, StoresText, StoresSecret, StoresScopes;
    var before, d := MergeFields(id, env, row, defaults), MergeFields(id, env, None, defaults).effective;
    var saved := Upsert(row, BuildWriteBody(f, BuildView(before), trim));
    DefaultsAreRowless(id, env, row, defaults);
    EffectiveOverDefaults(id, env, row, defaults);
    EffectiveOverDefaults(id, env, Some(saved), defaults);
    SaveStoresTheForm(row, f, BuildView(before), trim);
    StoredTakesEffect(BuildView(before), RowOrEmpty(row), saved, d, f, trim);
    FormShowsEffective(id, env, Some(saved), defaults);
    RowIsMerged(id, env, Some(saved), defaults);
  }

  lemma RowIsMerged(id: string, env: Option<Provider>, row: Option<Row>, defaults: Option<Defaults>)
    ensures MergeFields(id, env, row, defaults).row == row
  {
  }
}
