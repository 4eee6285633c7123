/** The provider endpoints: the tri-state PUT and the provenance view. */
module ProviderAdmin {
  import opened Text
  import opened JsonValues
  import opened Providers

  // ----- PUT -----

  /** Absent keeps, null and "" clear, a string replaces, anything else keeps. */
  function MergeTextField(body: Obj, key: string, existing: Option<string>): Option<string>
  {
    if key !in body then existing
    else
      match body[key]
      case JNull => None
      case JStr(s) => if s == "" then None else Some(s)
      case _ => existing
  }

  /** Decoding into []string: a null element becomes "", any other non-string is an error. */
  function StringItems(items: seq<Json>): Option<seq<string>>
  {
    if items == [] then Some([])
    else
      match (items[0], StringItems(items[1..]))
      case (JStr(s), Some(rest)) => Some([s] + rest)
      case (JNull, Some(rest)) => Some([""] + rest)
      case _ => None
  }

  /** A list decodes exactly if every element is a string or null, which stands for the empty string. */
  lemma {:induction false} StringItemsExact(items: seq<Json>, texts: seq<string>)
    ensures StringItems(items) == Some(texts)
       <==> |texts| == |items| && forall i | 0 <= i < |items| :: items[i] == JStr(texts[i]) || (items[i].JNull? && texts[i] == "")
  {
    if items != [] && texts != [] {
      StringItemsExact(items[1..], texts[1..]);
      assert texts == [texts[0]] + texts[1..];
      if |texts| == |items| && forall i | 0 <= i < |items| :: items[i] == JStr(texts[i]) || (items[i].JNull? && texts[i] == "") {
        assert forall i | 0 <= i < |items[1..]| :: items[1..][i] == items[i + 1] && texts[1..][i] == texts[i + 1];
      }
      if StringItems(items) == Some(texts) {
        assert forall i | 0 < i < |items| :: items[i] == items[1..][i - 1] && texts[i] == texts[1..][i - 1];
      }
    }
  }

  function StoredScopes(items: seq<string>): Option<seq<string>>
  {
    var kept := TrimAll(items, GoTrim);
    if kept == [] then None else Some(kept)
  }

  function MergeScopes(body: Obj, existing: Option<seq<string>>): Option<seq<string>>
  {
    if "scopes" !in body then existing
    else
      match body["scopes"]
      case JNull => None
      case JArr(items) => if StringItems(items).None? then existing else StoredScopes(StringItems(items).value)
      case _ => existing
  }

  /** The appending loop of mergeScopes. */
  method TrimScopes(arr: seq<string>) returns (stored: Option<seq<string>>)
    ensures stored == StoredScopes(arr)
  {
    if |arr| == 0 {
      return None;
    }
    var out: seq<string> := [];
    for i := 0 to |arr|
      invariant out + TrimAll(arr[i..], GoTrim) == TrimAll(arr, GoTrim)
    {
      var s := GoTrim(arr[i]);
      assert arr[i..][1..] == arr[i + 1..];
      if s != "" {
        out := out + [s];
      }
    }
    assert out == TrimAll(arr, GoTrim);
    if |out| == 0 {
      return None;
    }
    return Some(out);
  }

  /** Decoding null into a bool succeeds and leaves false, so a null "enabled" disables. */
  function BoolField(body: Obj, key: string): Option<bool>
  {
    if key !in body then None
    else
      match body[key]
      case JBool(b) => Some(b)
      case JNull => Some(false)
      case _ => None
  }

  function MergeEnabled(body: Obj, existing: bool): bool
  {
    var enabled := BoolField(body, "enabled");
    if enabled.Some? then enabled.value else existing
  }

  /** The row an upsert stores over the existing one. */
  function Upsert(row: Option<Row>, body: Obj): Row
  {
    var existing := RowOrEmpty(row);
    Row(MergeTextField(body, "display_name", existing.displayName),
        MergeTextField(body, "issuer_url", existing.issuerUrl),
        MergeTextField(body, "client_id", existing.clientId),
        MergeTextField(body, "client_secret", existing.clientSecret),
        MergeTextField(body, "claim_style", existing.claimStyle),
        MergeScopes(body, existing.scopes),
        MergeEnabled(body, existing.enabled))
  }

  // ----- PUT as an action of patches -----

  const TEXT_KEYS: set<string> := {"display_name", "issuer_url", "client_id", "client_secret", "claim_style"}

  predicate WellTyped(key: string, v: Json)
  {
    if key in TEXT_KEYS then v.JNull? || v.JStr?
    else if key == "scopes" then v.JNull? || (v.JArr? && StringItems(v.items).Some?)
    else key == "enabled" ==> v.JNull? || v.JBool?
  }

  /** The second body has no ill-typed value where the first has a well-typed one. */
  predicate CompatibleAt(b1: Obj, b2: Obj, key: string)
  {
    key in b1 && key in b2 && WellTyped(key, b1[key]) ==> WellTyped(key, b2[key])
  }

  predicate Compatible(b1: Obj, b2: Obj)
  {
    forall key | key in TEXT_KEYS + {"scopes", "enabled"} :: CompatibleAt(b1, b2, key)
  }

  /** Two merges in turn against one merge of the combined body; an incompatible second value
      makes the combined body keep the existing column and the two in turn forget it. */
  lemma TextPatch(b1: Obj, b2: Obj, key: string, x: Option<string>)
    requires key in TEXT_KEYS
    ensures CompatibleAt(b1, b2, key) ==> MergeTextField(b2, key, MergeTextField(b1, key, x)) == MergeTextField(b1 + b2, key, x)
    ensures !CompatibleAt(b1, b2, key) ==> MergeTextField(b1 + b2, key, x) == x
    ensures !CompatibleAt(b1, b2, key) ==> MergeTextField(b2, key, MergeTextField(b1, key, x)) == MergeTextField(b1, key, None)
  {
  }

  lemma ScopesPatch(b1: Obj, b2: Obj, x: Option<seq<string>>)
    ensures CompatibleAt(b1, b2, "scopes") ==> MergeScopes(b2, MergeScopes(b1, x)) == MergeScopes(b1 + b2, x)
    ensures !CompatibleAt(b1, b2, "scopes") ==> MergeScopes(b1 + b2, x) == x
    ensures !CompatibleAt(b1, b2, "scopes") ==> MergeScopes(b2, MergeScopes(b1, x)) == MergeScopes(b1, None)
  {
    assert "scopes" !in TEXT_KEYS;
  }

  lemma EnabledPatch(b1: Obj, b2: Obj, x: bool)
    ensures CompatibleAt(b1, b2, "enabled") ==> MergeEnabled(b2, MergeEnabled(b1, x)) == MergeEnabled(b1 + b2, x)
    ensures !CompatibleAt(b1, b2, "enabled") ==> MergeEnabled(b1 + b2, x) == x
    ensures !CompatibleAt(b1, b2, "enabled") ==> MergeEnabled(b2, MergeEnabled(b1, x)) == MergeEnabled(b1, true)
  {
    assert "enabled" !in TEXT_KEYS;
  }

  ghost predicate PatchesCompose(b1: Obj, b2: Obj)
  {
    forall row: Option<Row> :: Upsert(Some(Upsert(row, b1)), b2) == Upsert(row, b1 + b2)
  }

  lemma CompatibleCompose(b1: Obj, b2: Obj)
    requires Compatible(b1, b2)
    ensures PatchesCompose(b1, b2)
  {
    forall row: Option<Row> ensures Upsert(Some(Upsert(row, b1)), b2) == Upsert(row, b1 + b2) {
      var e := RowOrEmpty(row);
      TextPatch(b1, b2, "display_name", e.displayName);
      TextPatch(b1, b2, "issuer_url", e.issuerUrl);
      TextPatch(b1, b2, "client_id", e.clientId);
      TextPatch(b1, b2, "client_secret", e.clientSecret);
      TextPatch(b1, b2, "claim_style", e.claimStyle);
      ScopesPatch(b1, b2, e.scopes);
      EnabledPatch(b1, b2, e.enabled);
    }
  }

  function OtherText(x: Option<string>): Option<string>
  {
    if x.None? then Some("x") else None
  }

  /** A row that differs from r in every field. */
  function Contrary(r: Row): Row
  {
    Row(OtherText(r.displayName), OtherText(r.issuerUrl), OtherText(r.clientId), OtherText(r.clientSecret),
        OtherText(r.claimStyle), if r.scopes.None? then Some(["x"]) else None, !r.enabled)
  }

  function TextAt(r: Row, key: string): Option<string>
    requires key in TEXT_KEYS
  {
    if key == "display_name" then r.displayName
    else if key == "issuer_url" then r.issuerUrl
    else if key == "client_id" then r.clientId
    else if key == "client_secret" then r.clientSecret
    else r.claimStyle
  }

  lemma UpsertTextAt(row: Option<Row>, body: Obj, key: string)
    requires key in TEXT_KEYS
    ensures TextAt(Upsert(row, body), key) == MergeTextField(body, key, TextAt(RowOrEmpty(row), key))
  {
  }

  lemma ContraryTextAt(r: Row, key: string)
    requires key in TEXT_KEYS
    ensures TextAt(Contrary(r), key) == OtherText(TextAt(r, key))
  {
  }

  lemma IncompatibleText(b1: Obj, b2: Obj, key: string)
    requires key in TEXT_KEYS && !CompatibleAt(b1, b2, key)
    ensures !PatchesCompose(b1, b2)
  {
    var row := Contrary(Upsert(None, b1));
    var x := TextAt(row, key);
    TextPatch(b1, b2, key, x);
    ContraryTextAt(Upsert(None, b1), key);
    UpsertTextAt(None, b1, key);
    UpsertTextAt(Some(row), b1, key);
    UpsertTextAt(Some(Upsert(Some(row), b1)), b2, key);
    UpsertTextAt(Some(row), b1 + b2, key);
  }

  lemma IncompatibleOther(b1: Obj, b2: Obj, key: string)
    requires key in {"scopes", "enabled"} && !CompatibleAt(b1, b2, key)
    ensures !PatchesCompose(b1, b2)
  {
    var row := Contrary(Upsert(None, b1));
    if key == "scopes" {
      ScopesPatch(b1, b2, row.scopes);
    } else {
      EnabledPatch(b1, b2, row.enabled);
    }
    assert Upsert(Some(Upsert(Some(row), b1)), b2) != Upsert(Some(row), b1 + b2);
  }

  /** Applying two PUT bodies in turn stores, over every row and over none, what the single
      body with the second's keys replacing the first's stores: exactly when no ill-typed
      value of the second stands over a well-typed one of the first. */
  lemma PutIsPatchAction(b1: Obj, b2: Obj)
    ensures PatchesCompose(b1, b2) <==> Compatible(b1, b2)
  {
    if Compatible(b1, b2) {
      CompatibleCompose(b1, b2);
    } else {
      var key :| key in TEXT_KEYS + {"scopes", "enabled"} && !CompatibleAt(b1, b2, key);
      if key in TEXT_KEYS {
        IncompatibleText(b1, b2, key);
      } else {
        IncompatibleOther(b1, b2, key);
      }
    }
  }

  /** For instance a number after a name: the combined body keeps what the row had, the two in turn
      keep the name. */
  lemma IllTypedAfterWellTyped()
    ensures !PatchesCompose(map["display_name" := JStr("A")], map["display_name" := JNum(1)])
  {
    IncompatibleText(map["display_name" := JStr("A")], map["display_name" := JNum(1)], "display_name");
  }

  // ----- the view -----

  datatype Source = FromDb | FromEnv | FromWellKnown | FromFallback | FromNone

  datatype TextView = TextView(own: Option<string>, default: Option<string>, source: Source)

  datatype View = View(id: string, displayName: TextView, issuerUrl: TextView, clientId: TextView, claimStyle: TextView,
                       hasClientSecret: bool, clientSecretSource: Source,
                       scopes: Option<seq<string>>, scopesDefault: seq<string>, scopesSource: Source,
                       enabled: bool, wellKnown: bool)

  function OverrideText(column: Option<string>): Option<string>
  {
    if column.None? || column.value == "" then None else column
  }

  function NonEmpty(s: string): Option<string>
  {
    if s == "" then None else Some(s)
  }

  function DefaultDisplayName(m: Merged): string
  {
    if m.env.Some? && m.env.value.displayName != "" then m.env.value.displayName
    else if m.defaults.Some? && m.defaults.value.displayName != "" then m.defaults.value.displayName
    else TitleCase(m.id)
  }

  function DefaultIssuerUrl(m: Merged): string
  {
    if m.env.Some? && m.env.value.issuerUrl != "" then m.env.value.issuerUrl
    else if m.defaults.Some? then m.defaults.value.issuerUrl
    else ""
  }

  function DefaultClientId(m: Merged): string
  {
    if m.env.Some? then m.env.value.clientId else ""
  }

  function DefaultClaimStyle(m: Merged): string
  {
    if m.env.Some? && m.env.value.claimStyle != "" then m.env.value.claimStyle
    else if m.defaults.Some? then m.defaults.value.claimStyle
    else ""
  }

  function ScopesDefault(m: Merged): seq<string>
  {
    if m.env.Some? && |m.env.value.scopes| > 0 then m.env.value.scopes else ["openid", "email", "profile"]
  }

  /** The label of a text field, from what each layer says about it. */
  function SourceOf(db: Option<string>, env: string, wellKnown: string, last: Source): Source
  {
    if TextOf(db) != "" then FromDb
    else if env != "" then FromEnv
    else if wellKnown != "" then FromWellKnown
    else last
  }

  function ScopesSource(m: Merged): Source
  {
    if m.row.Some? && m.row.value.scopes.Some? && |m.row.value.scopes.value| > 0 then FromDb
    else if m.env.Some? && |m.env.value.scopes| > 0 then FromEnv
    else FromWellKnown
  }

  function BuildView(m: Merged): View
  {
    var r, e, d := RowOrEmpty(m.row), EnvOrEmpty(m.env), DefaultsOrEmpty(m.defaults);
    View(m.id,
      TextView(OverrideText(r.displayName), NonEmpty(DefaultDisplayName(m)), SourceOf(r.displayName, e.displayName, d.displayName, FromFallback)),
      TextView(OverrideText(r.issuerUrl), NonEmpty(DefaultIssuerUrl(m)), SourceOf(r.issuerUrl, e.issuerUrl, d.issuerUrl, FromNone)),
      TextView(OverrideText(r.clientId), NonEmpty(DefaultClientId(m)), SourceOf(r.clientId, e.clientId, "", FromNone)),
      TextView(OverrideText(r.claimStyle), NonEmpty(DefaultClaimStyle(m)), SourceOf(r.claimStyle, e.claimStyle, d.claimStyle, FromNone)),
      m.hasClientSecret, SourceOf(r.clientSecret, e.clientSecret, "", FromNone),
      if r.scopes.Some? && r.scopes.value == [] then None else r.scopes, ScopesDefault(m), ScopesSource(m),
      MergedEnabled(m), m.defaults.Some?)
  }

  // ----- provenance -----

  /** The labelled layer is the first one with a value, and that value is the effective one. */
  predicate Provenance(source: Source, db: Option<string>, env: string, wellKnown: string, fallback: string, effective: string)
  {
    match source
    case FromDb => TextOf(db) != "" && effective == db.value
    case FromEnv => TextOf(db) == "" && env != "" && effective == env
    case FromWellKnown => TextOf(db) == "" && env == "" && wellKnown != "" && effective == wellKnown
    case FromFallback => TextOf(db) == "" && env == "" && wellKnown == "" && effective == fallback
    case FromNone => TextOf(db) == "" && env == "" && wellKnown == "" && effective == ""
  }

  lemma LabelIsProvenance(db: Option<string>, env: string, wellKnown: string, fallback: string)
    ensures Provenance(SourceOf(db, env, wellKnown, FromNone), db, env, wellKnown, "", Or(TextOf(db), Or(env, wellKnown)))
    ensures Provenance(SourceOf(db, env, wellKnown, FromFallback), db, env, wellKnown, fallback,
                       Or(TextOf(db), Or(env, Or(wellKnown, fallback))))
  {
  }

  /** Every source label names the layer whose value is the effective one. */
  lemma LabelsNameTheLayer(id: string, env: Option<Provider>, row: Option<Row>, defaults: Option<Defaults>)
    ensures var m := MergeFields(id, env, row, defaults); var v := BuildView(m); var p := m.effective;
      var r, e, d := RowOrEmpty(row), EnvOrEmpty(env), DefaultsOrEmpty(defaults);
      && Provenance(v.displayName.source, r.displayName, e.displayName, d.displayName, TitleCase(id), p.displayName)
      && !v.displayName.source.FromNone?
      && Provenance(v.issuerUrl.source, r.issuerUrl, e.issuerUrl, d.issuerUrl, "", p.issuerUrl)
      && Provenance(v.clientId.source, r.clientId, e.clientId, "", "", p.clientId)
      && Provenance(v.clientSecretSource, r.clientSecret, e.clientSecret, "", "", p.clientSecret)
      && (v.hasClientSecret <==> !v.clientSecretSource.FromNone?)
      && v.id == id && (v.wellKnown <==> defaults.Some?) && (v.enabled <==> (row.Some? ==> row.value.enabled))
      && Provenance(v.claimStyle.source, r.claimStyle, e.claimStyle, d.claimStyle, "", p.claimStyle)
  {
    hide TitleCase, IsMultiTenantIssuer, PickScopes;
    var r, e, d := RowOrEmpty(row), EnvOrEmpty(env), DefaultsOrEmpty(defaults);
    EffectiveIs(id, env, row, defaults);
    LabelIsProvenance(r.displayName, e.displayName, d.displayName, TitleCase(id));
    LabelIsProvenance(r.issuerUrl, e.issuerUrl, d.issuerUrl, "");
    LabelIsProvenance(r.clientId, e.clientId, "", "");
    LabelIsProvenance(r.clientSecret, e.clientSecret, "", "");
    LabelIsProvenance(r.claimStyle, e.claimStyle, d.claimStyle, "");
  }

  /** The scopes label: an override is shown exactly when it is the effective list. */
  lemma ScopesLabelNamesTheLayer(id: string, env: Option<Provider>, row: Option<Row>, defaults: Option<Defaults>)
    ensures var m := MergeFields(id, env, row, defaults); var v := BuildView(m); var p := m.effective;
      && (v.scopesSource.FromDb? <==> v.scopes.Some?)
      && (v.scopesSource.FromDb? ==> v.scopes == Some(p.scopes))
      && (v.scopesSource.FromEnv? ==> env.Some? && env.value.scopes == p.scopes && v.scopes.None?)
      && (v.scopesSource.FromWellKnown? ==> p.scopes == DEFAULT_SCOPES)
      && !v.scopesSource.FromFallback? && !v.scopesSource.FromNone?
  {
    hide TitleCase, IsMultiTenantIssuer;
  }

  /** The defaults the view shows are these values. */
  predicate ShowsDefaults(v: View, p: Provider)
  {
    && v.displayName.default == NonEmpty(p.displayName)
    && v.issuerUrl.default == NonEmpty(p.issuerUrl)
    && v.clientId.default == NonEmpty(p.clientId)
    && v.claimStyle.default == NonEmpty(p.claimStyle)
    && v.scopesDefault == p.scopes
  }

  lemma DefaultsShown(m: Merged, p: Provider)
    requires p == Cascade(m.id, RowOrEmpty(None), EnvOrEmpty(m.env), DefaultsOrEmpty(m.defaults), PickScopes(None, m.env, DEFAULT_SCOPES))
    ensures ShowsDefaults(BuildView(m), p)
  {
    hide TitleCase, IsMultiTenantIssuer;
  }

  /** Every default shown is the effective value with the row removed. */
  lemma DefaultsAreRowless(id: string, env: Option<Provider>, row: Option<Row>, defaults: Option<Defaults>)
    ensures ShowsDefaults(BuildView(MergeFields(id, env, row, defaults)), MergeFields(id, env, None, defaults).effective)
  {
    EffectiveIs(id, env, None, defaults);
    DefaultsShown(MergeFields(id, env, row, defaults), MergeFields(id, env, None, defaults).effective);
  }

  /** The cleared value where the body names the key, else the kept one. */
  function Where<T>(body: Obj, key: string, cleared: T, kept: T): T
  {
    if key in body then cleared else kept
  }

  lemma ClearingText(body: Obj, key: string, column: Option<string>, def: string)
    requires key in body ==> body[key] == JNull
    ensures Or(TextOf(MergeTextField(body, key, column)), def) == Where(body, key, def, Or(TextOf(column), def))
  {
  }

  lemma ClearingScopes(body: Obj, column: Option<seq<string>>, def: seq<string>)
    requires "scopes" in body ==> body["scopes"] == JNull
    ensures ScopesOr(MergeScopes(body, column), def) == Where(body, "scopes", def, ScopesOr(column, def))
  {
  }

  lemma ClearingOver(row: Option<Row>, d: Provider, body: Obj)
    requires forall k | k in body :: body[k] == JNull && k != "enabled"
    ensures var p, q := Over(RowOrEmpty(row), d), Over(Upsert(row, body), d);
      && q.displayName == Where(body, "display_name", d.displayName, p.displayName)
      && q.issuerUrl == Where(body, "issuer_url", d.issuerUrl, p.issuerUrl)
      && q.clientId == Where(body, "client_id", d.clientId, p.clientId)
      && q.clientSecret == Where(body, "client_secret", d.clientSecret, p.clientSecret)
      && q.claimStyle == Where(body, "claim_style", d.claimStyle, p.claimStyle)
      && q.scopes == Where(body, "scopes", d.scopes, p.scopes)
  {
    var r := RowOrEmpty(row);
    ClearingText(body, "display_name", r.displayName, d.displayName);
    ClearingText(body, "issuer_url", r.issuerUrl, d.issuerUrl);
    ClearingText(body, "client_id", r.clientId, d.clientId);
    ClearingText(body, "client_secret", r.clientSecret, d.clientSecret);
    ClearingText(body, "claim_style", r.claimStyle, d.claimStyle);
    ClearingScopes(body, r.scopes, d.scopes);
  }

  /** Clearing any set of fields by PUT makes exactly those fields take the row-less value,
      which is the default shown before, and leaves the others and the enabled flag alone. */
  lemma ClearingReveals(id: string, env: Option<Provider>, row: Option<Row>, defaults: Option<Defaults>, body: Obj)
    requires forall k | k in body :: body[k] == JNull && k != "enabled"
    ensures var before := MergeFields(id, env, row, defaults);
      var after := MergeFields(id, env, Some(Upsert(row, body)), defaults);
      var p, q, d := before.effective, after.effective, MergeFields(id, env, None, defaults).effective;
      && ShowsDefaults(BuildView(before), d)
      && q.displayName == Where(body, "display_name", d.displayName, p.displayName)
      && q.issuerUrl == Where(body, "issuer_url", d.issuerUrl, p.issuerUrl)
      && q.clientId == Where(body, "client_id", d.clientId, p.clientId)
      && q.clientSecret == Where(body, "client_secret", d.clientSecret, p.clientSecret)
      && q.claimStyle == Where(body, "claim_style", d.claimStyle, p.claimStyle)
      && q.scopes == Where(body, "scopes", d.scopes, p.scopes)
      && MergedEnabled(after) == MergedEnabled(before)
  {
    EffectiveOverDefaults(id, env, row, defaults);
    EffectiveOverDefaults(id, env, Some(Upsert(row, body)), defaults);
    DefaultsAreRowless(id, env, row, defaults);
    ClearingOver(row, MergeFields(id, env, None, defaults).effective, body);
  }
}
