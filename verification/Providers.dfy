/** Layered provider configuration: database overrides over environment values over
    well-known defaults, and the registry built from them. */
module Providers {
  import opened Text

  datatype Provider = Provider(id: string, displayName: string, issuerUrl: string, clientId: string,
                               clientSecret: string, claimStyle: string, scopes: seq<string>, multiTenant: bool)

  /** An oidc_providers row; None is a NULL column. */
  datatype Row = Row(displayName: Option<string>, issuerUrl: Option<string>, clientId: Option<string>,
                     clientSecret: Option<string>, claimStyle: Option<string>, scopes: Option<seq<string>>, enabled: bool)

  datatype Defaults = Defaults(issuerUrl: string, claimStyle: string, displayName: string)

  datatype Merged = Merged(id: string, effective: Provider, row: Option<Row>, env: Option<Provider>,
                           defaults: Option<Defaults>, hasClientSecret: bool)

  type Registry = map<string, Provider>
  type Rows = map<string, Row>

  function WellKnown(id: string): Option<Defaults>
  {
    if id == "google" then Some(Defaults("https://accounts.google.com", "google", "Google"))
    else if id == "microsoft" then Some(Defaults("https://login.microsoftonline.com/common/v2.0", "microsoft", "Microsoft"))
    else None
  }

  const DEFAULT_SCOPES: seq<string> := ["openid", "email", "profile"]

  predicate IsMultiTenantIssuer(url: string)
  {
    || url == "https://login.microsoftonline.com/common/v2.0"
    || url == "https://login.microsoftonline.com/organizations/v2.0"
    || url == "https://login.microsoftonline.com/consumers/v2.0"
  }

  /** Provider ids are ASCII, so upper-casing the first byte is this. */
  function TitleCase(id: string): string
  {
    if id != "" && 'a' <= id[0] <= 'z' then [(id[0] as int - 'a' as int + 'A' as int) as char] + id[1..] else id
  }

  // ----- the cascade -----

  function PickStr(candidates: seq<string>): string
  {
    if candidates == [] then ""
    else if candidates[0] != "" then candidates[0]
    else PickStr(candidates[1..])
  }

  function TextOf(column: Option<string>): string
  {
    if column.Some? then column.value else ""
  }

  function PickScopes(row: Option<Row>, env: Option<Provider>, fallback: seq<string>): seq<string>
  {
    if row.Some? && row.value.scopes.Some? && |row.value.scopes.value| > 0 then row.value.scopes.value
    else if env.Some? && |env.value.scopes| > 0 then env.value.scopes
    else fallback
  }

  function RowOrEmpty(row: Option<Row>): Row
  {
    if row.Some? then row.value else Row(None, None, None, None, None, None, true)
  }

  function EnvOrEmpty(env: Option<Provider>): Provider
  {
    if env.Some? then env.value else Provider("", "", "", "", "", "", [], false)
  }

  function DefaultsOrEmpty(defaults: Option<Defaults>): Defaults
  {
    if defaults.Some? then defaults.value else Defaults("", "", "")
  }

  function MergeFields(id: string, env: Option<Provider>, row: Option<Row>, defaults: Option<Defaults>): Merged
  {
    var r, e, d := RowOrEmpty(row), EnvOrEmpty(env), DefaultsOrEmpty(defaults);
    var issuer := PickStr([TextOf(r.issuerUrl), e.issuerUrl, d.issuerUrl]);
    var effective := Provider(id,
      PickStr([TextOf(r.displayName), e.displayName, d.displayName, TitleCase(id)]),
      issuer,
      PickStr([TextOf(r.clientId), e.clientId]),
      PickStr([TextOf(r.clientSecret), e.clientSecret]),
      PickStr([TextOf(r.claimStyle), e.claimStyle, d.claimStyle]),
      PickScopes(row, env, DEFAULT_SCOPES),
      IsMultiTenantIssuer(issuer));
    Merged(id, effective, row, env, defaults, effective.clientSecret != "")
  }

  predicate MergedEnabled(m: Merged)
  {
    m.row.Some? ==> m.row.value.enabled
  }

  function Find<T>(m: map<string, T>, id: string): Option<T>
  {
    if id in m then Some(m[id]) else None
  }

  /** The merged entry of one id. */
  function MergeId(env: Registry, rows: Rows, id: string): Merged
  {
    MergeFields(id, Find(env, id), Find(rows, id), WellKnown(id))
  }

  function Merge(env: Registry, rows: Rows): map<string, Merged>
  {
    map id | id in env.Keys + rows.Keys :: MergeId(env, rows, id)
  }

  /** An entry OAuth can initialize: enabled and complete. */
  predicate Usable(m: Merged)
  {
    MergedEnabled(m) && m.effective.clientId != "" && m.effective.issuerUrl != "" && m.effective.claimStyle != ""
  }

  function RegistryOf(merged: map<string, Merged>): Registry
  {
    map id | id in merged && Usable(merged[id]) :: merged[id].effective
  }

  // ----- the loops that build them -----

  /** ListOIDCProviders returns rows; the last of two rows with one id would win. */
  function ByIdOf(dbRows: seq<(string, Row)>): Rows
  {
    if dbRows == [] then map[] else ByIdOf(dbRows[..|dbRows| - 1])[dbRows[|dbRows| - 1].0 := dbRows[|dbRows| - 1].1]
  }

  method IndexRows(dbRows: seq<(string, Row)>) returns (dbById: Rows)
    ensures dbById == ByIdOf(dbRows)
  {
    dbById := map[];
    for i := 0 to |dbRows|
      invariant dbById == ByIdOf(dbRows[..i])
    {
      assert dbRows[..i + 1][..i] == dbRows[..i];
      dbById := dbById[dbRows[i].0 := dbRows[i].1];
    }
    assert dbRows[..|dbRows|] == dbRows;
  }

  method LoadMergedProviders(env: Registry, dbRows: seq<(string, Row)>) returns (out: map<string, Merged>)
    ensures out == Merge(env, ByIdOf(dbRows))
  {
    hide MergeFields;
    var dbById := IndexRows(dbRows);
    var ids := env.Keys + dbById.Keys;
    out := map[];
    var todo := ids;
    while todo != {}
      invariant todo <= ids
      invariant out.Keys == ids - todo
      invariant forall id | id in out :: out[id] == MergeId(env, dbById, id)
      decreases todo
    {
      var id :| id in todo;
      todo := todo - {id};
      out := out[id := MergeFields(id, Find(env, id), Find(dbById, id), WellKnown(id))];
    }
  }

  method MergedRegistry(merged: map<string, Merged>) returns (out: Registry)
    ensures out == RegistryOf(merged)
  {
    out := map[];
    var todo := merged.Keys;
    while todo != {}
      invariant todo <= merged.Keys
      invariant out == map id | id in merged.Keys - todo && Usable(merged[id]) :: merged[id].effective
      decreases todo
    {
      var id :| id in todo;
      todo := todo - {id};
      var m := merged[id];
      if !MergedEnabled(m) {
        continue;
      }
      if m.effective.clientId == "" || m.effective.issuerUrl == "" || m.effective.claimStyle == "" {
        continue;
      }
      out := out[id := m.effective];
    }
  }

  // ----- merging twice -----

  lemma PickIs(a: string, b: string, c: string, d: string)
    ensures PickStr([a, b]) == if a != "" then a else b
    ensures PickStr([a, b, c]) == if a != "" then a else if b != "" then b else c
    ensures PickStr([a, b, c, d]) == if a != "" then a else if b != "" then b else if c != "" then c else d
  {
    forall x ensures PickStr([x]) == x {
      assert [x][1..] == [];
    }
    forall x, y ensures PickStr([x, y]) == if x != "" then x else y {
      assert [x, y][1..] == [y];
    }
    assert [a, b, c][1..] == [b, c] && [b, c, d][1..] == [c, d] && [a, b, c, d][1..] == [b, c, d];
    assert PickStr([b, c, d]) == if b != "" then b else PickStr([c, d]);
  }

  /** The effective provider, with each cascade written out. */
  lemma EffectiveIs(id: string, env: Option<Provider>, row: Option<Row>, defaults: Option<Defaults>)
    ensures MergeFields(id, env, row, defaults).effective
         == Cascade(id, RowOrEmpty(row), EnvOrEmpty(env), DefaultsOrEmpty(defaults), PickScopes(row, env, DEFAULT_SCOPES))
    ensures |PickScopes(row, env, DEFAULT_SCOPES)| > 0
  {
    hide TitleCase, IsMultiTenantIssuer;
    var r, e, d := RowOrEmpty(row), EnvOrEmpty(env), DefaultsOrEmpty(defaults);
    PickIs(TextOf(r.displayName), e.displayName, d.displayName, TitleCase(id));
    PickIs(TextOf(r.issuerUrl), e.issuerUrl, d.issuerUrl, "");
    PickIs(TextOf(r.clientId), e.clientId, "", "");
    PickIs(TextOf(r.clientSecret), e.clientSecret, "", "");
    PickIs(TextOf(r.claimStyle), e.claimStyle, d.claimStyle, "");
  }

  function Or(a: string, b: string): string
  {
    if a != "" then a else b
  }

  function Cascade(id: string, r: Row, e: Provider, d: Defaults, scopes: seq<string>): Provider
  {
    var issuer := Or(TextOf(r.issuerUrl), Or(e.issuerUrl, d.issuerUrl));
    Provider(id, Or(TextOf(r.displayName), Or(e.displayName, Or(d.displayName, TitleCase(id)))), issuer,
             Or(TextOf(r.clientId), e.clientId), Or(TextOf(r.clientSecret), e.clientSecret),
             Or(TextOf(r.claimStyle), Or(e.claimStyle, d.claimStyle)), scopes, IsMultiTenantIssuer(issuer))
  }

  function ScopesOr(column: Option<seq<string>>, def: seq<string>): seq<string>
  {
    if column.Some? && column.value != [] then column.value else def
  }

  /** A row's columns over the values without it. */
  function Over(r: Row, d: Provider): Provider
  {
    var issuer := Or(TextOf(r.issuerUrl), d.issuerUrl);
    Provider(d.id, Or(TextOf(r.displayName), d.displayName), issuer, Or(TextOf(r.clientId), d.clientId),
             Or(TextOf(r.clientSecret), d.clientSecret), Or(TextOf(r.claimStyle), d.claimStyle), ScopesOr(r.scopes, d.scopes),
             IsMultiTenantIssuer(issuer))
  }

  lemma EffectiveOverDefaults(id: string, env: Option<Provider>, row: Option<Row>, defaults: Option<Defaults>)
    ensures var d := MergeFields(id, env, None, defaults).effective;
      MergeFields(id, env, row, defaults).effective == Over(RowOrEmpty(row), d) && d.scopes != []
  {
    EffectiveIs(id, env, row, defaults);
    EffectiveIs(id, env, None, defaults);
  }

  /** Merging a row over its own merge result gives that result back. */
  lemma EffectiveIsStable(id: string, env: Option<Provider>, row: Option<Row>, defaults: Option<Defaults>)
    ensures var once := MergeFields(id, env, row, defaults).effective;
      MergeFields(id, Some(once), row, defaults).effective == once
  {
    var once := MergeFields(id, env, row, defaults).effective;
    EffectiveIs(id, env, row, defaults);
    EffectiveIs(id, Some(once), row, defaults);
    assert PickScopes(row, Some(once), DEFAULT_SCOPES) == PickScopes(row, env, DEFAULT_SCOPES);
    CascadeTwice(id, RowOrEmpty(row), EnvOrEmpty(env), DefaultsOrEmpty(defaults), PickScopes(row, env, DEFAULT_SCOPES));
  }

  lemma CascadeTwice(id: string, r: Row, e: Provider, d: Defaults, scopes: seq<string>)
    ensures var once := Cascade(id, r, e, d, scopes); Cascade(id, r, once, d, scopes) == once
  {
  }

  /** An entry that is not usable with the environment's help is not usable without it. */
  lemma UnusableStays(id: string, env: Option<Provider>, row: Option<Row>, defaults: Option<Defaults>)
    requires !Usable(MergeFields(id, env, row, defaults))
    ensures !Usable(MergeFields(id, None, row, defaults))
  {
    hide TitleCase, IsMultiTenantIssuer;
    EffectiveIs(id, env, row, defaults);
    EffectiveIs(id, None, row, defaults);
  }

  const LOWER := "abcdefghijklmnopqrstuvwxyz"
  const UPPER := "ABCDEFGHIJKLMNOPQRSTUVWXYZ"

  /** Only a first letter changes, to its capital. */
  lemma TitleCaseIs(id: string, k: nat)
    requires id != "" && k < 26
    ensures var t := TitleCase(id);
      && |t| == |id| && t[1..] == id[1..] && (id[0] == LOWER[k] ==> t[0] == UPPER[k])
      && (id[0] !in LOWER ==> t == id)
  {
    assert forall i | 0 <= i < 26 :: LOWER[i] as int == 'a' as int + i && UPPER[i] as int == 'A' as int + i;
    if 'a' <= id[0] <= 'z' {
      assert LOWER[id[0] as int - 'a' as int] == id[0];
    }
  }

  /** The issuers that stand for every tenant are Microsoft's three shared ones. */
  lemma MultiTenantExact(url: string)
    ensures IsMultiTenantIssuer(url)
       <==> exists tenant | tenant in {"common", "organizations", "consumers"} :: url == "https://login.microsoftonline.com/" + tenant + "/v2.0"
  {
    var base, version := "https://login.microsoftonline.com/", "/v2.0";
    assert base + "common" + version == "https://login.microsoftonline.com/common/v2.0";
    assert base + "organizations" + version == "https://login.microsoftonline.com/organizations/v2.0";
    assert base + "consumers" + version == "https://login.microsoftonline.com/consumers/v2.0";
  }

  /** A row that gives the client and nothing else. */
  function BareRow(clientId: string, clientSecret: string): Row
  {
    Row(None, None, Some(clientId), Some(clientSecret), None, None, true)
  }

  /** Given a client and nothing else, exactly the two well-known ids resolve to a usable provider: each with its
      published issuer, its claim style, its name and the default scopes, Microsoft's for every tenant. */
  lemma BareProvider(id: string, clientId: string, clientSecret: string)
    requires clientId != ""
    ensures var m := MergeId(map[], map[id := BareRow(clientId, clientSecret)], id);
      && (Usable(m) <==> id in {"google", "microsoft"})
      && (id == "google" ==> m.effective == Provider(id, "Google", "https://accounts.google.com", clientId, clientSecret, "google",
                                                     ["openid", "email", "profile"], false))
      && (id == "microsoft" ==> m.effective == Provider(id, "Microsoft", "https://login.microsoftonline.com/common/v2.0", clientId, clientSecret,
                                                        "microsoft", ["openid", "email", "profile"], true))
  {
    hide TitleCase;
    var none: Registry := map[];
    assert Find(none, id) == None;
    EffectiveIs(id, None, Some(BareRow(clientId, clientSecret)), WellKnown(id));
    assert |"https://accounts.google.com"| == 27 && |"https://login.microsoftonline.com/common/v2.0"| == 45;
    assert |"https://login.microsoftonline.com/organizations/v2.0"| == 52 && |"https://login.microsoftonline.com/consumers/v2.0"| == 48;
    assert "google"[0] == 'g' && "microsoft"[0] == 'm';
  }

  lemma SameEntries<T>(a: map<string, T>, b: map<string, T>)
    requires forall id :: Find(a, id) == Find(b, id)
    ensures a == b
  {
    forall id ensures id in a <==> id in b {
      assert Find(a, id) == Find(b, id);
    }
    forall id | id in a ensures a[id] == b[id] {
      assert Find(a, id) == Find(b, id);
    }
  }

  /** Merging the rows over an already merged registry gives the same registry, for every
      environment and every row set: what boot relies on. */
  lemma MergeTwice(env: Registry, rows: Rows)
    ensures var once := RegistryOf(Merge(env, rows)); RegistryOf(Merge(once, rows)) == once
  {
    var once := RegistryOf(Merge(env, rows));
    forall id ensures Find(RegistryOf(Merge(once, rows)), id) == Find(once, id) {
      MergeTwiceAt(env, rows, id);
    }
    SameEntries(RegistryOf(Merge(once, rows)), once);
  }

  lemma MergeTwiceAt(env: Registry, rows: Rows, id: string)
    ensures var once := RegistryOf(Merge(env, rows)); Find(RegistryOf(Merge(once, rows)), id) == Find(once, id)
  {
    var once := RegistryOf(Merge(env, rows));
    if id in once {
      EffectiveIsStable(id, Find(env, id), Find(rows, id), WellKnown(id));
    } else if id in env.Keys + rows.Keys {
      UnusableStays(id, Find(env, id), Find(rows, id), WellKnown(id));
    }
  }
}
