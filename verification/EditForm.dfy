/** The provider edit form: the form shown for a view, the body a save sends, and what an
    unedited save does. trim is String.prototype.trim throughout; the theorems hold for any
    lawful trimming, and JsTrim is one. */
module EditForm {
  import opened Text
  import opened JsonValues
  import opened Providers
  import opened ProviderAdmin

  datatype Form = Form(displayName: string, issuerUrl: string, clientId: string, clientSecret: string,
                       clearSecret: bool, claimStyle: string, scopes: string, enabled: bool)

  function Shown(t: TextView): string
  {
    if t.own.Some? then t.own.value else if t.default.Some? then t.default.value else ""
  }

  function ViewToForm(v: View): Form
  {
    Form(Shown(v.displayName), Shown(v.issuerUrl), Shown(v.clientId), "", false, Shown(v.claimStyle),
         Join(if v.scopes.Some? then v.scopes.value else v.scopesDefault, ", "), v.enabled)
  }

  function ParseScopes(input: string, trim: string -> string): Option<seq<string>>
  {
    var parts := TrimAll(Split(input, ','), trim);
    if parts == [] then None else Some(parts)
  }

  /** The override sent for a trimmed form value against a trimmed default. */
  function Differing(trimmed: string, def: string): Option<string>
  {
    if trimmed == "" || trimmed == def then None else Some(trimmed)
  }

  function ResolveOverride(formValue: string, default: Option<string>, trim: string -> string): Option<string>
  {
    Differing(trim(formValue), trim(TextOf(default)))
  }

  function ResolveScopesOverride(formValue: string, defaultScopes: seq<string>, trim: string -> string): Option<seq<string>>
  {
    match ParseScopes(formValue, trim)
    case None => None
    case Some(parsed) => if parsed == defaultScopes then None else Some(parsed)
  }

  function TextJson(o: Option<string>): Json
  {
    if o.None? then JNull else JStr(o.value)
  }

  function Items(parts: seq<string>): seq<Json>
  {
    if parts == [] then [] else [JStr(parts[0])] + Items(parts[1..])
  }

  function ScopesJson(o: Option<seq<string>>): Json
  {
    if o.None? then JNull else JArr(Items(o.value))
  }

  /** The keys every body has. */
  function FieldKeys(displayName: Json, issuerUrl: Json, clientId: Json, claimStyle: Json, scopes: Json, enabled: Json): Obj
  {
    map["display_name" := displayName, "issuer_url" := issuerUrl, "client_id" := clientId, "claim_style" := claimStyle,
        "scopes" := scopes, "enabled" := enabled]
  }

  function BuildWriteBody(f: Form, v: View, trim: string -> string): Obj
  {
    var body := FieldKeys(
      TextJson(ResolveOverride(f.displayName, v.displayName.default, trim)),
      TextJson(ResolveOverride(f.issuerUrl, v.issuerUrl.default, trim)),
      TextJson(ResolveOverride(f.clientId, v.clientId.default, trim)),
      TextJson(ResolveOverride(f.claimStyle, v.claimStyle.default, trim)),
      ScopesJson(ResolveScopesOverride(f.scopes, v.scopesDefault, trim)),
      JBool(f.enabled));
    if f.clientSecret != "" then body["client_secret" := JStr(f.clientSecret)]
    else if f.clearSecret then body["client_secret" := JStr("")]
    else body
  }

  /** The row after opening a provider in the form and saving it unedited. */
  function SaveUnedited(id: string, env: Option<Provider>, row: Option<Row>, defaults: Option<Defaults>, trim: string -> string): Row
  {
    var v := BuildView(MergeFields(id, env, row, defaults));
    Upsert(row, BuildWriteBody(ViewToForm(v), v, trim))
  }

  // ----- trimming -----

  predicate LawfulAt(trim: string -> string, s: string)
  {
    && trim(trim(s)) == trim(s)
    && trim(" " + s) == trim(s)
    && |trim(s)| <= |s| && (|trim(s)| == |s| ==> trim(s) == s)
    && forall c | c in trim(s) :: c in s
  }

  /** Trimming twice is trimming once, a space in front does not matter, and trimming only removes. */
  ghost predicate Lawful(trim: string -> string)
  {
    trim("") == "" && forall s :: LawfulAt(trim, s)
  }

  lemma TrimSpaced(s: string, space: char -> bool)
    requires space(' ')
    ensures Trim(" " + s, space) == Trim(s, space)
  {
    assert (" " + s)[1..] == s;
  }

  lemma TrimsAreLawful()
    ensures Lawful(JsTrim) && Lawful(GoTrim)
  {
    forall s ensures LawfulAt(JsTrim, s) {
      TrimIs(s, JsSpace);
      TrimIs(Trim(s, JsSpace), JsSpace);
      TrimSpaced(s, JsSpace);
    }
    forall s ensures LawfulAt(GoTrim, s) {
      TrimIs(s, GoSpace);
      TrimIs(Trim(s, GoSpace), GoSpace);
      TrimSpaced(s, GoSpace);
    }
  }

  // ----- the scope text round trip -----

  /** A scope the form's text can carry: not empty, no comma, no white space around it. */
  predicate Clean(scope: string, trim: string -> string)
  {
    scope != "" && ',' !in scope && trim(scope) == scope
  }

  predicate AllClean(scopes: seq<string>, trim: string -> string)
  {
    forall s | s in scopes :: Clean(s, trim)
  }

  /** The pieces after the first of a list joined with a separator and one space. */
  function TailPieces(scopes: seq<string>, sep: char, sp: string): seq<string>
    requires scopes != []
  {
    if |scopes| == 1 then [] else Split(sp + Join(scopes[1..], [sep] + sp), sep)
  }

  /** The pieces of a joined list, with or without a space before it. */
  lemma {:induction false} SplitJoined(scopes: seq<string>, sep: char, sp: string)
    requires scopes != [] && (forall s | s in scopes :: sep !in s) && sep !in sp
    ensures Split(Join(scopes, [sep] + sp), sep) == [scopes[0]] + TailPieces(scopes, sep, sp)
    ensures Split(sp + Join(scopes, [sep] + sp), sep) == [sp + scopes[0]] + TailPieces(scopes, sep, sp)
  {
    var a := scopes[0];
    assert a in scopes;
    assert sep !in sp + a;
    if |scopes| == 1 {
      SplitAtom(a, sep);
      SplitAtom(sp + a, sep);
    } else {
      var tail := sp + Join(scopes[1..], [sep] + sp);
      assert Join(scopes, [sep] + sp) == a + [sep] + tail;
      assert sp + Join(scopes, [sep] + sp) == (sp + a) + [sep] + tail;
      SplitCons(a, sep, tail);
      SplitCons(sp + a, sep, tail);
    }
  }

  /** Joining and splitting again gives the pieces back up to the joining space. */
  lemma {:induction false} JoinedPieces(scopes: seq<string>, sep: char, sp: string, trim: string -> string)
    requires sep !in sp && scopes != []
    requires forall s | s in scopes :: sep !in s && trim(sp + s) == trim(s)
    ensures TrimAll(Split(Join(scopes, [sep] + sp), sep), trim) == TrimAll(scopes, trim)
    ensures TrimAll(Split(sp + Join(scopes, [sep] + sp), sep), trim) == TrimAll(scopes, trim)
  {
    var a, rest := scopes[0], scopes[1..];
    assert a in scopes && scopes == [a] + rest;
    var tail := TailPieces(scopes, sep, sp);
    if rest != [] {
      assert forall s | s in rest :: s in scopes;
      JoinedPieces(rest, sep, sp, trim);
    }
    assert TrimAll(tail, trim) == TrimAll(rest, trim);
    SplitJoined(scopes, sep, sp);
    TrimAllCons(a, tail, trim);
    TrimAllCons(sp + a, tail, trim);
    TrimAllCons(a, rest, trim);
  }

  /** The list the form's text gives back, and what the server keeps of it. */
  function Parsed(shown: seq<string>, trim: string -> string): seq<string>
  {
    TrimAll(Split(Join(shown, ", "), ','), trim)
  }

  function Stored(shown: seq<string>, trim: string -> string, serverTrim: string -> string): seq<string>
  {
    TrimAll(Parsed(shown, trim), serverTrim)
  }

  lemma ParsedIs(shown: seq<string>, trim: string -> string)
    requires Lawful(trim) && shown != [] && forall s | s in shown :: ',' !in s
    ensures Parsed(shown, trim) == TrimAll(shown, trim)
  {
    forall s | s in shown ensures ',' !in s && trim(" " + s) == trim(s) {
      assert LawfulAt(trim, s);
    }
    JoinedPieces(shown, ',', " ", trim);
    assert [','] + " " == ", ";
  }

  lemma ParsedMember(shown: seq<string>, trim: string -> string, p: string)
    requires Lawful(trim) && p in Parsed(shown, trim)
    ensures Clean(p, trim)
  {
    var parts := Split(Join(shown, ", "), ',');
    TrimAllMember(parts, trim, p);
    var x :| x in parts && p == trim(x);
    assert LawfulAt(trim, x);
  }

  /** The form's text carries a scope list faithfully exactly when every scope is clean. */
  lemma ScopesRoundTrip(scopes: seq<string>, trim: string -> string)
    requires Lawful(trim) && scopes != []
    ensures ParseScopes(Join(scopes, ", "), trim) == Some(scopes) <==> AllClean(scopes, trim)
  {
    if AllClean(scopes, trim) {
      ParsedIs(scopes, trim);
      TrimAllClean(scopes, trim);
    } else if Parsed(scopes, trim) == scopes {
      forall s | s in scopes ensures Clean(s, trim) {
        ParsedMember(scopes, trim, s);
      }
    }
  }

  /** If trimming for the browser and then for the server gives the list back, it was trimmed for both. */
  lemma {:induction false} KeptBothIsTrimmed(scopes: seq<string>, trim: string -> string, serverTrim: string -> string)
    requires Lawful(trim) && Lawful(serverTrim) && TrimAll(TrimAll(scopes, trim), serverTrim) == scopes
    ensures forall s | s in scopes :: s != "" && trim(s) == s && serverTrim(s) == s
  {
    if scopes != [] {
      var x, rest := scopes[0], scopes[1..];
      var t := trim(x);
      TrimAllLengths(rest, trim, serverTrim);
      TrimAllCons(x, rest, trim);
      assert scopes == [x] + rest;
      assert t != "";
      TrimAllCons(t, TrimAll(rest, trim), serverTrim);
      assert serverTrim(t) == x && TrimAll(TrimAll(rest, trim), serverTrim) == rest;
      KeptBothIsTrimmed(rest, trim, serverTrim);
      assert LawfulAt(trim, x) && LawfulAt(serverTrim, t);
    }
  }

  lemma {:induction false} TrimAllShortens(parts: seq<string>, trim: string -> string)
    ensures |TrimAll(parts, trim)| <= |parts|
  {
    if parts != [] {
      TrimAllShortens(parts[1..], trim);
    }
  }

  lemma TrimAllLengths(parts: seq<string>, trim: string -> string, serverTrim: string -> string)
    ensures |TrimAll(TrimAll(parts, trim), serverTrim)| <= |TrimAll(parts, trim)| <= |parts|
  {
    TrimAllShortens(parts, trim);
    TrimAllShortens(TrimAll(parts, trim), serverTrim);
  }

  lemma {:induction false} ItemsDecode(parts: seq<string>)
    ensures StringItems(Items(parts)) == Some(parts)
  {
    if parts != [] {
      ItemsDecode(parts[1..]);
      assert Items(parts)[1..] == Items(parts[1..]);
      assert parts == [parts[0]] + parts[1..];
    } else {
      assert StringItems([]) == Some([]);
    }
  }

  // ----- what an unedited save does to one field -----

  /** Column after the save, for a text field with this column and this row-less value. */
  function SavedText(column: Option<string>, def: string, trim: string -> string): Option<string>
  {
    ResolveOverride(Shown(TextView(OverrideText(column), NonEmpty(def), FromNone)), NonEmpty(def), trim)
  }

  /** No override, or one the form reproduces: trimmed and not the trimmed default, or the default itself. */
  predicate TextSafe(column: Option<string>, def: string, trim: string -> string)
  {
    var own := TextOf(column);
    own == "" || own == def || (trim(own) == own && own != trim(def))
  }

  lemma SavedTextIs(column: Option<string>, def: string, trim: string -> string)
    ensures SavedText(column, def, trim) == Differing(trim(Or(TextOf(column), def)), trim(def))
  {
    var t := TextView(OverrideText(column), NonEmpty(def), FromNone);
    assert Shown(t) == Or(TextOf(column), def);
    assert TextOf(NonEmpty(def)) == def;
  }

  /** An unedited save keeps a text field's effective value exactly when it is safe, and a second
      one never changes the column. */
  lemma SavedTextExact(column: Option<string>, def: string, trim: string -> string)
    requires Lawful(trim)
    ensures Or(TextOf(SavedText(column, def, trim)), def) == Or(TextOf(column), def) <==> TextSafe(column, def, trim)
    ensures SavedText(SavedText(column, def, trim), def, trim) == SavedText(column, def, trim)
  {
    var saved := SavedText(column, def, trim);
    SavedTextIs(column, def, trim);
    SavedTextIs(saved, def, trim);
    assert LawfulAt(trim, TextOf(column));
  }

  function SavedScopes(column: Option<seq<string>>, def: seq<string>, trim: string -> string): Option<seq<string>>
  {
    match ResolveScopesOverride(Join(ScopesOr(column, def), ", "), def, trim)
    case None => None
    case Some(parsed) => StoredScopes(parsed)
  }

  /** The effective scopes survive the form's text, or equal the defaults and leave nothing to
      store; scopes that are an override must also survive the server's trimming. */
  predicate ScopesSafe(column: Option<seq<string>>, def: seq<string>, trim: string -> string)
  {
    var shown := ScopesOr(column, def);
    if shown == def then AllClean(shown, trim) || Stored(shown, trim, GoTrim) == []
    else AllClean(shown, trim) && AllClean(shown, GoTrim)
  }

  /** What the two trimmings keep whole. */
  lemma KeptWhole(shown: seq<string>, trim: string -> string, serverTrim: string -> string)
    requires Lawful(trim) && Lawful(serverTrim) && shown != []
    ensures Parsed(shown, trim) == shown <==> AllClean(shown, trim)
    ensures Stored(shown, trim, serverTrim) == shown <==> AllClean(shown, trim) && AllClean(shown, serverTrim)
    ensures Parsed(shown, trim) == [] ==> Stored(shown, trim, serverTrim) == []
  {
    ScopesRoundTrip(shown, trim);
    var parsed, stored := Parsed(shown, trim), Stored(shown, trim, serverTrim);
    if stored == shown {
      forall s | s in shown ensures ',' !in s {
        TrimAllMember(parsed, serverTrim, s);
        var p :| p in parsed && s == serverTrim(p);
        ParsedMember(shown, trim, p);
        assert LawfulAt(serverTrim, p);
      }
      ParsedIs(shown, trim);
      KeptBothIsTrimmed(shown, trim, serverTrim);
    } else if AllClean(shown, trim) && AllClean(shown, serverTrim) {
      TrimAllClean(shown, serverTrim);
    }
  }

  lemma SavedScopesIs(column: Option<seq<string>>, def: seq<string>, trim: string -> string)
    ensures var shown := ScopesOr(column, def); var parsed, stored := Parsed(shown, trim), Stored(shown, trim, GoTrim);
      SavedScopes(column, def, trim) == if parsed == [] || parsed == def || stored == [] then None else Some(stored)
  {
  }

  /** What a save does to the scopes, for any parsed and stored lists related as KeptWhole says. */
  lemma StoringExact(shown: seq<string>, def: seq<string>, parsed: seq<string>, stored: seq<string>, clean: bool, serverClean: bool)
    requires shown != [] && def != []
    requires (parsed == shown <==> clean) && (stored == shown <==> clean && serverClean) && (parsed == [] ==> stored == [])
    ensures var saved := if parsed == [] || parsed == def || stored == [] then None else Some(stored);
      ScopesOr(saved, def) == shown <==> if shown == def then clean || stored == [] else clean && serverClean
  {
  }

  lemma SavedScopesExact(column: Option<seq<string>>, def: seq<string>, trim: string -> string)
    requires Lawful(trim) && def != []
    ensures ScopesOr(SavedScopes(column, def, trim), def) == ScopesOr(column, def) <==> ScopesSafe(column, def, trim)
  {
    var shown := ScopesOr(column, def);
    TrimsAreLawful();
    KeptWhole(shown, trim, GoTrim);
    SavedScopesIs(column, def, trim);
    StoringExact(shown, def, Parsed(shown, trim), Stored(shown, trim, GoTrim), AllClean(shown, trim), AllClean(shown, GoTrim));
  }

  /** The stored list is clean for the browser and the server and not the default, or none is stored
      and the default's own text stores nothing either. */
  predicate ScopesStable(saved: Option<seq<string>>, def: seq<string>, trim: string -> string)
  {
    match saved
    case None => AllClean(def, trim) || Stored(def, trim, GoTrim) == []
    case Some(list) => AllClean(list, trim) && AllClean(list, GoTrim) && list != def
  }

  /** A second save leaves the scopes column alone exactly when what the first one stored is stable. */
  lemma SavedScopesAgain(column: Option<seq<string>>, def: seq<string>, trim: string -> string)
    requires Lawful(trim) && def != []
    ensures var saved := SavedScopes(column, def, trim);
      SavedScopes(saved, def, trim) == saved <==> ScopesStable(saved, def, trim)
  {
    var saved := SavedScopes(column, def, trim);
    TrimsAreLawful();
    SavedScopesIs(column, def, trim);
    SavedScopesIs(saved, def, trim);
    KeptWhole(ScopesOr(saved, def), trim, GoTrim);
  }

  /** Scopes that are safe to save once are stable. */
  lemma SafeScopesAreStable(column: Option<seq<string>>, def: seq<string>, trim: string -> string)
    requires Lawful(trim) && def != [] && ScopesSafe(column, def, trim)
    ensures ScopesStable(SavedScopes(column, def, trim), def, trim)
  {
    SavedScopesExact(column, def, trim);
    SavedScopesAgain(column, def, trim);
  }

  // ----- the whole save -----

  lemma FieldKeysAre(displayName: Json, issuerUrl: Json, clientId: Json, claimStyle: Json, scopes: Json, enabled: Json)
    ensures var body := FieldKeys(displayName, issuerUrl, clientId, claimStyle, scopes, enabled);
      && "client_secret" !in body
      && "display_name" in body && body["display_name"] == displayName
      && "issuer_url" in body && body["issuer_url"] == issuerUrl
      && "client_id" in body && body["client_id"] == clientId
      && "claim_style" in body && body["claim_style"] == claimStyle
      && "scopes" in body && body["scopes"] == scopes
      && "enabled" in body && body["enabled"] == enabled
  {
  }

  lemma MergeSent(body: Obj, key: string, o: Option<string>, existing: Option<string>)
    requires key in body && body[key] == TextJson(o) && o != Some("")
    ensures MergeTextField(body, key, existing) == o
  {
  }

  lemma MergeSentScopes(body: Obj, o: Option<seq<string>>, existing: Option<seq<string>>)
    requires "scopes" in body && body["scopes"] == ScopesJson(o)
    ensures MergeScopes(body, existing) == if o.None? then None else StoredScopes(o.value)
  {
    if o.Some? {
      ItemsDecode(o.value);
    }
  }

  /** What a body with every field key and no secret stores, column by column. */
  lemma UpsertKeys(row: Option<Row>, displayName: Option<string>, issuerUrl: Option<string>, clientId: Option<string>,
                   claimStyle: Option<string>, scopes: Option<seq<string>>, enabled: bool)
    requires Some("") !in {displayName, issuerUrl, clientId, claimStyle}
    ensures Upsert(row, FieldKeys(TextJson(displayName), TextJson(issuerUrl), TextJson(clientId), TextJson(claimStyle),
                                  ScopesJson(scopes), JBool(enabled)))
         == Row(displayName, issuerUrl, clientId, RowOrEmpty(row).clientSecret, claimStyle,
                if scopes.None? then None else StoredScopes(scopes.value), enabled)
  {
    var body, r := FieldKeys(TextJson(displayName), TextJson(issuerUrl), TextJson(clientId), TextJson(claimStyle),
                             ScopesJson(scopes), JBool(enabled)), RowOrEmpty(row);
    FieldKeysAre(TextJson(displayName), TextJson(issuerUrl), TextJson(clientId), TextJson(claimStyle), ScopesJson(scopes), JBool(enabled));
    MergeSent(body, "display_name", displayName, r.displayName);
    MergeSent(body, "issuer_url", issuerUrl, r.issuerUrl);
    MergeSent(body, "client_id", clientId, r.clientId);
    MergeSent(body, "claim_style", claimStyle, r.claimStyle);
    MergeSentScopes(body, scopes, r.scopes);
  }

  lemma SentText(t: TextView, column: Option<string>, def: string, trim: string -> string)
    requires t.own == OverrideText(column) && t.default == NonEmpty(def)
    ensures ResolveOverride(Shown(t), t.default, trim) == SavedText(column, def, trim) != Some("")
  {
  }

  lemma UneditedBody(f: Form, v: View, trim: string -> string,
                     displayName: Json, issuerUrl: Json, clientId: Json, claimStyle: Json, scopes: Json)
    requires f.clientSecret == "" && !f.clearSecret
    requires displayName == TextJson(ResolveOverride(f.displayName, v.displayName.default, trim))
    requires issuerUrl == TextJson(ResolveOverride(f.issuerUrl, v.issuerUrl.default, trim))
    requires clientId == TextJson(ResolveOverride(f.clientId, v.clientId.default, trim))
    requires claimStyle == TextJson(ResolveOverride(f.claimStyle, v.claimStyle.default, trim))
    requires scopes == ScopesJson(ResolveScopesOverride(f.scopes, v.scopesDefault, trim))
    ensures BuildWriteBody(f, v, trim) == FieldKeys(displayName, issuerUrl, clientId, claimStyle, scopes, JBool(f.enabled))
  {
  }

  /** What the row saved unedited holds, column by column, for a view over this row and these row-less values. */
  lemma SavedOver(v: View, row: Option<Row>, d: Provider, trim: string -> string)
    requires var r := RowOrEmpty(row);
      && v.displayName.own == OverrideText(r.displayName) && v.issuerUrl.own == OverrideText(r.issuerUrl)
      && v.clientId.own == OverrideText(r.clientId) && v.claimStyle.own == OverrideText(r.claimStyle)
      && v.scopes == (if r.scopes == Some([]) then None else r.scopes) && v.enabled == r.enabled
    requires ShowsDefaults(v, d)
    ensures var r := RowOrEmpty(row);
      Upsert(row, BuildWriteBody(ViewToForm(v), v, trim))
        == Row(SavedText(r.displayName, d.displayName, trim), SavedText(r.issuerUrl, d.issuerUrl, trim),
               SavedText(r.clientId, d.clientId, trim), r.clientSecret, SavedText(r.claimStyle, d.claimStyle, trim),
               SavedScopes(r.scopes, d.scopes, trim), r.enabled)
  {
    var r := RowOrEmpty(row);
    SentText(v.displayName, r.displayName, d.displayName, trim);
    SentText(v.issuerUrl, r.issuerUrl, d.issuerUrl, trim);
    SentText(v.clientId, r.clientId, d.clientId, trim);
    SentText(v.claimStyle, r.claimStyle, d.claimStyle, trim);
    var displayName, issuerUrl := SavedText(r.displayName, d.displayName, trim), SavedText(r.issuerUrl, d.issuerUrl, trim);
    var clientId, claimStyle := SavedText(r.clientId, d.clientId, trim), SavedText(r.claimStyle, d.claimStyle, trim);
    var scopes := ResolveScopesOverride(Join(ScopesOr(r.scopes, d.scopes), ", "), d.scopes, trim);
    UneditedBody(ViewToForm(v), v, trim, TextJson(displayName), TextJson(issuerUrl), TextJson(clientId), TextJson(claimStyle), ScopesJson(scopes));
    UpsertKeys(row, displayName, issuerUrl, clientId, claimStyle, scopes, r.enabled);
  }

  lemma SavedRow(id: string, env: Option<Provider>, row: Option<Row>, defaults: Option<Defaults>, trim: string -> string)
    ensures var r := RowOrEmpty(row); var d := MergeFields(id, env, None, defaults).effective;
      SaveUnedited(id, env, row, defaults, trim)
        == Row(SavedText(r.displayName, d.displayName, trim), SavedText(r.issuerUrl, d.issuerUrl, trim),
               SavedText(r.clientId, d.clientId, trim), r.clientSecret, SavedText(r.claimStyle, d.claimStyle, trim),
               SavedScopes(r.scopes, d.scopes, trim), r.enabled)
  {
    DefaultsAreRowless(id, env, row, defaults);
    SavedOver(BuildView(MergeFields(id, env, row, defaults)), row, MergeFields(id, env, None, defaults).effective, trim);
  }

  /** Every override in the row is one the form reproduces, over these row-less values. */
  predicate SafeToSave(row: Option<Row>, d: Provider, trim: string -> string)
  {
    var r := RowOrEmpty(row);
    && TextSafe(r.displayName, d.displayName, trim) && TextSafe(r.issuerUrl, d.issuerUrl, trim)
    && TextSafe(r.clientId, d.clientId, trim) && TextSafe(r.claimStyle, d.claimStyle, trim)
    && ScopesSafe(r.scopes, d.scopes, trim)
  }

  lemma SavedOverExact(row: Option<Row>, d: Provider, trim: string -> string)
    requires Lawful(trim) && d.scopes != []
    ensures var r := RowOrEmpty(row);
      var saved := Row(SavedText(r.displayName, d.displayName, trim), SavedText(r.issuerUrl, d.issuerUrl, trim),
                       SavedText(r.clientId, d.clientId, trim), r.clientSecret, SavedText(r.claimStyle, d.claimStyle, trim),
                       SavedScopes(r.scopes, d.scopes, trim), r.enabled);
      Over(saved, d) == Over(r, d) <==> SafeToSave(row, d, trim)
  {
    var r := RowOrEmpty(row);
    SavedTextExact(r.displayName, d.displayName, trim);
    SavedTextExact(r.issuerUrl, d.issuerUrl, trim);
    SavedTextExact(r.clientId, d.clientId, trim);
    SavedTextExact(r.claimStyle, d.claimStyle, trim);
    SavedScopesExact(r.scopes, d.scopes, trim);
  }

  /** Opening a provider and saving it unedited leaves the effective provider as it was exactly
      when every override is one the form reproduces; the enabled flag and the secret always stay. */
  lemma UneditedSaveKeepsProvider(id: string, env: Option<Provider>, row: Option<Row>, defaults: Option<Defaults>, trim: string -> string)
    requires Lawful(trim)
    ensures var before := MergeFields(id, env, row, defaults);
      var saved := SaveUnedited(id, env, row, defaults, trim);
      var after := MergeFields(id, env, Some(saved), defaults);
      && (after.effective == before.effective <==> SafeToSave(row, MergeFields(id, env, None, defaults).effective, trim))
      && MergedEnabled(after) == MergedEnabled(before)
      && saved.clientSecret == RowOrEmpty(row).clientSecret
  {
    SavedRow(id, env, row, defaults, trim);
    EffectiveOverDefaults(id, env, row, defaults);
    EffectiveOverDefaults(id, env, Some(SaveUnedited(id, env, row, defaults, trim)), defaults);
    SavedOverExact(row, MergeFields(id, env, None, defaults).effective, trim);
  }

  /** A second unedited save changes the row exactly when the scopes the first one stored are not
      stable; the text columns, the flag and the secret never change again. */
  lemma SecondSaveChangesNothing(id: string, env: Option<Provider>, row: Option<Row>, defaults: Option<Defaults>, trim: string -> string)
    requires Lawful(trim)
    ensures var saved := SaveUnedited(id, env, row, defaults, trim); var again := SaveUnedited(id, env, Some(saved), defaults, trim);
      && (again == saved <==> ScopesStable(saved.scopes, MergeFields(id, env, None, defaults).effective.scopes, trim))
      && again.(scopes := saved.scopes) == saved
  {
    var r := RowOrEmpty(row);
    var d := MergeFields(id, env, None, defaults).effective;
    SavedRow(id, env, row, defaults, trim);
    SavedRow(id, env, Some(SaveUnedited(id, env, row, defaults, trim)), defaults, trim);
    EffectiveOverDefaults(id, env, row, defaults);
    SavedTextExact(r.displayName, d.displayName, trim);
    SavedTextExact(r.issuerUrl, d.issuerUrl, trim);
    SavedTextExact(r.clientId, d.clientId, trim);
    SavedTextExact(r.claimStyle, d.claimStyle, trim);
    SavedScopesAgain(r.scopes, d.scopes, trim);
  }

  /** A provider that one unedited save leaves as it was is settled by it: the second one stores the
      same row. */
  lemma SafeOnceIsStable(id: string, env: Option<Provider>, row: Option<Row>, defaults: Option<Defaults>, trim: string -> string)
    requires Lawful(trim)
    requires var saved := SaveUnedited(id, env, row, defaults, trim);
      MergeFields(id, env, Some(saved), defaults).effective == MergeFields(id, env, row, defaults).effective
    ensures var saved := SaveUnedited(id, env, row, defaults, trim); SaveUnedited(id, env, Some(saved), defaults, trim) == saved
  {
    hide SaveUnedited, MergeFields;
    var d := MergeFields(id, env, None, defaults).effective;
    UneditedSaveKeepsProvider(id, env, row, defaults, trim);
    SecondSaveChangesNothing(id, env, row, defaults, trim);
    SavedRow(id, env, row, defaults, trim);
    EffectiveOverDefaults(id, env, row, defaults);
    SafeScopesAreStable(RowOrEmpty(row).scopes, d.scopes, trim);
  }

  /** Trimmed values and comma-free, non-empty, trimmed scopes are always safe to save unedited. */
  lemma TrimmedProviderIsSafe(row: Option<Row>, d: Provider, trim: string -> string)
    requires var p := Over(RowOrEmpty(row), d);
      && (forall s | s in {p.displayName, p.issuerUrl, p.clientId, p.claimStyle} :: trim(s) == s)
      && (forall s | s in {d.displayName, d.issuerUrl, d.clientId, d.claimStyle} :: trim(s) == s)
      && AllClean(p.scopes, trim) && AllClean(p.scopes, GoTrim)
    ensures SafeToSave(row, d, trim)
  {
    var p := Over(RowOrEmpty(row), d);
    assert trim(p.displayName) == p.displayName && trim(p.issuerUrl) == p.issuerUrl;
    assert trim(p.clientId) == p.clientId && trim(p.claimStyle) == p.claimStyle;
    assert trim(d.displayName) == d.displayName && trim(d.issuerUrl) == d.issuerUrl;
    assert trim(d.clientId) == d.clientId && trim(d.claimStyle) == d.claimStyle;
  }

  // ----- saves that show the conditions are needed -----

  /** Parsing a single scope with one comma in it gives the two halves. */
  lemma HalvesParsed(a: string, b: string, trim: string -> string)
    requires ',' !in a && ',' !in b && trim(a) == a != "" && trim(b) == b != ""
    ensures Parsed([a + "," + b], trim) == [a, b]
  {
    assert Join([a + "," + b], ", ") == a + [','] + b;
    SplitCons(a, ',', b);
    SplitAtom(b, ',');
    assert [a] + [b] == [a, b];
    TrimAllClean([a, b], trim);
  }

  lemma PlainIsKept(a: string, space: char -> bool)
    requires a != "" && !space(a[0]) && !space(a[|a| - 1])
    ensures Trim(a, space) == a
  {
    TrimIs(a, space);
  }

  /** A row that overrides the scopes only. */
  function ScopesRow(scopes: seq<string>): Option<Row>
  {
    Some(Row(None, None, None, None, None, Some(scopes), true))
  }

  lemma RowlessScopes(id: string)
    ensures MergeFields(id, None, None, None).effective.scopes == DEFAULT_SCOPES && |DEFAULT_SCOPES| == 3
  {
  }

  /** A scope of two halves is saved as what the server keeps of them. */
  lemma HalvesSaved(a: string, b: string, kept: seq<string>, def: seq<string>, trim: string -> string)
    requires ',' !in a && ',' !in b && trim(a) == a != "" && trim(b) == b != ""
    requires TrimAll([a, b], GoTrim) == kept != [] && |def| != 2
    ensures SavedScopes(Some([a + "," + b]), def, trim) == Some(kept)
  {
    HalvesParsed(a, b, trim);
    SavedScopesIs(Some([a + "," + b]), def, trim);
  }

  lemma KeptHalves(a: string, b: string, x: string, serverTrim: string -> string)
    requires serverTrim(a) == a != "" && serverTrim(b) == x != ""
    ensures TrimAll([a, b], serverTrim) == [a, x]
  {
    TrimAllCons(a, [b], serverTrim);
    TrimAllCons(b, [], serverTrim);
    assert [a] + [b] == [a, b] && [b] + [] == [b] && [a] + ([x] + []) == [a, x];
  }

  /** A saved list with a scope the browser trims does not survive a second save. */
  lemma UnstableAgain(id: string, scope: string, kept: seq<string>, x: string, trim: string -> string)
    requires Lawful(trim) && x in kept && trim(x) != x
    requires SavedScopes(Some([scope]), MergeFields(id, None, None, None).effective.scopes, trim) == Some(kept)
    ensures var saved := SaveUnedited(id, None, ScopesRow([scope]), None, trim);
      saved.scopes == Some(kept) && SaveUnedited(id, None, Some(saved), None, trim) != saved
  {
    RowSaved(id, scope, kept, trim);
    SecondSaveChangesNothing(id, None, ScopesRow([scope]), None, trim);
    assert !Clean(x, trim);
  }

  /** The scopes a row with one scope saves, and their effect. */
  lemma RowSaved(id: string, scope: string, kept: seq<string>, trim: string -> string)
    requires kept != [] && SavedScopes(Some([scope]), MergeFields(id, None, None, None).effective.scopes, trim) == Some(kept)
    ensures var saved := SaveUnedited(id, None, ScopesRow([scope]), None, trim);
      && MergeFields(id, None, ScopesRow([scope]), None).effective.scopes == [scope]
      && saved.scopes == Some(kept) && MergeFields(id, None, Some(saved), None).effective.scopes == kept
  {
    SavedRow(id, None, ScopesRow([scope]), None, trim);
    EffectiveOverDefaults(id, None, ScopesRow([scope]), None);
    EffectiveOverDefaults(id, None, Some(SaveUnedited(id, None, ScopesRow([scope]), None, trim)), None);
  }

  /** Opening a provider with one scope of two clean halves and saving it unedited makes it two scopes. */
  lemma CommaScopeIsSplit(id: string, a: string, b: string, trim: string -> string)
    requires Clean(a, trim) && Clean(b, trim) && Clean(a, GoTrim) && Clean(b, GoTrim)
    ensures var saved := SaveUnedited(id, None, ScopesRow([a + "," + b]), None, trim);
      && MergeFields(id, None, ScopesRow([a + "," + b]), None).effective.scopes == [a + "," + b]
      && MergeFields(id, None, Some(saved), None).effective.scopes == [a, b]
  {
    RowlessScopes(id);
    KeptHalves(a, b, b, GoTrim);
    HalvesSaved(a, b, [a, b], MergeFields(id, None, None, None).effective.scopes, trim);
    RowSaved(id, a + "," + b, [a, b], trim);
  }

  /** For instance the scope "a,b". */
  lemma CommaScopeExample(id: string)
    ensures var saved := SaveUnedited(id, None, ScopesRow(["a" + "," + "b"]), None, JsTrim);
      && MergeFields(id, None, ScopesRow(["a" + "," + "b"]), None).effective.scopes == ["a" + "," + "b"]
      && MergeFields(id, None, Some(saved), None).effective.scopes == ["a", "b"]
  {
    PlainIsKept("a", JsSpace);
    PlainIsKept("b", JsSpace);
    PlainIsKept("a", GoSpace);
    PlainIsKept("b", GoSpace);
    CommaScopeIsSplit(id, "a", "b", JsTrim);
  }

  /** A scope whose second half only the server shortens, to something the browser shortens, changes at
      the first save and again at the second. */
  lemma SecondSaveMayChange(id: string, a: string, b: string, x: string, trim: string -> string)
    requires Lawful(trim) && Clean(a, trim) && Clean(a, GoTrim) && Clean(b, trim)
    requires GoTrim(b) == x != "" && trim(x) != x
    ensures var saved := SaveUnedited(id, None, ScopesRow([a + "," + b]), None, trim);
      saved.scopes == Some([a, x]) && SaveUnedited(id, None, Some(saved), None, trim) != saved
  {
    RowlessScopes(id);
    KeptHalves(a, b, x, GoTrim);
    HalvesSaved(a, b, [a, x], MergeFields(id, None, None, None).effective.scopes, trim);
    UnstableAgain(id, a + "," + b, [a, x], x, trim);
  }

  /** For instance the scope "a,<U+0085><U+FEFF>x". */
  lemma SecondSaveExample(id: string)
    ensures var saved := SaveUnedited(id, None, ScopesRow(["a" + "," + ['\U{0085}', '\U{FEFF}', 'x']]), None, JsTrim);
      SaveUnedited(id, None, Some(saved), None, JsTrim) != saved
  {
    var a, b, x := "a", ['\U{0085}', '\U{FEFF}', 'x'], ['\U{FEFF}', 'x'];
    PlainIsKept(a, JsSpace);
    PlainIsKept(a, GoSpace);
    PlainIsKept(b, JsSpace);
    assert [b[0]] + x == b;
    MarkTrimmed(x);
    TrimsAreLawful();
    SecondSaveMayChange(id, a, b, x, JsTrim);
  }

  lemma MarkTrimmed(x: string)
    requires |x| > 1 && x[0] == '\U{FEFF}' && !GoSpace(x[|x| - 1])
    ensures GoTrim(['\U{0085}'] + x) == x && JsTrim(x) != x
  {
    var b := ['\U{0085}'] + x;
    assert b[1..] == x && TrimLeft(b, GoSpace) == TrimLeft(x, GoSpace) == x;
    PlainIsKept(x, GoSpace);
    TrimIs(x, JsSpace);
  }
}
