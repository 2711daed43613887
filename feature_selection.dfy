/**
  The feature-selection document of feature_selection/feature_selection.py:
  a YAML mapping from theme names to theme descriptions, each naming the
  OpenStreetMap keys to `select`, an optional SQL `where` filter and optional
  geometry `types`. The model validates such a document rule by rule, caches
  it, and derives from it the table names, the SQL that creates and indexes
  the tables, the union of the keys and the per-theme README.

  YAML parsing is outside the model: a document arrives already parsed, as a
  `RawDoc`. A Python dict is an ordered sequence of entries with distinct
  names (the order is the order validation visits them in). The SQL validator
  is an oracle returning its verdict, its error messages and the column names
  the clause mentions.
 */
module FeatureSelection {
  import opened Wrappers
  import opened Text
  import opened Slug

  /** The value of a theme's `select` key. */
  datatype SelectValue =
    | SelectList(keys: seq<string>)      // a YAML list of keys
    | SelectIterable(items: seq<string>) // another iterable value: a string (its characters) or a mapping (its keys)
    | SelectNotIterable                  // null or a number: iterating it raises TypeError

  /** A theme's mapping; absent keys are `None`. */
  datatype Theme = Theme(select: Option<SelectValue>, where: Option<string>, types: Option<seq<string>>)

  type Entry = (string, Theme)

  /** What `yaml.safe_load` returned: a mapping, or anything else. */
  datatype Loaded = NotDict | Dict(entries: seq<Entry>)

  /** The raw document: a YAML syntax error with its problem text, or the loaded value. */
  datatype RawDoc = YamlError(problem: string) | Yaml(loaded: Loaded)

  /** What `SQLValidator(clause)` reports. */
  datatype SqlCheck = SqlCheck(valid: bool, errors: seq<string>, columnNames: seq<string>)

  /** The outcome of `validate_schema`: it returns True, returns False after recording one error, or raises. */
  datatype Verdict = Accepted | Rejected(error: string) | Raised

  /** The outcome of one theme's checks; `keysReset` says whether `keys_from_sql[theme]` was already reset to the empty set. */
  datatype ThemeVerdict =
    | ThemePasses(sqlKeys: set<string>)
    | ThemeFails(error: string, keysReset: bool)
    | ThemeRaises

  /** What the `doc` property yields. */
  datatype DocResult = Document(doc: Loaded) | NoDocument | DocRaises

  // ---------------------------------------------------------------- constants

  const BannedThemeNames: seq<string> :=
    ["points", "lines", "multipolygons", "boundary", "multilinestrings", "other_relations"]

  const NotDictError := "YAML must be dict, not list"
  const ReservedPrefix := "Theme name reserved: "
  const BadNameError := "Each theme must be named using only characters, numbers, underscores and spaces"
  const NoSelectError := "Each theme must have a 'select' key"
  const MissingKeyError := "Missing OSM key"
  const InvalidKeyPrefix := "Invalid OSM key: "
  const NotListError := "'select' children must be list elements (e.g. '- amenity')"
  const SqlInvalidPrefix := "SQL WHERE Invalid: "

  const DefaultGeomTypes: seq<string> := ["points", "lines", "polygons"]
  const DefaultFilter := "1"

  /** The selected keys that make `sqls` add a `z_index` column. */
  const ZIndexKeys: seq<string> := ["highway", "railway", "bridge", "tunnel", "layer"]
  const ZIndexColumn := "\"z_index\""

  // --------------------------------------------------------- name and key rules

  predicate StartsWith(s: string, prefix: string) {
    |prefix| <= |s| && s[..|prefix|] == prefix
  }

  /** A name in `BANNED_THEME_NAMES` or one beginning `gpkg_` or `rtree_`. */
  predicate IsReserved(name: string) {
    name in BannedThemeNames || StartsWith(name, "gpkg_") || StartsWith(name, "rtree_")
  }

  predicate IsAsciiLetterOrDigit(c: char) { IsAsciiLower(c) || IsAsciiUpper(c) || IsDigit(c) }

  /** The class `[a-zA-Z0-9_ ]`. */
  predicate ThemeNameChar(c: char) { IsAsciiLetterOrDigit(c) || c == '_' || c == ' ' }

  /** The class `[a-zA-Z0-9 _\:]`. */
  predicate KeyChar(c: char) { IsAsciiLetterOrDigit(c) || c == '_' || c == ' ' || c == ':' }

  predicate AllThemeNameChars(s: string) { forall i :: 0 <= i < |s| ==> ThemeNameChar(s[i]) }
  predicate AllKeyChars(s: string) { forall i :: 0 <= i < |s| ==> KeyChar(s[i]) }

  /**
    `re.match('^[a-zA-Z0-9_ ]+$', name)`. Python's `$` also matches just before
    a newline that ends the string, so one trailing newline is let through.
   */
  predicate ThemeNameMatches(s: string) {
    (|s| >= 1 && AllThemeNameChars(s))
    || (|s| >= 2 && s[|s| - 1] == '\n' && AllThemeNameChars(s[..|s| - 1]))
  }

  /** `re.match("[a-zA-Z0-9 _\:]+$", key)`, with the same trailing-newline allowance. */
  predicate KeyMatches(s: string) {
    (|s| >= 1 && AllKeyChars(s))
    || (|s| >= 2 && s[|s| - 1] == '\n' && AllKeyChars(s[..|s| - 1]))
  }

  /** What iterating the `select` value visits. */
  function SelectItems(v: SelectValue): seq<string>
  {
    match v
    case SelectList(keys) => keys
    case SelectIterable(items) => items
    case SelectNotIterable => []
  }

  /** The error of the first key that is empty or outside the key alphabet, if any. */
  function FirstBadKey(items: seq<string>): Option<string>
  {
    if items == [] then None
    else if items[0] == "" then Some(MissingKeyError)
    else if !KeyMatches(items[0]) then Some(InvalidKeyPrefix + items[0])
    else FirstBadKey(items[1..])
  }

  /** The elements of a sequence as a set. */
  function SetOf(s: seq<string>): set<string>
  {
    set x | x in s
  }

  /** The checks `validate_schema` applies to one theme, in the source's order. */
  function CheckTheme(name: string, t: Theme, validator: string -> SqlCheck): ThemeVerdict
  {
    if IsReserved(name) then ThemeFails(ReservedPrefix + name, false)
    else if !ThemeNameMatches(name) then ThemeFails(BadNameError, false)
    else if t.select.None? then ThemeFails(NoSelectError, false)
    else if t.select.value.SelectNotIterable? then ThemeRaises
    else if FirstBadKey(SelectItems(t.select.value)).Some? then
      ThemeFails(FirstBadKey(SelectItems(t.select.value)).value, false)
    else if !t.select.value.SelectList? then ThemeFails(NotListError, false)
    else if t.where.None? then ThemePasses({})
    else
      var check := validator(t.where.value);
      if !check.valid then ThemeFails(SqlInvalidPrefix + Join(";", check.errors), true)
      else ThemePasses(SetOf(check.columnNames))
  }

  /**
    The themes checked in order, stopping at the first that fails, together
    with `keys_from_sql` as the source leaves it at that point.
   */
  function CheckEntries(es: seq<Entry>, validator: string -> SqlCheck, keys: map<string, set<string>>)
    : (Verdict, map<string, set<string>>)
  {
    if es == [] then (Accepted, keys)
    else
      match CheckTheme(es[0].0, es[0].1, validator)
      case ThemePasses(sqlKeys) => CheckEntries(es[1..], validator, keys[es[0].0 := sqlKeys])
      case ThemeFails(e, reset) => (Rejected(e), if reset then keys[es[0].0 := {}] else keys)
      case ThemeRaises => (Raised, keys)
  }

  /** `validate_schema(loaded_doc)`: its verdict and the resulting `keys_from_sql`. */
  function Schema(loaded: Loaded, validator: string -> SqlCheck, keys: map<string, set<string>>)
    : (Verdict, map<string, set<string>>)
  {
    match loaded
    case NotDict => (Rejected(NotDictError), keys)
    case Dict(es) => CheckEntries(es, validator, keys)
  }

  predicate DistinctNames(es: seq<Entry>) {
    forall i, j :: 0 <= i < j < |es| ==> es[i].0 != es[j].0
  }

  /** Every theme passes its checks. */
  ghost predicate AllAccepted(es: seq<Entry>, validator: string -> SqlCheck) {
    forall i :: 0 <= i < |es| ==> CheckTheme(es[i].0, es[i].1, validator).ThemePasses?
  }

  /** `keys_from_sql` holds, for every theme, the columns its `where` clause mentions. */
  ghost predicate KeysRecorded(es: seq<Entry>, validator: string -> SqlCheck, keys: map<string, set<string>>) {
    forall i :: 0 <= i < |es| ==>
      es[i].0 in keys && CheckTheme(es[i].0, es[i].1, validator) == ThemePasses(keys[es[i].0])
  }

  /** `KeysRecorded`, one theme at a time. */
  ghost predicate Recorded(es: seq<Entry>, validator: string -> SqlCheck, keys: map<string, set<string>>)
  {
    es == [] ||
    (es[0].0 in keys && CheckTheme(es[0].0, es[0].1, validator) == ThemePasses(keys[es[0].0])
     && Recorded(es[1..], validator, keys))
  }

  lemma {:induction false} RecordedIff(es: seq<Entry>, validator: string -> SqlCheck, keys: map<string, set<string>>)
    ensures Recorded(es, validator, keys) <==> KeysRecorded(es, validator, keys)
  {
    if es != [] {
      RecordedIff(es[1..], validator, keys);
      assert forall i :: 0 < i < |es| ==> es[i] == es[1..][i - 1];
    }
  }

  lemma {:induction false} RecordedNames(es: seq<Entry>, validator: string -> SqlCheck, keys: map<string, set<string>>)
    requires Recorded(es, validator, keys)
    ensures forall i :: 0 <= i < |es| ==> es[i].0 in keys
  {
    if es != [] {
      RecordedNames(es[1..], validator, keys);
      assert forall i :: 0 < i < |es| ==> es[i] == es[1..][i - 1];
    }
  }

  // ------------------------------------------------------------ rule lemmas

  lemma {:induction false} FirstBadKeyNone(items: seq<string>)
    ensures FirstBadKey(items).None? <==> forall i :: 0 <= i < |items| ==> items[i] != "" && KeyMatches(items[i])
  {
    if items != [] {
      FirstBadKeyNone(items[1..]);
      assert forall i :: 1 <= i < |items| ==> items[i] == items[1..][i - 1];
    }
  }

  /**
    A theme passes iff its name is not reserved and uses only `[a-zA-Z0-9_ ]`,
    it has a `select` list whose every key is non-empty and in the key
    alphabet, and its `where` clause, if any, is valid SQL. It then
    contributes exactly the columns of its `where` clause to `keys_from_sql`.
   */
  lemma ThemePassesIff(name: string, t: Theme, validator: string -> SqlCheck)
    ensures CheckTheme(name, t, validator).ThemePasses? <==>
      && !IsReserved(name)
      && ThemeNameMatches(name)
      && t.select.Some? && t.select.value.SelectList?
      && (forall i :: 0 <= i < |t.select.value.keys| ==> t.select.value.keys[i] != "" && KeyMatches(t.select.value.keys[i]))
      && (t.where.Some? ==> validator(t.where.value).valid)
    ensures CheckTheme(name, t, validator).ThemePasses? ==>
      CheckTheme(name, t, validator).sqlKeys ==
        if t.where.Some? then SetOf(validator(t.where.value).columnNames) else {}
  {
    if t.select.Some? {
      FirstBadKeyNone(SelectItems(t.select.value));
    }
  }

  /** A reserved name is reported as reserved, before the character rule and whatever the theme holds. */
  lemma ReservedFirst(name: string, t: Theme, validator: string -> SqlCheck)
    requires IsReserved(name)
    ensures CheckTheme(name, t, validator) == ThemeFails(ReservedPrefix + name, false)
  {
  }

  /**
    An invalid `where` clause is the one failure that has already reset
    `keys_from_sql[theme]`: the theme fails that way exactly when it would
    pass without its `where` clause and the clause is invalid.
   */
  lemma ResetOnlyOnSql(name: string, t: Theme, validator: string -> SqlCheck)
    ensures CheckTheme(name, t, validator).ThemeFails? && CheckTheme(name, t, validator).keysReset <==>
      CheckTheme(name, t.(where := None), validator).ThemePasses? && t.where.Some? && !validator(t.where.value).valid
  {
  }

  /** Key errors report a missing key or name the invalid one. */
  lemma {:induction false} FirstBadKeyMessage(items: seq<string>)
    requires FirstBadKey(items).Some?
    ensures FirstBadKey(items).value == MissingKeyError
         || exists i :: 0 <= i < |items| && FirstBadKey(items).value == InvalidKeyPrefix + items[i] && !KeyMatches(items[i])
  {
    if items[0] != "" && KeyMatches(items[0]) {
      FirstBadKeyMessage(items[1..]);
      if FirstBadKey(items).value != MissingKeyError {
        var i :| 0 <= i < |items[1..]| && FirstBadKey(items[1..]).value == InvalidKeyPrefix + items[1..][i] && !KeyMatches(items[1..][i]);
        assert items[1..][i] == items[i + 1];
      }
    }
  }

  /**
    A document is accepted iff every theme passes; then `keys_from_sql` holds
    each theme's `where` columns (the names being distinct, none is overwritten).
   */
  lemma {:induction false} AcceptedIff(es: seq<Entry>, validator: string -> SqlCheck, keys: map<string, set<string>>)
    requires DistinctNames(es)
    ensures CheckEntries(es, validator, keys).0 == Accepted <==> AllAccepted(es, validator)
    ensures CheckEntries(es, validator, keys).0 == Accepted ==> KeysRecorded(es, validator, CheckEntries(es, validator, keys).1)
  {
    if es != [] {
      var r := CheckTheme(es[0].0, es[0].1, validator);
      assert DistinctNames(es[1..]) by {
        forall i, j | 0 <= i < j < |es[1..]| ensures es[1..][i].0 != es[1..][j].0 {
          assert es[1..][i] == es[i + 1] && es[1..][j] == es[j + 1];
        }
      }
      if r.ThemePasses? {
        var keys' := keys[es[0].0 := r.sqlKeys];
        AcceptedIff(es[1..], validator, keys');
        var out := CheckEntries(es, validator, keys).1;
        assert out == CheckEntries(es[1..], validator, keys').1;
        if CheckEntries(es, validator, keys).0 == Accepted {
          KeepsFirst(es[1..], validator, keys', es[0].0);
          forall i | 0 <= i < |es| ensures es[i].0 in out && CheckTheme(es[i].0, es[i].1, validator) == ThemePasses(out[es[i].0]) {
            if i > 0 { assert es[i] == es[1..][i - 1]; }
          }
        }
        assert AllAccepted(es, validator) <==> AllAccepted(es[1..], validator) by {
          forall i | 0 < i < |es| ensures es[i] == es[1..][i - 1] { }
        }
      } else {
        assert !AllAccepted(es, validator) by { assert !CheckTheme(es[0].0, es[0].1, validator).ThemePasses?; }
      }
    }
  }

  /** Checking later themes leaves the entry of a theme whose name they do not use alone. */
  lemma {:induction false} KeepsFirst(es: seq<Entry>, validator: string -> SqlCheck, keys: map<string, set<string>>, name: string)
    requires forall i :: 0 <= i < |es| ==> es[i].0 != name
    requires name in keys
    requires CheckEntries(es, validator, keys).0 == Accepted
    ensures name in CheckEntries(es, validator, keys).1 && CheckEntries(es, validator, keys).1[name] == keys[name]
  {
    if es != [] {
      var r := CheckTheme(es[0].0, es[0].1, validator);
      KeepsFirst(es[1..], validator, keys[es[0].0 := r.sqlKeys], name);
    }
  }

  /** Theme `i` fails with error `e` and every theme before it passes. */
  ghost predicate FailsFirstAt(es: seq<Entry>, validator: string -> SqlCheck, i: int, e: string)
  {
    && 0 <= i < |es|
    && CheckTheme(es[i].0, es[i].1, validator).ThemeFails?
    && CheckTheme(es[i].0, es[i].1, validator).error == e
    && forall j :: 0 <= j < i ==> CheckTheme(es[j].0, es[j].1, validator).ThemePasses?
  }

  /**
    A document is rejected with error `e` iff some theme fails with `e` and
    every theme before it passes: validation stops at the first failure.
   */
  lemma {:induction false} RejectedAtFirstFailure(es: seq<Entry>, validator: string -> SqlCheck, keys: map<string, set<string>>, e: string)
    ensures CheckEntries(es, validator, keys).0 == Rejected(e) <==> exists i :: FailsFirstAt(es, validator, i, e)
  {
    if es != [] {
      var r := CheckTheme(es[0].0, es[0].1, validator);
      if r.ThemePasses? {
        RejectedAtFirstFailure(es[1..], validator, keys[es[0].0 := r.sqlKeys], e);
        if CheckEntries(es, validator, keys).0 == Rejected(e) {
          var i :| FailsFirstAt(es[1..], validator, i, e);
          assert FailsFirstAt(es, validator, i + 1, e) by {
            assert es[1..][i] == es[i + 1];
            forall j | 0 < j < i + 1 ensures CheckTheme(es[j].0, es[j].1, validator).ThemePasses? {
              assert es[j] == es[1..][j - 1];
            }
          }
        }
        if exists i :: FailsFirstAt(es, validator, i, e) {
          var i :| FailsFirstAt(es, validator, i, e);
          assert i > 0;
          assert FailsFirstAt(es[1..], validator, i - 1, e) by {
            assert es[1..][i - 1] == es[i];
            forall j | 0 <= j < i - 1 ensures CheckTheme(es[1..][j].0, es[1..][j].1, validator).ThemePasses? {
              assert es[1..][j] == es[j + 1];
            }
          }
        }
      } else {
        if r.ThemeFails? && r.error == e {
          assert FailsFirstAt(es, validator, 0, e);
        }
        if exists i :: FailsFirstAt(es, validator, i, e) {
          var i :| FailsFirstAt(es, validator, i, e);
          assert i == 0;
        }
      }
    }
  }

  // ------------------------------------------------------------ accessors

  /** `geom_types(theme)`: the theme's `types`, or all three geometry types. */
  function GeomTypes(t: Theme): seq<string>
  {
    t.types.GetOr(DefaultGeomTypes)
  }

  /** `filter_clause(theme)`: the theme's `where` clause, or `'1'`. */
  function FilterClause(t: Theme): string
  {
    t.where.GetOr(DefaultFilter)
  }

  /** `key_selections(theme)`: the theme's `select` list. */
  function KeySelections(t: Theme): seq<string>
  {
    if t.select.Some? then SelectItems(t.select.value) else []
  }

  /** The defaults apply exactly when the theme leaves the key out. */
  lemma AccessorDefaults(t: Theme)
    ensures t.types.None? ==> GeomTypes(t) == ["points", "lines", "polygons"]
    ensures t.types.Some? ==> GeomTypes(t) == t.types.value
    ensures t.where.None? ==> FilterClause(t) == "1"
    ensures t.where.Some? ==> FilterClause(t) == t.where.value
  {
  }

  /** `self.doc[theme]`: the theme of that name, or `None` where Python raises KeyError. */
  function Lookup(es: seq<Entry>, name: string): (r: Option<Theme>)
    ensures r.Some? <==> exists i :: 0 <= i < |es| && es[i].0 == name
    ensures r.Some? ==> exists i :: 0 <= i < |es| && es[i] == (name, r.value)
  {
    if es == [] then None
    else if es[0].0 == name then Some(es[0].1)
    else
      var r := Lookup(es[1..], name);
      assert forall i :: 0 < i < |es| ==> es[i] == es[1..][i - 1];
      assert r.Some? ==> exists i :: 0 <= i < |es[1..]| && es[1..][i] == (name, r.value);
      r
  }

  /** The names of the themes, in document order (`doc.keys()`). */
  function ThemeNames(es: seq<Entry>): (r: seq<string>)
    ensures |r| == |es| && forall i :: 0 <= i < |es| ==> r[i] == es[i].0
  {
    seq(|es|, i requires 0 <= i < |es| => es[i].0)
  }

  /** `slug_themes`: the slug of every theme name. */
  function SlugThemes(es: seq<Entry>): (r: seq<string>)
    ensures |r| == |es|
    ensures forall i :: 0 <= i < |r| ==> IsSlug(r[i]) && r[i] == Slugify(es[i].0)
  {
    var r := seq(|es|, i requires 0 <= i < |es| => Slugify(es[i].0));
    assert forall i :: 0 <= i < |r| ==> IsSlug(r[i]) by {
      forall i | 0 <= i < |r| ensures IsSlug(r[i]) { SlugifyIsSlug(es[i].0); }
    }
    r
  }

  // ------------------------------------------------------------- tables

  /** One output table: a theme with one of its geometry types. */
  datatype Table = Table(theme: string, spec: Theme, geomType: string)

  /** `slugify(theme) + '_' + geom_type`. */
  function TableName(tb: Table): string
  {
    Slugify(tb.theme) + "_" + tb.geomType
  }

  /** The tables of one theme, one per geometry type, in order. */
  function ThemeTables(e: Entry): (r: seq<Table>)
    ensures |r| == |GeomTypes(e.1)|
    ensures forall j :: 0 <= j < |r| ==> r[j] == Table(e.0, e.1, GeomTypes(e.1)[j])
  {
    seq(|GeomTypes(e.1)|, j requires 0 <= j < |GeomTypes(e.1)| => Table(e.0, e.1, GeomTypes(e.1)[j]))
  }

  /** Every (theme, geometry type) pair, themes in document order. */
  function AllTables(es: seq<Entry>): seq<Table>
  {
    if es == [] then [] else AllTables(es[..|es| - 1]) + ThemeTables(es[|es| - 1])
  }

  /** The number of geometry types over all themes. */
  function TypeCount(es: seq<Entry>): nat
  {
    if es == [] then 0 else TypeCount(es[..|es| - 1]) + |GeomTypes(es[|es| - 1].1)|
  }

  /** There is one table per (theme, geometry type) pair, and each belongs to a theme of the document. */
  lemma {:induction false} AllTablesShape(es: seq<Entry>)
    ensures |AllTables(es)| == TypeCount(es)
    ensures forall k :: 0 <= k < |AllTables(es)| ==>
      exists i :: 0 <= i < |es| && AllTables(es)[k].theme == es[i].0 && AllTables(es)[k].spec == es[i].1
        && AllTables(es)[k].geomType in GeomTypes(es[i].1)
  {
    if es != [] {
      var init := es[..|es| - 1];
      AllTablesShape(init);
      var all := AllTables(es);
      forall k | 0 <= k < |all|
        ensures exists i :: 0 <= i < |es| && all[k].theme == es[i].0 && all[k].spec == es[i].1 && all[k].geomType in GeomTypes(es[i].1)
      {
        if k < |AllTables(init)| {
          var i :| 0 <= i < |init| && AllTables(init)[k].theme == init[i].0 && AllTables(init)[k].spec == init[i].1
                   && AllTables(init)[k].geomType in GeomTypes(init[i].1);
          assert all[k] == AllTables(init)[k];
          assert init[i] == es[i];
        } else {
          var j := k - |AllTables(init)|;
          assert all[k] == ThemeTables(es[|es| - 1])[j];
        }
      }
    }
  }

  // ---------------------------------------------------------------- SQL

  /** `WKT_TYPE_MAP`; `None` where Python raises KeyError. */
  function Wkt(g: string): Option<string>
  {
    if g == "points" then Some("POINT")
    else if g == "lines" then Some("MULTILINESTRING")
    else if g == "polygons" then Some("MULTIPOLYGON")
    else None
  }

  /** `OSM_ID_TAGS`. */
  function OsmIdTags(g: string): Option<seq<string>>
  {
    if g == "points" || g == "lines" then Some(["osm_id"])
    else if g == "polygons" then Some(["osm_id", "osm_way_id"])
    else None
  }

  /** `OGR2OGR_TABLENAMES`: the table ogr2ogr writes each geometry type to. */
  function OgrTable(g: string): Option<string>
  {
    if g == "points" then Some("points")
    else if g == "lines" then Some("lines")
    else if g == "polygons" then Some("multipolygons")
    else None
  }

  predicate KnownGeomType(g: string) { g in DefaultGeomTypes }

  /** The three lookup tables agree on their keys. */
  lemma GeomTablesAgree(g: string)
    ensures Wkt(g).Some? <==> KnownGeomType(g)
    ensures OsmIdTags(g).Some? <==> KnownGeomType(g)
    ensures OgrTable(g).Some? <==> KnownGeomType(g)
  {
  }

  /** `'"{0}"'.format(key)`. */
  function Quote(key: string): string { "\"" + key + "\"" }

  function QuotedKeys(keys: seq<string>): (r: seq<string>)
    ensures |r| == |keys| && forall i :: 0 <= i < |keys| ==> r[i] == Quote(keys[i])
  {
    seq(|keys|, i requires 0 <= i < |keys| => Quote(keys[i]))
  }

  /** Some key of the `select` list is one of highway, railway, bridge, tunnel and layer. */
  predicate WantsZIndex(t: Theme) {
    exists z :: z in ZIndexKeys && z in KeySelections(t)
  }

  /** The quoted key columns of `sqls`: one per selected key, then `"z_index"` when `WantsZIndex`. */
  function KeyColumns(t: Theme): seq<string>
  {
    QuotedKeys(KeySelections(t)) + (if WantsZIndex(t) then [ZIndexColumn] else [])
  }

  /** `col_type(col_name)` exactly as the source writes it. */
  function ColTypeAsWritten(col: string): string
  {
    if col == "z_index" then " INTEGER(4) DEFAULT 0" else " TEXT"
  }

  /**
    The evidently intended column type: `z_index` is an integer with default
    0 also in the quoted form in which `sqls` passes it.
   */
  function ColType(col: string): (r: string)
    ensures r == " INTEGER(4) DEFAULT 0" <==> col == "z_index" || col == ZIndexColumn
    ensures r != " INTEGER(4) DEFAULT 0" ==> r == " TEXT"
  {
    if col == "z_index" || col == ZIndexColumn then " INTEGER(4) DEFAULT 0" else " TEXT"
  }

  /** `','.join([col + col_type(col) for col in cols])`, for the column typing `colType`. */
  function ColumnDefs(cols: seq<string>, colType: string -> string): string
  {
    Join(",", seq(|cols|, i requires 0 <= i < |cols| => cols[i] + colType(cols[i])))
  }

  /** Two typings that agree on every column give the same definitions. */
  lemma ColumnDefsAgree(cols: seq<string>, f: string -> string, g: string -> string)
    requires forall i :: 0 <= i < |cols| ==> f(cols[i]) == g(cols[i])
    ensures ColumnDefs(cols, f) == ColumnDefs(cols, g)
  {
    assert seq(|cols|, i requires 0 <= i < |cols| => cols[i] + f(cols[i]))
        == seq(|cols|, i requires 0 <= i < |cols| => cols[i] + g(cols[i]));
  }

  /** `CREATE_TEMPLATE.format(table, wkt, defs, cols, src, filter)`. */
  function CreateStatement(table: string, wkt: string, defs: string, cols: string, src: string, filter: string): string
  {
    CreateHead(table) + CreateBody(table, wkt, defs, cols, src, filter)
  }

  /** The opening of a CREATE statement, up to the parenthesis after the table name. */
  function CreateHead(table: string): string
  {
    "CREATE TABLE " + table + "("
  }

  function CreateBody(table: string, wkt: string, defs: string, cols: string, src: string, filter: string): string
  {
    Create1 + wkt + Create2 + defs + Create3 + table + Create4 + cols + Create5 + cols + Create6 + src
    + Create7 + filter + Create8
  }

  // The fixed text of `CREATE_TEMPLATE` after its opening, between its placeholders, in order.
  const Create1 := "\nfid INTEGER PRIMARY KEY AUTOINCREMENT,\ngeom "
  const Create2 := ",\n"
  const Create3 := "\n);\nINSERT INTO "
  const Create4 := "(geom, "
  const Create5 := ") select geom, "
  const Create6 := " from "
  const Create7 := " WHERE ("
  const Create8 := ");\n"

  lemma PrefixOfConcat(a: string, b: string)
    ensures StartsWith(a + b, a)
  {
    assert (a + b)[..|a|] == a;
  }

  /** `INDEX_TEMPLATE.format(table, wkt)`. */
  function IndexStatement(table: string, wkt: string): string
  {
    Index1 + table + Index2 + table + Index3 + table + Index4 + wkt + Index5 + table + Index6 + table
    + Index7 + table + Index8
  }

  // The fixed text of `INDEX_TEMPLATE` around its placeholders, in order.
  const Index1 := "\nINSERT INTO gpkg_contents (table_name, data_type,identifier,srs_id) VALUES ('"
  const Index2 := "','features','"
  const Index3 := "','4326');\nINSERT INTO gpkg_geometry_columns VALUES ('"
  const Index4 := "', 'geom', '"
  const Index5 := "', '4326', '0', '0');\nUPDATE '"
  const Index6 := "' SET geom=GeomFromGPB(geom);\nSELECT gpkgAddSpatialIndex('"
  const Index7 := "', 'geom');\nUPDATE '"
  const Index8 := "' SET geom=AsGPB(geom);\n"

  /** The columns of a table of `sqls`: the OSM id columns of its geometry type, then the key columns. */
  function Columns(tb: Table): seq<string>
    requires KnownGeomType(tb.geomType)
  {
    OsmIdTags(tb.geomType).value + KeyColumns(tb.spec)
  }

  /**
    The CREATE statement of `sqls` for a table, with the column typing
    `colType`. (A table of unknown geometry type never gets one: `sqls`
    raises first; "" stands in.)
   */
  function CreateWith(tb: Table, colType: string -> string): string
  {
    if !KnownGeomType(tb.geomType) then ""
    else
      var cols := Columns(tb);
      CreateStatement(TableName(tb), Wkt(tb.geomType).value, ColumnDefs(cols, colType), Join(",", cols),
                      OgrTable(tb.geomType).value, FilterClause(tb.spec))
  }

  /** The CREATE statement `sqls` emits for a table, typed by `col_type` as the source writes it. */
  function CreateFor(tb: Table): string
  {
    CreateWith(tb, ColTypeAsWritten)
  }

  /** The CREATE statement with the evidently intended typing, `"z_index"` an integer column. */
  function CorrectedCreateFor(tb: Table): string
  {
    CreateWith(tb, ColType)
  }

  /**
    The correction changes only tables that have a `"z_index"` column: for
    every other table it emits the statement the source emits.
   */
  lemma CorrectionOnlyAffectsZIndex(tb: Table)
    requires KnownGeomType(tb.geomType) && ZIndexColumn !in Columns(tb)
    ensures CorrectedCreateFor(tb) == CreateFor(tb)
  {
    var cols := Columns(tb);
    forall i | 0 <= i < |cols| ensures ColType(cols[i]) == ColTypeAsWritten(cols[i]) {
      assert cols[i] != ZIndexColumn;
      assert cols[i] != "z_index" by {
        ColumnsShape(tb);
        var ids := OsmIdTags(tb.geomType).value;
        if i >= |ids| {
          assert cols[i] in KeyColumns(tb.spec) by { assert cols[i] == KeyColumns(tb.spec)[i - |ids|]; }
          assert cols[i][0] == '"';
        }
      }
    }
    ColumnDefsAgree(cols, ColType, ColTypeAsWritten);
  }

  /** The index statement `sqls` emits for a table of known geometry type. */
  function IndexFor(tb: Table): string
  {
    if !KnownGeomType(tb.geomType) then ""
    else IndexStatement(TableName(tb), Wkt(tb.geomType).value)
  }

  /** `[f(x) for x in s]`. */
  function MapSeq<A, B>(s: seq<A>, f: A -> B): (r: seq<B>)
    ensures |r| == |s| && forall i :: 0 <= i < |s| ==> r[i] == f(s[i])
  {
    seq(|s|, i requires 0 <= i < |s| => f(s[i]))
  }

  lemma MapAppend<A, B>(a: seq<A>, b: seq<A>, f: A -> B)
    ensures MapSeq(a + b, f) == MapSeq(a, f) + MapSeq(b, f)
  {
    assert forall i :: 0 <= i < |b| ==> (a + b)[|a| + i] == b[i];
  }

  /** Mapping one more element of a sequence appends its image. */
  lemma MapSnoc<A, B>(s: seq<A>, j: nat, f: A -> B, acc: seq<B>)
    requires j < |s| && acc == MapSeq(s[..j], f)
    ensures acc + [f(s[j])] == MapSeq(s[..j + 1], f)
  {
    assert s[..j + 1] == s[..j] + [s[j]];
    MapAppend(s[..j], [s[j]], f);
  }

  /**
    The column list of every table begins with the OSM id columns of its
    geometry type and holds one quoted column per selected key; `"z_index"`
    is appended, last, exactly when a z-index key is selected.
   */
  lemma ColumnsShape(tb: Table)
    requires KnownGeomType(tb.geomType)
    ensures var ids := OsmIdTags(tb.geomType).value;
      && Columns(tb)[..|ids|] == ids
      && |Columns(tb)| == |ids| + |KeySelections(tb.spec)| + (if WantsZIndex(tb.spec) then 1 else 0)
      && (forall i :: 0 <= i < |KeySelections(tb.spec)| ==> Columns(tb)[|ids| + i] == Quote(KeySelections(tb.spec)[i]))
      && (WantsZIndex(tb.spec) <==> |Columns(tb)| > |ids| + |KeySelections(tb.spec)|)
      && (WantsZIndex(tb.spec) ==> Columns(tb)[|Columns(tb)| - 1] == ZIndexColumn)
  {
  }

  /**
    The source's `col_type` never sees the unquoted name `z_index` in `sqls`:
    the id columns are `osm_id`/`osm_way_id` and every other column is quoted,
    so every column, `"z_index"` included, is typed TEXT.
   */
  lemma ZIndexTypedTextAsWritten(tb: Table)
    requires KnownGeomType(tb.geomType)
    ensures forall c :: c in Columns(tb) ==> ColTypeAsWritten(c) == " TEXT"
  {
    var ids := OsmIdTags(tb.geomType).value;
    forall c | c in Columns(tb) ensures ColTypeAsWritten(c) == " TEXT" {
      if c in ids {
      } else {
        assert c in KeyColumns(tb.spec);
        assert c[0] == '"';
      }
    }
  }

  /** With the corrected type, the `"z_index"` column added for a highway key is an integer column. */
  lemma ZIndexTypedInteger(tb: Table)
    requires KnownGeomType(tb.geomType) && WantsZIndex(tb.spec)
    ensures var c := Columns(tb)[|Columns(tb)| - 1];
      && c == ZIndexColumn
      && c + ColType(c) == ZIndexDefinition
      && c + ColTypeAsWritten(c) == ZIndexDefinitionAsWritten
  {
    ColumnsShape(tb);
    ZIndexDefinitions();
  }

  const ZIndexDefinition := "\"z_index\" INTEGER(4) DEFAULT 0"
  const ZIndexDefinitionAsWritten := "\"z_index\" TEXT"

  lemma ZIndexDefinitions()
    ensures ZIndexColumn + ColType(ZIndexColumn) == ZIndexDefinition
    ensures ZIndexColumn + ColTypeAsWritten(ZIndexColumn) == ZIndexDefinitionAsWritten
  {
    assert ColTypeAsWritten(ZIndexColumn) == " TEXT" by {
      assert ZIndexColumn[0] == '"';
    }
  }

  /** The columns of `create_sql`: the OSM id columns of the geometry type, then one quoted column per selected key. */
  function CreateSqlColumns(t: Theme, g: string): seq<string>
    requires KnownGeomType(g)
  {
    OsmIdTags(g).value + QuotedKeys(KeySelections(t))
  }

  /**
    `create_sql(theme, geom_type)`: the three statements that create the
    table `slugify(theme) + '_' + geom_type` as a copy of the table of that
    name in the attached `geopackage` database, with no filter (`1`), and
    register it in `gpkg_contents` and `gpkg_geometry_columns`; `None`
    where the geometry type is unknown and Python raises KeyError. Columns
    are typed by `col_type` as the source writes it.
   */
  function CreateSql(name: string, t: Theme, g: string): (r: Option<seq<string>>)
    ensures r.Some? <==> KnownGeomType(g)
    ensures r.Some? ==>
      var table := Slugify(name) + "_" + g;
      var cols := CreateSqlColumns(t, g);
      && |r.value| == 3
      && StartsWith(r.value[0], CreateHead(table))
      && r.value[0] == CreateStatement(table, Wkt(g).value, ColumnDefs(cols, ColTypeAsWritten), Join(",", cols),
                                       "geopackage." + table, "1")
      && r.value[1] == ContentsRow(table)
      && r.value[2] == GeometryColumnsRow(table, Wkt(g).value)
  {
    if !KnownGeomType(g) then None
    else
      var cols := CreateSqlColumns(t, g);
      var table := Slugify(name) + "_" + g;
      var wkt := Wkt(g).value;
      var defs := ColumnDefs(cols, ColTypeAsWritten);
      PrefixOfConcat(CreateHead(table), CreateBody(table, wkt, defs, Join(",", cols), "geopackage." + table, "1"));
      Some([CreateStatement(table, wkt, defs, Join(",", cols), "geopackage." + table, "1"),
            ContentsRow(table), GeometryColumnsRow(table, wkt)])
  }

  /**
    `create_sql` builds the table `sqls` builds for the same theme and
    geometry type, without the `"z_index"` column: its columns are those of
    `sqls` when no z-index key is selected, and those of `sqls` less the
    last one otherwise.
   */
  lemma CreateSqlColumnsMatchSqls(name: string, t: Theme, g: string)
    requires KnownGeomType(g)
    ensures Columns(Table(name, t, g)) == CreateSqlColumns(t, g) + (if WantsZIndex(t) then [ZIndexColumn] else [])
    ensures TableName(Table(name, t, g)) == Slugify(name) + "_" + g
  {
  }

  /**
    Every column of `create_sql`, a selected key named `z_index` included
    (it is passed quoted), is typed TEXT by `col_type` as written.
   */
  lemma CreateSqlAllText(t: Theme, g: string)
    requires KnownGeomType(g)
    ensures forall c :: c in CreateSqlColumns(t, g) ==> ColTypeAsWritten(c) == " TEXT"
  {
    var ids := OsmIdTags(g).value;
    var keys := QuotedKeys(KeySelections(t));
    forall c | c in CreateSqlColumns(t, g) ensures ColTypeAsWritten(c) == " TEXT" {
      if c !in ids {
        assert c in keys;
        var i :| 0 <= i < |keys| && keys[i] == c;
        assert c[0] == '"';
      }
    }
  }

  /** The `gpkg_contents` row `create_sql` inserts. */
  function ContentsRow(table: string): string
  {
    "INSERT INTO gpkg_contents VALUES ('" + table + "', 'features', '" + table
    + "', '', '2017-04-08T01:35:16.576Z', null, null, null, null, '4326')"
  }

  /** The `gpkg_geometry_columns` row `create_sql` inserts. */
  function GeometryColumnsRow(table: string, wkt: string): string
  {
    "\nINSERT INTO gpkg_geometry_columns VALUES ('" + table + "', 'geom', '" + wkt + "', '4326', '0', '0')"
  }

  // ---------------------------------------------------------------- README

  const ReadmeHead :=
    "\nThis thematic file was generated by the HOT Exports Tool.\nFor more information, visit http://export.hotosm.org . \n\n"
    + "This theme includes features matching the filter:\n\n"
  const ReadmeMiddle :=
    "\n\nclipped to the area defined by the included boundary.geojson.\n\nThis theme includes the following OpenStreetMap keys:\n\n"
  const ReadmeTail :=
    "\n\n(c) OpenStreetMap contributors.\n\nThis file is made available under the Open Database License: "
    + "http://opendatacommons.org/licenses/odbl/1.0/. Any rights in individual contents of the database are "
    + "licensed under the Database Contents License: http://opendatacommons.org/licenses/dbcl/1.0/\n"

  /** The README line of one key: the key and its OpenStreetMap wiki page. */
  function WikiLine(key: string): string
  {
    key + " http://wiki.openstreetmap.org/wiki/Key:" + key
  }

  /** One wiki line per key, in order. */
  function WikiLines(keys: seq<string>): (r: seq<string>)
    ensures |r| == |keys| && forall i :: 0 <= i < |keys| ==> r[i] == WikiLine(keys[i])
  {
    seq(|keys|, i requires 0 <= i < |keys| => WikiLine(keys[i]))
  }

  /**
    `zip_readme(theme)`: the README block with the theme's filter clause and
    one wiki line per selected key, in order, joined by newlines.
   */
  method ZipReadme(t: Theme) returns (r: string)
    ensures r == ReadmeHead + FilterClause(t) + ReadmeMiddle + Join("\n", WikiLines(KeySelections(t))) + ReadmeTail
  {
    var keys := KeySelections(t);
    var columns: seq<string> := [];
    for i := 0 to |keys|
      invariant |columns| == i && forall j :: 0 <= j < i ==> columns[j] == WikiLine(keys[j])
    {
      columns := columns + [WikiLine(keys[i])];
    }
    assert columns == WikiLines(keys);
    r := ReadmeHead + FilterClause(t) + ReadmeMiddle + Join("\n", columns) + ReadmeTail;
  }

  // ------------------------------------------------------------- the object

  /**
    A `FeatureSelection`: the raw document, the cached validated document
    (`_doc`), the recorded errors (`_errors`) and `keys_from_sql`.
   */
  class Selection {
    const raw: RawDoc
    const validator: string -> SqlCheck
    var cached: Option<Loaded>
    var errors: seq<string>
    var keysFromSql: map<string, set<string>>

    /** A cached document is the raw one, accepted, with its `where` columns recorded. */
    ghost predicate Valid()
      reads this
    {
      && (raw.Yaml? && raw.loaded.Dict? ==> DistinctNames(raw.loaded.entries))
      && (cached.Some? ==>
            && raw == Yaml(cached.value)
            && cached.value.Dict?
            && Recorded(cached.value.entries, validator, keysFromSql))
    }

    constructor (raw: RawDoc, validator: string -> SqlCheck)
      requires raw.Yaml? && raw.loaded.Dict? ==> DistinctNames(raw.loaded.entries)
      ensures Valid()
      ensures this.raw == raw && this.validator == validator
      ensures cached == None && errors == [] && keysFromSql == map[]
    {
      this.raw := raw;
      this.validator := validator;
      cached := None;
      errors := [];
      keysFromSql := map[];
    }

    /** The error of the first bad key of a `select` value, found by the source's loop. */
    method FindBadKey(items: seq<string>) returns (err: Option<string>)
      ensures err == FirstBadKey(items)
      ensures err.None? <==> forall i :: 0 <= i < |items| ==> items[i] != "" && KeyMatches(items[i])
    {
      FirstBadKeyNone(items);
      var j := 0;
      while j < |items|
        invariant 0 <= j <= |items|
        invariant FirstBadKey(items) == FirstBadKey(items[j..])
      {
        assert items[j..][1..] == items[j + 1..];
        var key := items[j];
        if key == "" {
          return Some(MissingKeyError);
        }
        if !KeyMatches(key) {
          return Some(InvalidKeyPrefix + key);
        }
        j := j + 1;
      }
      return None;
    }

    /**
      The checks of one theme in the body of `validate_schema`, in the
      source's order, with the reset and filling of `keys_from_sql[theme]`.
     */
    method CheckOne(name: string, t: Theme) returns (res: ThemeVerdict)
      modifies this`keysFromSql
      ensures res == CheckTheme(name, t, validator)
      ensures res.ThemePasses? ==> keysFromSql == old(keysFromSql)[name := res.sqlKeys]
      ensures res.ThemeFails? ==> keysFromSql == if res.keysReset then old(keysFromSql)[name := {}] else old(keysFromSql)
      ensures res.ThemeRaises? ==> keysFromSql == old(keysFromSql)
    {
      if IsReserved(name) {
        return ThemeFails(ReservedPrefix + name, false);
      }
      if !ThemeNameMatches(name) {
        return ThemeFails(BadNameError, false);
      }
      if t.select.None? {
        return ThemeFails(NoSelectError, false);
      }
      if t.select.value.SelectNotIterable? {
        return ThemeRaises;
      }
      var bad := FindBadKey(SelectItems(t.select.value));
      if bad.Some? {
        return ThemeFails(bad.value, false);
      }
      if !t.select.value.SelectList? {
        return ThemeFails(NotListError, false);
      }
      keysFromSql := keysFromSql[name := {}];
      if t.where.None? {
        return ThemePasses({});
      }
      var check := validator(t.where.value);
      if !check.valid {
        return ThemeFails(SqlInvalidPrefix + Join(";", check.errors), true);
      }
      var cols := check.columnNames;
      assert SetOf(cols[..0]) == {};
      for j := 0 to |cols|
        invariant keysFromSql == old(keysFromSql)[name := SetOf(cols[..j])]
      {
        assert SetOf(cols[..j + 1]) == SetOf(cols[..j]) + {cols[j]} by {
          assert cols[..j + 1] == cols[..j] + [cols[j]];
        }
        keysFromSql := keysFromSql[name := keysFromSql[name] + {cols[j]}];
      }
      assert cols[..|cols|] == cols;
      return ThemePasses(SetOf(cols));
    }

    /**
      `validate_schema(loaded_doc)`: checks the themes in order, stops at the
      first failure after appending exactly one error, and fills
      `keys_from_sql` on the way.
     */
    method ValidateSchema(loaded: Loaded) returns (v: Verdict)
      modifies this`errors, this`keysFromSql
      ensures (v, keysFromSql) == Schema(loaded, validator, old(keysFromSql))
      ensures errors == old(errors) + (if v.Rejected? then [v.error] else [])
    {
      if !loaded.Dict? {
        errors := errors + [NotDictError];
        return Rejected(NotDictError);
      }
      var es := loaded.entries;
      var i := 0;
      while i < |es|
        invariant 0 <= i <= |es|
        invariant errors == old(errors)
        invariant CheckEntries(es, validator, old(keysFromSql)) == CheckEntries(es[i..], validator, keysFromSql)
      {
        assert es[i..][0] == es[i] && es[i..][1..] == es[i + 1..];
        ghost var before := keysFromSql;
        var res := CheckOne(es[i].0, es[i].1);
        match res
        case ThemeFails(e, _) =>
          errors := errors + [e];
          return Rejected(e);
        case ThemeRaises =>
          return Raised;
        case ThemePasses(_) =>
          i := i + 1;
      }
      return Accepted;
    }

    /**
      The `doc` property. A cached document is returned as it is, with
      nothing recorded; otherwise a YAML error records its problem text, and a
      loaded document is validated and, when accepted, cached.
     */
    method Doc() returns (d: DocResult)
      requires Valid()
      modifies this`cached, this`errors, this`keysFromSql
      ensures Valid()
      ensures old(cached).Some? ==>
        d == Document(old(cached).value) && cached == old(cached)
        && errors == old(errors) && keysFromSql == old(keysFromSql)
      ensures old(cached).None? && raw.YamlError? ==>
        d == NoDocument && cached == None && errors == old(errors) + [raw.problem]
        && keysFromSql == old(keysFromSql)
      ensures old(cached).None? && raw.Yaml? ==>
        var (v, keys) := Schema(raw.loaded, validator, old(keysFromSql));
        && keysFromSql == keys
        && (v == Accepted ==> d == Document(raw.loaded) && cached == Some(raw.loaded) && errors == old(errors))
        && (v.Rejected? ==> d == NoDocument && cached == None && errors == old(errors) + [v.error])
        && (v == Raised ==> d == DocRaises && cached == None && errors == old(errors))
    {
      if cached.Some? && cached.value.Dict? && cached.value.entries != [] {
        return Document(cached.value);
      }
      match raw
      case YamlError(problem) =>
        errors := errors + [problem];
        return NoDocument;
      case Yaml(loaded) =>
        var v := ValidateSchema(loaded);
        if v == Accepted {
          if loaded.Dict? {
            AcceptedIff(loaded.entries, validator, old(keysFromSql));
            RecordedIff(loaded.entries, validator, keysFromSql);
          }
          cached := Some(loaded);
          return Document(loaded);
        } else if v.Rejected? {
          return NoDocument;
        } else {
          return DocRaises;
        }
    }

    /** The `valid` property: the document validates; `raised` when validation raises instead. */
    method IsValid() returns (valid: bool, raised: bool)
      requires Valid()
      modifies this`cached, this`errors, this`keysFromSql
      ensures Valid()
      ensures old(cached).Some? ==> valid && !raised && cached == old(cached) && errors == old(errors)
      ensures valid <==> cached.Some?
      ensures old(cached).None? && raw.Yaml? ==>
        (valid <==> Schema(raw.loaded, validator, old(keysFromSql)).0 == Accepted)
        && (raised <==> Schema(raw.loaded, validator, old(keysFromSql)).0 == Raised)
      ensures raw.YamlError? ==> !valid && !raised && errors == old(errors) + [raw.problem]
    {
      var d := Doc();
      valid := d.Document?;
      raised := d.DocRaises?;
    }

    /**
      What reading `doc` leaves behind, from the cache, errors and recorded
      `where` columns `c0`, `e0` and `k0` it started from: a cached
      document changes nothing; a YAML error records its problem text; a
      loaded document is validated, recording at most one error, and is
      cached when accepted.
     */
    ghost predicate DocLoaded(c0: Option<Loaded>, e0: seq<string>, k0: map<string, set<string>>)
      reads this
    {
      && (c0.Some? ==> cached == c0 && errors == e0 && keysFromSql == k0)
      && (c0.None? && raw.YamlError? ==> cached == None && errors == e0 + [raw.problem] && keysFromSql == k0)
      && (c0.None? && raw.Yaml? ==>
            var (v, keys) := Schema(raw.loaded, validator, k0);
            && keysFromSql == keys
            && (v == Accepted ==> cached == Some(raw.loaded) && errors == e0)
            && (v.Rejected? ==> cached == None && errors == e0 + [v.error])
            && (v == Raised ==> cached == None && errors == e0))
    }

    /** Reading `doc` raises: nothing is cached and validating the loaded document raises. */
    predicate DocRaisesFrom(c0: Option<Loaded>, k0: map<string, set<string>>)
      reads this
    {
      c0.None? && raw.Yaml? && Schema(raw.loaded, validator, k0).0 == Raised
    }

    /** The entries of the validated document. */
    function Entries(): seq<Entry>
      reads this
      requires Valid() && cached.Some?
    {
      cached.value.entries
    }

    /**
      `themes`: the theme names of the document, in order, once it validates;
      `[]` when it does not. `raised` when validation raises instead.
     */
    method Themes() returns (r: seq<string>, raised: bool)
      requires Valid()
      modifies this`cached, this`errors, this`keysFromSql
      ensures Valid()
      ensures DocLoaded(old(cached), old(errors), old(keysFromSql))
      ensures cached.Some? ==> !raised && r == ThemeNames(cached.value.entries)
      ensures cached.Some? ==> forall i, j :: 0 <= i < j < |r| ==> r[i] != r[j]
      ensures cached.None? ==> r == []
      ensures raised <==> DocRaisesFrom(old(cached), old(keysFromSql))
    {
      var d := Doc();
      raised := d.DocRaises?;
      if d.Document? && d.doc.Dict? {
        r := ThemeNames(d.doc.entries);
      } else {
        r := [];
      }
    }

    /**
      `key_union(geom_type)`: sorted and free of duplicates, it holds exactly
      the selected keys and `where` columns of the themes that have the
      geometry type (of every theme when the argument is `None`).
     */
    method KeyUnion(geomType: Option<string>) returns (r: seq<string>, raised: bool)
      requires Valid()
      modifies this`cached, this`errors, this`keysFromSql
      ensures Valid()
      ensures DocLoaded(old(cached), old(errors), old(keysFromSql))
      ensures raised <==> DocRaisesFrom(old(cached), old(keysFromSql))
      ensures cached.None? ==> r == []
      ensures StrictlySorted(r)
      ensures cached.Some? ==>
        forall k :: k in r <==> exists i :: 0 <= i < |Entries()| && Selects(Entries()[i], geomType, keysFromSql, k)
    {
      var themes;
      themes, raised := Themes();
      if cached.None? {
        return [], raised;
      }
      RecordedNames(cached.value.entries, validator, keysFromSql);
      r := UnionOf(cached.value.entries, geomType, keysFromSql);
      assert Entries() == cached.value.entries;
    }

    /** `tables`: one name `slugify(theme) + '_' + geom_type` per (theme, geometry type) pair, in order. */
    method Tables() returns (r: seq<string>, raised: bool)
      requires Valid()
      modifies this`cached, this`errors, this`keysFromSql
      ensures Valid()
      ensures DocLoaded(old(cached), old(errors), old(keysFromSql))
      ensures raised <==> DocRaisesFrom(old(cached), old(keysFromSql))
      ensures cached.None? ==> r == []
      ensures cached.Some? ==> |r| == |AllTables(Entries())| && r == MapSeq(AllTables(Entries()), TableName)
    {
      var themes;
      themes, raised := Themes();
      if cached.None? {
        return [], raised;
      }
      r := TablesOf(cached.value.entries);
    }

    /**
      `sqls`: one CREATE and one index statement per table, in the order of
      `tables`, each for that table's columns and the theme's filter; both
      lists are empty when the document does not validate. `ok` is false
      where Python raises instead: validation raises, or an unknown geometry
      type raises KeyError.
     */
    method Sqls() returns (ok: bool, creates: seq<string>, indexes: seq<string>)
      requires Valid()
      modifies this`cached, this`errors, this`keysFromSql
      ensures Valid()
      ensures DocLoaded(old(cached), old(errors), old(keysFromSql))
      ensures cached.None? ==> creates == [] && indexes == [] && (ok <==> !DocRaisesFrom(old(cached), old(keysFromSql)))
      ensures cached.Some? ==> (ok <==> AllKnown(AllTables(Entries())))
      ensures cached.Some? && ok ==>
        creates == MapSeq(AllTables(Entries()), CreateFor) && indexes == MapSeq(AllTables(Entries()), IndexFor)
    {
      var themes, raised := Themes();
      if cached.None? {
        return !raised, [], [];
      }
      ok, creates, indexes := SqlsOf(cached.value.entries);
    }

    /**
      `self.doc[theme]`: reads `doc`, with its effects, then looks the name
      up. `None` where Python raises: the document does not validate (so
      `None[theme]` raises TypeError), validation raises, or no theme has
      the name (KeyError).
     */
    method ThemeNamed(name: string) returns (t: Option<Theme>)
      requires Valid()
      modifies this`cached, this`errors, this`keysFromSql
      ensures Valid()
      ensures DocLoaded(old(cached), old(errors), old(keysFromSql))
      ensures cached.None? ==> t == None
      ensures cached.Some? ==> t == Lookup(Entries(), name)
    {
      var d := Doc();
      if d.Document? && d.doc.Dict? {
        t := Lookup(d.doc.entries, name);
      } else {
        t := None;
      }
    }

    /** A theme found by name is found again, and reading `doc` then changes nothing. */
    method ThemeNamedAgain(name: string) returns (t: Option<Theme>)
      requires Valid() && cached.Some? && Lookup(Entries(), name).Some?
      modifies this`cached, this`errors, this`keysFromSql
      ensures Valid()
      ensures cached == old(cached) && errors == old(errors) && keysFromSql == old(keysFromSql)
      ensures t == Lookup(Entries(), name)
    {
      t := ThemeNamed(name);
    }

    /**
      `geom_types(theme)`: the named theme's `types`, or all three geometry
      types; `None` where the lookup raises. A theme with `types` is looked
      up twice, the second time with no effect.
     */
    method GeomTypesNamed(name: string) returns (r: Option<seq<string>>)
      requires Valid()
      modifies this`cached, this`errors, this`keysFromSql
      ensures Valid()
      ensures DocLoaded(old(cached), old(errors), old(keysFromSql))
      ensures r.Some? <==> cached.Some? && Lookup(Entries(), name).Some?
      ensures r.Some? ==> r.value == GeomTypes(Lookup(Entries(), name).value)
    {
      var t := ThemeNamed(name);
      if t.None? {
        return None;
      }
      if t.value.types.Some? {
        t := ThemeNamedAgain(name);
        return Some(t.value.types.value);
      }
      return Some(DefaultGeomTypes);
    }

    /** `key_selections(theme)`: the named theme's `select` items; `None` where the lookup raises. */
    method KeySelectionsNamed(name: string) returns (r: Option<seq<string>>)
      requires Valid()
      modifies this`cached, this`errors, this`keysFromSql
      ensures Valid()
      ensures DocLoaded(old(cached), old(errors), old(keysFromSql))
      ensures r.Some? <==> cached.Some? && Lookup(Entries(), name).Some?
      ensures r.Some? ==> r.value == KeySelections(Lookup(Entries(), name).value)
    {
      var t := ThemeNamed(name);
      if t.None? {
        return None;
      }
      return Some(KeySelections(t.value));
    }

    /** `filter_clause(theme)`: the named theme's `where` clause, or `'1'`; `None` where the lookup raises. */
    method FilterClauseNamed(name: string) returns (r: Option<string>)
      requires Valid()
      modifies this`cached, this`errors, this`keysFromSql
      ensures Valid()
      ensures DocLoaded(old(cached), old(errors), old(keysFromSql))
      ensures r.Some? <==> cached.Some? && Lookup(Entries(), name).Some?
      ensures r.Some? ==> r.value == FilterClause(Lookup(Entries(), name).value)
    {
      var t := ThemeNamed(name);
      if t.None? {
        return None;
      }
      return Some(FilterClause(t.value));
    }

    /**
      `zip_readme(theme)`: the README of the named theme; `None` where the
      lookup raises. `key_selections` and then `filter_clause` each look the
      theme up, the second time with no effect.
     */
    method ZipReadmeNamed(name: string) returns (r: Option<string>)
      requires Valid()
      modifies this`cached, this`errors, this`keysFromSql
      ensures Valid()
      ensures DocLoaded(old(cached), old(errors), old(keysFromSql))
      ensures r.Some? <==> cached.Some? && Lookup(Entries(), name).Some?
      ensures r.Some? ==>
        var t := Lookup(Entries(), name).value;
        r.value == ReadmeHead + FilterClause(t) + ReadmeMiddle + Join("\n", WikiLines(KeySelections(t))) + ReadmeTail
    {
      var keys := KeySelectionsNamed(name);
      if keys.None? {
        return None;
      }
      var t := ThemeNamedAgain(name);
      var readme := ZipReadme(t.value);
      return Some(readme);
    }

    /**
      `create_sql(theme, geom_type)`: the three statements for the named
      theme; `None` where Python raises, at the lookup of the theme or at
      the KeyError of an unknown geometry type.
     */
    method CreateSqlNamed(name: string, g: string) returns (r: Option<seq<string>>)
      requires Valid()
      modifies this`cached, this`errors, this`keysFromSql
      ensures Valid()
      ensures DocLoaded(old(cached), old(errors), old(keysFromSql))
      ensures r.Some? <==> cached.Some? && Lookup(Entries(), name).Some? && KnownGeomType(g)
      ensures r.Some? ==> r == CreateSql(name, Lookup(Entries(), name).value, g)
    {
      var t := ThemeNamed(name);
      if t.None? {
        return None;
      }
      return CreateSql(name, t.value, g);
    }
  }

  /** The loops of `tables` over the themes of a validated document. */
  method TablesOf(es: seq<Entry>) returns (r: seq<string>)
    ensures r == MapSeq(AllTables(es), TableName)
  {
    r := [];
    for i := 0 to |es|
      invariant r == MapSeq(AllTables(es[..i]), TableName)
    {
      assert es[..i + 1][..i] == es[..i];
      var names := ThemeTableNames(es[i]);
      MapAppend(AllTables(es[..i]), ThemeTables(es[i]), TableName);
      r := r + names;
    }
    assert es[..|es|] == es;
  }

  /** The loops of `sqls` over the themes of a validated document; `ok` is false at an unknown geometry type. */
  method SqlsOf(es: seq<Entry>) returns (ok: bool, creates: seq<string>, indexes: seq<string>)
    ensures ok <==> AllKnown(AllTables(es))
    ensures ok ==> creates == MapSeq(AllTables(es), CreateFor) && indexes == MapSeq(AllTables(es), IndexFor)
  {
    creates, indexes := [], [];
    for i := 0 to |es|
      invariant AllKnown(AllTables(es[..i]))
      invariant creates == MapSeq(AllTables(es[..i]), CreateFor) && indexes == MapSeq(AllTables(es[..i]), IndexFor)
    {
      assert es[..i + 1][..i] == es[..i];
      var themeOk, c, x := ThemeSqls(es[i]);
      if !themeOk {
        ok := false;
        var j :| 0 <= j < |ThemeTables(es[i])| && !KnownGeomType(ThemeTables(es[i])[j].geomType);
        UnknownTypeFound(es, i, j);
        return;
      }
      MapAppend(AllTables(es[..i]), ThemeTables(es[i]), CreateFor);
      MapAppend(AllTables(es[..i]), ThemeTables(es[i]), IndexFor);
      KnownAppend(AllTables(es[..i]), ThemeTables(es[i]));
      creates, indexes := creates + c, indexes + x;
    }
    assert es[..|es|] == es;
    ok := true;
  }

  lemma KnownAppend(a: seq<Table>, b: seq<Table>)
    requires AllKnown(a) && AllKnown(b)
    ensures AllKnown(a + b)
  {
    forall k | 0 <= k < |a + b| ensures KnownGeomType((a + b)[k].geomType) {
      if k >= |a| { assert (a + b)[k] == b[k - |a|]; }
    }
  }

  /**
    Theme `e` contributes key `k` to `key_union(geom_type)`: it has the
    geometry type (or none is given) and selects `k` or mentions it in its
    `where` clause.
   */
  predicate Selects(e: Entry, geomType: Option<string>, keys: map<string, set<string>>, k: string)
  {
    && (geomType.None? || geomType.value in GeomTypes(e.1))
    && (k in KeySelections(e.1) || (e.0 in keys && k in keys[e.0]))
  }

  /** The keys one theme adds to `key_union(geom_type)`. */
  function ThemeKeys(e: Entry, geomType: Option<string>, keys: map<string, set<string>>): (r: set<string>)
    ensures forall k :: k in r <==> Selects(e, geomType, keys, k)
  {
    if geomType.None? || geomType.value in GeomTypes(e.1)
    then SetOf(KeySelections(e.1)) + (if e.0 in keys then keys[e.0] else {})
    else {}
  }

  /** The keys the first `n` themes add. */
  function UnionUpTo(es: seq<Entry>, n: nat, geomType: Option<string>, keys: map<string, set<string>>): set<string>
    requires n <= |es|
  {
    if n == 0 then {} else UnionUpTo(es, n - 1, geomType, keys) + ThemeKeys(es[n - 1], geomType, keys)
  }

  lemma {:induction false} UnionUpToMembers(es: seq<Entry>, n: nat, geomType: Option<string>, keys: map<string, set<string>>, k: string)
    requires n <= |es|
    ensures k in UnionUpTo(es, n, geomType, keys) <==> exists i :: 0 <= i < n && Selects(es[i], geomType, keys, k)
  {
    if n > 0 {
      UnionUpToMembers(es, n - 1, geomType, keys, k);
    }
  }

  /** The loops of `key_union` over the themes of a document whose names all have an entry in `keys`. */
  method UnionOf(es: seq<Entry>, geomType: Option<string>, keys: map<string, set<string>>) returns (r: seq<string>)
    requires forall i :: 0 <= i < |es| ==> es[i].0 in keys
    ensures StrictlySorted(r)
    ensures forall k :: k in r <==> exists i :: 0 <= i < |es| && Selects(es[i], geomType, keys, k)
  {
    var s: set<string> := {};
    for i := 0 to |es|
      invariant s == UnionUpTo(es, i, geomType, keys)
    {
      var t := es[i].1;
      if geomType.None? || geomType.value in GeomTypes(t) {
        s := AddAll(s, KeySelections(t));
        s := AddEach(s, keys[es[i].0]);
      }
    }
    r := SortedList(s);
    forall k ensures k in r <==> exists i :: 0 <= i < |es| && Selects(es[i], geomType, keys, k) {
      UnionUpToMembers(es, |es|, geomType, keys, k);
    }
  }

  /** Adds the keys of a list to a set, one at a time. */
  method AddAll(s: set<string>, keys: seq<string>) returns (s': set<string>)
    ensures s' == s + SetOf(keys)
  {
    s' := s;
    for j := 0 to |keys|
      invariant s' == s + SetOf(keys[..j])
    {
      assert keys[..j + 1] == keys[..j] + [keys[j]];
      s' := s' + {keys[j]};
    }
    assert keys[..|keys|] == keys;
  }

  /** Adds the members of a set to a set, one at a time. */
  method AddEach(s: set<string>, extra: set<string>) returns (s': set<string>)
    ensures s' == s + extra
  {
    s' := s;
    var added: set<string> := {};
    while added != extra
      invariant added <= extra
      invariant s' == s + added
      decreases |extra - added|
    {
      var k :| k in extra - added;
      s' := s' + {k};
      added := added + {k};
    }
  }

  /** Every table has a known geometry type. */
  predicate AllKnown(tbs: seq<Table>)
  {
    forall k :: 0 <= k < |tbs| ==> KnownGeomType(tbs[k].geomType)
  }

  /** The quoted selected keys, with `"z_index"` appended when one of them is a z-index key. */
  method KeyColumnsOf(t: Theme) returns (keyColumns: seq<string>)
    ensures keyColumns == KeyColumns(t)
  {
    keyColumns := QuotedKeys(KeySelections(t));
    if exists z :: z in ZIndexKeys && z in KeySelections(t) {
      keyColumns := keyColumns + [ZIndexColumn];
    }
  }

  /**
    The statements of one theme's tables: its key columns (with `"z_index"`
    when a z-index key is selected) and its filter, for each geometry type in
    turn; `ok` is false at an unknown geometry type.
   */
  method ThemeSqls(e: Entry) returns (ok: bool, creates: seq<string>, indexes: seq<string>)
    ensures ok <==> AllKnown(ThemeTables(e))
    ensures ok ==> creates == MapSeq(ThemeTables(e), CreateFor) && indexes == MapSeq(ThemeTables(e), IndexFor)
  {
    var t := e.1;
    var keyColumns := KeyColumnsOf(t);
    var filter := FilterClause(t);
    var gs := GeomTypes(t);
    ghost var tables := ThemeTables(e);
    creates, indexes := [], [];
    for j := 0 to |gs|
      invariant forall k :: 0 <= k < j ==> KnownGeomType(gs[k])
      invariant creates == MapSeq(tables[..j], CreateFor) && indexes == MapSeq(tables[..j], IndexFor)
    {
      var g := gs[j];
      if !KnownGeomType(g) {
        assert !KnownGeomType(tables[j].geomType);
        return false, creates, indexes;
      }
      creates, indexes := AppendTableSqls(e, j, keyColumns, filter, creates, indexes);
    }
    assert tables[..|gs|] == tables;
    assert AllKnown(tables) by {
      forall k | 0 <= k < |tables| ensures KnownGeomType(tables[k].geomType) {
        assert tables[k].geomType == gs[k];
      }
    }
    ok := true;
  }

  /**
    Appends the statements of the `j`th table of a theme, built from the
    theme's key columns and filter, to those of the tables before it.
   */
  method AppendTableSqls(e: Entry, j: nat, keyColumns: seq<string>, filter: string,
                         creates: seq<string>, indexes: seq<string>)
    returns (creates': seq<string>, indexes': seq<string>)
    requires j < |ThemeTables(e)| && KnownGeomType(GeomTypes(e.1)[j])
    requires keyColumns == KeyColumns(e.1) && filter == FilterClause(e.1)
    requires creates == MapSeq(ThemeTables(e)[..j], CreateFor) && indexes == MapSeq(ThemeTables(e)[..j], IndexFor)
    ensures creates' == MapSeq(ThemeTables(e)[..j + 1], CreateFor)
    ensures indexes' == MapSeq(ThemeTables(e)[..j + 1], IndexFor)
  {
    var g := GeomTypes(e.1)[j];
    var table := Slugify(e.0) + "_" + g;
    var cols := OsmIdTags(g).value + keyColumns;
    var c := CreateStatement(table, Wkt(g).value, ColumnDefs(cols, ColTypeAsWritten), Join(",", cols),
                             OgrTable(g).value, filter);
    var x := IndexStatement(table, Wkt(g).value);
    assert c == CreateFor(ThemeTables(e)[j]) && x == IndexFor(ThemeTables(e)[j]);
    MapSnoc(ThemeTables(e), j, CreateFor, creates);
    MapSnoc(ThemeTables(e), j, IndexFor, indexes);
    creates', indexes' := creates + [c], indexes + [x];
  }

  /** The table names of one theme, one per geometry type, in order. */
  method ThemeTableNames(e: Entry) returns (names: seq<string>)
    ensures names == MapSeq(ThemeTables(e), TableName)
  {
    var gs := GeomTypes(e.1);
    names := [];
    for j := 0 to |gs|
      invariant |names| == j
      invariant forall k :: 0 <= k < j ==> names[k] == Slugify(e.0) + "_" + gs[k]
    {
      names := names + [Slugify(e.0) + "_" + gs[j]];
    }
  }

  /** An unknown geometry type of theme `i` is the type of some table of the document. */
  lemma UnknownTypeFound(es: seq<Entry>, i: nat, j: nat)
    requires i < |es| && j < |GeomTypes(es[i].1)| && !KnownGeomType(GeomTypes(es[i].1)[j])
    ensures !AllKnown(AllTables(es))
  {
    PrefixTables(es, i + 1);
    assert es[..i + 1][..i] == es[..i];
    var k := |AllTables(es[..i])| + j;
    assert AllTables(es[..i + 1])[k] == ThemeTables(es[i])[j];
    assert AllTables(es)[k] == AllTables(es[..i + 1])[k];
  }

  /** The tables of a prefix of the document are a prefix of its tables. */
  lemma {:induction false} PrefixTables(es: seq<Entry>, n: nat)
    requires n <= |es|
    ensures |AllTables(es[..n])| <= |AllTables(es)|
    ensures AllTables(es[..n]) == AllTables(es)[..|AllTables(es[..n])|]
    decreases |es|
  {
    if n < |es| {
      var init := es[..|es| - 1];
      assert init[..n] == es[..n];
      PrefixTables(init, n);
    } else {
      assert es[..n] == es;
    }
  }
}
