/** Ledger settings of pkg/mmodel/settings.go: strict validation, lenient parsing, and patches that
    merge group by group. A nil map behaves as an empty one throughout. */
module LedgerSettingsModel {
  import opened TransactionTypes

  /** A decoded JSON value. */
  datatype Value =
    | Null
    | Bool(b: bool)
    | Str(s: string)
    | Float(r: real)
    | Int(i: int)
    | Int64(i64: int)
    | Obj(fields: map<string, Value>)
    | OtherValue

  type Settings = map<string, Value>

  // ---------- merging ----------

  /** What one key of a patch leaves behind. */
  function MergeValue(existing: Option<Value>, incoming: Value): Value {
    if incoming.Obj? && existing.Some? && existing.value.Obj? then Obj(existing.value.fields + incoming.fields)
    else incoming
  }

  function At(m: Settings, k: string): Option<Value> {
    if k in m then Some(m[k]) else None
  }

  function Merge(existing: Settings, patch: Settings): Settings {
    map k | k in existing.Keys + patch.Keys ::
      if k in patch then MergeValue(At(existing, k), patch[k]) else existing[k]
  }

  /** The two loops, each over the map in any order. */
  method DeepMergeSettings(existing: Settings, newSettings: Settings) returns (result: Settings)
    ensures result == Merge(existing, newSettings)
  {
    result := map[];
    var todo := existing.Keys;
    while todo != {}
      invariant todo <= existing.Keys && result.Keys == existing.Keys - todo
      invariant forall k :: k in result ==> result[k] == existing[k]
    {
      var key :| key in todo;
      var value := existing[key];
      result := result[key := if value.Obj? then Obj(map[] + value.fields) else value];
      todo := todo - {key};
    }
    assert result == existing;
    todo := newSettings.Keys;
    while todo != {}
      invariant todo <= newSettings.Keys && result.Keys == existing.Keys + (newSettings.Keys - todo)
      invariant forall k :: k in result ==>
        result[k] == if k in newSettings && k !in todo then MergeValue(At(existing, k), newSettings[k]) else existing[k]
    {
      var key :| key in todo;
      var newValue := newSettings[key];
      if newValue.Null? {
        result := result[key := Null];
      } else if newValue.Obj? && key in result && result[key].Obj? {
        result := result[key := Obj(result[key].fields + newValue.fields)];
      } else {
        result := result[key := newValue];
      }
      todo := todo - {key};
    }
  }

  // ---------- the algebra of patches ----------

  lemma MergeIdempotent(e: Settings, p: Settings)
    ensures Merge(Merge(e, p), p) == Merge(e, p)
    ensures Merge(map[], p) == p && Merge(e, map[]) == e
  {
    forall k | k in p ensures Merge(Merge(e, p), p)[k] == Merge(e, p)[k] {
      if p[k].Obj? && k in e && e[k].Obj? {
        assert e[k].fields + p[k].fields + p[k].fields == e[k].fields + p[k].fields;
      } else if p[k].Obj? {
        assert p[k].fields + p[k].fields == p[k].fields;
      }
    }
  }

  /** Key k of patch p wipes a group that q then fills in only partly. */
  predicate Wipes(e: Settings, p: Settings, q: Settings, k: string) {
    && k in e && k in p && k in q && e[k].Obj? && !p[k].Obj? && q[k].Obj?
    && !(e[k].fields.Keys <= q[k].fields.Keys)
  }

  lemma AssociativeAt(e: Settings, p: Settings, q: Settings, k: string)
    requires k in e.Keys + p.Keys + q.Keys
    ensures Merge(Merge(e, p), q)[k] == Merge(e, Merge(p, q))[k] <==> !Wipes(e, p, q, k)
  {
    if k in e && k in p && k in q && e[k].Obj? && q[k].Obj? {
      var a, b := e[k].fields, q[k].fields;
      if p[k].Obj? {
        assert a + p[k].fields + b == a + (p[k].fields + b);
      } else {
        assert Merge(Merge(e, p), q)[k] == Obj(b) && Merge(e, Merge(p, q))[k] == Obj(a + b);
        assert a.Keys <= b.Keys ==> a + b == b;
        assert (a + b).Keys == a.Keys + b.Keys;
      }
    }
  }

  /** Applying two patches in turn equals applying their merge exactly when no group is wiped by the
      first and only partly refilled by the second; in particular whenever p has no null group. */
  lemma MergeAssociativeIff(e: Settings, p: Settings, q: Settings)
    ensures Merge(Merge(e, p), q) == Merge(e, Merge(p, q)) <==> forall k :: !Wipes(e, p, q, k)
  {
    var l, r := Merge(Merge(e, p), q), Merge(e, Merge(p, q));
    assert l.Keys == r.Keys == e.Keys + p.Keys + q.Keys;
    forall k | k in l ensures l[k] == r[k] <==> !Wipes(e, p, q, k) {
      AssociativeAt(e, p, q, k);
    }
  }

  /** A wiped group: clearing accounting and then setting one of its fields loses the others, but
      one merged patch keeps them. */
  lemma WipeHappens()
    ensures var e: Settings := map[ACCOUNTING := Obj(map["validateRoutes" := Bool(true)])];
            var p: Settings := map[ACCOUNTING := Null];
            var q: Settings := map[ACCOUNTING := Obj(map["requireHolder" := Bool(true)])];
            && Merge(Merge(e, p), q) == q && Merge(e, Merge(p, q)) != q
  {
    var e: Settings := map[ACCOUNTING := Obj(map["validateRoutes" := Bool(true)])];
    var p: Settings := map[ACCOUNTING := Null];
    var q: Settings := map[ACCOUNTING := Obj(map["requireHolder" := Bool(true)])];
    assert |"validateRoutes"| == 14 && |"requireHolder"| == 13;
    assert "validateRoutes" in Merge(e, Merge(p, q))[ACCOUNTING].fields;
    assert "validateRoutes" !in q[ACCOUNTING].fields;
  }

  // ---------- validation ----------

  datatype FieldType = BoolType | StringType | NumberType

  const ACCOUNTING := "accounting"
  const TRACER := "tracer"
  const OVERRIDES := "overrides"

  predicate IsGroup(g: string) {
    g == ACCOUNTING || g == TRACER || g == OVERRIDES
  }

  predicate IsAccountingField(f: string) {
    f == "validateAccountType" || f == "validateRoutes" || f == "requireHolder"
  }

  predicate IsOverridesField(f: string) {
    f == "allowFeeSkip" || f == "allowTracerSkip" || f == "allowHolderSkip"
  }

  predicate IsTracerField(f: string) {
    f == "mode" || f == "failPosture" || f == "timeoutMs"
  }

  function Schema(g: string, f: string): Option<FieldType> {
    if g == ACCOUNTING && IsAccountingField(f) then Some(BoolType)
    else if g == OVERRIDES && IsOverridesField(f) then Some(BoolType)
    else if g == TRACER && IsTracerField(f) then Some(if f == "timeoutMs" then NumberType else StringType)
    else None
  }

  /** Names that must be nested under a group. */
  predicate IsNestedName(f: string) {
    IsAccountingField(f) || IsOverridesField(f) || IsTracerField(f)
  }

  predicate HasType(v: Value, t: FieldType) {
    match t
    case BoolType => v.Bool?
    case StringType => v.Str?
    case NumberType => v.Float? || v.Int? || v.Int64?
  }

  const MODES := {"off", "advisory", "enforce"}
  const POSTURES := {"open", "closed"}

  predicate HasAllowedValue(g: string, f: string, v: Value) {
    g == TRACER ==>
      && (f == "mode" ==> v.Str? && v.s in MODES)
      && (f == "failPosture" ==> v.Str? && v.s in POSTURES)
  }

  predicate ValidField(g: string, f: string, v: Value) {
    Schema(g, f).Some? && (v.Null? || (HasType(v, Schema(g, f).value) && HasAllowedValue(g, f, v)))
  }

  predicate ValidGroup(g: string, v: Value) {
    IsGroup(g) && (v.Null? || (v.Obj? && forall f :: f in v.fields ==> ValidField(g, f, v.fields[f])))
  }

  predicate Valid(m: Settings) {
    forall g :: g in m ==> ValidGroup(g, m[g])
  }

  datatype SettingsError =
    | RootLevelField(key: string)
    | UnknownField(group: string, field: string)
    | InvalidFieldType(group: string, field: string)
    | InvalidFieldValue(group: string, field: string)

  lemma GroupsAreNotNested(g: string)
    requires IsGroup(g)
    ensures !IsNestedName(g)
  {
    assert |ACCOUNTING| == 10 && |TRACER| == 6 && |OVERRIDES| == 9 && OVERRIDES[0] == 'o';
    assert |"validateAccountType"| == 19 && |"validateRoutes"| == 14 && |"requireHolder"| == 13;
    assert |"mode"| == 4 && |"failPosture"| == 11 && "timeoutMs"[0] == 't' && |"timeoutMs"| == 9;
    assert |"allowFeeSkip"| == 12 && |"allowTracerSkip"| == 15 && |"allowHolderSkip"| == 15;
  }

  /** The error names what is wrong with this field. */
  predicate FieldOffends(g: string, f: string, v: Value, e: SettingsError) {
    && (e == UnknownField(g, f) || e == InvalidFieldType(g, f) || e == InvalidFieldValue(g, f))
    && (e.UnknownField? <==> Schema(g, f).None?)
    && (e.InvalidFieldType? ==> !v.Null? && !HasType(v, Schema(g, f).value))
    && (e.InvalidFieldValue? ==> !v.Null? && HasType(v, Schema(g, f).value) && !HasAllowedValue(g, f, v))
  }

  /** The error names what is wrong with this group, or with one of its fields. */
  predicate GroupOffends(g: string, v: Value, e: SettingsError) {
    if !IsGroup(g) then e == UnknownField("", g)
    else if !v.Null? && !v.Obj? then e == InvalidFieldType("", g)
    else v.Obj? && exists f :: f in v.fields && FieldOffends(g, f, v.fields[f], e)
  }

  method ValidateField(g: string, f: string, v: Value) returns (error: Option<SettingsError>)
    ensures error.None? <==> ValidField(g, f, v)
    ensures error.Some? ==> FieldOffends(g, f, v, error.value)
  {
    if Schema(g, f).None? {
      return Some(UnknownField(g, f));
    }
    if v.Null? {
      return None;
    }
    if !HasType(v, Schema(g, f).value) {
      return Some(InvalidFieldType(g, f));
    }
    if !HasAllowedValue(g, f, v) {
      return Some(InvalidFieldValue(g, f));
    }
    return None;
  }

  method ValidateGroup(g: string, v: Value) returns (error: Option<SettingsError>)
    ensures error.None? <==> ValidGroup(g, v)
    ensures error.Some? ==> !error.value.RootLevelField? && GroupOffends(g, v, error.value)
  {
    if !IsGroup(g) {
      return Some(UnknownField("", g));
    }
    if v.Null? {
      return None;
    }
    if !v.Obj? {
      return Some(InvalidFieldType("", g));
    }
    var todo := v.fields.Keys;
    while todo != {}
      invariant todo <= v.fields.Keys
      invariant forall f :: f in v.fields && f !in todo ==> ValidField(g, f, v.fields[f])
    {
      var f :| f in todo;
      error := ValidateField(g, f, v.fields[f]);
      if error.Some? {
        return;
      }
      todo := todo - {f};
    }
    return None;
  }

  /** The order of sorted keys. */
  predicate Less(a: string, b: string) {
    b != "" && (a == "" || a[0] < b[0] || (a[0] == b[0] && Less(a[1..], b[1..])))
  }

  lemma {:induction false} LessTransitive(a: string, b: string, c: string)
    requires Less(a, b) && Less(b, c)
    ensures Less(a, c)
  {
    if a != "" && a[0] == b[0] == c[0] {
      LessTransitive(a[1..], b[1..], c[1..]);
    }
  }

  lemma {:induction false} LessIrreflexive(a: string)
    ensures !Less(a, a)
  {
    if a != "" {
      LessIrreflexive(a[1..]);
    }
  }

  /** A misplaced nested field with no smaller one beside it. */
  predicate FirstMisplaced(m: Settings, k: string) {
    k in m && IsNestedName(k) && forall j :: j in m && IsNestedName(j) ==> !Less(j, k)
  }

  /** The first loop: the misplaced field that comes first in sorted order. */
  method FindMisplaced(m: Settings) returns (first: Option<string>)
    ensures first.None? ==> forall k :: k in m ==> !IsNestedName(k)
    ensures first.Some? ==> FirstMisplaced(m, first.value)
  {
    first := None;
    var todo := m.Keys;
    while todo != {}
      invariant todo <= m.Keys
      invariant first.None? ==> forall k :: k in m && k !in todo ==> !IsNestedName(k)
      invariant first.Some? ==>
        && first.value in m && IsNestedName(first.value)
        && forall j :: j in m && j !in todo && IsNestedName(j) ==> !Less(j, first.value)
    {
      var k :| k in todo;
      if IsNestedName(k) && (first.None? || Less(k, first.value)) {
        LessIrreflexive(k);
        forall j | j in m && j !in todo && IsNestedName(j) ensures !Less(j, k) {
          if Less(j, k) {
            LessTransitive(j, k, first.value);
          }
        }
        first := Some(k);
      }
      todo := todo - {k};
    }
  }

  /** Accepts exactly the settings that fit the schema; a misplaced nested field is reported
      before anything else, the first of them in sorted order. */
  method ValidateSettings(m: Settings) returns (error: Option<SettingsError>)
    ensures error.None? <==> Valid(m)
    ensures (exists k :: k in m && IsNestedName(k)) <==>
            error.Some? && error.value.RootLevelField? && FirstMisplaced(m, error.value.key)
    ensures error.Some? && !error.value.RootLevelField? ==> exists g :: g in m && GroupOffends(g, m[g], error.value)
  {
    var misplaced := FindMisplaced(m);
    if misplaced.Some? {
      var k := misplaced.value;
      if ValidGroup(k, m[k]) {
        GroupsAreNotNested(k);
      }
      return Some(RootLevelField(k));
    }
    var todo := m.Keys;
    while todo != {}
      invariant todo <= m.Keys
      invariant forall k :: k in m && k !in todo ==> ValidGroup(k, m[k])
    {
      var k :| k in todo;
      error := ValidateGroup(k, m[k]);
      if error.Some? {
        return;
      }
      todo := todo - {k};
    }
    return None;
  }

  /** Merging a valid patch into valid settings stays valid. */
  lemma MergeValid(e: Settings, p: Settings)
    requires Valid(e) && Valid(p)
    ensures Valid(Merge(e, p))
  {
    forall g | g in Merge(e, p) ensures ValidGroup(g, Merge(e, p)[g]) {
      if g in p && g in e && e[g].Obj? && p[g].Obj? {
        assert ValidGroup(g, e[g]) && ValidGroup(g, p[g]);
      }
    }
  }

  // ---------- parsing ----------

  datatype LedgerSettings = LedgerSettings(
    validateAccountType: bool,
    validateRoutes: bool,
    requireHolder: bool,
    mode: string,
    failPosture: string,
    timeoutMs: int,
    allowFeeSkip: bool,
    allowTracerSkip: bool,
    allowHolderSkip: bool)

  const DEFAULTS := LedgerSettings(false, false, false, "off", "open", 250, false, false, false)

  /** The value at group g, field f; absent when the group is missing or no object. */
  function FieldAt(m: Settings, g: string, f: string): Option<Value> {
    if g in m && m[g].Obj? && f in m[g].fields then Some(m[g].fields[f]) else None
  }

  function BoolOr(v: Option<Value>, d: bool): bool {
    if v.Some? && v.value.Bool? then v.value.b else d
  }

  function StringOr(v: Option<Value>, d: string): string {
    if v.Some? && v.value.Str? then v.value.s else d
  }

  /** int(v) of a float truncates toward zero. */
  function Truncate(r: real): int {
    if r < 0.0 then -((-r).Floor) else r.Floor
  }

  function ParseSettingsNumber(v: Value): Option<int> {
    match v
    case Float(r) => Some(Truncate(r))
    case Int(i) => Some(i)
    case Int64(i) => Some(i)
    case _ => None
  }

  function NumberOr(v: Option<Value>, d: int): int {
    if v.Some? && ParseSettingsNumber(v.value).Some? then ParseSettingsNumber(v.value).value else d
  }

  function Parse(m: Settings): LedgerSettings {
    LedgerSettings(
      BoolOr(FieldAt(m, ACCOUNTING, "validateAccountType"), DEFAULTS.validateAccountType),
      BoolOr(FieldAt(m, ACCOUNTING, "validateRoutes"), DEFAULTS.validateRoutes),
      BoolOr(FieldAt(m, ACCOUNTING, "requireHolder"), DEFAULTS.requireHolder),
      StringOr(FieldAt(m, TRACER, "mode"), DEFAULTS.mode),
      StringOr(FieldAt(m, TRACER, "failPosture"), DEFAULTS.failPosture),
      NumberOr(FieldAt(m, TRACER, "timeoutMs"), DEFAULTS.timeoutMs),
      BoolOr(FieldAt(m, OVERRIDES, "allowFeeSkip"), DEFAULTS.allowFeeSkip),
      BoolOr(FieldAt(m, OVERRIDES, "allowTracerSkip"), DEFAULTS.allowTracerSkip),
      BoolOr(FieldAt(m, OVERRIDES, "allowHolderSkip"), DEFAULTS.allowHolderSkip))
  }

  // The fields are read one by one over the defaults; only well-typed values of object groups count.

  method ParseAccounting(m: Settings, base: LedgerSettings) returns (result: LedgerSettings)
    ensures result == base.(
                        validateAccountType :=
                          BoolOr(FieldAt(m, ACCOUNTING, "validateAccountType"), base.validateAccountType),
                        validateRoutes := BoolOr(FieldAt(m, ACCOUNTING, "validateRoutes"), base.validateRoutes),
                        requireHolder := BoolOr(FieldAt(m, ACCOUNTING, "requireHolder"), base.requireHolder))
  {
    result := base;
    if ACCOUNTING in m && m[ACCOUNTING].Obj? {
      var validateAccountType := FieldAt(m, ACCOUNTING, "validateAccountType");
      if validateAccountType.Some? && validateAccountType.value.Bool? {
        result := result.(validateAccountType := validateAccountType.value.b);
      }
      var validateRoutes := FieldAt(m, ACCOUNTING, "validateRoutes");
      if validateRoutes.Some? && validateRoutes.value.Bool? {
        result := result.(validateRoutes := validateRoutes.value.b);
      }
      var requireHolder := FieldAt(m, ACCOUNTING, "requireHolder");
      if requireHolder.Some? && requireHolder.value.Bool? {
        result := result.(requireHolder := requireHolder.value.b);
      }
    }
  }

  method ParseTracer(m: Settings, base: LedgerSettings) returns (result: LedgerSettings)
    ensures result == base.(
                        mode := StringOr(FieldAt(m, TRACER, "mode"), base.mode),
                        failPosture := StringOr(FieldAt(m, TRACER, "failPosture"), base.failPosture),
                        timeoutMs := NumberOr(FieldAt(m, TRACER, "timeoutMs"), base.timeoutMs))
  {
    result := base;
    if TRACER in m && m[TRACER].Obj? {
      var mode := FieldAt(m, TRACER, "mode");
      if mode.Some? && mode.value.Str? {
        result := result.(mode := mode.value.s);
      }
      var failPosture := FieldAt(m, TRACER, "failPosture");
      if failPosture.Some? && failPosture.value.Str? {
        result := result.(failPosture := failPosture.value.s);
      }
      var timeoutMs := FieldAt(m, TRACER, "timeoutMs");
      var number := if timeoutMs.Some? then ParseSettingsNumber(timeoutMs.value) else None;
      if number.Some? {
        result := result.(timeoutMs := number.value);
      }
    }
  }

  method ParseOverrides(m: Settings, base: LedgerSettings) returns (result: LedgerSettings)
    ensures result == base.(
                        allowFeeSkip := BoolOr(FieldAt(m, OVERRIDES, "allowFeeSkip"), base.allowFeeSkip),
                        allowTracerSkip := BoolOr(FieldAt(m, OVERRIDES, "allowTracerSkip"), base.allowTracerSkip),
                        allowHolderSkip := BoolOr(FieldAt(m, OVERRIDES, "allowHolderSkip"), base.allowHolderSkip))
  {
    result := base;
    if OVERRIDES in m && m[OVERRIDES].Obj? {
      var allowFeeSkip := FieldAt(m, OVERRIDES, "allowFeeSkip");
      if allowFeeSkip.Some? && allowFeeSkip.value.Bool? {
        result := result.(allowFeeSkip := allowFeeSkip.value.b);
      }
      var allowTracerSkip := FieldAt(m, OVERRIDES, "allowTracerSkip");
      if allowTracerSkip.Some? && allowTracerSkip.value.Bool? {
        result := result.(allowTracerSkip := allowTracerSkip.value.b);
      }
      var allowHolderSkip := FieldAt(m, OVERRIDES, "allowHolderSkip");
      if allowHolderSkip.Some? && allowHolderSkip.value.Bool? {
        result := result.(allowHolderSkip := allowHolderSkip.value.b);
      }
    }
  }

  method ParseLedgerSettings(m: Settings) returns (result: LedgerSettings)
    ensures result == Parse(m)
  {
    result := ParseAccounting(m, DEFAULTS);
    result := ParseTracer(m, result);
    result := ParseOverrides(m, result);
  }

  /** How a patch overrides one field: untouched, set to a value, or back to its default. */
  datatype Override = Keep | Reset | Set(value: Value)

  function OverrideOf(p: Settings, g: string, f: string): Override {
    if g !in p then Keep
    else if !p[g].Obj? then Reset
    else if f in p[g].fields then Set(p[g].fields[f])
    else Keep
  }

  function OverrideBool(o: Override, current: bool, d: bool): bool {
    match o case Keep => current case Reset => d case Set(v) => BoolOr(Some(v), d)
  }

  function OverrideString(o: Override, current: string, d: string): string {
    match o case Keep => current case Reset => d case Set(v) => StringOr(Some(v), d)
  }

  function OverrideNumber(o: Override, current: int, d: int): int {
    match o case Keep => current case Reset => d case Set(v) => NumberOr(Some(v), d)
  }

  function ApplyPatch(s: LedgerSettings, p: Settings): LedgerSettings {
    LedgerSettings(
      OverrideBool(OverrideOf(p, ACCOUNTING, "validateAccountType"), s.validateAccountType,
                   DEFAULTS.validateAccountType),
      OverrideBool(OverrideOf(p, ACCOUNTING, "validateRoutes"), s.validateRoutes, DEFAULTS.validateRoutes),
      OverrideBool(OverrideOf(p, ACCOUNTING, "requireHolder"), s.requireHolder, DEFAULTS.requireHolder),
      OverrideString(OverrideOf(p, TRACER, "mode"), s.mode, DEFAULTS.mode),
      OverrideString(OverrideOf(p, TRACER, "failPosture"), s.failPosture, DEFAULTS.failPosture),
      OverrideNumber(OverrideOf(p, TRACER, "timeoutMs"), s.timeoutMs, DEFAULTS.timeoutMs),
      OverrideBool(OverrideOf(p, OVERRIDES, "allowFeeSkip"), s.allowFeeSkip, DEFAULTS.allowFeeSkip),
      OverrideBool(OverrideOf(p, OVERRIDES, "allowTracerSkip"), s.allowTracerSkip, DEFAULTS.allowTracerSkip),
      OverrideBool(OverrideOf(p, OVERRIDES, "allowHolderSkip"), s.allowHolderSkip, DEFAULTS.allowHolderSkip))
  }

  /** One field of a merge. */
  lemma MergeFieldAt(e: Settings, p: Settings, g: string, f: string)
    ensures FieldAt(Merge(e, p), g, f) ==
            match OverrideOf(p, g, f) case Keep => FieldAt(e, g, f) case Reset => None case Set(v) => Some(v)
  {
  }

  lemma MergeBool(e: Settings, p: Settings, g: string, f: string, d: bool)
    ensures BoolOr(FieldAt(Merge(e, p), g, f), d) == OverrideBool(OverrideOf(p, g, f), BoolOr(FieldAt(e, g, f), d), d)
  {
    MergeFieldAt(e, p, g, f);
  }

  lemma MergeString(e: Settings, p: Settings, g: string, f: string, d: string)
    ensures StringOr(FieldAt(Merge(e, p), g, f), d) ==
            OverrideString(OverrideOf(p, g, f), StringOr(FieldAt(e, g, f), d), d)
  {
    MergeFieldAt(e, p, g, f);
  }

  lemma MergeNumber(e: Settings, p: Settings, g: string, f: string, d: int)
    ensures NumberOr(FieldAt(Merge(e, p), g, f), d) ==
            OverrideNumber(OverrideOf(p, g, f), NumberOr(FieldAt(e, g, f), d), d)
  {
    MergeFieldAt(e, p, g, f);
  }

  /** Parsing a merge is overriding the parsed settings field by field: a key the patch leaves out
      keeps its value, a null group or field goes back to the default. */
  lemma ParseOfMerge(e: Settings, p: Settings)
    ensures Parse(Merge(e, p)) == ApplyPatch(Parse(e), p)
  {
    MergeBool(e, p, ACCOUNTING, "validateAccountType", DEFAULTS.validateAccountType);
    MergeBool(e, p, ACCOUNTING, "validateRoutes", DEFAULTS.validateRoutes);
    MergeBool(e, p, ACCOUNTING, "requireHolder", DEFAULTS.requireHolder);
    MergeString(e, p, TRACER, "mode", DEFAULTS.mode);
    MergeString(e, p, TRACER, "failPosture", DEFAULTS.failPosture);
    MergeNumber(e, p, TRACER, "timeoutMs", DEFAULTS.timeoutMs);
    MergeBool(e, p, OVERRIDES, "allowFeeSkip", DEFAULTS.allowFeeSkip);
    MergeBool(e, p, OVERRIDES, "allowTracerSkip", DEFAULTS.allowTracerSkip);
    MergeBool(e, p, OVERRIDES, "allowHolderSkip", DEFAULTS.allowHolderSkip);
  }

  function Group3(f: string, u: Value, g: string, v: Value, h: string, w: Value): Value {
    Obj(map[f := u, g := v, h := w])
  }

  function AccountingMap(s: LedgerSettings): Value {
    Group3("validateAccountType", Bool(s.validateAccountType), "validateRoutes", Bool(s.validateRoutes),
           "requireHolder", Bool(s.requireHolder))
  }

  function TracerMap(s: LedgerSettings): Value {
    Group3("mode", Str(s.mode), "failPosture", Str(s.failPosture), "timeoutMs", Int(s.timeoutMs))
  }

  function OverridesMap(s: LedgerSettings): Value {
    Group3("allowFeeSkip", Bool(s.allowFeeSkip), "allowTracerSkip", Bool(s.allowTracerSkip),
           "allowHolderSkip", Bool(s.allowHolderSkip))
  }

  function LedgerSettingsToMap(s: LedgerSettings): Settings {
    map[ACCOUNTING := AccountingMap(s), TRACER := TracerMap(s), OVERRIDES := OverridesMap(s)]
  }

  lemma NamesDiffer()
    ensures ACCOUNTING != TRACER && TRACER != OVERRIDES && ACCOUNTING != OVERRIDES
    ensures "validateAccountType" != "validateRoutes" && "validateRoutes" != "requireHolder"
    ensures "validateAccountType" != "requireHolder"
    ensures "mode" != "failPosture" && "failPosture" != "timeoutMs" && "mode" != "timeoutMs"
    ensures "allowFeeSkip" != "allowTracerSkip" && "allowTracerSkip" != "allowHolderSkip"
    ensures "allowFeeSkip" != "allowHolderSkip"
  {
    assert |ACCOUNTING| == 10 && |TRACER| == 6 && |OVERRIDES| == 9;
    assert |"validateAccountType"| == 19 && |"validateRoutes"| == 14 && |"requireHolder"| == 13;
    assert |"mode"| == 4 && |"failPosture"| == 11 && |"timeoutMs"| == 9;
    assert |"allowFeeSkip"| == 12 && "allowTracerSkip"[5] == 'T' && "allowHolderSkip"[5] == 'H';
  }

  /** A group of three distinct fields holds just those, and is valid when each of them is. */
  lemma Group3Is(name: string, f: string, u: Value, g: string, v: Value, h: string, w: Value)
    requires f != g && g != h && f != h
    ensures Group3(f, u, g, v, h, w).fields[f] == u
    ensures Group3(f, u, g, v, h, w).fields[g] == v
    ensures Group3(f, u, g, v, h, w).fields[h] == w
    ensures IsGroup(name) ==>
              (ValidGroup(name, Group3(f, u, g, v, h, w)) <==>
               ValidField(name, f, u) && ValidField(name, g, v) && ValidField(name, h, w))
  {
    var fields := Group3(f, u, g, v, h, w).fields;
    assert fields.Keys == {f, g, h} && fields[f] == u && fields[g] == v && fields[h] == w;
  }

  lemma ThreeGroups(s: LedgerSettings)
    ensures LedgerSettingsToMap(s).Keys == {ACCOUNTING, TRACER, OVERRIDES}
    ensures LedgerSettingsToMap(s)[ACCOUNTING] == AccountingMap(s)
    ensures LedgerSettingsToMap(s)[TRACER] == TracerMap(s)
    ensures LedgerSettingsToMap(s)[OVERRIDES] == OverridesMap(s)
  {
    NamesDiffer();
  }

  lemma BoolGroupsRoundTrip(s: LedgerSettings)
    ensures ValidGroup(ACCOUNTING, AccountingMap(s)) && ValidGroup(OVERRIDES, OverridesMap(s))
    ensures AccountingMap(s).fields["validateAccountType"] == Bool(s.validateAccountType)
    ensures AccountingMap(s).fields["validateRoutes"] == Bool(s.validateRoutes)
    ensures AccountingMap(s).fields["requireHolder"] == Bool(s.requireHolder)
    ensures OverridesMap(s).fields["allowFeeSkip"] == Bool(s.allowFeeSkip)
    ensures OverridesMap(s).fields["allowTracerSkip"] == Bool(s.allowTracerSkip)
    ensures OverridesMap(s).fields["allowHolderSkip"] == Bool(s.allowHolderSkip)
  {
    NamesDiffer();
    Group3Is(ACCOUNTING, "validateAccountType", Bool(s.validateAccountType), "validateRoutes", Bool(s.validateRoutes),
             "requireHolder", Bool(s.requireHolder));
    Group3Is(OVERRIDES, "allowFeeSkip", Bool(s.allowFeeSkip), "allowTracerSkip", Bool(s.allowTracerSkip),
             "allowHolderSkip", Bool(s.allowHolderSkip));
  }

  lemma TracerRoundTrip(s: LedgerSettings)
    ensures ValidGroup(TRACER, TracerMap(s)) <==> s.mode in MODES && s.failPosture in POSTURES
    ensures TracerMap(s).fields["mode"] == Str(s.mode)
    ensures TracerMap(s).fields["failPosture"] == Str(s.failPosture)
    ensures TracerMap(s).fields["timeoutMs"] == Int(s.timeoutMs)
  {
    NamesDiffer();
    Group3Is(TRACER, "mode", Str(s.mode), "failPosture", Str(s.failPosture), "timeoutMs", Int(s.timeoutMs));
  }

  lemma ToMapParses(s: LedgerSettings)
    ensures Parse(LedgerSettingsToMap(s)) == s
  {
    ThreeGroups(s);
    BoolGroupsRoundTrip(s);
    TracerRoundTrip(s);
  }

  lemma ToMapValid(s: LedgerSettings)
    ensures Valid(LedgerSettingsToMap(s)) <==> s.mode in MODES && s.failPosture in POSTURES
  {
    ThreeGroups(s);
    BoolGroupsRoundTrip(s);
    TracerRoundTrip(s);
  }

  /** Parsing inverts the conversion to a map, and that map is valid exactly when the two
      enumerated fields hold allowed values. */
  lemma ToMapRoundTrip(s: LedgerSettings)
    ensures Parse(LedgerSettingsToMap(s)) == s
    ensures Valid(LedgerSettingsToMap(s)) <==> s.mode in MODES && s.failPosture in POSTURES
  {
    ToMapParses(s);
    ToMapValid(s);
  }

  // ---------- values as they arrive ----------

  /** A number is read whatever its encoding; a fraction is cut off toward zero. */
  lemma NumbersRead(i: int, r: real)
    ensures ParseSettingsNumber(Int(i)) == ParseSettingsNumber(Int64(i)) == Some(i)
    ensures ParseSettingsNumber(Float(i as real)) == Some(i)
    ensures var n := ParseSettingsNumber(Float(r));
            n.Some? && (if r >= 0.0 then n.value as real <= r < n.value as real + 1.0
                        else n.value as real - 1.0 < r <= n.value as real)
    ensures HasType(Int(i), NumberType) && HasType(Int64(i), NumberType) && HasType(Float(r), NumberType)
  {
  }

  /** The field holds a value of the type its schema asks for. */
  predicate Typed(m: Settings, g: string, f: string) {
    && FieldAt(m, g, f).Some? && Schema(g, f).Some?
    && HasType(FieldAt(m, g, f).value, Schema(g, f).value)
  }

  /** A field that is missing, null or of another type is read as its default. */
  lemma UntypedIsDefault(m: Settings)
    ensures var s := Parse(m);
            && (!Typed(m, ACCOUNTING, "validateAccountType") ==> s.validateAccountType == DEFAULTS.validateAccountType)
            && (!Typed(m, ACCOUNTING, "validateRoutes") ==> s.validateRoutes == DEFAULTS.validateRoutes)
            && (!Typed(m, ACCOUNTING, "requireHolder") ==> s.requireHolder == DEFAULTS.requireHolder)
            && (!Typed(m, TRACER, "mode") ==> s.mode == DEFAULTS.mode)
            && (!Typed(m, TRACER, "failPosture") ==> s.failPosture == DEFAULTS.failPosture)
            && (!Typed(m, TRACER, "timeoutMs") ==> s.timeoutMs == DEFAULTS.timeoutMs)
            && (!Typed(m, OVERRIDES, "allowFeeSkip") ==> s.allowFeeSkip == DEFAULTS.allowFeeSkip)
            && (!Typed(m, OVERRIDES, "allowTracerSkip") ==> s.allowTracerSkip == DEFAULTS.allowTracerSkip)
            && (!Typed(m, OVERRIDES, "allowHolderSkip") ==> s.allowHolderSkip == DEFAULTS.allowHolderSkip)
  {
    NamesDiffer();
  }

  /** Storing as JSON turns every whole number of a group into a float. */
  function StoredField(v: Value): Value {
    if v.Int? then Float(v.i as real) else v
  }

  function StoredGroup(v: Value): Value {
    if v.Obj? then Obj(map f | f in v.fields :: StoredField(v.fields[f])) else v
  }

  function Stored(m: Settings): Settings {
    map g | g in m :: StoredGroup(m[g])
  }

  lemma StoredFieldAt(m: Settings, g: string, f: string)
    ensures FieldAt(Stored(m), g, f) ==
            if FieldAt(m, g, f).Some? then Some(StoredField(FieldAt(m, g, f).value)) else None
  {
  }

  /** Settings survive being stored and read back. */
  lemma StoredParses(m: Settings)
    ensures Parse(Stored(m)) == Parse(m)
  {
    StoredFieldAt(m, ACCOUNTING, "validateAccountType");
    StoredFieldAt(m, ACCOUNTING, "validateRoutes");
    StoredFieldAt(m, ACCOUNTING, "requireHolder");
    StoredFieldAt(m, TRACER, "mode");
    StoredFieldAt(m, TRACER, "failPosture");
    StoredFieldAt(m, TRACER, "timeoutMs");
    StoredFieldAt(m, OVERRIDES, "allowFeeSkip");
    StoredFieldAt(m, OVERRIDES, "allowTracerSkip");
    StoredFieldAt(m, OVERRIDES, "allowHolderSkip");
  }

  lemma StoredRoundTrip(s: LedgerSettings)
    ensures Parse(Stored(LedgerSettingsToMap(s))) == s
  {
    StoredParses(LedgerSettingsToMap(s));
    ToMapParses(s);
  }

  /** Storing does not change what is valid. */
  lemma StoredValid(m: Settings)
    ensures Valid(Stored(m)) <==> Valid(m)
  {
    forall g | g in m ensures ValidGroup(g, Stored(m)[g]) <==> ValidGroup(g, m[g]) {
      StoredGroupValid(g, m[g]);
    }
  }

  lemma StoredGroupValid(g: string, v: Value)
    ensures ValidGroup(g, StoredGroup(v)) <==> ValidGroup(g, v)
  {
    if v.Obj? {
      forall f | f in v.fields
        ensures ValidField(g, f, StoredGroup(v).fields[f]) <==> ValidField(g, f, v.fields[f])
      {
        StoredFieldValid(g, f, v.fields[f]);
      }
    }
  }

  lemma StoredFieldValid(g: string, f: string, v: Value)
    ensures ValidField(g, f, StoredField(v)) <==> ValidField(g, f, v)
  {
  }
}
