/**
 * The preset table of module/control-panel.js: the built-in defaults, the
 * clamp of every preset, the schema-drift sanitisation of a saved table, and
 * the fix-up that the ready hook performs on the stored setting.
 */
module PresetStore {
  import opened Wrappers
  import opened JsValue
  import opened RadiusPolicy

  /** A preset table: preset key to preset record. */
  type Table = map<string, Value>

  /** The default of the max-radius setting. */
  const DefaultMaxLightRadius: real := 60.0

  /** A finite number as a value. */
  function NumValue(x: real): Value { Num(Finite(x)) }

  /** One record of the built-in table; `intensity` is absent from some of them. */
  function PresetRecord(name: string, dim: real, bright: real, color: string, angle: real, alpha: real,
                        animationType: string, speed: real, animationIntensity: real,
                        intensity: Option<real>): Value
  {
    var fields := map[
      "name" := Str(name), "dim" := NumValue(dim), "bright" := NumValue(bright),
      "color" := Str(color), "angle" := NumValue(angle), "alpha" := NumValue(alpha),
      "animation" := Obj(map["type" := Str(animationType), "speed" := NumValue(speed),
                             "intensity" := NumValue(animationIntensity)])];
    Obj(if intensity.Some? then fields["intensity" := NumValue(intensity.value)] else fields)
  }

  /** The keys of `DEFAULT_LIGHT_MODELS`. */
  const DefaultKeys: set<string> :=
    {"torchLight", "lamp", "bullseye", "hoodedOpen", "hoodedClosed", "lightcantrip", "moontouched", "sunlight"}

  /** The built-in record under one of the `DefaultKeys`. */
  function DefaultRecord(k: string): Value
    requires k in DefaultKeys
  {
    if k == "torchLight" then PresetRecord("agnostic-light.ui.torchLight", 12.0, 6.0, "#fab87a", 360.0, 0.5, "flame", 5.0, 5.0, None)
    else if k == "lamp" then PresetRecord("agnostic-light.ui.lamp", 12.0, 9.0, "#ffa200", 360.0, 0.5, "torch", 3.0, 3.0, None)
    else if k == "bullseye" then PresetRecord("agnostic-light.ui.bullseye", 24.0, 18.0, "#ffa200", 45.0, 0.5, "torch", 3.0, 3.0, Some(0.5))
    else if k == "hoodedOpen" then PresetRecord("agnostic-light.ui.hoodedOpen", 24.0, 10.0, "#ffa200", 360.0, 0.5, "torch", 3.0, 3.0, Some(0.5))
    else if k == "hoodedClosed" then PresetRecord("agnostic-light.ui.hoodedClosed", 5.0, 0.0, "#ffa200", 360.0, 0.5, "torch", 3.0, 3.0, Some(0.5))
    else if k == "lightcantrip" then PresetRecord("agnostic-light.ui.lightcantrip", 14.0, 7.0, "#fffab8", 360.0, 0.5, "torch", 2.0, 1.0, Some(0.5))
    else if k == "moontouched" then PresetRecord("agnostic-light.ui.moontouched", 30.0, 15.0, "#38c0f3", 360.0, 0.5, "torch", 1.0, 1.0, Some(0.5))
    else PresetRecord("agnostic-light.ui.sunlight", 60.0, 30.0, "#fff45c", 360.0, 0.6, "torch", 1.0, 5.0, Some(0.5))
  }

  /** `DEFAULT_LIGHT_MODELS` */
  function DefaultLightModels(): (d: Table)
    ensures d.Keys == DefaultKeys
    ensures forall k :: k in d ==> d[k] == DefaultRecord(k)
  {
    map k | k in DefaultKeys :: DefaultRecord(k)
  }

  // ---------------------------------------------------------------------
  // clampAllLightModels

  /** The table with every preset normalised under `cap`. */
  function ClampedTable(models: Table, cap: Option<real>): Table {
    map k | k in models :: ClampPreset(models[k], cap)
  }

  /** `clampAllLightModels(models)`: builds the clamped table key by key. */
  method ClampAllLightModels(models: Table, cap: Option<real>) returns (next: Table)
    ensures next.Keys == models.Keys
    ensures forall k :: k in models ==> next[k] == ClampPreset(models[k], cap)
  {
    next := map[];
    var pending := models.Keys;
    while pending != {}
      invariant pending <= models.Keys
      invariant next.Keys == models.Keys - pending
      invariant forall k :: k in next ==> next[k] == ClampPreset(models[k], cap)
      decreases pending
    {
      var key :| key in pending;
      next := next[key := ClampPreset(models[key], cap)];
      pending := pending - {key};
    }
  }

  /** A table with the keys of `models` and their clamped entries is the clamped table. */
  lemma ClampedTableUnique(models: Table, cap: Option<real>, next: Table)
    requires next.Keys == models.Keys
    requires forall k :: k in models ==> next[k] == ClampPreset(models[k], cap)
    ensures next == ClampedTable(models, cap)
  {
  }

  /** Every preset of a clamped table satisfies the radius policy. */
  lemma ClampedTableNormalized(models: Table, cap: Option<real>)
    ensures ClampedTable(models, cap).Keys == models.Keys
    ensures forall k :: k in models ==> Normalized(ClampedTable(models, cap)[k], cap)
  {
  }

  /** A table whose presets all satisfy the policy is a fixed point of the clamp. */
  lemma {:induction false} ClampedTableKeepsNormalized(models: Table, cap: Option<real>)
    requires forall k :: k in models ==> Normalized(models[k], cap)
    ensures ClampedTable(models, cap) == models
  {
    forall k | k in models ensures ClampPreset(models[k], cap) == models[k] {
      ClampPresetKeepsNormalized(models[k], cap);
    }
  }

  /** Clamping the table twice under the same cap is clamping it once. */
  lemma {:induction false} ClampedTableIdempotent(models: Table, cap: Option<real>)
    ensures ClampedTable(ClampedTable(models, cap), cap) == ClampedTable(models, cap)
  {
    ClampedTableKeepsNormalized(ClampedTable(models, cap), cap);
  }

  /** A built-in record whose radii satisfy `0 <= bright <= dim <= cap` is normalised under `cap`. */
  lemma PresetRecordNormalized(name: string, dim: real, bright: real, color: string, angle: real, alpha: real,
                               animationType: string, speed: real, animationIntensity: real,
                               intensity: Option<real>, cap: real)
    requires 0.0 <= bright <= dim <= cap
    ensures Normalized(PresetRecord(name, dim, bright, color, angle, alpha, animationType, speed, animationIntensity, intensity), Some(cap))
    ensures WellShapedDefault(PresetRecord(name, dim, bright, color, angle, alpha, animationType, speed, animationIntensity, intensity))
    ensures "name" in Fields(PresetRecord(name, dim, bright, color, angle, alpha, animationType, speed, animationIntensity, intensity))
  {
  }

  /** Every built-in preset is within the default cap of 60, and has numeric radii. */
  lemma DefaultRecordNormalized(k: string)
    requires k in DefaultLightModels()
    ensures Normalized(DefaultLightModels()[k], Some(DefaultMaxLightRadius))
    ensures WellShapedDefault(DefaultLightModels()[k])
  {
    if k == "torchLight" {
      PresetRecordNormalized("agnostic-light.ui.torchLight", 12.0, 6.0, "#fab87a", 360.0, 0.5, "flame", 5.0, 5.0, None, 60.0);
    } else if k == "lamp" {
      PresetRecordNormalized("agnostic-light.ui.lamp", 12.0, 9.0, "#ffa200", 360.0, 0.5, "torch", 3.0, 3.0, None, 60.0);
    } else if k == "bullseye" {
      PresetRecordNormalized("agnostic-light.ui.bullseye", 24.0, 18.0, "#ffa200", 45.0, 0.5, "torch", 3.0, 3.0, Some(0.5), 60.0);
    } else if k == "hoodedOpen" {
      PresetRecordNormalized("agnostic-light.ui.hoodedOpen", 24.0, 10.0, "#ffa200", 360.0, 0.5, "torch", 3.0, 3.0, Some(0.5), 60.0);
    } else if k == "hoodedClosed" {
      PresetRecordNormalized("agnostic-light.ui.hoodedClosed", 5.0, 0.0, "#ffa200", 360.0, 0.5, "torch", 3.0, 3.0, Some(0.5), 60.0);
    } else if k == "lightcantrip" {
      PresetRecordNormalized("agnostic-light.ui.lightcantrip", 14.0, 7.0, "#fffab8", 360.0, 0.5, "torch", 2.0, 1.0, Some(0.5), 60.0);
    } else if k == "moontouched" {
      PresetRecordNormalized("agnostic-light.ui.moontouched", 30.0, 15.0, "#38c0f3", 360.0, 0.5, "torch", 1.0, 1.0, Some(0.5), 60.0);
    } else {
      PresetRecordNormalized("agnostic-light.ui.sunlight", 60.0, 30.0, "#fff45c", 360.0, 0.6, "torch", 1.0, 5.0, Some(0.5), 60.0);
    }
  }

  /** Under the registered default cap of 60 every built-in preset is unchanged. */
  lemma {:induction false} DefaultsUnchangedUnderDefaultCap()
    ensures ClampedTable(DefaultLightModels(), Some(DefaultMaxLightRadius)) == DefaultLightModels()
  {
    var d := DefaultLightModels();
    forall k | k in d ensures Normalized(d[k], Some(DefaultMaxLightRadius)) {
      DefaultRecordNormalized(k);
    }
    ClampedTableKeepsNormalized(d, Some(DefaultMaxLightRadius));
  }

  /** The entry `k` of a clamped table is the clamped entry. */
  lemma ClampedEntry(models: Table, k: string, cap: Option<real>) returns (r: Value)
    requires k in models
    ensures k in ClampedTable(models, cap) && r == ClampedTable(models, cap)[k] && r == ClampPreset(models[k], cap)
  {
    r := ClampPreset(models[k], cap);
  }

  lemma TorchRecordUnderCapTen(p: Value)
    requires p == PresetRecord("agnostic-light.ui.torchLight", 12.0, 6.0, "#fab87a", 360.0, 0.5, "flame", 5.0, 5.0, None)
    ensures var t := ClampPreset(p, Some(10.0));
            RadiusOf(t, "dim") == Some(10.0) && RadiusOf(t, "bright") == Some(6.0) && Get(t, "color") == Str("#fab87a")
  {
    assert Get(p, "dim") == NumValue(12.0);
    assert Get(p, "bright") == NumValue(6.0);
  }

  /** With a cap of 10 the torch becomes dim 10, bright 6, and keeps its colour. */
  lemma TorchUnderCapTen()
    ensures var t := ClampedTable(DefaultLightModels(), Some(10.0))["torchLight"];
            RadiusOf(t, "dim") == Some(10.0) && RadiusOf(t, "bright") == Some(6.0)
            && Get(t, "color") == Str("#fab87a")
  {
    var d := DefaultLightModels();
    TorchRecordUnderCapTen(d["torchLight"]);
    var r := ClampedEntry(d, "torchLight", Some(10.0));
  }

  // ---------------------------------------------------------------------
  // sanitizeModels

  /** One field test of the strict check: the default's field `k` (value `v`) is
      missing from the candidate, or is an object where the candidate's is not,
      or the candidate's is non-null and of another `typeof`. */
  predicate FieldMismatch(v: Value, candidate: map<string, Value>, k: string)
    ensures k !in candidate ==> FieldMismatch(v, candidate, k)
    ensures k in candidate && candidate[k] == v ==> !FieldMismatch(v, candidate, k)
  {
    if k !in candidate then true
    else if v.Obj? then TypeOf(candidate[k]) != TObject
    else !candidate[k].Null? && TypeOf(candidate[k]) != TypeOf(v)
  }

  /** The strict shape check, with a candidate that is not an object counted as a
      mismatch (see `StrictMismatchAsWritten` for the source's behaviour there). */
  predicate Mismatch(defModel: Value, candidate: Value)
    ensures !candidate.Obj? ==> Mismatch(defModel, candidate)
    ensures defModel.Obj? && candidate == defModel ==> !Mismatch(defModel, candidate)
  {
    !candidate.Obj? || exists k :: k in Fields(defModel) && FieldMismatch(Fields(defModel)[k], candidate.fields, k)
  }

  /** `mergeObject(defModel, candidate, { inplace: false, ... })` */
  function MergeObject(defModel: Value, candidate: Value): (r: Value)
    ensures r.Obj? && r.fields.Keys == Fields(defModel).Keys + Fields(candidate).Keys
    ensures forall k :: k in Fields(defModel) && k !in Fields(candidate) ==> r.fields[k] == Fields(defModel)[k]
  {
    Obj(MergeFields(Fields(defModel), Fields(candidate)))
  }

  /** The entry that sanitisation keeps for one default key. */
  function SanitizeEntry(defModel: Value, candidate: Value, strict: bool): (r: Value)
    ensures !Truthy(candidate) ==> r == defModel
    ensures strict && Mismatch(defModel, candidate) ==> r == defModel
    ensures defModel.Obj? ==> r.Obj? && Fields(defModel).Keys <= r.fields.Keys
  {
    if !Truthy(candidate) then defModel
    else if strict && Mismatch(defModel, candidate) then defModel
    else MergeObject(defModel, candidate)
  }

  /** The table `sanitizeModels(saved, defaults, { strict })` returns. */
  function SanitizedTable(saved: Value, defaults: Table, strict: bool): Table {
    map k | k in defaults :: SanitizeEntry(defaults[k], Get(saved, k), strict)
  }

  /** `sanitizeModels(saved, defaults, { strict })`: builds the result key by key
      over the defaults. */
  method SanitizeModels(saved: Value, defaults: Table, strict: bool) returns (result: Table)
    ensures result == SanitizedTable(saved, defaults, strict)
  {
    result := map[];
    var pending := defaults.Keys;
    while pending != {}
      invariant pending <= defaults.Keys
      invariant result.Keys == defaults.Keys - pending
      invariant forall k :: k in result ==> result[k] == SanitizeEntry(defaults[k], Get(saved, k), strict)
      decreases pending
    {
      var key :| key in pending;
      pending := pending - {key};
      var defModel := defaults[key];
      var candidate := Get(saved, key);
      if !Truthy(candidate) {
        result := result[key := defModel];
        continue;
      }
      if strict {
        var mismatch := Mismatch(defModel, candidate);
        result := result[key := if mismatch then defModel else MergeObject(defModel, candidate)];
      } else {
        result := result[key := MergeObject(defModel, candidate)];
      }
    }
  }

  /** The result has exactly the default keys: saved keys without a default are dropped. */
  lemma SanitizedKeys(saved: Value, defaults: Table, strict: bool)
    ensures SanitizedTable(saved, defaults, strict).Keys == defaults.Keys
    ensures forall k :: k in Fields(saved) && k !in defaults ==> k !in SanitizedTable(saved, defaults, strict)
  {
  }

  /** A missing or falsy saved entry is replaced by the default. */
  lemma SanitizeMissingEntry(saved: Value, defaults: Table, strict: bool, k: string)
    requires k in defaults && !Truthy(Get(saved, k))
    ensures SanitizedTable(saved, defaults, strict)[k] == defaults[k]
  {
  }

  /** In strict mode, the default wins when one of its fields is absent from the
      candidate, is an object where the candidate's field is not, or the
      candidate's field is non-null and of another type. */
  lemma SanitizeStrictFallback(saved: Value, defaults: Table, k: string, f: string)
    requires k in defaults && Get(saved, k).Obj?
    requires f in Fields(defaults[k])
    requires var v, c := Fields(defaults[k])[f], Get(saved, k).fields;
             || f !in c
             || (v.Obj? && !(c[f].Obj? || c[f].Null?))
             || (!v.Obj? && !c[f].Null? && TypeOf(c[f]) != TypeOf(v))
    ensures SanitizedTable(saved, defaults, true)[k] == defaults[k]
  {
    assert FieldMismatch(Fields(defaults[k])[f], Get(saved, k).fields, f);
  }

  /** A saved entry that passes the shape test (or any truthy entry when not strict) is
      merged over the default: its values win on shared keys (objects merge), the
      default supplies the keys it lacks, and its extra keys are kept. */
  lemma SanitizeMergesCandidate(saved: Value, defaults: Table, strict: bool, k: string)
    requires k in defaults && Get(saved, k).Obj?
    requires strict ==> !Mismatch(defaults[k], Get(saved, k))
    ensures var r, d, c := SanitizedTable(saved, defaults, strict)[k], Fields(defaults[k]), Get(saved, k).fields;
            && r.Obj? && r.fields.Keys == d.Keys + c.Keys
            && (forall f :: f in c && !(f in d && d[f].Obj? && c[f].Obj?) ==> r.fields[f] == c[f])
            && (forall f :: f in c && f in d && d[f].Obj? && c[f].Obj? ==> r.fields[f] == MergeValue(d[f], c[f]))
            && (forall f :: f in d && f !in c ==> r.fields[f] == d[f])
  {
  }

  // ---------------------------------------------------------------------
  // The ready-hook fix-up

  /** `game.settings.get(...) || {}` */
  function SavedTable(stored: Value): (r: Value)
    ensures Truthy(r)
    ensures Truthy(stored) ==> r == stored
  {
    if Truthy(stored) then stored else Obj(map[])
  }

  /** `objectsEqual`, as structural equality of the two values. */
  predicate ObjectsEqual(a: Value, b: Value) {
    a == b
  }

  /** The stored table sanitised strictly against `defaults`, then clamped. */
  function FixupWith(stored: Value, defaults: Table, cap: Option<real>): Table {
    ClampedTable(SanitizedTable(SavedTable(stored), defaults, true), cap)
  }

  /** The table the ready hook installs. */
  function Fixup(stored: Value, cap: Option<real>): Table {
    FixupWith(stored, DefaultLightModels(), cap)
  }

  /** The ready hook's decision: compute the fixed table and rewrite the setting
      exactly when it differs from what was stored. */
  method ReadyFixup(stored: Value, cap: Option<real>) returns (fixed: Table, rewrite: bool)
    ensures fixed == Fixup(stored, cap)
    ensures fixed.Keys == DefaultLightModels().Keys
    ensures forall k :: k in fixed ==> Normalized(fixed[k], cap)
    ensures rewrite <==> SavedTable(stored) != Obj(fixed)
  {
    var saved := SavedTable(stored);
    var sanitized := SanitizeModels(saved, DefaultLightModels(), true);
    fixed := ClampAllLightModels(sanitized, cap);
    ClampedTableUnique(sanitized, cap, fixed);
    FixupWithShape(stored, DefaultLightModels(), cap);
    rewrite := !ObjectsEqual(saved, Obj(fixed));
  }

  /** The fixed table has the default keys and every entry within bounds. */
  lemma FixupWithShape(stored: Value, defaults: Table, cap: Option<real>)
    ensures FixupWith(stored, defaults, cap).Keys == defaults.Keys
    ensures forall k :: k in defaults ==> Normalized(FixupWith(stored, defaults, cap)[k], cap)
  {
    var sanitized := SanitizedTable(SavedTable(stored), defaults, true);
    SanitizedKeys(SavedTable(stored), defaults, true);
    ClampedTableNormalized(sanitized, cap);
  }

  /** Default records whose radii, where present, are numbers; this is what lets a
      clamped record pass the strict check again. */
  predicate WellShapedDefault(d: Value) {
    && d.Obj?
    && ("dim" in d.fields ==> d.fields["dim"].Num?)
    && ("bright" in d.fields ==> d.fields["bright"].Num?)
  }


  /** A sanitised-then-clamped entry sanitises to itself. */
  lemma {:induction false} EntryStable(d: Value, c: Value, cap: Option<real>)
    requires WellShapedDefault(d)
    ensures var f := ClampPreset(SanitizeEntry(d, c, true), cap);
            SanitizeEntry(d, f, true) == f
  {
    ClampedEntryMergesToItself(d, c, cap);
    ClampedEntryPassesCheck(d, c, cap);
  }

  /** Merging a sanitised-then-clamped entry over its default gives it back. */
  lemma {:induction false} ClampedEntryMergesToItself(d: Value, c: Value, cap: Option<real>)
    requires d.Obj?
    ensures var f := ClampPreset(SanitizeEntry(d, c, true), cap);
            MergeObject(d, f) == f
  {
    var e := SanitizeEntry(d, c, true);
    var f := ClampPreset(e, cap);
    var D := d.fields;
    var dim := Num(Finite(Max(ClampRadius(Get(e, "dim"), cap), ClampRadius(Get(e, "bright"), cap))));
    var bright := Num(Finite(ClampRadius(Get(e, "bright"), cap)));
    assert f.fields == Fields(e)["dim" := dim]["bright" := bright];
    assert MergeFields(D, Fields(e)) == Fields(e) by {
      if e == d {
        MergeFieldsSelf(D);
      } else {
        assert e == Obj(MergeFields(D, c.fields));
        MergeFieldsAbsorb(D, c.fields);
      }
    }
    MergeFieldsUpdate(D, Fields(e), "dim", dim);
    MergeFieldsUpdate(D, Fields(e)["dim" := dim], "bright", bright);
  }

  /** A sanitised-then-clamped entry passes the strict check against its default. */
  lemma {:induction false} ClampedEntryPassesCheck(d: Value, c: Value, cap: Option<real>)
    requires WellShapedDefault(d)
    ensures !Mismatch(d, ClampPreset(SanitizeEntry(d, c, true), cap))
  {
    var f := ClampPreset(SanitizeEntry(d, c, true), cap);
    forall k | k in d.fields ensures !FieldMismatch(d.fields[k], f.fields, k) {
      ClampedFieldPassesCheck(d, c, cap, k);
    }
  }

  /** One field of a sanitised-then-clamped entry passes the strict check. */
  lemma ClampedFieldPassesCheck(d: Value, c: Value, cap: Option<real>, k: string)
    requires WellShapedDefault(d) && k in d.fields
    ensures !FieldMismatch(d.fields[k], ClampPreset(SanitizeEntry(d, c, true), cap).fields, k)
  {
    var e := SanitizeEntry(d, c, true);
    if k != "dim" && k != "bright" && e != d {
      assert !FieldMismatch(d.fields[k], c.fields, k);
    }
  }

  /** Sanitise-then-clamp is a projection for any defaults with numeric radii. */
  lemma {:induction false} FixupWithStable(stored: Value, defaults: Table, cap: Option<real>)
    requires forall k :: k in defaults ==> WellShapedDefault(defaults[k])
    ensures FixupWith(Obj(FixupWith(stored, defaults, cap)), defaults, cap) == FixupWith(stored, defaults, cap)
  {
    var fixed := FixupWith(stored, defaults, cap);
    var sanitized := SanitizedTable(SavedTable(stored), defaults, true);
    FixedSanitizesToItself(stored, defaults, cap);
    assert SavedTable(Obj(fixed)) == Obj(fixed);
    ClampedTableIdempotent(sanitized, cap);
  }

  lemma {:induction false} FixedSanitizesToItself(stored: Value, defaults: Table, cap: Option<real>)
    requires forall k :: k in defaults ==> WellShapedDefault(defaults[k])
    ensures SanitizedTable(Obj(FixupWith(stored, defaults, cap)), defaults, true) == FixupWith(stored, defaults, cap)
  {
    var fixed := FixupWith(stored, defaults, cap);
    var t := SanitizedTable(Obj(fixed), defaults, true);
    FixupWithShape(stored, defaults, cap);
    SanitizedKeys(Obj(fixed), defaults, true);
    forall k | k in t ensures t[k] == fixed[k] {
      FixedEntryStable(stored, defaults, cap, k);
      assert t[k] == SanitizeEntry(defaults[k], Get(Obj(fixed), k), true);
    }
    TablesEqual(t, fixed);
  }

  lemma TablesEqual(a: Table, b: Table)
    requires a.Keys == b.Keys && forall k :: k in a ==> a[k] == b[k]
    ensures a == b
  {
  }

  lemma {:induction false} FixedEntryStable(stored: Value, defaults: Table, cap: Option<real>, k: string)
    requires k in defaults && WellShapedDefault(defaults[k])
    ensures var fixed := FixupWith(stored, defaults, cap);
            k in fixed && SanitizeEntry(defaults[k], Get(Obj(fixed), k), true) == fixed[k]
  {
    var sanitized := SanitizedTable(SavedTable(stored), defaults, true);
    var e := SanitizeEntry(defaults[k], Get(SavedTable(stored), k), true);
    assert sanitized[k] == e;
    var r := ClampedEntry(sanitized, k, cap);
    EntryStable(defaults[k], Get(SavedTable(stored), k), cap);
  }

  /** After one fix-up the stored table is already fixed: the next ready hook
      finds nothing to rewrite. */
  lemma {:induction false} FixupStable(stored: Value, cap: Option<real>)
    ensures Fixup(Obj(Fixup(stored, cap)), cap) == Fixup(stored, cap)
  {
    forall k | k in DefaultLightModels() ensures WellShapedDefault(DefaultLightModels()[k]) {
      DefaultRecordNormalized(k);
    }
    FixupWithStable(stored, DefaultLightModels(), cap);
  }

  /** Under the same cap, and with no panel save in between, a second ready hook
      run on the table the first one wrote decides not to rewrite it. */
  lemma {:induction false} SecondStartupKeepsSetting(stored: Value, cap: Option<real>)
    ensures SavedTable(Obj(Fixup(stored, cap))) == Obj(Fixup(Obj(Fixup(stored, cap)), cap))
  {
    SavedObjectIsItself(Fixup(stored, cap));
    FixupStable(stored, cap);
  }

  /** A stored table that is an object is read back as it is. */
  lemma SavedObjectIsItself(t: Table)
    ensures SavedTable(Obj(t)) == Obj(t)
  {
  }

  /** A table whose entries are objects sanitises to itself against itself. */
  lemma {:induction false} SanitizeAgainstItself(d: Table)
    requires forall k :: k in d ==> d[k].Obj?
    ensures SanitizedTable(Obj(d), d, true) == d
  {
    forall k | k in d ensures SanitizeEntry(d[k], Get(Obj(d), k), true) == d[k] {
      MergeFieldsSelf(d[k].fields);
      assert forall f :: f in d[k].fields ==> !FieldMismatch(d[k].fields[f], d[k].fields, f);
    }
  }

  /** A world that stores the built-in table, under the default cap, is not rewritten. */
  lemma {:induction false} DefaultsNeedNoFixup()
    ensures Fixup(Obj(DefaultLightModels()), Some(DefaultMaxLightRadius)) == DefaultLightModels()
  {
    var d := DefaultLightModels();
    forall k | k in d ensures Normalized(d[k], Some(DefaultMaxLightRadius)) {
      DefaultRecordNormalized(k);
    }
    NormalizedTableNeedsNoFixup(d, Some(DefaultMaxLightRadius));
  }

  /** A table of in-bounds presets, fixed up against itself, is unchanged. */
  lemma {:induction false} NormalizedTableNeedsNoFixup(d: Table, cap: Option<real>)
    requires forall k :: k in d ==> Normalized(d[k], cap)
    ensures FixupWith(Obj(d), d, cap) == d
  {
    SanitizeAgainstItself(d);
    assert SavedTable(Obj(d)) == Obj(d);
    ClampedTableKeepsNormalized(d, cap);
  }

  // ---------------------------------------------------------------------
  // The strict check as the source writes it

  /** The error a JavaScript evaluation throws: a TypeError from the language,
      or the Error Foundry's `mergeObject` raises for an argument that is not an
      object. */
  datatype JsError = TypeError(message: string) | MergeError(message: string)

  /** `mergeObject(defModel, candidate)` as Foundry runs it: it refuses an argument
      that is not an object. */
  function MergeObjectAsWritten(defModel: Value, candidate: Value): (r: Result<Value, JsError>)
    ensures r.Success? <==> defModel.Obj? && candidate.Obj?
    ensures r.Success? ==> r.value == MergeObject(defModel, candidate)
  {
    if defModel.Obj? && candidate.Obj? then Success(MergeObject(defModel, candidate))
    else Failure(MergeError("One of original or other are not Objects!"))
  }

  /** The strict check as written: its first step, `k in candidate`, throws a
      TypeError when the candidate is a primitive, so any truthy primitive entry
      throws as soon as the default has a field. */
  function StrictMismatchAsWritten(defModel: Value, candidate: Value): (r: Result<bool, JsError>)
    ensures r.Failure? <==> !candidate.Obj? && Fields(defModel) != map[]
    ensures r.Success? && candidate.Obj? ==> (r.value <==> Mismatch(defModel, candidate))
  {
    if !candidate.Obj? && Fields(defModel) != map[] then
      Failure(TypeError("Cannot use 'in' operator to search in a primitive"))
    else
      Success(candidate.Obj? && exists k :: k in Fields(defModel) && FieldMismatch(Fields(defModel)[k], candidate.fields, k))
  }

  /** One entry of `sanitizeModels` as written. */
  function SanitizeEntryAsWritten(defModel: Value, candidate: Value, strict: bool): Result<Value, JsError> {
    if !Truthy(candidate) then Success(defModel)
    else if !strict then MergeObjectAsWritten(defModel, candidate)
    else match StrictMismatchAsWritten(defModel, candidate)
      case Failure(e) => Failure(e)
      case Success(m) => if m then Success(defModel) else MergeObjectAsWritten(defModel, candidate)
  }

  /** Every entry's outcome under the source's version. */
  function AsWrittenEntries(saved: Value, defaults: Table, strict: bool): map<string, Result<Value, JsError>> {
    map k | k in defaults :: SanitizeEntryAsWritten(defaults[k], Get(saved, k), strict)
  }

  /** `sanitizeModels` as written: an entry that throws aborts the whole call with
      its error (which entry comes first depends on key order, which the model
      leaves open). */
  ghost function SanitizeModelsAsWritten(saved: Value, defaults: Table, strict: bool): Result<Table, JsError> {
    var entries := AsWrittenEntries(saved, defaults, strict);
    if exists k :: k in entries && entries[k].Failure? then
      var k :| k in entries && entries[k].Failure?;
      Failure(entries[k].error)
    else
      Success(map k | k in entries :: entries[k].value)
  }

  /** Where the source's version returns, it agrees with the corrected one; it
      throws exactly when some default meets a truthy stored entry that is not an
      object, whether or not the shape test is strict. */
  lemma SanitizeAsWrittenAgrees(saved: Value, defaults: Table, strict: bool)
    requires forall k :: k in defaults ==> defaults[k].Obj?
    ensures SanitizeModelsAsWritten(saved, defaults, strict).Success? ==>
            SanitizeModelsAsWritten(saved, defaults, strict).value == SanitizedTable(saved, defaults, strict)
    ensures SanitizeModelsAsWritten(saved, defaults, strict).Failure? <==>
            exists k :: k in defaults && Truthy(Get(saved, k)) && !Get(saved, k).Obj?
  {
    AsWrittenFailure(saved, defaults, strict);
    AsWrittenSuccess(saved, defaults, strict);
  }

  lemma AsWrittenFailure(saved: Value, defaults: Table, strict: bool)
    requires forall k :: k in defaults ==> defaults[k].Obj?
    ensures SanitizeModelsAsWritten(saved, defaults, strict).Failure? <==>
            exists k :: k in defaults && Truthy(Get(saved, k)) && !Get(saved, k).Obj?
  {
    var entries := AsWrittenEntries(saved, defaults, strict);
    if SanitizeModelsAsWritten(saved, defaults, strict).Failure? {
      var k :| k in entries && entries[k].Failure?;
      EntryAsWrittenAgrees(defaults[k], Get(saved, k), strict);
    } else {
      forall k | k in defaults
        ensures !(Truthy(Get(saved, k)) && !Get(saved, k).Obj?)
      {
        assert entries[k].Success?;
        EntryAsWrittenAgrees(defaults[k], Get(saved, k), strict);
      }
    }
  }

  lemma AsWrittenSuccess(saved: Value, defaults: Table, strict: bool)
    requires forall k :: k in defaults ==> defaults[k].Obj?
    ensures SanitizeModelsAsWritten(saved, defaults, strict).Success? ==>
            SanitizeModelsAsWritten(saved, defaults, strict).value == SanitizedTable(saved, defaults, strict)
  {
    var entries := AsWrittenEntries(saved, defaults, strict);
    if SanitizeModelsAsWritten(saved, defaults, strict).Success? {
      var t := SanitizeModelsAsWritten(saved, defaults, strict).value;
      assert t == map k | k in entries :: entries[k].value;
      forall k | k in defaults
        ensures t[k] == SanitizeEntry(defaults[k], Get(saved, k), strict)
      {
        EntryAsWrittenAgrees(defaults[k], Get(saved, k), strict);
      }
      TablesEqual(t, SanitizedTable(saved, defaults, strict));
    }
  }

  /** One entry as written throws exactly for a truthy entry that is not an object,
      and otherwise agrees with the corrected entry. */
  lemma EntryAsWrittenAgrees(d: Value, c: Value, strict: bool)
    requires d.Obj?
    ensures SanitizeEntryAsWritten(d, c, strict).Failure? <==> Truthy(c) && !c.Obj?
    ensures SanitizeEntryAsWritten(d, c, strict).Success? ==> SanitizeEntryAsWritten(d, c, strict).value == SanitizeEntry(d, c, strict)
  {
  }

  /** A saved torch entry of `1` makes the source's ready hook throw. */
  lemma SanitizeAsWrittenThrowsOnNumberEntry()
    ensures SanitizeModelsAsWritten(Obj(map["torchLight" := Num(Finite(1.0))]), DefaultLightModels(), true).Failure?
  {
    var saved := Obj(map["torchLight" := Num(Finite(1.0))]);
    SanitizeAsWrittenThrows(saved, DefaultLightModels(), true, "torchLight");
  }

  /** Any truthy stored entry that is not an object makes the source's version throw. */
  lemma SanitizeAsWrittenThrows(saved: Value, defaults: Table, strict: bool, k: string)
    requires k in defaults
    requires Truthy(Get(saved, k)) && !Get(saved, k).Obj?
    ensures SanitizeModelsAsWritten(saved, defaults, strict).Failure?
  {
    var entries := AsWrittenEntries(saved, defaults, strict);
    assert entries[k].Failure?;
  }

  /** The corrected check: a saved entry that is not an object yields the default. */
  lemma SanitizePrimitiveEntryFallsBack(saved: Value, defaults: Table, k: string)
    requires k in defaults && !Get(saved, k).Obj?
    ensures SanitizedTable(saved, defaults, true)[k] == defaults[k]
  {
  }
}
