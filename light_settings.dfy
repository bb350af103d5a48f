/**
 * The preset configuration panel of module/light-settings.js: the context it
 * prepares (the model list and the selected model with field defaults) and
 * the submit handler that merges the form into one record of the API's table.
 */
module LightSettings {
  import opened Wrappers
  import opened JsValue
  import opened PresetStore
  import opened TokenLight

  /** `{ key, ...model }`: the model's own fields win, even over `key`. */
  function ModelEntry(key: string, model: Value): (e: map<string, Value>)
    ensures e.Keys == Fields(model).Keys + {"key"}
    ensures "key" !in Fields(model) ==> e["key"] == Str(key)
    ensures forall f :: f in Fields(model) ==> e[f] == Fields(model)[f]
  {
    map["key" := Str(key)] + Fields(model)
  }

  /** `models.find(model => model.key === key)`, as the index of the first match. */
  function FindByKey(models: seq<map<string, Value>>, key: string): (r: Option<nat>)
    ensures r.Some? ==> r.value < |models| && Get(Obj(models[r.value]), "key") == Str(key)
    ensures r.Some? ==> forall j :: 0 <= j < r.value ==> Get(Obj(models[j]), "key") != Str(key)
    ensures r.None? ==> forall j :: 0 <= j < |models| ==> Get(Obj(models[j]), "key") != Str(key)
  {
    if models == [] then None
    else if Get(Obj(models[0]), "key") == Str(key) then Some(0)
    else match FindByKey(models[1..], key)
      case None => None
      case Some(i) => Some(i + 1)
  }

  /** The field defaults of the selected model. */
  function SelectedModelDefaults(): map<string, Value> {
    map["intensity" := NumValue(0.5), "dim" := NumValue(0.0), "bright" := NumValue(0.0),
        "angle" := NumValue(360.0), "color" := Str("#ffffff")]
  }

  /** What `_prepareContext` adds to the render context. */
  datatype PanelContext = PanelContext(
    models: seq<map<string, Value>>,
    selectedLightKey: string,
    selectedModel: map<string, Value>)

  /** The entry whose key matches, else the first entry, else `{}`. */
  function SelectedRaw(models: seq<map<string, Value>>, key: string): (r: map<string, Value>)
    ensures models == [] ==> r == map[]
    ensures models != [] ==> exists i :: 0 <= i < |models| && r == models[i]
  {
    match FindByKey(models, key)
    case Some(i) => models[i]
    case None => if models != [] then models[0] else map[]
  }

  /** `_prepareContext`, given `Object.entries(api.models)` in order and the
      `selectedLightKey` option. */
  function PrepareContext(entries: seq<(string, Value)>, selectedOption: Option<string>): (ctx: PanelContext)
    ensures |ctx.models| == |entries|
    ensures forall i :: 0 <= i < |entries| ==> ctx.models[i] == ModelEntry(entries[i].0, entries[i].1)
    ensures ctx.selectedLightKey == KeyOrDefault(selectedOption)
    ensures ctx.selectedModel.Keys == SelectedModelDefaults().Keys + SelectedRaw(ctx.models, ctx.selectedLightKey).Keys
  {
    var models := seq(|entries|, i requires 0 <= i < |entries| => ModelEntry(entries[i].0, entries[i].1));
    var selectedLightKey := KeyOrDefault(selectedOption);
    var selectedModelRaw := SelectedRaw(models, selectedLightKey);
    PanelContext(models, selectedLightKey, SelectedModelDefaults() + selectedModelRaw)
  }

  /** The selected model is the first entry whose key matches; failing that the
      first entry; failing that `{}`. */
  lemma SelectedRawChoice(models: seq<map<string, Value>>, key: string)
    ensures forall i :: 0 <= i < |models| && Get(Obj(models[i]), "key") == Str(key)
              && (forall j :: 0 <= j < i ==> Get(Obj(models[j]), "key") != Str(key))
              ==> SelectedRaw(models, key) == models[i]
    ensures (forall i :: 0 <= i < |models| ==> Get(Obj(models[i]), "key") != Str(key))
              ==> SelectedRaw(models, key) == (if models != [] then models[0] else map[])
  {
    var r := FindByKey(models, key);
    forall i | 0 <= i < |models| && Get(Obj(models[i]), "key") == Str(key)
                 && (forall j :: 0 <= j < i ==> Get(Obj(models[j]), "key") != Str(key))
      ensures SelectedRaw(models, key) == models[i]
    {
      assert r.Some?;
    }
  }

  /** Any field of the raw selected model overrides its default, and the
      defaults fill in the rest. */
  lemma SelectedModelDefaultsFill(entries: seq<(string, Value)>, selectedOption: Option<string>)
    ensures var ctx := PrepareContext(entries, selectedOption);
            var raw := SelectedRaw(ctx.models, ctx.selectedLightKey);
            && (forall f :: f in raw ==> ctx.selectedModel[f] == raw[f])
            && (forall f :: f in SelectedModelDefaults() && f !in raw ==> ctx.selectedModel[f] == SelectedModelDefaults()[f])
  {
  }

  /** With no option the panel selects "torchLight", and with an empty table the
      selected model is exactly the defaults. */
  lemma PanelDefaults(entries: seq<(string, Value)>)
    ensures PrepareContext(entries, None).selectedLightKey == "torchLight"
    ensures PrepareContext([], None).selectedModel == SelectedModelDefaults()
  {
    assert SelectedModelDefaults() + map[] == SelectedModelDefaults();
  }

  // ---------------------------------------------------------------------
  // The submit handler

  /** The parsed form: `color` and `animation` are the raw form strings (absent
      when the form lacks the field); the numbers are the results of
      `parseFloat`/`parseInt`. */
  datatype FormInput = FormInput(
    color: Option<string>,
    intensity: JsNumber,
    dim: JsNumber,
    bright: JsNumber,
    angle: JsNumber,
    animation: Option<string>)

  function FormString(s: Option<string>): Value {
    if s.Some? then Str(s.value) else Undefined
  }

  /** `updatedLight`: the form's values, and the old record's animation speed and
      intensity (3 when absent). */
  function UpdatedLight(modelData: Value, form: FormInput): (u: map<string, Value>)
    ensures u.Keys == {"color", "intensity", "dim", "bright", "angle", "animation"}
    ensures u["intensity"] == Num(form.intensity) && u["dim"] == Num(form.dim)
            && u["bright"] == Num(form.bright) && u["angle"] == Num(form.angle)
    ensures u["animation"].Obj?
  {
    map[
      "color" := FormString(form.color),
      "intensity" := Num(form.intensity),
      "dim" := Num(form.dim),
      "bright" := Num(form.bright),
      "angle" := Num(form.angle),
      "animation" := Obj(UpdatedAnimation(Get(modelData, "animation"), form))]
  }

  /** `updatedLight.animation`: the form's type, the old speed and intensity. */
  function UpdatedAnimation(oldAnimation: Value, form: FormInput): (a: map<string, Value>)
    ensures a.Keys == {"type", "speed", "intensity"}
    ensures Nullish(Get(oldAnimation, "speed")) ==> a["speed"] == NumValue(3.0)
    ensures !Nullish(Get(oldAnimation, "speed")) ==> a["speed"] == Get(oldAnimation, "speed")
    ensures Nullish(Get(oldAnimation, "intensity")) ==> a["intensity"] == NumValue(3.0)
    ensures !Nullish(Get(oldAnimation, "intensity")) ==> a["intensity"] == Get(oldAnimation, "intensity")
  {
    map[
      "type" := FormString(form.animation),
      "speed" := Coalesce(Get(oldAnimation, "speed"), NumValue(3.0)),
      "intensity" := Coalesce(Get(oldAnimation, "intensity"), NumValue(3.0))]
  }

  /** `mergeObject(modelData, updatedLight, { overwrite: true })` */
  function SavedRecord(modelData: Value, form: FormInput): (r: Value)
    ensures r.Obj? && r.fields.Keys == Fields(modelData).Keys + UpdatedLight(modelData, form).Keys
  {
    Obj(MergeFields(Fields(modelData), UpdatedLight(modelData, form)))
  }

  /** Why a submit saves nothing: the handler's "model not found" notice, or the
      Error Foundry's `mergeObject` throws when the stored entry is a primitive. */
  datatype SubmitError = ModelNotFound | MergeRejected

  /** The record the submit handler starts from: `duplicate(api.models?.[key] ?? {})`. */
  function ModelData(models: Table, key: string): (d: Value)
    ensures key !in models || Nullish(models[key]) ==> d == Obj(map[])
    ensures key in models && !Nullish(models[key]) ==> d == models[key]
  {
    Coalesce(if key in models then models[key] else Undefined, Obj(map[]))
  }

  /** The table after a submit, or the error the handler reports. */
  function SubmitResult(models: Table, selectedKey: Option<string>, form: FormInput): Result<Table, SubmitError> {
    if selectedKey.None? || selectedKey.value == "" then Failure(ModelNotFound)
    else if !Truthy(ModelData(models, selectedKey.value)) then Failure(ModelNotFound)
    else if !ModelData(models, selectedKey.value).Obj? then Failure(MergeRejected)
    else Success(models[selectedKey.value := SavedRecord(ModelData(models, selectedKey.value), form)])
  }

  /** The submit handler: merge the form into `api.models[selectedKey]` and hand
      the whole table to the save call, or report an error and change nothing.
      Without an installed API the handler works on a fresh empty table, which
      is then what it saves. */
  method SubmitForm(api: LightApi?, selectedKey: Option<string>, form: FormInput)
    returns (saved: Result<Table, SubmitError>)
    modifies api
    ensures saved == SubmitResult(if api == null then map[] else old(api.models), selectedKey, form)
    ensures api != null ==> api.models == (if saved.Success? then saved.value else old(api.models))
  {
    var models := if api == null then map[] else api.models;
    if selectedKey.None? || selectedKey.value == "" {
      return Failure(ModelNotFound);
    }
    var key := selectedKey.value;
    var modelData := ModelData(models, key);
    if !Truthy(modelData) {
      return Failure(ModelNotFound);
    }
    if !modelData.Obj? {
      return Failure(MergeRejected);
    }
    var updatedLight := UpdatedLight(modelData, form);
    models := models[key := Obj(MergeFields(Fields(modelData), updatedLight))];
    if api != null {
      api.models := models;
    }
    saved := Success(models);
  }

  /** A submit fails exactly when no key is selected, the stored entry is falsy
      but not null, or it is a truthy primitive that `mergeObject` refuses;
      otherwise only the selected entry changes. */
  lemma SubmitTouchesOnlySelected(models: Table, selectedKey: Option<string>, form: FormInput)
    ensures SubmitResult(models, selectedKey, form).Failure? <==>
            selectedKey.None? || selectedKey.value == ""
            || (selectedKey.value in models && !Nullish(models[selectedKey.value]) && !models[selectedKey.value].Obj?)
    ensures SubmitResult(models, selectedKey, form) == Failure(MergeRejected) <==>
            && selectedKey.Some? && selectedKey.value != "" && selectedKey.value in models
            && Truthy(models[selectedKey.value]) && !models[selectedKey.value].Obj?
    ensures SubmitResult(models, selectedKey, form).Success? ==>
            var t := SubmitResult(models, selectedKey, form).value;
            && t.Keys == models.Keys + {selectedKey.value}
            && (forall k :: k in models && k != selectedKey.value ==> t[k] == models[k])
            && t[selectedKey.value] == SavedRecord(ModelData(models, selectedKey.value), form)
  {
  }

  /** Without an installed API, a submit for a non-empty key saves a table that
      holds only that key, built from an empty record. */
  lemma SubmitWithoutApiSavesOneEntry(key: string, form: FormInput)
    requires key != ""
    ensures SubmitResult(map[], Some(key), form) == Success(map[key := SavedRecord(Obj(map[]), form)])
  {
  }

  /** The saved record takes colour, intensity, radii and angle from the form
      and keeps every other field it had. */
  lemma SavedRecordFields(modelData: Value, form: FormInput)
    ensures var r := SavedRecord(modelData, form);
            && Get(r, "color") == FormString(form.color)
            && Get(r, "intensity") == Num(form.intensity)
            && Get(r, "dim") == Num(form.dim) && Get(r, "bright") == Num(form.bright)
            && Get(r, "angle") == Num(form.angle)
            && (forall f :: f in Fields(modelData) && f !in UpdatedLight(modelData, form) ==> Get(r, f) == Fields(modelData)[f])
  {
  }

  /** The saved record's animation takes its type from the form and keeps its
      own speed and intensity (3 when absent). */
  lemma {:induction false} SavedRecordAnimation(modelData: Value, form: FormInput)
    ensures var r, oldAnimation := SavedRecord(modelData, form), Get(modelData, "animation");
            && Get(Get(r, "animation"), "type") == FormString(form.animation)
            && Get(Get(r, "animation"), "speed") == Coalesce(Get(oldAnimation, "speed"), NumValue(3.0))
            && Get(Get(r, "animation"), "intensity") == Coalesce(Get(oldAnimation, "intensity"), NumValue(3.0))
  {
    SavedAnimationIsMerge(modelData, form);
    MergedAnimationFields(Get(modelData, "animation"), form);
  }

  /** The saved animation is the old one merged with the updated one. */
  lemma SavedAnimationIsMerge(modelData: Value, form: FormInput)
    ensures Get(SavedRecord(modelData, form), "animation")
            == MergeValue(Get(modelData, "animation"), Obj(UpdatedAnimation(Get(modelData, "animation"), form)))
  {
    var oldAnimation := Get(modelData, "animation");
    assert UpdatedLight(modelData, form)["animation"] == Obj(UpdatedAnimation(oldAnimation, form));
  }

  /** Merging the updated animation over the old one keeps the old speed and
      intensity (3 when absent) and takes the form's type. */
  lemma MergedAnimationFields(oldAnimation: Value, form: FormInput)
    ensures var a := MergeValue(oldAnimation, Obj(UpdatedAnimation(oldAnimation, form)));
            && Get(a, "type") == FormString(form.animation)
            && Get(a, "speed") == Coalesce(Get(oldAnimation, "speed"), NumValue(3.0))
            && Get(a, "intensity") == Coalesce(Get(oldAnimation, "intensity"), NumValue(3.0))
  {
    if oldAnimation.Obj? {
      AnimationKeepsOwn(oldAnimation.fields, "speed");
      AnimationKeepsOwn(oldAnimation.fields, "intensity");
    }
  }

  /** Merging `x ?? 3` over `x` gives `x ?? 3`. */
  lemma AnimationKeepsOwn(prior: map<string, Value>, f: string)
    ensures var v := Coalesce(Get(Obj(prior), f), NumValue(3.0));
            f in prior ==> MergeValue(prior[f], v) == v
  {
    if f in prior && !Nullish(prior[f]) {
      MergeSelf(prior[f]);
    }
  }
}
