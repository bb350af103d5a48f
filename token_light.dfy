/**
 * The per-token light state machine: `applyLight`/`resetLight` of the API
 * object installed by module/control-panel.js, and `backupTokensLight`,
 * `lightson`, `lightsoff`, the token HUD buttons and the panel key of
 * module/ui.js. A token carries its `light` record and three module flags.
 * A token `update` is the deep merge of `JsValue.MergeFields`; `setFlag`
 * replaces the flag. Calls run one after another.
 */
module TokenLight {
  import opened Wrappers
  import opened JsValue
  import opened RadiusPolicy
  import opened PresetStore

  /** The preset `lightson` falls back to. */
  const DefaultModel: string := "torchLight"

  /** The light fields `applyLight` sends. */
  const PatchFields: set<string> := {"dim", "bright", "color", "angle", "alpha", "intensity", "animation"}

  /** The scalar light fields `backupTokensLight` records (besides `animation.type`). */
  const SnapshotFields: set<string> := {"bright", "dim", "angle", "color", "alpha", "intensity"}

  /** What the model knows of a token: its light record and the module's three flags. */
  datatype TokenState = TokenState(
    light: map<string, Value>,
    lightIconState: Option<string>,
    baseLight: Option<map<string, Value>>,
    chosenModel: Option<string>)

  /** `getFlag(MODULE_ID, "lightIconState") || "off"` */
  function IconState(flag: Option<string>): (state: string)
    ensures state != ""
    ensures flag.Some? && flag.value != "" ==> state == flag.value
    ensures flag.None? || flag.value == "" ==> state == "off"
  {
    if flag.Some? && flag.value != "" then flag.value else "off"
  }

  /** `key || "torchLight"`, for the `chosenModel` flag and the panel option alike. */
  function KeyOrDefault(flag: Option<string>): (key: string)
    ensures flag.None? || flag.value == "" ==> key == DefaultModel
    ensures flag.Some? && flag.value != "" ==> key == flag.value
  {
    if flag.Some? && flag.value != "" then flag.value else DefaultModel
  }

  /** The backup `backupTokensLight` takes of the current light. */
  function Snapshot(light: map<string, Value>): (b: map<string, Value>)
    ensures b.Keys == SnapshotFields + {"animation"}
    ensures forall f :: f in SnapshotFields ==> b[f] == Get(Obj(light), f)
    ensures b["animation"] == Obj(map["type" := Get(Get(Obj(light), "animation"), "type")])
  {
    var l := Obj(light);
    map[
      "bright" := Get(l, "bright"), "dim" := Get(l, "dim"), "angle" := Get(l, "angle"),
      "color" := Get(l, "color"), "alpha" := Get(l, "alpha"), "intensity" := Get(l, "intensity"),
      "animation" := Obj(map["type" := Get(Get(l, "animation"), "type")])]
  }

  /** `backupTokensLight`: snapshot the light only when the token is "off". */
  function Backup(s: TokenState): TokenState {
    if IconState(s.lightIconState) != "off" then s
    else s.(baseLight := Some(Snapshot(s.light)))
  }

  /** The `light` object `applyLight` sends to `update`: the clamped preset's
      radii and its colour, angle, alpha, intensity and animation. */
  function LightPatch(preset: Value, cap: Option<real>): map<string, Value> {
    map f | f in PatchFields :: Get(ClampPreset(preset, cap), f)
  }

  /** `applyLight(token, lightKey)`: a missing or falsy preset leaves the token alone. */
  function Apply(models: Table, s: TokenState, key: string, cap: Option<real>): TokenState {
    if key !in models || !Truthy(models[key]) then s
    else s.(light := MergeFields(s.light, LightPatch(models[key], cap)), lightIconState := Some("on"))
  }

  /** `resetLight(token)`: push the backup (or `{}`) and mark the token "off". */
  function Reset(s: TokenState): TokenState {
    s.(light := MergeFields(s.light, s.baseLight.GetOr(map[])), lightIconState := Some("off"))
  }

  /** `lightson`, given the API's table (None when the API is not installed). */
  function LightsOnSpec(api: Option<Table>, s: TokenState, cap: Option<real>): TokenState {
    var key := KeyOrDefault(s.chosenModel);
    var b := Backup(s);
    if api.Some? then Apply(api.value, b, key, cap) else b
  }

  /** `lightsoff`, given the API's table (None when the API is not installed). */
  function LightsOffSpec(api: Option<Table>, s: TokenState): TokenState {
    if api.Some? then Reset(s) else s
  }

  /** The HUD's on-button click: `lightson`, then the flag is set to "on". */
  function OnClickSpec(api: Option<Table>, s: TokenState, cap: Option<real>): TokenState {
    LightsOnSpec(api, s, cap).(lightIconState := Some("on"))
  }

  /** The HUD's off-button click: `lightsoff`, then the flag is set to "off". */
  function OffClickSpec(api: Option<Table>, s: TokenState): TokenState {
    LightsOffSpec(api, s).(lightIconState := Some("off"))
  }

  // ---------------------------------------------------------------------
  // The objects

  /** A token document: its light record and the module's flags on it. */
  class Token {
    var light: map<string, Value>
    var lightIconState: Option<string>
    var baseLight: Option<map<string, Value>>
    var chosenModel: Option<string>

    constructor (light: map<string, Value>, chosenModel: Option<string>)
      ensures State() == TokenState(light, None, None, chosenModel)
    {
      this.light := light;
      this.lightIconState := None;
      this.baseLight := None;
      this.chosenModel := chosenModel;
    }

    function State(): TokenState
      reads this
    {
      TokenState(light, lightIconState, baseLight, chosenModel)
    }

    /** `token.document.update({ light: patch })` */
    method UpdateLight(patch: map<string, Value>)
      modifies this
      ensures State() == old(State()).(light := MergeFields(old(light), patch))
    {
      light := MergeFields(light, patch);
    }

    /** `token.document.setFlag(MODULE_ID, "lightIconState", state)` */
    method SetLightIconState(state: string)
      modifies this
      ensures State() == old(State()).(lightIconState := Some(state))
    {
      lightIconState := Some(state);
    }

    /** `token.document.setFlag(MODULE_ID, "base_light", backup)` */
    method SetBaseLight(backup: map<string, Value>)
      modifies this
      ensures State() == old(State()).(baseLight := Some(backup))
    {
      baseLight := Some(backup);
    }
  }

  /** The API object the ready hook installs: the preset table and the two
      token operations. */
  class LightApi {
    var models: Table

    constructor (models: Table)
      ensures this.models == models
    {
      this.models := models;
    }

    method ApplyLight(token: Token, lightKey: string, cap: Option<real>)
      modifies token
      ensures token.State() == Apply(models, old(token.State()), lightKey, cap)
    {
      if lightKey !in models || !Truthy(models[lightKey]) {
        return;
      }
      var preset := models[lightKey];
      token.UpdateLight(LightPatch(preset, cap));
      token.SetLightIconState("on");
    }

    method ResetLight(token: Token)
      modifies token
      ensures token.State() == Reset(old(token.State()))
    {
      var oldLight := token.baseLight;
      token.UpdateLight(oldLight.GetOr(map[]));
      token.SetLightIconState("off");
    }

    /** The reset-presets menu: the built-in table, clamped, replaces the models
        and is what gets persisted. */
    method ResetPresets(cap: Option<real>) returns (persisted: Table)
      modifies this
      ensures models == ClampedTable(DefaultLightModels(), cap) && persisted == models
    {
      var lm := ClampAllLightModels(DefaultLightModels(), cap);
      ClampedTableUnique(DefaultLightModels(), cap, lm);
      models := lm;
      persisted := lm;
    }
  }

  /** The table of the installed API, if there is one. */
  function ModelsOf(api: LightApi?): Option<Table>
    reads api
  {
    if api == null then None else Some(api.models)
  }

  // ---------------------------------------------------------------------
  // module/ui.js

  method BackupTokensLight(token: Token)
    modifies token
    ensures token.State() == Backup(old(token.State()))
  {
    var state := IconState(token.lightIconState);
    if state != "off" {
      return;
    }
    var oldLight := Snapshot(token.light);
    token.SetBaseLight(oldLight);
  }

  /** `lightsoff(tokenId)`; `token` is the canvas lookup, null when not found. */
  method LightsOff(api: LightApi?, token: Token?)
    modifies token
    ensures token != null ==> token.State() == LightsOffSpec(ModelsOf(api), old(token.State()))
  {
    if token == null {
      return;
    }
    if api != null {
      api.ResetLight(token);
    }
  }

  /** `lightson(tokenId)`; `token` is the canvas lookup, null when not found. */
  method LightsOn(api: LightApi?, token: Token?, cap: Option<real>)
    modifies token
    ensures token != null ==> token.State() == LightsOnSpec(ModelsOf(api), old(token.State()), cap)
  {
    if token == null {
      return;
    }
    var chosenModel := KeyOrDefault(token.chosenModel);
    BackupTokensLight(token);
    if api != null {
      api.ApplyLight(token, chosenModel, cap);
    }
  }

  method OnButtonClick(api: LightApi?, token: Token, cap: Option<real>)
    modifies token
    ensures token.State() == OnClickSpec(ModelsOf(api), old(token.State()), cap)
  {
    LightsOn(api, token, cap);
    token.SetLightIconState("on");
  }

  method OffButtonClick(api: LightApi?, token: Token)
    modifies token
    ensures token.State() == OffClickSpec(ModelsOf(api), old(token.State()))
  {
    LightsOff(api, token);
    token.SetLightIconState("off");
  }

  // ---------------------------------------------------------------------
  // Properties of the state machine

  /** The backup is taken only in state "off", and then is exactly the snapshot. */
  lemma BackupOnlyWhenOff(s: TokenState)
    ensures IconState(s.lightIconState) != "off" ==> Backup(s) == s
    ensures IconState(s.lightIconState) == "off" ==>
            Backup(s) == s.(baseLight := Some(Snapshot(s.light)))
  {
  }

  /** With a missing or falsy preset the token is untouched; otherwise its light
      takes the clamped radii and the preset's other light fields, every other
      light field is kept, and its state becomes "on". */
  lemma ApplySetsPreset(models: Table, s: TokenState, key: string, cap: Option<real>)
    ensures key !in models || !Truthy(models[key]) ==> Apply(models, s, key, cap) == s
    ensures key in models && Truthy(models[key]) ==>
      var t, p := Apply(models, s, key, cap), models[key];
      && t.lightIconState == Some("on")
      && t.baseLight == s.baseLight && t.chosenModel == s.chosenModel
      && RadiusOf(Obj(t.light), "bright") == Some(ClampRadius(Get(p, "bright"), cap))
      && RadiusOf(Obj(t.light), "dim") == Some(Max(ClampRadius(Get(p, "dim"), cap), ClampRadius(Get(p, "bright"), cap)))
      && Normalized(Obj(t.light), cap)
      && CopiedFrom(p, s.light, t.light, "color") && CopiedFrom(p, s.light, t.light, "angle")
      && CopiedFrom(p, s.light, t.light, "alpha") && CopiedFrom(p, s.light, t.light, "intensity")
      && (forall f :: f in s.light && f !in LightPatch(p, cap) ==> t.light[f] == s.light[f])
  {
    if key in models && Truthy(models[key]) {
      MergedPatchRadii(s.light, models[key], cap);
      MergedPatchCopies(s.light, models[key], cap);
    }
  }

  /** The light with the patch merged in has the clamped radii. */
  lemma MergedPatchRadii(light: map<string, Value>, p: Value, cap: Option<real>)
    ensures var l := MergeFields(light, LightPatch(p, cap));
            && RadiusOf(Obj(l), "bright") == Some(ClampRadius(Get(p, "bright"), cap))
            && RadiusOf(Obj(l), "dim") == Some(Max(ClampRadius(Get(p, "dim"), cap), ClampRadius(Get(p, "bright"), cap)))
            && Normalized(Obj(l), cap)
  {
    LightPatchRadii(p, cap);
  }

  /** The light with the patch merged in shows the preset's other fields. */
  lemma MergedPatchCopies(light: map<string, Value>, p: Value, cap: Option<real>)
    ensures var l := MergeFields(light, LightPatch(p, cap));
            && CopiedFrom(p, light, l, "color") && CopiedFrom(p, light, l, "angle")
            && CopiedFrom(p, light, l, "alpha") && CopiedFrom(p, light, l, "intensity")
  {
    LightPatchCopies(p, cap);
  }

  /** The new light shows the preset's field `f`, unless both the old light and
      the preset hold objects there (which merge). */
  predicate CopiedFrom(preset: Value, before: map<string, Value>, after: map<string, Value>, f: string) {
    !(f in before && before[f].Obj? && Get(preset, f).Obj?) ==> Get(Obj(after), f) == Get(preset, f)
  }

  /** The patch carries the clamped radii and the preset's other light fields. */
  lemma LightPatchFields(p: Value, cap: Option<real>)
    ensures LightPatch(p, cap).Keys == PatchFields
    ensures LightPatch(p, cap)["bright"] == Num(Finite(ClampRadius(Get(p, "bright"), cap)))
    ensures LightPatch(p, cap)["dim"] == Num(Finite(Max(ClampRadius(Get(p, "dim"), cap), ClampRadius(Get(p, "bright"), cap))))
    ensures LightPatch(p, cap)["color"] == Get(p, "color") && LightPatch(p, cap)["angle"] == Get(p, "angle")
    ensures LightPatch(p, cap)["alpha"] == Get(p, "alpha") && LightPatch(p, cap)["intensity"] == Get(p, "intensity")
    ensures LightPatch(p, cap)["animation"] == Get(p, "animation")
  {
    LightPatchRadii(p, cap);
    LightPatchCopies(p, cap);
  }

  lemma LightPatchRadii(p: Value, cap: Option<real>)
    ensures LightPatch(p, cap)["bright"] == Num(Finite(ClampRadius(Get(p, "bright"), cap)))
    ensures LightPatch(p, cap)["dim"] == Num(Finite(Max(ClampRadius(Get(p, "dim"), cap), ClampRadius(Get(p, "bright"), cap))))
  {
    var n := ClampPreset(p, cap);
    assert Get(n, "dim") == Num(Finite(RadiusOf(n, "dim").value));
    assert Get(n, "bright") == Num(Finite(RadiusOf(n, "bright").value));
  }

  lemma LightPatchCopies(p: Value, cap: Option<real>)
    ensures LightPatch(p, cap)["color"] == Get(p, "color") && LightPatch(p, cap)["angle"] == Get(p, "angle")
    ensures LightPatch(p, cap)["alpha"] == Get(p, "alpha") && LightPatch(p, cap)["intensity"] == Get(p, "intensity")
    ensures LightPatch(p, cap)["animation"] == Get(p, "animation")
  {
    ClampPresetKeepsOthers(p, cap, "color");
    ClampPresetKeepsOthers(p, cap, "angle");
    ClampPresetKeepsOthers(p, cap, "alpha");
    ClampPresetKeepsOthers(p, cap, "intensity");
    ClampPresetKeepsOthers(p, cap, "animation");
  }

  /** `resetLight` pushes the backup: every non-object field of the backup is
      restored, fields the backup does not name are kept, and the state is "off". */
  lemma ResetRestoresBackup(s: TokenState)
    ensures Reset(s).lightIconState == Some("off")
    ensures s.baseLight.None? ==> Reset(s).light == s.light
    ensures s.baseLight.Some? ==>
      && (forall f :: f in s.baseLight.value && !s.baseLight.value[f].Obj? ==> Reset(s).light[f] == s.baseLight.value[f])
      && (forall f :: f in s.light && f !in s.baseLight.value ==> Reset(s).light[f] == s.light[f])
  {
    if s.baseLight.None? {
      assert MergeFields(s.light, map[]) == s.light;
    }
  }

  /** The light fields the backup restores hold no nested objects. */
  predicate ScalarSnapshot(light: map<string, Value>) {
    && (forall f :: f in SnapshotFields ==> !Get(Obj(light), f).Obj?)
    && !Get(Get(Obj(light), "animation"), "type").Obj?
  }

  /** The light after `resetLight` from a backup of `light0` shows `light0`'s
      recorded fields again. */
  lemma {:induction false} ResetFromSnapshot(s: TokenState, light0: map<string, Value>)
    requires ScalarSnapshot(light0) && s.baseLight == Some(Snapshot(light0))
    ensures forall f :: f in SnapshotFields ==> Get(Obj(Reset(s).light), f) == Get(Obj(light0), f)
    ensures Get(Get(Obj(Reset(s).light), "animation"), "type") == Get(Get(Obj(light0), "animation"), "type")
  {
    var snap := Snapshot(light0);
    var l := Reset(s).light;
    assert l == MergeFields(s.light, snap);
    forall f | f in SnapshotFields ensures Get(Obj(l), f) == Get(Obj(light0), f) {
      assert l[f] == snap[f];
    }
    var t0 := Get(Get(Obj(light0), "animation"), "type");
    var a := Obj(map["type" := t0]);
    if "animation" in s.light && s.light["animation"].Obj? {
      assert l["animation"] == Obj(MergeFields(s.light["animation"].fields, a.fields));
    } else {
      assert l["animation"] == a;
    }
  }

  /** From state "off", two `lightson` then one `lightsoff` bring back the light
      recorded before the first call: the second `lightson` sees "on" (or, when
      nothing was applied, the unchanged light) and so keeps the first backup. */
  lemma {:induction false} OnOnOffRestores(api: Option<Table>, s0: TokenState, cap: Option<real>)
    requires IconState(s0.lightIconState) == "off" && ScalarSnapshot(s0.light)
    ensures var s3 := LightsOffSpec(api, LightsOnSpec(api, LightsOnSpec(api, s0, cap), cap));
            && (forall f :: f in SnapshotFields ==> Get(Obj(s3.light), f) == Get(Obj(s0.light), f))
            && Get(Get(Obj(s3.light), "animation"), "type") == Get(Get(Obj(s0.light), "animation"), "type")
            && (api.Some? ==> IconState(s3.lightIconState) == "off")
  {
    var s1 := LightsOnSpec(api, s0, cap);
    var s2 := LightsOnSpec(api, s1, cap);
    if api.Some? {
      assert s1.baseLight == Some(Snapshot(s0.light));
      assert s1.chosenModel == s0.chosenModel;
      assert s2.baseLight == Some(Snapshot(s0.light));
      ResetFromSnapshot(s2, s0.light);
    }
  }

  /** `lightson` applies the `chosenModel` flag, or "torchLight" when it is falsy,
      after taking the backup. */
  lemma LightsOnUsesChosenModel(models: Table, s: TokenState, cap: Option<real>)
    ensures LightsOnSpec(Some(models), s, cap) == Apply(models, Backup(s), KeyOrDefault(s.chosenModel), cap)
    ensures s.chosenModel.None? ==> LightsOnSpec(Some(models), s, cap) == Apply(models, Backup(s), "torchLight", cap)
  {
  }

  /** The on button leaves the flag "on" even when no preset was applied, and the
      off button leaves it "off". */
  lemma ClicksSetState(api: Option<Table>, s: TokenState, cap: Option<real>)
    ensures IconState(OnClickSpec(api, s, cap).lightIconState) == "on"
    ensures IconState(OffClickSpec(api, s).lightIconState) == "off"
  {
  }

  // ---------------------------------------------------------------------
  // The token HUD

  datatype HudButton = HudButton(icon: string, display: string)
  datatype HudButtons = HudButtons(onButton: HudButton, offButton: HudButton)

  /** The HUD buttons for a token: none when the token button is disabled for a
      non-GM user or the token is not found; otherwise an on and an off button,
      the on button shown exactly when the state is "off". */
  function RenderHudButtons(tokenButton: bool, isGM: bool, lightIcon: string, tokenFound: bool,
                            stateFlag: Option<string>): (r: Option<HudButtons>)
    ensures r.None? <==> (!tokenButton && !isGM) || !tokenFound
    ensures r.Some? ==> (r.value.onButton.display == "initial" <==> IconState(stateFlag) == "off")
    ensures r.Some? ==> (r.value.onButton.display == "initial") != (r.value.offButton.display == "initial")
    ensures r.Some? ==> r.value.onButton.display in {"initial", "none"} && r.value.offButton.display in {"initial", "none"}
    ensures r.Some? && lightIcon == "lampe" ==>
            r.value.onButton.icon == "fa-solid fa-flashlight" && r.value.offButton.icon == "fa-solid fa-lightbulb-slash"
    ensures r.Some? && lightIcon != "lampe" ==>
            r.value.onButton.icon == "fa-regular fa-fire" && r.value.offButton.icon == "fa-solid fa-moon"
  {
    if !tokenButton && !isGM then None
    else if !tokenFound then None
    else
      var state := IconState(stateFlag);
      var offDisplay := if state == "off" then "initial" else "none";
      var onDisplay := if state == "off" then "none" else "initial";
      if lightIcon == "lampe" then
        Some(HudButtons(HudButton("fa-solid fa-flashlight", offDisplay), HudButton("fa-solid fa-lightbulb-slash", onDisplay)))
      else
        Some(HudButtons(HudButton("fa-regular fa-fire", offDisplay), HudButton("fa-solid fa-moon", onDisplay)))
  }

  /** The preset key `openTorchControlPanelForToken` opens the panel on: the
      trimmed `chosenModel` flag, or "torchLight" when the flag is absent or blank. */
  function PanelLightKey(chosenModel: Option<string>): (key: string)
    ensures key != ""
    ensures chosenModel.None? || Trim(chosenModel.value) == "" ==> key == DefaultModel
    ensures chosenModel.Some? && Trim(chosenModel.value) != "" ==> key == Trim(chosenModel.value)
  {
    TrimKeeps(DefaultModel);
    TrimKeeps("");
    var trimmed := Trim(KeyOrDefault(chosenModel));
    if trimmed == "" then DefaultModel else trimmed
  }
}
