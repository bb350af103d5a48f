# bm-lampe-torche: a Dafny model of the torch-light core

This project models the core of the Foundry VTT module *bm-lampe-torche*. The module
switches a token's light between a *preset* and the token's own light.

- **Preset table.** A table of named light presets, built in and editable, is stored in
  a world setting.
- **Ready fix-up.** At start-up (the `ready` hook) the stored table is sanitised
  against the built-in defaults and every preset is normalised. The setting is rewritten
  only when the result differs from what was stored.
- **Normalisation.** Both radii are clamped to `[0, cap]`, and `dim` is raised to at
  least `bright`.
- **Applying and resetting.** `applyLight` writes a normalised preset onto a token.
  `resetLight` writes back the light that `backupTokensLight` recorded.
- **Token HUD.** The HUD shows one on/off button pair, according to the token's
  `lightIconState` flag.
- **Configuration panel.** The panel edits one preset at a time.

Modules:

- `Wrappers`: `Option` and `Result`.
- `JsValue`: the JavaScript values the core handles. It covers `typeof`, truthiness,
  `??`, property reads, `String.prototype.trim` and `Number()`. It also has the deep
  merge shared by Foundry's `mergeObject` and a document's `update`, with its
  idempotence and absorption laws.
- `RadiusPolicy`: `getConfiguredMaxLightRadius`, `clampLightRadius`, `clampLightPreset`.
- `PresetStore`:
  - the built-in table;
  - `clampAllLightModels` and `sanitizeModels`, as loops proved against table functions;
  - the ready hook's decision, with a proof that a second start-up does not rewrite
    the setting, provided the cap is the same and no panel save came in between.
- `TokenLight`:
  - a `Token` class holding the light record and the flags, and the `LightApi` class
    holding `models`;
  - `applyLight`, `resetLight`, `backupTokensLight`, `lightson`, `lightsoff` and the HUD
    clicks, as methods proved against state-transition functions;
  - the HUD rendering decision and the key the panel opens with;
  - the restore theorem: on, on again, then off, brings back the recorded light.
- `LightSettings`: the panel's `_prepareContext`, and the submit handler's merge of the
  form into the selected preset.

The cap on the radii comes from a world setting. It is a parameter (`cap: Option<real>`,
`None` meaning no cap). The setting lookup is modelled by `RadiusPolicy.MaxRadius` on the
raw setting value; its default is 60 (`PresetStore.DefaultMaxLightRadius`). The global API
object and the token lookup may be missing, so they are nullable parameters
(`LightApi?`, `Token?`).

Behaviours of the code that the model keeps:

- `backupTokensLight` overwrites the backup whenever the token's state is "off". It does
  not check whether a backup already exists.
- `applyLight` does not record the chosen preset in the `chosenModel` flag.
- The panel's submit handler does not clamp the radii it stores. They are clamped when
  a preset is applied and at the next start-up.
- There is no lock against concurrent clicks, no debounce and no live preview.
- A document `update` merges the new light into the old one; it does not replace it.

## Model

| member | source | states |
|---|---|---|
| JsValue.TypeOf | module/control-panel.js:236-237 | `typeof` is "object" exactly for objects and `null` |
| JsValue.Coalesce | module/light-settings.js:113 | `a ?? b` is `b` exactly when `a` is null or undefined, else `a` |
| JsValue.Get | module/control-panel.js:227 | a present property reads as its value; a missing property, or one of a primitive, reads as undefined |
| JsValue.Trim | module/ui.js:118 | the result is the slice left after removing leading and trailing whitespace; only whitespace was removed; its ends are not whitespace; it is empty exactly when the input is all whitespace |
| JsValue.TrimKeeps | module/ui.js:118 | a string whose ends are not whitespace trims to itself |
| JsValue.ToNumber | module/control-panel.js:269 | `Number()` of a number is itself, of undefined or an object is NaN, of null is 0 |
| JsValue.Truthy | module/control-panel.js:228 | null and undefined are falsy and every object is truthy; the definition also makes false, 0, NaN and the empty string falsy |
| JsValue.MergeValue | module/control-panel.js:241-247 | unless both sides are objects the source value wins; two objects merge into an object with the keys of both |
| JsValue.MergeFields | module/control-panel.js:241-247 | the merged record has the union of the keys; keys only in the target keep their value; a source value wins unless both sides are objects, which merge recursively |
| JsValue.MergeSelf | module/control-panel.js:241-247 | merging a value with itself gives it back |
| JsValue.MergeFieldsSelf | module/control-panel.js:241-247 | merging a record with itself gives it back |
| JsValue.MergeAbsorbs | module/control-panel.js:241-247 | merging into `d` a second time what was already merged into `d` changes nothing |
| JsValue.MergeFieldsAbsorb | module/control-panel.js:241-247 | the same absorption law on records |
| JsValue.MergeFieldsUpdate | module/control-panel.js:241-247 | overriding one field of the source with a non-object overrides that field of the result |
| RadiusPolicy.MaxRadius | module/control-panel.js:261-266 | the cap is present exactly when the setting coerces to a finite positive number, and then equals it |
| RadiusPolicy.ClampRadius | module/control-panel.js:268-273 | the result is never negative; NaN, infinite and non-positive inputs give 0; a positive cap bounds it; an in-range value is kept; a value at or above the cap gives the cap |
| RadiusPolicy.ClampRadiusNonPositiveCap | module/control-panel.js:271 | a cap of 0 or less means no cap |
| RadiusPolicy.ClampPreset | module/control-panel.js:275-284 | the result is an object with the preset's fields plus dim and bright; the other fields are unchanged; bright is the clamped bright; dim is the larger of the clamped radii; the result satisfies `0 <= bright <= dim <= cap` |
| RadiusPolicy.ClampPresetKeepsOthers | module/control-panel.js:279-283 | every field but the radii reads the same in the clamped preset as in the preset |
| RadiusPolicy.ClampPresetKeepsNormalized | module/control-panel.js:275-284 | a preset that already satisfies the bounds is unchanged |
| RadiusPolicy.ClampPresetIdempotent | module/control-panel.js:275-284 | clamping twice is clamping once |
| RadiusPolicy.ClampPresetBrightAboveCap | module/control-panel.js:277-282 | with cap 10, dim 12 and bright 15 both become 10 |
| PresetStore.DefaultRecordNormalized | module/control-panel.js:10-89 | every built-in preset satisfies `0 <= bright <= dim <= 60` and has numeric radii |
| PresetStore.DefaultLightModels | module/control-panel.js:10-89 | the built-in table has exactly the eight preset keys, each with its built-in record |
| PresetStore.DefaultsUnchangedUnderDefaultCap | module/control-panel.js:10-89 | clamping the built-in table under the default cap of 60 leaves it unchanged |
| PresetStore.TorchUnderCapTen | module/control-panel.js:10-18 | under cap 10 the built-in torch has dim 10, bright 6 and keeps its colour |
| PresetStore.ClampAllLightModels | module/control-panel.js:286-292 | the result has exactly the input's keys, and each entry is that preset clamped |
| PresetStore.ClampedTableUnique | module/control-panel.js:286-292 | any table with those keys and entries is the clamped table |
| PresetStore.ClampedTableNormalized | module/control-panel.js:286-292 | every entry of the clamped table satisfies the radius bounds |
| PresetStore.ClampedTableKeepsNormalized | module/control-panel.js:286-292 | a table whose entries all satisfy the bounds is unchanged by clamping |
| PresetStore.ClampedTableIdempotent | module/control-panel.js:286-292 | clamping a table twice is clamping it once |
| PresetStore.FieldMismatch | module/control-panel.js:234-238 | a default field that the entry lacks is a mismatch; an entry field equal to the default's is not |
| PresetStore.Mismatch | module/control-panel.js:233-238 | an entry that is not an object is a mismatch; a default object passes its own check |
| PresetStore.MergeObject | module/control-panel.js:241-247 | the merge is an object with the keys of both; a default field the entry lacks keeps its value |
| PresetStore.SanitizeEntry | module/control-panel.js:227-255 | a falsy entry, or (when strict) a mismatched one, gives the default; against a default object the result is an object that keeps every default key |
| PresetStore.SanitizeModels | module/control-panel.js:224-259 | the loop builds the sanitised table: per default key, the default for a missing, falsy or (when strict) mismatched entry, else the default merged with the entry |
| PresetStore.SanitizedKeys | module/control-panel.js:225-226 | the sanitised table has exactly the default keys; stored keys that are not defaults are dropped |
| PresetStore.SanitizeMissingEntry | module/control-panel.js:227-231 | a missing or falsy stored entry is replaced by the default |
| PresetStore.SanitizeStrictFallback | module/control-panel.js:233-240 | in strict mode, an entry that lacks a default field, has a non-object where the default has an object, or has a non-null value of another type, is replaced by the default |
| PresetStore.SanitizeMergesCandidate | module/control-panel.js:239-255 | an accepted entry is merged over the default: the union of fields, the entry's values winning, nested objects merged |
| PresetStore.SanitizePrimitiveEntryFallsBack | module/control-panel.js:233-240 | in strict mode, a stored entry that is not an object is replaced by the default |
| PresetStore.SavedTable | module/control-panel.js:177 | the table read back is always truthy, and is the stored setting whenever that is truthy |
| PresetStore.ObjectsEqual | module/control-panel.js:220-222 | definition only: the two tables are structurally equal (see "Left out") |
| PresetStore.ReadyFixup | module/control-panel.js:176-183 | the fixed table has the default keys, each entry satisfies the bounds, and the setting is rewritten exactly when the fixed table differs from the stored one |
| PresetStore.EntryStable | module/control-panel.js:177-178 | an entry that was sanitised then clamped sanitises to itself |
| PresetStore.ClampedEntryMergesToItself | module/control-panel.js:241-247 | merging a sanitised-then-clamped entry over its default gives the entry back |
| PresetStore.ClampedEntryPassesCheck | module/control-panel.js:233-238 | a sanitised-then-clamped entry passes the strict shape check against its default |
| PresetStore.FixupWithStable | module/control-panel.js:177-180 | fixing up an already fixed table gives it back, for any defaults with numeric radii |
| PresetStore.FixupStable | module/control-panel.js:176-183 | fixing up the table the ready hook installs, under the same cap, gives it back |
| PresetStore.SecondStartupKeepsSetting | module/control-panel.js:176-181 | under the same cap and with no panel save in between, the next start-up finds the stored table equal to its fix-up, so it does not rewrite it |
| PresetStore.SanitizeAgainstItself | module/control-panel.js:224-259 | a table of objects sanitised against itself is unchanged |
| PresetStore.DefaultsNeedNoFixup | module/control-panel.js:176-183 | a world that stores the built-in table keeps it unchanged under the default cap |
| PresetStore.NormalizedTableNeedsNoFixup | module/control-panel.js:176-183 | a table of objects within bounds, fixed up against itself as defaults, is unchanged |
| PresetStore.FixupWithShape | module/control-panel.js:177-178 | the fixed table has the default keys and every entry is within bounds |
| PresetStore.MergeObjectAsWritten | module/control-panel.js:241-254 | `mergeObject` returns the merge exactly when both arguments are objects, and otherwise throws |
| PresetStore.StrictMismatchAsWritten | module/control-panel.js:233-238 | the strict shape test as written throws exactly when the entry is a primitive and the default has a field; on an object entry it is `Mismatch` |
| PresetStore.SanitizeEntryAsWritten | module/control-panel.js:227-255 | definition only: one entry as written, whose outcome `EntryAsWrittenAgrees` states |
| PresetStore.SanitizeModelsAsWritten | module/control-panel.js:224-259 | definition only: the whole table as written, an entry that throws aborting the call; `SanitizeAsWrittenAgrees` states its outcome |
| PresetStore.EntryAsWrittenAgrees | module/control-panel.js:227-255 | one entry as written throws exactly when it is truthy and not an object, and otherwise equals `SanitizeEntry` |
| PresetStore.SanitizeAsWrittenAgrees | module/control-panel.js:224-259 | where the source's version returns, it agrees with `SanitizedTable`; strict or not, it throws exactly when some default key meets a truthy entry that is not an object |
| PresetStore.SanitizeAsWrittenThrows | module/control-panel.js:227-255 | any truthy stored entry that is not an object makes the source's version throw |
| PresetStore.SanitizeAsWrittenThrowsOnNumberEntry | module/control-panel.js:233-235 | a stored table `{ torchLight: 1 }` makes the source's strict sanitisation throw |
| TokenLight.IconState | module/ui.js:12 | the state flag defaults to "off" when absent or empty, and is never empty |
| TokenLight.KeyOrDefault | module/ui.js:103-104 | the chosen preset key defaults to "torchLight" when absent or empty |
| TokenLight.Snapshot | module/ui.js:66-77 | the backup holds exactly bright, dim, angle, color, alpha, intensity and the animation type of the current light |
| TokenLight.Token.UpdateLight | module/control-panel.js:198-208 | the document's light becomes the merge of the old light and the patch; nothing else changes |
| TokenLight.Token.SetLightIconState | module/control-panel.js:209 | only the state flag changes, to the given value |
| TokenLight.Token.SetBaseLight | module/ui.js:78 | only the backup flag changes, to the given record |
| TokenLight.LightApi.ApplyLight | module/control-panel.js:194-210 | the token's new state is `Apply` of the old one: unchanged for a missing or falsy preset, else the clamped preset merged in and the state "on" |
| TokenLight.LightApi.ResetLight | module/control-panel.js:212-216 | the token's new state is `Reset` of the old one: the backup (or `{}`) merged in and the state "off" |
| TokenLight.LightApi.ResetPresets | module/control-panel.js:98-108 | the API's table and the persisted table become the clamped built-in table |
| TokenLight.BackupTokensLight | module/ui.js:62-79 | the token's new state is `Backup` of the old one |
| TokenLight.LightsOff | module/ui.js:81-94 | for a found token, its new state is `LightsOffSpec` of the old one |
| TokenLight.LightsOn | module/ui.js:96-114 | for a found token, its new state is `LightsOnSpec` of the old one |
| TokenLight.OnButtonClick | module/ui.js:27-30 | the token's new state is `lightson` followed by the state "on" |
| TokenLight.OffButtonClick | module/ui.js:32-35 | the token's new state is `lightsoff` followed by the state "off" |
| TokenLight.BackupOnlyWhenOff | module/ui.js:62-79 | a backup is taken exactly when the state is "off", and it replaces any earlier one |
| TokenLight.ApplySetsPreset | module/control-panel.js:194-210 | for an existing truthy preset, the light gets the clamped radii, satisfies the bounds and gets the preset's colour, angle, alpha and intensity; the other light fields, the backup and the chosen model are kept; otherwise nothing changes |
| TokenLight.MergedPatchRadii | module/control-panel.js:198-208 | after the update the light has the clamped radii and is within bounds |
| TokenLight.MergedPatchCopies | module/control-panel.js:198-208 | after the update the light shows the preset's colour, angle, alpha and intensity where neither side holds an object |
| TokenLight.LightPatchFields | module/control-panel.js:197-207 | the update carries exactly seven fields: the clamped radii and the preset's colour, angle, alpha, intensity and animation |
| TokenLight.ResetRestoresBackup | module/control-panel.js:212-216 | after a reset the state is "off"; every non-object backup field is back; fields outside the backup are kept; with no backup the light is unchanged |
| TokenLight.ResetFromSnapshot | module/control-panel.js:212-216 | resetting from a backup of a light restores that light's recorded fields and animation type |
| TokenLight.OnOnOffRestores | module/ui.js:62-114 | starting from "off", switching on twice and then off restores the recorded fields and animation type of the original light, and leaves the state "off" |
| TokenLight.LightsOnUsesChosenModel | module/ui.js:103-109 | `lightson` applies the chosen preset (by default "torchLight") after the backup |
| TokenLight.ClicksSetState | module/ui.js:27-35 | after an on click the state is "on"; after an off click it is "off" |
| TokenLight.RenderHudButtons | module/ui.js:4-49 | no buttons unless the setting or GM status allows and the token exists; exactly one button is shown, the on button exactly when the state is "off"; the icons follow the icon setting |
| TokenLight.PanelLightKey | module/ui.js:118 | the panel's key is never empty: the trimmed chosen model, or "torchLight" when that is absent or blank |
| LightSettings.ModelEntry | module/light-settings.js:31-34 | each listed model has its own fields plus `key`, its own fields winning |
| LightSettings.FindByKey | module/light-settings.js:37 | the index found is the first entry whose `key` matches; none is found only when no entry matches |
| LightSettings.SelectedRaw | module/light-settings.js:37 | with no entries the selected model is `{}`; otherwise it is one of the listed entries (`SelectedRawChoice` states which) |
| LightSettings.PrepareContext | module/light-settings.js:29-53 | one listed model per table entry, in order; the selected key is the option or "torchLight"; the selected model has the default fields plus those of the selected entry |
| LightSettings.SelectedRawChoice | module/light-settings.js:37 | the selected entry is the first match, else the first entry, else `{}` |
| LightSettings.SelectedModelDefaultsFill | module/light-settings.js:38-45 | the selected entry's fields override the defaults; the defaults fill in the missing ones |
| LightSettings.PanelDefaults | module/light-settings.js:36-45 | with no option the key is "torchLight"; with an empty table the selected model is exactly the defaults |
| LightSettings.ModelData | module/light-settings.js:113 | the record the handler starts from is the stored entry, or `{}` when it is missing, null or undefined |
| LightSettings.UpdatedLight | module/light-settings.js:120-131 | the update holds exactly colour, intensity, dim, bright, angle and animation; the numbers are the form's; the animation is an object |
| LightSettings.UpdatedAnimation | module/light-settings.js:126-130 | the updated animation holds exactly type, speed and intensity; speed and intensity are the old ones, or 3 when those are null or undefined |
| LightSettings.SavedRecord | module/light-settings.js:133 | the stored record is an object with the keys of the start record and of the update |
| LightSettings.SubmitForm | module/light-settings.js:102-136 | the outcome is `SubmitResult` of the API's table, or of an empty table when no API is installed; on success the API's table becomes the new table, on error it is unchanged |
| LightSettings.SubmitTouchesOnlySelected | module/light-settings.js:111-133 | a submit fails exactly when no key is selected, or the entry is neither null nor undefined nor an object; it is `mergeObject` that rejects a truthy primitive entry; on success only the selected entry changes, to the merged record |
| LightSettings.SubmitWithoutApiSavesOneEntry | module/light-settings.js:103-136 | with no API installed, a submit for a non-empty key saves a table holding only that key, built from `{}` |
| LightSettings.SavedRecordFields | module/light-settings.js:120-133 | the saved record takes colour, intensity, radii and angle from the form and keeps its other fields |
| LightSettings.SavedRecordAnimation | module/light-settings.js:126-133 | the saved animation takes its type from the form and keeps its own speed and intensity, 3 when absent |
| LightSettings.SavedAnimationIsMerge | module/light-settings.js:126-133 | the saved animation is the old animation merged with the updated one |
| LightSettings.MergedAnimationFields | module/light-settings.js:126-130 | that merge takes the form's type and keeps the old speed and intensity, 3 when absent |

## Left out

- Rendering, the DOM, localisation, notifications, console logging, settings and menu registration, and the Handlebars helper. These are presentation, not logic.
- The panel's change listener and animation list (module/light-settings.js:74-100 and 149-165) fill form fields. The window sizing and the save flash are also left out. They are DOM work only.
- `await`: every asynchronous step is modelled as taking effect at once and in program order. Interleavings between clicks are not modelled.
- Exceptions caught by `try` in `lightson` and `lightsoff`: a call into the API is modelled as never throwing.
- `objectsEqual` compares `JSON.stringify` output. It is modelled as structural equality, so these are not modelled:
  - key order;
  - dropped `undefined` fields;
  - NaN and infinities written as `null`.
- `foundry.utils.duplicate` is the identity on values. Its JSON round trip is not modelled.
- Foundry's `mergeObject` and document `update` are one deep merge (`JsValue.MergeFields`). Not modelled:
  - `enforceTypes`, which throws on a nested type mismatch (a stored `animation.speed` of `"5"` passes the strict check at module/control-panel.js:234-238) and when a candidate field is `null` over a non-null default;
  - dotted-key expansion;
  - `-=` deletion keys;
  - the document schema's own validation and type coercion.
- `JsValue.StringToNumber` covers blank strings, optional signs, decimal digit strings and the infinities. Fractions, exponents and `0x`/`0o`/`0b` prefixes are not modelled; they are given NaN.
- `parseFloat` and `parseInt` in the submit handler: the form's numbers arrive already parsed (`LightSettings.FormInput`).
- `expandObject` of the form data is not modelled: the form fields used are flat.
- Arrays, strings spread into objects, prototype properties and symbol keys are not modelled. Flags of a type other than string are not modelled; `setFlag`'s merge of object-valued flags is replaced by plain assignment.
- `PresetStore.SanitizeAsWrittenAgrees`, `PresetStore.EntryAsWrittenAgrees` and `PresetStore.SanitizeModels`: the "throws exactly when" claims and the merge they describe are those of a merge that does not enforce types. The merge's refusal of a non-object argument is modelled (`PresetStore.MergeObjectAsWritten`); its `enforceTypes` errors are not.
- `LightSettings.SubmitTouchesOnlySelected`: the `mergeObject` of module/light-settings.js:133 rejects a primitive entry (`MergeRejected`); type errors between fields of the old record and the update are not modelled, for the same reason.
- The panel is modelled from the saved table onward. These parts are not modelled:
  - where the submit handler gets its key from the form;
  - the `...context` passthrough of `_prepareContext`;
  - the token id computed in `openTorchControlPanelForToken`.
- `Hooks.callAll` after a preset reset is left out. It is an event for other modules.
- `TokenLight.OnOnOffRestores`: proved for lights whose recorded fields are not objects (`ScalarSnapshot`), which is what Foundry stores for them. An object-valued field would be merged rather than replaced.
- `TokenLight.ApplySetsPreset`: states the colour, angle, alpha and intensity for fields that are not objects on both sides. The animation record is merged into the token's.
- Token-level ids and `canvas.tokens.get`: a token that is not found is `null`.

## Findings

| source | as written | input that shows it | evidently intended | confidence | as-written member | corrected member |
|---|---|---|---|---|---|---|
| module/control-panel.js:233-238 | in strict mode the shape check evaluates `k in candidate` for each default field, which throws a TypeError when the stored entry is a truthy primitive; the exception aborts the ready hook. Without the strict check, the `mergeObject` call at line 249 throws for the same entry | a stored table `{ torchLight: 1 }` | a stored entry that is not an object is a mismatch and is replaced by the default | not executed | PresetStore.SanitizeAsWrittenThrowsOnNumberEntry | PresetStore.SanitizePrimitiveEntryFallsBack |
