/**
 * The radius policy of module/control-panel.js: the configured maximum light
 * radius, the clamp of one radius, and the normalisation of a preset's
 * dim/bright pair. The configured maximum is passed in rather than read from
 * the host's settings.
 */
module RadiusPolicy {
  import opened Wrappers
  import opened JsValue

  /** A cap that limits radii: present and positive. */
  predicate Positive(cap: Option<real>) {
    cap.Some? && cap.value > 0.0
  }

  /** `getConfiguredMaxLightRadius`, as a function of the raw setting value:
      `null` ("no cap") unless the value coerces to a finite positive number. */
  function MaxRadius(raw: Value): (cap: Option<real>)
    ensures cap.Some? <==> ToNumber(raw).Finite? && ToNumber(raw).value > 0.0
    ensures cap.Some? ==> Positive(cap) && cap.value == ToNumber(raw).value
  {
    var n := ToNumber(raw);
    if !n.Finite? then None
    else if n.value <= 0.0 then None
    else Some(n.value)
  }

  function Max(a: real, b: real): real { if a < b then b else a }
  function Min(a: real, b: real): real { if a < b then a else b }

  /** `clampLightRadius(value, maxRadius)`: an invalid value is 0, a negative one
      is raised to 0, and a positive cap bounds the result from above. */
  function ClampRadius(value: Value, cap: Option<real>): (r: real)
    ensures r >= 0.0
    ensures !ToNumber(value).Finite? ==> r == 0.0
    ensures ToNumber(value).Finite? && ToNumber(value).value <= 0.0 ==> r == 0.0
    ensures Positive(cap) ==> r <= cap.value
    ensures ToNumber(value).Finite? && ToNumber(value).value >= 0.0
            && (Positive(cap) ==> ToNumber(value).value <= cap.value)
            ==> r == ToNumber(value).value
    ensures Positive(cap) && ToNumber(value).Finite? && ToNumber(value).value >= cap.value
            ==> r == cap.value
  {
    var numeric := ToNumber(value);
    var clampedMin := if numeric.Finite? then Max(0.0, numeric.value) else 0.0;
    if !Positive(cap) then clampedMin else Min(clampedMin, cap.value)
  }

  /** A non-positive cap is the same as no cap at all. */
  lemma ClampRadiusNonPositiveCap(value: Value, c: real)
    requires c <= 0.0
    ensures ClampRadius(value, Some(c)) == ClampRadius(value, None)
  {
  }

  /** The finite number a field holds, or `None`. */
  function RadiusOf(p: Value, k: string): Option<real> {
    var v := Get(p, k);
    if v.Num? && v.n.Finite? then Some(v.n.value) else None
  }

  /** An object whose dim and bright are finite numbers with
      `0 <= bright <= dim`, both within a positive cap. */
  predicate Normalized(p: Value, cap: Option<real>) {
    && p.Obj?
    && RadiusOf(p, "dim").Some? && RadiusOf(p, "bright").Some?
    && 0.0 <= RadiusOf(p, "bright").value <= RadiusOf(p, "dim").value
    && (Positive(cap) ==> RadiusOf(p, "dim").value <= cap.value)
  }

  /** `clampLightPreset(preset)`: a copy of the preset's fields in which both radii
      are clamped and dim is then raised to bright. */
  function ClampPreset(preset: Value, cap: Option<real>): (r: Value)
    ensures r.Obj? && r.fields.Keys == Fields(preset).Keys + {"dim", "bright"}
    ensures forall k :: k in Fields(preset) && k != "dim" && k != "bright" ==> r.fields[k] == Fields(preset)[k]
    ensures Normalized(r, cap)
    ensures RadiusOf(r, "bright") == Some(ClampRadius(Get(preset, "bright"), cap))
    ensures RadiusOf(r, "dim") == Some(Max(ClampRadius(Get(preset, "dim"), cap), ClampRadius(Get(preset, "bright"), cap)))
  {
    var dim := ClampRadius(Get(preset, "dim"), cap);
    var bright := ClampRadius(Get(preset, "bright"), cap);
    Obj(Fields(preset)["dim" := Num(Finite(Max(dim, bright)))]["bright" := Num(Finite(bright))])
  }

  /** Reading any field but the radii from the clamped preset reads the preset's own. */
  lemma ClampPresetKeepsOthers(p: Value, cap: Option<real>, f: string)
    requires f != "dim" && f != "bright"
    ensures Get(ClampPreset(p, cap), f) == Get(p, f)
  {
  }

  /** A preset that already satisfies the policy is left exactly as it is. */
  lemma ClampPresetKeepsNormalized(p: Value, cap: Option<real>)
    requires Normalized(p, cap)
    ensures ClampPreset(p, cap) == p
  {
    var r := ClampPreset(p, cap);
    assert r.fields == p.fields by {
      forall k | k in p.fields ensures r.fields[k] == p.fields[k] {
        if k == "dim" || k == "bright" {
          assert Get(p, "bright") == Num(Finite(RadiusOf(p, "bright").value));
          assert Get(p, "dim") == Num(Finite(RadiusOf(p, "dim").value));
        }
      }
    }
  }

  /** Normalising twice under the same cap is normalising once. */
  lemma ClampPresetIdempotent(p: Value, cap: Option<real>)
    ensures ClampPreset(ClampPreset(p, cap), cap) == ClampPreset(p, cap)
  {
    ClampPresetKeepsNormalized(ClampPreset(p, cap), cap);
  }

  /** The clamp-then-reconcile order: a bright radius above the cap is cut to the
      cap before dim is raised to it. With cap 10, dim 12 and bright 15 become 10 and 10. */
  lemma ClampPresetBrightAboveCap()
    ensures var r := ClampPreset(Obj(map["dim" := Num(Finite(12.0)), "bright" := Num(Finite(15.0))]), Some(10.0));
            RadiusOf(r, "dim") == Some(10.0) && RadiusOf(r, "bright") == Some(10.0)
  {
  }
}
