/**
 * The small fragment of JavaScript's dynamic values that the light-preset
 * code inspects: `typeof`, truthiness, `Number(...)` coercion, property
 * access on possibly-missing objects, and the deep merge that both
 * `foundry.utils.mergeObject` and a token document `update` perform.
 */
module JsValue {

  /** A JavaScript number: a finite value (kept exact as a real), NaN, or an infinity. */
  datatype JsNumber = Finite(value: real) | NaN | Infinity(negative: bool)

  /** A JavaScript value; a plain object is a map from property names to values. */
  datatype Value =
    | Undefined
    | Null
    | Bool(b: bool)
    | Num(n: JsNumber)
    | Str(s: string)
    | Obj(fields: map<string, Value>)

  /** The answers `typeof` can give for these values. */
  datatype TypeTag = TUndefined | TObject | TBoolean | TNumber | TString

  function TypeOf(v: Value): (t: TypeTag)
    ensures t == TObject <==> (v.Obj? || v.Null?)
  {
    match v
    case Undefined => TUndefined
    case Null => TObject
    case Bool(_) => TBoolean
    case Num(_) => TNumber
    case Str(_) => TString
    case Obj(_) => TObject
  }

  /** JavaScript truthiness: `undefined`, `null`, `false`, `0`, `NaN` and `""` are falsy. */
  predicate Truthy(v: Value)
    ensures Nullish(v) ==> !Truthy(v)
    ensures v.Obj? ==> Truthy(v)
  {
    match v
    case Undefined => false
    case Null => false
    case Bool(b) => b
    case Num(n) => !(n == NaN || n == Finite(0.0))
    case Str(s) => s != ""
    case Obj(_) => true
  }

  /** `v == null`, the test behind `??` and `?.`. */
  predicate Nullish(v: Value) {
    v.Undefined? || v.Null?
  }

  /** `a ?? b` */
  function Coalesce(a: Value, b: Value): (r: Value)
    ensures Nullish(a) ==> r == b
    ensures !Nullish(a) ==> r == a
  {
    if Nullish(a) then b else a
  }

  /** The own properties of a value, as seen by `Object.entries` and object spread;
      a primitive contributes none. */
  function Fields(v: Value): map<string, Value> {
    if v.Obj? then v.fields else map[]
  }

  /** Property access `v?.[k]`: a missing property, or a property of a primitive,
      reads as `undefined`. */
  function Get(v: Value, k: string): (r: Value)
    ensures k in Fields(v) ==> r == Fields(v)[k]
    ensures k !in Fields(v) ==> r == Undefined
  {
    if v.Obj? && k in v.fields then v.fields[k] else Undefined
  }

  // ---------------------------------------------------------------------
  // Number(...) coercion

  /** The characters `String.prototype.trim` and `Number(...)` strip:
      WhiteSpace and LineTerminator of ECMA-262. */
  predicate IsJsWhitespace(c: char) {
    c == '\t' || c == '\n' || c == '\U{000B}' || c == '\U{000C}' || c == '\r'
    || c == ' ' || c == '\U{00A0}' || c == '\U{1680}'
    || ('\U{2000}' <= c <= '\U{200A}')
    || c == '\U{2028}' || c == '\U{2029}' || c == '\U{202F}' || c == '\U{205F}'
    || c == '\U{3000}' || c == '\U{FEFF}'
  }

  function TrimStart(s: string): (r: string)
    ensures |r| <= |s| && r == s[|s| - |r|..]
    ensures r == [] || !IsJsWhitespace(r[0])
    ensures forall i :: 0 <= i < |s| - |r| ==> IsJsWhitespace(s[i])
  {
    if s != [] && IsJsWhitespace(s[0]) then TrimStart(s[1..]) else s
  }

  function TrimEnd(s: string): (r: string)
    ensures |r| <= |s| && r == s[..|r|]
    ensures r == [] || !IsJsWhitespace(r[|r| - 1])
    ensures forall i :: |r| <= i < |s| ==> IsJsWhitespace(s[i])
  {
    if s != [] && IsJsWhitespace(s[|s| - 1]) then TrimEnd(s[..|s| - 1]) else s
  }

  /** The number of whitespace characters `s` starts with. */
  function LeadingWhitespace(s: string): (n: nat)
    ensures n <= |s|
  {
    |s| - |TrimStart(s)|
  }

  /** `s.trim()`: the longest infix of `s` that neither starts nor ends with whitespace. */
  function Trim(s: string): (r: string)
    ensures LeadingWhitespace(s) + |r| <= |s|
    ensures r == s[LeadingWhitespace(s)..LeadingWhitespace(s) + |r|]
    ensures forall j :: 0 <= j < LeadingWhitespace(s) ==> IsJsWhitespace(s[j])
    ensures forall j :: LeadingWhitespace(s) + |r| <= j < |s| ==> IsJsWhitespace(s[j])
    ensures r == [] || (!IsJsWhitespace(r[0]) && !IsJsWhitespace(r[|r| - 1]))
    ensures r == [] <==> forall j :: 0 <= j < |s| ==> IsJsWhitespace(s[j])
  {
    var t := TrimStart(s);
    var r := TrimEnd(t);
    PrefixOfSuffix(s, t, r);
    r
  }

  /** A prefix `r` of a suffix `t` of `s` is the infix of `s` where `t` starts. */
  lemma PrefixOfSuffix(s: string, t: string, r: string)
    requires |t| <= |s| && t == s[|s| - |t|..]
    requires |r| <= |t| && r == t[..|r|]
    ensures r == s[|s| - |t|..|s| - |t| + |r|]
    ensures forall j :: |s| - |t| <= j < |s| ==> s[j] == t[j - (|s| - |t|)]
  {
  }

  /** A string that neither starts nor ends with whitespace is its own trim. */
  lemma TrimKeeps(s: string)
    requires s == [] || (!IsJsWhitespace(s[0]) && !IsJsWhitespace(s[|s| - 1]))
    ensures Trim(s) == s
  {
    assert TrimStart(s) == s;
    assert TrimEnd(s) == s;
  }

  predicate AllDigits(s: string) {
    forall i :: 0 <= i < |s| ==> '0' <= s[i] <= '9'
  }

  /** The value of a string of decimal digits. */
  function DigitsValue(s: string): nat
    requires AllDigits(s)
  {
    if s == [] then 0 else 10 * DigitsValue(s[..|s| - 1]) + (s[|s| - 1] as int - '0' as int)
  }

  /** `Number(s)` for a string: surrounding whitespace is ignored, a blank string
      is 0, an optionally signed run of decimal digits is its value, and
      `Infinity` with an optional sign is infinite; everything else is NaN. */
  function StringToNumber(s: string): JsNumber {
    var t := Trim(s);
    if t == "" then Finite(0.0)
    else if t == "Infinity" || t == "+Infinity" then Infinity(false)
    else if t == "-Infinity" then Infinity(true)
    else if AllDigits(t) then Finite(DigitsValue(t) as real)
    else if |t| > 1 && t[0] == '+' && AllDigits(t[1..]) then Finite(DigitsValue(t[1..]) as real)
    else if |t| > 1 && t[0] == '-' && AllDigits(t[1..]) then Finite(-(DigitsValue(t[1..]) as real))
    else NaN
  }

  /** `Number(v)` */
  function ToNumber(v: Value): (n: JsNumber)
    ensures v.Num? ==> n == v.n
    ensures v.Undefined? || v.Obj? ==> n == NaN
    ensures v.Null? ==> n == Finite(0.0)
  {
    match v
    case Undefined => NaN
    case Null => Finite(0.0)
    case Bool(b) => Finite(if b then 1.0 else 0.0)
    case Num(n) => n
    case Str(s) => StringToNumber(s)
    case Obj(_) => NaN
  }

  // ---------------------------------------------------------------------
  // Deep merge

  /** Merging `c` over `d`: two objects merge key by key, otherwise `c` replaces `d`. */
  function MergeValue(d: Value, c: Value): (r: Value)
    ensures !(d.Obj? && c.Obj?) ==> r == c
    ensures d.Obj? && c.Obj? ==> r.Obj? && r.fields.Keys == d.fields.Keys + c.fields.Keys
    decreases c, 1
  {
    if d.Obj? && c.Obj? then Obj(MergeFields(d.fields, c.fields)) else c
  }

  /** The fields of `mergeObject(d, c)`: every key of either side; on a key of
      both sides the values merge, a key of one side keeps that side's value. */
  function MergeFields(d: map<string, Value>, c: map<string, Value>): (r: map<string, Value>)
    ensures r.Keys == d.Keys + c.Keys
    ensures forall k :: k in d && k !in c ==> r[k] == d[k]
    ensures forall k :: k in c && !(k in d && d[k].Obj? && c[k].Obj?) ==> r[k] == c[k]
    decreases Obj(c), 0
  {
    map k | k in d.Keys + c.Keys ::
      if k in c then (if k in d then MergeValue(d[k], c[k]) else c[k]) else d[k]
  }

  /** Merging a value over itself changes nothing. */
  lemma {:induction false} MergeSelf(v: Value)
    ensures MergeValue(v, v) == v
    decreases v, 1
  {
    if v.Obj? {
      MergeFieldsSelf(v.fields);
    }
  }

  lemma {:induction false} MergeFieldsSelf(m: map<string, Value>)
    ensures MergeFields(m, m) == m
    decreases Obj(m), 0
  {
    forall k | k in m ensures MergeValue(m[k], m[k]) == m[k] {
      MergeSelf(m[k]);
    }
    assert MergeFields(m, m) == m;
  }

  /** Merging the same defaults in a second time changes nothing. */
  lemma {:induction false} MergeAbsorbs(d: Value, c: Value)
    ensures MergeValue(d, MergeValue(d, c)) == MergeValue(d, c)
    decreases c, 1
  {
    if d.Obj? && c.Obj? {
      MergeFieldsAbsorb(d.fields, c.fields);
    }
  }

  lemma {:induction false} MergeFieldsAbsorb(d: map<string, Value>, c: map<string, Value>)
    ensures MergeFields(d, MergeFields(d, c)) == MergeFields(d, c)
    decreases Obj(c), 0
  {
    var m := MergeFields(d, c);
    forall k | k in d ensures MergeValue(d[k], m[k]) == m[k] {
      if k in c { MergeAbsorbs(d[k], c[k]); } else { MergeSelf(d[k]); }
    }
    assert MergeFields(d, m) == m;
  }

  /** Overwriting a key with a non-object commutes with merging defaults underneath. */
  lemma MergeFieldsUpdate(d: map<string, Value>, c: map<string, Value>, k: string, v: Value)
    requires !v.Obj?
    ensures MergeFields(d, c[k := v]) == MergeFields(d, c)[k := v]
  {
  }
}
