/**
 * The form-fill inference engine of pkg/utils/formfill.go: the fill profile,
 * the field descriptor, the two-pass suggestion engine and the extractor that
 * turns a goquery selection into a field descriptor.
 *
 * The engine is specified per field name. For a name n, in input order:
 *  - if some field named n has an empty value, pass 2 writes the value
 *    inferred from the LAST such field;
 *  - otherwise pass 1 decides: the last field that writes unconditionally
 *    (a checkbox, or a non-radio with a value) wins, and failing that the
 *    first field that writes at all, which is then a radio.
 */
module FormFill {
  import opened Wrappers
  import opened Strconv
  import opened Goquery

  /** The profile of default suggestions (FormFillData). */
  datatype FormFillData = FormFillData(
    email: string,
    color: string,
    password: string,
    phoneNumber: string,
    placeholder: string)

  /**
   * The built-in profile. `id` stands for the freshly generated unique
   * identifier that prefixes the e-mail domain.
   */
  function DefaultFormFillData(id: string): (d: FormFillData)
    ensures |id| <= |d.email| && d.email[..|id|] == id
    ensures d.email != "" && d.color != "" && d.password != "" && d.phoneNumber != "" && d.placeholder != ""
  {
    FormFillData(
      email := id + "@katanacrawler.io",
      color := "#e66465",
      password := "katanaP@assw0rd1",
      phoneNumber := "2124567890",
      placeholder := "katana")
  }

  /** One form control: its type, name, explicit value ("" when absent) and raw attributes. */
  datatype FormParam = FormParam(
    fieldType: string,
    name: string,
    value: string,
    attributes: map<string, string>)

  /** Go's map index: the missing key reads as the empty string. */
  function Lookup(m: map<string, string>, key: string): (v: string)
    ensures key !in m ==> v == ""
    ensures key in m ==> v == m[key]
  {
    if key in m then m[key] else ""
  }

  /** The entry of a map as an optional value. */
  function Entry(m: map<string, string>, key: string): (r: Option<string>)
    ensures r.Some? <==> key in m
    ensures r.Some? ==> r.value == m[key]
  {
    if key in m then Some(m[key]) else None
  }

  function Names(s: seq<FormParam>): set<string> {
    set i | 0 <= i < |s| :: s[i].name
  }

  // ---------------------------------------------------------------------
  // Pass 1 and pass 2, described field by field
  // ---------------------------------------------------------------------

  /** Pass 1 stores something for this field's name (a radio only while the name is still free). */
  predicate Eligible(f: FormParam) {
    f.fieldType == "radio" || f.fieldType == "checkbox" || f.value != ""
  }

  /** Pass 1 stores this field's value whatever its name already holds. */
  predicate Overwrites(f: FormParam) {
    f.fieldType != "radio" && (f.fieldType == "checkbox" || f.value != "")
  }

  /** Pass 2 revisits this field. */
  predicate Unfilled(f: FormParam) {
    f.value == ""
  }

  /** Position of the last field named `n` that satisfies `p`. */
  function LastMatch(s: seq<FormParam>, n: string, p: FormParam -> bool): (r: Option<nat>)
    decreases |s|
    ensures r.Some? ==> r.value < |s| && s[r.value].name == n && p(s[r.value])
    ensures r.Some? ==> forall j :: r.value < j < |s| ==> !(s[j].name == n && p(s[j]))
    ensures r.None? ==> forall j :: 0 <= j < |s| ==> !(s[j].name == n && p(s[j]))
  {
    if s == [] then None
    else if s[|s| - 1].name == n && p(s[|s| - 1]) then Some(|s| - 1)
    else LastMatch(s[..|s| - 1], n, p)
  }

  /** Position of the first field named `n` that satisfies `p`. */
  function FirstMatch(s: seq<FormParam>, n: string, p: FormParam -> bool): (r: Option<nat>)
    decreases |s|
    ensures r.Some? ==> r.value < |s| && s[r.value].name == n && p(s[r.value])
    ensures r.Some? ==> forall j :: 0 <= j < r.value ==> !(s[j].name == n && p(s[j]))
    ensures r.None? ==> forall j :: 0 <= j < |s| ==> !(s[j].name == n && p(s[j]))
  {
    if s == [] then None
    else match FirstMatch(s[..|s| - 1], n, p)
      case Some(i) => Some(i)
      case None => if s[|s| - 1].name == n && p(s[|s| - 1]) then Some(|s| - 1) else None
  }

  /** What pass 1 leaves under `n` after visiting `s`. */
  function Pass1Entry(s: seq<FormParam>, n: string): (r: Option<string>)
    ensures r.Some? <==> exists i :: 0 <= i < |s| && s[i].name == n && Eligible(s[i])
    ensures r.Some? ==> exists i :: 0 <= i < |s| && s[i].name == n && Eligible(s[i]) && s[i].value == r.value
  {
    match LastMatch(s, n, Overwrites)
    case Some(i) => Some(s[i].value)
    case None =>
      match FirstMatch(s, n, Eligible)
      case Some(i) => Some(s[i].value)
      case None => None
  }

  /** The integer attribute `key`, or `default` when missing or not an integer. */
  function IntAttrOr(attrs: map<string, string>, key: string, default: int): (r: int)
    ensures key !in attrs ==> r == default
    ensures Atoi(Lookup(attrs, key)) == Some(r) || (Atoi(Lookup(attrs, key)) == None && r == default)
  {
    match Atoi(Lookup(attrs, key))
    case Some(v) => v
    case None => default
  }

  /** The number suggested for a number or range control. */
  function NumericValue(attrs: map<string, string>): (r: int)
    ensures var min, max, step := IntAttrOr(attrs, "min", 1), IntAttrOr(attrs, "max", 10), IntAttrOr(attrs, "step", 1);
      && (r == min + step || r == max - step)
      && (0 <= step ==> r <= max)
      && (min + step <= max ==> r == min + step)
      && (min + step > max ==> r == max - step)
  {
    var min := IntAttrOr(attrs, "min", 1);
    var max := IntAttrOr(attrs, "max", 10);
    var step := IntAttrOr(attrs, "step", 1);
    if min + step > max then max - step else min + step
  }

  /** The value pass 2 infers for a field without an explicit value. */
  function Inferred(f: FormParam, profile: FormFillData): (r: string)
    ensures f.fieldType == "number" || f.fieldType == "range" ==> Atoi(r) == Some(NumericValue(f.attributes))
    ensures !(f.fieldType == "number" || f.fieldType == "range") ==>
      r in {profile.email, profile.color, profile.password, profile.placeholder}
    ensures f.fieldType == "email" ==> r == profile.email
    ensures f.fieldType == "color" ==> r == profile.color
    ensures f.fieldType == "password" || f.fieldType == "tel" ==> r == profile.password
    ensures f.fieldType !in {"email", "color", "number", "range", "password", "tel"} ==> r == profile.placeholder
  {
    AtoiItoa(NumericValue(f.attributes));
    if f.fieldType == "email" then profile.email
    else if f.fieldType == "color" then profile.color
    else if f.fieldType == "number" || f.fieldType == "range" then Itoa(NumericValue(f.attributes))
    else if f.fieldType == "password" || f.fieldType == "tel" then profile.password
    else profile.placeholder
  }

  /** What pass 2 leaves under `n` after revisiting the first `k` fields. */
  function Pass2Entry(s: seq<FormParam>, profile: FormFillData, k: nat, n: string): (r: Option<string>)
    requires k <= |s|
    ensures Pass1Entry(s, n).Some? ==> r.Some?
    ensures r.Some? ==> exists i :: 0 <= i < |s| && s[i].name == n && IsOrigin(s[i], profile, r.value)
  {
    if LastMatch(s[..k], n, Unfilled).Some? then
      var i := LastMatch(s[..k], n, Unfilled).value;
      assert s[..k][i] == s[i];
      assert IsOrigin(s[i], profile, Inferred(s[i], profile));
      Some(Inferred(s[i], profile))
    else
      Pass1Entry(s, n)
  }

  /** A suggestion comes from a control: its explicit value, or, when it has none, the inferred one. */
  predicate IsOrigin(f: FormParam, profile: FormFillData, v: string) {
    v == f.value || (f.value == "" && v == Inferred(f, profile))
  }

  /** The suggestion for name `n`, or None when no field carries that name. */
  function Suggestion(s: seq<FormParam>, profile: FormFillData, n: string): (r: Option<string>)
    ensures r.Some? <==> n in Names(s)
    ensures r.Some? ==> exists i :: 0 <= i < |s| && s[i].name == n && IsOrigin(s[i], profile, r.value)
  {
    Pass2EntryKeys(s, profile, n);
    Pass2Entry(s, profile, |s|, n)
  }

  /** After both passes every field's name has an entry, and no other name does. */
  lemma Pass2EntryKeys(s: seq<FormParam>, profile: FormFillData, n: string)
    ensures Pass2Entry(s, profile, |s|, n).Some? <==> n in Names(s)
  {
    assert s[..|s|] == s;
    if n in Names(s) {
      var i :| 0 <= i < |s| && s[i].name == n;
      assert Unfilled(s[i]) || Eligible(s[i]);
    }
  }

  // ---------------------------------------------------------------------
  // FormParamFillSuggestions
  // ---------------------------------------------------------------------

  /** Pass 1 after one more field, in the terms the loop tests. */
  lemma Pass1Step(s: seq<FormParam>, i: nat, n: string)
    requires i < |s|
    ensures var before, f := Pass1Entry(s[..i], n), s[i];
      Pass1Entry(s[..i + 1], n) ==
        if f.name != n then before
        else if f.fieldType == "radio" then (if before.Some? then before else Some(f.value))
        else if f.fieldType == "checkbox" || f.value != "" then Some(f.value)
        else before
  {
    var p := s[..i + 1];
    assert p[..i] == s[..i];
    var lastBefore := LastMatch(s[..i], n, Overwrites);
    if lastBefore.Some? {
      assert FirstMatch(s[..i], n, Eligible).Some?;
    }
  }

  /** Pass 2 after one more field, in the terms the loop tests. */
  lemma Pass2Step(s: seq<FormParam>, profile: FormFillData, i: nat, n: string)
    requires i < |s|
    ensures Pass2Entry(s, profile, i + 1, n) ==
      if s[i].name == n && s[i].value == "" then Some(Inferred(s[i], profile))
      else Pass2Entry(s, profile, i, n)
  {
    assert s[..i + 1][..i] == s[..i];
  }

  /**
   * The number or range branch of pass 2: each bound falls back on its own
   * default when missing or not an integer; the suggestion is min + step,
   * or max - step when that overshoots max.
   */
  method NumberSuggestion(attributes: map<string, string>) returns (val: int)
    ensures val == NumericValue(attributes)
  {
    var min, max, step: int;
    match Atoi(Lookup(attributes, "min")) {
      case Some(v) => min := v;
      case None => min := 1;
    }
    match Atoi(Lookup(attributes, "max")) {
      case Some(v) => max := v;
      case None => max := 10;
    }
    match Atoi(Lookup(attributes, "step")) {
      case Some(v) => step := v;
      case None => step := 1;
    }
    val := min + step;
    if val > max {
      val := max - step;
    }
  }

  /** The type switch of pass 2, for a field without an explicit value. */
  method FillValue(input: FormParam, profile: FormFillData) returns (v: string)
    ensures v == Inferred(input, profile)
  {
    if input.fieldType == "email" {
      v := profile.email;
    } else if input.fieldType == "color" {
      v := profile.color;
    } else if input.fieldType == "number" || input.fieldType == "range" {
      var val := NumberSuggestion(input.attributes);
      v := Itoa(val);
    } else if input.fieldType == "password" {
      v := profile.password;
    } else if input.fieldType == "tel" {
      v := profile.password;
    } else {
      v := profile.placeholder;
    }
  }

  /**
   * FormParamFillSuggestions: two passes over the fields, building the
   * name -> value map in place.
   */
  method FormParamFillSuggestions(inputs: seq<FormParam>, profile: FormFillData)
    returns (data: map<string, string>)
    ensures data.Keys == Names(inputs)
    ensures forall n :: Entry(data, n) == Suggestion(inputs, profile, n)
  {
    data := map[];

    // Pass 1: radios (first wins), checkboxes (last wins), explicit values.
    for i := 0 to |inputs|
      invariant forall n :: Entry(data, n) == Pass1Entry(inputs[..i], n)
    {
      var input := inputs[i];
      if input.fieldType == "radio" {
        if input.name !in data {
          data := data[input.name := input.value];
        }
      } else if input.fieldType == "checkbox" {
        data := data[input.name := input.value];
      } else {
        if input.value != "" {
          data := data[input.name := input.value];
        }
      }
      forall n ensures Entry(data, n) == Pass1Entry(inputs[..i + 1], n) {
        Pass1Step(inputs, i, n);
      }
    }
    assert inputs[..|inputs|] == inputs;

    // Pass 2: every field without an explicit value, by type.
    for i := 0 to |inputs|
      invariant forall n :: Entry(data, n) == Pass2Entry(inputs, profile, i, n)
    {
      var input := inputs[i];
      if input.value != "" {
        forall n ensures Entry(data, n) == Pass2Entry(inputs, profile, i + 1, n) {
          Pass2Step(inputs, profile, i, n);
        }
        continue;
      }
      var v := FillValue(input, profile);
      data := data[input.name := v];
      forall n ensures Entry(data, n) == Pass2Entry(inputs, profile, i + 1, n) {
        Pass2Step(inputs, profile, i, n);
      }
    }
    assert forall n :: n in data <==> Suggestion(inputs, profile, n).Some?;
  }

  // ---------------------------------------------------------------------
  // ConvertGoquerySelectionToFormParam
  // ---------------------------------------------------------------------

  function AttrKeys(attrs: seq<Attribute>): set<string> {
    set i | 0 <= i < |attrs| :: attrs[i].key
  }

  lemma AttrKeysSnoc(attrs: seq<Attribute>, k: nat)
    requires k < |attrs|
    ensures AttrKeys(attrs[..k + 1]) == AttrKeys(attrs[..k]) + {attrs[k].key}
  {
    var p := attrs[..k + 1];
    forall key | key in AttrKeys(p) ensures key in AttrKeys(attrs[..k]) + {attrs[k].key} {
      var i :| 0 <= i < |p| && p[i].key == key;
      if i < k {
        assert attrs[..k][i] == p[i];
      }
    }
    forall key | key in AttrKeys(attrs[..k]) ensures key in AttrKeys(p) {
      var i :| 0 <= i < k && attrs[..k][i].key == key;
      assert p[i] == attrs[..k][i];
    }
    assert p[k] == attrs[k];
  }

  /** No attribute after position `i` among the first `k` repeats its key. */
  predicate LastOfKey(attrs: seq<Attribute>, i: nat, k: nat)
    requires i < k <= |attrs|
  {
    forall j :: i < j < k ==> attrs[j].key != attrs[i].key
  }

  /** The attribute-copying loop: key -> value, a later duplicate key overwriting. */
  method CopyAttributes(attrs: seq<Attribute>) returns (attributes: map<string, string>)
    ensures attributes.Keys == AttrKeys(attrs)
    ensures forall i :: 0 <= i < |attrs| && LastOfKey(attrs, i, |attrs|) ==> attributes[attrs[i].key] == attrs[i].val
  {
    attributes := map[];
    for k := 0 to |attrs|
      invariant attributes.Keys == AttrKeys(attrs[..k])
      invariant forall i :: 0 <= i < k && LastOfKey(attrs, i, k) ==> attributes[attrs[i].key] == attrs[i].val
    {
      attributes := attributes[attrs[k].key := attrs[k].val];
      AttrKeysSnoc(attrs, k);
    }
    assert attrs[..|attrs|] == attrs;
  }

  /**
   * ConvertGoquerySelectionToFormParam. The selection holds at least one
   * node: the attributes are read from the first one. The textarea branch
   * tests the tag name "texarea", so a real textarea element matches no
   * branch and keeps an empty type and value.
   */
  method ConvertGoquerySelectionToFormParam(item: Selection) returns (param: FormParam)
    requires |item| > 0
    ensures param.name == AttrOr(item, "name", "")
    ensures Is(item, "input") || Is(item, "button") ==>
      && param.fieldType == AttrOr(item, "type", "")
      && param.value == AttrOr(item, "value", if param.fieldType == "checkbox" then "on" else "")
    ensures !Is(item, "input") && !Is(item, "button") && Is(item, "select") ==>
      param.fieldType == "radio" && param.value == AttrOr(Last(Children(item)), "value", "")
    ensures !Is(item, "input") && !Is(item, "button") && !Is(item, "select") && Is(item, "texarea") ==>
      param.fieldType == "text" && param.value == Text(item)
    ensures !Is(item, "input") && !Is(item, "button") && !Is(item, "select") && !Is(item, "texarea") ==>
      param.fieldType == "" && param.value == ""
    ensures param.attributes.Keys == AttrKeys(item[0].attrs)
    ensures forall i :: 0 <= i < |item[0].attrs| && LastOfKey(item[0].attrs, i, |item[0].attrs|) ==>
      param.attributes[item[0].attrs[i].key] == item[0].attrs[i].val
  {
    var name := AttrOr(item, "name", "");
    var fieldType, value := "", "";

    if Is(item, "input") || Is(item, "button") {
      fieldType := AttrOr(item, "type", "");
      if AttrOr(item, "type", "") == "checkbox" {
        value := AttrOr(item, "value", "on");
      } else {
        value := AttrOr(item, "value", "");
      }
    } else if Is(item, "select") {
      fieldType := "radio";
      value := AttrOr(Last(Children(item)), "value", "");
    } else if Is(item, "texarea") {
      fieldType := "text";
      value := Text(item);
    }

    var attributes := CopyAttributes(item[0].attrs);

    param := FormParam(fieldType, name, value, attributes);
  }
}
