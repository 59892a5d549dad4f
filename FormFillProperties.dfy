/**
 * Properties of the form-fill engine's specification: radio first-wins,
 * checkbox last-wins, pass 2's override, explicit values kept, uniqueness of
 * the result, and the number/range and type-dispatch rules.
 */
module FormFillProperties {
  import opened Wrappers
  import opened Strconv
  import opened FormFill

  /**
   * Radios are first-wins: when every field named like radio `i` is a radio
   * with a value and `i` is the first of them, its value is suggested.
   */
  lemma RadioFirstWins(s: seq<FormParam>, profile: FormFillData, i: nat)
    requires i < |s| && s[i].fieldType == "radio" && s[i].value != ""
    requires forall j :: 0 <= j < i ==> s[j].name != s[i].name
    requires forall j :: i < j < |s| && s[j].name == s[i].name ==> s[j].fieldType == "radio" && s[j].value != ""
    ensures Suggestion(s, profile, s[i].name) == Some(s[i].value)
  {
    var n := s[i].name;
    assert s[..|s|] == s;
    assert LastMatch(s, n, Unfilled) == None;
    assert LastMatch(s, n, Overwrites) == None;
    var first := FirstMatch(s, n, Eligible);
    assert Eligible(s[i]);
    assert first == Some(i);
  }

  /**
   * Checkboxes are last-wins: a checkbox with a value that no later
   * non-radio field of its name follows, among fields of that name that all
   * carry values, gives its value.
   */
  lemma CheckboxLastWins(s: seq<FormParam>, profile: FormFillData, i: nat)
    requires i < |s| && s[i].fieldType == "checkbox" && s[i].value != ""
    requires forall j :: 0 <= j < |s| && s[j].name == s[i].name ==> s[j].value != ""
    requires forall j :: i < j < |s| && s[j].name == s[i].name ==> s[j].fieldType == "radio"
    ensures Suggestion(s, profile, s[i].name) == Some(s[i].value)
  {
    var n := s[i].name;
    assert s[..|s|] == s;
    assert LastMatch(s, n, Unfilled) == None;
    assert Overwrites(s[i]);
    assert LastMatch(s, n, Overwrites) == Some(i);
  }

  /**
   * Pass 2 is decided per field: the last field of a name without a value
   * decides that name's suggestion, whatever radios, checkboxes or explicit
   * values of that name pass 1 saw.
   */
  lemma UnfilledFieldDecides(s: seq<FormParam>, profile: FormFillData, i: nat)
    requires i < |s| && s[i].value == ""
    requires forall j :: i < j < |s| && s[j].name == s[i].name ==> s[j].value != ""
    ensures Suggestion(s, profile, s[i].name) == Some(Inferred(s[i], profile))
  {
    assert s[..|s|] == s;
    assert LastMatch(s, s[i].name, Unfilled) == Some(i);
  }

  /** A field with an explicit value that is alone with its name keeps that value. */
  lemma ExplicitValueKept(s: seq<FormParam>, profile: FormFillData, i: nat)
    requires i < |s| && s[i].value != ""
    requires forall j :: 0 <= j < |s| && j != i ==> s[j].name != s[i].name
    ensures Suggestion(s, profile, s[i].name) == Some(s[i].value)
  {
    var n := s[i].name;
    assert s[..|s|] == s;
    assert LastMatch(s, n, Unfilled) == None;
    if s[i].fieldType == "radio" {
      assert LastMatch(s, n, Overwrites) == None;
      assert Eligible(s[i]);
      assert FirstMatch(s, n, Eligible) == Some(i);
    } else {
      assert Overwrites(s[i]);
      assert LastMatch(s, n, Overwrites) == Some(i);
    }
  }

  /**
   * The engine's result is determined by its inputs: two maps that both meet
   * FormParamFillSuggestions' postcondition are equal.
   */
  lemma SuggestionsDetermined(s: seq<FormParam>, profile: FormFillData, m1: map<string, string>, m2: map<string, string>)
    requires forall n :: Entry(m1, n) == Suggestion(s, profile, n)
    requires forall n :: Entry(m2, n) == Suggestion(s, profile, n)
    ensures m1 == m2
  {
    forall n ensures n in m1 <==> n in m2 {
      assert Entry(m1, n) == Entry(m2, n);
    }
    forall n | n in m1 ensures m1[n] == m2[n] {
      assert Entry(m1, n) == Entry(m2, n);
    }
  }

  /** The number suggested for a number or range field reads back as that integer. */
  lemma NumericSuggestionParses(f: FormParam, profile: FormFillData)
    requires f.fieldType == "number" || f.fieldType == "range"
    ensures Atoi(Inferred(f, profile)) == Some(NumericValue(f.attributes))
  {
    AtoiItoa(NumericValue(f.attributes));
  }

  /**
   * With a non-negative step the suggestion never exceeds max, and when
   * min + step fits under max it lies between min and max.
   */
  lemma NumericValueBounds(attrs: map<string, string>)
    ensures var min, max, step := IntAttrOr(attrs, "min", 1), IntAttrOr(attrs, "max", 10), IntAttrOr(attrs, "step", 1);
      && (0 <= step ==> NumericValue(attrs) <= max)
      && (0 <= step && min + step <= max ==> min <= NumericValue(attrs))
  {
  }

  /** Atoi on the numerals the examples use. */
  lemma AtoiExamples()
    ensures Atoi("50") == Some(50) && Atoi("80") == Some(80) && Atoi("10") == Some(10)
    ensures Atoi("-4") == Some(-4) && Atoi("+3") == Some(3)
    ensures Atoi("") == None && Atoi("abc") == None && Atoi("+") == None && Atoi("5 ") == None
  {
    assert "50"[..1] == "5" && DigitsValue("5") == 5 && DigitsValue("50") == 50;
    assert "80"[..1] == "8" && DigitsValue("8") == 8 && DigitsValue("80") == 80;
    assert "10"[..1] == "1" && DigitsValue("1") == 1 && DigitsValue("10") == 10;
    assert "-4"[1..] == "4" && DigitsValue("4") == 4;
    assert "+3"[1..] == "3" && DigitsValue("3") == 3;
    assert !IsDigit('a') && !IsDigit(' ');
  }

  /** With no attributes the defaults give 1 + 1. */
  lemma NumericDefaults(attrs: map<string, string>)
    requires "min" !in attrs && "max" !in attrs && "step" !in attrs
    ensures NumericValue(attrs) == 2
  {
    AtoiExamples();
  }

  /** min 50 and max 80 with no step give 51: the step alone falls back to 1. */
  lemma NumericMinMax(attrs: map<string, string>)
    requires Lookup(attrs, "min") == "50" && Lookup(attrs, "max") == "80" && "step" !in attrs
    ensures NumericValue(attrs) == 51
  {
    AtoiExamples();
  }

  /** min 10 with the default max and step overshoots: 10 - 1. */
  lemma NumericOvershoot(attrs: map<string, string>)
    requires Lookup(attrs, "min") == "10" && "max" !in attrs && "step" !in attrs
    ensures NumericValue(attrs) == 9
  {
    AtoiExamples();
  }

  /** A bound that is not an integer falls back alone: 1 + 3 under the default max. */
  lemma NumericBadBounds(attrs: map<string, string>)
    requires Lookup(attrs, "min") == "abc" && Lookup(attrs, "max") == "5 " && Lookup(attrs, "step") == "+3"
    ensures NumericValue(attrs) == 4
  {
    AtoiExamples();
  }

  /** A leading zero is read as a decimal digit: "050" is 50, not 0. */
  lemma AtoiLeadingZero()
    ensures Atoi("050") == Some(50)
  {
    assert "050"[..2] == "05" && "05"[..1] == "0";
    assert DigitsValue("0") == 0 && DigitsValue("05") == 5 && DigitsValue("050") == 50;
  }

  /** min + step equal to max is kept, since only a larger sum falls back: 9 + 1. */
  lemma NumericAtMax(attrs: map<string, string>)
    requires Lookup(attrs, "min") == "9" && "max" !in attrs && "step" !in attrs
    ensures NumericValue(attrs) == 10
  {
    assert "9"[..0] == "" && DigitsValue("9") == 9;
  }

  /** Signed bounds are accepted: -4 + 3. */
  lemma NumericSignedBounds(attrs: map<string, string>)
    requires Lookup(attrs, "min") == "-4" && "max" !in attrs && Lookup(attrs, "step") == "+3"
    ensures NumericValue(attrs) == -1
  {
    AtoiExamples();
  }

  /**
   * Types are matched exactly: "tel" takes the password default, while a
   * type differing only in case, or any unknown type, takes the placeholder.
   */
  lemma TypeDispatchIsExact(f: FormParam, profile: FormFillData)
    requires f.fieldType in {"Password", "Email", "text", "date", "submit", ""}
    ensures Inferred(f, profile) == profile.placeholder
    ensures Inferred(f.(fieldType := "tel"), profile) == profile.password
  {
  }
}
