/**
 * The end-to-end scenario of pkg/utils/formfill_test.go: the thirteen input
 * controls of the test form, the suggestions the engine gives them under the
 * built-in profile, and the caller-side filter that drops an empty name or
 * an empty value before the query string is encoded.
 */
module FormFillExample {
  import opened Wrappers
  import opened Strconv
  import opened FormFill
  import opened FormFillProperties

  /** The controls of the test form, in document order, as the extractor describes them. */
  function TestFormParams(): seq<FormParam> {
    [ FormParam("text", "firstname", "", map["type" := "text", "name" := "firstname"]),
      FormParam("Password", "password", "", map["type" := "Password", "name" := "password"]),
      FormParam("radio", "color", "red", map["type" := "radio", "name" := "color", "value" := "red"]),
      FormParam("radio", "color", "blue", map["type" := "radio", "name" := "color", "value" := "blue"]),
      FormParam("radio", "color", "green", map["type" := "radio", "name" := "color", "value" := "green"]),
      FormParam("checkbox", "sport1", "cricket", map["type" := "checkbox", "name" := "sport1", "value" := "cricket"]),
      FormParam("checkbox", "sport2", "tennis", map["type" := "checkbox", "name" := "sport2", "value" := "tennis"]),
      FormParam("checkbox", "sport3", "football", map["type" := "checkbox", "name" := "sport3", "value" := "football"]),
      FormParam("color", "upclick", "#a52a2a", map["type" := "color", "name" := "upclick", "value" := "#a52a2a"]),
      FormParam("date", "Startdate", "", map["type" := "date", "name" := "Startdate"]),
      FormParam("number", "num", "", map["type" := "number", "name" := "num", "min" := "50", "max" := "80"]),
      FormParam("tel", "telephone", "", map["type" := "tel", "name" := "telephone",
                                            "pattern" := "[0-9]{3}-[0-9]{3}-[0-9]{4}", "required" := ""]),
      FormParam("submit", "", "submit", map["type" := "submit", "value" := "submit"])
    ]
  }

  /** The caller's filter: entries with an empty name or an empty value are not submitted. */
  function QueryValues(m: map<string, string>): (q: map<string, string>)
    ensures forall k :: k in q <==> k in m && k != "" && m[k] != ""
    ensures forall k :: k in q ==> q[k] == m[k]
  {
    map k | k in m && k != "" && m[k] != "" :: m[k]
  }

  /** A text field without a value takes the placeholder. */
  lemma TestFormFirstname(id: string)
    ensures Suggestion(TestFormParams(), DefaultFormFillData(id), "firstname") == Some("katana")
  {
    var s, p := TestFormParams(), DefaultFormFillData(id);
    UnfilledFieldDecides(s, p, 0);
  }

  /** Type "Password" is not "password": it takes the placeholder. */
  lemma TestFormPassword(id: string)
    ensures Suggestion(TestFormParams(), DefaultFormFillData(id), "password") == Some("katana")
  {
    var s, p := TestFormParams(), DefaultFormFillData(id);
    UnfilledFieldDecides(s, p, 1);
  }

  /** The first of the three color radios wins. */
  lemma TestFormColor(id: string)
    ensures Suggestion(TestFormParams(), DefaultFormFillData(id), "color") == Some("red")
  {
    var s, p := TestFormParams(), DefaultFormFillData(id);
    RadioFirstWins(s, p, 2);
  }

  /** A checkbox keeps its value. */
  lemma TestFormSport1(id: string)
    ensures Suggestion(TestFormParams(), DefaultFormFillData(id), "sport1") == Some("cricket")
  {
    var s, p := TestFormParams(), DefaultFormFillData(id);
    CheckboxLastWins(s, p, 5);
  }

  /** A checkbox keeps its value. */
  lemma TestFormSport2(id: string)
    ensures Suggestion(TestFormParams(), DefaultFormFillData(id), "sport2") == Some("tennis")
  {
    var s, p := TestFormParams(), DefaultFormFillData(id);
    CheckboxLastWins(s, p, 6);
  }

  /** A checkbox keeps its value. */
  lemma TestFormSport3(id: string)
    ensures Suggestion(TestFormParams(), DefaultFormFillData(id), "sport3") == Some("football")
  {
    var s, p := TestFormParams(), DefaultFormFillData(id);
    CheckboxLastWins(s, p, 7);
  }

  /** An explicit color value is kept; the color default is not used. */
  lemma TestFormUpclick(id: string)
    ensures Suggestion(TestFormParams(), DefaultFormFillData(id), "upclick") == Some("#a52a2a")
  {
    var s, p := TestFormParams(), DefaultFormFillData(id);
    ExplicitValueKept(s, p, 8);
  }

  /** A date field without a value takes the placeholder. */
  lemma TestFormStartdate(id: string)
    ensures Suggestion(TestFormParams(), DefaultFormFillData(id), "Startdate") == Some("katana")
  {
    var s, p := TestFormParams(), DefaultFormFillData(id);
    UnfilledFieldDecides(s, p, 9);
  }

  /** min 50, max 80 and no step: 50 + 1. */
  lemma TestFormNum(id: string)
    ensures Suggestion(TestFormParams(), DefaultFormFillData(id), "num") == Some("51")
  {
    var s, p := TestFormParams(), DefaultFormFillData(id);
    UnfilledFieldDecides(s, p, 10);
    NumFieldInferred(s[10], p);
  }

  lemma NumFieldInferred(f: FormParam, p: FormFillData)
    requires f == FormParam("number", "num", "", map["type" := "number", "name" := "num", "min" := "50", "max" := "80"])
    ensures Inferred(f, p) == "51"
  {
    NumericMinMax(f.attributes);
    assert Itoa(51) == "51";
  }

  /** A tel field takes the password default. */
  lemma TestFormTelephone(id: string)
    ensures Suggestion(TestFormParams(), DefaultFormFillData(id), "telephone") == Some("katanaP@assw0rd1")
  {
    var s, p := TestFormParams(), DefaultFormFillData(id);
    UnfilledFieldDecides(s, p, 11);
  }

  /** The nameless submit button is suggested under the empty name. */
  lemma TestFormSubmit(id: string)
    ensures Suggestion(TestFormParams(), DefaultFormFillData(id), "") == Some("submit")
  {
    var s, p := TestFormParams(), DefaultFormFillData(id);
    ExplicitValueKept(s, p, 12);
  }
}

module FormFillTest {
  import opened Wrappers
  import opened FormFill
  import opened FormFillExample

  lemma TestFormNames()
    ensures Names(TestFormParams()) ==
      {"firstname", "password", "color", "sport1", "sport2", "sport3", "upclick", "Startdate", "num", "telephone", ""}
  {
    var s := TestFormParams();
    assert s[0].name == "firstname" && s[1].name == "password" && s[2].name == "color";
    assert s[5].name == "sport1" && s[6].name == "sport2" && s[7].name == "sport3";
    assert s[8].name == "upclick" && s[9].name == "Startdate" && s[10].name == "num";
    assert s[11].name == "telephone" && s[12].name == "";
  }

  /** The map the test encodes. */
  function ExpectedQuery(): map<string, string> {
    map[
      "Startdate" := "katana", "color" := "red", "firstname" := "katana", "num" := "51",
      "password" := "katana", "sport1" := "cricket", "sport2" := "tennis", "sport3" := "football",
      "telephone" := "katanaP@assw0rd1", "upclick" := "#a52a2a"]
  }

  /** Dropping the nameless submit entry from the engine's entries leaves the expected pairs. */
  lemma FilterDropsSubmit(data: map<string, string>)
    requires data.Keys ==
      {"firstname", "password", "color", "sport1", "sport2", "sport3", "upclick", "Startdate", "num", "telephone", ""}
    requires data["firstname"] == "katana" && data["password"] == "katana" && data["color"] == "red"
    requires data["sport1"] == "cricket" && data["sport2"] == "tennis" && data["sport3"] == "football"
    requires data["upclick"] == "#a52a2a" && data["Startdate"] == "katana" && data["num"] == "51"
    requires data["telephone"] == "katanaP@assw0rd1"
    ensures QueryValues(data) == ExpectedQuery()
  {
    var q, e := QueryValues(data), ExpectedQuery();
    forall k | k in q ensures k in e {
      assert k in data && k != "";
    }
    forall k | k in e ensures k in q && q[k] == e[k] {
      assert k in data;
    }
  }

  /**
   * TestFormParamFillSuggestions: the engine on the test form under the
   * built-in profile, then the caller's filter, gives exactly the pairs the
   * test encodes.
   */
  method TestFormQuery(id: string) returns (query: map<string, string>)
    ensures query == ExpectedQuery()
  {
    var data := FormParamFillSuggestions(TestFormParams(), DefaultFormFillData(id));
    TestFormNames();
    assert data["firstname"] == "katana" by { TestFormFirstname(id); assert Entry(data, "firstname") == Some("katana"); }
    assert data["password"] == "katana" by { TestFormPassword(id); assert Entry(data, "password") == Some("katana"); }
    assert data["color"] == "red" by { TestFormColor(id); assert Entry(data, "color") == Some("red"); }
    assert data["sport1"] == "cricket" by { TestFormSport1(id); assert Entry(data, "sport1") == Some("cricket"); }
    assert data["sport2"] == "tennis" by { TestFormSport2(id); assert Entry(data, "sport2") == Some("tennis"); }
    assert data["sport3"] == "football" by { TestFormSport3(id); assert Entry(data, "sport3") == Some("football"); }
    assert data["upclick"] == "#a52a2a" by { TestFormUpclick(id); assert Entry(data, "upclick") == Some("#a52a2a"); }
    assert data["Startdate"] == "katana" by { TestFormStartdate(id); assert Entry(data, "Startdate") == Some("katana"); }
    assert data["num"] == "51" by { TestFormNum(id); assert Entry(data, "num") == Some("51"); }
    assert data["telephone"] == "katanaP@assw0rd1" by {
      TestFormTelephone(id);
      assert Entry(data, "telephone") == Some("katanaP@assw0rd1");
    }
    FilterDropsSubmit(data);
    query := QueryValues(data);
  }
}
