/**
 * The extractor on single elements: the checkbox default, the select list,
 * the textarea that no branch recognises, and a repeated attribute.
 */
module ExtractorExamples {
  import opened Wrappers
  import opened Goquery
  import opened FormFill

  /** A checkbox without a value attribute is submitted as "on". */
  method CheckboxDefaultsToOn(name: string) returns (param: FormParam)
    ensures param.fieldType == "checkbox" && param.name == name && param.value == "on"
  {
    var node := Node("input", [Attribute("type", "checkbox"), Attribute("name", name)], [], "");
    assert Is([node], "input");
    assert node.attrs[1..] == [Attribute("name", name)];
    assert FirstAttrIndex(node.attrs, "name") == Some(1);
    assert Attr([node], "value") == None;
    param := ConvertGoquerySelectionToFormParam([node]);
  }

  /** A select list is treated as a radio group whose value is its last option's. */
  method SelectTakesLastOption(first: string, last: string) returns (param: FormParam)
    ensures param.fieldType == "radio" && param.value == last && param.name == "size"
  {
    var options := [Node("option", [Attribute("value", first)], [], first),
                     Node("option", [Attribute("value", last)], [], last)];
    var node := Node("select", [Attribute("name", "size")], options, first + last);
    assert [node][0].tag == "select";
    assert !Is([node], "input") && !Is([node], "button") && Is([node], "select");
    assert Children([node]) == options by {
      assert Children([node][1..]) == [];
    }
    param := ConvertGoquerySelectionToFormParam([node]);
  }

  /**
   * A textarea element matches none of the branches (the code tests the tag
   * "texarea"), so its type and value stay empty whatever its text.
   */
  method TextareaFallsThrough(attrs: seq<Attribute>, text: string) returns (param: FormParam)
    ensures param.fieldType == "" && param.value == ""
  {
    param := ConvertGoquerySelectionToFormParam([Node("textarea", attrs, [], text)]);
  }

  /**
   * With the name attribute given twice, the name comes from the first
   * occurrence while the attribute map keeps the last.
   */
  method RepeatedAttribute(a: string, b: string) returns (param: FormParam)
    ensures param.name == a && param.attributes == map["name" := b]
  {
    var node := Node("input", [Attribute("name", a), Attribute("name", b)], [], "");
    param := ConvertGoquerySelectionToFormParam([node]);
    assert LastOfKey(node.attrs, 1, 2);
    assert AttrKeys(node.attrs) == {"name"};
  }
}
