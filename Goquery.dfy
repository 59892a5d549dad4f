/**
 * The slice of goquery (a jQuery-like selection over parsed HTML) that the
 * form extractor reads. A node is an element: its lower-case tag name, its
 * attributes in document order, its element children and its text content
 * (all descendant text, concatenated). A selection is an ordered list of
 * element nodes.
 */
module Goquery {
  import opened Wrappers

  datatype Attribute = Attribute(key: string, val: string)

  datatype Node = Node(tag: string, attrs: seq<Attribute>, children: seq<Node>, text: string)

  type Selection = seq<Node>

  /** Position of the first attribute with the given key. */
  function FirstAttrIndex(attrs: seq<Attribute>, key: string): (r: Option<nat>)
    decreases |attrs|
    ensures r.Some? ==> r.value < |attrs| && attrs[r.value].key == key
    ensures r.Some? ==> forall j :: 0 <= j < r.value ==> attrs[j].key != key
    ensures r.None? ==> forall j :: 0 <= j < |attrs| ==> attrs[j].key != key
  {
    if attrs == [] then None
    else if attrs[0].key == key then Some(0)
    else match FirstAttrIndex(attrs[1..], key)
      case Some(i) => Some(i + 1)
      case None => None
  }

  /** Selection.Attr: the attribute of the first node; none on an empty selection. */
  function Attr(s: Selection, key: string): (r: Option<string>)
    ensures s == [] ==> r == None
    ensures s != [] ==> (r.Some? <==> exists i :: 0 <= i < |s[0].attrs| && s[0].attrs[i].key == key)
    ensures r.Some? ==> s != [] && exists i :: (0 <= i < |s[0].attrs| && s[0].attrs[i] == Attribute(key, r.value)
      && forall j :: 0 <= j < i ==> s[0].attrs[j].key != key)
  {
    if s == [] then None
    else match FirstAttrIndex(s[0].attrs, key)
      case Some(i) => Some(s[0].attrs[i].val)
      case None => None
  }

  /** Selection.AttrOr: the attribute of the first node, or the given default. */
  function AttrOr(s: Selection, key: string, default: string): (r: string)
    ensures (s == [] || forall i :: 0 <= i < |s[0].attrs| ==> s[0].attrs[i].key != key) ==> r == default
    ensures s != [] && (exists i :: 0 <= i < |s[0].attrs| && s[0].attrs[i].key == key) ==>
      exists i :: (0 <= i < |s[0].attrs| && s[0].attrs[i] == Attribute(key, r)
        && forall j :: 0 <= j < i ==> s[0].attrs[j].key != key)
  {
    match Attr(s, key)
    case Some(v) => v
    case None => default
  }

  /** Selection.Is with a tag-name selector: some node of the selection has that tag. */
  predicate Is(s: Selection, tag: string)
    ensures s == [] ==> !Is(s, tag)
    ensures |s| == 1 ==> (Is(s, tag) <==> s[0].tag == tag)
  {
    exists i :: 0 <= i < |s| && s[i].tag == tag
  }

  /** Selection.Children: the element children of every node, in document order. */
  function Children(s: Selection): (r: Selection)
    decreases |s|
    ensures |s| == 1 ==> r == s[0].children
    ensures forall i, c :: 0 <= i < |s| && c in s[i].children ==> c in r
    ensures forall c :: c in r ==> exists i :: 0 <= i < |s| && c in s[i].children
  {
    if s == [] then []
    else
      var rest := Children(s[1..]);
      assert |s| == 1 ==> rest == [];
      assert forall c :: c in rest ==> exists i :: 0 <= i < |s| && c in s[i].children by {
        forall c | c in rest ensures exists i :: 0 <= i < |s| && c in s[i].children {
          var k :| 0 <= k < |s[1..]| && c in s[1..][k].children;
          assert s[k + 1] == s[1..][k];
        }
      }
      assert forall i, c :: 1 <= i < |s| && c in s[i].children ==> c in rest by {
        forall i, c | 1 <= i < |s| && c in s[i].children ensures c in rest {
          assert s[1..][i - 1] == s[i];
        }
      }
      s[0].children + rest
  }

  /** Selection.Last: the last node alone, or the empty selection. */
  function Last(s: Selection): (r: Selection)
    ensures |r| <= 1
    ensures s != [] ==> r == [s[|s| - 1]]
    ensures s == [] ==> r == []
  {
    if s == [] then [] else [s[|s| - 1]]
  }

  /** Selection.Text: the text contents of all nodes, concatenated. */
  function Text(s: Selection): (r: string)
    decreases |s|
    ensures |s| == 1 ==> r == s[0].text
    ensures forall i :: 0 <= i < |s| ==> |s[i].text| <= |r|
  {
    if s == [] then ""
    else
      var rest := Text(s[1..]);
      assert forall i :: 1 <= i < |s| ==> s[i] == s[1..][i - 1];
      s[0].text + rest
  }
}
