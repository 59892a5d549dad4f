# Form-fill inference engine of the katana crawler, in Dafny

This project models `pkg/utils/formfill.go` of the katana web crawler: the
engine that, given the controls of an HTML form in document order, suggests a
value for every control name so that the crawler can submit the form without
a human, and the extractor that turns one parsed element into a control
descriptor (`FormParam`).

- `Wrappers.dfy` — `Option`.
- `Strconv.dfy` — Go's `strconv.Atoi` (optional sign, then one or more ASCII
  digits; anything else, `""` included, fails) and `strconv.Itoa`, over
  unbounded integers, with the round trip `Atoi(Itoa(n)) == Some(n)`.
- `Goquery.dfy` — the part of a goquery selection the extractor reads: element
  nodes with a tag, attributes in document order, element children and text;
  `Attr`/`AttrOr` read the first node's first attribute of that key, `Is`
  holds when any node of the selection has the tag, `Children` collects the
  element children of all nodes, `Last` keeps the last node, `Text`
  concatenates the nodes' texts.
- `FormFill.dfy` — the fill profile `FormFillData` (passed in as an immutable
  value instead of the process-wide `FormData`), `FormParam`, the engine
  `FormParamFillSuggestions` as a method with the source's two loops over a
  map it updates in place, and `ConvertGoquerySelectionToFormParam` as a
  method that assigns the descriptor branch by branch and copies the first
  node's attributes in a loop.
- `FormFillProperties.dfy` — lemmas about the engine's specification.
- `FormFillExample.dfy` — the end-to-end scenario of
  `pkg/utils/formfill_test.go`: module `FormFillExample` gives the test form's
  controls and the suggestion for each name; module `FormFillTest` holds the
  names (`TestFormNames`), the test's filter of empty keys and values
  (`FilterDropsSubmit`) and the engine method run on the form
  (`TestFormQuery`).
- `ExtractorExamples.dfy` — the extractor on single elements.

The engine is specified per name, independently of its loops: for a name `n`,
if some control named `n` has an empty value, the suggestion is inferred from
the last such control (pass 2: `email` → profile e-mail, `color` → profile
color, `number`/`range` → computed from `min`, `max`, `step`, `password` and
`tel` → profile password, any other type → placeholder; types match exactly
and case-sensitively). Otherwise the last control of that name that pass 1
writes unconditionally (a checkbox, or a non-radio with a value) decides, and
failing that the first one, which is then a radio. The method's postcondition
says its map has exactly the controls' names as keys and this suggestion
under each.

Behaviour of the code worth noting:
- The textarea branch tests the tag `"texarea"`, so a `<textarea>` element
  matches no branch and keeps an empty type and value.
- Pass 2 does not look at whether pass 1 already stored a value for the name.
  It revisits every control whose own value is empty and overwrites that
  name's entry, even one a radio or a checkbox wrote.
- Types are compared exactly: in the test form, `type="Password"` is not
  `"password"`, so that control gets the placeholder `katana`, as the test
  expects.
- A `tel` control gets the password default, not the phone number.
- A select list's value is the `value` attribute of the last element child
  over all nodes of the selection. No "selected option" is looked up.

## Model

| member | source | states |
|---|---|---|
| Strconv.Atoi | pkg/utils/formfill.go:83-91 | parsing succeeds exactly on an optional sign followed by at least one ASCII digit; the value is that of the decimal digits (leading zeros included), negated after '-' |
| Strconv.NatDigits | pkg/utils/formfill.go:96 | the decimal digits of n: non-empty, all digits, no leading zero, and their value is n |
| Strconv.Itoa | pkg/utils/formfill.go:96 | decimal rendering: non-empty, a leading '-' exactly for negative numbers, digits otherwise |
| Strconv.AtoiItoa | pkg/utils/formfill.go:96 | parsing the rendering of any integer gives that integer back |
| Strconv.ItoaInjective | pkg/utils/formfill.go:96 | two integers with the same rendering are equal |
| Goquery.FirstAttrIndex | pkg/utils/formfill.go:112-123 | the position of the first attribute with the key, none exactly when no attribute has it |
| Goquery.Attr | pkg/utils/formfill.go:112 | an attribute is found exactly when the first node of a non-empty selection carries the key, and its value is that of the key's first occurrence there; never on an empty selection |
| Goquery.AttrOr | pkg/utils/formfill.go:115-123 | the value of the key's first occurrence on the first node, or the default when the selection is empty or the first node lacks the key |
| Goquery.Is | pkg/utils/formfill.go:114-124 | never on an empty selection; on a single node, exactly when its tag is the one asked for |
| Goquery.Children | pkg/utils/formfill.go:123 | exactly the element children of the selection's nodes; a single node's children in order |
| Goquery.Last | pkg/utils/formfill.go:123 | the last node alone on a non-empty selection, the empty selection otherwise |
| Goquery.Text | pkg/utils/formfill.go:126 | a single node's text; no node's text is longer than the result |
| FormFill.DefaultFormFillData | pkg/utils/formfill.go:27-33 | every default is non-empty and the e-mail starts with the generated identifier |
| FormFill.Lookup | pkg/utils/formfill.go:83 | a missing attribute reads as the empty string, a present one as its value |
| FormFill.Entry | pkg/utils/formfill.go:53 | a map entry as an optional value: present exactly when the key is in the map |
| FormFill.LastMatch | pkg/utils/formfill.go:69-104 | the last control with the name satisfying the test, and none after it; none exactly when no control qualifies |
| FormFill.FirstMatch | pkg/utils/formfill.go:51-55 | the first control with the name satisfying the test, and none before it; none exactly when no control qualifies |
| FormFill.Pass1Entry | pkg/utils/formfill.go:49-66 | after pass 1 a name has an entry exactly when some control of that name is a radio, a checkbox or has a value, and the entry is the value of such a control |
| FormFill.IntAttrOr | pkg/utils/formfill.go:83-91 | the parsed attribute when it parses, the default otherwise (in particular when the attribute is missing) |
| FormFill.NumericValue | pkg/utils/formfill.go:80-95 | min + step when it is at most max (equality keeps it), max - step otherwise; never above max when step is non-negative |
| FormFill.Inferred | pkg/utils/formfill.go:74-103 | a number or range control's value parses back to the computed number; `email` gets the profile's e-mail, `color` its color, `password` and `tel` its password, and every other type its placeholder |
| FormFill.Pass2Entry | pkg/utils/formfill.go:69-104 | pass 2 never removes a pass-1 entry, and every entry is some control of that name's own value or, for a control without one, its inferred value |
| FormFill.Suggestion | pkg/utils/formfill.go:45-106 | a name gets a suggestion exactly when some control carries it, and the suggestion is that control's own value or, when it has none, its inferred value |
| FormFill.Pass2EntryKeys | pkg/utils/formfill.go:49-104 | after both passes a name has an entry exactly when some control carries it |
| FormFill.Pass1Step | pkg/utils/formfill.go:50-65 | the per-name pass-1 description advances over one more control as the switch does: a radio only into a free name, a checkbox always, another type only with a value |
| FormFill.Pass2Step | pkg/utils/formfill.go:69-103 | the per-name pass-2 description advances over one more control by overwriting its name exactly when the control's own value is empty |
| FormFill.NumberSuggestion | pkg/utils/formfill.go:79-96 | the number or range suggestion: each of min, max, step parsed or defaulted on its own, min + step, or max - step when that exceeds max |
| FormFill.FillValue | pkg/utils/formfill.go:74-103 | the switch on the field type, proved to give exactly `Inferred`'s value: e-mail, color, the number rendered in decimal, password for `password` and `tel`, placeholder otherwise |
| FormFill.FormParamFillSuggestions | pkg/utils/formfill.go:45-106 | the result's keys are exactly the controls' names and each name maps to its per-name suggestion |
| FormFill.CopyAttributes | pkg/utils/formfill.go:129-131 | the attribute map has exactly the first node's attribute keys, and each key maps to the value of its last occurrence |
| FormFill.ConvertGoquerySelectionToFormParam | pkg/utils/formfill.go:109-134 | name from the name attribute or ""; input/button: type attribute, value attribute or "on" for a checkbox and "" otherwise; select: type radio, value of the last child; tag "texarea": type text and the text; anything else: empty type and value; attributes copied |
| FormFillProperties.RadioFirstWins | pkg/utils/formfill.go:51-55 | among radios of one name, all with values, the first one's value is suggested |
| FormFillProperties.CheckboxLastWins | pkg/utils/formfill.go:56-57 | a checkbox with a value that only radios of its name follow, all controls of the name having values, gives its value |
| FormFillProperties.UnfilledFieldDecides | pkg/utils/formfill.go:69-72 | the last control of a name without a value decides that name's suggestion, whatever pass 1 stored |
| FormFillProperties.ExplicitValueKept | pkg/utils/formfill.go:59-64 | a control with a value that is alone with its name keeps that value |
| FormFillProperties.SuggestionsDetermined | pkg/utils/formfill.go:45-106 | two maps meeting the engine's postcondition are equal, so the result depends on the inputs and profile alone |
| FormFillProperties.NumericSuggestionParses | pkg/utils/formfill.go:79-96 | a number or range suggestion parses back to the computed integer |
| FormFillProperties.NumericValueBounds | pkg/utils/formfill.go:92-95 | with a non-negative step the number never exceeds max, and lies in [min, max] when min + step fits |
| FormFillProperties.AtoiExamples | pkg/utils/formfill.go:83-91 | "50", "80", "10", "-4", "+3" parse; "", "abc", "+", "5 " do not |
| FormFillProperties.NumericDefaults | pkg/utils/formfill.go:83-95 | without min, max and step the suggestion is 2 |
| FormFillProperties.NumericMinMax | pkg/utils/formfill.go:83-95 | min 50, max 80, no step: 51 |
| FormFillProperties.NumericOvershoot | pkg/utils/formfill.go:92-95 | min 10 with default max and step: 11 exceeds 10, so 9 |
| FormFillProperties.NumericBadBounds | pkg/utils/formfill.go:83-91 | a non-integer min and max fall back alone, a signed step is used: 4 |
| FormFillProperties.AtoiLeadingZero | pkg/utils/formfill.go:83 | a bound written "050" reads as 50 |
| FormFillProperties.NumericAtMax | pkg/utils/formfill.go:92-95 | min 9 with the default max and step gives 10: a sum equal to max is kept |
| FormFillProperties.NumericSignedBounds | pkg/utils/formfill.go:83-95 | a negative min is accepted: -4 + 3 = -1 |
| FormFillProperties.TypeDispatchIsExact | pkg/utils/formfill.go:74-102 | "Password", "Email", "text", "date", "submit" and "" get the placeholder; "tel" gets the password default |
| FormFillExample.QueryValues | pkg/utils/formfill_test.go:57-62 | the caller keeps exactly the entries with a non-empty name and a non-empty value, unchanged |
| FormFillExample.TestFormFirstname | pkg/utils/formfill_test.go:19 | firstname gets katana |
| FormFillExample.TestFormPassword | pkg/utils/formfill_test.go:21 | the type="Password" control gets katana |
| FormFillExample.TestFormColor | pkg/utils/formfill_test.go:23-25 | the radios red, blue, green give red |
| FormFillExample.TestFormSport1 | pkg/utils/formfill_test.go:27 | sport1 gets cricket |
| FormFillExample.TestFormSport2 | pkg/utils/formfill_test.go:28 | sport2 gets tennis |
| FormFillExample.TestFormSport3 | pkg/utils/formfill_test.go:29 | sport3 gets football |
| FormFillExample.TestFormUpclick | pkg/utils/formfill_test.go:30 | upclick keeps #a52a2a |
| FormFillExample.TestFormStartdate | pkg/utils/formfill_test.go:31 | Startdate gets katana |
| FormFillExample.NumFieldInferred | pkg/utils/formfill_test.go:33 | the num control (min 50, max 80) is inferred as "51" |
| FormFillExample.TestFormNum | pkg/utils/formfill_test.go:33 | num gets 51 |
| FormFillExample.TestFormTelephone | pkg/utils/formfill_test.go:35 | telephone gets katanaP@assw0rd1 |
| FormFillExample.TestFormSubmit | pkg/utils/formfill_test.go:36 | the nameless submit button puts submit under the empty name |
| FormFillTest.TestFormNames | pkg/utils/formfill_test.go:19-36 | the test form's names are the ten named controls and the empty name |
| FormFillTest.FilterDropsSubmit | pkg/utils/formfill_test.go:57-62 | filtering the engine's entries for the test form leaves exactly the ten expected pairs |
| FormFillTest.TestFormQuery | pkg/utils/formfill_test.go:41-66 | the engine on the test form, then the filter, gives exactly the pairs the test encodes |
| ExtractorExamples.CheckboxDefaultsToOn | pkg/utils/formfill.go:116-117 | a checkbox without a value attribute gets "on" |
| ExtractorExamples.SelectTakesLastOption | pkg/utils/formfill.go:121-123 | a select list becomes a radio with its last option's value |
| ExtractorExamples.TextareaFallsThrough | pkg/utils/formfill.go:124-127 | a textarea element gets an empty type and value |
| ExtractorExamples.RepeatedAttribute | pkg/utils/formfill.go:109-134 | with a repeated name attribute, the name is the first occurrence and the attribute map holds the last |

## Left out

- pkg/engine/common/http.go (the HTTP client factory and its redirect hook): configuration of foreign libraries; not part of this model.
- test/app.py: an HTTP server used as an integration target; not part of this model.
- The e-mail default's random identifier (`xid.New()`): it is the parameter `id` of `DefaultFormFillData`; the global `FormData` is replaced by an explicit profile parameter.
- Strconv.Atoi: does not model Go's range error for numerals outside 64 bits; integers are unbounded.
- FormFill.NumberSuggestion: does not model 64-bit wrap-around of `min + step` and `max - step`; integers are unbounded.
- FormFill.ConvertGoquerySelectionToFormParam: requires a selection of at least one node; the code indexes `item.Nodes[0]` (pkg/utils/formfill.go:129) and would panic on an empty selection, which its caller rules out (pkg/utils/formfill_test.go:50).
- HTML parsing and CSS selector matching: a selection is a list of element nodes, and `Is` compares tag names exactly.
- Goquery.Text: a node's text content is given with the node rather than computed from descendant text nodes.
- The test form's controls are written out as the extractor describes them (`FormFillExample.TestFormParams`); the extractor's contract is exercised on single elements in `ExtractorExamples`, not on the whole parsed test document.
- The query-string percent-encoding and key ordering of `url.Values.Encode` in the test: the model compares the filtered map itself.
