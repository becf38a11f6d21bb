# SimpleLabel: record adapter and rule-editor helpers

This project models two pieces of SimpleLabel, a tool that labels tabular records with user-written matching rules.

- **`record_to_dict`** in `debug.py` is the record adapter. It takes either a dict holding `record` and `field_mapping`, or an object with those two attributes. It returns a new record keyed by the human-readable field names of `field_mapping`. Each value is the record's entry for the mapped field identifier with surrounding whitespace stripped, or `''` when the record has no such entry. Any other input shape raises `ValueError`.
- **The rule-row helpers of `webui.py`**:
  - the closed list of condition tokens offered in the form;
  - `fill_rule_form`, which projects one row of the rule table onto the form's eight inputs;
  - `on_select_row`, which extracts the selected row number;
  - `add_item_fn`, which builds the default new rule.

Files:
- `wrappers.dfy`: `Option` and `Result`.
- `strings.dfy`: Python's `str.strip()` over the exact character set of `str.isspace()`. It scans forward past leading whitespace and backward past trailing whitespace, as CPython does. Lemmas prove that the result is the unique middle slice that neither starts nor ends with whitespace and has only whitespace around it, and that stripping is idempotent. Whitespace inside the slice is kept.
- `debug.dfy`: the input shapes as a datatype, the shape dispatch, and `record_to_dict` as a method with a loop. The method is proved equal to a functional specification, `Adapted`. Lemmas state the properties of that specification.
- `webui.dfy`: the constants and pure helpers, with their lemmas.

The input shapes are `DictInput(record, fieldMapping)`, `ObjInput(record, fieldMapping)` and `Other`. For a dict, `None` stands for a missing key, which the source reads as `{}`. For an object, `None` stands for a missing attribute, which makes the source raise. Findings from the source are in the last section.

The code raises Python's `ValueError`, not a dedicated "unsupported input" error type. The model follows the code.

## Model

| member | source | states |
|---|---|---|
| `Strings.SkipSpace` | debug.py:18 | the forward scan returns a position at or after its start, everything it passed is whitespace, and it stops at a non-whitespace character or the end |
| `Strings.SkipSpaceBack` | debug.py:18 | the backward scan returns a position at or before its start, everything it passed is whitespace, and it stops just after a non-whitespace character or at the beginning |
| `Strings.Strip` | debug.py:18 | the result neither starts nor ends with whitespace, and it is a slice of the input with only whitespace before it and after it |
| `Strings.StripIsSlice` | debug.py:18 | the result is a slice of the input with only whitespace before it and after it |
| `Strings.StripUnique` | debug.py:18 | any split of a string into whitespace, a trimmed middle and whitespace strips to that middle, so `Strip` is fully determined |
| `Strings.StripTrimmed` | debug.py:18 | a string with no surrounding whitespace strips to itself |
| `Strings.StripIdempotent` | debug.py:18-20 | stripping a stripped value changes nothing |
| `Debug.Supported` | debug.py:6-13 | no contract of its own: the shapes the dispatch accepts, any dict or an object with both attributes; `Debug.RejectsUnsupported` proves that exactly the other shapes raise |
| `Debug.Unpack` | debug.py:6-13 | a dict yields its `record` and `field_mapping`, each `{}` when missing; an object with both attributes yields them; everything else raises `ValueError("Unsupported input data structure")` |
| `Debug.FieldValue` | debug.py:17-20 | the value stored for one field has no surrounding whitespace, and is `''` when the identifier is missing from the record; `Debug.NormalizedPresent` gives the present case |
| `Debug.Normalized` | debug.py:15-21 | the functional specification of the loop: its keys are exactly the field names of the mapping and no value has surrounding whitespace |
| `Debug.Adapted` | debug.py:5-21 | the functional specification of the whole call: it fails exactly for the unsupported shapes; `Debug.AdaptedSupported` gives the result for the others |
| `Debug.RecordToDict` | debug.py:5-21 | the loop over the mapping returns exactly the specified record for every accepted shape, and the specified error otherwise |
| `Debug.RejectsUnsupported` | debug.py:9-13 | the call raises `ValueError` if and only if the input is neither a dict nor an object with both attributes |
| `Debug.ListInputRejected` | debug.py:57 | the list passed by the script's final call raises `ValueError` |
| `Debug.NormalizedKeys` | debug.py:15-21 | the result's keys are exactly the field names of the mapping |
| `Debug.NormalizedPresent` | debug.py:17-18 | a field whose identifier is in the record gets that entry with surrounding whitespace stripped |
| `Debug.NormalizedAbsent` | debug.py:19-20 | a field whose identifier is not in the record gets `''` |
| `Debug.NormalizedTrimmed` | debug.py:18-20 | no result value has surrounding whitespace, and stripping any of them again leaves it unchanged |
| `Debug.NormalizedSameIdentifier` | debug.py:16-18 | two field names mapped to the same identifier get the same value |
| `Debug.NormalizedIgnoresUnmapped` | debug.py:15-21 | the result is the same when the record keeps only the entries some mapped identifier names |
| `Debug.AdaptedSupported` | debug.py:6-11 | a dict or a complete object yields the normalized record of its record and mapping |
| `Debug.DictWithoutMapping` | debug.py:7-16 | a dict without `field_mapping` yields the empty map |
| `Debug.DictWithoutRecord` | debug.py:7-20 | a dict without `record` maps every field name to `''` |
| `WebUi.DefaultConditionChoices` | webui.py:6-16 | a constant, specified by `WebUi.ConditionChoicesShape` |
| `WebUi.ConditionChoicesShape` | webui.py:6-16 | there are 17 condition tokens, all distinct, and the first is `''` |
| `WebUi.FirstMissing` | webui.py:74-83 | finds the first column, in order, that the row lacks; when there is none, the row has every column |
| `WebUi.FillRuleForm` | webui.py:59-83 | nothing when the index is missing or not below the row count; otherwise the eight cells of that row in the fixed column order, unchanged, exactly when the row has all eight columns; otherwise a `KeyError` for the first missing column |
| `WebUi.OnSelectRow` | webui.py:50-56 | nothing when no cell is selected; otherwise the row number of the selected cell |
| `WebUi.SelectThenFill` | webui.py:313-321 | selecting no cell fills nothing; selecting any cell of a complete row fills the form with that row's cells in column order |
| `WebUi.AddItem` | webui.py:127-145 | no contract of its own; specified by `WebUi.AddItemResult` |
| `WebUi.NewRule` | webui.py:133-142 | a constant, specified by `WebUi.NewRuleDefaults` |
| `WebUi.AddItemResult` | webui.py:127-145 | the counter goes up by one and the list is exactly the one default rule, whatever the prior rule state held: both conditions are the first token `''`, the logic is `且`, and every other entry is `''` |
| `WebUi.NewRuleDefaults` | webui.py:133-142 | the default rule has both conditions set to the first token `''`, its logic set to `且`, and every field, keyword and label entry set to `''` |
| `WebUi.AddedRuleNotFillable` | webui.py:133-142 | a rule table made of the rules `add_item_fn` builds, with row 0 selected, makes `fill_rule_form` raise `KeyError('（可选）筛选字段2')`, because the default rule lacks the `（可选）` columns |
| `WebUi.AlignedNewRule` | webui.py:132-142 | a constant, the default rule keyed by the rule table's columns; specified by `WebUi.AlignedRuleFills` |
| `WebUi.AddItemAligned` | webui.py:127-145 | no contract of its own; specified by `WebUi.AlignedRuleFills` |
| `WebUi.AlignedRuleFills` | webui.py:132-145 | the default rule keyed by the table's columns loads with index 0 as blank fields, blank conditions and logic `且` |

## Left out

- The rule-matching engine `RuleParser` and the `simplelabel` module are called at debug.py:2 and debug.py:58. `simplelabel` is not part of this model. No condition semantics, first-match order or SQL generation are modelled.
- The Gradio interface is UI plumbing and is not modelled: the form and input builders, `dataframe`, the page layout, the CSS, the event bindings and `demo.launch` (webui.py:18-47, 86-112, 148-328). `SelectThenFill` only states what the `.select(...).then(...)` chain computes.
- `preview_file` reads a CSV through pandas (webui.py:115-124). That is I/O in a foreign library.
- In `add_item_fn`, the `print` call and the `gr.State` wrapper (webui.py:129, 145) are left out. Only the returned counter and list are modelled.
- `Debug.RecordToDict`: Python's `str()` on non-string record values is not modelled. Record values are taken to be strings already.
- `Debug.RecordToDict`: the insertion order of the result dict is not modelled. Dafny maps are unordered.
- The result is a fresh dict and the input is left unchanged. This holds by construction, since Dafny maps are immutable values. Aliasing of the input objects is not modelled.
- `Debug.Input`: a dict whose `record` or `field_mapping` is not itself a dict is not modelled. Both are typed as string maps.
- `WebUi.FillRuleForm`: negative indices are not modelled. pandas `iloc` would count them from the end, and the source does not guard against them. The index is a natural number.
- `WebUi.FillRuleForm`: the `row is None` test (webui.py:71-72) is not modelled. It cannot succeed for a row taken from a DataFrame.
- `WebUi.OnSelectRow`: only the Dataframe form of a selection index is modelled, a `[row, column]` pair. pandas and Gradio types are not modelled: the table is a sequence of string maps and a selection is an optional pair.
- The demonstration fixtures at the module level of the script (debug.py:24-55) are script state and are not modelled.

## Findings

| source | as written | input that shows it | evidently intended | confidence | as-written member | corrected member |
|---|---|---|---|---|---|---|
| webui.py:133-142 | the default rule uses the keys `筛选字段2`, `筛选条件2`, `关键字2` | a rule table whose rows are the rules built by `add_item_fn` (a DataFrame with the `new_rule` keys as columns, modelled as a sequence of maps), with row 0 selected: `fill_rule_form` raises `KeyError('（可选）筛选字段2')` at webui.py:79. `add_item_fn` is not bound to any event (the add button at webui.py:307-310 uses a lambda), and it wraps its list in `gr.State`, so the mismatch is latent | the comment at webui.py:132 says the keys must match the DataFrame columns, which are the `（可选）` names at webui.py:207-208 and webui.py:79-81; against this, the commented-out column list at webui.py:120 uses the same unprefixed names as `new_rule` | low; not executed | `WebUi.AddedRuleNotFillable` | `WebUi.AlignedRuleFills` |
