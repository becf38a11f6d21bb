/**
 * The data helpers of the rule editor: the condition tokens offered in the
 * form, projecting a selected rule row into the form's eight inputs, the row
 * selection handler and the default rule added by the add-item handler.
 */
module WebUi {
  import opened Wrappers

  /** The condition tokens offered in both condition dropdowns; `''` means "no condition". */
  const DefaultConditionChoices: seq<string> := [
    "",
    "等于", "不等于",
    "为空", "不为空",
    "大于", "大于等于",
    "小于", "小于等于",
    "包含", "不包含",
    "开头是", "开头不是",
    "结尾是", "结尾不是",
    "正则匹配", "正则不匹配"
  ]

  /** There are 17 distinct tokens and the first is the empty one. */
  lemma ConditionChoicesShape()
    ensures |DefaultConditionChoices| == 17
    ensures DefaultConditionChoices[0] == ""
    ensures forall i, j :: 0 <= i < j < |DefaultConditionChoices| ==>
      DefaultConditionChoices[i] != DefaultConditionChoices[j]
  {
  }

  // The column names of the rule table.
  const Field1 := "筛选字段1"
  const Condition1 := "筛选条件1"
  const Keyword1 := "关键字1"
  const Logic := "关联条件"
  const Field2 := "（可选）筛选字段2"
  const Condition2 := "（可选）筛选条件2"
  const Keyword2 := "（可选）关键字2"
  const Label := "类别标签"

  /** The fixed order of the rule table's columns and of the form's inputs. */
  const RuleColumns: seq<string> := [Field1, Condition1, Keyword1, Logic, Field2, Condition2, Keyword2, Label]

  /** One row of the rule table: column name to cell text. */
  type Row = map<string, string>

  /** The exception a row lookup raises for a column the row does not have. */
  datatype Error = KeyError(key: string)

  /** The first position of `cols` that `row` has no entry for, if any. */
  function FirstMissing(row: Row, cols: seq<string>): (r: Option<nat>)
    ensures r.None? <==> forall k :: 0 <= k < |cols| ==> cols[k] in row
    ensures r.Some? ==> r.value < |cols| && cols[r.value] !in row
    ensures r.Some? ==> forall k :: 0 <= k < r.value ==> cols[k] in row
  {
    if cols == [] then None
    else if cols[0] !in row then Some(0)
    else match FirstMissing(row, cols[1..])
      case None => None
      case Some(k) => Some(k + 1)
  }

  /**
   * `fill_rule_form`: nothing for a missing or out-of-range index; otherwise
   * the selected row's cells in column order, or the `KeyError` of the first
   * column the row lacks.
   */
  function FillRuleForm(data: seq<Row>, index: Option<nat>): (r: Result<Option<seq<string>>, Error>)
    ensures (index.None? || index.value >= |data|) ==> r == Success(None)
    ensures r == Success(None) ==> index.None? || index.value >= |data|
    ensures r.Success? && r.value.Some? ==>
      && index.Some? && index.value < |data|
      && |r.value.value| == |RuleColumns|
      && forall k :: 0 <= k < |RuleColumns| ==>
           RuleColumns[k] in data[index.value] && r.value.value[k] == data[index.value][RuleColumns[k]]
    ensures (index.Some? && index.value < |data|) ==>
      (r.Success? <==> forall k :: 0 <= k < |RuleColumns| ==> RuleColumns[k] in data[index.value])
    ensures r.Failure? ==>
      && index.Some? && index.value < |data|
      && exists k :: 0 <= k < |RuleColumns| && r.error == KeyError(RuleColumns[k])
                  && RuleColumns[k] !in data[index.value]
                  && forall m :: 0 <= m < k ==> RuleColumns[m] in data[index.value]
  {
    if index.None? || index.value >= |data| then Success(None)
    else
      var row := data[index.value];
      match FirstMissing(row, RuleColumns)
      case Some(k) => Failure(KeyError(RuleColumns[k]))
      case None =>
        assert Field1 == RuleColumns[0] && Condition1 == RuleColumns[1] && Keyword1 == RuleColumns[2];
        assert Logic == RuleColumns[3] && Field2 == RuleColumns[4] && Condition2 == RuleColumns[5];
        assert Keyword2 == RuleColumns[6] && Label == RuleColumns[7];
        Success(Some([row[Field1], row[Condition1], row[Keyword1], row[Logic],
                      row[Field2], row[Condition2], row[Keyword2], row[Label]]))
  }

  /** Row selection without a cell, and with one (a `[row, column]` pair). */
  datatype CellIndex = CellIndex(row: nat, column: nat)
  datatype SelectData = SelectData(index: Option<CellIndex>)

  /** `on_select_row`: the selected row number, or nothing when no cell is selected. */
  function OnSelectRow(event: SelectData): (r: Option<nat>)
    ensures r.None? <==> event.index.None?
    ensures r.Some? ==> r.value == event.index.value.row
  {
    if event.index.None? then None else Some(event.index.value.row)
  }

  /**
   * Selecting a cell and then filling the form: with no cell selected nothing
   * is filled; selecting any cell of a complete row fills the form with that
   * row's eight cells, whichever column was clicked.
   */
  lemma SelectThenFill(data: seq<Row>, event: SelectData)
    ensures event.index.None? ==> FillRuleForm(data, OnSelectRow(event)) == Success(None)
    ensures event.index.Some? && event.index.value.row < |data|
            && (forall k :: 0 <= k < |RuleColumns| ==> RuleColumns[k] in data[event.index.value.row]) ==>
      var r := FillRuleForm(data, OnSelectRow(event));
      && r.Success? && r.value.Some? && |r.value.value| == |RuleColumns|
      && forall k :: 0 <= k < |RuleColumns| ==> r.value.value[k] == data[event.index.value.row][RuleColumns[k]]
  {
  }

  /** The default rule of `add_item_fn`, keyed as written in the source. */
  const NewRule: Row := map[
    "筛选字段1" := "",
    "筛选条件1" := DefaultConditionChoices[0],
    "关键字1" := "",
    "关联条件" := "且",
    "筛选字段2" := "",
    "筛选条件2" := DefaultConditionChoices[0],
    "关键字2" := "",
    "类别标签" := ""
  ]

  /**
   * `add_item_fn`: the next counter value and the rule list. The current data
   * is taken to be empty whatever `rulesData` holds, so the list is always the
   * default rule alone.
   */
  function AddItem(cnt: int, rulesData: seq<Row>): (int, seq<Row>) {
    var currentData: seq<Row> := [];
    (cnt + 1, currentData + [NewRule])
  }

  /**
   * The counter goes up by one and the list is exactly the default rule, for
   * any prior state: both conditions `''`, logic `且`, every other entry `''`.
   */
  lemma AddItemResult(cnt: int, rulesData: seq<Row>)
    ensures AddItem(cnt, rulesData).0 == cnt + 1
    ensures |AddItem(cnt, rulesData).1| == 1 && AddItem(cnt, rulesData).1 == [NewRule]
    ensures var rule := AddItem(cnt, rulesData).1[0];
      && rule.Keys == NewRule.Keys
      && rule["筛选条件1"] == rule["筛选条件2"] == DefaultConditionChoices[0] == ""
      && rule["关联条件"] == "且"
      && forall key :: key in rule && key !in {"筛选条件1", "筛选条件2", "关联条件"} ==> rule[key] == ""
    ensures forall other: seq<Row> :: AddItem(cnt, other) == AddItem(cnt, rulesData)
  {
  }

  /** Both conditions are the first token `''`, the logic is `且`, and every other entry is `''`. */
  lemma NewRuleDefaults()
    ensures NewRule.Keys == {"筛选字段1", "筛选条件1", "关键字1", "关联条件", "筛选字段2", "筛选条件2", "关键字2", "类别标签"}
    ensures NewRule["筛选条件1"] == NewRule["筛选条件2"] == DefaultConditionChoices[0] == ""
    ensures NewRule["关联条件"] == "且"
    ensures forall key :: key in NewRule && key !in {"筛选条件1", "筛选条件2", "关联条件"} ==> NewRule[key] == ""
  {
  }

  /**
   * A rule table made of the rules added as written cannot be loaded back into
   * the form: the rule lacks the `（可选）` columns, so the lookup of the fifth
   * column raises.
   */
  lemma AddedRuleNotFillable(cnt: int, rulesData: seq<Row>)
    ensures FillRuleForm(AddItem(cnt, rulesData).1, Some(0)) == Failure(KeyError(Field2))
  {
    assert RuleColumns[0] in NewRule && RuleColumns[1] in NewRule;
    assert RuleColumns[2] in NewRule && RuleColumns[3] in NewRule;
    assert RuleColumns[4] == Field2 && Field2 !in NewRule;
    var k := FirstMissing(NewRule, RuleColumns).value;
    assert k == 4;
  }

  /** The default rule keyed by the rule table's own columns. */
  const AlignedNewRule: Row := map[
    Field1 := "",
    Condition1 := DefaultConditionChoices[0],
    Keyword1 := "",
    Logic := "且",
    Field2 := "",
    Condition2 := DefaultConditionChoices[0],
    Keyword2 := "",
    Label := ""
  ]

  /** `add_item_fn` with the default rule keyed by the rule table's columns. */
  function AddItemAligned(cnt: int, rulesData: seq<Row>): (int, seq<Row>) {
    var currentData: seq<Row> := [];
    (cnt + 1, currentData + [AlignedNewRule])
  }

  /** The corrected default rule loads into the form as blank fields, blank conditions and logic `且`. */
  lemma AlignedRuleFills(cnt: int, rulesData: seq<Row>)
    ensures AddItemAligned(cnt, rulesData).0 == cnt + 1 && |AddItemAligned(cnt, rulesData).1| == 1
    ensures FillRuleForm(AddItemAligned(cnt, rulesData).1, Some(0))
         == Success(Some(["", DefaultConditionChoices[0], "", "且", "", DefaultConditionChoices[0], "", ""]))
  {
    var r := FillRuleForm(AddItemAligned(cnt, rulesData).1, Some(0));
    assert forall k :: 0 <= k < |RuleColumns| ==> RuleColumns[k] in AlignedNewRule;
    assert r.Success? && r.value.Some?;
  }
}
