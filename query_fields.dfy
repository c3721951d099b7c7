/**
 The filter-row rules of the custom query builder: the field-definition
 tables, the operator table keyed by field type, the first-match lookup of
 a row's selected field, and the four rules that derive a row's widgets
 (field choices, operator choices, which value widget shows, and the
 choices of the enum dropdown) from the current table and the row's
 selected field key.
 */
module QueryFields {

  datatype Option<T> = None | Some(value: T)

  /** One entry of a field-definition table. `caption` is the entry's label,
      `fieldType` its type string ('string', 'number' or 'enum'), and
      `options` is present only for enum fields. */
  datatype FieldDef = FieldDef(key: string, caption: string, fieldType: string, options: Option<seq<string>>)

  /** A value/label pair as offered by a select widget (`caption` is the label). */
  datatype SelectOption = SelectOption(value: string, caption: string)

  const StringType := "string"
  const NumberType := "number"
  const EnumType := "enum"

  // ---------------------------------------------------------------------
  // Built-in field tables
  // ---------------------------------------------------------------------

  /** The table for 'Person'; it is also the table the module starts with. */
  const PersonFields: seq<FieldDef> := [
    FieldDef("name", "Name", StringType, None),
    FieldDef("age", "Age", NumberType, None),
    FieldDef("status", "Status", EnumType, Some(["Active", "Inactive", "Pending"]))
  ]

  /** The table for 'Company'. */
  const CompanyFields: seq<FieldDef> := [
    FieldDef("name", "Name", StringType, None),
    FieldDef("revenue", "Revenue", NumberType, None),
    FieldDef("isActive", "Is active", EnumType, Some(["yes", "no"]))
  ]

  /** The table the module-level variable holds before any type is selected. */
  const InitialFields: seq<FieldDef> := [
    FieldDef("name", "Name", StringType, None),
    FieldDef("age", "Age", NumberType, None),
    FieldDef("status", "Status", EnumType, Some(["Active", "Inactive", "Pending"]))
  ]

  ghost predicate DistinctKeys(table: seq<FieldDef>) {
    forall i, j :: 0 <= i < j < |table| ==> table[i].key != table[j].key
  }

  /** Every enum entry declares its options. */
  ghost predicate EnumsDeclareOptions(table: seq<FieldDef>) {
    forall i :: 0 <= i < |table| && table[i].fieldType == EnumType ==> table[i].options.Some?
  }

  /** The table is one of the two tables the program ever assigns. */
  predicate IsBuiltIn(table: seq<FieldDef>) {
    table == PersonFields || table == CompanyFields
  }

  /** A built-in table has distinct keys and declares every enum's options. */
  lemma BuiltInWellFormed(table: seq<FieldDef>)
    requires IsBuiltIn(table)
    ensures DistinctKeys(table) && EnumsDeclareOptions(table)
  {
    BuiltInTables();
  }

  lemma BuiltInTables()
    ensures InitialFields == PersonFields
    ensures DistinctKeys(PersonFields) && DistinctKeys(CompanyFields)
    ensures EnumsDeclareOptions(PersonFields) && EnumsDeclareOptions(CompanyFields)
  {
  }

  // ---------------------------------------------------------------------
  // Operator table
  // ---------------------------------------------------------------------

  const EqualsOp := SelectOption("equals", "Equals")
  const NotEqualsOp := SelectOption("not-equals", "Not Equals")

  const StringOperators: seq<SelectOption> := [
    EqualsOp,
    NotEqualsOp,
    SelectOption("startsWith", "Starts With"),
    SelectOption("endsWith", "Ends With"),
    SelectOption("contains", "Contains")
  ]

  const NumberOperators: seq<SelectOption> := [
    EqualsOp,
    NotEqualsOp,
    SelectOption("greater-than", "Greater Than"),
    SelectOption("less-than", "Less Than"),
    SelectOption("greater-equal", "Greater or Equal"),
    SelectOption("less-equal", "Less or Equal")
  ]

  const EnumOperators: seq<SelectOption> := [EqualsOp, NotEqualsOp]

  /** The operators of a field type, in declared order, and the empty list
      for a type the operator table does not know. */
  function OperatorsFor(t: string): (r: seq<SelectOption>)
    ensures r != [] <==> t == StringType || t == NumberType || t == EnumType
    ensures r != [] ==> |r| >= 2 && r[0] == EqualsOp && r[1] == NotEqualsOp
    ensures t == EnumType ==> r == [EqualsOp, NotEqualsOp]
  {
    if t == StringType then StringOperators
    else if t == NumberType then NumberOperators
    else if t == EnumType then EnumOperators
    else []
  }

  ghost predicate DistinctValues(ops: seq<SelectOption>) {
    forall i, j :: 0 <= i < j < |ops| ==> ops[i].value != ops[j].value
  }

  /** The sizes of the three operator lists, that no list offers the same
      operator twice, and that the enum operators are a prefix of the other two. */
  lemma OperatorTable()
    ensures |OperatorsFor(StringType)| == 5 && |OperatorsFor(NumberType)| == 6 && |OperatorsFor(EnumType)| == 2
    ensures DistinctValues(OperatorsFor(StringType))
    ensures DistinctValues(OperatorsFor(NumberType))
    ensures DistinctValues(OperatorsFor(EnumType))
    ensures OperatorsFor(EnumType) == OperatorsFor(StringType)[..2] == OperatorsFor(NumberType)[..2]
  {
  }

  // ---------------------------------------------------------------------
  // First-match lookup of the row's selected field
  // ---------------------------------------------------------------------

  /** An entry matches when its key equals the row's selected field; an
      undefined selection (None) matches no key. */
  predicate Matches(f: FieldDef, selected: Option<string>) {
    selected == Some(f.key)
  }

  ghost predicate NoMatch(table: seq<FieldDef>, selected: Option<string>) {
    forall i :: 0 <= i < |table| ==> !Matches(table[i], selected)
  }

  /** Entry i is the first entry whose key matches. */
  ghost predicate IsFirstMatch(table: seq<FieldDef>, selected: Option<string>, i: int) {
    && 0 <= i < |table|
    && Matches(table[i], selected)
    && forall j :: 0 <= j < i ==> !Matches(table[j], selected)
  }

  /** The lookup every rule performs: the first entry whose key matches. */
  function Find(table: seq<FieldDef>, selected: Option<string>): (r: Option<FieldDef>)
    ensures r.None? <==> NoMatch(table, selected)
    ensures forall i :: IsFirstMatch(table, selected, i) ==> r == Some(table[i])
  {
    if table == [] then None
    else if Matches(table[0], selected) then Some(table[0])
    else
      var r := Find(table[1..], selected);
      assert forall i :: IsFirstMatch(table, selected, i) ==> IsFirstMatch(table[1..], selected, i - 1);
      r
  }

  /** Whenever some key matches there is a first one, so the two cases of
      Find's contract cover every selection. */
  lemma {:induction false} FirstMatchExists(table: seq<FieldDef>, selected: Option<string>)
    requires !NoMatch(table, selected)
    ensures exists i :: IsFirstMatch(table, selected, i)
  {
    if Matches(table[0], selected) {
      assert IsFirstMatch(table, selected, 0);
    } else {
      assert !NoMatch(table[1..], selected) by {
        var k :| 0 <= k < |table| && Matches(table[k], selected);
        assert table[1..][k - 1] == table[k];
      }
      FirstMatchExists(table[1..], selected);
      var i :| IsFirstMatch(table[1..], selected, i);
      assert IsFirstMatch(table, selected, i + 1);
    }
  }

  /** With distinct keys, selecting an entry's key finds exactly that entry. */
  lemma FindOwnKey(table: seq<FieldDef>, i: int)
    requires DistinctKeys(table)
    requires 0 <= i < |table|
    ensures Find(table, Some(table[i].key)) == Some(table[i])
  {
    assert IsFirstMatch(table, Some(table[i].key), i);
  }

  // ---------------------------------------------------------------------
  // Rule 1: the choices of the field select
  // ---------------------------------------------------------------------

  /** The field select offers one choice per table entry, in table order:
      the entry's key as value and its label as caption. */
  function FieldOptions(table: seq<FieldDef>): (r: seq<SelectOption>)
    ensures |r| == |table|
    ensures forall i :: 0 <= i < |r| ==> r[i].value == table[i].key && r[i].caption == table[i].caption
  {
    if table == [] then [] else [SelectOption(table[0].key, table[0].caption)] + FieldOptions(table[1..])
  }

  /** Picking any offered field choice selects its own definition. */
  lemma FieldChoiceFindsItsDefinition(table: seq<FieldDef>, i: int)
    requires DistinctKeys(table)
    requires 0 <= i < |table|
    ensures i < |FieldOptions(table)|
    ensures Find(table, Some(FieldOptions(table)[i].value)) == Some(table[i])
  {
    FindOwnKey(table, i);
  }

  /** Some choice in the list has this value. */
  ghost predicate Offers(choices: seq<SelectOption>, value: string) {
    exists i :: 0 <= i < |choices| && choices[i].value == value
  }

  /** A selection names an offered field choice iff the lookup finds an entry. */
  lemma OfferedIffFound(table: seq<FieldDef>, key: string)
    ensures Offers(FieldOptions(table), key) <==> Find(table, Some(key)).Some?
  {
    var choices := FieldOptions(table);
    if Find(table, Some(key)).Some? {
      assert !NoMatch(table, Some(key));
      var k :| 0 <= k < |table| && Matches(table[k], Some(key));
      assert choices[k].value == key;
    } else {
      assert NoMatch(table, Some(key));
      forall i | 0 <= i < |choices| ensures choices[i].value != key {
        assert !Matches(table[i], Some(key));
      }
    }
  }

  // ---------------------------------------------------------------------
  // Rule 2: the choices of the operator select
  // ---------------------------------------------------------------------

  function OperatorOptions(table: seq<FieldDef>, selected: Option<string>): (r: seq<SelectOption>)
    ensures NoMatch(table, selected) ==> r == []
    ensures forall i :: IsFirstMatch(table, selected, i) ==> r == OperatorsFor(table[i].fieldType)
  {
    match Find(table, selected)
    case Some(f) => OperatorsFor(f.fieldType)
    case None => []
  }

  // ---------------------------------------------------------------------
  // Rule 3: which value widget shows, and the input's HTML type
  // ---------------------------------------------------------------------

  /** Whether the text/number input is hidden: only for an enum field. */
  function InputHidden(table: seq<FieldDef>, selected: Option<string>): (r: bool)
    ensures NoMatch(table, selected) ==> !r
    ensures forall i :: IsFirstMatch(table, selected, i) ==> (r <==> table[i].fieldType == EnumType)
  {
    match Find(table, selected)
    case Some(f) => f.fieldType == EnumType
    case None => false
  }

  /** Whether the enum dropdown is hidden: for every selection that is not
      an enum field, including an unmatched one. */
  function SelectHidden(table: seq<FieldDef>, selected: Option<string>): (r: bool)
    ensures NoMatch(table, selected) ==> r
    ensures forall i :: IsFirstMatch(table, selected, i) ==> (r <==> table[i].fieldType != EnumType)
  {
    match Find(table, selected)
    case Some(f) => f.fieldType != EnumType
    case None => true
  }

  /** For every selection exactly one of the two value widgets shows. */
  lemma ExactlyOneValueWidget(table: seq<FieldDef>, selected: Option<string>)
    ensures InputHidden(table, selected) != SelectHidden(table, selected)
  {
  }

  /** The HTML type of the input: 'number' for a number field, else 'text'. */
  function InputType(table: seq<FieldDef>, selected: Option<string>): (r: string)
    ensures r == "number" || r == "text"
    ensures NoMatch(table, selected) ==> r == "text"
    ensures forall i :: IsFirstMatch(table, selected, i) ==> (r == "number" <==> table[i].fieldType == NumberType)
  {
    match Find(table, selected)
    case Some(f) => if f.fieldType == NumberType then "number" else "text"
    case None => "text"
  }

  /** A number input is never the hidden widget. */
  lemma NumberInputIsShown(table: seq<FieldDef>, selected: Option<string>)
    requires InputType(table, selected) == "number"
    ensures !InputHidden(table, selected) && SelectHidden(table, selected)
  {
  }

  // ---------------------------------------------------------------------
  // Rule 4: the choices of the enum dropdown
  // ---------------------------------------------------------------------

  /** One dropdown choice per declared option, value and caption both the option. */
  function Choices(options: seq<string>): (r: seq<SelectOption>)
    ensures |r| == |options|
    ensures forall k :: 0 <= k < |r| ==> r[k].value == options[k] && r[k].caption == options[k]
  {
    if options == [] then [] else [SelectOption(options[0], options[0])] + Choices(options[1..])
  }

  /** The declared options of an entry; an entry without an option list has none. */
  function DeclaredOptions(f: FieldDef): seq<string> {
    match f.options
    case Some(opts) => opts
    case None => []
  }

  function EnumValueOptions(table: seq<FieldDef>, selected: Option<string>): (r: seq<SelectOption>)
    ensures NoMatch(table, selected) ==> r == []
    ensures forall i :: IsFirstMatch(table, selected, i) && table[i].fieldType != EnumType ==> r == []
    ensures forall i :: IsFirstMatch(table, selected, i) && table[i].fieldType == EnumType ==>
      && |r| == |DeclaredOptions(table[i])|
      && forall k :: 0 <= k < |r| ==> r[k].value == DeclaredOptions(table[i])[k] == r[k].caption
  {
    match Find(table, selected)
    case Some(f) => if f.fieldType == EnumType then Choices(DeclaredOptions(f)) else []
    case None => []
  }

  /** The dropdown, when hidden, offers nothing. */
  lemma HiddenSelectIsEmpty(table: seq<FieldDef>, selected: Option<string>)
    requires SelectHidden(table, selected)
    ensures EnumValueOptions(table, selected) == []
  {
  }
}
