/**
 The stateful part of the custom query builder: the current field table
 (a single module-level variable that every component instance reads and
 that selecting an entity type replaces), and the component with its list
 of entity types and its selected-type form control.
 */
module QueryBuilder {
  import opened QueryFields

  /** The table the current entity type selects: 'Person' and 'Company' have
      built-in tables, any other type keeps the current one. */
  function TableAfterSelect(current: seq<FieldDef>, selectedType: string): (r: seq<FieldDef>)
    ensures selectedType == "Person" ==> r == PersonFields
    ensures selectedType == "Company" ==> r == CompanyFields
    ensures selectedType != "Person" && selectedType != "Company" ==> r == current
    ensures IsBuiltIn(current) ==> IsBuiltIn(r)
  {
    if selectedType == "Person" then PersonFields
    else if selectedType == "Company" then CompanyFields
    else current
  }

  /** Selecting the same type twice is the same as selecting it once. */
  lemma SelectIdempotent(current: seq<FieldDef>, selectedType: string)
    ensures TableAfterSelect(TableAfterSelect(current, selectedType), selectedType) == TableAfterSelect(current, selectedType)
  {
  }

  /** Selecting a type keeps the keys of the table distinct and every enum
      entry with its options, so the first-match lookup stays unambiguous. */
  lemma SelectKeepsTableWellFormed(current: seq<FieldDef>, selectedType: string)
    requires DistinctKeys(current) && EnumsDeclareOptions(current)
    ensures DistinctKeys(TableAfterSelect(current, selectedType))
    ensures EnumsDeclareOptions(TableAfterSelect(current, selectedType))
  {
    BuiltInTables();
  }

  /** A row whose field was picked under 'Person' and that no 'Company' entry
      has ('age') keeps its selection after switching to 'Company': it then
      offers no operators and shows a plain text input. */
  lemma StaleRowAfterSwitch(current: seq<FieldDef>)
    ensures var t := TableAfterSelect(TableAfterSelect(current, "Person"), "Company");
      && Find(t, Some("age")) == None
      && OperatorOptions(t, Some("age")) == []
      && !InputHidden(t, Some("age")) && InputType(t, Some("age")) == "text"
      && EnumValueOptions(t, Some("age")) == []
  {
    var t := TableAfterSelect(TableAfterSelect(current, "Person"), "Company");
    assert t == CompanyFields;
    assert NoMatch(t, Some("age"));
  }

  /** The module-level field table; one object shared by every component. */
  class FieldTable {
    var definitions: seq<FieldDef>

    /** The table only ever holds one of the built-in tables. */
    ghost predicate Valid()
      reads this
    {
      IsBuiltIn(definitions)
    }

    constructor ()
      ensures definitions == InitialFields
      ensures Valid()
    {
      definitions := InitialFields;
    }
  }

  class CustomQueryBuilderComponent {
    const fieldTable: FieldTable
    var options: seq<string>
    /** The value of the `selectedType` form control. */
    var selectedType: string

    /** The shared table every lookup runs against is a built-in one
        (so, by BuiltInWellFormed, its keys are distinct). */
    ghost predicate Valid()
      reads this, fieldTable
    {
      fieldTable.Valid()
    }

    /** The form starts with an empty selected type. */
    constructor (fieldTable: FieldTable)
      requires fieldTable.Valid()
      ensures Valid()
      ensures this.fieldTable == fieldTable
      ensures options == ["Person", "Company"]
      ensures selectedType == ""
    {
      this.fieldTable := fieldTable;
      options := ["Person", "Company"];
      selectedType := "";
    }

    /** Selects the first entity type, if there is one. */
    method NgOnInit()
      modifies this`selectedType
      ensures |options| > 0 ==> selectedType == options[0]
      ensures |options| == 0 ==> selectedType == old(selectedType)
    {
      if |options| > 0 {
        selectedType := options[0];
      }
    }

    /** Replaces the shared field table according to the selected type. */
    method OnTypeSelected()
      requires Valid()
      modifies fieldTable
      ensures Valid()
      ensures fieldTable.definitions == TableAfterSelect(old(fieldTable.definitions), selectedType)
    {
      var t := selectedType;
      if t == "Person" {
        fieldTable.definitions := PersonFields;
      } else if t == "Company" {
        fieldTable.definitions := CompanyFields;
      }
    }
  }

  /** A freshly loaded component: after initialisation 'Person' is selected,
      and selecting it leaves the initial table in place. */
  method LoadAndSelectFirst() returns (c: CustomQueryBuilderComponent)
    ensures fresh(c) && fresh(c.fieldTable)
    ensures c.selectedType == "Person"
    ensures c.fieldTable.definitions == PersonFields
    ensures c.Valid()
  {
    var table := new FieldTable();
    c := new CustomQueryBuilderComponent(table);
    c.NgOnInit();
    c.OnTypeSelected();
  }
}
