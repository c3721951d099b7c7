# Custom query builder: filter-row rules

This project models the filter-row logic of an Angular query-builder UI. The
user picks an entity type ('Person' or 'Company'). That choice decides the
current field table. Each filter row then derives its widgets from that
table and from the field key the row has selected:

- the choices of the field select;
- the operators for the selected field's type;
- whether the free-text/number input or the enum dropdown shows, and the
  input's HTML type;
- the dropdown's choices.

It also models the in-memory backend's `createDb`, which turns schema records
into `{typeName, schema}` entries plus the list of type names.

Files:

- `query_fields.dfy`, module `QueryFields`: the field-definition entries, the
  built-in tables, the operator table, the first-match lookup `Find`, and the
  four derivation rules as functions of (table, selected key).
- `query_builder.dfy`, module `QueryBuilder`: the mutable state.
  - `FieldTable` is the module-level `fieldDefinitions` variable. It is one
    object that every component instance shares.
  - `CustomQueryBuilderComponent` holds the list of entity types and the
    selected-type form control, with `NgOnInit` and `OnTypeSelected`.
  - `TableAfterSelect` is the specification function of `OnTypeSelected`.
- `in_memory_data.dfy`, module `InMemoryData`: `createDb` over generic schema
  records `SchemaRecord<T>(title, body)`.

Naming and representation choices:

- `label` is a reserved word in Dafny, so a definition's and an option's
  label is the field `caption`.
- A definition's `type` string is the field `fieldType`.
- A row's selected field is an `Option<string>`. `None` stands for a form
  value that is still undefined, which matches no key.
- The enum `options` of a definition is an `Option<seq<string>>`, because
  non-enum entries have none.
- The type is kept as a string, as in the source. A type string other than
  the three declared ones gets `[]`, like the `|| []` fallback (see
  "## Left out" for the one case where JavaScript differs).

Each rule's contract is stated against the first matching entry. There are
two cases: `NoMatch(table, key)`, or `IsFirstMatch(table, key, i)` for an
index `i`. `FirstMatchExists` shows that these two cases cover every input.

## Model

| member | source | states |
|---|---|---|
| `QueryFields.BuiltInTables` | src/app/custom-query-builder/custom-query-builder.component.ts:6-15 | The initial table equals the 'Person' table of lines 186-195. Keys are pairwise distinct in both built-in tables. Every enum entry declares its options. |
| `QueryFields.BuiltInWellFormed` | src/app/custom-query-builder/custom-query-builder.component.ts:186-206 | Either table that selecting a type can install has distinct keys and declares its enum options, so the first-match lookup is unambiguous. |
| `QueryFields.OperatorsFor` | src/app/custom-query-builder/custom-query-builder.component.ts:19-42 | Among type strings that are not inherited object members, a type has operators iff it is string, number or enum. Every non-empty list starts with equals then not-equals. Enum offers exactly those two. |
| `QueryFields.OperatorTable` | src/app/custom-query-builder/custom-query-builder.component.ts:23-41 | String has 5 operators, number 6 and enum 2. No list repeats an operator value. The enum list is the first two of each of the other lists. |
| `QueryFields.Find` | src/app/custom-query-builder/custom-query-builder.component.ts:91-93 | The result is None iff no key matches the selection. Otherwise it is the entry at the first matching index. |
| `QueryFields.FirstMatchExists` | src/app/custom-query-builder/custom-query-builder.component.ts:91-93 | When some key matches, there is a first matching index. |
| `QueryFields.FindOwnKey` | src/app/custom-query-builder/custom-query-builder.component.ts:114-116 | With distinct keys, looking up an entry's own key finds that entry. |
| `QueryFields.FieldOptions` | src/app/custom-query-builder/custom-query-builder.component.ts:72-77 | Same length as the table. The i-th choice has value = key_i and label = label_i. |
| `QueryFields.FieldChoiceFindsItsDefinition` | src/app/custom-query-builder/custom-query-builder.component.ts:72-93 | With distinct keys, selecting the i-th offered field choice makes the lookup find entry i. |
| `QueryFields.OfferedIffFound` | src/app/custom-query-builder/custom-query-builder.component.ts:72-93 | A key is among the offered field choices iff the lookup for it finds an entry. |
| `QueryFields.OperatorOptions` | src/app/custom-query-builder/custom-query-builder.component.ts:90-100 | The operators of the first matching entry's type. Empty when nothing matches, including no selection. |
| `QueryFields.InputHidden` | src/app/custom-query-builder/custom-query-builder.component.ts:113-117 | The input is hidden iff the first matching entry is an enum. It is shown when nothing matches. |
| `QueryFields.SelectHidden` | src/app/custom-query-builder/custom-query-builder.component.ts:139-143 | The dropdown is hidden iff the first matching entry is not an enum. It is hidden when nothing matches. |
| `QueryFields.ExactlyOneValueWidget` | src/app/custom-query-builder/custom-query-builder.component.ts:113-143 | For every table and selection, exactly one of the two value widgets is hidden. |
| `QueryFields.InputType` | src/app/custom-query-builder/custom-query-builder.component.ts:119-124 | The type is 'number' or 'text'. It is 'number' iff the first matching entry is a number field. It is 'text' when nothing matches. |
| `QueryFields.NumberInputIsShown` | src/app/custom-query-builder/custom-query-builder.component.ts:113-124 | A 'number' input is the visible widget and the dropdown is hidden. |
| `QueryFields.Choices` | src/app/custom-query-builder/custom-query-builder.component.ts:151-154 | One choice per option, in order, with value = label = the option. |
| `QueryFields.EnumValueOptions` | src/app/custom-query-builder/custom-query-builder.component.ts:145-158 | Empty for an unmatched or non-enum field. For an enum field, one choice per declared option in order, with value = label = the option. A missing option list gives none. |
| `QueryFields.HiddenSelectIsEmpty` | src/app/custom-query-builder/custom-query-builder.component.ts:139-158 | A hidden dropdown offers no choices. |
| `QueryBuilder.TableAfterSelect` | src/app/custom-query-builder/custom-query-builder.component.ts:185-207 | 'Person' gives `PersonFields` (name/age/status). 'Company' gives `CompanyFields` (name/revenue/isActive). Any other type keeps the current table. A built-in table stays built in. |
| `QueryBuilder.SelectIdempotent` | src/app/custom-query-builder/custom-query-builder.component.ts:181-208 | Selecting the same type twice gives the same table as selecting it once. |
| `QueryBuilder.SelectKeepsTableWellFormed` | src/app/custom-query-builder/custom-query-builder.component.ts:185-207 | Selecting a type preserves distinct keys and declared enum options. |
| `QueryBuilder.StaleRowAfterSwitch` | src/app/custom-query-builder/custom-query-builder.component.ts:181-208 | After switching Person to Company, a row still set to 'age' finds no entry. It offers no operators, shows a text input and offers no dropdown choices. |
| `QueryBuilder.FieldTable.constructor` | src/app/custom-query-builder/custom-query-builder.component.ts:6-15 | The shared table starts as the name/age/status list, which is a built-in table (`Valid`). |
| `QueryBuilder.CustomQueryBuilderComponent.constructor` | src/app/custom-query-builder/custom-query-builder.component.ts:50 | The entity types are ['Person', 'Company'] (line 50). The selected type starts as '' (lines 165-169). The component uses the shared table it is given, which holds a built-in table, so the component starts valid. |
| `QueryBuilder.CustomQueryBuilderComponent.NgOnInit` | src/app/custom-query-builder/custom-query-builder.component.ts:171-175 | Sets the selected type to the first entity type when the list is non-empty. Otherwise it is unchanged. Nothing else changes. |
| `QueryBuilder.CustomQueryBuilderComponent.OnTypeSelected` | src/app/custom-query-builder/custom-query-builder.component.ts:181-208 | The shared table becomes `TableAfterSelect` of the old table and the selected type. Only the table changes. The table stays one of the two built-in tables. |
| `QueryBuilder.LoadAndSelectFirst` | src/app/custom-query-builder/custom-query-builder.component.ts:171-208 | A fresh component selects 'Person' on initialisation. Selecting it keeps the initial table. |
| `InMemoryData.Entries` | src/app/services/in-memory-data.service.ts:6-9 | One entry per record, in order. Entry i is named by record i's title and carries record i unchanged. |
| `InMemoryData.TypeNames` | src/app/services/in-memory-data.service.ts:10 | One name per entry, in order, equal to that entry's type name. |
| `InMemoryData.CreateDb` | src/app/services/in-memory-data.service.ts:5-12 | `schemas` has the input's length, and `typeNames` has the length of `schemas`. For each i, `typeNames[i] == schemas[i].typeName == input[i].title` and `schemas[i].schema == input[i]`. |
| `InMemoryData.RecordsRoundTrip` | src/app/services/in-memory-data.service.ts:8 | Projecting the entries back to their records gives exactly the input sequence. |
| `InMemoryData.TypeNamesAreTitles` | src/app/services/in-memory-data.service.ts:10-11 | The type names equal the record titles, in order, as defined independently by `Titles`. |
| `InMemoryData.EntriesNamedByTheirRecord` | src/app/services/in-memory-data.service.ts:7-8 | Every entry's type name is the title of the record it carries. |

## Left out

- The Angular and formly machinery is not modelled: decorators, the `FormBuilder`/`FormGroup` binding, how and when formly evaluates the `expressions` closures, and rendering. Instead, each closure is a function of (current table, selected key).
- The form value of a row may be a non-string in JavaScript. Such a value matches no key, just like `None`, so it is not modelled separately.
- `OnTypeSelected` does not model the unused `event` argument or the `console.log` call.
- OperatorsFor: the operator table is a plain JavaScript object, so a type string naming an inherited member of `Object.prototype` (such as "toString" or "constructor") would yield that member instead of `[]`. The model gives `[]`. No table the program builds holds such a type, since both built-in tables use only 'string', 'number' and 'enum', so this is unreachable.
- The query builder's `onSubmit` is left out because it only logs.
- `RepeatTypeComponent` is left out. Adding and removing filter rows comes entirely from the library's `FieldArrayType` base class, which is not part of this model.
- `app.module.ts` is left out because it is only module wiring.
- `AppComponent.onSubmit` and `SearchService` are left out because they are HTTP POST/GET wrappers, which is network I/O.
- The contents of `schemas.json` are not part of this model. `createDb` is modelled over any sequence of records with a title. The rest of each record is a type parameter.
