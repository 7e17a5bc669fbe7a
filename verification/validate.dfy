/**
 * The structural validator of a skill spec (`validate_spec` in code/validate.py)
 * and the check on a rendered SKILL.md (`validate_rendered_template`).
 *
 * The spec is the decoded JSON document; opening and decoding the file are
 * replaced by a `Document` that says what they produced. `validate_spec` appends
 * messages to one error list through a fixed sequence of checks; each group of
 * checks is specified by a function below, and `ValidateSpec` is proved to build
 * exactly their concatenation.
 */
module Validate {
  import opened Text
  import opened Json
  import Schema

  /** What opening and decoding the spec file produced. */
  datatype Document =
    | NotFound
    | BadJson(detail: string)
    | Parsed(spec: seq<Field>)

  /** The top-level fields every spec must have, in the order they are checked. */
  const RequiredFields: seq<string> :=
    ["name", "description", "triggers", "inputs", "guardrails", "procedure", "output_contract"]

  // ---------------------------------------------------------------------------
  // Messages (the f-strings of validate_spec)
  // ---------------------------------------------------------------------------

  function MissingMessage(field: string): string {
    "Missing required field: " + field
  }

  function EmptyMessage(field: string): string {
    "Field '" + field + "' cannot be empty"
  }

  function TooLongMessage(field: string, limit: nat, length: nat): string {
    "Field '" + field + "' must be " + NatToString(limit) + " characters or less (currently "
    + NatToString(length) + ")"
  }

  function NotArrayMessage(field: string): string {
    "Field '" + field + "' must be an array"
  }

  function TooFewMessage(field: string, min: nat): string {
    "Field '" + field + "' must have at least " + NatToString(min) + (if min == 1 then " item" else " items")
  }

  function NotObjectMessage(field: string): string {
    "Field '" + field + "' must be an object"
  }

  const ContractNotObject := NotObjectMessage("output_contract")
  const TitleMissing := "output_contract." + "title is required and cannot be empty"
  const SectionsNotArray := "output_contract." + "sections must be an array"
  const SectionsEmpty := "output_contract." + "sections must have at least 1 item"
  const HeadingsNotUnique := "Section headings must be unique"
  const CodeHelperNotObject := NotObjectMessage("code_helper")
  const ToolsNotArray := NotArrayMessage("mcp_tools")
  const ReferencesNotArray := NotArrayMessage("reference_files")

  function SectionNotObject(i: nat): string { "Section " + NatToString(i) + " must be an object" }
  function SectionNoHeading(i: nat): string { "Section " + NatToString(i) + " missing 'heading'" }
  function SectionNoRequired(i: nat): string { "Section " + NatToString(i) + " missing 'required' field" }
  function TableNotObject(i: nat): string { "Table " + NatToString(i) + " must be an object" }
  function TableNoColumns(i: nat): string { "Table " + NatToString(i) + " must have at least 1 column" }
  function TableDuplicateColumns(i: nat): string { "Table " + NatToString(i) + " has duplicate column names" }
  function ToolNotString(i: nat): string { "mcp_tools[" + NatToString(i) + "] must be a string" }

  function ToolBadFormat(i: nat, tool: string): string {
    "mcp_tools[" + NatToString(i) + "] must use format 'ServerName:tool_name', got: " + tool
  }

  function ReferenceNotObject(i: nat): string { "reference_files[" + NatToString(i) + "] must be an object" }

  function ReferenceBackslash(i: nat): string {
    "reference_files[" + NatToString(i) + "].path must use forward slashes, not backslashes"
  }

  // ---------------------------------------------------------------------------
  // The values the checks read, with the defaults `spec.get` supplies
  // ---------------------------------------------------------------------------

  function Heading(section: Json): Json
    requires section.Obj?
  {
    GetOr(section.fields, "heading", Null)
  }

  function Columns(table: Json): Json
    requires table.Obj?
  {
    GetOr(table.fields, "columns", Arr([]))
  }

  function RefPath(ref: Json): Json
    requires ref.Obj?
  {
    GetOr(ref.fields, "path", Str(""))
  }

  /** `[s.get("heading") for s in sections if isinstance(s, dict)]`. */
  function Headings(sections: seq<Json>): (r: seq<Json>)
    ensures |r| <= |sections|
  {
    if sections == [] then []
    else
      var last := sections[|sections| - 1];
      Headings(sections[..|sections| - 1]) + (if last.Obj? then [Heading(last)] else [])
  }

  /** Headings gathered from sections whose headings hash can all go into `set(headings)`. */
  lemma {:induction false} HeadingsHashable(sections: seq<Json>)
    requires forall k | 0 <= k < |sections| :: HeadingHashable(sections[k])
    ensures forall k | 0 <= k < |Headings(sections)| :: Hashable(Headings(sections)[k])
  {
    if sections != [] {
      HeadingsHashable(sections[..|sections| - 1]);
    }
  }

  /** `len(headings) == len(set(headings))`: no two collected headings hash alike. */
  predicate HeadingsDistinct(sections: seq<Json>)
    requires forall k | 0 <= k < |sections| :: HeadingHashable(sections[k])
  {
    HeadingsHashable(sections);
    DistinctValues(Headings(sections))
  }

  // ---------------------------------------------------------------------------
  // When validate_spec runs to completion
  // ---------------------------------------------------------------------------

  /** `not v or len(v) > limit` only measures a truthy `v`, which must then have a length. */
  predicate Measurable(v: Json) {
    Truthy(v) ==> Sized(v)
  }

  predicate HeadingHashable(section: Json) {
    section.Obj? ==> Hashable(Heading(section))
  }

  /** `set(columns)` needs hashable entries; `len(columns)` needs a sized value. */
  predicate TableAdmissible(table: Json) {
    table.Obj? ==>
      var columns := Columns(table);
      Truthy(columns) ==> Sized(columns) && forall k | 0 <= k < |Iter(columns)| :: Hashable(Iter(columns)[k])
  }

  /** `"\\" in path` needs a str, list or dict. */
  predicate ReferenceAdmissible(ref: Json) {
    ref.Obj? ==> Sized(RefPath(ref))
  }

  predicate ContractAdmissible(contract: Json) {
    contract.Obj? ==>
      var sections := GetOr(contract.fields, "sections", Arr([]));
      var tables := GetOr(contract.fields, "tables", Arr([]));
      (sections.Arr? ==> forall k | 0 <= k < |sections.items| :: HeadingHashable(sections.items[k]))
      && (Truthy(tables) && tables.Arr? ==> forall k | 0 <= k < |tables.items| :: TableAdmissible(tables.items[k]))
  }

  predicate ReferencesAdmissible(refs: Json) {
    Truthy(refs) && refs.Arr? ==> forall k | 0 <= k < |refs.items| :: ReferenceAdmissible(refs.items[k])
  }

  /**
   * The decoded specs on which `validate_spec` returns instead of raising a
   * TypeError (`len` of a number, `set` of a list of lists, `in` on a number).
   */
  predicate Admissible(spec: seq<Field>) {
    Measurable(GetOr(spec, "name", Str("")))
    && Measurable(GetOr(spec, "description", Str("")))
    && ContractAdmissible(GetOr(spec, "output_contract", Obj([])))
    && ReferencesAdmissible(GetOr(spec, "reference_files", Arr([])))
  }

  // ---------------------------------------------------------------------------
  // The checks, group by group
  // ---------------------------------------------------------------------------

  /** One message per field of `fields` that `spec` lacks, in the order of `fields`. */
  function MissingFieldErrors(spec: seq<Field>, fields: seq<string>): (r: seq<string>)
    ensures |r| <= |fields|
  {
    if fields == [] then []
    else
      var field := fields[|fields| - 1];
      MissingFieldErrors(spec, fields[..|fields| - 1]) + (if HasKey(spec, field) then [] else [MissingMessage(field)])
  }

  /** The checks on name and description: non-empty, and at most `limit` long. */
  function LengthErrors(field: string, value: Json, limit: nat): (r: seq<string>)
    requires Measurable(value)
  {
    if !Truthy(value) then [EmptyMessage(field)]
    else if Len(value) > limit then [TooLongMessage(field, limit, Len(value))]
    else []
  }

  /** The checks on triggers, inputs, guardrails and procedure: a list of at least `min` items. */
  function ArrayErrors(field: string, value: Json, min: nat): (r: seq<string>) {
    if !value.Arr? then [NotArrayMessage(field)]
    else if |value.items| < min then [TooFewMessage(field, min)]
    else []
  }

  function SectionErrors(i: nat, section: Json): (r: seq<string>) {
    if !section.Obj? then [SectionNotObject(i)]
    else
      (if Truthy(Heading(section)) then [] else [SectionNoHeading(i)])
      + (if HasKey(section.fields, "required") then [] else [SectionNoRequired(i)])
  }

  function SectionsErrors(sections: Json): (r: seq<string>)
    requires sections.Arr? ==> forall k | 0 <= k < |sections.items| :: HeadingHashable(sections.items[k])
  {
    if !sections.Arr? then [SectionsNotArray]
    else if |sections.items| == 0 then [SectionsEmpty]
    else
      (if HeadingsDistinct(sections.items) then [] else [HeadingsNotUnique])
      + Collect(sections.items, SectionErrors)
  }

  function TableErrors(i: nat, table: Json): (r: seq<string>)
    requires TableAdmissible(table)
  {
    if !table.Obj? then [TableNotObject(i)]
    else
      var columns := Columns(table);
      if !Truthy(columns) || Len(columns) == 0 then [TableNoColumns(i)]
      else if !DistinctValues(Iter(columns)) then [TableDuplicateColumns(i)]
      else []
  }

  /** Tables are optional: only a non-empty list is checked. */
  function TablesErrors(tables: Json): (r: seq<string>)
    requires Truthy(tables) && tables.Arr? ==> forall k | 0 <= k < |tables.items| :: TableAdmissible(tables.items[k])
  {
    if Truthy(tables) && tables.Arr? then Collect(tables.items, TableErrors) else []
  }

  function ContractErrors(contract: Json): (r: seq<string>)
    requires ContractAdmissible(contract)
  {
    if !contract.Obj? then [ContractNotObject]
    else
      (if Truthy(GetOr(contract.fields, "title", Null)) then [] else [TitleMissing])
      + SectionsErrors(GetOr(contract.fields, "sections", Arr([])))
      + TablesErrors(GetOr(contract.fields, "tables", Arr([])))
  }

  function CodeHelperErrors(spec: seq<Field>): (r: seq<string>) {
    if HasKey(spec, "code_helper") && !GetOr(spec, "code_helper", Null).Obj? then [CodeHelperNotObject] else []
  }

  function ToolErrors(i: nat, tool: Json): (r: seq<string>) {
    if !tool.Str? then [ToolNotString(i)]
    else if !Contains(tool.s, ":") then [ToolBadFormat(i, tool.s)]
    else []
  }

  function ToolsErrors(tools: Json): (r: seq<string>) {
    if !Truthy(tools) then []
    else if !tools.Arr? then [ToolsNotArray]
    else Collect(tools.items, ToolErrors)
  }

  function ReferenceErrors(i: nat, ref: Json): (r: seq<string>)
    requires ReferenceAdmissible(ref)
  {
    if !ref.Obj? then [ReferenceNotObject(i)]
    else if In("\\", RefPath(ref)) then [ReferenceBackslash(i)]
    else []
  }

  function ReferencesErrors(refs: Json): (r: seq<string>)
    requires ReferencesAdmissible(refs)
  {
    if !Truthy(refs) then []
    else if !refs.Arr? then [ReferencesNotArray]
    else Collect(refs.items, ReferenceErrors)
  }

  /** The checks on name, description, triggers, inputs, guardrails and procedure. */
  function FieldErrors(spec: seq<Field>): (r: seq<string>)
    requires Measurable(GetOr(spec, "name", Str(""))) && Measurable(GetOr(spec, "description", Str("")))
  {
    LengthErrors("name", GetOr(spec, "name", Str("")), 64)
    + LengthErrors("description", GetOr(spec, "description", Str("")), 1024)
    + ArrayErrors("triggers", GetOr(spec, "triggers", Arr([])), 2)
    + ArrayErrors("inputs", GetOr(spec, "inputs", Arr([])), 1)
    + ArrayErrors("guardrails", GetOr(spec, "guardrails", Arr([])), 1)
    + ArrayErrors("procedure", GetOr(spec, "procedure", Arr([])), 1)
  }

  /** Everything after the missing-field messages, in the order validate_spec checks it. */
  function ValueErrors(spec: seq<Field>): (r: seq<string>)
    requires Admissible(spec)
  {
    FieldErrors(spec)
    + ContractErrors(GetOr(spec, "output_contract", Obj([])))
    + CodeHelperErrors(spec)
    + ToolsErrors(GetOr(spec, "mcp_tools", Arr([])))
    + ReferencesErrors(GetOr(spec, "reference_files", Arr([])))
  }

  /** The error list `validate_spec` returns for a decoded spec. */
  function StructuralErrors(spec: seq<Field>): (r: seq<string>)
    requires Admissible(spec)
  {
    MissingFieldErrors(spec, RequiredFields) + ValueErrors(spec)
  }

  /** The error list `validate_spec` returns for whatever reading the file produced. */
  function SpecErrors(specPath: string, doc: Document): (r: seq<string>)
    requires doc.Parsed? ==> Admissible(doc.spec)
  {
    match doc
    case NotFound => ["Spec file not found: " + specPath]
    case BadJson(detail) => ["Invalid JSON: " + detail]
    case Parsed(spec) => StructuralErrors(spec)
  }

  // ---------------------------------------------------------------------------
  // validate_spec, one method per commented block of checks
  // ---------------------------------------------------------------------------

  /**
   * Runs the structural checks, appending each message as it is found. Only when
   * none was found are the best-practice warnings computed; they are reported in
   * `linted` (the source prints them) and never join `errors`.
   */
  method ValidateSpec(specPath: string, doc: Document) returns (errors: seq<string>, linted: Option<seq<string>>)
    requires doc.Parsed? ==> Admissible(doc.spec)
    requires doc.Parsed? && StructuralErrors(doc.spec) == [] ==> Schema.Admissible(doc.spec)
    ensures errors == SpecErrors(specPath, doc)
    ensures linted.Some? <==> doc.Parsed? && errors == []
    ensures linted.Some? ==> linted.value == Schema.BestPracticeWarnings(doc.spec)
  {
    linted := None;
    if doc.NotFound? {
      errors := ["Spec file not found: " + specPath];
      return;
    }
    if doc.BadJson? {
      errors := ["Invalid JSON: " + doc.detail];
      return;
    }
    var spec := doc.spec;
    var missing := CheckRequiredFields(spec);
    var fields := CheckFields(spec);
    var contract := CheckContract(GetOr(spec, "output_contract", Obj([])));
    var codeHelper := CheckCodeHelper(spec);
    var tools := CheckTools(GetOr(spec, "mcp_tools", Arr([])));
    var refs := CheckReferences(GetOr(spec, "reference_files", Arr([])));
    errors := missing + (fields + contract + codeHelper + tools + refs);

    if errors == [] {
      var warnings := Schema.ValidateBestPractices(spec);
      linted := Some(warnings);
    }
  }

  method CheckRequiredFields(spec: seq<Field>) returns (errors: seq<string>)
    ensures errors == MissingFieldErrors(spec, RequiredFields)
  {
    errors := [];
    for i := 0 to |RequiredFields|
      invariant errors == MissingFieldErrors(spec, RequiredFields[..i])
    {
      assert RequiredFields[..i + 1][..i] == RequiredFields[..i];
      if !HasKey(spec, RequiredFields[i]) {
        errors := errors + [MissingMessage(RequiredFields[i])];
      }
    }
    assert RequiredFields[..|RequiredFields|] == RequiredFields;
  }

  /** The name and description blocks: non-empty, then at most `limit` long. */
  method CheckLength(field: string, value: Json, limit: nat) returns (errors: seq<string>)
    requires Measurable(value)
    ensures errors == LengthErrors(field, value, limit)
  {
    errors := [];
    if !Truthy(value) {
      errors := errors + [EmptyMessage(field)];
    } else if Len(value) > limit {
      errors := errors + [TooLongMessage(field, limit, Len(value))];
    }
  }

  /** The triggers, inputs, guardrails and procedure blocks: a list, then at least `min` items. */
  method CheckArray(field: string, value: Json, min: nat) returns (errors: seq<string>)
    ensures errors == ArrayErrors(field, value, min)
  {
    errors := [];
    if !value.Arr? {
      errors := errors + [NotArrayMessage(field)];
    } else if |value.items| < min {
      errors := errors + [TooFewMessage(field, min)];
    }
  }

  method CheckFields(spec: seq<Field>) returns (errors: seq<string>)
    requires Measurable(GetOr(spec, "name", Str(""))) && Measurable(GetOr(spec, "description", Str("")))
    ensures errors == FieldErrors(spec)
  {
    errors := CheckLength("name", GetOr(spec, "name", Str("")), 64);
    var more := CheckLength("description", GetOr(spec, "description", Str("")), 1024);
    errors := errors + more;
    more := CheckArray("triggers", GetOr(spec, "triggers", Arr([])), 2);
    errors := errors + more;
    more := CheckArray("inputs", GetOr(spec, "inputs", Arr([])), 1);
    errors := errors + more;
    more := CheckArray("guardrails", GetOr(spec, "guardrails", Arr([])), 1);
    errors := errors + more;
    more := CheckArray("procedure", GetOr(spec, "procedure", Arr([])), 1);
    errors := errors + more;
  }

  method CheckContract(contract: Json) returns (errors: seq<string>)
    requires ContractAdmissible(contract)
    ensures errors == ContractErrors(contract)
  {
    if !contract.Obj? {
      errors := [ContractNotObject];
      return;
    }
    var titleErrors := if Truthy(GetOr(contract.fields, "title", Null)) then [] else [TitleMissing];
    var sections := GetOr(contract.fields, "sections", Arr([]));
    var sectionErrors := CheckSections(sections);
    var tables := GetOr(contract.fields, "tables", Arr([]));
    var tableErrors := CheckTables(tables);
    errors := titleErrors + sectionErrors + tableErrors;
  }

  method CheckSections(sections: Json) returns (errors: seq<string>)
    requires sections.Arr? ==> forall k | 0 <= k < |sections.items| :: HeadingHashable(sections.items[k])
    ensures errors == SectionsErrors(sections)
  {
    errors := [];
    if !sections.Arr? {
      errors := errors + [SectionsNotArray];
    } else if |sections.items| == 0 {
      errors := errors + [SectionsEmpty];
    } else {
      var items := sections.items;
      var headings := Headings(items);
      HeadingsHashable(items);
      if !DistinctValues(headings) {
        errors := errors + [HeadingsNotUnique];
      }
      var more := CheckSectionEntries(items);
      errors := errors + more;
    }
  }

  /** The per-section loop of the output-contract check: one entry at a time, in order. */
  method CheckSectionEntries(items: seq<Json>) returns (errors: seq<string>)
    ensures errors == Collect(items, SectionErrors)
  {
    errors := [];
    for i := 0 to |items|
      invariant errors == Collect(items[..i], SectionErrors)
    {
      CollectStep(items, SectionErrors, i);
      var section := items[i];
      if !section.Obj? {
        errors := errors + [SectionNotObject(i)];
        continue;
      }
      if !Truthy(GetOr(section.fields, "heading", Null)) {
        errors := errors + [SectionNoHeading(i)];
      }
      if !HasKey(section.fields, "required") {
        errors := errors + [SectionNoRequired(i)];
      }
    }
    assert items[..|items|] == items;
  }

  method CheckTables(tables: Json) returns (errors: seq<string>)
    requires Truthy(tables) && tables.Arr? ==> forall k | 0 <= k < |tables.items| :: TableAdmissible(tables.items[k])
    ensures errors == TablesErrors(tables)
  {
    errors := [];
    if Truthy(tables) && tables.Arr? {
      var items := tables.items;
      for i := 0 to |items|
        invariant errors == Collect(items[..i], TableErrors)
      {
        CollectStep(items, TableErrors, i);
        var table := items[i];
        if !table.Obj? {
          errors := errors + [TableNotObject(i)];
          continue;
        }
        var columns := GetOr(table.fields, "columns", Arr([]));
        if !Truthy(columns) || Len(columns) == 0 {
          errors := errors + [TableNoColumns(i)];
        } else if !DistinctValues(Iter(columns)) {
          errors := errors + [TableDuplicateColumns(i)];
        }
      }
      assert items[..|items|] == items;
    }
  }

  method CheckCodeHelper(spec: seq<Field>) returns (errors: seq<string>)
    ensures errors == CodeHelperErrors(spec)
  {
    errors := [];
    if HasKey(spec, "code_helper") {
      var codeHelper := GetOr(spec, "code_helper", Null);
      if !codeHelper.Obj? {
        errors := errors + [CodeHelperNotObject];
      }
    }
  }

  method CheckTools(tools: Json) returns (errors: seq<string>)
    ensures errors == ToolsErrors(tools)
  {
    errors := [];
    if Truthy(tools) {
      if !tools.Arr? {
        errors := errors + [ToolsNotArray];
      } else {
        var items := tools.items;
        for i := 0 to |items|
          invariant errors == Collect(items[..i], ToolErrors)
        {
          CollectStep(items, ToolErrors, i);
          var tool := items[i];
          if !tool.Str? {
            errors := errors + [ToolNotString(i)];
          } else if !Contains(tool.s, ":") {
            errors := errors + [ToolBadFormat(i, tool.s)];
          }
        }
        assert items[..|items|] == items;
      }
    }
  }

  method CheckReferences(refs: Json) returns (errors: seq<string>)
    requires ReferencesAdmissible(refs)
    ensures errors == ReferencesErrors(refs)
  {
    errors := [];
    if Truthy(refs) {
      if !refs.Arr? {
        errors := errors + [ReferencesNotArray];
      } else {
        var items := refs.items;
        for i := 0 to |items|
          invariant errors == Collect(items[..i], ReferenceErrors)
        {
          CollectStep(items, ReferenceErrors, i);
          var ref := items[i];
          if !ref.Obj? {
            errors := errors + [ReferenceNotObject(i)];
          } else if In("\\", GetOr(ref.fields, "path", Str(""))) {
            errors := errors + [ReferenceBackslash(i)];
          }
        }
        assert items[..|items|] == items;
      }
    }
  }

  // ---------------------------------------------------------------------------
  // validate_rendered_template
  // ---------------------------------------------------------------------------

  const UnresolvedPlaceholders := "Template contains unresolved placeholders"

  function LongTemplateMessage(lines: nat): string {
    "SKILL.md is " + NatToString(lines) + " lines (recommended: under 500). "
    + "Consider using progressive disclosure to split content into reference files."
  }

  /**
   * Flags leftover `{{`/`{%` markers first, then a template of more than 500
   * lines, that is, one with at least 500 line breaks. The spec argument is not
   * consulted.
   */
  method ValidateRenderedTemplate(template: string, spec: seq<Field>) returns (errors: seq<string>)
    ensures errors == (if Contains(template, "{{") || Contains(template, "{%") then [UnresolvedPlaceholders] else [])
                      + (if CountChar(template, '\n') >= 500 then [LongTemplateMessage(CountChar(template, '\n') + 1)] else [])
    ensures errors == [] <==> !Contains(template, "{{") && !Contains(template, "{%") && CountChar(template, '\n') < 500
  {
    errors := [];
    if Contains(template, "{{") || Contains(template, "{%") {
      errors := errors + [UnresolvedPlaceholders];
    }
    var lineCount := |Split(template, '\n')|;
    if lineCount > 500 {
      errors := errors + [LongTemplateMessage(lineCount)];
    }
  }
}
