/**
 * What `validate_spec` promises about its error list: which inputs give which
 * messages, how many, and in what order.
 */
module ValidateProperties {
  import opened Text
  import opened Json
  import opened Validate
  import Schema

  /** Every message of `ms` is non-empty and does not start with `c`. */
  predicate NoneStartWith(ms: seq<string>, c: char) {
    forall m | m in ms :: m != [] && m[0] != c
  }

  lemma NoneStartWithConcat(a: seq<string>, b: seq<string>, c: char)
    requires NoneStartWith(a, c) && NoneStartWith(b, c)
    ensures NoneStartWith(a + b, c)
  {
  }

  /** The validator's own list of required fields is the schema's. */
  lemma RequiredListsAgree()
    ensures RequiredFields == Schema.SchemaRequired
  {
  }

  // ---------------------------------------------------------------------------
  // Missing required fields
  // ---------------------------------------------------------------------------

  lemma MissingMessageInjective(a: string, b: string)
    requires MissingMessage(a) == MissingMessage(b)
    ensures a == b
  {
    assert a == MissingMessage(a)[24..];
    assert b == MissingMessage(b)[24..];
  }

  /** For a list without repetitions, each absent field gets its message exactly once, and nothing else is reported. */
  lemma {:induction false} MissingFieldCount(spec: seq<Field>, fields: seq<string>, f: string)
    requires forall i, j | 0 <= i < j < |fields| :: fields[i] != fields[j]
    ensures multiset(MissingFieldErrors(spec, fields))[MissingMessage(f)]
            == if f in fields && !HasKey(spec, f) then 1 else 0
  {
    if fields != [] {
      var init := fields[..|fields| - 1];
      var last := fields[|fields| - 1];
      MissingFieldCount(spec, init, f);
      if MissingMessage(last) == MissingMessage(f) {
        MissingMessageInjective(last, f);
        assert f !in init;
      }
      assert f in fields <==> f in init || f == last;
    }
  }

  lemma {:induction false} MissingFieldMessages(spec: seq<Field>, fields: seq<string>)
    ensures NoneStartWith(MissingFieldErrors(spec, fields), 'F')
    ensures forall m | m in MissingFieldErrors(spec, fields) :: m != [] && m[0] == 'M'
  {
    if fields != [] {
      MissingFieldMessages(spec, fields[..|fields| - 1]);
    }
  }

  lemma SectionMessages(i: nat, section: Json)
    ensures NoneStartWith(SectionErrors(i, section), 'M')
  {
  }

  lemma TableMessages(i: nat, table: Json)
    requires TableAdmissible(table)
    ensures NoneStartWith(TableErrors(i, table), 'M')
  {
  }

  lemma ToolMessages(i: nat, tool: Json)
    ensures NoneStartWith(ToolErrors(i, tool), 'M')
  {
  }

  lemma ReferenceMessages(i: nat, ref: Json)
    requires ReferenceAdmissible(ref)
    ensures NoneStartWith(ReferenceErrors(i, ref), 'M')
  {
  }

  /** Lifts a fact about each entry's messages to the collected messages. */
  lemma CollectNoneStartWith(xs: seq<Json>, check: (nat, Json) --> seq<string>, c: char)
    requires forall k | 0 <= k < |xs| :: check.requires(k, xs[k])
    requires forall k | 0 <= k < |xs| :: NoneStartWith(check(k, xs[k]), c)
    ensures NoneStartWith(Collect(xs, check), c)
  {
    forall m | m in Collect(xs, check)
      ensures m != [] && m[0] != c
    {
      CollectMember(xs, check, m);
    }
  }

  /** The fixed messages about the output contract and the optional fields: none opens with 'M'. */
  lemma ConstantInitials()
    ensures TitleMissing[0] == 'o' && SectionsNotArray[0] == 'o' && SectionsEmpty[0] == 'o'
    ensures ContractNotObject[0] == 'F' && CodeHelperNotObject[0] == 'F'
    ensures ToolsNotArray[0] == 'F' && ReferencesNotArray[0] == 'F'
    ensures HeadingsNotUnique[0] == 'S'
  {
    InitialOf("output_contract.", "title is required and cannot be empty");
    InitialOf("output_contract.", "sections must be an array");
    InitialOf("output_contract.", "sections must have at least 1 item");
    FieldMessageInitials("output_contract", 0, 0, 0);
    FieldMessageInitials("code_helper", 0, 0, 0);
    FieldMessageInitials("mcp_tools", 0, 0, 0);
    FieldMessageInitials("reference_files", 0, 0, 0);
  }

  lemma SectionsMessages(sections: Json)
    requires sections.Arr? ==> forall k | 0 <= k < |sections.items| :: HeadingHashable(sections.items[k])
    ensures NoneStartWith(SectionsErrors(sections), 'M')
  {
    if sections.Arr? && sections.items != [] {
      forall k | 0 <= k < |sections.items| ensures NoneStartWith(SectionErrors(k, sections.items[k]), 'M') {
        SectionMessages(k, sections.items[k]);
      }
      CollectNoneStartWith(sections.items, SectionErrors, 'M');
      var unique := if HeadingsDistinct(sections.items) then [] else [HeadingsNotUnique];
      assert NoneStartWith(unique, 'M');
      NoneStartWithConcat(unique, Collect(sections.items, SectionErrors), 'M');
      assert SectionsErrors(sections) == unique + Collect(sections.items, SectionErrors);
    } else if sections.Arr? {
      ConstantInitials();
      assert SectionsErrors(sections) == [SectionsEmpty];
    } else {
      ConstantInitials();
      assert SectionsErrors(sections) == [SectionsNotArray];
    }
  }

  lemma TablesMessages(tables: Json)
    requires Truthy(tables) && tables.Arr? ==> forall k | 0 <= k < |tables.items| :: TableAdmissible(tables.items[k])
    ensures NoneStartWith(TablesErrors(tables), 'M')
  {
    if Truthy(tables) && tables.Arr? {
      forall k | 0 <= k < |tables.items| ensures NoneStartWith(TableErrors(k, tables.items[k]), 'M') {
        TableMessages(k, tables.items[k]);
      }
      CollectNoneStartWith(tables.items, TableErrors, 'M');
    }
  }

  lemma ContractMessages(contract: Json)
    requires ContractAdmissible(contract)
    ensures NoneStartWith(ContractErrors(contract), 'M')
  {
    ConstantInitials();
    if contract.Obj? {
      var title := if Truthy(GetOr(contract.fields, "title", Null)) then [] else [TitleMissing];
      var sections := SectionsErrors(GetOr(contract.fields, "sections", Arr([])));
      var tables := TablesErrors(GetOr(contract.fields, "tables", Arr([])));
      SectionsMessages(GetOr(contract.fields, "sections", Arr([])));
      TablesMessages(GetOr(contract.fields, "tables", Arr([])));
      NoneStartWithConcat(title, sections, 'M');
      NoneStartWithConcat(title + sections, tables, 'M');
    }
  }

  lemma ToolsMessages(tools: Json)
    ensures NoneStartWith(ToolsErrors(tools), 'M')
  {
    ConstantInitials();
    if Truthy(tools) && tools.Arr? {
      forall k | 0 <= k < |tools.items| ensures NoneStartWith(ToolErrors(k, tools.items[k]), 'M') {
        ToolMessages(k, tools.items[k]);
      }
      CollectNoneStartWith(tools.items, ToolErrors, 'M');
    }
  }

  lemma ReferencesMessages(refs: Json)
    requires ReferencesAdmissible(refs)
    ensures NoneStartWith(ReferencesErrors(refs), 'M')
  {
    ConstantInitials();
    if Truthy(refs) && refs.Arr? {
      forall k | 0 <= k < |refs.items| ensures NoneStartWith(ReferenceErrors(k, refs.items[k]), 'M') {
        ReferenceMessages(k, refs.items[k]);
      }
      CollectNoneStartWith(refs.items, ReferenceErrors, 'M');
    }
  }

  /** A message built by appending to a non-empty prefix starts with the prefix's first letter. */
  lemma InitialOf(prefix: string, rest: string)
    requires prefix != []
    ensures prefix + rest != [] && (prefix + rest)[0] == prefix[0]
  {
  }

  lemma FieldMessageInitials(field: string, limit: nat, length: nat, min: nat)
    ensures EmptyMessage(field) != [] && EmptyMessage(field)[0] == 'F'
    ensures TooLongMessage(field, limit, length) != [] && TooLongMessage(field, limit, length)[0] == 'F'
    ensures NotArrayMessage(field) != [] && NotArrayMessage(field)[0] == 'F'
    ensures TooFewMessage(field, min) != [] && TooFewMessage(field, min)[0] == 'F'
    ensures NotObjectMessage(field) != [] && NotObjectMessage(field)[0] == 'F'
  {
    InitialOf("Field '", field);
    var p := "Field '" + field;
    InitialOf(p, "' cannot be empty");
    InitialOf(p, "' must be an array");
    InitialOf(p, "' must be an object");
    InitialOf(p, "' must be ");
    var q := p + "' must be ";
    InitialOf(q, NatToString(limit));
    var r := q + NatToString(limit);
    InitialOf(r, " characters or less (currently ");
    var t := r + " characters or less (currently ";
    InitialOf(t, NatToString(length));
    InitialOf(t + NatToString(length), ")");
    InitialOf(p, "' must have at least ");
    var u := p + "' must have at least ";
    InitialOf(u, NatToString(min));
    InitialOf(u + NatToString(min), if min == 1 then " item" else " items");
  }

  lemma LengthMessages(field: string, value: Json, limit: nat)
    requires Measurable(value)
    ensures NoneStartWith(LengthErrors(field, value, limit), 'M')
  {
    if Truthy(value) {
      FieldMessageInitials(field, limit, Len(value), 0);
    } else {
      FieldMessageInitials(field, limit, 0, 0);
    }
  }

  lemma ArrayMessages(field: string, value: Json, min: nat)
    ensures NoneStartWith(ArrayErrors(field, value, min), 'M')
  {
    FieldMessageInitials(field, 0, 0, min);
  }

  lemma FieldMessages(spec: seq<Field>)
    requires Measurable(GetOr(spec, "name", Str(""))) && Measurable(GetOr(spec, "description", Str("")))
    ensures NoneStartWith(FieldErrors(spec), 'M')
  {
    var name := LengthErrors("name", GetOr(spec, "name", Str("")), 64);
    var desc := LengthErrors("description", GetOr(spec, "description", Str("")), 1024);
    var triggers := ArrayErrors("triggers", GetOr(spec, "triggers", Arr([])), 2);
    var inputs := ArrayErrors("inputs", GetOr(spec, "inputs", Arr([])), 1);
    var guardrails := ArrayErrors("guardrails", GetOr(spec, "guardrails", Arr([])), 1);
    var procedure := ArrayErrors("procedure", GetOr(spec, "procedure", Arr([])), 1);
    LengthMessages("name", GetOr(spec, "name", Str("")), 64);
    LengthMessages("description", GetOr(spec, "description", Str("")), 1024);
    ArrayMessages("triggers", GetOr(spec, "triggers", Arr([])), 2);
    ArrayMessages("inputs", GetOr(spec, "inputs", Arr([])), 1);
    ArrayMessages("guardrails", GetOr(spec, "guardrails", Arr([])), 1);
    ArrayMessages("procedure", GetOr(spec, "procedure", Arr([])), 1);
    NoneStartWithConcat(name, desc, 'M');
    NoneStartWithConcat(name + desc, triggers, 'M');
    NoneStartWithConcat(name + desc + triggers, inputs, 'M');
    NoneStartWithConcat(name + desc + triggers + inputs, guardrails, 'M');
    NoneStartWithConcat(name + desc + triggers + inputs + guardrails, procedure, 'M');
    assert FieldErrors(spec) == name + desc + triggers + inputs + guardrails + procedure;
  }

  /** No message after the missing-field block starts like a missing-field message. */
  lemma ValueMessages(spec: seq<Field>)
    requires Admissible(spec)
    ensures NoneStartWith(ValueErrors(spec), 'M')
  {
    assert NoneStartWith(CodeHelperErrors(spec), 'M') by {
      ConstantInitials();
    }
    FieldMessages(spec);
    ContractMessages(GetOr(spec, "output_contract", Obj([])));
    ToolsMessages(GetOr(spec, "mcp_tools", Arr([])));
    ReferencesMessages(GetOr(spec, "reference_files", Arr([])));
    NoneStartWithFive(FieldErrors(spec), ContractErrors(GetOr(spec, "output_contract", Obj([]))), CodeHelperErrors(spec),
                      ToolsErrors(GetOr(spec, "mcp_tools", Arr([]))), ReferencesErrors(GetOr(spec, "reference_files", Arr([]))), 'M');
  }

  lemma NoneStartWithFive(a: seq<string>, b: seq<string>, c: seq<string>, d: seq<string>, e: seq<string>, ch: char)
    requires NoneStartWith(a, ch) && NoneStartWith(b, ch) && NoneStartWith(c, ch)
    requires NoneStartWith(d, ch) && NoneStartWith(e, ch)
    ensures NoneStartWith(a + b + c + d + e, ch)
  {
    NoneStartWithConcat(a, b, ch);
    NoneStartWithConcat(a + b, c, ch);
    NoneStartWithConcat(a + b + c, d, ch);
    NoneStartWithConcat(a + b + c + d, e, ch);
  }

  /** Appending messages that do not include `m` leaves the count of `m` and the prefix alone. */
  lemma CountAfterConcat(a: seq<string>, b: seq<string>, m: string)
    requires m !in b
    ensures (a + b)[..|a|] == a
    ensures multiset(a + b)[m] == multiset(a)[m]
  {
    assert multiset(a + b) == multiset(a) + multiset(b);
  }

  /** The required fields have pairwise different lengths, so none is listed twice. */
  lemma RequiredFieldsDistinct()
    ensures forall i, j | 0 <= i < j < |RequiredFields| :: RequiredFields[i] != RequiredFields[j]
  {
    var lengths := [4, 11, 8, 6, 10, 9, 15];
    assert forall i | 0 <= i < |RequiredFields| :: |RequiredFields[i]| == lengths[i];
  }

  /**
   * The missing-field messages open the list, and each absent required field is
   * reported exactly once.
   */
  lemma MissingFieldsReportedOnce(spec: seq<Field>, f: string)
    requires Admissible(spec)
    requires f in RequiredFields
    ensures StructuralErrors(spec)[..|MissingFieldErrors(spec, RequiredFields)|] == MissingFieldErrors(spec, RequiredFields)
    ensures multiset(StructuralErrors(spec))[MissingMessage(f)] == if HasKey(spec, f) then 0 else 1
  {
    var missing := MissingFieldErrors(spec, RequiredFields);
    var values := ValueErrors(spec);
    RequiredFieldsDistinct();
    MissingFieldCount(spec, RequiredFields, f);
    ValueMessages(spec);
    InitialOf("Missing required field: ", f);
    assert MissingMessage(f) !in values;
    CountAfterConcat(missing, values, MissingMessage(f));
    assert StructuralErrors(spec) == missing + values;
  }

  // ---------------------------------------------------------------------------
  // Absent fields and their defaults
  // ---------------------------------------------------------------------------

  lemma GetOrAbsent(fields: seq<Field>, key: string, default: Json)
    requires !HasKey(fields, key)
    ensures GetOr(fields, key, default) == default
  {
  }

  /** An absent name, triggers list or output contract is also reported through its default value. */
  lemma AbsentFieldsAlsoFailChecks(spec: seq<Field>)
    requires Admissible(spec)
    ensures !HasKey(spec, "name") ==> EmptyMessage("name") in StructuralErrors(spec)
    ensures !HasKey(spec, "triggers") ==> TooFewMessage("triggers", 2) in StructuralErrors(spec)
    ensures !HasKey(spec, "output_contract") ==>
              ContractErrors(GetOr(spec, "output_contract", Obj([]))) == [TitleMissing, SectionsEmpty]
  {
    if !HasKey(spec, "name") {
      GetOrAbsent(spec, "name", Str(""));
      assert FieldErrors(spec)[0] == EmptyMessage("name");
    }
    if !HasKey(spec, "triggers") {
      GetOrAbsent(spec, "triggers", Arr([]));
      var lengths := LengthErrors("name", GetOr(spec, "name", Str("")), 64)
        + LengthErrors("description", GetOr(spec, "description", Str("")), 1024);
      assert FieldErrors(spec)[|lengths|] == TooFewMessage("triggers", 2);
    }
    if !HasKey(spec, "output_contract") {
      GetOrAbsent(spec, "output_contract", Obj([]));
      assert GetOr([], "tables", Arr([])) == Arr([]);
    }
  }

  // ---------------------------------------------------------------------------
  // Field-value rules
  // ---------------------------------------------------------------------------

  /** Name and description: at most one message, and none exactly when the value is non-empty and short enough. */
  lemma LengthRule(field: string, value: Json, limit: nat)
    requires Measurable(value)
    ensures |LengthErrors(field, value, limit)| <= 1
    ensures LengthErrors(field, value, limit) == [] <==> Truthy(value) && Len(value) <= limit
    ensures !Truthy(value) ==> LengthErrors(field, value, limit) == [EmptyMessage(field)]
  {
  }

  /** Triggers, inputs, guardrails, procedure: a non-list gets only the array message. */
  lemma ArrayRule(field: string, value: Json, min: nat)
    ensures |ArrayErrors(field, value, min)| <= 1
    ensures ArrayErrors(field, value, min) == [] <==> value.Arr? && |value.items| >= min
    ensures !value.Arr? ==> ArrayErrors(field, value, min) == [NotArrayMessage(field)]
  {
  }

  // ---------------------------------------------------------------------------
  // Output contract
  // ---------------------------------------------------------------------------

  /** A non-dict output contract yields one message; no section or table is examined. */
  lemma NonDictContract(contract: Json)
    requires !contract.Obj?
    ensures ContractErrors(contract) == [ContractNotObject]
  {
  }

  lemma SectionMessageNotUniqueness(i: nat, section: Json)
    ensures HeadingsNotUnique !in SectionErrors(i, section)
  {
    var digit := NatToString(i)[0];
    assert '0' <= digit <= '9';
    assert SectionNotObject(i)[8] == digit;
    assert SectionNoHeading(i)[8] == digit;
    assert SectionNoRequired(i)[8] == digit;
    assert HeadingsNotUnique[8] == 'h';
  }

  /** However many headings repeat, the uniqueness message appears at most once. */
  lemma DuplicateHeadingsReportedOnce(sections: Json)
    requires sections.Arr? && sections.items != []
    requires forall k | 0 <= k < |sections.items| :: HeadingHashable(sections.items[k])
    ensures multiset(SectionsErrors(sections))[HeadingsNotUnique] == if HeadingsDistinct(sections.items) then 0 else 1
  {
    var items := sections.items;
    forall m | m in Collect(items, SectionErrors)
      ensures m != HeadingsNotUnique
    {
      CollectMember(items, SectionErrors, m);
      var k :| 0 <= k < |items| && m in SectionErrors(k, items[k]);
      SectionMessageNotUniqueness(k, items[k]);
    }
    assert HeadingsNotUnique !in Collect(items, SectionErrors);
  }

  lemma {:induction false} HeadingsConcat(xs: seq<Json>, ys: seq<Json>)
    ensures Headings(xs + ys) == Headings(xs) + Headings(ys)
    decreases |ys|
  {
    if ys == [] {
      assert xs + ys == xs;
    } else {
      var init, last := ys[..|ys| - 1], ys[|ys| - 1];
      var tail := if last.Obj? then [Heading(last)] else [];
      var zs := xs + ys;
      assert zs[..|zs| - 1] == xs + init && zs[|zs| - 1] == last;
      assert Headings(zs) == Headings(xs + init) + tail;
      HeadingsConcat(xs, init);
      assert Headings(ys) == Headings(init) + tail;
    }
  }

  /** A value is among the collected headings exactly when some dict section has it as its heading. */
  lemma {:induction false} HeadingsMembers(sections: seq<Json>, h: Json)
    ensures h in Headings(sections) <==> exists k | 0 <= k < |sections| :: sections[k].Obj? && Heading(sections[k]) == h
    decreases |sections|
  {
    if sections != [] {
      var init, last := sections[..|sections| - 1], sections[|sections| - 1];
      HeadingsMembers(init, h);
      if h in Headings(sections) && h in Headings(init) {
        var k :| 0 <= k < |init| && init[k].Obj? && Heading(init[k]) == h;
        assert sections[k] == init[k];
      }
      if exists k | 0 <= k < |sections| :: sections[k].Obj? && Heading(sections[k]) == h {
        var k :| 0 <= k < |sections| && sections[k].Obj? && Heading(sections[k]) == h;
        if k < |init| {
          assert init[k] == sections[k];
        }
      }
    }
  }

  /** When every section is a dict, there is one heading per section, in the sections' order. */
  lemma {:induction false} HeadingsOfDicts(sections: seq<Json>)
    requires forall k | 0 <= k < |sections| :: sections[k].Obj?
    ensures |Headings(sections)| == |sections|
    ensures forall k | 0 <= k < |sections| :: Headings(sections)[k] == Heading(sections[k])
    decreases |sections|
  {
    if sections != [] {
      var init := sections[..|sections| - 1];
      HeadingsOfDicts(init);
      assert forall k | 0 <= k < |init| :: init[k] == sections[k];
    }
  }

  /** Sections that are not dicts contribute no heading. */
  lemma {:induction false} HeadingsSkipOthers(sections: seq<Json>)
    requires forall k | 0 <= k < |sections| :: !sections[k].Obj?
    ensures Headings(sections) == []
    decreases |sections|
  {
    if sections != [] {
      HeadingsSkipOthers(sections[..|sections| - 1]);
    }
  }

  /** Two dict sections that both lack a heading share the heading None, so the uniqueness message appears. */
  lemma TwoUnheadedSections(sections: Json, i: nat, j: nat)
    requires sections.Arr? && i < j < |sections.items|
    requires forall k | 0 <= k < |sections.items| :: HeadingHashable(sections.items[k])
    requires sections.items[i].Obj? && !HasKey(sections.items[i].fields, "heading")
    requires sections.items[j].Obj? && !HasKey(sections.items[j].fields, "heading")
    ensures HeadingsNotUnique in SectionsErrors(sections)
  {
    var items := sections.items;
    var a, b, c := items[..i], items[i + 1..j], items[j + 1..];
    assert items == a + [items[i]] + b + [items[j]] + c;
    HeadingsConcat(a + [items[i]] + b + [items[j]], c);
    HeadingsConcat(a + [items[i]] + b, [items[j]]);
    HeadingsConcat(a + [items[i]], b);
    HeadingsConcat(a, [items[i]]);
    assert Headings([items[i]]) == [Null] by {
      assert [items[i]][..0] == [];
    }
    assert Headings([items[j]]) == [Null] by {
      assert [items[j]][..0] == [];
    }
    var hs := Headings(items);
    var x := |Headings(a)|;
    var y := |Headings(a)| + 1 + |Headings(b)|;
    assert hs[x] == Null && hs[y] == Null;
  }

  /** A non-dict section gets only its "must be an object" message; a dict one a message per missing part. */
  lemma SectionRule(i: nat, section: Json)
    ensures !section.Obj? ==> SectionErrors(i, section) == [SectionNotObject(i)]
    ensures section.Obj? ==>
              |SectionErrors(i, section)| == (if Truthy(Heading(section)) then 0 else 1)
                                              + (if HasKey(section.fields, "required") then 0 else 1)
  {
  }

  /** Tables are examined only when they form a non-empty list. */
  lemma TablesOnlyWhenNonEmptyList(tables: Json)
    requires Truthy(tables) && tables.Arr? ==> forall k | 0 <= k < |tables.items| :: TableAdmissible(tables.items[k])
    ensures !(tables.Arr? && tables.items != []) ==> TablesErrors(tables) == []
  {
  }

  /** A dict table passes iff it has at least one column and no repeated column. */
  lemma TableRule(i: nat, table: Json)
    requires TableAdmissible(table)
    ensures |TableErrors(i, table)| <= 1
    ensures table.Obj? ==>
              (TableErrors(i, table) == [] <==> Truthy(Columns(table)) && DistinctValues(Iter(Columns(table))))
  {
    if table.Obj? && Truthy(Columns(table)) {
      TruthySized(Columns(table));
    }
  }

  // ---------------------------------------------------------------------------
  // MCP tools and reference files
  // ---------------------------------------------------------------------------

  predicate BadTool(tool: Json) {
    !tool.Str? || !Contains(tool.s, ":")
  }

  /** MCP tools: skipped when falsy, one message for a non-list, otherwise one per bad entry. */
  lemma ToolsRule(tools: Json)
    ensures !Truthy(tools) ==> ToolsErrors(tools) == []
    ensures Truthy(tools) && !tools.Arr? ==> ToolsErrors(tools) == [ToolsNotArray]
    ensures tools.Arr? ==> |ToolsErrors(tools)| == CountIf(tools.items, BadTool)
  {
    if tools.Arr? {
      CollectOnePerEntry(tools.items, ToolErrors, BadTool);
    }
  }

  predicate BadReference(ref: Json) {
    !ref.Obj? || (Sized(RefPath(ref)) && In("\\", RefPath(ref)))
  }

  /** Reference files: skipped when falsy, one message for a non-list, otherwise one per bad entry. */
  lemma ReferencesRule(refs: Json)
    requires ReferencesAdmissible(refs)
    ensures !Truthy(refs) ==> ReferencesErrors(refs) == []
    ensures Truthy(refs) && !refs.Arr? ==> ReferencesErrors(refs) == [ReferencesNotArray]
    ensures refs.Arr? ==> |ReferencesErrors(refs)| == CountIf(refs.items, BadReference)
  {
    if refs.Arr? && Truthy(refs) {
      CollectOnePerEntry(refs.items, ReferenceErrors, BadReference);
    }
  }
}
