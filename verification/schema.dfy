/**
 * The best-practice linter of a skill spec (`validate_best_practices` in
 * code/schema.py) and the required list of the master schema.
 *
 * The linter appends warnings to one list, rule by rule; its nested helpers
 * `check_paths_recursive` and `check_time_sensitive` become the methods
 * `CheckPathsRecursive` and `CheckTimeSensitive`, which return what they append.
 * Each rule is specified by a function, and `ValidateBestPractices` is proved
 * to produce exactly their concatenation.
 */
module Schema {
  import opened Text
  import opened Json

  /** The `required` list of `SKILL_SPEC_SCHEMA`. */
  const SchemaRequired: seq<string> :=
    ["name", "description", "triggers", "inputs", "guardrails", "procedure", "output_contract"]

  /** The sign and two spaces every warning starts with. */
  const Warn := "\U{26A0}\U{FE0F}  "

  /** Some entry of `phrases` occurs in `s` (`any(p in s for p in phrases)`). */
  predicate ContainsAny(s: string, phrases: seq<string>) {
    exists p | p in phrases :: Contains(s, p)
  }

  // ---------------------------------------------------------------------------
  // Name
  // ---------------------------------------------------------------------------

  const VagueWords: seq<string> := ["helper", "utils", "tools", "manager", "handler"]

  /** Some whitespace-separated word ends in "ing", ignoring case. */
  predicate HasGerund(name: string) {
    exists w | w in Words(name) :: EndsWith(Lower(w), "ing")
  }

  function GerundWarning(name: string): string {
    Warn + "NAME: Consider using gerund form (verb + -ing). "
    + "Examples: 'Processing PDFs', 'Analyzing Spreadsheets', 'Managing Databases'. "
    + "Current: '" + name + "'. "
    + "See: MASTER_KNOWLEDGE.md - Anatomy of a Skill"
  }

  function VagueWarning(name: string): string {
    Warn + "NAME: Avoid vague terms like 'Helper', 'Utils', 'Tools'. "
    + "Be specific about what the skill does. "
    + "Current: '" + name + "'"
  }

  function NameWarnings(name: Json): (r: seq<string>)
    requires Truthy(name) ==> name.Str?
  {
    if !Truthy(name) then []
    else
      (if HasGerund(name.s) then [] else [GerundWarning(name.s)])
      + (if ContainsAny(Lower(name.s), VagueWords) then [VagueWarning(name.s)] else [])
  }

  // ---------------------------------------------------------------------------
  // Description
  // ---------------------------------------------------------------------------

  const FirstSecondPerson: seq<string> := ["i can", "you can", "this will", "i will", "you will", "we can", "let me"]
  const WhenIndicators: seq<string> := [" when ", " for ", " use ", " helps ", " enables "]

  function PersonWarning(description: string): string {
    Warn + "DESCRIPTION: Use active voice without first/second person. "
    + "Good: 'Processes Excel files and generates reports'. "
    + "Avoid: 'I can help you process' or 'You can use this to'. "
    + "Current starts: '" + Take(description, 50) + "...'"
  }

  const WhatWhenWarning :=
    Warn + "DESCRIPTION: Include both WHAT it does and WHEN to use it. "
    + "Example: 'Analyzes spreadsheets to identify patterns (WHAT). "
    + "Use when you need data insights or trend analysis (WHEN).'"

  function DescriptionWarnings(description: Json): (r: seq<string>)
    requires Truthy(description) ==> description.Str?
  {
    if !Truthy(description) then []
    else
      var lower := Lower(description.s);
      (if ContainsAny(lower, FirstSecondPerson) then [PersonWarning(description.s)] else [])
      + (if ContainsAny(lower, WhenIndicators) then [] else [WhatWhenWarning])
  }

  // ---------------------------------------------------------------------------
  // File paths: check_paths_recursive
  // ---------------------------------------------------------------------------

  predicate HasBackslash(v: Json) {
    v.Str? && Contains(v.s, "\\")
  }

  function BackslashWarning(path: string, key: string, value: string): string {
    Warn + "FILE PATHS: Use forward slashes only. "
    + "Found backslash in '" + path + "." + key + "': " + value + ". "
    + "Change to: " + ReplaceChar(value, '\\', '/')
  }

  /** The warnings `check_paths_recursive(j, path)` appends: a dict entry by entry, a list item by item. */
  function PathWarnings(j: Json, path: string): seq<string>
    decreases j
  {
    match j
    case Obj(fields) => FieldsWarnings(fields, |fields|, path)
    case Arr(items) => ItemsWarnings(items, |items|, path)
    case _ => []
  }

  /** The warnings for the first `n` entries of a dict at `path`. */
  function FieldsWarnings(fields: seq<Field>, n: nat, path: string): seq<string>
    requires n <= |fields|
    decreases fields, n
  {
    if n == 0 then []
    else
      var f := fields[n - 1];
      FieldsWarnings(fields, n - 1, path)
      + (if HasBackslash(f.val) then [BackslashWarning(path, f.key, f.val.s)] else [])
      + PathWarnings(f.val, path + "." + f.key)
  }

  /** The warnings for the first `n` items of a list at `path`. */
  function ItemsWarnings(items: seq<Json>, n: nat, path: string): seq<string>
    requires n <= |items|
    decreases items, n
  {
    if n == 0 then []
    else ItemsWarnings(items, n - 1, path) + PathWarnings(items[n - 1], path + "[" + NatToString(n - 1) + "]")
  }

  method CheckPathsRecursive(j: Json, path: string) returns (warnings: seq<string>)
    ensures warnings == PathWarnings(j, path)
    decreases j
  {
    warnings := [];
    if j.Obj? {
      var fields := j.fields;
      for n := 0 to |fields|
        invariant warnings == FieldsWarnings(fields, n, path)
      {
        var f := fields[n];
        if f.val.Str? && Contains(f.val.s, "\\") {
          warnings := warnings + [BackslashWarning(path, f.key, f.val.s)];
        }
        var nested := CheckPathsRecursive(f.val, path + "." + f.key);
        warnings := warnings + nested;
      }
    } else if j.Arr? {
      var items := j.items;
      for n := 0 to |items|
        invariant warnings == ItemsWarnings(items, n, path)
      {
        var nested := CheckPathsRecursive(items[n], path + "[" + NatToString(n) + "]");
        warnings := warnings + nested;
      }
    }
  }

  // ---------------------------------------------------------------------------
  // Time-sensitive content: check_time_sensitive
  // ---------------------------------------------------------------------------

  const TimePatterns: seq<string> := [
    "as of ", "current", "latest", "2024", "2025", "2026", "recent",
    "now uses", "currently", "at the moment", "today", "this year"
  ]

  /** The first entry of `patterns`, in list order, that occurs in `s`. */
  function FirstMatch(s: string, patterns: seq<string>): (r: Option<string>)
    ensures r.None? <==> !ContainsAny(s, patterns)
    ensures forall i | 0 <= i < |patterns| ::
              Contains(s, patterns[i]) && (forall j | 0 <= j < i :: !Contains(s, patterns[j]))
              ==> r == Some(patterns[i])
  {
    if patterns == [] then None
    else if Contains(s, patterns[0]) then Some(patterns[0])
    else
      var r := FirstMatch(s, patterns[1..]);
      assert forall i | 1 <= i < |patterns| :: patterns[i] == patterns[1..][i - 1];
      r
  }

  function TimeWarning(fieldName: string, pattern: string): string {
    Warn + "TIME-SENSITIVE: Potential time-sensitive information in '" + fieldName + "': '" + pattern + "'. "
    + "Consider moving to separate 'Current Configuration' section that can be updated. "
    + "See: MASTER_KNOWLEDGE.md - Content Quality"
  }

  /** The warning `check_time_sensitive(text, fieldName)` appends, if any. */
  function TimeWarnings(text: Json, fieldName: string): (r: seq<string>) {
    if Truthy(text) && text.Str? then
      match FirstMatch(Lower(text.s), TimePatterns)
      case Some(p) => [TimeWarning(fieldName, p)]
      case None => []
    else []
  }

  method CheckTimeSensitive(text: Json, fieldName: string) returns (warnings: seq<string>)
    ensures warnings == TimeWarnings(text, fieldName)
  {
    warnings := [];
    if Truthy(text) && text.Str? {
      var hit := FindFirstPattern(Lower(text.s), TimePatterns);
      if hit.Some? {
        warnings := [TimeWarning(fieldName, hit.value)];
      }
    }
  }

  /** The pattern loop of `check_time_sensitive`: stops at the first pattern found in `s`. */
  method FindFirstPattern(s: string, patterns: seq<string>) returns (hit: Option<string>)
    ensures hit == FirstMatch(s, patterns)
  {
    hit := None;
    for i := 0 to |patterns|
      invariant forall j | 0 <= j < i :: !Contains(s, patterns[j])
    {
      if Contains(s, patterns[i]) {
        hit := Some(patterns[i]);
        return;
      }
    }
  }


  function GuardrailWarnings(i: nat, guard: Json): seq<string> {
    TimeWarnings(guard, "guardrails[" + NatToString(i) + "]")
  }

  // ---------------------------------------------------------------------------
  // MCP tools, feedback loop, reference files
  // ---------------------------------------------------------------------------

  function ToolMessage(tool: Json): string {
    Warn + "MCP TOOLS: '" + PyStr(tool) + "' should use format 'ServerName:tool_name'. "
    + "Example: 'BigQuery:run_query', 'GitHub:create_issue'. "
    + "See: MASTER_KNOWLEDGE.md - MCP Integration"
  }

  function ToolWarnings(i: nat, tool: Json): (r: seq<string>)
    requires Sized(tool)
  {
    if In(":", tool) then [] else [ToolMessage(tool)]
  }

  const ValidationKeywords: seq<string> := ["validate", "verify", "check", "ensure", "confirm"]

  /** `str(spec).lower()` mentions one of the validation keywords. */
  predicate MentionsValidation(spec: seq<Field>) {
    ContainsAny(Lower(Repr(Obj(spec))), ValidationKeywords)
  }

  function Validation(spec: seq<Field>): Json {
    GetOr(spec, "validation", Obj([]))
  }

  const FeedbackWarning :=
    Warn + "VALIDATION: Skill mentions validation but doesn't define feedback loop. "
    + "Consider adding validation.feedback_loop = true and validation.validator_script. "
    + "Pattern: Generate \U{2192} Validate \U{2192} Fix \U{2192} Repeat. "
    + "See: MASTER_KNOWLEDGE.md - Feedback Loops for Quality"

  function FeedbackWarnings(spec: seq<Field>): (r: seq<string>)
    requires MentionsValidation(spec) ==> Validation(spec).Obj?
  {
    if MentionsValidation(spec) && !Truthy(GetOr(Validation(spec).fields, "feedback_loop", Null)) then [FeedbackWarning]
    else []
  }

  function RefPath(ref: Json): Json
    requires ref.Obj?
  {
    GetOr(ref.fields, "path", Str(""))
  }

  /** Both reference-file rules call `.get` on each entry and `.count`/`.lower` on its path. */
  predicate ReferenceAdmissible(ref: Json) {
    ref.Obj? && RefPath(ref).Str?
  }

  function DepthMessage(path: string): string {
    Warn + "REFERENCE FILES: Path '" + path + "' is deeply nested. "
    + "Keep references one level deep from SKILL.md for best performance. "
    + "See: MASTER_KNOWLEDGE.md - Progressive Disclosure"
  }

  function DepthWarnings(i: nat, ref: Json): (r: seq<string>)
    requires ReferenceAdmissible(ref)
  {
    if CountChar(RefPath(ref).s, '/') > 2 then [DepthMessage(RefPath(ref).s)] else []
  }

  predicate MentionsRemote(path: string) {
    Contains(Lower(path), "url") || Contains(Lower(path), "http")
  }

  /** The message names `ref.get('path')`, which is the path itself whenever the rule fires. */
  function SecurityMessage(path: string): string {
    Warn + "SECURITY: Reference file path contains 'url' or 'http': '" + path + "'. "
    + "Skills cannot fetch external resources. Bundle all files in skill directory. "
    + "See: MASTER_KNOWLEDGE.md - Security & Trust Model"
  }

  function SecurityWarnings(i: nat, ref: Json): (r: seq<string>)
    requires ReferenceAdmissible(ref)
  {
    if MentionsRemote(RefPath(ref).s) then [SecurityMessage(RefPath(ref).s)] else []
  }

  // ---------------------------------------------------------------------------
  // Code helper scripts
  // ---------------------------------------------------------------------------

  function CodeHelper(spec: seq<Field>): Json {
    GetOr(spec, "code_helper", Obj([]))
  }

  function Scripts(helper: Json): Json
    requires helper.Obj?
  {
    GetOr(helper.fields, "scripts", Arr([]))
  }

  predicate Enabled(helper: Json)
    requires helper.Obj?
  {
    Truthy(GetOr(helper.fields, "enabled", Null))
  }

  predicate IsExecute(script: Json)
    requires script.Obj?
  {
    Get(script.fields, "execution_mode") == Some(Str("execute"))
  }

  function ScriptPath(script: Json): Json
    requires script.Obj?
  {
    GetOr(script.fields, "path", Str(""))
  }

  /** The script rules call `.get` on each script and `.lower()` on an execute-mode script's path. */
  predicate ScriptAdmissible(script: Json) {
    script.Obj? && (IsExecute(script) ==> ScriptPath(script).Str?)
  }

  const NoScriptsWarning :=
    Warn + "CODE HELPER: code_helper.enabled = true but no scripts defined. "
    + "Add scripts array with at least one script, or set enabled = false."

  function ValidationScriptMessage(script: Json): string
    requires script.Obj?
  {
    Warn + "VALIDATION SCRIPT: Found validation script '" + PyStr(GetOr(script.fields, "path", Null)) + "' "
    + "but validation config not defined. Consider adding validation section."
  }

  predicate IsValidationScript(script: Json)
    requires ScriptAdmissible(script)
  {
    IsExecute(script) && Contains(Lower(ScriptPath(script).s), "validate")
  }

  function ValidationScriptWarnings(i: nat, script: Json): (r: seq<string>)
    requires ScriptAdmissible(script)
  {
    if IsValidationScript(script) then [ValidationScriptMessage(script)] else []
  }

  const NetworkKeywords: seq<string> := ["requests", "urllib", "http", "api call", "fetch"]

  function NetworkMessage(script: Json): string
    requires script.Obj?
  {
    Warn + "NETWORK ACCESS: Script may require network access. "
    + "Claude Skills run in sandboxed environment with NO network access. "
    + "Script: '" + PyStr(GetOr(script.fields, "path", Null)) + "'. "
    + "See: MASTER_KNOWLEDGE.md - Runtime Environment Constraints"
  }

  function NetworkWarnings(i: nat, script: Json): (r: seq<string>)
    requires ScriptAdmissible(script)
  {
    if ContainsAny(Lower(Repr(script)), NetworkKeywords) then [NetworkMessage(script)] else []
  }

  predicate ScriptsAdmissible(spec: seq<Field>) {
    var helper := CodeHelper(spec);
    helper.Obj?
    && (Enabled(helper) ==>
          var scripts := Scripts(helper);
          Sized(scripts) && forall k | 0 <= k < |Iter(scripts)| :: ScriptAdmissible(Iter(scripts)[k]))
  }

  /**
   * The code-helper rule. `not spec.get("validation")` is the same for every
   * script, so when validation is configured no script warns.
   */
  function ScriptWarnings(spec: seq<Field>): (r: seq<string>)
    requires ScriptsAdmissible(spec)
  {
    var helper := CodeHelper(spec);
    if !Enabled(helper) then []
    else
      var scripts := Scripts(helper);
      (if Truthy(scripts) then [] else [NoScriptsWarning])
      + (if Truthy(GetOr(spec, "validation", Null)) then [] else Collect(Iter(scripts), ValidationScriptWarnings))
  }

  /** The platform-compatibility rule: a network warning per script that mentions a network keyword. */
  function PlatformWarnings(spec: seq<Field>): (r: seq<string>)
    requires ScriptsAdmissible(spec)
  {
    var helper := CodeHelper(spec);
    if !Enabled(helper) then [] else Collect(Iter(Scripts(helper)), NetworkWarnings)
  }

  // ---------------------------------------------------------------------------
  // Estimated SKILL.md length
  // ---------------------------------------------------------------------------

  function Sections(spec: seq<Field>): Json
    requires GetOr(spec, "output_contract", Obj([])).Obj?
  {
    GetOr(GetOr(spec, "output_contract", Obj([])).fields, "sections", Arr([]))
  }

  predicate LengthAdmissible(spec: seq<Field>) {
    Sized(GetOr(spec, "triggers", Arr([]))) && Sized(GetOr(spec, "inputs", Arr([])))
    && Sized(GetOr(spec, "guardrails", Arr([]))) && Sized(GetOr(spec, "procedure", Arr([])))
    && GetOr(spec, "output_contract", Obj([])).Obj? && Sized(Sections(spec))
    && Sized(GetOr(spec, "example_triggers", Arr([])))
  }

  /**
   * Ten lines of frontmatter and headers, one per trigger, input, guardrail and
   * example trigger, two per procedure step, three per output section.
   */
  function EstimatedLines(spec: seq<Field>): nat
    requires LengthAdmissible(spec)
  {
    10 + Len(GetOr(spec, "triggers", Arr([]))) + Len(GetOr(spec, "inputs", Arr([])))
    + Len(GetOr(spec, "guardrails", Arr([]))) + 2 * Len(GetOr(spec, "procedure", Arr([])))
    + 3 * Len(Sections(spec)) + Len(GetOr(spec, "example_triggers", Arr([])))
  }

  function LengthWarning(lines: nat): string {
    Warn + "SKILL.MD LENGTH: Estimated ~" + NatToString(lines) + " lines in SKILL.md. "
    + "Anthropic recommends under 500 lines for optimal performance. "
    + "Consider using progressive disclosure to move some content to reference files. "
    + "See: MASTER_KNOWLEDGE.md - Structure for Scale"
  }

  function LengthWarnings(spec: seq<Field>): (r: seq<string>)
    requires LengthAdmissible(spec)
  {
    if EstimatedLines(spec) > 400 then [LengthWarning(EstimatedLines(spec))] else []
  }

  // ---------------------------------------------------------------------------
  // The whole linter
  // ---------------------------------------------------------------------------

  function ReferenceFiles(spec: seq<Field>): Json {
    GetOr(spec, "reference_files", Arr([]))
  }

  predicate ReferencesAdmissible(refs: Json) {
    Truthy(refs) ==> refs.Arr? && forall k | 0 <= k < |refs.items| :: ReferenceAdmissible(refs.items[k])
  }

  /** `for tool in mcp_tools` iterates the value, and `":" in tool` needs each entry to be sized. */
  predicate ToolsAdmissible(tools: Json) {
    Sized(tools) && forall k | 0 <= k < |Iter(tools)| :: Sized(Iter(tools)[k])
  }

  /**
   * The decoded specs on which `validate_best_practices` returns instead of
   * raising (a str method on another type, `.get` on a non-dict, iteration
   * over a number or None).
   */
  predicate Admissible(spec: seq<Field>) {
    var name := GetOr(spec, "name", Str(""));
    var description := GetOr(spec, "description", Str(""));
    (Truthy(name) ==> name.Str?)
    && (Truthy(description) ==> description.Str?)
    && ToolsAdmissible(GetOr(spec, "mcp_tools", Arr([])))
    && (MentionsValidation(spec) ==> Validation(spec).Obj?)
    && ReferencesAdmissible(ReferenceFiles(spec))
    && ScriptsAdmissible(spec)
    && LengthAdmissible(spec)
  }

  /** A rule applied to each reference file, when the list is truthy. */
  function ReferenceRule(refs: Json, check: (nat, Json) --> seq<string>): (r: seq<string>)
    requires ReferencesAdmissible(refs)
    requires forall i: nat, ref | ReferenceAdmissible(ref) :: check.requires(i, ref)
  {
    if Truthy(refs) then Collect(refs.items, check) else []
  }

  /** The list `validate_best_practices` returns, rule by rule in source order. */
  function BestPracticeWarnings(spec: seq<Field>): (r: seq<string>)
    requires Admissible(spec)
  {
    NameWarnings(GetOr(spec, "name", Str("")))
    + DescriptionWarnings(GetOr(spec, "description", Str("")))
    + PathWarnings(Obj(spec), "")
    + TimeWarnings(GetOr(spec, "description", Null), "description")
    + Collect(Iter(GetOr(spec, "guardrails", Arr([]))), GuardrailWarnings)
    + Collect(Iter(GetOr(spec, "mcp_tools", Arr([]))), ToolWarnings)
    + FeedbackWarnings(spec)
    + ReferenceRule(ReferenceFiles(spec), DepthWarnings)
    + ScriptWarnings(spec)
    + LengthWarnings(spec)
    + PlatformWarnings(spec)
    + ReferenceRule(ReferenceFiles(spec), SecurityWarnings)
  }

  // ---------------------------------------------------------------------------
  // validate_best_practices, one method per commented block of rules
  // ---------------------------------------------------------------------------

  method ValidateBestPractices(spec: seq<Field>) returns (warnings: seq<string>)
    requires Admissible(spec)
    ensures warnings == BestPracticeWarnings(spec)
  {
    var name := CheckName(GetOr(spec, "name", Str("")));
    var description := CheckDescription(GetOr(spec, "description", Str("")));
    var paths := CheckPathsRecursive(Obj(spec), "");
    var time := CheckTimeSensitive(GetOr(spec, "description", Null), "description");
    var guardrails := CheckGuardrails(Iter(GetOr(spec, "guardrails", Arr([]))));
    var tools := CheckTools(Iter(GetOr(spec, "mcp_tools", Arr([]))));
    var feedback := CheckFeedbackLoop(spec);
    var depth := CheckReferenceDepth(ReferenceFiles(spec));
    var scripts := CheckScripts(spec);
    var length := CheckLength(spec);
    var platform := CheckPlatform(spec);
    var security := CheckSecurity(ReferenceFiles(spec));
    warnings := name + description + paths + time + guardrails + tools + feedback + depth + scripts + length
      + platform + security;
  }

  method CheckName(name: Json) returns (warnings: seq<string>)
    requires Truthy(name) ==> name.Str?
    ensures warnings == NameWarnings(name)
  {
    warnings := [];
    if Truthy(name) {
      if !HasGerund(name.s) {
        warnings := warnings + [GerundWarning(name.s)];
      }
      if ContainsAny(Lower(name.s), VagueWords) {
        warnings := warnings + [VagueWarning(name.s)];
      }
    }
  }

  method CheckDescription(description: Json) returns (warnings: seq<string>)
    requires Truthy(description) ==> description.Str?
    ensures warnings == DescriptionWarnings(description)
  {
    warnings := [];
    if Truthy(description) {
      var lower := Lower(description.s);
      if ContainsAny(lower, FirstSecondPerson) {
        warnings := warnings + [PersonWarning(description.s)];
      }
      if !ContainsAny(lower, WhenIndicators) {
        warnings := warnings + [WhatWhenWarning];
      }
    }
  }

  method CheckGuardrails(guardrails: seq<Json>) returns (warnings: seq<string>)
    ensures warnings == Collect(guardrails, GuardrailWarnings)
  {
    warnings := [];
    for i := 0 to |guardrails|
      invariant warnings == Collect(guardrails[..i], GuardrailWarnings)
    {
      CollectStep(guardrails, GuardrailWarnings, i);
      var more := CheckTimeSensitive(guardrails[i], "guardrails[" + NatToString(i) + "]");
      warnings := warnings + more;
    }
    assert guardrails[..|guardrails|] == guardrails;
  }

  method CheckTools(tools: seq<Json>) returns (warnings: seq<string>)
    requires forall k | 0 <= k < |tools| :: Sized(tools[k])
    ensures warnings == Collect(tools, ToolWarnings)
  {
    warnings := [];
    for i := 0 to |tools|
      invariant warnings == Collect(tools[..i], ToolWarnings)
    {
      CollectStep(tools, ToolWarnings, i);
      if !In(":", tools[i]) {
        warnings := warnings + [ToolMessage(tools[i])];
      }
    }
    assert tools[..|tools|] == tools;
  }

  method CheckFeedbackLoop(spec: seq<Field>) returns (warnings: seq<string>)
    requires MentionsValidation(spec) ==> Validation(spec).Obj?
    ensures warnings == FeedbackWarnings(spec)
  {
    warnings := [];
    var mentions := ContainsAny(Lower(Repr(Obj(spec))), ValidationKeywords);
    if mentions && !Truthy(GetOr(Validation(spec).fields, "feedback_loop", Null)) {
      warnings := warnings + [FeedbackWarning];
    }
  }

  method CheckReferenceDepth(refs: Json) returns (warnings: seq<string>)
    requires ReferencesAdmissible(refs)
    ensures warnings == ReferenceRule(refs, DepthWarnings)
  {
    warnings := [];
    if Truthy(refs) {
      var items := refs.items;
      for i := 0 to |items|
        invariant warnings == Collect(items[..i], DepthWarnings)
      {
        CollectStep(items, DepthWarnings, i);
        var path := RefPath(items[i]).s;
        if CountChar(path, '/') > 2 {
          warnings := warnings + [DepthMessage(path)];
        }
      }
      assert items[..|items|] == items;
    }
  }

  method CheckScripts(spec: seq<Field>) returns (warnings: seq<string>)
    requires ScriptsAdmissible(spec)
    ensures warnings == ScriptWarnings(spec)
  {
    warnings := [];
    var helper := CodeHelper(spec);
    if Enabled(helper) {
      var scripts := Scripts(helper);
      if !Truthy(scripts) {
        warnings := warnings + [NoScriptsWarning];
      }
      var configured := Truthy(GetOr(spec, "validation", Null));
      var more := ScanValidationScripts(Iter(scripts), configured);
      warnings := warnings + more;
    }
  }

  /** The loop over scripts of the code-helper rule; `configured` is `bool(spec.get("validation"))`. */
  method ScanValidationScripts(scripts: seq<Json>, configured: bool) returns (warnings: seq<string>)
    requires forall k | 0 <= k < |scripts| :: ScriptAdmissible(scripts[k])
    ensures warnings == if configured then [] else Collect(scripts, ValidationScriptWarnings)
  {
    warnings := [];
    for i := 0 to |scripts|
      invariant configured ==> warnings == []
      invariant !configured ==> warnings == Collect(scripts[..i], ValidationScriptWarnings)
    {
      CollectStep(scripts, ValidationScriptWarnings, i);
      var more := ScanValidationScript(scripts[i], configured);
      warnings := warnings + more;
    }
    assert scripts[..|scripts|] == scripts;
  }

  /** One pass of that loop: an executed script whose path mentions "validate", when no validation is configured. */
  method ScanValidationScript(script: Json, configured: bool) returns (warnings: seq<string>)
    requires ScriptAdmissible(script)
    ensures warnings == if configured || !IsValidationScript(script) then [] else [ValidationScriptMessage(script)]
  {
    warnings := [];
    if IsExecute(script) {
      if Contains(Lower(ScriptPath(script).s), "validate") && !configured {
        warnings := [ValidationScriptMessage(script)];
      }
    }
  }

  method CheckLength(spec: seq<Field>) returns (warnings: seq<string>)
    requires LengthAdmissible(spec)
    ensures warnings == LengthWarnings(spec)
  {
    var estimatedLines := 0;
    estimatedLines := estimatedLines + 10;
    estimatedLines := estimatedLines + Len(GetOr(spec, "triggers", Arr([])));
    estimatedLines := estimatedLines + Len(GetOr(spec, "inputs", Arr([])));
    estimatedLines := estimatedLines + Len(GetOr(spec, "guardrails", Arr([])));
    estimatedLines := estimatedLines + Len(GetOr(spec, "procedure", Arr([]))) * 2;
    estimatedLines := estimatedLines + Len(Sections(spec)) * 3;
    estimatedLines := estimatedLines + Len(GetOr(spec, "example_triggers", Arr([])));
    warnings := [];
    if estimatedLines > 400 {
      warnings := warnings + [LengthWarning(estimatedLines)];
    }
  }

  method CheckPlatform(spec: seq<Field>) returns (warnings: seq<string>)
    requires ScriptsAdmissible(spec)
    ensures warnings == PlatformWarnings(spec)
  {
    warnings := [];
    var helper := CodeHelper(spec);
    if Enabled(helper) {
      warnings := ScanNetworkScripts(Iter(Scripts(helper)));
    }
  }

  /** The loop over scripts of the platform-compatibility rule. */
  method ScanNetworkScripts(scripts: seq<Json>) returns (warnings: seq<string>)
    requires forall k | 0 <= k < |scripts| :: ScriptAdmissible(scripts[k])
    ensures warnings == Collect(scripts, NetworkWarnings)
  {
    warnings := [];
    for i := 0 to |scripts|
      invariant warnings == Collect(scripts[..i], NetworkWarnings)
    {
      CollectStep(scripts, NetworkWarnings, i);
      var scriptText := Lower(Repr(scripts[i]));
      if ContainsAny(scriptText, NetworkKeywords) {
        warnings := warnings + [NetworkMessage(scripts[i])];
      }
    }
    assert scripts[..|scripts|] == scripts;
  }

  method CheckSecurity(refs: Json) returns (warnings: seq<string>)
    requires ReferencesAdmissible(refs)
    ensures warnings == ReferenceRule(refs, SecurityWarnings)
  {
    warnings := [];
    if Truthy(refs) {
      var items := refs.items;
      for i := 0 to |items|
        invariant warnings == Collect(items[..i], SecurityWarnings)
      {
        CollectStep(items, SecurityWarnings, i);
        var path := RefPath(items[i]).s;
        if Contains(Lower(path), "url") || Contains(Lower(path), "http") {
          warnings := warnings + [SecurityMessage(path)];
        }
      }
      assert items[..|items|] == items;
    }
  }
}
