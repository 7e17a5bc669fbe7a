/**
 * What the best-practice linter promises rule by rule: when each warning
 * fires, and how many of each there can be.
 */
module SchemaProperties {
  import opened Text
  import opened Json
  import opened Schema

  // ---------------------------------------------------------------------------
  // Name and description
  // ---------------------------------------------------------------------------

  lemma NameMessageLengths(name: string)
    ensures |GerundWarning(name)| == 187 + |name|
    ensures |VagueWarning(name)| == 111 + |name|
  {
  }

  /**
   * The gerund warning fires iff the name is non-empty and no word ends in
   * "ing"; the vague-term warning appears at most once, however many vague
   * words the name holds.
   */
  lemma NameRule(name: Json)
    requires Truthy(name) ==> name.Str?
    ensures !Truthy(name) ==> NameWarnings(name) == []
    ensures |NameWarnings(name)| <= 2
    ensures name.Str? ==>
              (GerundWarning(name.s) in NameWarnings(name) <==> name.s != [] && !HasGerund(name.s))
    ensures name.Str? ==>
              multiset(NameWarnings(name))[VagueWarning(name.s)]
              == if name.s != [] && ContainsAny(Lower(name.s), VagueWords) then 1 else 0
  {
    if name.Str? {
      NameMessageLengths(name.s);
      assert GerundWarning(name.s) != VagueWarning(name.s);
    }
  }

  lemma DescriptionMessageLengths(description: string)
    ensures |PersonWarning(description)| >= 195
    ensures |WhatWhenWarning| == 182
  {
  }

  /** At most one first/second-person warning and at most one WHAT + WHEN warning. */
  lemma DescriptionRule(description: Json)
    requires Truthy(description) ==> description.Str?
    ensures !Truthy(description) ==> DescriptionWarnings(description) == []
    ensures |DescriptionWarnings(description)| <= 2
    ensures description.Str? ==>
              multiset(DescriptionWarnings(description))[PersonWarning(description.s)]
              == if description.s != [] && ContainsAny(Lower(description.s), FirstSecondPerson) then 1 else 0
    ensures description.Str? ==>
              multiset(DescriptionWarnings(description))[WhatWhenWarning]
              == if description.s != [] && !ContainsAny(Lower(description.s), WhenIndicators) then 1 else 0
  {
    if description.Str? {
      DescriptionMessageLengths(description.s);
      assert PersonWarning(description.s) != WhatWhenWarning;
    }
  }

  /** A text without a space holds no phrase that starts with one. */
  lemma NoSpaceNoPhrase(text: string, p: string)
    requires p != [] && p[0] == ' ' && ' ' !in text
    ensures !Contains(text, p)
  {
  }

  /** Every when-indicator is delimited by spaces, so a non-empty description without a space always gets the WHAT + WHEN warning. */
  lemma WhenNeedsSpaces(description: string)
    requires description != [] && ' ' !in description
    ensures WhatWhenWarning in DescriptionWarnings(Str(description))
  {
    var lower := Lower(description);
    assert ' ' !in lower;
    forall i | 0 <= i < |WhenIndicators|
      ensures !Contains(lower, WhenIndicators[i])
    {
      NoSpaceNoPhrase(lower, WhenIndicators[i]);
    }
    assert !ContainsAny(lower, WhenIndicators);
  }

  // ---------------------------------------------------------------------------
  // Backslashes in file paths
  // ---------------------------------------------------------------------------

  /** The number of dict entries, at any depth, whose value is a string holding a backslash. */
  function Backslashes(j: Json): nat
    decreases j
  {
    match j
    case Obj(fields) => FieldBackslashes(fields, |fields|)
    case Arr(items) => ItemBackslashes(items, |items|)
    case _ => 0
  }

  function FieldBackslashes(fields: seq<Field>, n: nat): nat
    requires n <= |fields|
    decreases fields, n
  {
    if n == 0 then 0
    else
      FieldBackslashes(fields, n - 1) + (if HasBackslash(fields[n - 1].val) then 1 else 0)
      + Backslashes(fields[n - 1].val)
  }

  function ItemBackslashes(items: seq<Json>, n: nat): nat
    requires n <= |items|
    decreases items, n
  {
    if n == 0 then 0 else ItemBackslashes(items, n - 1) + Backslashes(items[n - 1])
  }

  /** The scan warns exactly once per dict entry whose string value holds a backslash. */
  lemma {:induction false} PathWarningsCount(j: Json, path: string)
    ensures |PathWarnings(j, path)| == Backslashes(j)
    decreases j
  {
    match j
    case Obj(fields) => FieldWarningsCount(fields, |fields|, path);
    case Arr(items) => ItemWarningsCount(items, |items|, path);
    case _ =>
  }

  lemma {:induction false} FieldWarningsCount(fields: seq<Field>, n: nat, path: string)
    requires n <= |fields|
    ensures |FieldsWarnings(fields, n, path)| == FieldBackslashes(fields, n)
    decreases fields, n
  {
    if n > 0 {
      FieldWarningsCount(fields, n - 1, path);
      PathWarningsCount(fields[n - 1].val, path + "." + fields[n - 1].key);
    }
  }

  lemma {:induction false} ItemWarningsCount(items: seq<Json>, n: nat, path: string)
    requires n <= |items|
    ensures |ItemsWarnings(items, n, path)| == ItemBackslashes(items, n)
    decreases items, n
  {
    if n > 0 {
      ItemWarningsCount(items, n - 1, path);
      PathWarningsCount(items[n - 1], path + "[" + NatToString(n - 1) + "]");
    }
  }

  /** Strings that sit directly in a list are never reported, backslash or not. */
  lemma {:induction false} ListedStringsNotScanned(items: seq<Json>, n: nat, path: string)
    requires n <= |items|
    requires forall k | 0 <= k < |items| :: items[k].Str?
    ensures ItemsWarnings(items, n, path) == []
  {
    if n > 0 {
      ListedStringsNotScanned(items, n - 1, path);
    }
  }

  /** The suggested fix closes the warning and turns every backslash into a slash. */
  lemma BackslashFix(path: string, key: string, value: string)
    ensures var w := BackslashWarning(path, key, value);
            |value| <= |w| && w[|w| - |value|..] == ReplaceChar(value, '\\', '/')
    ensures '\\' !in ReplaceChar(value, '\\', '/')
    ensures forall k | 0 <= k < |value| && value[k] == '\\' :: ReplaceChar(value, '\\', '/')[k] == '/'
  {
    var fix := ReplaceChar(value, '\\', '/');
    var w := BackslashWarning(path, key, value);
    var prefix := Warn + "FILE PATHS: Use forward slashes only. "
      + "Found backslash in '" + path + "." + key + "': " + value + ". "
      + "Change to: ";
    assert w == prefix + fix;
    assert w[|w| - |value|..] == fix;
  }

  // ---------------------------------------------------------------------------
  // Time-sensitive content
  // ---------------------------------------------------------------------------

  lemma PatternsAreLong()
    ensures forall k | 0 <= k < |TimePatterns| :: |TimePatterns[k]| >= 4
  {
  }

  /** A text that contains a time pattern is non-empty. */
  lemma MatchNeedsText(text: string, i: nat)
    requires i < |TimePatterns| && Contains(Lower(text), TimePatterns[i])
    ensures text != []
  {
    PatternsAreLong();
  }

  /** One scanned field yields at most one warning, and none when no pattern occurs. */
  lemma TimeRule(text: Json, fieldName: string)
    ensures |TimeWarnings(text, fieldName)| <= 1
    ensures !text.Str? ==> TimeWarnings(text, fieldName) == []
    ensures text.Str? && !ContainsAny(Lower(text.s), TimePatterns) ==> TimeWarnings(text, fieldName) == []
  {
  }

  /** The warning names the first pattern, in list order, that occurs in the lower-cased text. */
  lemma TimeNamesFirstPattern(text: string, fieldName: string, i: nat)
    requires i < |TimePatterns| && Contains(Lower(text), TimePatterns[i])
    requires forall j | 0 <= j < i :: !Contains(Lower(text), TimePatterns[j])
    ensures TimeWarnings(Str(text), fieldName) == [TimeWarning(fieldName, TimePatterns[i])]
  {
    MatchNeedsText(text, i);
    var lower := Lower(text);
    var patterns := TimePatterns;
    FirstMatchAt(lower, patterns, i);
    assert FirstMatch(lower, TimePatterns) == Some(TimePatterns[i]);
  }

  lemma FirstMatchAt(s: string, patterns: seq<string>, i: nat)
    requires i < |patterns| && Contains(s, patterns[i])
    requires forall j | 0 <= j < i :: !Contains(s, patterns[j])
    ensures FirstMatch(s, patterns) == Some(patterns[i])
  {
  }

  predicate TimeHit(guard: Json) {
    guard.Str? && ContainsAny(Lower(guard.s), TimePatterns)
  }

  /** Guardrails: one warning per string entry that holds a time pattern. */
  lemma GuardrailsRule(guardrails: seq<Json>)
    ensures |Collect(guardrails, GuardrailWarnings)| == CountIf(guardrails, TimeHit)
  {
    forall k | 0 <= k < |guardrails|
      ensures |GuardrailWarnings(k, guardrails[k])| == if TimeHit(guardrails[k]) then 1 else 0
    {
      var g := guardrails[k];
      if TimeHit(g) {
        var p :| p in TimePatterns && Contains(Lower(g.s), p);
        var i :| 0 <= i < |TimePatterns| && TimePatterns[i] == p;
        MatchNeedsText(g.s, i);
      }
    }
    CollectOnePerEntry(guardrails, GuardrailWarnings, TimeHit);
  }

  lemma {:induction false} CountIfNone(xs: seq<Json>, p: Json -> bool)
    requires forall k | 0 <= k < |xs| :: !p(xs[k])
    ensures CountIf(xs, p) == 0
  {
    if xs != [] {
      CountIfNone(xs[..|xs| - 1], p);
    }
  }

  lemma {:induction false} CountIfBound(xs: seq<Json>, p: Json -> bool)
    ensures CountIf(xs, p) <= |xs|
  {
    if xs != [] {
      CountIfBound(xs[..|xs| - 1], p);
    }
  }

  /**
   * A guardrails value that is one string is iterated character by
   * character, and no single character holds a pattern, so it never warns.
   */
  lemma StringGuardrailsNeverWarn(s: string)
    ensures Collect(Iter(Str(s)), GuardrailWarnings) == []
  {
    var chars := Iter(Str(s));
    forall k | 0 <= k < |chars|
      ensures !TimeHit(chars[k])
    {
      assert chars[k] == Str([s[k]]);
      PatternsAreLong();
      assert |Lower([s[k]])| == 1;
    }
    CountIfNone(chars, TimeHit);
    GuardrailsRule(chars);
  }

  // ---------------------------------------------------------------------------
  // MCP tools, feedback loop, reference files
  // ---------------------------------------------------------------------------

  predicate LacksColon(tool: Json) {
    Sized(tool) && !In(":", tool)
  }

  /** One warning per tool that lacks a colon. */
  lemma ToolsRule(tools: seq<Json>)
    requires forall k | 0 <= k < |tools| :: Sized(tools[k])
    ensures |Collect(tools, ToolWarnings)| == CountIf(tools, LacksColon)
  {
    CollectOnePerEntry(tools, ToolWarnings, LacksColon);
  }

  /** The feedback-loop warning appears at most once, and never when the loop is configured. */
  lemma FeedbackRule(spec: seq<Field>)
    requires MentionsValidation(spec) ==> Validation(spec).Obj?
    ensures |FeedbackWarnings(spec)| <= 1
    ensures !MentionsValidation(spec) ==> FeedbackWarnings(spec) == []
    ensures Validation(spec).Obj? && Truthy(GetOr(Validation(spec).fields, "feedback_loop", Null))
            ==> FeedbackWarnings(spec) == []
  {
  }

  predicate Deep(ref: Json) {
    ReferenceAdmissible(ref) && CountChar(RefPath(ref).s, '/') > 2
  }

  predicate Remote(ref: Json) {
    ReferenceAdmissible(ref) && MentionsRemote(RefPath(ref).s)
  }

  /** One depth warning per reference path with more than two slashes, and one security warning per remote-looking path. */
  lemma ReferencesRule(refs: Json)
    requires Schema.ReferencesAdmissible(refs)
    ensures |ReferenceRule(refs, DepthWarnings)| == if Truthy(refs) then CountIf(refs.items, Deep) else 0
    ensures |ReferenceRule(refs, SecurityWarnings)| == if Truthy(refs) then CountIf(refs.items, Remote) else 0
  {
    if Truthy(refs) {
      CollectOnePerEntry(refs.items, DepthWarnings, Deep);
      CollectOnePerEntry(refs.items, SecurityWarnings, Remote);
    }
  }

  // ---------------------------------------------------------------------------
  // Code helper scripts
  // ---------------------------------------------------------------------------

  predicate ValidationHit(script: Json) {
    ScriptAdmissible(script) && IsValidationScript(script)
  }

  predicate NetworkHit(script: Json) {
    ContainsAny(Lower(Repr(script)), NetworkKeywords)
  }

  /**
   * With the helper disabled nothing is reported. Enabled: one warning for
   * empty scripts, one per execute-mode validation script when no validation
   * section is configured, and at most one network warning per script.
   */
  lemma ScriptsRule(spec: seq<Field>)
    requires ScriptsAdmissible(spec)
    ensures !Enabled(CodeHelper(spec)) ==> ScriptWarnings(spec) == [] && PlatformWarnings(spec) == []
    ensures Enabled(CodeHelper(spec)) && !Truthy(Scripts(CodeHelper(spec))) ==> ScriptWarnings(spec) == [NoScriptsWarning]
    ensures Enabled(CodeHelper(spec)) ==>
              |ScriptWarnings(spec)|
              == (if Truthy(Scripts(CodeHelper(spec))) then 0 else 1)
                 + (if Truthy(GetOr(spec, "validation", Null)) then 0
                    else CountIf(Iter(Scripts(CodeHelper(spec))), ValidationHit))
    ensures Enabled(CodeHelper(spec)) ==>
              |PlatformWarnings(spec)| == CountIf(Iter(Scripts(CodeHelper(spec))), NetworkHit)
              && |PlatformWarnings(spec)| <= |Iter(Scripts(CodeHelper(spec)))|
  {
    var helper := CodeHelper(spec);
    if Enabled(helper) {
      var scripts := Iter(Scripts(helper));
      TruthySized(Scripts(helper));
      CollectOnePerEntry(scripts, ValidationScriptWarnings, ValidationHit);
      CollectOnePerEntry(scripts, NetworkWarnings, NetworkHit);
      CountIfBound(scripts, NetworkHit);
    }
  }

  // ---------------------------------------------------------------------------
  // Estimated length
  // ---------------------------------------------------------------------------

  /** The length warning fires iff the estimate exceeds 400 lines, and then reports that estimate. */
  lemma LengthRule(spec: seq<Field>)
    requires LengthAdmissible(spec)
    ensures LengthWarnings(spec) == [] <==>
              10 + Len(GetOr(spec, "triggers", Arr([]))) + Len(GetOr(spec, "inputs", Arr([])))
              + Len(GetOr(spec, "guardrails", Arr([]))) + 2 * Len(GetOr(spec, "procedure", Arr([])))
              + 3 * Len(Sections(spec)) + Len(GetOr(spec, "example_triggers", Arr([]))) <= 400
    ensures LengthWarnings(spec) != [] ==> LengthWarnings(spec) == [LengthWarning(EstimatedLines(spec))]
  {
  }
}
