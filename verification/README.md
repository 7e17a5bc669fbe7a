# Skill-spec validation and rendering, modelled in Dafny

This project models the deterministic core of a skill-building toolkit. A
*skill spec* is a JSON document that describes an agent skill: its name,
description, triggers, inputs, guardrails, procedure, output contract, an
optional code helper, MCP tools and reference files. The toolkit checks such
a spec and renders templates from it. The model covers:

- **The template renderer** (`code/plugins/renderers/jinja_renderer.py`),
  modules `JinjaRenderer` and `RendererProperties`. It is a hand-rolled
  subset of Jinja. `{% for x in a.b -%} … {% endfor %}` blocks are expanded
  first. `{{ dotted.path }}` markers are resolved after that. The unused
  `{% if %}` pass is modelled as well. Each regular expression becomes an
  explicit scanner over the text, and `re.sub` becomes the generic
  left-to-right `Sub`.
- **The structural validator** (`validate_spec` and
  `validate_rendered_template` in `code/validate.py`), modules `Validate`
  and `ValidateProperties`. It reports missing fields, field-value rules,
  the output-contract sections and tables, the code helper, MCP tools and
  reference files.
- **The best-practice linter** (`validate_best_practices` in
  `code/schema.py`, with its nested `check_paths_recursive` and
  `check_time_sensitive`), modules `Schema` and `SchemaProperties`.
- **The plugin validators**:
  - `validate_structure` and `validate_triggers`, module `Structure`;
  - `validate_outputs`, module `Outputs`;
  - the custom-validator registry, module `Custom`. `CUSTOM_VALIDATORS` is a
    class `Registry` whose insertion-ordered table `register_validator`
    updates in place.

Two shared modules support them:

- `Json`: the decoded JSON value. Objects keep their key order. The module
  also has the Python object protocol the source relies on: `.get`,
  truthiness, `len`, iteration, `in`, hashing into a set, `str` and `repr`.
- `Text`: the string builtins, ASCII only. These are `lower`, `strip`,
  `split`, `isspace`, `\w`, `str(int)` and the checks for substrings and
  endings.

Each method that appends step by step in the source is a Dafny method with a
loop. It is proved equal to a specification function, and the properties
are lemmas about that function. The source would raise an exception on some
inputs: `.get` on a non-dict, `len` of a number, `.strip()` on a non-string.
Those inputs are excluded by `requires` predicates named `…Admissible` that
state exactly when the source does not raise.

## Model

| member | source | states |
|---|---|---|
| Json.ReprStrQuotes | code/plugins/renderers/jinja_renderer.py:41 | `str` of a non-str value writes each str inside it between equal quotes, `"` exactly when the str holds a `'` and no `"`, otherwise `'` |
| JinjaRenderer.SkipSpaces | code/plugins/renderers/jinja_renderer.py:31 | `\s*` consumes the longest whitespace run: everything up to the result is space, and the next character is not |
| JinjaRenderer.SkipWord | code/plugins/renderers/jinja_renderer.py:48 | `\w*` consumes the longest run of word characters |
| JinjaRenderer.PathEnd | code/plugins/renderers/jinja_renderer.py:48 | `\w+(?:\.\w+)*` matches iff a word character is at the start, and the match ends before a non-word character |
| JinjaRenderer.FindBrace | code/plugins/renderers/jinja_renderer.py:43 | `[^}]+` runs to the first `}` (or the end), and no `}` lies before it |
| JinjaRenderer.MatchVariable | code/plugins/renderers/jinja_renderer.py:43 | a variable match is non-empty and lies inside the text |
| JinjaRenderer.ResolveVariable | code/plugins/renderers/jinja_renderer.py:30-41 | the reassigning walk over the dotted name returns `VarText`: "" for a missing key, a non-dict on the way or a final None, else `str(value)` |
| JinjaRenderer.LookupDeadEnd | code/plugins/renderers/jinja_renderer.py:35-38 | once the walk reaches a non-dict, the whole path resolves to nothing |
| JinjaRenderer.MatchForTag | code/plugins/renderers/jinja_renderer.py:48 | a recognised loop opener always ends in `-%}` or `-}` |
| JinjaRenderer.DashClose | code/plugins/renderers/jinja_renderer.py:48 | `-%?\}` leaves the text just after a dash-closed tag |
| JinjaRenderer.MatchEndTag | code/plugins/renderers/jinja_renderer.py:48 | a closing tag match is non-empty and lies inside the text |
| JinjaRenderer.FindEndTag | code/plugins/renderers/jinja_renderer.py:48 | the lazy `(.*?)` stops at the FIRST index where the closer matches; None iff it matches nowhere |
| JinjaRenderer.MatchLoop | code/plugins/renderers/jinja_renderer.py:48 | the loop block's body is the stripped text between the dash-closed opener and the first following `{% endfor %}` |
| JinjaRenderer.MatchItem | code/plugins/renderers/jinja_renderer.py:76-80 | an item-marker match is non-empty and lies inside the text |
| JinjaRenderer.MatchLoopVar | code/plugins/renderers/jinja_renderer.py:81-85 | a `loop.` marker match is non-empty and lies inside the text |
| JinjaRenderer.RenderLoop | code/plugins/renderers/jinja_renderer.py:50-88 | the path walk and the enumerate loop produce `LoopText`: the copies of the body for the list at the path, or "" |
| JinjaRenderer.MatchIfTag | code/plugins/renderers/jinja_renderer.py:95 | an `{% if path %}` match lies inside the text |
| JinjaRenderer.MatchIf | code/plugins/renderers/jinja_renderer.py:95 | a conditional block match lies inside the text |
| JinjaRenderer.RenderConditional | code/plugins/renderers/jinja_renderer.py:97-111 | the condition walk yields the content iff the value at the path is truthy, else "" |
| RendererProperties.SubUnchanged | code/plugins/renderers/jinja_renderer.py:43 | where the pattern matches nowhere, `re.sub` copies the text |
| RendererProperties.SubWholeMatch | code/plugins/renderers/jinja_renderer.py:43 | a match that covers the whole text is replaced by its replacement alone |
| RendererProperties.NoTagNoLoops | code/plugins/renderers/jinja_renderer.py:48-90 | text without `{%` passes the loop pass unchanged |
| RendererProperties.NoPercentNoTag | code/plugins/renderers/jinja_renderer.py:48 | text without `%` contains no `{%` |
| RendererProperties.RenderPlain | code/plugins/renderers/jinja_renderer.py:17-25 | text with neither `{{` nor `{%` is returned unchanged by each pass and by `render` |
| RendererProperties.NoBraceUnchanged | code/plugins/renderers/jinja_renderer.py:43-85 | text without `{` is unchanged by `render` and by the item and loop-variable substitutions in a body |
| RendererProperties.LookupHeadFirst | code/plugins/renderers/jinja_renderer.py:33-38 | the dotted lookup takes the first key from the dict at hand and then descends; it fails on a missing key or a non-dict |
| RendererProperties.VarTextSingleKey | code/plugins/renderers/jinja_renderer.py:30-41 | for an undotted name: "" when the context is no dict, the key is missing or the value is None; otherwise `str(value)` |
| RendererProperties.VariableTagWhole | code/plugins/renderers/jinja_renderer.py:31-43 | `{{ inner }}` is matched whole, and its captured name is `inner` stripped |
| RendererProperties.VariableMarker | code/plugins/renderers/jinja_renderer.py:9-43 | `render` of `{{ inner }}` alone is the lookup of the stripped name |
| RendererProperties.NoDashNoClose | code/plugins/renderers/jinja_renderer.py:48 | without a `-` no tag counts as a loop opener |
| RendererProperties.NoDashNoLoops | code/plugins/renderers/jinja_renderer.py:48-90 | text without `-` has no loop block, so the loop pass returns it unchanged |
| RendererProperties.PlainForStaysLiteral | code/plugins/renderers/jinja_renderer.py:48 | `{% for x in items %}{{ x }}, {% endfor %}` stays literal text after the loop pass |
| RendererProperties.ForTagMatch | code/plugins/renderers/jinja_renderer.py:48 | `{% for <item> in <path> -%}` is recognised and captures both names |
| RendererProperties.EndForMatch | code/plugins/renderers/jinja_renderer.py:48 | `{% endfor %}` is recognised as the closer |
| RendererProperties.LoopBlockMatch | code/plugins/renderers/jinja_renderer.py:48 | opener + body + `{% endfor %}`, where no `{% endfor %}` starts inside the body (other tags may), is one block that closes at that closer; the body is stripped |
| RendererProperties.RenderLoopBlock | code/plugins/renderers/jinja_renderer.py:17-90 | such a block followed by text without `{%` is replaced by its expansion; `render` then resolves variables in the result against the same outer context |
| RendererProperties.NestedLoopClosesAtFirst | code/plugins/renderers/jinja_renderer.py:48-90 | loops do not nest: in `{% for x in xs -%}{% for y in ys -%}B{% endfor %}A{% endfor %}` the first closer ends the outer loop, whose body is the inner opener and B, and `A{% endfor %}` is left as text |
| RendererProperties.WalkListIsLookup | code/plugins/renderers/jinja_renderer.py:56-62 | the list walk is the dotted lookup with [] for a dead end |
| RendererProperties.LoopTextByLookup | code/plugins/renderers/jinja_renderer.py:56-88 | a missing path or a non-list gives ""; a list gives the expansion of its elements |
| RendererProperties.LoopOverEmptyList | code/plugins/renderers/jinja_renderer.py:68-88 | an empty list renders as "" |
| RendererProperties.ExpandIsConcat | code/plugins/renderers/jinja_renderer.py:68-88 | the expansion is the concatenation of one body copy per element, in list order |
| RendererProperties.LoopVarValues | code/plugins/renderers/jinja_renderer.py:72-83 | `loop.index` is i+1, `loop.index0` is i, and any other key is "" |
| RendererProperties.ItemMarker | code/plugins/renderers/jinja_renderer.py:76-80 | in a body `{{ item }}` becomes `str(item)` |
| RendererProperties.ItemFieldMarker | code/plugins/renderers/jinja_renderer.py:76-80 | `{{ item.f }}` becomes `str(item.get(f))` for a dict item, "None" when f is absent, and `str(item)` for a non-dict |
| RendererProperties.LoopVarMarker | code/plugins/renderers/jinja_renderer.py:81-85 | in copy i, `{{ loop.index }}` is i+1, `{{ loop.index0 }}` is i, any other `loop.x` is "" |
| RendererProperties.MissingFieldIsNone | code/plugins/renderers/jinja_renderer.py:78 | a body `{{ item.f }}` renders "None" for a dict item lacking f |
| RendererProperties.WalkConditionIsLookup | code/plugins/renderers/jinja_renderer.py:102-108 | the condition walk is the dotted lookup with None for a dead end |
| RendererProperties.IfTextByLookup | code/plugins/renderers/jinja_renderer.py:97-111 | a conditional keeps its content iff its dotted path leads to a truthy value |
| RendererProperties.IfTagMatch | code/plugins/renderers/jinja_renderer.py:95 | `{% if <path> %}` is recognised and captures the path |
| RendererProperties.EndIfMatch | code/plugins/renderers/jinja_renderer.py:95 | `{% endif %}` is recognised as the closer |
| RendererProperties.IfBlockMatch | code/plugins/renderers/jinja_renderer.py:95 | opener + content + `{% endif %}`, where no `{% endif %}` starts inside the content (other tags may), is one block that closes at that closer; the content is kept unstripped |
| RendererProperties.RenderIfBlock | code/plugins/renderers/jinja_renderer.py:93-113 | the conditional pass replaces such a block, followed by text without `{%`, by its content or by "" |
| RendererProperties.NestedIfClosesAtFirst | code/plugins/renderers/jinja_renderer.py:95-113 | conditionals do not nest: in `{% if p %}{% if q %}B{% endif %}A{% endif %}` the first closer ends the outer block, whose content is the inner opener and B, and `A{% endif %}` is left as text |
| Validate.Headings | code/validate.py:90 | never more headings than sections |
| Validate.HeadingsHashable | code/validate.py:90-91 | when every dict section's heading hashes, so does every collected heading, so `set(headings)` is defined |
| Validate.MissingFieldErrors | code/validate.py:28-31 | one message per absent field, in list order |
| Validate.CheckRequiredFields | code/validate.py:27-31 | the loop reports the absent required fields in the order of the required list |
| Validate.CheckLength | code/validate.py:33-45 | the name and description blocks report empty or too long |
| Validate.CheckArray | code/validate.py:47-73 | the triggers, inputs, guardrails and procedure blocks report non-list or too few items |
| Validate.CheckFields | code/validate.py:33-73 | the six field checks run in source order |
| Validate.CheckContract | code/validate.py:75-115 | the output-contract block: not a dict, title, sections, tables |
| Validate.CheckSections | code/validate.py:83-102 | the sections are checked for list-ness, emptiness, unique headings and per-section problems |
| Validate.CheckSectionEntries | code/validate.py:95-102 | the per-section loop reports, in section order, a non-dict section once and otherwise each missing heading and `required` key |
| Validate.CheckTables | code/validate.py:104-115 | the per-table loop reports non-dict tables, tables without columns and duplicate column names |
| Validate.CheckCodeHelper | code/validate.py:117-121 | a present code_helper that is not a dict is reported |
| Validate.CheckTools | code/validate.py:123-135 | the per-tool loop reports non-string tools and tools without `:` |
| Validate.CheckReferences | code/validate.py:137-149 | the per-reference loop reports non-dict entries and backslashes in paths |
| Validate.ValidateSpec | code/validate.py:19-164 | returns exactly the structural errors (or the single file or JSON error); best-practice warnings are computed iff there are none, and they never join the returned list |
| Validate.ValidateRenderedTemplate | code/validate.py:167-186 | no error iff there is no `{{`/`{%` left and there are at most 500 lines; the placeholder error comes before the length error |
| ValidateProperties.RequiredListsAgree | code/schema.py:11 | the schema's required list equals the validator's |
| ValidateProperties.MissingMessageInjective | code/validate.py:31 | different fields get different missing-field messages |
| ValidateProperties.MissingFieldCount | code/validate.py:28-31 | for a list without repeats each absent field is reported exactly once, a present one never |
| ValidateProperties.MissingFieldMessages | code/validate.py:31 | every missing-field message starts with "M" |
| ValidateProperties.ValueMessages | code/validate.py:33-149 | no later message starts like a missing-field message |
| ValidateProperties.RequiredFieldsDistinct | code/validate.py:28 | the required list has no repeats |
| ValidateProperties.MissingFieldsReportedOnce | code/validate.py:27-164 | the missing-field messages come first, and each required field's message appears once iff the field is absent |
| ValidateProperties.AbsentFieldsAlsoFailChecks | code/validate.py:34-87 | an absent name gives "cannot be empty", absent triggers give "at least 2 items", an absent contract gives both the title and the sections errors |
| ValidateProperties.LengthRule | code/validate.py:33-45 | at most one error, and none iff the value is non-empty and within the limit |
| ValidateProperties.ArrayRule | code/validate.py:47-73 | at most one error, and none iff the value is a list with enough items; a non-list gets only the array error |
| ValidateProperties.NonDictContract | code/validate.py:77-78 | a non-dict contract yields exactly one error |
| ValidateProperties.SectionMessageNotUniqueness | code/validate.py:94-102 | the per-section messages never include the uniqueness message |
| ValidateProperties.DuplicateHeadingsReportedOnce | code/validate.py:89-92 | the uniqueness message appears once if headings repeat and never otherwise |
| ValidateProperties.HeadingsConcat | code/validate.py:90 | collecting headings distributes over concatenation |
| ValidateProperties.HeadingsMembers | code/validate.py:90 | a value is a collected heading iff some dict section has it as its heading |
| ValidateProperties.HeadingsOfDicts | code/validate.py:90 | when all sections are dicts there is one heading per section, each that section's `get("heading")`, in order |
| ValidateProperties.HeadingsSkipOthers | code/validate.py:90 | sections that are not dicts contribute no heading |
| ValidateProperties.TwoUnheadedSections | code/validate.py:89-92 | two dict sections without headings trigger the uniqueness message |
| ValidateProperties.SectionRule | code/validate.py:94-102 | a non-dict section gets only "must be an object"; a dict one gets one error per missing heading and per missing `required` |
| ValidateProperties.TablesOnlyWhenNonEmptyList | code/validate.py:104-105 | tables are examined only when they form a non-empty list |
| ValidateProperties.TableRule | code/validate.py:106-115 | a table yields at most one error; a dict table passes iff it has a column and no repeated column name |
| ValidateProperties.ToolsRule | code/validate.py:123-135 | falsy tools give nothing; a non-list gives one error; a list gives one error per bad entry |
| ValidateProperties.ReferencesRule | code/validate.py:137-149 | falsy references give nothing; a non-list gives one error; a list gives one error per bad entry |
| Schema.FirstMatch | code/schema.py:333-340 | None iff no pattern occurs; otherwise the first pattern in list order that occurs |
| Schema.CheckPathsRecursive | code/schema.py:307-322 | the recursive scan appends exactly `PathWarnings` |
| Schema.CheckTimeSensitive | code/schema.py:330-340 | a string field gets exactly `TimeWarnings`: one warning naming the first pattern found, or none |
| Schema.FindFirstPattern | code/schema.py:333-340 | the pattern loop stops at the first pattern in list order that occurs, and finds none only when no pattern occurs |
| Schema.CheckName | code/schema.py:259-282 | the name rules give exactly `NameWarnings` |
| Schema.CheckDescription | code/schema.py:284-304 | the description rules give exactly `DescriptionWarnings` |
| Schema.CheckGuardrails | code/schema.py:342-344 | one time-sensitive scan per string guardrail |
| Schema.CheckTools | code/schema.py:346-353 | one tool check per MCP tool |
| Schema.CheckFeedbackLoop | code/schema.py:355-368 | the feedback-loop rule |
| Schema.CheckReferenceDepth | code/schema.py:370-381 | the depth check per reference file, when the list is truthy |
| Schema.CheckScripts | code/schema.py:383-401 | the code-helper script rules |
| Schema.ScanValidationScripts | code/schema.py:393-401 | nothing when validation is configured, else one check per script |
| Schema.ScanValidationScript | code/schema.py:395-401 | one script gives the validation warning exactly when it is executed, its path mentions "validate" in any case, and no validation is configured |
| Schema.CheckLength | code/schema.py:403-420 | the accumulated line estimate and its warning |
| Schema.CheckPlatform | code/schema.py:422-436 | the platform rule over enabled code-helper scripts |
| Schema.ScanNetworkScripts | code/schema.py:428-436 | one network check per script |
| Schema.CheckSecurity | code/schema.py:438-446 | the remote-path check per reference file, when the list is truthy |
| Schema.ValidateBestPractices | code/schema.py:252-448 | the warnings are all the rules' warnings, in source order |
| SchemaProperties.NameMessageLengths | code/schema.py:268-282 | the gerund and vague-term warnings differ, so each can be counted on its own |
| SchemaProperties.NameRule | code/schema.py:259-282 | a falsy name gets nothing; at most two warnings; the gerund warning iff the name is non-empty and no word ends in "ing"; the vague-term warning exactly once iff a vague word occurs |
| SchemaProperties.DescriptionMessageLengths | code/schema.py:284-304 | the person and WHAT + WHEN warnings differ |
| SchemaProperties.DescriptionRule | code/schema.py:284-304 | at most two warnings; the person warning once iff a first/second-person phrase occurs; the WHAT + WHEN warning once iff no when-indicator occurs |
| SchemaProperties.NoSpaceNoPhrase | code/schema.py:298-299 | a phrase that starts with a space cannot occur in text without spaces |
| SchemaProperties.WhenNeedsSpaces | code/schema.py:297-304 | a non-empty description without a space always gets the WHAT + WHEN warning |
| SchemaProperties.PathWarningsCount | code/schema.py:307-322 | the scan warns exactly once per dict entry, at any depth, whose string value holds a backslash |
| SchemaProperties.FieldWarningsCount | code/schema.py:309-317 | the count, over the entries of a dict |
| SchemaProperties.ItemWarningsCount | code/schema.py:318-320 | the count, over the items of a list |
| SchemaProperties.ListedStringsNotScanned | code/schema.py:311-320 | strings that sit directly in a list are never reported |
| SchemaProperties.BackslashFix | code/schema.py:311-316 | the warning ends with the suggested value, in which every backslash became `/` and none remains |
| SchemaProperties.PatternsAreLong | code/schema.py:325-328 | every time pattern has at least four characters |
| SchemaProperties.MatchNeedsText | code/schema.py:330-340 | a text containing a time pattern is non-empty |
| SchemaProperties.TimeRule | code/schema.py:330-340 | at most one warning per scanned field, and none for a non-string or a text without a pattern |
| SchemaProperties.TimeNamesFirstPattern | code/schema.py:330-340 | the warning names the first pattern, in list order, that occurs |
| SchemaProperties.FirstMatchAt | code/schema.py:333-340 | the first match is the earliest pattern that occurs |
| SchemaProperties.GuardrailsRule | code/schema.py:342-344 | one warning per string guardrail that holds a time pattern |
| SchemaProperties.StringGuardrailsNeverWarn | code/schema.py:343-344 | a guardrails value that is a single string gives no warning, because iterating it yields one-character strings |
| SchemaProperties.ToolsRule | code/schema.py:346-353 | one warning per MCP tool lacking `:` |
| SchemaProperties.FeedbackRule | code/schema.py:355-368 | at most one feedback-loop warning; none unless validation is mentioned; none when `validation.feedback_loop` is truthy |
| SchemaProperties.ReferencesRule | code/schema.py:370-446 | one depth warning per path with more than two `/`, and one security warning per remote-looking path |
| SchemaProperties.ScriptsRule | code/schema.py:383-436 | disabled helper: nothing. Enabled: one warning for missing scripts, plus one per execute-mode validate script while validation is unset, and at most one network warning per script |
| SchemaProperties.LengthRule | code/schema.py:403-420 | the warning fires iff 10 + triggers + inputs + guardrails + 2·procedure + 3·sections + example_triggers exceeds 400, and then reports that estimate |
| Structure.ValidateStructure | code/plugins/validators/structure.py:7-23 | one error per exceeded bound and nothing else: the name error iff its length is over 100, the purpose error iff its length is over 500, the name error first |
| Structure.AbsentKeysPass | code/plugins/validators/structure.py:14-19 | absent name and purpose default to "" and give no error |
| Structure.ValidateTriggers | code/plugins/validators/structure.py:26-39 | the loop appends exactly the per-trigger errors in trigger order |
| Structure.TriggerMessagesDiffer | code/plugins/validators/structure.py:35-37 | trigger messages determine the trigger's number and kind |
| Structure.LongBlankTrigger | code/plugins/validators/structure.py:34-37 | a long all-whitespace trigger gets "too long" and then "is empty" |
| Structure.LongTriggerNumbered | code/plugins/validators/structure.py:33-35 | trigger n (from 1) is reported too long iff it has over 200 characters |
| Structure.BlankTriggerNumbered | code/plugins/validators/structure.py:33-37 | trigger n (from 1) is reported empty iff it is blank after strip |
| Structure.NoTriggersNoErrors | code/plugins/validators/structure.py:31 | no triggers key means no errors |
| Outputs.ValidateOutputs | code/plugins/validators/outputs.py:7-26 | the loop and the final count check return exactly `OutputErrors` |
| Outputs.HeadingTooLongInjective | code/plugins/validators/outputs.py:20 | heading messages determine the section number |
| Outputs.NotManySections | code/plugins/validators/outputs.py:20-24 | heading messages differ from the many-sections message |
| Outputs.OneErrorPerLongHeading | code/plugins/validators/outputs.py:17-24 | the error count is the number of long headings, plus one past 20 sections |
| Outputs.LongHeadingNumbered | code/plugins/validators/outputs.py:17-20 | section n (from 1) is reported iff its heading exceeds 100 characters |
| Outputs.ManySectionsLast | code/plugins/validators/outputs.py:23-24 | past 20 sections exactly one further error is added, last; otherwise none |
| Outputs.NothingToCheck | code/plugins/validators/outputs.py:13-14 | a missing output_contract or sections gives no errors |
| Outputs.MissingHeadingIsEmpty | code/plugins/validators/outputs.py:18 | a dict section without a heading produces no error |
| Custom.Registry.constructor | code/plugins/validators/custom.py:8 | the registry starts empty and valid |
| Custom.Registry.Register | code/plugins/validators/custom.py:11-19 | stores the function under the name; a new name goes last, a known name keeps its place; nothing else changes |
| Custom.Registry.Run | code/plugins/validators/custom.py:22-31 | runs every validator once in registration order, concatenating contributions; has no `modifies`, so the registry is untouched |
| Custom.EmptyRegistry | code/plugins/validators/custom.py:24-31 | an empty registry yields [] |
| Custom.RunAllConcat | code/plugins/validators/custom.py:25-28 | running a list of names is running its parts one after the other |
| Custom.RunSplitsAt | code/plugins/validators/custom.py:25-30 | validator k contributes its errors between the earlier and later validators' |
| Custom.FailureIsIsolated | code/plugins/validators/custom.py:29-30 | a failing validator yields one "Custom validator '<name>' failed: …" message, and the later ones still run |
| Custom.RunAllAgree | code/plugins/validators/custom.py:25-28 | only the functions stored under registered names matter |
| Custom.ReplacedKeepsPosition | code/plugins/validators/custom.py:19-25 | re-registering a name changes only that contribution, at its original position |

## Left out

- Opening and decoding the spec file (code/validate.py:19-25) are not modelled. `ValidateSpec` receives a `Document` that is `NotFound`, `BadJson(detail)` or `Parsed(spec)`. The JSON decoder's exact error text is a parameter.
- The `print` calls in code/validate.py:152-162 are left out. The best-practice warnings they would print are returned in `linted` instead.
- JSON floating-point numbers are left out. Numbers are integers.
- `str` and `repr` of JSON values drop Python's escape sequences (a backslash, a control character or a quote that clashes with the chosen quote). The quote itself is chosen as Python chooses it. The keyword scans over `str(spec)` (code/schema.py:358, 429) therefore work on a repr without escapes.
- Json.Get: a dict with a repeated key is not modelled. `Get` returns the first entry under the key, where `json.load` keeps the last; the two agree when keys are distinct.
- String builtins are ASCII only: `lower`, `strip`, `isspace`, `split` and `\w`.
- The regular-expression engine is not modelled. Each pattern is an explicit scanner that matches exactly what the pattern matches.
- Inputs on which the source raises are excluded by `requires`, not modelled as outcomes: `.get` on a non-dict, `len` of a number, string methods on non-strings. Each `…Admissible` predicate names the condition.
- Custom.Registry.Run: an exception raised by a validator is modelled as its `Failed(message)` outcome. Python's exception machinery is not modelled.
- Custom.Registry: the registry is a module-level dict in the source. Here it is an object that callers hold.
- Custom.Validator: a validator is a function of the spec's fields. In the source it receives the shared spec dict and may change it for the validators that run after it; that is not modelled. Registering a validator from inside a running validator, which makes the loop at code/plugins/validators/custom.py:25 raise, is not modelled either.
- `SKILL_SPEC_SCHEMA` and `load_schema` appear only as the required list (code/schema.py:11). The rest of the JSON schema is not used by the modelled checks.
- `_render_conditionals` is modelled, but `render` never calls it, in the source and here alike.
- Loop openers without a `-`, such as `{% for x in items %}`, are not expanded, because the pattern at code/plugins/renderers/jinja_renderer.py:48 requires the dash. The toolkit's documentation shows such loops as expanding. The model follows the code.
- The rest of the repository is not part of this model: the CLI, the scaffolder, the packager, skill-directory detection, the file-system plugin and the git MCP server. They are file, process and environment plumbing.
