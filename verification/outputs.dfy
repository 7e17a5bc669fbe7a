/**
 * The output-contract plugin validator (`validate_outputs` in
 * code/plugins/validators/outputs.py): one error per over-long section
 * heading, then one for a contract with too many sections.
 */
module Outputs {
  import opened Text
  import opened Json

  const HeadingTail := " heading is too long" + " (keep under 100 characters)"

  function HeadingTooLong(n: nat): string {
    "Section " + NatToString(n) + HeadingTail
  }

  const ManySections := "Output contract has many sections" + " - consider grouping related content"

  function Contract(spec: seq<Field>): Json {
    GetOr(spec, "output_contract", Obj([]))
  }

  function Sections(spec: seq<Field>): Json
    requires Contract(spec).Obj?
  {
    GetOr(Contract(spec).fields, "sections", Arr([]))
  }

  function Heading(section: Json): Json
    requires section.Obj?
  {
    GetOr(section.fields, "heading", Str(""))
  }

  /** `section.get` needs a dict, and `len` a sized heading. */
  predicate SectionAdmissible(section: Json) {
    section.Obj? && Sized(Heading(section))
  }

  /** The specs on which `validate_outputs` returns instead of raising. */
  predicate Admissible(spec: seq<Field>) {
    Contract(spec).Obj? && Sized(Sections(spec))
    && forall k | 0 <= k < |Iter(Sections(spec))| :: SectionAdmissible(Iter(Sections(spec))[k])
  }

  predicate LongHeading(section: Json) {
    SectionAdmissible(section) && Len(Heading(section)) > 100
  }

  function HeadingErrors(i: nat, section: Json): (r: seq<string>)
    requires SectionAdmissible(section)
  {
    if Len(Heading(section)) > 100 then [HeadingTooLong(i + 1)] else []
  }

  /** The list `validate_outputs` returns. */
  function OutputErrors(spec: seq<Field>): (r: seq<string>)
    requires Admissible(spec)
  {
    Collect(Iter(Sections(spec)), HeadingErrors) + (if Len(Sections(spec)) > 20 then [ManySections] else [])
  }

  method ValidateOutputs(spec: seq<Field>) returns (errors: seq<string>)
    requires Admissible(spec)
    ensures errors == OutputErrors(spec)
  {
    errors := [];
    var contract := GetOr(spec, "output_contract", Obj([]));
    var sections := GetOr(contract.fields, "sections", Arr([]));
    var items := Iter(sections);
    for i := 0 to |items|
      invariant errors == Collect(items[..i], HeadingErrors)
    {
      CollectStep(items, HeadingErrors, i);
      var heading := GetOr(items[i].fields, "heading", Str(""));
      if Len(heading) > 100 {
        errors := errors + [HeadingTooLong(i + 1)];
      }
    }
    assert items[..|items|] == items;
    if Len(sections) > 20 {
      errors := errors + [ManySections];
    }
  }

  // ---------------------------------------------------------------------------
  // Properties
  // ---------------------------------------------------------------------------

  lemma HeadingTooLongInjective(a: nat, b: nat)
    requires HeadingTooLong(a) == HeadingTooLong(b)
    ensures a == b
  {
    NumberedInjective("Section ", a, HeadingTail, b, HeadingTail);
  }

  lemma NotManySections(n: nat)
    ensures HeadingTooLong(n) != ManySections
  {
    assert HeadingTooLong(n)[0] == 'S';
    assert ManySections[0] == 'O';
  }

  /** One error per section whose heading exceeds 100 characters. */
  lemma OneErrorPerLongHeading(spec: seq<Field>)
    requires Admissible(spec)
    ensures |OutputErrors(spec)| == CountIf(Iter(Sections(spec)), LongHeading) + (if Len(Sections(spec)) > 20 then 1 else 0)
  {
    CollectOnePerEntry(Iter(Sections(spec)), HeadingErrors, LongHeading);
  }

  /** Section `n` is reported, under its 1-based number, iff its heading is too long. */
  lemma LongHeadingNumbered(spec: seq<Field>, n: nat)
    requires Admissible(spec)
    ensures HeadingTooLong(n) in OutputErrors(spec) <==>
              1 <= n <= |Iter(Sections(spec))| && Len(Heading(Iter(Sections(spec))[n - 1])) > 100
  {
    var items := Iter(Sections(spec));
    NotManySections(n);
    CollectMember(items, HeadingErrors, HeadingTooLong(n));
    if HeadingTooLong(n) in Collect(items, HeadingErrors) {
      var k :| 0 <= k < |items| && HeadingTooLong(n) in HeadingErrors(k, items[k]);
      HeadingTooLongInjective(n, k + 1);
    }
    if 1 <= n <= |items| && Len(Heading(items[n - 1])) > 100 {
      assert HeadingTooLong(n) in HeadingErrors(n - 1, items[n - 1]);
    }
  }

  /** Past 20 sections exactly one further error is added, and it comes last. */
  lemma ManySectionsLast(spec: seq<Field>)
    requires Admissible(spec)
    ensures Len(Sections(spec)) > 20 ==>
              OutputErrors(spec)[|OutputErrors(spec)| - 1] == ManySections
              && multiset(OutputErrors(spec))[ManySections] == 1
    ensures Len(Sections(spec)) <= 20 ==> ManySections !in OutputErrors(spec)
  {
    var items := Iter(Sections(spec));
    var headings := Collect(items, HeadingErrors);
    assert ManySections !in headings by {
      if ManySections in headings {
        CollectMember(items, HeadingErrors, ManySections);
        var k :| 0 <= k < |items| && ManySections in HeadingErrors(k, items[k]);
        NotManySections(k + 1);
      }
    }
    assert multiset(OutputErrors(spec)) == multiset(headings) + multiset(if Len(Sections(spec)) > 20 then [ManySections] else []);
  }

  /** No output contract, or no sections in it, means no errors. */
  lemma NothingToCheck(spec: seq<Field>)
    ensures !HasKey(spec, "output_contract") ==> Admissible(spec) && OutputErrors(spec) == []
    ensures Contract(spec).Obj? && !HasKey(Contract(spec).fields, "sections") ==>
              Admissible(spec) && OutputErrors(spec) == []
  {
    if !HasKey(spec, "output_contract") {
      assert GetOr([], "sections", Arr([])) == Arr([]);
    }
  }

  /** A dict section without a heading is measured as "" and never reported. */
  lemma MissingHeadingIsEmpty(i: nat, section: Json)
    requires section.Obj? && !HasKey(section.fields, "heading")
    ensures SectionAdmissible(section) && HeadingErrors(i, section) == []
  {
  }
}
