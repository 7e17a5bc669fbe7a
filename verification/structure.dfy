/**
 * The generic structure plugin validators (code/plugins/validators/structure.py):
 * `validate_structure` bounds the name and purpose lengths, and
 * `validate_triggers` reports over-long and blank trigger phrases.
 */
module Structure {
  import opened Text
  import opened Json

  const NameTooLong := "Name should be 100 characters or less"
  const PurposeTooLong := "Purpose should be 500 characters or less" + " (keep it concise)"

  const LongTail := " is too long" + " (keep under 200 characters)"
  const EmptyTail := " is empty"

  function TriggerTooLong(n: nat): string {
    "Trigger " + NatToString(n) + LongTail
  }

  function TriggerEmpty(n: nat): string {
    "Trigger " + NatToString(n) + EmptyTail
  }

  function Name(spec: seq<Field>): Json {
    GetOr(spec, "name", Str(""))
  }

  function Purpose(spec: seq<Field>): Json {
    GetOr(spec, "purpose", Str(""))
  }

  /** `len` accepts the name and the purpose. */
  predicate StructureAdmissible(spec: seq<Field>) {
    Sized(Name(spec)) && Sized(Purpose(spec))
  }

  // ---------------------------------------------------------------------------
  // validate_structure
  // ---------------------------------------------------------------------------

  /**
   * What `validate_structure` returns: one error per exceeded bound and no
   * other, the name's before the purpose's.
   */
  method ValidateStructure(spec: seq<Field>) returns (errors: seq<string>)
    requires StructureAdmissible(spec)
    ensures |errors| == (if Len(Name(spec)) > 100 then 1 else 0) + (if Len(Purpose(spec)) > 500 then 1 else 0)
    ensures NameTooLong in errors <==> Len(Name(spec)) > 100
    ensures PurposeTooLong in errors <==> Len(Purpose(spec)) > 500
    ensures errors != [] && Len(Name(spec)) > 100 ==> errors[0] == NameTooLong
    ensures forall m | m in errors :: m == NameTooLong || m == PurposeTooLong
  {
    errors := [];
    var name := GetOr(spec, "name", Str(""));
    if Len(name) > 100 {
      errors := errors + [NameTooLong];
    }
    var purpose := GetOr(spec, "purpose", Str(""));
    if Len(purpose) > 500 {
      errors := errors + [PurposeTooLong];
    }
    assert NameTooLong[0] == 'N' && PurposeTooLong[0] == 'P';
  }

  /** Absent keys default to "" and give no error. */
  lemma AbsentKeysPass(spec: seq<Field>)
    requires !HasKey(spec, "name") && !HasKey(spec, "purpose")
    ensures StructureAdmissible(spec) && Len(Name(spec)) <= 100 && Len(Purpose(spec)) <= 500
  {
  }

  // ---------------------------------------------------------------------------
  // validate_triggers
  // ---------------------------------------------------------------------------

  function Triggers(spec: seq<Field>): Json {
    GetOr(spec, "triggers", Arr([]))
  }

  /** `enumerate` needs an iterable, `len` a sized trigger and `.strip()` a string. */
  predicate TriggersAdmissible(spec: seq<Field>) {
    Sized(Triggers(spec)) && forall k | 0 <= k < |Iter(Triggers(spec))| :: Iter(Triggers(spec))[k].Str?
  }

  predicate LongTrigger(trigger: Json) {
    trigger.Str? && |trigger.s| > 200
  }

  predicate BlankTrigger(trigger: Json) {
    trigger.Str? && IsBlank(trigger.s)
  }

  /** A trigger's errors; `len(trigger.strip()) == 0` is `IsBlank` by `StripEmptyIffBlank`. */
  function TriggerErrors(i: nat, trigger: Json): (r: seq<string>)
    requires trigger.Str?
  {
    (if |trigger.s| > 200 then [TriggerTooLong(i + 1)] else [])
    + (if IsBlank(trigger.s) then [TriggerEmpty(i + 1)] else [])
  }

  /** The list `validate_triggers` returns. */
  function TriggersErrors(spec: seq<Field>): (r: seq<string>)
    requires TriggersAdmissible(spec)
  {
    Collect(Iter(Triggers(spec)), TriggerErrors)
  }

  method ValidateTriggers(spec: seq<Field>) returns (errors: seq<string>)
    requires TriggersAdmissible(spec)
    ensures errors == TriggersErrors(spec)
  {
    errors := [];
    var triggers := Iter(Triggers(spec));
    assert forall k | 0 <= k < |triggers| :: triggers[k].Str?;
    for i := 0 to |triggers|
      invariant errors == Collect(triggers[..i], TriggerErrors)
    {
      CollectStep(triggers, TriggerErrors, i);
      var trigger := triggers[i].s;
      var more := [];
      if |trigger| > 200 {
        more := more + [TriggerTooLong(i + 1)];
      }
      if |Strip(trigger)| == 0 {
        more := more + [TriggerEmpty(i + 1)];
      }
      assert more == TriggerErrors(i, triggers[i]) by {
        StripEmptyIffBlank(trigger);
      }
      errors := errors + more;
    }
    assert triggers[..|triggers|] == triggers;
  }

  // ---------------------------------------------------------------------------
  // Properties
  // ---------------------------------------------------------------------------

  lemma TriggerMessagesDiffer(a: nat, b: nat)
    ensures TriggerTooLong(a) == TriggerTooLong(b) ==> a == b
    ensures TriggerEmpty(a) == TriggerEmpty(b) ==> a == b
    ensures TriggerTooLong(a) != TriggerEmpty(b)
  {
    assert LongTail[0] == ' ' && EmptyTail[0] == ' ';
    if TriggerTooLong(a) == TriggerTooLong(b) {
      NumberedInjective("Trigger ", a, LongTail, b, LongTail);
    }
    if TriggerEmpty(a) == TriggerEmpty(b) {
      NumberedInjective("Trigger ", a, EmptyTail, b, EmptyTail);
    }
    if TriggerTooLong(a) == TriggerEmpty(b) {
      NumberedInjective("Trigger ", a, LongTail, b, EmptyTail);
    }
  }

  /** A long all-whitespace trigger gets both errors, "too long" first. */
  lemma LongBlankTrigger(i: nat, trigger: Json)
    requires LongTrigger(trigger) && BlankTrigger(trigger)
    ensures TriggerErrors(i, trigger) == [TriggerTooLong(i + 1), TriggerEmpty(i + 1)]
  {
  }

  /** Trigger `n`, counted from 1, is reported too long iff it has more than 200 characters. */
  lemma LongTriggerNumbered(spec: seq<Field>, n: nat)
    requires TriggersAdmissible(spec)
    ensures TriggerTooLong(n) in TriggersErrors(spec) <==>
              1 <= n <= |Iter(Triggers(spec))| && LongTrigger(Iter(Triggers(spec))[n - 1])
  {
    var items := Iter(Triggers(spec));
    assert forall k | 0 <= k < |items| :: items[k].Str?;
    CollectMember(items, TriggerErrors, TriggerTooLong(n));
    if TriggerTooLong(n) in TriggersErrors(spec) {
      var k :| 0 <= k < |items| && TriggerTooLong(n) in TriggerErrors(k, items[k]);
      TriggerMessagesDiffer(n, k + 1);
    }
    if 1 <= n <= |items| && LongTrigger(items[n - 1]) {
      assert TriggerTooLong(n) in TriggerErrors(n - 1, items[n - 1]);
    }
  }

  /** Trigger `n`, counted from 1, is reported empty iff it is blank after stripping. */
  lemma BlankTriggerNumbered(spec: seq<Field>, n: nat)
    requires TriggersAdmissible(spec)
    ensures TriggerEmpty(n) in TriggersErrors(spec) <==>
              1 <= n <= |Iter(Triggers(spec))| && BlankTrigger(Iter(Triggers(spec))[n - 1])
  {
    var items := Iter(Triggers(spec));
    assert forall k | 0 <= k < |items| :: items[k].Str?;
    CollectMember(items, TriggerErrors, TriggerEmpty(n));
    if TriggerEmpty(n) in TriggersErrors(spec) {
      var k :| 0 <= k < |items| && TriggerEmpty(n) in TriggerErrors(k, items[k]);
      TriggerMessagesDiffer(k + 1, n);
    }
    if 1 <= n <= |items| && BlankTrigger(items[n - 1]) {
      assert TriggerEmpty(n) in TriggerErrors(n - 1, items[n - 1]);
    }
  }

  /** Without a triggers key there is nothing to report. */
  lemma NoTriggersNoErrors(spec: seq<Field>)
    requires !HasKey(spec, "triggers")
    ensures TriggersAdmissible(spec) && TriggersErrors(spec) == []
  {
  }
}
