/**
 * The custom-validator registry (code/plugins/validators/custom.py): a table
 * from names to validators that keeps first-registration order, as a Python
 * dict does, and a runner that concatenates what the validators report.
 *
 * A validator either returns a list of errors or raises; the raise is the
 * `Failed` outcome, carrying the text `str(e)` of the exception.
 */
module Custom {
  import opened Json

  datatype Outcome = Errors(errors: seq<string>) | Failed(message: string)

  type Validator = seq<Field> -> Outcome

  function FailureMessage(name: string, message: string): string {
    "Custom validator '" + name + "' failed: " + message
  }

  /** What one validator adds to the error list. */
  function Contribution(name: string, outcome: Outcome): seq<string> {
    match outcome
    case Errors(errors) => errors
    case Failed(message) => [FailureMessage(name, message)]
  }

  /** The errors of running the validators named in `names`, in that order, on `spec`. */
  function RunAll(names: seq<string>, table: map<string, Validator>, spec: seq<Field>): seq<string>
    requires forall n | n in names :: n in table
  {
    if names == [] then []
    else
      var last := names[|names| - 1];
      RunAll(names[..|names| - 1], table, spec) + Contribution(last, table[last](spec))
  }

  predicate Distinct(names: seq<string>) {
    forall i, j | 0 <= i < j < |names| :: names[i] != names[j]
  }

  /** `CUSTOM_VALIDATORS`: the names in insertion order, and the function stored under each. */
  class Registry {
    var order: seq<string>
    var table: map<string, Validator>

    /** Every name appears once in `order`, and exactly the names of `order` have a function. */
    ghost predicate Valid()
      reads this
    {
      (forall n :: n in table <==> n in order) && Distinct(order)
    }

    /** The registry starts empty. */
    constructor ()
      ensures Valid()
      ensures order == [] && table == map[]
    {
      order := [];
      table := map[];
    }

    /**
     * `register_validator(name, func)`: stores `func` under `name`. A new name
     * goes last; a known name keeps its place and gets the new function.
     */
    method Register(name: string, func: Validator)
      requires Valid()
      modifies this
      ensures Valid()
      ensures table == old(table)[name := func]
      ensures order == if name in old(table) then old(order) else old(order) + [name]
    {
      if name !in table {
        order := order + [name];
      }
      table := table[name := func];
    }

    /** `run_custom_validators(spec)`: every validator once, in registration order; the registry is left as it was. */
    method Run(spec: seq<Field>) returns (errors: seq<string>)
      requires Valid()
      ensures errors == RunAll(order, table, spec)
    {
      errors := [];
      for i := 0 to |order|
        invariant errors == RunAll(order[..i], table, spec)
      {
        assert order[..i + 1][..i] == order[..i];
        var name := order[i];
        var outcome := table[name](spec);
        match outcome {
          case Errors(more) =>
            errors := errors + more;
          case Failed(message) =>
            errors := errors + [FailureMessage(name, message)];
        }
      }
      assert order[..|order|] == order;
    }
  }

  // ---------------------------------------------------------------------------
  // Properties
  // ---------------------------------------------------------------------------

  /** An empty registry reports nothing. */
  lemma EmptyRegistry(table: map<string, Validator>, spec: seq<Field>)
    ensures RunAll([], table, spec) == []
  {
  }

  /** Running a list of names is running its parts one after the other. */
  lemma {:induction false} RunAllConcat(a: seq<string>, b: seq<string>, table: map<string, Validator>, spec: seq<Field>)
    requires forall n | n in a + b :: n in table
    ensures RunAll(a + b, table, spec) == RunAll(a, table, spec) + RunAll(b, table, spec)
    decreases |b|
  {
    if b == [] {
      assert a + b == a;
    } else {
      var init := b[..|b| - 1];
      assert (a + b)[..|a + b| - 1] == a + init;
      RunAllConcat(a, init, table, spec);
    }
  }

  /**
   * Validator `k` contributes its own errors, or exactly one failure message,
   * between what the earlier and the later validators report.
   */
  lemma RunSplitsAt(names: seq<string>, table: map<string, Validator>, spec: seq<Field>, k: nat)
    requires k < |names| && forall n | n in names :: n in table
    ensures RunAll(names, table, spec)
            == RunAll(names[..k], table, spec) + Contribution(names[k], table[names[k]](spec))
               + RunAll(names[k + 1..], table, spec)
  {
    assert names == names[..k] + [names[k]] + names[k + 1..];
    RunAllConcat(names[..k] + [names[k]], names[k + 1..], table, spec);
    RunAllConcat(names[..k], [names[k]], table, spec);
    assert [names[k]][..0] == [];
  }

  /** A failing validator yields one message naming it, and the later ones still run. */
  lemma FailureIsIsolated(names: seq<string>, table: map<string, Validator>, spec: seq<Field>, k: nat, message: string)
    requires k < |names| && forall n | n in names :: n in table
    requires table[names[k]](spec) == Failed(message)
    ensures RunAll(names, table, spec)
            == RunAll(names[..k], table, spec) + [FailureMessage(names[k], message)] + RunAll(names[k + 1..], table, spec)
  {
    RunSplitsAt(names, table, spec, k);
  }

  /** Only the functions stored under the listed names matter. */
  lemma {:induction false} RunAllAgree(names: seq<string>, t1: map<string, Validator>, t2: map<string, Validator>, spec: seq<Field>)
    requires forall n | n in names :: n in t1 && n in t2 && t1[n] == t2[n]
    ensures RunAll(names, t1, spec) == RunAll(names, t2, spec)
  {
    if names != [] {
      RunAllAgree(names[..|names| - 1], t1, t2, spec);
    }
  }

  /** Re-registering the name at position `k` changes that one contribution, in place. */
  lemma ReplacedKeepsPosition(names: seq<string>, table: map<string, Validator>, spec: seq<Field>, k: nat, func: Validator)
    requires k < |names| && Distinct(names) && forall n | n in names :: n in table
    ensures RunAll(names, table[names[k] := func], spec)
            == RunAll(names[..k], table, spec) + Contribution(names[k], func(spec)) + RunAll(names[k + 1..], table, spec)
  {
    var t2 := table[names[k] := func];
    RunSplitsAt(names, t2, spec, k);
    RunAllAgree(names[..k], table, t2, spec);
    RunAllAgree(names[k + 1..], table, t2, spec);
  }
}
