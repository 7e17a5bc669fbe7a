/**
 * A decoded JSON document and the parts of Python's object protocol that the
 * validators and the renderer apply to it: `dict.get`, `key in d`, truthiness,
 * `len`, iteration, the `in` operator, hashing (for `set(...)`), `str` and `repr`.
 */
module Json {
  import opened Text

  datatype Option<+T> = None | Some(value: T)

  /** A JSON value as `json.load` returns it: None, bool, int, str, list or dict. */
  datatype Json =
    | Null
    | Bool(b: bool)
    | Num(n: int)
    | Str(s: string)
    | Arr(items: seq<Json>)
    | Obj(fields: seq<Field>)

  /** One key of a dict with its value; a dict keeps its keys in insertion order. */
  datatype Field = Field(key: string, val: Json)

  /** `key in d`. */
  predicate HasKey(fields: seq<Field>, key: string) {
    exists k | 0 <= k < |fields| :: fields[k].key == key
  }

  /**
   * `d.get(key)`: the value of the first entry under `key`, if any. `json.load` keeps the
   * last of repeated keys, so the two agree on dicts whose keys are distinct.
   */
  function Get(fields: seq<Field>, key: string): (r: Option<Json>)
    ensures r.Some? <==> HasKey(fields, key)
    ensures r.Some? ==> exists k | 0 <= k < |fields| :: fields[k] == Field(key, r.value)
  {
    if fields == [] then None
    else if fields[0].key == key then Some(fields[0].val)
    else
      var r := Get(fields[1..], key);
      assert r.Some? ==> exists k | 0 <= k < |fields[1..]| :: fields[1..][k] == Field(key, r.value);
      assert HasKey(fields[1..], key) ==> HasKey(fields, key) by {
        if HasKey(fields[1..], key) {
          var k :| 0 <= k < |fields[1..]| && fields[1..][k].key == key;
          assert fields[k + 1].key == key;
        }
      }
      r
  }

  /** `d.get(key, default)`. */
  function GetOr(fields: seq<Field>, key: string, default: Json): Json {
    match Get(fields, key)
    case Some(v) => v
    case None => default
  }

  /** Python truthiness: None, False, 0 and empty containers are false. */
  predicate Truthy(j: Json) {
    match j
    case Null => false
    case Bool(b) => b
    case Num(n) => n != 0
    case Str(s) => s != []
    case Arr(xs) => xs != []
    case Obj(fs) => fs != []
  }

  /** The values `len` and iteration accept: str, list and dict. */
  predicate Sized(j: Json) {
    j.Str? || j.Arr? || j.Obj?
  }

  /** `len(j)`. */
  function Len(j: Json): nat
    requires Sized(j)
  {
    match j
    case Str(s) => |s|
    case Arr(xs) => |xs|
    case Obj(fs) => |fs|
  }

  /** `for x in j`: the characters of a str, the items of a list, the keys of a dict. */
  function Iter(j: Json): (r: seq<Json>)
    requires Sized(j)
    ensures |r| == Len(j)
  {
    match j
    case Str(s) => seq(|s|, k requires 0 <= k < |s| => Str([s[k]]))
    case Arr(xs) => xs
    case Obj(fs) => seq(|fs|, k requires 0 <= k < |fs| => Str(fs[k].key))
  }

  /** For a str, list or dict, truthiness is non-emptiness. */
  lemma TruthySized(j: Json)
    requires Sized(j)
    ensures Truthy(j) <==> Len(j) > 0
  {
  }

  /** The `in` operator with a str on the left: substring, list membership or dict key. */
  predicate In(needle: string, hay: Json)
    requires Sized(hay)
  {
    match hay
    case Str(s) => Contains(s, needle)
    case Arr(xs) => Str(needle) in xs
    case Obj(fs) => HasKey(fs, needle)
  }

  /** Values that may go into a Python set (lists and dicts are unhashable). */
  predicate Hashable(j: Json) {
    !j.Arr? && !j.Obj?
  }

  /** What Python's set equality sees of a hashable value (True == 1, False == 0). */
  datatype Key = NoneKey | NumKey(n: int) | StrKey(s: string)

  function HashKey(j: Json): Key
    requires Hashable(j)
  {
    match j
    case Null => NoneKey
    case Bool(b) => NumKey(if b then 1 else 0)
    case Num(n) => NumKey(n)
    case Str(s) => StrKey(s)
  }

  /** `len(xs) == len(set(xs))`. */
  predicate DistinctValues(xs: seq<Json>)
    requires forall k :: 0 <= k < |xs| ==> Hashable(xs[k])
  {
    forall a, b :: 0 <= a < b < |xs| ==> HashKey(xs[a]) != HashKey(xs[b])
  }

  /** Python's quote for the repr of a str: double quotes when it holds a `'` and no `"`. */
  function Quote(s: string): char {
    if '\'' in s && '"' !in s then '"' else '\''
  }

  /** The repr of a str, without Python's escape sequences. */
  function StrRepr(s: string): string {
    [Quote(s)] + s + [Quote(s)]
  }

  /** `repr(j)`; string contents are written without Python's escape sequences. */
  function Repr(j: Json): string {
    match j
    case Null => "None"
    case Bool(b) => if b then "True" else "False"
    case Num(n) => IntToString(n)
    case Str(s) => StrRepr(s)
    case Arr(xs) =>
      "[" + Join(", ", seq(|xs|, k requires 0 <= k < |xs| => Repr(xs[k]))) + "]"
    case Obj(fs) =>
      "{" + Join(", ", seq(|fs|, k requires 0 <= k < |fs| => StrRepr(fs[k].key) + ": " + Repr(fs[k].val))) + "}"
  }

  /**
   * The repr of a str is the str between two equal quotes; the quote is `"` exactly
   * when the str holds a `'` and no `"`, so it never clashes with an unescaped quote inside.
   */
  lemma ReprStrQuotes(s: string)
    ensures var r := Repr(Str(s));
      |r| == |s| + 2 && r[0] == r[|r| - 1] && r[1..|r| - 1] == s
      && (r[0] == '"' <==> '\'' in s && '"' !in s)
      && (r[0] == '\'' || r[0] == '"')
      && ('\'' in s ==> r[0] == '"' || '"' in s)
  {
    var r := Repr(Str(s));
    assert r == [Quote(s)] + s + [Quote(s)];
    assert r[1..|r| - 1] == s;
  }

  /** `str(j)`: a str is itself, everything else its repr. */
  function PyStr(j: Json): string {
    if j.Str? then j.s else Repr(j)
  }

  /**
   * `for i, x in enumerate(xs): out += check(i, x)`: the messages of every entry,
   * entry by entry in list order.
   */
  function Collect(xs: seq<Json>, check: (nat, Json) --> seq<string>): seq<string>
    requires forall k | 0 <= k < |xs| :: check.requires(k, xs[k])
  {
    if xs == [] then [] else Collect(xs[..|xs| - 1], check) + check(|xs| - 1, xs[|xs| - 1])
  }

  /** One more step of an enumerate loop: the entry at `i` adds its messages last. */
  lemma CollectStep(xs: seq<Json>, check: (nat, Json) --> seq<string>, i: nat)
    requires i < |xs| && forall k | 0 <= k < |xs| :: check.requires(k, xs[k])
    ensures Collect(xs[..i + 1], check) == Collect(xs[..i], check) + check(i, xs[i])
  {
    assert xs[..i + 1][..i] == xs[..i];
  }

  /** The number of entries of `xs` that satisfy `p`. */
  function CountIf(xs: seq<Json>, p: Json -> bool): nat {
    if xs == [] then 0 else CountIf(xs[..|xs| - 1], p) + (if p(xs[|xs| - 1]) then 1 else 0)
  }

  /** Collecting one message from exactly the entries that satisfy `p` gives one message per such entry. */
  lemma {:induction false} CollectOnePerEntry(xs: seq<Json>, check: (nat, Json) --> seq<string>, p: Json -> bool)
    requires forall k | 0 <= k < |xs| :: check.requires(k, xs[k])
    requires forall k | 0 <= k < |xs| :: |check(k, xs[k])| == if p(xs[k]) then 1 else 0
    ensures |Collect(xs, check)| == CountIf(xs, p)
  {
    if xs != [] {
      CollectOnePerEntry(xs[..|xs| - 1], check, p);
    }
  }

  /** A message is collected iff some entry contributes it. */
  lemma {:induction false} CollectMember(xs: seq<Json>, check: (nat, Json) --> seq<string>, m: string)
    requires forall k | 0 <= k < |xs| :: check.requires(k, xs[k])
    ensures m in Collect(xs, check) <==> exists k | 0 <= k < |xs| :: m in check(k, xs[k])
  {
    if xs != [] {
      var init := xs[..|xs| - 1];
      CollectMember(init, check, m);
      if m in Collect(xs, check) && m !in check(|xs| - 1, xs[|xs| - 1]) {
        var k :| 0 <= k < |init| && m in check(k, init[k]);
        assert xs[k] == init[k];
      }
      if exists k | 0 <= k < |xs| :: m in check(k, xs[k]) {
        var k :| 0 <= k < |xs| && m in check(k, xs[k]);
        if k < |init| {
          assert init[k] == xs[k];
        }
      }
    }
  }
}
