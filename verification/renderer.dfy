/**
 * The minimal Jinja-like renderer of code/plugins/renderers/jinja_renderer.py.
 *
 * Each regular expression of the source is an explicit scanner that, given the
 * whole text and a start index, says whether the pattern matches there, what it
 * captured and where the match ends; `re.sub` is `Sub`, which scans left to right
 * exactly as Python does for patterns that never match the empty string.
 */
module JinjaRenderer {
  import opened Text
  import opened Json

  /** A match of a pattern: the replacement text and the index just past the match. */
  datatype Hit = Hit(text: string, end: nat)

  /** A pattern together with its replacement function, as `re.sub` receives them. */
  type Matcher = (string, nat) -> Option<Hit>

  /**
   * `re.sub(pattern, repl, t)` from index `i` on: where the pattern matches, emit the
   * replacement and resume after the match; elsewhere copy one character. A hit that
   * would not move forward cannot come from the patterns below and counts as no match.
   */
  function Sub(t: string, i: nat, m: Matcher): string
    requires i <= |t|
    decreases |t| - i
  {
    if i == |t| then ""
    else match m(t, i)
      case Some(h) =>
        if i < h.end <= |t| then h.text + Sub(t, h.end, m) else [t[i]] + Sub(t, i + 1, m)
      case None => [t[i]] + Sub(t, i + 1, m)
  }

  // ---------------------------------------------------------------------------
  // Pieces of the patterns
  // ---------------------------------------------------------------------------

  /** `\s*`: the end of the whitespace run starting at `i`. */
  function SkipSpaces(t: string, i: nat): (j: nat)
    requires i <= |t|
    ensures i <= j <= |t|
    ensures forall k :: i <= k < j ==> IsSpace(t[k])
    ensures j == |t| || !IsSpace(t[j])
    decreases |t| - i
  {
    if i < |t| && IsSpace(t[i]) then SkipSpaces(t, i + 1) else i
  }

  /** `\w*`: the end of the word-character run starting at `i`. */
  function SkipWord(t: string, i: nat): (j: nat)
    requires i <= |t|
    ensures i <= j <= |t|
    ensures forall k :: i <= k < j ==> IsWordChar(t[k])
    ensures j == |t| || !IsWordChar(t[j])
    decreases |t| - i
  {
    if i < |t| && IsWordChar(t[i]) then SkipWord(t, i + 1) else i
  }

  /**
   * `\w+(?:\.\w+)*`: the end of the longest dotted path starting at `i`. Whatever
   * follows the path in the patterns is neither a word character nor a dot, so
   * backtracking to a shorter path never helps and the longest one is the match.
   */
  function PathEnd(t: string, i: nat): (r: Option<nat>)
    requires i <= |t|
    ensures r.Some? <==> i < |t| && IsWordChar(t[i])
    ensures r.Some? ==> i < r.value <= |t|
    ensures r.Some? ==> r.value == |t| || !IsWordChar(t[r.value])
    decreases |t| - i
  {
    var j := SkipWord(t, i);
    if j == i then None
    else if j + 1 < |t| && t[j] == '.' && IsWordChar(t[j + 1]) then PathEnd(t, j + 1)
    else Some(j)
  }

  // ---------------------------------------------------------------------------
  // {{ dotted.path }}  (lines 28-43)
  // ---------------------------------------------------------------------------

  /** The first `}` at or after `i`, or the end of the text. */
  function FindBrace(t: string, i: nat): (k: nat)
    requires i <= |t|
    ensures i <= k <= |t|
    ensures k == |t| || t[k] == '}'
    ensures forall j :: i <= j < k ==> t[j] != '}'
    decreases |t| - i
  {
    if i == |t| || t[i] == '}' then i else FindBrace(t, i + 1)
  }

  datatype VarTag = VarTag(name: string, end: nat)

  /**
   * `\{\{\s*([^}]+)\s*\}\}` at `i`, with the captured group stripped as line 31 does.
   * The group runs to the first `}`, which must be followed by a second one; the
   * whitespace the two `\s*` may take is exactly what `strip()` removes.
   */
  function MatchVariable(t: string, i: nat): (r: Option<VarTag>)
    requires i <= |t|
    ensures r.Some? ==> i < r.value.end <= |t|
  {
    if !OccursAt(t, "{{", i) then None
    else
      var k := FindBrace(t, i + 2);
      if i + 2 < k && OccursAt(t, "}}", k) then Some(VarTag(Strip(t[i + 2..k]), k + 2))
      else None
  }

  /** Descending a value dict by dict: None once a key is missing or a value is not a dict. */
  function Lookup(v: Json, path: seq<string>): Option<Json> {
    if path == [] then Some(v)
    else match Lookup(v, path[..|path| - 1])
      case Some(Obj(fs)) => Get(fs, path[|path| - 1])
      case _ => None
  }

  /** The value `v` reaches along `path`, if any. */
  function LookupOr(v: Json, path: seq<string>, default: Json): Json {
    match Lookup(v, path)
    case Some(x) => x
    case None => default
  }

  /** What `{{ name }}` becomes: "" for a missing key, a non-dict on the way or None; else `str`. */
  function VarText(ctx: Json, name: string): string {
    match Lookup(ctx, Split(name, '.'))
    case None => ""
    case Some(v) => if v.Null? then "" else PyStr(v)
  }

  /**
   * replace_var (lines 30-41): the loop that walks the dotted name, reassigning
   * `value` and returning "" as soon as it meets something that is not a dict.
   */
  method ResolveVariable(ctx: Json, name: string) returns (s: string)
    ensures s == VarText(ctx, name)
  {
    var parts := Split(name, '.');
    var value := ctx;
    for k := 0 to |parts|
      invariant value == LookupOr(ctx, parts[..k], Str(""))
    {
      assert parts[..k + 1][..k] == parts[..k];
      if value.Obj? {
        value := GetOr(value.fields, parts[k], Str(""));
      } else {
        LookupDeadEnd(ctx, parts, k);
        return "";
      }
    }
    assert parts[..|parts|] == parts;
    s := if value.Null? then "" else PyStr(value);
  }

  /** Once the walk holds something that is not a dict, the whole path leads nowhere. */
  lemma {:induction false} LookupDeadEnd(ctx: Json, parts: seq<string>, k: nat)
    requires k < |parts|
    requires !LookupOr(ctx, parts[..k], Str("")).Obj?
    ensures Lookup(ctx, parts) == None
    decreases |parts| - k
  {
    assert parts[..k + 1][..k] == parts[..k];
    assert Lookup(ctx, parts[..k + 1]) == None;
    if k + 1 < |parts| {
      LookupDeadEnd(ctx, parts, k + 1);
    } else {
      assert parts[..k + 1] == parts;
    }
  }

  function VariableHit(ctx: Json, t: string, i: nat): Option<Hit> {
    if i > |t| then None
    else match MatchVariable(t, i)
      case Some(tag) => Some(Hit(VarText(ctx, tag.name), tag.end))
      case None => None
  }

  function VariableMatcher(ctx: Json): Matcher {
    (t: string, i: nat) => VariableHit(ctx, t, i)
  }

  /** _render_variables (lines 28-43). */
  function RenderVariables(text: string, ctx: Json): string {
    Sub(text, 0, VariableMatcher(ctx))
  }

  // ---------------------------------------------------------------------------
  // {% for item in dotted.path -%} body {% endfor %}  (lines 46-90)
  // ---------------------------------------------------------------------------

  datatype LoopTag = LoopTag(item: string, path: string, openEnd: nat)

  /**
   * The opening tag `\{%\s*for\s+(\w+)\s+in\s+(\w+(?:\.\w+)*)\s*-%?\}` at `i`.
   * A tag is recognised only when it closes with `-%}` or `-}`.
   */
  function MatchForTag(t: string, i: nat): (r: Option<LoopTag>)
    requires i <= |t|
    ensures r.Some? ==> i < r.value.openEnd <= |t|
    ensures r.Some? ==> ClosesWithDash(t, r.value.openEnd)
  {
    if !OccursAt(t, "{%", i) then None
    else
      var a := SkipSpaces(t, i + 2);
      if !OccursAt(t, "for", a) then None
      else
        var b := SkipSpaces(t, a + 3);
        var c := SkipWord(t, b);
        if b == a + 3 || c == b then None
        else
          var d := SkipSpaces(t, c);
          if d == c || !OccursAt(t, "in", d) then None
          else
            var e := SkipSpaces(t, d + 2);
            if e == d + 2 then None
            else match PathEnd(t, e)
              case None => None
              case Some(f) =>
                match DashClose(t, SkipSpaces(t, f))
                case None => None
                case Some(o) => Some(LoopTag(t[b..c], t[e..f], o))
  }

  /** The text before index `o` ends with `-%}` or `-}`. */
  predicate ClosesWithDash(t: string, o: nat) {
    (o >= 3 && OccursAt(t, "-%}", o - 3)) || (o >= 2 && OccursAt(t, "-}", o - 2))
  }

  /** `-%?\}` at `g`: the index just past it. */
  function DashClose(t: string, g: nat): (r: Option<nat>)
    requires g <= |t|
    ensures r.Some? ==> g < r.value <= |t|
    ensures r.Some? ==> ClosesWithDash(t, r.value)
  {
    if OccursAt(t, "-%}", g) then Some(g + 3)
    else if OccursAt(t, "-}", g) then Some(g + 2)
    else None
  }

  /** A closing tag `\{%\s*<word>\s*%\}` at `i`: the index just past it. */
  function MatchEndTag(t: string, i: nat, word: string): (r: Option<nat>)
    requires i <= |t|
    ensures r.Some? ==> i < r.value <= |t|
  {
    if !OccursAt(t, "{%", i) then None
    else
      var a := SkipSpaces(t, i + 2);
      if !OccursAt(t, word, a) then None
      else
        var b := SkipSpaces(t, a + |word|);
        if OccursAt(t, "%}", b) then Some(b + 2) else None
  }

  /** The first index at or after `i` where the closing tag matches: what the lazy `(.*?)` finds. */
  function FindEndTag(t: string, i: nat, word: string): (r: Option<nat>)
    requires i <= |t|
    ensures r.Some? ==> i <= r.value <= |t| && MatchEndTag(t, r.value, word).Some?
    ensures r.Some? ==> forall k :: i <= k < r.value ==> MatchEndTag(t, k, word).None?
    ensures r.None? ==> forall k :: i <= k <= |t| ==> MatchEndTag(t, k, word).None?
    decreases |t| - i
  {
    if MatchEndTag(t, i, word).Some? then Some(i)
    else if i == |t| then None
    else FindEndTag(t, i + 1, word)
  }

  datatype LoopBlock =
    LoopBlock(item: string, path: string, body: string, openEnd: nat, closeStart: nat, end: nat)

  /**
   * The whole loop pattern at `i`. The body runs from the opening tag to the FIRST
   * `{% endfor %}` after it (so loops do not nest), minus the whitespace that the
   * `\s*` on either side of `(.*?)` absorb.
   */
  function MatchLoop(t: string, i: nat): (r: Option<LoopBlock>)
    requires i <= |t|
    ensures r.Some? ==> i < r.value.openEnd <= r.value.closeStart < r.value.end <= |t|
    ensures r.Some? ==> ClosesWithDash(t, r.value.openEnd)
    ensures r.Some? ==> r.value.body == Strip(t[r.value.openEnd..r.value.closeStart])
    ensures r.Some? ==> MatchEndTag(t, r.value.closeStart, "endfor") == Some(r.value.end)
    ensures r.Some? ==>
      forall k :: r.value.openEnd <= k < r.value.closeStart ==> MatchEndTag(t, k, "endfor").None?
  {
    match MatchForTag(t, i)
    case None => None
    case Some(tag) =>
      match FindEndTag(t, tag.openEnd, "endfor")
      case None => None
      case Some(c) =>
        var e := MatchEndTag(t, c, "endfor").value;
        Some(LoopBlock(tag.item, tag.path, Strip(t[tag.openEnd..c]), tag.openEnd, c, e))
  }

  /** The list walk of lines 56-62: a missing key gives [], and so does anything past a non-dict. */
  function WalkList(v: Json, path: seq<string>): Json {
    if path == [] then v
    else
      var w := WalkList(v, path[..|path| - 1]);
      if w.Obj? then GetOr(w.fields, path[|path| - 1], Arr([])) else Arr([])
  }

  /** One more key descends one level from where the walk stood. */
  lemma WalkStep(v: Json, path: seq<string>, k: nat)
    requires k < |path|
    ensures var w := WalkList(v, path[..k]);
      WalkList(v, path[..k + 1]) == if w.Obj? then GetOr(w.fields, path[k], Arr([])) else Arr([])
  {
    assert path[..k + 1][..k] == path[..k];
  }

  /** `{{ <item> }}` / `{{ <item>.field }}` in a loop body: the field captured, if any. */
  datatype ItemTag = ItemTag(field: Option<string>, end: nat)

  /** `\{\{\s*<name>(?:\.(\w+))?\s*\}\}` at `i` (lines 76-80). */
  function MatchItem(t: string, i: nat, name: string): (r: Option<ItemTag>)
    requires i <= |t|
    ensures r.Some? ==> i < r.value.end <= |t|
  {
    if !OccursAt(t, "{{", i) then None
    else
      var a := SkipSpaces(t, i + 2);
      if !OccursAt(t, name, a) then None
      else
        var b := a + |name|;
        if b + 1 < |t| && t[b] == '.' && IsWordChar(t[b + 1]) then
          var c := SkipWord(t, b + 1);
          var d := SkipSpaces(t, c);
          if OccursAt(t, "}}", d) then Some(ItemTag(Some(t[b + 1..c]), d + 2)) else None
        else
          var d := SkipSpaces(t, b);
          if OccursAt(t, "}}", d) then Some(ItemTag(None, d + 2)) else None
  }

  /** Line 78: `item.get(field)` for a dict item with a field, else the item itself, through `str`. */
  function ItemText(item: Json, field: Option<string>): string {
    if field.Some? && item.Obj? then PyStr(GetOr(item.fields, field.value, Null)) else PyStr(item)
  }

  function ItemHit(name: string, item: Json, t: string, i: nat): Option<Hit> {
    if i > |t| then None
    else match MatchItem(t, i, name)
      case Some(tag) => Some(Hit(ItemText(item, tag.field), tag.end))
      case None => None
  }

  datatype KeyTag = KeyTag(key: string, end: nat)

  /** `\{\{\s*loop\.(\w+)\s*\}\}` at `i` (lines 81-85). */
  function MatchLoopVar(t: string, i: nat): (r: Option<KeyTag>)
    requires i <= |t|
    ensures r.Some? ==> i < r.value.end <= |t|
  {
    if !OccursAt(t, "{{", i) then None
    else
      var a := SkipSpaces(t, i + 2);
      if !OccursAt(t, "loop.", a) then None
      else
        var b := SkipWord(t, a + 5);
        var c := SkipSpaces(t, b);
        if b > a + 5 && OccursAt(t, "}}", c) then Some(KeyTag(t[a + 5..b], c + 2)) else None
  }

  /** The `loop` entry of the iteration context built at line 72. */
  function LoopInfo(i: nat): Json {
    Obj([Field("index", Num(i + 1)), Field("index0", Num(i))])
  }

  /** Line 83: `str(loop_context['loop'].get(key, ''))`. */
  function LoopVarText(i: nat, key: string): string {
    PyStr(GetOr(LoopInfo(i).fields, key, Str("")))
  }

  function LoopVarHit(index: nat, t: string, i: nat): Option<Hit> {
    if i > |t| then None
    else match MatchLoopVar(t, i)
      case Some(tag) => Some(Hit(LoopVarText(index, tag.key), tag.end))
      case None => None
  }

  function ItemMatcher(name: string, item: Json): Matcher {
    (t: string, k: nat) => ItemHit(name, item, t, k)
  }

  function LoopVarMatcher(index: nat): Matcher {
    (t: string, k: nat) => LoopVarHit(index, t, k)
  }

  /** One copy of the body for the element `item` at position `i` (lines 74-85). */
  function Iteration(body: string, name: string, item: Json, i: nat): string {
    var withItem := Sub(body, 0, ItemMatcher(name, item));
    Sub(withItem, 0, LoopVarMatcher(i))
  }

  /** The copies of the body for every element of `items`, in order. */
  function Expand(body: string, name: string, items: seq<Json>): string {
    if items == [] then ""
    else Expand(body, name, items[..|items| - 1]) + Iteration(body, name, items[|items| - 1], |items| - 1)
  }

  /** One more element appends its copy. */
  lemma ExpandStep(body: string, name: string, xs: seq<Json>, i: nat)
    requires i < |xs|
    ensures Expand(body, name, xs[..i + 1]) == Expand(body, name, xs[..i]) + Iteration(body, name, xs[i], i)
  {
    assert xs[..i + 1][..i] == xs[..i];
  }

  /** What a loop block becomes: the copies for the list at `path`, or "" if it is no list. */
  function LoopText(ctx: Json, item: string, path: string, body: string): string {
    var items := WalkList(ctx, Split(path, '.'));
    if items.Arr? then Expand(body, item, items.items) else ""
  }

  /**
   * replace_loop (lines 50-88): the walk that reassigns `items`, then the enumerate
   * loop that appends one rendered copy of the body per element, joined at the end.
   */
  method RenderLoop(ctx: Json, itemName: string, listName: string, body: string) returns (r: string)
    ensures r == LoopText(ctx, itemName, listName, body)
  {
    var parts := Split(listName, '.');
    var items := ctx;
    for k := 0 to |parts|
      invariant items == WalkList(ctx, parts[..k])
    {
      WalkStep(ctx, parts, k);
      if items.Obj? {
        items := GetOr(items.fields, parts[k], Arr([]));
      } else {
        items := Arr([]);
      }
    }
    assert parts[..|parts|] == parts;
    if !items.Arr? {
      return "";
    }
    var xs := items.items;
    var result: seq<string> := [];
    for i := 0 to |xs|
      invariant |result| == i
      invariant Concat(result) == Expand(body, itemName, xs[..i])
    {
      ExpandStep(body, itemName, xs, i);
      var iteration := Iteration(body, itemName, xs[i], i);
      ConcatStep(result, iteration);
      result := result + [iteration];
    }
    assert xs[..|xs|] == xs;
    r := Concat(result);
  }

  function LoopHit(ctx: Json, t: string, i: nat): Option<Hit> {
    if i > |t| then None
    else match MatchLoop(t, i)
      case Some(b) => Some(Hit(LoopText(ctx, b.item, b.path, b.body), b.end))
      case None => None
  }

  function LoopMatcher(ctx: Json): Matcher {
    (t: string, i: nat) => LoopHit(ctx, t, i)
  }

  /** _render_loops (lines 46-90). */
  function RenderLoops(text: string, ctx: Json): string {
    Sub(text, 0, LoopMatcher(ctx))
  }

  /** render (lines 9-25): loops first, then variables, both against the caller's context. */
  function Render(template: string, ctx: Json): string {
    RenderVariables(RenderLoops(template, ctx), ctx)
  }

  // ---------------------------------------------------------------------------
  // {% if dotted.path %} content {% endif %}  (lines 93-113; render never calls it)
  // ---------------------------------------------------------------------------

  datatype IfTag = IfTag(path: string, openEnd: nat)

  /** The opening tag `\{%\s*if\s+(\w+(?:\.\w+)*)\s*%\}` at `i`. */
  function MatchIfTag(t: string, i: nat): (r: Option<IfTag>)
    requires i <= |t|
    ensures r.Some? ==> i < r.value.openEnd <= |t|
  {
    if !OccursAt(t, "{%", i) then None
    else
      var a := SkipSpaces(t, i + 2);
      if !OccursAt(t, "if", a) then None
      else
        var b := SkipSpaces(t, a + 2);
        if b == a + 2 then None
        else match PathEnd(t, b)
          case None => None
          case Some(c) =>
            var d := SkipSpaces(t, c);
            if OccursAt(t, "%}", d) then Some(IfTag(t[b..c], d + 2)) else None
  }

  datatype IfBlock = IfBlock(path: string, content: string, end: nat)

  /** The whole conditional pattern at `i`; the content, not stripped, runs to the first `{% endif %}`. */
  function MatchIf(t: string, i: nat): (r: Option<IfBlock>)
    requires i <= |t|
    ensures r.Some? ==> i < r.value.end <= |t|
  {
    match MatchIfTag(t, i)
    case None => None
    case Some(tag) =>
      match FindEndTag(t, tag.openEnd, "endif")
      case None => None
      case Some(c) => Some(IfBlock(tag.path, t[tag.openEnd..c], MatchEndTag(t, c, "endif").value))
  }

  /** The condition walk of lines 102-108: `get(part)` gives None when missing, and so does a non-dict. */
  function WalkCondition(v: Json, path: seq<string>): Json {
    if path == [] then v
    else
      var w := WalkCondition(v, path[..|path| - 1]);
      if w.Obj? then GetOr(w.fields, path[|path| - 1], Null) else Null
  }

  /** What a conditional block becomes: its content when the condition is truthy, else "". */
  function IfText(ctx: Json, path: string, content: string): string {
    if Truthy(WalkCondition(ctx, Split(path, '.'))) then content else ""
  }

  /** replace_if (lines 97-111): the walk that reassigns `value`, then the truthiness test. */
  method RenderConditional(ctx: Json, condition: string, content: string) returns (r: string)
    ensures r == IfText(ctx, condition, content)
  {
    var parts := Split(condition, '.');
    var value := ctx;
    for k := 0 to |parts|
      invariant value == WalkCondition(ctx, parts[..k])
    {
      assert parts[..k + 1][..k] == parts[..k];
      if value.Obj? {
        value := GetOr(value.fields, parts[k], Null);
      } else {
        value := Null;
      }
    }
    assert parts[..|parts|] == parts;
    r := if Truthy(value) then content else "";
  }

  function IfHit(ctx: Json, t: string, i: nat): Option<Hit> {
    if i > |t| then None
    else match MatchIf(t, i)
      case Some(b) => Some(Hit(IfText(ctx, b.path, b.content), b.end))
      case None => None
  }

  function IfMatcher(ctx: Json): Matcher {
    (t: string, i: nat) => IfHit(ctx, t, i)
  }

  /** _render_conditionals (lines 93-113). */
  function RenderConditionals(text: string, ctx: Json): string {
    Sub(text, 0, IfMatcher(ctx))
  }
}
