/**
 * What the renderer of code/plugins/renderers/jinja_renderer.py does, stated over
 * the scanner model of module JinjaRenderer: plain text passes through, dotted
 * names descend dicts, a loop opener needs a `-`, a loop body ends at the first
 * `{% endfor %}`, and a loop expands to one copy of its body per list element.
 */
module RendererProperties {
  import opened Text
  import opened Json
  import opened JinjaRenderer

  /** A name the pattern `\w+` matches in full. */
  predicate IsWord(w: string) {
    |w| > 0 && forall k :: 0 <= k < |w| ==> IsWordChar(w[k])
  }

  /** A name the pattern `\w+(?:\.\w+)*` matches in full. */
  predicate IsDottedPath(p: string) {
    |p| > 0 && IsWordChar(p[0]) && IsWordChar(p[|p| - 1]) &&
    forall k :: 0 <= k < |p| - 1 ==> IsWordChar(p[k]) || (p[k] == '.' && IsWordChar(p[k + 1]))
  }

  // ---------------------------------------------------------------------------
  // re.sub
  // ---------------------------------------------------------------------------

  /** Where the pattern matches nowhere from `i` on, `re.sub` copies the rest of the text. */
  lemma {:induction false} SubUnchanged(t: string, i: nat, m: Matcher)
    requires i <= |t|
    requires forall k :: i <= k < |t| ==> m(t, k).None?
    ensures Sub(t, i, m) == t[i..]
    decreases |t| - i
  {
    if i < |t| {
      SubUnchanged(t, i + 1, m);
      assert t[i..] == [t[i]] + t[i + 1..];
    }
  }

  /** A match that runs to the end of the text is replaced and nothing follows it. */
  lemma SubWholeMatch(t: string, m: Matcher, text: string)
    requires 0 < |t|
    requires m(t, 0) == Some(Hit(text, |t|))
    ensures Sub(t, 0, m) == text
  {
  }

  /** A match at the start followed by text the pattern never matches in. */
  lemma SubMatchThenPlain(t: string, m: Matcher, text: string, end: nat)
    requires 0 < end <= |t|
    requires m(t, 0) == Some(Hit(text, end))
    requires forall k :: end <= k < |t| ==> m(t, k).None?
    ensures Sub(t, 0, m) == text + t[end..]
  {
    SubUnchanged(t, end, m);
  }

  // ---------------------------------------------------------------------------
  // Plain text
  // ---------------------------------------------------------------------------

  /** Text without `{%` has no loop block: the loop pass returns it unchanged. */
  lemma NoTagNoLoops(t: string, ctx: Json)
    requires !Contains(t, "{%")
    ensures RenderLoops(t, ctx) == t
  {
    forall k | 0 <= k < |t| ensures LoopMatcher(ctx)(t, k).None? {
      assert !OccursAt(t, "{%", k);
    }
    SubUnchanged(t, 0, LoopMatcher(ctx));
    assert t[0..] == t;
  }

  /** Without a `%` there is no `{%`. */
  lemma NoPercentNoTag(t: string)
    requires '%' !in t
    ensures !Contains(t, "{%")
  {
    forall k: nat | k <= |t| ensures !OccursAt(t, "{%", k) {
      if k + 1 < |t| {
        assert t[k + 1] != '%';
      }
    }
  }

  /** Text with neither `{{` nor `{%` comes back from `render` unchanged. */
  lemma RenderPlain(t: string, ctx: Json)
    requires !Contains(t, "{{") && !Contains(t, "{%")
    ensures RenderLoops(t, ctx) == t && RenderVariables(t, ctx) == t
    ensures Render(t, ctx) == t
  {
    NoTagNoLoops(t, ctx);
    forall k | 0 <= k < |t| ensures VariableMatcher(ctx)(t, k).None? {
      assert !OccursAt(t, "{{", k);
    }
    SubUnchanged(t, 0, VariableMatcher(ctx));
    assert t[0..] == t;
  }

  /** Text without `{` is left alone by every pass, inside loop bodies as outside. */
  lemma NoBraceUnchanged(t: string, ctx: Json, name: string, item: Json, index: nat)
    requires '{' !in t
    ensures RenderVariables(t, ctx) == t && Render(t, ctx) == t
    ensures Sub(t, 0, ItemMatcher(name, item)) == t
    ensures Sub(t, 0, LoopVarMatcher(index)) == t
  {
    forall k: nat | k <= |t| ensures !OccursAt(t, "{{", k) && !OccursAt(t, "{%", k) {
      if k < |t| {
        assert t[k] != '{';
      }
    }
    RenderPlain(t, ctx);
    forall k | 0 <= k < |t|
      ensures ItemMatcher(name, item)(t, k).None? && LoopVarMatcher(index)(t, k).None?
    {
      assert !OccursAt(t, "{{", k);
    }
    SubUnchanged(t, 0, ItemMatcher(name, item));
    SubUnchanged(t, 0, LoopVarMatcher(index));
    assert t[0..] == t;
  }

  // ---------------------------------------------------------------------------
  // {{ dotted.path }}
  // ---------------------------------------------------------------------------

  /** `Lookup` read head first: take the key from the dict at hand, then descend. */
  lemma {:induction false} LookupHeadFirst(v: Json, key: string, rest: seq<string>)
    ensures Lookup(v, [key] + rest) ==
      if v.Obj? && HasKey(v.fields, key) then Lookup(Get(v.fields, key).value, rest) else None
    decreases |rest|
  {
    if rest == [] {
      assert [key] + rest == [key];
      assert [key][..0] == [];
    } else {
      var init := rest[..|rest| - 1];
      LookupHeadFirst(v, key, init);
      assert ([key] + rest)[..|[key] + rest| - 1] == [key] + init;
      assert ([key] + rest)[|[key] + rest| - 1] == rest[|rest| - 1];
    }
  }

  /** A name without a dot is one key. */
  lemma {:induction false} SplitWithoutSeparator(s: string, sep: char)
    requires sep !in s
    ensures Split(s, sep) == [s]
    decreases |s|
  {
    if s != [] {
      var init := s[..|s| - 1];
      forall k | 0 <= k < |init| ensures init[k] != sep {
        assert init[k] == s[k];
      }
      SplitWithoutSeparator(init, sep);
      assert s[..|s| - 1] + [s[|s| - 1]] == s;
    }
  }

  /**
   * `{{ key }}` for a name without a dot: "" when the context is no dict, the key is
   * missing or its value is None; otherwise `str` of the value.
   */
  lemma VarTextSingleKey(ctx: Json, key: string)
    requires '.' !in key
    ensures !ctx.Obj? ==> VarText(ctx, key) == ""
    ensures ctx.Obj? && !HasKey(ctx.fields, key) ==> VarText(ctx, key) == ""
    ensures ctx.Obj? && Get(ctx.fields, key) == Some(Null) ==> VarText(ctx, key) == ""
    ensures ctx.Obj? && Get(ctx.fields, key).Some? && !Get(ctx.fields, key).value.Null? ==>
      VarText(ctx, key) == PyStr(Get(ctx.fields, key).value)
  {
    SplitWithoutSeparator(key, '.');
    assert [key][..0] == [];
    assert Lookup(ctx, [key]) == if ctx.Obj? then Get(ctx.fields, key) else None;
  }

  /** The variable pattern on `{{ inner }}` alone: the whole text, with the inner text stripped. */
  lemma VariableTagWhole(inner: string)
    requires 0 < |inner| && '}' !in inner
    ensures MatchVariable("{{" + inner + "}}", 0) == Some(VarTag(Strip(inner), |inner| + 4))
  {
    var t := "{{" + inner + "}}";
    var close := 2 + |inner|;
    assert t[close] == '}';
    forall j | 2 <= j < close ensures t[j] != '}' {
      assert t[j] == inner[j - 2];
    }
    assert FindBrace(t, 2) == close;
    assert t[2..close] == inner;
    assert t[close..close + 2] == "}}";
    assert t[0..2] == "{{";
  }

  /** `{{ inner }}` alone: the stripped inner text is the name that is looked up. */
  lemma VariableMarker(inner: string, ctx: Json)
    requires 0 < |inner| && '}' !in inner && '%' !in inner
    ensures Render("{{" + inner + "}}", ctx) == VarText(ctx, Strip(inner))
  {
    var t := "{{" + inner + "}}";
    NoPercentNoTag(t);
    NoTagNoLoops(t, ctx);
    VariableTagWhole(inner);
    SubWholeMatch(t, VariableMatcher(ctx), VarText(ctx, Strip(inner)));
  }

  // ---------------------------------------------------------------------------
  // The loop opener
  // ---------------------------------------------------------------------------

  /** Only a `-` before the closing brace makes a loop opener: `ClosesWithDash` needs one. */
  lemma NoDashNoClose(t: string, o: nat)
    requires '-' !in t
    ensures !ClosesWithDash(t, o)
  {
    if o >= 3 && o - 3 < |t| {
      assert t[o - 3] != '-';
    }
    if o >= 2 && o - 2 < |t| {
      assert t[o - 2] != '-';
    }
  }

  /** A text without `-` has no loop block at all: the loop pass returns it unchanged. */
  lemma NoDashNoLoops(t: string, ctx: Json)
    requires '-' !in t
    ensures RenderLoops(t, ctx) == t
  {
    forall k | 0 <= k < |t| ensures LoopMatcher(ctx)(t, k).None? {
      var r := MatchLoop(t, k);
      if r.Some? {
        NoDashNoClose(t, r.value.openEnd);
      }
    }
    SubUnchanged(t, 0, LoopMatcher(ctx));
    assert t[0..] == t;
  }

  /** The example loop without a dash stays literal text after the loop pass. */
  lemma PlainForStaysLiteral(ctx: Json)
    ensures RenderLoops("{% for x in items %}{{ x }}, {% endfor %}", ctx)
         == "{% for x in items %}{{ x }}, {% endfor %}"
  {
    var t := "{% for x in items %}{{ x }}, {% endfor %}";
    assert forall k | 0 <= k < |t| :: t[k] != '-';
    NoDashNoLoops(t, ctx);
  }

  // ---------------------------------------------------------------------------
  // Scanning a well-formed loop block
  // ---------------------------------------------------------------------------

  /** `\w*` stops right after a word that is followed by a non-word character. */
  lemma SkipWordOver(t: string, i: nat, w: string)
    requires OccursAt(t, w, i)
    requires forall k :: 0 <= k < |w| ==> IsWordChar(w[k])
    requires i + |w| == |t| || !IsWordChar(t[i + |w|])
    ensures SkipWord(t, i) == i + |w|
  {
  }

  /** Where a word inside a dotted path stops, a dot and the rest of the path follow. */
  lemma PathEndStep(t: string, i: nat, p: string, j: nat)
    requires OccursAt(t, p, i) && IsDottedPath(p)
    requires i <= j < i + |p| && !IsWordChar(t[j])
    ensures j + 1 < |t| && t[j] == '.' && IsWordChar(t[j + 1])
    ensures OccursAt(t, p[j - i + 1..], j + 1) && IsDottedPath(p[j - i + 1..])
  {
    var q := j - i;
    assert t[j] == p[q];
    assert q < |p| - 1 && p[q] == '.' && IsWordChar(p[q + 1]);
    assert t[j + 1] == p[q + 1];
    var p' := p[q + 1..];
    assert t[j + 1..j + 1 + |p'|] == t[i..i + |p|][q + 1..];
    forall k | 0 <= k < |p'| - 1
      ensures IsWordChar(p'[k]) || (p'[k] == '.' && IsWordChar(p'[k + 1]))
    {
      assert p'[k] == p[q + 1 + k] && p'[k + 1] == p[q + 2 + k];
    }
  }

  /** The dotted-path scanner takes exactly a dotted path followed by neither a word character nor a dot. */
  lemma {:induction false} PathEndOver(t: string, i: nat, p: string)
    requires OccursAt(t, p, i) && IsDottedPath(p)
    requires i + |p| == |t| || (!IsWordChar(t[i + |p|]) && t[i + |p|] != '.')
    ensures PathEnd(t, i) == Some(i + |p|)
    decreases |p|
  {
    assert t[i] == p[0];
    var j := SkipWord(t, i);
    if j < i + |p| {
      PathEndStep(t, i, p, j);
      PathEndOver(t, j + 1, p[j - i + 1..]);
    } else {
      assert j == i + |p|;
    }
  }

  /** The loop opener `{% for <item> in <path> -%}`. */
  function ForOpener(item: string, path: string): string {
    "{% for " + item + " in " + path + " -%}"
  }

  /** The loop closer. */
  const EndFor: string := "{% endfor %}"

  /** The opener pattern, given what each of its pieces finds in `t`. */
  lemma ForTagFromPieces(t: string, c: nat, e: nat, f: nat)
    requires 7 < c && c + 4 == e < f && f + 4 <= |t|
    requires OccursAt(t, "{%", 0) && SkipSpaces(t, 2) == 3 && OccursAt(t, "for", 3)
    requires SkipSpaces(t, 6) == 7 && SkipWord(t, 7) == c
    requires SkipSpaces(t, c) == c + 1 && OccursAt(t, "in", c + 1) && SkipSpaces(t, c + 3) == e
    requires PathEnd(t, e) == Some(f) && SkipSpaces(t, f) == f + 1 && OccursAt(t, "-%}", f + 1)
    ensures MatchForTag(t, 0) == Some(LoopTag(t[7..c], t[e..f], f + 4))
  {
  }

  /** The pieces of `{% for <item> in <path> -%}` followed by anything, at `0`, `7`, `c`, `e` and `f`. */
  lemma ForOpenerPieces(item: string, path: string, rest: string, c: nat, e: nat, f: nat)
    requires c == 7 + |item| && e == c + 4 && f == e + |path|
    ensures |ForOpener(item, path)| == f + 4
    ensures var t := ForOpener(item, path) + rest;
      f + 4 <= |t| && t[..7] == "{% for " && t[7..c] == item && t[c..e] == " in "
      && t[e..f] == path && t[f..f + 4] == " -%}"
  {
  }

  /** The characters of a text that starts with the opener, one by one. */
  lemma ForOpenerChars(t: string, item: string, path: string, c: nat, e: nat, f: nat)
    requires IsWord(item) && IsDottedPath(path)
    requires c == 7 + |item| && e == c + 4 && f == e + |path| && f + 4 <= |t|
    requires t[..7] == "{% for " && t[7..c] == item && t[c..e] == " in "
    requires t[e..f] == path && t[f..f + 4] == " -%}"
    ensures t[2] == ' ' && t[3] == 'f' && t[6] == ' '
    ensures t[c] == ' ' && t[c + 1] == 'i' && t[c + 3] == ' '
    ensures t[f] == ' ' && t[f + 1] == '-'
    ensures t[7] == item[0] && t[e] == path[0]
    ensures OccursAt(t, item, 7) && OccursAt(t, path, e)
    ensures OccursAt(t, "{%", 0) && OccursAt(t, "for", 3) && OccursAt(t, "in", c + 1) && OccursAt(t, "-%}", f + 1)
  {
    assert t[..7][0] == t[0] && t[..7][1] == t[1] && t[..7][2] == t[2] && t[..7][3] == t[3];
    assert t[..7][4] == t[4] && t[..7][5] == t[5] && t[..7][6] == t[6];
    assert t[c..e][0] == t[c] && t[c..e][1] == t[c + 1] && t[c..e][2] == t[c + 2] && t[c..e][3] == t[c + 3];
    assert t[f..f + 4][0] == t[f] && t[f..f + 4][1] == t[f + 1] && t[f..f + 4][2] == t[f + 2] && t[f..f + 4][3] == t[f + 3];
    assert t[7..c][0] == t[7];
    assert t[e..f][0] == t[e];
    assert t[0..2] == t[..7][..2];
    assert t[3..6] == t[..7][3..6];
    assert t[c + 1..c + 3] == t[c..e][1..3];
    assert t[f + 1..f + 4] == t[f..f + 4][1..];
  }

  /** What each piece of the opener pattern finds in a text whose characters are those of the opener. */
  lemma ForOpenerScan(t: string, item: string, path: string, c: nat, e: nat, f: nat)
    requires IsWord(item) && IsDottedPath(path)
    requires c == 7 + |item| && e == c + 4 && f == e + |path| && f + 4 <= |t|
    requires t[2] == ' ' && t[3] == 'f' && t[6] == ' '
    requires t[c] == ' ' && t[c + 1] == 'i' && t[c + 3] == ' '
    requires t[f] == ' ' && t[f + 1] == '-'
    requires t[7] == item[0] && t[e] == path[0]
    requires OccursAt(t, item, 7) && OccursAt(t, path, e)
    ensures SkipSpaces(t, 2) == 3 && SkipSpaces(t, 6) == 7 && SkipWord(t, 7) == c
    ensures SkipSpaces(t, c) == c + 1 && SkipSpaces(t, c + 3) == e
    ensures PathEnd(t, e) == Some(f) && SkipSpaces(t, f) == f + 1
  {
    assert SkipSpaces(t, 2) == 3;
    assert SkipSpaces(t, 6) == 7;
    SkipWordOver(t, 7, item);
    assert SkipSpaces(t, c) == c + 1;
    assert SkipSpaces(t, c + 3) == e;
    PathEndOver(t, e, path);
    assert SkipSpaces(t, f) == f + 1;
  }

  /** The opener pattern recognises `{% for <item> in <path> -%}` and captures both names. */
  lemma ForTagMatch(item: string, path: string, rest: string)
    requires IsWord(item) && IsDottedPath(path)
    ensures MatchForTag(ForOpener(item, path) + rest, 0)
         == Some(LoopTag(item, path, |ForOpener(item, path)|))
  {
    var c := 7 + |item|;
    var e := c + 4;
    var f := e + |path|;
    ForOpenerPieces(item, path, rest, c, e, f);
    ForTagAt(ForOpener(item, path) + rest, item, path, c, e, f, |ForOpener(item, path)|);
  }

  /** The opener pattern on a text laid out as the opener, piece by piece. */
  lemma ForTagAt(t: string, item: string, path: string, c: nat, e: nat, f: nat, n: nat)
    requires IsWord(item) && IsDottedPath(path)
    requires c == 7 + |item| && e == c + 4 && f == e + |path| && n == f + 4 <= |t|
    requires t[..7] == "{% for " && t[7..c] == item && t[c..e] == " in "
    requires t[e..f] == path && t[f..f + 4] == " -%}"
    ensures MatchForTag(t, 0) == Some(LoopTag(item, path, n))
  {
    ForOpenerChars(t, item, path, c, e, f);
    ForOpenerScan(t, item, path, c, e, f);
    ForTagFromPieces(t, c, e, f);
  }

  /** An occurrence inside a piece of the text is an occurrence in the text. */
  lemma OccursWithin(t: string, a: nat, w: string, p: string, j: nat)
    requires a + |w| <= |t| && t[a..a + |w|] == w && OccursAt(w, p, j)
    ensures OccursAt(t, p, a + j)
  {
    forall x | 0 <= x < |p| ensures t[a + j + x] == p[x] {
      assert w[j + x] == t[a + j + x];
      assert w[j..j + |p|][x] == w[j + x];
    }
    assert t[a + j..a + j + |p|] == p;
  }

  /** An occurrence in the text that lies inside a piece is an occurrence in the piece. */
  lemma OccursInPiece(t: string, a: nat, w: string, p: string, j: nat)
    requires a + |w| <= |t| && t[a..a + |w|] == w && j + |p| <= |w|
    ensures OccursAt(t, p, a + j) ==> OccursAt(w, p, j)
  {
    if OccursAt(t, p, a + j) {
      forall x | 0 <= x < |p| ensures w[j + x] == p[x] {
        assert w[j + x] == t[a + j + x];
        assert t[a + j..a + j + |p|][x] == t[a + j + x];
      }
      assert w[j..j + |p|] == p;
    }
  }

  /** The closing pattern recognises `{% endfor %}`. */
  lemma EndForMatch(t: string, i: nat)
    requires i + |EndFor| <= |t| && t[i..i + |EndFor|] == EndFor
    ensures MatchEndTag(t, i, "endfor") == Some(i + |EndFor|)
  {
    var w := t[i..i + 12];
    assert t[i + 2] == w[2] && t[i + 3] == w[3] && t[i + 9] == w[9] && t[i + 10] == w[10];
    assert SkipSpaces(t, i + 2) == i + 3;
    assert SkipSpaces(t, i + 9) == i + 10;
    OccursWithin(t, i, EndFor, "{%", 0);
    OccursWithin(t, i, EndFor, "endfor", 3);
    OccursWithin(t, i, EndFor, "%}", 10);
  }

  /** The lazy search for the closer finds the first index where it matches. */
  lemma {:induction false} FindEndTagAt(t: string, i: nat, close: nat, word: string)
    requires i <= close <= |t|
    requires forall k :: i <= k < close ==> MatchEndTag(t, k, word).None?
    requires MatchEndTag(t, close, word).Some?
    ensures FindEndTag(t, i, word) == Some(close)
    decreases close - i
  {
    if i < close {
      FindEndTagAt(t, i + 1, close, word);
    }
  }

  /** No closing tag for `word` starts at any index from `o` up to, not including, `close`. */
  predicate NoCloserIn(t: string, o: nat, close: nat, word: string) {
    close <= |t| && forall k | o <= k < close :: MatchEndTag(t, k, word).None?
  }

  /** The loop pattern, given the opener, the first closer after it and where it ends. */
  lemma LoopBlockFromPieces(t: string, item: string, path: string, body: string, o: nat, close: nat, end: nat)
    requires o <= close <= |t| && t[o..close] == body
    requires MatchForTag(t, 0) == Some(LoopTag(item, path, o))
    requires MatchEndTag(t, close, "endfor") == Some(end)
    requires NoCloserIn(t, o, close, "endfor")
    ensures MatchLoop(t, 0) == Some(LoopBlock(item, path, Strip(body), o, close, end))
  {
    FindEndTagAt(t, o, close, "endfor");
  }

  /** No `{%` starts inside a body without `{%` that is followed by a `{`. */
  lemma NoTagInBody(t: string, o: nat, close: nat, body: string)
    requires close == o + |body| < |t| && t[o..close] == body && t[close] == '{'
    requires !Contains(body, "{%")
    ensures forall k :: o <= k < close ==> !OccursAt(t, "{%", k)
  {
    forall k | o <= k < close ensures !OccursAt(t, "{%", k) {
      if k + 1 < close {
        assert !OccursAt(body, "{%", k - o);
        OccursInPiece(t, o, body, "{%", k - o);
      }
    }
  }

  /** A piece without `{%` followed by a `{` holds no closing tag. */
  lemma TaglessNoCloser(t: string, o: nat, close: nat, body: string, word: string)
    requires close == o + |body| < |t| && t[o..close] == body && t[close] == '{'
    requires !Contains(body, "{%")
    ensures NoCloserIn(t, o, close, word)
  {
    NoTagInBody(t, o, close, body);
  }

  /**
   * No closing tag starts inside a copy of an opener `w` whose only `{` is its first
   * character and whose keyword, after one space, does not start like `word`.
   */
  lemma NoCloserInOpener(t: string, o: nat, w: string, word: string)
    requires |w| >= 4 && w[2] == ' ' && !IsSpace(w[3]) && word != [] && w[3] != word[0]
    requires forall j | 1 <= j < |w| :: w[j] != '{'
    requires o + |w| <= |t| && t[o..o + |w|] == w
    ensures NoCloserIn(t, o, o + |w|, word)
  {
    forall k | o <= k < o + |w| ensures MatchEndTag(t, k, word).None? {
      assert t[k] == w[k - o];
      if k == o {
        assert t[o + 2] == w[2] && t[o + 3] == w[3];
        assert SkipSpaces(t, o + 2) == o + 3;
      }
    }
  }

  /** Where the pieces of a block sit in the text: the body at `o`, the closer at `close`. */
  lemma BlockPieces(t: string, opener: string, body: string, closer: string, rest: string, o: nat, close: nat)
    requires t == opener + body + closer + rest && closer != [] && closer[0] == '{'
    requires o == |opener| && close == o + |body|
    ensures close < |t|
    ensures t[o..close] == body && t[close] == '{'
    ensures t[close..close + |closer|] == closer
    ensures t[close + |closer|..] == rest
    ensures t == opener + (body + closer + rest)
  {
  }

  /** The opener of a loop block is recognised at its start. */
  lemma LoopOpenerAt(t: string, item: string, path: string, body: string, rest: string, o: nat)
    requires IsWord(item) && IsDottedPath(path)
    requires t == ForOpener(item, path) + body + EndFor + rest && o == |ForOpener(item, path)|
    ensures MatchForTag(t, 0) == Some(LoopTag(item, path, o))
  {
    assert t == ForOpener(item, path) + (body + EndFor + rest);
    ForTagMatch(item, path, body + EndFor + rest);
  }

  /** `{% endfor %}` follows the body of a loop block. */
  lemma LoopBodyAt(t: string, opener: string, body: string, rest: string, o: nat, close: nat)
    requires t == opener + body + EndFor + rest && o == |opener| && close == o + |body|
    ensures close + |EndFor| <= |t| && t[o..close] == body
    ensures MatchEndTag(t, close, "endfor") == Some(close + |EndFor|)
  {
    BlockPieces(t, opener, body, EndFor, rest, o, close);
    EndForMatch(t, close);
  }

  /** The loop pattern on a block whose body holds no closer, the body running from `o` to `close`. */
  lemma LoopBlockAt(t: string, item: string, path: string, body: string, rest: string, o: nat, close: nat, end: nat)
    requires IsWord(item) && IsDottedPath(path)
    requires t == ForOpener(item, path) + body + EndFor + rest
    requires o == |ForOpener(item, path)| && close == o + |body| && end == close + |EndFor|
    requires NoCloserIn(t, o, close, "endfor")
    ensures MatchLoop(t, 0) == Some(LoopBlock(item, path, Strip(body), o, close, end))
  {
    LoopOpenerAt(t, item, path, body, rest, o);
    LoopBodyAt(t, ForOpener(item, path), body, rest, o, close);
    LoopBlockFromPieces(t, item, path, body, o, close, end);
  }

  /**
   * A loop block: when no `{% endfor %}` starts inside `body` (which may hold any other
   * tag), the block closes at the closer after it and the whitespace at either end of
   * the body is dropped.
   */
  lemma LoopBlockMatch(t: string, item: string, path: string, body: string, rest: string)
    requires IsWord(item) && IsDottedPath(path)
    requires t == ForOpener(item, path) + body + EndFor + rest
    requires NoCloserIn(t, |ForOpener(item, path)|, |ForOpener(item, path)| + |body|, "endfor")
    ensures var o := |ForOpener(item, path)|; var m := MatchLoop(t, 0);
      m.Some? && m.value.item == item && m.value.path == path && m.value.body == Strip(body)
      && m.value.openEnd == o && m.value.closeStart == o + |body| && m.value.end == o + |body| + |EndFor|
  {
    var o := |ForOpener(item, path)|;
    LoopBlockAt(t, item, path, body, rest, o, o + |body|, o + |body| + |EndFor|);
  }

  /** Every loop block starts with `{%`. */
  lemma LoopHitNeedsTag(ctx: Json, t: string, k: nat)
    requires !OccursAt(t, "{%", k)
    ensures LoopHit(ctx, t, k) == None
  {
  }

  /** No `{%` starts in a tail of the text that has none. */
  lemma NoTagInTail(t: string, end: nat, rest: string)
    requires end <= |t| && t[end..] == rest && !Contains(rest, "{%")
    ensures forall k :: end <= k <= |t| ==> !OccursAt(t, "{%", k)
  {
    assert t[end..end + |rest|] == rest;
    forall k | end <= k <= |t| ensures !OccursAt(t, "{%", k) {
      if k + 2 <= |t| {
        assert !OccursAt(rest, "{%", k - end);
        OccursInPiece(t, end, rest, "{%", k - end);
      }
    }
  }

  /** The loop pass on a text that starts with a loop block and has no `{%` after it. */
  lemma RenderLoopsFromPieces(t: string, ctx: Json, text: string, end: nat, rest: string)
    requires 0 < end <= |t| && t[end..] == rest && !Contains(rest, "{%")
    requires LoopHit(ctx, t, 0) == Some(Hit(text, end))
    ensures RenderLoops(t, ctx) == text + rest
  {
    NoTagInTail(t, end, rest);
    forall k | end <= k < |t| ensures LoopMatcher(ctx)(t, k).None? {
      LoopHitNeedsTag(ctx, t, k);
    }
    SubMatchThenPlain(t, LoopMatcher(ctx), text, end);
  }

  /** A matched block is replaced by what the loop makes of it. */
  lemma LoopHitFromMatch(ctx: Json, t: string, b: LoopBlock)
    requires MatchLoop(t, 0) == Some(b)
    ensures LoopHit(ctx, t, 0) == Some(Hit(LoopText(ctx, b.item, b.path, b.body), b.end))
  {
  }

  /** The loop pass on a block whose body holds no closer, followed by text without `{%`. */
  lemma RenderLoopBlock(t: string, item: string, path: string, body: string, rest: string, ctx: Json)
    requires IsWord(item) && IsDottedPath(path) && !Contains(rest, "{%")
    requires t == ForOpener(item, path) + body + EndFor + rest
    requires NoCloserIn(t, |ForOpener(item, path)|, |ForOpener(item, path)| + |body|, "endfor")
    ensures RenderLoops(t, ctx) == LoopText(ctx, item, path, Strip(body)) + rest
    ensures Render(t, ctx) == RenderVariables(LoopText(ctx, item, path, Strip(body)) + rest, ctx)
  {
    var o := |ForOpener(item, path)|;
    var close := o + |body|;
    var end := close + |EndFor|;
    var b := LoopBlock(item, path, Strip(body), o, close, end);
    LoopBlockAt(t, item, path, body, rest, o, close, end);
    LoopHitFromMatch(ctx, t, b);
    BlockPieces(t, ForOpener(item, path), body, EndFor, rest, o, close);
    RenderLoopsFromPieces(t, ctx, LoopText(ctx, b.item, b.path, b.body), b.end, rest);
  }

  // ---------------------------------------------------------------------------
  // Loops do not nest
  // ---------------------------------------------------------------------------

  /** A dotted path holds no `{`. */
  lemma DottedPathNoBrace(p: string)
    requires IsDottedPath(p)
    ensures forall k | 0 <= k < |p| :: p[k] != '{'
  {
    forall k | 0 <= k < |p| ensures p[k] != '{' {
      if k < |p| - 1 {
        var next := p[k + 1];
        assert IsWordChar(p[k]) || p[k] == '.';
      }
    }
  }

  /** The loop opener has one `{`, its first character, and its keyword starts with `f`. */
  lemma ForOpenerOneBrace(item: string, path: string)
    requires IsWord(item) && IsDottedPath(path)
    ensures var w := ForOpener(item, path);
      |w| >= 4 && w[2] == ' ' && w[3] == 'f' && forall j | 1 <= j < |w| :: w[j] != '{'
  {
    var w := ForOpener(item, path);
    var c := 7 + |item|;
    var e := c + 4;
    var f := e + |path|;
    forall j | 1 <= j < |w| ensures w[j] != '{' {
      if j < 7 {
        assert w[j] == "{% for "[j];
      } else if j < c {
        assert w[j] == item[j - 7] && IsWordChar(item[j - 7]);
      } else if j < e {
        assert w[j] == " in "[j - c];
      } else if j < f {
        DottedPathNoBrace(path);
        assert w[j] == path[j - e];
      } else {
        assert w[j] == " -%}"[j - f];
      }
    }
  }

  /** The closers have one `{`, their first character, and their keyword starts with `e`. */
  lemma CloserOneBrace(closer: string)
    requires closer == EndFor || closer == EndIf
    ensures |closer| >= 4 && closer[2] == ' ' && closer[3] == 'e'
    ensures forall j | 1 <= j < |closer| :: closer[j] != '{'
  {
  }

  /** Neither a loop nor a conditional starts at a `{%` followed by one space and an `e`. */
  lemma NoBlockAtCloser(ctx: Json, t: string, a: nat)
    requires a + 4 <= |t| && t[a + 2] == ' ' && t[a + 3] == 'e'
    ensures LoopHit(ctx, t, a).None? && IfHit(ctx, t, a).None?
  {
    assert SkipSpaces(t, a + 2) == a + 3;
    assert t[a + 3] != "for"[0] && t[a + 3] != "if"[0];
    assert !OccursAt(t, "for", a + 3) && !OccursAt(t, "if", a + 3);
    assert MatchForTag(t, a).None? && MatchIfTag(t, a).None?;
  }

  /** Neither a loop nor a conditional starts inside a copy of `{% endfor %}` or `{% endif %}`. */
  lemma NoBlockInCloser(ctx: Json, t: string, a: nat, closer: string)
    requires closer == EndFor || closer == EndIf
    requires a + |closer| <= |t| && t[a..a + |closer|] == closer
    ensures forall k | a <= k < a + |closer| :: LoopHit(ctx, t, k).None? && IfHit(ctx, t, k).None?
  {
    CloserOneBrace(closer);
    forall k | a <= k < a + |closer| ensures LoopHit(ctx, t, k).None? && IfHit(ctx, t, k).None? {
      if k == a {
        assert t[a + 2] == closer[2] && t[a + 3] == closer[3];
        NoBlockAtCloser(ctx, t, a);
      } else {
        assert t[k] == closer[k - a];
        LoopHitNeedsTag(ctx, t, k);
        IfHitNeedsTag(ctx, t, k);
      }
    }
  }

  /** Where the pieces of an outer block holding an inner opener sit in the text. */
  lemma NestedPieces(t: string, outer: string, opener: string, inner: string, closer: string, after: string,
                     o: nat, m: nat, close: nat, end: nat, a: nat)
    requires t == outer + opener + inner + closer + after + closer && |closer| > 0 && closer[0] == '{'
    requires o == |outer| && m == o + |opener| && close == m + |inner| && end == close + |closer| && a == end + |after|
    ensures a + |closer| == |t|
    ensures t == outer + (opener + inner) + closer + (after + closer)
    ensures t[o..m] == opener && t[m..close] == inner && t[close] == '{'
    ensures t[close..end] == closer && t[end..] == after + closer
    ensures t[end..a] == after && t[a] == '{' && t[a..a + |closer|] == closer
  {
  }

  /** In an outer loop whose body is an inner opener and text without `{%`, no closer starts in the body. */
  lemma NestedBodyNoCloser(t: string, y: string, ys: string, inner: string, o: nat, m: nat, close: nat)
    requires IsWord(y) && IsDottedPath(ys) && !Contains(inner, "{%")
    requires m == o + |ForOpener(y, ys)| && close == m + |inner| < |t|
    requires t[o..m] == ForOpener(y, ys) && t[m..close] == inner && t[close] == '{'
    ensures NoCloserIn(t, o, close, "endfor")
  {
    ForOpenerOneBrace(y, ys);
    NoCloserInOpener(t, o, ForOpener(y, ys), "endfor");
    TaglessNoCloser(t, m, close, inner, "endfor");
  }

  /** Text without `{%` and then a closer: no loop starts anywhere in it. */
  lemma PlainThenCloser(ctx: Json, t: string, after: string, end: nat, a: nat)
    requires !Contains(after, "{%") && a == end + |after| && a + |EndFor| == |t|
    requires t[end..a] == after && t[a..a + |EndFor|] == EndFor
    ensures forall k | end <= k < |t| :: LoopMatcher(ctx)(t, k).None?
  {
    NoTagInBody(t, end, a, after);
    NoBlockInCloser(ctx, t, a, EndFor);
    forall k | end <= k < |t| ensures LoopMatcher(ctx)(t, k).None? {
      if k < a {
        LoopHitNeedsTag(ctx, t, k);
      }
    }
  }

  /** The loop pattern at the start of an outer loop whose body opens an inner loop. */
  lemma NestedLoopHit(t: string, x: string, xs: string, y: string, ys: string, inner: string, after: string, ctx: Json,
                      o: nat, m: nat, close: nat, end: nat, a: nat)
    requires IsWord(x) && IsDottedPath(xs) && IsWord(y) && IsDottedPath(ys) && !Contains(inner, "{%")
    requires t == ForOpener(x, xs) + ForOpener(y, ys) + inner + EndFor + after + EndFor
    requires o == |ForOpener(x, xs)| && m == o + |ForOpener(y, ys)| && close == m + |inner|
    requires end == close + |EndFor| && a == end + |after|
    ensures LoopHit(ctx, t, 0) == Some(Hit(LoopText(ctx, x, xs, Strip(ForOpener(y, ys) + inner)), end))
    ensures 0 < end && a + |EndFor| == |t| && t[end..a] == after && t[a..a + |EndFor|] == EndFor
  {
    var body := ForOpener(y, ys) + inner;
    NestedPieces(t, ForOpener(x, xs), ForOpener(y, ys), inner, EndFor, after, o, m, close, end, a);
    NestedBodyNoCloser(t, y, ys, inner, o, m, close);
    LoopBlockAt(t, x, xs, body, after + EndFor, o, close, end);
    LoopHitFromMatch(ctx, t, LoopBlock(x, xs, Strip(body), o, close, end));
  }

  /**
   * Loops do not nest: in an outer loop whose body opens an inner loop, the FIRST
   * `{% endfor %}` closes the outer loop. The inner opener becomes text of the outer
   * body, and the second `{% endfor %}` stays in the output as it is.
   */
  lemma NestedLoopClosesAtFirst(x: string, xs: string, y: string, ys: string, inner: string, after: string, ctx: Json)
    requires IsWord(x) && IsDottedPath(xs) && IsWord(y) && IsDottedPath(ys)
    requires !Contains(inner, "{%") && !Contains(after, "{%")
    ensures var t := ForOpener(x, xs) + ForOpener(y, ys) + inner + EndFor + after + EndFor;
      RenderLoops(t, ctx) == LoopText(ctx, x, xs, Strip(ForOpener(y, ys) + inner)) + after + EndFor
  {
    var t := ForOpener(x, xs) + ForOpener(y, ys) + inner + EndFor + after + EndFor;
    var o := |ForOpener(x, xs)|;
    var m := o + |ForOpener(y, ys)|;
    var close := m + |inner|;
    var end := close + |EndFor|;
    var a := end + |after|;
    NestedLoopHit(t, x, xs, y, ys, inner, after, ctx, o, m, close, end, a);
    RenderHitThenCloser(ctx, t, LoopText(ctx, x, xs, Strip(ForOpener(y, ys) + inner)), after, end, a);
  }

  /** The loop pass on a loop block, then text without `{%`, then a stray `{% endfor %}`. */
  lemma RenderHitThenCloser(ctx: Json, t: string, text: string, after: string, end: nat, a: nat)
    requires 0 < end && a == end + |after| && a + |EndFor| == |t|
    requires t[end..a] == after && t[a..a + |EndFor|] == EndFor && !Contains(after, "{%")
    requires LoopHit(ctx, t, 0) == Some(Hit(text, end))
    ensures RenderLoops(t, ctx) == text + after + EndFor
  {
    SuffixPieces(t, after, EndFor, end, a);
    PlainThenCloser(ctx, t, after, end, a);
    SubMatchThenPlain(t, LoopMatcher(ctx), text, end);
  }

  /** A suffix made of two known pieces. */
  lemma SuffixPieces(t: string, u: string, v: string, i: nat, j: nat)
    requires i <= j && j + |v| == |t| && t[i..j] == u && t[j..j + |v|] == v
    ensures t[i..] == u + v
  {
    assert t[j..] == t[j..j + |v|];
    assert t[i..] == t[i..j] + t[j..];
  }

  // ---------------------------------------------------------------------------
  // What a loop block becomes
  // ---------------------------------------------------------------------------

  /** The list walk is the dict descent with [] for a dead end. */
  lemma {:induction false} WalkListIsLookup(v: Json, path: seq<string>)
    ensures WalkList(v, path) == LookupOr(v, path, Arr([]))
    decreases |path|
  {
    if path != [] {
      WalkListIsLookup(v, path[..|path| - 1]);
    }
  }

  /**
   * A loop over a path that is missing, passes through a non-dict or ends at something
   * other than a list renders as ""; over a list it renders the copies for its elements.
   */
  lemma LoopTextByLookup(ctx: Json, item: string, path: string, body: string)
    ensures var r := Lookup(ctx, Split(path, '.'));
      (r.None? ==> LoopText(ctx, item, path, body) == "")
      && (r.Some? && !r.value.Arr? ==> LoopText(ctx, item, path, body) == "")
      && (r.Some? && r.value.Arr? ==> LoopText(ctx, item, path, body) == Expand(body, item, r.value.items))
  {
    WalkListIsLookup(ctx, Split(path, '.'));
  }

  /** An empty list gives no copies. */
  lemma LoopOverEmptyList(ctx: Json, item: string, path: string, body: string)
    requires Lookup(ctx, Split(path, '.')) == Some(Arr([]))
    ensures LoopText(ctx, item, path, body) == ""
  {
    LoopTextByLookup(ctx, item, path, body);
  }

  /** The copies of the body, one per element, each made with the element and its position. */
  function Copies(body: string, name: string, items: seq<Json>): (r: seq<string>)
    ensures |r| == |items|
  {
    seq(|items|, i requires 0 <= i < |items| => Iteration(body, name, items[i], i))
  }

  /** The expansion is the concatenation of one copy per element, in list order. */
  lemma {:induction false} ExpandIsConcat(body: string, name: string, items: seq<Json>)
    ensures Expand(body, name, items) == Concat(Copies(body, name, items))
    decreases |items|
  {
    if items != [] {
      var n := |items| - 1;
      ExpandIsConcat(body, name, items[..n]);
      assert Copies(body, name, items)[..n] == Copies(body, name, items[..n]);
    }
  }

  /** `loop.index` counts from 1, `loop.index0` from 0, and any other key is "". */
  lemma LoopVarValues(i: nat, key: string)
    ensures key == "index" ==> LoopVarText(i, key) == IntToString(i + 1)
    ensures key == "index0" ==> LoopVarText(i, key) == IntToString(i)
    ensures key != "index" && key != "index0" ==> LoopVarText(i, key) == ""
  {
    var fs := LoopInfo(i).fields;
    assert fs[1..][1..] == [];
    assert Get(fs, key) == if key == "index" then Some(Num(i + 1)) else if key == "index0" then Some(Num(i)) else None;
  }

  // ---------------------------------------------------------------------------
  // Markers inside a loop body
  // ---------------------------------------------------------------------------

  /** The item and loop-variable patterns both start with `{{`. */
  lemma BodyHitsNeedBraces(name: string, item: Json, index: nat, t: string, k: nat)
    requires !OccursAt(t, "{{", k)
    ensures ItemHit(name, item, t, k) == None && LoopVarHit(index, t, k) == None
  {
  }

  /** No `{{` starts in a tail of the text without `{`. */
  lemma NoBraceInTail(t: string, end: nat, rest: string)
    requires end <= |t| && t[end..] == rest && '{' !in rest
    ensures forall k :: end <= k <= |t| ==> !OccursAt(t, "{{", k)
  {
    forall k | end <= k <= |t| ensures !OccursAt(t, "{{", k) {
      if k < |t| {
        assert t[k] == rest[k - end];
      }
    }
  }

  /** A marker at the start of a loop body followed by text without `{`. */
  lemma BodyMarkerThenPlain(t: string, m: Matcher, name: string, item: Json, index: nat,
                            text: string, end: nat, rest: string)
    requires m == ItemMatcher(name, item) || m == LoopVarMatcher(index)
    requires 0 < end <= |t| && t[end..] == rest && '{' !in rest
    requires m(t, 0) == Some(Hit(text, end))
    ensures Sub(t, 0, m) == text + rest
  {
    NoBraceInTail(t, end, rest);
    forall k | end <= k < |t| ensures m(t, k).None? {
      BodyHitsNeedBraces(name, item, index, t, k);
    }
    SubMatchThenPlain(t, m, text, end);
  }

  /** The item pattern takes `{{ <name> }}`, with no field. */
  lemma ItemMarkerMatch(t: string, name: string, rest: string, end: nat)
    requires IsWord(name) && t == "{{ " + name + " }}" + rest && end == |name| + 6
    ensures MatchItem(t, 0, name) == Some(ItemTag(None, end))
  {
    var b := 3 + |name|;
    assert t[..3] == "{{ " && t[3..b] == name && t[b..b + 3] == " }}";
    assert t[2] == ' ' && t[3] == name[0] && t[b] == ' ' && t[b + 1] == '}';
    assert SkipSpaces(t, 2) == 3;
    assert SkipSpaces(t, b) == b + 1;
    OccursWithin(t, 0, "{{ ", "{{", 0);
    OccursWithin(t, b, " }}", "}}", 1);
  }

  /** The characters of `{{ <name>.<field> }}` followed by anything. */
  lemma ItemFieldMarkerChars(t: string, name: string, field: string, rest: string)
    requires IsWord(name) && IsWord(field) && t == "{{ " + name + "." + field + " }}" + rest
    ensures var b := 3 + |name|;
      var c := b + 1 + |field|;
      c + 3 <= |t| && t[2] == ' ' && t[3] == name[0] && t[b] == '.' && t[b + 1] == field[0]
      && t[c] == ' ' && t[c + 1] == '}' && OccursAt(t, "{{", 0) && OccursAt(t, name, 3)
      && OccursAt(t, field, b + 1) && OccursAt(t, "}}", c + 1)
  {
    var b := 3 + |name|;
    var c := b + 1 + |field|;
    assert t[..3] == "{{ " && t[3..b] == name && t[b + 1..c] == field && t[c..c + 3] == " }}";
    OccursWithin(t, 0, "{{ ", "{{", 0);
    OccursWithin(t, c, " }}", "}}", 1);
  }

  /** The item pattern takes `{{ <name>.<field> }}` and captures the field. */
  lemma ItemFieldMarkerMatch(t: string, name: string, field: string, rest: string, end: nat)
    requires IsWord(name) && IsWord(field) && t == "{{ " + name + "." + field + " }}" + rest
    requires end == |name| + |field| + 7
    ensures MatchItem(t, 0, name) == Some(ItemTag(Some(field), end))
  {
    var b := 3 + |name|;
    var c := b + 1 + |field|;
    ItemFieldMarkerChars(t, name, field, rest);
    assert SkipSpaces(t, 2) == 3;
    SkipWordOver(t, b + 1, field);
    assert SkipSpaces(t, c) == c + 1;
    assert t[b + 1..c] == field;
  }

  /** The loop-variable pattern takes `{{ loop.<key> }}` and captures the key. */
  lemma LoopVarMarkerMatch(t: string, key: string, rest: string, end: nat)
    requires IsWord(key) && t == "{{ loop." + key + " }}" + rest && end == |key| + 11
    ensures MatchLoopVar(t, 0) == Some(KeyTag(key, end))
  {
    var b := 8 + |key|;
    assert t[..8] == "{{ loop." && t[8..b] == key && t[b..b + 3] == " }}";
    LoopVarMarkerChars(t, key, b, end);
  }

  /** The loop-variable pattern on a text whose characters are those of `{{ loop.<key> }}`. */
  lemma LoopVarMarkerChars(t: string, key: string, b: nat, end: nat)
    requires IsWord(key) && b == 8 + |key| && end == b + 3 && end <= |t|
    requires t[..8] == "{{ loop." && t[8..b] == key && t[b..end] == " }}"
    ensures MatchLoopVar(t, 0) == Some(KeyTag(key, end))
  {
    assert t[2] == t[..8][2] && t[3] == t[..8][3] && t[b] == t[b..end][0] && t[b + 1] == t[b..end][1];
    assert SkipSpaces(t, 2) == 3;
    SkipWordOver(t, 8, key);
    assert SkipSpaces(t, b) == b + 1;
    OccursWithin(t, 0, "{{ loop.", "{{", 0);
    OccursWithin(t, 0, "{{ loop.", "loop.", 3);
    OccursWithin(t, b, " }}", "}}", 1);
  }

  /** In a loop body, `{{ <name> }}` becomes `str(item)`. */
  lemma ItemMarker(name: string, item: Json, rest: string)
    requires IsWord(name) && '{' !in rest
    ensures Sub("{{ " + name + " }}" + rest, 0, ItemMatcher(name, item)) == PyStr(item) + rest
  {
    var t := "{{ " + name + " }}" + rest;
    var end := |name| + 6;
    ItemMarkerMatch(t, name, rest, end);
    assert t[end..] == rest;
    BodyMarkerThenPlain(t, ItemMatcher(name, item), name, item, 0, PyStr(item), end, rest);
  }

  /**
   * In a loop body, `{{ <name>.<field> }}` becomes `str(item.get(field))` for a dict item,
   * so "None" when the field is absent, and `str(item)` for any other item.
   */
  lemma ItemFieldMarker(name: string, field: string, item: Json, rest: string)
    requires IsWord(name) && IsWord(field) && '{' !in rest
    ensures var out := Sub("{{ " + name + "." + field + " }}" + rest, 0, ItemMatcher(name, item));
      (item.Obj? && !HasKey(item.fields, field) ==> out == "None" + rest)
      && (item.Obj? && HasKey(item.fields, field) ==> out == PyStr(Get(item.fields, field).value) + rest)
      && (!item.Obj? ==> out == PyStr(item) + rest)
  {
    var t := "{{ " + name + "." + field + " }}" + rest;
    var end := |name| + |field| + 7;
    ItemFieldMarkerMatch(t, name, field, rest, end);
    assert t[end..] == rest;
    BodyMarkerThenPlain(t, ItemMatcher(name, item), name, item, 0, ItemText(item, Some(field)), end, rest);
  }

  /** In copy `i`, `{{ loop.index }}` is i+1, `{{ loop.index0 }}` is i, any other key "". */
  lemma LoopVarMarker(i: nat, key: string, rest: string)
    requires IsWord(key) && '{' !in rest
    ensures var out := Sub("{{ loop." + key + " }}" + rest, 0, LoopVarMatcher(i));
      (key == "index" ==> out == IntToString(i + 1) + rest)
      && (key == "index0" ==> out == IntToString(i) + rest)
      && (key != "index" && key != "index0" ==> out == rest)
  {
    var t := "{{ loop." + key + " }}" + rest;
    var end := |key| + 11;
    LoopVarMarkerMatch(t, key, rest, end);
    assert t[end..] == rest;
    BodyMarkerThenPlain(t, LoopVarMatcher(i), "", Null, i, LoopVarText(i, key), end, rest);
    LoopVarValues(i, key);
  }

  /** A body that is just `{{ <name>.<field> }}` renders "None" for a dict item without the field. */
  lemma MissingFieldIsNone(name: string, field: string, fs: seq<Field>, i: nat)
    requires IsWord(name) && IsWord(field) && !HasKey(fs, field)
    ensures Iteration("{{ " + name + "." + field + " }}", name, Obj(fs), i) == "None"
  {
    var marker := "{{ " + name + "." + field + " }}";
    ItemFieldMarker(name, field, Obj(fs), "");
    assert marker + "" == marker;
    var withItem := Sub(marker, 0, ItemMatcher(name, Obj(fs)));
    assert withItem == "None";
    NoBraceUnchanged("None", Null, name, Obj(fs), i);
    assert Iteration(marker, name, Obj(fs), i) == Sub(withItem, 0, LoopVarMatcher(i));
  }

  // ---------------------------------------------------------------------------
  // {% if path %} content {% endif %}: defined, never called by render
  // ---------------------------------------------------------------------------

  /** The condition walk is the dict descent with None for a dead end. */
  lemma {:induction false} WalkConditionIsLookup(v: Json, path: seq<string>)
    ensures WalkCondition(v, path) == LookupOr(v, path, Null)
    decreases |path|
  {
    if path != [] {
      WalkConditionIsLookup(v, path[..|path| - 1]);
    }
  }

  /** A conditional block keeps its content iff its dotted path leads to a truthy value. */
  lemma IfTextByLookup(ctx: Json, path: string, content: string)
    ensures var r := Lookup(ctx, Split(path, '.'));
      (r.Some? && Truthy(r.value) ==> IfText(ctx, path, content) == content)
      && (!(r.Some? && Truthy(r.value)) ==> IfText(ctx, path, content) == "")
  {
    WalkConditionIsLookup(ctx, Split(path, '.'));
  }

  /** The conditional opener `{% if <path> %}`. */
  function IfOpener(path: string): string {
    "{% if " + path + " %}"
  }

  /** The conditional closer. */
  const EndIf: string := "{% endif %}"

  /** The opener pattern, given what each of its pieces finds in `t`. */
  lemma IfTagFromPieces(t: string, f: nat)
    requires 6 < f && f + 3 <= |t|
    requires OccursAt(t, "{%", 0) && SkipSpaces(t, 2) == 3 && OccursAt(t, "if", 3)
    requires SkipSpaces(t, 5) == 6 && PathEnd(t, 6) == Some(f)
    requires SkipSpaces(t, f) == f + 1 && OccursAt(t, "%}", f + 1)
    ensures MatchIfTag(t, 0) == Some(IfTag(t[6..f], f + 3))
  {
  }

  /** The pieces of `{% if <path> %}` followed by anything. */
  lemma IfOpenerPieces(path: string, rest: string)
    requires IsDottedPath(path)
    ensures var t := IfOpener(path) + rest;
      var f := 6 + |path|;
      f + 3 <= |t| && t[..6] == "{% if " && t[6..f] == path && t[f..f + 3] == " %}"
  {
  }

  /** The characters of a text that starts with `{% if <path> %}`. */
  lemma IfOpenerChars(t: string, path: string, f: nat)
    requires IsDottedPath(path) && f == 6 + |path| && f + 3 <= |t|
    requires t[..6] == "{% if " && t[6..f] == path && t[f..f + 3] == " %}"
    ensures t[2] == ' ' && t[3] == 'i' && t[5] == ' ' && t[6] == path[0] && t[f] == ' ' && t[f + 1] == '%'
    ensures OccursAt(t, path, 6)
    ensures OccursAt(t, "{%", 0) && OccursAt(t, "if", 3) && OccursAt(t, "%}", f + 1)
  {
    assert t[..6][2] == t[2] && t[..6][3] == t[3] && t[..6][5] == t[5];
    assert t[f..f + 3][0] == t[f] && t[f..f + 3][1] == t[f + 1];
    assert t[6..f][0] == t[6];
    OccursWithin(t, 0, "{% if ", "{%", 0);
    OccursWithin(t, 0, "{% if ", "if", 3);
    OccursWithin(t, f, " %}", "%}", 1);
  }

  /** What each piece of the opener pattern finds in a text whose characters are those of the opener. */
  lemma IfOpenerScan(t: string, path: string, f: nat)
    requires IsDottedPath(path) && f == 6 + |path| && f + 3 <= |t|
    requires t[2] == ' ' && t[3] == 'i' && t[5] == ' ' && t[6] == path[0] && t[f] == ' ' && t[f + 1] == '%'
    requires OccursAt(t, path, 6)
    ensures SkipSpaces(t, 2) == 3 && SkipSpaces(t, 5) == 6
    ensures PathEnd(t, 6) == Some(f) && SkipSpaces(t, f) == f + 1
  {
    assert SkipSpaces(t, 2) == 3;
    assert SkipSpaces(t, 5) == 6;
    PathEndOver(t, 6, path);
    assert SkipSpaces(t, f) == f + 1;
  }

  /** The opener pattern recognises `{% if <path> %}` and captures the path. */
  lemma IfTagMatch(path: string, rest: string)
    requires IsDottedPath(path)
    ensures MatchIfTag(IfOpener(path) + rest, 0) == Some(IfTag(path, |IfOpener(path)|))
  {
    var t := IfOpener(path) + rest;
    var f := 6 + |path|;
    IfOpenerPieces(path, rest);
    IfOpenerChars(t, path, f);
    IfOpenerScan(t, path, f);
    IfTagFromPieces(t, f);
  }

  /** The closing pattern recognises `{% endif %}`. */
  lemma EndIfMatch(t: string, i: nat)
    requires i + |EndIf| <= |t| && t[i..i + |EndIf|] == EndIf
    ensures MatchEndTag(t, i, "endif") == Some(i + |EndIf|)
  {
    var w := t[i..i + 11];
    assert t[i + 2] == w[2] && t[i + 3] == w[3] && t[i + 8] == w[8] && t[i + 9] == w[9];
    assert SkipSpaces(t, i + 2) == i + 3;
    assert SkipSpaces(t, i + 8) == i + 9;
    OccursWithin(t, i, EndIf, "{%", 0);
    OccursWithin(t, i, EndIf, "endif", 3);
    OccursWithin(t, i, EndIf, "%}", 9);
  }

  /** The conditional pattern, given the opener, the first closer after it and where it ends. */
  lemma IfBlockFromPieces(t: string, path: string, content: string, o: nat, close: nat, end: nat)
    requires o <= close <= |t| && t[o..close] == content
    requires MatchIfTag(t, 0) == Some(IfTag(path, o))
    requires MatchEndTag(t, close, "endif") == Some(end)
    requires NoCloserIn(t, o, close, "endif")
    ensures MatchIf(t, 0) == Some(IfBlock(path, content, end))
  {
    FindEndTagAt(t, o, close, "endif");
  }

  /** `{% endif %}` follows the content of a conditional written out in pieces. */
  lemma IfContentAt(t: string, opener: string, content: string, rest: string, o: nat, close: nat)
    requires t == opener + content + EndIf + rest && o == |opener| && close == o + |content|
    ensures close + |EndIf| <= |t| && t[o..close] == content
    ensures MatchEndTag(t, close, "endif") == Some(close + |EndIf|)
  {
    BlockPieces(t, opener, content, EndIf, rest, o, close);
    EndIfMatch(t, close);
  }

  /** The conditional pattern on a block whose content holds no closer, the content running from `o` to `close`. */
  lemma IfBlockAt(t: string, path: string, content: string, rest: string, o: nat, close: nat, end: nat)
    requires IsDottedPath(path)
    requires t == IfOpener(path) + content + EndIf + rest
    requires o == |IfOpener(path)| && close == o + |content| && end == close + |EndIf|
    requires NoCloserIn(t, o, close, "endif")
    ensures MatchIf(t, 0) == Some(IfBlock(path, content, end))
  {
    assert t == IfOpener(path) + (content + EndIf + rest);
    IfTagMatch(path, content + EndIf + rest);
    IfContentAt(t, IfOpener(path), content, rest, o, close);
    IfBlockFromPieces(t, path, content, o, close, end);
  }

  /**
   * A conditional block: when no `{% endif %}` starts inside `content` (which may hold
   * any other tag), the block closes at the closer after it and the content is kept
   * as it is.
   */
  lemma IfBlockMatch(t: string, path: string, content: string, rest: string)
    requires IsDottedPath(path)
    requires t == IfOpener(path) + content + EndIf + rest
    requires NoCloserIn(t, |IfOpener(path)|, |IfOpener(path)| + |content|, "endif")
    ensures var m := MatchIf(t, 0);
      m.Some? && m.value.path == path && m.value.content == content
      && m.value.end == |IfOpener(path)| + |content| + |EndIf|
  {
    var o := |IfOpener(path)|;
    IfBlockAt(t, path, content, rest, o, o + |content|, o + |content| + |EndIf|);
  }

  /** A matched conditional is replaced by what its condition makes of it. */
  lemma IfHitFromMatch(ctx: Json, t: string, b: IfBlock)
    requires MatchIf(t, 0) == Some(b)
    ensures IfHit(ctx, t, 0) == Some(Hit(IfText(ctx, b.path, b.content), b.end))
  {
  }

  /** Every conditional block starts with `{%`. */
  lemma IfHitNeedsTag(ctx: Json, t: string, k: nat)
    requires !OccursAt(t, "{%", k)
    ensures IfHit(ctx, t, k) == None
  {
  }

  /** The conditional pass on a text that starts with a block and has no `{%` after it. */
  lemma RenderConditionalsFromPieces(t: string, ctx: Json, text: string, end: nat, rest: string)
    requires 0 < end <= |t| && t[end..] == rest && !Contains(rest, "{%")
    requires IfHit(ctx, t, 0) == Some(Hit(text, end))
    ensures RenderConditionals(t, ctx) == text + rest
  {
    NoTagInTail(t, end, rest);
    forall k | end <= k < |t| ensures IfMatcher(ctx)(t, k).None? {
      IfHitNeedsTag(ctx, t, k);
    }
    SubMatchThenPlain(t, IfMatcher(ctx), text, end);
  }

  /** The conditional pass on a well-formed block followed by text without `{%`. */
  lemma RenderIfBlock(t: string, path: string, content: string, rest: string, ctx: Json)
    requires IsDottedPath(path) && !Contains(rest, "{%")
    requires t == IfOpener(path) + content + EndIf + rest
    requires NoCloserIn(t, |IfOpener(path)|, |IfOpener(path)| + |content|, "endif")
    ensures RenderConditionals(t, ctx) == IfText(ctx, path, content) + rest
  {
    var o := |IfOpener(path)|;
    var close := o + |content|;
    var end := close + |EndIf|;
    var b := IfBlock(path, content, end);
    IfBlockAt(t, path, content, rest, o, close, end);
    IfHitFromMatch(ctx, t, b);
    BlockPieces(t, IfOpener(path), content, EndIf, rest, o, close);
    RenderConditionalsFromPieces(t, ctx, IfText(ctx, b.path, b.content), b.end, rest);
  }

  // ---------------------------------------------------------------------------
  // Conditionals do not nest
  // ---------------------------------------------------------------------------

  /** The conditional opener has one `{`, its first character, and its keyword starts with `i`. */
  lemma IfOpenerOneBrace(path: string)
    requires IsDottedPath(path)
    ensures var w := IfOpener(path);
      |w| >= 4 && w[2] == ' ' && w[3] == 'i' && forall j | 1 <= j < |w| :: w[j] != '{'
  {
    var w := IfOpener(path);
    var f := 6 + |path|;
    forall j | 1 <= j < |w| ensures w[j] != '{' {
      if j < 6 {
        assert w[j] == "{% if "[j];
      } else if j < f {
        DottedPathNoBrace(path);
        assert w[j] == path[j - 6];
      } else {
        assert w[j] == " %}"[j - f];
      }
    }
  }

  /** In an outer conditional whose content is an inner opener and text without `{%`, no closer starts in the content. */
  lemma NestedContentNoCloser(t: string, q: string, inner: string, o: nat, m: nat, close: nat)
    requires IsDottedPath(q) && !Contains(inner, "{%")
    requires m == o + |IfOpener(q)| && close == m + |inner| < |t|
    requires t[o..m] == IfOpener(q) && t[m..close] == inner && t[close] == '{'
    ensures NoCloserIn(t, o, close, "endif")
  {
    IfOpenerOneBrace(q);
    NoCloserInOpener(t, o, IfOpener(q), "endif");
    TaglessNoCloser(t, m, close, inner, "endif");
  }

  /** Text without `{%` and then a closer: no conditional starts anywhere in it. */
  lemma PlainThenEndIf(ctx: Json, t: string, after: string, end: nat, a: nat)
    requires !Contains(after, "{%") && a == end + |after| && a + |EndIf| == |t|
    requires t[end..a] == after && t[a..a + |EndIf|] == EndIf
    ensures forall k | end <= k < |t| :: IfMatcher(ctx)(t, k).None?
  {
    NoTagInBody(t, end, a, after);
    NoBlockInCloser(ctx, t, a, EndIf);
    forall k | end <= k < |t| ensures IfMatcher(ctx)(t, k).None? {
      if k < a {
        IfHitNeedsTag(ctx, t, k);
      }
    }
  }

  /** The conditional pattern at the start of an outer conditional whose content opens an inner one. */
  lemma NestedIfHit(t: string, p: string, q: string, inner: string, after: string, ctx: Json,
                    o: nat, m: nat, close: nat, end: nat, a: nat)
    requires IsDottedPath(p) && IsDottedPath(q) && !Contains(inner, "{%")
    requires t == IfOpener(p) + IfOpener(q) + inner + EndIf + after + EndIf
    requires o == |IfOpener(p)| && m == o + |IfOpener(q)| && close == m + |inner|
    requires end == close + |EndIf| && a == end + |after|
    ensures IfHit(ctx, t, 0) == Some(Hit(IfText(ctx, p, IfOpener(q) + inner), end))
    ensures 0 < end && a + |EndIf| == |t| && t[end..a] == after && t[a..a + |EndIf|] == EndIf
  {
    var content := IfOpener(q) + inner;
    NestedPieces(t, IfOpener(p), IfOpener(q), inner, EndIf, after, o, m, close, end, a);
    NestedContentNoCloser(t, q, inner, o, m, close);
    IfBlockAt(t, p, content, after + EndIf, o, close, end);
    IfHitFromMatch(ctx, t, IfBlock(p, content, end));
  }

  /** The conditional pass on a block, then text without `{%`, then a stray `{% endif %}`. */
  lemma RenderIfHitThenCloser(ctx: Json, t: string, text: string, after: string, end: nat, a: nat)
    requires 0 < end && a == end + |after| && a + |EndIf| == |t|
    requires t[end..a] == after && t[a..a + |EndIf|] == EndIf && !Contains(after, "{%")
    requires IfHit(ctx, t, 0) == Some(Hit(text, end))
    ensures RenderConditionals(t, ctx) == text + after + EndIf
  {
    SuffixPieces(t, after, EndIf, end, a);
    PlainThenEndIf(ctx, t, after, end, a);
    SubMatchThenPlain(t, IfMatcher(ctx), text, end);
  }

  /**
   * Conditionals do not nest: in an outer conditional whose content opens an inner one,
   * the FIRST `{% endif %}` closes the outer conditional. The inner opener is part of
   * the outer content, and the second `{% endif %}` stays in the output as it is.
   */
  lemma NestedIfClosesAtFirst(p: string, q: string, inner: string, after: string, ctx: Json)
    requires IsDottedPath(p) && IsDottedPath(q)
    requires !Contains(inner, "{%") && !Contains(after, "{%")
    ensures var t := IfOpener(p) + IfOpener(q) + inner + EndIf + after + EndIf;
      RenderConditionals(t, ctx) == IfText(ctx, p, IfOpener(q) + inner) + after + EndIf
  {
    var t := IfOpener(p) + IfOpener(q) + inner + EndIf + after + EndIf;
    var o := |IfOpener(p)|;
    var m := o + |IfOpener(q)|;
    var close := m + |inner|;
    var end := close + |EndIf|;
    var a := end + |after|;
    NestedIfHit(t, p, q, inner, after, ctx, o, m, close, end, a);
    RenderIfHitThenCloser(ctx, t, IfText(ctx, p, IfOpener(q) + inner), after, end, a);
  }
}
