/** Display names for C++ symbols (shorten_symbol.cpp). */
module ShortenSymbol {
  import opened Texts

  const OPERATOR: Text := "operator"
  const ELLIPSIS: Text := "<...>"

  predicate PrecededByOperator(s: Text, pos: nat)
    requires pos <= |s|
  {
    pos >= 8 && s[pos - 8..pos] == OPERATOR
  }

  /** The rest of the first pass from position `i`, with `result` written and `depth` brackets open. */
  function CollapseFrom(sym: Text, i: nat, result: Text, depth: nat): Text
    decreases |sym| - i
  {
    if i >= |sym| then result
    else if sym[i] == '<' then
      if depth > 0 then CollapseFrom(sym, i + 1, result, depth + 1)
      else if !PrecededByOperator(result, |result|) then CollapseFrom(sym, i + 1, result + ELLIPSIS, 1)
      else if i + 1 < |sym| && sym[i + 1] == '<' then CollapseFrom(sym, i + 2, result + ['<', '<'], 0)
      else CollapseFrom(sym, i + 1, result + ['<'], 0)
    else if depth == 0 then CollapseFrom(sym, i + 1, result + [sym[i]], 0)
    else CollapseFrom(sym, i + 1, result, if sym[i] == '>' then depth - 1 else depth)
  }

  function Collapse(sym: Text): Text {
    CollapseFrom(sym, 0, [], 0)
  }

  method CollapseTemplates(sym: Text) returns (result: Text)
    ensures result == Collapse(sym)
  {
    result := [];
    var angleDepth := 0;
    var i := 0;
    while i < |sym|
      invariant 0 <= angleDepth && 0 <= i
      invariant CollapseFrom(sym, i, result, angleDepth) == Collapse(sym)
      decreases |sym| - i
    {
      var c := sym[i];
      if c == '<' && angleDepth == 0 {
        if PrecededByOperator(result, |result|) {
          result := result + ['<'];
          if i + 1 < |sym| && sym[i + 1] == '<' {
            assert result + ['<'] == result[..|result| - 1] + ['<', '<'];
            result := result + ['<'];
            i := i + 1;
          }
        } else {
          result := result + ELLIPSIS;
          angleDepth := 1;
        }
      } else if c == '<' && angleDepth > 0 {
        angleDepth := angleDepth + 1;
      } else if c == '>' && angleDepth > 0 {
        angleDepth := angleDepth - 1;
      } else if angleDepth == 0 {
        result := result + [c];
      }
      i := i + 1;
    }
  }

  /** What is written stays written. */
  lemma {:induction false} CollapseExtends(sym: Text, i: nat, result: Text, depth: nat)
    ensures result <= CollapseFrom(sym, i, result, depth)
    decreases |sym| - i
  {
    if i < |sym| {
      if sym[i] == '<' {
        if depth > 0 {
          CollapseExtends(sym, i + 1, result, depth + 1);
        } else if !PrecededByOperator(result, |result|) {
          CollapseExtends(sym, i + 1, result + ELLIPSIS, 1);
        } else if i + 1 < |sym| && sym[i + 1] == '<' {
          CollapseExtends(sym, i + 2, result + ['<', '<'], 0);
        } else {
          CollapseExtends(sym, i + 1, result + ['<'], 0);
        }
      } else if depth == 0 {
        CollapseExtends(sym, i + 1, result + [sym[i]], 0);
      } else {
        CollapseExtends(sym, i + 1, result, if sym[i] == '>' then depth - 1 else depth);
      }
    }
  }

  /** Reading the output again from where `result` ends writes the same output: a lone `operator<` is
      not continued by another bracket there, and each `<...>` closes itself. */
  lemma {:induction false} CollapseAgain(sym: Text, i: nat, result: Text, depth: nat)
    ensures var out := CollapseFrom(sym, i, result, depth);
            result <= out && CollapseFrom(out, |result|, result, 0) == out
    decreases |sym| - i
  {
    var out := CollapseFrom(sym, i, result, depth);
    CollapseExtends(sym, i, result, depth);
    if i < |sym| {
      if sym[i] == '<' {
        if depth > 0 {
          CollapseAgain(sym, i + 1, result, depth + 1);
        } else if !PrecededByOperator(result, |result|) {
          CollapseAgain(sym, i + 1, result + ELLIPSIS, 1);
          CollapseExtends(sym, i + 1, result + ELLIPSIS, 1);
          EllipsisAgain(out, result);
        } else if i + 1 < |sym| && sym[i + 1] == '<' {
          CollapseAgain(sym, i + 2, result + ['<', '<'], 0);
          CollapseExtends(sym, i + 2, result + ['<', '<'], 0);
          assert out[|result|] == (result + ['<', '<'])[|result|] &&
                 out[|result| + 1] == (result + ['<', '<'])[|result| + 1];
        } else {
          CollapseAgain(sym, i + 1, result + ['<'], 0);
          CollapseExtends(sym, i + 1, result + ['<'], 0);
          assert out[|result|] == (result + ['<'])[|result|];
          if i + 1 < |sym| {
            CollapseExtends(sym, i + 2, result + ['<'] + [sym[i + 1]], 0);
            assert out[|result| + 1] == (result + ['<'] + [sym[i + 1]])[|result| + 1];
          }
        }
      } else if depth == 0 {
        CollapseAgain(sym, i + 1, result + [sym[i]], 0);
        CollapseExtends(sym, i + 1, result + [sym[i]], 0);
        assert out[|result|] == (result + [sym[i]])[|result|];
      } else {
        CollapseAgain(sym, i + 1, result, if sym[i] == '>' then depth - 1 else depth);
      }
    }
  }

  lemma {:induction false} EllipsisAgain(out: Text, result: Text)
    requires result + ELLIPSIS <= out && !PrecededByOperator(result, |result|)
    ensures CollapseFrom(out, |result|, result, 0) == CollapseFrom(out, |result| + 5, result + ELLIPSIS, 0)
  {
    var n := |result|;
    assert forall k :: 0 <= k < 5 ==> out[n + k] == (result + ELLIPSIS)[n + k] == ELLIPSIS[k];
    var next := result + ELLIPSIS;
    assert out[n] == '<' && out[n + 1] == '.' && out[n + 2] == '.' && out[n + 3] == '.' && out[n + 4] == '>';
    assert CollapseFrom(out, n, result, 0) == CollapseFrom(out, n + 1, next, 1);
    assert CollapseFrom(out, n + 1, next, 1) == CollapseFrom(out, n + 2, next, 1) == CollapseFrom(out, n + 3, next, 1);
    assert CollapseFrom(out, n + 3, next, 1) == CollapseFrom(out, n + 4, next, 1) == CollapseFrom(out, n + 5, next, 0);
  }

  /** Collapsing a collapsed symbol changes nothing, whatever its brackets. */
  lemma {:induction false} CollapseIdempotent(sym: Text)
    ensures Collapse(Collapse(sym)) == Collapse(sym)
  {
    CollapseAgain(sym, 0, [], 0);
  }

  // ----- What collapsing removes -----------------------------------------------------------------

  /** The bracket depth after `body`, starting inside `depth` brackets and never leaving the outermost. */
  function DepthAfter(body: Text, depth: nat): Option<nat> {
    if depth == 0 then None
    else if body == [] then Some(depth)
    else DepthAfter(body[1..], if body[0] == '<' then depth + 1 else if body[0] == '>' then depth - 1 else depth)
  }

  /** An argument list whose brackets match. */
  predicate IsTemplateBody(body: Text) {
    DepthAfter(body, 1) == Some(1)
  }

  lemma {:induction false} BodySkipped(sym: Text, i: nat, result: Text, depth: nat, body: Text)
    requires i + |body| <= |sym| && sym[i..i + |body|] == body && DepthAfter(body, depth).Some?
    ensures CollapseFrom(sym, i, result, depth) ==
            CollapseFrom(sym, i + |body|, result, DepthAfter(body, depth).value)
    decreases |body|
  {
    if body != [] {
      assert sym[i] == body[0];
      assert sym[i + 1..i + |body|] == body[1..];
      BodySkipped(sym, i + 1, result,
        if body[0] == '<' then depth + 1 else if body[0] == '>' then depth - 1 else depth, body[1..]);
    }
  }

  /** A template argument list with matched brackets, whatever is in it, becomes `<...>`, unless it
      follows `operator`. */
  lemma {:induction false} TemplateCollapses(sym: Text, i: nat, result: Text, body: Text)
    requires i + |body| + 2 <= |sym| && sym[i..i + |body| + 2] == ['<'] + body + ['>']
    requires IsTemplateBody(body) && !PrecededByOperator(result, |result|)
    ensures CollapseFrom(sym, i, result, 0) == CollapseFrom(sym, i + |body| + 2, result + ELLIPSIS, 0)
  {
    var piece := ['<'] + body + ['>'];
    assert sym[i] == piece[0] && sym[i + |body| + 1] == piece[|body| + 1];
    forall k | 0 <= k < |body| ensures sym[i + 1..i + 1 + |body|][k] == body[k] {
      assert sym[i..i + |body| + 2][k + 1] == piece[k + 1];
    }
    BodySkipped(sym, i + 1, result + ELLIPSIS, 1, body);
  }

  /** A symbol without an opening bracket is left as it is. */
  lemma {:induction false} PlainKept(sym: Text, i: nat)
    requires i <= |sym| && '<' !in sym
    ensures CollapseFrom(sym, i, sym[..i], 0) == sym
    decreases |sym| - i
  {
    if i < |sym| {
      assert sym[..i] + [sym[i]] == sym[..i + 1];
      PlainKept(sym, i + 1);
    } else {
      assert sym[..i] == sym;
    }
  }

  // ----- Second pass: parameter lists ------------------------------------------------------------

  /** How many more braces and brackets open than close; never mind which match. */
  function Depth(s: Text): int {
    if s == [] then 0
    else
      var c := s[|s| - 1];
      Depth(s[..|s| - 1]) + (if c == '{' || c == '[' then 1 else if c == '}' || c == ']' then -1 else 0)
  }

  /** A parameter list may begin here: an opening parenthesis outside braces and brackets that is not
      that of `operator()`. */
  predicate IsCut(sym: Text, k: nat) {
    k < |sym| && sym[k] == '(' && Depth(sym[..k]) == 0 && !PrecededByOperator(sym, k)
  }

  /** The last such place before `n`. */
  function LastCut(sym: Text, n: nat): (r: Option<nat>)
    requires n <= |sym|
    ensures r.Some? ==> r.value < n && IsCut(sym, r.value) && forall k :: r.value < k < n ==> !IsCut(sym, k)
    ensures r.None? ==> forall k :: 0 <= k < n ==> !IsCut(sym, k)
  {
    if n == 0 then None else if IsCut(sym, n - 1) then Some(n - 1) else LastCut(sym, n - 1)
  }

  function Strip(sym: Text): Text {
    match LastCut(sym, |sym|)
    case None => sym
    case Some(k) => sym[..k]
  }

  lemma {:induction false} DepthNext(sym: Text, i: nat)
    requires i < |sym|
    ensures Depth(sym[..i + 1]) ==
            Depth(sym[..i]) +
            (if sym[i] == '{' || sym[i] == '[' then 1 else if sym[i] == '}' || sym[i] == ']' then -1 else 0)
  {
    assert sym[..i + 1][..i] == sym[..i];
  }

  method StripParameters(sym: Text) returns (result: Text)
    ensures result == Strip(sym)
    ensures result <= sym
    ensures result == sym <==> forall k: nat :: !IsCut(sym, k)
    ensures result != sym ==> IsCut(sym, |result|) && forall k :: |result| < k < |sym| ==> !IsCut(sym, k)
  {
    var depth := 0;
    var lastOpen: Option<nat> := None;
    var i := 0;
    while i < |sym|
      invariant 0 <= i <= |sym|
      invariant depth == Depth(sym[..i]) && lastOpen == LastCut(sym, i)
      decreases |sym| - i
    {
      var c := sym[i];
      DepthNext(sym, i);
      if c == '{' || c == '[' {
        depth := depth + 1;
      } else if c == '}' || c == ']' {
        depth := depth - 1;
      } else if c == '(' && depth == 0 {
        if PrecededByOperator(sym, i) {
          if i + 1 < |sym| && sym[i + 1] == ')' {
            DepthNext(sym, i + 1);
            i := i + 1;
          }
        } else {
          lastOpen := Some(i);
        }
      }
      i := i + 1;
    }
    assert sym[..|sym|] == sym;
    result := if lastOpen.Some? then sym[..lastOpen.value] else sym;
  }

  // ----- Display names ---------------------------------------------------------------------------

  /** The scan of a collapsed symbol does the same on what comes before a parenthesis. */
  lemma {:induction false} PrefixCollapsed(sym: Text, i: nat, k: nat)
    requires i <= k < |sym| && sym[k] == '(' && CollapseFrom(sym, i, sym[..i], 0) == sym
    ensures CollapseFrom(sym[..k], i, sym[..i], 0) == sym[..k]
    decreases |sym| - i
  {
    var p := sym[..k];
    assert p[..i] == sym[..i];
    if i == k {
    } else if sym[i] != '<' {
      assert sym[..i] + [sym[i]] == sym[..i + 1];
      PrefixCollapsed(sym, i + 1, k);
    } else if !PrecededByOperator(sym[..i], i) {
      CollapseExtends(sym, i + 1, sym[..i] + ELLIPSIS, 1);
      EllipsisKept(sym, i);
      assert k >= i + 5 by {
        assert forall j :: i <= j < i + 5 ==> sym[j] == ELLIPSIS[j - i];
      }
      PrefixCollapsed(sym, i + 5, k);
      assert p[i..i + 5] == sym[i..i + 5];
      EllipsisSteps(p, i, sym[..i]);
      assert sym[..i] + ELLIPSIS == sym[..i + 5];
    } else if i + 1 < |sym| && sym[i + 1] == '<' {
      assert sym[..i] + ['<', '<'] == sym[..i + 2];
      PrefixCollapsed(sym, i + 2, k);
    } else {
      assert sym[..i] + ['<'] == sym[..i + 1];
      PrefixCollapsed(sym, i + 1, k);
    }
  }

  lemma {:induction false} EllipsisSteps(sym: Text, i: nat, result: Text)
    requires i + 5 <= |sym| && sym[i..i + 5] == ELLIPSIS && !PrecededByOperator(result, |result|)
    ensures CollapseFrom(sym, i, result, 0) == CollapseFrom(sym, i + 5, result + ELLIPSIS, 0)
  {
    var body: Text := "...";
    assert sym[i..i + 5] == ['<'] + body + ['>'];
    assert IsTemplateBody(body) by {
      assert DepthAfter(body, 1) == DepthAfter(body[1..], 1) == DepthAfter(body[1..][1..], 1);
    }
    TemplateCollapses(sym, i, result, body);
  }

  /** A template in a collapsed symbol is an ellipsis already. */
  lemma {:induction false} EllipsisKept(sym: Text, i: nat)
    requires i < |sym| && sym[i] == '<' && !PrecededByOperator(sym[..i], i)
    requires CollapseFrom(sym, i, sym[..i], 0) == sym && sym[..i] + ELLIPSIS <= sym
    ensures i + 5 <= |sym| && sym[i..i + 5] == ELLIPSIS && CollapseFrom(sym, i + 5, sym[..i + 5], 0) == sym
  {
    assert sym[..i + 5] == sym[..i] + ELLIPSIS;
    assert sym[i..i + 5] == sym[..i + 5][i..];
    EllipsisSteps(sym, i, sym[..i]);
  }

  /** The display name of a symbol. */
  function Shorten(symbol: Text): Text {
    Strip(Collapse(symbol))
  }

  method ShortenSymbol(symbol: Text) returns (result: Text)
    ensures result == Shorten(symbol)
    ensures result <= Collapse(symbol) && Collapse(result) == result
  {
    var pass1 := CollapseTemplates(symbol);
    result := StripParameters(pass1);
    ShortenCollapsed(symbol);
  }

  /** A display name has no template left to collapse. */
  lemma {:induction false} ShortenCollapsed(symbol: Text)
    ensures Collapse(Shorten(symbol)) == Shorten(symbol)
  {
    hide CollapseFrom;
    var sym := Collapse(symbol);
    CollapseIdempotent(symbol);
    match LastCut(sym, |sym|)
    case None =>
    case Some(k) =>
      assert sym[..0] == [];
      PrefixCollapsed(sym, 0, k);
  }
}
