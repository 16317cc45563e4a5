/** What the display name of a symbol is, for every symbol made of words, template arguments, braces and
    brackets, operators and parentheses. */
module DisplayNames {
  import opened Texts
  import opened ShortenSymbol

  // ----- Symbols by their pieces ----------------------------------------------------------------

  datatype Sign = Less | Shift | Parentheses

  /** `Braced` and `Bracketed` hold what is between `{` and `}` or `[` and `]`; `Open` is a parenthesis
      that opens anything but the two of `operator()`. */
  datatype Piece =
    | Word(text: Text)
    | Template(arguments: Text)
    | Braced(text: Text)
    | Bracketed(text: Text)
    | Operator(sign: Sign)
    | Open

  function SignText(sign: Sign): Text {
    match sign
    case Less => "<"
    case Shift => "<<"
    case Parentheses => "()"
  }

  function Spell(p: Piece): Text {
    match p
    case Word(text) => text
    case Template(arguments) => "<" + arguments + ">"
    case Braced(text) => "{" + text + "}"
    case Bracketed(text) => "[" + text + "]"
    case Operator(sign) => "operator" + SignText(sign)
    case Open => "("
  }

  function Spelled(ps: seq<Piece>): Text {
    if ps == [] then [] else Spelled(ps[..|ps| - 1]) + Spell(ps[|ps| - 1])
  }

  /** A piece as it is displayed: only template arguments are abridged. */
  function Show(p: Piece): Text {
    if p.Template? then "<...>" else Spell(p)
  }

  function Shown(ps: seq<Piece>): Text {
    if ps == [] then [] else Shown(ps[..|ps| - 1]) + Show(ps[|ps| - 1])
  }

  function LastOpen(ps: seq<Piece>): (r: Option<nat>)
    ensures r.Some? ==> r.value < |ps| && ps[r.value].Open? && forall i :: r.value < i < |ps| ==> !ps[i].Open?
    ensures r.None? ==> forall i :: 0 <= i < |ps| ==> !ps[i].Open?
  {
    if ps == [] then None
    else if ps[|ps| - 1].Open? then Some(|ps| - 1)
    else LastOpen(ps[..|ps| - 1])
  }

  /** The pieces before the last parenthesis that opens, or all of them. */
  function Named(ps: seq<Piece>): seq<Piece> {
    match LastOpen(ps)
    case None => ps
    case Some(i) => ps[..i]
  }

  predicate NoBrackets(s: Text) {
    forall i :: 0 <= i < |s| ==> s[i] !in ['<', '{', '}', '[', ']']
  }

  predicate EndsInOperator(s: Text) {
    |s| >= 8 && s[|s| - 8..] == "operator"
  }

  predicate FollowsLess(before: seq<Piece>) {
    before != [] && before[|before| - 1] == Operator(Less)
  }

  /** The piece is what it is taken for where it stands. */
  predicate Fits(before: seq<Piece>, p: Piece) {
    match p
    case Word(text) => text != [] && NoBrackets(text) && '(' !in text
    case Template(arguments) =>
      IsTemplateBody(arguments) && !EndsInOperator(Shown(before)) && !FollowsLess(before)
    case Braced(text) => NoBrackets(text)
    case Bracketed(text) => NoBrackets(text)
    case Operator(_) => true
    case Open => !EndsInOperator(Shown(before))
  }

  predicate IsSymbol(ps: seq<Piece>) {
    ps == [] || (IsSymbol(ps[..|ps| - 1]) && Fits(ps[..|ps| - 1], ps[|ps| - 1]))
  }

  // ----- First pass -----------------------------------------------------------------------------

  lemma {:induction false} OperatorPrecedes(s: Text)
    ensures EndsInOperator(s) <==> PrecededByOperator(s, |s|)
  {
  }

  /** Behind `operator` one or two opening brackets are copied, and the scan goes on outside brackets. */
  lemma {:induction false} OperatorKept(sym: Text, i: nat, p: Text)
    requires i < |sym| && sym[i] == '<'
    ensures CollapseFrom(sym, i, p + "operator", 0) ==
            if i + 1 < |sym| && sym[i + 1] == '<' then CollapseFrom(sym, i + 2, p + "operator<<", 0)
            else CollapseFrom(sym, i + 1, p + "operator<", 0)
  {
    OperatorPrecedes(p + "operator");
    assert p + "operator" + ['<', '<'] == p + "operator<<";
    assert p + "operator" + ['<'] == p + "operator<";
  }

  lemma {:induction false} Copied(sym: Text, i: nat, result: Text, text: Text)
    requires i + |text| <= |sym| && sym[i..i + |text|] == text && '<' !in text
    ensures CollapseFrom(sym, i, result, 0) == CollapseFrom(sym, i + |text|, result + text, 0)
    decreases |text|
  {
    if text == [] {
      assert result + text == result;
    } else {
      assert sym[i] == text[0];
      assert sym[i + 1..i + 1 + |text[1..]|] == text[1..];
      Copied(sym, i + 1, result + [text[0]], text[1..]);
      assert result + [text[0]] + text[1..] == result + text;
    }
  }

  lemma {:induction false} OperatorCopied(sym: Text, i: nat, result: Text, sign: Sign)
    requires var text := "operator" + SignText(sign);
             i + |text| <= |sym| && sym[i..i + |text|] == text &&
             (sign == Less ==> i + |text| == |sym| || sym[i + |text|] != '<')
    ensures CollapseFrom(sym, i, result, 0) ==
            CollapseFrom(sym, i + 8 + |SignText(sign)|, result + ("operator" + SignText(sign)), 0)
  {
    hide CollapseFrom;
    var text := "operator" + SignText(sign);
    assert sym[i..i + 8] == sym[i..i + |text|][..8] == "operator";
    assert sym[i + 8..i + |text|] == sym[i..i + |text|][8..] == SignText(sign);
    Copied(sym, i, result, "operator");
    match sign
    case Parentheses =>
      Copied(sym, i + 8, result + "operator", "()");
      assert result + "operator" + "()" == result + text;
    case Less =>
      assert sym[i + 8] == sym[i + 8..i + 9][0];
      OperatorKept(sym, i + 8, result);
      assert result + "operator<" == result + text;
    case Shift =>
      assert sym[i + 8] == sym[i + 8..i + 10][0] && sym[i + 9] == sym[i + 8..i + 10][1];
      OperatorKept(sym, i + 8, result);
      assert result + "operator<<" == result + text;
  }

  /** One piece of the symbol is displayed. */
  lemma {:induction false} PieceCollapses(sym: Text, i: nat, before: seq<Piece>, p: Piece)
    requires i + |Spell(p)| <= |sym| && sym[i..i + |Spell(p)|] == Spell(p) && Fits(before, p)
    requires p == Operator(Less) ==> i + |Spell(p)| == |sym| || sym[i + |Spell(p)|] != '<'
    ensures CollapseFrom(sym, i, Shown(before), 0) ==
            CollapseFrom(sym, i + |Spell(p)|, Shown(before) + Show(p), 0)
  {
    hide CollapseFrom, Shown, IsTemplateBody, Fits, EndsInOperator, PrecededByOperator;
    match p
    case Template(arguments) =>
      TemplateFits(before, p);
      TemplateCollapses(sym, i, Shown(before), arguments);
    case Operator(sign) => OperatorCopied(sym, i, Shown(before), sign);
    case _ =>
      NoLess(before, p);
      Copied(sym, i, Shown(before), Spell(p));
  }

  lemma {:induction false} TemplateFits(before: seq<Piece>, p: Piece)
    requires Fits(before, p) && p.Template?
    ensures IsTemplateBody(p.arguments) && !PrecededByOperator(Shown(before), |Shown(before)|)
  {
    OperatorPrecedes(Shown(before));
  }

  lemma {:induction false} NoLess(before: seq<Piece>, p: Piece)
    requires Fits(before, p) && !p.Template? && !p.Operator?
    ensures '<' !in Spell(p) && Show(p) == Spell(p)
  {
    hide Shown;
  }

  lemma {:induction false} NotAfterLess(before: seq<Piece>, p: Piece)
    requires Fits(before, p)
    ensures Spell(p) != [] && (FollowsLess(before) ==> Spell(p)[0] != '<')
  {
    hide Shown, IsTemplateBody;
  }

  lemma {:induction false} Between(a: Text, b: Text, c: Text)
    ensures a + b + c == a + (b + c) && (a + b + c)[|a|..|a + b|] == b
    ensures c != [] ==> (a + b + c)[|a + b|] == c[0]
    ensures b != [] ==> (b + c)[0] == b[0]
  {
  }

  lemma {:induction false} PiecesCollapse(ps: seq<Piece>, rest: Text)
    requires IsSymbol(ps) && (FollowsLess(ps) && rest != [] ==> rest[0] != '<')
    ensures Collapse(Spelled(ps) + rest) == CollapseFrom(Spelled(ps) + rest, |Spelled(ps)|, Shown(ps), 0)
    decreases |ps|
  {
    hide CollapseFrom, Fits, Shown, Spell, Show, FollowsLess;
    NothingShown();
    if ps != [] {
      var front, p := ps[..|ps| - 1], ps[|ps| - 1];
      NotAfterLess(front, p);
      Between(Spelled(front), Spell(p), rest);
      PiecesCollapse(front, Spell(p) + rest);
      LastIsLess(ps);
      PieceCollapses(Spelled(ps) + rest, |Spelled(front)|, front, p);
      ShownNext(ps);
    }
  }

  lemma {:induction false} LastIsLess(ps: seq<Piece>)
    requires ps != []
    ensures FollowsLess(ps) <==> ps[|ps| - 1] == Operator(Less)
  {
  }

  lemma {:induction false} NothingShown()
    ensures Shown([]) == [] && Spelled([]) == []
  {
  }

  lemma {:induction false} ShownNext(ps: seq<Piece>)
    requires ps != []
    ensures Shown(ps) == Shown(ps[..|ps| - 1]) + Show(ps[|ps| - 1])
  {
  }

  // ----- Second pass ----------------------------------------------------------------------------

  lemma {:induction false} DepthJoin(a: Text, b: Text)
    ensures Depth(a + b) == Depth(a) + Depth(b)
    decreases |b|
  {
    if b == [] {
      assert a + b == a;
    } else {
      assert (a + b)[..|a + b| - 1] == a + b[..|b| - 1];
      DepthJoin(a, b[..|b| - 1]);
    }
  }

  lemma {:induction false} NoDepth(s: Text)
    requires forall i :: 0 <= i < |s| ==> s[i] !in ['{', '}', '[', ']']
    ensures Depth(s) == 0
    decreases |s|
  {
    if s != [] {
      NoDepth(s[..|s| - 1]);
    }
  }

  /** Inside a closed pair the depth is one, and behind it nothing is left of it. */
  lemma {:induction false} PairDepth(left: Byte, text: Text, right: Byte, k: nat)
    requires (left == '{' || left == '[') && (right == '}' || right == ']') && NoBrackets(text)
    requires k <= |text| + 2
    ensures Depth(([left] + text + [right])[..k]) == if k == 0 || k == |text| + 2 then 0 else 1
  {
    var s := [left] + text + [right];
    if 0 < k < |text| + 2 {
      assert s[..k] == [left] + text[..k - 1];
      DepthJoin([left], text[..k - 1]);
      NoDepth(text[..k - 1]);
      assert [left][..0] == [];
    } else if k == |text| + 2 {
      assert s[..k] == [left] + text + [right];
      DepthJoin([left] + text, [right]);
      DepthJoin([left], text);
      NoDepth(text);
      assert [left][..0] == [] && [right][..0] == [];
    }
  }

  /** A displayed piece leaves the depth as it is, and only `Open` may begin a parameter list. */
  lemma {:induction false} PieceUncut(before: Text, p: Piece, k: nat)
    requires Depth(before) == 0 && k < |Show(p)| && !p.Open?
    requires p.Word? ==> NoBrackets(p.text) && '(' !in p.text
    requires p.Braced? || p.Bracketed? ==> NoBrackets(p.text)
    ensures !IsCut(before + Show(p), |before| + k)
  {
    hide PrecededByOperator;
    var s := before + Show(p);
    assert s[|before| + k] == Show(p)[k];
    match p
    case Braced(text) => UncutInside(before, '{', text, '}', k);
    case Bracketed(text) => UncutInside(before, '[', text, ']', k);
    case Operator(sign) =>
      if Show(p)[k] == '(' {
        assert k == 8;
        assert s[..|before| + 8] == before + "operator";
        OperatorPrecedes(before + "operator");
        PrecededWithin(s, |before| + 8);
      }
    case _ =>
  }

  lemma {:induction false} UncutInside(before: Text, left: Byte, text: Text, right: Byte, k: nat)
    requires Depth(before) == 0 && NoBrackets(text) && k < |text| + 2
    requires (left == '{' || left == '[') && (right == '}' || right == ']')
    ensures !IsCut(before + ([left] + text + [right]), |before| + k)
  {
    var piece := [left] + text + [right];
    assert (before + piece)[..|before| + k] == before + piece[..k];
    DepthJoin(before, piece[..k]);
    PairDepth(left, text, right, k);
    assert (before + piece)[|before| + k] == piece[k];
  }

  lemma {:induction false} PrecededWithin(s: Text, pos: nat)
    requires pos <= |s|
    ensures PrecededByOperator(s, pos) <==> PrecededByOperator(s[..pos], pos)
  {
    if pos >= 8 {
      assert s[..pos][pos - 8..pos] == s[pos - 8..pos];
    }
  }

  lemma {:induction false} PieceDepth(p: Piece)
    requires p.Word? || p.Braced? || p.Bracketed? ==> NoBrackets(p.text)
    ensures Depth(Show(p)) == 0
  {
    match p
    case Braced(text) => PairDepth('{', text, '}', |text| + 2);
      assert Show(p)[..|text| + 2] == Show(p) == ['{'] + text + ['}'];
    case Bracketed(text) => PairDepth('[', text, ']', |text| + 2);
      assert Show(p)[..|text| + 2] == Show(p) == ['['] + text + [']'];
    case _ => NoDepth(Show(p));
  }

  lemma {:induction false} SameCut(s: Text, t: Text, k: nat)
    requires k < |s|
    ensures IsCut(s + t, k) <==> IsCut(s, k)
  {
    assert (s + t)[..k] == s[..k];
    PrecededWithin(s + t, k);
    PrecededWithin(s, k);
  }

  lemma {:induction false} LastCutWithin(s: Text, t: Text, n: nat)
    requires n <= |s|
    ensures LastCut(s + t, n) == LastCut(s, n)
    decreases n
  {
    hide IsCut;
    if n > 0 {
      SameCut(s, t, n - 1);
      LastCutWithin(s, t, n - 1);
    }
  }

  lemma {:induction false} NoCutBehind(s: Text, n: nat)
    requires n <= |s| && forall k :: n <= k < |s| ==> !IsCut(s, k)
    ensures LastCut(s, |s|) == LastCut(s, n)
  {
    hide IsCut;
  }

  /** The last parameter list of what is displayed begins at the last `Open`. */
  lemma {:induction false} CutIsOpen(ps: seq<Piece>)
    requires IsSymbol(ps)
    ensures Depth(Shown(ps)) == 0
    ensures LastCut(Shown(ps), |Shown(ps)|) == if LastOpen(ps).None? then None else Some(|Shown(Named(ps))|)
    ensures Shown(Named(ps)) <= Shown(ps)
    decreases |ps|
  {
    hide IsCut, Depth, Fits, Shown, Show;
    NothingShown();
    if ps != [] {
      var front, p := ps[..|ps| - 1], ps[|ps| - 1];
      CutIsOpen(front);
      ShownNext(ps);
      FitsPlain(front, p);
      PieceDepth(p);
      DepthJoin(Shown(front), Show(p));
      LastCutWithin(Shown(front), Show(p), |Shown(front)|);
      if p.Open? {
        OpenIsCut(front);
      } else {
        var s := Shown(ps);
        forall k | |Shown(front)| <= k < |s| ensures !IsCut(s, k) {
          PieceUncut(Shown(front), p, k - |Shown(front)|);
        }
        NoCutBehind(s, |Shown(front)|);
      }
      assert LastOpen(front).Some? ==> front[..LastOpen(front).value] == ps[..LastOpen(front).value];
    } else {
      assert Depth([]) == 0 by { NoDepth([]); }
    }
  }

  lemma {:induction false} FitsPlain(before: seq<Piece>, p: Piece)
    requires Fits(before, p)
    ensures p.Word? ==> NoBrackets(p.text) && '(' !in p.text
    ensures p.Braced? || p.Bracketed? ==> NoBrackets(p.text)
    ensures p.Open? ==> !EndsInOperator(Shown(before))
  {
  }

  lemma {:induction false} OpenIsCut(front: seq<Piece>)
    requires Depth(Shown(front)) == 0 && !EndsInOperator(Shown(front))
    ensures var s := Shown(front) + Show(Open); LastCut(s, |s|) == Some(|Shown(front)|)
  {
    var s := Shown(front) + Show(Open);
    assert s[..|Shown(front)|] == Shown(front);
    OperatorPrecedes(Shown(front));
    PrecededWithin(s, |Shown(front)|);
  }

  lemma {:induction false} CollapseEnds(sym: Text, result: Text)
    ensures CollapseFrom(sym, |sym|, result, 0) == result
  {
  }

  lemma {:induction false} NamedAll(ps: seq<Piece>)
    ensures LastOpen(ps).None? ==> Named(ps) == ps
  {
  }

  // ----- Main results -----------------------------------------------------------------------

  /** The display name of a symbol is what stands before its last parameter list, template arguments
      abridged, and everything else, operators included, as it is. */
  lemma {:induction false} DisplayName(ps: seq<Piece>)
    requires IsSymbol(ps)
    ensures Shorten(Spelled(ps)) == Shown(Named(ps))
  {
    hide CollapseFrom, LastCut, Fits, Shown, Spelled, FollowsLess, Named;
    PiecesCollapse(ps, []);
    assert Spelled(ps) + [] == Spelled(ps);
    CollapseEnds(Spelled(ps), Shown(ps));
    CutIsOpen(ps);
    NamedAll(ps);
  }

  /** A word that may stand before an operator or between parentheses. */
  predicate IsPlain(p: Text) {
    NoBrackets(p) && '(' !in p
  }

  function WordOf(p: Text): seq<Piece> {
    if p == [] then [] else [Word(p)]
  }

  lemma {:induction false} SpelledNext(ps: seq<Piece>, p: Piece)
    ensures Spelled(ps + [p]) == Spelled(ps) + Spell(p) && Shown(ps + [p]) == Shown(ps) + Show(p)
    ensures IsSymbol(ps + [p]) <==> IsSymbol(ps) && Fits(ps, p)
    ensures LastOpen(ps + [p]) == if p.Open? then Some(|ps|) else LastOpen(ps)
  {
    assert (ps + [p])[..|ps|] == ps;
  }

  lemma {:induction false} WordPieces(p: Text)
    requires IsPlain(p)
    ensures Spelled(WordOf(p)) == p && Shown(WordOf(p)) == p && IsSymbol(WordOf(p)) && LastOpen(WordOf(p)) == None
  {
    if p != [] {
      SpelledNext([], Word(p));
      assert [] + [Word(p)] == WordOf(p);
    }
  }

  /** An operator keeps its brackets, with and without a parameter list. */
  lemma {:induction false} OperatorNames(p: Text, parameters: Text)
    requires IsPlain(p) && IsPlain(parameters)
    ensures Shorten(p + "operator<") == p + "operator<" == Shorten(p + "operator<" + "(" + parameters + ")")
    ensures Shorten(p + "operator<<") == p + "operator<<" == Shorten(p + "operator<<" + "(" + parameters + ")")
    ensures Shorten(p + "operator()") == p + "operator()" == Shorten(p + "operator()" + "(" + parameters + ")")
  {
    hide Shorten;
    OperatorName(p, Less, parameters);
    OperatorName(p, Shift, parameters);
    OperatorName(p, Parentheses, parameters);
    assert p + ("operator" + "<") == p + "operator<";
    assert p + ("operator" + "<<") == p + "operator<<";
    assert p + ("operator" + "()") == p + "operator()";
  }

  lemma {:induction false} OperatorName(p: Text, sign: Sign, parameters: Text)
    requires IsPlain(p) && IsPlain(parameters)
    ensures var name := p + ("operator" + SignText(sign));
            Shorten(name) == name && Shorten(name + "(" + parameters + ")") == name
  {
    hide Shorten, Spelled, Shown, IsSymbol, LastOpen;
    var name := p + ("operator" + SignText(sign));
    var word, op := WordOf(p), Operator(sign);
    WordPieces(p);
    SpelledNext(word, op);
    var whole := word + [op];
    DisplayName(whole);
    NotOperator(p, sign);
    Listed(whole, parameters);
  }

  lemma {:induction false} NotOperator(p: Text, sign: Sign)
    ensures !EndsInOperator(p + ("operator" + SignText(sign)))
  {
    var s := p + ("operator" + SignText(sign));
    assert s[|s| - 1] == SignText(sign)[|SignText(sign)| - 1];
    assert s[|s| - 8..][7] == s[|s| - 1] != 'r';
  }

  /** A function's parameters are left out, and its template arguments and those of its scope abridged. */
  lemma {:induction false} FunctionName(p: Text, arguments: Text, q: Text, parameters: Text)
    requires IsPlain(p) && IsPlain(q) && IsPlain(parameters) && IsTemplateBody(arguments)
    requires !EndsInOperator(p) && !EndsInOperator(p + "<...>" + q)
    ensures Shorten(p + "(" + parameters + ")") == p
    ensures Shorten(p + ("<" + arguments + ">") + q + "(" + parameters + ")") == p + "<...>" + q
  {
    hide Shorten, Spelled, Shown, IsSymbol, LastOpen, IsTemplateBody, EndsInOperator;
    WordPieces(p);
    Listed(WordOf(p), parameters);
    var a := WordOf(p) + [Template(arguments)];
    SpelledNext(WordOf(p), Template(arguments));
    var b := a + WordOf(q);
    if q != [] {
      SpelledNext(a, Word(q));
    } else {
      assert b == a && p + "<...>" + q == p + "<...>";
      assert p + ("<" + arguments + ">") + q == p + ("<" + arguments + ">");
    }
    Listed(b, parameters);
  }

  lemma {:induction false} Listed(name: seq<Piece>, parameters: Text)
    requires IsSymbol(name) && LastOpen(name) == None && IsPlain(parameters) && !EndsInOperator(Shown(name))
    ensures Shorten(Spelled(name) + "(" + parameters + ")") == Shown(name)
  {
    hide Shorten, Spelled, Shown, IsSymbol, LastOpen;
    SpelledNext(name, Open);
    var begun := name + [Open];
    SpelledNext(begun, Word(parameters + ")"));
    var listed := begun + [Word(parameters + ")")];
    assert Spelled(name) + "(" + (parameters + ")") == Spelled(name) + "(" + parameters + ")";
    DisplayName(listed);
    assert listed[..|name|] == name;
  }
}
