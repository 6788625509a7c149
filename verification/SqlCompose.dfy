/** How parses of parts make up the parse of the whole: separators, inserted comments, literals. */
module SqlCompose {
  import opened Sequences
  import opened SqlTokens
  import opened SqlParser

  // ---- Tokenising a concatenation ----

  predicate IsClosed(t: Token) {
    match t
    case BlockComment(_, closed) => closed
    case Literal(_, closed) => closed
    case _ => true
  }

  /** The scan of s ends in code: outside every literal and comment. */
  predicate EndsInCode(s: string) {
    s == "" ||
    var t, rest := First(s), s[FirstLen(s)..];
    IsClosed(t) && (rest == "" ==> !t.LineComment?) && EndsInCode(rest)
  }

  /** The last token of s is a blank. */
  predicate EndsBlank(s: string) {
    s != "" &&
    var rest := s[FirstLen(s)..];
    if rest == "" then First(s).Space? else EndsBlank(rest)
  }

  /** The first character of x cannot join the last token of s. */
  predicate Apart(s: string, x: string) {
    x == "" || x[0] !in {'-', '*', '\''} || s == "" || EndsBlank(s)
  }

  lemma {:induction false} LineLenAppend(s: string, x: string)
    requires LineLen(s) < |s|
    ensures LineLen(s + x) == LineLen(s)
  {
    if s[0] != '\n' {
      assert (s + x)[1..] == s[1..] + x;
      LineLenAppend(s[1..], x);
    }
  }

  lemma {:induction false} BlockLenAppend(s: string, x: string)
    requires BlockCloses(s)
    ensures BlockCloses(s + x) && BlockLen(s + x) == BlockLen(s)
  {
    if !ClosesBlock(s) {
      assert (s + x)[1..] == s[1..] + x;
      BlockLenAppend(s[1..], x);
    }
  }

  lemma {:induction false} LiteralLenAppend(s: string, x: string)
    requires LiteralCloses(s) && (LiteralLen(s) == |s| && x != "" ==> x[0] != '\'')
    ensures LiteralCloses(s + x) && LiteralLen(s + x) == LiteralLen(s)
  {
    if DoubledQuote(s) {
      assert (s + x)[2..] == s[2..] + x;
      LiteralLenAppend(s[2..], x);
    } else if s[0] != '\'' {
      assert (s + x)[1..] == s[1..] + x;
      LiteralLenAppend(s[1..], x);
    }
  }

  lemma OpeningAppend(s: string, x: string)
    requires s != "" && (|s| >= 2 || x == "" || x[0] !in {'-', '*', '\''} || IsSpace(s[0]))
    ensures (s + x)[0] == s[0] && OpensLine(s + x) == OpensLine(s) && OpensBlock(s + x) == OpensBlock(s)
  {
  }

  lemma FirstAppend(s: string, x: string)
    requires s != "" && IsClosed(First(s))
    requires FirstLen(s) < |s| || (!First(s).LineComment? && (x != "" && x[0] in {'-', '*', '\''} ==> First(s).Space?))
    ensures FirstLen(s + x) == FirstLen(s) && First(s + x) == First(s)
  {
    hide OpensLine, OpensBlock, LineLen, BlockLen, LiteralLen, BlockCloses, LiteralCloses;
    var t := First(s);
    OpeningAppend(s, x);
    if t.LineComment? {
      LineLenAppend(s, x);
    } else if t.BlockComment? {
      assert (s + x)[2..] == s[2..] + x;
      BlockLenAppend(s[2..], x);
    } else if t.Literal? {
      assert (s + x)[1..] == s[1..] + x;
      LiteralLenAppend(s[1..], x);
    }
    assert (s + x)[..FirstLen(s)] == s[..FirstLen(s)];
  }

  lemma TokeniseCons(s: string, x: string)
    requires s != "" && FirstLen(s + x) == FirstLen(s) && First(s + x) == First(s)
    ensures Tokenise(s) == [First(s)] + Tokenise(s[FirstLen(s)..])
    ensures Tokenise(s + x) == [First(s)] + Tokenise(s[FirstLen(s)..] + x)
  {
    assert (s + x)[FirstLen(s)..] == s[FirstLen(s)..] + x;
  }

  lemma {:induction false} TokeniseAppend(s: string, x: string)
    requires EndsInCode(s) && Apart(s, x)
    ensures Tokenise(s + x) == Tokenise(s) + Tokenise(x)
  {
    hide First, FirstLen;
    if s == "" {
      assert s + x == x;
    } else {
      var rest := s[FirstLen(s)..];
      FirstAppend(s, x);
      TokeniseCons(s, x);
      if rest == "" {
        assert rest + x == x;
      } else {
        TokeniseAppend(rest, x);
      }
    }
  }

  lemma {:induction false} EndsBlankSnoc(s: string, blank: char)
    requires EndsInCode(s) && IsSpace(blank)
    ensures EndsInCode(s + [blank]) && EndsBlank(s + [blank])
  {
    var x := [blank];
    if s == "" {
      assert s + x == x && x[1..] == "";
    } else {
      var rest := s[FirstLen(s)..];
      FirstAppend(s, x);
      assert (s + x)[FirstLen(s)..] == rest + x;
      EndsBlankSnoc(rest, blank);
    }
  }

  // ---- Separators ----

  lemma {:induction false} ScanSplit(a: seq<Token>, b: seq<Token>, current: string)
    ensures Scan(a + [Semi] + b, current) == Scan(a, current) + Scan(b, "")
  {
    var toks := a + [Semi] + b;
    if a == [] {
      assert toks[1..] == b;
    } else {
      assert toks[1..] == a[1..] + [Semi] + b;
      ScanSplit(a[1..], b, if a[0].Semi? then "" else Emit(current, a[0]));
      Associate(Flush(current), Scan(a[1..], ""), Scan(b, ""));
    }
  }

  lemma SemiFirst(b: string)
    ensures Tokenise(";" + b) == [Semi] + Tokenise(b)
  {
    assert (";" + b)[1..] == b;
  }

  lemma {:induction false} SplitAtSeparator(a: string, b: string)
    requires EndsInCode(a)
    ensures Parse(a + ";" + b) == Parse(a) + Parse(b)
  {
    SemiFirst(b);
    hide First, FirstLen, EndsInCode, Parse, Scan;
    TokeniseAppend(a, ";" + b);
    assert a + ";" + b == a + (";" + b);
    Associate(Tokenise(a), [Semi], Tokenise(b));
    ScanSplit(Tokenise(a), Tokenise(b), "");
    ScanMeansParse(a);
    ScanMeansParse(b);
    ScanMeansParse(a + ";" + b);
  }

  // ---- A script that ends inside a literal or comment ----

  lemma {:induction false} TrimStartKeeps(s: string)
    ensures TrimStart(s) == "" <==> forall c <- s :: IsSpace(c)
  {
    if s != "" {
      TrimStartKeeps(s[1..]);
      assert s == [s[0]] + s[1..];
    }
  }

  lemma {:induction false} TrimStartSolid(s: string)
    ensures TrimStart(s) == "" || !IsSpace(TrimStart(s)[0])
  {
    if s != "" { TrimStartSolid(s[1..]); }
  }

  lemma FlushCount(text: string)
    ensures |Flush(text)| == if (exists c <- text :: !IsSpace(c)) then 1 else 0
  {
    TrimStartKeeps(text);
    TrimStartSolid(text);
  }

  lemma {:induction false} LineRunsOn(s: string)
    requires LineLen(s) == |s|
    ensures LineLen(s + ";x") == |s| + 2
  {
    if s == "" {
      assert s + ";x" == ";x" && ";x"[1..] == "x" && "x"[1..] == "";
    } else {
      assert (s + ";x")[1..] == s[1..] + ";x";
      LineRunsOn(s[1..]);
    }
  }

  lemma {:induction false} LiteralRunsOn(s: string)
    requires !LiteralCloses(s)
    ensures !LiteralCloses(s + ";x")
  {
    if s == "" {
      assert s + ";x" == ";x" && ";x"[1..] == "x" && "x"[1..] == "";
    } else if DoubledQuote(s) {
      assert (s + ";x")[2..] == s[2..] + ";x";
      LiteralRunsOn(s[2..]);
    } else {
      assert (s + ";x")[1..] == s[1..] + ";x";
      LiteralRunsOn(s[1..]);
    }
  }

  lemma {:induction false} BlockRunsOn(s: string)
    requires !BlockCloses(s)
    ensures BlockCloses(s + ";*/") && BlockLen(s + ";*/") == |s| + 3
  {
    var text := s + ";*/";
    if s == "" {
      assert text == ";*/" && text[1..] == "*/";
    } else {
      assert text[1..] == s[1..] + ";*/";
      BlockRunsOn(s[1..]);
    }
  }

  lemma FlushOne(text: string, k: nat)
    requires k < |text| && !IsSpace(text[k])
    ensures |Flush(text)| == 1
  {
    FlushCount(text);
    assert text[k] in text;
  }

  /** A text that is one token. */
  lemma SoleScan(s: string, current: string)
    requires s != "" && FirstLen(s) == |s| && !First(s).Semi?
    ensures Scan(Tokenise(s), current) == Flush(Emit(current, First(s)))
  {
    hide First, FirstLen, Emit, Flush;
    ScanFirst(s, current);
    assert s[|s|..] == "";
  }

  /** An unterminated comment's leftover character never loses a statement. */
  lemma LeftoverKeeps(s: string, current: string)
    requires |s| <= 1
    ensures |Scan(Tokenise(s), current)| >= |Flush(current)|
  {
    if s != "" {
      ScanFirst(s, current);
      assert s[1..] == "";
      if !First(s).Semi? { EmitKeeps(current, First(s)); }
    }
  }

  lemma EmitKeeps(current: string, t: Token)
    requires !t.Semi?
    ensures |Flush(Emit(current, t))| >= |Flush(current)|
  {
    FlushCount(current);
    FlushCount(Emit(current, t));
    if t == Code(')') && DropSpace(current) != current {
      assert current == DropSpace(current) + " ";
    }
  }

  lemma {:induction false} BlockLeftover(s: string)
    requires !BlockCloses(s)
    ensures |s| - BlockLen(s) <= 1
  {
    if |s| >= 2 { BlockLeftover(s[1..]); }
  }

  lemma LineSwallows(s: string, current: string)
    requires s != "" && First(s).LineComment? && FirstLen(s) == |s|
    ensures Scan(Tokenise(s + ";x"), current) == Scan(Tokenise(s), current)
  {
    LineRunsOn(s);
    SoleScan(s, current);
    SoleScan(s + ";x", current);
  }

  lemma LiteralWhole(s: string)
    requires s != "" && First(s).Literal? && !First(s).closed
    ensures
      var whole := s + ";x";
      && FirstLen(s) == |s| && First(s) == Literal(s, false) && s[0] == '\''
      && FirstLen(whole) == |whole| && First(whole) == Literal(whole, false)
  {
    var whole := s + ";x";
    assert whole[1..] == s[1..] + ";x";
    LiteralRunsOn(s[1..]);
    LiteralEnd(whole[1..]);
    LiteralEnd(s[1..]);
  }

  lemma LiteralSwallows(s: string, current: string)
    requires s != "" && First(s).Literal? && !First(s).closed
    ensures |Scan(Tokenise(s + ";x"), current)| == |Scan(Tokenise(s), current)|
  {
    var whole := s + ";x";
    LiteralWhole(s);
    hide First, FirstLen, Tokenise, Scan, Flush;
    SoleScan(s, current);
    SoleScan(whole, current);
    assert Emit(current, First(s)) == current + s && Emit(current, First(whole)) == current + whole;
    FlushOne(current + s, |current|);
    FlushOne(current + whole, |current|);
  }

  lemma BlockSwallows(s: string, current: string)
    requires s != "" && First(s).BlockComment? && !First(s).closed
    ensures |Scan(Tokenise(s + ";*/"), current)| <= |Scan(Tokenise(s), current)|
  {
    var whole := s + ";*/";
    assert whole[2..] == s[2..] + ";*/";
    BlockRunsOn(s[2..]);
    BlockLeftover(s[2..]);
    SoleScan(whole, current);
    ScanFirst(s, current);
    LeftoverKeeps(s[FirstLen(s)..], current);
  }

  lemma OneStatement(c: char, s: string)
    requires s == [c] || s == [c, '/']
    requires c == 'x' || c == '*'
    ensures |Scan(Tokenise(s), "")| == 1
  {
    assert First(s) == Code(c) && FirstLen(s) == 1;
    assert s[1..] == (if s == [c] then "" else "/");
    assert First("/") == Code('/') && FirstLen("/") == 1;
    hide First, FirstLen, Tokenise, Scan, Flush;
    ScanFirst(s, "");
    assert Emit("", Code(c)) == [c];
    if s == [c] {
      SoleScan(s, "");
      FlushOne([c], 0);
    } else {
      SoleScan("/", [c]);
      assert Emit([c], Code('/')) == [c] + ['/'];
      FlushOne([c] + ['/'], 0);
    }
  }

  /** A continuation one statement of which the open literal or comment swallows. */
  lemma OpenFirst(s: string, current: string) returns (b: string)
    requires s != "" && (!IsClosed(First(s)) || (First(s).LineComment? && FirstLen(s) == |s|))
    ensures |Scan(Tokenise(s + ";" + b), current)| < |Scan(Tokenise(s), current)| + |Scan(Tokenise(b), "")|
  {
    if First(s).BlockComment? {
      b := "*/";
      OneStatement('*', b);
      assert s + ";" + b == s + ";*/";
      BlockSwallows(s, current);
    } else {
      b := "x";
      OneStatement('x', b);
      assert s + ";" + b == s + ";x";
      if First(s).LineComment? { LineSwallows(s, current); } else { LiteralSwallows(s, current); }
    }
  }

  lemma {:induction false} OpenCounts(s: string, current: string) returns (b: string)
    requires !EndsInCode(s)
    ensures |Scan(Tokenise(s + ";" + b), current)| < |Scan(Tokenise(s), current)| + |Scan(Tokenise(b), "")|
    decreases |s|
  {
    var t, rest := First(s), s[FirstLen(s)..];
    if !IsClosed(t) || (t.LineComment? && rest == "") {
      b := OpenFirst(s, current);
    } else {
      b := OpenCounts(rest, if t.Semi? then "" else Emit(current, t));
      FirstAppend(s, ";" + b);
      TokeniseCons(s, ";" + b);
      assert s + ";" + b == s + (";" + b) && rest + ";" + b == rest + (";" + b);
    }
  }

  /** Cutting at a separator is sound exactly when the text before it ends in code. */
  lemma {:induction false} SplitAtSeparatorIff(a: string)
    ensures (forall b :: Parse(a + ";" + b) == Parse(a) + Parse(b)) <==> EndsInCode(a)
  {
    if EndsInCode(a) {
      forall b ensures Parse(a + ";" + b) == Parse(a) + Parse(b) { SplitAtSeparator(a, b); }
    } else {
      var b := OpenCounts(a, "");
      ScanMeansParse(a);
      ScanMeansParse(b);
      ScanMeansParse(a + ";" + b);
      assert Parse(a + ";" + b) != Parse(a) + Parse(b);
    }
  }

  // ---- Inserted comments ----

  lemma {:induction false} ScanIgnoresComment(a: seq<Token>, comment: Token, b: seq<Token>, current: string)
    requires comment.IsComment()
    ensures Scan(a + [comment] + b, current) == Scan(a + b, current)
  {
    var p, q := a + [comment] + b, a + b;
    if a == [] {
      assert p[1..] == b && q == b;
    } else {
      assert p[1..] == a[1..] + [comment] + b && q[1..] == a[1..] + b;
      ScanIgnoresComment(a[1..], comment, b, if a[0].Semi? then "" else Emit(current, a[0]));
    }
  }

  predicate NoBlockEnd(body: string) {
    forall k | 0 <= k < |body| - 1 :: !(body[k] == '*' && body[k + 1] == '/')
  }

  lemma {:induction false} BlockBody(body: string, x: string)
    requires NoBlockEnd(body)
    ensures BlockCloses(body + "*/" + x) && BlockLen(body + "*/" + x) == |body| + 2
  {
    var text := body + "*/" + x;
    if body != "" {
      assert text[1..] == body[1..] + "*/" + x;
      assert NoBlockEnd(body[1..]) by {
        forall k | 0 <= k < |body[1..]| - 1 ensures !(body[1..][k] == '*' && body[1..][k + 1] == '/') {
          assert body[1..][k] == body[k + 1];
        }
      }
      BlockBody(body[1..], x);
      assert text[0] == body[0];
      assert |body| >= 2 ==> text[1] == body[1];
      assert |body| == 1 ==> text[1] == '*';
    }
  }

  lemma CommentToken(body: string, b: string)
    requires NoBlockEnd(body)
    ensures var x := "/*" + body + "*/" + b;
            First(x).IsComment() && Tokenise(x) == [First(x)] + Tokenise(b)
  {
    var x := "/*" + body + "*/" + b;
    assert x[2..] == body + "*/" + b;
    BlockBody(body, b);
    assert x[FirstLen(x)..] == b;
  }

  /** After a blank outside literals and comments, a closed block comment can be inserted
      without changing the parse, whatever follows. */
  lemma {:induction false} CommentInvisible(a: string, blank: char, body: string, b: string)
    requires EndsInCode(a) && IsSpace(blank) && NoBlockEnd(body)
    ensures Parse(a + [blank] + ("/*" + body + "*/" + b)) == Parse(a + [blank] + b)
  {
    var s, x := a + [blank], "/*" + body + "*/" + b;
    EndsBlankSnoc(a, blank);
    CommentToken(body, b);
    TokeniseAppend(s, x);
    TokeniseAppend(s, b);
    Associate(Tokenise(s), [First(x)], Tokenise(b));
    ScanIgnoresComment(Tokenise(s), First(x), Tokenise(b), "");
    ScanMeansParse(s + x);
    ScanMeansParse(s + b);
  }

  lemma GlueTokens()
    ensures First("-/**/-x") == Code('-') && "-/**/-x"[FirstLen("-/**/-x")..] == "/**/-x"
    ensures First("/**/-x").IsComment() && "/**/-x"[FirstLen("/**/-x")..] == "-x"
    ensures First("-x") == Code('-') && "-x"[FirstLen("-x")..] == "x"
    ensures First("x") == Code('x') && "x"[FirstLen("x")..] == ""
  {
    assert "-/**/-x"[1..] == "/**/-x" && "-x"[1..] == "x" && "x"[1..] == "";
    var rest := "/**/-x";
    assert rest[2..] == "" + "*/" + "-x";
    BlockBody("", "-x");
    assert rest[4..] == "-x";
  }

  lemma LineTokens()
    ensures First("--x").LineComment? && "--x"[FirstLen("--x")..] == ""
  {
    assert "--x"[1..] == "-x" && "-x"[1..] == "x" && "x"[1..] == "";
    assert LineLen("x") == 1 && LineLen("-x") == 2 && LineLen("--x") == 3;
  }

  /** Deleting a comment between two hyphens makes a new one: the parse is not a fixed point. */
  lemma {:induction false} CommentGlue()
    ensures Parse("-/**/-x") == ["--x"] && Parse("--x") == []
  {
    GlueTokens();
    LineTokens();
    hide First, FirstLen, Parse, Scan, Tokenise, Flush;
    ScanFirst("-/**/-x", "");
    ScanFirst("/**/-x", "-");
    ScanFirst("-x", "-");
    ScanFirst("x", "--");
    ScanFirst("--x", "");
    assert "" + ['-'] == "-" && "-" + ['-'] == "--" && "--" + ['x'] == "--x";
    ScanNothing("--x");
    ScanNothing("");
    FlushGlue();
    ScanMeansParse("-/**/-x");
    ScanMeansParse("--x");
  }

  lemma FlushGlue()
    ensures Flush("--x") == ["--x"] && Flush("") == []
  {
  }

  lemma ScanNothing(current: string)
    ensures Scan(Tokenise(""), current) == Flush(current)
  {
  }

  // ---- Literals ----

  /** What a token must survive as: only a literal cut short may lose trailing blanks. */
  function OwnTexts(t: Token): seq<string> {
    match t
    case Literal(x, closed) => [if closed then x else TrimEnd(x)]
    case _ => []
  }

  /** The texts the literals of a run must survive as. */
  function LiteralTexts(toks: seq<Token>): seq<string> {
    if toks == [] then []
    else OwnTexts(toks[0]) + LiteralTexts(toks[1..])
  }

  /** The parts occur in out as disjoint substrings, in order. */
  ghost predicate InOrder(parts: seq<string>, out: string)
    decreases |parts|, 1
  {
    parts == [] || exists k: nat :: InOrderFrom(parts, out, k)
  }

  ghost predicate InOrderFrom(parts: seq<string>, out: string, k: nat)
    requires parts != []
    decreases |parts|, 0
  {
    && k + |parts[0]| <= |out|
    && out[k..k + |parts[0]|] == parts[0]
    && InOrder(parts[1..], out[k + |parts[0]|..])
  }

  lemma {:induction false} InOrderPrefixed(parts: seq<string>, pre: string, out: string)
    requires InOrder(parts, out)
    ensures InOrder(parts, pre + out)
  {
    if parts != [] {
      var n := |parts[0]|;
      var k: nat :| InOrderFrom(parts, out, k);
      var j := |pre| + k;
      assert (pre + out)[j..j + n] == out[k..k + n];
      assert (pre + out)[j + n..] == out[k + n..];
      assert InOrderFrom(parts, pre + out, j);
    }
  }

  lemma InOrderFirst(part: string, parts: seq<string>, out: string)
    requires InOrder(parts, out)
    ensures InOrder([part] + parts, part + out)
  {
    assert ([part] + parts)[1..] == parts;
    var n := |part|;
    assert (part + out)[0..n] == part && (part + out)[n..] == out;
    assert InOrderFrom([part] + parts, part + out, 0);
  }

  lemma {:induction false} TrimEndTail(a: string, b: string)
    requires TrimEnd(b) != ""
    ensures TrimEnd(a + b) == a + TrimEnd(b)
  {
    if IsSpace(b[|b| - 1]) {
      assert (a + b)[..|a + b| - 1] == a + b[..|b| - 1];
      TrimEndTail(a, b[..|b| - 1]);
    }
  }

  lemma {:induction false} LayoutVisible(toks: seq<Token>, gap: bool)
    requires WellFormed(toks) && Pieces(toks, gap) != []
    ensures TrimEnd(Layout(Pieces(toks, gap))) != ""
  {
    var t, rest := toks[0], toks[1..];
    WellFormedTail(toks);
    if t.Literal? || t.Code? || t.Semi? {
      var ps := Pieces(toks, gap);
      assert ps[1..] == Pieces(rest, false);
      assert Layout(ps)[0] == t.Text()[0];
    } else {
      LayoutVisible(rest, gap || t.Space?);
    }
  }

  lemma InOrderOwn(t: Token, text: string, parts: seq<string>, out: string)
    requires InOrder(parts, out) && (t.Literal? ==> OwnTexts(t) == [text])
    ensures InOrder(OwnTexts(t) + parts, text + out)
  {
    if t.Literal? {
      InOrderFirst(text, parts, out);
    } else {
      InOrderPrefixed(parts, text, out);
      assert OwnTexts(t) + parts == parts;
    }
  }

  lemma LaidOutLast(t: Token, parts: seq<string>, gap: bool)
    requires t.Literal? || t.Code? || t.Semi?
    requires t.Literal? && t.closed ==> t.text != "" && t.text[|t.text| - 1] == '\''
    requires InOrder(parts, "")
    ensures InOrder(OwnTexts(t) + parts, TrimEnd(Layout([Piece(t.Text(), gap)])))
  {
    var own := TrimEnd(t.Text());
    InOrderOwn(t, own, parts, "");
    assert own + "" == own;
  }

  /** One piece more in front of pieces whose literals are laid out. */
  lemma LaidOutCons(t: Token, parts: seq<string>, gap: bool, ps: seq<Piece>)
    requires t.Literal? || t.Code? || t.Semi?
    requires ps != [] && TrimEnd(Layout(ps)) != "" && (t.Literal? ==> t.closed)
    requires InOrder(parts, TrimEnd(Layout(ps)))
    ensures InOrder(OwnTexts(t) + parts, TrimEnd(Layout([Piece(t.Text(), gap)] + ps)))
  {
    var p := Piece(t.Text(), gap);
    var sep, tail := Separator(p, ps[0]), TrimEnd(Layout(ps));
    LaidOutText(p, ps);
    hide Layout, TrimEnd, Separator, InOrder;
    InOrderPrefixed(parts, sep, tail);
    InOrderOwn(t, p.text, parts, sep + tail);
  }

  lemma {:induction false} LaidOutText(p: Piece, ps: seq<Piece>)
    requires ps != [] && TrimEnd(Layout(ps)) != ""
    ensures TrimEnd(Layout([p] + ps)) == p.text + (Separator(p, ps[0]) + TrimEnd(Layout(ps)))
  {
    var sep, tail := Separator(p, ps[0]), TrimEnd(Layout(ps));
    LayoutCons(p, ps);
    hide Layout, TrimEnd, Separator;
    TrimEndTail(p.text + sep, Layout(ps));
    Associate(p.text, sep, tail);
  }

  lemma {:induction false} LiteralsLaidOut(toks: seq<Token>, gap: bool)
    requires WellFormed(toks)
    ensures InOrder(LiteralTexts(toks), TrimEnd(Layout(Pieces(toks, gap))))
  {
    if toks != [] {
      var t, rest := toks[0], toks[1..];
      WellFormedTail(toks);
      if t.IsComment() || t.Space? {
        LiteralsLaidOut(rest, gap || t.Space?);
        assert LiteralTexts(toks) == LiteralTexts(rest);
      } else {
        var ps := Pieces(rest, false);
        LiteralsLaidOut(rest, false);
        assert WellFormedAt(toks, 0);
        if ps == [] {
          LaidOutLast(t, LiteralTexts(rest), gap);
        } else {
          LayoutVisible(rest, false);
          LaidOutCons(t, LiteralTexts(rest), gap, ps);
        }
      }
    }
  }

  lemma {:induction false} SegmentsWellFormed(toks: seq<Token>)
    requires WellFormed(toks)
    ensures forall seg <- Segments(toks) :: WellFormed(seg)
  {
    if toks != [] {
      var rest := toks[1..];
      WellFormedTail(toks);
      SegmentsWellFormed(rest);
      SegmentsSize(rest);
      var segs := Segments(rest);
      if !toks[0].Semi? {
        var seg := [toks[0]] + segs[0];
        assert segs[0] in segs;
        forall k | 0 <= k < |seg| ensures WellFormedAt(seg, k) {
          if k > 0 {
            assert seg[k] == segs[0][k - 1] && WellFormedAt(segs[0], k - 1);
          } else if toks[0].Literal? && !toks[0].closed {
            assert segs[0] == [];
          }
        }
        assert WellFormed(seg);
      }
    }
  }

  lemma {:induction false} SegmentsSize(toks: seq<Token>)
    ensures |Segments(toks)[0]| <= |toks|
  {
    if toks != [] { SegmentsSize(toks[1..]); }
  }

  /** Each statement carries the literals of its run verbatim and in order. */
  lemma {:induction false} LiteralsSurvive(sql: string, k: nat)
    requires k < |Segments(Tokenise(sql))|
    ensures
      var seg := Segments(Tokenise(sql))[k];
      |Statement(seg)| <= 1 && forall st <- Statement(seg) :: InOrder(LiteralTexts(seg), st)
  {
    var toks := Tokenise(sql);
    TokeniseWellFormed(sql);
    SegmentsWellFormed(toks);
    LiteralsLaidOut(Segments(toks)[k], false);
  }
}
