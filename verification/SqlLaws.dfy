/** What the scanner promises, in characters: where comments end, what blanks come to, what stays. */
module SqlLaws {
  import opened SqlTokens
  import opened SqlParser
  import opened SqlCompose
  import SqlNormal

  /** Two scripts have the same statements. */
  ghost predicate Alike(s: string, t: string) { Parse(s) == Parse(t) }

  /** A script has this one statement. */
  ghost predicate Yields(s: string, statement: string) { Parse(s) == [statement] }

  /** Parts the scan cannot tell apart, whatever was collected, can stand for each other after any text
      that ends in code. */
  lemma {:induction false} ScanAfter(a: seq<Token>, x: seq<Token>, y: seq<Token>, current: string)
    requires forall c :: Scan(x, c) == Scan(y, c)
    ensures Scan(a + x, current) == Scan(a + y, current)
  {
    if a == [] {
      assert a + x == x && a + y == y;
    } else {
      assert (a + x)[1..] == a[1..] + x && (a + y)[1..] == a[1..] + y;
      ScanAfter(a[1..], x, y, if a[0].Semi? then "" else Emit(current, a[0]));
    }
  }

  lemma {:induction false} SameAfter(a: string, x: string, y: string)
    requires EndsInCode(a) && Apart(a, x) && Apart(a, y)
    requires forall c :: Scan(Tokenise(x), c) == Scan(Tokenise(y), c)
    ensures Alike(a + x, a + y)
  {
    TokeniseAppend(a, x);
    TokeniseAppend(a, y);
    ScanAfter(Tokenise(a), Tokenise(x), Tokenise(y), "");
    ScanMeansParse(a + x);
    ScanMeansParse(a + y);
  }

  // ---- Where comments end ----

  lemma {:induction false} LineBody(body: string, x: string)
    requires '\n' !in body && (x == "" || x[0] == '\n')
    ensures LineLen(body + x) == |body|
  {
    if body == "" {
      assert body + x == x;
    } else {
      assert (body + x)[1..] == body[1..] + x;
      LineBody(body[1..], x);
    }
  }

  lemma {:induction false} LineToken(body: string, x: string)
    requires '\n' !in body && (x == "" || x[0] == '\n')
    ensures
      var s := "--" + body + x;
      First(s).LineComment? && s[FirstLen(s)..] == x
  {
    var s := "--" + body + x;
    LineBody("--" + body, x);
    assert s == ("--" + body) + x;
  }

  lemma {:induction false} CommentSkipped(s: string, current: string)
    requires s != "" && First(s).IsComment()
    ensures Scan(Tokenise(s), current) == Scan(Tokenise(s[FirstLen(s)..]), current)
  {
    hide First, FirstLen;
    ScanFirst(s, current);
  }

  /** After a blank or at the start, a line comment reaches to the next line feed or the end of the
      script, and what is left is as if it were not there. */
  lemma {:induction false} LineCommentInvisible(a: string, body: string, x: string)
    requires EndsInCode(a) && (a == "" || EndsBlank(a))
    requires '\n' !in body && (x == "" || x[0] == '\n')
    ensures Alike(a + ("--" + body + x), a + x)
  {
    var s := "--" + body + x;
    LineToken(body, x);
    forall c ensures Scan(Tokenise(s), c) == Scan(Tokenise(x), c) { CommentSkipped(s, c); }
    SameAfter(a, s, x);
  }

  lemma {:induction false} OpenBody(body: string, c: char)
    requires NoBlockEnd(body + [c])
    ensures !BlockCloses(body + [c]) && BlockLen(body + [c]) == |body|
  {
    var s := body + [c];
    if body != "" {
      assert s[1..] == body[1..] + [c];
      assert NoBlockEnd(s[1..]) by {
        forall k | 0 <= k < |s[1..]| - 1 ensures !(s[1..][k] == '*' && s[1..][k + 1] == '/') {
          assert s[1..][k] == s[k + 1] && s[1..][k + 1] == s[k + 2];
        }
      }
      OpenBody(body[1..], c);
    }
  }

  lemma {:induction false} OpenToken(body: string, c: char)
    requires NoBlockEnd(body + [c])
    ensures var s := "/*" + body + [c]; First(s).IsComment() && s[FirstLen(s)..] == [c]
  {
    var s := "/*" + body + [c];
    OpenBody(body, c);
    assert s[2..] == body + [c];
  }

  /** A block comment that is never closed leaves the last character of the script as code. */
  lemma {:induction false} UnterminatedBlock(a: string, body: string, c: char)
    requires EndsInCode(a) && (a == "" || EndsBlank(a)) && NoBlockEnd(body + [c])
    ensures Alike(a + ("/*" + body + [c]), a + [c])
  {
    hide First, FirstLen, EndsInCode, EndsBlank;
    var s := "/*" + body + [c];
    OpenToken(body, c);
    forall d ensures Scan(Tokenise(s), d) == Scan(Tokenise([c]), d) { CommentSkipped(s, d); }
    SameAfter(a, s, [c]);
  }

  lemma {:induction false} BareToken()
    ensures First("/*").IsComment() && "/*"[FirstLen("/*")..] == ""
  {
    assert "/*"[2..] == "";
  }

  /** Nothing behind its opening, it leaves nothing. */
  lemma {:induction false} BareBlock(a: string)
    requires EndsInCode(a) && (a == "" || EndsBlank(a))
    ensures Alike(a + "/*", a + "")
  {
    hide First, FirstLen, EndsInCode, EndsBlank;
    BareToken();
    forall d ensures Scan(Tokenise("/*"), d) == Scan(Tokenise(""), d) { CommentSkipped("/*", d); }
    SameAfter(a, "/*", "");
  }

  // ---- What blanks come to ----

  predicate Blanks(s: string) { forall c <- s :: c in {' ', '\t', '\r', '\n'} }

  lemma {:induction false} BlankFirst(blank: char, x: string, current: string)
    requires blank in {' ', '\t', '\r', '\n'}
    ensures Scan(Tokenise([blank] + x), current) == Scan(Tokenise(x), PushSpace(current))
  {
    var s := [blank] + x;
    assert First(s) == Space(blank) && s[FirstLen(s)..] == x;
    ScanFirst(s, current);
  }

  lemma {:induction false} ScanBlanks(blanks: string, x: string, current: string)
    requires blanks != "" && Blanks(blanks)
    ensures Scan(Tokenise(blanks + x), current) == Scan(Tokenise(x), PushSpace(current))
  {
    var rest := blanks[1..];
    assert blanks[0] in blanks && blanks + x == [blanks[0]] + (rest + x);
    BlankFirst(blanks[0], rest + x, current);
    if rest == "" {
      assert rest + x == x;
    } else {
      assert forall c <- rest :: c in blanks;
      ScanBlanks(rest, x, PushSpace(current));
      assert PushSpace(PushSpace(current)) == PushSpace(current);
    }
  }

  /** Any run of blanks counts as one space. */
  lemma {:induction false} BlanksCollapse(a: string, blanks: string, b: string)
    requires EndsInCode(a) && blanks != "" && Blanks(blanks)
    ensures Alike(a + (blanks + b), a + (" " + b))
  {
    assert blanks[0] in blanks;
    forall c ensures Scan(Tokenise(blanks + b), c) == Scan(Tokenise(" " + b), c) {
      ScanBlanks(blanks, b, c);
      ScanBlanks(" ", b, c);
    }
    SameAfter(a, blanks + b, " " + b);
  }

  /** A character that is neither blank nor has a meaning to the scanner, or an opening parenthesis. */
  predicate Ordinary(c: char) { c !in {' ', '\t', '\r', '\n', '\'', ';', ')', '-', '/'} }

  lemma {:induction false} OrdinaryFirst(c: char, x: string, current: string)
    requires Ordinary(c)
    ensures Scan(Tokenise([c] + x), current) == Scan(Tokenise(x), current + [c])
  {
    var s := [c] + x;
    assert First(s) == Code(c) && s[FirstLen(s)..] == x;
    ScanFirst(s, current);
  }

  lemma {:induction false} CloseFirst(x: string, current: string)
    ensures Scan(Tokenise(")" + x), current) == Scan(Tokenise(x), DropSpace(current) + ")")
  {
    var s := ")" + x;
    assert First(s) == Code(')') && s[FirstLen(s)..] == x;
    ScanFirst(s, current);
  }

  /** Blanks behind an opening parenthesis count for nothing. */
  lemma {:induction false} OpenCloseUp(a: string, blanks: string, b: string)
    requires EndsInCode(a) && blanks != "" && Blanks(blanks)
    ensures Alike(a + ("(" + (blanks + b)), a + ("(" + b))
  {
    assert blanks[0] in blanks;
    forall c ensures Scan(Tokenise("(" + (blanks + b)), c) == Scan(Tokenise("(" + b), c) {
      OrdinaryFirst('(', blanks + b, c);
      OrdinaryFirst('(', b, c);
      ScanBlanks(blanks, b, c + "(");
    }
    SameAfter(a, "(" + (blanks + b), "(" + b);
  }

  lemma {:induction false} DropPushed(c: string)
    ensures DropSpace(PushSpace(c)) == DropSpace(c)
  {
    assert (c + " ")[..|c|] == c;
  }

  /** Blanks before a closing parenthesis count for nothing. */
  lemma {:induction false} CloseCloseUp(a: string, blanks: string, b: string)
    requires EndsInCode(a) && blanks != "" && Blanks(blanks)
    ensures Alike(a + (blanks + (")" + b)), a + (")" + b))
  {
    assert blanks[0] in blanks;
    forall c ensures Scan(Tokenise(blanks + (")" + b)), c) == Scan(Tokenise(")" + b), c) {
      ScanBlanks(blanks, ")" + b, c);
      CloseFirst(b, PushSpace(c));
      CloseFirst(b, c);
      DropPushed(c);
    }
    SameAfter(a, blanks + (")" + b), ")" + b);
  }

  // ---- Words and quoted texts ----

  function Doubled(x: string): string {
    if x == "" then "" else (if x[0] == '\'' then "''" else [x[0]]) + Doubled(x[1..])
  }

  /** A text as an SQL literal. */
  function Quoted(x: string): string { "'" + Doubled(x) + "'" }

  lemma {:induction false} DoubledLength(x: string, rest: string)
    requires rest == "" || rest[0] != '\''
    ensures LiteralCloses(Doubled(x) + "'" + rest) && LiteralLen(Doubled(x) + "'" + rest) == |Doubled(x)| + 1
  {
    var s := Doubled(x) + "'" + rest;
    if x == "" {
      assert s == "'" + rest;
    } else {
      DoubledLength(x[1..], rest);
      var tail := Doubled(x[1..]) + "'" + rest;
      if x[0] == '\'' {
        assert s == "''" + tail && s[2..] == tail;
      } else {
        assert s == [x[0]] + tail && s[1..] == tail;
      }
    }
  }

  lemma {:induction false} ScanQuoted(x: string, rest: string, current: string)
    requires rest == "" || rest[0] != '\''
    ensures Scan(Tokenise(Quoted(x) + rest), current) == Scan(Tokenise(rest), current + Quoted(x))
  {
    var s := Quoted(x) + rest;
    DoubledLength(x, rest);
    assert s[1..] == Doubled(x) + "'" + rest;
    assert FirstLen(s) == |Quoted(x)| && s[..|Quoted(x)|] == Quoted(x) && s[|Quoted(x)|..] == rest;
    assert First(s) == Literal(Quoted(x), true);
    ScanFirst(s, current);
  }

  predicate Plain(x: string) { x != "" && LastChar(x) != '(' && forall c <- x :: Ordinary(c) }

  lemma {:induction false} ScanPlain(x: string, rest: string, current: string)
    requires forall c <- x :: Ordinary(c)
    ensures Scan(Tokenise(x + rest), current) == Scan(Tokenise(rest), current + x)
  {
    if x == "" {
      assert x + rest == rest && current + x == current;
    } else {
      assert x[0] in x && forall c <- x[1..] :: c in x;
      assert x + rest == [x[0]] + (x[1..] + rest);
      OrdinaryFirst(x[0], x[1..] + rest, current);
      ScanPlain(x[1..], rest, current + [x[0]]);
      assert current + [x[0]] + x[1..] == current + x;
    }
  }

  datatype Atom = Word(text: string) | Value(content: string)
  {
    predicate Proper() { Word? ==> Plain(text) }

    function Written(): string { match this case Word(t) => t case Value(x) => Quoted(x) }
  }

  /** A collected text that starts and ends with something other than a blank or an opening parenthesis. */
  predicate Firm(s: string) { s != "" && !IsSpace(s[0]) && !IsSpace(LastChar(s)) && LastChar(s) != '(' }

  lemma {:induction false} AtomEnds(x: Atom)
    requires x.Proper()
    ensures Firm(x.Written())
  {
    if x.Word? {
      assert x.text[0] in x.text && LastChar(x.text) in x.text;
    }
  }

  lemma {:induction false} ScanAtom(x: Atom, rest: string, current: string)
    requires x.Proper() && (rest == "" || rest[0] != '\'')
    ensures Scan(Tokenise(x.Written() + rest), current) == Scan(Tokenise(rest), current + x.Written())
  {
    match x
    case Word(t) => ScanPlain(t, rest, current);
    case Value(v) => ScanQuoted(v, rest, current);
  }

  /** Atoms, each with blanks before it, and at the end some more or none. */
  function Spread(atoms: seq<Atom>, gaps: seq<string>, trail: string): string
    requires |atoms| == |gaps|
  {
    if atoms == [] then trail else gaps[0] + (atoms[0].Written() + Spread(atoms[1..], gaps[1..], trail))
  }

  function Spaced(atoms: seq<Atom>): string {
    if atoms == [] then "" else " " + atoms[0].Written() + Spaced(atoms[1..])
  }

  ghost predicate Gaps(gaps: seq<string>) { forall g <- gaps :: g != "" && Blanks(g) }

  lemma {:induction false} SpreadStarts(atoms: seq<Atom>, gaps: seq<string>, trail: string)
    requires |atoms| == |gaps| && Gaps(gaps) && Blanks(trail)
    ensures var s := Spread(atoms, gaps, trail); s == "" || s[0] in {' ', '\t', '\r', '\n'}
  {
    if atoms != [] {
      assert gaps[0] in gaps && gaps[0][0] in gaps[0];
    } else if trail != "" {
      assert trail[0] in trail;
    }
  }

  lemma {:induction false} TrailDropped(trail: string, current: string)
    requires Blanks(trail) && Firm(current)
    ensures Scan(Tokenise(trail), current) == [current]
  {
    if trail != "" {
      assert trail + "" == trail;
      ScanBlanks(trail, "", current);
    }
    FlushSpaced(current);
  }

  /** One blank gap and one atom. */
  lemma {:induction false} ScanGap(gap: string, x: Atom, rest: string, current: string)
    requires gap != "" && Blanks(gap) && x.Proper() && (rest == "" || rest[0] != '\'')
    requires Firm(current)
    ensures Scan(Tokenise(gap + (x.Written() + rest)), current) == Scan(Tokenise(rest), current + " " + x.Written())
  {
    assert PushSpace(current) == current + " ";
    hide Scan, Tokenise;
    ScanBlanks(gap, x.Written() + rest, current);
    ScanAtom(x, rest, current + " ");
  }

  lemma {:induction false} SpreadCons(atoms: seq<Atom>, gaps: seq<string>, trail: string)
    requires |atoms| == |gaps| > 0 && Gaps(gaps) && Blanks(trail) && (forall x <- atoms :: x.Proper())
    ensures
      var rest := Spread(atoms[1..], gaps[1..], trail);
      && Spread(atoms, gaps, trail) == gaps[0] + (atoms[0].Written() + rest)
      && Spaced(atoms) == " " + atoms[0].Written() + Spaced(atoms[1..])
      && gaps[0] != "" && Blanks(gaps[0]) && atoms[0].Proper() && (rest == "" || rest[0] != '\'')
      && Gaps(gaps[1..]) && forall x <- atoms[1..] :: x.Proper()
  {
    assert gaps[0] in gaps && forall g <- gaps[1..] :: g in gaps;
    assert atoms[0] in atoms && forall y <- atoms[1..] :: y in atoms;
    SpreadStarts(atoms[1..], gaps[1..], trail);
  }

  lemma {:induction false} Lengthen(current: string, x: Atom, tail: string)
    requires Firm(current) && x.Proper()
    ensures
      var longer := current + " " + x.Written();
      Firm(longer) && longer + tail == current + (" " + x.Written() + tail)
  {
    AtomEnds(x);
    var longer := current + " " + x.Written();
    assert longer[0] == current[0] && LastChar(longer) == LastChar(x.Written());
  }

  lemma {:induction false} ScanSpread(atoms: seq<Atom>, gaps: seq<string>, trail: string, current: string)
    requires |atoms| == |gaps| && Gaps(gaps) && Blanks(trail) && (forall x <- atoms :: x.Proper()) && Firm(current)
    ensures Scan(Tokenise(Spread(atoms, gaps, trail)), current) == [current + Spaced(atoms)]
  {
    if atoms == [] {
      TrailDropped(trail, current);
      assert current + "" == current;
    } else {
      hide Scan, Tokenise, Blanks, Spread, Spaced, Gaps, Firm;
      SpreadCons(atoms, gaps, trail);
      ScanGap(gaps[0], atoms[0], Spread(atoms[1..], gaps[1..], trail), current);
      Lengthen(current, atoms[0], Spaced(atoms[1..]));
      ScanSpread(atoms[1..], gaps[1..], trail, current + " " + atoms[0].Written());
    }
  }

  lemma {:induction false} FlushSpaced(current: string)
    requires current != "" && !IsSpace(current[0]) && !IsSpace(LastChar(current))
    ensures Flush(current) == [current] && Flush(current + " ") == [current]
  {
    var spaced := current + " ";
    assert spaced[..|spaced| - 1] == current;
    assert TrimEnd(spaced) == TrimEnd(current) == current;
  }

  /** Words and literals, however many blanks of whatever kind are around and between them, come out as
      one statement, verbatim, with one space between any two. */
  lemma {:induction false} WordsAndLiterals(
    lead: string, first: Atom, atoms: seq<Atom>, gaps: seq<string>, trail: string)
    requires |atoms| == |gaps| && Gaps(gaps) && Blanks(lead) && Blanks(trail)
    requires first.Proper() && forall x <- atoms :: x.Proper()
    ensures Yields(lead + (first.Written() + Spread(atoms, gaps, trail)), first.Written() + Spaced(atoms))
  {
    var rest := Spread(atoms, gaps, trail);
    var s := first.Written() + rest;
    if lead == "" {
      assert lead + s == s;
    } else {
      ScanBlanks(lead, s, "");
    }
    SpreadStarts(atoms, gaps, trail);
    ScanAtom(first, rest, "");
    assert "" + first.Written() == first.Written();
    AtomEnds(first);
    ScanSpread(atoms, gaps, trail, first.Written());
    ScanMeansParse(lead + s);
  }

  // ---- What stays ----

  /** A text without its blanks. */
  function Visible(s: string): string {
    if s == "" then "" else (if s[0] in {' ', '\t', '\r', '\n'} then "" else [s[0]]) + Visible(s[1..])
  }

  function Content(toks: seq<Token>): string {
    if toks == [] then ""
    else (if toks[0].Literal? || toks[0].Code? then Visible(toks[0].Text()) else "") + Content(toks[1..])
  }

  lemma {:induction false} VisibleAppend(a: string, b: string)
    ensures Visible(a + b) == Visible(a) + Visible(b)
  {
    if a == "" {
      assert a + b == b;
    } else {
      assert (a + b)[1..] == a[1..] + b;
      VisibleAppend(a[1..], b);
    }
  }

  lemma {:induction false} VisibleOne(c: char)
    ensures Visible([c]) == if c in {' ', '\t', '\r', '\n'} then "" else [c]
  {
    assert [c][1..] == "";
  }

  lemma {:induction false} EmitVisible(current: string, t: Token)
    requires !t.Semi?
    ensures Visible(Emit(current, t)) == Visible(current) + Content([t])
  {
    ContentOne(t);
    hide Visible, Content;
    match t
    case Literal(x, _) => VisibleAppend(current, x);
    case Space(_) =>
      VisibleAppend(current, " ");
      VisibleOne(' ');
    case Code(c) =>
      VisibleAppend(current, [c]);
      VisibleAppend(DropSpace(current), ")");
      DroppedVisible(current);
    case _ =>
  }

  lemma {:induction false} ContentOne(t: Token)
    ensures Content([t]) == if t.Literal? || t.Code? then Visible(t.Text()) else ""
  {
    assert [t][1..] == [];
  }

  lemma {:induction false} DroppedVisible(current: string)
    ensures Visible(DropSpace(current)) == Visible(current)
  {
    if DropSpace(current) != current {
      assert current == DropSpace(current) + " ";
      VisibleAppend(DropSpace(current), " ");
      VisibleOne(' ');
    }
  }

  lemma {:induction false} TrimStartVisible(s: string)
    ensures Visible(TrimStart(s)) == Visible(s)
  {
    if s != "" { TrimStartVisible(s[1..]); }
  }

  lemma {:induction false} TrimEndVisible(s: string)
    ensures Visible(TrimEnd(s)) == Visible(s)
    decreases |s|
  {
    if s != "" && IsSpace(s[|s| - 1]) {
      var x, c := s[..|s| - 1], s[|s| - 1];
      assert s == x + [c];
      VisibleAppend(x, [c]);
      VisibleOne(c);
      TrimEndVisible(x);
    }
  }

  lemma {:induction false} FlushVisible(current: string)
    ensures Visible(Flatten(Flush(current))) == Visible(current)
  {
    var trimmed := TrimEnd(TrimStart(current));
    TrimStartVisible(current);
    TrimEndVisible(TrimStart(current));
    assert Flatten([trimmed]) == trimmed + Flatten([]) && trimmed + "" == trimmed;
  }

  lemma {:induction false} ContentCons(toks: seq<Token>)
    requires toks != []
    ensures Content(toks) == Content([toks[0]]) + Content(toks[1..])
  {
    assert [toks[0]][1..] == [];
  }

  lemma {:induction false} ScanVisible(toks: seq<Token>, current: string)
    ensures Visible(Flatten(Scan(toks, current))) == Visible(current) + Content(toks)
  {
    hide Emit, Flush, Content;
    if toks == [] {
      FlushVisible(current);
      NoContent();
    } else {
      ContentCons(toks);
      if toks[0].Semi? {
        var rest := Scan(toks[1..], "");
        ScanVisible(toks[1..], "");
        SqlNormal.FlattenAppend(Flush(current), rest);
        VisibleAppend(Flatten(Flush(current)), Flatten(rest));
        FlushVisible(current);
        NoContent();
      } else {
        EmitVisible(current, toks[0]);
        ScanVisible(toks[1..], Emit(current, toks[0]));
      }
    }
  }

  lemma {:induction false} NoContent()
    ensures Content([]) == "" && Content([Semi]) == "" && Visible("") == ""
  {
    assert [Semi][1..] == [];
  }

  /** Nothing is lost and nothing added but blanks: the statements' visible characters are those of the
      script's code and literals, in order. */
  lemma {:induction false} ContentKept(sql: string)
    ensures Visible(Flatten(Parse(sql))) == Content(Tokenise(sql))
  {
    ScanVisible(Tokenise(sql), "");
    ScanMeansParse(sql);
  }
}
