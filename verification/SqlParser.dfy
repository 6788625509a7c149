/** The scanner: one pass over the script, growing the current statement in place.
    It is proved to compute SqlTokens.Parse. */
module SqlParser {
  import opened Sequences
  import opened SqlTokens

  function PushSpace(current: string): string {
    if current != [] && current[|current| - 1] != ' ' && !EndsOpen(current) then current + " " else current
  }

  function DropSpace(current: string): string {
    if current != [] && current[|current| - 1] == ' ' then current[..|current| - 1] else current
  }

  function TrimStart(s: string): string {
    if s != [] && IsSpace(s[0]) then TrimStart(s[1..]) else s
  }

  /** The statements a flush appends: none when only blanks were collected. */
  function Flush(current: string): seq<string> {
    var trimmed := TrimEnd(TrimStart(current));
    if trimmed == [] then [] else [trimmed]
  }

  function Emit(current: string, t: Token): string
    requires !t.Semi?
  {
    match t
    case LineComment(_) => current
    case BlockComment(_, _) => current
    case Literal(text, _) => current + text
    case Space(_) => PushSpace(current)
    case Code(c) => if c == ')' then DropSpace(current) + ")" else current + [c]
  }

  /** The scanner's run over a token list, starting with current already collected. */
  function Scan(toks: seq<Token>, current: string): seq<string> {
    if toks == [] then Flush(current)
    else if toks[0].Semi? then Flush(current) + Scan(toks[1..], "")
    else Scan(toks[1..], Emit(current, toks[0]))
  }

  /** The scan of a text by its first token. */
  lemma ScanFirst(s: string, current: string)
    requires s != ""
    ensures
      var t, rest := First(s), s[FirstLen(s)..];
      Scan(Tokenise(s), current) ==
        if t.Semi? then Flush(current) + Scan(Tokenise(rest), "") else Scan(Tokenise(rest), Emit(current, t))
  {
    hide First, FirstLen, Emit, Flush;
    var rest := s[FirstLen(s)..];
    assert Tokenise(s) == [First(s)] + Tokenise(rest);
    assert Tokenise(s)[1..] == Tokenise(rest);
  }

  /** One turn of the scan, at position i of the script. */
  lemma ScanStep(sql: string, i: nat, current: string, next: nat, collected: string, flushed: seq<string>)
    requires i < |sql| && next == i + FirstLen(sql[i..])
    requires
      var t := First(sql[i..]);
      if t.Semi? then flushed == Flush(current) && collected == "" else flushed == [] && collected == Emit(current, t)
    ensures Scan(Tokenise(sql[i..]), current) == flushed + Scan(Tokenise(sql[next..]), collected)
  {
    hide First, FirstLen, Emit, Flush, Tokenise, Scan;
    ScanFirst(sql[i..], current);
    assert sql[i..][FirstLen(sql[i..])..] == sql[next..];
    assert [] + Scan(Tokenise(sql[next..]), collected) == Scan(Tokenise(sql[next..]), collected);
  }

  method SkipLineComment(sql: string, start: nat) returns (i: nat)
    requires start < |sql| && OpensLine(sql[start..])
    ensures i == start + FirstLen(sql[start..])
    ensures start + 2 <= i <= |sql| && (i == |sql| || sql[i] == '\n') && '\n' !in sql[start..i]
  {
    i := start;
    while i < |sql| && sql[i] != '\n'
      invariant start <= i <= |sql| && '\n' !in sql[start..i]
      invariant LineLen(sql[start..]) == (i - start) + LineLen(sql[i..])
    {
      assert sql[i..][1..] == sql[i + 1..];
      assert sql[start..i + 1] == sql[start..i] + [sql[i]];
      i := i + 1;
    }
    assert sql[start..][0] == '-' == sql[start..][1];
  }

  /** A block comment's end stands at position k. */
  predicate EndsAt(sql: string, k: nat) { k + 1 < |sql| && sql[k] == '*' && sql[k + 1] == '/' }

  method SkipBlockComment(sql: string, start: nat) returns (i: nat)
    requires start < |sql| && OpensBlock(sql[start..])
    ensures i == start + FirstLen(sql[start..])
    ensures
      || (i >= start + 4 && EndsAt(sql, i - 2) && forall k | start + 2 <= k < i - 2 :: !EndsAt(sql, k))
      || (|sql| - 1 <= i <= |sql| && forall k | start + 2 <= k < |sql| :: !EndsAt(sql, k))
  {
    i := start + 2;
    assert sql[start..][2..] == sql[i..];
    while i + 1 < |sql| && !(sql[i] == '*' && sql[i + 1] == '/')
      invariant start + 2 <= i <= |sql| && forall k | start + 2 <= k < i :: !EndsAt(sql, k)
      invariant BlockLen(sql[start + 2..]) == (i - start - 2) + BlockLen(sql[i..])
    {
      assert sql[i..][1..] == sql[i + 1..];
      i := i + 1;
    }
    if i + 1 < |sql| {
      i := i + 2;
    }
  }

  lemma Grow(sql: string, start: nat, i: nat, collected: string, current: string)
    requires start <= i < |sql| && current == collected + sql[start..i]
    ensures current + [sql[i]] == collected + sql[start..i + 1]
  {
    assert sql[start..i + 1] == sql[start..i] + [sql[i]];
  }

  /** The length of a literal's rest, by what stands at i. */
  lemma LiteralStep(sql: string, i: nat)
    requires i < |sql|
    ensures
      LiteralLen(sql[i..]) ==
        if sql[i] == '\'' && i + 1 < |sql| && sql[i + 1] == '\'' then 2 + LiteralLen(sql[i + 2..])
        else if sql[i] == '\'' then 1
        else 1 + LiteralLen(sql[i + 1..])
  {
    var s := sql[i..];
    assert s[1..] == sql[i + 1..];
    if i + 1 < |sql| { assert s[2..] == sql[i + 2..]; }
  }

  lemma LiteralOpens(sql: string, start: nat)
    requires start < |sql| && sql[start] == '\''
    ensures FirstLen(sql[start..]) == 1 + LiteralLen(sql[start + 1..])
    ensures sql[start..start + 1] == [sql[start]]
  {
    assert sql[start..][1..] == sql[start + 1..];
  }

  lemma LiteralEnds(sql: string, i: nat)
    requires i == |sql|
    ensures LiteralLen(sql[i..]) == 0
  {
  }

  method TakeLiteral(sql: string, start: nat, collected: string) returns (i: nat, current: string)
    requires start < |sql| && sql[start] == '\''
    ensures i == start + FirstLen(sql[start..])
    ensures i <= |sql| && current == collected + sql[start..i]
  {
    current, i := collected + [sql[start]], start + 1;
    hide LiteralLen, FirstLen;
    ghost var length := FirstLen(sql[start..]);
    LiteralOpens(sql, start);
    while i < |sql|
      invariant start + 1 <= i <= |sql|
      invariant length == (i - start) + LiteralLen(sql[i..])
      invariant current == collected + sql[start..i]
    {
      LiteralStep(sql, i);
      Grow(sql, start, i, collected, current);
      if sql[i] == '\'' && i + 1 < |sql| && sql[i + 1] == '\'' {
        Grow(sql, start, i + 1, collected, current + [sql[i]]);
        current, i := current + [sql[i]], i + 1;
        current, i := current + [sql[i]], i + 1;
      } else if sql[i] == '\'' {
        current, i := current + [sql[i]], i + 1;
        return;
      } else {
        current, i := current + [sql[i]], i + 1;
      }
    }
    LiteralEnds(sql, i);
  }

  /** One turn of the scan loop: consumes the token at start and updates what was collected. */
  method ScanToken(sql: string, start: nat, collected: string) returns (i: nat, current: string, flushed: seq<string>)
    requires start < |sql|
    ensures
      var t := First(sql[start..]);
      && i == start + FirstLen(sql[start..])
      && flushed == (if t.Semi? then Flush(collected) else [])
      && current == (if t.Semi? then "" else Emit(collected, t))
  {
    i, current, flushed := start, collected, [];
    if i + 1 < |sql| && sql[i] == '-' && sql[i + 1] == '-' {
      i := SkipLineComment(sql, i);
      return;
    }
    if i + 1 < |sql| && sql[i] == '/' && sql[i + 1] == '*' {
      i := SkipBlockComment(sql, i);
      return;
    }
    if sql[i] == '\'' {
      i, current := TakeLiteral(sql, i, current);
      assert sql[start..][..i - start] == sql[start..i];
      return;
    }
    if sql[i] == ' ' || sql[i] == '\t' || sql[i] == '\r' || sql[i] == '\n' {
      if current != [] && current[|current| - 1] != ' ' && current[|current| - 1] != '(' {
        current := current + " ";
      }
      i := i + 1;
      return;
    }
    if sql[i] == ')' {
      if current != [] && current[|current| - 1] == ' ' {
        current := current[..|current| - 1];
      }
      current, i := current + [sql[i]], i + 1;
      return;
    }
    if sql[i] == ';' {
      i := i + 1;
      flushed, current := Flush(current), "";
      return;
    }
    current, i := current + [sql[i]], i + 1;
  }

  method ParseStatements(sql: string) returns (statements: seq<string>)
    ensures statements == Parse(sql)
  {
    statements := [];
    var current := "";
    var i, n := 0, |sql|;
    ghost var all := Scan(Tokenise(sql), "");
    ghost var rest := all;
    assert sql[0..] == sql;
    while i < n
      invariant 0 <= i <= n
      invariant rest == Scan(Tokenise(sql[i..]), current)
      invariant statements + rest == all
    {
      var next, collected, flushed := ScanToken(sql, i, current);
      ScanStep(sql, i, current, next, collected, flushed);
      rest := Scan(Tokenise(sql[next..]), collected);
      Associate(statements, flushed, rest);
      i, current, statements := next, collected, statements + flushed;
    }
    assert sql[n..] == [];
    statements := statements + Flush(current);
    ScanMeansParse(sql);
  }

  // ---- The scan computes the layout ----

  /** What tokenising guarantees about each token's text and about open tokens. */
  ghost predicate WellFormed(toks: seq<Token>) {
    forall k | 0 <= k < |toks| :: WellFormedAt(toks, k)
  }

  ghost predicate WellFormedAt(toks: seq<Token>, k: nat)
    requires k < |toks|
  {
    match toks[k]
    case Literal(x, closed) =>
      x != "" && x[0] == '\'' && (if closed then x[|x| - 1] == '\'' else k == |toks| - 1)
    case Code(c) => !IsSpace(c)
    case _ => true
  }

  lemma WellFormedTail(toks: seq<Token>)
    requires toks != [] && WellFormed(toks)
    ensures WellFormedAt(toks, 0) && WellFormed(toks[1..])
  {
    forall k | 0 <= k < |toks| - 1 ensures WellFormedAt(toks[1..], k) {
      assert toks[1..][k] == toks[k + 1] && WellFormedAt(toks, k + 1);
    }
  }

  lemma {:induction false} LiteralEnd(s: string)
    ensures LiteralCloses(s) ==> LiteralLen(s) > 0 && s[LiteralLen(s) - 1] == '\''
    ensures !LiteralCloses(s) ==> LiteralLen(s) == |s|
  {
    if s != [] {
      if DoubledQuote(s) { LiteralEnd(s[2..]); }
      else if s[0] != '\'' { LiteralEnd(s[1..]); }
    }
  }

  lemma FirstWellFormed(s: string)
    requires s != ""
    ensures
      match First(s)
      case Literal(x, closed) =>
        x != "" && x[0] == '\'' && (if closed then x[|x| - 1] == '\'' else FirstLen(s) == |s|)
      case Code(c) => !IsSpace(c)
      case _ => true
  {
    LiteralEnd(s[1..]);
  }

  lemma {:induction false} TokeniseWellFormed(s: string)
    ensures WellFormed(Tokenise(s))
  {
    if s != [] {
      var rest := s[FirstLen(s)..];
      TokeniseWellFormed(rest);
      FirstWellFormed(s);
      hide First, FirstLen, IsSpace;
      var toks := Tokenise(s);
      assert toks == [First(s)] + Tokenise(rest);
      forall k | 0 <= k < |toks| ensures WellFormedAt(toks, k) {
        if k > 0 { assert toks[k] == Tokenise(rest)[k - 1] && WellFormedAt(Tokenise(rest), k - 1); }
      }
    }
  }

  ghost predicate Solid(ps: seq<Piece>) {
    (forall p <- ps :: p.text != "") && (ps != [] ==> !IsSpace(ps[0].text[0]))
  }

  function LastChar(s: string): char
    requires s != []
  {
    s[|s| - 1]
  }

  lemma {:induction false} LayoutEnds(ps: seq<Piece>)
    requires ps != [] && Solid(ps)
    ensures Layout(ps) != ""
    ensures Layout(ps)[0] == ps[0].text[0]
    ensures LastChar(Layout(ps)) == LastChar(ps[|ps| - 1].text)
  {
    if |ps| > 1 {
      if IsSpace(ps[1].text[0]) {
        LayoutTail(ps);
      } else {
        LayoutEnds(ps[1..]);
      }
    }
  }

  lemma {:induction false} LayoutTail(ps: seq<Piece>)
    requires ps != [] && forall p <- ps :: p.text != ""
    ensures Layout(ps) != "" && LastChar(Layout(ps)) == LastChar(ps[|ps| - 1].text)
  {
    if |ps| > 1 { LayoutTail(ps[1..]); }
  }

  lemma LayoutCons(p: Piece, ps: seq<Piece>)
    requires ps != []
    ensures Layout([p] + ps) == p.text + Separator(p, ps[0]) + Layout(ps)
  {
    assert ([p] + ps)[1..] == ps;
  }

  lemma {:induction false} LayoutSnoc(ps: seq<Piece>, p: Piece)
    requires ps != []
    ensures Layout(ps + [p]) == Layout(ps) + Separator(ps[|ps| - 1], p) + p.text
  {
    hide Separator, Layout;
    var q, rest := ps[0], ps[1..];
    assert ps == [q] + rest;
    LayoutOne(p);
    if rest == [] {
      assert ps == [q] && ps + [p] == [q] + [p];
      LayoutOne(q);
      LayoutCons(q, [p]);
    } else {
      LayoutCons(q, rest);
      LayoutCons(q, rest + [p]);
      LayoutSnoc(rest, p);
      assert ps + [p] == [q] + (rest + [p]);
      Associate(q.text + Separator(q, rest[0]), Layout(rest) + Separator(ps[|ps| - 1], p), p.text);
      Associate(q.text + Separator(q, rest[0]), Layout(rest), Separator(ps[|ps| - 1], p));
    }
  }

  /** The collected text while pieces ps are down and gap says whether blanks followed them. */
  ghost function Collected(ps: seq<Piece>, gap: bool): string {
    Layout(ps) + if gap && ps != [] && !EndsOpen(Layout(ps)) then " " else ""
  }

  lemma EmitPiece(ps: seq<Piece>, gap: bool, t: Token)
    requires Solid(ps) && (t.Literal? || t.Code?) && t.Text() != "" && !IsSpace(t.Text()[0])
    requires t.Literal? ==> t.text[0] == '\''
    requires ps != [] ==> !IsSpace(LastChar(ps[|ps| - 1].text))
    ensures Solid(ps + [Piece(t.Text(), gap)])
    ensures Emit(Collected(ps, gap), t) == Collected(ps + [Piece(t.Text(), gap)], false)
  {
    hide Layout;
    var p := Piece(t.Text(), gap);
    assert forall q <- ps + [p] :: q in ps || q == p;
    assert Collected(ps + [p], false) == Layout(ps + [p]) + "";
    if ps == [] {
      LayoutOne(p);
      assert ps + [p] == [p];
    } else {
      hide Emit;
      LayoutEnds(ps);
      LayoutSnoc(ps, p);
      EmitText(Layout(ps), ps[|ps| - 1], p, t);
    }
  }

  lemma LayoutOne(p: Piece)
    ensures Layout([]) == "" && Layout([p]) == p.text
  {
  }

  lemma EmitText(text: string, last: Piece, p: Piece, t: Token)
    requires (t.Literal? || t.Code?) && p.text == t.Text() && (t.Literal? ==> t.text != ")")
    requires text != "" && last.text != "" && LastChar(text) == LastChar(last.text) && LastChar(text) != ' '
    ensures
      var blank := text + if p.gap && !EndsOpen(text) then " " else "";
      Emit(blank, t) == text + Separator(last, p) + p.text
  {
    assert text + "" == text && (text + " ")[..|text|] == text;
  }

  lemma EmitSpace(ps: seq<Piece>, gap: bool, t: Token)
    requires Solid(ps) && t.Space?
    requires ps != [] ==> !IsSpace(LastChar(ps[|ps| - 1].text))
    ensures Emit(Collected(ps, gap), t) == Collected(ps, true)
  {
    if ps != [] { LayoutEnds(ps); }
  }

  lemma FlushStatement(ps: seq<Piece>, gap: bool)
    requires Solid(ps)
    ensures Flush(Collected(ps, gap)) == if ps == [] then [] else [TrimEnd(Layout(ps))]
  {
    if ps != [] {
      LayoutEnds(ps);
      var text := Layout(ps);
      assert text + "" == text && (text + " ")[..|text|] == text;
      assert TrimEnd(text + " ") == TrimEnd(text);
      assert TrimStart(text) == text && TrimStart(text + " ") == text + " ";
      assert TrimEnd(text) != [];
    }
  }

  /** One statement's worth of pieces, as SqlTokens.Statement lays them out. */
  ghost function Finished(ps: seq<Piece>): seq<string> {
    if ps == [] then [] else [TrimEnd(Layout(ps))]
  }

  lemma {:induction false} ScanPieces(toks: seq<Token>, ps: seq<Piece>, gap: bool)
    requires WellFormed(toks) && Solid(ps)
    requires toks != [] && ps != [] ==> !IsSpace(LastChar(ps[|ps| - 1].text))
    ensures Scan(toks, Collected(ps, gap)) ==
            Finished(ps + Pieces(Segments(toks)[0], gap)) + Statements(Segments(toks)[1..])
  {
    if toks == [] {
      FlushStatement(ps, gap);
      assert ps + Pieces([], gap) == ps;
      return;
    }
    var t, rest := toks[0], toks[1..];
    WellFormedTail(toks);
    if t.Semi? {
      hide Flush, Segments, Pieces, Statements, Collected, Layout;
      FlushStatement(ps, gap);
      ScanPieces(rest, [], false);
      ScanCut(toks, ps, gap);
    } else {
      hide Flush, Emit, Segments, Pieces, Statements, Collected, Layout, IsSpace;
      ScanEmit(toks, ps, gap);
      if t.Literal? || t.Code? {
        EmitPiece(ps, gap, t);
        ScanPieces(rest, ps + [Piece(t.Text(), gap)], false);
      } else if t.Space? {
        EmitSpace(ps, gap, t);
        ScanPieces(rest, ps, true);
      } else {
        ScanPieces(rest, ps, gap);
      }
    }
  }

  lemma ScanCut(toks: seq<Token>, ps: seq<Piece>, gap: bool)
    requires toks != [] && toks[0].Semi?
    ensures
      var tail := Segments(toks[1..]);
      && Finished(ps + Pieces(Segments(toks)[0], gap)) == Finished(ps)
      && Statements(Segments(toks)[1..]) == Finished([] + Pieces(tail[0], false)) + Statements(tail[1..])
  {
    var tail := Segments(toks[1..]);
    assert ps + Pieces([], gap) == ps;
    assert Segments(toks)[1..] == tail;
    assert [] + Pieces(tail[0], false) == Pieces(tail[0], false);
  }

  lemma {:induction false} ScanEmit(toks: seq<Token>, ps: seq<Piece>, gap: bool)
    requires toks != [] && !toks[0].Semi?
    ensures
      var t, tail := toks[0], Segments(toks[1..]);
      && Segments(toks)[1..] == tail[1..]
      && ps + Pieces(Segments(toks)[0], gap) ==
         if t.IsComment() then ps + Pieces(tail[0], gap)
         else if t.Space? then ps + Pieces(tail[0], true)
         else ps + [Piece(t.Text(), gap)] + Pieces(tail[0], false)
  {
    var t, tail := toks[0], Segments(toks[1..]);
    assert ([t] + tail[0])[1..] == tail[0];
    assert ps + ([Piece(t.Text(), gap)] + Pieces(tail[0], false))
           == ps + [Piece(t.Text(), gap)] + Pieces(tail[0], false);
  }

  lemma {:induction false} ScanMeansParse(sql: string)
    ensures Scan(Tokenise(sql), "") == Parse(sql)
  {
    var toks := Tokenise(sql);
    TokeniseWellFormed(sql);
    NothingCollected();
    hide Scan, Tokenise, Collected, Pieces, Layout;
    ScanPieces(toks, [], false);
    var segs := Segments(toks);
    assert [] + Pieces(segs[0], false) == Pieces(segs[0], false);
    assert Statements(segs) == Statement(segs[0]) + Statements(segs[1..]);
    assert Statement(segs[0]) == Finished(Pieces(segs[0], false));
  }

  lemma NothingCollected()
    ensures Collected([], false) == ""
  {
  }
}
