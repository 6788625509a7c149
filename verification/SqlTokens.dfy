/** The lexical structure of an SQL script and the text one statement is laid out as.
    This is the specification the scanner of SqlParser.dfy is proved against. */
module SqlTokens {

  /** The closed flag is false for a literal or block comment the end of the script cut short. */
  datatype Token =
    | LineComment(text: string)
    | BlockComment(text: string, closed: bool)
    | Literal(text: string, closed: bool)
    | Space(c: char)
    | Semi
    | Code(c: char)
  {
    function Text(): string {
      match this
      case LineComment(t) => t
      case BlockComment(t, _) => t
      case Literal(t, _) => t
      case Space(c) => [c]
      case Semi => ";"
      case Code(c) => [c]
    }

    predicate IsComment() { LineComment? || BlockComment? }
  }

  predicate IsSpace(c: char) { c == ' ' || c == '\t' || c == '\r' || c == '\n' }

  predicate OpensLine(s: string) { |s| >= 2 && s[0] == '-' && s[1] == '-' }

  predicate OpensBlock(s: string) { |s| >= 2 && s[0] == '/' && s[1] == '*' }

  predicate ClosesBlock(s: string) { |s| >= 2 && s[0] == '*' && s[1] == '/' }

  predicate DoubledQuote(s: string) { |s| >= 2 && s[0] == '\'' && s[1] == '\'' }

  /** Characters up to, not including, the next line feed. */
  function LineLen(s: string): (n: nat)
    ensures n <= |s|
  {
    if s == [] || s[0] == '\n' then 0 else 1 + LineLen(s[1..])
  }

  /** Characters a block comment's body and terminator take. An unterminated body stops one
      character short of the end of the script: that character is scanned as code. */
  function BlockLen(s: string): (n: nat)
    ensures n <= |s|
  {
    if |s| < 2 then 0 else if ClosesBlock(s) then 2 else 1 + BlockLen(s[1..])
  }

  predicate BlockCloses(s: string) {
    |s| >= 2 && (ClosesBlock(s) || BlockCloses(s[1..]))
  }

  /** Characters of a literal after its opening quote. */
  function LiteralLen(s: string): (n: nat)
    ensures n <= |s|
  {
    if s == [] then 0
    else if DoubledQuote(s) then 2 + LiteralLen(s[2..])
    else if s[0] == '\'' then 1
    else 1 + LiteralLen(s[1..])
  }

  predicate LiteralCloses(s: string) {
    s != [] &&
    if DoubledQuote(s) then LiteralCloses(s[2..])
    else s[0] == '\'' || LiteralCloses(s[1..])
  }

  function FirstLen(s: string): (n: nat)
    requires s != []
    ensures 1 <= n <= |s|
  {
    if OpensLine(s) then assert s[0] != '\n'; LineLen(s)
    else if OpensBlock(s) then 2 + BlockLen(s[2..])
    else if s[0] == '\'' then 1 + LiteralLen(s[1..])
    else 1
  }

  function First(s: string): (t: Token)
    requires s != []
    ensures t.Text() == s[..FirstLen(s)]
  {
    var text := s[..FirstLen(s)];
    if OpensLine(s) then LineComment(text)
    else if OpensBlock(s) then BlockComment(text, BlockCloses(s[2..]))
    else if s[0] == '\'' then Literal(text, LiteralCloses(s[1..]))
    else if IsSpace(s[0]) then Space(s[0])
    else if s[0] == ';' then Semi
    else Code(s[0])
  }

  function Tokenise(s: string): seq<Token> {
    if s == [] then [] else [First(s)] + Tokenise(s[FirstLen(s)..])
  }

  function Flatten(parts: seq<string>): string {
    if parts == [] then "" else parts[0] + Flatten(parts[1..])
  }

  function Texts(toks: seq<Token>): seq<string> {
    seq(|toks|, i requires 0 <= i < |toks| => toks[i].Text())
  }

  /** Nothing of the script is lost or reordered by tokenising. */
  lemma {:induction false} TokeniseLossless(s: string)
    ensures Flatten(Texts(Tokenise(s))) == s
  {
    if s != [] {
      var n := FirstLen(s);
      TokeniseLossless(s[n..]);
      assert Texts(Tokenise(s)) == [First(s).Text()] + Texts(Tokenise(s[n..]));
      assert s == s[..n] + s[n..];
    }
  }

  /** The statements' token runs: the script cut at its separators. */
  function Segments(toks: seq<Token>): (r: seq<seq<Token>>)
    ensures r != []
  {
    if toks == [] then [[]]
    else
      var rest := Segments(toks[1..]);
      if toks[0].Semi? then [[]] + rest else [[toks[0]] + rest[0]] + rest[1..]
  }

  /** A literal or a single non-blank character, and whether blanks separate it from the piece before it. */
  datatype Piece = Piece(text: string, gap: bool)

  function Pieces(toks: seq<Token>, gap: bool): seq<Piece> {
    if toks == [] then []
    else match toks[0]
      case LineComment(_) => Pieces(toks[1..], gap)
      case BlockComment(_, _) => Pieces(toks[1..], gap)
      case Space(_) => Pieces(toks[1..], true)
      case t => [Piece(t.Text(), gap)] + Pieces(toks[1..], false)
  }

  predicate EndsOpen(text: string) { text != [] && text[|text| - 1] == '(' }

  /** One space stands where blanks stood, except after '(' and before ')'. */
  function Separator(left: Piece, right: Piece): string {
    if right.gap && !EndsOpen(left.text) && right.text != ")" then " " else ""
  }

  function Layout(ps: seq<Piece>): string {
    if ps == [] then ""
    else if |ps| == 1 then ps[0].text
    else ps[0].text + Separator(ps[0], ps[1]) + Layout(ps[1..])
  }

  function TrimEnd(s: string): (r: string)
    ensures r <= s
    ensures r == [] || !IsSpace(r[|r| - 1])
    ensures forall k :: |r| <= k < |s| ==> IsSpace(s[k])
  {
    if s != [] && IsSpace(s[|s| - 1]) then TrimEnd(s[..|s| - 1]) else s
  }

  /** A run without pieces yields no statement; trimming only matters to an unclosed literal. */
  function Statement(seg: seq<Token>): seq<string> {
    var ps := Pieces(seg, false);
    if ps == [] then [] else [TrimEnd(Layout(ps))]
  }

  function Statements(segs: seq<seq<Token>>): seq<string> {
    if segs == [] then [] else Statement(segs[0]) + Statements(segs[1..])
  }

  /** What a script means: its statements in order, comments dropped and blanks normalised. */
  function Parse(sql: string): seq<string> {
    Statements(Segments(Tokenise(sql)))
  }
}
