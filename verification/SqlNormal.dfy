/** Normal form: parsing a script's output again changes it exactly when deleting the script's
    comments puts two characters together that open a new one. */
module SqlNormal {
  import opened Sequences
  import opened SqlTokens
  import opened SqlParser

  // ---- A character machine that knows nothing of comments ----

  datatype Machine = Machine(done: seq<string>, current: string, quoted: bool)

  const START := Machine([], "", false)

  function Step(m: Machine, c: char): Machine {
    if m.quoted || c == '\'' then Machine(m.done, m.current + [c], m.quoted != (c == '\''))
    else if IsSpace(c) then m.(current := PushSpace(m.current))
    else if c == ')' then m.(current := DropSpace(m.current) + ")")
    else if c == ';' then Machine(m.done + Flush(m.current), "", false)
    else m.(current := m.current + [c])
  }

  function Run(s: string, m: Machine): Machine {
    if s == "" then m else Run(s[1..], Step(m, s[0]))
  }

  function Finish(m: Machine): seq<string> { m.done + Flush(m.current) }

  function StripTokens(toks: seq<Token>): string {
    if toks == [] then ""
    else (if toks[0].IsComment() then "" else toks[0].Text()) + StripTokens(toks[1..])
  }

  /** The script with its comments deleted and nothing put in their place. */
  function Strip(s: string): string { StripTokens(Tokenise(s)) }

  ghost predicate CommentFree(s: string) {
    forall t <- Tokenise(s) :: !t.IsComment()
  }

  lemma {:induction false} RunAppend(a: string, b: string, m: Machine)
    ensures Run(a + b, m) == Run(b, Run(a, m))
  {
    if a == "" {
      assert a + b == b;
    } else {
      assert (a + b)[1..] == a[1..] + b;
      RunAppend(a[1..], b, Step(m, a[0]));
    }
  }

  lemma RunSnoc(x: string, c: char, m: Machine)
    ensures Run(x + [c], m) == Step(Run(x, m), c)
  {
    RunAppend(x, [c], m);
    assert [c][1..] == "";
  }

  lemma TailOfTake(s: string, k: nat, n: nat)
    requires k <= n <= |s|
    ensures s[..n][k..] == s[k..][..n - k]
    ensures k == 2 ==> s[..n][1..][1..] == s[..n][2..]
  {
  }

  lemma {:induction false} RunLiteralBody(s: string, m: Machine)
    requires m.quoted
    ensures Run(s[..LiteralLen(s)], m) == Machine(m.done, m.current + s[..LiteralLen(s)], !LiteralCloses(s))
  {
    hide Flush, IsSpace, PushSpace, DropSpace;
    var body := s[..LiteralLen(s)];
    if s == "" {
      assert m.current + "" == m.current;
    } else if DoubledQuote(s) {
      var m2 := Step(Step(m, s[0]), s[1]);
      TailOfTake(s, 2, LiteralLen(s));
      RunLiteralBody(s[2..], m2);
      assert m2.current + body[2..] == m.current + body;
    } else if s[0] == '\'' {
      assert body == [s[0]] && body[1..] == "";
    } else {
      TailOfTake(s, 1, LiteralLen(s));
      RunLiteralBody(s[1..], Step(m, s[0]));
      assert Step(m, s[0]).current + body[1..] == m.current + body;
    }
  }

  lemma RunToken(s: string, m: Machine)
    requires s != "" && !m.quoted && !First(s).IsComment()
    ensures
      var t := First(s);
      Run(t.Text(), m) ==
        if t.Semi? then Machine(m.done + Flush(m.current), "", false)
        else Machine(m.done, Emit(m.current, t), t.Literal? && !t.closed)
  {
    var t := First(s);
    if t.Literal? {
      RunLiteralBody(s[1..], Step(m, s[0]));
      TailOfTake(s, 1, FirstLen(s));
      assert Step(m, s[0]).current + t.text[1..] == m.current + t.text;
    } else {
      assert t.Text() == [s[0]] && t.Text()[1..] == "";
    }
  }

  lemma {:induction false} ScanIsRun(s: string, m: Machine)
    requires !m.quoted
    ensures m.done + Scan(Tokenise(s), m.current) == Finish(Run(Strip(s), m))
  {
    if s != "" {
      var t, rest := First(s), s[FirstLen(s)..];
      assert Tokenise(s)[1..] == Tokenise(rest);
      if t.IsComment() {
        assert Strip(s) == Strip(rest);
        ScanIsRun(rest, m);
      } else {
        RunToken(s, m);
        RunAppend(t.Text(), Strip(rest), m);
        if t.Literal? && !t.closed {
          LiteralEnd(s[1..]);
          assert rest == "";
        } else {
          ScanIsRun(rest, Run(t.Text(), m));
          Associate(m.done, Flush(m.current), Scan(Tokenise(rest), ""));
        }
      }
    }
  }

  /** Comments vanish: a script parses as its comment-stripped text does on the comment-blind machine. */
  lemma CommentsVanish(s: string)
    ensures Parse(s) == Finish(Run(Strip(s), START))
  {
    ScanIsRun(s, START);
    ScanMeansParse(s);
  }

  lemma CommentFreeCons(s: string)
    requires s != ""
    ensures CommentFree(s) <==> !First(s).IsComment() && CommentFree(s[FirstLen(s)..])
  {
    assert Tokenise(s) == [First(s)] + Tokenise(s[FirstLen(s)..]);
    assert First(s) in Tokenise(s);
  }

  lemma StripCons(s: string)
    requires s != ""
    ensures Strip(s) == (if First(s).IsComment() then "" else First(s).Text()) + Strip(s[FirstLen(s)..])
    ensures s == First(s).Text() + s[FirstLen(s)..] && First(s).Text() != ""
  {
    hide FirstLen, First;
    assert Tokenise(s)[1..] == Tokenise(s[FirstLen(s)..]);
  }

  lemma {:induction false} StripLength(s: string)
    ensures |Strip(s)| <= |s|
    ensures if CommentFree(s) then Strip(s) == s else |Strip(s)| < |s|
  {
    hide FirstLen, First, CommentFree, Strip;
    if s == "" {
      NothingToStrip();
    } else {
      StripCons(s);
      CommentFreeCons(s);
      StripLength(s[FirstLen(s)..]);
    }
  }

  lemma NothingToStrip()
    ensures Strip("") == "" && CommentFree("")
  {
  }

  // ---- Texts the machine leaves as they are ----

  ghost predicate Stable(text: string, quoted: bool) {
    Run(text, START) == Machine([], text, quoted)
  }

  /** The characters the machine holds, a separator for each finished statement included. */
  ghost function Size(m: Machine): nat { |Flatten(m.done)| + |m.done| + |m.current| }

  lemma {:induction false} FlattenAppend(a: seq<string>, b: seq<string>)
    ensures Flatten(a + b) == Flatten(a) + Flatten(b)
  {
    if a == [] {
      assert a + b == b;
    } else {
      assert (a + b)[1..] == a[1..] + b;
      FlattenAppend(a[1..], b);
    }
  }

  lemma {:induction false} TrimStartLength(s: string)
    ensures |TrimStart(s)| <= |s|
  {
    if s != "" { TrimStartLength(s[1..]); }
  }

  lemma FlushLength(current: string)
    ensures |Flatten(Flush(current))| <= |current| && |Flush(current)| <= 1
  {
    TrimStartLength(current);
    var trimmed := TrimEnd(TrimStart(current));
    assert Flatten([trimmed]) == trimmed + Flatten([]);
  }

  lemma {:induction false} RunSize(s: string, m: Machine)
    ensures Size(Run(s, m)) <= Size(m) + |s|
  {
    if s != "" {
      FlushLength(m.current);
      FlattenAppend(m.done, Flush(m.current));
      RunSize(s[1..], Step(m, s[0]));
    }
  }

  lemma StablePrefix(x: string, c: char, quoted: bool)
    requires Stable(x + [c], quoted)
    ensures var before := Run(x, START).quoted;
            Stable(x, before) && Step(Machine([], x, before), c) == Machine([], x + [c], quoted)
  {
    var m := Run(x, START);
    RunSnoc(x, c, START);
    RunSize(x, START);
    var text := x + [c];
    assert text[..|text| - 1] == x;
    assert (m.current + [c])[..|m.current|] == m.current;
    assert (m.current + " ")[..|m.current|] == m.current;
    assert (DropSpace(m.current) + ")")[..|DropSpace(m.current)|] == DropSpace(m.current);
    assert m.done == [];
  }

  lemma {:induction false} StableStart(text: string, quoted: bool)
    requires Stable(text, quoted) && text != ""
    ensures !IsSpace(text[0])
    decreases |text|
  {
    var x, c := text[..|text| - 1], text[|text| - 1];
    assert text == x + [c];
    StablePrefix(x, c, quoted);
    if x != "" {
      StableStart(x, Run(x, START).quoted);
    }
  }

  lemma StableStep(m: Machine, c: char)
    requires Stable(m.current, m.quoted)
    ensures Stable(Step(m, c).current, Step(m, c).quoted)
  {
    var text := m.current;
    RunSnoc(text, c, START);
    RunSnoc(text, ' ', START);
    if !m.quoted && c == ')' && text != "" && text[|text| - 1] == ' ' {
      var x := text[..|text| - 1];
      assert text == x + " ";
      StablePrefix(x, ' ', false);
      RunSnoc(x, ')', START);
      assert PushSpace(x) == x + " ";
    }
  }

  ghost predicate Final(st: string, quoted: bool) {
    st != "" && !IsSpace(st[|st| - 1]) && Stable(st, quoted)
  }

  lemma {:induction false} TrimEndStable(text: string, quoted: bool)
    requires Stable(text, quoted)
    ensures Stable(TrimEnd(text), quoted)
    decreases |text|
  {
    if text != "" && IsSpace(text[|text| - 1]) {
      var x, c := text[..|text| - 1], text[|text| - 1];
      assert text == x + [c];
      StablePrefix(x, c, quoted);
      TrimEndStable(x, quoted);
    }
  }

  lemma FlushFinal(text: string, quoted: bool)
    requires Stable(text, quoted)
    ensures Flush(text) == [] || (Flush(text) == [TrimEnd(text)] && Final(TrimEnd(text), quoted))
  {
    if text != "" { StableStart(text, quoted); }
    TrimEndStable(text, quoted);
  }

  lemma FinalFixed(st: string, quoted: bool)
    requires Final(st, quoted)
    ensures Flush(st) == [st]
  {
    StableStart(st, quoted);
  }

  ghost predicate Settled(m: Machine) {
    Stable(m.current, m.quoted) && forall st <- m.done :: Final(st, false)
  }

  lemma {:induction false} RunSettled(s: string, m: Machine)
    requires Settled(m)
    ensures Settled(Run(s, m))
  {
    if s != "" {
      StableStep(m, s[0]);
      FlushFinal(m.current, m.quoted);
      RunSettled(s[1..], Step(m, s[0]));
    }
  }

  /** Every statement of a script is final; only the last can stop inside a literal. */
  lemma OutputsFinal(s: string)
    ensures
      var out, open := Parse(s), Run(Strip(s), START).quoted;
      forall k | 0 <= k < |out| :: Final(out[k], k == |out| - 1 && open) || Final(out[k], false)
    ensures
      var out := Parse(s);
      forall k | 0 <= k < |out| - 1 :: Final(out[k], false)
  {
    CommentsVanish(s);
    var m := Run(Strip(s), START);
    RunSettled(Strip(s), START);
    FlushFinal(m.current, m.quoted);
  }

  lemma FinalIff(st: string, quoted: bool)
    requires Final(st, quoted)
    ensures Parse(st) == [st] <==> CommentFree(st)
  {
    CommentsVanish(st);
    StripLength(st);
    if CommentFree(st) {
      FinalFixed(st, quoted);
    } else {
      RunSize(Strip(st), START);
      var m := Run(Strip(st), START);
      FlattenAppend(m.done, Flush(m.current));
      FlushLength(m.current);
      assert Flatten([st]) == st + Flatten([]);
    }
  }

  /** An output statement is its own parse if and only if no comment opens in it. */
  lemma IdempotentIff(s: string)
    ensures forall st <- Parse(s) :: Parse(st) == [st] <==> CommentFree(st)
  {
    hide Parse, Final;
    OutputsFinal(s);
    forall st <- Parse(s) ensures Parse(st) == [st] <==> CommentFree(st) {
      var k :| 0 <= k < |Parse(s)| && Parse(s)[k] == st;
      FinalIff(st, !Final(st, false));
    }
  }

  // ---- Comment-free scripts ----

  predicate Opens(a: char, b: char) { (a == '-' && b == '-') || (a == '/' && b == '*') }

  /** No two adjacent characters outside quotes open a comment. */
  predicate NothingOpens(s: string, quoted: bool) {
    s == "" ||
    var after := quoted != (s[0] == '\'');
    (|s| >= 2 && Opens(s[0], s[1]) ==> after) && NothingOpens(s[1..], after)
  }

  function QuotedAfter(s: string, quoted: bool): bool {
    if s == "" then quoted else QuotedAfter(s[1..], quoted != (s[0] == '\''))
  }

  lemma {:induction false} RunQuoted(s: string, m: Machine)
    ensures Run(s, m).quoted == QuotedAfter(s, m.quoted)
  {
    if s != "" { RunQuoted(s[1..], Step(m, s[0])); }
  }

  lemma {:induction false} LiteralOpensNothing(s: string)
    ensures NothingOpens(s, true) <==> NothingOpens(s[LiteralLen(s)..], !LiteralCloses(s))
  {
    if s != "" {
      if DoubledQuote(s) {
        assert s[1..][1..] == s[2..];
        LiteralOpensNothing(s[2..]);
        assert s[2..][LiteralLen(s[2..])..] == s[LiteralLen(s)..];
      } else if s[0] != '\'' {
        LiteralOpensNothing(s[1..]);
        assert s[1..][LiteralLen(s[1..])..] == s[LiteralLen(s)..];
      }
    }
  }

  /** Being free of comment tokens is a property of adjacent characters. */
  lemma {:induction false} CommentFreeIff(s: string)
    ensures CommentFree(s) <==> NothingOpens(s, false)
  {
    if s != "" {
      var t, rest := First(s), s[FirstLen(s)..];
      CommentFreeCons(s);
      CommentFreeIff(rest);
      if t.Literal? {
        LiteralOpensNothing(s[1..]);
        LiteralEnd(s[1..]);
        assert s[1..][LiteralLen(s[1..])..] == rest;
      }
    }
  }

  lemma {:induction false} NothingOpensSnoc(x: string, c: char, quoted: bool)
    ensures NothingOpens(x + [c], quoted) <==>
            NothingOpens(x, quoted) && (x != "" && Opens(x[|x| - 1], c) ==> QuotedAfter(x, quoted))
  {
    var text := x + [c];
    if x == "" {
      assert text[1..] == "";
    } else {
      assert text[1..] == x[1..] + [c];
      NothingOpensSnoc(x[1..], c, quoted != (x[0] == '\''));
    }
  }

  lemma {:induction false} NothingOpensPrefix(s: string, k: nat, quoted: bool)
    requires k <= |s| && NothingOpens(s, quoted)
    ensures NothingOpens(s[..k], quoted)
    decreases |s| - k
  {
    if k < |s| {
      NothingOpensPrefix(s, k + 1, quoted);
      assert s[..k + 1] == s[..k] + [s[k]];
      NothingOpensSnoc(s[..k], s[k], quoted);
    } else {
      assert s[..k] == s;
    }
  }

  /** The machine's last collected character is the last one read, or a space or '('. */
  ghost predicate Tracks(m: Machine, read: string) {
    m.current == "" || m.current[|m.current| - 1] in {' ', '('} ||
    (read != "" && m.current[|m.current| - 1] == read[|read| - 1])
  }

  ghost predicate Quiet(m: Machine) {
    NothingOpens(m.current, false) && forall st <- m.done :: NothingOpens(st, false)
  }

  lemma QuietDropSpace(text: string)
    requires NothingOpens(text, false)
    ensures NothingOpens(DropSpace(text) + ")", false)
  {
    NothingOpensPrefix(text, |DropSpace(text)|, false);
    assert text[..|DropSpace(text)|] == DropSpace(text);
    NothingOpensSnoc(DropSpace(text), ')', false);
  }

  lemma QuietFlush(text: string, quoted: bool)
    requires Stable(text, quoted) && NothingOpens(text, false)
    ensures forall st <- Flush(text) :: NothingOpens(st, false)
  {
    FlushFinal(text, quoted);
    NothingOpensPrefix(text, |TrimEnd(text)|, false);
    assert text[..|TrimEnd(text)|] == TrimEnd(text);
  }

  lemma QuietStep(m: Machine, read: string, c: char)
    requires Settled(m) && Quiet(m) && Tracks(m, read)
    requires read != "" && Opens(read[|read| - 1], c) ==> m.quoted
    ensures Quiet(Step(m, c)) && Tracks(Step(m, c), read + [c])
  {
    var text := m.current;
    if !m.quoted && c == ')' {
      QuietDropSpace(text);
    } else if !m.quoted && c == ';' {
      QuietFlush(text, false);
    } else if !m.quoted && IsSpace(c) {
      NothingOpensSnoc(text, ' ', false);
    } else {
      RunQuoted(text, START);
      NothingOpensSnoc(text, c, false);
    }
  }

  lemma QuietStart()
    ensures Quiet(START) && Tracks(START, "") && Run("", START) == START
  {
  }

  lemma {:induction false} RunQuiet(s: string)
    requires NothingOpens(s, false)
    ensures Quiet(Run(s, START)) && Tracks(Run(s, START), s)
    decreases |s|
  {
    hide Run, Step, NothingOpens, QuotedAfter, Settled, Quiet, Tracks, Flush;
    QuietStart();
    if s != "" {
      var x, c := s[..|s| - 1], s[|s| - 1];
      assert s == x + [c];
      NothingOpensSnoc(x, c, false);
      RunQuiet(x);
      SettledStart();
      RunSettled(x, START);
      RunQuoted(x, START);
      RunSnoc(x, c, START);
      QuietStep(Run(x, START), x, c);
    }
  }

  lemma SettledStart()
    ensures Settled(START)
  {
  }

  /** No comment can be opened by what deleting the comments puts together. */
  predicate Unglued(s: string) { NothingOpens(Strip(s), false) }

  lemma OutputsCommentFree(s: string)
    requires Unglued(s)
    ensures forall st <- Parse(s) :: CommentFree(st)
  {
    CommentsVanish(s);
    var m := Run(Strip(s), START);
    RunQuiet(Strip(s));
    RunSettled(Strip(s), START);
    QuietFlush(m.current, m.quoted);
    forall st <- Parse(s) ensures CommentFree(st) { CommentFreeIff(st); }
  }

  lemma CommentFreeUnglued(s: string)
    requires CommentFree(s)
    ensures Unglued(s)
  {
    StripLength(s);
    CommentFreeIff(s);
  }

  /** Parsing again leaves every statement of the script as it is. */
  ghost predicate Idempotent(s: string) { forall st <- Parse(s) :: Parse(st) == [st] }

  /** Such a script is normalised for good: each statement parses to itself. */
  lemma NormalForm(s: string)
    requires Unglued(s)
    ensures Idempotent(s)
  {
    OutputsCommentFree(s);
    IdempotentIff(s);
  }

  // ---- A comment put together stays ----

  /** A pair that opens a comment has been collected. */
  ghost predicate Noisy(m: Machine) {
    !NothingOpens(m.current, false) || exists st <- m.done :: !NothingOpens(st, false)
  }

  lemma {:induction false} TrimEndNoisy(text: string)
    requires !NothingOpens(text, false)
    ensures !NothingOpens(TrimEnd(text), false)
    decreases |text|
  {
    if text != "" && IsSpace(text[|text| - 1]) {
      var x, c := text[..|text| - 1], text[|text| - 1];
      assert text == x + [c];
      NothingOpensSnoc(x, c, false);
      TrimEndNoisy(x);
    }
  }

  lemma FlushNoisy(text: string, quoted: bool)
    requires Stable(text, quoted) && !NothingOpens(text, false)
    ensures Flush(text) == [TrimEnd(text)] && !NothingOpens(TrimEnd(text), false)
  {
    TrimEndNoisy(text);
    StableStart(text, quoted);
    assert TrimStart(text) == text;
  }

  lemma DropSpaceNoisy(text: string)
    requires !NothingOpens(text, false)
    ensures !NothingOpens(DropSpace(text) + ")", false)
  {
    var kept := DropSpace(text);
    if kept != text {
      assert text == kept + " ";
      NothingOpensSnoc(kept, ' ', false);
    }
    NothingOpensSnoc(kept, ')', false);
  }

  lemma NoisyStep(m: Machine, c: char)
    requires Settled(m) && Noisy(m)
    ensures Noisy(Step(m, c))
  {
    var text := m.current;
    if NothingOpens(text, false) {
      var st :| st in m.done && !NothingOpens(st, false);
      assert st in Step(m, c).done;
    } else if !m.quoted && c == ')' {
      DropSpaceNoisy(text);
    } else if !m.quoted && c == ';' {
      FlushNoisy(text, false);
      assert TrimEnd(text) in Step(m, c).done;
    } else {
      NothingOpensSnoc(text, c, false);
      NothingOpensSnoc(text, ' ', false);
    }
  }

  /** The second character of such a pair finds the first one last in what is collected. */
  lemma PairCollected(x: string, c: char)
    requires x != "" && Opens(x[|x| - 1], c) && !QuotedAfter(x, false)
    ensures Noisy(Step(Run(x, START), c))
  {
    var m := Run(x, START);
    LastCollected(x);
    RunSettled(x, START);
    RunQuoted(x, START);
    RunQuoted(m.current, START);
    assert m.quoted == QuotedAfter(m.current, false) == false;
    assert Step(m, c).current == m.current + [c];
    hide Run, Step, Settled, QuotedAfter;
    NothingOpensSnoc(m.current, c, false);
  }

  lemma LastCollected(x: string)
    requires x != "" && x[|x| - 1] in {'-', '/'}
    ensures Run(x, START).current != "" && LastChar(Run(x, START).current) == x[|x| - 1]
  {
    var y, a := x[..|x| - 1], x[|x| - 1];
    assert x == y + [a];
    RunSnoc(y, a, START);
    StepAppends(Run(y, START), a);
    hide Step, Run;
    assert Run(x, START).current == Run(y, START).current + [a];
  }

  lemma StepAppends(m: Machine, a: char)
    requires a in {'-', '/'}
    ensures Step(m, a).current == m.current + [a]
  {
  }

  lemma {:induction false} RunNoisy(s: string)
    requires !NothingOpens(s, false)
    ensures Noisy(Run(s, START))
    decreases |s|
  {
    var x, c := s[..|s| - 1], s[|s| - 1];
    assert s == x + [c];
    NothingOpensSnoc(x, c, false);
    RunSnoc(x, c, START);
    if NothingOpens(x, false) {
      PairCollected(x, c);
    } else {
      RunNoisy(x);
      RunSettled(x, START);
      NoisyStep(Run(x, START), c);
    }
  }

  lemma SomeOutputOpens(s: string) returns (st: string)
    requires !Unglued(s)
    ensures st in Parse(s) && !CommentFree(st)
  {
    var m := Run(Strip(s), START);
    CommentsVanish(s);
    RunNoisy(Strip(s));
    RunSettled(Strip(s), START);
    if NothingOpens(m.current, false) {
      st :| st in m.done && !NothingOpens(st, false);
    } else {
      FlushNoisy(m.current, m.quoted);
      st := TrimEnd(m.current);
    }
    CommentFreeIff(st);
  }

  /** Parsing a script's output again changes nothing if and only if deleting its comments puts no
      two characters together that open a new one. */
  lemma IdempotentScriptIff(s: string)
    ensures Idempotent(s) <==> Unglued(s)
  {
    if Unglued(s) {
      NormalForm(s);
    } else {
      var st := SomeOutputOpens(s);
      IdempotentIff(s);
    }
  }

  // ---- Writing the statements back ----

  function Join(sts: seq<string>): string {
    if sts == [] then ""
    else if |sts| == 1 then sts[0]
    else sts[0] + ";" + Join(sts[1..])
  }

  lemma {:induction false} RunShift(s: string, m: Machine, done: seq<string>)
    ensures Run(s, m.(done := done + m.done)) == Run(s, m).(done := done + Run(s, m).done)
  {
    if s != "" {
      assert done + (m.done + Flush(m.current)) == done + m.done + Flush(m.current);
      RunShift(s[1..], Step(m, s[0]), done);
    }
  }

  lemma {:induction false} NothingOpensJoin(a: string, b: string)
    requires NothingOpens(a, false) && NothingOpens(b, false) && !QuotedAfter(a, false)
    ensures NothingOpens(a + ";" + b, false)
  {
    NothingOpensTail(a, b, false);
  }

  lemma {:induction false} NothingOpensTail(a: string, b: string, quoted: bool)
    requires NothingOpens(a, quoted) && NothingOpens(b, false) && !QuotedAfter(a, quoted)
    ensures NothingOpens(a + ";" + b, quoted)
  {
    var text := a + ";" + b;
    if a == "" {
      assert text[1..] == b;
    } else {
      assert text[1..] == a[1..] + ";" + b;
      NothingOpensTail(a[1..], b, quoted != (a[0] == '\''));
    }
  }

  ghost predicate Joinable(sts: seq<string>) {
    && (forall k | 0 <= k < |sts| :: NothingOpens(sts[k], false) && (Final(sts[k], false) || Final(sts[k], true)))
    && (forall k | 0 <= k < |sts| - 1 :: Final(sts[k], false))
  }

  lemma JoinStep(st: string, rest: string)
    requires Final(st, false) && NothingOpens(st, false) && NothingOpens(rest, false)
    ensures Finish(Run(st + ";" + rest, START)) == [st] + Finish(Run(rest, START))
    ensures NothingOpens(st + ";" + rest, false)
  {
    FinalFixed(st, false);
    RunQuoted(st, START);
    NothingOpensJoin(st, rest);
    RunAppend(st + ";", rest, START);
    RunSnoc(st, ';', START);
    RunShift(rest, START, [st]);
    assert [] + [st] == [st] + [];
    Associate([st], Run(rest, START).done, Flush(Run(rest, START).current));
  }

  lemma JoinNothing()
    ensures Finish(Run("", START)) == [] && NothingOpens("", false)
  {
  }

  lemma JoinLast(st: string)
    requires NothingOpens(st, false) && (Final(st, false) || Final(st, true))
    ensures Finish(Run(st, START)) == [st]
  {
    FinalFixed(st, !Final(st, false));
  }

  lemma {:induction false} JoinRun(sts: seq<string>)
    requires Joinable(sts)
    ensures Finish(Run(Join(sts), START)) == sts && NothingOpens(Join(sts), false)
  {
    hide Final, NothingOpens, Run, Finish;
    if sts == [] {
      JoinNothing();
    } else if |sts| == 1 {
      JoinLast(sts[0]);
    } else {
      assert Joinable(sts[1..]);
      JoinRun(sts[1..]);
      JoinStep(sts[0], Join(sts[1..]));
      assert sts == [sts[0]] + sts[1..];
    }
  }

  lemma OutputsJoinable(s: string)
    requires Unglued(s)
    ensures Joinable(Parse(s))
  {
    var out := Parse(s);
    OutputsFinal(s);
    OutputsCommentFree(s);
    forall k | 0 <= k < |out| ensures NothingOpens(out[k], false) {
      assert out[k] in out;
      CommentFreeIff(out[k]);
    }
  }

  lemma {:induction false} JoinLength(sts: seq<string>)
    requires sts != []
    ensures |Join(sts)| == |Flatten(sts)| + |sts| - 1
  {
    if |sts| == 1 {
      assert sts[1..] == [];
    } else {
      JoinLength(sts[1..]);
    }
  }

  /** A pair that opens a comment opens it in the joined text too: what precedes it is closed. */
  lemma {:induction false} JoinOpens(sts: seq<string>, k: nat)
    requires k < |sts| && !NothingOpens(sts[k], false)
    requires forall j | 0 <= j < |sts| - 1 :: Final(sts[j], false)
    ensures !NothingOpens(Join(sts), false)
  {
    if |sts| > 1 {
      if k > 0 { JoinOpens(sts[1..], k - 1); }
      RunQuoted(sts[0], START);
      OpensInJoin(sts[0], Join(sts[1..]), false);
    }
  }

  lemma {:induction false} OpensInJoin(a: string, b: string, quoted: bool)
    requires !QuotedAfter(a, quoted) && (!NothingOpens(a, quoted) || !NothingOpens(b, false))
    ensures !NothingOpens(a + ";" + b, quoted)
  {
    var text := a + ";" + b;
    if a == "" {
      assert text[1..] == b;
    } else {
      var rest := a[1..];
      assert text[1..] == rest + ";" + b;
      var after := quoted != (a[0] == '\'');
      if !NothingOpens(rest, after) || !NothingOpens(b, false) {
        OpensInJoin(rest, b, after);
      }
    }
  }

  /** Whatever a script parses to has at least a character less than what its own text would need,
      if a comment is in it. */
  lemma CommentShortens(s: string, sts: seq<string>)
    requires sts != [] && s == Join(sts) && !CommentFree(s)
    ensures Parse(s) != sts
  {
    var m := Run(Strip(s), START);
    StripLength(s);
    CommentsVanish(s);
    RunSize(Strip(s), START);
    FlushLength(m.current);
    FlattenAppend(m.done, Flush(m.current));
    JoinLength(sts);
  }

  /** The statements of a script, joined by separators, parse back to themselves if and only if
      deleting its comments puts no two characters together that open a new one. */
  lemma JoinRoundTripIff(s: string)
    ensures Parse(Join(Parse(s))) == Parse(s) <==> Unglued(s)
  {
    var out := Parse(s);
    if Unglued(s) {
      OutputsJoinable(s);
      JoinRun(out);
      CommentFreeIff(Join(out));
      StripLength(Join(out));
      CommentsVanish(Join(out));
    } else {
      OutputsFinal(s);
      var st := SomeOutputOpens(s);
      CommentFreeIff(st);
      var k :| 0 <= k < |out| && out[k] == st;
      JoinOpens(out, k);
      CommentFreeIff(Join(out));
      CommentShortens(Join(out), out);
    }
  }
}
