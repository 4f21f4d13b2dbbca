/** Splitting a command line into arguments without a shell, and the policy on the result.
    The input is the sequence of characters the program decodes from the string. */
module Tokenizer {
  import opened Domain
  import Text

  datatype Quote = NoQuote | InSingle | InDouble

  /** The loop's variables: `started` says a word has begun, even if it is still empty. */
  datatype State = State(argv: seq<string>, cur: string, started: bool, quote: Quote, esc: bool)
  {
    predicate Plain() { quote.NoQuote? && !esc }
  }

  const Start := State([], "", false, NoQuote, false)

  predicate Blank(c: char) {
    c == ' ' || c == '\t'
  }

  predicate Meta(c: char) {
    c in "|&;<>()`$*?[]{}~\n\r#"
  }

  // ---------- specification: the automaton ----------

  function Flush(st: State): State {
    if st.started then st.(argv := st.argv + [st.cur], cur := "", started := false) else st
  }

  function Push(st: State, c: char): State {
    st.(cur := st.cur + [c])
  }

  function Step(st: State, c: char): Option<State> {
    if st.esc then Some(Push(st, c).(esc := false))
    else if st.quote.InSingle? then Some(if c == '\'' then st.(quote := NoQuote) else Push(st, c))
    else if st.quote.InDouble? then
      if c == '\"' then Some(st.(quote := NoQuote))
      else if c == '\\' then Some(st.(esc := true))
      else if c == '$' || c == '`' then None
      else Some(Push(st, c))
    else if c == '\'' then Some(st.(quote := InSingle, started := true))
    else if c == '\"' then Some(st.(quote := InDouble, started := true))
    else if c == '\\' then Some(st.(esc := true, started := true))
    else if Blank(c) then Some(Flush(st))
    else if Meta(c) then None
    else Some(Push(st, c).(started := true))
  }

  function Steps(st: State, s: string): Option<State> {
    if s == "" then Some(st)
    else
      var before := Steps(st, s[..|s| - 1]);
      if before.None? then None else Step(before.value, s[|s| - 1])
  }

  /** The arguments of a command line; None if it is rejected. */
  function Split(s: string): Option<seq<string>> {
    var end := Steps(Start, s);
    if end.None? || !end.value.Plain() || Flush(end.value).argv == [] then None
    else Some(Flush(end.value).argv)
  }

  // ---------- the program ----------

  method SplitWords(s: string) returns (r: Option<seq<string>>)
    ensures r == Split(s)
  {
    var argv: seq<string>, cur, started, quote, esc := [], "", false, NoQuote, false;
    for i := 0 to |s|
      invariant Steps(Start, s[..i]) == Some(State(argv, cur, started, quote, esc))
    {
      var c := s[i];
      assert s[..i + 1][..i] == s[..i];
      if esc {
        cur, esc := cur + [c], false;
      } else if quote == InSingle {
        if c == '\'' { quote := NoQuote; } else { cur := cur + [c]; }
      } else if quote == InDouble {
        if c == '\"' {
          quote := NoQuote;
        } else if c == '\\' {
          esc := true;
        } else if c == '$' || c == '`' {
          Rejected(s, i + 1);
          return None;
        } else {
          cur := cur + [c];
        }
      } else if c == '\'' || c == '\"' {
        quote, started := if c == '\'' then InSingle else InDouble, true;
      } else if c == '\\' {
        esc, started := true, true;
      } else if c == ' ' || c == '\t' {
        if started { argv, cur, started := argv + [cur], "", false; }
      } else if c in "|&;<>()`$*?[]{}~\n\r#" {
        Rejected(s, i + 1);
        return None;
      } else {
        cur, started := cur + [c], true;
      }
    }
    assert s[..|s|] == s;
    if quote != NoQuote || esc { return None; }
    if started { argv := argv + [cur]; }
    if argv == [] { return None; }
    return Some(argv);
  }

  lemma {:induction false} StepsConcat(st: State, a: string, b: string)
    ensures Steps(st, a + b) == if Steps(st, a).None? then None else Steps(Steps(st, a).value, b)
    decreases |b|
  {
    if b == "" {
      assert a + b == a;
    } else {
      var n := |b| - 1;
      assert (a + b)[..|a + b| - 1] == a + b[..n];
      StepsConcat(st, a, b[..n]);
    }
  }

  lemma Rejected(s: string, n: nat)
    requires n <= |s| && Steps(Start, s[..n]).None?
    ensures Split(s).None?
  {
    assert s == s[..n] + s[n..];
    StepsConcat(Start, s[..n], s[n..]);
  }

  // ---------- the language it accepts ----------

  datatype Part = Raw(c: char) | Escaped(c: char)

  /** One piece of a command line. */
  datatype Lexeme =
    | Space(c: char)
    | Bare(c: char)
    | Backslash(c: char)
    | Single(body: string)
    | Double(parts: seq<Part>)

  predicate ValidPart(p: Part) {
    p.Escaped? || p.c !in "\"\\$`"
  }

  predicate Valid(l: Lexeme) {
    match l
    case Space(c) => Blank(c)
    case Bare(c) => !Blank(c) && !Meta(c) && c != '\'' && c != '\"' && c != '\\'
    case Backslash(_) => true
    case Single(body) => '\'' !in body
    case Double(parts) => forall p | p in parts :: ValidPart(p)
  }

  function PartsText(parts: seq<Part>): string {
    if parts == [] then ""
    else
      var p := parts[|parts| - 1];
      PartsText(parts[..|parts| - 1]) + if p.Raw? then [p.c] else ['\\', p.c]
  }

  function PartsValue(parts: seq<Part>): string {
    if parts == [] then "" else PartsValue(parts[..|parts| - 1]) + [parts[|parts| - 1].c]
  }

  function LexemeText(l: Lexeme): string {
    match l
    case Space(c) => [c]
    case Bare(c) => [c]
    case Backslash(c) => ['\\', c]
    case Single(body) => "'" + body + "'"
    case Double(parts) => "\"" + PartsText(parts) + "\""
  }

  function LexemeValue(l: Lexeme): string {
    match l
    case Space(_) => ""
    case Bare(c) => [c]
    case Backslash(c) => [c]
    case Single(body) => body
    case Double(parts) => PartsValue(parts)
  }

  /** How the source text of a command line is written down. */
  function LineText(ls: seq<Lexeme>): string {
    if ls == [] then "" else LineText(ls[..|ls| - 1]) + LexemeText(ls[|ls| - 1])
  }

  /** What it means: adjacent pieces form one word, blanks separate words. */
  function Read(ls: seq<Lexeme>): State {
    if ls == [] then Start
    else
      var before, l := Read(ls[..|ls| - 1]), ls[|ls| - 1];
      if l.Space? then Flush(before)
      else before.(cur := before.cur + LexemeValue(l), started := true)
  }

  function Words(ls: seq<Lexeme>): seq<string> {
    Flush(Read(ls)).argv
  }

  ghost predicate Renders(ls: seq<Lexeme>, s: string, argv: seq<string>) {
    (forall l | l in ls :: Valid(l)) && LineText(ls) == s && Words(ls) == argv
  }

  lemma {:induction false} ReadPlain(ls: seq<Lexeme>)
    ensures Read(ls).Plain()
  {
    if ls != [] { ReadPlain(ls[..|ls| - 1]); }
  }

  lemma {:induction false} SingleBody(st: State, body: string)
    requires st.quote.InSingle? && !st.esc && '\'' !in body
    ensures Steps(st, body) == Some(st.(cur := st.cur + body))
  {
    if body != "" {
      var n := |body| - 1;
      SingleBody(st, body[..n]);
      assert st.cur + body == st.cur + body[..n] + [body[n]];
    } else {
      assert st.cur + body == st.cur;
    }
  }

  lemma {:induction false} DoubleBody(st: State, parts: seq<Part>)
    requires st.quote.InDouble? && !st.esc && forall p | p in parts :: ValidPart(p)
    ensures Steps(st, PartsText(parts)) == Some(st.(cur := st.cur + PartsValue(parts)))
  {
    if parts == [] {
      assert st.cur + PartsValue(parts) == st.cur;
    } else {
      var n := |parts| - 1;
      var before, p := PartsText(parts[..n]), parts[n];
      assert st.cur + PartsValue(parts) == st.cur + PartsValue(parts[..n]) + [p.c];
      DoubleBody(st, parts[..n]);
      assert p in parts;
      if p.Raw? {
        StepsConcat(st, before, [p.c]);
        OneStep(st.(cur := st.cur + PartsValue(parts[..n])), p.c);
      } else {
        StepsConcat(st, before, ['\\', p.c]);
        TwoSteps(st.(cur := st.cur + PartsValue(parts[..n])), '\\', p.c);
      }
    }
  }

  lemma OneStep(st: State, c: char)
    ensures Steps(st, [c]) == Step(st, c)
  {
    assert [c][..0] == "";
  }

  lemma TwoSteps(st: State, c: char, d: char)
    ensures Steps(st, [c, d]) == if Step(st, c).None? then None else Step(Step(st, c).value, d)
  {
    assert [c, d][..1] == [c];
    OneStep(st, c);
  }

  lemma Enclosed(st: State, open: char, body: string, close: char)
    ensures Steps(st, [open] + body + [close])
            == var inside := Step(st, open);
               if inside.None? then None
               else
                 var end := Steps(inside.value, body);
                 if end.None? then None else Step(end.value, close)
  {
    StepsConcat(st, [open] + body, [close]);
    StepsConcat(st, [open], body);
    OneStep(st, open);
    if Steps(st, [open] + body).Some? { OneStep(Steps(st, [open] + body).value, close); }
  }

  lemma ReadsLexeme(st: State, l: Lexeme)
    requires st.Plain() && Valid(l)
    ensures Steps(st, LexemeText(l))
            == Some(if l.Space? then Flush(st) else st.(cur := st.cur + LexemeValue(l), started := true))
  {
    match l
    case Space(c) => OneStep(st, c);
    case Bare(c) => OneStep(st, c);
    case Backslash(c) => TwoSteps(st, '\\', c);
    case Single(body) =>
      SingleBody(st.(quote := InSingle, started := true), body);
      Enclosed(st, '\'', body, '\'');
      assert ['\''] == "'";
    case Double(parts) =>
      DoubleBody(st.(quote := InDouble, started := true), parts);
      Enclosed(st, '\"', PartsText(parts), '\"');
      assert ['\"'] == "\"";
  }

  lemma {:induction false} ReadsLine(ls: seq<Lexeme>)
    requires forall l | l in ls :: Valid(l)
    ensures Steps(Start, LineText(ls)) == Some(Read(ls))
  {
    if ls != [] {
      var n := |ls| - 1;
      ReadsLine(ls[..n]);
      ReadPlain(ls[..n]);
      assert ls[n] in ls;
      StepsConcat(Start, LineText(ls[..n]), LexemeText(ls[n]));
      ReadsLexeme(Read(ls[..n]), ls[n]);
    }
  }

  // ---------- every accepted line is such a text ----------

  /** A piece whose end has not been read yet. */
  datatype Open = Closed | Slash | OpenSingle(body: string) | OpenDouble(parts: seq<Part>) | OpenEscape(parts: seq<Part>)

  predicate ValidOpen(o: Open) {
    match o
    case OpenSingle(body) => '\'' !in body
    case OpenDouble(parts) => forall p | p in parts :: ValidPart(p)
    case OpenEscape(parts) => forall p | p in parts :: ValidPart(p)
    case _ => true
  }

  function OpenText(o: Open): string {
    match o
    case Closed => ""
    case Slash => "\\"
    case OpenSingle(body) => "'" + body
    case OpenDouble(parts) => "\"" + PartsText(parts)
    case OpenEscape(parts) => "\"" + PartsText(parts) + "\\"
  }

  function Within(st: State, o: Open): State {
    match o
    case Closed => st
    case Slash => st.(started := true, esc := true)
    case OpenSingle(body) => st.(started := true, quote := InSingle, cur := st.cur + body)
    case OpenDouble(parts) => st.(started := true, quote := InDouble, cur := st.cur + PartsValue(parts))
    case OpenEscape(parts) => st.(started := true, quote := InDouble, cur := st.cur + PartsValue(parts), esc := true)
  }

  ghost predicate Parses(s: string, ls: seq<Lexeme>, o: Open) {
    && AllValid(ls) && ValidOpen(o)
    && s == LineText(ls) + OpenText(o) && Steps(Start, s) == Some(Within(Read(ls), o))
  }

  lemma Joins(s: string, before: string, piece: string, c: char)
    requires s == before + piece
    ensures s + [c] == before + (piece + [c])
  {
  }

  lemma LineSnoc(ls: seq<Lexeme>, l: Lexeme)
    ensures LineText(ls + [l]) == LineText(ls) + LexemeText(l)
  {
    assert (ls + [l])[..|ls|] == ls;
  }

  predicate AllValid(ls: seq<Lexeme>) {
    forall l | l in ls :: Valid(l)
  }

  lemma ValidSnoc(ls: seq<Lexeme>, l: Lexeme)
    requires AllValid(ls) && Valid(l)
    ensures AllValid(ls + [l])
  {
  }

  /** The piece is complete with its next character. */
  lemma Closes(s: string, c: char, ls: seq<Lexeme>, o: Open, l: Lexeme) returns (ls': seq<Lexeme>, o': Open)
    requires AllValid(ls) && Valid(l) && s == LineText(ls) + OpenText(o)
    requires OpenText(o) + [c] == LexemeText(l)
    ensures Parses(s + [c], ls', o') && ls' == ls + [l] && o' == Closed
  {
    ls', o' := ls + [l], Closed;
    Joins(s, LineText(ls), OpenText(o), c);
    LineSnoc(ls, l);
    ValidSnoc(ls, l);
    ClosedLine(ls', s + [c]);
  }

  lemma ClosedLine(ls: seq<Lexeme>, s: string)
    requires AllValid(ls) && s == LineText(ls)
    ensures Parses(s, ls, Closed)
  {
    ReadsLine(ls);
    assert s + "" == s;
  }

  /** The piece goes on with its next character. */
  lemma Continues(s: string, c: char, ls: seq<Lexeme>, o: Open, o': Open)
    requires Parses(s, ls, o) && ValidOpen(o') && OpenText(o) + [c] == OpenText(o')
    requires Step(Within(Read(ls), o), c) == Some(Within(Read(ls), o'))
    ensures Parses(s + [c], ls, o')
  {
    Joins(s, LineText(ls), OpenText(o), c);
    StepsConcat(Start, s, [c]);
    OneStep(Within(Read(ls), o), c);
  }

  lemma ParseOutside(s: string, c: char, ls: seq<Lexeme>) returns (ls': seq<Lexeme>, o': Open)
    requires Parses(s, ls, Closed) && Step(Read(ls), c).Some?
    ensures Parses(s + [c], ls', o')
  {
    ReadPlain(ls);
    if c == '\'' || c == '\"' || c == '\\' {
      ls' := ls;
      o' := if c == '\'' then OpenSingle("") else if c == '\"' then OpenDouble([]) else Slash;
      assert Read(ls).cur + "" == Read(ls).cur;
      Continues(s, c, ls, Closed, o');
    } else {
      ls', o' := Closes(s, c, ls, Closed, if Blank(c) then Space(c) else Bare(c));
    }
  }

  lemma ParseSingle(s: string, c: char, ls: seq<Lexeme>, body: string) returns (ls': seq<Lexeme>, o': Open)
    requires Parses(s, ls, OpenSingle(body))
    ensures Parses(s + [c], ls', o')
  {
    ReadPlain(ls);
    if c == '\'' {
      ls', o' := Closes(s, c, ls, OpenSingle(body), Single(body));
    } else {
      ls', o' := ls, OpenSingle(body + [c]);
      assert Read(ls).cur + (body + [c]) == Read(ls).cur + body + [c];
      Continues(s, c, ls, OpenSingle(body), o');
    }
  }

  lemma PartsSnoc(parts: seq<Part>, p: Part, cur: string)
    ensures PartsText(parts + [p]) == PartsText(parts) + if p.Raw? then [p.c] else ['\\', p.c]
    ensures cur + PartsValue(parts + [p]) == cur + PartsValue(parts) + [p.c]
  {
    assert (parts + [p])[..|parts|] == parts;
  }

  predicate IsRaw(c: char) {
    c != '\"' && c != '\\' && c != '$' && c != '`'
  }

  lemma ValidRaw(parts: seq<Part>, c: char)
    requires ValidOpen(OpenDouble(parts)) && IsRaw(c)
    ensures ValidOpen(OpenDouble(parts + [Raw(c)]))
  {
  }

  lemma RawText(parts: seq<Part>, c: char)
    ensures OpenText(OpenDouble(parts)) + [c] == OpenText(OpenDouble(parts + [Raw(c)]))
  {
    PartsSnoc(parts, Raw(c), "");
    Joins(OpenText(OpenDouble(parts)), "\"", PartsText(parts), c);
  }

  lemma RawStep(st: State, parts: seq<Part>, c: char)
    requires st.Plain() && IsRaw(c)
    ensures Step(Within(st, OpenDouble(parts)), c) == Some(Within(st, OpenDouble(parts + [Raw(c)])))
  {
    PartsSnoc(parts, Raw(c), st.cur);
  }

  lemma ParseRaw(s: string, c: char, ls: seq<Lexeme>, parts: seq<Part>)
    requires Parses(s, ls, OpenDouble(parts)) && IsRaw(c)
    ensures Parses(s + [c], ls, OpenDouble(parts + [Raw(c)]))
  {
    ReadPlain(ls);
    ValidRaw(parts, c);
    RawText(parts, c);
    RawStep(Read(ls), parts, c);
    Continues(s, c, ls, OpenDouble(parts), OpenDouble(parts + [Raw(c)]));
  }

  lemma ParseSlash(s: string, c: char, ls: seq<Lexeme>, parts: seq<Part>)
    requires Parses(s, ls, OpenDouble(parts)) && c == '\\'
    ensures Parses(s + [c], ls, OpenEscape(parts))
  {
    ReadPlain(ls);
    Continues(s, c, ls, OpenDouble(parts), OpenEscape(parts));
  }

  lemma ParseDouble(s: string, c: char, ls: seq<Lexeme>, parts: seq<Part>) returns (ls': seq<Lexeme>, o': Open)
    requires Parses(s, ls, OpenDouble(parts)) && c != '$' && c != '`'
    ensures Parses(s + [c], ls', o')
  {
    if c == '\"' {
      ls', o' := Closes(s, c, ls, OpenDouble(parts), Double(parts));
    } else if c == '\\' {
      ls', o' := ls, OpenEscape(parts);
      ParseSlash(s, c, ls, parts);
    } else {
      ls', o' := ls, OpenDouble(parts + [Raw(c)]);
      ParseRaw(s, c, ls, parts);
    }
  }

  lemma ParseEscaped(s: string, c: char, ls: seq<Lexeme>, parts: seq<Part>)
    requires Parses(s, ls, OpenEscape(parts))
    ensures Parses(s + [c], ls, OpenDouble(parts + [Escaped(c)]))
  {
    ReadPlain(ls);
    PartsSnoc(parts, Escaped(c), Read(ls).cur);
    assert OpenText(OpenEscape(parts)) + [c] == "\"" + (PartsText(parts) + ['\\', c]);
    Continues(s, c, ls, OpenEscape(parts), OpenDouble(parts + [Escaped(c)]));
  }

  lemma ParseNext(s: string, c: char, ls: seq<Lexeme>, o: Open) returns (ls': seq<Lexeme>, o': Open)
    requires Parses(s, ls, o) && Step(Within(Read(ls), o), c).Some?
    ensures Parses(s + [c], ls', o')
  {
    ReadPlain(ls);
    match o
    case Closed => ls', o' := ParseOutside(s, c, ls);
    case Slash => ls', o' := Closes(s, c, ls, o, Backslash(c));
    case OpenSingle(body) => ls', o' := ParseSingle(s, c, ls, body);
    case OpenDouble(parts) => ls', o' := ParseDouble(s, c, ls, parts);
    case OpenEscape(parts) =>
      ls', o' := ls, OpenDouble(parts + [Escaped(c)]);
      ParseEscaped(s, c, ls, parts);
  }

  lemma ParseNothing()
    ensures Parses("", [], Closed)
  {
  }

  lemma {:induction false} Parse(s: string) returns (ls: seq<Lexeme>, o: Open)
    requires Steps(Start, s).Some?
    ensures Parses(s, ls, o)
  {
    if s == "" {
      ParseNothing();
      return [], Closed;
    }
    var before, c := s[..|s| - 1], s[|s| - 1];
    assert s == before + [c];
    ls, o := Parse(before);
    ls, o := ParseNext(before, c, ls, o);
  }

  /** The tokenizer accepts exactly the texts of well-formed pieces, bare characters being
      neither blanks, quotes, backslashes nor shell metacharacters, and returns the words
      they spell; a text without any word is rejected. */
  lemma AcceptsExactly(s: string, argv: seq<string>)
    ensures Split(s) == Some(argv) <==> argv != [] && exists ls :: Renders(ls, s, argv)
  {
    if Split(s) == Some(argv) {
      var ls, o := Parse(s);
      ReadPlain(ls);
      assert o == Closed;
      assert Renders(ls, s, argv);
    }
    if argv != [] && exists ls :: Renders(ls, s, argv) {
      var ls :| Renders(ls, s, argv);
      ReadsLine(ls);
      ReadPlain(ls);
    }
  }

  /** In an accepted line every metacharacter is quoted or escaped, and the two that start
      an expansion are escaped or in single quotes. */
  lemma MetacharactersAreProtected(s: string, i: nat)
    requires Split(s).Some? && i < |s|
    ensures Steps(Start, s[..i]).Some?
    ensures s[i] in "|&;<>()`$*?[]{}~\n\r#" ==> !Steps(Start, s[..i]).value.Plain()
    ensures s[i] in "$`" ==> var st := Steps(Start, s[..i]).value; st.esc || st.quote.InSingle?
  {
    var prefix := s[..i + 1];
    if Steps(Start, prefix).None? { Rejected(s, i + 1); }
    assert prefix[..i] == s[..i];
  }

  // ---------- ordinary words ----------

  /** Neither a blank nor a character with a meaning of its own. */
  predicate Ordinary(c: char) {
    c !in " \t\'\"\\|&;<>()`$*?[]{}~\n\r#"
  }

  lemma OrdinaryStep(st: State, c: char)
    requires st.Plain() && Ordinary(c)
    ensures Step(st, c) == Some(Push(st, c).(started := true))
  {
  }

  lemma {:induction false} OrdinarySteps(st: State, w: string)
    requires st.Plain() && w != "" && forall c | c in w :: Ordinary(c)
    ensures Steps(st, w) == Some(st.(cur := st.cur + w, started := true))
  {
    var n := |w| - 1;
    assert w[n] in w;
    if n == 0 {
      OneStep(st, w[0]);
      OrdinaryStep(st, w[0]);
      assert w == [w[0]];
    } else {
      OrdinarySteps(st, w[..n]);
      OrdinaryStep(st.(cur := st.cur + w[..n], started := true), w[n]);
      assert st.cur + w == st.cur + w[..n] + [w[n]];
    }
  }

  lemma EndsInWord(s: string, st: State)
    requires Steps(Start, s) == Some(st) && st.Plain() && st.started
    ensures Split(s) == Some(st.argv + [st.cur])
  {
  }

  lemma OrdinaryWord(w: string)
    requires w != "" && forall c | c in w :: Ordinary(c)
    ensures Steps(Start, w) == Some(State([], w, true, NoQuote, false)) && Split(w) == Some([w])
  {
    OrdinarySteps(Start, w);
    assert "" + w == w && [] + [w] == [w];
    EndsInWord(w, State([], w, true, NoQuote, false));
  }

  /** Ordinary words separated by a blank or a tab are taken as they are. */
  lemma OrdinaryWords(a: string, blank: char, b: string)
    requires a != "" && b != "" && blank in " \t"
    requires (forall c | c in a :: Ordinary(c)) && forall c | c in b :: Ordinary(c)
    ensures Split(a + [blank] + b) == Some([a, b])
  {
    var word, next := State([], a, true, NoQuote, false), State([a], "", false, NoQuote, false);
    OrdinaryWord(a);
    ReadsBlank(a, word, blank);
    assert Flush(word) == next;
    StepsConcat(Start, a + [blank], b);
    OrdinarySteps(next, b);
    assert "" + b == b && [a] + [b] == [a, b];
    EndsInWord(a + [blank] + b, State([a], b, true, NoQuote, false));
  }

  lemma ReadsBlank(line: string, st: State, blank: char)
    requires Steps(Start, line) == Some(st) && st.Plain() && blank in " \t"
    ensures Steps(Start, line + [blank]) == Some(Flush(st))
  {
    StepsConcat(Start, line, [blank]);
    OneStep(st, blank);
  }

  // ---------- round trip ----------

  /** The inside of a single-quoted argument: an embedded quote is written '\''. */
  function Quoted(arg: string): string {
    if arg == "" then ""
    else Quoted(arg[..|arg| - 1]) + if arg[|arg| - 1] == '\'' then "'\\''" else [arg[|arg| - 1]]
  }

  function Join(args: seq<string>): string
    requires args != []
  {
    var last := "'" + Quoted(args[|args| - 1]) + "'";
    if |args| == 1 then last else Join(args[..|args| - 1]) + " " + last
  }

  lemma {:induction false} ReadsQuoted(st: State, arg: string)
    requires st.quote.InSingle? && !st.esc && st.started
    ensures Steps(st, Quoted(arg)) == Some(st.(cur := st.cur + arg))
  {
    if arg == "" {
      assert st.cur + arg == st.cur;
    } else {
      var n := |arg| - 1;
      assert st.cur + arg == st.cur + arg[..n] + [arg[n]];
      ReadsQuoted(st, arg[..n]);
      var mid := st.(cur := st.cur + arg[..n]);
      if arg[n] == '\'' {
        var plain := mid.(quote := NoQuote);
        StepsConcat(st, Quoted(arg[..n]), "'\\''");
        assert "'\\''" == ['\'', '\\'] + ['\'', '\''];
        StepsConcat(mid, ['\'', '\\'], ['\'', '\'']);
        TwoSteps(mid, '\'', '\\');
        TwoSteps(plain.(esc := true), '\'', '\'');
      } else {
        StepsConcat(st, Quoted(arg[..n]), [arg[n]]);
        OneStep(mid, arg[n]);
      }
    }
  }

  lemma ReadsArgument(st: State, arg: string)
    requires st.Plain() && st.cur == "" && !st.started
    ensures Steps(st, "'" + Quoted(arg) + "'") == Some(st.(cur := arg, started := true))
  {
    ReadsQuoted(st.(quote := InSingle, started := true), arg);
    Enclosed(st, '\'', Quoted(arg), '\'');
    assert "" + arg == arg;
    assert ['\''] == "'";
  }

  lemma {:induction false} ReadsJoined(args: seq<string>)
    requires args != []
    ensures Steps(Start, Join(args))
            == Some(State(args[..|args| - 1], args[|args| - 1], true, NoQuote, false))
  {
    var n := |args| - 1;
    if n == 0 {
      ReadsArgument(Start, args[0]);
    } else {
      ReadsJoined(args[..n]);
      var before := State(args[..n - 1], args[n - 1], true, NoQuote, false);
      assert args[..n][..n - 1] == args[..n - 1] && args[..n - 1] + [args[n - 1]] == args[..n];
      ReadsBlank(Join(args[..n]), before, ' ');
      assert [' '] == " ";
      StepsConcat(Start, Join(args[..n]) + " ", "'" + Quoted(args[n]) + "'");
      ReadsArgument(Flush(before), args[n]);
    }
  }

  /** Any arguments, single-quoted and joined with spaces, split back into themselves. */
  lemma RoundTrip(args: seq<string>)
    requires args != []
    ensures Split(Join(args)) == Some(args)
  {
    ReadsJoined(args);
    assert args[..|args| - 1] + [args[|args| - 1]] == args;
  }

  // ---------- the command policy ----------

  function Trim(s: string): string {
    if s == "" then ""
    else if Text.IsSpace(s[0]) then Trim(s[1..])
    else if Text.IsSpace(s[|s| - 1]) then Trim(s[..|s| - 1])
    else s
  }

  /** A flag reads the same with one dash or two. */
  function Flag(arg: string): string {
    if "--" <= arg then arg[1..] else arg
  }

  predicate Refused(runner: string, arg: string) {
    var a := Flag(arg);
    || "-exec" <= a || a == "-toolexec" || "-toolexec=" <= a
    || ("-c" <= a && (runner == "python3" || runner == "python"))
    || a == "-ldflags" || "-ldflags=" <= a || a == "-gcflags" || "-gcflags=" <= a
  }

  predicate Allowed(runners: seq<string>, argv: seq<string>) {
    && argv != [] && argv[0] in runners
    && (argv[0] == "./gradlew" || ('/' !in argv[0] && '\\' !in argv[0]))
    && forall i | 0 < i < |argv| :: !Refused(argv[0], argv[i])
  }

  /** A command is accepted exactly if its words obey the policy, and is run as those words. */
  method ValidateCommand(runners: seq<string>, cmd: string) returns (r: Option<seq<string>>)
    ensures r == var argv := Split(Trim(cmd));
                 if argv.Some? && Allowed(runners, argv.value) then argv else None
    ensures r.Some? ==> r.value != [] && r.value[0] in runners
    ensures r.Some? && ('/' in r.value[0] || '\\' in r.value[0]) ==> r.value[0] == "./gradlew"
  {
    r := SplitWords(Trim(cmd));
    if r.None? { return; }
    var argv := r.value;
    var runner := argv[0];
    var allowed := FindRunner(runners, runner);
    if !allowed { return None; }
    if runner != "./gradlew" && ('/' in runner || '\\' in runner) { return None; }
    for i := 1 to |argv|
      invariant forall j | 0 < j < i :: !Refused(runner, argv[j])
    {
      var refused := RefuseFlag(runner, argv[i]);
      if refused {
        RefusedOnce(runners, argv, i);
        return None;
      }
    }
  }

  method FindRunner(runners: seq<string>, runner: string) returns (allowed: bool)
    ensures allowed <==> runner in runners
  {
    for i := 0 to |runners|
      invariant runner !in runners[..i]
    {
      if runner == runners[i] { return true; }
    }
    return false;
  }

  method RefuseFlag(runner: string, arg: string) returns (refused: bool)
    ensures refused <==> Refused(runner, arg)
  {
    var a := arg;
    if "--" <= a { a := a[1..]; }
    assert a == Flag(arg);
    if "-exec" <= a || a == "-toolexec" || "-toolexec=" <= a || "-exec=" <= a {
      ExecIsPrefix(a);
      return true;
    }
    if "-c" <= a && (runner == "python3" || runner == "python") { return true; }
    if a == "-ldflags" || "-ldflags=" <= a || a == "-gcflags" || "-gcflags=" <= a { return true; }
    return false;
  }

  lemma ExecIsPrefix(a: string)
    ensures "-exec=" <= a ==> "-exec" <= a
  {
  }

  lemma RefusedOnce(runners: seq<string>, argv: seq<string>, i: nat)
    requires 0 < i < |argv| && Refused(argv[0], argv[i])
    ensures !Allowed(runners, argv)
  {
  }

  ghost predicate Begins(s: string, t: string) {
    exists rest: string :: s == t + rest
  }

  /** Flags, without their dashes, that would run another program or code of their own. */
  ghost predicate Dangerous(runner: string, flag: string) {
    || Begins(flag, "exec") || flag == "toolexec" || Begins(flag, "toolexec=")
    || flag == "ldflags" || Begins(flag, "ldflags=") || flag == "gcflags" || Begins(flag, "gcflags=")
    || (Begins(flag, "c") && runner in {"python", "python3"})
  }

  lemma BeginsIs(dash: string, s: string, t: string)
    requires dash == "-"
    ensures Begins(s, t) <==> dash + t <= dash + s
  {
    if dash + t <= dash + s {
      assert (dash + s)[1..] == s && (dash + s)[..|t| + 1] == dash + t;
      assert s[..|t|] == (dash + s)[1..|t| + 1] == t;
      assert s == t + s[|t|..];
    }
    if rest: string :| s == t + rest {
      assert dash + s == (dash + t) + rest;
    }
  }

  lemma SameFlag(flag: string, name: string)
    ensures "-" + flag == "-" + name <==> flag == name
  {
    assert ("-" + flag)[1..] == flag && ("-" + name)[1..] == name;
  }

  lemma FlagIs(flag: string)
    requires !("-" <= flag)
    ensures Flag("-" + flag) == "-" + flag && Flag("--" + flag) == "-" + flag
  {
    assert ("--" + flag)[1..] == "-" + flag;
    if flag != "" {
      assert flag[..1] == [flag[0]];
      assert ("-" + flag)[1] == flag[0] && "--"[1] == '-';
    }
  }

  /** Exactly the dangerous flags are refused, with one dash or two. */
  lemma RefusedExactly(runner: string, flag: string)
    requires !("-" <= flag)
    ensures Refused(runner, "-" + flag) <==> Dangerous(runner, flag)
    ensures Refused(runner, "--" + flag) <==> Dangerous(runner, flag)
  {
    FlagIs(flag);
    BeginsIs("-", flag, "exec");
    BeginsIs("-", flag, "toolexec=");
    BeginsIs("-", flag, "ldflags=");
    BeginsIs("-", flag, "gcflags=");
    BeginsIs("-", flag, "c");
    SameFlag(flag, "toolexec");
    SameFlag(flag, "ldflags");
    SameFlag(flag, "gcflags");
    PatternsAre(runner, "-" + flag);
  }

  /** The patterns of the policy, told of the flag with its dash. */
  lemma PatternsAre(runner: string, a: string)
    requires !("--" <= a)
    ensures Refused(runner, a) <==>
            || "-" + "exec" <= a || a == "-" + "toolexec" || "-" + "toolexec=" <= a
            || a == "-" + "ldflags" || "-" + "ldflags=" <= a || a == "-" + "gcflags" || "-" + "gcflags=" <= a
            || ("-" + "c" <= a && runner in {"python", "python3"})
  {
    assert "-" + "exec" == "-exec" && "-" + "toolexec" == "-toolexec" && "-" + "toolexec=" == "-toolexec=";
    assert "-" + "ldflags" == "-ldflags" && "-" + "ldflags=" == "-ldflags=";
    assert "-" + "gcflags" == "-gcflags" && "-" + "gcflags=" == "-gcflags=" && "-" + "c" == "-c";
  }

  /** What is no flag is never refused. */
  lemma ArgumentsPass(runner: string, arg: string)
    requires !("-" <= arg)
    ensures !Refused(runner, arg)
  {
    if arg != "" {
      assert arg[..1] == [arg[0]];
    }
  }

  /** Exactly why words are rejected: the runner is not listed, or is a path other than the
      project's own wrapper, or some argument is refused. */
  lemma RejectedExactly(runners: seq<string>, argv: seq<string>)
    requires argv != []
    ensures !Allowed(runners, argv) <==>
              || argv[0] !in runners
              || (argv[0] != "./gradlew" && exists c | c in argv[0] :: c in "/\\")
              || exists i | 0 < i < |argv| :: Refused(argv[0], argv[i])
  {
    if c :| c in argv[0] && c in "/\\" { assert c == '/' || c == '\\'; }
    assert '/' in "/\\" && '\\' in "/\\";
  }

  /** Code on the command line of an interpreter is refused. */
  lemma InlineCodeIsRefused(runners: seq<string>, argv: seq<string>, i: nat, rest: string)
    requires 0 < i < |argv| && argv[0] in {"python", "python3"} && argv[i] == "-c" + rest
    ensures !Allowed(runners, argv)
  {
    assert "-c" <= argv[i];
    assert argv[i][1] == 'c';
    assert Refused(argv[0], argv[i]);
  }

  /** Trimming takes white space off both ends and nothing else. */
  lemma {:induction false} TrimIs(s: string) returns (before: string, after: string)
    ensures s == before + Trim(s) + after
    ensures forall c | c in before + after :: Text.IsSpace(c)
    ensures Trim(s) != "" ==> !Text.IsSpace(Trim(s)[0]) && !Text.IsSpace(Trim(s)[|Trim(s)| - 1])
    decreases |s|
  {
    before, after := "", "";
    if s == "" {
    } else if Text.IsSpace(s[0]) {
      before, after := TrimIs(s[1..]);
      assert s == [s[0]] + s[1..];
      before := [s[0]] + before;
    } else if Text.IsSpace(s[|s| - 1]) {
      before, after := TrimIs(s[..|s| - 1]);
      assert s == s[..|s| - 1] + [s[|s| - 1]];
      after := after + [s[|s| - 1]];
    }
  }

  /** Doubling the dash of any flag never changes whether a command is accepted. */
  lemma DashesDoNotMatter(runners: seq<string>, argv: seq<string>, i: nat, flag: string)
    requires 0 < i < |argv| && !("-" <= flag) && argv[i] == "-" + flag
    ensures Allowed(runners, argv) <==> Allowed(runners, argv[i := "--" + flag])
  {
    assert ("--" + flag)[1..] == "-" + flag;
    assert Flag("--" + flag) == Flag("-" + flag);
    var other := argv[i := "--" + flag];
    forall j | 0 < j < |argv| ensures Refused(argv[0], argv[j]) <==> Refused(other[0], other[j]) {}
  }
}
