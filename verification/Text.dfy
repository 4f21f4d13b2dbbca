/** The few string questions the proof builder asks. */
module Text {

  predicate IsSpace(c: char) {
    '\t' <= c <= '\r' || c == ' ' || c == '\U{0085}' || c == '\U{00A0}' || c == '\U{1680}'
    || '\U{2000}' <= c <= '\U{200A}' || c == '\U{2028}' || c == '\U{2029}' || c == '\U{202F}'
    || c == '\U{205F}' || c == '\U{3000}'
  }

  /** The string is empty once surrounding white space is trimmed. */
  predicate Blank(s: string) {
    forall i | 0 <= i < |s| :: IsSpace(s[i])
  }

  predicate HasSuffix(s: string, t: string) {
    |t| <= |s| && s[|s| - |t|..] == t
  }

  predicate Contains(s: string, t: string) {
    exists i | 0 <= i <= |s| :: t <= s[i..]
  }

  // Only the letters a c d e g o p s t y occur in the patterns below, and no character
  // outside ASCII lower-cases to one of them, so folding A-Z is exact here.
  function Lower(s: string): string {
    if s == "" then ""
    else [if 'A' <= s[0] <= 'Z' then s[0] - 'A' + 'a' else s[0]] + Lower(s[1..])
  }

  function TrimSlashes(s: string): string {
    if s != "" && s[|s| - 1] == '/' then TrimSlashes(s[..|s| - 1]) else s
  }

  function AfterLastSlash(s: string): string {
    if s == "" || s[|s| - 1] == '/' then "" else AfterLastSlash(s[..|s| - 1]) + [s[|s| - 1]]
  }

  /** The last element of a slash-separated path. */
  function Base(p: string): string {
    if p == "" then "."
    else if TrimSlashes(p) == "" then "/"
    else AfterLastSlash(TrimSlashes(p))
  }

  /** Whether a repository-relative path looks like a test file. */
  predicate IsTestFile(f: string) {
    var base, lf := Lower(Base(f)), Lower(f);
    || HasSuffix(base, "_test.go") || "test_" <= base || HasSuffix(base, "_test.py")
    || Contains(base, ".test.") || Contains(base, ".spec.")
    || Contains(lf, "/tests/") || Contains(lf, "/__tests__/") || Contains(lf, "/testdata/")
  }

  // ---------- what these mean ----------

  /** The white space is that of Unicode, character by character. */
  lemma WhiteSpace(c: char)
    ensures IsSpace(c) <==>
            || c in "\t\n\U{000B}\U{000C}\r \U{0085}\U{00A0}\U{1680}\U{2028}\U{2029}\U{202F}\U{205F}\U{3000}"
            || c in "\U{2000}\U{2001}\U{2002}\U{2003}\U{2004}\U{2005}\U{2006}\U{2007}\U{2008}\U{2009}\U{200A}"
  {
  }

  lemma {:induction false} NameIsLast(dir: string, name: string)
    requires '/' !in name
    ensures AfterLastSlash(dir + "/" + name) == name
  {
    var f := dir + "/" + name;
    if name == "" {
      assert f[|f| - 1] == '/';
    } else {
      var n := |name| - 1;
      assert name[n] in name && f[|f| - 1] == name[n];
      NameIsLast(dir, name[..n]);
      assert f[..|f| - 1] == dir + "/" + name[..n];
      assert name == name[..n] + [name[n]];
    }
  }

  lemma {:induction false} NameAlone(name: string)
    requires '/' !in name
    ensures AfterLastSlash(name) == name
  {
    if name != "" {
      var n := |name| - 1;
      assert name[n] in name;
      NameAlone(name[..n]);
      assert name == name[..n] + [name[n]];
    }
  }

  lemma NothingToTrim(f: string)
    requires f != "" && f[|f| - 1] != '/'
    ensures TrimSlashes(f) == f
  {
  }

  lemma BaseIsName(dir: string, name: string)
    requires '/' !in name && name != ""
    ensures Base(dir + "/" + name) == name && Base(name) == name
  {
    assert name[|name| - 1] in name;
    NothingToTrim(name);
    NothingToTrim(dir + "/" + name);
    NameIsLast(dir, name);
    NameAlone(name);
  }

  ghost predicate EndsWith(s: string, t: string) {
    exists before: string :: s == before + t
  }

  ghost predicate Holds(s: string, t: string) {
    exists before: string, after: string :: s == before + t + after
  }

  lemma SuffixIs(s: string, t: string)
    ensures HasSuffix(s, t) <==> EndsWith(s, t)
  {
    if HasSuffix(s, t) { assert s == s[..|s| - |t|] + t; }
  }

  lemma ContainsIs(s: string, t: string)
    ensures Contains(s, t) <==> Holds(s, t)
  {
    if Contains(s, t) {
      var i :| 0 <= i <= |s| && t <= s[i..];
      assert s == s[..i] + t + s[i + |t|..];
    }
    if before: string, after: string :| s == before + t + after {
      assert s[|before|..] == t + after;
    }
  }

  /** Its own name is that of a test, whatever the case of its letters. */
  ghost predicate NamedAsTest(name: string) {
    var n := Lower(name);
    || EndsWith(n, "_test.go") || EndsWith(n, "_test.py") || (exists rest: string :: n == "test_" + rest)
    || Holds(n, ".test.") || Holds(n, ".spec.")
  }

  ghost predicate AmongTests(path: string) {
    var p := Lower(path);
    Holds(p, "/tests/") || Holds(p, "/__tests__/") || Holds(p, "/testdata/")
  }

  /** A file counts as a test by its own name or by a directory on its path; the directory
      must have one above it. */
  lemma TestFileExactly(dir: string, name: string)
    requires '/' !in name && name != ""
    ensures IsTestFile(dir + "/" + name) <==> NamedAsTest(name) || AmongTests(dir + "/" + name)
    ensures IsTestFile(name) <==> NamedAsTest(name) || AmongTests(name)
  {
    BaseIsName(dir, name);
    NameIsTested(name);
    PathIsTested(dir + "/" + name);
    PathIsTested(name);
  }

  lemma NameIsTested(name: string)
    ensures var n := Lower(name);
      NamedAsTest(name) <==>
        || HasSuffix(n, "_test.go") || "test_" <= n || HasSuffix(n, "_test.py")
        || Contains(n, ".test.") || Contains(n, ".spec.")
  {
    var n := Lower(name);
    SuffixIs(n, "_test.go");
    SuffixIs(n, "_test.py");
    ContainsIs(n, ".test.");
    ContainsIs(n, ".spec.");
    if "test_" <= n { assert n == "test_" + n[5..]; }
  }

  lemma PathIsTested(path: string)
    ensures var p := Lower(path);
      AmongTests(path) <==> Contains(p, "/tests/") || Contains(p, "/__tests__/") || Contains(p, "/testdata/")
  {
    var p := Lower(path);
    ContainsIs(p, "/tests/");
    ContainsIs(p, "/__tests__/");
    ContainsIs(p, "/testdata/");
  }

  /** Letters fold one by one, and nothing but A to Z changes. */
  lemma {:induction false} LowerAt(s: string, i: nat)
    requires i < |s|
    ensures |Lower(s)| == |s|
    ensures Lower(s)[i] == if s[i] in "ABCDEFGHIJKLMNOPQRSTUVWXYZ" then (s[i] as int + 32) as char else s[i]
    decreases |s|
  {
    if i > 0 { LowerAt(s[1..], i - 1); } else if |s| > 1 { LowerAt(s[1..], 0); }
  }
}
