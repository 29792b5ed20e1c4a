/** Lines of text as Go's `strings` functions see them. */
module Text {
  /** `unicode.IsSpace`. */
  predicate IsSpace(c: char) {
    || c == ' ' || '\t' <= c <= '\r'
    || c == '\U{85}' || c == '\U{A0}' || c == '\U{1680}' || '\U{2000}' <= c <= '\U{200A}'
    || c == '\U{2028}' || c == '\U{2029}' || c == '\U{202F}' || c == '\U{205F}' || c == '\U{3000}'
  }

  function TrimLeft(s: string): string {
    if s != "" && IsSpace(s[0]) then TrimLeft(s[1..]) else s
  }

  function TrimRight(s: string): string {
    if s != "" && IsSpace(s[|s| - 1]) then TrimRight(s[..|s| - 1]) else s
  }

  /** `strings.TrimSpace`. */
  function TrimSpace(s: string): string {
    TrimRight(TrimLeft(s))
  }

  /** `strings.Split(s, "\n")`. */
  function Split(s: string): (lines: seq<string>)
    ensures lines != []
  {
    if s == "" then [""]
    else if s[0] == '\n' then [""] + Split(s[1..])
    else var rest := Split(s[1..]); [[s[0]] + rest[0]] + rest[1..]
  }

  /** `strings.Join(lines, "\n")`. */
  function Join(lines: seq<string>): string {
    if lines == [] then ""
    else if |lines| == 1 then lines[0]
    else lines[0] + "\n" + Join(lines[1..])
  }

  /** The lines that are not blank, trimmed. */
  function NonBlank(lines: seq<string>): seq<string> {
    if lines == [] then []
    else
      var l := TrimSpace(lines[0]);
      (if l == "" then [] else [l]) + NonBlank(lines[1..])
  }

  function LinesOf(s: string): seq<string> {
    NonBlank(Split(s))
  }

  predicate Trimmed(s: string) {
    s != "" ==> !IsSpace(s[0]) && !IsSpace(s[|s| - 1])
  }

  /** A line that survives being written out and read back. */
  predicate IsLine(s: string) {
    s != "" && Trimmed(s) && '\n' !in s
  }

  /** `strings.Contains`. */
  predicate Contains(s: string, p: string) {
    p <= s || (s != "" && Contains(s[1..], p))
  }

  ghost predicate OccursAt(s: string, p: string, i: int) {
    0 <= i <= |s| - |p| && s[i..i + |p|] == p
  }

  /** `p` occurs in `s` at `i` and nowhere before. */
  ghost predicate FirstAt(s: string, p: string, i: int) {
    OccursAt(s, p, i) && forall j | 0 <= j < i :: !OccursAt(s, p, j)
  }

  ghost predicate Occurs(s: string, p: string) {
    exists i :: OccursAt(s, p, i)
  }

  lemma SameSlice(s: string, n: nat, lo: nat, hi: nat)
    requires n <= lo <= hi <= |s|
    ensures s[lo..hi] == s[n..][lo - n..hi - n]
  {
    assert forall k | 0 <= k < hi - lo :: s[lo..hi][k] == s[n..][lo - n..hi - n][k];
  }

  lemma OccursLater(s: string, p: string, i: int)
    requires s != "" && i > 0
    ensures OccursAt(s, p, i) <==> OccursAt(s[1..], p, i - 1)
  {
    if i <= |s| - |p| {
      SameSlice(s, 1, i, i + |p|);
    }
  }

  lemma {:induction false} ContainsMeans(s: string, p: string)
    ensures Contains(s, p) <==> Occurs(s, p)
  {
    assert p <= s <==> OccursAt(s, p, 0);
    if s != "" && !(p <= s) {
      ContainsMeans(s[1..], p);
      forall i
        ensures i > 0 ==> (OccursAt(s, p, i) <==> OccursAt(s[1..], p, i - 1))
      {
        if i > 0 {
          OccursLater(s, p, i);
        }
      }
      if i :| OccursAt(s[1..], p, i) {
        assert OccursAt(s, p, i + 1);
      }
      if i :| OccursAt(s, p, i) {
        assert OccursAt(s[1..], p, i - 1);
      }
    }
  }

  /** A word of two letters or more that cannot begin in `a` occurs in `a + b` as it does in `b`. */
  lemma OccursBehind(a: string, b: string, p: string)
    requires a != "" && |p| >= 2 && a[|a| - 1] !in p
    requires forall i | 0 <= i < |a| - 1 :: a[i] == p[0] ==> a[i + 1] != p[1]
    ensures Occurs(a + b, p) <==> Occurs(b, p)
  {
    var s, n := a + b, |a|;
    if i :| OccursAt(s, p, i) {
      assert s[i] == s[i..i + |p|][0] && s[i + 1] == s[i..i + |p|][1];
      assert i >= n;
      assert s[n..] == b;
      SameSlice(s, n, i, i + |p|);
      assert OccursAt(b, p, i - n);
    }
    if i :| OccursAt(b, p, i) {
      assert s[n..] == b;
      SameSlice(s, n, i + n, i + n + |p|);
      assert OccursAt(s, p, i + n);
    }
  }

  ghost predicate NoNewlines(lines: seq<string>) {
    forall l <- lines :: '\n' !in l
  }

  ghost predicate AreLines(lines: seq<string>) {
    forall l <- lines :: IsLine(l)
  }

  lemma AreLinesSnoc(lines: seq<string>, l: string)
    requires AreLines(lines) && IsLine(l)
    ensures AreLines(lines + [l])
  {
  }

  lemma {:induction false} SplitAtNewline(a: string, b: string)
    ensures Split(a + "\n" + b) == Split(a) + Split(b)
  {
    if a == "" {
      assert (a + "\n" + b)[1..] == b;
    } else {
      assert (a + "\n" + b)[1..] == a[1..] + "\n" + b;
      SplitAtNewline(a[1..], b);
    }
  }

  lemma {:induction false} SplitOneLine(s: string)
    requires '\n' !in s
    ensures Split(s) == [s]
  {
    if s != "" {
      SplitOneLine(s[1..]);
      assert s == [s[0]] + s[1..];
    }
  }

  lemma {:induction false} NonBlankAppend(a: seq<string>, b: seq<string>)
    ensures NonBlank(a + b) == NonBlank(a) + NonBlank(b)
  {
    if a == [] {
      assert a + b == b;
    } else {
      assert (a + b)[1..] == a[1..] + b;
      NonBlankAppend(a[1..], b);
    }
  }

  lemma LinesAtNewline(a: string, b: string)
    ensures LinesOf(a + "\n" + b) == LinesOf(a) + LinesOf(b)
  {
    SplitAtNewline(a, b);
    NonBlankAppend(Split(a), Split(b));
  }

  lemma {:induction false} TrimLeftShape(s: string)
    ensures var t := TrimLeft(s); |t| <= |s| && t == s[|s| - |t|..] && (t != "" ==> !IsSpace(t[0]))
  {
    if s != "" && IsSpace(s[0]) {
      TrimLeftShape(s[1..]);
    }
  }

  lemma {:induction false} TrimRightShape(s: string)
    ensures var t := TrimRight(s); |t| <= |s| && t == s[..|t|] && (t != "" ==> !IsSpace(t[|t| - 1]))
  {
    if s != "" && IsSpace(s[|s| - 1]) {
      TrimRightShape(s[..|s| - 1]);
    }
  }

  lemma TrimSpaceShape(s: string)
    ensures Trimmed(TrimSpace(s)) && |TrimSpace(s)| <= |s|
    ensures forall c <- TrimSpace(s) :: c in s
  {
    TrimLeftShape(s);
    TrimRightShape(TrimLeft(s));
  }

  lemma {:induction false} SplitHasNoNewline(s: string)
    ensures NoNewlines(Split(s))
  {
    if s != "" {
      SplitHasNoNewline(s[1..]);
    }
  }

  lemma TrimmedIsLine(s: string)
    requires '\n' !in s
    ensures TrimSpace(s) != "" ==> IsLine(TrimSpace(s))
  {
    TrimSpaceShape(s);
  }

  lemma LineReadsBack(l: string)
    requires IsLine(l)
    ensures LinesOf(l) == [l] && TrimSpace(l) == l
  {
    SplitOneLine(l);
    assert NonBlank([l]) == [l];
  }

  /** What `Join` and a final newline make of lines. */
  function FileOf(lines: seq<string>): string {
    Join(lines) + (if lines == [] then "" else "\n")
  }

  predicate Terminated(s: string) {
    s != "" ==> s[|s| - 1] == '\n'
  }

  lemma FirstLineOfFile(lines: seq<string>)
    requires lines != []
    ensures FileOf(lines) == lines[0] + "\n" + FileOf(lines[1..])
  {
    if |lines| > 1 {
      assert Join(lines) == lines[0] + "\n" + Join(lines[1..]);
    } else {
      assert FileOf([]) == "";
    }
  }

  /** Split and trim undo join: written lines read back unchanged. */
  lemma {:induction false} FileReadsBack(lines: seq<string>)
    requires AreLines(lines)
    ensures LinesOf(FileOf(lines)) == lines && Terminated(FileOf(lines))
  {
    if lines != [] {
      var rest := FileOf(lines[1..]);
      FileReadsBack(lines[1..]);
      LineReadsBack(lines[0]);
      LinesAtNewline(lines[0], rest);
      FirstLineOfFile(lines);
    }
  }

  lemma NothingAfterNewline(p: string)
    ensures LinesOf(p + "\n") == LinesOf(p)
  {
    LinesAtNewline(p, "");
    assert p + "\n" + "" == p + "\n";
    assert LinesOf("") == [];
  }

  lemma TerminatedLines(s: string, rest: string)
    requires Terminated(s)
    ensures LinesOf(s + rest) == LinesOf(s) + LinesOf(rest)
  {
    if s == "" {
      assert s + rest == rest && LinesOf("") == [];
    } else {
      var p := s[..|s| - 1];
      assert s == p + "\n" && s + rest == p + "\n" + rest;
      NothingAfterNewline(p);
      LinesAtNewline(p, rest);
    }
  }

  /** Appending a line to a terminated file adds just that line. */
  lemma AppendReadsBack(s: string, l: string)
    requires Terminated(s) && IsLine(l)
    ensures LinesOf(s + l + "\n") == LinesOf(s) + [l] && Terminated(s + l + "\n")
  {
    assert s + l + "\n" == s + (l + "\n");
    TerminatedLines(s, l + "\n");
    FileReadsBack([l]);
    assert FileOf([l]) == l + "\n";
  }
}
