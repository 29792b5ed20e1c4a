/** What the newline at every read boundary does to the lines of a streamed body. */
module StreamCuts {
  import opened Text
  import opened StreamUsage

  predicate Blank(s: string) {
    TrimSpace(s) == ""
  }

  lemma {:induction false} TrimLeftAppend(x: string, y: string)
    ensures TrimLeft(x) == "" ==> TrimLeft(x + y) == TrimLeft(y)
    ensures TrimLeft(x) != "" ==> TrimLeft(x + y) == TrimLeft(x) + y
  {
    if x == "" {
      assert x + y == y;
    } else if IsSpace(x[0]) {
      assert (x + y)[1..] == x[1..] + y;
      TrimLeftAppend(x[1..], y);
    }
  }

  lemma {:induction false} TrimRightAppend(x: string, y: string)
    ensures TrimRight(y) == "" ==> TrimRight(x + y) == TrimRight(x)
    ensures TrimRight(y) != "" ==> TrimRight(x + y) == x + TrimRight(y)
  {
    if y == "" {
      assert x + y == x;
    } else if IsSpace(y[|y| - 1]) {
      assert (x + y)[..|x + y| - 1] == x + y[..|y| - 1];
      TrimRightAppend(x, y[..|y| - 1]);
    }
  }

  lemma {:induction false} AllSpaces(s: string)
    ensures TrimLeft(s) == "" <==> TrimRight(s) == ""
    ensures TrimLeft(s) == "" <==> forall c <- s :: IsSpace(c)
  {
    TrimLeftShape(s);
    TrimRightShape(s);
    if s != "" {
      AllSpaces(s[1..]);
      if IsSpace(s[0]) && TrimLeft(s[1..]) == "" {
        assert s == [s[0]] + s[1..];
        TrimRightAppend([s[0]], s[1..]);
        assert TrimRight([s[0]]) == TrimRight([]) == "";
      } else if TrimRight(s) == "" {
        assert s == [s[0]] + s[1..];
        TrimRightAppend([s[0]], s[1..]);
      }
    }
  }

  lemma BlankIsAllSpaces(s: string)
    ensures Blank(s) <==> TrimLeft(s) == ""
  {
    AllSpaces(TrimLeft(s));
    TrimLeftShape(s);
    if TrimLeft(s) != "" {
      assert !IsSpace(TrimLeft(s)[0]) && TrimLeft(s)[0] in TrimLeft(s);
    }
  }

  /** Gluing a blank fragment to a line does not change the trimmed line. */
  lemma BlankFragment(x: string, y: string)
    ensures Blank(x) ==> TrimSpace(x + y) == TrimSpace(y)
    ensures Blank(y) ==> TrimSpace(x + y) == TrimSpace(x)
    ensures Blank(x + y) <==> Blank(x) && Blank(y)
  {
    BlankIsAllSpaces(x);
    BlankIsAllSpaces(y);
    BlankIsAllSpaces(x + y);
    TrimLeftAppend(x, y);
    AllSpaces(y);
    TrimRightAppend(TrimLeft(x), y);
  }

  /** Lines of two texts side by side: the last of one and the first of the other become one. */
  function Glue(xs: seq<string>, ys: seq<string>): (zs: seq<string>)
    requires xs != [] && ys != []
    ensures zs != []
  {
    if |xs| == 1 then [xs[0] + ys[0]] + ys[1..] else [xs[0]] + Glue(xs[1..], ys)
  }

  lemma {:induction false} SplitGlues(a: string, b: string)
    ensures Split(a + b) == Glue(Split(a), Split(b))
  {
    if a == "" {
      assert a + b == b && Split(a) == [""];
      assert "" + Split(b)[0] == Split(b)[0];
      assert [Split(b)[0]] + Split(b)[1..] == Split(b);
    } else {
      assert (a + b)[1..] == a[1..] + b;
      SplitGlues(a[1..], b);
      var rest := Split(a[1..]);
      if a[0] == '\n' {
        assert Split(a)[1..] == rest;
      } else if |rest| > 1 {
        assert Split(a)[1..] == rest[1..];
      } else {
        assert [a[0]] + (rest[0] + Split(b)[0]) == ([a[0]] + rest[0]) + Split(b)[0];
      }
    }
  }

  lemma {:induction false} GlueShape(xs: seq<string>, ys: seq<string>)
    requires xs != [] && ys != []
    ensures var n := |xs| - 1; Glue(xs, ys) == xs[..n] + ([xs[n] + ys[0]] + ys[1..])
  {
    if |xs| > 1 {
      GlueShape(xs[1..], ys);
    }
  }

  /** The lines of a text before and after those that touch its ends. */
  function Front(s: string): seq<string> {
    NonBlank(Split(s)[..|Split(s)| - 1])
  }

  function Back(s: string): seq<string> {
    NonBlank(Split(s)[1..])
  }

  function LastFragment(s: string): string {
    Split(s)[|Split(s)| - 1]
  }

  function FirstFragment(s: string): string {
    Split(s)[0]
  }

  lemma LinesByLast(s: string)
    ensures LinesOf(s) == Front(s) + NonBlank([LastFragment(s)])
  {
    assert Split(s) == Split(s)[..|Split(s)| - 1] + [LastFragment(s)];
    NonBlankAppend(Split(s)[..|Split(s)| - 1], [LastFragment(s)]);
  }

  lemma LinesByFirst(s: string)
    ensures LinesOf(s) == NonBlank([FirstFragment(s)]) + Back(s)
  {
    assert Split(s) == [FirstFragment(s)] + Split(s)[1..];
    NonBlankAppend([FirstFragment(s)], Split(s)[1..]);
  }

  lemma LinesOfBody(a: string, b: string)
    ensures LinesOf(a + b) == Front(a) + (NonBlank([LastFragment(a) + FirstFragment(b)]) + Back(b))
  {
    var sa, sb := Split(a), Split(b);
    SplitGlues(a, b);
    GlueShape(sa, sb);
    NonBlankAppend(sa[..|sa| - 1], [LastFragment(a) + FirstFragment(b)] + sb[1..]);
    NonBlankAppend([LastFragment(a) + FirstFragment(b)], sb[1..]);
  }

  lemma FragmentsGlued(x: string, y: string)
    ensures Blank(x) || Blank(y) ==> NonBlank([x]) + NonBlank([y]) == NonBlank([x + y])
    ensures !Blank(x) && !Blank(y) ==> |NonBlank([x]) + NonBlank([y])| == |NonBlank([x + y])| + 1
  {
    BlankFragment(x, y);
    assert NonBlank([x]) == (if Blank(x) then [] else [TrimSpace(x)]) + NonBlank([x][1..]);
    assert NonBlank([y]) == (if Blank(y) then [] else [TrimSpace(y)]) + NonBlank([y][1..]);
    assert NonBlank([x + y]) == (if Blank(x + y) then [] else [TrimSpace(x + y)]) + NonBlank([x + y][1..]);
  }

  lemma Middles(f: seq<string>, x: seq<string>, y: seq<string>, z: seq<string>, b: seq<string>)
    ensures x + y == z ==> (f + x) + (y + b) == f + (z + b)
    ensures |x + y| != |z| ==> (f + x) + (y + b) != f + (z + b)
  {
    assert |(f + x) + (y + b)| == |f| + |x + y| + |b| && |f + (z + b)| == |f| + |z| + |b|;
  }

  /** The rest of the line on one side of the cut is blank. */
  predicate CleanCut(a: string, b: string) {
    Blank(LastFragment(a)) || Blank(FirstFragment(b))
  }

  /** A clean cut keeps the lines, any other makes two lines of one. */
  lemma CutLines(a: string, b: string)
    ensures CleanCut(a, b) ==> LinesOf(a) + LinesOf(b) == LinesOf(a + b)
    ensures !CleanCut(a, b) ==> |LinesOf(a)| + |LinesOf(b)| == |LinesOf(a + b)| + 1
  {
    var x, y := LastFragment(a), FirstFragment(b);
    LinesByLast(a);
    LinesByFirst(b);
    LinesOfBody(a, b);
    FragmentsGlued(x, y);
    Middles(Front(a), NonBlank([x]), NonBlank([y]), NonBlank([x + y]), Back(b));
  }

  lemma LastFragmentOf(a: string, b: string)
    ensures LastFragment(a + b) == if |Split(b)| > 1 then LastFragment(b) else LastFragment(a) + FirstFragment(b)
  {
    SplitGlues(a, b);
    GlueShape(Split(a), Split(b));
  }

  lemma FirstFragmentOf(a: string, b: string)
    ensures FirstFragment(a + b) == if |Split(a)| > 1 then FirstFragment(a) else LastFragment(a) + FirstFragment(b)
  {
    SplitGlues(a, b);
    GlueShape(Split(a), Split(b));
  }

  /** Behind a clean cut, what comes before it does not matter to the next one. */
  lemma CutBehindCut(a: string, mid: string, b: string)
    ensures CleanCut(a + mid, b) ==> CleanCut(mid, b)
    ensures CleanCut(a, mid + b) && CleanCut(mid, b) ==> CleanCut(a + mid, b)
  {
    LastFragmentOf(a, mid);
    FirstFragmentOf(mid, b);
    if |Split(mid)| == 1 {
      assert LastFragment(mid) == FirstFragment(mid);
      BlankFragment(LastFragment(a), FirstFragment(mid));
      BlankFragment(FirstFragment(mid), FirstFragment(b));
    }
  }

  // ---------------------------------------------------------------- chunking

  /** Every read boundary is a clean cut of the body. */
  ghost predicate CleanCuts(chunks: seq<string>) {
    forall i | 0 < i < |chunks| :: CleanCut(Concat(chunks[..i]), Concat(chunks[i..]))
  }

  lemma {:induction false} ConcatSplits(xs: seq<string>, ys: seq<string>)
    ensures Concat(xs + ys) == Concat(xs) + Concat(ys)
  {
    if xs == [] {
      assert xs + ys == ys && Concat([]) + Concat(ys) == Concat(ys);
    } else {
      assert (xs + ys)[1..] == xs[1..] + ys;
      ConcatSplits(xs[1..], ys);
      assert xs[0] + (Concat(xs[1..]) + Concat(ys)) == xs[0] + Concat(xs[1..]) + Concat(ys);
    }
  }

  lemma LaterCut(chunks: seq<string>, i: nat)
    requires 1 < i < |chunks|
    ensures
      var rest := chunks[1..];
      var mid := Concat(rest[..i - 1]);
      && Concat(chunks[..i]) == chunks[0] + mid
      && Concat(chunks[i..]) == Concat(rest[i - 1..])
      && Concat(rest) == mid + Concat(rest[i - 1..])
  {
    var rest := chunks[1..];
    assert chunks[..i][1..] == rest[..i - 1] && chunks[i..] == rest[i - 1..];
    assert rest == rest[..i - 1] + rest[i - 1..];
    ConcatSplits(rest[..i - 1], rest[i - 1..]);
  }

  lemma FirstCut(chunks: seq<string>)
    requires |chunks| > 1
    ensures Concat(chunks[..1]) == chunks[0]
  {
    assert chunks[..1][1..] == [];
    assert chunks[0] + "" == chunks[0];
  }

  lemma CleanCutsCons(chunks: seq<string>)
    requires |chunks| > 1
    ensures CleanCuts(chunks) <==> CleanCut(chunks[0], Concat(chunks[1..])) && CleanCuts(chunks[1..])
  {
    var rest := chunks[1..];
    FirstCut(chunks);
    if CleanCuts(chunks) {
      assert CleanCut(Concat(chunks[..1]), Concat(chunks[1..]));
      forall i | 0 < i < |rest|
        ensures CleanCut(Concat(rest[..i]), Concat(rest[i..]))
      {
        LaterCut(chunks, i + 1);
        assert CleanCut(Concat(chunks[..i + 1]), Concat(chunks[i + 1..]));
        CutBehindCut(chunks[0], Concat(rest[..i]), Concat(rest[i..]));
      }
    }
    if CleanCut(chunks[0], Concat(rest)) && CleanCuts(rest) {
      forall i | 0 < i < |chunks|
        ensures CleanCut(Concat(chunks[..i]), Concat(chunks[i..]))
      {
        if i > 1 {
          LaterCut(chunks, i);
          assert CleanCut(Concat(rest[..i - 1]), Concat(rest[i - 1..]));
          CutBehindCut(chunks[0], Concat(rest[..i - 1]), Concat(rest[i - 1..]));
        }
      }
    }
  }

  lemma OneChunk(chunks: seq<string>)
    requires |chunks| <= 1
    ensures LinesOf(Buffered(chunks)) == LinesOf(Concat(chunks))
  {
    if |chunks| == 1 {
      NothingAfterNewline(chunks[0]);
      assert chunks[1..] == [];
      assert chunks[0] + "\n" + "" == chunks[0] + "\n" && chunks[0] + "" == chunks[0];
    }
  }

  /**
   For any number of chunks cut anywhere: the newline after every chunk leaves the lines of the body
   as they were if and only if each cut has nothing but blanks on one side of it in its line.
   */
  lemma {:induction false} CutsAreHarmless(chunks: seq<string>)
    ensures LinesOf(Buffered(chunks)) == LinesOf(Concat(chunks)) <==> CleanCuts(chunks)
    ensures |LinesOf(Buffered(chunks))| >= |LinesOf(Concat(chunks))|
    decreases |chunks|
  {
    if |chunks| <= 1 {
      OneChunk(chunks);
    } else {
      var c, rest := chunks[0], chunks[1..];
      CutsAreHarmless(rest);
      LinesAtNewline(c, Buffered(rest));
      CutLines(c, Concat(rest));
      CleanCutsCons(chunks);
      SamePrefix(LinesOf(c), LinesOf(Buffered(rest)), LinesOf(Concat(rest)));
    }
  }

  lemma SamePrefix(xs: seq<string>, ys: seq<string>, zs: seq<string>)
    ensures xs + ys == xs + zs <==> ys == zs
  {
    assert ys == (xs + ys)[|xs|..] && zs == (xs + zs)[|xs|..];
  }

  /** For reads cut cleanly and ended by an empty one, the usage extracted from the buffer is that of the body. */
  lemma UsageIndependentOfChunking(usageOf: Decoder, stream: seq<Read>)
    requires CleanCuts(Delivered(stream)) && LastData(stream) == ""
    ensures LastQualifying(usageOf, LinesOf(Buffered(Delivered(stream)))) == LastQualifying(usageOf, LinesOf(Body(stream)))
  {
    ChunksAreTheBody(stream);
    CutsAreHarmless(Delivered(stream));
  }

  /** Every chunk but the last ends in a newline. */
  ghost predicate LineAligned(chunks: seq<string>) {
    forall i | 0 <= i < |chunks| - 1 :: Terminated(chunks[i])
  }

  lemma TerminatedEnds(s: string)
    requires Terminated(s)
    ensures Blank(LastFragment(s))
  {
    if s != "" {
      var p := s[..|s| - 1];
      SplitAtNewline(p, "");
      assert p + "\n" + "" == s;
    }
  }

  /** Line-aligned chunks are cut cleanly. */
  lemma {:induction false} AlignedCutsAreClean(chunks: seq<string>)
    requires LineAligned(chunks)
    ensures CleanCuts(chunks)
    decreases |chunks|
  {
    if |chunks| > 1 {
      TerminatedEnds(chunks[0]);
      AlignedCutsAreClean(chunks[1..]);
      CleanCutsCons(chunks);
    }
  }

  lemma AlignedChunksKeepLines(chunks: seq<string>)
    requires LineAligned(chunks)
    ensures LinesOf(Buffered(chunks)) == LinesOf(Concat(chunks))
  {
    AlignedCutsAreClean(chunks);
    CutsAreHarmless(chunks);
  }
}
