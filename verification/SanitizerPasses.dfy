/** Which inputs one pass of the sanitizer settles. */
module SanitizerPasses {
  import opened Text
  import opened Sanitizer

  predicate Harmful(s: string) {
    forall c <- s :: IsDangerous(c)
  }

  /**
   The dangerous characters `u[i..j]`, none perhaps at an edge, hide a space: removing them leaves it
   at the start or the end, or brings two together.
   */
  predicate Hides(u: string, i: nat, j: nat) {
    && i <= j <= |u| && Harmful(u[i..j])
    && ((i == 0 && j < |u| && IsSpace(u[j]))
        || (j == |u| && i > 0 && IsSpace(u[i - 1]))
        || (0 < i < j < |u| && IsRegexSpace(u[i - 1]) && IsRegexSpace(u[j])))
  }

  /** The first character that is not dangerous is a space ... */
  predicate Leads(u: string) {
    u != "" && if IsDangerous(u[0]) then Leads(u[1..]) else IsSpace(u[0])
  }

  /** ... or one of the regular expression's; */
  predicate NextIsSpace(u: string) {
    u != "" && if IsDangerous(u[0]) then NextIsSpace(u[1..]) else IsRegexSpace(u[0])
  }

  /** the last one is a space, or `before` said so and there is none; */
  predicate Trails(u: string, before: bool)
    decreases |u|
  {
    if u == "" then before
    else Trails(u[1..], if IsDangerous(u[0]) then before else IsSpace(u[0]))
  }

  /** dangerous characters stand between two spaces. */
  predicate Gaps(u: string) {
    u != "" && ((IsRegexSpace(u[0]) && GapAfter(u[1..])) || Gaps(u[1..]))
  }

  predicate GapAfter(u: string) {
    u != "" && IsDangerous(u[0]) && NextIsSpace(u)
  }

  lemma {:induction false} LeadsWhere(u: string, j: nat)
    requires j < |u| && Harmful(u[..j]) && !IsDangerous(u[j])
    ensures Leads(u) == IsSpace(u[j]) && NextIsSpace(u) == IsRegexSpace(u[j])
  {
    if j > 0 {
      assert u[..j][0] == u[0] && u[..j][1..] == u[1..][..j - 1];
      LeadsWhere(u[1..], j - 1);
    }
  }

  lemma {:induction false} FirstKept(u: string) returns (j: nat)
    requires Leads(u) || NextIsSpace(u)
    ensures j < |u| && Harmful(u[..j]) && !IsDangerous(u[j])
    decreases |u|
  {
    if IsDangerous(u[0]) {
      var k := FirstKept(u[1..]);
      j := k + 1;
      assert u[..j] == [u[0]] + u[1..][..k];
    } else {
      j := 0;
    }
  }

  lemma {:induction false} TrailsSnoc(u: string, c: char, before: bool)
    ensures Trails(u + [c], before) == if IsDangerous(c) then Trails(u, before) else IsSpace(c)
    decreases |u|
  {
    if u == "" {
      assert (u + [c])[1..] == "";
    } else {
      assert (u + [c])[1..] == u[1..] + [c];
      TrailsSnoc(u[1..], c, if IsDangerous(u[0]) then before else IsSpace(u[0]));
    }
  }

  lemma {:induction false} TrailsWhere(u: string, i: nat)
    requires 0 < i <= |u| && Harmful(u[i..]) && !IsDangerous(u[i - 1])
    ensures Trails(u, false) == IsSpace(u[i - 1])
    decreases |u|
  {
    var n := |u| - 1;
    assert u == u[..n] + [u[n]];
    TrailsSnoc(u[..n], u[n], false);
    if i <= n {
      assert u[i..][n - i] == u[n] && u[..n][i..] == u[i..][..n - i];
      TrailsWhere(u[..n], i);
    }
  }

  lemma {:induction false} LastKept(u: string) returns (i: nat)
    requires Trails(u, false)
    ensures 0 < i <= |u| && Harmful(u[i..]) && !IsDangerous(u[i - 1])
    decreases |u|
  {
    var n := |u| - 1;
    assert u == u[..n] + [u[n]];
    TrailsSnoc(u[..n], u[n], false);
    if IsDangerous(u[n]) {
      i := LastKept(u[..n]);
      assert u[i..] == u[..n][i..] + [u[n]];
    } else {
      i := |u|;
    }
  }

  lemma {:induction false} GapWhere(u: string, i: nat, j: nat)
    requires 0 < i < j < |u| && Harmful(u[i..j]) && IsRegexSpace(u[i - 1]) && IsRegexSpace(u[j])
    ensures Gaps(u)
    decreases |u|
  {
    if i == 1 {
      assert u[1..][..j - 1] == u[1..j] && u[1..j][0] == u[1];
      LeadsWhere(u[1..], j - 1);
    } else {
      assert u[1..][i - 1..j - 1] == u[i..j];
      GapWhere(u[1..], i - 1, j - 1);
    }
  }

  lemma {:induction false} SomeGap(u: string) returns (i: nat, j: nat)
    requires Gaps(u)
    ensures 0 < i < j < |u| && Harmful(u[i..j]) && IsRegexSpace(u[i - 1]) && IsRegexSpace(u[j])
    decreases |u|
  {
    if IsRegexSpace(u[0]) && GapAfter(u[1..]) {
      var k := FirstKept(u[1..]);
      LeadsWhere(u[1..], k);
      i, j := 1, k + 1;
      assert u[1..j] == u[1..][..k];
    } else {
      var i1, j1 := SomeGap(u[1..]);
      i, j := i1 + 1, j1 + 1;
      assert u[i..j] == u[1..][i1..j1];
    }
  }

  /** The three recursive tests find exactly the hidden spaces. */
  lemma HiddenSpaces(u: string)
    ensures Leads(u) || Trails(u, false) || Gaps(u) <==> exists i, j :: Hides(u, i, j)
  {
    if Leads(u) {
      var j := FirstKept(u);
      LeadsWhere(u, j);
      assert u[0..j] == u[..j] && Hides(u, 0, j);
    }
    if Trails(u, false) {
      var i := LastKept(u);
      TrailsWhere(u, i);
      assert u[i..|u|] == u[i..] && Hides(u, i, |u|);
    }
    if Gaps(u) {
      var i, j := SomeGap(u);
      assert Hides(u, i, j);
    }
    forall i: nat, j: nat | Hides(u, i, j)
      ensures Leads(u) || Trails(u, false) || Gaps(u)
    {
      if i == 0 && j < |u| && IsSpace(u[j]) {
        assert u[0..j] == u[..j];
        LeadsWhere(u, j);
      } else if j == |u| && i > 0 && IsSpace(u[i - 1]) {
        assert u[i..j] == u[i..];
        TrailsWhere(u, i);
      } else {
        GapWhere(u, i, j);
      }
    }
  }

  // ---------------------------------------------------------------- the tests see through the pipeline

  lemma {:induction false} SkipTests(u: string)
    ensures Trails(SkipSpaces(u), true) == Trails(u, true)
    ensures (GapAfter(SkipSpaces(u)) || Gaps(SkipSpaces(u))) == (GapAfter(u) || Gaps(u))
  {
    if u != "" && IsRegexSpace(u[0]) {
      SkipTests(u[1..]);
    }
  }

  lemma {:induction false} CollapseTests(u: string, before: bool)
    ensures Leads(Collapse(u)) == Leads(u) && NextIsSpace(Collapse(u)) == NextIsSpace(u)
    ensures Trails(Collapse(u), before) == Trails(u, before)
    ensures Gaps(Collapse(u)) == Gaps(u)
    ensures u != "" && !IsRegexSpace(u[0]) ==> GapAfter(Collapse(u)) == GapAfter(u)
    decreases |u|
  {
    if u != "" {
      if IsRegexSpace(u[0]) {
        var rest := SkipSpaces(u[1..]);
        assert Collapse(u)[1..] == Collapse(rest);
        SkipTests(u[1..]);
        SkipShape(u[1..]);
        CollapseTests(rest, true);
      } else {
        assert Collapse(u)[1..] == Collapse(u[1..]);
        CollapseTests(u[1..], if IsDangerous(u[0]) then before else IsSpace(u[0]));
      }
    }
  }

  lemma {:induction false} StripTests(c: string, before: bool)
    ensures Leads(Strip(c)) == Leads(c) && NextIsSpace(Strip(c)) == NextIsSpace(c)
    ensures Trails(Strip(c), before) == Trails(c, before)
    decreases |c|
  {
    if c != "" {
      StripTests(c[1..], if IsDangerous(c[0]) then before else IsSpace(c[0]));
      if !IsDangerous(c[0]) {
        assert Strip(c)[1..] == Strip(c[1..]);
      } else {
        assert Strip(c) == Strip(c[1..]);
      }
    }
  }

  predicate Doubled(r: string) {
    r != "" && ((IsRegexSpace(r[0]) && r[1..] != "" && IsRegexSpace(r[1])) || Doubled(r[1..]))
  }

  lemma {:induction false} DoubledMeans(r: string)
    ensures Doubled(r) <==> exists i :: 0 < i < |r| && IsRegexSpace(r[i - 1]) && IsRegexSpace(r[i])
    decreases |r|
  {
    if r != "" {
      DoubledMeans(r[1..]);
      if Doubled(r[1..]) {
        var i :| 0 < i < |r[1..]| && IsRegexSpace(r[1..][i - 1]) && IsRegexSpace(r[1..][i]);
        assert r[i + 1] == r[1..][i] && r[i] == r[1..][i - 1];
      }
      forall i | 0 < i < |r| && IsRegexSpace(r[i - 1]) && IsRegexSpace(r[i])
        ensures Doubled(r)
      {
        if i > 1 {
          assert r[1..][i - 1] == r[i] && r[1..][i - 2] == r[i - 1];
        }
      }
    }
  }

  /** Stripping brings two spaces together exactly across a gap, as there are none together before. */
  lemma {:induction false} StripDoubles(c: string)
    requires !Doubled(c)
    ensures Doubled(Strip(c)) == Gaps(c)
    decreases |c|
  {
    if c != "" {
      StripDoubles(c[1..]);
      if !IsDangerous(c[0]) {
        assert Strip(c)[1..] == Strip(c[1..]);
        StripTests(c[1..], false);
        StripShape(c[1..]);
      } else {
        assert Strip(c) == Strip(c[1..]);
      }
    }
  }

  lemma TrimmedMeans(r: string)
    requires forall c <- r :: !IsDangerous(c)
    ensures Trimmed(r) <==> !Leads(r) && !Trails(r, false)
  {
    if r != "" {
      assert r[0] in r && r[|r| - 1] in r;
      assert r == r[..|r| - 1] + [r[|r| - 1]];
      TrailsSnoc(r[..|r| - 1], r[|r| - 1], false);
    }
  }

  lemma OnlyBlanks(u: string)
    ensures var r := Strip(Collapse(u));
      forall i | 0 <= i < |r| :: IsRegexSpace(r[i]) ==> r[i] == ' '
  {
    var c := Collapse(u);
    CollapseShape(u);
    StripShape(c);
    forall i | 0 <= i < |Strip(c)| && IsRegexSpace(Strip(c)[i])
      ensures Strip(c)[i] == ' '
    {
      assert Strip(c)[i] in c;
    }
  }

  lemma CollapsedOnce(u: string)
    ensures !Doubled(Collapse(u))
  {
    CollapseShape(u);
    DoubledMeans(Collapse(u));
  }

  /** What is left of `u` is normal exactly if `u` hides no space. */
  lemma NormalMeans(u: string)
    ensures Normal(Strip(Collapse(u))) <==> !exists i, j :: Hides(u, i, j)
  {
    var c := Collapse(u);
    var r := Strip(c);
    OnlyBlanks(u);
    CollapsedOnce(u);
    StripDoubles(c);
    DoubledMeans(r);
    assert Trimmed(r) <==> !Leads(r) && !Trails(r, false) by {
      StripShape(c);
      TrimmedMeans(r);
    }
    CollapseTests(u, false);
    StripTests(c, false);
    HiddenSpaces(u);
  }

  // ---------------------------------------------------------------- the limit

  /**
   The part of `t` that a limit of `room` characters lets through: dangerous characters and spaces
   after a space, which `spaced` says comes just before, take no room.
   */
  function Through(t: string, room: nat, spaced: bool): string
    decreases |t|
  {
    if t == "" || room == 0 then ""
    else if IsDangerous(t[0]) then [t[0]] + Through(t[1..], room, false)
    else if IsRegexSpace(t[0]) && spaced then [t[0]] + Through(t[1..], room, true)
    else [t[0]] + Through(t[1..], room - 1, IsRegexSpace(t[0]))
  }

  function Remains(t: string, spaced: bool): string {
    Strip(Collapse(if spaced then SkipSpaces(t) else t))
  }

  lemma RemainsStep(t: string, spaced: bool)
    requires t != ""
    ensures Remains(t, spaced)
         == if IsDangerous(t[0]) then Remains(t[1..], false)
            else if IsRegexSpace(t[0]) && spaced then Remains(t[1..], true)
            else [if IsRegexSpace(t[0]) then ' ' else t[0]] + Remains(t[1..], IsRegexSpace(t[0]))
  {
    if IsRegexSpace(t[0]) {
      if !spaced {
        assert Collapse(t)[1..] == Collapse(SkipSpaces(t[1..]));
      }
    } else {
      assert Collapse(t)[1..] == Collapse(t[1..]);
      if IsDangerous(t[0]) {
        assert "" + Strip(Collapse(t[1..])) == Strip(Collapse(t[1..]));
      }
    }
  }

  lemma {:induction false} ThroughRemains(t: string, room: nat, spaced: bool)
    ensures
      var r := Remains(t, spaced);
      Remains(Through(t, room, spaced), spaced) == if |r| > room then r[..room] else r
    decreases |t|
  {
    if t != "" && room > 0 {
      RemainsStep(t, spaced);
      RemainsStep(Through(t, room, spaced), spaced);
      if IsDangerous(t[0]) {
        ThroughRemains(t[1..], room, false);
      } else if IsRegexSpace(t[0]) && spaced {
        ThroughRemains(t[1..], room, true);
      } else {
        ThroughRemains(t[1..], room - 1, IsRegexSpace(t[0]));
      }
    }
  }

  /** The part of the trimmed input that reaches the result. */
  function Visible(max: int, s: string): string {
    if max > 0 then Through(TrimSpace(s), max, false) else TrimSpace(s)
  }

  /**
   One pass settles a string exactly when the part of its trimmed text that the limit lets through
   hides no space behind dangerous characters or at its end.
   */
  lemma OnePassSettles(max: int, s: string)
    ensures Sanitize(max, Sanitize(max, s)) == Sanitize(max, s) <==> !exists i, j :: Hides(Visible(max, s), i, j)
  {
    if max > 0 {
      ThroughRemains(TrimSpace(s), max, false);
    }
    assert Sanitize(max, s) == Strip(Collapse(Visible(max, s)));
    NormalMeans(Visible(max, s));
    SettledMeansNormal(max, s);
  }
}
