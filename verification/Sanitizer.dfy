/** Input sanitization: strings, and JSON trees in which Go's map iteration order is arbitrary. */
module Sanitizer {
  import opened Text

  /** `\s` of the regular expression: ASCII only, without the vertical tab. */
  predicate IsRegexSpace(c: char) {
    c == ' ' || c == '\t' || c == '\n' || c == '\U{0C}' || c == '\r'
  }

  predicate IsDangerous(c: char) {
    c == '<' || c == '>' || c == '"' || c == '\''
  }

  function SkipSpaces(s: string): (r: string)
    ensures |r| <= |s|
  {
    if s != "" && IsRegexSpace(s[0]) then SkipSpaces(s[1..]) else s
  }

  /** Every run of spaces becomes one blank. */
  function Collapse(s: string): string
    decreases |s|
  {
    if s == "" then ""
    else if IsRegexSpace(s[0]) then " " + Collapse(SkipSpaces(s[1..]))
    else [s[0]] + Collapse(s[1..])
  }

  function Strip(s: string): string {
    if s == "" then "" else (if IsDangerous(s[0]) then "" else [s[0]]) + Strip(s[1..])
  }

  function Cut(s: string, max: int): string {
    if max > 0 && |s| > max then s[..max] else s
  }

  /** `sanitizeString`. */
  function Sanitize(max: int, s: string): string {
    Cut(Strip(Collapse(TrimSpace(s))), max)
  }

  predicate Clean(max: int, s: string) {
    (forall c <- s :: !IsDangerous(c)) && (max > 0 ==> |s| <= max)
  }

  /** None of the four characters that could end a tag or a quotation, and no tab or line break. */
  predicate IsHarmless(c: char) {
    && c != '<' && c != '>' && c != '"' && c != '\''
    && c != '\t' && c != '\n' && c != '\U{0C}' && c != '\r'
  }

  predicate Harmless(max: int, s: string) {
    (forall c <- s :: IsHarmless(c)) && (max > 0 ==> |s| <= max)
  }

  /** Trimmed, with single blanks for spaces. */
  predicate Normal(s: string) {
    && Trimmed(s)
    && (forall i | 0 <= i < |s| :: IsRegexSpace(s[i]) ==> s[i] == ' ')
    && (forall i | 0 < i < |s| :: !(IsRegexSpace(s[i - 1]) && IsRegexSpace(s[i])))
  }

  // ---------------------------------------------------------------- strings

  lemma {:induction false} StripShape(s: string)
    ensures |Strip(s)| <= |s|
    ensures forall c <- Strip(s) :: !IsDangerous(c) && c in s
    ensures (forall c <- s :: !IsDangerous(c)) ==> Strip(s) == s
  {
    if s != "" {
      StripShape(s[1..]);
      assert s == [s[0]] + s[1..];
    }
  }

  lemma {:induction false} SkipShape(s: string)
    ensures SkipSpaces(s) != "" ==> !IsRegexSpace(SkipSpaces(s)[0])
    ensures forall c <- SkipSpaces(s) :: c in s
  {
    if s != "" && IsRegexSpace(s[0]) {
      SkipShape(s[1..]);
    }
  }

  lemma {:induction false} SkipKeepsEnd(s: string)
    requires s != "" && !IsRegexSpace(s[|s| - 1])
    ensures SkipSpaces(s) != "" && SkipSpaces(s)[|SkipSpaces(s)| - 1] == s[|s| - 1]
  {
    if IsRegexSpace(s[0]) {
      SkipKeepsEnd(s[1..]);
    }
  }

  /** Collapsing shortens, adds only blanks, and leaves no two spaces together. */
  lemma {:induction false} CollapseShape(s: string)
    ensures var r := Collapse(s);
      && |r| <= |s|
      && (forall c <- r :: c in s || c == ' ')
      && (forall i | 0 <= i < |r| :: IsRegexSpace(r[i]) ==> r[i] == ' ')
      && (forall i | 0 < i < |r| :: !(IsRegexSpace(r[i - 1]) && IsRegexSpace(r[i])))
      && (s != "" && !IsRegexSpace(s[0]) ==> r != "" && r[0] == s[0])
    decreases |s|
  {
    if s != "" {
      if IsRegexSpace(s[0]) {
        SkipShape(s[1..]);
        CollapseShape(SkipSpaces(s[1..]));
      } else {
        CollapseShape(s[1..]);
      }
    }
  }

  lemma {:induction false} CollapseEnd(s: string)
    requires s != "" && !IsRegexSpace(s[|s| - 1])
    ensures Collapse(s) != "" && Collapse(s)[|Collapse(s)| - 1] == s[|s| - 1]
    decreases |s|
  {
    if IsRegexSpace(s[0]) {
      SkipKeepsEnd(s[1..]);
      CollapseEnd(SkipSpaces(s[1..]));
    } else if |s| > 1 {
      CollapseEnd(s[1..]);
    }
  }

  lemma CollapseTrimmedIsNormal(s: string)
    requires Trimmed(s)
    ensures Normal(Collapse(s))
  {
    CollapseShape(s);
    if s != "" {
      CollapseEnd(s);
    }
  }

  lemma {:induction false} SingleSpacesStay(s: string)
    requires forall i | 0 <= i < |s| :: IsRegexSpace(s[i]) ==> s[i] == ' '
    requires forall i | 0 < i < |s| :: !(IsRegexSpace(s[i - 1]) && IsRegexSpace(s[i]))
    ensures Collapse(s) == s
  {
    if s != "" {
      if IsRegexSpace(s[0]) && |s| > 1 {
        assert !IsRegexSpace(s[1]);
        assert SkipSpaces(s[1..]) == s[1..];
      }
      forall i | 0 < i < |s[1..]|
        ensures !(IsRegexSpace(s[1..][i - 1]) && IsRegexSpace(s[1..][i]))
      {
        assert s[1..][i - 1] == s[i] && s[1..][i] == s[i + 1];
      }
      SingleSpacesStay(s[1..]);
      assert s == [s[0]] + s[1..];
    }
  }

  lemma NormalStays(s: string)
    requires Normal(s)
    ensures Collapse(TrimSpace(s)) == s
  {
    assert TrimSpace(s) == s;
    SingleSpacesStay(s);
  }

  /** Every result is free of the dangerous characters and of line breaks, and no longer than a positive limit. */
  lemma SanitizedIsClean(max: int, s: string)
    ensures Clean(max, Sanitize(max, s)) && Harmless(max, Sanitize(max, s))
  {
    var collapsed := Collapse(TrimSpace(s));
    CollapseShape(TrimSpace(s));
    StripShape(collapsed);
    forall c | c in Sanitize(max, s)
      ensures !IsDangerous(c) && IsHarmless(c)
    {
      assert c in Strip(collapsed) && c in collapsed;
    }
  }

  /** On clean strings only trimming and collapsing are left to do. */
  lemma CleanOnlyNormalizes(max: int, s: string)
    requires Clean(max, s)
    ensures Sanitize(max, s) == Collapse(TrimSpace(s)) && Normal(Sanitize(max, s)) && Clean(max, Sanitize(max, s))
  {
    TrimSpaceShape(s);
    CollapseShape(TrimSpace(s));
    StripShape(Collapse(TrimSpace(s)));
    CollapseTrimmedIsNormal(TrimSpace(s));
    assert forall c <- Collapse(TrimSpace(s)) :: c in TrimSpace(s) || c == ' ';
  }

  lemma SettledWhenNormal(max: int, s: string)
    requires Clean(max, s)
    ensures Sanitize(max, s) == s <==> Normal(s)
  {
    CleanOnlyNormalizes(max, s);
    if Normal(s) {
      NormalStays(s);
    }
  }

  /** Two passes settle every string. */
  lemma TwoPassesSettle(max: int, s: string)
    ensures Sanitize(max, Sanitize(max, Sanitize(max, s))) == Sanitize(max, Sanitize(max, s))
  {
    SanitizedIsClean(max, s);
    CleanOnlyNormalizes(max, Sanitize(max, s));
    SettledWhenNormal(max, Sanitize(max, Sanitize(max, s)));
  }

  /** One pass settles a string exactly when what it leaves is normal. */
  lemma SettledMeansNormal(max: int, s: string)
    ensures Sanitize(max, Sanitize(max, s)) == Sanitize(max, s) <==> Normal(Sanitize(max, s))
  {
    SanitizedIsClean(max, s);
    SettledWhenNormal(max, Sanitize(max, s));
  }

  lemma {:induction false} StripAppend(a: string, b: string)
    ensures Strip(a + b) == Strip(a) + Strip(b)
  {
    if a == "" {
      assert a + b == b;
    } else {
      assert (a + b)[1..] == a[1..] + b;
      StripAppend(a[1..], b);
    }
  }

  lemma DangerBehindSpace(s: string, c: char)
    requires s != "" && Normal(s) && IsDangerous(c)
    ensures Normal(s + [' ', c])
  {
    var t := s + [' ', c];
    assert t[|t| - 1] == c && t[0] == s[0] && t[|s|] == ' ' && !IsSpace(c);
  }

  lemma TrailingSpace(s: string)
    requires s != "" && Normal(s)
    ensures Sanitize(0, s + [' ']) == Strip(s)
  {
    var u := s + [' '];
    assert TrimLeft(u) == u && u[..|u| - 1] == s;
    assert TrimRight(u) == TrimRight(s) == s;
    SingleSpacesStay(s);
  }

  /** One pass is not always enough: a dangerous character removed behind a space uncovers the space. */
  lemma OnePassIsNotEnough(s: string, c: char)
    requires s != "" && Normal(s) && Clean(0, s) && IsDangerous(c)
    ensures Sanitize(0, s + [' ', c]) == s + [' ']
    ensures Sanitize(0, s + [' ']) == s
  {
    DangerBehindSpace(s, c);
    NormalStays(s + [' ', c]);
    StripAppend(s, [' ', c]);
    assert Strip([' ', c]) == [' '] by {
      assert [' ', c][1..] == [c] && [c][1..] == "";
      assert Strip("") == "" && Strip([c]) == "";
    }
    StripShape(s);
    TrailingSpace(s);
  }

  /** The text that sanitizing must not touch. */
  function Letters(s: string): string {
    if s == "" then ""
    else
      (if IsSpace(s[0]) || s[0] == '<' || s[0] == '>' || s[0] == '"' || s[0] == '\'' then "" else [s[0]]) + Letters(s[1..])
  }

  lemma {:induction false} LettersAppend(a: string, b: string)
    ensures Letters(a + b) == Letters(a) + Letters(b)
  {
    if a == "" {
      assert a + b == b;
    } else {
      assert (a + b)[1..] == a[1..] + b;
      LettersAppend(a[1..], b);
    }
  }

  lemma {:induction false} TrimKeepsLetters(s: string)
    ensures Letters(TrimLeft(s)) == Letters(s) == Letters(TrimRight(s))
    decreases |s|
  {
    if s != "" {
      var n := |s| - 1;
      TrimKeepsLetters(s[1..]);
      TrimKeepsLetters(s[..n]);
      assert s == s[..n] + [s[n]];
      LettersAppend(s[..n], [s[n]]);
      assert [s[n]][1..] == "";
    }
  }

  lemma {:induction false} SkipKeepsLetters(s: string)
    ensures Letters(SkipSpaces(s)) == Letters(s)
  {
    if s != "" && IsRegexSpace(s[0]) {
      SkipKeepsLetters(s[1..]);
    }
  }

  lemma {:induction false} CollapseKeepsLetters(s: string)
    ensures Letters(Collapse(s)) == Letters(s)
    decreases |s|
  {
    if s != "" {
      if IsRegexSpace(s[0]) {
        var rest := SkipSpaces(s[1..]);
        SkipKeepsLetters(s[1..]);
        CollapseKeepsLetters(rest);
        assert (" " + Collapse(rest))[1..] == Collapse(rest);
      } else {
        CollapseKeepsLetters(s[1..]);
      }
    }
  }

  lemma {:induction false} StripKeepsLetters(s: string)
    ensures Letters(Strip(s)) == Letters(s)
  {
    if s != "" {
      StripKeepsLetters(s[1..]);
      if !IsDangerous(s[0]) {
        assert ([s[0]] + Strip(s[1..]))[1..] == Strip(s[1..]);
      } else {
        assert "" + Strip(s[1..]) == Strip(s[1..]);
        assert "" + Letters(s[1..]) == Letters(s[1..]);
      }
    }
  }

  /** Apart from the limit, sanitizing keeps all other text in order; the limit cuts the finished result. */
  lemma TextIsKept(max: int, s: string)
    ensures Letters(Sanitize(0, s)) == Letters(s)
    ensures Sanitize(max, s) <= Sanitize(0, s)
    ensures Sanitize(max, s) != Sanitize(0, s) ==> max > 0 && |Sanitize(max, s)| == max
  {
    TrimKeepsLetters(s);
    TrimKeepsLetters(TrimLeft(s));
    CollapseKeepsLetters(TrimSpace(s));
    StripKeepsLetters(Collapse(TrimSpace(s)));
  }

  // ---------------------------------------------------------------- trees

  datatype Json = Str(s: string) | Arr(items: seq<Json>) | Obj(fields: map<string, Json>) | Other(code: int)

  /**
   The results `SanitizeInput` may give: when two keys sanitize alike, the iteration order decides
   whose value is kept.
   */
  ghost predicate SanitizesTo(max: int, t: Json, out: Json)
    decreases t
  {
    match t
    case Str(s) => out == Str(Sanitize(max, s))
    case Arr(items) =>
      out.Arr? && |out.items| == |items| && forall i | 0 <= i < |items| :: SanitizesTo(max, items[i], out.items[i])
    case Obj(fields) =>
      && out.Obj?
      && (forall k | k in fields :: Sanitize(max, k) in out.fields)
      && (forall k | k in out.fields ::
            exists k0 | k0 in fields :: Sanitize(max, k0) == k && SanitizesTo(max, fields[k0], out.fields[k]))
    case Other(_) => out == t
  }

  class Validator {
    const sanitization: bool
    const maxStringLen: int

    constructor (sanitization: bool, maxStringLen: int)
      ensures this.sanitization == sanitization && this.maxStringLen == maxStringLen
    {
      this.sanitization := sanitization;
      this.maxStringLen := maxStringLen;
    }

    method SanitizeInput(data: Json) returns (result: Json)
      ensures if sanitization then SanitizesTo(maxStringLen, data, result) else result == data
      decreases data
    {
      if !sanitization {
        return data;
      }
      match data
      case Str(s) => result := Str(Sanitize(maxStringLen, s));
      case Arr(items) => {
        var out: seq<Json> := [];
        for i := 0 to |items|
          invariant |out| == i
          invariant forall j | 0 <= j < i :: SanitizesTo(maxStringLen, items[j], out[j])
        {
          var item := SanitizeInput(items[i]);
          out := out + [item];
        }
        result := Arr(out);
      }
      case Obj(fields) => {
        var out: map<string, Json> := map[];
        var left := fields.Keys;
        while left != {}
          invariant left <= fields.Keys
          invariant forall k | k in fields && k !in left :: Sanitize(maxStringLen, k) in out
          invariant forall k | k in out ::
            exists k0 | k0 in fields :: Sanitize(maxStringLen, k0) == k && SanitizesTo(maxStringLen, fields[k0], out[k])
          decreases |left|
        {
          var key :| key in left;
          var value := SanitizeInput(fields[key]);
          out := out[Sanitize(maxStringLen, key) := value];
          left := left - {key};
        }
        result := Obj(out);
      }
      case Other(_) => result := data;
    }
  }

  /** Every string and key of a tree is clean. */
  ghost predicate CleanTree(max: int, t: Json)
    decreases t
  {
    match t
    case Str(s) => Harmless(max, s)
    case Arr(items) => forall i | 0 <= i < |items| :: CleanTree(max, items[i])
    case Obj(fields) => forall k | k in fields :: Harmless(max, k) && CleanTree(max, fields[k])
    case Other(_) => true
  }

  /** Whatever the iteration order, the whole output is clean. */
  lemma {:induction false} OutputIsClean(max: int, t: Json, out: Json)
    requires SanitizesTo(max, t, out)
    ensures CleanTree(max, out)
    decreases t
  {
    match t
    case Str(s) => SanitizedIsClean(max, s);
    case Arr(items) =>
      forall i | 0 <= i < |items|
        ensures CleanTree(max, out.items[i])
      {
        OutputIsClean(max, items[i], out.items[i]);
      }
    case Obj(fields) =>
      forall k | k in out.fields
        ensures Harmless(max, k) && CleanTree(max, out.fields[k])
      {
        var k0 :| k0 in fields && Sanitize(max, k0) == k && SanitizesTo(max, fields[k0], out.fields[k]);
        SanitizedIsClean(max, k0);
        OutputIsClean(max, fields[k0], out.fields[k]);
      }
    case Other(_) =>
  }

  /** The keys of an output object are exactly the sanitized keys of the input. */
  lemma {:induction false} OutputKeys(max: int, t: Json, out: Json)
    requires SanitizesTo(max, t, out) && t.Obj?
    ensures out.fields.Keys == set k | k in t.fields :: Sanitize(max, k)
  {
    forall k | k in out.fields
      ensures k in (set k0 | k0 in t.fields :: Sanitize(max, k0))
    {
      var k0 :| k0 in t.fields && Sanitize(max, k0) == k && SanitizesTo(max, t.fields[k0], out.fields[k]);
    }
  }

  /** Every string and key is left alone by a further pass. */
  ghost predicate Settled(max: int, t: Json)
    decreases t
  {
    match t
    case Str(s) => Sanitize(max, s) == s
    case Arr(items) => forall i | 0 <= i < |items| :: Settled(max, items[i])
    case Obj(fields) => forall k | k in fields :: Sanitize(max, k) == k && Settled(max, fields[k])
    case Other(_) => true
  }

  lemma {:induction false} TwoPassesSettleTree(max: int, t: Json, a: Json, b: Json)
    requires SanitizesTo(max, t, a) && SanitizesTo(max, a, b)
    ensures Settled(max, b)
    decreases t
  {
    match t
    case Str(s) => TwoPassesSettle(max, s);
    case Arr(items) =>
      forall i | 0 <= i < |items|
        ensures Settled(max, b.items[i])
      {
        TwoPassesSettleTree(max, items[i], a.items[i], b.items[i]);
      }
    case Obj(fields) =>
      forall k | k in b.fields
        ensures Sanitize(max, k) == k && Settled(max, b.fields[k])
      {
        var k1 :| k1 in a.fields && Sanitize(max, k1) == k && SanitizesTo(max, a.fields[k1], b.fields[k]);
        var k0 :| k0 in fields && Sanitize(max, k0) == k1 && SanitizesTo(max, fields[k0], a.fields[k1]);
        TwoPassesSettle(max, k0);
        TwoPassesSettleTree(max, fields[k0], a.fields[k1], b.fields[k]);
      }
    case Other(_) =>
  }

  lemma {:induction false} SettledStays(max: int, b: Json, c: Json)
    requires Settled(max, b) && SanitizesTo(max, b, c)
    ensures c == b
    decreases b
  {
    match b
    case Str(_) =>
    case Arr(items) =>
      forall i | 0 <= i < |items|
        ensures c.items[i] == items[i]
      {
        SettledStays(max, items[i], c.items[i]);
      }
      assert c.items == items;
    case Obj(fields) =>
      forall k | k in c.fields
        ensures k in fields && c.fields[k] == fields[k]
      {
        SettledKey(max, fields, c.fields, k);
        SettledStays(max, fields[k], c.fields[k]);
      }
      assert forall k | k in fields :: Sanitize(max, k) == k && k in c.fields;
      assert c.fields == fields;
    case Other(_) =>
  }

  lemma SettledKey(max: int, fields: map<string, Json>, out: map<string, Json>, k: string)
    requires k in out && forall k0 | k0 in fields :: Sanitize(max, k0) == k0
    requires exists k0 | k0 in fields :: Sanitize(max, k0) == k && SanitizesTo(max, fields[k0], out[k])
    ensures k in fields && SanitizesTo(max, fields[k], out[k])
  {
  }

  /** Three passes over a tree equal two, whichever orders the passes iterate in. */
  lemma ThirdPassIsIdle(max: int, t: Json, a: Json, b: Json, c: Json)
    requires SanitizesTo(max, t, a) && SanitizesTo(max, a, b) && SanitizesTo(max, b, c)
    ensures c == b
  {
    TwoPassesSettleTree(max, t, a, b);
    SettledStays(max, b, c);
  }
}
