/** Token usage out of a streamed response: the read loop, the buffer, and the scan for usage lines. */
module StreamUsage {
  import opened Common
  import opened Text
  import opened UsageLedger

  // ---------------------------------------------------------------- reading

  datatype End = Going | EOF | Broken

  /** One `Body.Read`: the bytes it filled in and the error it returned with them. */
  datatype Read = Read(data: string, end: End)

  const BUFFER_SIZE := 1024

  predicate Fits(stream: seq<Read>) {
    forall r <- stream :: |r.data| <= BUFFER_SIZE
  }

  /** The chunks the callback sees: those of reads without error, before the first error. */
  function Delivered(stream: seq<Read>): seq<string> {
    if stream == [] || stream[0].end != Going then []
    else (if stream[0].data == "" then [] else [stream[0].data]) + Delivered(stream[1..])
  }

  predicate Completes(stream: seq<Read>) {
    stream == [] || stream[0].end == EOF || (stream[0].end == Going && Completes(stream[1..]))
  }

  /** The bytes the upstream sent, up to and with the read that ended the body. */
  function Body(stream: seq<Read>): string {
    if stream == [] then ""
    else if stream[0].end != Going then stream[0].data
    else stream[0].data + Body(stream[1..])
  }

  /** No read breaks off before one has reached the end. */
  ghost predicate ReadToTheEnd(stream: seq<Read>) {
    forall i | 0 <= i < |stream| && stream[i].end == Broken :: exists j | 0 <= j < i :: stream[j].end == EOF
  }

  lemma {:induction false} CompletesMeans(stream: seq<Read>)
    ensures Completes(stream) <==> ReadToTheEnd(stream)
  {
    if stream != [] {
      CompletesMeans(stream[1..]);
      if stream[0].end == Going {
        if ReadToTheEnd(stream) {
          forall i | 0 <= i < |stream[1..]| && stream[1..][i].end == Broken
            ensures exists j | 0 <= j < i :: stream[1..][j].end == EOF
          {
            assert stream[i + 1].end == Broken;
            var j :| 0 <= j < i + 1 && stream[j].end == EOF;
            assert stream[1..][j - 1].end == EOF;
          }
        }
        if ReadToTheEnd(stream[1..]) {
          forall i | 0 <= i < |stream| && stream[i].end == Broken
            ensures exists j | 0 <= j < i :: stream[j].end == EOF
          {
            assert stream[1..][i - 1].end == Broken;
            var j :| 0 <= j < i - 1 && stream[1..][j].end == EOF;
            assert stream[j + 1].end == EOF;
          }
        }
      }
    }
  }

  function Concat(chunks: seq<string>): string {
    if chunks == [] then "" else chunks[0] + Concat(chunks[1..])
  }

  /** The stream buffer: a newline after every chunk. */
  function Buffered(chunks: seq<string>): string {
    if chunks == [] then "" else chunks[0] + "\n" + Buffered(chunks[1..])
  }

  lemma {:induction false} BufferedAppend(chunks: seq<string>, chunk: string)
    ensures Buffered(chunks + [chunk]) == Buffered(chunks) + chunk + "\n"
  {
    if chunks != [] {
      assert (chunks + [chunk])[1..] == chunks[1..] + [chunk];
      BufferedAppend(chunks[1..], chunk);
      assert chunks[0] + "\n" + (Buffered(chunks[1..]) + chunk + "\n") == (chunks[0] + "\n" + Buffered(chunks[1..])) + chunk + "\n";
    } else {
      assert Buffered([]) + chunk + "\n" == chunk + "\n" + Buffered([]);
    }
  }

  /** The read loop over one reused array; the callback copies each chunk into the stream buffer. */
  method StreamChunks(stream: seq<Read>) returns (ok: bool, streamBuffer: string)
    requires Fits(stream)
    ensures ok == Completes(stream)
    ensures streamBuffer == Buffered(Delivered(stream))
  {
    var buf := new char[BUFFER_SIZE](_ => '\0');
    streamBuffer := "";
    ghost var seen: seq<string> := [];
    for i := 0 to |stream|
      invariant fresh(buf) && streamBuffer == Buffered(seen)
      invariant Delivered(stream) == seen + Delivered(stream[i..])
      invariant Completes(stream) == Completes(stream[i..])
    {
      var n := |stream[i].data|;
      forall k | 0 <= k < n {
        buf[k] := stream[i].data[k];
      }
      if stream[i].end == EOF {
        assert seen + [] == seen;
        return true, streamBuffer;
      }
      if stream[i].end == Broken {
        assert seen + [] == seen;
        return false, streamBuffer;
      }
      var chunk := buf[..n];
      assert chunk == stream[i].data;
      assert stream[i..][1..] == stream[i + 1..];
      if |chunk| > 0 {
        BufferedAppend(seen, chunk);
        streamBuffer := streamBuffer + chunk + "\n";
        seen := seen + [chunk];
      }
    }
    ok := true;
    assert seen + [] == seen;
  }

  /** The bytes returned together with the end of the body. */
  function LastData(stream: seq<Read>): string {
    if stream == [] then ""
    else if stream[0].end != Going then stream[0].data
    else LastData(stream[1..])
  }

  lemma {:induction false} DeliveredIsPrefix(stream: seq<Read>)
    ensures Body(stream) == Concat(Delivered(stream)) + LastData(stream)
  {
    if stream != [] && stream[0].end == Going {
      DeliveredIsPrefix(stream[1..]);
      assert stream[0].data + (Concat(Delivered(stream[1..])) + LastData(stream[1..]))
          == stream[0].data + Concat(Delivered(stream[1..])) + LastData(stream[1..]);
      if stream[0].data != "" {
        assert Delivered(stream)[1..] == Delivered(stream[1..]);
      } else {
        assert "" + Concat(Delivered(stream[1..])) == Concat(Delivered(stream[1..]));
        assert Delivered(stream) == Delivered(stream[1..]);
      }
    }
  }

  /** The chunks make up the body exactly for readers that end it with an empty read. */
  lemma ChunksAreTheBody(stream: seq<Read>)
    ensures Concat(Delivered(stream)) == Body(stream) <==> LastData(stream) == ""
  {
    DeliveredIsPrefix(stream);
    assert |Body(stream)| == |Concat(Delivered(stream))| + |LastData(stream)|;
  }

  // ---------------------------------------------------------------- scanning

  /** `bytes.Index`: what follows the first occurrence of `p`, or all of `s` without one. */
  function AfterFirst(s: string, p: string): string {
    if !Contains(s, p) then s
    else if p <= s then s[|p|..]
    else AfterFirst(s[1..], p)
  }

  /** `usageOf` decodes the usage object of a JSON line, if there is one. */
  type Decoder = string -> Option<Usage>

  /** What a trimmed, non-blank line contributes. */
  function Qualify(usageOf: Decoder, line: string): Option<Usage> {
    var payload := AfterFirst(line, "data: ");
    if Contains(payload, "[DONE]") || |payload| < 10 then None
    else
      var u := usageOf(payload);
      if u.Some? && u.value.total > 0 then u else None
  }

  /** The forward reference: the last line that qualifies. */
  function LastQualifying(usageOf: Decoder, lines: seq<string>): Option<Usage> {
    if lines == [] then None
    else
      var rest := LastQualifying(usageOf, lines[1..]);
      if rest.Some? then rest else Qualify(usageOf, lines[0])
  }

  /** What a line carries: the text behind its first "data: ", or all of it. */
  ghost predicate Carries(line: string, payload: string) {
    || (exists i :: FirstAt(line, "data: ", i) && payload == line[i + 6..])
    || (!Occurs(line, "data: ") && payload == line)
  }

  /** A line that tells the usage `u`. */
  ghost predicate UsageLine(usageOf: Decoder, line: string, u: Usage) {
    exists payload: string ::
      Carries(line, payload) && |payload| >= 10 && !Occurs(payload, "[DONE]") && usageOf(payload) == Some(u) && u.total > 0
  }

  /** The last of the lines that tell a usage is the one at `i`, and it tells `u`. */
  ghost predicate ToldAt(usageOf: Decoder, lines: seq<string>, i: int, u: Usage) {
    0 <= i < |lines| && UsageLine(usageOf, lines[i], u) && NothingTold(usageOf, lines[i + 1..])
  }

  ghost predicate LastTold(usageOf: Decoder, lines: seq<string>, u: Usage) {
    exists i :: ToldAt(usageOf, lines, i, u)
  }

  ghost predicate NothingTold(usageOf: Decoder, lines: seq<string>) {
    forall j, v | 0 <= j < |lines| :: !UsageLine(usageOf, lines[j], v)
  }

  lemma {:induction false} AfterFirstMeans(s: string, p: string)
    ensures !Occurs(s, p) ==> AfterFirst(s, p) == s
    ensures Occurs(s, p) ==> exists i :: FirstAt(s, p, i) && AfterFirst(s, p) == s[i + |p|..]
  {
    ContainsMeans(s, p);
    assert p <= s <==> OccursAt(s, p, 0);
    if Contains(s, p) && p <= s {
      assert FirstAt(s, p, 0);
    } else if Contains(s, p) {
      AfterFirstMeans(s[1..], p);
      ContainsMeans(s[1..], p);
      var i :| FirstAt(s[1..], p, i) && AfterFirst(s[1..], p) == s[1..][i + |p|..];
      forall j | 0 <= j <= i
        ensures OccursAt(s, p, j + 1) <==> OccursAt(s[1..], p, j)
      {
        OccursLater(s, p, j + 1);
      }
      assert forall j | 0 < j < i + 1 :: OccursAt(s, p, j) <==> OccursAt(s[1..], p, j - 1);
      assert FirstAt(s, p, i + 1) && s[i + 1 + |p|..] == s[1..][i + |p|..];
    }
  }

  lemma CarriesOne(line: string, payload: string)
    ensures Carries(line, payload) <==> payload == AfterFirst(line, "data: ")
  {
    AfterFirstMeans(line, "data: ");
    if i, j :| FirstAt(line, "data: ", i) && FirstAt(line, "data: ", j) {
      assert i == j;
    }
  }

  lemma QualifyMeans(usageOf: Decoder, line: string, u: Usage)
    ensures Qualify(usageOf, line) == Some(u) <==> UsageLine(usageOf, line, u)
  {
    var payload := AfterFirst(line, "data: ");
    ContainsMeans(payload, "[DONE]");
    CarriesOne(line, payload);
    forall p
      ensures Carries(line, p) <==> p == payload
    {
      CarriesOne(line, p);
    }
  }

  lemma NothingToldAt(usageOf: Decoder, lines: seq<string>)
    requires lines != []
    ensures NothingTold(usageOf, lines)
       <==> NothingTold(usageOf, lines[1..]) && forall v :: !UsageLine(usageOf, lines[0], v)
  {
    assert lines == [lines[0]] + lines[1..];
    assert forall j | 0 <= j < |lines| - 1 :: lines[1..][j] == lines[j + 1];
    if NothingTold(usageOf, lines) {
      forall j, v | 0 <= j < |lines[1..]|
        ensures !UsageLine(usageOf, lines[1..][j], v)
      {
        assert !UsageLine(usageOf, lines[j + 1], v);
      }
    }
  }

  lemma ToldLater(usageOf: Decoder, lines: seq<string>, u: Usage)
    requires lines != []
    ensures LastTold(usageOf, lines, u)
       <==> LastTold(usageOf, lines[1..], u) || (UsageLine(usageOf, lines[0], u) && NothingTold(usageOf, lines[1..]))
  {
    if i :| ToldAt(usageOf, lines, i, u) {
      if i > 0 {
        assert lines[1..][i - 1 + 1..] == lines[i + 1..];
        assert ToldAt(usageOf, lines[1..], i - 1, u);
      }
    }
    if i :| ToldAt(usageOf, lines[1..], i, u) {
      assert lines[1..][i + 1..] == lines[i + 1 + 1..];
      assert ToldAt(usageOf, lines, i + 1, u);
    }
    if UsageLine(usageOf, lines[0], u) && NothingTold(usageOf, lines[1..]) {
      assert ToldAt(usageOf, lines, 0, u);
    }
  }

  /** What the forward reference keeps is what the last line that tells a usage tells. */
  lemma {:induction false} LastQualifyingMeans(usageOf: Decoder, lines: seq<string>, u: Usage)
    ensures LastQualifying(usageOf, lines) == Some(u) <==> LastTold(usageOf, lines, u)
    ensures LastQualifying(usageOf, lines) == None <==> NothingTold(usageOf, lines)
  {
    if lines != [] {
      LastQualifyingMeans(usageOf, lines[1..], u);
      ToldLater(usageOf, lines, u);
      NothingToldAt(usageOf, lines);
      forall v
        ensures Qualify(usageOf, lines[0]) == Some(v) <==> UsageLine(usageOf, lines[0], v)
      {
        QualifyMeans(usageOf, lines[0], v);
      }
      if LastTold(usageOf, lines[1..], u) {
        assert !NothingTold(usageOf, lines[1..]);
      }
    }
  }

  lemma {:induction false} LastQualifyingAppend(usageOf: Decoder, a: seq<string>, b: seq<string>)
    ensures LastQualifying(usageOf, a + b)
         == if LastQualifying(usageOf, b).Some? then LastQualifying(usageOf, b) else LastQualifying(usageOf, a)
  {
    if a == [] {
      assert a + b == b;
    } else {
      assert (a + b)[1..] == a[1..] + b;
      LastQualifyingAppend(usageOf, a[1..], b);
    }
  }

  lemma LastLine(usageOf: Decoder, lines: seq<string>, i: nat)
    requires i < |lines|
    ensures NonBlank(lines[i..]) == (if TrimSpace(lines[i]) == "" then [] else [TrimSpace(lines[i])]) + NonBlank(lines[i + 1..])
    ensures LastQualifying(usageOf, NonBlank(lines[i + 1..])) == None ==>
      LastQualifying(usageOf, NonBlank(lines[i..]))
      == if TrimSpace(lines[i]) == "" then None else Qualify(usageOf, TrimSpace(lines[i]))
  {
    assert lines[i..][1..] == lines[i + 1..];
    if TrimSpace(lines[i]) != "" {
      LastQualifyingAppend(usageOf, [TrimSpace(lines[i])], NonBlank(lines[i + 1..]));
      assert LastQualifying(usageOf, [TrimSpace(lines[i])]) == Qualify(usageOf, TrimSpace(lines[i]));
    } else {
      assert [] + NonBlank(lines[i + 1..]) == NonBlank(lines[i + 1..]);
    }
  }

  lemma {:induction false} FoundFromTheEnd(usageOf: Decoder, lines: seq<string>, i: nat)
    requires i <= |lines| && LastQualifying(usageOf, NonBlank(lines[i..])).Some?
    ensures LastQualifying(usageOf, NonBlank(lines)) == LastQualifying(usageOf, NonBlank(lines[i..]))
  {
    assert lines == lines[..i] + lines[i..];
    NonBlankAppend(lines[..i], lines[i..]);
    LastQualifyingAppend(usageOf, NonBlank(lines[..i]), NonBlank(lines[i..]));
  }

  /** The scan from the end finds what a scan from the front keeps last; `None` stands for the zero usage. */
  method ExtractUsage(usageOf: Decoder, data: string) returns (r: Option<Usage>)
    ensures r == LastQualifying(usageOf, LinesOf(data))
  {
    if |data| == 0 {
      assert LinesOf("") == [];
      return None;
    }
    var lines := Split(data);
    var i := |lines| - 1;
    while i >= 0
      invariant -1 <= i < |lines|
      invariant LastQualifying(usageOf, NonBlank(lines[i + 1..])) == None
    {
      var line := TrimSpace(lines[i]);
      LastLine(usageOf, lines, i);
      if line != "" {
        line := AfterFirst(line, "data: ");
        if !(Contains(line, "[DONE]") || |line| < 10) {
          var u := usageOf(line);
          if u.Some? && u.value.total > 0 {
            FoundFromTheEnd(usageOf, lines, i);
            return u;
          }
        }
      }
      i := i - 1;
    }
    assert lines[0..] == lines;
    r := None;
  }
}
