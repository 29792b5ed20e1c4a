/**
 Recovery beside recordings: the job reads the dead-letter file once, retries line by line, and rewrites
 the file at the end, while recordings append to it.
 */
module RecoveryRaces {
  import opened Common
  import opened Text
  import opened UsageLedger
  import opened UsageConservation

  /** A recovery under way: the lines it read, how many it has retried, and those it keeps. */
  datatype Scan = Scan(lines: seq<string>, retried: nat, kept: seq<string>)

  /** `since` holds the dead letters appended since the read, `overwritten` those that rewrites have removed. */
  datatype Sys = Sys(ledger: Ledger, scan: Option<Scan>, since: seq<string>, overwritten: seq<string>)

  datatype Step = Submitting(r: Recording) | Reading | Retrying(date: string, fails: bool) | Rewriting

  /** Appends and rewrites of the file succeed; the database may fail at will. */
  predicate Enabled(s: Sys, e: Step) {
    match e
    case Submitting(r) => |r.attempts| == MAX_ATTEMPTS && !r.appendFails
    case Reading => s.scan.None? && s.ledger.file.Some?
    case Retrying(_, _) => s.scan.Some? && s.scan.value.retried < |s.scan.value.lines|
    case Rewriting => s.scan.Some? && s.scan.value.retried == |s.scan.value.lines|
  }

  /** Whether a recording ends as a dead letter. */
  ghost predicate Dies(s: Sys, r: Recording) {
    r.record.usage.total != 0 && !SomeAttemptSucceeds(s.ledger.rows, r, 0)
  }

  ghost function Next(c: Codec, s: Sys, e: Step): Sys
    requires Enabled(s, e)
  {
    match e
    case Submitting(r) =>
      s.(ledger := Apply(c, s.ledger, Submit(r)),
         since := if s.scan.Some? && Dies(s, r) then s.since + [c.render(r.record, r.note)] else s.since)
    case Reading =>
      s.(scan := Some(Scan(Split(Content(s.ledger)), 0, [])))
    case Retrying(date, fails) =>
      var scan := s.scan.value;
      var p := RecoverLine(c, Progress(s.ledger.rows, scan.kept, 0, 0), TrimSpace(scan.lines[scan.retried]), date, fails);
      s.(ledger := s.ledger.(rows := p.rows), scan := Some(scan.(retried := scan.retried + 1, kept := p.kept)))
    case Rewriting =>
      Sys(s.ledger.(file := Some(FileOf(s.scan.value.kept))), None, [], s.overwritten + s.since)
  }

  ghost predicate Possible(c: Codec, s: Sys, es: seq<Step>)
    decreases es
  {
    es == [] || (Enabled(s, es[0]) && Possible(c, Next(c, s, es[0]), es[1..]))
  }

  ghost function After(c: Codec, s: Sys, es: seq<Step>): Sys
    requires Possible(c, s, es)
    decreases es
  {
    if es == [] then s else After(c, Next(c, s, es[0]), es[1..])
  }

  ghost predicate Inv(s: Sys) {
    && Sound(s.ledger)
    && (s.scan.None? ==> s.since == [])
    && (s.scan.Some? ==>
          && s.scan.value.retried <= |s.scan.value.lines| && NoNewlines(s.scan.value.lines) && AreLines(s.scan.value.kept))
  }

  /** The usage the system holds: while a scan is under way, the file counts as what the scan will leave of it. */
  function Held(c: Codec, s: Sys, tenant: nat, model: string, kind: Kind): int
    requires s.scan.Some? ==> s.scan.value.retried <= |s.scan.value.lines|
  {
    Total(s.ledger.rows, tenant, model, kind)
    + match s.scan
      case None => Pending(c, LinesOf(Content(s.ledger)), tenant, model, kind)
      case Some(scan) =>
        Pending(c, scan.kept, tenant, model, kind)
        + Pending(c, NonBlank(scan.lines[scan.retried..]), tenant, model, kind)
        + Pending(c, s.since, tenant, model, kind)
  }

  function Given(e: Step, tenant: nat, model: string, kind: Kind): int {
    if e.Submitting? && e.r.record.usage.total != 0 then Share(e.r.record, tenant, model, kind) else 0
  }

  function AllGiven(es: seq<Step>, tenant: nat, model: string, kind: Kind): int {
    if es == [] then 0 else Given(es[0], tenant, model, kind) + AllGiven(es[1..], tenant, model, kind)
  }

  // ---------------------------------------------------------------- single steps

  /** A recording adds its usage to the table, or its dead letter to those appended. */
  lemma RecordingAdds(c: Codec, l: Ledger, r: Recording, tenant: nat, model: string, kind: Kind)
    requires Faithful(c) && Sound(l) && |r.attempts| == MAX_ATTEMPTS && !r.appendFails
    ensures
      var dies := !SomeAttemptSucceeds(l.rows, r, 0);
      var line := c.render(r.record, r.note);
      Total(RecordFrom(c, l, r, 0).rows, tenant, model, kind) + (if dies then LineUsage(c, line, tenant, model, kind) else 0)
      == Total(l.rows, tenant, model, kind) + Share(r.record, tenant, model, kind)
  {
    RecordingEnds(c, l, r, 0);
    if SomeAttemptSucceeds(l.rows, r, 0) {
      var i :| 0 <= i < MAX_ATTEMPTS && RecordFrom(c, l, r, 0) == l.(rows := Credit(l.rows, r.record, r.attempts[i].date));
      CreditCountsOnce(l.rows, r.record, r.attempts[i].date, tenant, model, kind);
    }
  }

  lemma SubmitHolds(c: Codec, s: Sys, e: Step, tenant: nat, model: string, kind: Kind)
    requires Faithful(c) && Inv(s) && e.Submitting? && Enabled(s, e)
    ensures Inv(Next(c, s, e))
    ensures Held(c, Next(c, s, e), tenant, model, kind)
         == Held(c, s, tenant, model, kind) + Given(e, tenant, model, kind)
  {
    var r := e.r;
    if r.record.usage.total != 0 {
      RecordingConserves(c, s.ledger, r, tenant, model, kind);
      if s.scan.Some? {
        RecordingAdds(c, s.ledger, r, tenant, model, kind);
        PendingSnoc(c, s.since, c.render(r.record, r.note), tenant, model, kind);
      }
    }
  }

  lemma ReadHolds(c: Codec, s: Sys, tenant: nat, model: string, kind: Kind)
    requires Inv(s) && Enabled(s, Reading)
    ensures Inv(Next(c, s, Reading))
    ensures Held(c, Next(c, s, Reading), tenant, model, kind) == Held(c, s, tenant, model, kind)
  {
    var lines := Split(Content(s.ledger));
    SplitHasNoNewline(Content(s.ledger));
    assert lines[0..] == lines;
  }

  lemma NextLine(c: Codec, lines: seq<string>, i: nat, tenant: nat, model: string, kind: Kind)
    requires i < |lines|
    ensures
      var line := TrimSpace(lines[i]);
      Pending(c, NonBlank(lines[i..]), tenant, model, kind)
      == (if line == "" then 0 else LineUsage(c, line, tenant, model, kind))
         + Pending(c, NonBlank(lines[i + 1..]), tenant, model, kind)
  {
    var line := TrimSpace(lines[i]);
    assert lines[i..][0] == lines[i] && lines[i..][1..] == lines[i + 1..];
    if line == "" {
      assert [] + NonBlank(lines[i + 1..]) == NonBlank(lines[i + 1..]);
    } else {
      assert ([line] + NonBlank(lines[i + 1..]))[1..] == NonBlank(lines[i + 1..]);
    }
  }

  lemma RetryHolds(c: Codec, s: Sys, e: Step, tenant: nat, model: string, kind: Kind)
    requires Inv(s) && e.Retrying? && Enabled(s, e)
    ensures Inv(Next(c, s, e))
    ensures Held(c, Next(c, s, e), tenant, model, kind) == Held(c, s, tenant, model, kind)
  {
    var scan := s.scan.value;
    var raw := scan.lines[scan.retried];
    var p := Progress(s.ledger.rows, scan.kept, 0, 0);
    RecoverLineKeeps(c, s.ledger.rows, p, TrimSpace(raw), e.date, e.fails);
    RecoverLineCounts(c, p, TrimSpace(raw), e.date, e.fails, tenant, model, kind);
    NextLine(c, scan.lines, scan.retried, tenant, model, kind);
    TrimmedIsLine(raw);
    KeptAreLines(c, p, TrimSpace(raw), e.date, e.fails);
    SameKeysUnique(RecoverLine(c, p, TrimSpace(raw), e.date, e.fails).rows, s.ledger.rows);
  }

  lemma KeptAreLines(c: Codec, p: Progress, line: string, date: string, fails: bool)
    requires AreLines(p.kept) && (line != "" ==> IsLine(line))
    ensures AreLines(RecoverLine(c, p, line, date, fails).kept)
  {
    if line != "" {
      AreLinesSnoc(p.kept, line);
    }
  }

  lemma SameKeysUnique(a: seq<Row>, b: seq<Row>)
    requires SameKeys(a, b) && UniqueRows(b)
    ensures UniqueRows(a)
  {
    forall t, d, m
      ensures Affected(a, t, d, m) <= 1
    {
      assert Affected(a, t, d, m) == Affected(b, t, d, m);
    }
  }

  lemma RewriteHolds(c: Codec, s: Sys, tenant: nat, model: string, kind: Kind)
    requires Inv(s) && Enabled(s, Rewriting)
    ensures Inv(Next(c, s, Rewriting))
    ensures Held(c, Next(c, s, Rewriting), tenant, model, kind)
         == Held(c, s, tenant, model, kind) - Pending(c, s.since, tenant, model, kind)
  {
    var scan := s.scan.value;
    FileReadsBack(scan.kept);
    assert scan.lines[scan.retried..] == [];
  }

  lemma StepHolds(c: Codec, s: Sys, e: Step, tenant: nat, model: string, kind: Kind)
    requires Faithful(c) && Inv(s) && Enabled(s, e)
    ensures
      var t := Next(c, s, e);
      && Inv(t)
      && Held(c, t, tenant, model, kind) + Pending(c, t.overwritten, tenant, model, kind)
         == Held(c, s, tenant, model, kind) + Pending(c, s.overwritten, tenant, model, kind) + Given(e, tenant, model, kind)
  {
    match e
    case Submitting(_) => SubmitHolds(c, s, e, tenant, model, kind);
    case Reading => ReadHolds(c, s, tenant, model, kind);
    case Retrying(_, _) => RetryHolds(c, s, e, tenant, model, kind);
    case Rewriting =>
      RewriteHolds(c, s, tenant, model, kind);
      PendingAppend(c, s.overwritten, s.since, tenant, model, kind);
  }

  // ---------------------------------------------------------------- whole runs

  /** On every run what was submitted is held, except for the dead letters that a rewrite removed unread. */
  lemma {:induction false} OverwrittenIsLost(
      c: Codec, s: Sys, es: seq<Step>, tenant: nat, model: string, kind: Kind)
    requires Faithful(c) && Inv(s) && Possible(c, s, es)
    ensures
      var t := After(c, s, es);
      && Inv(t)
      && Held(c, t, tenant, model, kind) + Pending(c, t.overwritten, tenant, model, kind)
         == Held(c, s, tenant, model, kind) + Pending(c, s.overwritten, tenant, model, kind)
            + AllGiven(es, tenant, model, kind)
    decreases es
  {
    if es != [] {
      StepHolds(c, s, es[0], tenant, model, kind);
      OverwrittenIsLost(c, Next(c, s, es[0]), es[1..], tenant, model, kind);
    }
  }

  ghost predicate Positive(c: Codec, lines: seq<string>) {
    forall l <- lines :: c.parse(l).Some? && c.parse(l).value.usage.total > 0
  }

  ghost predicate SubmitsPositive(es: seq<Step>) {
    forall e <- es :: e.Submitting? ==> e.r.record.usage.total > 0
  }

  lemma {:induction false} LostArePositive(c: Codec, s: Sys, es: seq<Step>)
    requires Faithful(c) && Possible(c, s, es) && SubmitsPositive(es)
    requires Positive(c, s.since) && Positive(c, s.overwritten)
    ensures Positive(c, After(c, s, es).overwritten)
    decreases es
  {
    if es != [] {
      var t := Next(c, s, es[0]);
      assert es[0] in es;
      if es[0].Submitting? {
        var r := es[0].r;
        assert c.parse(c.render(r.record, r.note)) == Some(r.record);
      }
      LostArePositive(c, t, es[1..]);
    }
  }

  lemma {:induction false} PositivePending(c: Codec, lines: seq<string>, tenant: nat, model: string)
    requires Positive(c, lines)
    ensures Pending(c, lines, tenant, model, All) >= 0
    ensures forall l <- lines :: c.parse(l).value.tenant == tenant && c.parse(l).value.model == model ==>
      Pending(c, lines, tenant, model, All) > 0
  {
    if lines != [] {
      assert lines[0] in lines;
      PositivePending(c, lines[1..], tenant, model);
      assert forall l <- lines :: l == lines[0] || l in lines[1..];
    }
  }

  ghost predicate Conserved(c: Codec, s: Sys, es: seq<Step>)
    requires Inv(s) && Possible(c, s, es) && Inv(After(c, s, es))
  {
    forall tenant, model, kind ::
      Held(c, After(c, s, es), tenant, model, kind)
      == Held(c, s, tenant, model, kind) + AllGiven(es, tenant, model, kind)
  }

  lemma RunIsSound(c: Codec, s: Sys, es: seq<Step>)
    requires Faithful(c) && Inv(s) && Possible(c, s, es)
    ensures Inv(After(c, s, es))
  {
    OverwrittenIsLost(c, s, es, 0, "", All);
  }

  /**
   A run of recordings and recoveries that overlap conserves all usage if and only if no dead letter
   was appended between a recovery's read and its rewrite.
   */
  lemma ConservedUnlessOverwritten(c: Codec, s: Sys, es: seq<Step>)
    requires Faithful(c) && Inv(s) && Possible(c, s, es) && SubmitsPositive(es)
    requires s.overwritten == [] && Positive(c, s.since)
    ensures Inv(After(c, s, es)) && (Conserved(c, s, es) <==> After(c, s, es).overwritten == [])
  {
    var lost := After(c, s, es).overwritten;
    RunIsSound(c, s, es);
    LostArePositive(c, s, es);
    if lost == [] {
      forall tenant, model, kind
        ensures Held(c, After(c, s, es), tenant, model, kind)
             == Held(c, s, tenant, model, kind) + AllGiven(es, tenant, model, kind)
      {
        OverwrittenIsLost(c, s, es, tenant, model, kind);
      }
    } else {
      var r := c.parse(lost[0]).value;
      assert lost[0] in lost;
      PositivePending(c, lost, r.tenant, r.model);
      OverwrittenIsLost(c, s, es, r.tenant, r.model, All);
    }
  }

  /** It happens: an empty file is read, a recording dies, and the rewrite removes its dead letter. */
  lemma DeadLetterOverwritten(c: Codec, s: Sys, r: Recording, date: string)
    requires s.ledger.file == Some("") && s.scan.None? && s.since == [] && s.overwritten == []
    requires Enabled(s, Submitting(r)) && Dies(s, r)
    ensures
      var es := [Reading, Submitting(r), Retrying(date, false), Rewriting];
      Possible(c, s, es) && After(c, s, es).overwritten == [c.render(r.record, r.note)]
  {
    var es := [Reading, Submitting(r), Retrying(date, false), Rewriting];
    var s1 := Next(c, s, es[0]);
    var s2 := Next(c, s1, es[1]);
    var s3 := Next(c, s2, es[2]);
    var s4 := Next(c, s3, es[3]);
    assert es[1..] == [Submitting(r), Retrying(date, false), Rewriting];
    assert es[1..][1..] == [Retrying(date, false), Rewriting] && es[1..][1..][1..] == [Rewriting];
    assert Possible(c, s4, []) && After(c, s4, []) == s4;
    assert Possible(c, s3, [Rewriting]) && After(c, s3, [Rewriting]) == s4 by {
      assert [Rewriting][1..] == [];
    }
    assert Possible(c, s2, es[1..][1..]) && After(c, s2, es[1..][1..]) == s4;
    assert Possible(c, s1, es[1..]) && After(c, s1, es[1..]) == s4;
  }
}
