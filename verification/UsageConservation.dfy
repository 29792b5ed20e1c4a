/** No usage is lost or counted twice: ledger totals plus dead letters account for all that was submitted. */
module UsageConservation {
  import opened Text
  import opened UsageLedger

  datatype Kind = Prompt | Completion | All

  function Amount(u: Usage, kind: Kind): int {
    match kind case Prompt => u.prompt case Completion => u.completion case All => u.total
  }

  function Share(r: Record, tenant: nat, model: string, kind: Kind): int {
    if r.tenant == tenant && r.model == model then Amount(r.usage, kind) else 0
  }

  /** What the table holds for a tenant and model, over all dates. */
  function Total(rows: seq<Row>, tenant: nat, model: string, kind: Kind): int {
    if rows == [] then 0
    else
      (if rows[0].tenant == tenant && rows[0].model == model then Amount(rows[0].usage, kind) else 0)
      + Total(rows[1..], tenant, model, kind)
  }

  function LineUsage(c: Codec, line: string, tenant: nat, model: string, kind: Kind): int {
    var r := c.parse(line);
    if r.Some? && r.value.tenant == tenant && r.value.model == model then Amount(r.value.usage, kind) else 0
  }

  /** What the dead letters hold for a tenant and model. */
  function Pending(c: Codec, lines: seq<string>, tenant: nat, model: string, kind: Kind): int {
    if lines == [] then 0
    else LineUsage(c, lines[0], tenant, model, kind) + Pending(c, lines[1..], tenant, model, kind)
  }

  function Balance(c: Codec, l: Ledger, tenant: nat, model: string, kind: Kind): int {
    Total(l.rows, tenant, model, kind) + Pending(c, LinesOf(Content(l)), tenant, model, kind)
  }

  ghost predicate Sound(l: Ledger) {
    UniqueRows(l.rows) && Terminated(Content(l))
  }

  // ---------------------------------------------------------------- the table

  lemma {:induction false} TotalAppend(a: seq<Row>, b: seq<Row>, tenant: nat, model: string, kind: Kind)
    ensures Total(a + b, tenant, model, kind) == Total(a, tenant, model, kind) + Total(b, tenant, model, kind)
  {
    if a == [] {
      assert a + b == b;
    } else {
      assert (a + b)[1..] == a[1..] + b;
      TotalAppend(a[1..], b, tenant, model, kind);
    }
  }

  lemma OneMoreTime(n: nat, x: int)
    ensures (1 + n) * x == x + n * x
  {
  }

  lemma AmountAdds(a: Usage, b: Usage, kind: Kind)
    ensures Amount(a.Plus(b), kind) == Amount(a, kind) + Amount(b, kind)
  {
  }

  /** An UPDATE credits its usage once per matching row, and nothing else. */
  lemma {:induction false} TotalUpdate(rows: seq<Row>, t: nat, date: string, m: string, u: Usage,
      tenant: nat, model: string, kind: Kind)
    ensures Total(Update(rows, t, date, m, u), tenant, model, kind)
         == Total(rows, tenant, model, kind)
            + (if t == tenant && m == model then Affected(rows, t, date, m) * Amount(u, kind) else 0)
  {
    if rows != [] {
      TotalUpdate(rows[1..], t, date, m, u, tenant, model, kind);
      OneMoreTime(Affected(rows[1..], t, date, m), Amount(u, kind));
      AmountAdds(rows[0].usage, u, kind);
      assert Update(rows, t, date, m, u)[1..] == Update(rows[1..], t, date, m, u);
    }
  }

  lemma {:induction false} UpdateKeepsRows(rows: seq<Row>, t: nat, d: string, m: string, u: Usage,
      tenant: nat, date: string, model: string)
    ensures Affected(Update(rows, t, d, m, u), tenant, date, model) == Affected(rows, tenant, date, model)
  {
    if rows != [] {
      UpdateKeepsRows(rows[1..], t, d, m, u, tenant, date, model);
    }
  }

  lemma {:induction false} AffectedAppend(a: seq<Row>, b: seq<Row>, tenant: nat, date: string, model: string)
    ensures Affected(a + b, tenant, date, model) == Affected(a, tenant, date, model) + Affected(b, tenant, date, model)
  {
    if a == [] {
      assert a + b == b;
    } else {
      assert (a + b)[1..] == a[1..] + b;
      AffectedAppend(a[1..], b, tenant, date, model);
    }
  }

  lemma CreditCountsOnce(rows: seq<Row>, r: Record, date: string, tenant: nat, model: string, kind: Kind)
    requires UniqueRows(rows)
    ensures UniqueRows(Credit(rows, r, date))
    ensures Total(Credit(rows, r, date), tenant, model, kind)
         == Total(rows, tenant, model, kind) + Share(r, tenant, model, kind)
  {
    var row := Row(r.tenant, date, r.model, r.usage);
    forall t, d, m
      ensures Affected(Credit(rows, r, date), t, d, m) <= 1
    {
      UpdateKeepsRows(rows, r.tenant, date, r.model, r.usage, t, d, m);
      AffectedAppend(rows, [row], t, d, m);
    }
    TotalUpdate(rows, r.tenant, date, r.model, r.usage, tenant, model, kind);
    TotalAppend(rows, [row], tenant, model, kind);
    assert Affected(rows, r.tenant, date, r.model) <= 1;
  }

  lemma {:induction false} PendingAppend(c: Codec, a: seq<string>, b: seq<string>, tenant: nat,
      model: string, kind: Kind)
    ensures Pending(c, a + b, tenant, model, kind) == Pending(c, a, tenant, model, kind) + Pending(c, b, tenant, model, kind)
  {
    if a == [] {
      assert a + b == b;
    } else {
      assert (a + b)[1..] == a[1..] + b;
      PendingAppend(c, a[1..], b, tenant, model, kind);
    }
  }

  // ---------------------------------------------------------------- recording

  ghost predicate SomeAttemptSucceeds(rows: seq<Row>, op: Recording, from: nat) {
    exists i | from <= i < |op.attempts| :: Succeeds(rows, op.record, op.attempts[i])
  }

  /**
   A recording ends in exactly one way: one credit, on the date of its first successful attempt,
   or one dead letter when none of the three attempts succeeds.
   */
  lemma {:induction false} RecordingEnds(c: Codec, l: Ledger, op: Recording, from: nat)
    requires |op.attempts| == MAX_ATTEMPTS
    ensures SomeAttemptSucceeds(l.rows, op, from) ==>
      exists i | from <= i < MAX_ATTEMPTS ::
        && Succeeds(l.rows, op.record, op.attempts[i])
        && (forall j | from <= j < i :: !Succeeds(l.rows, op.record, op.attempts[j]))
        && RecordFrom(c, l, op, from) == l.(rows := Credit(l.rows, op.record, op.attempts[i].date))
    ensures !SomeAttemptSucceeds(l.rows, op, from) ==> RecordFrom(c, l, op, from) == WithDeadLetter(c, l, op)
    decreases MAX_ATTEMPTS - from
  {
    if from < MAX_ATTEMPTS && !Succeeds(l.rows, op.record, op.attempts[from]) {
      RecordingEnds(c, l, op, from + 1);
    }
  }

  /** A dead letter is a line of its own behind those of the file, whether or not the file existed. */
  lemma DeadLetterIsAppended(c: Codec, l: Ledger, op: Recording)
    requires Faithful(c) && Terminated(Content(l)) && !op.appendFails
    ensures
      var after := WithDeadLetter(c, l, op);
      && after.file.Some? && after.rows == l.rows && Terminated(Content(after))
      && LinesOf(Content(after)) == LinesOf(Content(l)) + [c.render(op.record, op.note)]
  {
    AppendReadsBack(Content(l), c.render(op.record, op.note));
  }

  ghost predicate Lost(l: Ledger, op: Recording) {
    !SomeAttemptSucceeds(l.rows, op, 0) && op.appendFails
  }

  /** A recording adds its usage to the balance unless every attempt and the append fail; then it vanishes. */
  lemma RecordingConserves(c: Codec, l: Ledger, op: Recording, tenant: nat, model: string, kind: Kind)
    requires Faithful(c) && Sound(l) && |op.attempts| == MAX_ATTEMPTS
    ensures Sound(RecordFrom(c, l, op, 0))
    ensures Balance(c, RecordFrom(c, l, op, 0), tenant, model, kind)
         == Balance(c, l, tenant, model, kind) + (if Lost(l, op) then 0 else Share(op.record, tenant, model, kind))
  {
    RecordingEnds(c, l, op, 0);
    if SomeAttemptSucceeds(l.rows, op, 0) {
      var i :| 0 <= i < MAX_ATTEMPTS && RecordFrom(c, l, op, 0) == l.(rows := Credit(l.rows, op.record, op.attempts[i].date));
      CreditCountsOnce(l.rows, op.record, op.attempts[i].date, tenant, model, kind);
    } else if !op.appendFails {
      var line := c.render(op.record, op.note);
      DeadLetterIsAppended(c, l, op);
      PendingAppend(c, LinesOf(Content(l)), [line], tenant, model, kind);
      assert Pending(c, [line], tenant, model, kind) == LineUsage(c, line, tenant, model, kind);
    }
  }

  // ---------------------------------------------------------------- recovery

  ghost predicate HasRow(rows: seq<Row>, tenant: nat, date: string, model: string) {
    exists row <- rows :: row.tenant == tenant && row.date == date && row.model == model
  }

  lemma {:induction false} AffectedMeans(rows: seq<Row>, tenant: nat, date: string, model: string)
    ensures Affected(rows, tenant, date, model) > 0 <==> HasRow(rows, tenant, date, model)
  {
    if rows != [] {
      AffectedMeans(rows[1..], tenant, date, model);
      assert HasRow(rows, tenant, date, model)
        <==> Matches(rows[0], tenant, date, model) || HasRow(rows[1..], tenant, date, model) by {
        assert rows == [rows[0]] + rows[1..];
      }
    }
  }

  /** A line to be credited: it parses, its UPDATE does not fail, and its tenant and model have a row for the date. */
  ghost predicate Creditable(c: Codec, rows: seq<Row>, line: string, date: string, fails: bool) {
    c.parse(line).Some? && !fails && HasRow(rows, c.parse(line).value.tenant, date, c.parse(line).value.model)
  }

  /** The reference for recovery: the lines, judged one by one against the table as it was at the start. */
  ghost function Unapplied(c: Codec, rows: seq<Row>, lines: seq<string>, env: Recovery, n: nat): seq<string>
    requires n <= |lines|
  {
    if n == 0 then []
    else
      var line := TrimSpace(lines[n - 1]);
      Unapplied(c, rows, lines, env, n - 1)
      + (if line == "" || Creditable(c, rows, line, env.date(n - 1), env.updateFails(n - 1)) then [] else [line])
  }

  ghost predicate SameKeys(a: seq<Row>, b: seq<Row>) {
    forall t, d, m :: Affected(a, t, d, m) == Affected(b, t, d, m)
  }

  lemma UpdateSameKeys(a: seq<Row>, b: seq<Row>, t: nat, d: string, m: string, u: Usage)
    requires SameKeys(a, b)
    ensures SameKeys(Update(a, t, d, m, u), b)
  {
    forall t', d', m'
      ensures Affected(Update(a, t, d, m, u), t', d', m') == Affected(b, t', d', m')
    {
      UpdateKeepsRows(a, t, d, m, u, t', d', m');
    }
  }

  lemma NonBlankPending(c: Codec, lines: seq<string>, n: nat, tenant: nat, model: string, kind: Kind)
    requires 0 < n <= |lines|
    ensures
      var line := TrimSpace(lines[n - 1]);
      Pending(c, NonBlank(lines[..n]), tenant, model, kind)
      == Pending(c, NonBlank(lines[..n - 1]), tenant, model, kind)
         + (if line == "" then 0 else LineUsage(c, line, tenant, model, kind))
  {
    NonBlankSnoc(lines, n);
    PendingSnoc(c, NonBlank(lines[..n - 1]), TrimSpace(lines[n - 1]), tenant, model, kind);
    assert NonBlank(lines[..n - 1]) + [] == NonBlank(lines[..n - 1]);
  }

  lemma NonBlankSnoc(lines: seq<string>, n: nat)
    requires 0 < n <= |lines|
    ensures
      var line := TrimSpace(lines[n - 1]);
      NonBlank(lines[..n]) == NonBlank(lines[..n - 1]) + (if line == "" then [] else [line])
  {
    assert lines[..n] == lines[..n - 1] + [lines[n - 1]];
    NonBlankAppend(lines[..n - 1], [lines[n - 1]]);
  }

  lemma RecoverLineKeeps(c: Codec, rows: seq<Row>, p: Progress, line: string, date: string, fails: bool)
    requires SameKeys(p.rows, rows)
    ensures
      var q := RecoverLine(c, p, line, date, fails);
      var keep := line != "" && !Creditable(c, rows, line, date, fails);
      && SameKeys(q.rows, rows)
      && q.kept == p.kept + (if keep then [line] else [])
      && q.remaining == p.remaining + (if keep then 1 else 0)
      && q.processed + q.remaining == p.processed + p.remaining + (if line == "" then 0 else 1)
  {
    if c.parse(line).Some? {
      var r := c.parse(line).value;
      AffectedMeans(rows, r.tenant, date, r.model);
      UpdateSameKeys(p.rows, rows, r.tenant, date, r.model, r.usage);
    }
  }

  lemma RecoverLineCounts(c: Codec, p: Progress, line: string, date: string, fails: bool, tenant: nat,
      model: string, kind: Kind)
    requires UniqueRows(p.rows)
    ensures
      var q := RecoverLine(c, p, line, date, fails);
      Total(q.rows, tenant, model, kind) + Pending(c, q.kept, tenant, model, kind)
      == Total(p.rows, tenant, model, kind) + Pending(c, p.kept, tenant, model, kind)
         + (if line == "" then 0 else LineUsage(c, line, tenant, model, kind))
  {
    if line != "" {
      if Applies(c, p.rows, line, date, fails) {
        var r := c.parse(line).value;
        TotalUpdate(p.rows, r.tenant, date, r.model, r.usage, tenant, model, kind);
        assert Affected(p.rows, r.tenant, date, r.model) <= 1;
      } else {
        PendingSnoc(c, p.kept, line, tenant, model, kind);
      }
    }
  }

  lemma PendingSnoc(c: Codec, lines: seq<string>, line: string, tenant: nat, model: string, kind: Kind)
    ensures Pending(c, lines + [line], tenant, model, kind)
         == Pending(c, lines, tenant, model, kind) + LineUsage(c, line, tenant, model, kind)
  {
    PendingAppend(c, lines, [line], tenant, model, kind);
    assert Pending(c, [line], tenant, model, kind) == LineUsage(c, line, tenant, model, kind);
  }

  /** Recovery keeps exactly the lines that do not parse or do not apply, in order, and accounts for every line. */
  lemma {:induction false} RecoveryKeeps(c: Codec, rows: seq<Row>, lines: seq<string>, env: Recovery, n: nat)
    requires n <= |lines|
    ensures
      var p := RecoverLines(c, rows, lines, env, n);
      && SameKeys(p.rows, rows)
      && p.kept == Unapplied(c, rows, lines, env, n)
      && p.remaining == |p.kept|
      && p.processed + p.remaining == |NonBlank(lines[..n])|
  {
    if n > 0 {
      RecoveryKeeps(c, rows, lines, env, n - 1);
      var p := RecoverLines(c, rows, lines, env, n - 1);
      RecoverLineKeeps(c, rows, p, TrimSpace(lines[n - 1]), env.date(n - 1), env.updateFails(n - 1));
      NonBlankSnoc(lines, n);
    }
  }

  /** Every line is either credited once or kept. */
  lemma {:induction false} RecoveryCounts(c: Codec, rows: seq<Row>, lines: seq<string>, env: Recovery,
      n: nat, tenant: nat, model: string, kind: Kind)
    requires n <= |lines| && UniqueRows(rows)
    ensures
      var p := RecoverLines(c, rows, lines, env, n);
      Total(p.rows, tenant, model, kind) + Pending(c, p.kept, tenant, model, kind)
      == Total(rows, tenant, model, kind) + Pending(c, NonBlank(lines[..n]), tenant, model, kind)
  {
    if n > 0 {
      RecoveryCounts(c, rows, lines, env, n - 1, tenant, model, kind);
      RecoveryKeeps(c, rows, lines, env, n - 1);
      var p := RecoverLines(c, rows, lines, env, n - 1);
      RecoverLineCounts(c, p, TrimSpace(lines[n - 1]), env.date(n - 1), env.updateFails(n - 1), tenant, model, kind);
      NonBlankPending(c, lines, n, tenant, model, kind);
    }
  }

  lemma {:induction false} UnappliedAreLines(c: Codec, rows: seq<Row>, lines: seq<string>, env: Recovery, n: nat)
    requires n <= |lines| && NoNewlines(lines)
    ensures AreLines(Unapplied(c, rows, lines, env, n))
  {
    if n > 0 {
      UnappliedAreLines(c, rows, lines, env, n - 1);
      var before, line := Unapplied(c, rows, lines, env, n - 1), TrimSpace(lines[n - 1]);
      if line == "" || Creditable(c, rows, line, env.date(n - 1), env.updateFails(n - 1)) {
        assert Unapplied(c, rows, lines, env, n) == before;
      } else {
        TrimmedIsLine(lines[n - 1]);
        AreLinesSnoc(before, line);
      }
    }
  }

  /** The rewritten file reads back as exactly the kept lines. */
  lemma RecoveryRoundTrip(c: Codec, l: Ledger, env: Recovery)
    requires l.file.Some? && !env.readFails && !env.rewriteFails
    ensures
      var lines := Split(Content(l));
      var after := Recover(c, l, env);
      && LinesOf(Content(after)) == Unapplied(c, l.rows, lines, env, |lines|) == RecoverAll(c, l, env).kept
      && Terminated(Content(after))
  {
    var lines := Split(Content(l));
    RecoveryKeeps(c, l.rows, lines, env, |lines|);
    SplitHasNoNewline(Content(l));
    UnappliedAreLines(c, l.rows, lines, env, |lines|);
    FileReadsBack(RecoverAll(c, l, env).kept);
  }

  /** The usage of the lines that recovery applied: all pending usage less that of the kept lines. */
  ghost function AppliedUsage(c: Codec, l: Ledger, env: Recovery, tenant: nat, model: string, kind: Kind): int {
    var lines := Split(Content(l));
    Pending(c, LinesOf(Content(l)), tenant, model, kind)
    - Pending(c, Unapplied(c, l.rows, lines, env, |lines|), tenant, model, kind)
  }

  /**
   Recovery moves usage from the file to the table without changing the balance, unless the
   rewrite fails: then every applied line is counted a second time.
   */
  lemma RecoveryConserves(c: Codec, l: Ledger, env: Recovery, tenant: nat, model: string, kind: Kind)
    requires Sound(l)
    ensures Sound(Recover(c, l, env))
    ensures Balance(c, Recover(c, l, env), tenant, model, kind)
         == Balance(c, l, tenant, model, kind)
            + (if l.file.Some? && !env.readFails && env.rewriteFails
               then AppliedUsage(c, l, env, tenant, model, kind) else 0)
  {
    if l.file.Some? && !env.readFails {
      var lines := Split(Content(l));
      var n := |lines|;
      assert lines[..n] == lines;
      RecoveryKeeps(c, l.rows, lines, env, n);
      RecoveryCounts(c, l.rows, lines, env, n, tenant, model, kind);
      if !env.rewriteFails {
        RecoveryRoundTrip(c, l, env);
      }
    }
  }

  // ---------------------------------------------------------------- whole runs

  datatype Op = Submit(recording: Recording) | Retry(recovery: Recovery)

  predicate WellFormed(op: Op) {
    op.Submit? ==> |op.recording.attempts| == MAX_ATTEMPTS
  }

  /** `recordUsage` ignores a usage whose total is zero. */
  function Apply(c: Codec, l: Ledger, op: Op): Ledger
    requires WellFormed(op)
  {
    match op
    case Submit(r) => if r.record.usage.total == 0 then l else RecordFrom(c, l, r, 0)
    case Retry(env) => Recover(c, l, env)
  }

  function ApplyAll(c: Codec, l: Ledger, ops: seq<Op>): Ledger
    requires forall op <- ops :: WellFormed(op)
    decreases ops
  {
    if ops == [] then l else ApplyAll(c, Apply(c, l, ops[0]), ops[1..])
  }

  function Submitted(ops: seq<Op>, tenant: nat, model: string, kind: Kind): int {
    if ops == [] then 0
    else
      (if ops[0].Submit? && ops[0].recording.record.usage.total != 0
       then Share(ops[0].recording.record, tenant, model, kind) else 0)
      + Submitted(ops[1..], tenant, model, kind)
  }

  /**
   What an operation adds to the balance beyond what it submits: a lost recording takes its usage
   away, a failing rewrite counts the applied lines again.
   */
  ghost function Drift(c: Codec, l: Ledger, op: Op, tenant: nat, model: string, kind: Kind): int {
    match op
    case Submit(r) => if r.record.usage.total != 0 && Lost(l, r) then -Share(r.record, tenant, model, kind) else 0
    case Retry(env) =>
      if l.file.Some? && !env.readFails && env.rewriteFails then AppliedUsage(c, l, env, tenant, model, kind) else 0
  }

  ghost function TotalDrift(c: Codec, l: Ledger, ops: seq<Op>, tenant: nat, model: string, kind: Kind): int
    requires forall op <- ops :: WellFormed(op)
    decreases ops
  {
    if ops == [] then 0
    else
      Drift(c, l, ops[0], tenant, model, kind) + TotalDrift(c, Apply(c, l, ops[0]), ops[1..], tenant, model, kind)
  }

  lemma StepDrifts(c: Codec, l: Ledger, op: Op, tenant: nat, model: string, kind: Kind)
    requires Faithful(c) && Sound(l) && WellFormed(op)
    ensures Sound(Apply(c, l, op))
    ensures Balance(c, Apply(c, l, op), tenant, model, kind)
         == Balance(c, l, tenant, model, kind) + Submitted([op], tenant, model, kind) + Drift(c, l, op, tenant, model, kind)
  {
    match op {
      case Submit(r) =>
        if r.record.usage.total != 0 {
          RecordingConserves(c, l, r, tenant, model, kind);
        }
      case Retry(env) =>
        RecoveryConserves(c, l, env, tenant, model, kind);
    }
  }

  /**
   The account of any run of recordings and recoveries under any database and file failures: table and
   dead letters hold what was submitted and the drift, and each (tenant, date, model) has one row.
   */
  lemma {:induction false} Account(c: Codec, l: Ledger, ops: seq<Op>, tenant: nat, model: string, kind: Kind)
    requires Faithful(c) && Sound(l)
    requires forall op <- ops :: WellFormed(op)
    ensures Sound(ApplyAll(c, l, ops))
    ensures Balance(c, ApplyAll(c, l, ops), tenant, model, kind)
         == Balance(c, l, tenant, model, kind) + Submitted(ops, tenant, model, kind)
            + TotalDrift(c, l, ops, tenant, model, kind)
    decreases ops
  {
    if ops != [] {
      assert WellFormed(ops[0]) && [ops[0]][1..] == [];
      StepDrifts(c, l, ops[0], tenant, model, kind);
      Account(c, Apply(c, l, ops[0]), ops[1..], tenant, model, kind);
    }
  }

  /** No write of the dead-letter file fails; the database may fail at will. */
  predicate FileWorks(op: Op) {
    match op case Submit(r) => !r.appendFails case Retry(env) => !env.rewriteFails
  }

  lemma {:induction false} WorkingFilesDoNotDrift(
      c: Codec, l: Ledger, ops: seq<Op>, tenant: nat, model: string, kind: Kind)
    requires forall op <- ops :: WellFormed(op)
    requires forall op <- ops :: FileWorks(op)
    ensures TotalDrift(c, l, ops, tenant, model, kind) == 0
    decreases ops
  {
    if ops != [] {
      assert FileWorks(ops[0]);
      WorkingFilesDoNotDrift(c, Apply(c, l, ops[0]), ops[1..], tenant, model, kind);
    }
  }

  /**
   Conservation: while the dead-letter file can be written, table and dead letters together hold
   exactly what was submitted, whatever the database does.
   */
  lemma Conservation(c: Codec, l: Ledger, ops: seq<Op>, tenant: nat, model: string, kind: Kind)
    requires Faithful(c) && Sound(l)
    requires forall op <- ops :: WellFormed(op)
    requires forall op <- ops :: FileWorks(op)
    ensures Sound(ApplyAll(c, l, ops))
    ensures Balance(c, ApplyAll(c, l, ops), tenant, model, kind)
         == Balance(c, l, tenant, model, kind) + Submitted(ops, tenant, model, kind)
  {
    Account(c, l, ops, tenant, model, kind);
    WorkingFilesDoNotDrift(c, l, ops, tenant, model, kind);
  }
}
