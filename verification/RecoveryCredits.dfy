/** What recovery does to each row of the table and to each line of the dead-letter file. */
module RecoveryCredits {
  import opened Common
  import opened Text
  import opened UsageLedger
  import opened UsageConservation

  /** An UPDATE adds its usage to the rows of its tenant, date and model, and leaves all others. */
  lemma {:induction false} UpdatedRows(rows: seq<Row>, tenant: nat, date: string, model: string, u: Usage)
    ensures
      var after := Update(rows, tenant, date, model, u);
      && |after| == |rows|
      && forall j | 0 <= j < |rows| ::
           after[j] == if rows[j].tenant == tenant && rows[j].date == date && rows[j].model == model
                       then rows[j].(usage := rows[j].usage.Plus(u)) else rows[j]
  {
    if rows != [] {
      UpdatedRows(rows[1..], tenant, date, model, u);
    }
  }

  const NO_USAGE := Usage(0, 0, 0)

  /**
   What the first `n` lines bring a row: the usage of every line that parses, whose UPDATE does not
   fail, and whose tenant, date of the day and model are the row's.
   */
  function Gained(c: Codec, lines: seq<string>, env: Recovery, n: nat, row: Row): Usage
    requires n <= |lines|
  {
    if n == 0 then NO_USAGE
    else
      var before, r := Gained(c, lines, env, n - 1, row), c.parse(TrimSpace(lines[n - 1]));
      if TrimSpace(lines[n - 1]) != "" && r.Some? && !env.updateFails(n - 1)
         && r.value.tenant == row.tenant && env.date(n - 1) == row.date && r.value.model == row.model
      then before.Plus(r.value.usage) else before
  }

  /** What one line, already trimmed, does to the rows. */
  lemma LineGains(c: Codec, p: Progress, line: string, date: string, fails: bool)
    ensures
      var after, r := RecoverLine(c, p, line, date, fails).rows, c.parse(line);
      && |after| == |p.rows|
      && forall j | 0 <= j < |p.rows| ::
           after[j] == if line != "" && r.Some? && !fails && r.value.tenant == p.rows[j].tenant
                          && date == p.rows[j].date && r.value.model == p.rows[j].model
                       then p.rows[j].(usage := p.rows[j].usage.Plus(r.value.usage)) else p.rows[j]
  {
    if c.parse(line).Some? {
      var r := c.parse(line).value;
      UpdatedRows(p.rows, r.tenant, date, r.model, r.usage);
      UpdateMisses(p.rows, r.tenant, date, r.model, r.usage);
    }
  }

  /** Recovery adds to each row exactly the usage of the lines that are its own, and adds no rows. */
  lemma {:induction false} RowsGain(c: Codec, rows: seq<Row>, lines: seq<string>, env: Recovery, n: nat)
    requires n <= |lines|
    ensures
      var after := RecoverLines(c, rows, lines, env, n).rows;
      && |after| == |rows|
      && forall j | 0 <= j < |rows| ::
           after[j] == rows[j].(usage := rows[j].usage.Plus(Gained(c, lines, env, n, rows[j])))
  {
    if n > 0 {
      RowsGain(c, rows, lines, env, n - 1);
      LineGains(c, RecoverLines(c, rows, lines, env, n - 1), TrimSpace(lines[n - 1]), env.date(n - 1), env.updateFails(n - 1));
    }
  }

  /** The lines that do not parse. */
  function Unparsed(c: Codec, lines: seq<string>): seq<string> {
    if lines == [] then [] else (if c.parse(lines[0]).None? then [lines[0]] else []) + Unparsed(c, lines[1..])
  }

  lemma {:induction false} UnparsedSnoc(c: Codec, lines: seq<string>, line: string)
    ensures Unparsed(c, lines + [line]) == Unparsed(c, lines) + (if c.parse(line).None? then [line] else [])
  {
    if lines != [] {
      assert (lines + [line])[1..] == lines[1..] + [line];
      UnparsedSnoc(c, lines[1..], line);
    }
  }

  /** No UPDATE fails, and every line that parses has a row on the day it is retried. */
  ghost predicate Healthy(c: Codec, rows: seq<Row>, lines: seq<string>, env: Recovery) {
    forall i | 0 <= i < |lines| ::
      && !env.updateFails(i)
      && (c.parse(TrimSpace(lines[i])).Some? ==>
            var r := c.parse(TrimSpace(lines[i])).value;
            HasRow(rows, r.tenant, env.date(i), r.model))
  }

  lemma {:induction false} HealthyKeeps(c: Codec, rows: seq<Row>, lines: seq<string>, env: Recovery, n: nat)
    requires n <= |lines| && Healthy(c, rows, lines, env)
    ensures Unapplied(c, rows, lines, env, n) == Unparsed(c, NonBlank(lines[..n]))
  {
    if n > 0 {
      var before, line := NonBlank(lines[..n - 1]), TrimSpace(lines[n - 1]);
      HealthyKeeps(c, rows, lines, env, n - 1);
      NonBlankSnoc(lines, n);
      if line != "" {
        UnparsedSnoc(c, before, line);
      } else {
        assert before + [] == before;
      }
      assert Creditable(c, rows, line, env.date(n - 1), env.updateFails(n - 1)) <==> c.parse(line).Some?;
    }
  }

  /** Then exactly the lines that do not parse remain, and every other line has been credited. */
  lemma HealthyRecovery(c: Codec, l: Ledger, env: Recovery)
    requires l.file.Some? && !env.readFails && Healthy(c, l.rows, Split(Content(l)), env)
    ensures
      var kept, p := Unparsed(c, LinesOf(Content(l))), RecoverAll(c, l, env);
      && p.remaining == |kept| && p.processed == |LinesOf(Content(l))| - |kept|
      && (!env.rewriteFails ==> LinesOf(Content(Recover(c, l, env))) == kept)
  {
    var lines := Split(Content(l));
    assert lines[..|lines|] == lines;
    HealthyKeeps(c, l.rows, lines, env, |lines|);
    RecoveryKeeps(c, l.rows, lines, env, |lines|);
    if !env.rewriteFails {
      RecoveryRoundTrip(c, l, env);
    }
  }
}
