/**
 Usage recording with retries, the dead-letter file and its recovery job.

 Database and file outcomes are inputs; a failed operation has no effect. Operations are
 serialized. JSON is an abstract codec that reads back what it printed.
 */
module UsageLedger {
  import opened Common
  import opened Text

  datatype Usage = Usage(prompt: int, completion: int, total: int) {
    function Plus(u: Usage): Usage {
      Usage(prompt + u.prompt, completion + u.completion, total + u.total)
    }
  }

  datatype Row = Row(tenant: nat, date: string, model: string, usage: Usage)

  datatype Record = Record(tenant: nat, model: string, usage: Usage)

  /** `render` also takes the time stamp and error text that a record carries and `parse` ignores. */
  datatype Codec = Codec(parse: string -> Option<Record>, render: (Record, string) -> string)

  ghost predicate Faithful(c: Codec) {
    forall r: Record, note: string :: c.parse(c.render(r, note)) == Some(r) && IsLine(c.render(r, note))
  }

  predicate Matches(row: Row, tenant: nat, date: string, model: string) {
    row.tenant == tenant && row.date == date && row.model == model
  }

  /** UPDATE ... SET x = x + u WHERE tenant, date and model match. */
  function Update(rows: seq<Row>, tenant: nat, date: string, model: string, u: Usage): seq<Row> {
    if rows == [] then []
    else
      [if Matches(rows[0], tenant, date, model) then rows[0].(usage := rows[0].usage.Plus(u)) else rows[0]]
      + Update(rows[1..], tenant, date, model, u)
  }

  /** RowsAffected of that UPDATE. */
  function Affected(rows: seq<Row>, tenant: nat, date: string, model: string): nat {
    if rows == [] then 0
    else (if Matches(rows[0], tenant, date, model) then 1 else 0) + Affected(rows[1..], tenant, date, model)
  }

  ghost predicate UniqueRows(rows: seq<Row>) {
    forall tenant, date, model :: Affected(rows, tenant, date, model) <= 1
  }

  /** The state: the usage table in insertion order and the file, `None` until it is created. */
  datatype Ledger = Ledger(rows: seq<Row>, file: Option<string>)

  function Content(l: Ledger): string {
    if l.file.Some? then l.file.value else ""
  }

  /** What happens during one attempt: today's date and the outcomes of UPDATE and INSERT. */
  datatype Attempt = Attempt(date: string, updateFails: bool, createFails: bool)

  datatype Recording = Recording(record: Record, attempts: seq<Attempt>, appendFails: bool, note: string)

  const MAX_ATTEMPTS := 3

  predicate Succeeds(rows: seq<Row>, r: Record, a: Attempt) {
    !a.updateFails && (Affected(rows, r.tenant, a.date, r.model) > 0 || !a.createFails)
  }

  /** The table after a successful attempt. */
  function Credit(rows: seq<Row>, r: Record, date: string): seq<Row> {
    if Affected(rows, r.tenant, date, r.model) > 0 then Update(rows, r.tenant, date, r.model, r.usage)
    else rows + [Row(r.tenant, date, r.model, r.usage)]
  }

  function WithDeadLetter(c: Codec, l: Ledger, op: Recording): Ledger {
    if op.appendFails then l
    else l.(file := Some(Content(l) + c.render(op.record, op.note) + "\n"))
  }

  /** The first successful attempt credits the ledger; without one the dead letter is written. */
  function RecordFrom(c: Codec, l: Ledger, op: Recording, attempt: nat): Ledger
    requires |op.attempts| == MAX_ATTEMPTS
    decreases MAX_ATTEMPTS - attempt
  {
    if attempt >= MAX_ATTEMPTS then WithDeadLetter(c, l, op)
    else if Succeeds(l.rows, op.record, op.attempts[attempt]) then
      l.(rows := Credit(l.rows, op.record, op.attempts[attempt].date))
    else RecordFrom(c, l, op, attempt + 1)
  }

  /** The recovery job's environment, line by line: today's date and whether UPDATE fails. */
  datatype Recovery = Recovery(date: nat -> string, updateFails: nat -> bool, readFails: bool, rewriteFails: bool)

  predicate Applies(c: Codec, rows: seq<Row>, line: string, date: string, fails: bool) {
    var r := c.parse(line);
    r.Some? && !fails && Affected(rows, r.value.tenant, date, r.value.model) > 0
  }

  datatype Progress = Progress(rows: seq<Row>, kept: seq<string>, processed: nat, remaining: nat)

  /** One line of the file, already trimmed. */
  function RecoverLine(c: Codec, p: Progress, line: string, date: string, fails: bool): Progress {
    if line == "" then p
    else if Applies(c, p.rows, line, date, fails) then
      var r := c.parse(line).value;
      p.(rows := Update(p.rows, r.tenant, date, r.model, r.usage), processed := p.processed + 1)
    else p.(kept := p.kept + [line], remaining := p.remaining + 1)
  }

  /** The first `n` lines. */
  function RecoverLines(c: Codec, rows: seq<Row>, lines: seq<string>, env: Recovery, n: nat): Progress
    requires n <= |lines|
  {
    if n == 0 then Progress(rows, [], 0, 0)
    else
      RecoverLine(c, RecoverLines(c, rows, lines, env, n - 1), TrimSpace(lines[n - 1]), env.date(n - 1), env.updateFails(n - 1))
  }

  function RecoverAll(c: Codec, l: Ledger, env: Recovery): Progress {
    RecoverLines(c, l.rows, Split(Content(l)), env, |Split(Content(l))|)
  }

  function Recover(c: Codec, l: Ledger, env: Recovery): Ledger {
    if l.file.None? || env.readFails then l
    else
      var p := RecoverAll(c, l, env);
      Ledger(p.rows, if env.rewriteFails then l.file else Some(FileOf(p.kept)))
  }

  lemma {:induction false} UpdateMisses(rows: seq<Row>, tenant: nat, date: string, model: string, u: Usage)
    ensures Affected(rows, tenant, date, model) == 0 ==> Update(rows, tenant, date, model, u) == rows
  {
    if rows != [] {
      UpdateMisses(rows[1..], tenant, date, model, u);
    }
  }

  // ---------------------------------------------------------------- the code

  class UsageStore {
    var rows: seq<Row>
    var file: Option<string>

    constructor ()
      ensures State() == Ledger([], None)
    {
      rows := [];
      file := None;
    }

    function State(): Ledger
      reads this
    {
      Ledger(rows, file)
    }

    method WriteUsageDeadLetter(c: Codec, op: Recording)
      modifies this
      ensures State() == WithDeadLetter(c, old(State()), op)
    {
      var line := c.render(op.record, op.note) + "\n";
      if !op.appendFails {
        file := Some((if file.Some? then file.value else "") + line);
        assert Content(old(State())) + c.render(op.record, op.note) + "\n" == Content(old(State())) + line;
      }
    }

    method RecordUsageWithRetry(c: Codec, op: Recording)
      requires |op.attempts| == MAX_ATTEMPTS
      modifies this
      ensures State() == RecordFrom(c, old(State()), op, 0)
    {
      var r := op.record;
      for attempt := 0 to MAX_ATTEMPTS
        invariant RecordFrom(c, old(State()), op, 0) == RecordFrom(c, old(State()), op, attempt)
        invariant State() == if attempt < MAX_ATTEMPTS then old(State()) else WithDeadLetter(c, old(State()), op)
      {
        var env := op.attempts[attempt];
        if env.updateFails {
          if attempt == MAX_ATTEMPTS - 1 {
            WriteUsageDeadLetter(c, op);
          }
          continue;
        }
        var affected := Affected(rows, r.tenant, env.date, r.model);
        if affected == 0 {
          if env.createFails {
            if attempt == MAX_ATTEMPTS - 1 {
              WriteUsageDeadLetter(c, op);
            }
            continue;
          }
          rows := rows + [Row(r.tenant, env.date, r.model, r.usage)];
        } else {
          rows := Update(rows, r.tenant, env.date, r.model, r.usage);
        }
        return;
      }
    }

    /** `recordUsage` drops a usage without tokens. */
    method RecordUsage(c: Codec, op: Recording)
      requires |op.attempts| == MAX_ATTEMPTS
      modifies this
      ensures State() == if op.record.usage.total == 0 then old(State()) else RecordFrom(c, old(State()), op, 0)
    {
      if op.record.usage.total == 0 {
        return;
      }
      RecordUsageWithRetry(c, op);
    }

    /** One dead letter: unparseable lines and updates that reach no row are not applied. */
    method RetryLine(c: Codec, line: string, today: string, updateFails: bool) returns (applied: bool)
      modifies this`rows
      ensures applied == Applies(c, old(rows), line, today, updateFails)
      ensures rows == if applied then
          Update(old(rows), c.parse(line).value.tenant, today, c.parse(line).value.model, c.parse(line).value.usage)
        else old(rows)
    {
      var parsed := c.parse(line);
      if parsed.None? {
        return false;
      }
      var rec := parsed.value;
      if updateFails {
        return false;
      }
      var affected := Affected(rows, rec.tenant, today, rec.model);
      UpdateMisses(rows, rec.tenant, today, rec.model, rec.usage);
      rows := Update(rows, rec.tenant, today, rec.model, rec.usage);
      applied := affected != 0;
    }

    /** Every line of the file is retried once; the ones not applied are written back. */
    method ProcessUsageDeadLetter(c: Codec, env: Recovery) returns (r: Result<(nat, nat), ()>)
      modifies this
      ensures State() == Recover(c, old(State()), env)
      ensures r ==
        if old(file).None? then Ok((0, 0))
        else if env.readFails then Err(())
        else var p := RecoverAll(c, old(State()), env); Ok((p.processed, p.remaining))
    {
      if file.None? {
        return Ok((0, 0));
      }
      if env.readFails {
        return Err(());
      }
      var lines := Split(file.value);
      var keptLines: seq<string> := [];
      var processed, remaining := 0, 0;
      for i := 0 to |lines|
        invariant RecoverLines(c, old(rows), lines, env, i) == Progress(rows, keptLines, processed, remaining)
        invariant file == old(file)
      {
        var line := TrimSpace(lines[i]);
        if line == "" {
          continue;
        }
        var applied := RetryLine(c, line, env.date(i), env.updateFails(i));
        if applied {
          processed := processed + 1;
        } else {
          keptLines := keptLines + [line];
          remaining := remaining + 1;
        }
      }
      var newContent := Join(keptLines);
      if |keptLines| > 0 {
        newContent := newContent + "\n";
      }
      assert newContent == FileOf(keptLines);
      if !env.rewriteFails {
        file := Some(newContent);
      }
      r := Ok((processed, remaining));
    }
  }
}
