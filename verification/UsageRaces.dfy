/** Concurrent recordings: UPDATE and INSERT are separate statements, and no key makes rows unique. */
module UsageRaces {
  import opened Common
  import opened UsageLedger
  import opened UsageConservation

  /** A recording and the date it is made on. */
  datatype Job = Job(record: Record, date: string)

  /** Where a recording is: before its UPDATE, between an UPDATE that reached no row and the INSERT, or at its end. */
  datatype PC = Updating(attempt: nat) | Inserting(attempt: nat) | Done | Dead

  datatype Sys = Sys(rows: seq<Row>, pcs: seq<PC>)

  /** One statement of recording `i`, and whether the database fails it. */
  datatype Turn = Turn(i: nat, fails: bool)

  function Again(attempt: nat): PC {
    if attempt + 1 < MAX_ATTEMPTS then Updating(attempt + 1) else Dead
  }

  function Reached(rows: seq<Row>, j: Job): nat {
    Affected(rows, j.record.tenant, j.date, j.record.model)
  }

  function Step(rows: seq<Row>, j: Job, pc: PC, fails: bool): (seq<Row>, PC) {
    match pc
    case Updating(attempt) =>
      if fails then (rows, Again(attempt))
      else if Reached(rows, j) == 0 then (rows, Inserting(attempt))
      else (Update(rows, j.record.tenant, j.date, j.record.model, j.record.usage), Done)
    case Inserting(attempt) =>
      if fails then (rows, Again(attempt)) else (rows + [RowOf(j)], Done)
    case Done => (rows, Done)
    case Dead => (rows, Dead)
  }

  function RowOf(j: Job): Row {
    Row(j.record.tenant, j.date, j.record.model, j.record.usage)
  }

  function Next(js: seq<Job>, s: Sys, t: Turn): Sys {
    if t.i < |s.pcs| && t.i < |js| then
      var (rows, pc) := Step(s.rows, js[t.i], s.pcs[t.i], t.fails);
      Sys(rows, s.pcs[t.i := pc])
    else s
  }

  function Run(js: seq<Job>, s: Sys, ts: seq<Turn>): Sys
    decreases ts
  {
    if ts == [] then s else Run(js, Next(js, s, ts[0]), ts[1..])
  }

  function Start(rows: seq<Row>, js: seq<Job>): Sys {
    Sys(rows, seq(|js|, _ => Updating(0)))
  }

  /** One statement after the other is the serialized recording of the ledger model. */
  lemma {:induction false} AloneIsSerialized(c: Codec, rows: seq<Row>, j: Job, op: Recording)
    requires |op.attempts| == MAX_ATTEMPTS && op.record == j.record
    requires op.attempts[0] == Attempt(j.date, false, false)
    ensures Run([j], Start(rows, [j]), [Turn(0, false), Turn(0, false)]).rows
         == RecordFrom(c, Ledger(rows, None), op, 0).rows
  {
    var t := Turn(0, false);
    var s1 := Next([j], Start(rows, [j]), t);
    assert [t, t][1..] == [t] && [t][1..] == [];
    assert Run([j], s1, [t]) == Run([j], Next([j], s1, t), []);
  }

  // ---------------------------------------------------------------- what a schedule must keep

  /** The usage of the recordings in the table. */
  function Credited(js: seq<Job>, pcs: seq<PC>, tenant: nat, model: string, kind: Kind): int
    requires |pcs| == |js|
  {
    if js == [] then 0
    else
      (if pcs[0] == Done then Share(js[0].record, tenant, model, kind) else 0)
      + Credited(js[1..], pcs[1..], tenant, model, kind)
  }

  /** Each finished recording counts once, and no key has two rows. */
  ghost predicate Kept(rows: seq<Row>, js: seq<Job>, s: Sys) {
    && UniqueRows(s.rows)
    && |s.pcs| == |js|
    && forall tenant, model, kind ::
         Total(s.rows, tenant, model, kind) == Total(rows, tenant, model, kind) + Credited(js, s.pcs, tenant, model, kind)
  }

  ghost predicate AlwaysKept(rows: seq<Row>, js: seq<Job>) {
    forall ts :: Kept(rows, js, Run(js, Start(rows, js), ts))
  }

  predicate SameKey(a: Job, b: Job) {
    a.record.tenant == b.record.tenant && a.date == b.date && a.record.model == b.record.model
  }

  /** No two recordings share a key that has no row yet. */
  predicate NoFreshPair(rows: seq<Row>, js: seq<Job>) {
    forall i, j | 0 <= i < j < |js| && SameKey(js[i], js[j]) :: Reached(rows, js[i]) > 0
  }

  // ---------------------------------------------------------------- without a fresh pair

  ghost predicate Inv(rows: seq<Row>, js: seq<Job>, s: Sys) {
    && Kept(rows, js, s)
    && (forall i | 0 <= i < |js| :: Reached(rows, js[i]) > 0 ==> Reached(s.rows, js[i]) > 0)
    && (forall i | 0 <= i < |js| && s.pcs[i].Inserting? :: Reached(s.rows, js[i]) == 0)
  }

  lemma {:induction false} CreditedStep(js: seq<Job>, pcs: seq<PC>, i: nat, pc: PC, tenant: nat,
      model: string, kind: Kind)
    requires |pcs| == |js| && i < |js| && pcs[i] != Done
    ensures Credited(js, pcs[i := pc], tenant, model, kind)
         == Credited(js, pcs, tenant, model, kind) + (if pc == Done then Share(js[i].record, tenant, model, kind) else 0)
  {
    if i > 0 {
      assert pcs[i := pc][1..] == pcs[1..][i - 1 := pc];
      CreditedStep(js[1..], pcs[1..], i - 1, pc, tenant, model, kind);
    } else {
      assert pcs[i := pc][1..] == pcs[1..];
    }
  }

  lemma IdleStepKeeps(rows: seq<Row>, js: seq<Job>, s: Sys, i: nat, pc: PC)
    requires Inv(rows, js, s) && i < |js| && s.pcs[i] != Done && pc != Done
    requires pc.Inserting? ==> Reached(s.rows, js[i]) == 0
    ensures Inv(rows, js, Sys(s.rows, s.pcs[i := pc]))
  {
    forall tenant, model, kind
      ensures Total(s.rows, tenant, model, kind)
           == Total(rows, tenant, model, kind) + Credited(js, s.pcs[i := pc], tenant, model, kind)
    {
      CreditedStep(js, s.pcs, i, pc, tenant, model, kind);
    }
  }

  lemma CreditKeepsRows(rows: seq<Row>, j: Job, k: Job)
    ensures Reached(Credit(rows, j.record, j.date), k)
         == Reached(rows, k) + (if Reached(rows, j) == 0 && SameKey(j, k) then 1 else 0)
  {
    UpdateKeepsRows(rows, j.record.tenant, j.date, j.record.model, j.record.usage, k.record.tenant, k.date, k.record.model);
    AffectedAppend(rows, [RowOf(j)], k.record.tenant, k.date, k.record.model);
    assert [RowOf(j)][1..] == [];
  }

  lemma CreditStepCounts(rows: seq<Row>, js: seq<Job>, s: Sys, i: nat)
    requires Inv(rows, js, s) && i < |js| && s.pcs[i] != Done
    ensures Kept(rows, js, Sys(Credit(s.rows, js[i].record, js[i].date), s.pcs[i := Done]))
  {
    var j := js[i];
    var after := Credit(s.rows, j.record, j.date);
    CreditCountsOnce(s.rows, j.record, j.date, 0, "", All);
    forall tenant, model, kind
      ensures Total(after, tenant, model, kind)
           == Total(rows, tenant, model, kind) + Credited(js, s.pcs[i := Done], tenant, model, kind)
    {
      CreditCountsOnce(s.rows, j.record, j.date, tenant, model, kind);
      CreditedStep(js, s.pcs, i, Done, tenant, model, kind);
    }
  }

  lemma CreditStepKeeps(rows: seq<Row>, js: seq<Job>, s: Sys, i: nat)
    requires NoFreshPair(rows, js) && Inv(rows, js, s) && i < |js| && s.pcs[i] != Done
    ensures Inv(rows, js, Sys(Credit(s.rows, js[i].record, js[i].date), s.pcs[i := Done]))
  {
    var j := js[i];
    CreditStepCounts(rows, js, s, i);
    forall k | 0 <= k < |js|
      ensures Reached(rows, js[k]) > 0 ==> Reached(Credit(s.rows, j.record, j.date), js[k]) > 0
      ensures s.pcs[i := Done][k].Inserting? ==> Reached(Credit(s.rows, j.record, j.date), js[k]) == 0
    {
      CreditKeepsRows(s.rows, j, js[k]);
    }
  }

  lemma StepKeeps(rows: seq<Row>, js: seq<Job>, s: Sys, t: Turn)
    requires NoFreshPair(rows, js) && Inv(rows, js, s)
    ensures Inv(rows, js, Next(js, s, t))
  {
    if t.i < |js| {
      var j, pc := js[t.i], s.pcs[t.i];
      if pc == Done || pc == Dead {
        assert s.pcs[t.i := pc] == s.pcs;
      } else if t.fails || (pc.Updating? && Reached(s.rows, j) == 0) {
        IdleStepKeeps(rows, js, s, t.i, Step(s.rows, j, pc, t.fails).1);
      } else {
        assert Step(s.rows, j, pc, t.fails) == (Credit(s.rows, j.record, j.date), Done);
        CreditStepKeeps(rows, js, s, t.i);
      }
    }
  }

  lemma {:induction false} RunKeeps(rows: seq<Row>, js: seq<Job>, s: Sys, ts: seq<Turn>)
    requires NoFreshPair(rows, js) && Inv(rows, js, s)
    ensures Inv(rows, js, Run(js, s, ts))
    decreases ts
  {
    if ts != [] {
      StepKeeps(rows, js, s, ts[0]);
      RunKeeps(rows, js, Next(js, s, ts[0]), ts[1..]);
    }
  }

  lemma {:induction false} NothingCredited(js: seq<Job>, tenant: nat, model: string, kind: Kind)
    ensures Credited(js, seq(|js|, _ => Updating(0)), tenant, model, kind) == 0
  {
    if js != [] {
      assert seq(|js|, _ => Updating(0))[1..] == seq(|js[1..]|, _ => Updating(0));
      NothingCredited(js[1..], tenant, model, kind);
    }
  }

  lemma StartIsKept(rows: seq<Row>, js: seq<Job>)
    requires UniqueRows(rows)
    ensures Inv(rows, js, Start(rows, js))
  {
    forall tenant, model, kind
      ensures Credited(js, Start(rows, js).pcs, tenant, model, kind) == 0
    {
      NothingCredited(js, tenant, model, kind);
    }
  }

  // ---------------------------------------------------------------- with one

  /** Both recordings UPDATE before either INSERTs. */
  function Race(i: nat, j: nat): seq<Turn> {
    [Turn(i, false), Turn(j, false), Turn(i, false), Turn(j, false)]
  }

  lemma {:induction false} RaceRuns(rows: seq<Row>, js: seq<Job>, i: nat, j: nat)
    requires i < j < |js| && SameKey(js[i], js[j]) && Reached(rows, js[i]) == 0
    ensures Run(js, Start(rows, js), Race(i, j)).rows == rows + [RowOf(js[i])] + [RowOf(js[j])]
  {
    var s := Start(rows, js);
    var s1 := Next(js, s, Turn(i, false));
    var s2 := Next(js, s1, Turn(j, false));
    var s3 := Next(js, s2, Turn(i, false));
    var s4 := Next(js, s3, Turn(j, false));
    assert s2.pcs[i] == Inserting(0) && s2.pcs[j] == Inserting(0) && s2.rows == rows;
    var ts := Race(i, j);
    assert ts[1..] == [Turn(j, false), Turn(i, false), Turn(j, false)];
    assert ts[1..][1..] == [Turn(i, false), Turn(j, false)] && ts[1..][1..][1..] == [Turn(j, false)];
    assert Run(js, s3, [Turn(j, false)]) == Run(js, s4, []);
    assert Run(js, s2, ts[1..][1..]) == s4;
  }

  /** The race leaves two rows for the key, and from then on every usage recorded for it counts twice. */
  lemma {:induction false} RaceCountsTwice(rows: seq<Row>, js: seq<Job>, i: nat, j: nat, later: Record, kind: Kind)
    requires i < j < |js| && SameKey(js[i], js[j]) && Reached(rows, js[i]) == 0
    requires later.tenant == js[i].record.tenant && later.model == js[i].record.model
    ensures
      var s := Run(js, Start(rows, js), Race(i, j));
      && Reached(s.rows, js[i]) == 2
      && Total(Credit(s.rows, later, js[i].date), later.tenant, later.model, kind)
         == Total(s.rows, later.tenant, later.model, kind) + 2 * Amount(later.usage, kind)
  {
    var a, b := RowOf(js[i]), RowOf(js[j]);
    RaceRuns(rows, js, i, j);
    AffectedAppend(rows, [a], a.tenant, a.date, a.model);
    AffectedAppend(rows + [a], [b], a.tenant, a.date, a.model);
    TotalUpdate(rows + [a] + [b], a.tenant, a.date, a.model, later.usage, a.tenant, a.model, kind);
  }

  /**
   Every schedule of these recordings, under any database failures, counts each once and keeps one
   row for a key, if and only if no two of them share a key that has no row at the start.
   */
  lemma SchedulesAreSafe(rows: seq<Row>, js: seq<Job>)
    requires UniqueRows(rows)
    ensures AlwaysKept(rows, js) <==> NoFreshPair(rows, js)
  {
    if NoFreshPair(rows, js) {
      forall ts
        ensures Kept(rows, js, Run(js, Start(rows, js), ts))
      {
        StartIsKept(rows, js);
        RunKeeps(rows, js, Start(rows, js), ts);
      }
    } else {
      var i, j :| 0 <= i < j < |js| && SameKey(js[i], js[j]) && Reached(rows, js[i]) == 0;
      RaceCountsTwice(rows, js, i, j, js[i].record, All);
      assert !Kept(rows, js, Run(js, Start(rows, js), Race(i, j)));
    }
  }
}
