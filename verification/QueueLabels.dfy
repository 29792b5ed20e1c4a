/** What the statuses of the repaired queue mean: records follow their jobs, and dead jobs have used their whole budget. */
module QueueLabels {
  import opened Common
  import opened JobQueue
  import opened QueueRuns

  /** A submitted job is the next one delivered, as ordered, and delivering it undoes the push. */
  lemma {:induction false} NewestComesFirst(cfg: Config, s: Store, job: Job, id: string, now: int)
    ensures
      var (t, next) := Dequeue(Repaired, cfg, Enqueue(Repaired, cfg, s, job, id, now), job.queue);
      && next.Some? && var j := next.value;
      && j.id == id && j.status == Pending && j.queue == Normalize(cfg, job.queue)
      && j.retries == job.retries && AsOrdered(cfg, Order(job, now), j)
      && (forall key :: ListAt(t, key) == ListAt(s, key))
      && t.records == s.records[JobKey(cfg, id, j.queue) := Record(j, None)]
  {
    var j := Stamped(cfg, job, id, now);
    var pushed := Enqueue(Repaired, cfg, s, job, id, now);
    PushIsUndone(s, QueueKey(j.queue), j, pushed);
    assert PopKey(Repaired, cfg, job.queue) == QueueKey(j.queue);
  }

  /** Taking the last job off a list undoes the push. */
  lemma PushIsUndone(s: Store, key: string, j: Job, pushed: Store)
    requires pushed.lists == Push(s, key, j).lists
    ensures
      var jobs := ListAt(pushed, key);
      && jobs != [] && jobs[|jobs| - 1] == j
      && forall k :: ListAt(pushed.(lists := pushed.lists[key := jobs[..|jobs| - 1]]), k) == ListAt(s, k)
  {
    var before := ListAt(s, key);
    assert ListAt(pushed, key) == before + [j];
    assert (before + [j])[..|before|] == before;
  }

  function RecordOf(cfg: Config, s: Sys, j: Job): Option<Record> {
    var key := JobKey(cfg, j.id, cfg.defaultQueue);
    if key in s.store.records then Some(s.store.records[key]) else None
  }

  ghost predicate Ordered(cfg: Config, s: Sys, j: Job) {
    j.id in s.jobs && AsOrdered(cfg, s.jobs[j.id], j)
  }

  /** A job as delivered: its record is the job itself and does not expire. */
  ghost predicate Waiting(cfg: Config, s: Sys, j: Job) {
    Ordered(cfg, s, j) && j.status == Pending && RecordOf(cfg, s, j) == Some(Record(j, None))
  }

  /** A job in its handler: its record is that of the running job and expires with the timeout. */
  ghost predicate Handled(cfg: Config, s: Sys, j: Job, since: int) {
    && Ordered(cfg, s, j) && j.status == Pending
    && RecordOf(cfg, s, j)
       == Some(Record(j.(status := Running, times := j.times.(started := Some(since))), Expiry(j.timeout, since)))
  }

  /** Dead, after exactly as many failures as the submitted job was to have attempts. */
  ghost predicate Spent(cfg: Config, s: Sys, j: Job) {
    Ordered(cfg, s, j) && j.status == Dead && j.retries == s.jobs[j.id].job.retries + Attempts(cfg, s.jobs[j.id].job)
  }

  ghost predicate Labelled(cfg: Config, s: Sys) {
    && (forall i | 0 <= i < |PendingJobs(cfg, s)| :: Waiting(cfg, s, PendingJobs(cfg, s)[i]))
    && (forall w | 0 <= w < |s.workers| && s.workers[w].Holding? :: Waiting(cfg, s, s.workers[w].job))
    && (forall w | 0 <= w < |s.workers| && s.workers[w].Handling? :: Handled(cfg, s, s.workers[w].job, s.workers[w].since))
    && (forall i | 0 <= i < |DeadJobs(cfg, s)| :: Spent(cfg, s, DeadJobs(cfg, s)[i]))
  }

  ghost predicate OnlyRecordOf(cfg: Config, s: Sys, t: Sys, id: string) {
    forall k | k != JobKey(cfg, id, cfg.defaultQueue) ::
      (k in s.store.records <==> k in t.store.records) && (k in s.store.records ==> s.store.records[k] == t.store.records[k])
  }

  /** A step that writes only the record of `id` leaves the labels of other jobs. */
  lemma OthersLabelled(cfg: Config, s: Sys, t: Sys, id: string, j: Job, since: int)
    requires j.id != id && ':' !in id && ':' !in j.id && OnlyRecordOf(cfg, s, t, id)
    requires j.id in s.jobs ==> j.id in t.jobs && t.jobs[j.id] == s.jobs[j.id]
    ensures Waiting(cfg, s, j) ==> Waiting(cfg, t, j)
    ensures Handled(cfg, s, j, since) ==> Handled(cfg, t, j, since)
  {
    JobKeyIsInjective(cfg, j.id, cfg.defaultQueue, id, cfg.defaultQueue);
    assert RecordOf(cfg, t, j) == RecordOf(cfg, s, j);
  }

  lemma SpentStay(cfg: Config, s: Sys, t: Sys)
    requires forall k | k in s.jobs :: k in t.jobs && t.jobs[k] == s.jobs[k]
    requires forall i | 0 <= i < |DeadJobs(cfg, s)| :: Spent(cfg, s, DeadJobs(cfg, s)[i])
    ensures forall i | 0 <= i < |DeadJobs(cfg, s)| :: Spent(cfg, t, DeadJobs(cfg, s)[i])
  {
    forall i | 0 <= i < |DeadJobs(cfg, s)|
      ensures Spent(cfg, t, DeadJobs(cfg, s)[i])
    {
      assert Spent(cfg, s, DeadJobs(cfg, s)[i]);
    }
  }

  lemma SubmitLabels(cfg: Config, s: Sys, e: Event)
    requires Inv(cfg, s) && Labelled(cfg, s) && e.Submit? && Enabled(cfg, s, e)
    ensures Labelled(cfg, Next(cfg, s, e))
  {
    PushedPending(cfg, s.store, Stamped(cfg, e.job, e.id, e.now));
    SubmittedWaits(cfg, s, e);
    SubmitLeavesPending(cfg, s, e);
    SubmitLeavesWorkers(cfg, s, e);
    SpentStay(cfg, s, Next(cfg, s, e));
  }

  lemma SubmittedWaits(cfg: Config, s: Sys, e: Event)
    requires e.Submit? && Enabled(cfg, s, e)
    ensures Waiting(cfg, Next(cfg, s, e), Stamped(cfg, e.job, e.id, e.now))
  {
  }

  lemma SubmitLeavesPending(cfg: Config, s: Sys, e: Event)
    requires Inv(cfg, s) && Labelled(cfg, s) && e.Submit? && Enabled(cfg, s, e)
    ensures forall i | 0 <= i < |PendingJobs(cfg, s)| :: Waiting(cfg, Next(cfg, s, e), PendingJobs(cfg, s)[i])
  {
    var t, before := Next(cfg, s, e), PendingJobs(cfg, s);
    assert OnlyRecordOf(cfg, s, t, e.id);
    forall i | 0 <= i < |before|
      ensures Waiting(cfg, t, before[i])
    {
      assert OnItsWay(cfg, s, before[i], None) && Waiting(cfg, s, before[i]);
      OthersLabelled(cfg, s, t, e.id, before[i], 0);
    }
  }

  lemma SubmitLeavesWorkers(cfg: Config, s: Sys, e: Event)
    requires Inv(cfg, s) && Labelled(cfg, s) && e.Submit? && Enabled(cfg, s, e)
    ensures
      var t := Next(cfg, s, e);
      && (forall w | 0 <= w < |s.workers| && s.workers[w].Holding? :: Waiting(cfg, t, s.workers[w].job))
      && (forall w | 0 <= w < |s.workers| && s.workers[w].Handling? :: Handled(cfg, t, s.workers[w].job, s.workers[w].since))
  {
    var t := Next(cfg, s, e);
    assert OnlyRecordOf(cfg, s, t, e.id);
    forall w | 0 <= w < |s.workers| && !s.workers[w].Polling?
      ensures s.workers[w].Holding? ==> Waiting(cfg, t, s.workers[w].job)
      ensures s.workers[w].Handling? ==> Handled(cfg, t, s.workers[w].job, s.workers[w].since)
    {
      assert OnItsWay(cfg, s, s.workers[w].job, Started(s.workers[w]));
      OthersLabelled(cfg, s, t, e.id, s.workers[w].job, if s.workers[w].Handling? then s.workers[w].since else 0);
    }
  }

  lemma TakeLabels(cfg: Config, s: Sys, e: Event)
    requires Inv(cfg, s) && Labelled(cfg, s) && e.Take? && Enabled(cfg, s, e)
    ensures Labelled(cfg, Next(cfg, s, e))
  {
    var t := Next(cfg, s, e);
    var jobs := PendingJobs(cfg, s);
    Popped(cfg, s.store);
    assert forall j :: RecordOf(cfg, t, j) == RecordOf(cfg, s, j);
    assert forall i | 0 <= i < |jobs| :: Waiting(cfg, s, jobs[i]);
    assert forall i | 0 <= i < |DeadJobs(cfg, s)| :: Spent(cfg, s, DeadJobs(cfg, s)[i]);
  }

  /** A worker's step on its own job leaves the labels of all jobs it does not hold. */
  lemma WorkerStepLabels(cfg: Config, s: Sys, t: Sys, w: nat)
    requires Inv(cfg, s) && Labelled(cfg, s) && w < |s.workers| && !s.workers[w].Polling?
    requires t.jobs == s.jobs && |t.workers| == |s.workers|
    requires forall v | 0 <= v < |s.workers| && v != w :: t.workers[v] == s.workers[v]
    requires OnlyRecordOf(cfg, s, t, s.workers[w].job.id)
    ensures forall i | 0 <= i < |PendingJobs(cfg, s)| :: Waiting(cfg, t, PendingJobs(cfg, s)[i])
    ensures forall v | 0 <= v < |t.workers| && v != w && t.workers[v].Holding? :: Waiting(cfg, t, t.workers[v].job)
    ensures forall v | 0 <= v < |t.workers| && v != w && t.workers[v].Handling? :: Handled(cfg, t, t.workers[v].job, t.workers[v].since)
    ensures forall i | 0 <= i < |DeadJobs(cfg, s)| :: Spent(cfg, t, DeadJobs(cfg, s)[i])
  {
    var id := s.workers[w].job.id;
    OthersDiffer(cfg, s, w);
    assert OnItsWay(cfg, s, s.workers[w].job, Started(s.workers[w]));
    forall i | 0 <= i < |PendingJobs(cfg, s)|
      ensures Waiting(cfg, t, PendingJobs(cfg, s)[i])
    {
      assert OnItsWay(cfg, s, PendingJobs(cfg, s)[i], None) && Waiting(cfg, s, PendingJobs(cfg, s)[i]);
      OthersLabelled(cfg, s, t, id, PendingJobs(cfg, s)[i], 0);
    }
    forall v | 0 <= v < |t.workers| && v != w && !t.workers[v].Polling?
      ensures t.workers[v].Holding? ==> Waiting(cfg, t, t.workers[v].job)
      ensures t.workers[v].Handling? ==> Handled(cfg, t, t.workers[v].job, t.workers[v].since)
    {
      assert OnItsWay(cfg, s, s.workers[v].job, Started(s.workers[v]));
      OthersLabelled(cfg, s, t, id, s.workers[v].job, if s.workers[v].Handling? then s.workers[v].since else 0);
    }
    SpentStay(cfg, s, t);
  }

  /** What a timely failure leaves is labelled. */
  lemma FailedIsLabelled(cfg: Config, s: Sys, w: nat, error: string, now: int)
    requires Inv(cfg, s) && Labelled(cfg, s) && w < |s.workers| && !s.workers[w].Polling? && !Late(s.workers[w], now)
    requires JobKey(cfg, s.workers[w].job.id, s.workers[w].job.queue) in s.store.records
    ensures
      var t := Failing(cfg, s, w, error, now);
      var r := FailedRecord(cfg, s, s.workers[w].job, error, now);
      && t.jobs == s.jobs && OnlyRecordOf(cfg, s, t, s.workers[w].job.id)
      && if r.retries >= r.maxRetries then Spent(cfg, t, r.(status := Dead)) else Waiting(cfg, t, r.(status := Pending))
  {
    assert OnItsWay(cfg, s, s.workers[w].job, Started(s.workers[w]));
    FailingLists(cfg, s, w, error, now);
  }

  lemma FailingLabels(cfg: Config, s: Sys, w: nat, error: string, now: int)
    requires Inv(cfg, s) && Labelled(cfg, s) && w < |s.workers| && !s.workers[w].Polling?
    ensures Labelled(cfg, Failing(cfg, s, w, error, now))
  {
    var t := Failing(cfg, s, w, error, now);
    assert OnItsWay(cfg, s, s.workers[w].job, Started(s.workers[w]));
    FailingLists(cfg, s, w, error, now);
    if !Late(s.workers[w], now) {
      FailedIsLabelled(cfg, s, w, error, now);
    }
    WorkerStepLabels(cfg, s, t, w);
  }

  lemma BeginLabels(cfg: Config, s: Sys, e: Event)
    requires Inv(cfg, s) && Labelled(cfg, s) && e.Begin? && Enabled(cfg, s, e)
    ensures Labelled(cfg, Next(cfg, s, e))
  {
    var job := s.workers[e.w].job;
    assert OnItsWay(cfg, s, job, None) && Waiting(cfg, s, job);
    assert Handled(cfg, Next(cfg, s, e), job, e.now);
    WorkerStepLabels(cfg, s, Next(cfg, s, e), e.w);
  }

  lemma FinishLabels(cfg: Config, s: Sys, e: Event)
    requires Inv(cfg, s) && Labelled(cfg, s) && e.Finish? && Enabled(cfg, s, e)
    ensures Labelled(cfg, Next(cfg, s, e))
  {
    assert OnItsWay(cfg, s, s.workers[e.w].job, Started(s.workers[e.w]));
    WorkerStepLabels(cfg, s, Next(cfg, s, e), e.w);
  }

  lemma StepLabels(cfg: Config, s: Sys, e: Event)
    requires Inv(cfg, s) && Labelled(cfg, s) && Enabled(cfg, s, e)
    ensures Labelled(cfg, Next(cfg, s, e))
  {
    match e
    case Submit(_, _, _) => SubmitLabels(cfg, s, e);
    case Take(_) => TakeLabels(cfg, s, e);
    case Begin(_, _) => BeginLabels(cfg, s, e);
    case Finish(_) => FinishLabels(cfg, s, e);
    case Refuse(w, error, now) => FailingLabels(cfg, s, w, error, now);
    case Break(w, error, now) => FailingLabels(cfg, s, w, error, now);
  }

  lemma {:induction false} RunLabels(cfg: Config, s: Sys, es: seq<Event>, t: Sys)
    requires Inv(cfg, s) && Labelled(cfg, s) && Reaches(cfg, s, es, t)
    ensures Labelled(cfg, t)
    decreases es
  {
    if es != [] {
      StepKeeps(cfg, s, es[0]);
      StepLabels(cfg, s, es[0]);
      RunLabels(cfg, Next(cfg, s, es[0]), es[1..], t);
    }
  }

  /** A completed job has left no record. */
  ghost predicate Cleared(cfg: Config, s: Sys) {
    forall id | InIds(s.completed, id) > 0 :: ':' !in id && JobKey(cfg, id, cfg.defaultQueue) !in s.store.records
  }

  lemma SubmitClears(cfg: Config, s: Sys, e: Event)
    requires Inv(cfg, s) && Cleared(cfg, s) && e.Submit? && Enabled(cfg, s, e)
    ensures Cleared(cfg, Next(cfg, s, e))
  {
    forall id | InIds(s.completed, id) > 0
      ensures JobKey(cfg, id, cfg.defaultQueue) !in Next(cfg, s, e).store.records
    {
      assert Places(cfg, s, id) >= 1 && id in s.jobs;
      JobKeyIsInjective(cfg, id, cfg.defaultQueue, e.id, cfg.defaultQueue);
    }
  }

  /** A worker's step on the job it holds writes no completed job's record. */
  lemma WorkerClears(cfg: Config, s: Sys, t: Sys, w: nat)
    requires Inv(cfg, s) && Cleared(cfg, s) && w < |s.workers| && !s.workers[w].Polling?
    requires OnlyRecordOf(cfg, s, t, s.workers[w].job.id)
    ensures forall id | InIds(s.completed, id) > 0 :: JobKey(cfg, id, cfg.defaultQueue) !in t.store.records
  {
    var own := s.workers[w].job.id;
    HandsContain(s.workers, w, own);
    assert OnItsWay(cfg, s, s.workers[w].job, Started(s.workers[w]));
    forall id | InIds(s.completed, id) > 0
      ensures JobKey(cfg, id, cfg.defaultQueue) !in t.store.records
    {
      assert Places(cfg, s, own) <= 1 && id != own;
      JobKeyIsInjective(cfg, id, cfg.defaultQueue, own, cfg.defaultQueue);
    }
  }

  lemma FinishClears(cfg: Config, s: Sys, e: Event)
    requires Inv(cfg, s) && Cleared(cfg, s) && e.Finish? && Enabled(cfg, s, e)
    ensures Cleared(cfg, Next(cfg, s, e))
  {
    var job := s.workers[e.w].job;
    assert OnItsWay(cfg, s, job, Started(s.workers[e.w]));
    WorkerClears(cfg, s, Next(cfg, s, e), e.w);
    forall id
      ensures InIds(s.completed + [job.id], id) == InIds(s.completed, id) + (if job.id == id then 1 else 0)
    {
      IdsPush(s.completed, job.id, id);
    }
  }

  lemma FailingClears(cfg: Config, s: Sys, w: nat, error: string, now: int)
    requires Inv(cfg, s) && Cleared(cfg, s) && w < |s.workers| && !s.workers[w].Polling?
    ensures Cleared(cfg, Failing(cfg, s, w, error, now))
  {
    assert OnItsWay(cfg, s, s.workers[w].job, Started(s.workers[w]));
    FailingLists(cfg, s, w, error, now);
    WorkerClears(cfg, s, Failing(cfg, s, w, error, now), w);
  }

  lemma BeginClears(cfg: Config, s: Sys, e: Event)
    requires Inv(cfg, s) && Cleared(cfg, s) && e.Begin? && Enabled(cfg, s, e)
    ensures Cleared(cfg, Next(cfg, s, e))
  {
    assert OnItsWay(cfg, s, s.workers[e.w].job, None);
    WorkerClears(cfg, s, Next(cfg, s, e), e.w);
  }

  lemma StepClears(cfg: Config, s: Sys, e: Event)
    requires Inv(cfg, s) && Cleared(cfg, s) && Enabled(cfg, s, e)
    ensures Cleared(cfg, Next(cfg, s, e))
  {
    match e
    case Submit(_, _, _) => SubmitClears(cfg, s, e);
    case Take(_) => Popped(cfg, s.store);
    case Begin(_, _) => BeginClears(cfg, s, e);
    case Finish(_) => FinishClears(cfg, s, e);
    case Refuse(w, error, now) => FailingClears(cfg, s, w, error, now);
    case Break(w, error, now) => FailingClears(cfg, s, w, error, now);
  }

  lemma {:induction false} RunClears(cfg: Config, s: Sys, es: seq<Event>, t: Sys)
    requires Inv(cfg, s) && Cleared(cfg, s) && Reaches(cfg, s, es, t)
    ensures Cleared(cfg, t)
    decreases es
  {
    if es != [] {
      StepKeeps(cfg, s, es[0]);
      StepClears(cfg, s, es[0]);
      RunClears(cfg, Next(cfg, s, es[0]), es[1..], t);
    }
  }

  /**
   In every reachable state a job waiting to be handled equals its record, a job in its handler has
   a Running record that expires with its timeout, a dead job has failed exactly
   max(1, MaxRetries - Retries) times, and a completed one has no record; each is as it was submitted.
   */
  lemma StatusesTell(cfg: Config, workers: nat, es: seq<Event>, t: Sys)
    requires Reaches(cfg, StartState(workers), es, t)
    ensures Labelled(cfg, t) && Cleared(cfg, t)
    ensures forall job, id, now | Submit(job, id, now) in es :: id in t.jobs && t.jobs[id] == Order(job, now)
  {
    StartIsSound(cfg, workers);
    RunLabels(cfg, StartState(workers), es, t);
    RunClears(cfg, StartState(workers), es, t);
    forall job, id, now | Submit(job, id, now) in es
      ensures id in t.jobs && t.jobs[id] == Order(job, now)
    {
      OrdersAreSubmissions(cfg, StartState(workers), es, t, id);
    }
  }

  /** A failure is told by the job it leaves, dead or pending: one more retry, the error, and the time. */
  lemma FailureTells(cfg: Config, s: Sys, w: nat, error: string, now: int)
    requires Inv(cfg, s) && Labelled(cfg, s) && w < |s.workers| && !s.workers[w].Polling? && !Late(s.workers[w], now)
    ensures
      var t, job := Failing(cfg, s, w, error, now), s.workers[w].job;
      var dies := job.retries + 1 >= Allowance(cfg, s.jobs[job.id].job);
      var left := if dies then DeadJobs(cfg, t) else PendingJobs(cfg, t);
      && left != [] && var j := left[|left| - 1];
      && j.id == job.id && j.retries == job.retries + 1 && j.error == error && j.times.finished == Some(now)
      && (s.workers[w].Handling? ==> j.times.started == Some(s.workers[w].since))
  {
    assert OnItsWay(cfg, s, s.workers[w].job, Started(s.workers[w]));
    FailingLists(cfg, s, w, error, now);
  }
}
