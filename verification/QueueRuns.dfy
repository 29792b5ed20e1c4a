/**
 Life of the jobs in the repaired protocol, with any number of workers on the default queue. Nothing
 stops a handler when its job's record expires.
 */
module QueueRuns {
  import opened Common
  import opened JobQueue

  /** A worker polls, holds a dequeued job, or is inside the job's handler. */
  datatype Worker = Polling | Holding(job: Job) | Handling(job: Job, since: int)

  /** A job as it was submitted, and when. */
  datatype Order = Order(job: Job, at: int)

  /**
   The store and the workers; every order ever placed, by id; the completed ids; the ids whose failure
   found no record; and how often each handler has been started.
   */
  datatype Sys = Sys(
    store: Store, workers: seq<Worker>, jobs: map<string, Order>,
    completed: seq<string>, lost: seq<string>, runs: map<string, nat>)

  datatype Event =
    | Submit(job: Job, id: string, now: int)
    | Take(w: nat)
    | Refuse(w: nat, error: string, now: int)   // no handler for the job's type
    | Begin(w: nat, now: int)
    | Finish(w: nat)
    | Break(w: nat, error: string, now: int)    // the handler failed

  function PendingJobs(cfg: Config, s: Sys): seq<Job> {
    ListAt(s.store, QueueKey(cfg.defaultQueue))
  }

  function DeadJobs(cfg: Config, s: Sys): seq<Job> {
    ListAt(s.store, DlqKey(cfg.defaultQueue))
  }

  /** Ids are fresh and free of colons; jobs go to the queue the workers serve. */
  ghost predicate Enabled(cfg: Config, s: Sys, e: Event) {
    match e
    case Submit(job, id, _) => id !in s.jobs && ':' !in id && Normalize(cfg, job.queue) == cfg.defaultQueue
    case Take(w) => w < |s.workers| && s.workers[w].Polling? && PendingJobs(cfg, s) != []
    case Refuse(w, _, _) => w < |s.workers| && s.workers[w].Holding?
    case Begin(w, _) => w < |s.workers| && s.workers[w].Holding?
    case Finish(w) => w < |s.workers| && s.workers[w].Handling?
    case Break(w, _, _) => w < |s.workers| && s.workers[w].Handling?
  }

  ghost function Next(cfg: Config, s: Sys, e: Event): Sys
    requires Enabled(cfg, s, e)
  {
    match e
    case Submit(job, id, now) =>
      s.(store := Enqueue(Repaired, cfg, s.store, job, id, now),
         jobs := s.jobs[id := Order(job, now)],
         runs := s.runs[id := 0])
    case Take(w) =>
      var (store, job) := Dequeue(Repaired, cfg, s.store, "");
      s.(store := store, workers := s.workers[w := Holding(job.value)])
    case Refuse(w, error, now) => Failing(cfg, s, w, error, now)
    case Begin(w, now) =>
      var job := s.workers[w].job;
      s.(store := Start(cfg, s.store, job.id, job.queue, now).0,
         workers := s.workers[w := Handling(job, now)],
         runs := s.runs[job.id := (if job.id in s.runs then s.runs[job.id] else 0) + 1])
    case Finish(w) =>
      var job := s.workers[w].job;
      s.(store := Complete(cfg, s.store, job.id, job.queue),
         workers := s.workers[w := Polling],
         completed := s.completed + [job.id])
    case Break(w, error, now) => Failing(cfg, s, w, error, now)
  }

  /** The worker ignores that Fail found no record; the job is then nowhere. */
  function Failing(cfg: Config, s: Sys, w: nat, error: string, now: int): Sys
    requires w < |s.workers| && !s.workers[w].Polling?
  {
    var job := s.workers[w].job;
    var (store, r) := Fail(Repaired, cfg, s.store, job.id, job.queue, error, now);
    s.(store := store, workers := s.workers[w := Polling], lost := s.lost + (if r == NotFound then [job.id] else []))
  }

  function StartState(workers: nat): Sys {
    Sys(EMPTY_STORE, seq(workers, _ => Polling), map[], [], [], map[])
  }

  ghost predicate Reaches(cfg: Config, s: Sys, es: seq<Event>, t: Sys)
    decreases es
  {
    if es == [] then s == t else Enabled(cfg, s, es[0]) && Reaches(cfg, Next(cfg, s, es[0]), es[1..], t)
  }

  // ---------------------------------------------------------------- places

  function InJobs(jobs: seq<Job>, id: string): nat {
    if jobs == [] then 0 else InJobs(jobs[..|jobs| - 1], id) + (if jobs[|jobs| - 1].id == id then 1 else 0)
  }

  function InIds(ids: seq<string>, id: string): nat {
    if ids == [] then 0 else InIds(ids[..|ids| - 1], id) + (if ids[|ids| - 1] == id then 1 else 0)
  }

  function With(w: Worker, id: string): nat {
    if !w.Polling? && w.job.id == id then 1 else 0
  }

  function InHands(ws: seq<Worker>, id: string): nat {
    if ws == [] then 0 else InHands(ws[..|ws| - 1], id) + With(ws[|ws| - 1], id)
  }

  /** How often an id is pending, with a worker, completed or dead. */
  function Places(cfg: Config, s: Sys, id: string): nat {
    InJobs(PendingJobs(cfg, s), id) + InHands(s.workers, id) + InIds(s.completed, id) + InJobs(DeadJobs(cfg, s), id)
  }

  lemma {:induction false} HandsUpdate(ws: seq<Worker>, i: nat, w: Worker, id: string)
    requires i < |ws|
    ensures InHands(ws[i := w], id) + With(ws[i], id) == InHands(ws, id) + With(w, id)
  {
    var n := |ws| - 1;
    if i == n {
      assert ws[i := w][..n] == ws[..n];
    } else {
      assert ws[i := w][..n] == ws[..n][i := w];
      HandsUpdate(ws[..n], i, w, id);
    }
  }

  lemma {:induction false} HandsContain(ws: seq<Worker>, i: nat, id: string)
    requires i < |ws|
    ensures With(ws[i], id) <= InHands(ws, id)
  {
    if i < |ws| - 1 {
      HandsContain(ws[..|ws| - 1], i, id);
    }
  }

  lemma JobsPush(jobs: seq<Job>, job: Job, id: string)
    ensures InJobs(jobs + [job], id) == InJobs(jobs, id) + (if job.id == id then 1 else 0)
  {
    assert (jobs + [job])[..|jobs|] == jobs;
  }

  lemma IdsPush(ids: seq<string>, x: string, id: string)
    ensures InIds(ids + [x], id) == InIds(ids, id) + (if x == id then 1 else 0)
  {
    assert (ids + [x])[..|ids|] == ids;
  }

  lemma {:induction false} JobsContain(jobs: seq<Job>, i: nat)
    requires i < |jobs|
    ensures InJobs(jobs, jobs[i].id) >= 1
  {
    if i < |jobs| - 1 {
      JobsContain(jobs[..|jobs| - 1], i);
    }
  }

  /** The retries and the timeout that a submitted job is to have: its own, or the default for zero. */
  function Allowance(cfg: Config, job: Job): int {
    if job.maxRetries == 0 then cfg.defaultRetries else job.maxRetries
  }

  function Limit(cfg: Config, job: Job): int {
    if job.timeout == 0 then cfg.defaultTimeout else job.timeout
  }

  /** The attempts that a submitted job is to have: at least one. */
  function Attempts(cfg: Config, job: Job): nat {
    if Allowance(cfg, job) - job.retries > 1 then Allowance(cfg, job) - job.retries else 1
  }

  /** A job as ordered: unless it has failed since, also its error and its times are those of the order. */
  ghost predicate AsOrdered(cfg: Config, o: Order, j: Job) {
    && j.jobType == o.job.jobType
    && j.maxRetries == Allowance(cfg, o.job) && j.timeout == Limit(cfg, o.job)
    && j.times.created == o.at
    && j.retries >= o.job.retries
    && (j.retries == o.job.retries ==> j.error == o.job.error && j.times == o.job.times.(created := o.at))
  }

  /** The attempts a job still has: at least one. */
  function Budget(job: Job): nat {
    if job.maxRetries - job.retries > 1 then job.maxRetries - job.retries else 1
  }

  /** When the record of a job expires: never, unless it has been in its handler `since` some time. */
  function Due(j: Job, since: Option<int>): Option<int> {
    if since.Some? then Expiry(j.timeout, since.value) else None
  }

  /** A job on its way, in its handler `since` some time or not there. */
  ghost predicate OnItsWay(cfg: Config, s: Sys, j: Job, since: Option<int>) {
    && j.id in s.jobs && j.id in s.runs && ':' !in j.id
    && j.queue == cfg.defaultQueue
    && JobKey(cfg, j.id, j.queue) in s.store.records
    && var record := s.store.records[JobKey(cfg, j.id, j.queue)];
       var r, first := record.job, s.jobs[j.id].job;
       && r.id == j.id && r.queue == j.queue && r.retries == j.retries
       && r.maxRetries == j.maxRetries == Allowance(cfg, first) && r.timeout == j.timeout
       && record.deadline == Due(j, since)
       && first.retries <= j.retries
       && (j.retries == first.retries || j.retries < Allowance(cfg, first))
       && s.runs[j.id] <= j.retries - first.retries + (if since.Some? then 1 else 0)
  }

  /** Every job on its way is as it should be, and no job has run too often. */
  ghost predicate Sound(cfg: Config, s: Sys) {
    && s.runs.Keys == s.jobs.Keys
    && (forall i | 0 <= i < |PendingJobs(cfg, s)| :: OnItsWay(cfg, s, PendingJobs(cfg, s)[i], None))
    && (forall w | 0 <= w < |s.workers| && !s.workers[w].Polling? :: OnItsWay(cfg, s, s.workers[w].job, Started(s.workers[w])))
    && (forall id | id in s.jobs :: ':' !in id && s.runs[id] <= Attempts(cfg, s.jobs[id].job))
  }

  function Started(w: Worker): Option<int> {
    if w.Handling? then Some(w.since) else None
  }

  /** Every enqueued id is in exactly one place or lost. */
  ghost predicate Placed(cfg: Config, s: Sys) {
    forall id :: Places(cfg, s, id) + InIds(s.lost, id) == if id in s.jobs then 1 else 0
  }

  ghost predicate Inv(cfg: Config, s: Sys) {
    Placed(cfg, s) && Sound(cfg, s)
  }

  // ---------------------------------------------------------------- what every step keeps

  lemma OthersDiffer(cfg: Config, s: Sys, w: nat)
    requires Placed(cfg, s) && w < |s.workers| && !s.workers[w].Polling?
    ensures forall i | 0 <= i < |PendingJobs(cfg, s)| :: PendingJobs(cfg, s)[i].id != s.workers[w].job.id
    ensures forall v | 0 <= v < |s.workers| && v != w && !s.workers[v].Polling? :: s.workers[v].job.id != s.workers[w].job.id
  {
    var id := s.workers[w].job.id;
    assert Places(cfg, s, id) <= 1;
    HandsContain(s.workers, w, id);
    HandsUpdate(s.workers, w, Polling, id);
    forall i | 0 <= i < |PendingJobs(cfg, s)|
      ensures PendingJobs(cfg, s)[i].id != id
    {
      JobsContain(PendingJobs(cfg, s), i);
    }
    forall v | 0 <= v < |s.workers| && v != w && !s.workers[v].Polling?
      ensures s.workers[v].job.id != id
    {
      HandsContain(s.workers[w := Polling], v, id);
    }
  }

  /** Other jobs do not notice a change of one job's record and count. */
  lemma Undisturbed(cfg: Config, s: Sys, t: Sys, id: string, j: Job, since: Option<int>)
    requires OnItsWay(cfg, s, j, since) && j.id != id && ':' !in id
    requires id in t.jobs ==> forall k | k in s.jobs :: k in t.jobs && (k != id ==> t.jobs[k] == s.jobs[k])
    requires id in t.jobs
    requires forall k | k in s.runs && k != id :: k in t.runs && t.runs[k] == s.runs[k]
    requires forall k | k in s.store.records && k != JobKey(cfg, id, cfg.defaultQueue) ::
      k in t.store.records && t.store.records[k] == s.store.records[k]
    ensures OnItsWay(cfg, t, j, since)
  {
    JobKeyIsInjective(cfg, j.id, j.queue, id, cfg.defaultQueue);
  }

  lemma ListKeysDiffer(cfg: Config)
    ensures QueueKey(cfg.defaultQueue) != DlqKey(cfg.defaultQueue)
  {
    assert QueueKey(cfg.defaultQueue)[0] == 'q' && DlqKey(cfg.defaultQueue)[0] == 'd';
  }

  /** What a step does to the two lists. */
  lemma PushedPending(cfg: Config, s: Store, job: Job)
    ensures
      var t := Push(s, QueueKey(cfg.defaultQueue), job);
      && ListAt(t, QueueKey(cfg.defaultQueue)) == ListAt(s, QueueKey(cfg.defaultQueue)) + [job]
      && ListAt(t, DlqKey(cfg.defaultQueue)) == ListAt(s, DlqKey(cfg.defaultQueue))
  {
    ListKeysDiffer(cfg);
  }

  lemma PushedDead(cfg: Config, s: Store, job: Job)
    ensures
      var t := Push(s, DlqKey(cfg.defaultQueue), job);
      && ListAt(t, DlqKey(cfg.defaultQueue)) == ListAt(s, DlqKey(cfg.defaultQueue)) + [job]
      && ListAt(t, QueueKey(cfg.defaultQueue)) == ListAt(s, QueueKey(cfg.defaultQueue))
  {
    ListKeysDiffer(cfg);
  }

  lemma Popped(cfg: Config, s: Store)
    requires ListAt(s, QueueKey(cfg.defaultQueue)) != []
    ensures
      var jobs := ListAt(s, QueueKey(cfg.defaultQueue));
      var (t, job) := Dequeue(Repaired, cfg, s, "");
      && job == Some(jobs[|jobs| - 1])
      && ListAt(t, QueueKey(cfg.defaultQueue)) == jobs[..|jobs| - 1]
      && ListAt(t, DlqKey(cfg.defaultQueue)) == ListAt(s, DlqKey(cfg.defaultQueue))
      && t.records == s.records
  {
    ListKeysDiffer(cfg);
    assert PopKey(Repaired, cfg, "") == QueueKey(cfg.defaultQueue);
  }

  lemma SubmitPlaces(cfg: Config, s: Sys, e: Event, id: string)
    requires e.Submit? && Enabled(cfg, s, e)
    ensures Places(cfg, Next(cfg, s, e), id) == Places(cfg, s, id) + (if id == e.id then 1 else 0)
  {
    var job := Stamped(cfg, e.job, e.id, e.now);
    PushedPending(cfg, s.store, job);
    JobsPush(PendingJobs(cfg, s), job, id);
  }

  lemma SubmitKeeps(cfg: Config, s: Sys, e: Event)
    requires Sound(cfg, s) && e.Submit? && Enabled(cfg, s, e)
    ensures Sound(cfg, Next(cfg, s, e))
  {
    var t := Next(cfg, s, e);
    var job := Stamped(cfg, e.job, e.id, e.now);
    var before := PendingJobs(cfg, s);
    PushedPending(cfg, s.store, job);
    assert OnItsWay(cfg, t, job, None);
    forall i | 0 <= i < |PendingJobs(cfg, t)|
      ensures OnItsWay(cfg, t, PendingJobs(cfg, t)[i], None)
    {
      if i < |before| {
        Undisturbed(cfg, s, t, e.id, before[i], None);
      }
    }
    forall w | 0 <= w < |s.workers| && !s.workers[w].Polling?
      ensures OnItsWay(cfg, t, s.workers[w].job, Started(s.workers[w]))
    {
      Undisturbed(cfg, s, t, e.id, s.workers[w].job, Started(s.workers[w]));
    }
  }

  lemma TakePlaces(cfg: Config, s: Sys, e: Event, id: string)
    requires e.Take? && Enabled(cfg, s, e)
    ensures Places(cfg, Next(cfg, s, e), id) == Places(cfg, s, id)
  {
    var jobs := PendingJobs(cfg, s);
    Popped(cfg, s.store);
    HandsUpdate(s.workers, e.w, Holding(jobs[|jobs| - 1]), id);
  }

  lemma TakeKeeps(cfg: Config, s: Sys, e: Event)
    requires Sound(cfg, s) && e.Take? && Enabled(cfg, s, e)
    ensures Sound(cfg, Next(cfg, s, e))
  {
    var t := Next(cfg, s, e);
    var jobs := PendingJobs(cfg, s);
    Popped(cfg, s.store);
    forall i | 0 <= i < |jobs|
      ensures OnItsWay(cfg, t, jobs[i], None)
    {
      assert OnItsWay(cfg, s, jobs[i], None);
    }
    forall w | 0 <= w < |t.workers| && !t.workers[w].Polling?
      ensures OnItsWay(cfg, t, t.workers[w].job, Started(t.workers[w]))
    {
      if w == e.w {
        assert t.workers[w].job == jobs[|jobs| - 1];
      } else {
        assert OnItsWay(cfg, s, s.workers[w].job, Started(s.workers[w]));
      }
    }
  }

  lemma OthersKept(cfg: Config, s: Sys, t: Sys, w: nat)
    requires Inv(cfg, s) && w < |s.workers| && !s.workers[w].Polling?
    requires t.jobs == s.jobs && |t.workers| == |s.workers|
    requires forall v | 0 <= v < |s.workers| && v != w :: t.workers[v] == s.workers[v]
    requires forall k | k in s.runs && k != s.workers[w].job.id :: k in t.runs && t.runs[k] == s.runs[k]
    requires forall k | k in s.store.records && k != JobKey(cfg, s.workers[w].job.id, cfg.defaultQueue) ::
      k in t.store.records && t.store.records[k] == s.store.records[k]
    ensures forall i | 0 <= i < |PendingJobs(cfg, s)| :: OnItsWay(cfg, t, PendingJobs(cfg, s)[i], None)
    ensures forall v | 0 <= v < |t.workers| && v != w && !t.workers[v].Polling? ::
      OnItsWay(cfg, t, t.workers[v].job, Started(t.workers[v]))
  {
    OthersDiffer(cfg, s, w);
    var id := s.workers[w].job.id;
    assert OnItsWay(cfg, s, s.workers[w].job, Started(s.workers[w]));
    forall i | 0 <= i < |PendingJobs(cfg, s)|
      ensures OnItsWay(cfg, t, PendingJobs(cfg, s)[i], None)
    {
      Undisturbed(cfg, s, t, id, PendingJobs(cfg, s)[i], None);
    }
    forall v | 0 <= v < |t.workers| && v != w && !t.workers[v].Polling?
      ensures OnItsWay(cfg, t, t.workers[v].job, Started(t.workers[v]))
    {
      Undisturbed(cfg, s, t, id, s.workers[v].job, Started(s.workers[v]));
    }
  }

  lemma BeginPlaces(cfg: Config, s: Sys, e: Event, id: string)
    requires e.Begin? && Enabled(cfg, s, e)
    ensures Places(cfg, Next(cfg, s, e), id) == Places(cfg, s, id)
  {
    HandsUpdate(s.workers, e.w, Handling(s.workers[e.w].job, e.now), id);
  }

  lemma BeginKeeps(cfg: Config, s: Sys, e: Event)
    requires Inv(cfg, s) && e.Begin? && Enabled(cfg, s, e)
    ensures Sound(cfg, Next(cfg, s, e))
  {
    assert OnItsWay(cfg, s, s.workers[e.w].job, None);
    OthersKept(cfg, s, Next(cfg, s, e), e.w);
    assert OnItsWay(cfg, Next(cfg, s, e), s.workers[e.w].job, Some(e.now));
  }

  lemma FinishPlaces(cfg: Config, s: Sys, e: Event, id: string)
    requires e.Finish? && Enabled(cfg, s, e)
    ensures Places(cfg, Next(cfg, s, e), id) == Places(cfg, s, id)
  {
    HandsUpdate(s.workers, e.w, Polling, id);
    IdsPush(s.completed, s.workers[e.w].job.id, id);
  }

  lemma FinishKeeps(cfg: Config, s: Sys, e: Event)
    requires Inv(cfg, s) && e.Finish? && Enabled(cfg, s, e)
    ensures Sound(cfg, Next(cfg, s, e))
  {
    assert OnItsWay(cfg, s, s.workers[e.w].job, Some(s.workers[e.w].since));
    OthersKept(cfg, s, Next(cfg, s, e), e.w);
  }

  /** Whether a failure at `now` comes after the record of the worker's job has expired. */
  predicate Late(w: Worker, now: int) {
    w.Handling? && w.job.timeout > 0 && now >= w.since + w.job.timeout
  }

  /** The record of a failed job. */
  function FailedRecord(cfg: Config, s: Sys, job: Job, error: string, now: int): Job
    requires JobKey(cfg, job.id, job.queue) in s.store.records
  {
    var r := s.store.records[JobKey(cfg, job.id, job.queue)].job;
    r.(retries := r.retries + 1, error := error, status := Failed, times := r.times.(finished := Some(now)))
  }

  lemma LateFinds(cfg: Config, s: Sys, w: nat, now: int)
    requires w < |s.workers| && !s.workers[w].Polling? && OnItsWay(cfg, s, s.workers[w].job, Started(s.workers[w]))
    ensures
      var job := s.workers[w].job;
      Get(s.store, JobKey(cfg, job.id, job.queue), now)
      == if Late(s.workers[w], now) then None else Some(s.store.records[JobKey(cfg, job.id, job.queue)].job)
  {
  }

  lemma FailingLists(cfg: Config, s: Sys, w: nat, error: string, now: int)
    requires w < |s.workers| && !s.workers[w].Polling? && OnItsWay(cfg, s, s.workers[w].job, Started(s.workers[w]))
    ensures
      var t := Failing(cfg, s, w, error, now);
      var r := FailedRecord(cfg, s, s.workers[w].job, error, now);
      if Late(s.workers[w], now) then
        t.store == s.store && t.lost == s.lost + [s.workers[w].job.id]
      else if r.retries >= r.maxRetries then
        && PendingJobs(cfg, t) == PendingJobs(cfg, s) && DeadJobs(cfg, t) == DeadJobs(cfg, s) + [r.(status := Dead)]
        && t.store.records == s.store.records && t.lost == s.lost
      else
        && PendingJobs(cfg, t) == PendingJobs(cfg, s) + [r.(status := Pending)] && DeadJobs(cfg, t) == DeadJobs(cfg, s)
        && t.store.records == s.store.records[JobKey(cfg, r.id, r.queue) := Record(r.(status := Pending), None)]
        && t.lost == s.lost
  {
    var r := FailedRecord(cfg, s, s.workers[w].job, error, now);
    LateFinds(cfg, s, w, now);
    PushedDead(cfg, s.store, r.(status := Dead));
    var again := r.(status := Pending);
    PushedPending(cfg, Put(s.store, JobKey(cfg, r.id, r.queue), again, None), again);
    assert s.lost + [] == s.lost;
  }

  lemma LatePlaces(cfg: Config, s: Sys, w: nat, error: string, now: int, id: string)
    requires w < |s.workers| && !s.workers[w].Polling? && OnItsWay(cfg, s, s.workers[w].job, Started(s.workers[w]))
    requires Late(s.workers[w], now)
    ensures
      var t := Failing(cfg, s, w, error, now);
      && InIds(t.lost, id) == InIds(s.lost, id) + With(s.workers[w], id)
      && Places(cfg, t, id) == Places(cfg, s, id) - With(s.workers[w], id)
  {
    FailingLists(cfg, s, w, error, now);
    HandsUpdate(s.workers, w, Polling, id);
    IdsPush(s.lost, s.workers[w].job.id, id);
  }

  lemma TimelyPlaces(cfg: Config, s: Sys, w: nat, error: string, now: int, id: string)
    requires w < |s.workers| && !s.workers[w].Polling? && OnItsWay(cfg, s, s.workers[w].job, Started(s.workers[w]))
    requires !Late(s.workers[w], now)
    ensures
      var t := Failing(cfg, s, w, error, now);
      t.lost == s.lost && Places(cfg, t, id) == Places(cfg, s, id)
  {
    var r := FailedRecord(cfg, s, s.workers[w].job, error, now);
    FailingLists(cfg, s, w, error, now);
    HandsUpdate(s.workers, w, Polling, id);
    if r.retries >= r.maxRetries {
      JobsPush(DeadJobs(cfg, s), r.(status := Dead), id);
    } else {
      JobsPush(PendingJobs(cfg, s), r.(status := Pending), id);
    }
  }

  lemma FailingPlaces(cfg: Config, s: Sys, w: nat, error: string, now: int, id: string)
    requires w < |s.workers| && !s.workers[w].Polling? && OnItsWay(cfg, s, s.workers[w].job, Started(s.workers[w]))
    ensures
      var t := Failing(cfg, s, w, error, now);
      var loses := Late(s.workers[w], now) && s.workers[w].job.id == id;
      && InIds(t.lost, id) == InIds(s.lost, id) + (if loses then 1 else 0)
      && Places(cfg, t, id) == Places(cfg, s, id) - (if loses then 1 else 0)
  {
    if Late(s.workers[w], now) {
      LatePlaces(cfg, s, w, error, now, id);
    } else {
      TimelyPlaces(cfg, s, w, error, now, id);
    }
  }

  lemma FailingKeeps(cfg: Config, s: Sys, w: nat, error: string, now: int)
    requires Inv(cfg, s) && w < |s.workers| && !s.workers[w].Polling?
    ensures Sound(cfg, Failing(cfg, s, w, error, now))
  {
    var t := Failing(cfg, s, w, error, now);
    var job := s.workers[w].job;
    assert OnItsWay(cfg, s, job, Started(s.workers[w]));
    var r := FailedRecord(cfg, s, job, error, now);
    FailingLists(cfg, s, w, error, now);
    OthersKept(cfg, s, t, w);
    if !Late(s.workers[w], now) && r.retries < r.maxRetries {
      assert OnItsWay(cfg, t, r.(status := Pending), None);
    }
  }

  /** The step loses `id`: its handler fails late. */
  ghost predicate Loses(cfg: Config, s: Sys, e: Event, id: string)
    requires Enabled(cfg, s, e)
  {
    e.Break? && Late(s.workers[e.w], e.now) && s.workers[e.w].job.id == id
  }

  lemma StepLoses(cfg: Config, s: Sys, e: Event, id: string)
    requires Sound(cfg, s) && Enabled(cfg, s, e)
    ensures
      var t := Next(cfg, s, e);
      && InIds(t.lost, id) == InIds(s.lost, id) + (if Loses(cfg, s, e, id) then 1 else 0)
      && Places(cfg, t, id) + InIds(t.lost, id)
         == Places(cfg, s, id) + InIds(s.lost, id) + (if e.Submit? && id == e.id then 1 else 0)
  {
    match e
    case Submit(_, _, _) => SubmitPlaces(cfg, s, e, id);
    case Take(_) => TakePlaces(cfg, s, e, id);
    case Begin(_, _) => BeginPlaces(cfg, s, e, id);
    case Finish(_) => FinishPlaces(cfg, s, e, id);
    case Refuse(w, error, now) => FailingPlaces(cfg, s, w, error, now, id);
    case Break(w, error, now) => FailingPlaces(cfg, s, w, error, now, id);
  }

  lemma StepPlaces(cfg: Config, s: Sys, e: Event)
    requires Inv(cfg, s) && Enabled(cfg, s, e)
    ensures Placed(cfg, Next(cfg, s, e))
  {
    var t := Next(cfg, s, e);
    forall id
      ensures Places(cfg, t, id) + InIds(t.lost, id) == if id in t.jobs then 1 else 0
    {
      StepLoses(cfg, s, e, id);
    }
  }

  lemma StepKeeps(cfg: Config, s: Sys, e: Event)
    requires Inv(cfg, s) && Enabled(cfg, s, e)
    ensures Inv(cfg, Next(cfg, s, e))
  {
    StepPlaces(cfg, s, e);
    match e
    case Submit(_, _, _) => SubmitKeeps(cfg, s, e);
    case Take(_) => TakeKeeps(cfg, s, e);
    case Begin(_, _) => BeginKeeps(cfg, s, e);
    case Finish(_) => FinishKeeps(cfg, s, e);
    case Refuse(w, error, now) => FailingKeeps(cfg, s, w, error, now);
    case Break(w, error, now) => FailingKeeps(cfg, s, w, error, now);
  }

  lemma {:induction false} RunKeeps(cfg: Config, s: Sys, es: seq<Event>, t: Sys)
    requires Inv(cfg, s) && Reaches(cfg, s, es, t)
    ensures Inv(cfg, t)
    decreases es
  {
    if es != [] {
      StepKeeps(cfg, s, es[0]);
      RunKeeps(cfg, Next(cfg, s, es[0]), es[1..], t);
    }
  }

  lemma {:induction false} NobodyHolds(n: nat, id: string)
    ensures InHands(seq(n, _ => Polling), id) == 0
  {
    if n > 0 {
      NobodyHolds(n - 1, id);
      assert seq(n, _ => Polling)[..n - 1] == seq(n - 1, _ => Polling);
    }
  }

  lemma StartIsSound(cfg: Config, workers: nat)
    ensures Inv(cfg, StartState(workers))
  {
    forall id
      ensures Places(cfg, StartState(workers), id) == 0
    {
      NobodyHolds(workers, id);
    }
  }

  /** In the run some handler of `id` fails after the record of its job has expired. */
  ghost predicate FailedLate(cfg: Config, s: Sys, es: seq<Event>, id: string)
    decreases es
  {
    es != [] && Enabled(cfg, s, es[0])
    && (Loses(cfg, s, es[0], id) || FailedLate(cfg, Next(cfg, s, es[0]), es[1..], id))
  }

  lemma {:induction false} LostMeansLate(cfg: Config, s: Sys, es: seq<Event>, t: Sys, id: string)
    requires Inv(cfg, s) && Reaches(cfg, s, es, t)
    ensures InIds(t.lost, id) >= InIds(s.lost, id)
    ensures InIds(t.lost, id) > InIds(s.lost, id) <==> FailedLate(cfg, s, es, id)
    decreases es
  {
    if es != [] {
      StepLoses(cfg, s, es[0], id);
      StepKeeps(cfg, s, es[0]);
      LostMeansLate(cfg, Next(cfg, s, es[0]), es[1..], t, id);
    }
  }

  /** The orders are those of the submissions. */
  lemma {:induction false} OrdersAreSubmissions(cfg: Config, s: Sys, es: seq<Event>, t: Sys, id: string)
    requires Reaches(cfg, s, es, t)
    ensures id in s.jobs ==> id in t.jobs && t.jobs[id] == s.jobs[id]
    ensures id in t.jobs && id !in s.jobs ==> Submit(t.jobs[id].job, id, t.jobs[id].at) in es
    ensures forall job, now :: Submit(job, id, now) in es ==> id in t.jobs && t.jobs[id] == Order(job, now)
    decreases es
  {
    if es != [] {
      OrdersAreSubmissions(cfg, Next(cfg, s, es[0]), es[1..], t, id);
      assert es == [es[0]] + es[1..];
      assert forall e :: e in es <==> e == es[0] || e in es[1..];
    }
  }

  /**
   On every run a submitted id is in exactly one place - pending, with one worker, completed or dead -
   if and only if no handler of it failed after its record had expired; else it is nowhere. Its handler
   has run at most max(1, MaxRetries - Retries) times, for the retries it was submitted with or, for
   zero, the default.
   */
  lemma Lifecycle(cfg: Config, workers: nat, es: seq<Event>, t: Sys, id: string)
    requires Reaches(cfg, StartState(workers), es, t)
    ensures
      InJobs(PendingJobs(cfg, t), id) + InHands(t.workers, id) + InIds(t.completed, id) + InJobs(DeadJobs(cfg, t), id)
      == if (exists job, now :: Submit(job, id, now) in es) && !FailedLate(cfg, StartState(workers), es, id) then 1 else 0
    ensures forall job, now | Submit(job, id, now) in es :: id in t.runs && t.runs[id] <= Attempts(cfg, job)
  {
    StartIsSound(cfg, workers);
    RunKeeps(cfg, StartState(workers), es, t);
    LostMeansLate(cfg, StartState(workers), es, t, id);
    OrdersAreSubmissions(cfg, StartState(workers), es, t, id);
    assert Places(cfg, t, id) + InIds(t.lost, id) == if id in t.jobs then 1 else 0;
  }

  /** In every reachable state a late failure leaves the job in no place at all. */
  lemma Vanishes(cfg: Config, s: Sys, w: nat, error: string, now: int)
    requires Inv(cfg, s) && w < |s.workers| && Late(s.workers[w], now)
    ensures
      var t := Next(cfg, s, Break(w, error, now));
      var id := s.workers[w].job.id;
      id in t.jobs && Places(cfg, t, id) == 0 && InIds(t.lost, id) == 1
  {
    var id := s.workers[w].job.id;
    assert OnItsWay(cfg, s, s.workers[w].job, Started(s.workers[w]));
    HandsContain(s.workers, w, id);
    FailingPlaces(cfg, s, w, error, now, id);
    assert Places(cfg, s, id) + InIds(s.lost, id) == 1;
  }

  /** A worker takes up a job. */
  function Pickup(job: Job, id: string, start: int): seq<Event> {
    [Submit(job, id, start), Take(0), Begin(0, start)]
  }

  lemma PickedUp(cfg: Config, workers: nat, job: Job, id: string, start: int) returns (t: Sys)
    requires workers > 0 && ':' !in id && Normalize(cfg, job.queue) == cfg.defaultQueue
    ensures Reaches(cfg, StartState(workers), Pickup(job, id, start), t)
    ensures t.workers != [] && t.workers[0].Handling? && t.workers[0].since == start
    ensures t.workers[0].job.id == id && t.workers[0].job.timeout == Limit(cfg, job)
  {
    var j := Stamped(cfg, job, id, start);
    var s0 := StartState(workers);
    var s1 := Next(cfg, s0, Submit(job, id, start));
    PushedPending(cfg, s0.store, j);
    assert PendingJobs(cfg, s1) == [j];
    Popped(cfg, s1.store);
    var s2 := Next(cfg, s1, Take(0));
    t := Next(cfg, s2, Begin(0, start));
    var es := Pickup(job, id, start);
    assert es[1..] == [Take(0), Begin(0, start)] && es[1..][1..] == [Begin(0, start)] && es[1..][1..][1..] == [];
    assert Reaches(cfg, t, [], t);
    assert Reaches(cfg, s2, es[1..][1..], t);
    assert Reaches(cfg, s1, es[1..], t);
  }

  /** Any job with a timeout can get lost so, on a run of four steps. */
  lemma AnyJobVanishes(cfg: Config, workers: nat, job: Job, id: string, start: int) returns (s: Sys, t: Sys)
    requires workers > 0 && ':' !in id && Normalize(cfg, job.queue) == cfg.defaultQueue
    requires Limit(cfg, job) > 0
    ensures Reaches(cfg, StartState(workers), Pickup(job, id, start), s)
    ensures
      var late := Break(0, "", start + Limit(cfg, job));
      Enabled(cfg, s, late) && t == Next(cfg, s, late) && id in t.jobs && Places(cfg, t, id) == 0
  {
    s := PickedUp(cfg, workers, job, id, start);
    var now := start + Limit(cfg, job);
    StartIsSound(cfg, workers);
    RunKeeps(cfg, StartState(workers), Pickup(job, id, start), s);
    Vanishes(cfg, s, 0, "", now);
    t := Next(cfg, s, Break(0, "", now));
  }

  // ---------------------------------------------------------------- jobs that always fail

  ghost predicate NeverFinishes(cfg: Config, s: Sys, es: seq<Event>, id: string)
    decreases es
  {
    es != [] && Enabled(cfg, s, es[0]) ==>
      && !(es[0].Finish? && s.workers[es[0].w].job.id == id)
      && NeverFinishes(cfg, Next(cfg, s, es[0]), es[1..], id)
  }

  /** Where a run ends, as long as its events are enabled. */
  ghost function After(cfg: Config, s: Sys, es: seq<Event>): Sys
    decreases es
  {
    if es == [] || !Enabled(cfg, s, es[0]) then s else After(cfg, Next(cfg, s, es[0]), es[1..])
  }

  lemma {:induction false} RunsHaveOneEnd(cfg: Config, s: Sys, es: seq<Event>, t: Sys)
    requires Reaches(cfg, s, es, t)
    ensures t == After(cfg, s, es)
    decreases es
  {
    if es != [] {
      RunsHaveOneEnd(cfg, Next(cfg, s, es[0]), es[1..], t);
    }
  }

  lemma {:induction false} NotCompleted(cfg: Config, s: Sys, es: seq<Event>, id: string)
    requires Reaches(cfg, s, es, After(cfg, s, es)) && NeverFinishes(cfg, s, es, id)
    ensures InIds(After(cfg, s, es).completed, id) == InIds(s.completed, id)
    ensures s.jobs.Keys <= After(cfg, s, es).jobs.Keys
    decreases es
  {
    if es != [] {
      if es[0].Finish? {
        IdsPush(s.completed, s.workers[es[0].w].job.id, id);
      }
      NotCompleted(cfg, Next(cfg, s, es[0]), es[1..], id);
    }
  }

  /**
   A job whose handler always fails is dead-lettered exactly once by the time it is neither pending nor
   held, if and only if it never failed late.
   */
  lemma FailingJobDiesOnce(cfg: Config, workers: nat, es: seq<Event>, id: string)
    requires Reaches(cfg, StartState(workers), es, After(cfg, StartState(workers), es))
    requires NeverFinishes(cfg, StartState(workers), es, id)
    ensures
      var t := After(cfg, StartState(workers), es);
      && InJobs(DeadJobs(cfg, t), id) <= 1
      && ((exists job, now :: Submit(job, id, now) in es) ==>
            (InJobs(DeadJobs(cfg, t), id) == 1
             <==> InJobs(PendingJobs(cfg, t), id) == 0 && InHands(t.workers, id) == 0
                  && !FailedLate(cfg, StartState(workers), es, id)))
  {
    Lifecycle(cfg, workers, es, After(cfg, StartState(workers), es), id);
    NotCompleted(cfg, StartState(workers), es, id);
  }

  // ---------------------------------------------------------------- termination

  function PendingWork(jobs: seq<Job>): nat {
    if jobs == [] then 0 else PendingWork(jobs[..|jobs| - 1]) + 3 * Budget(jobs[|jobs| - 1]) + 2
  }

  function WorkOf(w: Worker): nat {
    match w case Polling => 0 case Holding(job) => 3 * Budget(job) + 1 case Handling(job, _) => 3 * Budget(job)
  }

  function HeldWork(ws: seq<Worker>): nat {
    if ws == [] then 0 else HeldWork(ws[..|ws| - 1]) + WorkOf(ws[|ws| - 1])
  }

  function Work(cfg: Config, s: Sys): nat {
    PendingWork(PendingJobs(cfg, s)) + HeldWork(s.workers)
  }

  lemma {:induction false} HeldWorkUpdate(ws: seq<Worker>, i: nat, w: Worker)
    requires i < |ws|
    ensures HeldWork(ws[i := w]) + WorkOf(ws[i]) == HeldWork(ws) + WorkOf(w)
  {
    var n := |ws| - 1;
    if i == n {
      assert ws[i := w][..n] == ws[..n];
    } else {
      assert ws[i := w][..n] == ws[..n][i := w];
      HeldWorkUpdate(ws[..n], i, w);
    }
  }

  lemma PendingWorkPush(jobs: seq<Job>, job: Job)
    ensures PendingWork(jobs + [job]) == PendingWork(jobs) + 3 * Budget(job) + 2
  {
    assert (jobs + [job])[..|jobs|] == jobs;
  }

  lemma FailingWorks(cfg: Config, s: Sys, w: nat, error: string, now: int)
    requires w < |s.workers| && !s.workers[w].Polling? && OnItsWay(cfg, s, s.workers[w].job, Started(s.workers[w]))
    ensures Work(cfg, Failing(cfg, s, w, error, now)) < Work(cfg, s)
  {
    var r := FailedRecord(cfg, s, s.workers[w].job, error, now);
    FailingLists(cfg, s, w, error, now);
    HeldWorkUpdate(s.workers, w, Polling);
    PendingWorkPush(PendingJobs(cfg, s), r.(status := Pending));
  }

  lemma TakeWorks(cfg: Config, s: Sys, e: Event)
    requires e.Take? && Enabled(cfg, s, e)
    ensures Work(cfg, Next(cfg, s, e)) < Work(cfg, s)
  {
    var jobs := PendingJobs(cfg, s);
    Popped(cfg, s.store);
    HeldWorkUpdate(s.workers, e.w, Holding(jobs[|jobs| - 1]));
  }

  /** Every step but a submission uses up work. */
  lemma StepWorks(cfg: Config, s: Sys, e: Event)
    requires Inv(cfg, s) && Enabled(cfg, s, e) && !e.Submit?
    ensures Work(cfg, Next(cfg, s, e)) < Work(cfg, s)
  {
    match e
    case Take(_) => TakeWorks(cfg, s, e);
    case Begin(w, now) => HeldWorkUpdate(s.workers, w, Handling(s.workers[w].job, now));
    case Finish(w) => HeldWorkUpdate(s.workers, w, Polling);
    case Refuse(w, error, now) => FailingWorks(cfg, s, w, error, now);
    case Break(w, error, now) => FailingWorks(cfg, s, w, error, now);
  }

  /** Without new submissions the workers run dry: a run is no longer than the work there is. */
  lemma {:induction false} RunsDry(cfg: Config, s: Sys, es: seq<Event>, t: Sys)
    requires Inv(cfg, s) && Reaches(cfg, s, es, t) && forall e <- es :: !e.Submit?
    ensures |es| + Work(cfg, t) <= Work(cfg, s)
    decreases es
  {
    if es != [] {
      StepWorks(cfg, s, es[0]);
      StepKeeps(cfg, s, es[0]);
      RunsDry(cfg, Next(cfg, s, es[0]), es[1..], t);
    }
  }
}
