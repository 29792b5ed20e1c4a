/**
 The Redis-backed job queue, as written and repaired.

 The repair is these four changes: jobs are popped from the key they are pushed to, Enqueue stores the
 job's record, Fail keeps the error it is given, and a failed job with retries left is pushed again. The
 expiry that Start gives the record stays: QueueRuns says what it costs.
 */
module JobQueue {
  import opened Common

  datatype Status = Pending | Running | Failed | Dead

  datatype Times = Times(created: int, started: Option<int>, finished: Option<int>)

  datatype Job = Job(
    id: string, jobType: string, queue: string, status: Status,
    retries: int, maxRetries: int, timeout: int, error: string, times: Times)

  datatype Config = Config(defaultQueue: string, defaultRetries: int, defaultTimeout: int)

  datatype Variant = AsWritten | Repaired

  /** A record and the time its key expires, if ever. */
  datatype Record = Record(job: Job, deadline: Option<int>)

  /** The lists and the job records, by key. */
  datatype Store = Store(lists: map<string, seq<Job>>, records: map<string, Record>)

  const EMPTY_STORE := Store(map[], map[])

  function Normalize(cfg: Config, queue: string): string {
    if queue == "" then cfg.defaultQueue else queue
  }

  function QueueKey(queue: string): string {
    "queue:" + queue
  }

  function DlqKey(queue: string): string {
    "dlq:" + queue
  }

  function JobKey(cfg: Config, id: string, queue: string): string {
    "job:" + id + ":" + Normalize(cfg, queue)
  }

  function ListAt(s: Store, key: string): seq<Job> {
    if key in s.lists then s.lists[key] else []
  }

  /** RPUSH appends at the right end ... */
  function Push(s: Store, key: string, job: Job): Store {
    s.(lists := s.lists[key := ListAt(s, key) + [job]])
  }

  /** GET: a record whose deadline has come is gone. */
  function Get(s: Store, key: string, now: int): Option<Job> {
    if key in s.records && (s.records[key].deadline.None? || now < s.records[key].deadline.value)
    then Some(s.records[key].job) else None
  }

  /** The expiry of a SET; a timeout of zero is none. */
  function Expiry(timeout: int, now: int): Option<int> {
    if timeout > 0 then Some(now + timeout) else None
  }

  function Put(s: Store, key: string, job: Job, deadline: Option<int>): Store {
    s.(records := s.records[key := Record(job, deadline)])
  }

  function Stamped(cfg: Config, job: Job, id: string, now: int): Job {
    job.(id := id,
         status := Pending,
         queue := Normalize(cfg, job.queue),
         maxRetries := if job.maxRetries == 0 then cfg.defaultRetries else job.maxRetries,
         timeout := if job.timeout == 0 then cfg.defaultTimeout else job.timeout,
         times := job.times.(created := now))
  }

  function Enqueue(v: Variant, cfg: Config, s: Store, job: Job, id: string, now: int): Store {
    var j := Stamped(cfg, job, id, now);
    var s1 := Push(s, QueueKey(j.queue), j);
    if v == AsWritten then s1 else Put(s1, JobKey(cfg, id, j.queue), j, None)
  }

  function PopKey(v: Variant, cfg: Config, queue: string): string {
    if v == AsWritten then Normalize(cfg, queue) else QueueKey(Normalize(cfg, queue))
  }

  /** ... and BRPOP takes from the right end too: the newest job comes first. */
  function Dequeue(v: Variant, cfg: Config, s: Store, queue: string): (Store, Option<Job>) {
    var key := PopKey(v, cfg, queue);
    var jobs := ListAt(s, key);
    if jobs == [] then (s, None)
    else (s.(lists := s.lists[key := jobs[..|jobs| - 1]]), Some(jobs[|jobs| - 1]))
  }

  /** The record becomes a running job's, which expires with the job's timeout. */
  function Start(cfg: Config, s: Store, id: string, queue: string, now: int): (Store, bool) {
    var key := JobKey(cfg, id, queue);
    match Get(s, key, now)
    case None => (s, false)
    case Some(job) =>
      (Put(s, key, job.(status := Running, times := job.times.(started := Some(now))), Expiry(job.timeout, now)), true)
  }

  datatype FailResult = Recorded | NotFound | Panic

  /** As written the error argument is overwritten by the nil of a successful Get, and then called. */
  function Fail(v: Variant, cfg: Config, s: Store, id: string, queue: string, error: string, now: int): (Store, FailResult) {
    var key := JobKey(cfg, id, queue);
    match Get(s, key, now)
    case None => (s, NotFound)
    case Some(job) =>
      if v == AsWritten then (s, Panic)
      else
        var j := job.(
          retries := job.retries + 1, error := error, status := Failed, times := job.times.(finished := Some(now)));
        if j.retries >= j.maxRetries then (Push(s, DlqKey(j.queue), j.(status := Dead)), Recorded)
        else
          var again := j.(status := Pending);
          (Push(Put(s, key, again, None), QueueKey(j.queue), again), Recorded)
  }

  function Complete(cfg: Config, s: Store, id: string, queue: string): Store {
    s.(records := s.records - {JobKey(cfg, id, queue)})
  }

  class TaskQueue {
    const variant: Variant
    const config: Config
    var lists: map<string, seq<Job>>
    var records: map<string, Record>

    constructor (variant: Variant, config: Config)
      ensures this.variant == variant && this.config == config && State() == EMPTY_STORE
    {
      this.variant := variant;
      this.config := config;
      lists, records := map[], map[];
    }

    function State(): Store
      reads this
    {
      Store(lists, records)
    }

    method RPush(key: string, job: Job)
      modifies this
      ensures State() == Push(old(State()), key, job)
    {
      lists := lists[key := (if key in lists then lists[key] else []) + [job]];
    }

    method GetJob(id: string, queueName: string, now: int) returns (job: Option<Job>)
      ensures job == Get(State(), JobKey(config, id, queueName), now)
    {
      var key := JobKey(config, id, queueName);
      if key !in records {
        return None;
      }
      var record := records[key];
      job := if record.deadline.Some? && now >= record.deadline.value then None else Some(record.job);
    }

    method EnqueueJob(job: Job, id: string, now: int)
      modifies this
      ensures State() == Enqueue(variant, config, old(State()), job, id, now)
    {
      var j := job.(
        id := id, status := Pending, times := job.times.(created := now), queue := Normalize(config, job.queue));
      if j.maxRetries == 0 {
        j := j.(maxRetries := config.defaultRetries);
      }
      if j.timeout == 0 {
        j := j.(timeout := config.defaultTimeout);
      }
      RPush(QueueKey(j.queue), j);
      if variant == Repaired {
        records := records[JobKey(config, id, j.queue) := Record(j, None)];
      }
    }

    method DequeueJob(queueName: string) returns (job: Option<Job>)
      modifies this
      ensures (State(), job) == Dequeue(variant, config, old(State()), queueName)
    {
      var key := PopKey(variant, config, queueName);
      if key !in lists || lists[key] == [] {
        return None;
      }
      var jobs := lists[key];
      lists := lists[key := jobs[..|jobs| - 1]];
      job := Some(jobs[|jobs| - 1]);
    }

    method StartJob(id: string, queueName: string, now: int) returns (found: bool)
      modifies this
      ensures (State(), found) == Start(config, old(State()), id, queueName, now)
    {
      var got := GetJob(id, queueName, now);
      if got.None? {
        return false;
      }
      var job := got.value.(status := Running, times := got.value.times.(started := Some(now)));
      records := records[JobKey(config, id, queueName) := Record(job, Expiry(job.timeout, now))];
      found := true;
    }

    method FailJob(id: string, queueName: string, error: string, now: int) returns (r: FailResult)
      modifies this
      ensures (State(), r) == Fail(variant, config, old(State()), id, queueName, error, now)
    {
      var got := GetJob(id, queueName, now);
      if got.None? {
        return NotFound;
      }
      if variant == AsWritten {
        return Panic;
      }
      var job := got.value;
      job := job.(
        retries := job.retries + 1, error := error, status := Failed, times := job.times.(finished := Some(now)));
      if job.retries >= job.maxRetries {
        RPush(DlqKey(job.queue), job.(status := Dead));
        return Recorded;
      }
      job := job.(status := Pending);
      records := records[JobKey(config, id, queueName) := Record(job, None)];
      RPush(QueueKey(job.queue), job);
      r := Recorded;
    }

    method CompleteJob(id: string, queueName: string)
      modifies this
      ensures State() == Complete(config, old(State()), id, queueName)
    {
      records := records - {JobKey(config, id, queueName)};
    }
  }

  // ---------------------------------------------------------------- keys

  /** Job keys identify a job because ids contain no colon. */
  lemma JobKeyIsInjective(cfg: Config, id1: string, q1: string, id2: string, q2: string)
    requires ':' !in id1 && ':' !in id2
    ensures JobKey(cfg, id1, q1) == JobKey(cfg, id2, q2) <==> id1 == id2 && Normalize(cfg, q1) == Normalize(cfg, q2)
  {
    var a, b := JobKey(cfg, id1, q1), JobKey(cfg, id2, q2);
    if a == b {
      ColonPosition(id1, Normalize(cfg, q1));
      ColonPosition(id2, Normalize(cfg, q2));
      assert |id1| == |id2|;
      assert id1 == a[4..4 + |id1|] && id2 == b[4..4 + |id2|];
      assert Normalize(cfg, q1) == a[5 + |id1|..] && Normalize(cfg, q2) == b[5 + |id2|..];
    }
  }

  lemma ColonPosition(id: string, q: string)
    ensures var k := "job:" + id + ":" + q;
      k[4 + |id|] == ':' && k[4..4 + |id|] == id && k[5 + |id|..] == q && forall i | 0 <= i < |id| :: k[4 + i] == id[i]
  {
  }

  /** An id with a colon would share its key, in every queue, with another id in another queue. */
  lemma {:induction false} ColonsCollide(cfg: Config, id: string, queue: string, i: nat)
    requires i < |id| && id[i] == ':'
    ensures JobKey(cfg, id, queue) == JobKey(cfg, id[..i], id[i + 1..] + ":" + Normalize(cfg, queue))
  {
    var other := id[i + 1..] + ":" + Normalize(cfg, queue);
    assert id == id[..i] + ":" + id[i + 1..];
    assert "job:" + id + ":" + Normalize(cfg, queue) == "job:" + id[..i] + ":" + other;
  }

  // ---------------------------------------------------------------- the queue as written

  /** A call for a job without a live record changes nothing and says so; as written Fail never changes anything. */
  lemma UnfoundChangesNothing(v: Variant, cfg: Config, s: Store, id: string, queue: string, error: string, now: int)
    ensures
      var key := JobKey(cfg, id, queue);
      var live := key in s.records && forall d :: s.records[key].deadline == Some(d) ==> now < d;
      && (!live ==> Start(cfg, s, id, queue, now) == (s, false) && Fail(v, cfg, s, id, queue, error, now) == (s, NotFound))
      && (live ==> Start(cfg, s, id, queue, now).1 && Fail(v, cfg, s, id, queue, error, now).1 != NotFound)
      && (live && v == AsWritten ==> Fail(v, cfg, s, id, queue, error, now) == (s, Panic))
  {
  }

  datatype Call =
    | CallEnqueue(job: Job, id: string, now: int)
    | CallDequeue(queue: string)
    | CallStart(id: string, queue: string, now: int)
    | CallFail(id: string, queue: string, error: string, now: int)
    | CallComplete(id: string, queue: string)

  function Invoke(v: Variant, cfg: Config, s: Store, c: Call): Store {
    match c
    case CallEnqueue(job, id, now) => Enqueue(v, cfg, s, job, id, now)
    case CallDequeue(queue) => Dequeue(v, cfg, s, queue).0
    case CallStart(id, queue, now) => Start(cfg, s, id, queue, now).0
    case CallFail(id, queue, error, now) => Fail(v, cfg, s, id, queue, error, now).0
    case CallComplete(id, queue) => Complete(cfg, s, id, queue)
  }

  function InvokeAll(v: Variant, cfg: Config, s: Store, cs: seq<Call>): Store
    decreases cs
  {
    if cs == [] then s else InvokeAll(v, cfg, Invoke(v, cfg, s, cs[0]), cs[1..])
  }

  /** A list that some queue name with content is pushed to. */
  predicate IsQueueList(key: string) {
    "queue:" <= key && |key| > |"queue:"|
  }

  /** Only such lists hold jobs, and no job has a record. */
  ghost predicate Unreached(cfg: Config, s: Store) {
    && s.records == map[]
    && forall key | key in s.lists && s.lists[key] != [] :: IsQueueList(key) || (cfg.defaultQueue == "" && key != "")
  }

  lemma {:induction false} StaysUnreached(cfg: Config, s: Store, cs: seq<Call>)
    requires Unreached(cfg, s)
    ensures Unreached(cfg, InvokeAll(AsWritten, cfg, s, cs))
    decreases cs
  {
    if cs != [] {
      StaysUnreached(cfg, Invoke(AsWritten, cfg, s, cs[0]), cs[1..]);
    }
  }

  /**
   As written a worker of the default queue never receives a job, after any calls whatsoever,
   exactly when the queue's name is not itself "queue:" and something; and Start and Fail never find a job.
   */
  lemma AsWrittenNeverDelivers(cfg: Config)
    ensures (forall cs :: Dequeue(AsWritten, cfg, InvokeAll(AsWritten, cfg, EMPTY_STORE, cs), "").1 == None)
       <==> !IsQueueList(cfg.defaultQueue)
    ensures forall cs, id, queue, now :: !Start(cfg, InvokeAll(AsWritten, cfg, EMPTY_STORE, cs), id, queue, now).1
    ensures forall cs, id, queue, error, now ::
      Fail(AsWritten, cfg, InvokeAll(AsWritten, cfg, EMPTY_STORE, cs), id, queue, error, now).1 == NotFound
  {
    forall cs
      ensures Unreached(cfg, InvokeAll(AsWritten, cfg, EMPTY_STORE, cs))
    {
      StaysUnreached(cfg, EMPTY_STORE, cs);
    }
    if IsQueueList(cfg.defaultQueue) {
      var cs := PrefixedDelivers(cfg);
      assert Dequeue(AsWritten, cfg, InvokeAll(AsWritten, cfg, EMPTY_STORE, cs), "").1 != None;
    }
  }

  /** A default queue named "queue:x" receives what is pushed for queue "x". */
  lemma PrefixedDelivers(cfg: Config) returns (cs: seq<Call>)
    requires IsQueueList(cfg.defaultQueue)
    ensures Dequeue(AsWritten, cfg, InvokeAll(AsWritten, cfg, EMPTY_STORE, cs), "").1.Some?
  {
    var job := Job("", "", cfg.defaultQueue[6..], Pending, 0, 1, 0, "", Times(0, None, None));
    var s := Enqueue(AsWritten, cfg, EMPTY_STORE, job, "id", 0);
    cs := [CallEnqueue(job, "id", 0)];
    assert cs[1..] == [];
    assert InvokeAll(AsWritten, cfg, EMPTY_STORE, cs) == InvokeAll(AsWritten, cfg, s, []) == s;
    assert QueueKey(job.queue) == cfg.defaultQueue;
    assert ListAt(s, cfg.defaultQueue) == [Stamped(cfg, job, "id", 0)];
  }
}
