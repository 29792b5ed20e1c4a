/** The audit stores: a file writer fed through a channel, and a bounded in-memory log. */
module Audit {

  datatype AuditEvent = AuditEvent(userID: string, action: string)

  // ---------------------------------------------------------------- the file store

  /** How far one attempt to append the buffered events to the file gets. */
  datatype Disk = Works | MarshalFails | OpenFails | WriteFails

  /** Events that left the buffer together; `stored` is false if the write failed and they are gone. */
  datatype Batch = Batch(events: seq<AuditEvent>, stored: bool)

  /** `buffer` is the writer's own, `channel` what senders have queued, `capacity` the channel's. */
  datatype State = State(
    capacity: nat,
    batches: seq<Batch>,
    buffer: seq<AuditEvent>,
    channel: seq<AuditEvent>,
    closing: bool,
    ended: bool)

  function Start(capacity: nat): State {
    State(capacity, [], [], [], false, false)
  }

  /** A turn of a sender, of `Close`, or of the writer's select. `Hand` is a send straight to the waiting writer. */
  datatype Turn =
    | Send(event: AuditEvent)
    | Hand(event: AuditEvent, disk: Disk)
    | Receive(disk: Disk)
    | Tick(disk: Disk)
    | Close
    | Stop(disk: Disk)

  /** A send that finds no room times out; a send or a `Close` that finds its channel closed panics. */
  predicate Enabled(s: State, t: Turn) {
    match t
    case Send(_) => !s.ended && |s.channel| < s.capacity
    case Hand(_, _) => !s.ended && s.channel == []
    case Receive(_) => !s.ended && s.channel != []
    case Tick(_) => !s.ended
    case Close => !s.closing
    case Stop(_) => s.closing && !s.ended
  }

  function Flush(s: State, disk: Disk): State {
    if s.buffer == [] || disk.MarshalFails? || disk.OpenFails? then s
    else s.(batches := s.batches + [Batch(s.buffer, disk.Works?)], buffer := [])
  }

  function Keep(s: State, event: AuditEvent, disk: Disk): State {
    var kept := s.(buffer := s.buffer + [event]);
    if |kept.buffer| >= s.capacity then Flush(kept, disk) else kept
  }

  function Next(s: State, t: Turn): State
    requires Enabled(s, t)
  {
    match t
    case Send(event) => s.(channel := s.channel + [event])
    case Hand(event, disk) => Keep(s, event, disk)
    case Receive(disk) => Keep(s.(channel := s.channel[1..]), s.channel[0], disk)
    case Tick(disk) => Flush(s, disk)
    case Close => s.(closing := true)
    case Stop(disk) => Flush(s, disk).(ended := true)
  }

  predicate Possible(s: State, ts: seq<Turn>)
    decreases ts
  {
    ts == [] || (Enabled(s, ts[0]) && Possible(Next(s, ts[0]), ts[1..]))
  }

  function After(s: State, ts: seq<Turn>): State
    requires Possible(s, ts)
    decreases ts
  {
    if ts == [] then s else After(Next(s, ts[0]), ts[1..])
  }

  function Sent(t: Turn): seq<AuditEvent> {
    if t.Send? || t.Hand? then [t.event] else []
  }

  /** The events whose `Save` returned nil, in order. */
  function Accepted(ts: seq<Turn>): seq<AuditEvent> {
    if ts == [] then [] else Sent(ts[0]) + Accepted(ts[1..])
  }

  function Flat(batches: seq<Batch>): seq<AuditEvent> {
    if batches == [] then [] else Flat(batches[..|batches| - 1]) + batches[|batches| - 1].events
  }

  /** Every event that has not left the store, in order of arrival. */
  function Held(s: State): seq<AuditEvent> {
    Flat(s.batches) + s.buffer + s.channel
  }

  lemma FlushHolds(s: State, disk: Disk)
    ensures Held(Flush(s, disk)) == Held(s)
  {
    var s' := Flush(s, disk);
    if s'.batches != s.batches {
      assert s'.batches[..|s.batches|] == s.batches;
    }
  }

  lemma KeepHolds(s: State, event: AuditEvent, disk: Disk)
    ensures Held(Keep(s, event, disk)) == Flat(s.batches) + s.buffer + [event] + s.channel
  {
    var kept := s.(buffer := s.buffer + [event]);
    FlushHolds(kept, disk);
    assert Flat(s.batches) + (s.buffer + [event]) == Flat(s.batches) + s.buffer + [event];
  }

  lemma NextHolds(s: State, t: Turn)
    requires Enabled(s, t)
    ensures Held(Next(s, t)) == Held(s) + Sent(t)
  {
    match t
    case Send(_) =>
    case Close =>
    case Tick(disk) => FlushHolds(s, disk);
    case Stop(disk) => FlushHolds(s, disk);
    case Hand(event, disk) => KeepHolds(s, event, disk);
    case Receive(disk) =>
      var (first, rest) := (s.channel[0], s.channel[1..]);
      KeepHolds(s.(channel := rest), first, disk);
      assert s.channel == [first] + rest;
  }

  lemma Regroup(xs: seq<AuditEvent>, ys: seq<AuditEvent>, zs: seq<AuditEvent>)
    ensures (xs + ys) + zs == xs + (ys + zs)
  {
  }

  /**
   Accepted events, in order, are those in batches, then the buffer, then the channel: on every run,
   whatever the disk does.
   */
  lemma {:induction false} NothingVanishes(s: State, ts: seq<Turn>)
    requires Possible(s, ts)
    ensures Held(After(s, ts)) == Held(s) + Accepted(ts)
    decreases ts
  {
    if ts != [] {
      NextHolds(s, ts[0]);
      NothingVanishes(Next(s, ts[0]), ts[1..]);
      Regroup(Held(s), Sent(ts[0]), Accepted(ts[1..]));
    }
  }

  predicate Sound(s: State) {
    && |s.channel| <= s.capacity
    && (s.buffer != [] ==> |s.buffer| < s.capacity)
    && (s.ended ==> s.buffer == [])
    && forall b <- s.batches :: b.stored
  }

  predicate Reliable(ts: seq<Turn>) {
    forall t <- ts :: !t.Send? && !t.Close? ==> t.disk.Works?
  }

  lemma {:induction false} ReliableRunsAreSound(s: State, ts: seq<Turn>)
    requires Possible(s, ts) && Reliable(ts) && Sound(s)
    ensures Sound(After(s, ts)) && After(s, ts).capacity == s.capacity
    decreases ts
  {
    if ts != [] {
      assert Sound(Next(s, ts[0]));
      ReliableRunsAreSound(Next(s, ts[0]), ts[1..]);
    }
  }

  function InFile(batches: seq<Batch>): seq<AuditEvent> {
    if batches == [] then []
    else
      var last := batches[|batches| - 1];
      InFile(batches[..|batches| - 1]) + if last.stored then last.events else []
  }

  lemma {:induction false} AllStored(batches: seq<Batch>)
    requires forall b <- batches :: b.stored
    ensures InFile(batches) == Flat(batches)
  {
    if batches != [] {
      AllStored(batches[..|batches| - 1]);
    }
  }

  /**
   On a disk that never fails, the file, the buffer and the channel hold what was accepted; stopping
   loses the channel and nothing else.
   */
  lemma StopLosesTheChannel(capacity: nat, ts: seq<Turn>)
    requires Possible(Start(capacity), ts) && Reliable(ts)
    ensures
      var s := After(Start(capacity), ts);
      && Accepted(ts) == InFile(s.batches) + s.buffer + s.channel
      && |s.channel| <= capacity
      && (s.ended ==> (Accepted(ts) == InFile(s.batches) <==> s.channel == []))
  {
    var s := After(Start(capacity), ts);
    NothingVanishes(Start(capacity), ts);
    ReliableRunsAreSound(Start(capacity), ts);
    AllStored(s.batches);
    assert Held(Start(capacity)) + Accepted(ts) == Accepted(ts);
    if s.ended && s.channel != [] {
      assert |Accepted(ts)| > |InFile(s.batches)|;
    }
  }

  /** What a write, tried on its own, does to file and buffer; only one that breaks off loses events. */
  lemma TickTells(s: State, disk: Disk)
    requires Enabled(s, Tick(disk))
    ensures
      var t := Next(s, Tick(disk));
      && InFile(t.batches) == InFile(s.batches) + (if disk == Works then s.buffer else [])
      && t.buffer == (if disk == Works || disk == WriteFails then [] else s.buffer)
      && t.channel == s.channel
  {
    var t := Next(s, Tick(disk));
    if t.batches != s.batches {
      assert t.batches[..|s.batches|] == s.batches;
    }
  }

  /** No write breaks off; any may fail before it starts. */
  predicate NoneBreaksOff(ts: seq<Turn>) {
    forall t <- ts :: !t.Send? && !t.Close? ==> t.disk != WriteFails
  }

  lemma {:induction false} UnbrokenWritesAreStored(s: State, ts: seq<Turn>)
    requires Possible(s, ts) && NoneBreaksOff(ts) && forall b <- s.batches :: b.stored
    ensures forall b <- After(s, ts).batches :: b.stored
    decreases ts
  {
    if ts != [] {
      UnbrokenWritesAreStored(Next(s, ts[0]), ts[1..]);
    }
  }

  /** Then file, buffer and channel hold everything accepted, and only a stop with some of it unwritten loses. */
  lemma OnlyBrokenWritesLose(capacity: nat, ts: seq<Turn>)
    requires Possible(Start(capacity), ts) && NoneBreaksOff(ts)
    ensures
      var s := After(Start(capacity), ts);
      && Accepted(ts) == InFile(s.batches) + s.buffer + s.channel
      && (Accepted(ts) == InFile(s.batches) <==> s.buffer == [] && s.channel == [])
  {
    var s := After(Start(capacity), ts);
    NothingVanishes(Start(capacity), ts);
    UnbrokenWritesAreStored(Start(capacity), ts);
    AllStored(s.batches);
    assert Held(Start(capacity)) + Accepted(ts) == Accepted(ts);
    assert |Accepted(ts)| == |InFile(s.batches)| + |s.buffer| + |s.channel|;
  }

  /** The events that make a write due; an unbuffered channel still hands over one. */
  function Due(capacity: nat): nat {
    if capacity == 0 then 1 else capacity
  }

  lemma {:induction false} BatchesGrow(s: State, ts: seq<Turn>)
    requires Possible(s, ts) && forall t <- ts :: !t.Tick? && !t.Stop?
    requires Reliable(ts) && |s.buffer| < Due(s.capacity) && forall b <- s.batches :: |b.events| == Due(s.capacity)
    ensures forall b <- After(s, ts).batches :: |b.events| == Due(s.capacity)
    decreases ts
  {
    if ts != [] {
      BatchesGrow(Next(s, ts[0]), ts[1..]);
    }
  }

  /** Between ticks a working disk is written to once for every full buffer. */
  lemma BatchesAreFull(capacity: nat, ts: seq<Turn>)
    requires Possible(Start(capacity), ts) && Reliable(ts) && forall t <- ts :: !t.Tick? && !t.Stop?
    ensures forall b <- After(Start(capacity), ts).batches :: |b.events| == Due(capacity)
  {
    BatchesGrow(Start(capacity), ts);
  }

  function Queued(e: AuditEvent, n: nat): seq<Turn> {
    if n == 0 then [Close, Stop(Works)] else [Send(e)] + Queued(e, n - 1)
  }

  lemma {:induction false} QueuedRun(s: State, e: AuditEvent, n: nat)
    requires !s.closing && !s.ended && s.buffer == [] && |s.channel| + n <= s.capacity
    ensures Possible(s, Queued(e, n)) && Reliable(Queued(e, n))
    ensures
      var s' := After(s, Queued(e, n));
      s'.ended && s'.batches == s.batches && s'.buffer == [] && |s'.channel| == |s.channel| + n
    decreases n
  {
    if n > 0 {
      QueuedRun(Next(s, Send(e)), e, n - 1);
      assert Queued(e, n)[1..] == Queued(e, n - 1);
    } else {
      assert [Close, Stop(Works)][1..] == [Stop(Works)];
    }
  }

  /** Every loss up to a full channel does happen, on a disk that never fails. */
  lemma {:induction false} EveryLossHappens(capacity: nat, n: nat, e: AuditEvent)
    requires n <= capacity
    ensures
      var ts := Queued(e, n);
      && Possible(Start(capacity), ts) && Reliable(ts)
      && var s := After(Start(capacity), ts);
         s.ended && InFile(s.batches) == [] && |Accepted(ts)| == n
  {
    QueuedRun(Start(capacity), e, n);
    StopLosesTheChannel(capacity, Queued(e, n));
  }

  class FileAuditStore {
    const capacity: nat
    var batches: seq<Batch>
    var channel: seq<AuditEvent>
    var closing: bool
    var ended: bool

    constructor (bufferSize: nat)
      ensures View([]) == Start(bufferSize)
    {
      capacity := bufferSize;
      batches, channel, closing, ended := [], [], false, false;
    }

    function View(buffer: seq<AuditEvent>): State
      reads this
    {
      State(capacity, batches, buffer, channel, closing, ended)
    }

    /** The closure `write`: what it leaves in the writer's buffer. */
    method Write(buffer: seq<AuditEvent>, disk: Disk) returns (left: seq<AuditEvent>)
      modifies this`batches
      ensures View(left) == Flush(old(View(buffer)), disk)
    {
      if |buffer| == 0 || disk == MarshalFails || disk == OpenFails {
        return buffer;
      }
      batches := batches + [Batch(buffer, disk == Works)];
      left := [];
    }

    method Append(buffer: seq<AuditEvent>, event: AuditEvent, disk: Disk) returns (left: seq<AuditEvent>)
      modifies this`batches
      ensures View(left) == Keep(old(View(buffer)), event, disk)
    {
      left := buffer + [event];
      if |left| >= capacity {
        left := Write(left, disk);
      }
    }

    /** The writer's loop among its senders, on a given schedule. */
    method WriteLoop(turns: seq<Turn>) returns (buffer: seq<AuditEvent>)
      requires Possible(View([]), turns)
      modifies this
      ensures View(buffer) == After(old(View([])), turns)
    {
      buffer := [];
      ghost var start := View([]);
      for i := 0 to |turns|
        invariant Possible(View(buffer), turns[i..])
        invariant After(View(buffer), turns[i..]) == After(start, turns)
      {
        assert turns[i..][1..] == turns[i + 1..];
        match turns[i]
        case Send(event) => channel := channel + [event];
        case Hand(event, disk) => buffer := Append(buffer, event, disk);
        case Receive(disk) => {
          var event := channel[0];
          channel := channel[1..];
          buffer := Append(buffer, event, disk);
        }
        case Tick(disk) => buffer := Write(buffer, disk);
        case Close => closing := true;
        case Stop(disk) => {
          buffer := Write(buffer, disk);
          ended := true;
        }
      }
    }
  }

  // ---------------------------------------------------------------- the in-memory store

  /** The newest `n` elements. */
  function Newest<T>(xs: seq<T>, n: nat): seq<T> {
    if |xs| > n then xs[|xs| - n..] else xs
  }

  datatype Op = Save(event: AuditEvent) | BatchSave(events: seq<AuditEvent>) | Clear

  /** What a sequence of calls leaves in the store. */
  function Remembered(ops: seq<Op>, maxEvents: nat): seq<AuditEvent> {
    if ops == [] then []
    else
      var before := Remembered(ops[..|ops| - 1], maxEvents);
      match ops[|ops| - 1]
      case Save(event) => Newest(before + [event], maxEvents)
      case BatchSave(events) => Newest(before + events, maxEvents)
      case Clear => []
  }

  /** Everything saved since the last `Clear`. */
  function History(ops: seq<Op>): seq<AuditEvent> {
    if ops == [] then []
    else
      var before := History(ops[..|ops| - 1]);
      match ops[|ops| - 1]
      case Save(event) => before + [event]
      case BatchSave(events) => before + events
      case Clear => []
  }

  lemma DroppedFirst(xs: seq<AuditEvent>, ys: seq<AuditEvent>, k: nat)
    requires k <= |xs|
    ensures (xs + ys)[k..] == xs[k..] + ys
  {
  }

  lemma DroppedTwice(xs: seq<AuditEvent>, j: nat, k: nat)
    requires j + k <= |xs|
    ensures xs[j..][k..] == xs[j + k..]
  {
  }

  lemma NewestAbsorbs(xs: seq<AuditEvent>, ys: seq<AuditEvent>, n: nat)
    ensures Newest(Newest(xs, n) + ys, n) == Newest(xs + ys, n)
  {
    if |xs| > n {
      DroppedFirst(xs, ys, |xs| - n);
      DroppedTwice(xs + ys, |xs| - n, |ys|);
    }
  }

  lemma {:induction false} RememberedIsNewest(ops: seq<Op>, maxEvents: nat)
    ensures Remembered(ops, maxEvents) == Newest(History(ops), maxEvents)
  {
    if ops != [] {
      var before := ops[..|ops| - 1];
      RememberedIsNewest(before, maxEvents);
      match ops[|ops| - 1]
      case Save(event) => NewestAbsorbs(History(before), [event], maxEvents);
      case BatchSave(events) => NewestAbsorbs(History(before), events, maxEvents);
      case Clear =>
    }
  }

  /** The store holds the newest events saved since the last `Clear`, in order, and as many as `maxEvents` allows. */
  lemma RemembersTheNewest(ops: seq<Op>, maxEvents: nat)
    ensures
      var kept, all := Remembered(ops, maxEvents), History(ops);
      && |kept| == (if |all| > maxEvents then maxEvents else |all|)
      && kept == all[|all| - |kept|..]
  {
    RememberedIsNewest(ops, maxEvents);
  }

  function WithAction(events: seq<AuditEvent>, action: string): seq<AuditEvent> {
    if events == [] then []
    else
      var last := events[|events| - 1];
      WithAction(events[..|events| - 1], action) + if last.action == action then [last] else []
  }

  lemma {:induction false} WithActionGrows(events: seq<AuditEvent>, action: string, i: nat)
    requires i <= |events|
    ensures WithAction(events[..i], action) <= WithAction(events, action)
    decreases |events|
  {
    if i < |events| {
      WithActionGrows(events[..|events| - 1], action, i);
      assert events[..|events| - 1][..i] == events[..i];
    } else {
      assert events[..i] == events;
    }
  }

  /** `found` are the events at `places`, which are in order and just those of events with the action. */
  ghost predicate FoundAt(events: seq<AuditEvent>, action: string, found: seq<AuditEvent>, places: seq<nat>) {
    && |places| == |found|
    && (forall k | 0 <= k < |places| :: places[k] < |events| && events[places[k]] == found[k] && found[k].action == action)
    && (forall j, k | 0 <= j < k < |places| :: places[j] < places[k])
    && forall i: nat | i < |events| && events[i].action == action :: i in places
  }

  lemma OneMoreEvent(events: seq<AuditEvent>, e: AuditEvent, action: string, found: seq<AuditEvent>, places: seq<nat>)
    requires FoundAt(events, action, found, places)
    ensures e.action == action ==> FoundAt(events + [e], action, found + [e], places + [|events|])
    ensures e.action != action ==> FoundAt(events + [e], action, found, places)
  {
    var n: nat := |events|;
    if e.action == action {
      forall i: nat | i < n + 1 && (events + [e])[i].action == action
        ensures i in places + [n]
      {
        assert i < n ==> events[i].action == action;
      }
    }
  }

  /** The matches are the events with the action, in order. */
  lemma {:induction false} MatchesInOrder(events: seq<AuditEvent>, action: string) returns (places: seq<nat>)
    ensures FoundAt(events, action, WithAction(events, action), places)
    decreases |events|
  {
    places := [];
    if events != [] {
      var n: nat := |events| - 1;
      places := MatchesInOrder(events[..n], action);
      assert events == events[..n] + [events[n]];
      OneMoreEvent(events[..n], events[n], action, WithAction(events[..n], action), places);
      assert WithAction(events[..n], action) + [] == WithAction(events[..n], action);
      if events[n].action == action {
        places := places + [n];
      }
    }
  }

  class InMemoryAuditStore {
    var events: seq<AuditEvent>
    const maxEvents: nat

    constructor (maxEvents: nat)
      ensures this.maxEvents == maxEvents && events == []
    {
      this.maxEvents := maxEvents;
      events := [];
    }

    method Save(event: AuditEvent)
      modifies this
      ensures events == Newest(old(events) + [event], maxEvents)
    {
      events := events + [event];
      if |events| > maxEvents {
        events := events[|events| - maxEvents..];
      }
    }

    method BatchSave(batch: seq<AuditEvent>)
      requires |events| <= maxEvents
      modifies this
      ensures events == Newest(old(events) + batch, maxEvents)
    {
      ghost var before := events;
      for i := 0 to |batch|
        invariant events == Newest(before + batch[..i], maxEvents)
      {
        assert before + batch[..i + 1] == (before + batch[..i]) + [batch[i]];
        Save(batch[i]);
      }
      assert batch[..|batch|] == batch;
    }

    method Clear()
      modifies this
      ensures events == []
    {
      events := [];
    }

    /** The oldest `limit` matches; a limit of zero or less means all. */
    method GetEventsByAction(action: string, limit: int) returns (results: seq<AuditEvent>)
      ensures results <= WithAction(events, action)
      ensures |results| == if limit > 0 && limit < |WithAction(events, action)| then limit else |WithAction(events, action)|
    {
      results := [];
      for i := 0 to |events|
        invariant results == WithAction(events[..i], action)
        invariant limit > 0 ==> |results| < limit
      {
        assert events[..i + 1][..i] == events[..i];
        if events[i].action == action {
          results := results + [events[i]];
          if limit > 0 && |results| >= limit {
            WithActionGrows(events, action, i + 1);
            return;
          }
        }
      }
      assert events[..|events|] == events;
    }
  }
}
