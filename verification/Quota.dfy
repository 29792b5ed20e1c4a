/** The pre-flight quota check on a stale total, and how far a day's usage can overshoot. */
module Quota {
  import opened Common
  import opened UsageLedger
  import opened UsageConservation

  /** A tenant's total tokens of a day, over all models. */
  function DayTotal(rows: seq<Row>, tenant: nat, date: string): int {
    if rows == [] then 0
    else
      (if rows[0].tenant == tenant && rows[0].date == date then rows[0].usage.total else 0)
      + DayTotal(rows[1..], tenant, date)
  }

  /** The total of the first row of the day, which belongs to one model; 0 without a row. */
  function FirstTotal(rows: seq<Row>, tenant: nat, date: string): int {
    if rows == [] then 0
    else if rows[0].tenant == tenant && rows[0].date == date then rows[0].usage.total
    else FirstTotal(rows[1..], tenant, date)
  }

  /** Which total the check reads: the code takes the day's first row, the repair the day's sum. */
  datatype Variant = AsWritten | Repaired

  function Seen(v: Variant, rows: seq<Row>, tenant: nat, date: string): int {
    match v case AsWritten => FirstTotal(rows, tenant, date) case Repaired => DayTotal(rows, tenant, date)
  }

  predicate Passes(v: Variant, rows: seq<Row>, tenant: nat, date: string, quota: int, tokens: int) {
    Seen(v, rows, tenant, date) + tokens <= quota
  }

  /** The first row of the day is the one at `i`. */
  ghost predicate FirstOfDay(rows: seq<Row>, tenant: nat, date: string, i: int) {
    && 0 <= i < |rows| && rows[i].tenant == tenant && rows[i].date == date
    && forall j | 0 <= j < i :: !(rows[j].tenant == tenant && rows[j].date == date)
  }

  /** What the check as written leaves room for: the first row of the day, whatever other rows there are. */
  ghost predicate RoomByFirstRow(rows: seq<Row>, tenant: nat, date: string, quota: int, tokens: int) {
    && (forall i | FirstOfDay(rows, tenant, date, i) :: rows[i].usage.total + tokens <= quota)
    && ((forall r <- rows :: !(r.tenant == tenant && r.date == date)) ==> tokens <= quota)
  }

  lemma {:induction false} FirstTotalMeans(rows: seq<Row>, tenant: nat, date: string)
    ensures forall i | FirstOfDay(rows, tenant, date, i) :: FirstTotal(rows, tenant, date) == rows[i].usage.total
    ensures (forall r <- rows :: !(r.tenant == tenant && r.date == date)) ==> FirstTotal(rows, tenant, date) == 0
    ensures (exists r <- rows :: r.tenant == tenant && r.date == date) ==> exists i :: FirstOfDay(rows, tenant, date, i)
  {
    if rows != [] {
      assert rows == [rows[0]] + rows[1..];
      if rows[0].tenant == tenant && rows[0].date == date {
        assert FirstOfDay(rows, tenant, date, 0);
      } else {
        FirstTotalMeans(rows[1..], tenant, date);
        assert forall i | FirstOfDay(rows, tenant, date, i) :: FirstOfDay(rows[1..], tenant, date, i - 1);
        if i :| FirstOfDay(rows[1..], tenant, date, i) {
          assert FirstOfDay(rows, tenant, date, i + 1);
        }
      }
    }
  }

  lemma PassesMeans(rows: seq<Row>, tenant: nat, date: string, quota: int, tokens: int)
    ensures Passes(AsWritten, rows, tenant, date, quota, tokens) <==> RoomByFirstRow(rows, tenant, date, quota, tokens)
  {
    FirstTotalMeans(rows, tenant, date);
  }

  /** The check as written: any read error refuses, and only the day's first row is consulted. */
  method CheckQuota(store: UsageStore, tenant: nat, date: string, tokens: int, quotaDaily: int, readFails: bool)
    returns (r: Result<(), ()>)
    ensures r.Ok? <==> !readFails && Passes(AsWritten, store.rows, tenant, date, quotaDaily, tokens)
  {
    if readFails {
      return Err(());
    }
    var currentTotal := 0;
    var i := 0;
    while i < |store.rows|
      invariant i <= |store.rows| && currentTotal == 0
      invariant FirstTotal(store.rows, tenant, date) == FirstTotal(store.rows[i..], tenant, date)
    {
      if store.rows[i].tenant == tenant && store.rows[i].date == date {
        currentTotal := store.rows[i].usage.total;
        break;
      }
      i := i + 1;
    }
    r := if currentTotal + tokens > quotaDaily then Err(()) else Ok(());
  }

  // ---------------------------------------------------------------- a day of one tenant

  /** A request admitted but not yet recorded, with the usage it will turn out to have. */
  datatype Pending = Pending(model: string, actual: nat)

  /** `dead` is usage that ended in the dead-letter file. */
  datatype Day = Day(rows: seq<Row>, inflight: seq<Pending>, dead: nat)

  datatype Event =
    | Admit(estimate: int, request: Pending)
    | Record(i: nat)                      // the usage reaches the table
    | DeadLetter(i: nat)                  // every attempt failed
    | Abandon(i: nat)                     // the upstream call failed, nothing is recorded
    | Recover(model: string, amount: nat) // the recovery job applies a dead letter

  /**
   The check, tenant and day at hand; at most `limit` concurrent requests, each estimated at `least`
   or more and using `most` or less.
   */
  datatype Setting = Setting(variant: Variant, tenant: nat, date: string, quota: int, limit: nat, least: int, most: nat)

  ghost predicate Enabled(z: Setting, s: Day, e: Event) {
    match e
    case Admit(estimate, p) =>
      && Passes(z.variant, s.rows, z.tenant, z.date, z.quota, estimate)
      && |s.inflight| < z.limit && estimate >= z.least && p.actual <= z.most
    case Record(i) => i < |s.inflight|
    case DeadLetter(i) => i < |s.inflight|
    case Abandon(i) => i < |s.inflight|
    case Recover(model, amount) => amount <= s.dead && Affected(s.rows, z.tenant, z.date, model) > 0
  }

  function Spent(total: int): Usage {
    Usage(0, total, total)
  }

  /** `recordUsage` drops a usage without tokens. */
  function Recorded(rows: seq<Row>, z: Setting, p: Pending): seq<Row> {
    if p.actual == 0 then rows
    else Credit(rows, UsageLedger.Record(z.tenant, p.model, Spent(p.actual)), z.date)
  }

  function Next(z: Setting, s: Day, e: Event): Day {
    match e
    case Admit(_, p) => s.(inflight := s.inflight + [p])
    case Record(i) =>
      if i < |s.inflight| then
        var p := s.inflight[i];
        s.(rows := Recorded(s.rows, z, p), inflight := Without(s.inflight, i))
      else s
    case DeadLetter(i) =>
      if i < |s.inflight| then s.(inflight := Without(s.inflight, i), dead := s.dead + s.inflight[i].actual) else s
    case Abandon(i) =>
      if i < |s.inflight| then s.(inflight := Without(s.inflight, i)) else s
    case Recover(model, amount) =>
      s.(rows := Update(s.rows, z.tenant, z.date, model, Spent(amount)),
         dead := if amount <= s.dead then s.dead - amount else 0)
  }

  function Without(ps: seq<Pending>, i: nat): seq<Pending>
    requires i < |ps|
  {
    ps[..i] + ps[i + 1..]
  }

  function InFlight(ps: seq<Pending>): nat {
    if ps == [] then 0 else ps[0].actual + InFlight(ps[1..])
  }

  /** Everything the tenant has used or is about to. */
  function Exposure(z: Setting, s: Day): int {
    DayTotal(s.rows, z.tenant, z.date) + InFlight(s.inflight) + s.dead
  }

  ghost predicate Run(z: Setting, s: Day, es: seq<Event>, deadLimit: nat)
    decreases es
  {
    && s.dead <= deadLimit
    && (es != [] ==> Enabled(z, s, es[0]) && Run(z, Next(z, s, es[0]), es[1..], deadLimit))
  }

  function After(z: Setting, s: Day, es: seq<Event>): Day
    decreases es
  {
    if es == [] then s else After(z, Next(z, s, es[0]), es[1..])
  }

  // ---------------------------------------------------------------- sums

  lemma {:induction false} DayAppend(a: seq<Row>, b: seq<Row>, tenant: nat, date: string)
    ensures DayTotal(a + b, tenant, date) == DayTotal(a, tenant, date) + DayTotal(b, tenant, date)
  {
    if a == [] {
      assert a + b == b;
    } else {
      assert (a + b)[1..] == a[1..] + b;
      DayAppend(a[1..], b, tenant, date);
    }
  }

  lemma {:induction false} DayUpdate(rows: seq<Row>, tenant: nat, date: string, model: string, u: Usage)
    ensures DayTotal(Update(rows, tenant, date, model, u), tenant, date)
         == DayTotal(rows, tenant, date) + Affected(rows, tenant, date, model) * u.total
  {
    if rows != [] {
      DayUpdate(rows[1..], tenant, date, model, u);
      var n := Affected(rows[1..], tenant, date, model);
      assert (1 + n) * u.total == u.total + n * u.total;
      assert Update(rows, tenant, date, model, u)[1..] == Update(rows[1..], tenant, date, model, u);
    }
  }

  lemma DayCredit(rows: seq<Row>, r: UsageLedger.Record, date: string)
    requires UniqueRows(rows)
    ensures UniqueRows(Credit(rows, r, date))
    ensures DayTotal(Credit(rows, r, date), r.tenant, date) == DayTotal(rows, r.tenant, date) + r.usage.total
  {
    CreditCountsOnce(rows, r, date, r.tenant, r.model, All);
    DayUpdate(rows, r.tenant, date, r.model, r.usage);
    DayAppend(rows, [Row(r.tenant, date, r.model, r.usage)], r.tenant, date);
    assert Affected(rows, r.tenant, date, r.model) <= 1;
  }

  lemma {:induction false} InFlightAppend(a: seq<Pending>, b: seq<Pending>)
    ensures InFlight(a + b) == InFlight(a) + InFlight(b)
  {
    if a == [] {
      assert a + b == b;
    } else {
      assert (a + b)[1..] == a[1..] + b;
      InFlightAppend(a[1..], b);
    }
  }

  lemma InFlightWithout(ps: seq<Pending>, i: nat)
    requires i < |ps|
    ensures InFlight(Without(ps, i)) == InFlight(ps) - ps[i].actual
  {
    assert ps == ps[..i] + ps[i..] && ps[i..][1..] == ps[i + 1..];
    InFlightAppend(ps[..i], ps[i..]);
    InFlightAppend(ps[..i], ps[i + 1..]);
  }

  lemma {:induction false} InFlightBound(ps: seq<Pending>, most: nat)
    requires forall p <- ps :: p.actual <= most
    ensures InFlight(ps) <= |ps| * most
  {
    if ps != [] {
      InFlightBound(ps[1..], most);
      assert |ps| * most == most + |ps[1..]| * most;
    }
  }

  lemma InFlightWithin(ps: seq<Pending>, limit: nat, most: nat)
    requires |ps| <= limit && forall p <- ps :: p.actual <= most
    ensures InFlight(ps) <= limit * most
  {
    InFlightBound(ps, most);
    ProductGrows(|ps|, limit, most);
  }

  // ---------------------------------------------------------------- the bound

  ghost predicate Good(z: Setting, s: Day) {
    UniqueRows(s.rows) && |s.inflight| <= z.limit && forall p <- s.inflight :: p.actual <= z.most
  }

  lemma AdmitBound(z: Setting, s: Day, e: Event, deadLimit: nat)
    requires z.variant == Repaired && Good(z, s) && e.Admit? && Enabled(z, s, e) && s.dead <= deadLimit
    ensures Good(z, Next(z, s, e))
    ensures Exposure(z, Next(z, s, e)) == Exposure(z, s) + e.request.actual
    ensures Exposure(z, Next(z, s, e)) <= z.quota - z.least + z.limit * z.most + deadLimit
  {
    var after := s.inflight + [e.request];
    InFlightAppend(s.inflight, [e.request]);
    assert forall p <- after :: p.actual <= z.most;
    InFlightWithin(after, z.limit, z.most);
  }

  lemma RecoverBound(z: Setting, s: Day, e: Event)
    requires Good(z, s) && e.Recover? && Enabled(z, s, e)
    ensures Good(z, Next(z, s, e)) && Exposure(z, Next(z, s, e)) == Exposure(z, s)
  {
    var u := Spent(e.amount);
    DayUpdate(s.rows, z.tenant, z.date, e.model, u);
    assert Affected(s.rows, z.tenant, z.date, e.model) == 1;
    forall t, d, m
      ensures Affected(Update(s.rows, z.tenant, z.date, e.model, u), t, d, m) <= 1
    {
      UpdateKeepsRows(s.rows, z.tenant, z.date, e.model, u, t, d, m);
    }
  }

  lemma LeaveBound(z: Setting, s: Day, e: Event)
    requires Good(z, s) && (e.Record? || e.DeadLetter? || e.Abandon?) && Enabled(z, s, e)
    ensures Good(z, Next(z, s, e))
    ensures Exposure(z, Next(z, s, e)) == Exposure(z, s) - (if e.Abandon? then s.inflight[e.i].actual else 0)
  {
    var p := s.inflight[e.i];
    InFlightWithout(s.inflight, e.i);
    if e.Record? && p.actual > 0 {
      DayCredit(s.rows, UsageLedger.Record(z.tenant, p.model, Spent(p.actual)), z.date);
    }
  }

  /**
   An admission raises the exposure by its request, to at most `limit` requests above the quota; a failed
   call lowers it by its own; recording, dead letters and recovery leave it.
   */
  lemma StepBound(z: Setting, s: Day, e: Event, deadLimit: nat)
    requires z.variant == Repaired && Good(z, s) && Enabled(z, s, e) && s.dead <= deadLimit
    ensures Good(z, Next(z, s, e))
    ensures Exposure(z, Next(z, s, e)) == Exposure(z, s)
      + (if e.Admit? then e.request.actual else if e.Abandon? then 0 - s.inflight[e.i].actual else 0)
    ensures e.Admit? ==> Exposure(z, Next(z, s, e)) <= z.quota - z.least + z.limit * z.most + deadLimit
  {
    if e.Admit? {
      AdmitBound(z, s, e, deadLimit);
    } else if e.Recover? {
      RecoverBound(z, s, e);
    } else {
      LeaveBound(z, s, e);
    }
  }

  /** The most a day may come to: at the quota with one estimate to spare, plus what is under way or dead. */
  function Bound(z: Setting, deadLimit: nat): int {
    z.quota - z.least + z.limit * z.most + deadLimit
  }

  /**
   Overshoot of the repaired check over every interleaving of admissions, recordings, failures and
   recoveries: used, pending and dead-lettered tokens together stay within the bound, or where they
   started.
   */
  lemma {:induction false} OvershootBound(z: Setting, s: Day, es: seq<Event>, deadLimit: nat)
    requires z.variant == Repaired && Good(z, s) && Run(z, s, es, deadLimit)
    ensures Exposure(z, After(z, s, es)) <= Exposure(z, s) || Exposure(z, After(z, s, es)) <= Bound(z, deadLimit)
    decreases es
  {
    if es != [] {
      StepBound(z, s, es[0], deadLimit);
      OvershootBound(z, Next(z, s, es[0]), es[1..], deadLimit);
    }
  }

  /** With estimates that cover the use, a fresh day exceeds the quota by less than the other requests' use. */
  lemma OvershootWithinQuota(z: Setting, es: seq<Event>, deadLimit: nat)
    requires z.variant == Repaired && z.most <= z.least && z.limit >= 1 && z.quota >= 0
    requires Run(z, Day([], [], 0), es, deadLimit)
    ensures Exposure(z, After(z, Day([], [], 0), es)) <= z.quota + (z.limit - 1) * z.most + deadLimit
  {
    OvershootBound(z, Day([], [], 0), es, deadLimit);
    assert z.limit * z.most == (z.limit - 1) * z.most + z.most;
    assert (z.limit - 1) * z.most >= 0;
  }

  /** Either check lets `n` simultaneous admissions through, which reaches the bound. */
  lemma {:induction false} OvershootIsReached(z: Setting, s: Day, model: string, n: nat)
    requires Seen(z.variant, s.rows, z.tenant, z.date) == z.quota - z.least
    requires |s.inflight| + n <= z.limit && s.dead == 0
    ensures
      var es := seq(n, _ => Admit(z.least, Pending(model, z.most)));
      && Run(z, s, es, 0)
      && Exposure(z, After(z, s, es)) == Exposure(z, s) + n * z.most
    decreases n
  {
    if n > 0 {
      var p := Pending(model, z.most);
      var e := Admit(z.least, p);
      var es := seq(n, _ => e);
      assert es[0] == e && es[1..] == seq(n - 1, _ => e);
      InFlightAppend(s.inflight, [p]);
      assert n * z.most == (n - 1) * z.most + z.most;
      OvershootIsReached(z, Next(z, s, e), model, n - 1);
    }
  }

  // ---------------------------------------------------------------- the check as written

  /** The day's rows, one for each model used. */
  function DayRows(rows: seq<Row>, tenant: nat, date: string): nat {
    if rows == [] then 0
    else (if rows[0].tenant == tenant && rows[0].date == date then 1 else 0) + DayRows(rows[1..], tenant, date)
  }

  lemma {:induction false} PositiveRowsAddUp(rows: seq<Row>, tenant: nat, date: string)
    requires forall r <- rows :: r.tenant == tenant && r.date == date ==> r.usage.total > 0
    ensures DayTotal(rows, tenant, date) >= DayRows(rows, tenant, date)
    ensures DayRows(rows, tenant, date) == 0 ==> DayTotal(rows, tenant, date) == 0
    ensures FirstTotal(rows, tenant, date) == DayTotal(rows, tenant, date) <==> DayRows(rows, tenant, date) <= 1
  {
    if rows != [] {
      assert rows[0] in rows;
      PositiveRowsAddUp(rows[1..], tenant, date);
    }
  }

  /** It decides like the sum for every quota and estimate exactly when the day has at most one row. */
  lemma FirstRowCheckIsTheSum(rows: seq<Row>, tenant: nat, date: string)
    requires forall r <- rows :: r.tenant == tenant && r.date == date ==> r.usage.total > 0
    ensures
      (forall quota, tokens ::
         Passes(AsWritten, rows, tenant, date, quota, tokens) <==> Passes(Repaired, rows, tenant, date, quota, tokens))
      <==> DayRows(rows, tenant, date) <= 1
  {
    PositiveRowsAddUp(rows, tenant, date);
    var first, all := FirstTotal(rows, tenant, date), DayTotal(rows, tenant, date);
    if first != all {
      var lower := if first < all then first else all;
      assert Passes(AsWritten, rows, tenant, date, lower, 0) != Passes(Repaired, rows, tenant, date, lower, 0);
    }
  }

  ghost predicate OneModel(rows: seq<Row>, tenant: nat, date: string, model: string) {
    UniqueRows(rows) && forall r <- rows :: r.tenant == tenant && r.date == date ==> r.model == model
  }

  /** A tenant that keeps to one model a day is checked against its whole day. */
  lemma {:induction false} OneModelIsChecked(rows: seq<Row>, tenant: nat, date: string, model: string)
    requires OneModel(rows, tenant, date, model)
    ensures FirstTotal(rows, tenant, date) == DayTotal(rows, tenant, date)
  {
    if rows != [] {
      assert forall t, d, m :: Affected(rows[1..], t, d, m) <= Affected(rows, t, d, m);
      if rows[0].tenant == tenant && rows[0].date == date {
        assert rows[0].model == model && Affected(rows[1..], tenant, date, model) == 0;
        NoRowsNoTotal(rows[1..], tenant, date, model);
      } else {
        OneModelIsChecked(rows[1..], tenant, date, model);
      }
    }
  }

  lemma {:induction false} NoRowsNoTotal(rows: seq<Row>, tenant: nat, date: string, model: string)
    requires Affected(rows, tenant, date, model) == 0
    requires forall r <- rows :: r.tenant == tenant && r.date == date ==> r.model == model
    ensures DayTotal(rows, tenant, date) == 0
  {
    if rows != [] {
      assert rows[0] in rows;
      NoRowsNoTotal(rows[1..], tenant, date, model);
    }
  }

  /** `n` requests for `model`, each recorded before the next is checked. */
  function Spend(rows: seq<Row>, tenant: nat, date: string, model: string, each: nat, n: nat): seq<Row> {
    if n == 0 then rows
    else Credit(Spend(rows, tenant, date, model, each, n - 1), UsageLedger.Record(tenant, model, Spent(each)), date)
  }

  /**
   With two models in a day the check as written has no bound: while the first model's row leaves
   room for the estimate, any number of requests for the second pass it, whatever they use.
   */
  lemma {:induction false} SecondModelIsUnchecked(tenant: nat, date: string, first: string, second: string,
      used: nat, each: nat, n: nat)
    requires first != second
    ensures
      var start := [Row(tenant, date, first, Spent(used))];
      var rows := Spend(start, tenant, date, second, each, n);
      && UniqueRows(rows) && |rows| >= 1 && rows[0] == start[0]
      && FirstTotal(rows, tenant, date) == used
      && DayTotal(rows, tenant, date) == used + n * each
  {
    var start := [Row(tenant, date, first, Spent(used))];
    if n == 0 {
      assert forall t, d, m :: Affected(start, t, d, m) <= 1;
      assert DayTotal(start[1..], tenant, date) == 0;
    } else {
      SecondModelIsUnchecked(tenant, date, first, second, used, each, n - 1);
      var before := Spend(start, tenant, date, second, each, n - 1);
      DayCredit(before, UsageLedger.Record(tenant, second, Spent(each)), date);
      assert n * each == (n - 1) * each + each;
    }
  }

  // ---------------------------------------------------------------- runs of the check as written

  /** Requests of the run are for these models. */
  ghost predicate Uses(es: seq<Event>, models: set<string>) {
    forall e <- es :: e.Admit? ==> e.request.model in models
  }

  ghost predicate OneModelDay(z: Setting, s: Day, model: string) {
    OneModel(s.rows, z.tenant, z.date, model) && forall p <- s.inflight :: p.model == model
  }

  lemma {:induction false} UpdateKeepsModels(rows: seq<Row>, t: nat, d: string, m: string, u: Usage,
      tenant: nat, date: string, model: string)
    requires forall r <- rows :: r.tenant == tenant && r.date == date ==> r.model == model
    ensures forall r <- Update(rows, t, d, m, u) :: r.tenant == tenant && r.date == date ==> r.model == model
  {
    if rows != [] {
      assert rows[0] in rows;
      UpdateKeepsModels(rows[1..], t, d, m, u, tenant, date, model);
    }
  }

  lemma CreditKeepsModel(rows: seq<Row>, z: Setting, model: string, amount: nat)
    requires OneModel(rows, z.tenant, z.date, model)
    ensures OneModel(Credit(rows, UsageLedger.Record(z.tenant, model, Spent(amount)), z.date), z.tenant, z.date, model)
  {
    DayCredit(rows, UsageLedger.Record(z.tenant, model, Spent(amount)), z.date);
    UpdateKeepsModels(rows, z.tenant, z.date, model, Spent(amount), z.tenant, z.date, model);
  }

  lemma {:induction false} AffectedModel(rows: seq<Row>, tenant: nat, date: string, model: string, other: string)
    requires forall r <- rows :: r.tenant == tenant && r.date == date ==> r.model == model
    requires Affected(rows, tenant, date, other) > 0
    ensures other == model
  {
    if !Matches(rows[0], tenant, date, other) {
      AffectedModel(rows[1..], tenant, date, model, other);
    } else {
      assert rows[0] in rows;
    }
  }

  lemma StepKeepsModel(z: Setting, s: Day, e: Event, model: string)
    requires Good(z, s) && Enabled(z, s, e) && OneModelDay(z, s, model) && (e.Admit? ==> e.request.model == model)
    ensures OneModelDay(z, Next(z, s, e), model)
  {
    match e
    case Admit(_, _) =>
    case Record(i) => CreditKeepsModel(s.rows, z, model, s.inflight[i].actual);
    case DeadLetter(_) =>
    case Abandon(_) =>
    case Recover(m, amount) =>
      AffectedModel(s.rows, z.tenant, z.date, model, m);
      RecoverBound(z, s, e);
      UpdateKeepsModels(s.rows, z.tenant, z.date, m, Spent(amount), z.tenant, z.date, model);
  }

  lemma AdmitKeepsGood(z: Setting, s: Day, e: Event)
    requires Good(z, s) && e.Admit? && Enabled(z, s, e)
    ensures Good(z, Next(z, s, e))
  {
  }

  lemma StepKeepsGood(z: Setting, s: Day, e: Event)
    requires Good(z, s) && Enabled(z, s, e)
    ensures Good(z, Next(z, s, e))
  {
    if e.Admit? {
      AdmitKeepsGood(z, s, e);
    } else if e.Recover? {
      RecoverBound(z, s, e);
    } else {
      LeaveBound(z, s, e);
    }
  }

  /** On runs that keep to one model the two checks decide alike, step by step. */
  lemma {:induction false} OneModelRun(z: Setting, s: Day, es: seq<Event>, model: string, deadLimit: nat)
    requires z.variant == AsWritten && Good(z, s) && OneModelDay(z, s, model)
    requires Uses(es, {model}) && Run(z, s, es, deadLimit)
    ensures Run(z.(variant := Repaired), s, es, deadLimit)
    ensures After(z.(variant := Repaired), s, es) == After(z, s, es)
    decreases es
  {
    OneModelIsChecked(s.rows, z.tenant, z.date, model);
    if es != [] {
      StepKeepsGood(z, s, es[0]);
      StepKeepsModel(z, s, es[0], model);
      OneModelRun(z, Next(z, s, es[0]), es[1..], model, deadLimit);
    }
  }

  /** The bound for the check as written, on runs that keep to one model a day. */
  lemma OneModelBound(z: Setting, s: Day, es: seq<Event>, model: string, deadLimit: nat)
    requires z.variant == AsWritten && Good(z, s) && OneModelDay(z, s, model)
    requires Uses(es, {model}) && Run(z, s, es, deadLimit)
    ensures Exposure(z, After(z, s, es)) <= Exposure(z, s) || Exposure(z, After(z, s, es)) <= Bound(z, deadLimit)
  {
    OneModelRun(z, s, es, model, deadLimit);
    OvershootBound(z.(variant := Repaired), s, es, deadLimit);
  }

  /** `n` requests for a model, each recorded before the next is checked. */
  function Cycles(z: Setting, model: string, n: nat): seq<Event> {
    if n == 0 then [] else [Admit(z.least, Pending(model, z.most)), Event.Record(0)] + Cycles(z, model, n - 1)
  }

  /** Nothing under way, and the day's first row is another model's, with room for the estimate. */
  ghost predicate Blinded(z: Setting, s: Day, model: string) {
    && UniqueRows(s.rows) && s.inflight == [] && s.dead == 0
    && s.rows != [] && s.rows[0].tenant == z.tenant && s.rows[0].date == z.date && s.rows[0].model != model
    && s.rows[0].usage.total + z.least <= z.quota
  }

  lemma CycleStep(z: Setting, s: Day, model: string)
    requires z.variant == AsWritten && z.limit >= 1 && z.most >= 1 && Blinded(z, s, model)
    ensures
      var s1 := Next(z, s, Admit(z.least, Pending(model, z.most)));
      var s2 := Next(z, s1, Event.Record(0));
      && Enabled(z, s, Admit(z.least, Pending(model, z.most))) && Enabled(z, s1, Event.Record(0)) && s1.dead == 0
      && Blinded(z, s2, model) && Exposure(z, s2) == Exposure(z, s) + z.most
  {
    var p := Pending(model, z.most);
    var s1 := Next(z, s, Admit(z.least, p));
    assert s1.inflight == [p];
    DayCredit(s.rows, UsageLedger.Record(z.tenant, model, Spent(z.most)), z.date);
    assert Without([p], 0) == [];
  }

  lemma {:induction false} CyclesRun(z: Setting, s: Day, model: string, n: nat, deadLimit: nat)
    requires z.variant == AsWritten && z.limit >= 1 && z.most >= 1 && Blinded(z, s, model)
    ensures Run(z, s, Cycles(z, model, n), deadLimit)
    ensures Exposure(z, After(z, s, Cycles(z, model, n))) == Exposure(z, s) + n * z.most
    decreases n
  {
    if n > 0 {
      var e1, e2 := Admit(z.least, Pending(model, z.most)), Event.Record(0);
      var s1 := Next(z, s, e1);
      var s2 := Next(z, s1, e2);
      var es := Cycles(z, model, n);
      CycleStep(z, s, model);
      CyclesRun(z, s2, model, n - 1, deadLimit);
      assert es[0] == e1 && es[1..][0] == e2 && es[1..][1..] == Cycles(z, model, n - 1);
      assert Run(z, s1, es[1..], deadLimit) && After(z, s1, es[1..]) == After(z, s2, Cycles(z, model, n - 1));
      assert n * z.most == (n - 1) * z.most + z.most;
    }
  }

  /** One token for the first model, then cycles for the second. */
  lemma SecondModelRun(z: Setting, first: string, second: string, n: nat, deadLimit: nat) returns (es: seq<Event>)
    requires z.variant == AsWritten && z.limit >= 1 && z.most >= 1 && z.least < z.quota && first != second
    ensures Uses(es, {first, second}) && Run(z, Day([], [], 0), es, deadLimit)
    ensures Exposure(z, After(z, Day([], [], 0), es)) == 1 + n * z.most
  {
    var p := Pending(first, 1);
    var e1, e2 := Admit(z.least, p), Event.Record(0);
    var s := Day([], [], 0);
    var s1 := Next(z, s, e1);
    var s2 := Next(z, s1, e2);
    assert s1.inflight == [p] && Without([p], 0) == [];
    assert s2 == Day([Row(z.tenant, z.date, first, Spent(1))], [], 0);
    DayCredit([], UsageLedger.Record(z.tenant, first, Spent(1)), z.date);
    CyclesRun(z, s2, second, n, deadLimit);
    CyclesUse(z, second, n);
    var rest := Cycles(z, second, n);
    es := [e1, e2] + rest;
    assert es[0] == e1 && es[1..][0] == e2 && es[1..][1..] == rest;
    assert Run(z, s1, es[1..], deadLimit) && After(z, s1, es[1..]) == After(z, s2, rest);
    assert s2.rows[1..] == [];
  }

  lemma {:induction false} CyclesUse(z: Setting, model: string, n: nat)
    ensures Uses(Cycles(z, model, n), {model})
  {
    if n > 0 {
      CyclesUse(z, model, n - 1);
    }
  }

  /** No run of a fresh day with requests for these models exceeds the bound. */
  ghost predicate NeverExceeds(z: Setting, models: set<string>, deadLimit: nat) {
    forall es :: Uses(es, models) && Run(z, Day([], [], 0), es, deadLimit) ==>
      Exposure(z, After(z, Day([], [], 0), es)) <= Bound(z, deadLimit)
  }

  lemma UsesFewer(es: seq<Event>, models: set<string>, model: string)
    requires Uses(es, models) && forall m <- models :: m == model
    ensures Uses(es, {model})
  {
  }

  lemma RoomLeft(z: Setting, deadLimit: nat)
    requires z.least < z.quota
    ensures Bound(z, deadLimit) >= 0
  {
    assert z.limit * z.most >= 0;
  }

  lemma OneModelRunWithin(z: Setting, es: seq<Event>, model: string, deadLimit: nat)
    requires z.variant == AsWritten && z.least < z.quota
    requires Uses(es, {model}) && Run(z, Day([], [], 0), es, deadLimit)
    ensures Exposure(z, After(z, Day([], [], 0), es)) <= Bound(z, deadLimit)
  {
    OneModelBound(z, Day([], [], 0), es, model, deadLimit);
    RoomLeft(z, deadLimit);
  }

  lemma OneModelNeverExceeds(z: Setting, models: set<string>, model: string, deadLimit: nat)
    requires z.variant == AsWritten && z.least < z.quota && forall m <- models :: m == model
    ensures NeverExceeds(z, models, deadLimit)
  {
    forall es | Uses(es, models) && Run(z, Day([], [], 0), es, deadLimit)
      ensures Exposure(z, After(z, Day([], [], 0), es)) <= Bound(z, deadLimit)
    {
      UsesFewer(es, models, model);
      OneModelRunWithin(z, es, model, deadLimit);
    }
  }

  lemma TwoModelsExceed(z: Setting, models: set<string>, a: string, b: string, deadLimit: nat)
    requires z.variant == AsWritten && z.limit >= 1 && z.most >= 1 && z.least < z.quota
    requires a in models && b in models && a != b
    ensures !NeverExceeds(z, models, deadLimit)
  {
    var n: nat := if Bound(z, deadLimit) >= 0 then Bound(z, deadLimit) else 0;
    var es := SecondModelRun(z, a, b, n, deadLimit);
    ProductGrows(1, z.most, n);
    assert 1 * n == n && z.most * n == n * z.most;
    assert Exposure(z, After(z, Day([], [], 0), es)) > Bound(z, deadLimit);
    assert {a, b} <= models;
  }

  /**
   The check as written keeps the bound on every run of a day if and only if the day's requests are
   for one model; the setting has room for one token besides an estimate, and requests that use some.
   */
  lemma AsWrittenNeedsOneModel(z: Setting, models: set<string>, deadLimit: nat)
    requires z.variant == AsWritten && z.limit >= 1 && z.most >= 1 && z.least < z.quota
    ensures NeverExceeds(z, models, deadLimit) <==> forall a, b | a in models && b in models :: a == b
  {
    if forall a, b | a in models && b in models :: a == b {
      var model := if models == {} then "" else var m :| m in models; m;
      OneModelNeverExceeds(z, models, model, deadLimit);
    } else {
      var a, b :| a in models && b in models && a != b;
      TwoModelsExceed(z, models, a, b, deadLimit);
    }
  }
}
