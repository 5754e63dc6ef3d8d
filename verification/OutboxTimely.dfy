/**
 * Runs in which no claim takes a key that some worker still holds. Leases are there to bring this about: it holds when
 * every worker settles or drops each claimed record strictly before its `locked_until`, and it holds for a worker on
 * its own however long its handlers take. Otherwise a late settle really does undo a delivery
 * (LateSettleUndoesDelivery); which steps do so is said exactly by DeliveredStays.
 */
module OutboxTimely {
  import opened Text
  import opened Outbox
  import opened OutboxWorker
  import opened OutboxRuns

  /** A claim leaves alone every key that is in some worker's hands. */
  ghost predicate Considerate(cfg: Config, w: World, e: Event)
    requires Valid(w.table)
  {
    e.Claim? ==>
      forall t :: t in w.tasks ==> !Holds(RoundRecords(cfg, w.table, w.now), w.tasks[t].record.effect.key)
  }

  ghost predicate CarefulRun(cfg: Config, w: World, es: seq<Event>)
    requires Valid(w.table) && Legal(cfg, w, es)
    decreases |es|
  {
    es != [] ==>
      Considerate(cfg, w, es[0])
      && (AfterValid(cfg, w, es[0]); CarefulRun(cfg, After(cfg, w, es[0]), es[1..]))
  }

  /** Every record in a worker's hands still has its lease. */
  ghost predicate Timely(w: World) {
    forall t :: t in w.tasks ==>
      w.tasks[t].record.lockedUntil.Some? && w.now < w.tasks[t].record.lockedUntil.value
  }

  ghost predicate TimelyRun(cfg: Config, w: World, es: seq<Event>)
    requires Valid(w.table) && Legal(cfg, w, es)
    decreases |es|
  {
    Timely(w) && (es != [] ==> (AfterValid(cfg, w, es[0]); TimelyRun(cfg, After(cfg, w, es[0]), es[1..])))
  }

  /** The claimed snapshot is still the row: nobody else has touched it. */
  ghost predicate HeldTask(w: World, task: Task) {
    var r := task.record;
    r.effect.key in w.table.rows && w.table.rows[r.effect.key] == r && r.status == InProgress && r.attempts > 0
  }

  ghost predicate Held(w: World) {
    forall t :: t in w.tasks ==> HeldTask(w, w.tasks[t].(running := false))
  }

  /** No key is in the hands of two tasks. */
  ghost predicate Exclusive(w: World) {
    forall s, t :: s in w.tasks && t in w.tasks && s != t ==>
        w.tasks[s].record.effect.key != w.tasks[t].record.effect.key
  }

  ghost predicate Owned(w: World) {
    Valid(w.table) && TicketsBelow(w) && Held(w) && Exclusive(w)
  }

  ghost predicate LeasedRow(cfg: Config, w: World, w': World, records: seq<Record>, k: string) {
    k in w.table.rows ==>
      && k in w'.table.rows
      && w'.table.rows[k] == if Holds(records, k) then Leased(w.table.rows[k], w.now, cfg.lease) else w.table.rows[k]
  }

  lemma {:induction false} OldTaskStays(cfg: Config, w: World, w': World, records: seq<Record>, task: Task)
    requires HeldTask(w, task) && !Holds(records, task.record.effect.key)
    requires LeasedRow(cfg, w, w', records, task.record.effect.key)
    ensures HeldTask(w', task)
  {}

  lemma {:induction false} NewTaskHeld(cfg: Config, w: World, w': World, records: seq<Record>, i: nat, worker: nat)
    requires Valid(w.table) && Leases(cfg, w.table, w.now, records) && i < |records|
    requires LeasedRow(cfg, w, w', records, records[i].effect.key)
    ensures Holds(records, records[i].effect.key) && HeldTask(w', Task(worker, records[i], false))
  {
    assert Holds(records, records[i].effect.key);
  }

  /** Old tasks keep their rows, new tasks hold the newly leased ones, and the two kinds concern different keys. */
  ghost predicate Sorted(w: World, w': World, records: seq<Record>, t: nat) {
    t in w'.tasks ==>
        HeldTask(w', w'.tasks[t].(running := false))
        && (Holds(records, w'.tasks[t].record.effect.key) <==> t >= w.next)
  }

  lemma {:induction false} ClaimSorted(cfg: Config, w: World, w': World, worker: nat, records: seq<Record>, t: nat)
    requires Valid(w.table) && TicketsBelow(w) && Held(w) && Leases(cfg, w.table, w.now, records)
    requires forall s :: s in w.tasks ==> !Holds(records, w.tasks[s].record.effect.key)
    requires w'.tasks == w.tasks + NewTasks(w.next, worker, records)
    requires forall k {:trigger LeasedRow(cfg, w, w', records, k)} :: LeasedRow(cfg, w, w', records, k)
    ensures Sorted(w, w', records, t)
  {
    if t in w'.tasks {
      assert LeasedRow(cfg, w, w', records, w'.tasks[t].record.effect.key);
      if t < w.next {
        OldTaskStays(cfg, w, w', records, w.tasks[t].(running := false));
      } else {
        NewTaskHeld(cfg, w, w', records, t - w.next, worker);
      }
    }
  }

  lemma {:induction false} NewTasksExclusive(next: nat, worker: nat, records: seq<Record>, s: nat, t: nat)
    requires DistinctKeys(records) && next <= s < t < next + |records|
    ensures NewTasks(next, worker, records)[s].record.effect.key != NewTasks(next, worker, records)[t].record.effect.key
  {
    assert records[s - next].effect.key != records[t - next].effect.key;
  }

  lemma {:induction false} ClaimExclusive(cfg: Config, w: World, w': World, worker: nat, records: seq<Record>, s: nat,
                                          t: nat)
    requires TicketsBelow(w) && Exclusive(w) && DistinctKeys(records)
    requires w'.tasks == w.tasks + NewTasks(w.next, worker, records)
    requires Sorted(w, w', records, s) && Sorted(w, w', records, t)
    requires s in w'.tasks && t in w'.tasks && s < t
    ensures w'.tasks[s].record.effect.key != w'.tasks[t].record.effect.key
  {
    if s >= w.next {
      NewTasksExclusive(w.next, worker, records, s, t);
    } else if t < w.next {
      assert w'.tasks[s] == w.tasks[s] && w'.tasks[t] == w.tasks[t];
    }
  }

  lemma {:induction false} ClaimOwned(cfg: Config, w: World, w': World, worker: nat, records: seq<Record>)
    requires Owned(w) && Leases(cfg, w.table, w.now, records)
    requires forall s :: s in w.tasks ==> !Holds(records, w.tasks[s].record.effect.key)
    requires w'.tasks == w.tasks + NewTasks(w.next, worker, records) && w'.next == w.next + |records|
    requires Valid(w'.table)
    requires forall k {:trigger LeasedRow(cfg, w, w', records, k)} :: LeasedRow(cfg, w, w', records, k)
    ensures Owned(w')
  {
    forall t | t in w'.tasks ensures HeldTask(w', w'.tasks[t].(running := false)) {
      ClaimSorted(cfg, w, w', worker, records, t);
    }
    forall s, t | s in w'.tasks && t in w'.tasks && s < t
      ensures w'.tasks[s].record.effect.key != w'.tasks[t].record.effect.key
    {
      ClaimSorted(cfg, w, w', worker, records, s);
      ClaimSorted(cfg, w, w', worker, records, t);
      ClaimExclusive(cfg, w, w', worker, records, s, t);
    }
  }

  lemma {:induction false} SettledOwned(cfg: Config, w: World, ticket: nat, outcome: Outcome)
    requires Owned(w) && ticket in w.tasks
    ensures Owned(Settled(cfg, w, ticket, outcome))
  {
    var w' := Settled(cfg, w, ticket, outcome);
    SettledValid(cfg, w, ticket, outcome);
    assert HeldTask(w, w.tasks[ticket].(running := false));
    forall t | t in w'.tasks ensures HeldTask(w', w'.tasks[t].(running := false)) {
      assert HeldTask(w, w.tasks[t].(running := false));
    }
  }

  /** A step that keeps every held row and adds no task. */
  lemma {:induction false} SameRowsOwned(w: World, w': World)
    requires Owned(w) && Valid(w'.table) && w'.next == w.next
    requires forall t :: t in w'.tasks ==> t in w.tasks && w'.tasks[t].record == w.tasks[t].record
    requires forall k :: k in w.table.rows && w.table.rows[k].status == InProgress ==>
             k in w'.table.rows && w'.table.rows[k] == w.table.rows[k]
    ensures Owned(w')
  {
    forall t | t in w'.tasks ensures HeldTask(w', w'.tasks[t].(running := false)) {
      assert HeldTask(w, w.tasks[t].(running := false));
    }
  }

  lemma {:induction false} ClaimStepOwned(cfg: Config, w: World, worker: nat)
    requires Owned(w) && Enabled(w, Claim(worker)) && Considerate(cfg, w, Claim(worker))
    ensures Owned(After(cfg, w, Claim(worker)))
  {
    var w' := After(cfg, w, Claim(worker));
    AfterValid(cfg, w, Claim(worker));
    RoundLeases(cfg, w.table, w.now);
    forall k ensures LeasedRow(cfg, w, w', RoundRecords(cfg, w.table, w.now), k) {
      ClaimedRow(cfg, w.table, w.now, k);
    }
    ClaimOwned(cfg, w, w', worker, RoundRecords(cfg, w.table, w.now));
  }

  lemma {:induction false} AfterOwned(cfg: Config, w: World, e: Event)
    requires Owned(w) && Enabled(w, e) && Considerate(cfg, w, e)
    ensures Owned(After(cfg, w, e))
  {
    var w' := After(cfg, w, e);
    AfterValid(cfg, w, e);
    match e
    case Claim(worker) => ClaimStepOwned(cfg, w, worker);
    case Begin(ticket) =>
      if WillCall(cfg, w.tasks[ticket].record) { SameRowsOwned(w, w'); }
      else { SettledOwned(cfg, w, ticket, Succeeds); }
    case Finish(ticket, outcome) => SettledOwned(cfg, w, ticket, outcome);
    case _ => SameRowsOwned(w, w');
  }

  lemma {:induction false} RunOwned(cfg: Config, w: World, es: seq<Event>)
    requires Owned(w) && Legal(cfg, w, es) && CarefulRun(cfg, w, es)
    ensures Owned(Run(cfg, w, es))
    decreases |es|
  {
    if es == [] {
    } else {
      AfterValid(cfg, w, es[0]);
      AfterOwned(cfg, w, es[0]);
      RunOwned(cfg, After(cfg, w, es[0]), es[1..]);
    }
  }

  // ----- which runs are careful -----

  /** A record that still has its lease is not due. */
  lemma LeasedIsNotTaken(cfg: Config, w: World, t: nat)
    requires Owned(w) && Timely(w) && t in w.tasks
    ensures !Holds(RoundRecords(cfg, w.table, w.now), w.tasks[t].record.effect.key)
  {
    RoundLeases(cfg, w.table, w.now);
    assert HeldTask(w, w.tasks[t].(running := false));
  }

  /** Settling or dropping every record strictly before its lease runs out is enough. */
  lemma {:induction false} TimelyIsCareful(cfg: Config, w: World, es: seq<Event>)
    requires Owned(w) && Legal(cfg, w, es) && TimelyRun(cfg, w, es)
    ensures CarefulRun(cfg, w, es)
    decreases |es|
  {
    if es == [] {
    } else {
      forall t | t in w.tasks ensures !Holds(RoundRecords(cfg, w.table, w.now), w.tasks[t].record.effect.key) {
        LeasedIsNotTaken(cfg, w, t);
      }
      AfterValid(cfg, w, es[0]);
      AfterOwned(cfg, w, es[0]);
      TimelyIsCareful(cfg, After(cfg, w, es[0]), es[1..]);
    }
  }

  predicate OnlyClaims(es: seq<Event>, worker: nat) {
    forall e :: e in es && e.Claim? ==> e.worker == worker
  }

  ghost predicate OnlyTasks(w: World, worker: nat) {
    forall t :: t in w.tasks ==> w.tasks[t].worker == worker
  }

  lemma SoleWorkerStays(cfg: Config, w: World, e: Event, worker: nat)
    requires Valid(w.table) && Enabled(w, e) && OnlyTasks(w, worker) && (e.Claim? ==> e.worker == worker)
    ensures OnlyTasks(After(cfg, w, e), worker)
  {
  }

  /** A worker on its own is always careful: it claims with empty hands, however long its handlers take. */
  lemma {:induction false} SoleWorkerIsCareful(cfg: Config, w: World, es: seq<Event>, worker: nat)
    requires Valid(w.table) && Legal(cfg, w, es) && OnlyTasks(w, worker) && OnlyClaims(es, worker)
    ensures CarefulRun(cfg, w, es)
    decreases |es|
  {
    if es == [] {
    } else {
      assert es[0] in es;
      AfterValid(cfg, w, es[0]);
      SoleWorkerStays(cfg, w, es[0], worker);
      forall e | e in es[1..] && e.Claim? ensures e.worker == worker { assert e in es; }
      SoleWorkerIsCareful(cfg, After(cfg, w, es[0]), es[1..], worker);
    }
  }

  /** In a careful run no two workers ever hold, let alone handle, the same key. */
  lemma {:induction false} NeverTwoHandlers(cfg: Config, now: Time, es: seq<Event>, s: nat, t: nat)
    requires Legal(cfg, Start(now), es) && CarefulRun(cfg, Start(now), es)
    requires s in Run(cfg, Start(now), es).tasks && t in Run(cfg, Start(now), es).tasks && s != t
    ensures Run(cfg, Start(now), es).tasks[s].record.effect.key != Run(cfg, Start(now), es).tasks[t].record.effect.key
  {
    RunOwned(cfg, Start(now), es);
  }

  predicate Removes(e: Event, r: Record) {
    e.Prune? && IsStale(r, e.olderThan)
  }

  lemma ClaimLeaves(cfg: Config, t: Table, now: Time, k: string)
    requires Valid(t) && k in t.rows && !IsLive(t.rows[k])
    ensures k in Claimed(t, now, cfg.batchSize, cfg.lease).rows
            && Claimed(t, now, cfg.batchSize, cfg.lease).rows[k] == t.rows[k]
  {
    ClaimedRow(cfg, t, now, k);
    RoundLeases(cfg, t, now);
  }

  lemma {:induction false} SettledElsewhere(cfg: Config, w: World, ticket: nat, outcome: Outcome, k: string)
    requires ticket in w.tasks && k in w.table.rows && w.tasks[ticket].record.effect.key != k
    ensures var w' := Settled(cfg, w, ticket, outcome);
            k in w'.table.rows && w'.table.rows[k] == w.table.rows[k] && AccountOf(w', k) == AccountOf(w, k)
  {
  }

  /** One step of a careful run: DELIVERED goes only by pruning, DEAD only by requeueing that key. */
  lemma {:induction false} SettledRowsStay(cfg: Config, w: World, e: Event, k: string)
    requires Owned(w) && Enabled(w, e) && k in w.table.rows
    requires (w.table.rows[k].status == Delivered && !Removes(e, w.table.rows[k]))
             || (w.table.rows[k].status == Dead && e != Requeue(k))
    ensures k in After(cfg, w, e).table.rows && After(cfg, w, e).table.rows[k] == w.table.rows[k]
    ensures AccountOf(After(cfg, w, e), k) == AccountOf(w, k)
  {
    match e
    case Claim(_) => ClaimLeaves(cfg, w.table, w.now, k);
    case Begin(ticket) =>
      assert HeldTask(w, w.tasks[ticket].(running := false));
      SettledElsewhere(cfg, w, ticket, Succeeds, k);
    case Finish(ticket, outcome) =>
      assert HeldTask(w, w.tasks[ticket].(running := false));
      SettledElsewhere(cfg, w, ticket, outcome, k);
    case _ =>
  }

  /**
   * After `mark_delivered`, and as long as the record is not pruned, a careful run neither changes the record nor calls
   * the key's handler again.
   */
  lemma {:induction false} NoCallAfterDelivery(cfg: Config, w: World, es: seq<Event>, k: string)
    requires Owned(w) && Legal(cfg, w, es) && CarefulRun(cfg, w, es)
    requires k in w.table.rows && w.table.rows[k].status == Delivered
    requires forall e :: e in es ==> !Removes(e, w.table.rows[k])
    ensures k in Run(cfg, w, es).table.rows && Run(cfg, w, es).table.rows[k] == w.table.rows[k]
    ensures AccountOf(Run(cfg, w, es), k).calls == AccountOf(w, k).calls
    decreases |es|
  {
    if es == [] {
    } else {
      AfterValid(cfg, w, es[0]);
      SettledRowsStay(cfg, w, es[0], k);
      AfterOwned(cfg, w, es[0]);
      NoCallAfterDelivery(cfg, After(cfg, w, es[0]), es[1..], k);
    }
  }

  // ----- the total backoff of a record -----

  ghost predicate NonNegative(backoff: nat -> Time) {
    forall n: nat :: backoff(n) >= 0.0
  }

  /** How many delays a row has had since it was last inserted or requeued. */
  function Delays(cfg: Config, r: Record): nat {
    var n := if r.status == Queued then r.attempts else if r.attempts == 0 then 0 else r.attempts - 1;
    Min(n, if cfg.maxAttempts == 0 then 0 else cfg.maxAttempts - 1)
  }

  ghost predicate WaitedLittle(cfg: Config, w: World, k: string) {
    k in w.table.rows ==> AccountOf(w, k).waited <= SumDelay(cfg.backoff, Delays(cfg, w.table.rows[k]))
  }

  lemma {:induction false} SumDelayGrows(backoff: nat -> Time, m: nat, n: nat)
    requires NonNegative(backoff) && m <= n
    ensures 0.0 <= SumDelay(backoff, m) <= SumDelay(backoff, n)
    decreases n
  {
    if n == 0 {
    } else {
      SumDelayGrows(backoff, if m < n then m else n - 1, n - 1);
    }
  }

  lemma {:induction false} SettledWaited(cfg: Config, w: World, ticket: nat, outcome: Outcome, k: string)
    requires NonNegative(cfg.backoff) && Owned(w) && ticket in w.tasks && WaitedLittle(cfg, w, k)
    ensures WaitedLittle(cfg, Settled(cfg, w, ticket, outcome), k)
  {
    assert HeldTask(w, w.tasks[ticket].(running := false));
  }

  lemma {:induction false} ClaimWaited(cfg: Config, w: World, worker: nat, k: string)
    requires NonNegative(cfg.backoff) && Owned(w) && Enabled(w, Claim(worker)) && WaitedLittle(cfg, w, k)
    ensures WaitedLittle(cfg, After(cfg, w, Claim(worker)), k)
  {
    ClaimedRow(cfg, w.table, w.now, k);
    if k in w.table.rows {
      SumDelayGrows(cfg.backoff, Delays(cfg, w.table.rows[k]), Delays(cfg, Leased(w.table.rows[k], w.now, cfg.lease)));
    }
  }

  lemma {:induction false} AfterWaited(cfg: Config, w: World, e: Event, k: string)
    requires NonNegative(cfg.backoff) && Owned(w) && Enabled(w, e) && WaitedLittle(cfg, w, k)
    ensures WaitedLittle(cfg, After(cfg, w, e), k)
  {
    match e
    case Claim(worker) => ClaimWaited(cfg, w, worker, k);
    case Begin(ticket) => SettledWaited(cfg, w, ticket, Succeeds, k);
    case Finish(ticket, outcome) => SettledWaited(cfg, w, ticket, outcome, k);
    case _ =>
  }

  lemma {:induction false} RunWaited(cfg: Config, w: World, es: seq<Event>, k: string)
    requires NonNegative(cfg.backoff) && Owned(w) && Legal(cfg, w, es) && CarefulRun(cfg, w, es)
             && WaitedLittle(cfg, w, k)
    ensures WaitedLittle(cfg, Run(cfg, w, es), k)
    decreases |es|
  {
    if es == [] {
    } else {
      AfterValid(cfg, w, es[0]);
      AfterOwned(cfg, w, es[0]);
      AfterWaited(cfg, w, es[0], k);
      RunWaited(cfg, After(cfg, w, es[0]), es[1..], k);
    }
  }

  lemma BackoffNonNegative(base: Time, cap: Time)
    requires base >= 0.0 && cap >= 0.0
    ensures NonNegative(ExponentialBackoff(base, cap))
  {
    forall n: nat ensures ExponentialBackoff(base, cap)(n) >= 0.0 {
      assert base * Pow2(if n == 0 then 0 else n - 1) >= 0.0;
    }
  }

  lemma {:induction false} WaitedBound(cfg: Config, now: Time, es: seq<Event>, k: string)
    requires NonNegative(cfg.backoff) && cfg.maxAttempts > 0
    requires Legal(cfg, Start(now), es) && CarefulRun(cfg, Start(now), es)
    requires k in Run(cfg, Start(now), es).table.rows
    ensures AccountOf(Run(cfg, Start(now), es), k).waited <= SumDelay(cfg.backoff, cfg.maxAttempts - 1)
  {
    RunWaited(cfg, Start(now), es, k);
    SumDelayGrows(cfg.backoff, Delays(cfg, Run(cfg, Start(now), es).table.rows[k]), cfg.maxAttempts - 1);
  }

  /** At most base * (2^n - 1) and at most n * cap. */
  ghost predicate BackoffWithin(waited: Time, base: Time, cap: Time, n: nat) {
    waited <= base * (Pow2(n) - 1.0) && waited <= n as real * cap
  }

  lemma WithinSum(waited: Time, backoff: nat -> Time, base: Time, cap: Time, n: nat)
    requires backoff == ExponentialBackoff(base, cap) && waited <= SumDelay(backoff, n)
    ensures BackoffWithin(waited, base, cap, n)
  {
    BackoffBound(backoff, base, cap, n);
  }

  /**
   * In every careful run, crashes and reclaims included, the backoff a record has accumulated since its last insert or
   * requeue is at most base * (2^(maxAttempts-1) - 1), and at most (maxAttempts-1) * cap.
   */
  lemma TotalBackoffBounded(cfg: Config, base: Time, cap: Time, now: Time, es: seq<Event>, k: string)
    requires base >= 0.0 && cap >= 0.0 && cfg.backoff == ExponentialBackoff(base, cap) && cfg.maxAttempts > 0
    requires Legal(cfg, Start(now), es) && CarefulRun(cfg, Start(now), es)
    requires k in Run(cfg, Start(now), es).table.rows
    ensures BackoffWithin(AccountOf(Run(cfg, Start(now), es), k).waited, base, cap, cfg.maxAttempts - 1)
  {
    BackoffNonNegative(base, cap);
    WaitedBound(cfg, now, es, k);
    WithinSum(AccountOf(Run(cfg, Start(now), es), k).waited, cfg.backoff, base, cap, cfg.maxAttempts - 1);
  }

  /** The same for a worker on its own, with no hypothesis about its leases. */
  lemma OneWorkerBackoffBounded(cfg: Config, base: Time, cap: Time, now: Time, es: seq<Event>, worker: nat, k: string)
    requires base >= 0.0 && cap >= 0.0 && cfg.backoff == ExponentialBackoff(base, cap) && cfg.maxAttempts > 0
    requires Legal(cfg, Start(now), es) && OnlyClaims(es, worker)
    requires k in Run(cfg, Start(now), es).table.rows
    ensures BackoffWithin(AccountOf(Run(cfg, Start(now), es), k).waited, base, cap, cfg.maxAttempts - 1)
  {
    SoleWorkerIsCareful(cfg, Start(now), es, worker);
    TotalBackoffBounded(cfg, base, cap, now, es, k);
  }

  // ----- exactly which steps undo a delivery -----

  /** Settling the record would mark it delivered: attempts are left, there is a handler, and it succeeded. */
  predicate SettlesWell(cfg: Config, record: Record, outcome: Outcome) {
    WillCall(cfg, record) && outcome.Succeeds?
  }

  /** The event settles a record of that key to anything but DELIVERED. */
  predicate Undoes(cfg: Config, w: World, e: Event, k: string) {
    match e
    case Begin(ticket) =>
      ticket in w.tasks && w.tasks[ticket].record.effect.key == k && !WillCall(cfg, w.tasks[ticket].record)
    case Finish(ticket, outcome) =>
      ticket in w.tasks && w.tasks[ticket].record.effect.key == k
      && !SettlesWell(cfg, w.tasks[ticket].record, outcome)
    case _ => false
  }

  lemma SettledStatus(cfg: Config, w: World, ticket: nat, outcome: Outcome, k: string)
    requires ticket in w.tasks && k in w.table.rows && w.table.rows[k].status == Delivered
    ensures var w' := Settled(cfg, w, ticket, outcome); var record := w.tasks[ticket].record;
            k in w'.table.rows
            && (w'.table.rows[k].status == Delivered <==> record.effect.key != k || SettlesWell(cfg, record, outcome))
  {
  }

  /**
   * In every valid world, timely or not: a delivered record stays delivered across a step if and only if the step
   * neither prunes it nor settles a record of its key to something else.
   */
  lemma DeliveredStays(cfg: Config, w: World, e: Event, k: string)
    requires Valid(w.table) && Enabled(w, e) && k in w.table.rows && w.table.rows[k].status == Delivered
    ensures k in After(cfg, w, e).table.rows && After(cfg, w, e).table.rows[k].status == Delivered
            <==> !Removes(e, w.table.rows[k]) && !Undoes(cfg, w, e, k)
  {
    match e
    case Claim(_) => ClaimLeaves(cfg, w.table, w.now, k);
    case Begin(ticket) => SettledStatus(cfg, w, ticket, Succeeds, k);
    case Finish(ticket, outcome) => SettledStatus(cfg, w, ticket, outcome, k);
    case _ =>
  }

  /** What a worker could test before it settles: the row still is the record that it claimed. */
  predicate StillMine(w: World, ticket: nat) {
    ticket in w.tasks
    && w.tasks[ticket].record.effect.key in w.table.rows
    && w.table.rows[w.tasks[ticket].record.effect.key] == w.tasks[ticket].record
  }

  /** Every settle passes that test. */
  predicate Guarded(cfg: Config, w: World, e: Event) {
    match e
    case Begin(ticket) => ticket in w.tasks && !WillCall(cfg, w.tasks[ticket].record) ==> StillMine(w, ticket)
    case Finish(ticket, _) => StillMine(w, ticket)
    case _ => true
  }

  ghost predicate GuardedRun(cfg: Config, w: World, es: seq<Event>)
    requires Valid(w.table) && Legal(cfg, w, es)
    decreases |es|
  {
    es != [] ==>
      Guarded(cfg, w, es[0])
      && (AfterValid(cfg, w, es[0]); GuardedRun(cfg, After(cfg, w, es[0]), es[1..]))
  }

  /** Claimed snapshots are in progress, in every run. */
  ghost predicate SnapshotsLeased(w: World) {
    forall t :: t in w.tasks ==> w.tasks[t].record.status == InProgress
  }

  lemma ClaimedSnapshots(cfg: Config, w: World, worker: nat)
    requires Valid(w.table) && SnapshotsLeased(w)
    ensures forall t :: t in w.tasks + NewTasks(w.next, worker, RoundRecords(cfg, w.table, w.now)) ==>
              (w.tasks + NewTasks(w.next, worker, RoundRecords(cfg, w.table, w.now)))[t].record.status == InProgress
  {
    var records := RoundRecords(cfg, w.table, w.now);
    RoundLeases(cfg, w.table, w.now);
    assert forall i :: 0 <= i < |records| ==> records[i].status == InProgress;
  }

  lemma SnapshotsStayLeased(cfg: Config, w: World, e: Event)
    requires Valid(w.table) && Enabled(w, e) && SnapshotsLeased(w)
    ensures SnapshotsLeased(After(cfg, w, e))
  {
    if e.Claim? { ClaimedSnapshots(cfg, w, e.worker); }
  }

  lemma GuardedKeepsRow(cfg: Config, w: World, e: Event, k: string)
    requires Valid(w.table) && Enabled(w, e) && SnapshotsLeased(w) && Guarded(cfg, w, e)
    requires k in w.table.rows && w.table.rows[k].status == Delivered && !Removes(e, w.table.rows[k])
    ensures k in After(cfg, w, e).table.rows && After(cfg, w, e).table.rows[k] == w.table.rows[k]
  {
    match e
    case Claim(_) => ClaimLeaves(cfg, w.table, w.now, k);
    case Begin(ticket) =>
      if !WillCall(cfg, w.tasks[ticket].record) { SettledElsewhere(cfg, w, ticket, Succeeds, k); }
    case Finish(ticket, outcome) => SettledElsewhere(cfg, w, ticket, outcome, k);
    case _ =>
  }

  /** With that test before every settle, a delivery is undone in no run at all, however late the workers are. */
  lemma {:induction false} GuardKeepsDelivery(cfg: Config, w: World, es: seq<Event>, k: string)
    requires Valid(w.table) && Legal(cfg, w, es) && SnapshotsLeased(w) && GuardedRun(cfg, w, es)
    requires k in w.table.rows && w.table.rows[k].status == Delivered
    requires forall e :: e in es ==> !Removes(e, w.table.rows[k])
    ensures k in Run(cfg, w, es).table.rows && Run(cfg, w, es).table.rows[k] == w.table.rows[k]
    decreases |es|
  {
    if es == [] {
    } else {
      assert es[0] in es;
      AfterValid(cfg, w, es[0]);
      GuardedKeepsRow(cfg, w, es[0], k);
      SnapshotsStayLeased(cfg, w, es[0]);
      forall e | e in es[1..] ensures !Removes(e, w.table.rows[k]) { assert e in es; }
      GuardKeepsDelivery(cfg, After(cfg, w, es[0]), es[1..], k);
    }
  }

  // ----- what a late settle does -----

  ghost predicate Reachable(cfg: Config, w0: World, w: World)
    requires Valid(w0.table)
  {
    exists es :: Legal(cfg, w0, es) && Run(cfg, w0, es) == w
  }

  lemma {:induction false} RunSnoc(cfg: Config, w: World, es: seq<Event>, e: Event)
    requires Valid(w.table) && Legal(cfg, w, es) && Enabled(Run(cfg, w, es), e)
    ensures Legal(cfg, w, es + [e]) && Run(cfg, w, es + [e]) == After(cfg, Run(cfg, w, es), e)
    decreases |es|
  {
    if es == [] {
      AfterValid(cfg, w, e);
      assert ([] + [e])[1..] == [];
    } else {
      AfterValid(cfg, w, es[0]);
      assert (es + [e])[0] == es[0] && (es + [e])[1..] == es[1..] + [e];
      RunSnoc(cfg, After(cfg, w, es[0]), es[1..], e);
    }
  }

  lemma ReachStep(cfg: Config, w0: World, w: World, e: Event)
    requires Valid(w0.table) && Valid(w.table) && Reachable(cfg, w0, w) && Enabled(w, e)
    ensures Reachable(cfg, w0, After(cfg, w, e)) && Valid(After(cfg, w, e).table)
  {
    var es :| Legal(cfg, w0, es) && Run(cfg, w0, es) == w;
    RunSnoc(cfg, w0, es, e);
    AfterValid(cfg, w, e);
  }

  /** A table with one row. */
  function Single(r: Record): Table {
    Table([r.effect.key], map[r.effect.key := r])
  }

  lemma SingleClaimed(cfg: Config, r: Record, now: Time)
    requires ValidRow(r.effect.key, r) && IsDue(r, now) && cfg.batchSize > 0
    ensures Valid(Single(r))
    ensures Claimed(Single(r), now, cfg.batchSize, cfg.lease) == Single(Leased(r, now, cfg.lease))
    ensures RoundRecords(cfg, Single(r), now) == [Leased(r, now, cfg.lease)]
  {
    var t := Single(r);
    assert t.order[1..] == [];
    assert DueKeys(t.order, t.rows, now) == [r.effect.key];
    assert SortByTime([r.effect.key], t.rows) == [r.effect.key];
  }

  lemma ClaimSingle(cfg: Config, w: World, r: Record, worker: nat)
    requires w.table == Single(r) && ValidRow(r.effect.key, r) && IsDue(r, w.now) && cfg.batchSize > 0
    requires Enabled(w, Claim(worker))
    ensures Valid(w.table)
    ensures After(cfg, w, Claim(worker)).table == Single(Leased(r, w.now, cfg.lease))
    ensures After(cfg, w, Claim(worker)).tasks == w.tasks[w.next := Task(worker, Leased(r, w.now, cfg.lease), false)]
    ensures After(cfg, w, Claim(worker)).next == w.next + 1 && After(cfg, w, Claim(worker)).now == w.now
  {
    SingleClaimed(cfg, r, w.now);
    assert NewTasks(w.next, worker, [Leased(r, w.now, cfg.lease)]) ==
           map[w.next := Task(worker, Leased(r, w.now, cfg.lease), false)];
  }

  lemma BeginOnly(cfg: Config, w: World, ticket: nat)
    requires Valid(w.table) && Enabled(w, Begin(ticket)) && WillCall(cfg, w.tasks[ticket].record)
    ensures var w' := After(cfg, w, Begin(ticket));
            w'.table == w.table && w'.tasks == w.tasks[ticket := w.tasks[ticket].(running := true)]
                && w'.next == w.next && w'.now == w.now
  {}

  lemma SubmitOnly(cfg: Config, effect: Effect) returns (w: World)
    ensures Reachable(cfg, Start(0.0), w) && Valid(w.table)
    ensures w.table == Single(NewRecord(effect, 0.0)) && w.tasks == map[] && w.next == 0 && w.now == 0.0
  {
    assert Legal(cfg, Start(0.0), []) && Run(cfg, Start(0.0), []) == Start(0.0);
    ReachStep(cfg, Start(0.0), Start(0.0), Submit(effect));
    w := After(cfg, Start(0.0), Submit(effect));
  }

  /** A worker has claimed the only record and its handler is still running when the lease runs out. */
  lemma {:induction false} SlowHandler(cfg: Config, effect: Effect) returns (w: World, r: Record)
    requires cfg.maxAttempts > 1 && cfg.batchSize > 0 && cfg.lease >= 0.0 && effect.kind in cfg.handlers
    ensures Reachable(cfg, Start(0.0), w) && Valid(w.table) && ValidRow(effect.key, r)
    ensures r.effect == effect && r.attempts == 1 && IsDue(r, w.now)
    ensures w.table == Single(r) && w.tasks == map[0 := Task(1, r, true)] && w.next == 1
  {
    var w1 := SubmitOnly(cfg, effect);
    var r0 := NewRecord(effect, 0.0);
    r := Leased(r0, 0.0, cfg.lease);
    ClaimSingle(cfg, w1, r0, 1);
    ReachStep(cfg, Start(0.0), w1, Claim(1));
    var w2 := After(cfg, w1, Claim(1));
    BeginOnly(cfg, w2, 0);
    ReachStep(cfg, Start(0.0), w2, Begin(0));
    var w3 := After(cfg, w2, Begin(0));
    ReachStep(cfg, Start(0.0), w3, Tick(cfg.lease));
    w := After(cfg, w3, Tick(cfg.lease));
  }

  lemma {:induction false} SecondBegins(cfg: Config, w4: World, r: Record) returns (w6: World)
    requires cfg.maxAttempts > 1 && cfg.batchSize > 0 && r.effect.kind in cfg.handlers
    requires Reachable(cfg, Start(0.0), w4) && Valid(w4.table) && ValidRow(r.effect.key, r)
    requires r.attempts == 1 && IsDue(r, w4.now)
    requires w4.table == Single(r) && w4.tasks == map[0 := Task(1, r, true)] && w4.next == 1
    ensures Reachable(cfg, Start(0.0), w6) && Valid(w6.table)
    ensures w6.table == Single(Leased(r, w4.now, cfg.lease))
    ensures w6.tasks == map[0 := Task(1, r, true), 1 := Task(2, Leased(r, w4.now, cfg.lease), true)]
  {
    ClaimSingle(cfg, w4, r, 2);
    ReachStep(cfg, Start(0.0), w4, Claim(2));
    var w5 := After(cfg, w4, Claim(2));
    BeginOnly(cfg, w5, 1);
    ReachStep(cfg, Start(0.0), w5, Begin(1));
    w6 := After(cfg, w5, Begin(1));
  }

  /** A second worker reclaims the record and delivers it while the first is still busy. */
  lemma {:induction false} SecondDelivers(cfg: Config, w4: World, r: Record) returns (w: World)
    requires cfg.maxAttempts > 1 && cfg.batchSize > 0 && r.effect.kind in cfg.handlers
    requires Reachable(cfg, Start(0.0), w4) && Valid(w4.table) && ValidRow(r.effect.key, r)
    requires r.attempts == 1 && IsDue(r, w4.now)
    requires w4.table == Single(r) && w4.tasks == map[0 := Task(1, r, true)] && w4.next == 1
    ensures Valid(w.table) && Reachable(cfg, Start(0.0), w)
    ensures r.effect.key in w.table.rows && w.table.rows[r.effect.key].status == Delivered
    ensures 0 in w.tasks && w.tasks[0] == Task(1, r, true)
  {
    var w6 := SecondBegins(cfg, w4, r);
    ReachStep(cfg, Start(0.0), w6, Finish(1, Succeeds));
    w := After(cfg, w6, Finish(1, Succeeds));
  }

  /**
   * Without timeliness: worker 1's handler outlives its lease, worker 2 reclaims and delivers, and then worker 1's
   * transient failure puts the delivered record back in the queue.
   */
  lemma {:induction false} LateSettleUndoesDelivery(cfg: Config, effect: Effect, error: Failure) returns (w: World)
    requires cfg.maxAttempts > 1 && cfg.batchSize > 0 && cfg.lease >= 0.0 && effect.kind in cfg.handlers
    ensures Valid(w.table) && Reachable(cfg, Start(0.0), w)
    ensures effect.key in w.table.rows && w.table.rows[effect.key].status == Delivered
    ensures Enabled(w, Finish(0, FailsTransiently(error)))
    ensures effect.key in After(cfg, w, Finish(0, FailsTransiently(error))).table.rows
    ensures After(cfg, w, Finish(0, FailsTransiently(error))).table.rows[effect.key].status == Queued
  {
    var w4, r := SlowHandler(cfg, effect);
    w := SecondDelivers(cfg, w4, r);
  }
}
