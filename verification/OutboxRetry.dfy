/**
 * When a record may be claimed again: a released one not before its retry time, a claimed one not before its lease runs
 * out (course_discovery/effects/memory_store.py:30-78, course_discovery/effects/worker.py:111-128).
 */
module OutboxRetry {
  import opened Text
  import opened Outbox
  import opened OutboxWorker
  import opened OutboxRuns

  /** The event settles a record of that key: its handler returns, or it is given up without calling one. */
  predicate SettlesKey(cfg: Config, w: World, e: Event, k: string) {
    match e
    case Begin(t) => t in w.tasks && w.tasks[t].record.effect.key == k && !WillCall(cfg, w.tasks[t].record)
    case Finish(t, _) => t in w.tasks && w.tasks[t].record.effect.key == k
    case _ => false
  }

  /** No event of the schedule settles a record of that key. */
  ghost predicate Unsettled(cfg: Config, w: World, es: seq<Event>, k: string)
    requires Valid(w.table) && Legal(cfg, w, es)
    decreases |es|
  {
    es != [] ==>
      !SettlesKey(cfg, w, es[0], k) && (AfterValid(cfg, w, es[0]); Unsettled(cfg, After(cfg, w, es[0]), es[1..], k))
  }

  /** The record is queued for that time, or leased until then. */
  predicate WaitsUntil(t: Table, k: string, until: Time) {
    k in t.rows
    && ((t.rows[k].status.Queued? && t.rows[k].nextAttemptAt == until)
        || (t.rows[k].status.InProgress? && t.rows[k].lockedUntil == Some(until)))
  }

  lemma NotClaimedEarly(t: Table, k: string, until: Time, now: Time, limit: nat)
    requires Valid(t) && WaitsUntil(t, k, until) && now < until
    ensures k !in ClaimKeys(t, now, limit)
  {
    ClaimAgreesWithSql(t, now, limit, k);
  }

  lemma StepWaits(cfg: Config, w: World, e: Event, k: string, until: Time)
    requires Valid(w.table) && Enabled(w, e) && WaitsUntil(w.table, k, until) && w.now < until
    requires !SettlesKey(cfg, w, e, k)
    ensures k in After(cfg, w, e).table.rows && After(cfg, w, e).table.rows[k] == w.table.rows[k]
  {
    if e.Claim? { NotClaimedEarly(w.table, k, until, w.now, cfg.batchSize); }
  }

  lemma TimeGrows(cfg: Config, w: World, e: Event)
    requires Valid(w.table) && Enabled(w, e)
    ensures w.now <= After(cfg, w, e).now
  {
  }

  lemma {:induction false} RunTimeGrows(cfg: Config, w: World, es: seq<Event>)
    requires Valid(w.table) && Legal(cfg, w, es)
    ensures w.now <= Run(cfg, w, es).now
    decreases |es|
  {
    if es == [] {
    } else {
      AfterValid(cfg, w, es[0]);
      TimeGrows(cfg, w, es[0]);
      RunTimeGrows(cfg, After(cfg, w, es[0]), es[1..]);
    }
  }

  /** Whatever the other workers do, the record stays as it is until its time comes or it is settled. */
  lemma {:induction false} WaitsThrough(cfg: Config, w: World, es: seq<Event>, k: string, until: Time)
    requires Valid(w.table) && Legal(cfg, w, es) && Unsettled(cfg, w, es, k)
    requires WaitsUntil(w.table, k, until) && Run(cfg, w, es).now < until
    ensures k in Run(cfg, w, es).table.rows && Run(cfg, w, es).table.rows[k] == w.table.rows[k]
    decreases |es|
  {
    RunTimeGrows(cfg, w, es);
    if es == [] {
    } else {
      AfterValid(cfg, w, es[0]);
      StepWaits(cfg, w, es[0], k, until);
      WaitsThrough(cfg, After(cfg, w, es[0]), es[1..], k, until);
    }
  }

  lemma NotClaimedMeanwhile(cfg: Config, w: World, es: seq<Event>, k: string, until: Time, limit: nat)
    requires Valid(w.table) && Legal(cfg, w, es) && Unsettled(cfg, w, es, k)
    requires WaitsUntil(w.table, k, until) && Run(cfg, w, es).now < until
    ensures var later := Run(cfg, w, es);
            k in later.table.rows && later.table.rows[k] == w.table.rows[k]
            && k !in ClaimKeys(later.table, later.now, limit)
  {
    WaitsThrough(cfg, w, es, k, until);
    NotClaimedEarly(Run(cfg, w, es).table, k, until, Run(cfg, w, es).now, limit);
  }

  /** A handler of that ticket fails transiently with attempts left. */
  predicate FailsWithRetry(cfg: Config, w: World, ticket: nat, error: Failure, k: string) {
    Enabled(w, Finish(ticket, FailsTransiently(error)))
    && k in w.table.rows && w.tasks[ticket].record.effect.key == k
    && w.tasks[ticket].record.effect.kind in cfg.handlers && w.tasks[ticket].record.attempts < cfg.maxAttempts
  }

  lemma FailureQueues(cfg: Config, w: World, ticket: nat, error: Failure, k: string)
    requires Valid(w.table) && FailsWithRetry(cfg, w, ticket, error, k)
    ensures var row := After(cfg, w, Finish(ticket, FailsTransiently(error))).table.rows;
            k in row && row[k].status.Queued? && row[k].lockedUntil.None? && row[k].lastError == Some(error)
            && row[k].nextAttemptAt == w.now + cfg.backoff(w.tasks[ticket].record.attempts)
            && row[k].attempts == w.table.rows[k].attempts
  {
  }

  /**
   * After a transient failure at time T with attempt number a, over any schedule in which no record of the key is
   * settled, no claim takes the key before T + backoff(a). Queued records are neither pruned nor requeued.
   */
  lemma RetryWaits(cfg: Config, w: World, ticket: nat, error: Failure, k: string, failed: World, es: seq<Event>,
                   limit: nat)
    requires Valid(w.table) && FailsWithRetry(cfg, w, ticket, error, k)
    requires failed == After(cfg, w, Finish(ticket, FailsTransiently(error))) && Valid(failed.table)
    requires Legal(cfg, failed, es) && Unsettled(cfg, failed, es, k)
    requires Run(cfg, failed, es).now < w.now + cfg.backoff(w.tasks[ticket].record.attempts)
    ensures var later := Run(cfg, failed, es);
            k in later.table.rows && later.table.rows[k].status.Queued?
            && k !in ClaimKeys(later.table, later.now, limit)
  {
    var until := w.now + cfg.backoff(w.tasks[ticket].record.attempts);
    FailureQueues(cfg, w, ticket, error, k);
    NotClaimedMeanwhile(cfg, failed, es, k, until, limit);
  }

  /** A claimed record is in progress until its lease runs out, with one more attempt. */
  lemma ClaimLeases(t: Table, now: Time, limit: nat, lease: Time, k: string)
    requires Valid(t) && k in ClaimKeys(t, now, limit)
    ensures var rows := Claimed(t, now, limit, lease).rows;
            k in rows && rows[k].status.InProgress? && rows[k].lockedUntil == Some(now + lease)
            && rows[k].attempts == t.rows[k].attempts + 1 && rows[k].effect == t.rows[k].effect
            && rows[k].nextAttemptAt == t.rows[k].nextAttemptAt
  {
  }

  /**
   * A record leased until some time, as a claim leaves it, is not claimed again before then, over any schedule in which
   * no record of the key is settled, also if its worker has crashed.
   */
  lemma LeaseWaits(cfg: Config, w: World, es: seq<Event>, k: string, until: Time, limit: nat)
    requires Valid(w.table) && Legal(cfg, w, es) && Unsettled(cfg, w, es, k) && Run(cfg, w, es).now < until
    requires k in w.table.rows && w.table.rows[k].status.InProgress? && w.table.rows[k].lockedUntil == Some(until)
    ensures var later := Run(cfg, w, es);
            k in later.table.rows && later.table.rows[k].status.InProgress?
            && k !in ClaimKeys(later.table, later.now, limit)
  {
    NotClaimedMeanwhile(cfg, w, es, k, until, limit);
  }

  /** Once its time has come, the record is claimed as soon as the claim's limit reaches it. */
  lemma ClaimedInTime(t: Table, k: string, until: Time, now: Time, limit: nat)
    requires Valid(t) && WaitsUntil(t, k, until) && until <= now
    ensures k in ClaimKeys(t, now, limit) <==> |RankedBefore(t, now, k)| < limit
  {
    ClaimAgreesWithSql(t, now, limit, k);
  }

  /** A dead record that is requeued is due at once and has all its attempts again. */
  lemma RequeuedIsDue(cfg: Config, w: World, k: string)
    requires Valid(w.table) && k in w.table.rows && w.table.rows[k].status.Dead?
    ensures var after := After(cfg, w, Requeue(k));
            WaitsUntil(after.table, k, w.now) && after.table.rows[k].attempts == 0
  {
  }

  // ----- what a settled record says -----

  /** The record is dead, with that error. */
  predicate DiedOf(r: Record, error: Failure) {
    r.status.Dead? && r.lastError == Some(error)
  }

  /**
   * What each way of ending leaves: too many attempts or no handler kills the record, success delivers it now, a
   * permanent failure or a last transient one kills it, and an earlier transient one queues it for later.
   */
  lemma OutcomesAre(cfg: Config, row: Record, record: Record, outcome: Outcome, now: Time)
    ensures var r := ProcessedRow(cfg, row, record, outcome, now);
            if record.attempts > cfg.maxAttempts then
              DiedOf(r, if record.lastError.Some? && record.lastError != Some(Raised(""))
                        then record.lastError.value else LeaseExpired)
            else if record.effect.kind !in cfg.handlers then DiedOf(r, NoHandler(record.effect.kind))
            else
              match outcome
              case Succeeds => r.status.Delivered? && r.deliveredAt == Some(now) && r.lastError.None?
              case FailsPermanently(error) => DiedOf(r, error)
              case FailsTransiently(error) =>
                if record.attempts == cfg.maxAttempts then DiedOf(r, error)
                else
                  r.status.Queued? && r.lastError == Some(error)
                  && r.nextAttemptAt == now + cfg.backoff(record.attempts)
  {
  }

  /** Pruning takes exactly the records delivered before the given time, and leaves the others as they are. */
  lemma PrunesExactly(t: Table, olderThan: Time, k: string)
    requires k in t.rows
    ensures var r := t.rows[k];
            k !in Pruned(t, olderThan).rows <==>
              r.status.Delivered? && r.deliveredAt.Some? && r.deliveredAt.value < olderThan
    ensures k in Pruned(t, olderThan).rows ==> Pruned(t, olderThan).rows[k] == t.rows[k]
  {
  }

  /** A delivered record is there until a pruning that asks for something later than its delivery. */
  lemma DeliveredThenPruned(cfg: Config, t: Table, record: Record, now: Time, olderThan: Time)
    requires Valid(t) && record.effect.key in t.rows
    requires record.attempts <= cfg.maxAttempts && record.effect.kind in cfg.handlers
    ensures record.effect.key in Pruned(ProcessedOne(cfg, t, record, Succeeds, now), olderThan).rows <==>
            olderThan <= now
  {
    var k, after := record.effect.key, ProcessedOne(cfg, t, record, Succeeds, now);
    OutcomesAre(cfg, t.rows[k], record, Succeeds, now);
    PrunesExactly(after, olderThan, k);
  }

  /** A crash takes away the worker's tasks, and no other, so that it may claim again; the queue stays as it is. */
  lemma CrashFrees(cfg: Config, w: World, worker: nat, t: nat)
    requires Valid(w.table)
    ensures var down := After(cfg, w, Crash(worker));
            Enabled(down, Claim(worker)) && down.table == w.table
            && (t in down.tasks <==> t in w.tasks && w.tasks[t].worker != worker)
            && (t in down.tasks ==> down.tasks[t] == w.tasks[t])
  {
  }
}
