/** The delivery worker over the outbox (course_discovery/effects/worker.py). */
module OutboxWorker {
  import opened Text
  import opened Outbox

  /** What calling an effect's handler may do; the exceptions of the original are values here. */
  datatype Outcome = Succeeds | FailsTransiently(error: Failure) | FailsPermanently(error: Failure)

  datatype Config = Config(maxAttempts: nat, lease: Time, batchSize: nat, handlers: set<string>, backoff: nat -> Time)

  datatype Stats = Stats(delivered: nat, retried: nat, dead: nat)

  // ----- backoff -----

  function Pow2(n: nat): (r: real)
    ensures r >= 1.0
  {
    if n == 0 then 1.0 else 2.0 * Pow2(n - 1)
  }

  function ExponentialBackoff(base: Time, cap: Time): nat -> Time {
    (attempts: nat) => var delay := base * Pow2(if attempts == 0 then 0 else attempts - 1); if cap <= delay then cap
        else delay
  }

  /** The delays after attempts 1..n. */
  function SumDelay(backoff: nat -> Time, n: nat): Time {
    if n == 0 then 0.0 else SumDelay(backoff, n - 1) + backoff(n)
  }

  /** base * 2^n, by doubling. */
  function Doubled(base: Time, n: nat): Time {
    if n == 0 then base else 2.0 * Doubled(base, n - 1)
  }

  lemma {:induction false} DoubledIs(base: Time, n: nat)
    ensures Doubled(base, n) == base * Pow2(n)
  {
    if n == 0 {
    } else {
      DoubledIs(base, n - 1);
      TwiceProduct(base, Pow2(n - 1));
    }
  }

  lemma TwiceProduct(x: real, y: real)
    ensures x * (2.0 * y) == 2.0 * (x * y)
  {}

  lemma MinusOne(x: real, y: real)
    ensures x * (y - 1.0) == x * y - x
  {}

  /** n * cap, by adding. */
  function Repeated(cap: Time, n: nat): Time {
    if n == 0 then 0.0 else Repeated(cap, n - 1) + cap
  }

  lemma {:induction false} RepeatedIs(cap: Time, n: nat)
    ensures Repeated(cap, n) == n as real * cap
  {
    if n == 0 {
    } else {
      RepeatedIs(cap, n - 1);
      OneMoreTime(n, cap);
    }
  }

  lemma OneMoreTime(n: nat, cap: Time)
    requires n > 0
    ensures (n - 1) as real * cap + cap == n as real * cap
  {
    assert (n - 1) as real == n as real - 1.0;
  }

  lemma DelayAtMost(backoff: nat -> Time, base: Time, cap: Time, n: nat)
    requires backoff == ExponentialBackoff(base, cap) && n > 0
    ensures backoff(n) <= Doubled(base, n - 1) && backoff(n) <= cap
  {
    DoubledIs(base, n - 1);
  }

  lemma {:induction false} SumsAtMost(backoff: nat -> Time, base: Time, cap: Time, n: nat)
    requires backoff == ExponentialBackoff(base, cap)
    ensures SumDelay(backoff, n) <= Doubled(base, n) - base && SumDelay(backoff, n) <= Repeated(cap, n)
  {
    if n == 0 {
    } else {
      SumsAtMost(backoff, base, cap, n - 1);
      DelayAtMost(backoff, base, cap, n);
    }
  }

  /** n delays sum to at most base * (2^n - 1), and to at most n * cap. */
  lemma BackoffBound(backoff: nat -> Time, base: Time, cap: Time, n: nat)
    requires backoff == ExponentialBackoff(base, cap)
    ensures SumDelay(backoff, n) <= base * (Pow2(n) - 1.0)
    ensures SumDelay(backoff, n) <= n as real * cap
  {
    SumsAtMost(backoff, base, cap, n);
    DoubledIs(base, n);
    MinusOne(base, Pow2(n));
    RepeatedIs(cap, n);
  }

  // ----- one record -----

  /** `record.last_error or "lease expired after final attempt"`; an empty text is falsy. */
  function LastError(record: Record): Failure {
    if record.lastError.None? || record.lastError == Some(Raised("")) then LeaseExpired else record.lastError.value
  }

  /** The row that `_process` leaves for a claimed record whose current row is `row`. */
  function ProcessedRow(cfg: Config, row: Record, record: Record, outcome: Outcome, now: Time): (r: Record)
    ensures r.effect == row.effect && r.attempts == row.attempts && r.createdAt == row.createdAt
    ensures r.status != InProgress && r.lockedUntil.None?
  {
    if record.attempts > cfg.maxAttempts then
      AsDead(row, LastError(record))
    else if record.effect.kind !in cfg.handlers then
      AsDead(row, NoHandler(record.effect.kind))
    else
      match outcome
      case Succeeds => AsDelivered(row, now)
      case FailsPermanently(error) => AsDead(row, error)
      case FailsTransiently(error) =>
        if record.attempts >= cfg.maxAttempts then AsDead(row, error)
        else AsReleased(row, error, now + cfg.backoff(record.attempts))
  }

  function Tally(stats: Stats, row: Record): Stats {
    match row.status
    case Delivered => stats.(delivered := stats.delivered + 1)
    case Dead => stats.(dead := stats.dead + 1)
    case _ => stats.(retried := stats.retried + 1)
  }

  predicate KeysPresent(records: seq<Record>, t: Table) {
    forall i :: 0 <= i < |records| ==> records[i].effect.key in t.rows
  }

  /** The table after one record was processed. */
  function ProcessedOne(cfg: Config, t: Table, record: Record, outcome: Outcome, now: Time): (r: Table)
    requires record.effect.key in t.rows
    ensures r.order == t.order && r.rows.Keys == t.rows.Keys
  {
    Updated(t, record.effect.key, ProcessedRow(cfg, t.rows[record.effect.key], record, outcome, now))
  }

  /** The table after the first `n` claimed records have been processed, one after another. */
  function ProcessedTable(cfg: Config, t: Table, records: seq<Record>, behave: nat -> Outcome, clock: nat -> Time,
                          n: nat): (r: Table)
    requires n <= |records| && KeysPresent(records, t)
    ensures r.order == t.order && r.rows.Keys == t.rows.Keys
  {
    if n == 0 then t
    else
      var before := ProcessedTable(cfg, t, records, behave, clock, n - 1);
      ProcessedOne(cfg, before, records[n - 1], behave(n - 1), clock(n))
  }

  function RoundStats(cfg: Config, t: Table, records: seq<Record>, behave: nat -> Outcome, clock: nat -> Time,
                      n: nat): Stats
    requires n <= |records| && KeysPresent(records, t)
  {
    if n == 0 then Stats(0, 0, 0)
    else Tally(RoundStats(cfg, t, records, behave, clock, n - 1),
               ProcessedTable(cfg, t, records, behave, clock, n).rows[records[n - 1].effect.key])
  }

  lemma LeasedKeys(t: Table, keys: seq<string>, now: Time, lease: Time)
    requires Valid(t) && forall k :: k in keys ==> k in t.rows
    ensures forall i :: 0 <= i < |keys| ==> LeasedRecords(t, keys, now, lease)[i].effect.key == keys[i]
    ensures forall i :: 0 <= i < |keys| ==> LeasedRecords(t, keys, now, lease)[i].effect.key in t.rows
  {
    forall i | 0 <= i < |keys| ensures LeasedRecords(t, keys, now, lease)[i].effect.key == keys[i]
        && keys[i] in t.rows {
      assert keys[i] in keys;
    }
  }

  function RoundRecords(cfg: Config, t: Table, now: Time): (r: seq<Record>)
    requires Valid(t)
    ensures forall i :: 0 <= i < |r| ==> r[i].effect.key in t.rows
  {
    LeasedKeys(t, ClaimKeys(t, now, cfg.batchSize), now, cfg.lease);
    LeasedRecords(t, ClaimKeys(t, now, cfg.batchSize), now, cfg.lease)
  }

  /** The table that one `run_once` leaves when nothing else touches the store. */
  function Round(cfg: Config, t: Table, behave: nat -> Outcome, clock: nat -> Time): (r: Table)
    requires Valid(t)
  {
    var records := RoundRecords(cfg, t, clock(0));
    ProcessedTable(cfg, Claimed(t, clock(0), cfg.batchSize, cfg.lease), records, behave, clock, |records|)
  }

  lemma ProcessedOneValid(cfg: Config, t: Table, record: Record, outcome: Outcome, now: Time)
    requires Valid(t) && record.effect.key in t.rows
    ensures Valid(ProcessedOne(cfg, t, record, outcome, now))
  {
    UpdatedValid(t, record.effect.key, ProcessedRow(cfg, t.rows[record.effect.key], record, outcome, now));
  }

  lemma {:induction false} ProcessedValid(cfg: Config, t: Table, records: seq<Record>, behave: nat -> Outcome,
                                          clock: nat -> Time, n: nat)
    requires Valid(t) && n <= |records| && KeysPresent(records, t)
    ensures Valid(ProcessedTable(cfg, t, records, behave, clock, n))
    decreases n
  {
    if n == 0 {
    } else {
      ProcessedValid(cfg, t, records, behave, clock, n - 1);
      var before := ProcessedTable(cfg, t, records, behave, clock, n - 1);
      ProcessedOneValid(cfg, before, records[n - 1], behave(n - 1), clock(n));
    }
  }

  lemma RoundValid(cfg: Config, t: Table, behave: nat -> Outcome, clock: nat -> Time)
    requires Valid(t)
    ensures Valid(Round(cfg, t, behave, clock))
    ensures Round(cfg, t, behave, clock).order == t.order && Round(cfg, t, behave, clock).rows.Keys == t.rows.Keys
  {
    ClaimedValid(t, clock(0), cfg.batchSize, cfg.lease);
    var records := RoundRecords(cfg, t, clock(0));
    ProcessedValid(cfg, Claimed(t, clock(0), cfg.batchSize, cfg.lease), records, behave, clock, |records|);
  }

  class Worker {
    const store: InMemoryOutboxStore
    const cfg: Config

    constructor (store: InMemoryOutboxStore, cfg: Config)
      ensures this.store == store && this.cfg == cfg
    {
      this.store, this.cfg := store, cfg;
    }

    /** `_process`. `outcome` is what the handler would do, `now` the clock reading after it. */
    method Process(record: Record, stats0: Stats, outcome: Outcome, now: Time) returns (stats: Stats)
      requires Valid(store.Contents()) && record.effect.key in store.rows
      modifies store
      ensures Valid(store.Contents())
      ensures store.Contents() == Updated(old(store.Contents()), record.effect.key,
                                          ProcessedRow(cfg, old(store.rows)[record.effect.key], record, outcome, now))
      ensures stats == Tally(stats0, store.rows[record.effect.key])
    {
      var key := record.effect.key;
      var ok;
      if record.attempts > cfg.maxAttempts {
        ok := store.MarkDead(key, LastError(record));
        return stats0.(dead := stats0.dead + 1);
      }
      if record.effect.kind !in cfg.handlers {
        ok := store.MarkDead(key, NoHandler(record.effect.kind));
        return stats0.(dead := stats0.dead + 1);
      }
      match outcome {
        case FailsPermanently(error) =>
          ok := store.MarkDead(key, error);
          stats := stats0.(dead := stats0.dead + 1);
        case FailsTransiently(error) =>
          if record.attempts >= cfg.maxAttempts {
            ok := store.MarkDead(key, error);
            stats := stats0.(dead := stats0.dead + 1);
          } else {
            ok := store.Release(key, error, now + cfg.backoff(record.attempts));
            stats := stats0.(retried := stats0.retried + 1);
          }
        case Succeeds =>
          ok := store.MarkDelivered(key, now);
          stats := stats0.(delivered := stats0.delivered + 1);
      }
    }

    /** `run_once`: `clock(0)` is read for the claim, `clock(i + 1)` after the handler of the i-th record. */
    method RunOnce(behave: nat -> Outcome, clock: nat -> Time) returns (stats: Stats)
      requires Valid(store.Contents())
      modifies store
      ensures Valid(store.Contents()) && store.Contents() == Round(cfg, old(store.Contents()), behave, clock)
      ensures var records := RoundRecords(cfg, old(store.Contents()), clock(0));
              stats == RoundStats(cfg, Claimed(old(store.Contents()), clock(0), cfg.batchSize, cfg.lease), records,
                  behave, clock, |records|)
    {
      ghost var before := store.Contents();
      stats := Stats(0, 0, 0);
      var claimed := store.Claim(clock(0), cfg.batchSize, cfg.lease);
      ghost var leased := store.Contents();
      LeasedKeys(before, ClaimKeys(before, clock(0), cfg.batchSize), clock(0), cfg.lease);
      for i := 0 to |claimed|
        invariant Valid(store.Contents())
        invariant store.Contents() == ProcessedTable(cfg, leased, claimed, behave, clock, i)
        invariant stats == RoundStats(cfg, leased, claimed, behave, clock, i)
      {
        stats := Process(claimed[i], stats, behave(i), clock(i + 1));
      }
    }
  }

  // ----- draining -----

  predicate IsLive(r: Record) {
    r.status == Queued || r.status == InProgress
  }

  function Weight(cfg: Config, r: Record): nat {
    if !IsLive(r) then 0
    else if r.attempts < cfg.maxAttempts then cfg.maxAttempts + 1 - r.attempts
    else 1
  }

  /** Sum over the records of `max_attempts + 1 - min(attempts, max_attempts)`, settled records counting 0. */
  function Potential(cfg: Config, keys: seq<string>, rows: map<string, Record>): nat
    requires forall k :: k in keys ==> k in rows
  {
    if keys == [] then 0 else Weight(cfg, rows[keys[0]]) + Potential(cfg, keys[1..], rows)
  }

  /** A claimed record's weight goes down, whatever its handler does. */
  lemma RowLighter(cfg: Config, row: Record, outcome: Outcome, claimAt: Time, now: Time)
    requires IsDue(row, claimAt)
    ensures var leased := Leased(row, claimAt, cfg.lease);
            Weight(cfg, ProcessedRow(cfg, leased, leased, outcome, now)) < Weight(cfg, row)
  {}

  lemma {:induction false} UnprocessedRow(cfg: Config, t: Table, records: seq<Record>, behave: nat -> Outcome,
                                          clock: nat -> Time, n: nat, k: string)
    requires n <= |records| && k in t.rows && KeysPresent(records, t)
    requires forall i :: 0 <= i < n ==> records[i].effect.key != k
    ensures ProcessedTable(cfg, t, records, behave, clock, n).rows[k] == t.rows[k]
    decreases n
  {
    if n == 0 {
    } else {
      UnprocessedRow(cfg, t, records, behave, clock, n - 1, k);
    }
  }

  lemma {:induction false} ProcessedAt(cfg: Config, t: Table, records: seq<Record>, behave: nat -> Outcome,
                                       clock: nat -> Time, n: nat, i: nat)
    requires i < n <= |records| && KeysPresent(records, t)
    requires forall j :: 0 <= j < |records| && j != i ==> records[j].effect.key != records[i].effect.key
    ensures ProcessedTable(cfg, t, records, behave, clock, n).rows[records[i].effect.key]
            == ProcessedRow(cfg, t.rows[records[i].effect.key], records[i], behave(i), clock(i + 1))
    decreases n
  {
    if i == n - 1 {
      UnprocessedRow(cfg, t, records, behave, clock, n - 1, records[i].effect.key);
    } else {
      ProcessedAt(cfg, t, records, behave, clock, n - 1, i);
    }
  }

  lemma RoundRecordsAre(cfg: Config, t: Table, now: Time)
    requires Valid(t)
    ensures var keys, records := ClaimKeys(t, now, cfg.batchSize), RoundRecords(cfg, t, now);
            |records| == |keys| && (forall i :: 0 <= i < |keys| ==> records[i].effect.key == keys[i])
            && KeysPresent(records, Claimed(t, now, cfg.batchSize, cfg.lease))
  {
    LeasedKeys(t, ClaimKeys(t, now, cfg.batchSize), now, cfg.lease);
  }

  lemma ClaimedRoundRow(cfg: Config, t: Table, behave: nat -> Outcome, clock: nat -> Time, i: nat)
    requires Valid(t) && i < |ClaimKeys(t, clock(0), cfg.batchSize)|
    ensures var k := ClaimKeys(t, clock(0), cfg.batchSize)[i];
            k in t.rows && k in Round(cfg, t, behave, clock).rows
            && Weight(cfg, Round(cfg, t, behave, clock).rows[k]) < Weight(cfg, t.rows[k])
  {
    var keys := ClaimKeys(t, clock(0), cfg.batchSize);
    var records := RoundRecords(cfg, t, clock(0));
    RoundRecordsAre(cfg, t, clock(0));
    assert keys[i] in keys;
    ProcessedAt(cfg, Claimed(t, clock(0), cfg.batchSize, cfg.lease), records, behave, clock, |records|, i);
    RowLighter(cfg, t.rows[keys[i]], behave(i), clock(0), clock(i + 1));
  }

  lemma UnclaimedRoundRow(cfg: Config, t: Table, behave: nat -> Outcome, clock: nat -> Time, k: string)
    requires Valid(t) && k in t.rows && k !in ClaimKeys(t, clock(0), cfg.batchSize)
    ensures k in Round(cfg, t, behave, clock).rows && Round(cfg, t, behave, clock).rows[k] == t.rows[k]
  {
    var keys := ClaimKeys(t, clock(0), cfg.batchSize);
    var records := RoundRecords(cfg, t, clock(0));
    RoundRecordsAre(cfg, t, clock(0));
    forall i | 0 <= i < |records| ensures records[i].effect.key != k { assert keys[i] in keys; }
    UnprocessedRow(cfg, Claimed(t, clock(0), cfg.batchSize, cfg.lease), records, behave, clock, |records|, k);
  }

  /** After a round, claimed rows are lighter and the others untouched. */
  lemma RoundRow(cfg: Config, t: Table, behave: nat -> Outcome, clock: nat -> Time, k: string)
    requires Valid(t) && k in t.rows
    ensures k in Round(cfg, t, behave, clock).rows
    ensures if k in ClaimKeys(t, clock(0), cfg.batchSize)
            then Weight(cfg, Round(cfg, t, behave, clock).rows[k]) < Weight(cfg, t.rows[k])
            else Round(cfg, t, behave, clock).rows[k] == t.rows[k]
  {
    var keys := ClaimKeys(t, clock(0), cfg.batchSize);
    if k in keys {
      var i :| 0 <= i < |keys| && keys[i] == k;
      ClaimedRoundRow(cfg, t, behave, clock, i);
    } else {
      UnclaimedRoundRow(cfg, t, behave, clock, k);
    }
  }

  lemma {:induction false} PotentialDrops(cfg: Config, keys: seq<string>, rows: map<string, Record>,
                                          rows': map<string, Record>, claimed: set<string>)
    requires NoDup(keys) && forall k :: k in keys ==> k in rows && k in rows'
    requires forall k :: k in keys ==> if k in claimed then Weight(cfg, rows'[k]) < Weight(cfg, rows[k])
             else rows'[k] == rows[k]
    requires claimed <= Elements(keys)
    ensures Potential(cfg, keys, rows') + |claimed| <= Potential(cfg, keys, rows)
  {
    if keys == [] {
      assert claimed == {};
    } else {
      assert keys == [keys[0]] + keys[1..];
      NoDupCons(keys[0], keys[1..]);
      PotentialDrops(cfg, keys[1..], rows, rows', claimed - {keys[0]});
    }
  }

  /** Every `run_once` lowers the potential by at least the number of records it claimed. */
  lemma {:induction false} RoundLowers(cfg: Config, t: Table, behave: nat -> Outcome, clock: nat -> Time)
    requires Valid(t)
    ensures Round(cfg, t, behave, clock).order == t.order && Valid(Round(cfg, t, behave, clock))
    ensures Potential(cfg, t.order, Round(cfg, t, behave, clock).rows) + |ClaimKeys(t, clock(0), cfg.batchSize)|
         <= Potential(cfg, t.order, t.rows)
  {
    var keys := ClaimKeys(t, clock(0), cfg.batchSize);
    RoundValid(cfg, t, behave, clock);
    forall k | k in t.order
      ensures k in Round(cfg, t, behave, clock).rows
      ensures if k in Elements(keys) then Weight(cfg, Round(cfg, t, behave, clock).rows[k]) < Weight(cfg, t.rows[k])
              else Round(cfg, t, behave, clock).rows[k] == t.rows[k]
    {
      RoundRow(cfg, t, behave, clock, k);
    }
    NoDupSize(keys);
    PotentialDrops(cfg, t.order, t.rows, Round(cfg, t, behave, clock).rows, Elements(keys));
  }

  datatype Turn = Turn(behave: nat -> Outcome, clock: nat -> Time)

  /** Consecutive rounds of one worker, with arbitrary handler behaviour. */
  ghost function Drained(cfg: Config, t: Table, turns: seq<Turn>): (r: Table)
    requires Valid(t)
    ensures Valid(r) && r.order == t.order
    decreases |turns|
  {
    if turns == [] then t
    else
      RoundValid(cfg, t, turns[0].behave, turns[0].clock);
      Drained(cfg, Round(cfg, t, turns[0].behave, turns[0].clock), turns[1..])
  }

  /** At each turn the clock has passed every retry time and lease of the records still live. */
  ghost predicate LateEnough(cfg: Config, t: Table, turns: seq<Turn>)
    requires Valid(t)
    decreases |turns|
  {
    turns != [] ==>
      && (forall k :: k in t.rows && IsLive(t.rows[k]) ==> IsDue(t.rows[k], turns[0].clock(0)))
      && (RoundValid(cfg, t, turns[0].behave, turns[0].clock);
          LateEnough(cfg, Round(cfg, t, turns[0].behave, turns[0].clock), turns[1..]))
  }

  lemma {:induction false} NoPotentialSettled(cfg: Config, keys: seq<string>, rows: map<string, Record>)
    requires (forall k :: k in keys ==> k in rows) && Potential(cfg, keys, rows) == 0
    ensures forall k :: k in keys ==> !IsLive(rows[k])
  {
    if keys == [] {
    } else {
      NoPotentialSettled(cfg, keys[1..], rows);
      assert keys == [keys[0]] + keys[1..];
    }
  }

  lemma {:induction false} SomePotentialLive(cfg: Config, keys: seq<string>, rows: map<string, Record>)
    returns (k: string)
    requires (forall k :: k in keys ==> k in rows) && Potential(cfg, keys, rows) > 0
    ensures k in keys && IsLive(rows[k])
  {
    if IsLive(rows[keys[0]]) { k := keys[0]; } else { k := SomePotentialLive(cfg, keys[1..], rows); }
  }

  lemma DueIsClaimed(t: Table, now: Time, limit: nat, k: string)
    requires Valid(t) && k in t.rows && IsDue(t.rows[k], now) && limit > 0
    ensures ClaimKeys(t, now, limit) != []
  {
    assert k in SortByTime(DueKeys(t.order, t.rows, now), t.rows);
  }

  /**
   * Draining terminates for every handler behaviour: after as many late-enough rounds as the initial potential,
   * every record is DELIVERED or DEAD.
   */
  lemma {:induction false} DrainSettles(cfg: Config, t: Table, turns: seq<Turn>)
    requires Valid(t) && cfg.batchSize > 0 && LateEnough(cfg, t, turns)
    requires |turns| >= Potential(cfg, t.order, t.rows)
    ensures forall k :: k in Drained(cfg, t, turns).rows ==>
              Drained(cfg, t, turns).rows[k].status == Delivered || Drained(cfg, t, turns).rows[k].status == Dead
    decreases |turns|
  {
    if turns == [] {
      NoPotentialSettled(cfg, t.order, t.rows);
    } else {
      var turn := turns[0];
      RoundLowers(cfg, t, turn.behave, turn.clock);
      if Potential(cfg, t.order, t.rows) > 0 {
        var k := SomePotentialLive(cfg, t.order, t.rows);
        DueIsClaimed(t, turn.clock(0), cfg.batchSize, k);
      }
      DrainSettles(cfg, Round(cfg, t, turn.behave, turn.clock), turns[1..]);
    }
  }
}
