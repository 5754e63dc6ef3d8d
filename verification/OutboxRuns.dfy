/**
 * Any number of workers over one outbox: every interleaving of claims, handler calls, settlements, crashes,
 * requeues, pruning and the passing of time. `_update` does not ask who holds the lease, so a slow worker can settle
 * a record that another worker has reclaimed; the steps below let it.
 */
module OutboxRuns {
  import opened Text
  import opened Outbox
  import opened OutboxWorker

  /** A claimed record in a worker's hands; `running` once its handler has been called. */
  datatype Task = Task(worker: nat, record: Record, running: bool)

  /** Ghost accounts of one key: inserts and requeues, handler calls, and the backoff since the last grant. */
  datatype Account = Account(grants: nat, calls: nat, waited: Time)

  /** `tasks` is keyed by ticket, a number that counts claimed records. */
  datatype World = World(now: Time, table: Table, tasks: map<nat, Task>, next: nat, book: map<string, Account>)

  datatype Event =
    | Tick(to: Time)
    | Submit(effect: Effect)
    | Claim(worker: nat)
    | Begin(ticket: nat)
    | Finish(ticket: nat, outcome: Outcome)
    | Crash(worker: nat)
    | Requeue(key: string)
    | Prune(olderThan: Time)

  function Start(now: Time): World {
    World(now, Table([], map[]), map[], 0, map[])
  }

  function AccountOf(w: World, key: string): Account {
    if key in w.book then w.book[key] else Account(0, 0, 0.0)
  }

  function Booked(w: World, key: string, account: Account): World {
    w.(book := w.book[key := account])
  }

  function Granted(a: Account): Account {
    Account(a.grants + 1, a.calls, 0.0)
  }

  /** A worker claims only when its previous batch is finished, and works through the batch in claim order. */
  predicate Enabled(w: World, e: Event) {
    match e
    case Tick(to) => w.now <= to
    case Claim(worker) => forall t :: t in w.tasks ==> w.tasks[t].worker != worker
    case Begin(ticket) =>
      && ticket in w.tasks
      && !w.tasks[ticket].running
      && forall t :: t in w.tasks && w.tasks[t].worker == w.tasks[ticket].worker ==> ticket <= t
    case Finish(ticket, _) => ticket in w.tasks && w.tasks[ticket].running
    case _ => true
  }

  function Dropped(tasks: map<nat, Task>, worker: nat): map<nat, Task> {
    map t | t in tasks && tasks[t].worker != worker :: tasks[t]
  }

  /** The worker settles its task; a missing key raises KeyError, which ends its whole batch. */
  function Settled(cfg: Config, w: World, ticket: nat, outcome: Outcome): World
    requires ticket in w.tasks
  {
    var record := w.tasks[ticket].record;
    var key := record.effect.key;
    if key !in w.table.rows then w.(tasks := Dropped(w.tasks, w.tasks[ticket].worker))
    else
      var row := ProcessedRow(cfg, w.table.rows[key], record, outcome, w.now);
      var settled := w.(table := Updated(w.table, key, row), tasks := w.tasks - {ticket});
      if row.status == Queued then
        var a := AccountOf(w, key);
        Booked(settled, key, a.(waited := a.waited + cfg.backoff(record.attempts)))
      else settled
  }

  predicate WillCall(cfg: Config, record: Record) {
    record.attempts <= cfg.maxAttempts && record.effect.kind in cfg.handlers
  }

  function NewTasks(next: nat, worker: nat, records: seq<Record>): (r: map<nat, Task>)
    ensures forall t :: t in r <==> next <= t < next + |records|
    ensures forall t :: t in r ==> r[t] == Task(worker, records[t - next], false)
  {
    if records == [] then map[]
    else
      var n := |records| - 1;
      NewTasks(next, worker, records[..n])[next + n := Task(worker, records[n], false)]
  }

  function After(cfg: Config, w: World, e: Event): World
    requires Valid(w.table) && Enabled(w, e)
  {
    match e
    case Tick(to) => w.(now := to)
    case Submit(effect) =>
      if effect.key in w.table.rows then w
      else Booked(w.(table := Enqueued(w.table, effect, w.now)), effect.key, Granted(AccountOf(w, effect.key)))
    case Claim(worker) =>
      var records := RoundRecords(cfg, w.table, w.now);
      w.(table := Claimed(w.table, w.now, cfg.batchSize, cfg.lease),
         tasks := w.tasks + NewTasks(w.next, worker, records),
         next := w.next + |records|)
    case Begin(ticket) =>
      var task := w.tasks[ticket];
      if WillCall(cfg, task.record) then
        var a := AccountOf(w, task.record.effect.key);
        Booked(w.(tasks := w.tasks[ticket := task.(running := true)]), task.record.effect.key, a.(calls := a.calls + 1))
      else Settled(cfg, w, ticket, Succeeds)
    case Finish(ticket, outcome) => Settled(cfg, w, ticket, outcome)
    case Crash(worker) => w.(tasks := Dropped(w.tasks, worker))
    case Requeue(key) =>
      if key in w.table.rows && w.table.rows[key].status == Dead
      then Booked(w.(table := Requeued(w.table, key, w.now)), key, Granted(AccountOf(w, key)))
      else w
    case Prune(olderThan) => w.(table := Pruned(w.table, olderThan))
  }

  lemma SettledValid(cfg: Config, w: World, ticket: nat, outcome: Outcome)
    requires Valid(w.table) && ticket in w.tasks
    ensures Valid(Settled(cfg, w, ticket, outcome).table)
  {
    var key := w.tasks[ticket].record.effect.key;
    if key in w.table.rows {
      UpdatedValid(w.table, key, ProcessedRow(cfg, w.table.rows[key], w.tasks[ticket].record, outcome, w.now));
    }
  }

  lemma AfterValid(cfg: Config, w: World, e: Event)
    requires Valid(w.table) && Enabled(w, e)
    ensures Valid(After(cfg, w, e).table)
  {
    match e
    case Submit(effect) => EnqueuedValid(w.table, effect, w.now);
    case Claim(_) => ClaimedValid(w.table, w.now, cfg.batchSize, cfg.lease);
    case Begin(ticket) => SettledValid(cfg, w, ticket, Succeeds);
    case Finish(ticket, outcome) => SettledValid(cfg, w, ticket, outcome);
    case Requeue(key) => RequeuedValid(w.table, key, w.now);
    case Prune(olderThan) => PrunedValid(w.table, olderThan);
    case _ =>
  }

  ghost predicate Legal(cfg: Config, w: World, es: seq<Event>)
    requires Valid(w.table)
    decreases |es|
  {
    es != [] ==> Enabled(w, es[0]) && (AfterValid(cfg, w, es[0]); Legal(cfg, After(cfg, w, es[0]), es[1..]))
  }

  /** The world after a legal schedule. In particular IN_PROGRESS still holds exactly when `lockedUntil` is set. */
  ghost function Run(cfg: Config, w: World, es: seq<Event>): (r: World)
    requires Valid(w.table) && Legal(cfg, w, es)
    ensures Valid(r.table)
    decreases |es|
  {
    if es == [] then w
    else
      AfterValid(cfg, w, es[0]);
      Run(cfg, After(cfg, w, es[0]), es[1..])
  }

  // ----- handler calls are bounded by grants, in every run -----

  /** maxAttempts for each grant. */
  function Allowance(cfg: Config, grants: nat): nat {
    if grants == 0 then 0 else Allowance(cfg, grants - 1) + cfg.maxAttempts
  }

  function Min(a: nat, b: nat): nat { if a <= b then a else b }

  /** How many handler calls the grants of `key` can have paid for by now. */
  function Budget(cfg: Config, w: World, key: string): nat {
    var grants := AccountOf(w, key).grants;
    if key in w.table.rows && grants > 0 then Allowance(cfg, grants - 1)
        + Min(w.table.rows[key].attempts, cfg.maxAttempts)
    else Allowance(cfg, grants)
  }

  /** Tickets of `key` that may still lead to a handler call. */
  function Open(cfg: Config, w: World, key: string): set<nat> {
    set t | t in w.tasks && w.tasks[t].record.effect.key == key && !w.tasks[t].running
        && w.tasks[t].record.attempts <= cfg.maxAttempts
  }

  ghost predicate WithinBudget(cfg: Config, w: World, key: string) {
    && AccountOf(w, key).calls + |Open(cfg, w, key)| <= Budget(cfg, w, key)
    && (key in w.table.rows ==> AccountOf(w, key).grants > 0)
  }

  ghost predicate TicketsBelow(w: World) {
    forall t :: t in w.tasks ==> t < w.next
  }

  ghost predicate Holds(records: seq<Record>, key: string) {
    exists i :: 0 <= i < |records| && records[i].effect.key == key
  }

  ghost predicate DistinctKeys(records: seq<Record>) {
    forall i, j :: 0 <= i < j < |records| ==> records[i].effect.key != records[j].effect.key
  }

  /** The records of a claim, seen one by one: due rows, newly leased, each key once. */
  ghost predicate Leases(cfg: Config, t: Table, now: Time, records: seq<Record>) {
    && DistinctKeys(records)
    && forall i :: 0 <= i < |records| ==>
         && records[i].effect.key in t.rows
         && IsDue(t.rows[records[i].effect.key], now)
         && records[i] == Leased(t.rows[records[i].effect.key], now, cfg.lease)
  }

  lemma {:induction false} RoundLeases(cfg: Config, t: Table, now: Time)
    requires Valid(t)
    ensures Leases(cfg, t, now, RoundRecords(cfg, t, now))
  {
    var keys := ClaimKeys(t, now, cfg.batchSize);
    LeasedKeys(t, keys, now, cfg.lease);
    forall i | 0 <= i < |keys| ensures keys[i] in t.rows && IsDue(t.rows[keys[i]], now) {
      assert keys[i] in keys;
    }
  }

  lemma {:induction false} ClaimedRow(cfg: Config, t: Table, now: Time, k: string)
    requires Valid(t)
    ensures k in Claimed(t, now, cfg.batchSize, cfg.lease).rows <==> k in t.rows
    ensures k in t.rows ==>
              Claimed(t, now, cfg.batchSize, cfg.lease).rows[k] == if Holds(RoundRecords(cfg, t, now), k) then
                  Leased(t.rows[k], now, cfg.lease) else t.rows[k]
  {
    var keys := ClaimKeys(t, now, cfg.batchSize);
    var records := RoundRecords(cfg, t, now);
    LeasedKeys(t, keys, now, cfg.lease);
    if k in keys {
      var i :| 0 <= i < |keys| && keys[i] == k;
      assert records[i].effect.key == k;
    }
    if Holds(records, k) {
      var i :| 0 <= i < |records| && records[i].effect.key == k;
      assert keys[i] == k;
    }
  }

  lemma OneMore(a: set<nat>, b: set<nat>, x: nat)
    requires a <= b + {x}
    ensures |a| <= |b| + 1
  {
    SubsetSize(a, b + {x});
  }

  lemma SameKeySameIndex(records: seq<Record>, i: nat, j: nat)
    requires DistinctKeys(records) && i < |records| && j < |records| && records[i].effect.key == records[j].effect.key
    ensures i == j
  {
  }

  lemma OpenedByClaim(cfg: Config, w: World, w': World, worker: nat, records: seq<Record>, key: string, i: nat, t: nat)
    requires DistinctKeys(records)
    requires w'.tasks == w.tasks + NewTasks(w.next, worker, records)
    requires i < |records| && records[i].effect.key == key
    requires t in Open(cfg, w', key) && t !in Open(cfg, w, key)
    ensures t == w.next + i && records[i].attempts <= cfg.maxAttempts
  {
    var added := NewTasks(w.next, worker, records);
    assert t in w'.tasks && w'.tasks[t].record.effect.key == key;
    assert t in added;
    SameKeySameIndex(records, i, t - w.next);
  }

  lemma {:induction false} ClaimOpens(cfg: Config, w: World, w': World, worker: nat, records: seq<Record>, key: string,
                                      i: nat)
    requires DistinctKeys(records)
    requires w'.tasks == w.tasks + NewTasks(w.next, worker, records)
    requires i < |records| && records[i].effect.key == key
    ensures forall t :: t in Open(cfg, w', key) ==>
              t in Open(cfg, w, key) || (t == w.next + i && records[i].attempts <= cfg.maxAttempts)
  {
    forall t | t in Open(cfg, w', key) && t !in Open(cfg, w, key)
      ensures t == w.next + i && records[i].attempts <= cfg.maxAttempts
    {
      OpenedByClaim(cfg, w, w', worker, records, key, i, t);
    }
  }

  lemma {:induction false} ClaimSkips(cfg: Config, w: World, w': World, worker: nat, records: seq<Record>, key: string)
    requires TicketsBelow(w) && !Holds(records, key)
    requires w'.tasks == w.tasks + NewTasks(w.next, worker, records)
    ensures Open(cfg, w', key) <= Open(cfg, w, key)
  {
    var added := NewTasks(w.next, worker, records);
    forall t | t in added ensures added[t].record.effect.key != key {
      assert records[t - w.next].effect.key != key;
    }
  }

  lemma LeaseWithinBudget(cfg: Config, w: World, w': World, key: string)
    requires WithinBudget(cfg, w, key) && w'.book == w.book
    requires key in w.table.rows && key in w'.table.rows && w'.table.rows[key].attempts ==
             w.table.rows[key].attempts + 1
    requires |Open(cfg, w', key)| <= |Open(cfg, w, key)| + if w.table.rows[key].attempts < cfg.maxAttempts then 1 else 0
    ensures WithinBudget(cfg, w', key)
  {}

  lemma {:induction false} ClaimHeld(cfg: Config, w: World, w': World, worker: nat, records: seq<Record>, key: string,
                                     i: nat)
    requires TicketsBelow(w) && WithinBudget(cfg, w, key) && DistinctKeys(records)
    requires w'.tasks == w.tasks + NewTasks(w.next, worker, records) && w'.book == w.book
    requires i < |records| && records[i].effect.key == key
    requires key in w.table.rows && key in w'.table.rows
    requires records[i].attempts == w'.table.rows[key].attempts == w.table.rows[key].attempts + 1
    ensures WithinBudget(cfg, w', key)
  {
    ClaimOpens(cfg, w, w', worker, records, key, i);
    OneMore(Open(cfg, w', key), Open(cfg, w, key), w.next + i);
    if records[i].attempts > cfg.maxAttempts { SubsetSize(Open(cfg, w', key), Open(cfg, w, key)); }
    LeaseWithinBudget(cfg, w, w', key);
  }

  lemma {:induction false} ClaimNotHeld(cfg: Config, w: World, w': World, worker: nat, records: seq<Record>,
                                        key: string)
    requires TicketsBelow(w) && WithinBudget(cfg, w, key) && !Holds(records, key)
    requires w'.tasks == w.tasks + NewTasks(w.next, worker, records) && w'.book == w.book
    requires key in w'.table.rows <==> key in w.table.rows
    requires key in w.table.rows ==> w'.table.rows[key] == w.table.rows[key]
    ensures WithinBudget(cfg, w', key)
  {
    ClaimSkips(cfg, w, w', worker, records, key);
    SubsetSize(Open(cfg, w', key), Open(cfg, w, key));
  }

  lemma {:induction false} ClaimWithinBudget(cfg: Config, w: World, w': World, worker: nat, key: string,
                                             records: seq<Record>)
    requires Valid(w.table) && TicketsBelow(w) && WithinBudget(cfg, w, key)
    requires records == RoundRecords(cfg, w.table, w.now)
    requires w'.table == Claimed(w.table, w.now, cfg.batchSize, cfg.lease) && w'.book == w.book
    requires w'.tasks == w.tasks + NewTasks(w.next, worker, records)
    ensures WithinBudget(cfg, w', key)
  {
    RoundLeases(cfg, w.table, w.now);
    ClaimedRow(cfg, w.table, w.now, key);
    if Holds(records, key) {
      var i :| 0 <= i < |records| && records[i].effect.key == key;
      ClaimHeld(cfg, w, w', worker, records, key, i);
    } else {
      ClaimNotHeld(cfg, w, w', worker, records, key);
    }
  }

  lemma {:induction false} FewerTasks(cfg: Config, w: World, w': World, key: string)
    requires WithinBudget(cfg, w, key)
    requires forall t :: t in w'.tasks ==> t in w.tasks && w'.tasks[t] == w.tasks[t]
    requires AccountOf(w', key).grants == AccountOf(w, key).grants
             && AccountOf(w', key).calls == AccountOf(w, key).calls
    requires key in w'.table.rows <==> key in w.table.rows
    requires key in w.table.rows ==> w'.table.rows[key].attempts == w.table.rows[key].attempts
    ensures WithinBudget(cfg, w', key)
  {
    SubsetSize(Open(cfg, w', key), Open(cfg, w, key));
  }

  lemma {:induction false} BeginWithinBudget(cfg: Config, w: World, ticket: nat, key: string)
    requires Valid(w.table) && Enabled(w, Begin(ticket)) && WithinBudget(cfg, w, key)
    ensures WithinBudget(cfg, After(cfg, w, Begin(ticket)), key)
  {
    var w' := After(cfg, w, Begin(ticket));
    var record := w.tasks[ticket].record;
    if !WillCall(cfg, record) {
      FewerTasks(cfg, w, w', key);
    } else {
      BeginCloses(cfg, w, ticket, key);
    }
  }

  lemma BeginCloses(cfg: Config, w: World, ticket: nat, key: string)
    requires Valid(w.table) && Enabled(w, Begin(ticket)) && WillCall(cfg, w.tasks[ticket].record)
    ensures Open(cfg, After(cfg, w, Begin(ticket)), key)
         == if w.tasks[ticket].record.effect.key == key then Open(cfg, w, key) - {ticket} else Open(cfg, w, key)
    ensures w.tasks[ticket].record.effect.key == key ==> ticket in Open(cfg, w, key)
  {}

  lemma GrantWithinBudget(cfg: Config, w: World, w': World, key: string)
    requires WithinBudget(cfg, w, key)
    requires w'.tasks == w.tasks && AccountOf(w', key) == Granted(AccountOf(w, key))
    requires key in w'.table.rows && w'.table.rows[key].attempts == 0
    ensures WithinBudget(cfg, w', key)
  {
    assert Open(cfg, w', key) == Open(cfg, w, key);
  }

  lemma SubmitWithinBudget(cfg: Config, w: World, effect: Effect, key: string)
    requires Valid(w.table) && WithinBudget(cfg, w, key)
    ensures WithinBudget(cfg, After(cfg, w, Submit(effect)), key)
  {
    var w' := After(cfg, w, Submit(effect));
    if effect.key == key && key !in w.table.rows { GrantWithinBudget(cfg, w, w', key); }
    else { FewerTasks(cfg, w, w', key); }
  }

  lemma RequeueWithinBudget(cfg: Config, w: World, k: string, key: string)
    requires Valid(w.table) && WithinBudget(cfg, w, key)
    ensures WithinBudget(cfg, After(cfg, w, Requeue(k)), key)
  {
    var w' := After(cfg, w, Requeue(k));
    if k == key && key in w.table.rows && w.table.rows[key].status == Dead { GrantWithinBudget(cfg, w, w', key); }
    else { FewerTasks(cfg, w, w', key); }
  }

  lemma PruneWithinBudget(cfg: Config, w: World, olderThan: Time, key: string)
    requires Valid(w.table) && WithinBudget(cfg, w, key)
    ensures WithinBudget(cfg, After(cfg, w, Prune(olderThan)), key)
  {
    assert Open(cfg, After(cfg, w, Prune(olderThan)), key) == Open(cfg, w, key);
  }

  lemma FinishWithinBudget(cfg: Config, w: World, ticket: nat, outcome: Outcome, key: string)
    requires Valid(w.table) && Enabled(w, Finish(ticket, outcome)) && WithinBudget(cfg, w, key)
    ensures WithinBudget(cfg, After(cfg, w, Finish(ticket, outcome)), key)
  {
    FewerTasks(cfg, w, After(cfg, w, Finish(ticket, outcome)), key);
  }

  lemma {:induction false} AfterWithinBudget(cfg: Config, w: World, e: Event, key: string)
    requires Valid(w.table) && TicketsBelow(w) && Enabled(w, e) && WithinBudget(cfg, w, key)
    ensures WithinBudget(cfg, After(cfg, w, e), key)
  {
    var w' := After(cfg, w, e);
    match e
    case Claim(worker) => ClaimWithinBudget(cfg, w, w', worker, key, RoundRecords(cfg, w.table, w.now));
    case Begin(ticket) => BeginWithinBudget(cfg, w, ticket, key);
    case Finish(ticket, outcome) => FinishWithinBudget(cfg, w, ticket, outcome, key);
    case Submit(effect) => SubmitWithinBudget(cfg, w, effect, key);
    case Requeue(k) => RequeueWithinBudget(cfg, w, k, key);
    case Prune(olderThan) => PruneWithinBudget(cfg, w, olderThan, key);
    case _ => FewerTasks(cfg, w, w', key);
  }

  lemma AfterTicketsBelow(cfg: Config, w: World, e: Event)
    requires Valid(w.table) && TicketsBelow(w) && Enabled(w, e)
    ensures TicketsBelow(After(cfg, w, e))
  {}

  lemma {:induction false} AllowanceIsProduct(cfg: Config, grants: nat)
    ensures Allowance(cfg, grants) == cfg.maxAttempts * grants
  {
    if grants == 0 {
    } else {
      AllowanceIsProduct(cfg, grants - 1);
      assert cfg.maxAttempts * (grants - 1) + cfg.maxAttempts == cfg.maxAttempts * grants;
    }
  }

  lemma {:induction false} RunWithinBudget(cfg: Config, w: World, es: seq<Event>, key: string)
    requires Valid(w.table) && TicketsBelow(w) && Legal(cfg, w, es) && WithinBudget(cfg, w, key)
    ensures WithinBudget(cfg, Run(cfg, w, es), key)
    decreases |es|
  {
    if es == [] {
    } else {
      AfterValid(cfg, w, es[0]);
      AfterWithinBudget(cfg, w, es[0], key);
      AfterTicketsBelow(cfg, w, es[0]);
      RunWithinBudget(cfg, After(cfg, w, es[0]), es[1..], key);
    }
  }

  /**
   * Every interleaving, with crashes, expired leases and late settles: the handler calls for a key number at most
   * `maxAttempts` times its inserts plus requeues.
   */
  lemma {:induction false} CallsBounded(cfg: Config, now: Time, es: seq<Event>, key: string)
    requires Legal(cfg, Start(now), es)
    ensures AccountOf(Run(cfg, Start(now), es), key).calls <= cfg.maxAttempts * AccountOf(Run(cfg, Start(now), es),
            key).grants
  {
    assert Open(cfg, Start(now), key) == {};
    RunWithinBudget(cfg, Start(now), es, key);
    var w := Run(cfg, Start(now), es);
    AllowanceIsProduct(cfg, AccountOf(w, key).grants);
  }
}
