/** Effect records and the in-memory outbox (course_discovery/effects/models.py and memory_store.py). */
module Outbox {
  import opened Text

  type Time = real

  datatype Status = Queued | InProgress | Delivered | Dead

  datatype Effect = Effect(key: string, kind: string, payload: string)

  /** The text kept in `last_error`: the worker's two own messages, or what an exception said. */
  datatype Failure = LeaseExpired | NoHandler(kind: string) | Raised(text: string)

  datatype Record = Record(
    effect: Effect,
    status: Status,
    attempts: nat,
    nextAttemptAt: Time,
    lockedUntil: Option<Time>,
    lastError: Option<Failure>,
    deliveredAt: Option<Time>,
    createdAt: Option<Time>)

  /** A Python dictionary of records: the rows and the insertion order of their keys. */
  datatype Table = Table(order: seq<string>, rows: map<string, Record>)

  ghost predicate ValidRow(key: string, r: Record) {
    r.effect.key == key && (r.status == InProgress <==> r.lockedUntil.Some?)
  }

  ghost predicate Valid(t: Table) {
    && NoDup(t.order)
    && (forall k :: k in t.order <==> k in t.rows)
    && (forall k :: k in t.rows ==> ValidRow(k, t.rows[k]))
  }

  // ----- one record at a time -----

  function NewRecord(effect: Effect, now: Time): Record {
    Record(effect, Queued, 0, now, None, None, None, Some(now))
  }

  predicate IsDue(r: Record, now: Time) {
    || (r.status == Queued && r.nextAttemptAt <= now)
    || (r.status == InProgress && r.lockedUntil.Some? && r.lockedUntil.value <= now)
  }

  function Leased(r: Record, now: Time, lease: Time): Record {
    r.(status := InProgress, attempts := r.attempts + 1, lockedUntil := Some(now + lease))
  }

  function AsDelivered(r: Record, now: Time): Record {
    r.(status := Delivered, lockedUntil := None, lastError := None, deliveredAt := Some(now))
  }

  function AsReleased(r: Record, error: Failure, retryAt: Time): Record {
    r.(status := Queued, lockedUntil := None, lastError := Some(error), nextAttemptAt := retryAt)
  }

  function AsDead(r: Record, error: Failure): Record {
    r.(status := Dead, lockedUntil := None, lastError := Some(error))
  }

  function AsRequeued(r: Record, now: Time): Record {
    r.(status := Queued, attempts := 0, nextAttemptAt := now)
  }

  predicate IsStale(r: Record, olderThan: Time) {
    r.status == Delivered && r.deliveredAt.Some? && r.deliveredAt.value < olderThan
  }

  // ----- what each operation does to the table -----

  function Enqueued(t: Table, effect: Effect, now: Time): Table {
    if effect.key in t.rows then t
    else Table(t.order + [effect.key], t.rows[effect.key := NewRecord(effect, now)])
  }

  function Updated(t: Table, key: string, r: Record): Table
    requires key in t.rows
  {
    t.(rows := t.rows[key := r])
  }

  function Requeued(t: Table, key: string, now: Time): Table {
    if key in t.rows && t.rows[key].status == Dead then Updated(t, key, AsRequeued(t.rows[key], now)) else t
  }

  function Pruned(t: Table, olderThan: Time): Table {
    var rows := map k | k in t.rows && !IsStale(t.rows[k], olderThan) :: t.rows[k];
    Table(KeysIn(t.order, rows), rows)
  }

  function KeysIn(keys: seq<string>, rows: map<string, Record>): (r: seq<string>)
    ensures forall k :: k in r <==> k in keys && k in rows
    ensures NoDup(keys) ==> NoDup(r)
  {
    if keys == [] then []
    else
      NoDupCons(keys[0], keys[1..]);
      assert keys == [keys[0]] + keys[1..];
      var rest := KeysIn(keys[1..], rows);
      NoDupCons(keys[0], rest);
      if keys[0] in rows then [keys[0]] + rest else rest
  }

  function DueKeys(keys: seq<string>, rows: map<string, Record>, now: Time): (r: seq<string>)
    requires forall k :: k in keys ==> k in rows
    ensures forall k :: k in r <==> k in keys && IsDue(rows[k], now)
    ensures NoDup(keys) ==> NoDup(r)
  {
    if keys == [] then []
    else
      NoDupCons(keys[0], keys[1..]);
      assert keys == [keys[0]] + keys[1..];
      var rest := DueKeys(keys[1..], rows, now);
      NoDupCons(keys[0], rest);
      if IsDue(rows[keys[0]], now) then [keys[0]] + rest else rest
  }

  /**
   * Insertion into a list sorted by `nextAttemptAt`, in front of equal times: the step of a stable sort from the right.
   */
  function Insert(k: string, sorted: seq<string>, rows: map<string, Record>): (r: seq<string>)
    requires k in rows && forall j :: j in sorted ==> j in rows
    ensures forall j :: j in r <==> j == k || j in sorted
    ensures |r| == |sorted| + 1
    ensures k !in sorted && NoDup(sorted) ==> NoDup(r)
  {
    NoDupCons(k, sorted);
    if sorted == [] then [k]
    else if rows[k].nextAttemptAt <= rows[sorted[0]].nextAttemptAt then [k] + sorted
    else
      NoDupCons(sorted[0], sorted[1..]);
      assert sorted == [sorted[0]] + sorted[1..];
      var rest := Insert(k, sorted[1..], rows);
      NoDupCons(sorted[0], rest);
      [sorted[0]] + rest
  }

  /** `sorted(keys, key=next_attempt_at)`, which is stable. */
  function SortByTime(keys: seq<string>, rows: map<string, Record>): (r: seq<string>)
    requires forall k :: k in keys ==> k in rows
    ensures forall k :: k in r <==> k in keys
    ensures |r| == |keys|
    ensures NoDup(keys) ==> NoDup(r)
  {
    if keys == [] then []
    else
      NoDupCons(keys[0], keys[1..]);
      assert keys == [keys[0]] + keys[1..];
      Insert(keys[0], SortByTime(keys[1..], rows), rows)
  }

  function Take(s: seq<string>, limit: nat): seq<string> {
    if |s| <= limit then s else s[..limit]
  }

  function ClaimKeys(t: Table, now: Time, limit: nat): (r: seq<string>)
    requires Valid(t)
    ensures |r| <= limit && NoDup(r)
    ensures forall k :: k in r ==> k in t.rows && IsDue(t.rows[k], now)
  {
    Take(SortByTime(DueKeys(t.order, t.rows, now), t.rows), limit)
  }

  function LeaseAll(t: Table, keys: seq<string>, now: Time, lease: Time): Table
    requires forall k :: k in keys ==> k in t.rows
  {
    t.(rows := map k | k in t.rows :: if k in keys then Leased(t.rows[k], now, lease) else t.rows[k])
  }

  function LeasedRecords(t: Table, keys: seq<string>, now: Time, lease: Time): (r: seq<Record>)
    requires forall k :: k in keys ==> k in t.rows
    ensures |r| == |keys| && forall i :: 0 <= i < |r| ==> r[i] == Leased(t.rows[keys[i]], now, lease)
  {
    seq(|keys|, i requires 0 <= i < |keys| => assert keys[i] in keys; Leased(t.rows[keys[i]], now, lease))
  }

  function Claimed(t: Table, now: Time, limit: nat, lease: Time): Table
    requires Valid(t)
  {
    LeaseAll(t, ClaimKeys(t, now, limit), now, lease)
  }

  // ----- the claim selects what the SQL of PostgresOutboxStore.claim selects -----

  /** Position of a key in insertion order; the SERIAL id of the SQL table. */
  function Position(keys: seq<string>, k: string): (i: nat)
    ensures k in keys ==> i < |keys| && keys[i] == k
  {
    if keys == [] || keys[0] == k then 0 else 1 + Position(keys[1..], k)
  }

  /** ORDER BY next_attempt_at, id. */
  predicate Before(keys: seq<string>, rows: map<string, Record>, a: string, b: string)
    requires a in rows && b in rows
  {
    || rows[a].nextAttemptAt < rows[b].nextAttemptAt
    || (rows[a].nextAttemptAt == rows[b].nextAttemptAt && Position(keys, a) < Position(keys, b))
  }

  ghost predicate Ordered(sorted: seq<string>, keys: seq<string>, rows: map<string, Record>)
    requires forall k :: k in sorted ==> k in rows
  {
    forall i, j :: 0 <= i < j < |sorted| ==> Before(keys, rows, sorted[i], sorted[j])
  }

  lemma {:induction false} OrderedCons(k: string, sorted: seq<string>, keys: seq<string>, rows: map<string, Record>)
    requires k in rows && forall j :: j in sorted ==> j in rows && Before(keys, rows, k, j)
    requires Ordered(sorted, keys, rows)
    ensures Ordered([k] + sorted, keys, rows)
  {
    var r := [k] + sorted;
    forall i, j | 0 <= i < j < |r| ensures Before(keys, rows, r[i], r[j]) {
      if i > 0 { assert r[i] == sorted[i - 1] && r[j] == sorted[j - 1]; }
    }
  }

  lemma {:induction false} InsertOrdered(k: string, sorted: seq<string>, keys: seq<string>, rows: map<string, Record>)
    requires k in rows && (forall j :: j in sorted ==> j in rows && Position(keys, k) < Position(keys, j))
    requires Ordered(sorted, keys, rows)
    ensures Ordered(Insert(k, sorted, rows), keys, rows)
    decreases |sorted|
  {
    if sorted == [] {
    } else if rows[k].nextAttemptAt <= rows[sorted[0]].nextAttemptAt {
      forall j | j in sorted ensures Before(keys, rows, k, j) {
        var i :| 0 <= i < |sorted| && sorted[i] == j;
        if i > 0 { assert Before(keys, rows, sorted[0], sorted[i]); }
      }
      OrderedCons(k, sorted, keys, rows);
    } else {
      InsertOrdered(k, sorted[1..], keys, rows);
      forall j | j in Insert(k, sorted[1..], rows) ensures Before(keys, rows, sorted[0], j) {
        if j != k {
          var i :| 0 <= i < |sorted[1..]| && sorted[1..][i] == j;
          assert sorted[i + 1] == j;
        }
      }
      OrderedCons(sorted[0], Insert(k, sorted[1..], rows), keys, rows);
    }
  }

  lemma {:induction false} SortOrdered(keys: seq<string>, rows: map<string, Record>)
    requires NoDup(keys) && forall k :: k in keys ==> k in rows
    ensures Ordered(SortByTime(keys, rows), keys, rows)
    decreases |keys|
  {
    if keys == [] {
    } else {
      assert keys == [keys[0]] + keys[1..];
      NoDupCons(keys[0], keys[1..]);
      SortOrdered(keys[1..], rows);
      var rest := SortByTime(keys[1..], rows);
      forall j | j in rest ensures Position(keys, j) == 1 + Position(keys[1..], j) {}
      assert Ordered(rest, keys, rows) by {
        forall i, j | 0 <= i < j < |rest| ensures Before(keys, rows, rest[i], rest[j]) {
          assert rest[i] in rest && rest[j] in rest;
          assert Before(keys[1..], rows, rest[i], rest[j]);
        }
      }
      InsertOrdered(keys[0], rest, keys, rows);
    }
  }

  /** The due keys that the SQL statement ranks before `k`. */
  ghost function Ahead(keys: seq<string>, rows: map<string, Record>, k: string): set<string>
    requires k in rows && forall j :: j in keys ==> j in rows
  {
    set j | j in keys && Before(keys, rows, j, k)
  }

  lemma {:induction false} AheadIsPrefix(sorted: seq<string>, keys: seq<string>, rows: map<string, Record>, n: nat)
    requires NoDup(sorted) && (forall k :: k in sorted <==> k in keys) && (forall k :: k in keys ==> k in rows)
    requires Ordered(sorted, keys, rows) && n < |sorted|
    ensures sorted[n] in rows && |Ahead(keys, rows, sorted[n])| == n
  {
    assert sorted[n] in sorted;
    forall j | j in keys ensures Before(keys, rows, j, sorted[n]) <==> j in sorted[..n] {
      var i :| 0 <= i < |sorted| && sorted[i] == j;
      if i < n { assert sorted[..n][i] == j; }
      if n < i { assert Before(keys, rows, sorted[n], sorted[i]); }
      if j in sorted[..n] { assert i < n; }
    }
    assert Ahead(keys, rows, sorted[n]) == Elements(sorted[..n]);
    NoDupSize(sorted[..n]);
  }

  /** Among the due keys the insertion order is the order of the whole table. */
  lemma {:induction false} DueInOrder(keys: seq<string>, rows: map<string, Record>, now: Time, a: string, b: string)
    requires NoDup(keys) && forall k :: k in keys ==> k in rows
    requires a in DueKeys(keys, rows, now) && b in DueKeys(keys, rows, now)
    ensures Position(DueKeys(keys, rows, now), a) < Position(DueKeys(keys, rows, now), b)
            <==> Position(keys, a) < Position(keys, b)
    decreases |keys|
  {
    assert keys == [keys[0]] + keys[1..];
    NoDupCons(keys[0], keys[1..]);
    if a != keys[0] && b != keys[0] {
      DueInOrder(keys[1..], rows, now, a, b);
    }
  }

  /**
   * The rows that meet the WHERE clause of the SQL statement (queued with its time come, or in progress with its lease
   * run out) and that ORDER BY next_attempt_at, id puts before `k`.
   */
  ghost function RankedBefore(t: Table, now: Time, k: string): set<string>
    requires Valid(t) && k in t.rows
  {
    set j | j in t.rows
      && (var r, s := t.rows[j], t.rows[k];
          ((r.status.Queued? && r.nextAttemptAt <= now)
           || (r.status.InProgress? && r.lockedUntil.Some? && r.lockedUntil.value <= now))
          && (r.nextAttemptAt < s.nextAttemptAt
              || (r.nextAttemptAt == s.nextAttemptAt && Position(t.order, j) < Position(t.order, k))))
  }

  lemma RankedIsAhead(t: Table, now: Time, k: string)
    requires Valid(t) && k in t.rows && IsDue(t.rows[k], now)
    ensures RankedBefore(t, now, k) == Ahead(DueKeys(t.order, t.rows, now), t.rows, k)
  {
    var due := DueKeys(t.order, t.rows, now);
    forall j | j in t.rows && IsDue(t.rows[j], now)
      ensures Before(t.order, t.rows, j, k) <==> Before(due, t.rows, j, k)
    {
      DueInOrder(t.order, t.rows, now, j, k);
    }
  }

  lemma {:induction false} ClaimTakesFirst(t: Table, now: Time, limit: nat, k: string)
    requires Valid(t) && k in t.rows
    ensures k in ClaimKeys(t, now, limit) <==>
              IsDue(t.rows[k], now) && |Ahead(DueKeys(t.order, t.rows, now), t.rows, k)| < limit
  {
    var due := DueKeys(t.order, t.rows, now);
    var sorted := SortByTime(due, t.rows);
    if IsDue(t.rows[k], now) {
      assert k in due && k in sorted;
      SortOrdered(due, t.rows);
      var n :| 0 <= n < |sorted| && sorted[n] == k;
      AheadIsPrefix(sorted, due, t.rows, n);
      if n < limit {
        assert Take(sorted, limit)[n] == k;
      } else {
        forall i | 0 <= i < |Take(sorted, limit)| ensures Take(sorted, limit)[i] != k {
          assert sorted[i] != sorted[n];
        }
      }
    }
  }

  /**
   * `claim` takes exactly the rows that the WHERE clause with `ORDER BY next_attempt_at, id LIMIT limit` takes: those
   * with fewer than `limit` such rows ranked before them. The insertion order of the table stands for the id.
   */
  lemma ClaimAgreesWithSql(t: Table, now: Time, limit: nat, k: string)
    requires Valid(t) && k in t.rows
    ensures var r := t.rows[k];
            k in ClaimKeys(t, now, limit) <==>
              ((r.status.Queued? && r.nextAttemptAt <= now)
               || (r.status.InProgress? && r.lockedUntil.Some? && r.lockedUntil.value <= now))
              && |RankedBefore(t, now, k)| < limit
  {
    ClaimTakesFirst(t, now, limit, k);
    if IsDue(t.rows[k], now) { RankedIsAhead(t, now, k); }
  }

  // ----- every operation keeps the table valid -----

  lemma EnqueuedValid(t: Table, effect: Effect, now: Time)
    requires Valid(t)
    ensures Valid(Enqueued(t, effect, now))
  {}

  lemma UpdatedValid(t: Table, key: string, r: Record)
    requires Valid(t) && key in t.rows && ValidRow(key, r)
    ensures Valid(Updated(t, key, r))
  {}

  lemma RequeuedValid(t: Table, key: string, now: Time)
    requires Valid(t)
    ensures Valid(Requeued(t, key, now))
  {}

  lemma PrunedValid(t: Table, olderThan: Time)
    requires Valid(t)
    ensures Valid(Pruned(t, olderThan))
  {}

  lemma ClaimedValid(t: Table, now: Time, limit: nat, lease: Time)
    requires Valid(t)
    ensures Valid(Claimed(t, now, limit, lease))
  {}

  lemma LeaseOne(t: Table, due: seq<string>, i: nat, now: Time, lease: Time)
    requires NoDup(due) && (forall k :: k in due ==> k in t.rows) && i < |due|
    ensures due[i] in t.rows && due[i] !in due[..i]
    ensures LeaseAll(t, due[..i], now, lease).rows[due[i]] == t.rows[due[i]]
    ensures LeaseAll(t, due[..i + 1], now, lease).rows
         == LeaseAll(t, due[..i], now, lease).rows[due[i] := Leased(t.rows[due[i]], now, lease)]
    ensures LeasedRecords(t, due[..i + 1], now, lease)
         == LeasedRecords(t, due[..i], now, lease) + [Leased(t.rows[due[i]], now, lease)]
  {
    assert due[i] in due;
    assert due[..i + 1] == due[..i] + [due[i]];
  }

  function StaleKeys(keys: seq<string>, rows: map<string, Record>, olderThan: Time): (r: seq<string>)
    requires forall k :: k in keys ==> k in rows
    ensures forall k :: k in r <==> k in keys && IsStale(rows[k], olderThan)
    ensures NoDup(keys) ==> NoDup(r)
  {
    if keys == [] then []
    else
      NoDupCons(keys[0], keys[1..]);
      assert keys == [keys[0]] + keys[1..];
      var rest := StaleKeys(keys[1..], rows, olderThan);
      NoDupCons(keys[0], rest);
      if IsStale(rows[keys[0]], olderThan) then [keys[0]] + rest else rest
  }

  // ----- the store -----

  class InMemoryOutboxStore {
    var rows: map<string, Record>
    var order: seq<string>

    ghost function Contents(): Table
      reads this
    {
      Table(order, rows)
    }

    constructor ()
      ensures Contents() == Table([], map[]) && Valid(Contents())
    {
      rows, order := map[], [];
    }

    method Enqueue(effect: Effect, now: Time) returns (record: Record)
      requires Valid(Contents())
      modifies this
      ensures Valid(Contents()) && Contents() == Enqueued(old(Contents()), effect, now)
      ensures record == rows[effect.key]
      ensures effect.key in old(rows) ==> record == old(rows[effect.key])
    {
      EnqueuedValid(Contents(), effect, now);
      if effect.key in rows {
        return rows[effect.key];
      }
      record := NewRecord(effect, now);
      rows := rows[effect.key := record];
      order := order + [effect.key];
    }

    method Claim(now: Time, limit: nat, lease: Time) returns (claimed: seq<Record>)
      requires Valid(Contents())
      modifies this
      ensures Valid(Contents()) && Contents() == Claimed(old(Contents()), now, limit, lease)
      ensures claimed == LeasedRecords(old(Contents()), ClaimKeys(old(Contents()), now, limit), now, lease)
    {
      ghost var before := Contents();
      ClaimedValid(before, now, limit, lease);
      var due := Take(SortByTime(DueKeys(order, rows, now), rows), limit);
      claimed := [];
      var i := 0;
      while i < |due|
        invariant 0 <= i <= |due| && order == before.order
        invariant rows == LeaseAll(before, due[..i], now, lease).rows
        invariant claimed == LeasedRecords(before, due[..i], now, lease)
      {
        LeaseOne(before, due, i, now, lease);
        var leased := Leased(rows[due[i]], now, lease);
        rows := rows[due[i] := leased];
        claimed := claimed + [leased];
        i := i + 1;
      }
      assert due[..i] == due;
    }

    /** `_update`; false when the key is missing, where the original raises KeyError. */
    method Update(key: string, r: Record) returns (ok: bool)
      requires Valid(Contents()) && ValidRow(key, r)
      modifies this
      ensures ok <==> key in old(rows)
      ensures Valid(Contents())
      ensures Contents() == if ok then Updated(old(Contents()), key, r) else old(Contents())
    {
      ok := key in rows;
      if ok {
        UpdatedValid(Contents(), key, r);
        rows := rows[key := r];
      }
    }

    method MarkDelivered(key: string, now: Time) returns (ok: bool)
      requires Valid(Contents())
      modifies this
      ensures (ok <==> key in old(rows)) && Valid(Contents())
      ensures Contents() == if ok then Updated(old(Contents()), key, AsDelivered(old(rows)[key], now))
              else old(Contents())
    {
      if key !in rows { return false; }
      ok := Update(key, AsDelivered(rows[key], now));
    }

    method Release(key: string, error: Failure, retryAt: Time) returns (ok: bool)
      requires Valid(Contents())
      modifies this
      ensures (ok <==> key in old(rows)) && Valid(Contents())
      ensures Contents() == if ok then Updated(old(Contents()), key, AsReleased(old(rows)[key], error, retryAt))
              else old(Contents())
    {
      if key !in rows { return false; }
      ok := Update(key, AsReleased(rows[key], error, retryAt));
    }

    method MarkDead(key: string, error: Failure) returns (ok: bool)
      requires Valid(Contents())
      modifies this
      ensures (ok <==> key in old(rows)) && Valid(Contents())
      ensures Contents() == if ok then Updated(old(Contents()), key, AsDead(old(rows)[key], error)) else old(Contents())
    {
      if key !in rows { return false; }
      ok := Update(key, AsDead(rows[key], error));
    }

    method Get(key: string) returns (record: Option<Record>)
      ensures record == if key in rows then Some(rows[key]) else None
    {
      record := if key in rows then Some(rows[key]) else None;
    }

    method Requeue(key: string, now: Time) returns (done: bool)
      requires Valid(Contents())
      modifies this
      ensures Valid(Contents()) && Contents() == Requeued(old(Contents()), key, now)
      ensures done <==> key in old(rows) && old(rows)[key].status == Dead
    {
      RequeuedValid(Contents(), key, now);
      if key !in rows || rows[key].status != Dead { return false; }
      rows := rows[key := AsRequeued(rows[key], now)];
      done := true;
    }

    method PruneDelivered(olderThan: Time) returns (count: nat)
      requires Valid(Contents())
      modifies this
      ensures Valid(Contents()) && Contents() == Pruned(old(Contents()), olderThan)
      ensures count == |StaleKeys(old(order), old(rows), olderThan)|
    {
      ghost var before := Contents();
      PrunedValid(before, olderThan);
      var stale := StaleKeys(order, rows, olderThan);
      var i := 0;
      while i < |stale|
        invariant 0 <= i <= |stale| && order == before.order
        invariant rows == Without(before.rows, stale[..i])
      {
        WithoutOne(before.rows, stale, i);
        rows := rows - {stale[i]};
        i := i + 1;
      }
      WithoutStale(before, stale, olderThan);
      assert stale[..i] == stale;
      order := KeysIn(order, rows);
      count := |stale|;
    }
  }

  function Without(rows: map<string, Record>, gone: seq<string>): map<string, Record> {
    map k | k in rows && k !in gone :: rows[k]
  }

  lemma WithoutOne(rows: map<string, Record>, stale: seq<string>, i: nat)
    requires NoDup(stale) && (forall k :: k in stale ==> k in rows) && i < |stale|
    ensures Without(rows, stale[..i]) - {stale[i]} == Without(rows, stale[..i + 1])
  {
    assert stale[i] in stale && stale[i] !in stale[..i];
    assert stale[..i + 1] == stale[..i] + [stale[i]];
  }

  lemma WithoutStale(t: Table, stale: seq<string>, olderThan: Time)
    requires Valid(t) && forall k :: k in stale <==> k in t.rows && IsStale(t.rows[k], olderThan)
    ensures Without(t.rows, stale) == Pruned(t, olderThan).rows
  {}
}
