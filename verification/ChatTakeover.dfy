/** A lease that has run out is taken over, with its batch (course_discovery/chat/store.py:84-126). */
module ChatTakeover {
  import opened Text
  import opened Chat
  import opened ChatRuns

  /** No lease row of the user, or one that has run out. */
  predicate Expired(db: Db, user: string, now: Time) {
    user !in db.leases || db.leases[user].lockedUntil < now
  }

  /** The batch was claimed and is not done. */
  predicate Outstanding(w: World, b: Batch) {
    b in w.claims && b.id in w.db.inbox && !w.db.inbox[b.id].done
  }

  /** The worker holds the batch again, under a fresh lease and with the next attempt number. */
  ghost predicate Reclaimed(w: World, b: Batch, worker: string, lease: Time, next: World, c: Batch) {
    next.claims == w.claims + [c] && worker in next.held && next.held[worker] == c
    && c.id == b.id && c.user == b.user && c.updateIds == b.updateIds && c.text == b.text && c.owner == worker
    && c.attempts == ClaimsOf(w.claims, b.id) + 1
    && b.user in next.db.leases && next.db.leases[b.user] == Lease(worker, w.now + lease)
  }

  lemma OpenBatchId(db: Db, b: Batch, owner: string)
    requires RowsOk(db) && OneOpenBatch(db) && Faithful(db, b) && !db.inbox[b.id].done
    ensures ClaimIds(db, b.user) != {} && BatchOf(db, b.user, owner).id == b.id
  {
    assert b.id in OpenIds(db, b.user);
    var ids := SortedIds(ClaimIds(db, b.user));
    assert ids[0] in ids && ids[0] in OpenIds(db, b.user);
    assert InOpenBatch(db, b.id) && InOpenBatch(db, ids[0]);
  }

  /** Once the lease is free, any free worker's claim returns the same batch with the next attempt number. */
  lemma TakesOver(w: World, b: Batch, worker: string, lease: Time) returns (c: Batch)
    requires Inv(w) && Numbered(w) && Outstanding(w, b) && Expired(w.db, b.user, w.now) && worker !in w.held
    ensures Reclaimed(w, b, worker, lease, After(w, Claim(worker, b.user), lease), c)
  {
    OpenBatchId(w.db, b, worker);
    c := BatchOf(w.db, b.user, worker);
    ClaimedBefore(w.db, b.user, worker, w.claims);
    ClaimKeeps(w, worker, b.user, lease);
    ClaimGets(w, b.user, worker, lease, c);
    SameBatch(After(w, Claim(worker, b.user), lease), b, c, |w.claims|);
  }

  lemma ClaimGets(w: World, user: string, worker: string, lease: Time, c: Batch)
    requires Expired(w.db, user, w.now) && ClaimIds(w.db, user) != {} && c == BatchOf(w.db, user, worker)
    ensures var next := After(w, Claim(worker, user), lease);
            next.claims == w.claims + [c] && worker in next.held && next.held[worker] == c && c.owner == worker
            && user in next.db.leases && next.db.leases[user] == Lease(worker, w.now + lease)
  {
  }

  lemma SameBatch(next: World, b: Batch, c: Batch, n: nat)
    requires ClaimsOk(next.db, next.claims) && b in next.claims && n < |next.claims| && next.claims[n] == c
    requires b.id == c.id
    ensures c.user == b.user && c.updateIds == b.updateIds && c.text == b.text
  {
    assert Faithful(next.db, b) && Faithful(next.db, c);
  }

  /** At any moment of any run: a batch outlives its worker. */
  lemma ExpiredLeaseIsTakenOver(ws: seq<World>, es: seq<Event>, lease: Time, k: nat, b: Batch, worker: string)
    returns (c: Batch)
    requires IsRun(ws, es, lease) && k < |ws| && Outstanding(ws[k], b) && worker !in ws[k].held
    requires b.user !in ws[k].db.leases || ws[k].db.leases[b.user].lockedUntil < ws[k].now
    ensures Reclaimed(ws[k], b, worker, lease, After(ws[k], Claim(worker, b.user), lease), c)
  {
    RunKeeps(ws, es, lease, k);
    AttemptsCountClaims(ws, es, lease, k);
    c := TakesOver(ws[k], b, worker, lease);
  }

  /** Before that, a claim of the user changes nothing. */
  lemma LiveLeaseIsRespected(w: World, user: string, worker: string, lease: Time)
    requires user in w.db.leases && w.db.leases[user].lockedUntil >= w.now
    ensures After(w, Claim(worker, user), lease) == w
  {
  }

  /** A worker crashes while it holds a batch, time passes its lease, and another worker comes. */
  function CrashThenClaim(w: World, crashed: string, elapsed: Time, other: string, user: string, lease: Time): World {
    After(After(After(w, Crash(crashed), lease), Tick(elapsed), lease), Claim(other, user), lease)
  }

  lemma CrashAndTick(w: World, crashed: string, elapsed: Time, lease: Time, b: Batch)
    requires Inv(w) && Numbered(w) && Outstanding(w, b) && crashed in w.held && elapsed >= 0.0
    ensures var later := After(After(w, Crash(crashed), lease), Tick(elapsed), lease);
            Inv(later) && Numbered(later) && Outstanding(later, b) && later.db == w.db && later.now == w.now + elapsed
            && later.claims == w.claims && later.held == w.held - {crashed}
  {
    var down := After(w, Crash(crashed), lease);
    StepKeeps(w, Crash(crashed), lease);
    StepNumbers(w, Crash(crashed), lease);
    StepKeeps(down, Tick(elapsed), lease);
    StepNumbers(down, Tick(elapsed), lease);
  }

  lemma CrashedWorkerIsReplaced(ws: seq<World>, es: seq<Event>, lease: Time, k: nat, crashed: string, elapsed: Time,
                                other: string) returns (c: Batch)
    requires IsRun(ws, es, lease) && k < |ws| && crashed in ws[k].held && elapsed >= 0.0
    requires other == crashed || other !in ws[k].held
    requires var b := ws[k].held[crashed];
             Owns(ws[k].db, b.user, crashed) && ws[k].db.leases[b.user].lockedUntil < ws[k].now + elapsed
    ensures var b := ws[k].held[crashed];
            var later := After(After(ws[k], Crash(crashed), lease), Tick(elapsed), lease);
            Reclaimed(later, b, other, lease, CrashThenClaim(ws[k], crashed, elapsed, other, b.user, lease), c)
            && later.claims == ws[k].claims
  {
    var b := ws[k].held[crashed];
    RunKeeps(ws, es, lease, k);
    AttemptsCountClaims(ws, es, lease, k);
    assert HeldOk(ws[k], crashed);
    CrashAndTick(ws[k], crashed, elapsed, lease, b);
    var later := After(After(ws[k], Crash(crashed), lease), Tick(elapsed), lease);
    c := TakesOver(later, b, other, lease);
  }
}
