/** Chat workers over whole runs (course_discovery/chat/worker.py on top of course_discovery/chat/store.py). */
module ChatRuns {
  import opened Text
  import opened Chat

  const MAX_ATTEMPTS := 3

  /**
   * The database, the clock, the batch each worker is running, every batch ever claimed (oldest first) and the
   * batches for which a failure notice was submitted.
   */
  datatype World = World(db: Db, now: Time, held: map<string, Batch>, claims: seq<Batch>, notices: set<nat>)

  datatype Event =
    | Ingest(message: Message, text: string, newUser: string)
    | Tick(elapsed: Time)
    | Claim(worker: string, user: string)
    | Heartbeat(batch: Batch)
    | GiveUp(worker: string)
    | Settle(worker: string)
    | Retry(worker: string)
    | Crash(worker: string)

  ghost predicate Enabled(w: World, e: Event) {
    match e
    case Ingest(_, _, _) => true
    case Tick(elapsed) => elapsed >= 0.0
    case Claim(worker, _) => worker !in w.held
    case Heartbeat(batch) => batch in w.claims
    case GiveUp(worker) => worker in w.held && w.held[worker].attempts >= MAX_ATTEMPTS
    case Settle(worker) => worker in w.held
    case Retry(worker) => worker in w.held && w.held[worker].attempts < MAX_ATTEMPTS
    case Crash(worker) => worker in w.held
  }

  function After(w: World, e: Event, lease: Time): World {
    match e
    case Ingest(m, text, newUser) => w.(db := Ingested(w.db, m, text, newUser).0)
    case Tick(elapsed) => w.(now := w.now + elapsed)
    case Claim(worker, user) =>
      var (db, batch) := ClaimedUser(w.db, user, worker, w.now, lease);
      if batch.None? then w.(db := db)
      else w.(db := db, held := w.held[worker := batch.value], claims := w.claims + [batch.value])
    case Heartbeat(b) => w.(db := Renewed(w.db, b.user, b.owner, w.now, lease).GetOr(w.db))
    case GiveUp(worker) => if worker in w.held then w.(notices := w.notices + {w.held[worker].id}) else w
    case Settle(worker) =>
      if worker in w.held then
        w.(db := Completed(w.db, w.held[worker]).GetOr(w.db), held := w.held - {worker})
      else w
    case Retry(worker) => w.(held := w.held - {worker})
    case Crash(worker) => w.(held := w.held - {worker})
  }

  ghost predicate IsRun(ws: seq<World>, es: seq<Event>, lease: Time) {
    |ws| == |es| + 1
    && ws[0].db == Db({}, map[], map[], map[]) && ws[0].held == map[] && ws[0].claims == [] && ws[0].notices == {}
    && forall k :: 0 <= k < |es| ==> Moves(ws[k], es[k], ws[k + 1], lease)
  }

  ghost predicate Moves(w: World, e: Event, next: World, lease: Time) {
    Enabled(w, e) && next == After(w, e, lease)
  }

  // ----- the invariant -----

  /** A finished message is in a batch; a batch is named after one of its members and finishes as a whole. */
  ghost predicate RowOk(db: Db, i: nat)
    requires i in db.inbox
  {
    var r := db.inbox[i];
    (r.done ==> r.batch.Some?)
    && (r.batch.Some? ==>
          r.batch.value in db.inbox
          && var head := db.inbox[r.batch.value];
          head.batch == r.batch && head.user == r.user && head.done == r.done && head.attempts == r.attempts)
    && (r.batch.None? ==> r.attempts == 0)
  }

  ghost predicate RowsOk(db: Db) {
    db.inbox.Keys == db.seen && forall i :: i in db.inbox ==> RowOk(db, i)
  }

  predicate InOpenBatch(db: Db, i: nat) {
    i in db.inbox && !db.inbox[i].done && db.inbox[i].batch.Some?
  }

  /** Each user has at most one open batch. */
  ghost predicate OneOpenBatch(db: Db) {
    forall i, j :: InOpenBatch(db, i) && InOpenBatch(db, j) && db.inbox[i].user == db.inbox[j].user
      ==> db.inbox[i].batch == db.inbox[j].batch
  }

  predicate InBatch(db: Db, batchId: nat, i: nat) {
    i in db.inbox && db.inbox[i].batch == Some(batchId)
  }

  function Members(db: Db, batchId: nat): set<nat> {
    set i | i in db.inbox && InBatch(db, batchId, i)
  }

  /** The claimed batch still is the batch of that name in the inbox, text and owner included. */
  ghost predicate Faithful(db: Db, b: Batch) {
    InBatch(db, b.id, b.id) && db.inbox[b.id].user == b.user
    && b.updateIds == SortedIds(Members(db, b.id))
    && b.text == JoinTexts(b.updateIds, db.inbox)
  }

  ghost predicate ClaimsOk(db: Db, claims: seq<Batch>) {
    forall b :: b in claims ==> Faithful(db, b)
  }

  /** A worker that still owns its user's lease holds an unfinished batch. */
  ghost predicate HeldOk(w: World, worker: string)
    requires worker in w.held
  {
    var b := w.held[worker];
    b in w.claims && b.owner == worker && InBatch(w.db, b.id, b.id)
    && (Owns(w.db, b.user, worker) ==> !w.db.inbox[b.id].done)
  }

  ghost predicate Inv(w: World) {
    RowsOk(w.db) && OneOpenBatch(w.db) && ClaimsOk(w.db, w.claims)
    && HoldersOk(w)
  }

  ghost predicate HoldersOk(w: World) {
    forall worker :: worker in w.held ==> HeldOk(w, worker)
  }

  lemma HeldStays(w: World, next: World, o: string)
    requires o in w.held && HeldOk(w, o) && o in next.held && next.held[o] == w.held[o]
    requires w.held[o] in next.claims && InBatch(next.db, w.held[o].id, w.held[o].id)
    requires Owns(next.db, w.held[o].user, o) ==>
               Owns(w.db, w.held[o].user, o) && next.db.inbox[w.held[o].id].done == w.db.inbox[w.held[o].id].done
    ensures HeldOk(next, o)
  {
  }

  // ----- a claim is the whole batch -----

  lemma ClaimIsWhole(db: Db, user: string)
    requires RowsOk(db) && OneOpenBatch(db) && OpenIds(db, user) != {}
    ensures forall i :: i in OpenIds(db, user) ==>
            db.inbox[i].batch.Some?
            && Members(db, db.inbox[i].batch.value) == OpenIds(db, user)
  {
    forall i | i in OpenIds(db, user) ensures Members(db, db.inbox[i].batch.value) == OpenIds(db, user) {
      var b := db.inbox[i].batch.value;
      assert RowOk(db, i) && InOpenBatch(db, i);
      forall j | j in Members(db, b) ensures j in OpenIds(db, user) { assert RowOk(db, j); }
      forall j | j in OpenIds(db, user) ensures j in Members(db, b) { assert InOpenBatch(db, j); }
    }
  }

  lemma LooseIsNew(db: Db, i: nat)
    requires RowsOk(db) && i in db.inbox && db.inbox[i].batch.None?
    ensures forall j :: !InBatch(db, i, j)
  {
    forall j | j in db.inbox ensures !InBatch(db, i, j) { assert RowOk(db, j); }
  }

  lemma {:induction false} SameTexts(ids: seq<nat>, m: map<nat, Row>, n: map<nat, Row>)
    requires forall i :: i in ids ==> i in m && i in n && m[i].text == n[i].text
    ensures Texts(ids, m) == Texts(ids, n)
  {
    if ids == [] {
    } else {
      assert ids == [ids[0]] + ids[1..];
      assert ids[0] in ids;
      SameTexts(ids[1..], m, n);
    }
  }

  /** The old database's batches and texts live on in the new one. */
  ghost predicate Continues(db: Db, next: Db) {
    forall i :: i in db.inbox ==>
      i in next.inbox && next.inbox[i].user == db.inbox[i].user && next.inbox[i].text == db.inbox[i].text
  }

  ghost predicate SameMembers(db: Db, next: Db, b: nat) {
    forall i :: InBatch(db, b, i) <==> InBatch(next, b, i)
  }

  lemma FaithfulStays(db: Db, next: Db, b: Batch)
    requires Faithful(db, b) && Continues(db, next) && SameMembers(db, next, b.id)
    ensures Faithful(next, b)
  {
    assert Members(db, b.id) == Members(next, b.id);
    assert InBatch(next, b.id, b.id);
    SameTexts(b.updateIds, db.inbox, next.inbox);
  }

  // ----- what each transaction keeps -----

  lemma IngestKeeps(db: Db, m: Message, text: string, newUser: string, next: Db)
    requires RowsOk(db) && OneOpenBatch(db) && next == Ingested(db, m, text, newUser).0
    ensures RowsOk(next) && OneOpenBatch(next) && Continues(db, next)
    ensures forall b, i :: InBatch(db, b, i) <==> InBatch(next, b, i)
  {
    if next != db {
      assert m.updateId !in db.inbox.Keys;
      forall i | i in next.inbox ensures RowOk(next, i) {
        if i != m.updateId { assert RowOk(db, i); }
      }
      forall i | InOpenBatch(next, i) ensures InOpenBatch(db, i) {}
    }
  }

  /**
   * What a claim may take: one batch `b` of the user, entirely unfinished and either all of it open or all of it loose.
   */
  ghost predicate Claimable(db: Db, user: string, ids: set<nat>, b: nat) {
    b in ids && b in db.inbox
    && (forall i :: i in ids ==>
          i in db.inbox && db.inbox[i].user == user && !db.inbox[i].done
          && db.inbox[i].batch == db.inbox[b].batch && db.inbox[i].attempts == db.inbox[b].attempts)
    && (db.inbox[b].batch == None || db.inbox[b].batch == Some(b))
    && (forall i :: InBatch(db, b, i) ==> i in ids)
    && (forall i :: InOpenBatch(db, i) && db.inbox[i].user == user ==> i in ids)
  }

  lemma ClaimTakes(db: Db, user: string, owner: string)
    requires RowsOk(db) && OneOpenBatch(db) && ClaimIds(db, user) != {}
    ensures Claimable(db, user, ClaimIds(db, user), BatchOf(db, user, owner).id)
  {
    var ids := ClaimIds(db, user);
    var first := SortedIds(ids)[0];
    assert first in SortedIds(ids);
    var b := BatchOf(db, user, owner).id;
    assert RowOk(db, first);
    if ids == OpenIds(db, user) {
      ClaimIsWhole(db, user);
      assert Members(db, b) == ids;
      forall i | i in ids ensures db.inbox[i].batch == db.inbox[b].batch
          && db.inbox[i].attempts == db.inbox[b].attempts {
        assert InBatch(db, b, i) && RowOk(db, i);
      }
      assert b == db.inbox[first].batch.value && InBatch(db, b, b);
      forall i | InBatch(db, b, i) ensures i in ids { assert i in Members(db, b); }
    } else {
      LooseIsNew(db, b);
      forall i | i in ids ensures db.inbox[i].attempts == 0 { assert RowOk(db, i); }
    }
    forall i | InOpenBatch(db, i) && db.inbox[i].user == user ensures i in ids { assert i in OpenIds(db, user); }
  }

  lemma BatchedRows(db: Db, user: string, ids: set<nat>, b: nat, next: Db)
    requires RowsOk(db) && Claimable(db, user, ids, b) && next.inbox == Batched(db.inbox, ids, b)
             && next.seen == db.seen
    ensures RowsOk(next) && Continues(db, next)
  {
    forall i | i in next.inbox ensures RowOk(next, i) {
      assert RowOk(db, i);
      if i !in ids && db.inbox[i].batch.Some? {
        assert InBatch(db, db.inbox[i].batch.value, i);
      }
    }
    assert next.inbox.Keys == db.inbox.Keys;
  }

  lemma BatchedOneOpen(db: Db, user: string, ids: set<nat>, b: nat, next: Db)
    requires OneOpenBatch(db) && Claimable(db, user, ids, b) && next.inbox == Batched(db.inbox, ids, b)
    ensures OneOpenBatch(next)
  {
    forall i, j | InOpenBatch(next, i) && InOpenBatch(next, j) && next.inbox[i].user == next.inbox[j].user
      ensures next.inbox[i].batch == next.inbox[j].batch
    {
      if i !in ids { assert InOpenBatch(db, i); }
      if j !in ids { assert InOpenBatch(db, j); }
    }
  }

  lemma BatchedMembers(db: Db, user: string, ids: set<nat>, b: nat, next: Db, c: Batch)
    requires Claimable(db, user, ids, b) && next.inbox == Batched(db.inbox, ids, b)
    requires InBatch(db, c.id, c.id)
    ensures SameMembers(db, next, c.id)
  {
  }

  lemma BatchedIsMembers(db: Db, user: string, ids: set<nat>, b: nat, next: Db)
    requires Claimable(db, user, ids, b) && next.inbox == Batched(db.inbox, ids, b)
    ensures Members(next, b) == ids && InBatch(next, b, b) && next.inbox[b].user == user
  {
  }

  lemma BatchedClaim(db: Db, user: string, owner: string, next: Db)
    requires ClaimIds(db, user) != {} && Claimable(db, user, ClaimIds(db, user), BatchOf(db, user, owner).id)
    requires next.inbox == Batched(db.inbox, ClaimIds(db, user), BatchOf(db, user, owner).id) && Continues(db, next)
    ensures Faithful(next, BatchOf(db, user, owner))
  {
    var b := BatchOf(db, user, owner);
    BatchedIsMembers(db, user, ClaimIds(db, user), b.id, next);
    SameTexts(b.updateIds, db.inbox, next.inbox);
  }

  lemma DoneRows(db: Db, b: Batch, next: Db)
    requires RowsOk(db) && Faithful(db, b) && next.inbox == MarkedDone(db.inbox, b.updateIds) && next.seen == db.seen
    ensures RowsOk(next) && Continues(db, next)
    ensures forall c, i :: InBatch(db, c, i) <==> InBatch(next, c, i)
  {
    assert forall i :: i in b.updateIds <==> InBatch(db, b.id, i);
    forall i | i in next.inbox ensures RowOk(next, i) {
      assert RowOk(db, i);
    }
    assert next.inbox.Keys == db.inbox.Keys;
  }

  lemma DoneOneOpen(db: Db, b: Batch, next: Db)
    requires OneOpenBatch(db) && next.inbox == MarkedDone(db.inbox, b.updateIds)
    ensures OneOpenBatch(next)
  {
    forall i | InOpenBatch(next, i) ensures InOpenBatch(db, i) {}
  }

  lemma ClaimsStay(db: Db, next: Db, claims: seq<Batch>)
    requires ClaimsOk(db, claims) && Continues(db, next)
    requires forall b :: b in claims ==> SameMembers(db, next, b.id)
    ensures ClaimsOk(next, claims)
  {
    forall b | b in claims ensures Faithful(next, b) { FaithfulStays(db, next, b); }
  }

  // ----- the invariant holds at every point of every run -----

  lemma SameInbox(db: Db, next: Db, claims: seq<Batch>)
    requires RowsOk(db) && OneOpenBatch(db) && ClaimsOk(db, claims)
    requires next.inbox == db.inbox && next.seen == db.seen
    ensures RowsOk(next) && OneOpenBatch(next) && ClaimsOk(next, claims)
  {
    forall i | i in next.inbox ensures RowOk(next, i) { assert RowOk(db, i); }
    forall i | InOpenBatch(next, i) ensures InOpenBatch(db, i) {}
    forall b | b in claims ensures SameMembers(db, next, b.id) {}
    ClaimsStay(db, next, claims);
  }

  /** Claimed rows, whoever claimed them: the new batch joins the old ones. */
  lemma ClaimDb(db: Db, user: string, owner: string, next: Db, claims: seq<Batch>)
    requires RowsOk(db) && OneOpenBatch(db) && ClaimsOk(db, claims) && ClaimIds(db, user) != {}
    requires next.seen == db.seen && next.inbox == Batched(db.inbox, ClaimIds(db, user), BatchOf(db, user, owner).id)
    ensures RowsOk(next) && OneOpenBatch(next) && ClaimsOk(next, claims + [BatchOf(db, user, owner)])
    ensures Claimable(db, user, ClaimIds(db, user), BatchOf(db, user, owner).id)
  {
    var ids, b := ClaimIds(db, user), BatchOf(db, user, owner);
    ClaimTakes(db, user, owner);
    BatchedRows(db, user, ids, b.id, next);
    BatchedOneOpen(db, user, ids, b.id, next);
    forall c | c in claims ensures SameMembers(db, next, c.id) {
      assert Faithful(db, c);
      BatchedMembers(db, user, ids, b.id, next, c);
    }
    ClaimsStay(db, next, claims);
    BatchedClaim(db, user, owner, next);
    assert ClaimsOk(next, [b]);
    ClaimsJoin(next, claims, [b]);
  }

  lemma ClaimsJoin(db: Db, earlier: seq<Batch>, more: seq<Batch>)
    requires ClaimsOk(db, earlier) && ClaimsOk(db, more)
    ensures ClaimsOk(db, earlier + more)
  {
  }

  lemma ClaimHolder(w: World, user: string, worker: string, next: World, o: string)
    requires ClaimsOk(w.db, w.claims) && HoldersOk(w) && worker !in w.held && ClaimIds(w.db, user) != {}
    requires Claimable(w.db, user, ClaimIds(w.db, user), BatchOf(w.db, user, worker).id)
    requires next.db.inbox == Batched(w.db.inbox, ClaimIds(w.db, user), BatchOf(w.db, user, worker).id)
    requires Owns(next.db, user, worker)
    requires forall u :: u != user ==> (Owns(next.db, u, o) <==> Owns(w.db, u, o))
    requires o in next.held && next.held == w.held[worker := BatchOf(w.db, user, worker)]
    requires next.claims == w.claims + [BatchOf(w.db, user, worker)]
    ensures HeldOk(next, o)
  {
    var b := BatchOf(w.db, user, worker);
    assert next.claims[|w.claims|] == b;
    if o == worker {
      assert InBatch(next.db, b.id, b.id);
    } else {
      assert HeldOk(w, o) && Faithful(w.db, w.held[o]);
      assert w.held[o] in next.claims;
      BatchedMembers(w.db, user, ClaimIds(w.db, user), b.id, next.db, w.held[o]);
      assert InBatch(next.db, w.held[o].id, w.held[o].id);
      HeldStays(w, next, o);
    }
  }

  lemma ClaimKeeps(w: World, worker: string, user: string, lease: Time)
    requires Inv(w) && Enabled(w, Claim(worker, user))
    ensures Inv(After(w, Claim(worker, user), lease))
  {
    var e := Claim(worker, user);
    var next := After(w, e, lease);
    if ClaimedUser(w.db, user, worker, w.now, lease).1.None? {
      SameInbox(w.db, next.db, w.claims);
      forall o | o in next.held ensures HeldOk(next, o) { HeldStays(w, next, o); }
    } else {
      ClaimDb(w.db, user, worker, next.db, w.claims);
      forall o | o in next.held ensures HeldOk(next, o) { ClaimHolder(w, user, worker, next, o); }
    }
  }

  lemma SettleHolder(w: World, worker: string, next: World, o: string)
    requires ClaimsOk(w.db, w.claims) && HoldersOk(w) && worker in w.held && o in w.held && o != worker
    requires next.held == w.held - {worker} && next.claims == w.claims
    requires next.db == Completed(w.db, w.held[worker]).GetOr(w.db)
    ensures HeldOk(next, o)
  {
    var b, c := w.held[worker], w.held[o];
    assert HeldOk(w, worker) && HeldOk(w, o) && Faithful(w.db, b) && Faithful(w.db, c);
    if next.db != w.db {
      assert c.id in b.updateIds ==> InBatch(w.db, b.id, c.id);
    }
    HeldStays(w, next, o);
  }

  lemma SettleKeeps(w: World, worker: string, lease: Time)
    requires Inv(w) && Enabled(w, Settle(worker))
    ensures Inv(After(w, Settle(worker), lease))
  {
    var next := After(w, Settle(worker), lease);
    var b := w.held[worker];
    assert HeldOk(w, worker) && Faithful(w.db, b);
    if Owns(w.db, b.user, b.owner) {
      DoneRows(w.db, b, next.db);
      DoneOneOpen(w.db, b, next.db);
      forall c | c in w.claims ensures SameMembers(w.db, next.db, c.id) {}
      ClaimsStay(w.db, next.db, w.claims);
    }
    forall o | o in next.held ensures HeldOk(next, o) { SettleHolder(w, worker, next, o); }
  }

  /** Holders keep their batches when messages arrive, leases are renewed or nothing happens to the database. */
  lemma HoldersStay(w: World, next: World)
    requires HoldersOk(w) && next.held.Keys <= w.held.Keys && next.claims == w.claims
    requires forall o :: o in next.held ==> next.held[o] == w.held[o]
    requires forall u, o :: Owns(next.db, u, o) <==> Owns(w.db, u, o)
    requires forall i :: i in w.db.inbox ==> i in next.db.inbox && next.db.inbox[i] == w.db.inbox[i]
    ensures HoldersOk(next)
  {
    forall o | o in next.held ensures HeldOk(next, o) {
      assert o in w.held && HeldOk(w, o);
      HeldStays(w, next, o);
    }
  }

  lemma IngestStep(w: World, m: Message, text: string, newUser: string, next: World)
    requires Inv(w) && next == w.(db := Ingested(w.db, m, text, newUser).0)
    ensures Inv(next)
  {
    IngestKeeps(w.db, m, text, newUser, next.db);
    forall c | c in w.claims ensures SameMembers(w.db, next.db, c.id) {}
    ClaimsStay(w.db, next.db, w.claims);
    assert m.updateId !in w.db.seen ==> m.updateId !in w.db.inbox;
    HoldersStay(w, next);
  }

  predicate Quiet(e: Event) { !e.Ingest? && !e.Claim? && !e.Settle? }

  lemma QuietDb(w: World, e: Event, lease: Time)
    requires Quiet(e)
    ensures After(w, e, lease).db.inbox == w.db.inbox && After(w, e, lease).db.seen == w.db.seen
    ensures After(w, e, lease).claims == w.claims
    ensures forall u, o :: Owns(After(w, e, lease).db, u, o) <==> Owns(w.db, u, o)
  {
  }

  lemma QuietHeld(w: World, e: Event, lease: Time)
    requires Quiet(e)
    ensures After(w, e, lease).held.Keys <= w.held.Keys
    ensures forall o :: o in After(w, e, lease).held ==> After(w, e, lease).held[o] == w.held[o]
  {
  }

  lemma QuietInv(w: World, next: World)
    requires Inv(w) && next.db.inbox == w.db.inbox && next.db.seen == w.db.seen && next.claims == w.claims
    requires forall u, o :: Owns(next.db, u, o) <==> Owns(w.db, u, o)
    requires next.held.Keys <= w.held.Keys && forall o :: o in next.held ==> next.held[o] == w.held[o]
    ensures Inv(next)
  {
    SameInbox(w.db, next.db, w.claims);
    HoldersStay(w, next);
  }

  lemma StepKeeps(w: World, e: Event, lease: Time)
    requires Inv(w) && Enabled(w, e)
    ensures Inv(After(w, e, lease))
  {
    match e
    case Ingest(m, text, newUser) => IngestStep(w, m, text, newUser, After(w, e, lease));
    case Claim(worker, user) => ClaimKeeps(w, worker, user, lease);
    case Settle(worker) => SettleKeeps(w, worker, lease);
    case _ =>
      QuietDb(w, e, lease);
      QuietHeld(w, e, lease);
      QuietInv(w, After(w, e, lease));
  }

  lemma {:induction false} RunKeeps(ws: seq<World>, es: seq<Event>, lease: Time, k: nat)
    requires IsRun(ws, es, lease) && k < |ws|
    ensures Inv(ws[k])
  {
    if k == 0 {
    } else {
      RunKeeps(ws, es, lease, k - 1);
      assert Moves(ws[k - 1], es[k - 1], ws[k], lease);
      StepKeeps(ws[k - 1], es[k - 1], lease);
    }
  }

  // ----- batches are stable -----

  /** Whoever claims a batch, and whenever, gets the same user, messages, text and thread. */
  lemma ReclaimIsSame(ws: seq<World>, es: seq<Event>, lease: Time, k: nat, b: Batch, c: Batch)
    requires IsRun(ws, es, lease) && k < |ws| && b in ws[k].claims && c in ws[k].claims && b.id == c.id
    ensures b.user == c.user && b.updateIds == c.updateIds && b.text == c.text && ThreadId(b.id) == ThreadId(c.id)
  {
    RunKeeps(ws, es, lease, k);
    assert Faithful(ws[k].db, b) && Faithful(ws[k].db, c);
  }

  /** Different batches, of any users, share no message and no thread. */
  lemma BatchesAreDisjoint(ws: seq<World>, es: seq<Event>, lease: Time, k: nat, b: Batch, c: Batch)
    requires IsRun(ws, es, lease) && k < |ws| && b in ws[k].claims && c in ws[k].claims && b.id != c.id
    ensures forall i :: i in b.updateIds ==> i !in c.updateIds
    ensures ThreadId(b.id) != ThreadId(c.id)
  {
    RunKeeps(ws, es, lease, k);
    assert Faithful(ws[k].db, b) && Faithful(ws[k].db, c);
    forall i | i in b.updateIds ensures i !in c.updateIds {
      assert i in Members(ws[k].db, b.id);
    }
    if ThreadId(b.id) == ThreadId(c.id) { ThreadIdInjective(b.id, c.id); }
  }

  /** No two unfinished batches of one user, at any time. */
  lemma OneOpenBatchPerUser(ws: seq<World>, es: seq<Event>, lease: Time, k: nat, i: nat, j: nat)
    requires IsRun(ws, es, lease) && k < |ws| && InOpenBatch(ws[k].db, i) && InOpenBatch(ws[k].db, j)
    requires ws[k].db.inbox[i].user == ws[k].db.inbox[j].user
    ensures ws[k].db.inbox[i].batch == ws[k].db.inbox[j].batch
  {
    RunKeeps(ws, es, lease, k);
  }

  // ----- messages are conserved -----

  /** The event delivers update `i` for the first time. */
  ghost predicate Enters(w: World, e: Event, i: nat) {
    e.Ingest? && e.message.updateId == i && Ingested(w.db, e.message, e.text, e.newUser).1 == Inserted
  }

  /** The event marks message `i` done: its worker owns the user's lease and holds the batch with `i`. */
  ghost predicate Finishes(w: World, e: Event, i: nat) {
    e.Settle? && e.worker in w.held && Owns(w.db, w.held[e.worker].user, e.worker) && i in w.held[e.worker].updateIds
  }

  ghost predicate RowKept(db: Db, next: Db, i: nat)
    requires i in db.inbox
  {
    i in next.inbox
    && next.inbox[i].user == db.inbox[i].user && next.inbox[i].text == db.inbox[i].text
    && (db.inbox[i].batch.Some? ==> next.inbox[i].batch == db.inbox[i].batch)
    && (db.inbox[i].done ==> next.inbox[i].done)
  }

  lemma IngestGrows(db: Db, m: Message, text: string, newUser: string, i: nat)
    requires RowsOk(db)
    ensures var (next, result) := Ingested(db, m, text, newUser);
            (i in next.inbox <==> i in db.inbox || (i == m.updateId && result == Inserted))
            && (i == m.updateId && result == Inserted ==>
                  i !in db.inbox && next.inbox[i] == Row(next.inbox[i].user, text, None, 0, false))
  {
    assert i in db.inbox.Keys <==> i in db.seen;
  }

  lemma OthersKeepInbox(w: World, e: Event, lease: Time)
    requires !e.Ingest?
    ensures After(w, e, lease).db.inbox.Keys == w.db.inbox.Keys
  {
    match e
    case Claim(worker, user) =>
    case Settle(worker) =>
    case _ => QuietDb(w, e, lease);
  }

  lemma InboxGrows(w: World, e: Event, lease: Time, i: nat)
    requires Inv(w) && Enabled(w, e)
    ensures i in After(w, e, lease).db.inbox <==> i in w.db.inbox || Enters(w, e, i)
    ensures Enters(w, e, i) ==>
            i !in w.db.inbox && After(w, e, lease).db.inbox[i] ==
            Row(After(w, e, lease).db.inbox[i].user, e.text, None, 0, false)
  {
    if e.Ingest? {
      IngestGrows(w.db, e.message, e.text, e.newUser, i);
    } else {
      OthersKeepInbox(w, e, lease);
      assert i in After(w, e, lease).db.inbox.Keys <==> i in w.db.inbox.Keys;
    }
  }

  lemma ClaimKeepsRow(db: Db, user: string, worker: string, now: Time, lease: Time, i: nat)
    requires RowsOk(db) && OneOpenBatch(db) && i in db.inbox
    ensures RowKept(db, ClaimedUser(db, user, worker, now, lease).0, i)
    ensures ClaimedUser(db, user, worker, now, lease).0.inbox[i].done == db.inbox[i].done
  {
    if ClaimIds(db, user) != {} {
      ClaimTakes(db, user, worker);
    }
  }

  lemma SettleRow(w: World, worker: string, i: nat)
    requires Inv(w) && worker in w.held && i in w.db.inbox
    ensures Finishes(w, Settle(worker), i) ==> !w.db.inbox[i].done
    ensures RowKept(w.db, Completed(w.db, w.held[worker]).GetOr(w.db), i)
    ensures Completed(w.db, w.held[worker]).GetOr(w.db).inbox[i].done <==>
            w.db.inbox[i].done || Finishes(w, Settle(worker), i)
  {
    var b := w.held[worker];
    assert HeldOk(w, worker) && Faithful(w.db, b) && RowOk(w.db, i);
    assert i in b.updateIds <==> i in Members(w.db, b.id);
  }

  /** One event never loses, rewrites, rebatches or reopens a message, and only a lease owner finishes one. */
  lemma RowFate(w: World, e: Event, lease: Time, i: nat)
    requires Inv(w) && Enabled(w, e) && i in w.db.inbox
    ensures RowKept(w.db, After(w, e, lease).db, i)
    ensures Finishes(w, e, i) ==> !w.db.inbox[i].done
    ensures After(w, e, lease).db.inbox[i].done <==> w.db.inbox[i].done || Finishes(w, e, i)
  {
    match e
    case Ingest(m, _, _) => assert m.updateId in w.db.seen <==> m.updateId in w.db.inbox;
    case Claim(worker, user) => ClaimKeepsRow(w.db, user, worker, w.now, lease, i);
    case Settle(worker) => SettleRow(w, worker, i);
    case _ =>
  }

  lemma RowKeptTwice(db: Db, mid: Db, next: Db, i: nat)
    requires i in db.inbox && RowKept(db, mid, i) && RowKept(mid, next, i)
    ensures RowKept(db, next, i)
  {
  }

  lemma RowFateAt(ws: seq<World>, es: seq<Event>, lease: Time, i: nat, k: nat)
    requires IsRun(ws, es, lease) && k < |es| && i in ws[k].db.inbox
    ensures RowKept(ws[k].db, ws[k + 1].db, i)
  {
    RunKeeps(ws, es, lease, k);
    assert Moves(ws[k], es[k], ws[k + 1], lease);
    RowFate(ws[k], es[k], lease, i);
  }

  lemma {:induction false} RowsPersist(ws: seq<World>, es: seq<Event>, lease: Time, i: nat, j: nat, k: nat)
    requires IsRun(ws, es, lease) && j <= k < |ws| && i in ws[j].db.inbox
    ensures RowKept(ws[j].db, ws[k].db, i)
  {
    if j < k {
      RowsPersist(ws, es, lease, i, j, k - 1);
      RowFateAt(ws, es, lease, i, k - 1);
      RowKeptTwice(ws[j].db, ws[k - 1].db, ws[k].db, i);
    }
  }

  /** A message in the inbox entered exactly once, however often its update was delivered. */
  lemma {:induction false} EnteredOnce(ws: seq<World>, es: seq<Event>, lease: Time, i: nat, k: nat) returns (j: nat)
    requires IsRun(ws, es, lease) && k < |ws| && i in ws[k].db.inbox
    ensures j < k && Enters(ws[j], es[j], i)
    ensures forall m :: 0 <= m < |es| && Enters(ws[m], es[m], i) ==> m == j
  {
    assert Moves(ws[k - 1], es[k - 1], ws[k], lease);
    RunKeeps(ws, es, lease, k - 1);
    InboxGrows(ws[k - 1], es[k - 1], lease, i);
    if i in ws[k - 1].db.inbox {
      j := EnteredOnce(ws, es, lease, i, k - 1);
    } else {
      j := k - 1;
      forall m | 0 <= m < |es| && Enters(ws[m], es[m], i) ensures m == j {
        if m < j { EntryStays(ws, es, lease, i, m, j); }
        if j < m { EntryStays(ws, es, lease, i, j, m); }
      }
    }
  }

  lemma EntryStays(ws: seq<World>, es: seq<Event>, lease: Time, i: nat, j: nat, k: nat)
    requires IsRun(ws, es, lease) && j < k < |ws| && Enters(ws[j], es[j], i)
    ensures i in ws[k].db.inbox && (k < |es| ==> !Enters(ws[k], es[k], i))
  {
    assert Moves(ws[j], es[j], ws[j + 1], lease);
    RunKeeps(ws, es, lease, j);
    InboxGrows(ws[j], es[j], lease, i);
    RowsPersist(ws, es, lease, i, j + 1, k);
    RunKeeps(ws, es, lease, k);
    if k < |es| {
      assert Moves(ws[k], es[k], ws[k + 1], lease);
      InboxGrows(ws[k], es[k], lease, i);
    }
  }

  lemma DoneBefore(ws: seq<World>, es: seq<Event>, lease: Time, i: nat, k: nat)
    requires IsRun(ws, es, lease) && k < |es| && i in ws[k + 1].db.inbox && ws[k + 1].db.inbox[i].done
    ensures i in ws[k].db.inbox && (ws[k].db.inbox[i].done || Finishes(ws[k], es[k], i))
  {
    assert Moves(ws[k], es[k], ws[k + 1], lease);
    RunKeeps(ws, es, lease, k);
    InboxGrows(ws[k], es[k], lease, i);
    if i in ws[k].db.inbox { RowFate(ws[k], es[k], lease, i); }
  }

  lemma FinishesOnce(ws: seq<World>, es: seq<Event>, lease: Time, i: nat, j: nat, m: nat)
    requires IsRun(ws, es, lease) && j < |es| && m < |es| && Finishes(ws[j], es[j], i) && Finishes(ws[m], es[m], i)
    ensures m == j
  {
    if m < j { FinishStays(ws, es, lease, i, m, j); }
    if j < m { FinishStays(ws, es, lease, i, j, m); }
  }

  /** A done message became done exactly once, through a worker owning the user's lease at that moment. */
  lemma {:induction false} DoneOnce(ws: seq<World>, es: seq<Event>, lease: Time, i: nat, k: nat) returns (j: nat)
    requires IsRun(ws, es, lease) && k < |ws| && i in ws[k].db.inbox && ws[k].db.inbox[i].done
    ensures j < k && Finishes(ws[j], es[j], i)
    ensures forall m :: 0 <= m < |es| && Finishes(ws[m], es[m], i) ==> m == j
  {
    DoneBefore(ws, es, lease, i, k - 1);
    if ws[k - 1].db.inbox[i].done {
      j := DoneOnce(ws, es, lease, i, k - 1);
    } else {
      j := k - 1;
      forall m | 0 <= m < |es| && Finishes(ws[m], es[m], i) ensures m == j { FinishesOnce(ws, es, lease, i, j, m); }
    }
  }

  lemma FinishStays(ws: seq<World>, es: seq<Event>, lease: Time, i: nat, j: nat, k: nat)
    requires IsRun(ws, es, lease) && j < k < |ws| && Finishes(ws[j], es[j], i)
    ensures i in ws[k].db.inbox && ws[k].db.inbox[i].done && (k < |es| ==> !Finishes(ws[k], es[k], i))
  {
    assert Moves(ws[j], es[j], ws[j + 1], lease);
    RunKeeps(ws, es, lease, j);
    HeldMember(ws[j], es[j].worker, i);
    RowFate(ws[j], es[j], lease, i);
    RowsPersist(ws, es, lease, i, j + 1, k);
    RunKeeps(ws, es, lease, k);
    if k < |es| {
      assert Moves(ws[k], es[k], ws[k + 1], lease);
      RowFate(ws[k], es[k], lease, i);
    }
  }

  lemma HeldMember(w: World, worker: string, i: nat)
    requires Inv(w) && worker in w.held && i in w.held[worker].updateIds
    ensures i in w.db.inbox
  {
    assert HeldOk(w, worker) && Faithful(w.db, w.held[worker]);
    assert i in Members(w.db, w.held[worker].id);
  }

  // ----- leases -----

  predicate ActsFor(e: Event, owner: string) {
    match e
    case Heartbeat(b) => b.owner == owner
    case Settle(worker) => worker == owner
    case _ => false
  }

  /** The user's lease is in both databases, and the same. */
  ghost predicate SameLease(db: Db, next: Db, user: string) {
    user in db.leases && user in next.leases && next.leases[user] == db.leases[user]
  }

  lemma ClaimRespectsLease(db: Db, other: string, worker: string, now: Time, lease: Time, user: string)
    requires user in db.leases && !(db.leases[user].lockedUntil < now)
    ensures SameLease(db, ClaimedUser(db, other, worker, now, lease).0, user)
  {
  }

  lemma RenewalRespectsLease(db: Db, b: Batch, now: Time, lease: Time, user: string)
    requires user in db.leases && db.leases[user].owner != b.owner
    ensures SameLease(db, Renewed(db, b.user, b.owner, now, lease).GetOr(db), user)
  {
  }

  lemma CompletionRespectsLease(db: Db, b: Batch, user: string)
    requires user in db.leases && db.leases[user].owner != b.owner
    ensures SameLease(db, Completed(db, b).GetOr(db), user)
  {
  }

  /** Nobody but its owner touches a lease that has not run out. */
  lemma LiveLeaseIsSafe(w: World, e: Event, lease: Time, user: string)
    requires Inv(w) && Enabled(w, e) && user in w.db.leases && !(w.db.leases[user].lockedUntil < w.now)
    requires !ActsFor(e, w.db.leases[user].owner)
    ensures SameLease(w.db, After(w, e, lease).db, user)
  {
    match e
    case Claim(worker, other) => ClaimRespectsLease(w.db, other, worker, w.now, lease, user);
    case Heartbeat(b) => RenewalRespectsLease(w.db, b, w.now, lease, user);
    case Settle(worker) =>
      assert HeldOk(w, worker);
      CompletionRespectsLease(w.db, w.held[worker], user);
    case _ => assert After(w, e, lease).db.leases == w.db.leases;
  }

  /** A worker whose lease was taken settles nothing: not a message, not the new owner's lease. */
  lemma DisownedChangesNothing(w: World, worker: string, lease: Time)
    requires Inv(w) && worker in w.held && !Owns(w.db, w.held[worker].user, worker)
    ensures After(w, Settle(worker), lease).db == w.db
  {
    assert HeldOk(w, worker);
  }

  // ----- attempts count claims -----

  function ClaimsOf(claims: seq<Batch>, batchId: nat): nat {
    if claims == [] then 0
    else ClaimsOf(claims[..|claims| - 1], batchId) + (if claims[|claims| - 1].id == batchId then 1 else 0)
  }

  /** Every message of a batch has been tried as often as the batch was claimed. */
  ghost predicate RowsNumbered(db: Db, claims: seq<Batch>) {
    forall i :: i in db.inbox && db.inbox[i].batch.Some? ==>
      db.inbox[i].attempts == ClaimsOf(claims, db.inbox[i].batch.value)
  }

  /** The k-th claim of a batch carries attempt number k. */
  ghost predicate ClaimsNumbered(claims: seq<Batch>) {
    forall k :: 0 <= k < |claims| ==> claims[k].attempts == ClaimsOf(claims[..k + 1], claims[k].id)
  }

  ghost predicate Numbered(w: World) {
    RowsNumbered(w.db, w.claims) && ClaimsNumbered(w.claims)
  }

  lemma {:induction false} NeverClaimed(claims: seq<Batch>, batchId: nat)
    requires forall b :: b in claims ==> b.id != batchId
    ensures ClaimsOf(claims, batchId) == 0
  {
    if claims == [] {
    } else {
      assert claims[|claims| - 1] in claims;
      NeverClaimed(claims[..|claims| - 1], batchId);
    }
  }

  lemma ClaimedBefore(db: Db, user: string, owner: string, claims: seq<Batch>)
    requires RowsOk(db) && OneOpenBatch(db) && ClaimsOk(db, claims) && ClaimIds(db, user) != {}
    requires RowsNumbered(db, claims)
    ensures BatchOf(db, user, owner).attempts == ClaimsOf(claims, BatchOf(db, user, owner).id) + 1
    ensures forall i :: i in ClaimIds(db, user) ==>
            db.inbox[i].attempts ==
            ClaimsOf(claims, BatchOf(db, user, owner).id)
  {
    var b := BatchOf(db, user, owner).id;
    ClaimTakes(db, user, owner);
    if db.inbox[b].batch.None? {
      assert RowOk(db, b);
      forall c | c in claims ensures c.id != b { assert Faithful(db, c); }
      NeverClaimed(claims, b);
    }
    assert forall i :: i in SortedIds(ClaimIds(db, user)) ==> db.inbox[i].attempts == db.inbox[b].attempts;
  }

  lemma ClaimsNumberedSnoc(claims: seq<Batch>, b: Batch)
    requires ClaimsNumbered(claims) && b.attempts == ClaimsOf(claims, b.id) + 1
    ensures ClaimsNumbered(claims + [b])
  {
    var all := claims + [b];
    assert all[..|claims|] == claims && all[..|claims| + 1] == all;
    forall k | 0 <= k < |claims| ensures all[k].attempts == ClaimsOf(all[..k + 1], all[k].id) {
      assert all[..k + 1] == claims[..k + 1];
    }
  }

  lemma ClaimsOfSnoc(claims: seq<Batch>, b: Batch, id: nat)
    ensures ClaimsOf(claims + [b], id) == ClaimsOf(claims, id) + (if b.id == id then 1 else 0)
  {
    assert (claims + [b])[..|claims|] == claims;
  }

  lemma RowsNumberedSnoc(db: Db, user: string, owner: string, claims: seq<Batch>, next: Db)
    requires RowsOk(db) && OneOpenBatch(db) && ClaimsOk(db, claims) && ClaimIds(db, user) != {}
             && RowsNumbered(db, claims)
    requires next.inbox == Batched(db.inbox, ClaimIds(db, user), BatchOf(db, user, owner).id)
    ensures RowsNumbered(next, claims + [BatchOf(db, user, owner)])
  {
    var b := BatchOf(db, user, owner);
    ClaimTakes(db, user, owner);
    ClaimedBefore(db, user, owner, claims);
    forall i | i in next.inbox && next.inbox[i].batch.Some?
      ensures next.inbox[i].attempts == ClaimsOf(claims + [b], next.inbox[i].batch.value)
    {
      ClaimsOfSnoc(claims, b, next.inbox[i].batch.value);
      if i !in ClaimIds(db, user) { assert !InBatch(db, b.id, i); }
    }
  }

  lemma StepNumbers(w: World, e: Event, lease: Time)
    requires Inv(w) && Numbered(w) && Enabled(w, e)
    ensures Numbered(After(w, e, lease))
  {
    if e.Claim? {
      if ClaimedUser(w.db, e.user, e.worker, w.now, lease).1.Some? {
        ClaimedBefore(w.db, e.user, e.worker, w.claims);
        ClaimsNumberedSnoc(w.claims, BatchOf(w.db, e.user, e.worker));
        RowsNumberedSnoc(w.db, e.user, e.worker, w.claims, After(w, e, lease).db);
      }
    } else {
      QuietNumbers(w, e, lease);
    }
  }

  /** Batches and attempts of the rows come from before. */
  ghost predicate SameBatches(db: Db, next: Db) {
    forall i :: i in next.inbox && next.inbox[i].batch.Some? ==>
      i in db.inbox && next.inbox[i].batch == db.inbox[i].batch && next.inbox[i].attempts == db.inbox[i].attempts
  }

  lemma NumbersStay(db: Db, next: Db, claims: seq<Batch>)
    requires RowsNumbered(db, claims) && SameBatches(db, next)
    ensures RowsNumbered(next, claims)
  {
  }

  lemma IngestBatches(db: Db, m: Message, text: string, newUser: string)
    requires RowsOk(db)
    ensures SameBatches(db, Ingested(db, m, text, newUser).0)
  {
  }

  lemma SettleBatches(db: Db, b: Batch)
    ensures SameBatches(db, Completed(db, b).GetOr(db))
  {
  }

  lemma OtherClaims(w: World, e: Event, lease: Time)
    requires !e.Claim?
    ensures After(w, e, lease).claims == w.claims
  {
  }

  lemma QuietNumbers(w: World, e: Event, lease: Time)
    requires Inv(w) && Numbered(w) && Enabled(w, e) && !e.Claim?
    ensures Numbered(After(w, e, lease))
  {
    OtherClaims(w, e, lease);
    match e {
      case Ingest(m, text, newUser) => IngestBatches(w.db, m, text, newUser);
      case Settle(worker) => SettleBatches(w.db, w.held[worker]);
      case _ => QuietDb(w, e, lease);
    }
    assert SameBatches(w.db, After(w, e, lease).db);
    NumbersStay(w.db, After(w, e, lease).db, w.claims);
  }

  lemma FirstNumbers(ws: seq<World>, es: seq<Event>, lease: Time)
    requires IsRun(ws, es, lease)
    ensures Numbered(ws[0])
  {
  }

  lemma NextNumbers(ws: seq<World>, es: seq<Event>, lease: Time, k: nat)
    requires IsRun(ws, es, lease) && k < |es| && Numbered(ws[k])
    ensures Numbered(ws[k + 1])
  {
    RunKeeps(ws, es, lease, k);
    assert Moves(ws[k], es[k], ws[k + 1], lease);
    StepNumbers(ws[k], es[k], lease);
  }

  /**
   * The k-th claim of a batch carries attempt number k, so a failed run is retried just when fewer than three were
   * made.
   */
  lemma {:induction false} AttemptsCountClaims(ws: seq<World>, es: seq<Event>, lease: Time, k: nat)
    requires IsRun(ws, es, lease) && k < |ws|
    ensures Numbered(ws[k])
  {
    if k == 0 {
      FirstNumbers(ws, es, lease);
    } else {
      AttemptsCountClaims(ws, es, lease, k - 1);
      NextNumbers(ws, es, lease, k - 1);
    }
  }

  ghost predicate Exhausted(claims: seq<Batch>, id: nat, n: nat) {
    n < |claims| && claims[n].id == id && ClaimsOf(claims[..n + 1], id) >= 3
  }

  lemma OnlyGiveUpNotifies(w: World, e: Event, lease: Time)
    requires Enabled(w, e)
    ensures After(w, e, lease).notices == (if e.GiveUp? then w.notices + {w.held[e.worker].id} else w.notices)
  {
  }

  lemma ExhaustedAt(claims: seq<Batch>, n: nat)
    requires ClaimsNumbered(claims) && n < |claims| && claims[n].attempts >= MAX_ATTEMPTS
    ensures Exhausted(claims, claims[n].id, n)
  {
  }

  lemma HeldClaim(w: World, worker: string) returns (n: nat)
    requires HoldersOk(w) && worker in w.held
    ensures n < |w.claims| && w.claims[n] == w.held[worker]
  {
    assert HeldOk(w, worker);
    n :| 0 <= n < |w.claims| && w.claims[n] == w.held[worker];
  }

  lemma NoticeStep(w: World, e: Event, lease: Time, id: nat) returns (n: nat)
    requires Inv(w) && Numbered(w) && Enabled(w, e) && id !in w.notices && id in After(w, e, lease).notices
    ensures Exhausted(w.claims, id, n)
  {
    OnlyGiveUpNotifies(w, e, lease);
    n := HeldClaim(w, e.worker);
    ExhaustedAt(w.claims, n);
  }

  lemma ClaimsGrow(w: World, e: Event, lease: Time, id: nat, n: nat)
    requires Exhausted(w.claims, id, n)
    ensures Exhausted(After(w, e, lease).claims, id, n)
  {
    var claims := After(w, e, lease).claims;
    assert claims[..n + 1] == w.claims[..n + 1];
  }

  /** A failure notice goes out only for a batch that was claimed at least three times. */
  lemma {:induction false} NoticeAfterThree(ws: seq<World>, es: seq<Event>, lease: Time, k: nat, id: nat)
    returns (n: nat)
    requires IsRun(ws, es, lease) && k < |ws| && id in ws[k].notices
    ensures Exhausted(ws[k].claims, id, n)
  {
    assert Moves(ws[k - 1], es[k - 1], ws[k], lease);
    if id in ws[k - 1].notices {
      n := NoticeAfterThree(ws, es, lease, k - 1, id);
    } else {
      RunKeeps(ws, es, lease, k - 1);
      AttemptsCountClaims(ws, es, lease, k - 1);
      n := NoticeStep(ws[k - 1], es[k - 1], lease, id);
    }
    ClaimsGrow(ws[k - 1], es[k - 1], lease, id, n);
  }

  // ----- one worker turn -----

  /** The events of one undisturbed turn that serves `user`; `ok` says whether the run succeeded. */
  function Turn(w: World, worker: string, user: string, ok: bool, lease: Time): World {
    AfterRun(After(w, Claim(worker, user), lease), worker, ok, lease)
  }

  /** What follows once the run of the claimed batch, if any, has ended. */
  function AfterRun(claimed: World, worker: string, ok: bool, lease: Time): World {
    if worker !in claimed.held then claimed
    else if ok then After(claimed, Settle(worker), lease)
    else if claimed.held[worker].attempts < MAX_ATTEMPTS then After(claimed, Retry(worker), lease)
    else After(After(claimed, GiveUp(worker), lease), Settle(worker), lease)
  }

  predicate Leaves(b: Batch, ok: bool) { !ok && b.attempts < MAX_ATTEMPTS }

  lemma AfterClaim(w: World, worker: string, user: string, lease: Time, db: Db, b: Batch)
    requires ClaimedUser(w.db, user, worker, w.now, lease) == (db, Some(b))
    ensures After(w, Claim(worker, user), lease) == World(db, w.now, w.held[worker := b], w.claims + [b], w.notices)
  {
  }

  lemma RunState(w: World, worker: string, ok: bool, lease: Time, b: Batch)
    requires worker in w.held && w.held[worker] == b
    ensures AfterRun(w, worker, ok, lease).db == (if Leaves(b, ok) then w.db else Completed(w.db, b).GetOr(w.db))
    ensures AfterRun(w, worker, ok, lease).notices == (if ok || Leaves(b, ok) then w.notices else w.notices + {b.id})
    ensures worker !in AfterRun(w, worker, ok, lease).held
  {
  }

  lemma TurnState(w: World, worker: string, user: string, ok: bool, lease: Time, db: Db, b: Batch)
    requires worker !in w.held && ClaimedUser(w.db, user, worker, w.now, lease) == (db, Some(b))
    ensures Turn(w, worker, user, ok, lease).db == (if Leaves(b, ok) then db else Completed(db, b).GetOr(db))
    ensures Turn(w, worker, user, ok, lease).notices == (if ok || Leaves(b, ok) then w.notices else w.notices + {b.id})
    ensures worker !in Turn(w, worker, user, ok, lease).held
  {
    AfterClaim(w, worker, user, lease, db, b);
    RunState(World(db, w.now, w.held[worker := b], w.claims + [b], w.notices), worker, ok, lease, b);
  }

  /** An undisturbed turn finishes the whole batch, unless the run failed and may be tried again. */
  lemma TurnFinishes(w: World, worker: string, user: string, ok: bool, lease: Time)
    requires Inv(w) && worker !in w.held && LeaseFree(w.db, user, w.now) && ClaimIds(w.db, user) != {}
    ensures worker !in Turn(w, worker, user, ok, lease).held
    ensures var b, next := BatchOf(w.db, user, worker), Turn(w, worker, user, ok, lease);
            forall i :: i in b.updateIds ==>
                i in next.db.inbox
                && (next.db.inbox[i].done <==> ok || b.attempts >= 3)
  {
    ClaimTakes(w.db, user, worker);
    var (db, batch) := ClaimedUser(w.db, user, worker, w.now, lease);
    TurnState(w, worker, user, ok, lease, db, batch.value);
  }

  class ChatWorker {
    const store: ChatStore
    const id: string
    var notices: set<nat>

    constructor (store: ChatStore, id: string)
      ensures this.store == store && this.id == id && notices == {}
    {
      this.store, this.id, notices := store, id, {};
    }

    ghost function Now(now: Time): World
      reads this, store
    {
      World(store.State(), now, map[], [], notices)
    }

    /** Claim, run, then complete, leave for a retry, or give up with a notice. The run itself is the parameter `ok`. */
    method RunOnce(now: Time, ok: bool) returns (busy: bool, ghost user: string)
      modifies this, store
      ensures !busy ==> Now(now) == old(Now(now)) && forall u :: u in WaitingUsers(store.State()) ==>
              !LeaseFree(store.State(), u, now)
      ensures busy ==> user in WaitingUsers(old(store.State())) && LeaseFree(old(store.State()), user, now)
      ensures busy ==> Now(now).db == Turn(old(Now(now)), id, user, ok, store.leaseSeconds).db
      ensures busy ==> notices == Turn(old(Now(now)), id, user, ok, store.leaseSeconds).notices
    {
      ghost var before := Now(now);
      user := "";
      var claimed := store.Claim(id, now);
      busy := claimed.Some?;
      if busy {
        var batch := claimed.value;
        ghost var n: nat :| ServedAt(before.db, n, id, now, store.leaseSeconds, store.State(), claimed);
        user := WaitingUsers(before.db)[n];
        TurnState(before, id, user, ok, store.leaseSeconds, store.State(), batch);
        if ok || batch.attempts >= MAX_ATTEMPTS {
          if !ok { notices := notices + {batch.id}; }
          var held := store.Complete(batch);
        }
      }
    }
  }
}
