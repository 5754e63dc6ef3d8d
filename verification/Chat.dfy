/**
 * The chat inbox with per-user leases and batches (course_discovery/chat/store.py, migrations/012_chat_surface.sql).
 */
module Chat {
  import opened Text

  type Time = real

  /** A row of chat_inbox. */
  datatype Row = Row(user: string, text: string, batch: Option<nat>, attempts: nat, done: bool)

  /** A row of chat_user_leases. */
  datatype Lease = Lease(owner: string, lockedUntil: Time)

  datatype Message = Message(updateId: nat, chatId: int)

  datatype Batch = Batch(user: string, id: nat, updateIds: seq<nat>, text: string, attempts: nat, owner: string)

  function ThreadId(batchId: nat): string { "chat-" + Decimal(batchId) }

  lemma ThreadIdInjective(a: nat, b: nat)
    requires ThreadId(a) == ThreadId(b)
    ensures a == b
  {
    assert ThreadId(a)[5..] == Decimal(a) && ThreadId(b)[5..] == Decimal(b);
    DecimalInjective(a, b);
  }

  /** chat_updates, chat_identities, chat_inbox and chat_user_leases. */
  datatype Db = Db(seen: set<nat>, identities: map<int, string>, inbox: map<nat, Row>, leases: map<string, Lease>)

  datatype Ingestion = Inserted | Duplicate | Failed

  // ----- one transaction at a time -----

  function Ingested(db: Db, m: Message, text: string, newUser: string): (Db, Ingestion) {
    if m.updateId in db.seen then (db, Duplicate)
    else if m.chatId in db.identities then
      (db.(seen := db.seen + {m.updateId},
           inbox := db.inbox[m.updateId := Row(db.identities[m.chatId], text, None, 0, false)]), Inserted)
    else if newUser in db.identities.Values then (db, Failed)
    else
      (db.(seen := db.seen + {m.updateId}, identities := db.identities[m.chatId := newUser],
           inbox := db.inbox[m.updateId := Row(newUser, text, None, 0, false)]), Inserted)
  }

  /** The user's messages in the open batch. */
  function OpenIds(db: Db, user: string): set<nat> {
    set i | i in db.inbox && db.inbox[i].user == user && !db.inbox[i].done && db.inbox[i].batch.Some?
  }

  /** The user's messages in no batch. */
  function LooseIds(db: Db, user: string): set<nat> {
    set i | i in db.inbox && db.inbox[i].user == user && !db.inbox[i].done && db.inbox[i].batch.None?
  }

  /** What a claim would take: the open batch if there is one, otherwise everything loose. */
  function ClaimIds(db: Db, user: string): set<nat> {
    if OpenIds(db, user) != {} then OpenIds(db, user) else LooseIds(db, user)
  }

  predicate LeaseFree(db: Db, user: string, now: Time) {
    user in db.leases ==> db.leases[user].lockedUntil < now
  }

  /** The texts of the messages, in order. */
  function Texts(ids: seq<nat>, inbox: map<nat, Row>): (r: seq<string>)
    requires forall i :: i in ids ==> i in inbox
    ensures |r| == |ids| && forall k :: 0 <= k < |ids| ==> r[k] == inbox[ids[k]].text
  {
    if ids == [] then []
    else
      assert ids == [ids[0]] + ids[1..];
      [inbox[ids[0]].text] + Texts(ids[1..], inbox)
  }

  function JoinTexts(ids: seq<nat>, inbox: map<nat, Row>): string
    requires forall i :: i in ids ==> i in inbox
  {
    Join("\n", Texts(ids, inbox))
  }

  function MaxAttempts(ids: seq<nat>, inbox: map<nat, Row>): (m: nat)
    requires forall i :: i in ids ==> i in inbox
    ensures forall i :: i in ids ==> inbox[i].attempts <= m
    ensures ids != [] ==> exists i :: i in ids && inbox[i].attempts == m
  {
    if ids == [] then 0
    else
      assert ids == [ids[0]] + ids[1..];
      var rest := MaxAttempts(ids[1..], inbox);
      if rest <= inbox[ids[0]].attempts then
        assert ids[0] in ids;
        inbox[ids[0]].attempts
      else
        assert exists i :: i in ids[1..] && i in ids && inbox[i].attempts == rest;
        rest
  }

  function Batched(inbox: map<nat, Row>, ids: set<nat>, batchId: nat): map<nat, Row> {
    map i | i in inbox :: if i in ids then inbox[i].(batch := Some(batchId), attempts := inbox[i].attempts + 1)
        else inbox[i]
  }

  function BatchOf(db: Db, user: string, owner: string): (b: Batch)
    requires ClaimIds(db, user) != {}
  {
    var ids := SortedIds(ClaimIds(db, user));
    var first := db.inbox[ids[0]];
    Batch(user, first.batch.GetOr(ids[0]), ids, JoinTexts(ids, db.inbox), MaxAttempts(ids, db.inbox) + 1, owner)
  }

  function ClaimedUser(db: Db, user: string, owner: string, now: Time, leaseSeconds: Time): (Db, Option<Batch>) {
    if !LeaseFree(db, user, now) then (db, None)
    else if ClaimIds(db, user) == {} then (db.(leases := db.leases - {user}), None)
    else
      var b := BatchOf(db, user, owner);
      (db.(leases := db.leases[user := Lease(owner, now + leaseSeconds)],
          inbox := Batched(db.inbox, ClaimIds(db, user), b.id)), Some(b))
  }

  predicate Owns(db: Db, user: string, owner: string) {
    user in db.leases && db.leases[user].owner == owner
  }

  /** None where the original raises LeaseLost. */
  function Renewed(db: Db, user: string, owner: string, now: Time, leaseSeconds: Time): Option<Db> {
    if Owns(db, user, owner) then Some(db.(leases := db.leases[user := Lease(owner, now + leaseSeconds)])) else None
  }

  function MarkedDone(inbox: map<nat, Row>, ids: seq<nat>): map<nat, Row> {
    map i | i in inbox :: if i in ids then inbox[i].(done := true) else inbox[i]
  }

  /** None where the original raises LeaseLost. */
  function Completed(db: Db, b: Batch): Option<Db> {
    if Owns(db, b.user, b.owner)
    then Some(db.(inbox := MarkedDone(db.inbox, b.updateIds), leases := db.leases - {b.user}))
    else None
  }

  // ----- whose turn it is -----

  function PendingIds(db: Db): set<nat> {
    set i | i in db.inbox && !db.inbox[i].done
  }

  /** The users of `ids`, each at its first occurrence: GROUP BY user_id ORDER BY min(update_id). */
  function UsersOf(ids: seq<nat>, inbox: map<nat, Row>): (r: seq<string>)
    requires forall i :: i in ids ==> i in inbox
    ensures forall u :: u in r <==> exists i :: i in ids && inbox[i].user == u
    ensures NoDup(r)
  {
    if ids == [] then []
    else
      var n := |ids| - 1;
      assert ids == ids[..n] + [ids[n]];
      var last := inbox[ids[n]].user;
      var before := UsersOf(ids[..n], inbox);
      NoDupSnoc(before, last);
      assert forall i :: i in ids <==> i in ids[..n] || i == ids[n];
      if last in before then before else before + [last]
  }

  function WaitingUsers(db: Db): seq<string> {
    UsersOf(SortedIds(PendingIds(db)), db.inbox)
  }

  predicate Waits(i: nat, user: string, ids: seq<nat>, inbox: map<nat, Row>) {
    i in ids && i in inbox && inbox[i].user == user
  }

  lemma {:induction false} UsersInOrder(ids: seq<nat>, inbox: map<nat, Row>, j: nat, k: nat) returns (first: nat)
    requires forall i :: i in ids ==> i in inbox
    requires forall a, b :: 0 <= a < b < |ids| ==> ids[a] < ids[b]
    requires j < k < |UsersOf(ids, inbox)|
    ensures Waits(first, UsersOf(ids, inbox)[j], ids, inbox)
    ensures forall i :: Waits(i, UsersOf(ids, inbox)[k], ids, inbox) ==> first < i
  {
    var n := |ids| - 1;
    assert ids == ids[..n] + [ids[n]];
    var before := UsersOf(ids[..n], inbox);
    var users := UsersOf(ids, inbox);
    if k < |before| {
      first := UsersInOrder(ids[..n], inbox, j, k);
      assert first in ids[..n];
      forall i | Waits(i, users[k], ids, inbox) ensures first < i {
        if i != ids[n] { assert Waits(i, before[k], ids[..n], inbox); }
      }
    } else {
      assert users[j] in before;
      first :| first in ids[..n] && inbox[first].user == users[j];
      forall i | Waits(i, users[k], ids, inbox) ensures first < i {
        assert i !in ids[..n];
      }
    }
  }

  /** Of two waiting users, the one listed first has the older oldest message. */
  lemma LongestWaitingFirst(db: Db, j: nat, k: nat) returns (oldest: nat)
    requires j < k < |WaitingUsers(db)|
    ensures oldest in PendingIds(db) && db.inbox[oldest].user == WaitingUsers(db)[j]
    ensures forall i :: i in PendingIds(db) && db.inbox[i].user == WaitingUsers(db)[k] ==> oldest < i
  {
    var ids := SortedIds(PendingIds(db));
    oldest := UsersInOrder(ids, db.inbox, j, k);
    forall i | i in PendingIds(db) && db.inbox[i].user == WaitingUsers(db)[k] ensures oldest < i {
      assert Waits(i, WaitingUsers(db)[k], ids, db.inbox);
    }
  }

  lemma WaitingUserHasWork(db: Db, user: string)
    requires user in WaitingUsers(db)
    ensures ClaimIds(db, user) != {}
  {
    var i :| i in SortedIds(PendingIds(db)) && db.inbox[i].user == user;
    if db.inbox[i].batch.Some? { assert i in OpenIds(db, user); } else { assert i in LooseIds(db, user); }
  }

  /** The user has a message that is not done. */
  predicate Unfinished(db: Db, user: string) {
    exists i :: i in db.inbox && db.inbox[i].user == user && !db.inbox[i].done
  }

  lemma UnfinishedHasWork(db: Db, user: string)
    ensures Unfinished(db, user) <==> ClaimIds(db, user) != {}
  {
    if Unfinished(db, user) {
      var i :| i in db.inbox && db.inbox[i].user == user && !db.inbox[i].done;
      if db.inbox[i].batch.Some? { assert i in OpenIds(db, user); } else { assert i in LooseIds(db, user); }
    }
    if ClaimIds(db, user) != {} {
      var i :| i in ClaimIds(db, user);
      assert i in db.inbox && db.inbox[i].user == user && !db.inbox[i].done;
    }
  }

  /** A user is served exactly if a message is unfinished and no lease row, or one that has run out, is there. */
  lemma ServedExactly(db: Db, user: string, owner: string, now: Time, leaseSeconds: Time)
    ensures ClaimedUser(db, user, owner, now, leaseSeconds).1.Some? <==>
              Unfinished(db, user) && (user !in db.leases || db.leases[user].lockedUntil < now)
  {
    UnfinishedHasWork(db, user);
  }

  lemma WaitingAreUnfinished(db: Db, user: string)
    ensures user in WaitingUsers(db) <==> Unfinished(db, user)
  {
    var ids := SortedIds(PendingIds(db));
    if user in WaitingUsers(db) {
      var i :| i in ids && db.inbox[i].user == user;
      assert i in PendingIds(db);
    }
    if Unfinished(db, user) {
      var i :| i in db.inbox && db.inbox[i].user == user && !db.inbox[i].done;
      assert i in PendingIds(db) && i in ids;
    }
  }

  /** Every user with an unfinished message has a lease that has not run out. */
  ghost predicate AllLeased(db: Db, now: Time) {
    forall i :: i in db.inbox && !db.inbox[i].done ==>
      db.inbox[i].user in db.leases && db.leases[db.inbox[i].user].lockedUntil >= now
  }

  /** The first `n` waiting users are leased. */
  ghost predicate LeasedUpTo(db: Db, n: nat, now: Time) {
    n <= |WaitingUsers(db)| && forall j :: 0 <= j < n ==> !LeaseFree(db, WaitingUsers(db)[j], now)
  }

  lemma NobodyFree(db: Db, now: Time)
    requires LeasedUpTo(db, |WaitingUsers(db)|, now)
    ensures AllLeased(db, now)
  {
    forall i | i in db.inbox && !db.inbox[i].done
      ensures db.inbox[i].user in db.leases && db.leases[db.inbox[i].user].lockedUntil >= now
    {
      WaitingAreUnfinished(db, db.inbox[i].user);
    }
  }

  lemma SomebodyFree(db: Db, user: string, now: Time)
    requires user in WaitingUsers(db) && LeaseFree(db, user, now)
    ensures !AllLeased(db, now)
  {
    WaitingAreUnfinished(db, user);
  }

  /** The claim served the n-th waiting user, all earlier ones being leased. */
  ghost predicate ServedAt(before: Db, n: nat, owner: string, now: Time, leaseSeconds: Time, after: Db,
                           batch: Option<Batch>) {
    var users := WaitingUsers(before);
    n < |users| && LeasedUpTo(before, n, now)
    && (after, batch) == ClaimedUser(before, users[n], owner, now, leaseSeconds)
  }

  lemma TryServes(before: Db, n: nat, owner: string, now: Time, leaseSeconds: Time, after: Db, batch: Option<Batch>)
    requires n < |WaitingUsers(before)| && LeasedUpTo(before, n, now)
    requires (after, batch) == ClaimedUser(before, WaitingUsers(before)[n], owner, now, leaseSeconds)
    ensures if batch.Some? then ServedAt(before, n, owner, now, leaseSeconds, after, batch) && !AllLeased(before, now)
            else after == before && LeasedUpTo(before, n + 1, now)
  {
    var user := WaitingUsers(before)[n];
    assert user in WaitingUsers(before);
    WaitingUserHasWork(before, user);
    if batch.Some? { SomebodyFree(before, user, now); }
  }

  class ChatStore {
    var seen: set<nat>
    var identities: map<int, string>
    var inbox: map<nat, Row>
    var leases: map<string, Lease>
    const leaseSeconds: Time

    function State(): Db
      reads this
    {
      Db(seen, identities, inbox, leases)
    }

    constructor (leaseSeconds: Time)
      ensures State() == Db({}, map[], map[], map[]) && this.leaseSeconds == leaseSeconds
    {
      this.leaseSeconds := leaseSeconds;
      seen, identities, inbox, leases := {}, map[], map[], map[];
    }

    /** `newUser` is the freshly drawn identity; a clash with an existing one rolls the transaction back. */
    method Ingest(m: Message, text: string, newUser: string) returns (result: Ingestion)
      modifies this
      ensures (State(), result) == Ingested(old(State()), m, text, newUser)
    {
      if m.updateId in seen { return Duplicate; }
      var user;
      if m.chatId in identities {
        user := identities[m.chatId];
      } else if newUser in identities.Values {
        return Failed;
      } else {
        identities := identities[m.chatId := newUser];
        user := newUser;
      }
      seen := seen + {m.updateId};
      inbox := inbox[m.updateId := Row(user, text, None, 0, false)];
      result := Inserted;
    }

    /** Tries the waiting users, the longest-waiting first; each try is a transaction of its own. */
    method Claim(owner: string, now: Time) returns (batch: Option<Batch>)
      modifies this
      ensures batch.None? ==> State() == old(State()) && LeasedUpTo(State(), |WaitingUsers(State())|, now)
      ensures batch.Some? ==> exists n :: ServedAt(old(State()), n, owner, now, leaseSeconds, State(), batch)
      ensures batch.None? <==> AllLeased(old(State()), now)
    {
      ghost var before := State();
      var users := WaitingUsers(State());
      batch := None;
      var n := 0;
      while n < |users|
        invariant 0 <= n <= |users| && State() == before && batch.None?
        invariant LeasedUpTo(before, n, now)
      {
        batch := ClaimUser(users[n], owner, now);
        TryServes(before, n, owner, now, leaseSeconds, State(), batch);
        if batch.Some? { return; }
        n := n + 1;
      }
      NobodyFree(before, now);
    }

    method ClaimUser(user: string, owner: string, now: Time) returns (batch: Option<Batch>)
      modifies this
      ensures (State(), batch) == ClaimedUser(old(State()), user, owner, now, leaseSeconds)
    {
      if user in leases && !(leases[user].lockedUntil < now) { return None; }
      leases := leases[user := Lease(owner, now + leaseSeconds)];
      var rows := OpenIds(State(), user);
      if rows == {} {
        rows := LooseIds(State(), user);
        if rows == {} {
          leases := leases - {user};
          assert leases == old(leases) - {user};
          return None;
        }
      }
      var ids := SortedIds(rows);
      var first := inbox[ids[0]];
      var batchId := if first.batch.Some? then first.batch.value else ids[0];
      batch := Some(Batch(user, batchId, ids, JoinTexts(ids, inbox), MaxAttempts(ids, inbox) + 1, owner));
      inbox := Batched(inbox, rows, batchId);
    }

    /** False where the original raises LeaseLost. */
    method Renew(batch: Batch, now: Time) returns (ok: bool)
      modifies this
      ensures ok <==> Renewed(old(State()), batch.user, batch.owner, now, leaseSeconds).Some?
      ensures State() == Renewed(old(State()), batch.user, batch.owner, now, leaseSeconds).GetOr(old(State()))
    {
      ok := batch.user in leases && leases[batch.user].owner == batch.owner;
      if ok {
        leases := leases[batch.user := Lease(batch.owner, now + leaseSeconds)];
      }
    }

    /** False where the original raises LeaseLost. */
    method Complete(batch: Batch) returns (ok: bool)
      modifies this
      ensures ok <==> Completed(old(State()), batch).Some?
      ensures State() == Completed(old(State()), batch).GetOr(old(State()))
    {
      ok := batch.user in leases && leases[batch.user].owner == batch.owner;
      if ok {
        inbox := MarkedDone(inbox, batch.updateIds);
        leases := leases - {batch.user};
      }
    }
  }
}
