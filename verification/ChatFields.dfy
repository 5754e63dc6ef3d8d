/** What each transaction of the inbox leaves, row by row (course_discovery/chat/store.py:40-150). */
module ChatFields {
  import opened Text
  import opened Chat

  // ----- ingest -----

  predicate IsNew(r: Row, user: string, text: string) {
    r.user == user && r.text == text && r.batch.None? && r.attempts == 0 && !r.done
  }

  /** A new update of a known chat is a loose message of the chat's user; everything else stays. */
  lemma KnownChat(db: Db, m: Message, text: string, newUser: string)
    requires m.updateId !in db.seen && m.chatId in db.identities
    ensures var (after, result) := Ingested(db, m, text, newUser);
            result == Inserted && m.updateId in after.inbox
            && IsNew(after.inbox[m.updateId], db.identities[m.chatId], text)
            && (forall i :: i != m.updateId ==>
                  (i in after.inbox <==> i in db.inbox) && (i in db.inbox ==> after.inbox[i] == db.inbox[i]))
            && after.identities == db.identities && after.leases == db.leases && after.seen == db.seen + {m.updateId}
  {
  }

  /** A new chat gets the fresh user, unless somebody has it; then nothing happens. */
  lemma UnknownChat(db: Db, m: Message, text: string, newUser: string)
    requires m.updateId !in db.seen && m.chatId !in db.identities
    ensures var (after, result) := Ingested(db, m, text, newUser);
            if newUser in db.identities.Values then result == Failed && after == db
            else
              result == Inserted && m.updateId in after.inbox && IsNew(after.inbox[m.updateId], newUser, text)
              && after.identities == db.identities[m.chatId := newUser] && after.leases == db.leases
  {
  }

  /** Two messages of one chat, whatever comes with them, are messages of one user. */
  lemma OneUserPerChat(db: Db, m: Message, next: Message, text: string, more: string, user: string, other: string)
    requires m.chatId == next.chatId && m.updateId != next.updateId && next.updateId !in db.seen
    requires Ingested(db, m, text, user).1 == Inserted
    ensures var first := Ingested(db, m, text, user).0;
            var second := Ingested(first, next, more, other);
            second.1 == Inserted
            && second.0.inbox[next.updateId].user == first.inbox[m.updateId].user
            && (forall i :: i in first.inbox && i != next.updateId ==> second.0.inbox[i] == first.inbox[i])
  {
    var first := Ingested(db, m, text, user).0;
    KnownChat(first, next, more, other);
  }

  // ----- claim -----

  /** The user has a claimed and unfinished batch. */
  predicate HasOpen(db: Db, user: string) {
    exists i :: i in db.inbox && db.inbox[i].user == user && !db.inbox[i].done && db.inbox[i].batch.Some?
  }

  /** The message belongs to what a claim of the user takes: the open batch, or else everything loose. */
  predicate Due(db: Db, user: string, i: nat) {
    i in db.inbox && db.inbox[i].user == user && !db.inbox[i].done && (HasOpen(db, user) ==> db.inbox[i].batch.Some?)
  }

  lemma DueIs(db: Db, user: string, i: nat)
    ensures i in ClaimIds(db, user) <==> Due(db, user, i)
  {
    if j :| j in db.inbox && db.inbox[j].user == user && !db.inbox[j].done && db.inbox[j].batch.Some? {
      assert j in OpenIds(db, user);
    } else {
      assert OpenIds(db, user) == {};
    }
  }

  function TextsOf(ids: seq<nat>, inbox: map<nat, Row>): seq<string>
    requires forall i :: i in ids ==> i in inbox
  {
    seq(|ids|, k requires 0 <= k < |ids| => inbox[ids[k]].text)
  }

  /** The messages of the batch, in the order of their update ids, with their texts one line after the other. */
  ghost predicate AllDue(db: Db, user: string, b: Batch) {
    (forall i :: i in b.updateIds <==> Due(db, user, i))
    && (forall j, k :: 0 <= j < k < |b.updateIds| ==> b.updateIds[j] < b.updateIds[k])
    && b.text == Join("\n", TextsOf(b.updateIds, db.inbox))
  }

  lemma LinesAre(ids: seq<nat>, inbox: map<nat, Row>)
    requires forall i :: i in ids ==> i in inbox
    ensures JoinTexts(ids, inbox) == Join("\n", TextsOf(ids, inbox))
  {
    assert Texts(ids, inbox) == TextsOf(ids, inbox);
  }

  lemma BatchIsAllDue(db: Db, user: string, owner: string)
    requires ClaimIds(db, user) != {}
    ensures AllDue(db, user, BatchOf(db, user, owner))
  {
    forall i ensures i in ClaimIds(db, user) <==> Due(db, user, i) { DueIs(db, user, i); }
    LinesAre(SortedIds(ClaimIds(db, user)), db.inbox);
  }

  /** A claim takes all that is due to the user. */
  lemma ClaimTakesAllDue(db: Db, user: string, owner: string, now: Time, leaseSeconds: Time, b: Batch)
    requires ClaimedUser(db, user, owner, now, leaseSeconds).1 == Some(b)
    ensures AllDue(db, user, b) && b.user == user && b.owner == owner
  {
    BatchIsAllDue(db, user, owner);
  }

  /** The rows it takes are in the batch and tried once more; the lease runs for its time; nothing else changes. */
  lemma ClaimMarksDue(db: Db, user: string, owner: string, now: Time, leaseSeconds: Time, i: nat)
    requires ClaimedUser(db, user, owner, now, leaseSeconds).1.Some? && i in db.inbox
    ensures var (after, claimed) := ClaimedUser(db, user, owner, now, leaseSeconds);
            i in after.inbox
            && (if Due(db, user, i) then
                  after.inbox[i] == db.inbox[i].(batch := Some(claimed.value.id), attempts := db.inbox[i].attempts + 1)
                else after.inbox[i] == db.inbox[i])
            && after.leases == db.leases[user := Lease(owner, now + leaseSeconds)]
            && after.identities == db.identities && after.seen == db.seen
  {
    DueIs(db, user, i);
  }

  /** With nothing unfinished, a free user is left without a lease row, and nothing else changes. */
  lemma NothingToClaim(db: Db, user: string, owner: string, now: Time, leaseSeconds: Time)
    requires user !in db.leases || db.leases[user].lockedUntil < now
    requires forall i :: i in db.inbox && db.inbox[i].user == user ==> db.inbox[i].done
    ensures ClaimedUser(db, user, owner, now, leaseSeconds) == (db.(leases := db.leases - {user}), None)
  {
    UnfinishedHasWork(db, user);
  }

  // ----- renewal and completion -----

  /** Only the owner's renewal counts; it sets the lease anew from now and changes nothing else. */
  lemma RenewalExtends(db: Db, user: string, owner: string, now: Time, leaseSeconds: Time)
    ensures var after := Renewed(db, user, owner, now, leaseSeconds);
            (after.Some? <==> user in db.leases && db.leases[user].owner == owner)
            && (after.Some? ==>
                  user in after.value.leases && after.value.leases[user] == Lease(owner, now + leaseSeconds)
                  && (forall u :: u != user ==>
                        (u in after.value.leases <==> u in db.leases)
                        && (u in db.leases ==> after.value.leases[u] == db.leases[u]))
                  && after.value.inbox == db.inbox)
  {
  }

  /** The owner's completion finishes just the messages of the batch, and the user's next claim need not wait. */
  lemma CompletionFrees(db: Db, b: Batch, now: Time)
    ensures var after := Completed(db, b);
            (after.Some? <==> b.user in db.leases && db.leases[b.user].owner == b.owner)
            && (after.Some? ==>
                  b.user !in after.value.leases && LeaseFree(after.value, b.user, now)
                  && after.value.inbox.Keys == db.inbox.Keys
                  && (forall i :: i in db.inbox ==>
                        after.value.inbox[i] == (if i in b.updateIds then db.inbox[i].(done := true) else db.inbox[i])))
  {
  }
}
