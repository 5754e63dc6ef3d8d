/** Tagging over whole runs: what scheduling achieves, and when an up-to-date row has its own topics. */
module TaggingRuns {
  import opened Text
  import opened Tagging

  // ----- the outbox in every run -----

  /** An effect names the course of its key's URL and the hash of its key; URLs are unique. */
  ghost predicate OutboxOk(rows: Rows, outbox: Outbox) {
    (forall key :: key in outbox ==>
       outbox[key].payload.hash == key.hash
       && outbox[key].payload.course in rows && rows[outbox[key].payload.course].url == key.url)
    && (forall i, j :: i in rows && j in rows && rows[i].url == rows[j].url ==> i == j)
  }

  ghost predicate JobsFit(rows: Rows, jobs: map<nat, Job>) {
    forall k :: k in jobs ==>
      jobs[k].hash == jobs[k].key.hash
      && jobs[k].course in rows && rows[jobs[k].course].url == jobs[k].key.url
  }

  ghost predicate Fits(w: World) {
    OutboxOk(w.rows, w.outbox) && JobsFit(w.rows, w.jobs)
  }

  /** The rows are still there, with their URLs. */
  ghost predicate SameCourses(rows: Rows, next: Rows) {
    next.Keys == rows.Keys && forall i :: i in rows ==> next[i].url == rows[i].url
  }

  lemma SteppedCourses(t: Tagger, rows: Rows, j: Job, action: Action)
    ensures SameCourses(rows, Stepped(t, rows, j, action).0)
    ensures Stepped(t, rows, j, action).1.key == j.key
    ensures Stepped(t, rows, j, action).1.course == j.course && Stepped(t, rows, j, action).1.hash == j.hash
  {
  }

  lemma SameCoursesFit(rows: Rows, next: Rows, outbox: Outbox, jobs: map<nat, Job>)
    requires OutboxOk(rows, outbox) && JobsFit(rows, jobs) && SameCourses(rows, next)
    ensures OutboxOk(next, outbox) && JobsFit(next, jobs)
  {
  }

  lemma SubmittedFits(rows: Rows, outbox: Outbox, i: nat)
    requires OutboxOk(rows, outbox) && i in rows
    ensures OutboxOk(rows, Submitted(outbox, KeyFor(rows[i]), Payload(i, ContentHash(rows[i]))))
  {
  }

  lemma {:induction false} SubmittedAllFits(rows: Rows, outbox: Outbox, ids: seq<nat>)
    requires OutboxOk(rows, outbox) && forall i :: i in ids ==> i in rows
    ensures OutboxOk(rows, SubmittedAll(outbox, rows, ids))
    decreases |ids|
  {
    if ids == [] {
    } else {
      var n := |ids| - 1;
      assert ids == ids[..n] + [ids[n]];
      SubmittedAllFits(rows, outbox, ids[..n]);
      SubmittedFits(rows, SubmittedAll(outbox, rows, ids[..n]), ids[n]);
    }
  }

  lemma StepFits(t: Tagger, w: World, e: Event)
    requires Fits(w) && Enabled(w, e)
    ensures Fits(After(t, w, e))
  {
    match e
    case Schedule(prefix, limit) => SubmittedAllFits(w.rows, w.outbox, SelectedIds(w.rows, prefix, limit));
    case Step(job, action) =>
      SteppedCourses(t, w.rows, w.jobs[job], action);
      SameCoursesFit(w.rows, After(t, w, e).rows, w.outbox, After(t, w, e).jobs) by {
        JobStepFits(t, w, job, action);
      }
    case _ =>
  }

  lemma JobStepFits(t: Tagger, w: World, job: nat, action: Action)
    requires Fits(w) && job in w.jobs
    ensures JobsFit(w.rows, w.jobs[job := Stepped(t, w.rows, w.jobs[job], action).1])
  {
    SteppedCourses(t, w.rows, w.jobs[job], action);
  }

  lemma {:induction false} RunFits(t: Tagger, ws: seq<World>, es: seq<Event>, k: nat)
    requires IsRun(t, ws, es) && k < |ws|
    ensures Fits(ws[k])
  {
    if k == 0 {
    } else {
      RunFits(t, ws, es, k - 1);
      assert Moves(t, ws[k - 1], es[k - 1], ws[k]);
      StepFits(t, ws[k - 1], es[k - 1]);
    }
  }

  // ----- what scheduling achieves -----

  predicate OnRecordAsSettled(outbox: Outbox, key: Key) {
    key in outbox && !outbox[key].status.Pending?
  }

  /** An effect for the row's current text waits to be handled. */
  predicate PendingFor(rows: Rows, outbox: Outbox, i: nat)
    requires i in rows
  {
    var key := KeyFor(rows[i]);
    key in outbox && outbox[key] == Entry(Payload(i, ContentHash(rows[i])), Pending)
  }

  lemma {:induction false} NewEntry(rows: Rows, outbox: Outbox, ids: seq<nat>, key: Key)
    requires forall i :: i in ids ==> i in rows
    requires key in SubmittedAll(outbox, rows, ids) && key !in outbox
    ensures SubmittedAll(outbox, rows, ids)[key].status.Pending?
    decreases |ids|
  {
    var n := |ids| - 1;
    assert ids == ids[..n] + [ids[n]];
    if key in SubmittedAll(outbox, rows, ids[..n]) {
      NewEntry(rows, outbox, ids[..n], key);
    }
  }

  /**
   * For every table, prefix and limit: a selected row has a pending effect for its current text after scheduling if and
   * only if that text is not on record as settled.
   */
  lemma SelectedIsPending(t: Tagger, ws: seq<World>, es: seq<Event>, k: nat, prefix: string, limit: nat, i: nat)
    requires IsRun(t, ws, es) && k < |ws| && i in SelectedIds(ws[k].rows, prefix, limit)
    ensures var w := ws[k];
            PendingFor(w.rows, Scheduled(w.outbox, w.rows, prefix, limit), i)
            <==> !OnRecordAsSettled(w.outbox, KeyFor(w.rows[i]))
  {
    var w := ws[k];
    var ids, key := SelectedIds(w.rows, prefix, limit), KeyFor(w.rows[i]);
    RunFits(t, ws, es, k);
    ScheduleSubmits(w.outbox, w.rows, prefix, limit, key);
    SubmittedAllFits(w.rows, w.outbox, ids);
    var after := Scheduled(w.outbox, w.rows, prefix, limit);
    assert after[key].payload == Payload(i, ContentHash(w.rows[i])) by {
      assert w.rows[after[key].payload.course].url == key.url == w.rows[i].url;
    }
    if key !in w.outbox { NewEntry(w.rows, w.outbox, ids, key); }
  }

  // ----- a text that comes back -----

  /** The row's text is settled on record and in nobody's hands. */
  ghost predicate Shelved(w: World, i: nat) {
    i in w.rows && OnRecordAsSettled(w.outbox, KeyFor(w.rows[i]))
    && forall k :: k in w.jobs ==> w.jobs[k].key != KeyFor(w.rows[i])
  }

  /** The event edits the course, or takes the effect for its text off the record or back into the queue. */
  predicate Disturbs(w: World, e: Event, i: nat)
    requires i in w.rows
  {
    match e
    case Edit(course, _, _) => course == i
    case Requeue(key) => key == KeyFor(w.rows[i])
    case Prune(key) => key == KeyFor(w.rows[i])
    case _ => false
  }

  lemma OtherJobLeavesRow(t: Tagger, w: World, job: nat, action: Action, i: nat)
    requires Fits(w) && Shelved(w, i) && job in w.jobs
    ensures i in Stepped(t, w.rows, w.jobs[job], action).0
    ensures Stepped(t, w.rows, w.jobs[job], action).0[i] == w.rows[i]
  {
    var j := w.jobs[job];
    if j.course == i {
      assert j.hash != ContentHash(w.rows[i]);
    }
  }

  lemma ShelvedStays(t: Tagger, w: World, e: Event, i: nat)
    requires Fits(w) && Shelved(w, i) && Enabled(w, e) && !Disturbs(w, e, i)
    ensures Shelved(After(t, w, e), i) && After(t, w, e).rows[i] == w.rows[i]
  {
    match e
    case Schedule(prefix, limit) => ScheduleSubmits(w.outbox, w.rows, prefix, limit, KeyFor(w.rows[i]));
    case Step(job, action) =>
      OtherJobLeavesRow(t, w, job, action, i);
      SteppedCourses(t, w.rows, w.jobs[job], action);
    case _ =>
  }

  /**
   * A shelved row is left as it is, eligible or not and however often it is scheduled, until its text is edited or its
   * effect is requeued or pruned.
   */
  lemma {:induction false} ReturnedTextWaits(t: Tagger, w: World, ws: seq<World>, es: seq<Event>, k: nat, i: nat)
    requires Fits(w) && Shelved(w, i) && IsRunFrom(t, w, ws, es) && k < |ws|
    requires forall m :: 0 <= m < |es| ==> i in ws[m].rows ==> !Disturbs(ws[m], es[m], i)
    ensures Fits(ws[k]) && Shelved(ws[k], i) && ws[k].rows[i] == w.rows[i]
  {
    if k == 0 {
    } else {
      ReturnedTextWaits(t, w, ws, es, k - 1, i);
      assert Moves(t, ws[k - 1], es[k - 1], ws[k]);
      StepFits(t, ws[k - 1], es[k - 1]);
      ShelvedStays(t, ws[k - 1], es[k - 1], i);
    }
  }

  // ----- reaching a tagged row -----

  lemma SingleSelected(rows: Rows)
    requires rows.Keys == {0} && Eligible(rows[0])
    ensures SelectedIds(rows, "", 0) == [0]
  {
    var ids := SortedIds(EligibleIds(rows, ""));
    assert 0 in EligibleIds(rows, "");
    assert EligibleIds(rows, "") == {0};
    assert |ids| == 1 && ids[0] in ids;
  }

  lemma SingleScheduled(rows: Rows, outbox: Outbox)
    requires rows.Keys == {0} && Eligible(rows[0])
    ensures Scheduled(outbox, rows, "", 0) == Submitted(outbox, KeyFor(rows[0]), Payload(0, ContentHash(rows[0])))
  {
    SingleSelected(rows);
    assert [0][..0] == [];
  }

  /** One more step of the job's graph. */
  lemma ReachJobStep(t: Tagger, w: World, job: nat, action: Action) returns (next: World)
    requires Reachable(t, w) && job in w.jobs
    ensures Reachable(t, next) && next.outbox == w.outbox
    ensures var (rows, j) := Stepped(t, w.rows, w.jobs[job], action);
            next.rows == rows && next.jobs == w.jobs[job := j] && j.key == w.jobs[job].key
  {
    ReachStep(t, w, Step(job, action));
    next := After(t, w, Step(job, action));
    SteppedCourses(t, w.rows, w.jobs[job], action);
  }

  lemma {:induction false} ReachJobSteps(t: Tagger, w: World, job: nat, action: Action, n: nat) returns (next: World)
    requires Reachable(t, w) && job in w.jobs
    ensures Reachable(t, next) && next.outbox == w.outbox
    ensures var (rows, j) := StepTimes(t, w.rows, w.jobs[job], action, n);
            next.rows == rows && next.jobs == w.jobs[job := j] && j.key == w.jobs[job].key
    decreases n
  {
    if n == 0 {
      next := w;
      assert w.jobs == w.jobs[job := w.jobs[job]];
    } else {
      var mid := ReachJobStep(t, w, job, action);
      next := ReachJobSteps(t, mid, job, action, n - 1);
      assert next.jobs == w.jobs[job := next.jobs[job]];
    }
  }

  /** The only row, eligible and with a new text, is scheduled, handled and delivered. */
  lemma TagOnce(t: Tagger, w: World) returns (next: World)
    requires Reachable(t, w) && w.rows.Keys == {0} && Eligible(w.rows[0]) && w.jobs == map[]
    requires KeyFor(w.rows[0]) !in w.outbox
    ensures Reachable(t, next) && next.jobs == map[] && next.rows.Keys == {0}
    ensures var r := w.rows[0];
            next.rows[0] == r.(topics := Topics(t, r.title, r.description), taggedHash := Some(ContentHash(r)),
                outcome := Some(Tagged))
    ensures next.outbox == w.outbox[KeyFor(w.rows[0]) := Entry(Payload(0, ContentHash(w.rows[0])), Delivered)]
  {
    var key, p := KeyFor(w.rows[0]), Payload(0, ContentHash(w.rows[0]));
    SingleScheduled(w.rows, w.outbox);
    ReachStep(t, w, Schedule("", 0));
    var scheduled := World(w.rows, w.outbox[key := Entry(p, Pending)], map[]);
    assert scheduled == After(t, w, Schedule("", 0));
    ReachStep(t, scheduled, Start(0, key));
    var started := After(t, scheduled, Start(0, key));
    assert started == World(w.rows, scheduled.outbox, map[0 := NewJob(key, p)]);
    next := DeliverOnce(t, started, key, p);
    assert next.outbox == w.outbox[key := Entry(p, Delivered)];
  }

  lemma DeliverOnce(t: Tagger, w: World, key: Key, p: Payload) returns (next: World)
    requires Reachable(t, w) && w.jobs == map[0 := NewJob(key, p)] && key in w.outbox
    ensures Reachable(t, next) && next.jobs == map[] && next.rows == Handled(t, w.rows, p, Pass)
    ensures next.outbox == WithStatus(w.outbox, key, Delivered)
  {
    HandlerIsFourSteps(t, w.rows, key, p, Pass);
    var done := ReachJobSteps(t, w, 0, Pass, 4);
    ReachStep(t, done, Settle(0, Delivered));
    next := After(t, done, Settle(0, Delivered));
    assert next.jobs == map[];
  }

  lemma ReachInserted(t: Tagger, title: string, description: string) returns (w: World)
    ensures Reachable(t, w) && w == World(map[0 := Row("u", title, description, [], None, None)], map[], map[])
  {
    ReachStart(t);
    ReachStep(t, EMPTY, Insert(0, "u", title, description));
    w := After(t, EMPTY, Insert(0, "u", title, description));
  }

  lemma ReachEdited(t: Tagger, w: World, title: string, description: string) returns (next: World)
    requires Reachable(t, w) && 0 in w.rows
    ensures Reachable(t, next)
    ensures next == w.(rows := w.rows[0 := w.rows[0].(title := title, description := description)])
  {
    ReachStep(t, w, Edit(0, title, description));
    next := After(t, w, Edit(0, title, description));
  }

  /**
   * A run in which a text comes back: tagged, replaced by another text that is tagged too, and restored. The row is
   * then eligible and shelved, with the topics of the other text.
   */
  lemma TextComesBack(t: Tagger, title: string, description: string, other: string) returns (w: World)
    requires HashOf(title, description) != HashOf(title, other)
    ensures Reachable(t, w) && Shelved(w, 0) && Eligible(w.rows[0])
    ensures w.rows[0].title == title && w.rows[0].description == description
    ensures w.rows[0].topics == Topics(t, title, other)
  {
    var inserted := ReachInserted(t, title, description);
    var tagged := TagOnce(t, inserted);
    var edited := ReachEdited(t, tagged, title, other);
    var again := TagOnce(t, edited);
    w := ReachEdited(t, again, title, description);
    assert KeyFor(w.rows[0]) == KeyFor(inserted.rows[0]);
  }

  // ----- exactly when up-to-date rows have their own topics -----

  /** Texts with the same hash have the same topics. */
  ghost predicate HashDecides(t: Tagger) {
    forall title, description, title', description' ::
      HashOf(title, description) == HashOf(title', description')
      ==> Topics(t, title, description) == Topics(t, title', description')
  }

  /** Every up-to-date row has the topics of its own title and description. */
  ghost predicate OwnTopics(t: Tagger, w: World) {
    forall i :: i in w.rows && UpToDate(w.rows[i]) ==>
      w.rows[i].topics == Topics(t, w.rows[i].title, w.rows[i].description)
  }

  lemma DecidedIsOwn(t: Tagger, w: World)
    requires HashDecides(t) && Reachable(t, w)
    ensures OwnTopics(t, w)
  {
    var ws, es :| IsRun(t, ws, es) && ws[|es|] == w;
    forall i | i in w.rows && UpToDate(w.rows[i])
      ensures w.rows[i].topics == Topics(t, w.rows[i].title, w.rows[i].description)
    {
      TopicsFitTheHash(t, ws, es, |es|, i);
    }
  }

  /** Two texts with one hash and different topics: a row is tagged for the one and edited to be the other. */
  lemma EditGoesUnnoticed(t: Tagger, title: string, description: string, title': string, description': string)
    returns (w: World)
    requires HashOf(title, description) == HashOf(title', description')
    requires Topics(t, title, description) != Topics(t, title', description')
    ensures Reachable(t, w) && 0 in w.rows && w.rows[0].title == title' && w.rows[0].description == description'
    ensures UpToDate(w.rows[0]) && !Eligible(w.rows[0]) && !OwnTopics(t, w)
    ensures w.rows[0].topics == Topics(t, title, description)
  {
    var inserted := ReachInserted(t, title, description);
    var tagged := TagOnce(t, inserted);
    w := ReachEdited(t, tagged, title', description');
    assert UpToDate(w.rows[0]);
  }

  /** In every run every up-to-date row has its own topics if and only if the topics depend on no more than the hash. */
  lemma OwnTopicsExactly(t: Tagger)
    ensures (forall w :: Reachable(t, w) ==> OwnTopics(t, w)) <==> HashDecides(t)
  {
    if HashDecides(t) {
      forall w | Reachable(t, w) ensures OwnTopics(t, w) { DecidedIsOwn(t, w); }
    } else {
      var title, description, title', description' :|
        HashOf(title, description) == HashOf(title', description')
        && Topics(t, title, description) != Topics(t, title', description');
      var w := EditGoesUnnoticed(t, title, description, title', description');
    }
  }
}
