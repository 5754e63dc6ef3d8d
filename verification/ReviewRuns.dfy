/** What holds over every run of the review graph, with nodes cut short and run again at any point. */
module ReviewRuns {
  import opened Text
  import opened Courses
  import opened Catalogue
  import opened ReviewGraph
  import opened ReviewEffects
  import opened ReviewBounds
  import opened ReviewStaging
  import CatalogueRows

  ghost predicate WorldOk(c: Config, base: Table, w: World) {
    Rounds(c, w.s) && Gate(c, w.s) && OutboxOk(c, w) && DbOk(c, base, w.s, w.env.db)
  }

  lemma StepOk(c: Config, base: Table, w: World, step: Step)
    requires WorldOk(c, base, w) && StepEnabled(c, w, step)
    ensures WorldOk(c, base, After(c, w, step))
  {
    match step
    case Commit(e) =>
      RoundsStep(c, w.s, e);
      GateStep(c, w.s, e);
      CommitOutbox(c, w, e);
      CommitDb(c, base, w, e);
    case Interrupted(done) =>
      InterruptedOutbox(c, w, done);
      InterruptedDb(c, base, w, done);
  }

  lemma StartOk(c: Config, w: World)
    requires w.s == INITIAL && FreshRun(c, w.env)
    ensures WorldOk(c, w.env.db.courses, w)
  {
    InitiallyAnchored(c);
  }

  lemma {:induction false} RunOk(c: Config, ws: seq<World>, steps: seq<Step>, k: nat)
    requires IsWorldRun(c, ws, steps) && k < |ws|
    ensures WorldOk(c, ws[0].env.db.courses, ws[k])
  {
    if k == 0 {
      StartOk(c, ws[0]);
    } else {
      RunOk(c, ws, steps, k - 1);
      assert StepMoves(c, ws[k - 1], steps[k - 1], ws[k]);
      StepOk(c, ws[0].env.db.courses, ws[k - 1], steps[k - 1]);
    }
  }

  // ----- bounded work -----

  function Commits(steps: seq<Step>): nat
    decreases |steps|
  {
    if steps == [] then 0
    else Commits(steps[..|steps| - 1]) + (if steps[|steps| - 1].Commit? then 1 else 0)
  }

  lemma CommitLowers(c: Config, ws: seq<World>, steps: seq<Step>, k: nat)
    requires IsWorldRun(c, ws, steps) && k < |steps|
    ensures Potential(c, ws[k + 1].s) + (if steps[k].Commit? then 1 else 0) <= Potential(c, ws[k].s)
  {
    RunOk(c, ws, steps, k);
    assert StepMoves(c, ws[k], steps[k], ws[k + 1]);
    if steps[k].Commit? { StepLowers(c, ws[k].s, steps[k].e); }
  }

  lemma {:induction false} CommitsLowerPotential(c: Config, ws: seq<World>, steps: seq<Step>, k: nat)
    requires IsWorldRun(c, ws, steps) && k < |ws|
    ensures Commits(steps[..k]) + Potential(c, ws[k].s) <= Potential(c, INITIAL)
  {
    if k == 0 {
    } else {
      CommitsLowerPotential(c, ws, steps, k - 1);
      CommitLowers(c, ws, steps, k - 1);
      assert steps[..k][..k - 1] == steps[..k - 1];
    }
  }

  /** However often nodes are cut short, a run completes no more nodes than its bound. */
  lemma CommitsAreBounded(c: Config, ws: seq<World>, steps: seq<Step>)
    requires IsWorldRun(c, ws, steps)
    ensures Commits(steps) <= (Positive(c.maxRounds) + 1) * PassCost(c)
  {
    CommitsLowerPotential(c, ws, steps, |steps|);
    assert steps[..|steps|] == steps;
    Distribute(Positive(c.maxRounds), PassCost(c));
  }

  // ----- effects -----

  /** At every pause of a chat run there is one digest effect per round shown, for what that round showed. */
  lemma OneDigestPerRound(c: Config, ws: seq<World>, steps: seq<Step>, k: nat, p: int)
    requires IsWorldRun(c, ws, steps) && k < |ws| && ws[k].s.place.AwaitHumanReview? && c.chat
    ensures |ws[k].s.shown| == |ws[k].s.history| + 1
    ensures DigestKey(c.run, p) in ws[k].env.outbox <==> 0 <= p < |ws[k].s.shown|
    ensures 0 <= p < |ws[k].s.shown| ==>
              ws[k].env.outbox[DigestKey(c.run, p)] == DigestPayload(p, UrlsOf(ws[k].s.shown[p].courses))
  {
    RunOk(c, ws, steps, k);
    var s, outbox := ws[k].s, ws[k].env.outbox;
    if DigestKey(c.run, p) in outbox {
      assert KeyOk(c, s, DigestKey(c.run, p), outbox[DigestKey(c.run, p)]);
    }
  }

  /** Outside chat a run sends no digest and no prompt; in chat it never publishes. */
  lemma EffectsFitTheMode(c: Config, ws: seq<World>, steps: seq<Step>, k: nat, key: Key)
    requires IsWorldRun(c, ws, steps) && k < |ws| && key in ws[k].env.outbox && key.run == c.run
    ensures key.PublishKey? <==> !c.chat
  {
    RunOk(c, ws, steps, k);
    assert KeyOk(c, ws[k].s, key, ws[k].env.outbox[key]);
  }

  /** A publish effect means the last round shown was approved, and lists exactly its courses; and it is not missing. */
  lemma PublishMeansApproved(c: Config, ws: seq<World>, steps: seq<Step>, k: nat)
    requires IsWorldRun(c, ws, steps) && k < |ws|
    ensures PublishKey(c.run) in ws[k].env.outbox ==>
              Approved(c, ws[k].s) && |ws[k].s.shown| > 0
              && ws[k].env.outbox[PublishKey(c.run)] ==
                  PublishPayload(UrlsOf(ws[k].s.shown[|ws[k].s.shown| - 1].courses))
    ensures Approved(c, ws[k].s) && !ws[k].s.place.SendApprovedCourses? ==> PublishKey(c.run) in ws[k].env.outbox
  {
    RunOk(c, ws, steps, k);
    if PublishKey(c.run) in ws[k].env.outbox {
      assert KeyOk(c, ws[k].s, PublishKey(c.run), ws[k].env.outbox[PublishKey(c.run)]);
    }
  }

  // ----- the catalogue -----

  /** The human answer, or the model's reading of it, approved the last round shown. */
  ghost predicate ApprovesAt(c: Config, w: World, step: Step) {
    w.s.place.InterpretReviewFeedback? && step.Commit? && step.e.Reviewed?
    && Decide(c, |w.s.history|, step.e.reading, step.e.reply).action == PUBLISH
  }

  lemma ApprovalHappens(c: Config, w: World, step: Step)
    requires Rounds(c, w.s) && Gate(c, w.s) && StepEnabled(c, w, step)
    requires Approved(c, After(c, w, step).s) && !Approved(c, w.s)
    ensures ApprovesAt(c, w, step)
  {
    if step.Commit? && !step.e.Reviewed? { NotYetApproved(c, w.s, step.e); }
  }

  /** The catalogue changes only in a run outside chat, after an approving decision. */
  lemma {:induction false} ChangedMeansApproved(c: Config, ws: seq<World>, steps: seq<Step>, k: nat) returns (j: nat)
    requires IsWorldRun(c, ws, steps) && k < |ws| && Approved(c, ws[k].s)
    ensures j < k && ApprovesAt(c, ws[j], steps[j])
    decreases k
  {
    assert !Approved(c, INITIAL);
    if Approved(c, ws[k - 1].s) {
      j := ChangedMeansApproved(c, ws, steps, k - 1);
    } else {
      j := k - 1;
      ApprovedNow(c, ws, steps, j);
    }
  }

  lemma ApprovedNow(c: Config, ws: seq<World>, steps: seq<Step>, k: nat)
    requires IsWorldRun(c, ws, steps) && k < |steps| && Approved(c, ws[k + 1].s) && !Approved(c, ws[k].s)
    ensures ApprovesAt(c, ws[k], steps[k])
  {
    RunOk(c, ws, steps, k);
    assert StepMoves(c, ws[k], steps[k], ws[k + 1]);
    ApprovalHappens(c, ws[k], steps[k]);
  }

  lemma CatalogueIsSafe(c: Config, ws: seq<World>, steps: seq<Step>, k: nat)
    requires IsWorldRun(c, ws, steps) && k < |ws| && ws[k].env.db.courses != ws[0].env.db.courses
    ensures !c.chat && exists j :: 0 <= j < k && ApprovesAt(c, ws[j], steps[j])
  {
    RunOk(c, ws, steps, k);
    var j := ChangedMeansApproved(c, ws, steps, k);
  }

  // ----- what stays staged -----

  ghost predicate Staging(c: Config, w: World) {
    StagingOk(c, w.s, w.env.db.pending) && AcceptedStaged(c, w.s, w.env.db.pending) && ShownStaged(w.s)
  }

  lemma StagingStep(c: Config, base: Table, w: World, step: Step)
    requires WorldOk(c, base, w) && Staging(c, w) && StepEnabled(c, w, step)
    ensures Staging(c, After(c, w, step))
  {
    match step
    case Commit(e) => {
      StagingCommitted(c, w, e);
      ShownStagedStep(c, w.s, e, w.env.db.pending);
    }
    case Interrupted(done) => {
      StagingInterrupted(c, w, done);
    }
  }

  lemma {:induction false} RunStaging(c: Config, ws: seq<World>, steps: seq<Step>, k: nat)
    requires IsWorldRun(c, ws, steps) && k < |ws|
    ensures Staging(c, ws[k])
  {
    if k == 0 {
    } else {
      RunStaging(c, ws, steps, k - 1);
      RunOk(c, ws, steps, k - 1);
      assert StepMoves(c, ws[k - 1], steps[k - 1], ws[k]);
      StagingStep(c, ws[0].env.db.courses, ws[k - 1], steps[k - 1]);
    }
  }

  ghost predicate Honest(steps: seq<Step>, k: nat)
    requires k <= |steps|
  {
    forall j :: 0 <= j < k && steps[j].Commit? ==> !Wasting(steps[j].e)
  }

  lemma {:induction false} RunStagesShown(c: Config, ws: seq<World>, steps: seq<Step>, k: nat)
    requires IsWorldRun(c, ws, steps) && k < |ws| && Honest(steps, k)
    ensures StagedShown(ws[k].s)
  {
    if k == 0 {
    } else {
      RunStagesShown(c, ws, steps, k - 1);
      RunOk(c, ws, steps, k - 1);
      assert StepMoves(c, ws[k - 1], steps[k - 1], ws[k]);
      if steps[k - 1].Commit? { StagedShownStep(c, ws[k - 1].s, steps[k - 1].e); }
    }
  }

  /** The last round was accepted in chat. */
  predicate AcceptedInChat(c: Config, s: State) { c.chat && s.routing == Some(PUBLISH) }

  /**
   * Once a run is over, an approved one has put exactly the web courses of the last round shown on top of the
   * catalogue, as staged in that round; any other run has left it alone. Courses of the run are still staged exactly if
   * the run was accepted in chat and had saved any.
   */
  lemma CatalogueAfterRun(c: Config, ws: seq<World>, steps: seq<Step>, k: nat)
    requires IsWorldRun(c, ws, steps) && k < |ws| && Closing(ws[k].s.place)
    ensures var s := ws[k].s;
            if !c.chat && s.routing == Some(PUBLISH) then
              |s.shown| > 0
              && IsPromotion(ws[0].env.db.courses, ws[k].env.db.courses, s.shown[|s.shown| - 1].courses)
            else ws[k].env.db.courses == ws[0].env.db.courses
    ensures NothingStagedFor(c.run, ws[k].env.db.pending) <==>
              !(AcceptedInChat(c, ws[k].s) && ws[k].s.tally.staged != {})
  {
    RunOk(c, ws, steps, k);
    RunStaging(c, ws, steps, k);
    if AcceptedInChat(c, ws[k].s) { NothingIsExactly(c.run, ws[k].env.db.pending, ws[k].s.tally.staged); }
  }

  /** Column by column: after an approved run each web course of the last round shown stands in its row, as valid. */
  lemma ApprovedCoursesAreStored(c: Config, ws: seq<World>, steps: seq<Step>, k: nat, url: string)
    requires IsWorldRun(c, ws, steps) && k < |ws| && Closing(ws[k].s.place) && !c.chat
    requires ws[k].s.routing == Some(PUBLISH) && |ws[k].s.shown| > 0
    requires WebCourse(ws[k].s.shown[|ws[k].s.shown| - 1].courses, url).Some?
    ensures url in ws[k].env.db.courses
    ensures CatalogueRows.Holds(ws[k].env.db.courses[url], Lookup(ws[0].env.db.courses, url),
                                WebCourse(ws[k].s.shown[|ws[k].s.shown| - 1].courses, url).value, Valid)
  {
    CatalogueAfterRun(c, ws, steps, k);
    var course := WebCourse(ws[k].s.shown[|ws[k].s.shown| - 1].courses, url).value;
    assert Lookup(ws[k].env.db.courses, url) == Some(Stored(Lookup(ws[0].env.db.courses, url), course, Valid));
    CatalogueRows.StoredHolds(Lookup(ws[0].env.db.courses, url), course, Valid);
  }

  /** Until a run is over, and after it gave up with an error, all that it saved is staged, except while nodes write. */
  lemma StagedAtRest(c: Config, ws: seq<World>, steps: seq<Step>, k: nat, url: string)
    requires IsWorldRun(c, ws, steps) && k < |ws| && LeavesTables(ws[k].s.place) && !Closing(ws[k].s.place)
    ensures PendingKey(c.run, url) in ws[k].env.db.pending <==> url in ws[k].s.tally.staged
  {
    RunStaging(c, ws, steps, k);
    assert StagedExactly(c.run, ws[k].env.db.pending, ws[k].s.tally.staged);
  }

  /** An acceptance in chat leaves the web courses of every round staged, and those of the last round as shown there. */
  lemma AcceptanceInChat(c: Config, ws: seq<World>, steps: seq<Step>, k: nat, url: string)
    requires IsWorldRun(c, ws, steps) && k < |ws| && Closing(ws[k].s.place) && AcceptedInChat(c, ws[k].s)
    ensures PendingKey(c.run, url) in ws[k].env.db.pending <==> url in ws[k].s.tally.staged
    ensures WasShown(ws[k].s, url) ==> PendingKey(c.run, url) in ws[k].env.db.pending
    ensures |ws[k].s.shown| > 0
            && StagedOk(c.run, ws[k].s.shown[|ws[k].s.shown| - 1].courses, ws[k].env.db.pending)
  {
    RunOk(c, ws, steps, k);
    RunStaging(c, ws, steps, k);
    assert StagedExactly(c.run, ws[k].env.db.pending, ws[k].s.tally.staged);
  }

  /** If no research run answers with another pass number, exactly the web courses shown in some round stay staged. */
  lemma AcceptanceStagesShown(c: Config, ws: seq<World>, steps: seq<Step>, k: nat, url: string)
    requires IsWorldRun(c, ws, steps) && k < |ws| && Closing(ws[k].s.place) && AcceptedInChat(c, ws[k].s)
    requires Honest(steps, k)
    ensures PendingKey(c.run, url) in ws[k].env.db.pending <==> WasShown(ws[k].s, url)
  {
    AcceptanceInChat(c, ws, steps, k, url);
    RunStagesShown(c, ws, steps, k);
  }
}
