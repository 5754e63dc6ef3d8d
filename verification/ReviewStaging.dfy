/** Which courses of a run are staged at any time: all that were saved, until a promotion or a discard drops them. */
module ReviewStaging {
  import opened Text
  import opened Courses
  import opened Catalogue
  import opened ReviewGraph
  import opened ReviewEffects

  /** The run has exactly those URLs in the staging area. */
  ghost predicate StagedExactly(run: string, pending: Staging, urls: set<string>) {
    forall url :: PendingKey(run, url) in pending <==> url in urls
  }

  /** The run is over and its staged courses were promoted or discarded. */
  predicate Dropped(c: Config, s: State) {
    Closing(s.place) && (Approved(c, s) || s.routing != Some(PUBLISH))
  }

  predicate Dropping(p: Place) { p == PromoteApprovedCourses || p == DropPendingCourses }

  ghost predicate StagingOk(c: Config, s: State, pending: Staging) {
    var staged := s.tally.staged;
    if Dropped(c, s) then NothingStagedFor(c.run, pending)
    else
      StagedExactly(c.run, pending, staged)
      || (s.place == SaveVerifiedCourses && StagedExactly(c.run, pending, staged + WebUrls(s.research.valid)))
      || (Dropping(s.place) && NothingStagedFor(c.run, pending))
  }

  /** An acceptance in chat leaves the courses it accepts staged, as shown and as valid. */
  ghost predicate AcceptedStaged(c: Config, s: State, pending: Staging) {
    Closing(s.place) && !Dropped(c, s) ==> StagedOk(c.run, s.valid, pending)
  }

  // ----- staging, exactly -----

  lemma {:induction false} WebUrlsOf(courses: seq<Course>, url: string)
    ensures url in UrlsOf(NonCache(courses)) <==> url in WebUrls(courses)
    decreases |courses|
  {
    if courses == [] {
    } else {
      var n := |courses| - 1;
      WebUrlsOf(courses[..n], url);
      WebUrlsSnoc(courses, url);
      UrlsSnoc(NonCache(courses[..n]), courses[n]);
      if courses[n].origin.FromCache? { assert NonCache(courses) == NonCache(courses[..n]); }
    }
  }

  lemma WebUrlsSnoc(courses: seq<Course>, url: string)
    requires courses != []
    ensures var n := |courses| - 1;
            url in WebUrls(courses) <==>
              url in WebUrls(courses[..n]) || (courses[n].url == url && courses[n].origin.FromWeb?)
  {
    var n := |courses| - 1;
    if url in WebUrls(courses) {
      var c :| c in courses && c.origin.FromWeb? && c.url == url;
      var i :| 0 <= i < |courses| && courses[i] == c;
      if i < n { assert courses[..n][i] == c; }
    }
    if url in WebUrls(courses[..n]) {
      var c :| c in courses[..n] && c.origin.FromWeb? && c.url == url;
      assert c in courses;
    }
  }

  lemma {:induction false} StagedKeys(run: string, pending: Staging, courses: seq<Course>,
                                      verdicts: map<string, Status>, url: string)
    ensures PendingKey(run, url) in Staged(pending, run, courses, verdicts) <==>
              PendingKey(run, url) in pending || url in UrlsOf(courses)
    decreases |courses|
  {
    if courses == [] {
    } else {
      var n := |courses| - 1;
      StagedKeys(run, pending, courses[..n], verdicts, url);
      UrlsSnoc(courses[..n], courses[n]);
      assert courses == courses[..n] + [courses[n]];
    }
  }

  lemma StagingMore(run: string, pending: Staging, staged: set<string>, courses: seq<Course>,
                    verdicts: map<string, Status>)
    requires StagedExactly(run, pending, staged) || StagedExactly(run, pending, staged + WebUrls(courses))
    ensures StagedExactly(run, Staged(pending, run, NonCache(courses), verdicts), staged + WebUrls(courses))
  {
    forall url
      ensures PendingKey(run, url) in Staged(pending, run, NonCache(courses), verdicts) <==>
                url in staged + WebUrls(courses)
    {
      StagedKeys(run, pending, NonCache(courses), verdicts, url);
      WebUrlsOf(courses, url);
    }
  }

  lemma NothingIsExactly(run: string, pending: Staging, urls: set<string>)
    requires StagedExactly(run, pending, urls)
    ensures NothingStagedFor(run, pending) <==> urls == {}
  {
    if NothingStagedFor(run, pending) {
      forall url ensures url !in urls { assert PendingKey(run, url) !in pending; }
    } else {
      var k :| k in pending && k.run == run;
      assert k == PendingKey(run, k.url);
    }
  }

  // ----- steps -----

  lemma DropNothing(run: string, pending: Staging)
    ensures NothingStagedFor(run, Discarded(pending, run))
  {
  }

  lemma StagingInterrupted(c: Config, w: World, done: nat)
    requires StagingOk(c, w.s, w.env.db.pending) && AcceptedStaged(c, w.s, w.env.db.pending)
    requires done <= |EffectsOf(c, w.s)|
    ensures var after := After(c, w, Interrupted(done)).env.db.pending;
            StagingOk(c, w.s, after) && AcceptedStaged(c, w.s, after)
  {
    var s, db := w.s, w.env.db;
    EffectsOnDb(c, w, done);
    DropNothing(c.run, db.pending);
    if s.place == SaveVerifiedCourses {
      StagingMore(c.run, db.pending, s.tally.staged, s.research.valid, s.research.verdicts);
    }
  }

  lemma ResearchTally(c: Config, s: State)
    requires InResearch(s.place) && s.place != SaveVerifiedCourses
    ensures NextInResearch(c, s).tally.staged == s.tally.staged && !Closing(NextInResearch(c, s).place)
  {
  }

  lemma OutsideTally(c: Config, s: State)
    requires LeavesTables(s.place)
    ensures NextOutside(c, s).tally.staged == s.tally.staged
    ensures Closing(NextOutside(c, s).place) ==> Closing(s.place)
  {
  }

  lemma PlainTally(c: Config, s: State)
    requires LeavesTables(s.place)
    ensures NextPlain(c, s).tally.staged == s.tally.staged
    ensures Closing(NextPlain(c, s).place) ==> Closing(s.place)
  {
    if InResearch(s.place) { ResearchTally(c, s); } else { OutsideTally(c, s); }
  }

  lemma OtherTally(c: Config, s: State, e: Event)
    requires Enabled(c, s, e) && !e.Advance?
    ensures var t := Next(c, s, e);
            t.tally.staged == s.tally.staged && (Closing(t.place) ==>
                c.chat && t.routing == Some(PUBLISH) && Waiting(s.place))
  {
  }

  lemma StagingLeft(c: Config, s: State, e: Event, t: State, pending: Staging)
    requires Moves(c, s, e, t) && LeavesTables(s.place) && Rounds(c, s) && PendingOk(c, s, pending)
    requires StagingOk(c, s, pending) && AcceptedStaged(c, s, pending)
    ensures StagingOk(c, t, pending) && AcceptedStaged(c, t, pending)
  {
    if e.Advance? {
      PlainTally(c, s);
      if Closing(s.place) { ClosingGoesOn(c, s, e, t); }
    } else {
      OtherTally(c, s, e);
      if Closing(t.place) { FinalKeeps(c, s, e); }
    }
  }

  lemma FinalKeeps(c: Config, s: State, e: Event)
    requires Enabled(c, s, e) && Waiting(s.place)
    ensures Next(c, s, e).valid == s.valid
  {
  }

  lemma ClosingGoesOn(c: Config, s: State, e: Event, t: State)
    requires Moves(c, s, e, t) && Closing(s.place)
    ensures Closing(t.place) && t.valid == s.valid && t.routing == s.routing && (Dropped(c, t) <==> Dropped(c, s))
  {
  }

  lemma SaveCommitted(c: Config, s: State, db: Db)
    requires s.place == SaveVerifiedCourses && StagingOk(c, s, db.pending)
    ensures StagingOk(c, NextPlain(c, s), DbAfter(c, s, db).pending)
    ensures !Closing(NextPlain(c, s).place)
  {
    StagingMore(c.run, db.pending, s.tally.staged, s.research.valid, s.research.verdicts);
  }

  lemma DropCommitted(c: Config, s: State, db: Db)
    requires Dropping(s.place) && Gate(c, s)
    ensures StagingOk(c, NextPlain(c, s), DbAfter(c, s, db).pending)
    ensures Dropped(c, NextPlain(c, s))
  {
    DropNothing(c.run, db.pending);
  }

  lemma StagingCommitted(c: Config, w: World, e: Event)
    requires Rounds(c, w.s) && Gate(c, w.s) && PendingOk(c, w.s, w.env.db.pending) && Enabled(c, w.s, e)
    requires StagingOk(c, w.s, w.env.db.pending) && AcceptedStaged(c, w.s, w.env.db.pending)
    ensures var after := After(c, w, Commit(e));
            StagingOk(c, after.s, after.env.db.pending) && AcceptedStaged(c, after.s, after.env.db.pending)
  {
    var s, db, t := w.s, w.env.db, Next(c, w.s, e);
    EffectsOnDb(c, w, 0);
    if LeavesTables(s.place) {
      StagingLeft(c, s, e, t, db.pending);
    } else if s.place == SaveVerifiedCourses {
      SaveCommitted(c, s, db);
    } else {
      DropCommitted(c, s, db);
    }
  }

  // ----- what was shown -----

  ghost predicate ShownAt(s: State, p: int, url: string) {
    0 <= p < |s.shown| && url in WebUrls(s.shown[p].courses)
  }

  ghost predicate WasShown(s: State, url: string) {
    exists p :: ShownAt(s, p, url)
  }

  /** Whatever was shown from the web had been staged. */
  ghost predicate ShownStaged(s: State) {
    forall p, url :: ShownAt(s, p, url) ==> url in s.tally.staged
  }

  /** Whatever was staged was shown, or is about to be. */
  ghost predicate StagedShown(s: State) {
    forall url :: url in s.tally.staged ==>
      WasShown(s, url)
      || (s.place == RankAndSummarize && url in WebUrls(s.research.valid))
      || (s.place == SendReviewDigest && url in WebUrls(s.valid))
  }

  lemma WebCourseUrls(courses: seq<Course>, url: string)
    ensures WebCourse(courses, url).Some? <==> url in WebUrls(courses)
  {
    WebCourseIn(courses, url);
    WebUrlsOf(courses, url);
  }

  lemma AboutToShow(c: Config, s: State, pending: Staging, url: string)
    requires s.place == SendReviewDigest && PendingOk(c, s, pending) && StagingOk(c, s, pending)
    requires url in WebUrls(s.valid)
    ensures url in s.tally.staged
  {
    WebCourseUrls(s.valid, url);
    assert PendingKey(c.run, url) in pending;
  }

  lemma StagedGrows(c: Config, s: State, e: Event)
    requires Enabled(c, s, e)
    ensures Next(c, s, e).tally.staged ==
            s.tally.staged + (if s.place == SaveVerifiedCourses then WebUrls(s.research.valid) else {})
  {
    if s.place == SaveVerifiedCourses {
    } else if e.Advance? {
      PlainStaged(c, s);
    } else {
      OtherTally(c, s, e);
    }
  }

  lemma PlainStaged(c: Config, s: State)
    requires s.place != SaveVerifiedCourses
    ensures NextPlain(c, s).tally.staged == s.tally.staged
  {
    if InResearch(s.place) { ResearchTally(c, s); } else { OutsideStaged(c, s); }
  }

  lemma OutsideStaged(c: Config, s: State)
    ensures NextOutside(c, s).tally.staged == s.tally.staged
  {
  }

  lemma ShownStagedStep(c: Config, s: State, e: Event, pending: Staging)
    requires Enabled(c, s, e) && ShownStaged(s) && PendingOk(c, s, pending) && StagingOk(c, s, pending)
    ensures ShownStaged(Next(c, s, e))
  {
    var t := Next(c, s, e);
    StagedGrows(c, s, e);
    ShownGrows(c, s, e);
    forall p, url | ShownAt(t, p, url) ensures url in t.tally.staged {
      if p < |s.shown| { assert ShownAt(s, p, url); } else { AboutToShow(c, s, pending, url); }
    }
  }

  lemma WhereNext(c: Config, s: State, e: Event, t: State)
    requires Rounds(c, s) && Moves(c, s, e, t) && !Wasting(e)
    ensures s.place == SaveVerifiedCourses ==> t.place == RankAndSummarize && t.research == s.research
    ensures s.place == RankAndSummarize ==> t.place == SendReviewDigest && t.valid == s.research.valid
  {
  }

  lemma KeepsShown(s: State, t: State, url: string)
    requires WasShown(s, url) && s.shown <= t.shown
    ensures WasShown(t, url)
  {
    var p :| ShownAt(s, p, url);
    assert ShownAt(t, p, url);
  }

  lemma NowShown(s: State, t: State, url: string)
    requires url in WebUrls(s.valid) && t.shown == s.shown + [Shown(s.valid, s.pass)]
    ensures WasShown(t, url)
  {
    assert ShownAt(t, |s.shown|, url);
  }

  lemma StagedShownStep(c: Config, s: State, e: Event)
    requires Rounds(c, s) && Enabled(c, s, e) && !Wasting(e) && StagedShown(s)
    ensures StagedShown(Next(c, s, e))
  {
    var t := Next(c, s, e);
    StagedGrows(c, s, e);
    ShownGrows(c, s, e);
    WhereNext(c, s, e, t);
    forall url | url in t.tally.staged
      ensures WasShown(t, url)
              || (t.place == RankAndSummarize && url in WebUrls(t.research.valid))
              || (t.place == SendReviewDigest && url in WebUrls(t.valid))
    {
      if url in s.tally.staged {
        if WasShown(s, url) { KeepsShown(s, t, url); }
        else if s.place == SendReviewDigest { NowShown(s, t, url); }
      }
    }
  }
}
