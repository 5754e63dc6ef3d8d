/** Plans and their searches, and when a pass ends (course_discovery/workflows/research_graph.py). */
module ReviewPlans {
  import opened Text
  import opened Courses
  import opened ReviewGraph
  import Planning

  /** What a first plan asks for: something to search only if the cache has fewer than three courses. */
  lemma FirstPlanIs(c: Config, s: State, q: string)
    requires s.place == PlanWebSearch && s.research.filters.Some?
    ensures var t, r := NextPlain(c, s), s.research; var base := Planning.Base(c.phrases, r.filters.value);
            q in t.research.plan <==>
              |r.cached| < 3 && q !in r.completed
              && (q == base || (q == base + c.phrases.official && (|r.cached| == 0 || r.filters.value.certificate))
                  || (q == base + c.phrases.recent && r.iteration > 0))
  {
    WhatPlanningDoes(c, s, NextPlain(c, s));
    Planning.PlannedSays(c.phrases, s.research.filters.value, |s.research.cached|, s.research.iteration,
                         s.research.completed, q);
  }

  /** What a gap plan asks for, on its new iteration; missing evidence is searched for by name. */
  lemma GapPlanIs(c: Config, s: State, q: string)
    requires s.place == PlanGapSearch && s.research.filters.Some?
    ensures var t, r := NextPlain(c, s), s.research;
            var f := r.filters.value; var base := Planning.Base(c.phrases, f);
            t.research.iteration == r.iteration + 1
            && (q in t.research.plan <==>
                  q !in r.completed
                  && (q == base || (q == base + c.phrases.official && (|r.valid| == 0 || f.certificate))
                      || q == base + c.phrases.recent
                      || (q == f.topic + " " + Join(" ", Sorted(r.missing)) + c.phrases.evidence && r.missing != {})))
  {
    WhatReplanningDoes(c, s, NextPlain(c, s));
    var r := s.research;
    Planning.GapSays(c.phrases, r.filters.value, |r.valid|, r.iteration + 1, r.missing, r.completed, q);
  }

  /** Without filters there is no plan, and the run is discarded. */
  lemma NoFiltersNoPlan(c: Config, s: State)
    requires s.place == PlanWebSearch || s.place == PlanGapSearch
    requires s.research.filters.None?
    ensures NextPlain(c, s).place == DiscardRun && NextPlain(c, s).discarded
  {
    if s.place == PlanWebSearch { WhatPlanningDoes(c, s, NextPlain(c, s)); }
    else { WhatReplanningDoes(c, s, NextPlain(c, s)); }
  }

  /** A plan with anything in it is searched at once, and just its queries are then behind those run before. */
  lemma PlansAreRun(c: Config, s: State)
    requires s.place == PlanWebSearch || s.place == PlanGapSearch
    requires s.research.filters.Some?
    ensures var t := NextPlain(c, s);
            if t.research.plan == [] then t.place == MergeCourses && t.research.completed == s.research.completed
            else
              t.place == SearchWeb
              && NextPlain(c, t).place == ExtractCourses
              && NextPlain(c, t).research.completed == s.research.completed + t.research.plan
  {
    var t := NextPlain(c, s);
    if s.place == PlanWebSearch { WhatPlanningDoes(c, s, t); } else { WhatReplanningDoes(c, s, t); }
    PlanLeaves(c, s, t);
    if t.place == SearchWeb { WhatSearchingDoes(c, t); }
  }

  lemma PlanLeaves(c: Config, s: State, t: State)
    requires s.research.filters.Some? && (t == Planned(c, s) || t == Replanned(c, s))
    ensures t.research.completed == s.research.completed
    ensures t.place == (if t.research.plan == [] then MergeCourses else SearchWeb)
  {
  }

  /** Validation ends the search with three valid courses or with the budget used up; otherwise a gap plan is next. */
  lemma ValidationLeads(c: Config, s: State, valid: seq<Course>, verdicts: map<string, Status>, missing: set<string>)
    requires s.place == VerifyClaims
    ensures var t := Next(c, s, Verified(valid, verdicts, missing));
            t.place == (if |valid| >= 3 || s.research.iteration >= c.maxIterations then SaveVerifiedCourses
                        else PlanGapSearch)
            && t.research.valid == valid && t.research.verdicts == verdicts && t.research.missing == missing
  {
  }

  /** Each answer that is not blank is recorded behind the earlier ones. */
  lemma AnswersAreRecorded(c: Config, s: State, reading: Reading, redacted: string, reply: Option<Reply>)
    ensures Next(c, s, Reviewed(reading, redacted, reply)).history ==
            s.history + (if redacted == "" then [] else [redacted])
  {
  }

  /** What the cache lookup finds is what the first plan counts. */
  lemma CacheIsKept(c: Config, s: State, cached: seq<Course>)
    requires s.place == FindKnownCourses
    ensures var t := Next(c, s, Found(cached));
            t.place == PlanWebSearch && t.research.cached == cached && t.research.completed == s.research.completed
  {
  }

  /** The last nodes of a run, from each way of ending the review. */
  lemma RunsEndAlike(c: Config, s: State)
    ensures s.place == SendApprovedCourses ==> NextPlain(c, s).place == PromoteApprovedCourses
    ensures s.place == DiscardRun ==> NextPlain(c, s).place == DropPendingCourses
    ensures s.place == PromoteApprovedCourses || s.place == DropPendingCourses ==>
              NextPlain(c, s).place == RecordReviewOutcome
    ensures s.place == RecordReviewOutcome ==> NextPlain(c, s).place == CurateUserMemory
    ensures s.place == CurateUserMemory ==> NextPlain(c, s).place == Ended
  {
  }
}
