/** Gap plans per pass: the bound, and a run that reaches it. */
module ReviewGaps {
  import opened Text
  import opened Courses
  import opened ReviewGraph
  import opened ReviewBounds
  import Planning

  /** The most gap plans of n research runs. */
  function RunsCap(c: Config, n: nat): nat {
    if n == 0 then 0 else RunsCap(c, n - 1) + GapCap(c)
  }

  /** Gap plans of the pass are those of its research runs; without a wasted run they are those of the present one. */
  predicate WithinPassCap(c: Config, s: State) {
    var t := s.tally;
    if InResearch(s.place) then
      t.runs > 0 && t.passGaps <= RunsCap(c, t.runs - 1) + t.gaps && (!t.wasted ==> t.passGaps == t.gaps)
    else
      t.passGaps <= RunsCap(c, t.runs) && (!t.wasted ==> t.passGaps <= GapCap(c))
      && (s.place.CourseResearch? || s.place.RetryResearchPass? ==> !t.wasted ==> t.passGaps == 0)
  }

  lemma LeftPassCap(c: Config, s: State, t: State)
    requires WithinGapCap(c, s) && WithinPassCap(c, s) && InResearch(s.place)
    requires t.tally == s.tally && Final(t.place)
    ensures WithinPassCap(c, t)
  {
  }

  lemma DispatchPassCap(c: Config, s: State, t: State)
    requires WithinPassCap(c, s) && InResearch(s.place) && InResearch(t.place)
    requires t.tally == s.tally || t.tally == OneMoreGap(s.tally)
    ensures WithinPassCap(c, t)
  {
  }

  lemma PlanningFields(c: Config, s: State, t: State)
    requires t == Planned(c, s) || t == Replanned(c, s)
    ensures if s.research.filters.None? then t.tally == s.tally && Final(t.place)
            else InResearch(t.place) && (t.tally == s.tally || t.tally == OneMoreGap(s.tally))
  {
  }

  lemma PlanningPassCap(c: Config, s: State, t: State)
    requires WithinGapCap(c, s) && WithinPassCap(c, s) && InResearch(s.place)
    requires t == Planned(c, s) || t == Replanned(c, s)
    ensures WithinPassCap(c, t)
  {
    PlanningFields(c, s, t);
    if s.research.filters.None? { LeftPassCap(c, s, t); } else { DispatchPassCap(c, s, t); }
  }

  lemma OuterPassCap(c: Config, s: State, t: State)
    requires Anchored(c, s) && WithinPassCap(c, s) && Enabled(c, s, Advance) && !InResearch(s.place)
             && t == NextPlain(c, s)
    ensures WithinPassCap(c, t)
  {
  }

  lemma ResearchPassCap(c: Config, s: State, t: State)
    requires Anchored(c, s) && WithinPassCap(c, s) && Enabled(c, s, Advance) && InResearch(s.place)
             && t == NextPlain(c, s)
    requires !s.place.PlanWebSearch? && !s.place.PlanGapSearch?
    ensures WithinPassCap(c, t)
  {
  }

  lemma OtherPassCap(c: Config, s: State, e: Event, t: State)
    requires Anchored(c, s) && WithinGapCap(c, s) && WithinPassCap(c, s) && Moves(c, s, e, t) && !e.Advance?
    ensures WithinPassCap(c, t)
  {
  }

  lemma PassCapStep(c: Config, s: State, e: Event, t: State)
    requires Anchored(c, s) && WithinGapCap(c, s) && WithinPassCap(c, s) && Moves(c, s, e, t)
    ensures WithinPassCap(c, t)
  {
    WhatPlacesDo(c, s, e, t);
    if s.place.PlanWebSearch? || s.place.PlanGapSearch? { PlanningPassCap(c, s, t); }
    else if !e.Advance? { OtherPassCap(c, s, e, t); }
    else if InResearch(s.place) { ResearchPassCap(c, s, t); }
    else { OuterPassCap(c, s, t); }
  }

  lemma PassCapAtStart(c: Config)
    ensures WithinPassCap(c, INITIAL)
  {
  }

  lemma PassCapNext(c: Config, ss: seq<State>, es: seq<Event>, k: nat)
    requires IsRun(c, ss, es) && k < |es| && WithinPassCap(c, ss[k])
    ensures WithinPassCap(c, ss[k + 1])
  {
    RunAnchored(c, ss, es, k);
    GapPlansAreBounded(c, ss, es, k);
    assert Moves(c, ss[k], es[k], ss[k + 1]);
    PassCapStep(c, ss[k], es[k], ss[k + 1]);
  }

  lemma {:induction false} PassCapHolds(c: Config, ss: seq<State>, es: seq<Event>, k: nat)
    requires IsRun(c, ss, es) && k < |ss|
    ensures WithinPassCap(c, ss[k])
  {
    if k == 0 {
      PassCapAtStart(c);
    } else {
      PassCapHolds(c, ss, es, k - 1);
      PassCapNext(c, ss, es, k - 1);
    }
  }

  lemma TwoRuns(c: Config, n: nat)
    requires n <= 2
    ensures RunsCap(c, n) <= 2 * GapCap(c) && (n <= 1 ==> RunsCap(c, n) <= GapCap(c))
  {
    assert n == 2 ==> RunsCap(c, n) == RunsCap(c, 1) + GapCap(c);
    assert n >= 1 ==> RunsCap(c, 1) == RunsCap(c, 0) + GapCap(c);
  }

  /**
   * A pass makes at most max(1, maxIterations) gap plans, stale answers, retries and carried counters included, unless
   * a whole research run of the pass was answered with another pass number; then it makes at most
   * (1 + MAX_STALE_RETRIES) times as many.
   */
  lemma GapPlansPerPass(c: Config, ss: seq<State>, es: seq<Event>, k: nat)
    requires IsRun(c, ss, es) && k < |ss|
    ensures var t := ss[k].tally;
            t.passGaps <= if t.wasted then (1 + MAX_STALE_RETRIES) * GapCap(c) else GapCap(c)
  {
    PassCapHolds(c, ss, es, k);
    RunAnchored(c, ss, es, k);
    GapPlansAreBounded(c, ss, es, k);
    TwoRuns(c, ss[k].tally.runs);
    if InResearch(ss[k].place) { TwoRuns(c, ss[k].tally.runs - 1); }
  }

  lemma {:induction false} NotWasted(c: Config, ss: seq<State>, es: seq<Event>, k: nat)
    requires IsRun(c, ss, es) && k < |ss| && forall j :: 0 <= j < k ==> !Wasting(es[j])
    ensures !ss[k].tally.wasted
  {
    if k == 0 {
    } else {
      NotWasted(c, ss, es, k - 1);
      assert Moves(c, ss[k - 1], es[k - 1], ss[k]);
      WastedOnlySo(c, ss[k - 1], es[k - 1], ss[k]);
    }
  }

  lemma WastedOnlySo(c: Config, s: State, e: Event, t: State)
    requires Moves(c, s, e, t) && !s.tally.wasted && !Wasting(e)
    ensures !t.tally.wasted
  {
    WhatPlacesDo(c, s, e, t);
  }

  /** When research runs that took their input answer with their own pass number, the bound is max(1, maxIterations). */
  lemma GapPlansPerHonestPass(c: Config, ss: seq<State>, es: seq<Event>, k: nat)
    requires IsRun(c, ss, es) && k < |ss| && forall j :: 0 <= j < k ==> !Wasting(es[j])
    ensures ss[k].tally.passGaps <= GapCap(c)
  {
    NotWasted(c, ss, es, k);
    GapPlansPerPass(c, ss, es, k);
  }

  // ----- a run that reaches the bound -----

  ghost predicate Reachable(c: Config, s: State) {
    exists ss, es :: IsRun(c, ss, es) && ss[|es|] == s
  }

  lemma ReachStart(c: Config)
    ensures Reachable(c, INITIAL)
  {
    var es: seq<Event> := [];
    assert IsRun(c, [INITIAL], es) && [INITIAL][|es|] == INITIAL;
  }

  lemma ReachStep(c: Config, s: State, e: Event)
    requires Reachable(c, s) && Enabled(c, s, e)
    ensures Reachable(c, Next(c, s, e))
  {
    var ss, es :| IsRun(c, ss, es) && ss[|es|] == s;
    var ss', es' := ss + [Next(c, s, e)], es + [e];
    forall k | 0 <= k < |es'| ensures Moves(c, ss'[k], es'[k], ss'[k + 1]) {
      if k < |es| { assert Moves(c, ss[k], es[k], ss[k + 1]); }
    }
    assert IsRun(c, ss', es') && ss'[|es'|] == Next(c, s, e);
  }

  /** A first pass, in research or about to start it, with that many gap plans and iterations. */
  predicate FirstPass(s: State, place: Place, retries: nat, iteration: nat, passGaps: nat) {
    s.place == place && s.history == [] && s.routing.None? && s.filters.Some? && s.retries == retries
    && s.tally.passGaps == passGaps
    && (InResearch(place) ==>
          s.research.routing.None? && s.research.filters.Some?
              && (!place.BeginPass? ==> s.research.iteration == iteration))
  }

  /** A place that only moves on. */
  predicate MovesOn(place: Place) {
    place.LoadUserProfile? || place.SearchWeb? || place.ExtractCourses? || place.MergeCourses?
        || place.RemoveDuplicates?
    || place.SaveVerifiedCourses?
  }

  function Following(place: Place): Place {
    match place
    case LoadUserProfile => FindKnownCourses
    case SearchWeb => ExtractCourses
    case ExtractCourses => MergeCourses
    case MergeCourses => RemoveDuplicates
    case RemoveDuplicates => VerifyClaims
    case _ => RankAndSummarize
  }

  lemma MoveOn(c: Config, s: State, place: Place, retries: nat, iteration: nat, passGaps: nat) returns (t: State)
    requires Reachable(c, s) && MovesOn(place) && FirstPass(s, place, retries, iteration, passGaps)
    ensures Reachable(c, t) && FirstPass(t, Following(place), retries, iteration, passGaps)
  {
    ReachStep(c, s, Advance);
    t := Next(c, s, Advance);
  }

  lemma MergeToVerify(c: Config, s: State, retries: nat, iteration: nat, passGaps: nat) returns (t: State)
    requires Reachable(c, s) && FirstPass(s, MergeCourses, retries, iteration, passGaps)
    ensures Reachable(c, t) && FirstPass(t, VerifyClaims, retries, iteration, passGaps)
  {
    t := MoveOn(c, s, MergeCourses, retries, iteration, passGaps);
    t := MoveOn(c, t, RemoveDuplicates, retries, iteration, passGaps);
  }

  lemma SearchToMerge(c: Config, s: State, retries: nat, iteration: nat, passGaps: nat) returns (t: State)
    requires Reachable(c, s) && FirstPass(s, SearchWeb, retries, iteration, passGaps)
    ensures Reachable(c, t) && FirstPass(t, MergeCourses, retries, iteration, passGaps)
  {
    t := MoveOn(c, s, SearchWeb, retries, iteration, passGaps);
    t := MoveOn(c, t, ExtractCourses, retries, iteration, passGaps);
  }

  /** Whether or not there is something to search. */
  lemma PlanToVerify(c: Config, s: State, retries: nat, iteration: nat, passGaps: nat) returns (t: State)
    requires Reachable(c, s) && (s.place == SearchWeb || s.place == MergeCourses)
    requires FirstPass(s, s.place, retries, iteration, passGaps)
    ensures Reachable(c, t) && FirstPass(t, VerifyClaims, retries, iteration, passGaps)
  {
    t := s;
    if s.place == SearchWeb { t := SearchToMerge(c, s, retries, iteration, passGaps); }
    t := MergeToVerify(c, t, retries, iteration, passGaps);
  }

  lemma NothingValid(c: Config, s: State, retries: nat, iteration: nat, passGaps: nat) returns (t: State)
    requires Reachable(c, s) && FirstPass(s, VerifyClaims, retries, iteration, passGaps)
    ensures Reachable(c, t)
    ensures FirstPass(t, if iteration < c.maxIterations then PlanGapSearch
            else SaveVerifiedCourses, retries, iteration, passGaps)
  {
    ReachStep(c, s, Verified([], map[], {}));
    t := Next(c, s, Verified([], map[], {}));
  }

  /** What a replanning node leaves, when there is something to plan for. */
  lemma ReplannedFields(c: Config, s: State, t: State)
    requires t == Replanned(c, s) && s.research.filters.Some?
    ensures t.place.SearchWeb? || t.place.MergeCourses?
    ensures t.tally == OneMoreGap(s.tally) && t.history == s.history && t.routing == s.routing && t.filters == s.filters
    ensures t.retries == s.retries && t.research.routing == s.research.routing
            && t.research.filters == s.research.filters
    ensures t.research.iteration == s.research.iteration + 1
  {
  }

  lemma OneGapPlan(c: Config, s: State, retries: nat, iteration: nat, passGaps: nat) returns (t: State)
    requires Reachable(c, s) && FirstPass(s, PlanGapSearch, retries, iteration, passGaps)
    ensures Reachable(c, t)
    ensures t.place == SearchWeb || t.place == MergeCourses
    ensures FirstPass(t, t.place, retries, iteration + 1, passGaps + 1)
  {
    ReachStep(c, s, Advance);
    t := Next(c, s, Advance);
    WhatReplanningDoes(c, s, t);
    ReplannedFields(c, s, t);
  }

  /** Nothing is ever valid: the replan budget is used up, plan by plan. */
  lemma {:induction false} AllGapPlans(c: Config, s: State, retries: nat, iteration: nat, passGaps: nat)
    returns (t: State)
    requires Reachable(c, s) && FirstPass(s, VerifyClaims, retries, iteration, passGaps) && iteration <= c.maxIterations
    ensures Reachable(c, t)
    ensures FirstPass(t, SaveVerifiedCourses, retries, c.maxIterations, passGaps + c.maxIterations - iteration)
    decreases c.maxIterations - iteration
  {
    t := NothingValid(c, s, retries, iteration, passGaps);
    if iteration < c.maxIterations {
      t := OneGapPlan(c, t, retries, iteration, passGaps);
      t := PlanToVerify(c, t, retries, iteration + 1, passGaps + 1);
      t := AllGapPlans(c, t, retries, iteration + 1, passGaps + 1);
    }
  }

  lemma WebPlan(c: Config, s: State, retries: nat, passGaps: nat) returns (t: State)
    requires Reachable(c, s) && FirstPass(s, PlanWebSearch, retries, 0, passGaps)
    ensures Reachable(c, t)
    ensures t.place == SearchWeb || t.place == MergeCourses
    ensures FirstPass(t, t.place, retries, 0, passGaps)
  {
    ReachStep(c, s, Advance);
    t := Next(c, s, Advance);
    assert t == Planned(c, s);
  }

  lemma EnterFirst(c: Config, s: State, retries: nat, passGaps: nat) returns (t: State)
    requires Reachable(c, s) && FirstPass(s, CourseResearch, retries, 0, passGaps)
    ensures Reachable(c, t) && FirstPass(t, BeginPass, retries, 0, passGaps)
  {
    ReachStep(c, s, Advance);
    t := Next(c, s, Advance);
  }

  lemma LoadFirst(c: Config, s: State, retries: nat, passGaps: nat) returns (t: State)
    requires Reachable(c, s) && FirstPass(s, BeginPass, retries, 0, passGaps)
    ensures Reachable(c, t) && FirstPass(t, LoadUserProfile, retries, 0, passGaps)
  {
    ReachStep(c, s, Advance);
    t := Next(c, s, Advance);
  }

  lemma BeginFirst(c: Config, s: State, retries: nat, passGaps: nat) returns (t: State)
    requires Reachable(c, s) && FirstPass(s, CourseResearch, retries, 0, passGaps)
    ensures Reachable(c, t) && FirstPass(t, PlanWebSearch, retries, 0, passGaps)
  {
    t := EnterFirst(c, s, retries, passGaps);
    t := LoadFirst(c, t, retries, passGaps);
    t := MoveOn(c, t, LoadUserProfile, retries, 0, passGaps);
    ReachStep(c, t, Found([]));
    t := Next(c, t, Found([]));
  }

  lemma WholePlan(c: Config, s: State, retries: nat, passGaps: nat) returns (t: State)
    requires Reachable(c, s) && FirstPass(s, CourseResearch, retries, 0, passGaps)
    ensures Reachable(c, t) && FirstPass(t, VerifyClaims, retries, 0, passGaps)
  {
    t := BeginFirst(c, s, retries, passGaps);
    t := WebPlan(c, t, retries, passGaps);
    t := PlanToVerify(c, t, retries, 0, passGaps);
  }

  /** A whole research run of the first pass, with as many gap plans as the budget allows. */
  lemma WholeRun(c: Config, s: State, retries: nat, passGaps: nat) returns (t: State)
    requires Reachable(c, s) && FirstPass(s, CourseResearch, retries, 0, passGaps) && c.maxIterations >= 1
    ensures Reachable(c, t) && FirstPass(t, RankAndSummarize, retries, c.maxIterations, passGaps + GapCap(c))
  {
    t := WholePlan(c, s, retries, passGaps);
    t := AllGapPlans(c, t, retries, 0, passGaps);
    t := MoveOn(c, t, SaveVerifiedCourses, retries, c.maxIterations, passGaps + c.maxIterations);
  }

  lemma StartFirst(c: Config, filters: Filters) returns (t: State)
    ensures Reachable(c, t) && FirstPass(t, CourseResearch, 0, 0, 0)
  {
    ReachStart(c);
    ReachStep(c, INITIAL, Parsed(filters));
    t := Next(c, INITIAL, Parsed(filters));
    ReachStep(c, t, Advance);
    t := Next(c, t, Advance);
  }

  lemma WastedRetry(c: Config, s: State, iteration: nat, passGaps: nat) returns (t: State)
    requires Reachable(c, s) && FirstPass(s, RankAndSummarize, 0, iteration, passGaps) && !s.research.discarded
             && !s.discarded
    ensures Reachable(c, t) && FirstPass(t, CourseResearch, 1, 0, passGaps)
  {
    var stale := Finished(Some(Output(-1, [])));
    ReachStep(c, s, stale);
    t := Next(c, s, stale);
    ReachStep(c, t, Advance);
    t := Next(c, t, Advance);
  }

  /** The bound is reached: a whole run answered with another pass, and then another whole run. */
  lemma PassCapIsReached(c: Config, filters: Filters) returns (s: State)
    requires c.maxIterations >= 1
    ensures Reachable(c, s) && s.tally.passGaps == (1 + MAX_STALE_RETRIES) * GapCap(c)
  {
    s := StartFirst(c, filters);
    s := WholeRun(c, s, 0, 0);
    ReachableAnchored(c, s);
    s := WastedRetry(c, s, c.maxIterations, GapCap(c));
    s := WholeRun(c, s, 1, GapCap(c));
  }

  lemma ReachableAnchored(c: Config, s: State)
    requires Reachable(c, s)
    ensures Anchored(c, s)
  {
    var ss, es :| IsRun(c, ss, es) && ss[|es|] == s;
    RunAnchored(c, ss, es, |es|);
  }
}
