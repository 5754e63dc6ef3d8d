/** The query ledger of a run: what was searched, never twice, since the counters were last reset. */
module ReviewLedger {
  import opened Text
  import opened ReviewGraph
  import Planning

  /**
   * No query was run twice; a plan about to be searched is fresh; and the recorded count is the number of queries run.
   */
  ghost predicate LedgerOk(s: State) {
    var r := s.research;
    NoDup(r.completed) && r.searched == Elements(r.completed)
    && (s.place.SearchWeb? ==> Planning.FreshPlan(r.plan, r.completed))
    && (s.place.SaveVerifiedCourses? || s.place.RankAndSummarize? ==> r.tavilyCalls == |r.searched|)
  }

  lemma LedgerAtStart()
    ensures LedgerOk(INITIAL)
  {
  }

  lemma LedgerPlanned(c: Config, s: State, t: State)
    requires LedgerOk(s) && s.place.PlanWebSearch? && t == Planned(c, s)
    ensures LedgerOk(t)
  {
    var r := s.research;
    if r.filters.Some? {
      Planning.PlannedIsFresh(c.phrases, r.filters.value, |r.cached|, r.iteration, r.completed);
    }
  }

  lemma LedgerReplanned(c: Config, s: State, t: State)
    requires LedgerOk(s) && s.place.PlanGapSearch? && t == Replanned(c, s)
    ensures LedgerOk(t)
  {
    var r := s.research;
    if r.filters.Some? {
      Planning.GapIsFresh(c.phrases, r.filters.value, |r.valid|, r.iteration + 1, r.missing, r.completed);
    }
  }

  lemma LedgerSearched(s: State, t: State)
    requires LedgerOk(s) && s.place.SearchWeb? && t == Searched(s)
    ensures LedgerOk(t)
  {
    var r := s.research;
    Planning.LedgerGrows(r.completed, r.plan);
    assert r.searched + QuerySet(r.plan) == Elements(r.completed + r.plan);
  }

  /** Every other node leaves the ledger alone, or clears it altogether. */
  lemma LedgerLeft(s: State, t: State)
    requires LedgerOk(s) && !t.place.SearchWeb?
    requires t.research.completed == s.research.completed && t.research.searched == s.research.searched
    requires t.place.SaveVerifiedCourses? ==> t.research.tavilyCalls == |s.research.completed|
    requires t.place.RankAndSummarize? ==>
             s.place.SaveVerifiedCourses?
             && t.research.tavilyCalls == s.research.tavilyCalls
    ensures LedgerOk(t)
  {
    NoDupSize(s.research.completed);
  }

  lemma OthersLeaveLedger(c: Config, s: State, e: Event, t: State)
    requires Moves(c, s, e, t) && !s.place.BeginPass? && !s.place.PlanWebSearch? && !s.place.PlanGapSearch?
             && !s.place.SearchWeb?
    ensures t.research.completed == s.research.completed && t.research.searched == s.research.searched
            && !t.place.SearchWeb?
    ensures t.place.SaveVerifiedCourses? ==> t.research.tavilyCalls == |s.research.completed|
    ensures t.place.RankAndSummarize? ==>
            s.place.SaveVerifiedCourses?
            && t.research.tavilyCalls == s.research.tavilyCalls
  {
  }

  lemma LedgerBegun(s: State, t: State)
    requires LedgerOk(s) && s.place.BeginPass? && t == s.(research := Begin(s.research),
             place := FromEntry(s.research.routing))
    ensures LedgerOk(t)
  {
  }

  lemma LedgerStep(c: Config, s: State, e: Event, t: State)
    requires LedgerOk(s) && Moves(c, s, e, t)
    ensures LedgerOk(t)
  {
    WhatPlacesDo(c, s, e, t);
    if s.place.BeginPass? { LedgerBegun(s, t); }
    else if s.place.PlanWebSearch? { LedgerPlanned(c, s, t); }
    else if s.place.PlanGapSearch? { LedgerReplanned(c, s, t); }
    else if s.place.SearchWeb? { LedgerSearched(s, t); }
    else {
      OthersLeaveLedger(c, s, e, t);
      LedgerLeft(s, t);
    }
  }

  /** Over first passes, replans, REWRITE, AUGMENT and RESET alike. */
  lemma {:induction false} LedgerHolds(c: Config, ss: seq<State>, es: seq<Event>, k: nat)
    requires IsRun(c, ss, es) && k < |ss|
    ensures LedgerOk(ss[k])
  {
    if k > 0 {
      LedgerHolds(c, ss, es, k - 1);
      assert Moves(c, ss[k - 1], es[k - 1], ss[k]);
      LedgerStep(c, ss[k - 1], es[k - 1], ss[k]);
    } else {
      LedgerAtStart();
    }
  }

  lemma CountedNow(c: Config, s: State, e: Event, t: State)
    requires Moves(c, s, e, t) && e.Verified?
    ensures t.research.tavilyCalls == |t.research.completed|
  {
  }

  /**
   * After each validation, whether it leads to saving or to a gap plan, the recorded count is the number of queries.
   */
  lemma CountAfterValidation(c: Config, ss: seq<State>, es: seq<Event>, k: nat)
    requires IsRun(c, ss, es) && k < |es| && es[k].Verified?
    ensures ss[k + 1].research.tavilyCalls == |ss[k + 1].research.searched|
  {
    LedgerHolds(c, ss, es, k + 1);
    assert Moves(c, ss[k], es[k], ss[k + 1]);
    CountedNow(c, ss[k], es[k], ss[k + 1]);
    NoDupSize(ss[k + 1].research.completed);
  }

  /** Queries already run, and the iteration counter, are still there. */
  ghost predicate Remembers(r: Research, next: Research) {
    r.completed <= next.completed && r.iteration <= next.iteration
  }

  lemma PlanningRemembers(c: Config, s: State, t: State)
    requires t == Planned(c, s) || t == Replanned(c, s) || t == Searched(s)
    ensures Remembers(s.research, t.research)
  {
  }

  lemma OthersRemember(c: Config, s: State, e: Event, t: State)
    requires Moves(c, s, e, t) && !s.place.BeginPass? && !s.place.PlanWebSearch? && !s.place.PlanGapSearch?
             && !s.place.SearchWeb?
    ensures t.research.completed == s.research.completed && t.research.iteration == s.research.iteration
  {
  }

  /** Only the start of a pass without a routing decision (the first one, or after RESET) forgets completed queries. */
  lemma OnlyResetForgets(c: Config, s: State, e: Event, t: State)
    requires Moves(c, s, e, t) && !(s.place.BeginPass? && s.research.routing.None?)
    ensures Remembers(s.research, t.research)
  {
    WhatPlacesDo(c, s, e, t);
    if s.place.PlanWebSearch? || s.place.PlanGapSearch? || s.place.SearchWeb? { PlanningRemembers(c, s, t); }
    else if !s.place.BeginPass? { OthersRemember(c, s, e, t); }
  }
}
