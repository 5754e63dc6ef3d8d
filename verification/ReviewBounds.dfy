/** Every run of the review graph ends or pauses, within a bound known in advance. */
module ReviewBounds {
  import opened Text
  import opened ReviewGraph

  function Positive(i: int): nat { if i > 0 then i else 0 }

  /** Gap plans that validation may still ask for. */
  function GapsLeft(c: Config, iteration: nat): nat { Positive(c.maxIterations - iteration) }

  /** The most gap plans one research run can make. */
  function GapCap(c: Config): nat { if c.maxIterations > 1 then c.maxIterations else 1 }

  /** Steps that a research run can still take. */
  function ResearchRank(c: Config, s: State): nat {
    var left := 6 * GapsLeft(c, s.research.iteration);
    match s.place
    case BeginPass => 6 * GapCap(c) + 11
    case LoadUserProfile => left + 10
    case FindKnownCourses => left + 9
    case PlanWebSearch => left + 8
    case PlanGapSearch => 6 * GapsLeft(c, s.research.iteration + 1) + 8
    case SearchWeb => left + 7
    case ExtractCourses => left + 6
    case MergeCourses => left + 5
    case RemoveDuplicates => left + 4
    case VerifyClaims => left + 3
    case SaveVerifiedCourses => 2
    case RankAndSummarize => 1
    case _ => 0
  }

  function ResearchCost(c: Config): nat { 6 * GapCap(c) + 12 }

  /** Steps up to the router, and from there to the end of the run if it does not loop back. */
  function PassRank(c: Config, s: State): nat {
    var retry := if s.retries < MAX_STALE_RETRIES then ResearchCost(c) + 2 else 0;
    match s.place
    case ParseUserRequest => 2 * ResearchCost(c) + 15
    case StartResearchPass => 2 * ResearchCost(c) + 14
    case CourseResearch => ResearchCost(c) + retry + 11
    case RetryResearchPass => retry + 10
    case SendReviewDigest => 9
    case AwaitHumanReview => 8
    case InterpretReviewFeedback => 7
    case SendApprovedCourses => 6
    case DiscardRun => 6
    case PromoteApprovedCourses => 5
    case DropPendingCourses => 5
    case RecordReviewOutcome => 4
    case CurateUserMemory => 3
    case Ended => 0
    case StaleResultError => 0
    case _ => ResearchRank(c, s) + retry + 10
  }

  function PassCost(c: Config): nat { 2 * ResearchCost(c) + 16 }

  function RoundsLeft(c: Config, s: State): nat { Positive(c.maxRounds - |s.history|) }

  /** Rounds left come first, then the stale retry, the replan budget and the place. */
  function Potential(c: Config, s: State): nat {
    RoundsLeft(c, s) * PassCost(c) + PassRank(c, s)
  }


  lemma OuterStepLowers(c: Config, s: State)
    requires Anchored(c, s) && Enabled(c, s, Advance) && !InResearch(s.place)
    ensures PassRank(c, NextPlain(c, s)) < PassRank(c, s) && NextPlain(c, s).history == s.history
  {
  }

  /** The rank looks only at the place, the retries and the iteration. */
  lemma DispatchLowers(c: Config, s: State, t: State, plan: seq<string>)
    requires t.place == Dispatch(plan) && t.retries == s.retries
    ensures s.place.PlanWebSearch? && t.research.iteration == s.research.iteration ==> PassRank(c, t) < PassRank(c, s)
    ensures s.place.PlanGapSearch? && t.research.iteration == s.research.iteration + 1 ==>
            PassRank(c, t) < PassRank(c, s)
  {
  }

  lemma WebPlanLowers(c: Config, s: State)
    requires Anchored(c, s) && s.place.PlanWebSearch?
    ensures PassRank(c, Planned(c, s)) < PassRank(c, s) && Planned(c, s).history == s.history
  {
    if s.research.filters.None? {
      LeavingLowers(c, s, s.research.(plan := [], discarded := true));
    } else {
      DispatchLowers(c, s, Planned(c, s), Planned(c, s).research.plan);
    }
  }

  lemma GapPlanLowers(c: Config, s: State)
    requires Anchored(c, s) && s.place.PlanGapSearch?
    ensures PassRank(c, Replanned(c, s)) < PassRank(c, s) && Replanned(c, s).history == s.history
  {
    if s.research.filters.None? {
      LeavingLowers(c, s, s.research.(discarded := true));
    } else {
      DispatchLowers(c, s, Replanned(c, s), Replanned(c, s).research.plan);
    }
  }

  lemma LeavingLowers(c: Config, s: State, r: Research)
    requires Anchored(c, s) && InResearch(s.place)
    ensures var t := Leave(s.(research := r)); PassRank(c, t) < PassRank(c, s) && t.history == s.history
  {
  }

  lemma BeginningLowers(c: Config, s: State, t: State)
    requires s.place.BeginPass? && t == s.(research := Begin(s.research), place := FromEntry(s.research.routing))
    ensures PassRank(c, t) < PassRank(c, s)
  {
  }

  lemma ResearchStepLowers(c: Config, s: State)
    requires Anchored(c, s) && Enabled(c, s, Advance) && InResearch(s.place) && !s.place.PlanWebSearch?
             && !s.place.PlanGapSearch?
    ensures PassRank(c, NextPlain(c, s)) < PassRank(c, s) && NextPlain(c, s).history == s.history
  {
    if s.place.BeginPass? { BeginningLowers(c, s, NextPlain(c, s)); }
  }

  lemma RouterLowers(c: Config, s: State, reading: Reading, redacted: string, reply: Option<Reply>)
    requires Anchored(c, s) && Enabled(c, s, Reviewed(reading, redacted, reply))
    ensures var t := Routed(c, s, reading, redacted, reply);
            if LoopsBack(t.routing.value) then RoundsLeft(c, t) == RoundsLeft(c, s) - 1
            else RoundsLeft(c, t) <= RoundsLeft(c, s) && PassRank(c, t) < PassRank(c, s)
  {
  }

  lemma OtherLowers(c: Config, s: State, e: Event)
    requires Anchored(c, s) && Enabled(c, s, e) && !e.Advance? && !e.Reviewed?
    ensures PassRank(c, Next(c, s, e)) < PassRank(c, s) && Next(c, s, e).history == s.history
  {
  }

  lemma {:induction false} Times(a: nat, b: nat, cost: nat)
    requires a <= b
    ensures a * cost + (b - a) * cost == b * cost
    ensures (b - a) * cost >= (if a < b then cost else 0)
  {
    assert (a + (b - a)) * cost == a * cost + (b - a) * cost;
    if a < b { assert (b - a) * cost == (b - a - 1) * cost + cost; }
  }

  /** Every step of every run lowers the potential. */
  lemma StepLowers(c: Config, s: State, e: Event)
    requires Anchored(c, s) && Enabled(c, s, e)
    ensures Potential(c, Next(c, s, e)) < Potential(c, s)
  {
    var t := Next(c, s, e);
    match e
    case Reviewed(reading, redacted, reply) =>
      RouterLowers(c, s, reading, redacted, reply);
      Times(RoundsLeft(c, t), RoundsLeft(c, s), PassCost(c));
    case Advance =>
      if s.place.PlanWebSearch? { WebPlanLowers(c, s); }
      else if s.place.PlanGapSearch? { GapPlanLowers(c, s); }
      else if InResearch(s.place) { ResearchStepLowers(c, s); }
      else { OuterStepLowers(c, s); }
    case _ => OtherLowers(c, s, e);
  }

  /** No run takes more steps than its first potential: with R rounds, R * PassCost + PassCost. */
  lemma {:induction false} RunsAreBounded(c: Config, ss: seq<State>, es: seq<Event>, k: nat)
    requires IsRun(c, ss, es) && k < |ss|
    ensures k + Potential(c, ss[k]) <= Potential(c, INITIAL) <= (Positive(c.maxRounds) + 1) * PassCost(c)
  {
    if k > 0 {
      RunsAreBounded(c, ss, es, k - 1);
      RunAnchored(c, ss, es, k - 1);
      assert Moves(c, ss[k - 1], es[k - 1], ss[k]);
      StepLowers(c, ss[k - 1], es[k - 1]);
    } else {
      Distribute(Positive(c.maxRounds), PassCost(c));
    }
  }

  lemma Distribute(a: nat, cost: nat)
    ensures (a + 1) * cost == a * cost + cost
  {
  }

  // ----- gap plans -----

  /** Gap plans made so far, together with those that may follow, stay within the cap of one research run. */
  predicate WithinGapCap(c: Config, s: State) {
    s.tally.gaps <= GapCap(c)
    && (InResearch(s.place) ==>
          match s.place
          case BeginPass => s.tally.gaps == 0
          case PlanGapSearch => s.tally.gaps + 1 + GapsLeft(c, s.research.iteration + 1) <= GapCap(c)
          case _ => s.tally.gaps + GapsLeft(c, s.research.iteration) <= GapCap(c))
  }

  lemma GapsAtPlace(c: Config, s: State)
    requires Anchored(c, s) && WithinGapCap(c, s) && Enabled(c, s, Advance)
    ensures WithinGapCap(c, NextPlain(c, s))
  {
  }

  lemma GapsStayWithinCap(c: Config, s: State, e: Event)
    requires Anchored(c, s) && WithinGapCap(c, s) && Enabled(c, s, e)
    ensures WithinGapCap(c, Next(c, s, e))
  {
    if e.Advance? { GapsAtPlace(c, s); }
  }

  /**
   * One research run makes at most max(1, maxIterations) gap plans, even when it starts at the gap plan with the
   * iteration counter of earlier passes.
   */
  lemma {:induction false} GapPlansAreBounded(c: Config, ss: seq<State>, es: seq<Event>, k: nat)
    requires IsRun(c, ss, es) && k < |ss|
    ensures WithinGapCap(c, ss[k])
  {
    if k == 0 {
    } else {
      GapPlansAreBounded(c, ss, es, k - 1);
      RunAnchored(c, ss, es, k - 1);
      assert Moves(c, ss[k - 1], es[k - 1], ss[k]);
      GapsStayWithinCap(c, ss[k - 1], es[k - 1]);
    }
  }
}
