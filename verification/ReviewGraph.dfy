/**
 * The review graph with its embedded research graph, one node per step
 * (course_discovery/workflows/outer_graph.py, course_discovery/workflows/research_graph.py and their nodes).
 */
module ReviewGraph {
  import opened Text
  import opened Courses
  import opened Catalogue
  import Planning

  const MAX_STALE_RETRIES := 1

  datatype Action = PUBLISH | REWRITE | AUGMENT | RESET | DISCARD

  datatype Config = Config(run: string, chat: bool, maxRounds: int, maxIterations: int, phrases: Planning.Phrases)

  // ----- the human answer (review/router.py) -----

  /** What the feedback text says, in the order in which it is looked at. */
  datatype Reading = Blank | Approval | RewriteWord | AugmentWord | ResetWord | OtherText

  datatype Reply = Chose(action: Action) | Broke

  datatype Decision = Decision(action: Action, discard: Option<bool>)

  predicate StartsWith(s: string, prefix: string) { |prefix| <= |s| && s[..|prefix|] == prefix }

  predicate Mentions(s: string, word: string)
    decreases |s|
  {
    StartsWith(s, word) || (s != "" && Mentions(s[1..], word))
  }

  /** `feedback` is stripped and in lower case. */
  function Read(feedback: string): Reading {
    if feedback == "" then Blank
    else if feedback in ["approve", "publish", "approved", "looks good"] then Approval
    else if StartsWith(feedback, "rewrite") then RewriteWord
    else if StartsWith(feedback, "augment") || Mentions(feedback, "more") then AugmentWord
    else if StartsWith(feedback, "reset") then ResetWord
    else OtherText
  }

  /** _route; `reply` is the model's answer, None when no model is configured. */
  function Decide(c: Config, rounds: nat, reading: Reading, reply: Option<Reply>): Decision {
    if rounds + 1 > c.maxRounds then Decision(DISCARD, Some(true))
    else if reading.Blank? then Decision(DISCARD, Some(true))
    else if reading.Approval? then Decision(PUBLISH, None)
    else
      match reply
      case Some(Chose(action)) => Decision(action, None)
      case Some(Broke) => Decision(DISCARD, Some(true))
      case None =>
        match reading
        case RewriteWord => Decision(REWRITE, Some(false))
        case AugmentWord => Decision(AUGMENT, Some(false))
        case ResetWord => Decision(RESET, Some(false))
        case _ => Decision(DISCARD, Some(true))
  }

  // ----- state -----

  datatype Place =
    // the outer graph
    | ParseUserRequest | StartResearchPass | RetryResearchPass | CourseResearch | SendReviewDigest | AwaitHumanReview
    | InterpretReviewFeedback | SendApprovedCourses | PromoteApprovedCourses | DiscardRun | DropPendingCourses
    | RecordReviewOutcome | CurateUserMemory | Ended | StaleResultError
    // the research graph
    | BeginPass | LoadUserProfile | FindKnownCourses | PlanWebSearch | SearchWeb | ExtractCourses | MergeCourses
    | RemoveDuplicates | VerifyClaims | PlanGapSearch | SaveVerifiedCourses | RankAndSummarize

  /** The research graph's own checkpointed state. `searched` is the set of queries run since the last reset. */
  datatype Research = Research(
    filters: Option<Filters>, routing: Option<Action>, pass: int,
    cached: seq<Course>, plan: seq<string>, completed: seq<string>, iteration: nat,
    valid: seq<Course>, verdicts: map<string, Status>, missing: set<string>, tavilyCalls: nat, discarded: bool,
    searched: set<string>)

  /** What was shown for review in one round. */
  datatype Shown = Shown(courses: seq<Course>, pass: int)

  /**
   * Counts that nothing depends on: research runs of this pass, gap plans of this run and of this pass, whether a whole
   * run of this pass was answered with another pass, loop-backs, and the URLs staged so far.
   */
  datatype Tally = Tally(runs: nat, gaps: nat, passGaps: nat, wasted: bool, loops: nat, staged: set<string>)

  datatype State = State(
    place: Place, history: seq<string>, routing: Option<Action>, filters: Option<Filters>, valid: seq<Course>,
    pass: int, retries: nat, discarded: bool, research: Research, shown: seq<Shown>, tally: Tally)

  const EMPTY_RESEARCH := Research(None, None, 0, [], [], [], 0, [], map[], {}, 0, false, {})

  const INITIAL := State(ParseUserRequest, [], None, None, [], 0, 0, false, EMPTY_RESEARCH, [],
    Tally(0, 0, 0, false, 0, {}))

  /** Output of the research graph: its pass number and its courses. */
  datatype Output = Output(pass: int, valid: seq<Course>)

  datatype Event =
    | Advance
    | Parsed(filters: Filters)
    | ParseFailed
    /** Research answers at once with the result of an earlier pass. */
    | Echo(output: Output)
    | Found(cached: seq<Course>)
    | Verified(valid: seq<Course>, verdicts: map<string, Status>, missing: set<string>)
    /** Research is over, with its own result or with that of another pass. */
    | Finished(stale: Option<Output>)
    | Reviewed(reading: Reading, redacted: string, reply: Option<Reply>)
    | Closed

  /** A research run that took its input and yet answers with another pass number. */
  predicate Wasting(e: Event) { e.Finished? && e.stale.Some? }

  /**
   * Which events a place accepts. Validation yields courses of distinct URLs, each with the verdict `valid`; a stale
   * result carries another pass number; and feedback that is not blank does not redact to nothing.
   */
  ghost predicate Enabled(c: Config, s: State, e: Event) {
    match e
    case Parsed(_) => s.place.ParseUserRequest?
    case ParseFailed => s.place.ParseUserRequest?
    case Echo(o) => s.place.CourseResearch? && o.pass != |s.history|
    case Found(_) => s.place.FindKnownCourses?
    case Verified(valid, verdicts, _) =>
      s.place.VerifyClaims? && DistinctUrls(valid)
      && forall k :: 0 <= k < |valid| ==> VerdictOf(verdicts, valid[k].url) == Some(Valid)
    case Finished(stale) => s.place.RankAndSummarize? && (stale.Some? ==> stale.value.pass != |s.history|)
    case Reviewed(reading, redacted, _) => s.place.InterpretReviewFeedback? && (reading.Blank? <==> redacted == "")
    case Closed => s.place.AwaitHumanReview? && c.chat
    case Advance =>
      !s.place.ParseUserRequest? && !s.place.FindKnownCourses? && !s.place.VerifyClaims? && !s.place.RankAndSummarize?
      && !s.place.InterpretReviewFeedback? && !s.place.Ended? && !s.place.StaleResultError?
  }

  /** Places of the research graph. */
  predicate InResearch(p: Place) {
    match p
    case BeginPass => true
    case LoadUserProfile => true
    case FindKnownCourses => true
    case PlanWebSearch => true
    case SearchWeb => true
    case ExtractCourses => true
    case MergeCourses => true
    case RemoveDuplicates => true
    case VerifyClaims => true
    case PlanGapSearch => true
    case SaveVerifiedCourses => true
    case RankAndSummarize => true
    case _ => false
  }

  // ----- routing functions -----

  function AfterResearch(s: State): Place {
    if s.discarded then DiscardRun
    else if s.pass != |s.history| then RetryResearchPass
    else SendReviewDigest
  }

  function AfterGateway(s: State): Place {
    if s.discarded then DiscardRun else StartResearchPass
  }

  function AfterRouter(c: Config, a: Action): Place {
    match a
    case PUBLISH => if c.chat then RecordReviewOutcome else SendApprovedCourses
    case REWRITE => StartResearchPass
    case AUGMENT => StartResearchPass
    case RESET => ParseUserRequest
    case DISCARD => DiscardRun
  }

  predicate LoopsBack(a: Action) { a.REWRITE? || a.AUGMENT? || a.RESET? }

  function FromEntry(routing: Option<Action>): Place {
    if routing == Some(AUGMENT) then PlanGapSearch else LoadUserProfile
  }

  /** _dispatch_search_queries, once planning did not discard. */
  function Dispatch(plan: seq<string>): Place {
    if plan == [] then MergeCourses else SearchWeb
  }

  function EnoughValid(c: Config, r: Research): Place {
    if |r.valid| >= Planning.MIN_VALID then SaveVerifiedCourses
    else if r.iteration < c.maxIterations then PlanGapSearch
    else SaveVerifiedCourses
  }

  // ----- nodes -----

  function Answered(s: State, o: Output): State {
    var t := s.(pass := o.pass, valid := o.valid);
    t.(place := AfterResearch(t))
  }

  /** Leaving the research graph with its own values. */
  function Leave(s: State): State {
    var t := s.(pass := s.research.pass, valid := s.research.valid, discarded := s.research.discarded);
    t.(place := AfterResearch(t))
  }

  function Begin(r: Research): Research {
    if r.routing.Some? then r else r.(completed := [], iteration := 0, searched := {})
  }

  function Planned(c: Config, s: State): State {
    var r := s.research;
    if r.filters.None? then Leave(s.(research := r.(plan := [], discarded := true)))
    else
      var plan := Planning.PlannedQueries(c.phrases, r.filters.value, |r.cached|, r.iteration, r.completed);
      s.(research := r.(plan := plan), place := Dispatch(plan))
  }

  function OneMoreGap(t: Tally): Tally { t.(gaps := t.gaps + 1, passGaps := t.passGaps + 1) }

  function OneMoreRun(t: Tally): Tally { t.(runs := t.runs + 1) }

  function Replanned(c: Config, s: State): State {
    var r := s.research;
    if r.filters.None? then Leave(s.(research := r.(discarded := true)))
    else
      WithGapPlan(s, Planning.GapQueries(
        c.phrases, r.filters.value, |r.valid|, r.iteration + 1, r.missing, r.completed))
  }

  function WithGapPlan(s: State, plan: seq<string>): State {
    s.(research := s.research.(plan := plan, iteration := s.research.iteration + 1), tally := OneMoreGap(s.tally),
       place := Dispatch(plan))
  }

  function QuerySet(queries: seq<string>): (r: set<string>)
    ensures forall q :: q in r <==> q in queries
  {
    set q | q in queries
  }

  function Searched(s: State): State {
    var r := s.research;
    s.(research := r.(completed := r.completed + r.plan, searched := r.searched + QuerySet(r.plan)),
       place := ExtractCourses)
  }

  function Validated(c: Config, s: State, valid: seq<Course>, verdicts: map<string, Status>, missing: set<string>)
    : State
  {
    var r := s.research.(valid := valid, verdicts := verdicts, missing := missing,
        tavilyCalls := |s.research.completed|);
    s.(research := r, place := EnoughValid(c, r))
  }

  function Routed(c: Config, s: State, reading: Reading, redacted: string, reply: Option<Reply>): State {
    var d := Decide(c, |s.history|, reading, reply);
    s.(routing := Some(d.action), discarded := d.discard.GetOr(s.discarded),
       history := if redacted != "" then s.history + [redacted] else s.history,
       tally := if LoopsBack(d.action) then s.tally.(loops := s.tally.loops + 1) else s.tally,
       place := AfterRouter(c, d.action))
  }

  function Next(c: Config, s: State, e: Event): State {
    match e
    case Parsed(filters) => s.(filters := Some(filters), routing := None, place := AfterGateway(s))
    case ParseFailed => s.(discarded := true, place := DiscardRun)
    case Echo(o) => Answered(s.(tally := OneMoreRun(s.tally)), o)
    case Found(cached) => s.(research := s.research.(cached := cached), place := PlanWebSearch)
    case Verified(valid, verdicts, missing) => Validated(c, s, valid, verdicts, missing)
    case Finished(stale) => if stale.Some? then Answered(s.(tally := s.tally.(wasted := true)), stale.value)
        else Leave(s)
    case Reviewed(reading, redacted, reply) => Routed(c, s, reading, redacted, reply)
    case Closed => s.(routing := Some(PUBLISH), place := AfterRouter(c, PUBLISH))
    case Advance => NextPlain(c, s)
  }

  function NextPlain(c: Config, s: State): State {
    if InResearch(s.place) then NextInResearch(c, s) else NextOutside(c, s)
  }

  /** Plain nodes of the outer graph. */
  function NextOutside(c: Config, s: State): State {
    match s.place
    case StartResearchPass =>
      s.(pass := |s.history|, retries := 0, tally := s.tally.(runs := 0, passGaps := 0, wasted := false),
         place := CourseResearch)
    case RetryResearchPass =>
      if s.retries >= MAX_STALE_RETRIES then s.(place := StaleResultError)
      else s.(pass := |s.history|, retries := s.retries + 1, place := CourseResearch)
    case CourseResearch =>
      s.(research := s.research.(filters := s.filters, routing := s.routing, pass := s.pass),
         tally := OneMoreRun(s.tally).(gaps := 0), place := BeginPass)
    case SendReviewDigest => s.(place := AwaitHumanReview, shown := s.shown + [Shown(s.valid, s.pass)])
    case AwaitHumanReview => s.(place := InterpretReviewFeedback)
    case SendApprovedCourses => s.(place := PromoteApprovedCourses)
    case PromoteApprovedCourses => s.(place := RecordReviewOutcome)
    case DiscardRun => s.(place := DropPendingCourses)
    case DropPendingCourses => s.(place := RecordReviewOutcome)
    case RecordReviewOutcome => s.(place := CurateUserMemory)
    case CurateUserMemory => s.(place := Ended)
    case _ => s
  }

  /** Plain nodes of the research graph. */
  function NextInResearch(c: Config, s: State): State {
    match s.place
    case BeginPass => s.(research := Begin(s.research), place := FromEntry(s.research.routing))
    case LoadUserProfile => s.(place := FindKnownCourses)
    case PlanWebSearch => Planned(c, s)
    case SearchWeb => Searched(s)
    case ExtractCourses => s.(place := MergeCourses)
    case MergeCourses => s.(place := RemoveDuplicates)
    case RemoveDuplicates => s.(place := VerifyClaims)
    case PlanGapSearch => Replanned(c, s)
    case SaveVerifiedCourses =>
      s.(tally := s.tally.(staged := s.tally.staged + WebUrls(s.research.valid)), place := RankAndSummarize)
    case _ => s
  }

  // ----- control invariant -----

  predicate Final(p: Place) {
    match p
    case SendApprovedCourses => true
    case PromoteApprovedCourses => true
    case DiscardRun => true
    case DropPendingCourses => true
    case RecordReviewOutcome => true
    case CurateUserMemory => true
    case Ended => true
    case StaleResultError => true
    case _ => false
  }

  predicate Reviewing(p: Place) { p.SendReviewDigest? || p.AwaitHumanReview? || p.InterpretReviewFeedback? }

  /** Passes are numbered by the rounds recorded so far, and each gets at most two research runs. */
  predicate Anchored(c: Config, s: State) {
    s.retries <= MAX_STALE_RETRIES && s.tally.runs <= 1 + MAX_STALE_RETRIES
    && (!Final(s.place) ==> !s.discarded && !s.research.discarded && s.tally.loops == |s.history|)
    && (s.tally.loops > 0 ==> s.tally.loops <= c.maxRounds)
    && (s.place.CourseResearch? ==> s.pass == |s.history| && s.tally.runs == s.retries)
    && (s.place.RetryResearchPass? ==> s.tally.runs == s.retries + 1)
    && (InResearch(s.place) ==> s.pass == |s.history| && s.research.pass == s.pass && s.tally.runs == s.retries + 1)
    && (Reviewing(s.place) ==> s.pass == |s.history|)
  }

  lemma InitiallyAnchored(c: Config)
    ensures Anchored(c, INITIAL)
  {
  }

  lemma AnchoredOutput(c: Config, s: State, o: Output)
    requires Anchored(c, s) && !Final(s.place) && s.tally.runs == s.retries + 1 && o.pass != |s.history|
    ensures Anchored(c, Answered(s, o))
  {
  }

  lemma AnchoredLeave(c: Config, s: State, r: Research)
    requires Anchored(c, s) && InResearch(s.place) && r.pass == s.pass
    ensures Anchored(c, Leave(s.(research := r)))
  {
  }

  lemma AnchoredRouter(c: Config, s: State, reading: Reading, redacted: string, reply: Option<Reply>)
    requires Anchored(c, s) && s.place.InterpretReviewFeedback? && (reading.Blank? <==> redacted == "")
    ensures Anchored(c, Routed(c, s, reading, redacted, reply))
  {
  }

  lemma AnchoredOuter(c: Config, s: State)
    requires Anchored(c, s) && Enabled(c, s, Advance) && !InResearch(s.place)
    ensures Anchored(c, NextPlain(c, s))
  {
  }

  lemma AnchoredResearch(c: Config, s: State)
    requires Anchored(c, s) && Enabled(c, s, Advance) && InResearch(s.place)
    ensures Anchored(c, NextPlain(c, s))
  {
    AnchoredLeave(c, s, s.research.(discarded := true));
    AnchoredLeave(c, s, s.research.(plan := [], discarded := true));
  }

  lemma StaysAnchored(c: Config, s: State, e: Event)
    requires Anchored(c, s) && Enabled(c, s, e)
    ensures Anchored(c, Next(c, s, e))
  {
    match e
    case Echo(o) => AnchoredEcho(c, s, o);
    case Finished(stale) => if stale.Some? { AnchoredOutput(c, s, stale.value); }
        else { AnchoredLeave(c, s, s.research); }
    case Reviewed(reading, redacted, reply) => AnchoredRouter(c, s, reading, redacted, reply);
    case Advance => if InResearch(s.place) { AnchoredResearch(c, s); } else { AnchoredOuter(c, s); }
    case _ =>
  }

  lemma AnchoredEcho(c: Config, s: State, o: Output)
    requires Anchored(c, s) && s.place.CourseResearch? && o.pass != |s.history|
    ensures Anchored(c, Answered(s.(tally := OneMoreRun(s.tally)), o))
  {
  }

  // ----- runs -----

  ghost predicate Moves(c: Config, s: State, e: Event, t: State) {
    Enabled(c, s, e) && t == Next(c, s, e)
  }

  ghost predicate IsRun(c: Config, ss: seq<State>, es: seq<Event>) {
    |ss| == |es| + 1 && ss[0] == INITIAL && forall k :: 0 <= k < |es| ==> Moves(c, ss[k], es[k], ss[k + 1])
  }

  lemma {:induction false} RunAnchored(c: Config, ss: seq<State>, es: seq<Event>, k: nat)
    requires IsRun(c, ss, es) && k < |ss|
    ensures Anchored(c, ss[k])
  {
    if k == 0 {
    } else {
      RunAnchored(c, ss, es, k - 1);
      assert Moves(c, ss[k - 1], es[k - 1], ss[k]);
      StaysAnchored(c, ss[k - 1], es[k - 1]);
    }
  }

  /** At every pause for human review the pass is the number of recorded rounds and nothing asks for a discard. */
  lemma PausedInStep(c: Config, ss: seq<State>, es: seq<Event>, k: nat)
    requires IsRun(c, ss, es) && k < |ss| && ss[k].place.AwaitHumanReview?
    ensures ss[k].pass == |ss[k].history| && !ss[k].discarded
  {
    RunAnchored(c, ss, es, k);
  }

  /** Review sends a run back at most `maxRounds` times, and each pass asks research at most twice. */
  lemma LoopsAreBounded(c: Config, ss: seq<State>, es: seq<Event>, k: nat)
    requires IsRun(c, ss, es) && k < |ss|
    ensures ss[k].tally.loops <= (if c.maxRounds > 0 then c.maxRounds else 0)
            && ss[k].tally.runs <= 1 + MAX_STALE_RETRIES
  {
    RunAnchored(c, ss, es, k);
  }

  // ----- what each decision leads to -----

  /** No decision is left once the rounds are used up; without a model only an approval phrase publishes. */
  lemma DecisionsAre(c: Config, rounds: nat, reading: Reading, reply: Option<Reply>)
    ensures rounds >= c.maxRounds || reading.Blank? ==>
            Decide(c, rounds, reading, reply) ==
            Decision(DISCARD, Some(true))
    ensures Decide(c, rounds, reading, reply).action == PUBLISH <==>
              rounds < c.maxRounds && (reading.Approval? || (!reading.Blank? && reply == Some(Chose(PUBLISH))))
    ensures LoopsBack(Decide(c, rounds, reading, None).action) <==>
              rounds < c.maxRounds && (reading.RewriteWord? || reading.AugmentWord? || reading.ResetWord?)
  {
  }

  lemma {:induction false} MentionsMeans(s: string, word: string)
    ensures Mentions(s, word) <==> exists i :: 0 <= i <= |s| && StartsWith(s[i..], word)
    decreases |s|
  {
    assert s[0..] == s;
    if s == "" {
    } else {
      MentionsMeans(s[1..], word);
      forall i | 0 <= i < |s| ensures s[1..][i..] == s[i + 1..] {}
      if Mentions(s[1..], word) {
        var i :| 0 <= i <= |s[1..]| && StartsWith(s[1..][i..], word);
        assert StartsWith(s[i + 1..], word);
      }
      if i :| 0 <= i <= |s| && StartsWith(s[i..], word) {
        if i > 0 { assert StartsWith(s[1..][i - 1..], word); }
      }
    }
  }

  /** Without a model, a text that begins with "reset" resets the run unless the word "more" occurs anywhere in it. */
  lemma ResetUnlessMore(c: Config, rounds: nat, feedback: string)
    requires rounds < c.maxRounds && StartsWith(feedback, "reset")
    ensures var action := Decide(c, rounds, Read(feedback), None).action;
            if exists i :: 0 <= i <= |feedback| && StartsWith(feedback[i..], "more") then action == AUGMENT
            else action == RESET
  {
    MentionsMeans(feedback, "more");
    assert feedback[0] == "reset"[0] && feedback[2] == "reset"[2];
    assert !StartsWith(feedback, "rewrite") by { assert "rewrite"[2] != feedback[2]; }
    assert !StartsWith(feedback, "augment") by { assert "augment"[0] != feedback[0]; }
  }

  function Plainly(c: Config, s: State, n: nat): State
    decreases n
  {
    if n == 0 then s else Plainly(c, NextPlain(c, s), n - 1)
  }

  lemma ThreeSteps(c: Config, s: State)
    ensures Plainly(c, s, 3) == NextPlain(c, NextPlain(c, NextPlain(c, s)))
  {
    assert Plainly(c, s, 3) == Plainly(c, NextPlain(c, s), 2) == Plainly(c, NextPlain(c, NextPlain(c, s)), 1);
    assert Plainly(c, NextPlain(c, NextPlain(c, s)), 1) == Plainly(c, NextPlain(c, NextPlain(c, NextPlain(c, s))), 0);
  }

  /**
   * AUGMENT and REWRITE start the next pass on top of the queries run so far; AUGMENT goes straight to the gap search.
   */
  lemma LoopBackKeepsLedger(c: Config, s: State, reading: Reading, redacted: string, reply: Option<Reply>)
    requires Anchored(c, s) && Enabled(c, s, Reviewed(reading, redacted, reply))
    requires var a := Decide(c, |s.history|, reading, reply).action; a == AUGMENT || a == REWRITE
    ensures var t := Plainly(c, Routed(c, s, reading, redacted, reply), 3);
            t.place == (if t.routing == Some(AUGMENT) then PlanGapSearch else LoadUserProfile)
            && t.pass == |s.history| + 1 == |t.history| && t.research.pass == t.pass
            && t.research.completed == s.research.completed && t.research.iteration == s.research.iteration
  {
    ThreeSteps(c, Routed(c, s, reading, redacted, reply));
  }

  /** RESET parses the request again and then starts from an empty ledger. */
  lemma ResetClearsLedger(c: Config, s: State, reading: Reading, redacted: string, reply: Option<Reply>,
                          filters: Filters)
    requires Anchored(c, s) && Enabled(c, s, Reviewed(reading, redacted, reply))
    requires Decide(c, |s.history|, reading, reply).action == RESET
    ensures var parsing := Routed(c, s, reading, redacted, reply);
            Enabled(c, parsing, Parsed(filters))
            && var t := Plainly(c, Next(c, parsing, Parsed(filters)), 3);
               t.place == LoadUserProfile && t.research.filters == Some(filters)
                   && t.pass == |s.history| + 1 == |t.history|
               && t.research.completed == [] && t.research.iteration == 0
  {
    ThreeSteps(c, Next(c, Routed(c, s, reading, redacted, reply), Parsed(filters)));
  }

  /** A pass asks again after one stale answer, and gives up with an error after a second one. */
  lemma StaleOnceThenError(c: Config, s: State, o: Output, again: Output)
    requires Anchored(c, s) && s.place.CourseResearch? && s.retries == 0
    requires o.pass != |s.history| && again.pass != |s.history|
    ensures var once := Next(c, s, Echo(o));
            once.place.RetryResearchPass?
            && var retried := NextPlain(c, once);
               retried.place.CourseResearch? && retried.pass == |s.history| && retried.retries == 1
               && NextPlain(c, Next(c, retried, Echo(again))).place == StaleResultError
  {
  }

  /** Research is saved only with enough valid courses or once the replan budget is used up. */
  predicate SavesInTime(c: Config, s: State) {
    s.place.SaveVerifiedCourses? || s.place.RankAndSummarize? ==>
      |s.research.valid| >= Planning.MIN_VALID || s.research.iteration >= c.maxIterations
  }

  lemma OnlyAdvances(c: Config, s: State, e: Event)
    requires Enabled(c, s, e)
    requires s.place.BeginPass? || s.place.PlanWebSearch? || s.place.PlanGapSearch? || s.place.SearchWeb?
    ensures e.Advance?
  {
  }

  lemma WhatBeginningDoes(c: Config, s: State)
    requires s.place == BeginPass
    ensures NextPlain(c, s) == s.(research := Begin(s.research), place := FromEntry(s.research.routing))
  {
  }

  lemma WhatPlanningDoes(c: Config, s: State, t: State)
    requires s.place == PlanWebSearch && t == NextPlain(c, s)
    ensures t == Planned(c, s)
  {
  }

  lemma WhatReplanningDoes(c: Config, s: State, t: State)
    requires s.place == PlanGapSearch && t == NextPlain(c, s)
    ensures t == Replanned(c, s)
  {
  }

  lemma WhatSearchingDoes(c: Config, s: State)
    requires s.place == SearchWeb
    ensures NextPlain(c, s) == Searched(s)
  {
  }

  lemma WhatPlacesDo(c: Config, s: State, e: Event, t: State)
    requires Moves(c, s, e, t)
    ensures s.place.BeginPass? ==> t == s.(research := Begin(s.research), place := FromEntry(s.research.routing))
    ensures s.place.PlanWebSearch? ==> t == Planned(c, s)
    ensures s.place.PlanGapSearch? ==> t == Replanned(c, s)
    ensures s.place.SearchWeb? ==> t == Searched(s)
  {
    if s.place.BeginPass? {
      OnlyAdvances(c, s, e);
      WhatBeginningDoes(c, s);
    } else if s.place.PlanWebSearch? {
      OnlyAdvances(c, s, e);
      WhatPlanningDoes(c, s, t);
    } else if s.place.PlanGapSearch? {
      OnlyAdvances(c, s, e);
      WhatReplanningDoes(c, s, t);
    } else if s.place.SearchWeb? {
      OnlyAdvances(c, s, e);
      WhatSearchingDoes(c, s);
    }
  }

  lemma PlanningNeverSaves(c: Config, s: State, t: State)
    requires t == Planned(c, s) || t == Replanned(c, s)
    ensures !t.place.SaveVerifiedCourses? && !t.place.RankAndSummarize?
  {
  }

  lemma PlainSaving(c: Config, s: State, t: State)
    requires Enabled(c, s, Advance) && t == NextPlain(c, s) && !s.place.PlanWebSearch? && !s.place.PlanGapSearch?
    ensures !t.place.SaveVerifiedCourses?
    ensures t.place.RankAndSummarize? ==> s.place.SaveVerifiedCourses? && t.research == s.research
  {
  }

  lemma OtherSaving(c: Config, s: State, e: Event, t: State)
    requires Moves(c, s, e, t) && !e.Advance?
    ensures t.place.SaveVerifiedCourses? ==> EnoughValid(c, t.research).SaveVerifiedCourses?
    ensures !t.place.RankAndSummarize?
  {
  }

  lemma SavesInTimeStep(c: Config, s: State, e: Event, t: State)
    requires SavesInTime(c, s) && Moves(c, s, e, t)
    ensures SavesInTime(c, t)
  {
    WhatPlacesDo(c, s, e, t);
    if s.place.PlanWebSearch? || s.place.PlanGapSearch? { PlanningNeverSaves(c, s, t); }
    else if e.Advance? { PlainSaving(c, s, t); }
    else { OtherSaving(c, s, e, t); }
  }

  lemma {:induction false} SavedInTime(c: Config, ss: seq<State>, es: seq<Event>, k: nat)
    requires IsRun(c, ss, es) && k < |ss|
    ensures SavesInTime(c, ss[k])
  {
    if k == 0 {
    } else {
      SavedInTime(c, ss, es, k - 1);
      assert Moves(c, ss[k - 1], es[k - 1], ss[k]);
      SavesInTimeStep(c, ss[k - 1], es[k - 1], ss[k]);
    }
  }
}
