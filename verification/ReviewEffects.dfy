/**
 * What a run does to the outbox and to the catalogue, when any node may be cut short after any of its effects and run
 * again (course_discovery/review/nodes.py, course_discovery/review/router.py,
 * course_discovery/research_agent/cache/nodes.py).
 */
module ReviewEffects {
  import opened Text
  import opened Courses
  import opened Catalogue
  import opened ReviewGraph

  // ----- effect keys -----

  datatype Key = DigestKey(run: string, pass: int) | PromptKey(run: string) | PublishKey(run: string)

  function Render(k: Key): string
    requires k.DigestKey? ==> k.pass >= 0
  {
    match k
    case DigestKey(run, pass) => "digest:" + run + ":" + Decimal(pass)
    case PromptKey(run) => "feedback_prompt:" + run
    case PublishKey(run) => "publish:" + run
  }

  lemma DigestTail(run: string, pass: nat)
    ensures Render(DigestKey(run, pass))[7..] == run + ":" + Decimal(pass)
    ensures Render(DigestKey(run, pass))[0] == 'd'
  {
  }

  lemma PromptTail(run: string)
    ensures Render(PromptKey(run))[16..] == run && Render(PromptKey(run))[0] == 'f'
  {
  }

  lemma PublishTail(run: string)
    ensures Render(PublishKey(run))[8..] == run && Render(PublishKey(run))[0] == 'p'
  {
  }

  /** No two effects of any runs share their key, whatever the run ids contain. */
  lemma KeysAreDistinct(k: Key, l: Key)
    requires (k.DigestKey? ==> k.pass >= 0) && (l.DigestKey? ==> l.pass >= 0)
    requires Render(k) == Render(l)
    ensures k == l
  {
    match (k, l)
    case (DigestKey(r, p), DigestKey(q, n)) =>
      DigestTail(r, p);
      DigestTail(q, n);
      LastColon(r, Decimal(p), q, Decimal(n));
      DecimalInjective(p, n);
    case (PromptKey(r), PromptKey(q)) => PromptTail(r); PromptTail(q);
    case (PublishKey(r), PublishKey(q)) => PublishTail(r); PublishTail(q);
    case _ => FirstLetters(k); FirstLetters(l);
  }

  lemma FirstLetters(k: Key)
    requires k.DigestKey? ==> k.pass >= 0
    ensures Render(k) != ""
    ensures Render(k)[0] == (match k case DigestKey(_, _) => 'd' case PromptKey(_) => 'f' case PublishKey(_) => 'p')
  {
  }

  // ----- effects of a node -----

  datatype Payload = DigestPayload(pass: int, urls: seq<string>) | PromptPayload | PublishPayload(urls: seq<string>)

  /** The outbox of the effect gateway, where the first submission under a key wins, and the course tables. */
  datatype Env = Env(outbox: map<Key, Payload>, db: Db)

  datatype Effect =
    | Submit(key: Key, payload: Payload)
    | Stage(courses: seq<Course>, verdicts: map<string, Status>)
    | Upsert(approved: seq<string>)
    | Drop

  function NonCache(courses: seq<Course>): (r: seq<Course>)
    decreases |courses|
  {
    if courses == [] then []
    else
      var n := |courses| - 1;
      NonCache(courses[..n]) + (if courses[n].origin.FromCache? then [] else [courses[n]])
  }

  function EffectsOf(c: Config, s: State): seq<Effect> {
    match s.place
    case SendReviewDigest =>
      if c.chat then
        [Submit(DigestKey(c.run, s.pass), DigestPayload(s.pass, UrlsOf(s.valid))),
            Submit(PromptKey(c.run), PromptPayload)]
      else []
    case SendApprovedCourses => [Submit(PublishKey(c.run), PublishPayload(UrlsOf(s.valid)))]
    case SaveVerifiedCourses => [Stage(NonCache(s.research.valid), s.research.verdicts)]
    case PromoteApprovedCourses => [Upsert(UrlsOf(NonCache(s.valid))), Drop]
    case DropPendingCourses => [Drop]
    case _ => []
  }

  function Performed(run: string, env: Env, e: Effect): Env {
    match e
    case Submit(key, payload) => if key in env.outbox then env else env.(outbox := env.outbox[key := payload])
    case Stage(courses, verdicts) => env.(db := env.db.(pending := Staged(env.db.pending, run, courses, verdicts)))
    case Upsert(approved) => env.(db := env.db.(courses := Promoted(env.db.courses, env.db.pending, run, approved)))
    case Drop => env.(db := env.db.(pending := Discarded(env.db.pending, run)))
  }

  function PerformedAll(run: string, env: Env, es: seq<Effect>): Env
    decreases |es|
  {
    if es == [] then env else PerformedAll(run, Performed(run, env, es[0]), es[1..])
  }

  // ----- runs with interruptions -----

  datatype World = World(s: State, env: Env)

  /** A node completes, or it is cut short after its first `done` effects and will run again. */
  datatype Step = Commit(e: Event) | Interrupted(done: nat)

  ghost predicate StepEnabled(c: Config, w: World, step: Step) {
    match step
    case Commit(e) => Enabled(c, w.s, e)
    case Interrupted(done) => done <= |EffectsOf(c, w.s)|
  }

  function After(c: Config, w: World, step: Step): World {
    var effects := EffectsOf(c, w.s);
    match step
    case Commit(e) => World(Next(c, w.s, e), PerformedAll(c.run, w.env, effects))
    case Interrupted(done) => World(w.s, PerformedAll(c.run, w.env, if done <= |effects| then effects[..done]
        else effects))
  }

  ghost predicate StepMoves(c: Config, w: World, step: Step, v: World) {
    StepEnabled(c, w, step) && v == After(c, w, step)
  }

  /** The run id is new: no effect of this run has been submitted and no course of it has been staged before. */
  ghost predicate FreshRun(c: Config, env: Env) {
    KeyedByUrl(env.db.pending) && NothingStagedFor(c.run, env.db.pending)
    && forall k :: k in env.outbox ==> k.run != c.run
  }

  ghost predicate IsWorldRun(c: Config, ws: seq<World>, steps: seq<Step>) {
    |ws| == |steps| + 1 && ws[0].s == INITIAL && FreshRun(c, ws[0].env)
    && forall k :: 0 <= k < |steps| ==> StepMoves(c, ws[k], steps[k], ws[k + 1])
  }

  lemma OneEffect(run: string, env: Env, e: Effect)
    ensures PerformedAll(run, env, [e]) == Performed(run, env, e)
  {
  }

  lemma TwoEffects(run: string, env: Env, e: Effect, f: Effect)
    ensures PerformedAll(run, env, [e, f]) == Performed(run, Performed(run, env, e), f)
  {
    assert [e, f][1..] == [f];
    OneEffect(run, Performed(run, env, e), f);
  }

  /** Reduces a step to performing no, some or all effects of the node. */
  lemma Prefixes(c: Config, s: State, done: nat)
    requires done <= |EffectsOf(c, s)|
    ensures var all, some := EffectsOf(c, s), EffectsOf(c, s)[..done];
            some == [] || some == all || (|all| == 2 && some == [all[0]])
  {
  }

  // ----- rounds -----

  predicate Waiting(p: Place) { p.AwaitHumanReview? || p.InterpretReviewFeedback? }

  /**
   * Rounds shown are numbered like their passes, and there is one more of them than recorded while the human decides.
   */
  ghost predicate Rounds(c: Config, s: State) {
    Anchored(c, s)
    && (forall p :: 0 <= p < |s.shown| ==> s.shown[p].pass == p)
    && (!Final(s.place) ==> |s.shown| == |s.history| + (if Waiting(s.place) then 1 else 0))
    && (!Final(s.place) ==> s.routing != Some(PUBLISH))
    && (Waiting(s.place) || s.routing == Some(PUBLISH) ==> |s.shown| > 0 && s.shown[|s.shown| - 1].courses == s.valid)
  }

  lemma RoundsRouted(c: Config, s: State, reading: Reading, redacted: string, reply: Option<Reply>)
    requires Rounds(c, s) && s.place.InterpretReviewFeedback? && (reading.Blank? <==> redacted == "")
    ensures Rounds(c, Routed(c, s, reading, redacted, reply))
  {
    AnchoredRouter(c, s, reading, redacted, reply);
  }

  lemma ShownGrows(c: Config, s: State, e: Event)
    requires Enabled(c, s, e)
    ensures Next(c, s, e).shown == (if s.place.SendReviewDigest? then s.shown + [Shown(s.valid, s.pass)] else s.shown)
  {
  }

  lemma HistoryStays(c: Config, s: State, e: Event)
    requires Enabled(c, s, e) && !e.Reviewed?
    ensures Next(c, s, e).history == s.history
  {
  }

  lemma RoutingOf(c: Config, s: State, e: Event)
    requires Enabled(c, s, e) && !e.Reviewed?
    ensures Next(c, s, e).routing == (if e.Closed? then Some(PUBLISH) else if e.Parsed? then None else s.routing)
  {
  }

  lemma PlainPlaceMoves(c: Config, s: State)
    requires Enabled(c, s, Advance)
    ensures Waiting(NextPlain(c, s).place) <==> s.place.SendReviewDigest? || s.place.AwaitHumanReview?
    ensures Final(s.place) ==> Final(NextPlain(c, s).place)
  {
  }

  lemma PlaceMoves(c: Config, s: State, e: Event)
    requires Enabled(c, s, e) && !e.Reviewed?
    ensures Waiting(Next(c, s, e).place) <==> s.place.SendReviewDigest? || (s.place.AwaitHumanReview? && e.Advance?)
    ensures Final(s.place) ==> Final(Next(c, s, e).place)
    ensures e.Closed? ==> Final(Next(c, s, e).place)
  {
    if e.Advance? { PlainPlaceMoves(c, s); }
  }

  lemma FinalKeepsValid(c: Config, s: State, e: Event)
    requires Enabled(c, s, e) && (Final(s.place) || s.place.AwaitHumanReview? || s.place.SendReviewDigest?)
    ensures Next(c, s, e).valid == s.valid
  {
  }

  lemma RoundsStep(c: Config, s: State, e: Event)
    requires Rounds(c, s) && Enabled(c, s, e)
    ensures Rounds(c, Next(c, s, e))
  {
    if e.Reviewed? {
      RoundsRouted(c, s, e.reading, e.redacted, e.reply);
    } else {
      StaysAnchored(c, s, e);
      ShownGrows(c, s, e);
      HistoryStays(c, s, e);
      RoutingOf(c, s, e);
      PlaceMoves(c, s, e);
      if Final(s.place) || s.place.AwaitHumanReview? || s.place.SendReviewDigest? { FinalKeepsValid(c, s, e); }
    }
  }

  // ----- the outbox -----

  /** Places of a run in review mode that lie behind an approval. */
  predicate BehindApproval(p: Place) {
    p.SendApprovedCourses? || p.PromoteApprovedCourses? || p.RecordReviewOutcome? || p.CurateUserMemory? || p.Ended?
  }

  predicate Approved(c: Config, s: State) {
    !c.chat && s.routing == Some(PUBLISH) && BehindApproval(s.place)
  }

  /**
   * A digest of a round that was shown, or of the one about to be shown; a prompt in chat; a publish after approval.
   */
  ghost predicate KeyOk(c: Config, s: State, k: Key, payload: Payload) {
    match k
    case DigestKey(_, p) =>
      c.chat
      && ((0 <= p < |s.shown| && payload == DigestPayload(p, UrlsOf(s.shown[p].courses)))
          || (s.place.SendReviewDigest? && p == s.pass && payload == DigestPayload(p, UrlsOf(s.valid))))
    case PromptKey(_) => c.chat && payload == PromptPayload
    case PublishKey(_) => Approved(c, s) && payload == PublishPayload(UrlsOf(s.valid))
  }

  ghost predicate OutboxSound(c: Config, s: State, outbox: map<Key, Payload>) {
    forall k :: k in outbox && k.run == c.run ==> KeyOk(c, s, k, outbox[k])
  }

  /** The effects that must be there by now. */
  ghost predicate OutboxComplete(c: Config, s: State, outbox: map<Key, Payload>) {
    (c.chat ==> forall p :: 0 <= p < |s.shown| ==> DigestKey(c.run, p) in outbox)
    && (c.chat && |s.shown| > 0 ==> PromptKey(c.run) in outbox)
    && (Approved(c, s) && !s.place.SendApprovedCourses? ==> PublishKey(c.run) in outbox)
  }

  ghost predicate OutboxOk(c: Config, w: World) {
    OutboxSound(c, w.s, w.env.outbox) && OutboxComplete(c, w.s, w.env.outbox)
  }

  function Enqueued(outbox: map<Key, Payload>, key: Key, payload: Payload): map<Key, Payload> {
    if key in outbox then outbox else outbox[key := payload]
  }

  lemma SoundEnqueue(c: Config, s: State, outbox: map<Key, Payload>, key: Key, payload: Payload)
    requires OutboxSound(c, s, outbox) && KeyOk(c, s, key, payload)
    ensures OutboxSound(c, s, Enqueued(outbox, key, payload))
  {
  }

  lemma CompleteEnqueue(c: Config, s: State, outbox: map<Key, Payload>, key: Key, payload: Payload)
    requires OutboxComplete(c, s, outbox)
    ensures OutboxComplete(c, s, Enqueued(outbox, key, payload))
  {
  }

  /** What the effects of a node do to the outbox. */
  function OutboxAfter(c: Config, s: State, outbox: map<Key, Payload>): map<Key, Payload> {
    if s.place.SendReviewDigest? && c.chat then
      Enqueued(Enqueued(outbox, DigestKey(c.run, s.pass), DigestPayload(s.pass, UrlsOf(s.valid))),
               PromptKey(c.run), PromptPayload)
    else if s.place.SendApprovedCourses? then Enqueued(outbox, PublishKey(c.run), PublishPayload(UrlsOf(s.valid)))
    else outbox
  }

  lemma DigestOnOutbox(c: Config, w: World)
    requires w.s.place == SendReviewDigest && c.chat
    ensures var all := EffectsOf(c, w.s);
            all == [all[0], all[1]]
            && PerformedAll(c.run, w.env, [all[0]]).outbox
               == Enqueued(w.env.outbox, DigestKey(c.run, w.s.pass), DigestPayload(w.s.pass, UrlsOf(w.s.valid)))
            && PerformedAll(c.run, w.env, all).outbox == OutboxAfter(c, w.s, w.env.outbox)
  {
    var all := EffectsOf(c, w.s);
    assert all == [all[0], all[1]];
    TwoEffects(c.run, w.env, all[0], all[1]);
    OneEffect(c.run, w.env, all[0]);
  }

  lemma OthersOnOutbox(c: Config, w: World)
    requires w.s.place != SendReviewDigest
    ensures PerformedAll(c.run, w.env, EffectsOf(c, w.s)).outbox == OutboxAfter(c, w.s, w.env.outbox)
    ensures w.s.place == PromoteApprovedCourses ==>
              PerformedAll(c.run, w.env, [EffectsOf(c, w.s)[0]]).outbox == w.env.outbox
  {
    var all := EffectsOf(c, w.s);
    if |all| == 2 {
      assert all == [all[0], all[1]];
      TwoEffects(c.run, w.env, all[0], all[1]);
      OneEffect(c.run, w.env, all[0]);
    } else if |all| == 1 {
      assert all == [all[0]];
      OneEffect(c.run, w.env, all[0]);
    }
  }

  lemma EffectsOnOutbox(c: Config, w: World, done: nat)
    requires done <= |EffectsOf(c, w.s)|
    ensures var after := PerformedAll(c.run, w.env, EffectsOf(c, w.s)[..done]).outbox;
            after == w.env.outbox
            || after == OutboxAfter(c, w.s, w.env.outbox)
            || (w.s.place.SendReviewDigest? && c.chat
                && after == Enqueued(w.env.outbox, DigestKey(c.run, w.s.pass),
                    DigestPayload(w.s.pass, UrlsOf(w.s.valid))))
    ensures PerformedAll(c.run, w.env, EffectsOf(c, w.s)).outbox == OutboxAfter(c, w.s, w.env.outbox)
  {
    Prefixes(c, w.s, done);
    if w.s.place == SendReviewDigest {
      if c.chat { DigestOnOutbox(c, w); }
    } else {
      OthersOnOutbox(c, w);
    }
  }

  lemma InterruptedOutbox(c: Config, w: World, done: nat)
    requires Rounds(c, w.s) && OutboxOk(c, w) && done <= |EffectsOf(c, w.s)|
    requires w.s.place.SendApprovedCourses? ==> Approved(c, w.s)
    ensures OutboxOk(c, After(c, w, Interrupted(done)))
    ensures OutboxSound(c, w.s, OutboxAfter(c, w.s, w.env.outbox))
            && OutboxComplete(c, w.s, OutboxAfter(c, w.s, w.env.outbox))
  {
    EffectsOnOutbox(c, w, done);
    var s, outbox := w.s, w.env.outbox;
    if s.place.SendReviewDigest? && c.chat {
      var key, payload := DigestKey(c.run, s.pass), DigestPayload(s.pass, UrlsOf(s.valid));
      SoundEnqueue(c, s, outbox, key, payload);
      CompleteEnqueue(c, s, outbox, key, payload);
      SoundEnqueue(c, s, Enqueued(outbox, key, payload), PromptKey(c.run), PromptPayload);
      CompleteEnqueue(c, s, Enqueued(outbox, key, payload), PromptKey(c.run), PromptPayload);
    } else if s.place.SendApprovedCourses? {
      SoundEnqueue(c, s, outbox, PublishKey(c.run), PublishPayload(UrlsOf(s.valid)));
      CompleteEnqueue(c, s, outbox, PublishKey(c.run), PublishPayload(UrlsOf(s.valid)));
    }
  }

  /** An outbox that fits a state before a node completes also fits the state after it. */
  lemma KeyStaysOk(c: Config, s: State, e: Event, k: Key, payload: Payload)
    requires Rounds(c, s) && Enabled(c, s, e) && KeyOk(c, s, k, payload)
    ensures KeyOk(c, Next(c, s, e), k, payload)
  {
    ShownGrows(c, s, e);
    if k.PublishKey? { ApprovalStays(c, s, e); }
  }

  lemma ApprovalStays(c: Config, s: State, e: Event)
    requires Approved(c, s) && Enabled(c, s, e)
    ensures Approved(c, Next(c, s, e)) && Next(c, s, e).valid == s.valid && !Next(c, s, e).place.SendApprovedCourses?
  {
  }

  /** Only an approval outside chat leads to publishing and promotion. */
  predicate Gate(c: Config, s: State) {
    (s.place.SendApprovedCourses? || s.place.PromoteApprovedCourses? ==> Approved(c, s))
    && (s.place.DiscardRun? || s.place.DropPendingCourses? ==> s.routing != Some(PUBLISH))
  }

  lemma GateRouted(c: Config, s: State, reading: Reading, redacted: string, reply: Option<Reply>)
    requires s.place.InterpretReviewFeedback?
    ensures var t := Routed(c, s, reading, redacted, reply);
            Gate(c, t) && (Approved(c, t) ==> t.place.SendApprovedCourses?)
  {
  }

  lemma GateStep(c: Config, s: State, e: Event)
    requires Rounds(c, s) && Gate(c, s) && Enabled(c, s, e)
    ensures Gate(c, Next(c, s, e))
    ensures Approved(c, Next(c, s, e)) && !Approved(c, s) ==> Next(c, s, e).place.SendApprovedCourses?
  {
    if e.Reviewed? {
      GateRouted(c, s, e.reading, e.redacted, e.reply);
    } else {
      RoutingOf(c, s, e);
      if Approved(c, s) {
        ApprovalStays(c, s, e);
        PromoteAfterSend(c, s, e);
      } else {
        NotYetApproved(c, s, e);
      }
    }
  }

  lemma PromoteAfterSend(c: Config, s: State, e: Event)
    requires Approved(c, s) && Enabled(c, s, e)
    ensures !Next(c, s, e).place.DiscardRun? && !Next(c, s, e).place.DropPendingCourses?
  {
  }

  lemma NotYetApproved(c: Config, s: State, e: Event)
    requires Rounds(c, s) && Gate(c, s) && Enabled(c, s, e) && !e.Reviewed? && !Approved(c, s)
    ensures Gate(c, Next(c, s, e))
    ensures !Approved(c, Next(c, s, e))
  {
    if e.Advance? { NotYetApprovedPlain(c, s); }
  }

  lemma NotYetApprovedPlain(c: Config, s: State)
    requires Rounds(c, s) && Gate(c, s) && Enabled(c, s, Advance) && !Approved(c, s)
    ensures Gate(c, NextPlain(c, s))
    ensures !Approved(c, NextPlain(c, s))
  {
  }

  lemma CommitOutbox(c: Config, w: World, e: Event)
    requires Rounds(c, w.s) && Gate(c, w.s) && OutboxOk(c, w) && Enabled(c, w.s, e)
    ensures OutboxOk(c, After(c, w, Commit(e)))
  {
    var s, t := w.s, Next(c, w.s, e);
    var outbox := OutboxAfter(c, s, w.env.outbox);
    EffectsOnOutbox(c, w, 0);
    InterruptedOutbox(c, w, 0);
    forall k | k in outbox && k.run == c.run ensures KeyOk(c, t, k, outbox[k]) { KeyStaysOk(c, s, e, k, outbox[k]); }
    CommitComplete(c, s, e, w.env.outbox);
  }

  lemma CommitComplete(c: Config, s: State, e: Event, outbox: map<Key, Payload>)
    requires Rounds(c, s) && Gate(c, s) && Enabled(c, s, e) && OutboxComplete(c, s, OutboxAfter(c, s, outbox))
    ensures OutboxComplete(c, Next(c, s, e), OutboxAfter(c, s, outbox))
  {
    ShownGrows(c, s, e);
    GateStep(c, s, e);
    if Approved(c, s) { ApprovalStays(c, s, e); }
  }

  // ----- the catalogue -----

  /** The course of that URL that comes from the web; URLs are distinct. */
  function WebCourse(courses: seq<Course>, url: string): Option<Course>
    decreases |courses|
  {
    if courses == [] then None
    else
      var n := |courses| - 1;
      if courses[n].url == url && courses[n].origin.FromWeb? then Some(courses[n]) else WebCourse(courses[..n], url)
  }

  lemma UrlsSnoc(courses: seq<Course>, c: Course)
    ensures UrlsOf(courses + [c]) == UrlsOf(courses) + [c.url]
  {
    assert (courses + [c])[..|courses|] == courses;
  }

  lemma {:induction false} WebCourseFound(courses: seq<Course>, url: string)
    requires WebCourse(courses, url).Some?
    ensures WebCourse(courses, url).value in NonCache(courses)
    ensures WebCourse(courses, url).value in courses && WebCourse(courses, url).value.url == url
    decreases |courses|
  {
    var n := |courses| - 1;
    assert courses == courses[..n] + [courses[n]];
    if courses[n].url != url || courses[n].origin.FromCache? { WebCourseFound(courses[..n], url); }
  }

  lemma {:induction false} WebCourseIn(courses: seq<Course>, url: string)
    ensures url in UrlsOf(NonCache(courses)) <==> WebCourse(courses, url).Some?
    decreases |courses|
  {
    if courses == [] {
    } else {
      var n := |courses| - 1;
      WebCourseIn(courses[..n], url);
      UrlsSnoc(NonCache(courses[..n]), courses[n]);
      assert NonCache(courses) == NonCache(courses[..n]) + (if courses[n].origin.FromCache? then [] else [courses[n]]);
    }
  }

  lemma {:induction false} NonCacheDistinct(courses: seq<Course>)
    requires DistinctUrls(courses)
    ensures NoDup(UrlsOf(NonCache(courses)))
    ensures forall c :: c in NonCache(courses) ==> c in courses
    decreases |courses|
  {
    if courses == [] {
    } else {
      var n := |courses| - 1;
      var rest := NonCache(courses[..n]);
      NonCacheDistinct(courses[..n]);
      assert courses == courses[..n] + [courses[n]];
      NoDupSnoc(UrlsOf(rest), courses[n].url);
      UrlsSnoc(rest, courses[n]);
      WebCourseIn(courses[..n], courses[n].url);
      if WebCourse(courses[..n], courses[n].url).Some? { WebCourseFound(courses[..n], courses[n].url); }
    }
  }

  /** The catalogue row once the shown courses were promoted: the shown web course of that URL, valid, or no change. */
  function ApprovedRow(before: Option<Entry>, courses: seq<Course>, url: string): Option<Entry> {
    var c := WebCourse(courses, url);
    if c.Some? then Some(Stored(before, c.value, Valid)) else before
  }

  ghost predicate IsPromotion(base: Table, t: Table, courses: seq<Course>) {
    forall url :: Lookup(t, url) == ApprovedRow(Lookup(base, url), courses, url)
  }

  /** Every shown course from the web is staged as shown and as valid. */
  ghost predicate StagedOk(run: string, courses: seq<Course>, pending: Staging) {
    forall url :: WebCourse(courses, url).Some? ==>
      PendingKey(run, url) in pending && pending[PendingKey(run, url)] ==
          Pending(WebCourse(courses, url).value, Some(Valid))
  }

  ghost predicate NothingStagedFor(run: string, pending: Staging) {
    forall k :: k in pending ==> k.run != run
  }

  lemma {:induction false} WebCourseUnique(courses: seq<Course>, c: Course)
    requires DistinctUrls(courses) && c in NonCache(courses)
    ensures WebCourse(courses, c.url) == Some(c)
    decreases |courses|
  {
    var n := |courses| - 1;
    NonCacheDistinct(courses[..n]);
    if c in NonCache(courses[..n]) {
      WebCourseUnique(courses[..n], c);
      assert c in courses[..n];
    }
  }

  lemma StagingMakesOk(run: string, pending: Staging, courses: seq<Course>, verdicts: map<string, Status>)
    requires DistinctUrls(courses) && forall k :: 0 <= k < |courses| ==>
             VerdictOf(verdicts, courses[k].url) == Some(Valid)
    ensures StagedOk(run, courses, Staged(pending, run, NonCache(courses), verdicts))
  {
    var web := NonCache(courses);
    NonCacheDistinct(courses);
    forall url | WebCourse(courses, url).Some?
      ensures PendingKey(run, url) in Staged(pending, run, web, verdicts)
      ensures Staged(pending, run, web, verdicts)[PendingKey(run, url)] ==
              Pending(WebCourse(courses, url).value, Some(Valid))
    {
      WebCourseIn(courses, url);
      WebCourseFound(courses, url);
      StagedRow(pending, run, web, verdicts, PendingKey(run, url));
      var c :| c in web && c.url == url
        && Staged(pending, run, web, verdicts)[PendingKey(run, url)] == Pending(c, VerdictOf(verdicts, c.url));
      WebCourseUnique(courses, c);
    }
  }

  lemma FirstPromotion(run: string, base: Table, pending: Staging, courses: seq<Course>)
    requires KeyedByUrl(pending) && StagedOk(run, courses, pending)
    ensures IsPromotion(base, Promoted(base, pending, run, UrlsOf(NonCache(courses))), courses)
  {
    var approved := UrlsOf(NonCache(courses));
    forall url ensures Lookup(Promoted(base, pending, run, approved), url) ==
        ApprovedRow(Lookup(base, url), courses, url) {
      PromotionByRow(base, pending, run, approved, url);
      WebCourseIn(courses, url);
    }
  }

  lemma PromotionAgain(run: string, base: Table, t: Table, pending: Staging, courses: seq<Course>)
    requires KeyedByUrl(pending) && (StagedOk(run, courses, pending) || NothingStagedFor(run, pending))
             && IsPromotion(base, t, courses)
    ensures IsPromotion(base, Promoted(t, pending, run, UrlsOf(NonCache(courses))), courses)
  {
    var approved := UrlsOf(NonCache(courses));
    forall url ensures Lookup(Promoted(t, pending, run, approved), url) ==
        ApprovedRow(Lookup(base, url), courses, url) {
      PromotionByRow(t, pending, run, approved, url);
      WebCourseIn(courses, url);
      assert Lookup(t, url) == ApprovedRow(Lookup(base, url), courses, url);
      if WebCourse(courses, url).Some? {
        StoredTwice(Lookup(base, url), WebCourse(courses, url).value, Valid);
      }
    }
  }

  predicate Showing(p: Place) {
    p.SendReviewDigest? || p.AwaitHumanReview? || p.InterpretReviewFeedback? || p.SendApprovedCourses?
  }

  predicate Closing(p: Place) { p.RecordReviewOutcome? || p.CurateUserMemory? || p.Ended? }

  /**
   * The staging area matches what is, or is about to be, shown; nothing stays staged behind a promotion or a discard.
   */
  ghost predicate PendingOk(c: Config, s: State, pending: Staging) {
    KeyedByUrl(pending)
    && (s.place.SaveVerifiedCourses? || s.place.RankAndSummarize? ==>
          DistinctUrls(s.research.valid)
          && forall k :: 0 <= k < |s.research.valid| ==>
              VerdictOf(s.research.verdicts, s.research.valid[k].url) ==
              Some(Valid))
    && (s.place.RankAndSummarize? ==> StagedOk(c.run, s.research.valid, pending))
    && (Showing(s.place) ==> StagedOk(c.run, s.valid, pending))
    && (s.place.PromoteApprovedCourses? ==> StagedOk(c.run, s.valid, pending) || NothingStagedFor(c.run, pending))
    && (Closing(s.place) && (Approved(c, s) || s.routing != Some(PUBLISH)) ==> NothingStagedFor(c.run, pending))
  }

  /** Before an approval the catalogue is as it was; after it, it holds the shown courses on top. */
  ghost predicate CoursesOk(c: Config, base: Table, s: State, db: Db) {
    if !Approved(c, s) || s.place.SendApprovedCourses? then db.courses == base
    else if s.place.PromoteApprovedCourses? then
      IsPromotion(base, db.courses, s.valid) || (db.courses == base && StagedOk(c.run, s.valid, db.pending))
    else IsPromotion(base, db.courses, s.valid)
  }

  ghost predicate DbOk(c: Config, base: Table, s: State, db: Db) {
    PendingOk(c, s, db.pending) && CoursesOk(c, base, s, db)
  }

  /** What the effects of a node do to the course tables. */
  function DbAfter(c: Config, s: State, db: Db): Db {
    match s.place
    case SaveVerifiedCourses =>
      db.(pending := Staged(db.pending, c.run, NonCache(s.research.valid), s.research.verdicts))
    case PromoteApprovedCourses => Attempted(db, Whole, c.run, UrlsOf(NonCache(s.valid)))
    case DropPendingCourses => db.(pending := Discarded(db.pending, c.run))
    case _ => db
  }

  lemma UpsertThenDrop(run: string, env: Env, approved: seq<string>)
    ensures Performed(run, env, Upsert(approved)).db == Attempted(env.db, UpTo, run, approved)
    ensures Performed(run, Performed(run, env, Upsert(approved)), Drop).db == Attempted(env.db, Whole, run, approved)
  {
  }

  lemma PromotionEffects(c: Config, w: World, approved: seq<string>)
    requires EffectsOf(c, w.s) == [Upsert(approved), Drop]
    ensures PerformedAll(c.run, w.env, EffectsOf(c, w.s)).db == Attempted(w.env.db, Whole, c.run, approved)
    ensures PerformedAll(c.run, w.env, [EffectsOf(c, w.s)[0]]).db == Attempted(w.env.db, UpTo, c.run, approved)
  {
    UpsertThenDrop(c.run, w.env, approved);
    TwoEffects(c.run, w.env, Upsert(approved), Drop);
    OneEffect(c.run, w.env, Upsert(approved));
  }

  lemma DigestEffects(c: Config, w: World, some: seq<Effect>)
    requires w.s.place.SendReviewDigest? && some <= EffectsOf(c, w.s)
    ensures PerformedAll(c.run, w.env, some).db == w.env.db
  {
    if |some| == 2 {
      assert some == [some[0], some[1]];
      TwoEffects(c.run, w.env, some[0], some[1]);
    } else if |some| == 1 {
      assert some == [some[0]];
      OneEffect(c.run, w.env, some[0]);
    }
  }

  lemma SingleEffectOnDb(c: Config, w: World)
    requires |EffectsOf(c, w.s)| <= 1 && !w.s.place.SendReviewDigest?
    ensures PerformedAll(c.run, w.env, EffectsOf(c, w.s)).db == DbAfter(c, w.s, w.env.db)
  {
    var all := EffectsOf(c, w.s);
    if |all| == 1 {
      assert all == [all[0]];
      OneEffect(c.run, w.env, all[0]);
    }
  }

  lemma EffectsOnDb(c: Config, w: World, done: nat)
    requires done <= |EffectsOf(c, w.s)|
    ensures var after := PerformedAll(c.run, w.env, EffectsOf(c, w.s)[..done]).db;
            after == w.env.db
            || after == DbAfter(c, w.s, w.env.db)
            || (w.s.place.PromoteApprovedCourses? && after ==
                Attempted(w.env.db, UpTo, c.run, UrlsOf(NonCache(w.s.valid))))
    ensures PerformedAll(c.run, w.env, EffectsOf(c, w.s)).db == DbAfter(c, w.s, w.env.db)
  {
    var all := EffectsOf(c, w.s);
    Prefixes(c, w.s, done);
    if w.s.place.PromoteApprovedCourses? {
      PromotionEffects(c, w, UrlsOf(NonCache(w.s.valid)));
    } else if w.s.place.SendReviewDigest? {
      DigestEffects(c, w, all[..done]);
      DigestEffects(c, w, all);
    } else {
      SingleEffectOnDb(c, w);
    }
  }

  lemma DiscardedKeyed(run: string, pending: Staging)
    requires KeyedByUrl(pending)
    ensures KeyedByUrl(Discarded(pending, run)) && NothingStagedFor(run, Discarded(pending, run))
  {
  }

  lemma PromotionAttempt(c: Config, base: Table, s: State, db: Db)
    requires DbOk(c, base, s, db) && s.place.PromoteApprovedCourses? && Approved(c, s)
    ensures IsPromotion(base, Promoted(db.courses, db.pending, c.run, UrlsOf(NonCache(s.valid))), s.valid)
  {
    if IsPromotion(base, db.courses, s.valid) {
      PromotionAgain(c.run, base, db.courses, db.pending, s.valid);
    } else {
      FirstPromotion(c.run, base, db.pending, s.valid);
    }
  }

  lemma InterruptedDb(c: Config, base: Table, w: World, done: nat)
    requires Gate(c, w.s) && DbOk(c, base, w.s, w.env.db) && done <= |EffectsOf(c, w.s)|
    ensures DbOk(c, base, w.s, After(c, w, Interrupted(done)).env.db)
  {
    var s, db := w.s, w.env.db;
    EffectsOnDb(c, w, done);
    if s.place.SaveVerifiedCourses? {
      StagedKeyed(db.pending, c.run, NonCache(s.research.valid), s.research.verdicts);
    } else if s.place.PromoteApprovedCourses? {
      PromotionAttempt(c, base, s, db);
      DiscardedKeyed(c.run, db.pending);
    } else if s.place.DropPendingCourses? {
      DiscardedKeyed(c.run, db.pending);
    }
  }

  /** Nodes that write no course table. */
  predicate LeavesTables(p: Place) {
    !p.SaveVerifiedCourses? && !p.PromoteApprovedCourses? && !p.DropPendingCourses?
  }

  lemma PendingOutput(c: Config, s: State, o: Output, pending: Staging)
    requires KeyedByUrl(pending) && o.pass != |s.history| && s.routing != Some(PUBLISH)
    ensures PendingOk(c, Answered(s, o), pending)
  {
  }

  lemma PendingLeave(c: Config, s: State, pending: Staging)
    requires KeyedByUrl(pending) && (s.research.discarded || StagedOk(c.run, s.research.valid, pending))
    ensures PendingOk(c, Leave(s), pending)
  {
  }

  lemma PendingPlanned(c: Config, s: State, pending: Staging, t: State)
    requires Rounds(c, s) && PendingOk(c, s, pending) && s.place.PlanWebSearch? && t == Planned(c, s)
    ensures PendingOk(c, t, pending)
  {
    PendingLeave(c, s.(research := s.research.(plan := [], discarded := true)), pending);
  }

  lemma PendingElsewhere(c: Config, t: State, pending: Staging)
    requires KeyedByUrl(pending) && (t.place.SearchWeb? || t.place.MergeCourses?)
    ensures PendingOk(c, t, pending)
  {
  }

  lemma PendingReplanned(c: Config, s: State, pending: Staging, t: State)
    requires Rounds(c, s) && PendingOk(c, s, pending) && s.place.PlanGapSearch? && t == Replanned(c, s)
    ensures PendingOk(c, t, pending)
  {
    if s.research.filters.None? {
      PendingLeave(c, s.(research := s.research.(discarded := true)), pending);
    } else {
      PendingElsewhere(c, t, pending);
    }
  }

  lemma PendingResearch(c: Config, s: State, pending: Staging)
    requires Rounds(c, s) && PendingOk(c, s, pending) && Enabled(c, s, Advance) && InResearch(s.place)
             && LeavesTables(s.place)
    requires !s.place.PlanWebSearch? && !s.place.PlanGapSearch?
    ensures PendingOk(c, NextPlain(c, s), pending)
  {
  }

  lemma PendingOuter(c: Config, s: State, pending: Staging)
    requires Rounds(c, s) && Gate(c, s) && PendingOk(c, s, pending) && Enabled(c, s, Advance) && !InResearch(s.place)
             && LeavesTables(s.place)
    ensures PendingOk(c, NextPlain(c, s), pending)
  {
  }

  lemma PendingRouted(c: Config, s: State, reading: Reading, redacted: string, reply: Option<Reply>, pending: Staging)
    requires PendingOk(c, s, pending) && s.place.InterpretReviewFeedback?
    ensures PendingOk(c, Routed(c, s, reading, redacted, reply), pending)
  {
  }

  lemma PendingKept(c: Config, s: State, e: Event, pending: Staging)
    requires Rounds(c, s) && Gate(c, s) && PendingOk(c, s, pending) && Enabled(c, s, e) && LeavesTables(s.place)
    ensures PendingOk(c, Next(c, s, e), pending)
  {
    match e
    case Echo(o) => PendingOutput(c, s.(tally := OneMoreRun(s.tally)), o, pending);
    case Finished(stale) => if stale.Some? { PendingOutput(c, s, stale.value, pending); }
        else { PendingLeave(c, s, pending); }
    case Reviewed(reading, redacted, reply) => PendingRouted(c, s, reading, redacted, reply, pending);
    case Advance =>
      if s.place.PlanWebSearch? { PendingPlanned(c, s, pending, Next(c, s, e)); }
      else if s.place.PlanGapSearch? { PendingReplanned(c, s, pending, Next(c, s, e)); }
      else if InResearch(s.place) { PendingResearch(c, s, pending); }
      else { PendingOuter(c, s, pending); }
    case _ =>
  }

  lemma CoursesKept(c: Config, base: Table, s: State, e: Event, db: Db)
    requires Rounds(c, s) && Gate(c, s) && DbOk(c, base, s, db) && Enabled(c, s, e) && LeavesTables(s.place)
    ensures CoursesOk(c, base, Next(c, s, e), db)
  {
    GateStep(c, s, e);
    if Approved(c, s) {
      ApprovalStays(c, s, e);
      AfterApproval(c, s, e);
    }
  }

  lemma AfterApproval(c: Config, s: State, e: Event)
    requires Approved(c, s) && Enabled(c, s, e)
    ensures Next(c, s, e).place ==
            (match s.place
             case SendApprovedCourses => PromoteApprovedCourses
             case PromoteApprovedCourses => RecordReviewOutcome
             case RecordReviewOutcome => CurateUserMemory
             case _ => Ended)
  {
  }

  lemma CommitDb(c: Config, base: Table, w: World, e: Event)
    requires Rounds(c, w.s) && Gate(c, w.s) && DbOk(c, base, w.s, w.env.db) && Enabled(c, w.s, e)
    ensures DbOk(c, base, Next(c, w.s, e), After(c, w, Commit(e)).env.db)
  {
    var s, db := w.s, w.env.db;
    EffectsOnDb(c, w, 0);
    if LeavesTables(s.place) {
      PendingKept(c, s, e, db.pending);
      CoursesKept(c, base, s, e, db);
    } else {
      if s.place.SaveVerifiedCourses? { CommitSave(c, base, s, db); }
      else if s.place.PromoteApprovedCourses? { CommitPromotion(c, base, s, db); }
      else { CommitDrop(c, base, s, db); }
    }
  }

  lemma CommitSave(c: Config, base: Table, s: State, db: Db)
    requires Rounds(c, s) && DbOk(c, base, s, db) && s.place.SaveVerifiedCourses?
    ensures DbOk(c, base, NextPlain(c, s), DbAfter(c, s, db))
  {
    StagedKeyed(db.pending, c.run, NonCache(s.research.valid), s.research.verdicts);
    StagingMakesOk(c.run, db.pending, s.research.valid, s.research.verdicts);
  }

  lemma CommitPromotion(c: Config, base: Table, s: State, db: Db)
    requires Gate(c, s) && DbOk(c, base, s, db) && s.place.PromoteApprovedCourses?
    ensures DbOk(c, base, NextPlain(c, s), DbAfter(c, s, db))
  {
    PromotionAttempt(c, base, s, db);
    DiscardedKeyed(c.run, db.pending);
  }

  lemma CommitDrop(c: Config, base: Table, s: State, db: Db)
    requires Gate(c, s) && DbOk(c, base, s, db) && s.place.DropPendingCourses?
    ensures DbOk(c, base, NextPlain(c, s), DbAfter(c, s, db))
  {
    DiscardedKeyed(c.run, db.pending);
  }
}
