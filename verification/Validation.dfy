/** Verdicts on deduplicated candidates (course_discovery/research_agent/validation/nodes.py). */
module Validation {
  import opened Text
  import opened Courses
  import opened Dedup

  datatype Memory = Memory(completed: seq<string>, rejected: seq<string>, avoided: seq<string>)

  datatype Reason = AlreadyCompleted | PreviouslyRejected | ProviderAvoided | LevelMismatch | LanguageMismatch
      | RatingBelow | Supported

  datatype Requirement = Free | Certificate

  datatype Verdict = Verdict(url: string, status: Status, reasons: seq<Reason>, missing: seq<Requirement>)

  const ANY_LEVEL := "any"

  function Name(r: Requirement): string { if r.Free? then "free" else "certificate" }

  function If<T(!new)>(b: bool, x: T): (r: seq<T>)
    ensures forall y :: y in r <==> b && y == x
  {
    if b then [x] else []
  }

  // ----- what speaks against a candidate -----

  predicate Objects(r: Reason, f: Option<Filters>, m: Option<Memory>, c: Course) {
    match r
    case AlreadyCompleted => m.Some? && c.url in m.value.completed
    case PreviouslyRejected => m.Some? && c.url in m.value.rejected
    case ProviderAvoided => m.Some? && c.facts.provider.Some? && c.facts.provider.value in m.value.avoided
    case LevelMismatch => f.Some? && f.value.level != ANY_LEVEL && c.facts.level.Some?
        && c.facts.level.value != f.value.level
    case LanguageMismatch => f.Some? && c.facts.language.Some? && c.facts.language.value != ""
        && c.facts.language.value !in f.value.languages
    case RatingBelow => f.Some? && f.value.minRating != 0.0 && c.facts.rating.Some?
        && c.facts.rating.value < f.value.minRating
    case Supported => false
  }

  /** The request has the requirement and the candidate's own data does not meet it. */
  predicate Open(r: Requirement, f: Option<Filters>, c: Course) {
    f.Some? && match r
               case Free => f.value.maxPrice == 0.0 && c.facts.isFree != Some(true)
               case Certificate => f.value.certificate && c.facts.hasCertificate != Some(true)
  }

  /** Nor does any evidence. */
  predicate Unmet(r: Requirement, f: Option<Filters>, c: Course) {
    Open(r, f, c) && Name(r) !in SupportedItems(c)
  }

  function Unsupported(items: seq<Requirement>, supports: set<string>): (r: seq<Requirement>)
    ensures forall x :: x in r <==> x in items && Name(x) !in supports
    decreases |items|
  {
    if items == [] then []
    else
      assert items == [items[0]] + items[1..];
      If(Name(items[0]) !in supports, items[0]) + Unsupported(items[1..], supports)
  }

  function UserReasons(f: Option<Filters>, m: Option<Memory>, c: Course): seq<Reason> {
    If(Objects(AlreadyCompleted, f, m, c), AlreadyCompleted)
        + If(Objects(PreviouslyRejected, f, m, c), PreviouslyRejected)
    + If(Objects(ProviderAvoided, f, m, c), ProviderAvoided)
  }

  function FilterReasons(f: Option<Filters>, m: Option<Memory>, c: Course): seq<Reason> {
    If(Objects(LevelMismatch, f, m, c), LevelMismatch) + If(Objects(LanguageMismatch, f, m, c), LanguageMismatch)
    + If(Objects(RatingBelow, f, m, c), RatingBelow)
  }

  function Missing(f: Option<Filters>, c: Course): seq<Requirement> {
    Unsupported(If(Open(Free, f, c), Free) + If(Open(Certificate, f, c), Certificate), SupportedItems(c))
  }

  function StatusFor(reasons: seq<Reason>, missing: seq<Requirement>): Status {
    if reasons != [] then Rejected else if missing != [] then Uncertain else Valid
  }

  /** _validate_candidate. */
  function Judged(f: Option<Filters>, m: Option<Memory>, c: Course): Verdict {
    var reasons, missing := UserReasons(f, m, c) + FilterReasons(f, m, c), Missing(f, c);
    var status := StatusFor(reasons, missing);
    Verdict(c.url, status, if status.Valid? then [Supported] else reasons, missing)
  }

  predicate AboutUser(r: Reason) { r.AlreadyCompleted? || r.PreviouslyRejected? || r.ProviderAvoided? }

  lemma UserReasonsAre(f: Option<Filters>, m: Option<Memory>, c: Course, r: Reason)
    ensures r in UserReasons(f, m, c) <==> AboutUser(r) && Objects(r, f, m, c)
  {
  }

  lemma FilterReasonsAre(f: Option<Filters>, m: Option<Memory>, c: Course, r: Reason)
    ensures r in FilterReasons(f, m, c) <==> !AboutUser(r) && Objects(r, f, m, c)
  {
  }

  lemma ReasonsAreObjections(f: Option<Filters>, m: Option<Memory>, c: Course, r: Reason)
    ensures r in UserReasons(f, m, c) + FilterReasons(f, m, c) <==> Objects(r, f, m, c)
  {
    UserReasonsAre(f, m, c, r);
    FilterReasonsAre(f, m, c, r);
  }

  lemma MissingAreUnmet(f: Option<Filters>, c: Course, r: Requirement)
    ensures r in Missing(f, c) <==> Unmet(r, f, c)
  {
  }

  lemma EmptyOrFirst<T>(s: seq<T>)
    ensures s != [] ==> s[0] in s
  {
  }

  /** A rejection reason is given just for each objection, missing evidence just for each unmet requirement. */
  lemma VerdictExplains(f: Option<Filters>, m: Option<Memory>, c: Course, r: Reason, item: Requirement)
    ensures var v := Judged(f, m, c);
            (r != Supported ==> (r in v.reasons <==> Objects(r, f, m, c)))
            && (item in v.missing <==> Unmet(item, f, c))
  {
    ReasonsAreObjections(f, m, c, r);
    MissingAreUnmet(f, c, item);
  }

  /** Rejected: something speaks against it. Valid: nothing does and every requirement is met. Uncertain: the rest. */
  lemma VerdictMeans(f: Option<Filters>, m: Option<Memory>, c: Course)
    ensures Judged(f, m, c).status.Rejected? <==> exists r: Reason :: Objects(r, f, m, c)
    ensures Judged(f, m, c).status.Valid? <==>
              (forall r: Reason :: !Objects(r, f, m, c)) && (forall item: Requirement :: !Unmet(item, f, c))
  {
    var reasons, missing := UserReasons(f, m, c) + FilterReasons(f, m, c), Missing(f, c);
    forall r: Reason ensures r in reasons <==> Objects(r, f, m, c) { ReasonsAreObjections(f, m, c, r); }
    forall item: Requirement ensures item in missing <==> Unmet(item, f, c) { MissingAreUnmet(f, c, item); }
    EmptyOrFirst(reasons);
    EmptyOrFirst(missing);
  }

  method ValidateCandidate(f: Option<Filters>, m: Option<Memory>, c: Course) returns (v: Verdict)
    ensures v == Judged(f, m, c)
  {
    var reasons, missing := [], [];
    if m.Some? && c.url in m.value.completed { reasons := reasons + [AlreadyCompleted]; }
    if m.Some? && c.url in m.value.rejected { reasons := reasons + [PreviouslyRejected]; }
    if m.Some? && c.facts.provider.Some? && c.facts.provider.value in m.value.avoided {
      reasons := reasons + [ProviderAvoided];
    }
    assert reasons == UserReasons(f, m, c);
    var more, open := FilterObjections(f, m, c);
    reasons, missing := reasons + more, Unsupported(open, SupportedItems(c));
    var status := if reasons != [] then Rejected else if missing != [] then Uncertain else Valid;
    if status == Valid { reasons := [Supported]; }
    v := Verdict(c.url, status, reasons, missing);
  }

  method FilterObjections(f: Option<Filters>, m: Option<Memory>, c: Course)
    returns (reasons: seq<Reason>, open: seq<Requirement>)
    ensures reasons == FilterReasons(f, m, c)
    ensures open == If(Open(Free, f, c), Free) + If(Open(Certificate, f, c), Certificate)
  {
    reasons, open := [], [];
    if f.Some? {
      if f.value.maxPrice == 0.0 && c.facts.isFree != Some(true) { open := open + [Free]; }
      if f.value.certificate && c.facts.hasCertificate != Some(true) { open := open + [Certificate]; }
      if f.value.level != ANY_LEVEL && c.facts.level.Some? && c.facts.level.value != f.value.level {
        reasons := reasons + [LevelMismatch];
      }
      if c.facts.language.Some? && c.facts.language.value != ""
          && c.facts.language.value !in f.value.languages { reasons := reasons + [LanguageMismatch]; }
      if f.value.minRating != 0.0 && c.facts.rating.Some?
          && c.facts.rating.value < f.value.minRating { reasons := reasons + [RatingBelow]; }
    }
  }

  // ----- verdicts looked up by URL -----

  type Judge = Course -> Verdict

  function JudgeFor(f: Option<Filters>, m: Option<Memory>): Judge { c => Judged(f, m, c) }

  ghost predicate NamesItsUrl(judge: Judge) { forall c :: judge(c).url == c.url }

  function Verdicts(judge: Judge, courses: seq<Course>): (r: seq<Verdict>)
    ensures |r| == |courses| && forall i :: 0 <= i < |r| ==> r[i] == judge(courses[i])
    decreases |courses|
  {
    if courses == [] then [] else Verdicts(judge, courses[..|courses| - 1]) + [judge(courses[|courses| - 1])]
  }

  /** {item.url: item for item in validations}: the last verdict of a URL wins. */
  function ByUrl(verdicts: seq<Verdict>): (r: map<string, Verdict>)
    ensures forall i :: 0 <= i < |verdicts| ==> verdicts[i].url in r
    decreases |verdicts|
  {
    if verdicts == [] then map[]
    else
      var n := |verdicts| - 1;
      var rest := ByUrl(verdicts[..n]);
      assert forall i :: 0 <= i < n ==> verdicts[..n][i] == verdicts[i];
      rest[verdicts[n].url := verdicts[n]]
  }

  function WithStatus(courses: seq<Course>, byUrl: map<string, Verdict>, status: Status): (r: seq<Course>)
    requires forall c :: c in courses ==> c.url in byUrl
    ensures forall c :: c in r <==> c in courses && byUrl[c.url].status == status
    decreases |courses|
  {
    if courses == [] then []
    else
      var n := |courses| - 1;
      assert courses == courses[..n] + [courses[n]];
      WithStatus(courses[..n], byUrl, status) + If(byUrl[courses[n].url].status == status, courses[n])
  }

  datatype Outcome = Outcome(verdicts: seq<Verdict>, valid: seq<Course>, rejected: seq<Course>, uncertain: seq<Course>)

  /** evidence_validator_node, for any way of judging a candidate that names the candidate's URL. */
  ghost function ByStatus(judge: Judge, courses: seq<Course>): Outcome
    requires NamesItsUrl(judge)
  {
    var verdicts := Verdicts(judge, courses);
    var byUrl := ByUrl(verdicts);
    AllLookedUp(judge, courses);
    Outcome(verdicts, WithStatus(courses, byUrl, Valid), WithStatus(courses, byUrl, Rejected),
        WithStatus(courses, byUrl, Uncertain))
  }

  lemma AllLookedUp(judge: Judge, courses: seq<Course>)
    requires NamesItsUrl(judge)
    ensures forall c :: c in courses ==> c.url in ByUrl(Verdicts(judge, courses))
  {
    forall c | c in courses ensures c.url in ByUrl(Verdicts(judge, courses)) {
      var i :| 0 <= i < |courses| && courses[i] == c;
      assert Verdicts(judge, courses)[i].url == c.url;
    }
  }

  ghost function Validated(f: Option<Filters>, m: Option<Memory>, courses: seq<Course>): Outcome {
    ByStatus(JudgeFor(f, m), courses)
  }

  lemma {:induction false} OwnVerdict(judge: Judge, courses: seq<Course>, i: nat)
    requires NamesItsUrl(judge) && DistinctUrls(courses) && i < |courses|
    ensures courses[i].url in ByUrl(Verdicts(judge, courses))
    ensures ByUrl(Verdicts(judge, courses))[courses[i].url] == judge(courses[i])
    decreases |courses|
  {
    var n := |courses| - 1;
    assert Verdicts(judge, courses)[..n] == Verdicts(judge, courses[..n]);
    assert Verdicts(judge, courses)[n].url == courses[n].url;
    if i < n {
      OwnVerdict(judge, courses[..n], i);
      assert courses[i].url != courses[n].url;
    }
  }

  /** The three lists, each in the original order, are told apart by status: together they have every course once. */
  lemma {:induction false} Partition(courses: seq<Course>, byUrl: map<string, Verdict>)
    requires forall c :: c in courses ==> c.url in byUrl
    ensures multiset(WithStatus(courses, byUrl, Valid)) + multiset(WithStatus(courses, byUrl, Rejected))
            + multiset(WithStatus(courses, byUrl, Uncertain)) == multiset(courses)
    decreases |courses|
  {
    if courses == [] {
    } else {
      var n := |courses| - 1;
      assert courses == courses[..n] + [courses[n]];
      Partition(courses[..n], byUrl);
    }
  }

  /** Positions of the selected courses, which ascend: the order is kept. */
  lemma {:induction false} InOrder(courses: seq<Course>, byUrl: map<string, Verdict>, status: Status)
    returns (at: seq<nat>)
    requires forall c :: c in courses ==> c.url in byUrl
    ensures |at| == |WithStatus(courses, byUrl, status)|
    ensures forall k :: 0 <= k < |at| ==> at[k] < |courses| && courses[at[k]] == WithStatus(courses, byUrl, status)[k]
    ensures forall j, k :: 0 <= j < k < |at| ==> at[j] < at[k]
    decreases |courses|
  {
    if courses == [] {
      at := [];
    } else {
      var n := |courses| - 1;
      assert courses == courses[..n] + [courses[n]];
      at := InOrder(courses[..n], byUrl, status);
      if byUrl[courses[n].url].status == status { at := at + [n]; }
    }
  }

  lemma ListedByOwnVerdict(judge: Judge, courses: seq<Course>, c: Course)
    requires NamesItsUrl(judge) && DistinctUrls(courses) && c in courses
    ensures var o := ByStatus(judge, courses);
            (c in o.valid <==> judge(c).status == Valid)
            && (c in o.rejected <==> judge(c).status == Rejected)
            && (c in o.uncertain <==> judge(c).status == Uncertain)
  {
    var i :| 0 <= i < |courses| && courses[i] == c;
    OwnVerdict(judge, courses, i);
  }

  lemma CountsAddUp(judge: Judge, courses: seq<Course>)
    requires NamesItsUrl(judge)
    ensures var o := ByStatus(judge, courses); |o.valid| + |o.rejected| + |o.uncertain| == |courses|
  {
    var o := ByStatus(judge, courses);
    Partition(courses, ByUrl(o.verdicts));
    assert |multiset(o.valid) + multiset(o.rejected) + multiset(o.uncertain)| == |multiset(courses)|;
  }

  /** After deduplication each course is listed by its own verdict, and the counts add up. */
  lemma VerdictsAfterDedup(t: Tools, f: Option<Filters>, m: Option<Memory>, merged: seq<Course>, c: Course)
    requires c in Deduplicated(t, merged)
    ensures var o := Validated(f, m, Deduplicated(t, merged));
            (c in o.valid <==> Judged(f, m, c).status == Valid)
            && (c in o.rejected <==> Judged(f, m, c).status == Rejected)
            && (c in o.uncertain <==> Judged(f, m, c).status == Uncertain)
            && |o.valid| + |o.rejected| + |o.uncertain| == |Deduplicated(t, merged)|
  {
    DedupDistinct(t, merged);
    ListedByOwnVerdict(JudgeFor(f, m), Deduplicated(t, merged), c);
    CountsAddUp(JudgeFor(f, m), Deduplicated(t, merged));
  }

  lemma DedupDistinct(t: Tools, merged: seq<Course>)
    ensures DistinctUrls(Deduplicated(t, merged))
  {
    forall i, j | 0 <= i < j < |Deduplicated(t, merged)|
      ensures Deduplicated(t, merged)[i].url != Deduplicated(t, merged)[j].url
    {
      UrlsAreDistinct(t, merged, i, j);
    }
  }

  /** What the research loop relies on: courses called valid have distinct URLs and nothing against them. */
  lemma ValidCoursesAreSound(t: Tools, f: Option<Filters>, m: Option<Memory>, merged: seq<Course>)
    ensures var valid := Validated(f, m, Deduplicated(t, merged)).valid;
            DistinctUrls(valid)
            && forall c :: c in valid ==>
                (forall r: Reason :: !Objects(r, f, m, c))
                && (forall item: Requirement :: !Unmet(item, f, c))
  {
    var courses := Deduplicated(t, merged);
    var o := Validated(f, m, courses);
    DedupDistinct(t, merged);
    var at := InOrder(courses, ByUrl(o.verdicts), Valid);
    forall i, j | 0 <= i < j < |o.valid| ensures o.valid[i].url != o.valid[j].url {
      assert courses[at[i]].url != courses[at[j]].url;
    }
    forall c | c in o.valid ensures (forall r: Reason :: !Objects(r, f, m, c))
        && (forall item: Requirement :: !Unmet(item, f, c)) {
      VerdictsAfterDedup(t, f, m, merged, c);
      VerdictMeans(f, m, c);
    }
  }

  /** Without deduplication the lookup by URL calls a course valid whose own verdict is another, if a later one is. */
  lemma LookupNeedsDistinctUrls(f: Option<Filters>, m: Option<Memory>, bad: Course, good: Course)
    requires bad.url == good.url && !Judged(f, m, bad).status.Valid? && Judged(f, m, good).status.Valid?
    ensures bad in Validated(f, m, [bad, good]).valid
  {
    SharedUrl(JudgeFor(f, m), bad, good);
  }

  lemma SharedUrl(judge: Judge, bad: Course, good: Course)
    requires NamesItsUrl(judge) && bad.url == good.url && judge(good).status.Valid?
    ensures bad in ByStatus(judge, [bad, good]).valid
  {
    var verdicts := Verdicts(judge, [bad, good]);
    assert verdicts == [verdicts[0], verdicts[1]];
    assert verdicts[1].url == good.url;
    assert ByUrl(verdicts)[good.url] == verdicts[1];
    assert bad in [bad, good];
  }

  const MAX_MERGED := 200

  /** aggregate_node: cached candidates first, and no more than 200 in all. */
  function Merged(cached: seq<Course>, found: seq<Course>): seq<Course> {
    if |cached| + |found| <= MAX_MERGED then cached + found else (cached + found)[..MAX_MERGED]
  }

  /** What deduplication keeps of the cached candidates does not depend on what the web search found. */
  lemma CachedAreNotDisplaced(t: Tools, cached: seq<Course>, found: seq<Course>)
    ensures var n := if |cached| <= MAX_MERGED then |cached| else MAX_MERGED;
            Deduplicated(t, cached[..n]) <= Deduplicated(t, Merged(cached, found))
  {
    var n := if |cached| <= MAX_MERGED then |cached| else MAX_MERGED;
    assert Merged(cached, found)[..n] == cached[..n];
    PrefixMonotone(t, Merged(cached, found), n);
  }
}
