/** What a verdict says about the columns of a course (course_discovery/research_agent/validation/nodes.py:36-130). */
module ValidationFields {
  import opened Text
  import opened Courses
  import opened Dedup
  import opened Validation

  // ----- against the course -----

  predicate NewToUser(m: Option<Memory>, c: Course) {
    m.Some? ==>
      c.url !in m.value.completed && c.url !in m.value.rejected
      && (c.facts.provider.None? || c.facts.provider.value !in m.value.avoided)
  }

  predicate LevelFits(f: Filters, c: Course) {
    f.level == "any" || c.facts.level.None? || c.facts.level == Some(f.level)
  }

  predicate LanguageFits(f: Filters, c: Course) {
    c.facts.language.None? || c.facts.language == Some("") || c.facts.language.value in f.languages
  }

  predicate RatingFits(f: Filters, c: Course) {
    f.minRating == 0.0 || c.facts.rating.None? || c.facts.rating.value >= f.minRating
  }

  // ----- for the course -----

  /** Some evidence names the item. */
  predicate Backed(c: Course, item: string) {
    exists e :: e in c.evidence && item in e.supports
  }

  predicate PriceFits(f: Filters, c: Course) {
    f.maxPrice != 0.0 || c.facts.isFree == Some(true) || Backed(c, "free")
  }

  predicate CertificateFits(f: Filters, c: Course) {
    !f.certificate || c.facts.hasCertificate == Some(true) || Backed(c, "certificate")
  }

  predicate Acceptable(f: Option<Filters>, m: Option<Memory>, c: Course) {
    NewToUser(m, c)
    && (f.Some? ==> LevelFits(f.value, c) && LanguageFits(f.value, c) && RatingFits(f.value, c))
  }

  predicate Proven(f: Option<Filters>, c: Course) {
    f.Some? ==> PriceFits(f.value, c) && CertificateFits(f.value, c)
  }

  // ----- the verdict -----

  lemma BackedIs(c: Course, item: string)
    ensures Backed(c, item) <==> item in SupportedItems(c)
  {
  }

  lemma UserObjections(f: Option<Filters>, m: Option<Memory>, c: Course)
    ensures NewToUser(m, c) <==>
              !Objects(AlreadyCompleted, f, m, c) && !Objects(PreviouslyRejected, f, m, c)
              && !Objects(ProviderAvoided, f, m, c)
  {
  }

  lemma FilterObjectionsAre(f: Option<Filters>, m: Option<Memory>, c: Course)
    ensures f.Some? && !LevelFits(f.value, c) <==> Objects(LevelMismatch, f, m, c)
    ensures f.Some? && !LanguageFits(f.value, c) <==> Objects(LanguageMismatch, f, m, c)
    ensures f.Some? && !RatingFits(f.value, c) <==> Objects(RatingBelow, f, m, c)
  {
  }

  lemma ObjectionsAre(f: Option<Filters>, m: Option<Memory>, c: Course)
    ensures Acceptable(f, m, c) <==> forall r: Reason :: !Objects(r, f, m, c)
  {
    UserObjections(f, m, c);
    FilterObjectionsAre(f, m, c);
    if r: Reason :| Objects(r, f, m, c) {
      match r
      case AlreadyCompleted =>
      case PreviouslyRejected =>
      case ProviderAvoided =>
      case LevelMismatch =>
      case LanguageMismatch =>
      case RatingBelow =>
      case Supported =>
    }
  }

  lemma UnmetAre(f: Option<Filters>, c: Course)
    ensures Unmet(Free, f, c) <==> f.Some? && !PriceFits(f.value, c)
    ensures Unmet(Certificate, f, c) <==> f.Some? && !CertificateFits(f.value, c)
    ensures Proven(f, c) <==> forall item: Requirement :: !Unmet(item, f, c)
  {
    BackedIs(c, "free");
    BackedIs(c, "certificate");
    if item: Requirement :| Unmet(item, f, c) {
      match item
      case Free =>
      case Certificate =>
    }
  }

  /** Each reason and each missing item says just what its name says. */
  lemma ReasonsMean(f: Option<Filters>, m: Option<Memory>, c: Course)
    ensures var v := Judged(f, m, c);
            (AlreadyCompleted in v.reasons <==> m.Some? && c.url in m.value.completed)
            && (PreviouslyRejected in v.reasons <==> m.Some? && c.url in m.value.rejected)
            && (ProviderAvoided in v.reasons <==>
                  m.Some? && c.facts.provider.Some? && c.facts.provider.value in m.value.avoided)
            && (LevelMismatch in v.reasons <==> f.Some? && !LevelFits(f.value, c))
            && (LanguageMismatch in v.reasons <==> f.Some? && !LanguageFits(f.value, c))
            && (RatingBelow in v.reasons <==> f.Some? && !RatingFits(f.value, c))
            && (v.status.Valid? <==> v.reasons == [Supported])
            && (Free in v.missing <==> f.Some? && !PriceFits(f.value, c))
            && (Certificate in v.missing <==> f.Some? && !CertificateFits(f.value, c))
  {
    VerdictExplains(f, m, c, AlreadyCompleted, Free);
    VerdictExplains(f, m, c, PreviouslyRejected, Certificate);
    VerdictExplains(f, m, c, ProviderAvoided, Free);
    VerdictExplains(f, m, c, LevelMismatch, Free);
    VerdictExplains(f, m, c, LanguageMismatch, Free);
    VerdictExplains(f, m, c, RatingBelow, Free);
    FilterObjectionsAre(f, m, c);
    UnmetAre(f, c);
  }

  /** At most 200 candidates, the cached ones first and both in their order. */
  lemma MergedIs(cached: seq<Course>, found: seq<Course>)
    ensures |Merged(cached, found)| == (if |cached| + |found| < 200 then |cached| + |found| else 200)
    ensures Merged(cached, found) <= cached + found
  {
  }

  /**
   * A deduplicated course is listed as rejected exactly if it is not acceptable, and as valid exactly if it is and what
   * the request insists on is marked on it or backed by evidence.
   */
  lemma ListedExactly(t: Tools, f: Option<Filters>, m: Option<Memory>, merged: seq<Course>, c: Course)
    requires c in Deduplicated(t, merged)
    ensures var o := Validated(f, m, Deduplicated(t, merged));
            (c in o.rejected <==> !Acceptable(f, m, c))
            && (c in o.valid <==> Acceptable(f, m, c) && Proven(f, c))
            && (c in o.uncertain <==> Acceptable(f, m, c) && !Proven(f, c))
  {
    VerdictsAfterDedup(t, f, m, merged, c);
    VerdictMeans(f, m, c);
    ObjectionsAre(f, m, c);
    UnmetAre(f, c);
  }
}
