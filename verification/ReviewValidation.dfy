/** What validation hands to the review graph: the assumption on its event `Verified` is what validation guarantees. */
module ReviewValidation {
  import opened Text
  import opened Courses
  import opened Dedup
  import opened Validation
  import C = Catalogue
  import G = ReviewGraph

  function StatusMap(verdicts: seq<Verdict>): map<string, Status> {
    var byUrl := ByUrl(verdicts);
    map url | url in byUrl :: byUrl[url].status
  }

  /** The missing evidence that the next gap plan asks for. */
  function MissingNames(verdicts: seq<Verdict>): set<string> {
    set v, item | v in verdicts && item in v.missing :: Name(item)
  }

  lemma ListedStatus(judge: Judge, courses: seq<Course>, c: Course)
    requires NamesItsUrl(judge) && c in ByStatus(judge, courses).valid
    ensures var statuses := StatusMap(ByStatus(judge, courses).verdicts);
            c.url in statuses && statuses[c.url] == Valid
  {
    AllLookedUp(judge, courses);
  }

  /** Deduplicated and validated courses, with their verdicts, are always accepted by the graph. */
  lemma ValidationFits(c: G.Config, s: G.State, t: Tools, f: Option<Filters>, m: Option<Memory>, merged: seq<Course>)
    requires s.place.VerifyClaims?
    ensures var o := Validated(f, m, Deduplicated(t, merged));
            G.Enabled(c, s, G.Verified(o.valid, StatusMap(o.verdicts), MissingNames(o.verdicts)))
  {
    var courses := Deduplicated(t, merged);
    var o := Validated(f, m, courses);
    ValidCoursesAreSound(t, f, m, merged);
    forall k | 0 <= k < |o.valid| ensures C.VerdictOf(StatusMap(o.verdicts), o.valid[k].url) == Some(Valid) {
      ListedStatus(JudgeFor(f, m), courses, o.valid[k]);
    }
  }
}
