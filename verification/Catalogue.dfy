/** The course catalogue and its staging area (course_discovery/research_agent/cache/repository.py:152-342). */
module Catalogue {
  import opened Text
  import opened Courses

  /** What the embedding of a row was computed from. */
  datatype EmbeddedText = EmbeddedText(title: string, description: Option<string>, topics: seq<string>)

  /** A row of `courses` with its rows of `course_evidence`, by source. */
  datatype Entry = Entry(
    title: string, description: Option<string>, facts: Facts, duration: Option<real>, topics: seq<string>,
    status: Status, evidence: map<string, Evidence>, embedded: Option<EmbeddedText>)

  type Table = map<string, Entry>

  /** A row of pending_courses; its key is the run and the course's URL. */
  datatype PendingKey = PendingKey(run: string, url: string)
  datatype Pending = Pending(candidate: Course, verdict: Option<Status>)

  type Staging = map<PendingKey, Pending>

  // ----- upsert -----

  /** Evidence of the same source is overwritten, other evidence stays. */
  function MergedEvidence(known: map<string, Evidence>, found: seq<Evidence>): map<string, Evidence>
    decreases |found|
  {
    if found == [] then known
    else
      var n := |found| - 1;
      MergedEvidence(known, found[..n])[found[n].sourceUrl := found[n]]
  }

  lemma {:induction false} Overlay(known: map<string, Evidence>, found: seq<Evidence>, s: string)
    ensures s in MergedEvidence(map[], found) ==>
              s in MergedEvidence(known, found) && MergedEvidence(known, found)[s] == MergedEvidence(map[], found)[s]
    ensures s !in MergedEvidence(map[], found) ==>
              (s in MergedEvidence(known, found) <==> s in known)
              && (s in known ==> MergedEvidence(known, found)[s] == known[s])
    decreases |found|
  {
    if found == [] {
    } else {
      Overlay(known, found[..|found| - 1], s);
    }
  }

  lemma EvidenceIdempotent(known: map<string, Evidence>, found: seq<Evidence>)
    ensures MergedEvidence(MergedEvidence(known, found), found) == MergedEvidence(known, found)
  {
    var once := MergedEvidence(known, found);
    forall s ensures s in MergedEvidence(once, found) <==> s in once
             ensures s in once ==> s in MergedEvidence(once, found) && MergedEvidence(once, found)[s] == once[s]
    {
      Overlay(known, found, s);
      Overlay(once, found, s);
    }
  }

  function Lookup(t: Table, url: string): Option<Entry> {
    if url in t then Some(t[url]) else None
  }

  /** The row after INSERT ... ON CONFLICT DO UPDATE and its evidence; the embedding is not touched yet. */
  function Written(before: Option<Entry>, c: Course, status: Status): Entry {
    match before
    case None => Entry(c.title, c.description, c.facts, c.duration, [], status, MergedEvidence(map[], c.evidence), None)
    case Some(e) =>
      Entry(c.title, c.description, c.facts, if c.duration.Some? then c.duration else e.duration, e.topics, status,
            MergedEvidence(e.evidence, c.evidence), e.embedded)
  }

  function Embedded(e: Entry, c: Course): Entry {
    e.(embedded := Some(EmbeddedText(c.title, c.description, e.topics)))
  }

  function Stored(before: Option<Entry>, c: Course, status: Status): Entry {
    Embedded(Written(before, c, status), c)
  }

  lemma StoredTwice(before: Option<Entry>, c: Course, status: Status)
    ensures Stored(Some(Stored(before, c, status)), c, status) == Stored(before, c, status)
  {
    EvidenceIdempotent(if before.Some? then before.value.evidence else map[], c.evidence);
  }

  function StatusOf(verdicts: map<string, Status>, url: string): Status {
    if url in verdicts then verdicts[url] else Uncertain
  }

  function UrlsOf(courses: seq<Course>): (r: seq<string>)
    ensures |r| == |courses| && forall i :: 0 <= i < |r| ==> r[i] == courses[i].url
  {
    if courses == [] then [] else UrlsOf(courses[..|courses| - 1]) + [courses[|courses| - 1].url]
  }

  /** The courses upserted one after the other. */
  function UpsertedAll(t: Table, courses: seq<Course>, verdicts: map<string, Status>): Table
    decreases |courses|
  {
    if courses == [] then t
    else
      var c := courses[|courses| - 1];
      var rest := UpsertedAll(t, courses[..|courses| - 1], verdicts);
      rest[c.url := Stored(Lookup(rest, c.url), c, StatusOf(verdicts, c.url))]
  }

  lemma {:induction false} UpsertedOther(t: Table, courses: seq<Course>, verdicts: map<string, Status>, url: string)
    requires url !in UrlsOf(courses)
    ensures Lookup(UpsertedAll(t, courses, verdicts), url) == Lookup(t, url)
    decreases |courses|
  {
    if courses == [] {
    } else {
      var n := |courses| - 1;
      assert UrlsOf(courses)[n] == courses[n].url;
      assert url !in UrlsOf(courses[..n]);
      UpsertedOther(t, courses[..n], verdicts, url);
    }
  }

  lemma {:induction false} UpsertedOne(t: Table, courses: seq<Course>, verdicts: map<string, Status>, k: nat)
    requires k < |courses| && NoDup(UrlsOf(courses))
    ensures var c := courses[k];
            Lookup(UpsertedAll(t, courses, verdicts), c.url) ==
                Some(Stored(Lookup(t, c.url), c, StatusOf(verdicts, c.url)))
    decreases |courses|
  {
    var n := |courses| - 1;
    NoDupSnoc(UrlsOf(courses[..n]), courses[n].url);
    if k < n {
      UpsertedOne(t, courses[..n], verdicts, k);
      assert UrlsOf(courses)[k] != UrlsOf(courses)[n];
    } else {
      UpsertedOther(t, courses[..n], verdicts, courses[n].url);
    }
  }

  // ----- the two loops of upsert_courses: rows first, vectors afterwards -----

  function WrittenAll(t: Table, courses: seq<Course>, verdicts: map<string, Status>): (r: Table)
    ensures forall c :: c in courses ==> c.url in r
    decreases |courses|
  {
    if courses == [] then t
    else
      var n := |courses| - 1;
      var rest := WrittenAll(t, courses[..n], verdicts);
      assert courses == courses[..n] + [courses[n]];
      rest[courses[n].url := Written(Lookup(rest, courses[n].url), courses[n], StatusOf(verdicts, courses[n].url))]
  }

  function EmbeddedAll(t: Table, courses: seq<Course>): (r: Table)
    requires forall c :: c in courses ==> c.url in t
    ensures r.Keys == t.Keys
    decreases |courses|
  {
    if courses == [] then t
    else
      var n := |courses| - 1;
      assert courses == courses[..n] + [courses[n]];
      var rest := EmbeddedAll(t, courses[..n]);
      rest[courses[n].url := Embedded(rest[courses[n].url], courses[n])]
  }

  function TopicsAt(t: Table, url: string): seq<string> {
    if url in t then t[url].topics else []
  }

  /** The last course of that URL. */
  function Last(courses: seq<Course>, url: string): Option<Course>
    decreases |courses|
  {
    if courses == [] then None
    else if courses[|courses| - 1].url == url then Some(courses[|courses| - 1])
    else Last(courses[..|courses| - 1], url)
  }

  lemma {:induction false} UpsertedRow(t: Table, courses: seq<Course>, verdicts: map<string, Status>, url: string)
    ensures var upserted, written := Lookup(UpsertedAll(t, courses, verdicts), url),
            Lookup(WrittenAll(t, courses, verdicts), url);
            match Last(courses, url)
            case None => upserted == written == Lookup(t, url)
            case Some(c) =>
              written.Some? && written.value.topics == TopicsAt(t, url)
              && upserted == Some(Embedded(written.value, c))
    decreases |courses|
  {
    if courses == [] {
    } else {
      UpsertedRow(t, courses[..|courses| - 1], verdicts, url);
    }
  }

  lemma {:induction false} EmbeddedRow(t: Table, courses: seq<Course>, url: string)
    requires forall c :: c in courses ==> c.url in t
    requires url in t
    ensures EmbeddedAll(t, courses)[url] == (if Last(courses, url).None? then t[url]
            else Embedded(t[url], Last(courses, url).value))
    decreases |courses|
  {
    if courses == [] {
    } else {
      var n := |courses| - 1;
      assert courses == courses[..n] + [courses[n]];
      EmbeddedRow(t, courses[..n], url);
    }
  }

  lemma TwoLoopsAreOne(t: Table, courses: seq<Course>, verdicts: map<string, Status>)
    ensures EmbeddedAll(WrittenAll(t, courses, verdicts), courses) == UpsertedAll(t, courses, verdicts)
  {
    var written, upserted := WrittenAll(t, courses, verdicts), UpsertedAll(t, courses, verdicts);
    var embedded := EmbeddedAll(written, courses);
    forall url ensures Lookup(embedded, url) == Lookup(upserted, url) {
      UpsertedRow(t, courses, verdicts, url);
      if url in written { EmbeddedRow(written, courses, url); }
    }
    SameTable(embedded, upserted);
  }

  lemma SameTable(t: Table, u: Table)
    requires forall url :: Lookup(t, url) == Lookup(u, url)
    ensures t == u
  {
    forall url ensures url in t <==> url in u { assert Lookup(t, url) == Lookup(u, url); }
    forall url | url in t ensures t[url] == u[url] { assert Lookup(t, url) == Lookup(u, url); }
  }

  // ----- staging -----

  function VerdictOf(verdicts: map<string, Status>, url: string): Option<Status> {
    if url in verdicts then Some(verdicts[url]) else None
  }

  function Staged(p: Staging, run: string, courses: seq<Course>, verdicts: map<string, Status>): Staging
    decreases |courses|
  {
    if courses == [] then p
    else
      var c := courses[|courses| - 1];
      Staged(p, run, courses[..|courses| - 1], verdicts)[PendingKey(run, c.url) := Pending(c,
          VerdictOf(verdicts, c.url))]
  }

  /** Staging courses of distinct URLs stages each as given and touches nothing else. */
  lemma {:induction false} StagedRow(p: Staging, run: string, courses: seq<Course>, verdicts: map<string, Status>,
                                     key: PendingKey)
    requires NoDup(UrlsOf(courses))
    ensures key.run == run && key.url in UrlsOf(courses) ==>
              key in Staged(p, run, courses, verdicts)
              && exists c :: c in courses && c.url == key.url
                             && Staged(p, run, courses, verdicts)[key] == Pending(c, VerdictOf(verdicts, c.url))
    ensures key.run != run || key.url !in UrlsOf(courses) ==>
              (key in Staged(p, run, courses, verdicts) <==> key in p)
              && (key in p ==> Staged(p, run, courses, verdicts)[key] == p[key])
    decreases |courses|
  {
    if courses == [] {
    } else {
      var n := |courses| - 1;
      NoDupSnoc(UrlsOf(courses[..n]), courses[n].url);
      StagedRow(p, run, courses[..n], verdicts, key);
      assert courses == courses[..n] + [courses[n]];
      assert UrlsOf(courses) == UrlsOf(courses[..n]) + [courses[n].url];
    }
  }

  ghost predicate KeyedByUrl(p: Staging) {
    forall k :: k in p ==> p[k].candidate.url == k.url
  }

  lemma {:induction false} StagedKeyed(p: Staging, run: string, courses: seq<Course>, verdicts: map<string, Status>)
    requires KeyedByUrl(p)
    ensures KeyedByUrl(Staged(p, run, courses, verdicts))
    decreases |courses|
  {
    if courses == [] {
    } else {
      StagedKeyed(p, run, courses[..|courses| - 1], verdicts);
    }
  }

  function Discarded(p: Staging, run: string): Staging {
    map k | k in p && k.run != run :: p[k]
  }

  // ----- promotion -----

  function SelectedUrls(p: Staging, run: string, approved: seq<string>): set<string> {
    set k | k in p && k.run == run && k.url in approved :: k.url
  }

  function Candidates(p: Staging, run: string, urls: seq<string>): (r: seq<Course>)
    requires forall u :: u in urls ==> PendingKey(run, u) in p
    ensures |r| == |urls| && forall i :: 0 <= i < |r| ==> r[i] == p[PendingKey(run, urls[i])].candidate
    decreases |urls|
  {
    if urls == [] then []
    else
      var n := |urls| - 1;
      assert urls == urls[..n] + [urls[n]];
      Candidates(p, run, urls[..n]) + [p[PendingKey(run, urls[n])].candidate]
  }

  /** SELECT ... WHERE run_id = run AND canonical_url = ANY(approved) ORDER BY canonical_url. */
  function Selected(p: Staging, run: string, approved: seq<string>): seq<Course> {
    Candidates(p, run, Sorted(SelectedUrls(p, run, approved)))
  }

  function SelectedVerdicts(p: Staging, run: string, approved: seq<string>): map<string, Status> {
    map u | u in SelectedUrls(p, run, approved) && p[PendingKey(run, u)].verdict.Some? ::
        p[PendingKey(run, u)].verdict.value
  }

  /** The catalogue after promoting the approved staged courses of a run. */
  function Promoted(t: Table, p: Staging, run: string, approved: seq<string>): Table {
    UpsertedAll(t, Selected(p, run, approved), SelectedVerdicts(p, run, approved))
  }

  lemma SortedNoDup(s: set<string>)
    ensures NoDup(Sorted(s))
    decreases |s|
  {
    if s != {} {
      var m := Least(s);
      SortedNoDup(s - {m});
      NoDupCons(m, Sorted(s - {m}));
    }
  }

  lemma {:induction false} CandidateUrls(p: Staging, run: string, urls: seq<string>)
    requires KeyedByUrl(p) && forall u :: u in urls ==> PendingKey(run, u) in p
    ensures UrlsOf(Candidates(p, run, urls)) == urls
  {
    forall i | 0 <= i < |urls| ensures UrlsOf(Candidates(p, run, urls))[i] == urls[i] {
      assert PendingKey(run, urls[i]) in p;
    }
  }

  lemma SelectedDistinct(p: Staging, run: string, approved: seq<string>)
    requires KeyedByUrl(p)
    ensures UrlsOf(Selected(p, run, approved)) == Sorted(SelectedUrls(p, run, approved))
    ensures NoDup(UrlsOf(Selected(p, run, approved)))
  {
    SortedNoDup(SelectedUrls(p, run, approved));
    CandidateUrls(p, run, Sorted(SelectedUrls(p, run, approved)));
  }

  lemma SelectedAt(p: Staging, run: string, approved: seq<string>, url: string) returns (k: nat)
    requires KeyedByUrl(p) && PendingKey(run, url) in p && url in approved
    ensures k < |Selected(p, run, approved)| && Selected(p, run, approved)[k] == p[PendingKey(run, url)].candidate
    ensures StatusOf(SelectedVerdicts(p, run, approved), url) == p[PendingKey(run, url)].verdict.GetOr(Uncertain)
  {
    var urls := Sorted(SelectedUrls(p, run, approved));
    assert PendingKey(run, url) in p.Keys && PendingKey(run, url).url == url;
    assert url in SelectedUrls(p, run, approved);
    assert url in urls;
    k :| 0 <= k < |urls| && urls[k] == url;
  }

  /** What promotion does to one row: a staged and approved course is stored with its own verdict, others stay. */
  function PromotedRow(before: Option<Entry>, p: Staging, run: string, approved: seq<string>, url: string)
    : Option<Entry>
  {
    if PendingKey(run, url) in p && url in approved then
      var row := p[PendingKey(run, url)];
      Some(Stored(before, row.candidate, row.verdict.GetOr(Uncertain)))
    else before
  }

  lemma PromotionByRow(t: Table, p: Staging, run: string, approved: seq<string>, url: string)
    requires KeyedByUrl(p)
    ensures Lookup(Promoted(t, p, run, approved), url) == PromotedRow(Lookup(t, url), p, run, approved, url)
  {
    SelectedDistinct(p, run, approved);
    if PendingKey(run, url) in p && url in approved {
      var k := SelectedAt(p, run, approved, url);
      assert p[PendingKey(run, url)].candidate.url == url;
      UpsertedOne(t, Selected(p, run, approved), SelectedVerdicts(p, run, approved), k);
    } else {
      assert url !in SelectedUrls(p, run, approved);
      UpsertedOther(t, Selected(p, run, approved), SelectedVerdicts(p, run, approved), url);
    }
  }

  /** Promoting again what was promoted changes nothing. */
  lemma PromotionIdempotent(t: Table, p: Staging, run: string, approved: seq<string>)
    requires KeyedByUrl(p)
    ensures Promoted(Promoted(t, p, run, approved), p, run, approved) == Promoted(t, p, run, approved)
  {
    var once := Promoted(t, p, run, approved);
    var twice := Promoted(once, p, run, approved);
    forall url ensures Lookup(twice, url) == Lookup(once, url) {
      PromotionByRow(t, p, run, approved, url);
      PromotionByRow(once, p, run, approved, url);
      if PendingKey(run, url) in p && url in approved {
        var row := p[PendingKey(run, url)];
        StoredTwice(Lookup(t, url), row.candidate, row.verdict.GetOr(Uncertain));
      }
    }
    SameTable(twice, once);
  }

  // ----- crashes during promotion -----

  datatype Db = Db(courses: Table, pending: Staging)

  /** An attempt at promote_staged_courses that stops after the upsert, or runs to its end without being recorded. */
  datatype Attempt = UpTo | Whole

  function Attempted(db: Db, a: Attempt, run: string, approved: seq<string>): Db {
    var courses := Promoted(db.courses, db.pending, run, approved);
    Db(courses, if a.UpTo? then db.pending else Discarded(db.pending, run))
  }

  function AttemptedAll(db: Db, attempts: seq<Attempt>, run: string, approved: seq<string>): Db
    decreases |attempts|
  {
    if attempts == [] then db else AttemptedAll(Attempted(db, attempts[0], run, approved), attempts[1..], run, approved)
  }

  lemma NothingStaged(t: Table, p: Staging, run: string, approved: seq<string>)
    ensures Promoted(t, Discarded(p, run), run, approved) == t
    ensures Discarded(Discarded(p, run), run) == Discarded(p, run)
  {
    var left := Discarded(p, run);
    assert SelectedUrls(left, run, approved) == {};
    assert Selected(left, run, approved) == [];
  }

  lemma {:induction false} PromotedAlready(db: Db, attempts: seq<Attempt>, run: string, approved: seq<string>)
    requires KeyedByUrl(db.pending) && Promoted(db.courses, db.pending, run, approved) == db.courses
    ensures AttemptedAll(db, attempts + [Whole], run, approved) == Db(db.courses, Discarded(db.pending, run))
    decreases |attempts|
  {
    if attempts == [] {
      assert (attempts + [Whole])[1..] == [];
    } else {
      var next := Attempted(db, attempts[0], run, approved);
      NothingStaged(db.courses, db.pending, run, approved);
      PromotedAlready(next, attempts[1..], run, approved);
      assert (attempts + [Whole])[1..] == attempts[1..] + [Whole];
    }
  }

  /** Any number of interrupted attempts before the one that is recorded give the catalogue of a single promotion. */
  lemma ReplaysConverge(db: Db, attempts: seq<Attempt>, run: string, approved: seq<string>)
    requires KeyedByUrl(db.pending)
    ensures AttemptedAll(db, attempts + [Whole], run, approved) == Attempted(db, Whole, run, approved)
  {
    if attempts == [] {
      assert (attempts + [Whole])[1..] == [];
    } else {
      var next := Attempted(db, attempts[0], run, approved);
      PromotionIdempotent(db.courses, db.pending, run, approved);
      NothingStaged(next.courses, db.pending, run, approved);
      PromotedAlready(next, attempts[1..], run, approved);
      assert (attempts + [Whole])[1..] == attempts[1..] + [Whole];
    }
  }

  lemma NextWritten(t: Table, found: seq<Course>, verdicts: map<string, Status>, i: nat)
    requires i < |found|
    ensures var rest := WrittenAll(t, found[..i], verdicts);
            WrittenAll(t, found[..i + 1], verdicts)
            == rest[found[i].url := Written(Lookup(rest, found[i].url), found[i], StatusOf(verdicts, found[i].url))]
  {
    assert found[..i + 1][..i] == found[..i];
  }

  lemma NextEmbedded(t: Table, found: seq<Course>, i: nat)
    requires i < |found| && forall c :: c in found ==> c.url in t
    ensures var rest := EmbeddedAll(t, found[..i]);
            found[i].url in rest
            && EmbeddedAll(t, found[..i + 1]) == rest[found[i].url := Embedded(rest[found[i].url], found[i])]
  {
    assert found[..i + 1][..i] == found[..i];
    assert found[i] in found;
  }

  // ----- the repository -----

  class Repository {
    var courses: Table
    var pending: Staging

    constructor ()
      ensures courses == map[] && pending == map[]
    {
      courses, pending := map[], map[];
    }

    method UpsertCourses(found: seq<Course>, verdicts: map<string, Status>)
      modifies this`courses
      ensures courses == UpsertedAll(old(courses), found, verdicts)
    {
      ghost var before := courses;
      for i := 0 to |found|
        invariant courses == WrittenAll(before, found[..i], verdicts)
      {
        var c := found[i];
        NextWritten(before, found, verdicts, i);
        courses := courses[c.url := Written(Lookup(courses, c.url), c, StatusOf(verdicts, c.url))];
      }
      assert found[..|found|] == found;
      ghost var written := courses;
      for i := 0 to |found|
        invariant courses == EmbeddedAll(written, found[..i])
      {
        var c := found[i];
        NextEmbedded(written, found, i);
        courses := courses[c.url := Embedded(courses[c.url], c)];
      }
      TwoLoopsAreOne(before, found, verdicts);
    }

    method StageCourses(run: string, found: seq<Course>, verdicts: map<string, Status>)
      modifies this`pending
      ensures pending == Staged(old(pending), run, found, verdicts)
    {
      for i := 0 to |found|
        invariant pending == Staged(old(pending), run, found[..i], verdicts)
      {
        var c := found[i];
        assert found[..i + 1] == found[..i] + [c] && found[..i + 1][..i] == found[..i];
        pending := pending[PendingKey(run, c.url) := Pending(c, VerdictOf(verdicts, c.url))];
      }
      assert found[..|found|] == found;
    }

    method PromoteStagedCourses(run: string, approved: seq<string>) returns (count: nat)
      modifies this
      ensures Db(courses, pending) == Attempted(old(Db(courses, pending)), Whole, run, approved)
      ensures count == |SelectedUrls(old(pending), run, approved)|
    {
      var urls := Sorted(SelectedUrls(pending, run, approved));
      var candidates := Candidates(pending, run, urls);
      UpsertCourses(candidates, SelectedVerdicts(pending, run, approved));
      DiscardStagedCourses(run);
      count := |candidates|;
    }

    method DiscardStagedCourses(run: string)
      modifies this`pending
      ensures pending == Discarded(old(pending), run)
      ensures forall k :: k in pending <==> k in old(pending) && k.run != run
      ensures forall k :: k in pending ==> pending[k] == old(pending)[k]
    {
      pending := Discarded(pending, run);
    }
  }
}
