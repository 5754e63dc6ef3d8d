/**
 * What stands in a catalogue row after an upsert or a promotion, column by column
 * (course_discovery/research_agent/cache/repository.py:152-325).
 */
module CatalogueRows {
  import opened Text
  import opened Courses
  import opened Catalogue

  // ----- evidence -----

  predicate Cites(c: Course, source: string) {
    exists i :: 0 <= i < |c.evidence| && c.evidence[i].sourceUrl == source
  }

  /** The candidate's last evidence of that source. */
  predicate CitesLast(c: Course, source: string, e: Evidence) {
    exists i :: 0 <= i < |c.evidence| && c.evidence[i] == e && e.sourceUrl == source
      && forall j :: i < j < |c.evidence| ==> c.evidence[j].sourceUrl != source
  }

  /** The row's evidence of a source is the candidate's last one, or else what was there before. */
  ghost predicate EvidenceOf(evidence: map<string, Evidence>, before: map<string, Evidence>, c: Course,
                             source: string) {
    (source in evidence <==> Cites(c, source) || source in before)
    && (source in evidence ==>
          if Cites(c, source) then CitesLast(c, source, evidence[source]) else evidence[source] == before[source])
  }

  lemma {:induction false} LastCited(known: map<string, Evidence>, found: seq<Evidence>, source: string)
    returns (i: int)
    ensures -1 <= i < |found| && (i >= 0 ==> found[i].sourceUrl == source)
    ensures forall j :: i < j < |found| ==> found[j].sourceUrl != source
    ensures source in MergedEvidence(known, found) <==> i >= 0 || source in known
    ensures source in MergedEvidence(known, found) ==>
              MergedEvidence(known, found)[source] == (if i >= 0 then found[i] else known[source])
    decreases |found|
  {
    if found == [] {
      i := -1;
    } else {
      var n := |found| - 1;
      i := LastCited(known, found[..n], source);
      if found[n].sourceUrl == source { i := n; }
    }
  }

  lemma MergedIs(known: map<string, Evidence>, c: Course, source: string)
    ensures EvidenceOf(MergedEvidence(known, c.evidence), known, c, source)
  {
    var i := LastCited(known, c.evidence, source);
    if i >= 0 { assert CitesLast(c, source, c.evidence[i]); }
  }

  // ----- a row -----

  function EvidenceBefore(before: Option<Entry>): map<string, Evidence> {
    if before.Some? then before.value.evidence else map[]
  }

  /**
   * The row holds the candidate: title, description, facts and verdict are overwritten, topics are kept, a missing
   * duration is filled from before, evidence is merged by source, and the embedding is that of the row's own text.
   */
  ghost predicate Holds(row: Entry, before: Option<Entry>, c: Course, status: Status) {
    row.title == c.title && row.description == c.description && row.facts == c.facts && row.status == status
    && row.topics == (if before.Some? then before.value.topics else [])
    && row.duration == (if c.duration.None? && before.Some? then before.value.duration else c.duration)
    && (forall source :: EvidenceOf(row.evidence, EvidenceBefore(before), c, source))
    && row.embedded == Some(EmbeddedText(row.title, row.description, row.topics))
  }

  lemma StoredHolds(before: Option<Entry>, c: Course, status: Status)
    ensures Holds(Stored(before, c, status), before, c, status)
  {
    forall source ensures EvidenceOf(Stored(before, c, status).evidence, EvidenceBefore(before), c, source) {
      MergedIs(EvidenceBefore(before), c, source);
    }
  }

  /** Staging courses of distinct URLs stages each as it is, with its verdict if it has one. */
  lemma StagedHolds(p: Staging, run: string, courses: seq<Course>, verdicts: map<string, Status>, k: nat)
    requires NoDup(UrlsOf(courses)) && k < |courses|
    ensures var key := PendingKey(run, courses[k].url);
            key in Staged(p, run, courses, verdicts)
            && var staged := Staged(p, run, courses, verdicts)[key];
               staged.candidate == courses[k]
               && (staged.verdict.Some? <==> courses[k].url in verdicts)
               && (staged.verdict.Some? ==> staged.verdict.value == verdicts[courses[k].url])
  {
    var key := PendingKey(run, courses[k].url);
    assert UrlsOf(courses)[k] == courses[k].url;
    StagedRow(p, run, courses, verdicts, key);
    var c :| c in courses && c.url == key.url
      && Staged(p, run, courses, verdicts)[key] == Pending(c, VerdictOf(verdicts, c.url));
    var j :| 0 <= j < |courses| && courses[j] == c;
    assert UrlsOf(courses)[j] == UrlsOf(courses)[k];
  }

  /** Upserting courses of distinct URLs leaves each in its row, with its verdict or as uncertain, and no other row. */
  lemma UpsertedHolds(t: Table, courses: seq<Course>, verdicts: map<string, Status>, url: string)
    requires NoDup(UrlsOf(courses))
    ensures forall k :: 0 <= k < |courses| && courses[k].url == url ==>
              Lookup(UpsertedAll(t, courses, verdicts), url).Some?
              && Holds(UpsertedAll(t, courses, verdicts)[url], Lookup(t, url), courses[k],
                       if url in verdicts then verdicts[url] else Uncertain)
    ensures (forall k :: 0 <= k < |courses| ==> courses[k].url != url) ==>
              Lookup(UpsertedAll(t, courses, verdicts), url) == Lookup(t, url)
  {
    if k :| 0 <= k < |courses| && courses[k].url == url {
      UpsertedOne(t, courses, verdicts, k);
      StoredHolds(Lookup(t, url), courses[k], if url in verdicts then verdicts[url] else Uncertain);
      forall j | 0 <= j < |courses| && courses[j].url == url ensures j == k { assert UrlsOf(courses)[j] == url; }
    } else {
      UpsertedOther(t, courses, verdicts, url);
    }
  }

  /** A promotion puts each staged and approved course in its row, with its staged verdict, and no other row changes. */
  lemma PromotedHolds(t: Table, p: Staging, run: string, approved: seq<string>, url: string)
    requires KeyedByUrl(p)
    ensures PendingKey(run, url) in p && url in approved ==>
              var staged := p[PendingKey(run, url)];
              Lookup(Promoted(t, p, run, approved), url).Some?
              && Holds(Promoted(t, p, run, approved)[url], Lookup(t, url), staged.candidate,
                       if staged.verdict.Some? then staged.verdict.value else Uncertain)
    ensures PendingKey(run, url) !in p || url !in approved ==>
              Lookup(Promoted(t, p, run, approved), url) == Lookup(t, url)
  {
    PromotionByRow(t, p, run, approved, url);
    if PendingKey(run, url) in p && url in approved {
      var staged := p[PendingKey(run, url)];
      StoredHolds(Lookup(t, url), staged.candidate, if staged.verdict.Some? then staged.verdict.value else Uncertain);
    }
  }
}
