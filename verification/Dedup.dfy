/** Greedy deduplication of course candidates (course_discovery/research_agent/cache/dedup.py). */
module Dedup {
  import opened Text
  import opened Courses

  /**
   * The string functions that deduplication relies on: URL normalisation, strip-and-lower, the lower-case host of a
   * URL, and whether two titles have a ratio of at least 90.
   */
  datatype Tools = Tools(
    normalize: string -> string, clean: string -> string, host: string -> string, similar: (string, string) -> bool)

  /** A SHA-256 digest, taken to be injective. */
  datatype Digest = Digest(payload: string)

  function UrlKey(t: Tools, c: Course): string { t.normalize(c.url) }

  function TitleKey(t: Tools, c: Course): string { t.clean(c.title) }

  /** The title is cleaned a second time here. */
  function Fingerprint(t: Tools, c: Course): Digest {
    Digest(t.clean(TitleKey(t, c)) + "::" + t.host(UrlKey(t, c)))
  }

  predicate SameUrl(t: Tools, c: Course, kept: seq<Course>) {
    exists i :: 0 <= i < |kept| && UrlKey(t, kept[i]) == UrlKey(t, c)
  }

  predicate SameFingerprint(t: Tools, c: Course, kept: seq<Course>) {
    exists i :: 0 <= i < |kept| && Fingerprint(t, kept[i]) == Fingerprint(t, c)
  }

  predicate SimilarTitle(t: Tools, c: Course, kept: seq<Course>) {
    exists i :: 0 <= i < |kept| && t.similar(TitleKey(t, c), TitleKey(t, kept[i]))
  }

  predicate Duplicate(t: Tools, c: Course, kept: seq<Course>) {
    SameUrl(t, c, kept) || SameFingerprint(t, c, kept) || SimilarTitle(t, c, kept)
  }

  function Deduplicated(t: Tools, courses: seq<Course>): (kept: seq<Course>)
    ensures |kept| <= |courses| && forall c :: c in kept ==> c in courses
    decreases |courses|
  {
    if courses == [] then []
    else
      var n := |courses| - 1;
      var kept := Deduplicated(t, courses[..n]);
      assert courses == courses[..n] + [courses[n]];
      if Duplicate(t, courses[n], kept) then kept else kept + [courses[n]]
  }

  lemma DeduplicatedNext(t: Tools, courses: seq<Course>, i: nat)
    requires i < |courses|
    ensures var kept := Deduplicated(t, courses[..i]);
            Deduplicated(t, courses[..i + 1]) == (if Duplicate(t, courses[i], kept) then kept else kept + [courses[i]])
  {
    assert courses[..i + 1][..i] == courses[..i];
  }

  ghost predicate Seen(t: Tools, kept: seq<Course>, urls: set<string>, fingerprints: set<Digest>) {
    (forall u :: u in urls <==> exists i :: 0 <= i < |kept| && UrlKey(t, kept[i]) == u)
    && (forall f :: f in fingerprints <==> exists i :: 0 <= i < |kept| && Fingerprint(t, kept[i]) == f)
  }

  lemma SeenGrows(t: Tools, kept: seq<Course>, urls: set<string>, fingerprints: set<Digest>, c: Course)
    requires Seen(t, kept, urls, fingerprints)
    ensures Seen(t, kept + [c], urls + {UrlKey(t, c)}, fingerprints + {Fingerprint(t, c)})
  {
    var more := kept + [c];
    assert more[|kept|] == c;
    assert forall i :: 0 <= i < |kept| ==> more[i] == kept[i];
    forall u ensures u in urls + {UrlKey(t, c)} <==> exists i :: 0 <= i < |more| && UrlKey(t, more[i]) == u {
      if i :| 0 <= i < |kept| && UrlKey(t, kept[i]) == u { assert UrlKey(t, more[i]) == u; }
      if u == UrlKey(t, c) { assert UrlKey(t, more[|kept|]) == u; }
    }
    forall f ensures f in fingerprints + {Fingerprint(t, c)} <==>
        exists i :: 0 <= i < |more| && Fingerprint(t, more[i]) == f {
      if i :| 0 <= i < |kept| && Fingerprint(t, kept[i]) == f { assert Fingerprint(t, more[i]) == f; }
      if f == Fingerprint(t, c) { assert Fingerprint(t, more[|kept|]) == f; }
    }
  }

  lemma SeenFinds(t: Tools, kept: seq<Course>, urls: set<string>, fingerprints: set<Digest>, c: Course)
    requires Seen(t, kept, urls, fingerprints)
    ensures UrlKey(t, c) in urls <==> SameUrl(t, c, kept)
    ensures Fingerprint(t, c) in fingerprints <==> SameFingerprint(t, c, kept)
  {
  }

  method AnySimilar(t: Tools, c: Course, kept: seq<Course>) returns (found: bool)
    ensures found <==> SimilarTitle(t, c, kept)
  {
    for i := 0 to |kept|
      invariant forall j :: 0 <= j < i ==> !t.similar(TitleKey(t, c), TitleKey(t, kept[j]))
    {
      if t.similar(TitleKey(t, c), TitleKey(t, kept[i])) { return true; }
    }
    return false;
  }

  /** The first of the three tests that drops a course. */
  datatype Test = UrlTest | FingerprintTest | TitleTest

  predicate DroppedBy(t: Tools, c: Course, kept: seq<Course>, test: Test) {
    match test
    case UrlTest => SameUrl(t, c, kept)
    case FingerprintTest => !SameUrl(t, c, kept) && SameFingerprint(t, c, kept)
    case TitleTest => !SameUrl(t, c, kept) && !SameFingerprint(t, c, kept) && SimilarTitle(t, c, kept)
  }

  /** How many courses that test drops. */
  function Drops(t: Tools, courses: seq<Course>, test: Test): nat
    decreases |courses|
  {
    if courses == [] then 0
    else
      var n := |courses| - 1;
      Drops(t, courses[..n], test) + (if DroppedBy(t, courses[n], Deduplicated(t, courses[..n]), test) then 1 else 0)
  }

  lemma DropsNext(t: Tools, courses: seq<Course>, i: nat, test: Test)
    requires i < |courses|
    ensures Drops(t, courses[..i + 1], test) ==
            Drops(t, courses[..i], test)
            + (if DroppedBy(t, courses[i], Deduplicated(t, courses[..i]), test) then 1 else 0)
  {
    assert courses[..i + 1][..i] == courses[..i];
  }

  /** dedup_node, with the number of courses removed by each of its three tests. */
  method RemoveDuplicates(t: Tools, courses: seq<Course>)
    returns (kept: seq<Course>, byUrl: nat, byFingerprint: nat, byTitle: nat)
    ensures kept == Deduplicated(t, courses)
    ensures |kept| + byUrl + byFingerprint + byTitle == |courses|
    ensures byUrl == Drops(t, courses, UrlTest) && byFingerprint == Drops(t, courses, FingerprintTest)
    ensures byTitle == Drops(t, courses, TitleTest)
  {
    kept, byUrl, byFingerprint, byTitle := [], 0, 0, 0;
    var urls, fingerprints := {}, {};
    for i := 0 to |courses|
      invariant kept == Deduplicated(t, courses[..i])
      invariant |kept| + byUrl + byFingerprint + byTitle == i
      invariant byUrl == Drops(t, courses[..i], UrlTest) && byFingerprint == Drops(t, courses[..i], FingerprintTest)
      invariant byTitle == Drops(t, courses[..i], TitleTest)
      invariant Seen(t, kept, urls, fingerprints)
    {
      var c := courses[i];
      DeduplicatedNext(t, courses, i);
      DropsNext(t, courses, i, UrlTest);
      DropsNext(t, courses, i, FingerprintTest);
      DropsNext(t, courses, i, TitleTest);
      SeenFinds(t, kept, urls, fingerprints, c);
      if UrlKey(t, c) in urls {
        byUrl := byUrl + 1;
      } else if Fingerprint(t, c) in fingerprints {
        byFingerprint := byFingerprint + 1;
      } else {
        var similar := AnySimilar(t, c, kept);
        if similar {
          byTitle := byTitle + 1;
        } else {
          SeenGrows(t, kept, urls, fingerprints, c);
          urls, fingerprints, kept := urls + {UrlKey(t, c)}, fingerprints + {Fingerprint(t, c)}, kept + [c];
        }
      }
    }
    assert courses[..|courses|] == courses;
  }

  // ----- the simple filter -----

  predicate Conflicts(t: Tools, c: Course, kept: seq<Course>) {
    SameUrl(t, c, kept) || SimilarTitle(t, c, kept)
  }

  /** Keep a course unless an earlier kept one has its normalised URL or a similar title. */
  function Filtered(t: Tools, courses: seq<Course>): seq<Course>
    decreases |courses|
  {
    if courses == [] then []
    else
      var n := |courses| - 1;
      var kept := Filtered(t, courses[..n]);
      if Conflicts(t, courses[n], kept) then kept else kept + [courses[n]]
  }

  // ----- what every result keeps -----

  /**
   * A result never changes when more courses follow: cached courses, which come first, are not displaced by web ones.
   */
  lemma {:induction false} PrefixMonotone(t: Tools, courses: seq<Course>, k: nat)
    requires k <= |courses|
    ensures Deduplicated(t, courses[..k]) <= Deduplicated(t, courses)
    ensures Filtered(t, courses[..k]) <= Filtered(t, courses)
    decreases |courses|
  {
    if k == |courses| {
      assert courses[..k] == courses;
    } else {
      var n := |courses| - 1;
      assert courses[..n][..k] == courses[..k];
      PrefixMonotone(t, courses[..n], k);
    }
  }

  lemma {:induction false} KeptAreNotDuplicates(t: Tools, courses: seq<Course>, j: nat)
    requires j < |Deduplicated(t, courses)|
    ensures !Duplicate(t, Deduplicated(t, courses)[j], Deduplicated(t, courses)[..j])
    decreases |courses|
  {
    var n := |courses| - 1;
    var before := Deduplicated(t, courses[..n]);
    if j < |before| {
      KeptAreNotDuplicates(t, courses[..n], j);
      assert Deduplicated(t, courses)[..j] == before[..j];
    } else {
      assert Deduplicated(t, courses)[..j] == before;
    }
  }

  /** A course is dropped exactly when one kept before it matches by URL, fingerprint or title. */
  lemma DroppedConflict(t: Tools, courses: seq<Course>, k: nat)
    requires k < |courses|
    ensures var before := Deduplicated(t, courses[..k]);
            before <= Deduplicated(t, courses)
            && (Duplicate(t, courses[k], before) <==> Deduplicated(t, courses[..k + 1]) == before)
  {
    PrefixMonotone(t, courses, k);
    DeduplicatedNext(t, courses, k);
  }

  /** The course repeats the earlier one: by normalised URL, by cleaned title and host, or by a similar title. */
  predicate Repeats(t: Tools, c: Course, earlier: Course) {
    t.normalize(c.url) == t.normalize(earlier.url)
    || t.clean(t.clean(c.title)) + "::" + t.host(t.normalize(c.url))
       == t.clean(t.clean(earlier.title)) + "::" + t.host(t.normalize(earlier.url))
    || t.similar(t.clean(c.title), t.clean(earlier.title))
  }

  lemma DuplicateIs(t: Tools, c: Course, kept: seq<Course>)
    ensures Duplicate(t, c, kept) <==> exists i :: 0 <= i < |kept| && Repeats(t, c, kept[i])
  {
    if SameUrl(t, c, kept) {
      var i :| 0 <= i < |kept| && UrlKey(t, kept[i]) == UrlKey(t, c);
      assert Repeats(t, c, kept[i]);
    }
    if SameFingerprint(t, c, kept) {
      var i :| 0 <= i < |kept| && Fingerprint(t, kept[i]) == Fingerprint(t, c);
      assert Repeats(t, c, kept[i]);
    }
    if SimilarTitle(t, c, kept) {
      var i :| 0 <= i < |kept| && t.similar(TitleKey(t, c), TitleKey(t, kept[i]));
      assert Repeats(t, c, kept[i]);
    }
    if i :| 0 <= i < |kept| && Repeats(t, c, kept[i]) {
      if t.normalize(c.url) == t.normalize(kept[i].url) { assert UrlKey(t, kept[i]) == UrlKey(t, c); }
      else if t.similar(t.clean(c.title), t.clean(kept[i].title)) {
        assert t.similar(TitleKey(t, c), TitleKey(t, kept[i]));
      } else { assert Fingerprint(t, kept[i]) == Fingerprint(t, c); }
    }
  }

  /** Course by course: it is kept, behind what was kept before, exactly if it repeats nothing kept before. */
  lemma KeptExactly(t: Tools, courses: seq<Course>, k: nat)
    requires k < |courses|
    ensures var kept := Deduplicated(t, courses[..k]);
            Deduplicated(t, courses[..k + 1]) ==
            (if exists i :: 0 <= i < |kept| && Repeats(t, courses[k], kept[i]) then kept else kept + [courses[k]])
  {
    DeduplicatedNext(t, courses, k);
    DuplicateIs(t, courses[k], Deduplicated(t, courses[..k]));
  }

  /** Of two courses kept, the later one repeats the earlier one in no way; so no two have the same normalised URL. */
  lemma NoneRepeats(t: Tools, courses: seq<Course>, i: nat, j: nat)
    requires i < j < |Deduplicated(t, courses)|
    ensures var kept := Deduplicated(t, courses);
            !Repeats(t, kept[j], kept[i]) && t.normalize(kept[i].url) != t.normalize(kept[j].url)
  {
    var kept := Deduplicated(t, courses);
    KeptAreNotDuplicates(t, courses, j);
    DuplicateIs(t, kept[j], kept[..j]);
    assert kept[..j][i] == kept[i];
  }

  lemma {:induction false} NothingToDrop(t: Tools, kept: seq<Course>)
    requires forall j :: 0 <= j < |kept| ==> !Duplicate(t, kept[j], kept[..j])
    ensures Deduplicated(t, kept) == kept
    decreases |kept|
  {
    if kept == [] {
    } else {
      var n := |kept| - 1;
      forall j | 0 <= j < n ensures !Duplicate(t, kept[..n][j], kept[..n][..j]) {
        assert kept[..n][..j] == kept[..j];
      }
      NothingToDrop(t, kept[..n]);
      assert !Duplicate(t, kept[n], kept[..n]);
      assert kept == kept[..n] + [kept[n]];
    }
  }

  lemma {:induction false} Idempotent(t: Tools, courses: seq<Course>)
    ensures Deduplicated(t, Deduplicated(t, courses)) == Deduplicated(t, courses)
  {
    var kept := Deduplicated(t, courses);
    forall j | 0 <= j < |kept| ensures !Duplicate(t, kept[j], kept[..j]) { KeptAreNotDuplicates(t, courses, j); }
    NothingToDrop(t, kept);
  }

  /** The URLs of a result are distinct, even before normalisation. */
  lemma {:induction false} UrlsAreDistinct(t: Tools, courses: seq<Course>, i: nat, j: nat)
    requires i < j < |Deduplicated(t, courses)|
    ensures Deduplicated(t, courses)[i].url != Deduplicated(t, courses)[j].url
    ensures UrlKey(t, Deduplicated(t, courses)[i]) != UrlKey(t, Deduplicated(t, courses)[j])
  {
    var kept := Deduplicated(t, courses);
    KeptAreNotDuplicates(t, courses, j);
    assert kept[..j][i] == kept[i];
  }

  // ----- when the fingerprint makes a difference -----

  /** The simple filter would keep this course, but one it kept before has the same fingerprint. */
  predicate OnlyFingerprint(t: Tools, courses: seq<Course>, i: nat)
    requires i < |courses|
  {
    SameFingerprint(t, courses[i], Filtered(t, courses[..i])) && !Conflicts(t, courses[i], Filtered(t, courses[..i]))
  }

  lemma {:induction false} RefinesWithoutCollisions(t: Tools, courses: seq<Course>)
    requires forall i: nat :: i < |courses| ==> !OnlyFingerprint(t, courses, i)
    ensures Deduplicated(t, courses) == Filtered(t, courses)
    decreases |courses|
  {
    if courses == [] {
    } else {
      var n := |courses| - 1;
      forall i: nat | i < n ensures !OnlyFingerprint(t, courses[..n], i) {
        assert courses[..n][..i] == courses[..i];
        assert !OnlyFingerprint(t, courses, i);
      }
      RefinesWithoutCollisions(t, courses[..n]);
      assert !OnlyFingerprint(t, courses, n);
    }
  }

  lemma {:induction false} FirstCollision(t: Tools, courses: seq<Course>, i: nat) returns (k: nat)
    requires i < |courses| && OnlyFingerprint(t, courses, i)
    ensures k < |courses| && OnlyFingerprint(t, courses, k)
    ensures forall j: nat :: j < k ==> !OnlyFingerprint(t, courses, j)
    decreases i
  {
    if j: nat :| j < i && OnlyFingerprint(t, courses, j) {
      k := FirstCollision(t, courses, j);
    } else {
      k := i;
    }
  }

  lemma CollisionParts(t: Tools, courses: seq<Course>, k: nat)
    requires k < |courses| && OnlyFingerprint(t, courses, k)
    requires Deduplicated(t, courses[..k]) == Filtered(t, courses[..k])
    ensures Deduplicated(t, courses) != Filtered(t, courses)
  {
    var base, kept := Filtered(t, courses[..k]), Deduplicated(t, courses);
    var n := |base|;
    PrefixMonotone(t, courses, k);
    PrefixMonotone(t, courses, k + 1);
    assert courses[..k + 1][..k] == courses[..k];
    assert Filtered(t, courses[..k + 1]) == base + [courses[k]];
    assert Filtered(t, courses)[n] == courses[k];
    if n < |kept| {
      KeptAreNotDuplicates(t, courses, n);
      assert kept[..n] == base;
    }
  }

  /** The code computes the simple filter exactly when no course collides in its fingerprint alone. */
  lemma RefinesExactly(t: Tools, courses: seq<Course>)
    ensures Deduplicated(t, courses) == Filtered(t, courses)
            <==> forall i: nat :: i < |courses| ==> !OnlyFingerprint(t, courses, i)
  {
    if i: nat :| i < |courses| && OnlyFingerprint(t, courses, i) {
      var k := FirstCollision(t, courses, i);
      forall j: nat | j < k ensures !OnlyFingerprint(t, courses[..k], j) {
        assert courses[..k][..j] == courses[..j];
        assert !OnlyFingerprint(t, courses, j);
      }
      RefinesWithoutCollisions(t, courses[..k]);
      CollisionParts(t, courses, k);
    } else {
      RefinesWithoutCollisions(t, courses);
    }
  }

  // ----- hosts without a colon -----

  /** Equal fingerprints mean equal titles, unless a host contains a colon (as an IPv6 address does). */
  lemma FingerprintFixesTitle(t: Tools, c: Course, d: Course)
    requires Fingerprint(t, c) == Fingerprint(t, d)
    requires ':' !in t.host(UrlKey(t, c)) && ':' !in t.host(UrlKey(t, d))
    requires t.clean(TitleKey(t, c)) == TitleKey(t, c) && t.clean(TitleKey(t, d)) == TitleKey(t, d)
    ensures TitleKey(t, c) == TitleKey(t, d)
  {
    var a, b := TitleKey(t, c), TitleKey(t, d);
    var h, g := t.host(UrlKey(t, c)), t.host(UrlKey(t, d));
    assert a + "::" + h == (a + ":") + ":" + h && b + "::" + g == (b + ":") + ":" + g;
    LastColon(a + ":", h, b + ":", g);
    assert a == (a + ":")[..|a|] && b == (b + ":")[..|b|];
  }

  /**
   * With colon-free hosts, cleaning that settles after one pass and titles similar to themselves, the fingerprint is
   * redundant: the loop with three tests is the simple filter. Similarity need be neither symmetric nor transitive.
   */
  lemma RefinesSimpleFilter(t: Tools, courses: seq<Course>)
    requires forall c :: c in courses ==> ':' !in t.host(UrlKey(t, c))
    requires forall c :: c in courses ==> t.clean(TitleKey(t, c)) == TitleKey(t, c)
    requires forall c :: c in courses ==> t.similar(TitleKey(t, c), TitleKey(t, c))
    ensures Deduplicated(t, courses) == Filtered(t, courses)
  {
    forall i: nat | i < |courses| ensures !OnlyFingerprint(t, courses, i) {
      var kept := Filtered(t, courses[..i]);
      if SameFingerprint(t, courses[i], kept) {
        var j :| 0 <= j < |kept| && Fingerprint(t, kept[j]) == Fingerprint(t, courses[i]);
        FilteredFrom(t, courses[..i], kept[j]);
        FingerprintFixesTitle(t, kept[j], courses[i]);
        assert SimilarTitle(t, courses[i], kept);
      }
    }
    RefinesWithoutCollisions(t, courses);
  }

  lemma {:induction false} FilteredFrom(t: Tools, courses: seq<Course>, c: Course)
    requires c in Filtered(t, courses)
    ensures c in courses
    decreases |courses|
  {
    var n := |courses| - 1;
    assert courses == courses[..n] + [courses[n]];
    if c != courses[n] { FilteredFrom(t, courses[..n], c); }
  }

  /**
   * With a colon in a host two titles can share a fingerprint: if one title is the other with two colons behind it, and
   * the hosts differ by two colons in front, the second course is lost although neither URL nor title is a duplicate.
   */
  lemma ColonInHostLosesCourse(t: Tools, c: Course, d: Course)
    requires TitleKey(t, d) == TitleKey(t, c) + "::" && t.host(UrlKey(t, c)) == "::" + t.host(UrlKey(t, d))
    requires t.clean(TitleKey(t, c)) == TitleKey(t, c) && t.clean(TitleKey(t, d)) == TitleKey(t, d)
    requires UrlKey(t, c) != UrlKey(t, d) && !t.similar(TitleKey(t, d), TitleKey(t, c))
    ensures Filtered(t, [c, d]) == [c, d] && Deduplicated(t, [c, d]) == [c]
  {
    var courses := [c, d];
    assert courses[..1] == [c] && [c][..0] == [];
    assert Fingerprint(t, c) == Fingerprint(t, d) by {
      var a, h := TitleKey(t, c), t.host(UrlKey(t, d));
      assert a + "::" + ("::" + h) == (a + "::") + "::" + h;
    }
    assert Deduplicated(t, []) == [] && !Duplicate(t, c, []) && Deduplicated(t, [c]) == [] + [c];
    assert Filtered(t, [c]) == [c];
    assert SameFingerprint(t, d, [c]) by { assert Fingerprint(t, [c][0]) == Fingerprint(t, d); }
    assert !Conflicts(t, d, [c]);
  }

  /** For instance the titles "a" and "a::" at http://[::1]/ and http://1/. */
  lemma LoopbackLosesCourse(t: Tools, c: Course, d: Course)
    requires TitleKey(t, c) == "a" && TitleKey(t, d) == "a::" && t.clean("a") == "a" && t.clean("a::") == "a::"
    requires t.host(UrlKey(t, c)) == "::1" && t.host(UrlKey(t, d)) == "1" && !t.similar("a::", "a")
    ensures Filtered(t, [c, d]) == [c, d] && Deduplicated(t, [c, d]) == [c]
  {
    assert |"::1"| != |"1"|;
    assert "a" + "::" == "a::" && "::" + "1" == "::1";
    ColonInHostLosesCourse(t, c, d);
  }
}
