/** Search plans (course_discovery/research_agent/planning/nodes.py). */
module Planning {
  import opened Text
  import opened Courses

  const MIN_VALID := 3
  const MAX_QUERIES := 4

  /** The fixed words that queries are built from. */
  datatype Phrases = Phrases(
    anyTopic: string, anyLevel: string, course: string, free: string, certificate: string,
    official: string, recent: string, evidence: string)

  const PHRASES := Phrases(
    "online course", "any", "course", "free", "certificate",
    " official course page", " updated recent", " course evidence")

  predicate IsSpace(c: char) { c == ' ' || '\t' <= c <= '\r' }

  function Strip(s: string): string {
    if s == "" then ""
    else if IsSpace(s[0]) then Strip(s[1..])
    else if IsSpace(s[|s| - 1]) then Strip(s[..|s| - 1])
    else s
  }

  /** dict.fromkeys: the first occurrences, in order. */
  function Distinct(s: seq<string>): (r: seq<string>)
    ensures NoDup(r) && forall x :: x in r <==> x in s
    ensures |r| <= |s|
    decreases |s|
  {
    if s == [] then []
    else
      var n := |s| - 1;
      var rest := Distinct(s[..n]);
      assert s == s[..n] + [s[n]];
      NoDupSnoc(rest, s[n]);
      if s[n] in rest then rest else rest + [s[n]]
  }

  function Without(s: seq<string>, done: seq<string>): (r: seq<string>)
    ensures NoDup(s) ==> NoDup(r)
    ensures forall x :: x in r <==> x in s && x !in done
    ensures |r| <= |s|
    decreases |s|
  {
    if s == [] then []
    else
      var n := |s| - 1;
      var rest := Without(s[..n], done);
      assert s == s[..n] + [s[n]];
      NoDupSnoc(s[..n], s[n]);
      NoDupSnoc(rest, s[n]);
      if s[n] in done then rest else rest + [s[n]]
  }

  function FirstFew(s: seq<string>): (r: seq<string>)
    ensures |r| <= MAX_QUERIES && r <= s
    ensures NoDup(s) ==> NoDup(r)
  {
    if |s| <= MAX_QUERIES then s else s[..MAX_QUERIES]
  }

  function Terms(p: Phrases, f: Filters): (r: seq<string>)
    ensures |r| >= 2
  {
    [if Strip(f.topic) == "" then p.anyTopic else Strip(f.topic), p.course]
    + (if f.level != p.anyLevel then [f.level] else [])
    + (if f.maxPrice == 0.0 then [p.free] else [])
    + (if f.certificate then [p.certificate] else [])
  }

  function Base(p: Phrases, f: Filters): (r: string)
    ensures r != ""
  {
    Join(" ", Terms(p, f))
  }

  function Wanted(p: Phrases, f: Filters, known: nat, iteration: nat): (r: seq<string>)
    ensures forall q :: q in r ==> q != ""
  {
    [Base(p, f)]
    + (if known == 0 || f.certificate then [Base(p, f) + p.official] else [])
    + (if iteration > 0 then [Base(p, f) + p.recent] else [])
  }

  function Queries(p: Phrases, f: Filters, known: nat, iteration: nat): seq<string> {
    FirstFew(Distinct(Wanted(p, f, known, iteration)))
  }

  method BuildQueries(p: Phrases, f: Filters, known: nat, iteration: nat) returns (queries: seq<string>)
    ensures queries == Queries(p, f, known, iteration)
  {
    var topic := Strip(f.topic);
    if topic == "" { topic := p.anyTopic; }
    var terms := [topic, p.course];
    if f.level != p.anyLevel { terms := terms + [f.level]; }
    if f.maxPrice == 0.0 { terms := terms + [p.free]; }
    if f.certificate { terms := terms + [p.certificate]; }
    assert terms == Terms(p, f);
    var base := Join(" ", terms);
    queries := [base];
    if known == 0 || f.certificate { queries := queries + [base + p.official]; }
    if iteration > 0 { queries := queries + [base + p.recent]; }
    assert queries == Wanted(p, f, known, iteration);
    queries := FirstFew(Distinct(queries));
  }

  /** research_planner_node: nothing when the cache has enough, otherwise the queries not run yet. */
  function PlannedQueries(p: Phrases, f: Filters, cached: nat, iteration: nat, completed: seq<string>): seq<string> {
    if cached < MIN_VALID then Without(Queries(p, f, cached, iteration), completed) else []
  }

  /** replanner_node: one more query for missing evidence, then whatever was not run yet. */
  function GapQueries(p: Phrases, f: Filters, valid: nat, iteration: nat, missing: set<string>, completed: seq<string>)
    : seq<string>
  {
    var base := Queries(p, f, valid, iteration);
    var wanted := if missing == {} then base else base + [MissingQuery(p, f, missing)];
    FirstFew(Without(Distinct(wanted), completed))
  }

  /** Which queries there are; the limit of four never cuts any off. */
  lemma QueriesAre(p: Phrases, f: Filters, known: nat, iteration: nat, q: string)
    ensures q in Queries(p, f, known, iteration) <==>
              q == Base(p, f) || ((known == 0 || f.certificate) && q == Base(p, f) + p.official)
              || (iteration > 0 && q == Base(p, f) + p.recent)
    ensures |Queries(p, f, known, iteration)| <= 3
  {
  }

  function MissingQuery(p: Phrases, f: Filters, missing: set<string>): string {
    f.topic + " " + Join(" ", Sorted(missing)) + p.evidence
  }

  /** A gap plan runs everything it wants that was not run before, again without being cut off. */
  lemma GapQueriesAre(p: Phrases, f: Filters, valid: nat, iteration: nat, missing: set<string>, completed: seq<string>,
                      q: string)
    ensures q in GapQueries(p, f, valid, iteration, missing, completed) <==>
              q !in completed && (q in Queries(p, f, valid, iteration)
                  || (missing != {} && q == MissingQuery(p, f, missing)))
  {
    QueriesAre(p, f, valid, iteration, q);
    var base := Queries(p, f, valid, iteration);
    var wanted := if missing == {} then base else base + [MissingQuery(p, f, missing)];
    assert |Without(Distinct(wanted), completed)| <= 4;
    assert q in Distinct(wanted) <==> q in wanted;
  }

  // ----- the words of a query -----

  lemma StripIs(s: string) returns (a: string, b: string)
    ensures s == a + Strip(s) + b && (forall c :: c in a + b ==> IsSpace(c))
    ensures Strip(s) != "" ==> !IsSpace(Strip(s)[0]) && !IsSpace(Strip(s)[|Strip(s)| - 1])
    decreases |s|
  {
    a, b := "", "";
    if s == "" {
    } else if IsSpace(s[0]) {
      a, b := StripIs(s[1..]);
      a := [s[0]] + a;
    } else if IsSpace(s[|s| - 1]) {
      a, b := StripIs(s[..|s| - 1]);
      b := b + [s[|s| - 1]];
    }
  }

  lemma JoinTwo(a: string, b: string)
    ensures Join(" ", [a, b]) == a + " " + b
  {
    assert [a, b][1..] == [b];
  }

  lemma {:induction false} JoinMore(parts: seq<string>, last: string)
    requires parts != []
    ensures Join(" ", parts + [last]) == Join(" ", parts) + " " + last
    decreases |parts|
  {
    if |parts| == 1 {
      assert parts + [last] == [parts[0], last];
      JoinTwo(parts[0], last);
    } else {
      JoinMore(parts[1..], last);
      assert (parts + [last])[1..] == parts[1..] + [last];
    }
  }

  /** A wish of the request adds its word. */
  function Word(wished: bool, word: string): string { if wished then " " + word else "" }

  lemma JoinWish(parts: seq<string>, wished: bool, word: string)
    requires parts != []
    ensures Join(" ", parts + (if wished then [word] else [])) == Join(" ", parts) + Word(wished, word)
  {
    if wished { JoinMore(parts, word); } else { assert parts + [] == parts; }
  }

  /** The topic or its stand-in, "course", and a word for each wish. */
  lemma BaseSays(p: Phrases, f: Filters)
    ensures Base(p, f) ==
            (if Strip(f.topic) == "" then p.anyTopic else Strip(f.topic)) + " " + p.course
            + Word(f.level != p.anyLevel, f.level) + Word(f.maxPrice == 0.0, p.free)
            + Word(f.certificate, p.certificate)
  {
    var topic := if Strip(f.topic) == "" then p.anyTopic else Strip(f.topic);
    var two := [topic, p.course];
    var three := two + (if f.level != p.anyLevel then [f.level] else []);
    var four := three + (if f.maxPrice == 0.0 then [p.free] else []);
    JoinTwo(topic, p.course);
    JoinWish(two, f.level != p.anyLevel, f.level);
    JoinWish(three, f.maxPrice == 0.0, p.free);
    JoinWish(four, f.certificate, p.certificate);
    assert Terms(p, f) == four + (if f.certificate then [p.certificate] else []);
  }

  /** Every query of a first plan starts with those words, and says no more than where to look or how recent. */
  lemma PlannedSays(p: Phrases, f: Filters, cached: nat, iteration: nat, completed: seq<string>, q: string)
    ensures q in PlannedQueries(p, f, cached, iteration, completed) <==>
              cached < 3 && q !in completed
              && (q == Base(p, f) || (q == Base(p, f) + p.official && (cached == 0 || f.certificate))
                  || (q == Base(p, f) + p.recent && iteration > 0))
  {
    QueriesAre(p, f, cached, iteration, q);
  }

  /** So does every query of a gap plan, except for one that names the missing evidence. */
  lemma GapSays(p: Phrases, f: Filters, valid: nat, iteration: nat, missing: set<string>, completed: seq<string>,
                q: string)
    ensures q in GapQueries(p, f, valid, iteration, missing, completed) <==>
              q !in completed
              && (q == Base(p, f) || (q == Base(p, f) + p.official && (valid == 0 || f.certificate))
                  || (q == Base(p, f) + p.recent && iteration > 0)
                  || (q == f.topic + " " + Join(" ", Sorted(missing)) + p.evidence && missing != {}))
  {
    QueriesAre(p, f, valid, iteration, q);
    GapQueriesAre(p, f, valid, iteration, missing, completed, q);
  }

  lemma WithoutJoin(s: seq<string>, t: seq<string>, done: seq<string>)
    ensures Without(s + t, done) == Without(s, done) + Without(t, done)
    decreases |t|
  {
    if t == [] {
      assert s + t == s;
    } else {
      var n := |t| - 1;
      assert (s + t)[..|s + t| - 1] == s + t[..n];
      WithoutJoin(s, t[..n], done);
    }
  }

  lemma {:induction false} DistinctAlready(s: seq<string>)
    requires NoDup(s)
    ensures Distinct(s) == s
    decreases |s|
  {
    if s == [] {
    } else {
      var n := |s| - 1;
      assert s == s[..n] + [s[n]];
      NoDupSnoc(s[..n], s[n]);
      DistinctAlready(s[..n]);
    }
  }

  /** The query alone, unless it was run. */
  function Still(wanted: bool, q: string, completed: seq<string>): seq<string> {
    if wanted && q !in completed then [q] else []
  }

  lemma WantedInOrder(p: Phrases, f: Filters, known: nat, iteration: nat)
    requires p.official != "" && p.recent != "" && p.official != p.recent
    ensures Queries(p, f, known, iteration) == Wanted(p, f, known, iteration)
  {
    var base := Base(p, f);
    assert base + p.official != base && base + p.recent != base;
    assert (base + p.official)[|base|..] == p.official && (base + p.recent)[|base|..] == p.recent;
    DistinctAlready(Wanted(p, f, known, iteration));
  }

  lemma WithoutOne(wanted: bool, q: string, completed: seq<string>)
    ensures Without(if wanted then [q] else [], completed) == Still(wanted, q, completed)
  {
    if wanted { assert [q][..0] == []; }
  }

  /** The plain query comes first, then the official page, then what is recent. */
  lemma PlannedInOrder(p: Phrases, f: Filters, cached: nat, iteration: nat, completed: seq<string>)
    requires p.official != "" && p.recent != "" && p.official != p.recent && cached < 3
    ensures PlannedQueries(p, f, cached, iteration, completed) ==
            Still(true, Base(p, f), completed)
            + Still(cached == 0 || f.certificate, Base(p, f) + p.official, completed)
            + Still(iteration > 0, Base(p, f) + p.recent, completed)
  {
    var base := Base(p, f);
    var first := if true then [base] else [];
    var official := if cached == 0 || f.certificate then [base + p.official] else [];
    var recent := if iteration > 0 then [base + p.recent] else [];
    WantedInOrder(p, f, cached, iteration);
    assert Wanted(p, f, cached, iteration) == first + official + recent;
    WithoutJoin(first + official, recent, completed);
    WithoutJoin(first, official, completed);
    WithoutOne(true, base, completed);
    WithoutOne(cached == 0 || f.certificate, base + p.official, completed);
    WithoutOne(iteration > 0, base + p.recent, completed);
  }

  lemma WordSaid(before: string, wished: bool, word: string, behind: string)
    ensures wished ==> Includes(before + Word(wished, word) + behind, word)
  {
    if wished { assert before + (" " + word) + behind == (before + " ") + word + behind; }
  }

  lemma Regroup(a: string, b: string, c: string, d: string, e: string)
    ensures a + b + c + d + e == a + b + (c + d + e) == (a + b) + c + (d + e)
  {
  }

  /** For each wish, every planned query that is not about missing evidence has its word. */
  lemma WishesAreSaid(p: Phrases, f: Filters, tail: string)
    ensures f.level != p.anyLevel ==> Includes(Base(p, f) + tail, f.level)
    ensures f.maxPrice == 0.0 ==> Includes(Base(p, f) + tail, p.free)
    ensures f.certificate ==> Includes(Base(p, f) + tail, p.certificate)
  {
    BaseSays(p, f);
    var head := (if Strip(f.topic) == "" then p.anyTopic else Strip(f.topic)) + " " + p.course;
    var level := Word(f.level != p.anyLevel, f.level);
    var free, certificate := Word(f.maxPrice == 0.0, p.free), Word(f.certificate, p.certificate);
    WordSaid(head, f.level != p.anyLevel, f.level, free + certificate + tail);
    WordSaid(head + level, f.maxPrice == 0.0, p.free, certificate + tail);
    WordSaid(head + level + free, f.certificate, p.certificate, tail);
    Regroup(head, level, free, certificate, tail);
  }

  /** In words: what is searched for a request with a topic. */
  lemma QueryInWords(f: Filters)
    requires Strip(f.topic) != "" && f.level != "any" && f.maxPrice == 0.0 && f.certificate
    ensures Base(PHRASES, f) ==
            Strip(f.topic) + " " + "course" + (" " + f.level) + (" " + "free") + (" " + "certificate")
    ensures Base(PHRASES, f) + PHRASES.official == Base(PHRASES, f) + " official course page"
    ensures Base(PHRASES, f) + PHRASES.recent == Base(PHRASES, f) + " updated recent"
    ensures Base(PHRASES, f) + PHRASES.evidence == Base(PHRASES, f) + " course evidence"
  {
    BaseSays(PHRASES, f);
  }

  /** Without a topic and without wishes the only words left say "course" twice. */
  lemma BlankTopic(f: Filters)
    requires Strip(f.topic) == "" && f.level == PHRASES.anyLevel && f.maxPrice != 0.0 && !f.certificate
    ensures Base(PHRASES, f) == "online course course"
  {
    assert Terms(PHRASES, f) == ["online course", "course"];
    assert ["online course", "course"][1..] == ["course"];
  }

  /** A plan that may be dispatched: short, free of duplicates and of queries already run, and no query is empty. */
  ghost predicate FreshPlan(plan: seq<string>, completed: seq<string>) {
    |plan| <= MAX_QUERIES && NoDup(plan) && (forall q :: q in plan ==> q !in completed && q != "")
  }

  lemma PlannedIsFresh(p: Phrases, f: Filters, cached: nat, iteration: nat, completed: seq<string>)
    ensures FreshPlan(PlannedQueries(p, f, cached, iteration, completed), completed)
  {
    var wanted := Wanted(p, f, cached, iteration);
    var few := Queries(p, f, cached, iteration);
    forall q | q in few ensures q != "" {
      assert q in Distinct(wanted);
    }
  }

  lemma GapIsFresh(p: Phrases, f: Filters, valid: nat, iteration: nat, missing: set<string>, completed: seq<string>)
    ensures FreshPlan(GapQueries(p, f, valid, iteration, missing, completed), completed)
  {
    var base := Queries(p, f, valid, iteration);
    forall q | q in base ensures q != "" {
      assert q in Distinct(Wanted(p, f, valid, iteration));
    }
    var last := MissingQuery(p, f, missing);
    assert |last| >= 1;
    var wanted := if missing == {} then base else base + [last];
    var left := Without(Distinct(wanted), completed);
    forall q | q in FirstFew(left) ensures q !in completed && q != "" {
      assert q in left && q in wanted;
    }
  }

  /** Running a fresh plan keeps the ledger free of duplicates. */
  lemma {:induction false} LedgerGrows(completed: seq<string>, plan: seq<string>)
    requires NoDup(completed) && NoDup(plan) && forall q :: q in plan ==> q !in completed
    ensures NoDup(completed + plan)
    decreases |plan|
  {
    if plan == [] {
      assert completed + plan == completed;
    } else {
      var n := |plan| - 1;
      assert plan == plan[..n] + [plan[n]];
      NoDupSnoc(plan[..n], plan[n]);
      LedgerGrows(completed, plan[..n]);
      NoDupSnoc(completed + plan[..n], plan[n]);
      assert completed + plan == completed + plan[..n] + [plan[n]];
    }
  }
}
