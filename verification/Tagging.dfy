/**
 * The tagging job (course_discovery/jobs/tagging_graph.py, course_discovery/jobs/tagging.py,
 * migrations/013_course_tagging.sql).
 */
module Tagging {
  import opened Text

  datatype Outcome = Tagged | Withheld

  /** The MD5 digest of a text, taken to be injective. */
  datatype Hash = Hash(text: string)

  /** A row of `courses`, as far as tagging is concerned; a missing description is the empty one. */
  datatype Row = Row(
    url: string, title: string, description: string, topics: seq<string>, taggedHash: Option<Hash>,
        outcome: Option<Outcome>)

  type Rows = map<nat, Row>

  function HashOf(title: string, description: string): Hash { Hash(title + "\n" + description) }

  function ContentHash(r: Row): Hash { HashOf(r.title, r.description) }

  /** The tagger, a function of the text, and the vocabulary its answers are filtered by. */
  datatype Tagger = Tagger(tag: (string, string) -> seq<string>, vocabulary: set<string>)

  function Allowed(topics: seq<string>, vocabulary: set<string>): (r: seq<string>)
    ensures NoDup(r) && forall t :: t in r <==> t in topics && t in vocabulary
    decreases |topics|
  {
    if topics == [] then []
    else
      var n := |topics| - 1;
      var rest := Allowed(topics[..n], vocabulary);
      assert topics == topics[..n] + [topics[n]];
      NoDupSnoc(rest, topics[n]);
      if topics[n] !in vocabulary || topics[n] in rest then rest else rest + [topics[n]]
  }

  function FirstAt(topics: seq<string>, x: string): (i: nat)
    requires x in topics
    ensures i < |topics| && topics[i] == x && x !in topics[..i]
  {
    if topics[0] == x then 0
    else
      assert x in topics[1..];
      var i := FirstAt(topics[1..], x);
      assert topics[..i + 1] == [topics[0]] + topics[1..][..i];
      i + 1
  }

  /** The allowed tags come in the order in which the tagger first names them. */
  lemma {:induction false} AllowedInOrder(topics: seq<string>, vocabulary: set<string>, i: nat, j: nat)
    requires i < j < |Allowed(topics, vocabulary)|
    ensures var r := Allowed(topics, vocabulary);
            r[i] in topics && r[j] in topics && FirstAt(topics, r[i]) < FirstAt(topics, r[j])
    decreases |topics|
  {
    var n := |topics| - 1;
    var rest, r := Allowed(topics[..n], vocabulary), Allowed(topics, vocabulary);
    assert topics == topics[..n] + [topics[n]];
    assert r[i] in r && r[j] in r && r[i] == rest[i] && rest[i] in rest;
    FirstStays(topics, r[i]);
    if j < |rest| {
      AllowedInOrder(topics[..n], vocabulary, i, j);
      FirstStays(topics, r[j]);
    } else {
      assert r[j] == topics[n] && r[j] !in topics[..n];
    }
  }

  lemma FirstStays(topics: seq<string>, x: string)
    requires topics != [] && x in topics[..|topics| - 1]
    ensures x in topics && FirstAt(topics, x) == FirstAt(topics[..|topics| - 1], x)
  {
    var n := |topics| - 1;
    assert topics == topics[..n] + [topics[n]];
    var j := FirstAt(topics[..n], x);
    forall k | 0 <= k < j ensures topics[k] != x { assert topics[..n][..j][k] == topics[k]; }
    FirstIs(topics, x, j);
  }

  lemma {:induction false} FirstIs(topics: seq<string>, x: string, i: nat)
    requires i < |topics| && topics[i] == x && forall k :: 0 <= k < i ==> topics[k] != x
    ensures x in topics && FirstAt(topics, x) == i
  {
    if i == 0 {
    } else {
      FirstIs(topics[1..], x, i - 1);
    }
  }

  /** What tag_text computes: the allowed tags, each once, in the tagger's order. */
  function Topics(t: Tagger, title: string, description: string): seq<string> {
    Allowed(t.tag(title, description), t.vocabulary)
  }

  // ----- scheduling -----

  /** tagging_key: the URL's hash (taken to be injective) and the content hash. */
  datatype Key = Key(url: string, hash: Hash)

  datatype Payload = Payload(course: nat, hash: Hash)

  /** An effect waits for a handler, or is in its hands, until it is delivered or dead. */
  datatype Status = Pending | Delivered | Dead

  datatype Entry = Entry(payload: Payload, status: Status)

  type Outbox = map<Key, Entry>

  predicate Eligible(r: Row) {
    (r.topics == [] && r.taggedHash.None?) || (r.taggedHash.Some? && r.taggedHash.value != ContentHash(r))
  }

  function KeyFor(r: Row): Key { Key(r.url, ContentHash(r)) }

  function Submitted(outbox: Outbox, key: Key, payload: Payload): Outbox {
    if key in outbox then outbox else outbox[key := Entry(payload, Pending)]
  }

  predicate HasPrefix(url: string, prefix: string) { |prefix| <= |url| && url[..|prefix|] == prefix }

  function EligibleIds(rows: Rows, prefix: string): set<nat> {
    set i | i in rows && Eligible(rows[i]) && HasPrefix(rows[i].url, prefix)
  }

  /** ORDER BY id LIMIT limit; a limit of zero is no limit. */
  function SelectedIds(rows: Rows, prefix: string, limit: nat): (r: seq<nat>)
    ensures forall i :: i in r ==> i in rows && Eligible(rows[i])
  {
    var ids := SortedIds(EligibleIds(rows, prefix));
    assert forall i :: i in ids ==> i in EligibleIds(rows, prefix);
    if limit == 0 || |ids| <= limit then ids
    else
      assert forall i :: i in ids[..limit] ==> i in ids;
      ids[..limit]
  }

  function SubmittedAll(outbox: Outbox, rows: Rows, ids: seq<nat>): Outbox
    requires forall i :: i in ids ==> i in rows
    decreases |ids|
  {
    if ids == [] then outbox
    else
      var n := |ids| - 1;
      assert ids == ids[..n] + [ids[n]];
      Submitted(SubmittedAll(outbox, rows, ids[..n]), KeyFor(rows[ids[n]]), Payload(ids[n], ContentHash(rows[ids[n]])))
  }

  function Scheduled(outbox: Outbox, rows: Rows, prefix: string, limit: nat): Outbox {
    SubmittedAll(outbox, rows, SelectedIds(rows, prefix, limit))
  }

  // ----- a handler -----

  datatype Action = Pass | Review | Block

  datatype Place = Load | Screen | TagText | WriteTopics | Withhold | Done

  /** A run of the tagging graph for one effect. */
  datatype Job = Job(
    key: Key, place: Place, course: nat, hash: Hash, title: string, description: string, topics: seq<string>)

  function NewJob(key: Key, p: Payload): Job { Job(key, Load, p.course, p.hash, "", "", []) }

  /** _record: the row changes only while it still has the hash that the job was given. */
  function Recorded(rows: Rows, course: nat, hash: Hash, outcome: Outcome, topics: Option<seq<string>>): Rows {
    if course in rows && ContentHash(rows[course]) == hash then
      var r := rows[course];
      rows[course := r.(topics := topics.GetOr(r.topics), taggedHash := Some(hash), outcome := Some(outcome))]
    else rows
  }

  /** One node of the graph; `action` is what the injection screen says. */
  function Stepped(t: Tagger, rows: Rows, j: Job, action: Action): (Rows, Job) {
    match j.place
    case Load =>
      if j.course !in rows || ContentHash(rows[j.course]) != j.hash then (rows, j.(place := Done))
      else (rows, j.(title := rows[j.course].title, description := rows[j.course].description, place := Screen))
    case Screen => (rows, j.(place := if action.Pass? then TagText else Withhold))
    case TagText => (rows, j.(topics := Topics(t, j.title, j.description), place := WriteTopics))
    case WriteTopics => (Recorded(rows, j.course, j.hash, Tagged, Some(j.topics)), j.(place := Done))
    case Withhold => (Recorded(rows, j.course, j.hash, Withheld, None), j.(place := Done))
    case Done => (rows, j)
  }

  // ----- runs -----

  datatype World = World(rows: Rows, outbox: Outbox, jobs: map<nat, Job>)

  datatype Event =
    | Insert(course: nat, url: string, title: string, description: string)
    | Edit(course: nat, title: string, description: string)
    | Schedule(prefix: string, limit: nat)
    | Start(job: nat, key: Key)
    | Step(job: nat, action: Action)
    | Settle(job: nat, status: Status)
    | Abandon(job: nat)
    | Requeue(key: Key)
    | Prune(key: Key)

  /** URLs are unique. Only pending effects are handled, and a handler is delivered once it is done. */
  ghost predicate Enabled(w: World, e: Event) {
    match e
    case Insert(course, url, _, _) => course !in w.rows && forall i :: i in w.rows ==> w.rows[i].url != url
    case Edit(course, _, _) => course in w.rows
    case Schedule(_, _) => true
    case Start(job, key) => job !in w.jobs && key in w.outbox && w.outbox[key].status.Pending?
    case Step(job, _) => job in w.jobs
    case Settle(job, status) => job in w.jobs && (status.Delivered? ==> w.jobs[job].place.Done?)
    case Abandon(job) => job in w.jobs
    case Requeue(key) => key in w.outbox && w.outbox[key].status.Dead?
    case Prune(key) => key in w.outbox && w.outbox[key].status.Delivered?
  }

  function WithStatus(outbox: Outbox, key: Key, status: Status): Outbox {
    if key in outbox then outbox[key := outbox[key].(status := status)] else outbox
  }

  /** A settle does not ask who holds the effect: it goes through whatever the status is by then. */
  function After(t: Tagger, w: World, e: Event): World {
    match e
    case Insert(course, url, title, description) =>
      w.(rows := w.rows[course := Row(url, title, description, [], None, None)])
    case Edit(course, title, description) =>
      if course in w.rows then
        w.(rows := w.rows[course := w.rows[course].(title := title, description := description)])
      else w
    case Schedule(prefix, limit) => w.(outbox := Scheduled(w.outbox, w.rows, prefix, limit))
    case Start(job, key) =>
      if key in w.outbox then w.(jobs := w.jobs[job := NewJob(key, w.outbox[key].payload)]) else w
    case Step(job, action) =>
      if job in w.jobs then
        var (rows, j) := Stepped(t, w.rows, w.jobs[job], action);
        w.(rows := rows, jobs := w.jobs[job := j])
      else w
    case Settle(job, status) =>
      if job in w.jobs then
        w.(outbox := WithStatus(w.outbox, w.jobs[job].key, status), jobs := w.jobs - {job})
      else w
    case Abandon(job) => w.(jobs := w.jobs - {job})
    case Requeue(key) => w.(outbox := WithStatus(w.outbox, key, Pending))
    case Prune(key) => w.(outbox := w.outbox - {key})
  }

  ghost predicate Moves(t: Tagger, w: World, e: Event, next: World) {
    Enabled(w, e) && next == After(t, w, e)
  }

  const EMPTY := World(map[], map[], map[])

  ghost predicate IsRunFrom(t: Tagger, w: World, ws: seq<World>, es: seq<Event>) {
    |ws| == |es| + 1 && ws[0] == w && forall k :: 0 <= k < |es| ==> Moves(t, ws[k], es[k], ws[k + 1])
  }

  ghost predicate IsRun(t: Tagger, ws: seq<World>, es: seq<Event>) {
    IsRunFrom(t, EMPTY, ws, es)
  }

  ghost predicate Reachable(t: Tagger, w: World) {
    exists ws, es :: IsRun(t, ws, es) && ws[|es|] == w
  }

  lemma ReachStart(t: Tagger)
    ensures Reachable(t, EMPTY)
  {
    var es: seq<Event> := [];
    assert IsRun(t, [EMPTY], es) && [EMPTY][|es|] == EMPTY;
  }

  lemma ReachStep(t: Tagger, w: World, e: Event)
    requires Reachable(t, w) && Enabled(w, e)
    ensures Reachable(t, After(t, w, e))
  {
    var ws, es :| IsRun(t, ws, es) && ws[|es|] == w;
    var next := After(t, w, e);
    var ws', es' := ws + [next], es + [e];
    forall k | 0 <= k < |es'| ensures Moves(t, ws'[k], es'[k], ws'[k + 1]) {
      if k < |es| { assert Moves(t, ws[k], es[k], ws[k + 1]); }
    }
    assert IsRun(t, ws', es') && ws'[|es'|] == next;
  }

  // ----- agreement -----

  predicate OneLine(title: string) { '\n' !in title }

  /** The topics are those of some title and description with that hash; `plain` asks for titles of one line. */
  ghost predicate TopicsOfHash(t: Tagger, topics: seq<string>, h: Hash, plain: bool) {
    exists title, description ::
      HashOf(title, description) == h && topics == Topics(t, title, description) && (plain ==> OneLine(title))
  }

  ghost predicate RowOk(t: Tagger, r: Row, plain: bool) {
    (r.outcome == Some(Tagged) ==> r.taggedHash.Some? && TopicsOfHash(t, r.topics, r.taggedHash.value, plain))
    && (r.outcome.Some? <==> r.taggedHash.Some?)
    && (plain ==> OneLine(r.title))
  }

  predicate Loaded(p: Place) { p.Screen? || p.TagText? || p.WriteTopics? || p.Withhold? }

  /** A job past loading holds a text with its hash, and topics of that text once it has tagged. */
  ghost predicate JobOk(t: Tagger, j: Job, plain: bool) {
    (Loaded(j.place) ==> HashOf(j.title, j.description) == j.hash && (plain ==> OneLine(j.title)))
    && (j.place.WriteTopics? ==> j.topics == Topics(t, j.title, j.description))
  }

  ghost predicate Inv(t: Tagger, w: World, plain: bool) {
    (forall i :: i in w.rows ==> RowOk(t, w.rows[i], plain)) && (forall k :: k in w.jobs ==> JobOk(t, w.jobs[k], plain))
  }

  /** The event gives no course a title of several lines. */
  predicate PlainTitle(e: Event) {
    match e
    case Insert(_, _, title, _) => OneLine(title)
    case Edit(_, title, _) => OneLine(title)
    case _ => true
  }

  predicate AllPlain(es: seq<Event>) {
    forall k :: 0 <= k < |es| ==> PlainTitle(es[k])
  }

  lemma JobSteps(t: Tagger, rows: Rows, j: Job, action: Action, i: nat, plain: bool)
    requires JobOk(t, j, plain) && (i in rows ==> RowOk(t, rows[i], plain))
             && (j.course in rows ==> RowOk(t, rows[j.course], plain))
    ensures var (next, k) := Stepped(t, rows, j, action);
            JobOk(t, k, plain) && (i in next <==> i in rows) && (i in next ==> RowOk(t, next[i], plain))
  {
    if j.place.WriteTopics? {
      assert TopicsOfHash(t, j.topics, j.hash, plain);
    }
  }

  lemma StepKeeps(t: Tagger, w: World, e: Event, plain: bool)
    requires Inv(t, w, plain) && Enabled(w, e) && (plain ==> PlainTitle(e))
    ensures Inv(t, After(t, w, e), plain)
  {
    if e.Step? {
      var next := After(t, w, e);
      forall i | i in next.rows ensures RowOk(t, next.rows[i],
          plain) { JobSteps(t, w.rows, w.jobs[e.job], e.action, i, plain); }
      forall k | k in next.jobs ensures JobOk(t, next.jobs[k],
          plain) { JobSteps(t, w.rows, w.jobs[e.job], e.action, 0, plain); }
    }
  }

  lemma {:induction false} RunKeeps(t: Tagger, ws: seq<World>, es: seq<Event>, k: nat, plain: bool)
    requires IsRun(t, ws, es) && k < |ws| && (plain ==> AllPlain(es))
    ensures Inv(t, ws[k], plain)
  {
    if k == 0 {
    } else {
      RunKeeps(t, ws, es, k - 1, plain);
      assert Moves(t, ws[k - 1], es[k - 1], ws[k]);
      StepKeeps(t, ws[k - 1], es[k - 1], plain);
    }
  }

  /** A row that is tagged for the text it has now. */
  predicate UpToDate(r: Row) {
    r.outcome == Some(Tagged) && r.taggedHash == Some(ContentHash(r))
  }

  lemma {:induction false} FirstNewline(a: string, b: string, c: string, d: string)
    requires a + "\n" + b == c + "\n" + d && OneLine(a) && OneLine(c)
    ensures a == c && b == d
    decreases |a|
  {
    var s := a + "\n" + b;
    assert s == c + "\n" + d;
    if a != "" { assert s[0] == a[0]; assert a[0] in a; } else { assert s[0] == '\n'; }
    if c != "" { assert s[0] == c[0]; assert c[0] in c; }
    if a == "" {
      assert b == s[1..] && d == s[1..];
    } else {
      assert a[1..] + "\n" + b == s[1..] == c[1..] + "\n" + d;
      FirstNewline(a[1..], b, c[1..], d);
      assert a == [a[0]] + a[1..] && c == [c[0]] + c[1..];
    }
  }

  /** In every run, an up-to-date row has the topics of a text that joins to the same lines as its own. */
  lemma TopicsFitTheHash(t: Tagger, ws: seq<World>, es: seq<Event>, k: nat, i: nat)
    requires IsRun(t, ws, es) && k < |ws| && i in ws[k].rows && UpToDate(ws[k].rows[i])
    ensures TopicsOfHash(t, ws[k].rows[i].topics, ContentHash(ws[k].rows[i]), false)
  {
    RunKeeps(t, ws, es, k, false);
    assert RowOk(t, ws[k].rows[i], false);
  }

  /** With titles of one line, an up-to-date row has exactly the topics of its own title and description. */
  lemma TopicsAgree(t: Tagger, ws: seq<World>, es: seq<Event>, k: nat, i: nat)
    requires IsRun(t, ws, es) && k < |ws| && i in ws[k].rows && UpToDate(ws[k].rows[i])
    requires AllPlain(es)
    ensures ws[k].rows[i].topics == Topics(t, ws[k].rows[i].title, ws[k].rows[i].description)
  {
    RunKeeps(t, ws, es, k, true);
    var r := ws[k].rows[i];
    assert RowOk(t, r, true);
    var title, description :| HashOf(title, description) == ContentHash(r) && r.topics == Topics(t, title, description)
        && OneLine(title);
    FirstNewline(title, description, r.title, r.description);
  }

  /** A job whose course has other text by now, or is gone, changes no row. */
  lemma StaleChangesNothing(t: Tagger, rows: Rows, j: Job, action: Action)
    requires j.course !in rows || ContentHash(rows[j.course]) != j.hash
    ensures Stepped(t, rows, j, action).0 == rows
  {
  }

  // ----- an undisturbed handler -----

  function Handled(t: Tagger, rows: Rows, p: Payload, action: Action): Rows {
    if p.course !in rows || ContentHash(rows[p.course]) != p.hash then rows
    else if action.Pass? then
      Recorded(rows, p.course, p.hash, Tagged, Some(Topics(t, rows[p.course].title, rows[p.course].description)))
    else Recorded(rows, p.course, p.hash, Withheld, None)
  }

  function StepTimes(t: Tagger, rows: Rows, j: Job, action: Action, n: nat): (Rows, Job)
    decreases n
  {
    if n == 0 then (rows, j)
    else
      var (next, k) := Stepped(t, rows, j, action);
      StepTimes(t, next, k, action, n - 1)
  }

  /** Four steps of the graph, uninterrupted, are one handled effect. */
  lemma HandlerIsFourSteps(t: Tagger, rows: Rows, key: Key, p: Payload, action: Action)
    ensures StepTimes(t, rows, NewJob(key, p), action, 4).0 == Handled(t, rows, p, action)
    ensures StepTimes(t, rows, NewJob(key, p), action, 4).1.place.Done?
  {
    var (r1, j1) := Stepped(t, rows, NewJob(key, p), action);
    var (r2, j2) := Stepped(t, r1, j1, action);
    var (r3, j3) := Stepped(t, r2, j2, action);
    assert StepTimes(t, rows, NewJob(key, p), action, 4) == StepTimes(t, r1, j1, action, 3) ==
           StepTimes(t, r2, j2, action, 2)
      == StepTimes(t, r3, j3, action, 1);
    assert StepTimes(t, r3, j3, action, 1) ==
           StepTimes(t, Stepped(t, r3, j3, action).0, Stepped(t, r3, j3, action).1, action, 0);
  }

  /**
   * A fresh effect settles its row: tagged as its text says, or withheld with its topics kept; either way not eligible
   * again.
   */
  lemma HandledIsSettled(t: Tagger, rows: Rows, i: nat, action: Action)
    requires i in rows
    ensures var r, next := rows[i], Handled(t, rows, Payload(i, ContentHash(rows[i])), action);
            next.Keys == rows.Keys && !Eligible(next[i]) && next[i].title == r.title
                && next[i].description == r.description
            && (if action.Pass? then UpToDate(next[i]) && next[i].topics == Topics(t, r.title, r.description)
                else next[i].outcome == Some(Withheld) && next[i].topics == r.topics)
            && forall k :: k in rows && k != i ==> next[k] == rows[k]
  {
  }

  // ----- scheduling -----

  lemma {:induction false} SubmittedKeys(outbox: Outbox, rows: Rows, ids: seq<nat>, key: Key)
    requires forall i :: i in ids ==> i in rows
    ensures key in outbox ==>
            key in SubmittedAll(outbox, rows, ids)
            && SubmittedAll(outbox, rows, ids)[key] == outbox[key]
    ensures key in SubmittedAll(outbox, rows, ids) <==> key in outbox || exists i :: i in ids && KeyFor(rows[i]) == key
    decreases |ids|
  {
    if ids == [] {
    } else {
      var n := |ids| - 1;
      assert ids == ids[..n] + [ids[n]];
      SubmittedKeys(outbox, rows, ids[..n], key);
      assert ids[n] in ids;
    }
  }

  lemma SubmittedNext(outbox: Outbox, rows: Rows, ids: seq<nat>, n: nat)
    requires n < |ids| && forall i :: i in ids ==> i in rows
    ensures ids[n] in rows
    ensures SubmittedAll(outbox, rows, ids[..n + 1])
            == Submitted(SubmittedAll(outbox, rows, ids[..n]), KeyFor(rows[ids[n]]),
                Payload(ids[n], ContentHash(rows[ids[n]])))
  {
    assert ids[n] in ids;
    assert ids[..n + 1][..n] == ids[..n];
  }

  /**
   * Scheduling submits an effect for the current text of every selected row, and never touches one submitted before.
   */
  lemma ScheduleSubmits(outbox: Outbox, rows: Rows, prefix: string, limit: nat, key: Key)
    ensures key in outbox ==>
            key in Scheduled(outbox, rows, prefix, limit)
            && Scheduled(outbox, rows, prefix, limit)[key] == outbox[key]
    ensures key in Scheduled(outbox, rows, prefix, limit) <==>
              key in outbox || exists i :: i in SelectedIds(rows, prefix, limit) && KeyFor(rows[i]) == key
  {
    SubmittedKeys(outbox, rows, SelectedIds(rows, prefix, limit), key);
  }

  // ----- which rows are selected -----

  /** Never tagged and without topics, or tagged for another text; and its URL begins with the prefix. */
  ghost predicate Wants(r: Row, prefix: string) {
    ((r.taggedHash.None? && r.topics == [])
     || (r.taggedHash.Some? && r.taggedHash != Some(Hash(r.title + "\n" + r.description))))
    && Begins(r.url, prefix)
  }

  /** The rows of smaller id that want tagging too. */
  ghost function Earlier(rows: Rows, prefix: string, i: nat): set<nat> {
    set j | j in rows && j < i && Wants(rows[j], prefix)
  }

  lemma WantsIs(r: Row, prefix: string)
    ensures Wants(r, prefix) <==> Eligible(r) && HasPrefix(r.url, prefix)
  {
    if HasPrefix(r.url, prefix) { assert r.url == prefix + r.url[|prefix|..]; }
    if Begins(r.url, prefix) {
      var rest :| r.url == prefix + rest;
      assert r.url[..|prefix|] == prefix;
    }
  }

  function Below(all: set<nat>, i: nat): set<nat> {
    set j | j in all && j < i
  }

  lemma {:induction false} RankOf(ids: seq<nat>, all: set<nat>, n: nat)
    requires (forall i, j :: 0 <= i < j < |ids| ==> ids[i] < ids[j]) && (forall x :: x in ids <==> x in all)
    requires n < |ids|
    ensures |Below(all, ids[n])| == n
  {
    var before := Below(all, ids[n]);
    forall x ensures x in before <==> x in Elements(ids[..n]) {
      if x in before {
        var k :| 0 <= k < |ids| && ids[k] == x;
        assert ids[..n][k] == x;
      }
      if x in ids[..n] {
        var k :| 0 <= k < n && ids[..n][k] == x;
        assert ids[k] == x && x in all;
      }
    }
    assert before == Elements(ids[..n]);
    NoDupSize(ids[..n]);
  }

  lemma TakenIs(ids: seq<nat>, limit: nat, n: nat)
    requires (forall i, j :: 0 <= i < j < |ids| ==> ids[i] < ids[j]) && n < |ids|
    ensures ids[n] in (if limit == 0 || |ids| <= limit then ids else ids[..limit]) <==> limit == 0 || n < limit
  {
    if limit != 0 && limit < |ids| && n < limit { assert ids[..limit][n] == ids[n]; }
  }

  lemma EligibleAre(rows: Rows, prefix: string, i: nat)
    ensures i in EligibleIds(rows, prefix) <==> i in rows && Wants(rows[i], prefix)
    ensures Earlier(rows, prefix, i) == Below(EligibleIds(rows, prefix), i)
  {
    var before := Below(EligibleIds(rows, prefix), i);
    if i in rows { WantsIs(rows[i], prefix); }
    forall j ensures j in Earlier(rows, prefix, i) <==> j in before {
      if j in rows { WantsIs(rows[j], prefix); }
    }
  }

  lemma SelectedAreEligible(rows: Rows, prefix: string, limit: nat, i: nat)
    ensures i in SelectedIds(rows, prefix, limit) ==> i in EligibleIds(rows, prefix)
  {
    var ids := SortedIds(EligibleIds(rows, prefix));
    if i in SelectedIds(rows, prefix, limit) { assert i in ids; }
  }

  /** ORDER BY id LIMIT limit: a row is taken exactly if it wants tagging and fewer than `limit` such rows precede. */
  lemma SelectionIs(rows: Rows, prefix: string, limit: nat, i: nat)
    ensures i in SelectedIds(rows, prefix, limit) <==>
              i in rows && Wants(rows[i], prefix) && (limit == 0 || |Earlier(rows, prefix, i)| < limit)
  {
    var all := EligibleIds(rows, prefix);
    EligibleAre(rows, prefix, i);
    SelectedAreEligible(rows, prefix, limit, i);
    if i in all {
      var n :| 0 <= n < |SortedIds(all)| && SortedIds(all)[n] == i;
      RankOf(SortedIds(all), all, n);
      TakenIs(SortedIds(all), limit, n);
    }
  }

  /** What a scheduling job submits: an effect for each row that wants tagging, up to the limit, lowest ids first. */
  lemma SchedulesExactly(outbox: Outbox, rows: Rows, prefix: string, limit: nat, key: Key)
    ensures key in Scheduled(outbox, rows, prefix, limit) <==>
              key in outbox
              || exists i :: i in rows && Wants(rows[i], prefix)
                   && (limit == 0 || |Earlier(rows, prefix, i)| < limit)
                   && key == Key(rows[i].url, Hash(rows[i].title + "\n" + rows[i].description))
  {
    ScheduleSubmits(outbox, rows, prefix, limit, key);
    forall i ensures i in SelectedIds(rows, prefix, limit) <==>
                       i in rows && Wants(rows[i], prefix) && (limit == 0 || |Earlier(rows, prefix, i)| < limit)
    {
      SelectionIs(rows, prefix, limit, i);
    }
  }

  class TaggingJob {
    var rows: Rows
    var outbox: Outbox

    constructor ()
      ensures rows == map[] && outbox == map[]
    {
      rows, outbox := map[], map[];
    }

    method ScheduleTagging(prefix: string, limit: nat) returns (count: nat)
      modifies this`outbox
      ensures outbox == Scheduled(old(outbox), rows, prefix, limit)
      ensures count == |SelectedIds(rows, prefix, limit)|
    {
      var ids := SelectedIds(rows, prefix, limit);
      for n := 0 to |ids|
        invariant outbox == SubmittedAll(old(outbox), rows, ids[..n])
      {
        SubmittedNext(old(outbox), rows, ids, n);
        outbox := Submitted(outbox, KeyFor(rows[ids[n]]), Payload(ids[n], ContentHash(rows[ids[n]])));
      }
      assert ids[..|ids|] == ids;
      count := |ids|;
    }

    method Record(course: nat, hash: Hash, outcome: Outcome, topics: Option<seq<string>>)
      modifies this`rows
      ensures rows == Recorded(old(rows), course, hash, outcome, topics)
    {
      if course in rows && ContentHash(rows[course]) == hash {
        var r := rows[course];
        rows := rows[course := r.(topics := topics.GetOr(r.topics), taggedHash := Some(hash),
            outcome := Some(outcome))];
      }
    }

    method Handle(t: Tagger, p: Payload, action: Action)
      modifies this`rows
      ensures rows == Handled(t, old(rows), p, action)
    {
      if p.course !in rows || ContentHash(rows[p.course]) != p.hash { return; }
      var title, description := rows[p.course].title, rows[p.course].description;
      if action.Pass? {
        var topics := Topics(t, title, description);
        Record(p.course, p.hash, Tagged, Some(topics));
      } else {
        Record(p.course, p.hash, Withheld, None);
      }
    }
  }
}
