/**
 * User profiles under patches (course_discovery/research_agent/memory/repository.py:72-90) and the fold of a curator
 * session's proposals into one patch (course_discovery/memory_curator/tools.py:122-135).
 */
module Profile {
  import opened Text
  import opened Memory

  datatype ListField = PreferredProviders | AvoidedProviders | PreferredLanguages | CareerGoals | CompletedCourseUrls
      | RejectedCourseUrls

  datatype ScalarField = BudgetPreference | CertificateImportance | PreferredLevel | PreferredCourseLength
      | LearningStyleNotes

  const LIST_FIELDS := [PreferredProviders, AvoidedProviders, PreferredLanguages, CareerGoals, CompletedCourseUrls,
      RejectedCourseUrls]

  datatype Note = Note(text: string, scope: string)

  type Lists = map<ListField, seq<string>>
  type Scalars = map<ScalarField, Option<string>>

  datatype UserMemory = UserMemory(scalars: Scalars, lists: Lists, notes: seq<Note>)

  datatype Patch = Patch(values: Scalars, add: Lists, remove: Lists, notes: seq<Note>)

  predicate Complete(m: UserMemory) { forall f: ListField :: f in m.lists }

  function Get(lists: Lists, f: ListField): seq<string> { if f in lists then lists[f] else [] }

  // ----- apply_patch -----

  function FieldAfter(m: UserMemory, p: Patch, f: ListField): seq<string>
    requires f in m.lists
  {
    if f in p.add || f in p.remove then MergedUnique(m.lists[f], Get(p.add, f), Get(p.remove, f)) else m.lists[f]
  }

  function Fresh(notes: seq<Note>, known: seq<Note>): (r: seq<Note>)
    ensures forall n :: n in r <==> n in notes && n !in known
    decreases |notes|
  {
    if notes == [] then []
    else
      var n := |notes| - 1;
      assert notes == notes[..n] + [notes[n]];
      Fresh(notes[..n], known) + (if notes[n] in known then [] else [notes[n]])
  }

  function LastNotes(notes: seq<Note>): (r: seq<Note>)
    ensures |r| <= MAX_NOTES
  {
    if |notes| <= MAX_NOTES then notes else notes[|notes| - MAX_NOTES..]
  }

  function NotesAfter(notes: seq<Note>, add: seq<Note>): seq<Note> {
    if add == [] then notes else LastNotes(notes + Fresh(add, notes))
  }

  function Applied(m: UserMemory, p: Patch): UserMemory {
    UserMemory(m.scalars + p.values, map f | f in m.lists :: FieldAfter(m, p, f), NotesAfter(m.notes, p.notes))
  }

  /** A scalar is the patch's if the patch has it, and else the old one. */
  predicate ScalarsPatched(before: Scalars, values: Scalars, after: Scalars) {
    forall f: ScalarField ::
      (f in after <==> f in values || f in before)
      && (f in after ==> after[f] == (if f in values then values[f] else before[f]))
  }

  method UpdatedLists(m: UserMemory, p: Patch, fields: seq<ListField>) returns (updates: Lists)
    requires forall f :: f in fields ==> f in m.lists
    ensures forall f :: f in updates <==> f in fields && (f in p.add || f in p.remove)
    ensures forall f :: f in updates ==> f in m.lists && updates[f] == FieldAfter(m, p, f)
  {
    updates := map[];
    for i := 0 to |fields|
      invariant forall f :: f in updates <==> f in fields[..i] && (f in p.add || f in p.remove)
      invariant forall f :: f in updates ==> f in m.lists && updates[f] == FieldAfter(m, p, f)
    {
      var f := fields[i];
      if f in p.add || f in p.remove {
        var merged := MergeUnique(m.lists[f], Get(p.add, f), Get(p.remove, f));
        updates := updates[f := merged];
      }
    }
  }

  lemma ListsAre(m: UserMemory, p: Patch, updates: Lists)
    requires Complete(m)
    requires forall f :: f in updates <==> f in p.add || f in p.remove
    requires forall f :: f in updates ==> f in m.lists && updates[f] == FieldAfter(m, p, f)
    ensures m.lists + updates == Applied(m, p).lists
  {
    forall f | f in m.lists ensures (m.lists + updates)[f] == FieldAfter(m, p, f) {}
  }

  lemma ScalarsAre(m: UserMemory, p: Patch)
    ensures ScalarsPatched(m.scalars, p.values, Applied(m, p).scalars)
  {
  }

  method ApplyPatch(m: UserMemory, p: Patch) returns (r: UserMemory)
    requires Complete(m)
    ensures r == Applied(m, p)
    ensures ScalarsPatched(m.scalars, p.values, r.scalars)
  {
    AllListed();
    var updates := UpdatedLists(m, p, LIST_FIELDS);
    var notes := m.notes;
    if p.notes != [] {
      notes := LastNotes(m.notes + Fresh(p.notes, m.notes));
    }
    r := UserMemory(m.scalars + p.values, m.lists + updates, notes);
    ListsAre(m, p, updates);
    ScalarsAre(m, p);
  }

  /** A list holds what was there or is added, unless the patch removes it; without either it is the old one. */
  lemma PatchedList(m: UserMemory, p: Patch, f: ListField, x: string)
    requires f in m.lists
    ensures f in Applied(m, p).lists
    ensures x in Applied(m, p).lists[f] <==>
              (x in m.lists[f] || (f in p.add && x in p.add[f])) && !(f in p.remove && x in p.remove[f])
    ensures f !in p.add && f !in p.remove ==> Applied(m, p).lists[f] == m.lists[f]
  {
    MergedHolds(m.lists[f], Get(p.add, f), Get(p.remove, f), x);
  }

  /** The notes that are new come behind the old ones, in order, and the oldest beyond the limit go. */
  lemma PatchedNotes(m: UserMemory, p: Patch) returns (gone: nat)
    requires |m.notes| <= MAX_NOTES
    ensures var all, left := m.notes + Fresh(p.notes, m.notes), Applied(m, p).notes;
            gone <= |all| && left == all[gone..] && |left| <= 30 && (gone > 0 ==> |left| == 30)
  {
    var all := m.notes + Fresh(p.notes, m.notes);
    gone := if |all| <= MAX_NOTES then 0 else |all| - MAX_NOTES;
    if p.notes == [] { assert all == m.notes; }
  }

  lemma AllListed()
    ensures forall f: ListField :: f in LIST_FIELDS
  {
    forall f: ListField ensures f in LIST_FIELDS {
      match f
      case PreferredProviders => assert LIST_FIELDS[0] == f;
      case AvoidedProviders => assert LIST_FIELDS[1] == f;
      case PreferredLanguages => assert LIST_FIELDS[2] == f;
      case CareerGoals => assert LIST_FIELDS[3] == f;
      case CompletedCourseUrls => assert LIST_FIELDS[4] == f;
      case RejectedCourseUrls => assert LIST_FIELDS[5] == f;
    }
  }

  /** The number of notes stays within the limit, and a patch with notes brings it back there. */
  lemma NotesBounded(m: UserMemory, p: Patch)
    ensures |m.notes| <= MAX_NOTES || p.notes != [] ==> |Applied(m, p).notes| <= MAX_NOTES
  {
  }

  // ----- merge_proposals -----

  function Joined(lists: Lists, more: Lists): Lists {
    map f | f in lists.Keys + more.Keys :: Get(lists, f) + Get(more, f)
  }

  function MergedPatch(ps: seq<Patch>): Patch
    decreases |ps|
  {
    if ps == [] then Patch(map[], map[], map[], [])
    else
      var rest, p := MergedPatch(ps[..|ps| - 1]), ps[|ps| - 1];
      Patch(rest.values + p.values, Joined(rest.add, p.add), Joined(rest.remove, p.remove), rest.notes + p.notes)
  }

  /** The lists of all names but the remaining ones have been extended. */
  ghost predicate JoinedSoFar(joined: Lists, lists: Lists, more: Lists, left: set<ListField>) {
    forall f :: (f in joined <==> f in lists || (f in more && f !in left))
                && Get(joined, f) == (if f in left then Get(lists, f) else Get(lists, f) + Get(more, f))
  }

  lemma JoinOne(joined: Lists, lists: Lists, more: Lists, left: set<ListField>, f: ListField)
    requires JoinedSoFar(joined, lists, more, left) && f in left && f in more
    ensures JoinedSoFar(joined[f := Get(joined, f) + more[f]], lists, more, left - {f})
  {
  }

  lemma JoinedAll(joined: Lists, lists: Lists, more: Lists)
    requires JoinedSoFar(joined, lists, more, {})
    ensures joined == Joined(lists, more)
  {
    forall f ensures f in joined <==> f in Joined(lists, more) {}
    forall f | f in joined ensures joined[f] == Joined(lists, more)[f] { assert Get(joined, f) == joined[f]; }
  }

  method JoinLists(lists: Lists, more: Lists) returns (joined: Lists)
    ensures joined == Joined(lists, more)
  {
    joined := lists;
    var left := more.Keys;
    while left != {}
      invariant left <= more.Keys && JoinedSoFar(joined, lists, more, left)
      decreases |left|
    {
      var f :| f in left;
      JoinOne(joined, lists, more, left, f);
      joined, left := joined[f := Get(joined, f) + more[f]], left - {f};
    }
    JoinedAll(joined, lists, more);
  }

  method MergeProposals(ps: seq<Patch>) returns (merged: Patch)
    ensures merged == MergedPatch(ps)
  {
    merged := Patch(map[], map[], map[], []);
    for i := 0 to |ps|
      invariant merged == MergedPatch(ps[..i])
    {
      assert ps[..i + 1][..i] == ps[..i];
      var add := JoinLists(merged.add, ps[i].add);
      var remove := JoinLists(merged.remove, ps[i].remove);
      merged := Patch(merged.values + ps[i].values, add, remove, merged.notes + ps[i].notes);
    }
    assert ps[..|ps|] == ps;
  }

  // ----- once or one by one -----

  function AppliedAll(m: UserMemory, ps: seq<Patch>): UserMemory
    decreases |ps|
  {
    if ps == [] then m else Applied(AppliedAll(m, ps[..|ps| - 1]), ps[|ps| - 1])
  }

  /** What the patches say about one list. */
  function ChangesOf(ps: seq<Patch>, f: ListField): (r: seq<Change>)
    ensures |r| == |ps| && forall i :: 0 <= i < |r| ==> r[i] == Change(Get(ps[i].add, f), Get(ps[i].remove, f))
    decreases |ps|
  {
    if ps == [] then []
    else ChangesOf(ps[..|ps| - 1], f) + [Change(Get(ps[|ps| - 1].add, f), Get(ps[|ps| - 1].remove, f))]
  }

  lemma FieldIsMerged(m: UserMemory, p: Patch, f: ListField)
    requires f in m.lists
    ensures FieldAfter(m, p, f) == MergedUnique(m.lists[f], Get(p.add, f), Get(p.remove, f))
  {
    if f !in p.add && f !in p.remove {
      KeepAll(m.lists[f], []);
    }
  }

  lemma {:induction false} FieldOneByOne(m: UserMemory, ps: seq<Patch>, f: ListField)
    requires f in m.lists
    ensures f in AppliedAll(m, ps).lists && AppliedAll(m, ps).lists[f] == OneByOne(m.lists[f], ChangesOf(ps, f))
    decreases |ps|
  {
    if ps == [] {
    } else {
      var n := |ps| - 1;
      FieldOneByOne(m, ps[..n], f);
      FieldIsMerged(AppliedAll(m, ps[..n]), ps[n], f);
      assert ChangesOf(ps, f)[..n] == ChangesOf(ps[..n], f);
    }
  }

  lemma GetJoined(lists: Lists, more: Lists, f: ListField)
    ensures Get(Joined(lists, more), f) == Get(lists, f) + Get(more, f)
  {
  }

  lemma AddedNext(ps: seq<Patch>, f: ListField)
    requires ps != []
    ensures var n := |ps| - 1;
            Added(ChangesOf(ps, f)) == Added(ChangesOf(ps[..n], f)) + Get(ps[n].add, f)
            && Removed(ChangesOf(ps, f)) == Removed(ChangesOf(ps[..n], f)) + Get(ps[n].remove, f)
  {
    var n := |ps| - 1;
    assert ChangesOf(ps, f)[..n] == ChangesOf(ps[..n], f);
  }

  lemma {:induction false} FieldMerged(ps: seq<Patch>, f: ListField)
    ensures Get(MergedPatch(ps).add, f) == Added(ChangesOf(ps, f))
    ensures Get(MergedPatch(ps).remove, f) == Removed(ChangesOf(ps, f))
    decreases |ps|
  {
    if ps == [] {
    } else {
      var n := |ps| - 1;
      FieldMerged(ps[..n], f);
      GetJoined(MergedPatch(ps[..n]).add, ps[n].add, f);
      GetJoined(MergedPatch(ps[..n]).remove, ps[n].remove, f);
      AddedNext(ps, f);
    }
  }

  lemma MapsAssociate(a: Scalars, b: Scalars, c: Scalars)
    ensures (a + b) + c == a + (b + c)
  {
  }

  /** Scalars never depend on whether the proposals are folded. */
  lemma {:induction false} FoldOfScalars(m: UserMemory, ps: seq<Patch>)
    ensures AppliedAll(m, ps).scalars == Applied(m, MergedPatch(ps)).scalars
    decreases |ps|
  {
    if ps == [] {
    } else {
      var n := |ps| - 1;
      FoldOfScalars(m, ps[..n]);
      MapsAssociate(m.scalars, MergedPatch(ps[..n]).values, ps[n].values);
    }
  }

  /**
   * A list comes out the same, order included, exactly when no proposal revives an item that an earlier one removed.
   */
  lemma FoldOfList(m: UserMemory, ps: seq<Patch>, f: ListField)
    requires f in m.lists
    ensures f in AppliedAll(m, ps).lists
    ensures AppliedAll(m, ps).lists[f] == Applied(m, MergedPatch(ps)).lists[f] <==>
            forall x :: !Revived(ChangesOf(ps, f), x)
  {
    FieldOneByOne(m, ps, f);
    FieldMerged(ps, f);
    FieldIsMerged(m, MergedPatch(ps), f);
    FoldExactly(m.lists[f], ChangesOf(ps, f));
  }

  // ----- notes -----


  ghost predicate New(add: seq<Note>, known: seq<Note>) {
    forall n :: n in add ==> n !in known
  }

  lemma {:induction false} AllFresh(notes: seq<Note>, known: seq<Note>)
    requires New(notes, known)
    ensures Fresh(notes, known) == notes
    decreases |notes|
  {
    if notes == [] {
    } else {
      var n := |notes| - 1;
      assert notes == notes[..n] + [notes[n]];
      AllFresh(notes[..n], known);
      assert notes[n] in notes;
    }
  }

  lemma LastNotesTwice(s: seq<Note>, t: seq<Note>)
    ensures LastNotes(LastNotes(s) + t) == LastNotes(s + t)
  {
  }

  lemma LastNotesFrom(s: seq<Note>, n: Note)
    requires n in LastNotes(s)
    ensures n in s
  {
  }

  lemma {:induction false} FreshJoined(a: seq<Note>, b: seq<Note>, known: seq<Note>)
    ensures Fresh(a + b, known) == Fresh(a, known) + Fresh(b, known)
    decreases |b|
  {
    if b == [] {
      assert a + b == a;
    } else {
      var n := |b| - 1;
      assert (a + b)[..|a + b| - 1] == a + b[..n];
      FreshJoined(a, b[..n], known);
    }
  }

  /** A note that is not yet known and comes in two of the proposals. */
  ghost predicate Repeated(notes: seq<Note>, ps: seq<Patch>, n: Note) {
    n !in notes && exists i, j :: 0 <= i < j < |ps| && n in ps[i].notes && n in ps[j].notes
  }

  predicate Proposed(ps: seq<Patch>, n: Note) {
    exists i :: 0 <= i < |ps| && n in ps[i].notes
  }

  lemma ProposedNext(ps: seq<Patch>, p: Patch, n: Note)
    ensures Proposed(ps + [p], n) <==> Proposed(ps, n) || n in p.notes
  {
    var all := ps + [p];
    if Proposed(ps, n) { var i :| 0 <= i < |ps| && n in ps[i].notes; assert n in all[i].notes; }
    if n in p.notes { assert n in all[|ps|].notes; }
  }

  lemma RepeatedNext(notes: seq<Note>, ps: seq<Patch>, p: Patch, n: Note)
    ensures Repeated(notes, ps + [p], n) <==> Repeated(notes, ps, n) || (n !in notes && Proposed(ps, n) && n in p.notes)
  {
    var all := ps + [p];
    if Repeated(notes, ps, n) {
      var i, j :| 0 <= i < j < |ps| && n in ps[i].notes && n in ps[j].notes;
      assert n in all[i].notes && n in all[j].notes;
    }
    if n !in notes && Proposed(ps, n) && n in p.notes {
      var i :| 0 <= i < |ps| && n in ps[i].notes;
      assert n in all[i].notes && n in all[|ps|].notes;
    }
    if Repeated(notes, all, n) {
      var i, j :| 0 <= i < j < |all| && n in all[i].notes && n in all[j].notes;
      assert all[i] == ps[i];
      if j < |ps| { assert all[j] == ps[j]; }
    }
  }

  /** Everything that was kept or proposed, without a limit. */
  function NotesAtOnce(notes: seq<Note>, ps: seq<Patch>): seq<Note> {
    notes + Fresh(MergedPatch(ps).notes, notes)
  }

  lemma AtOnceNext(notes: seq<Note>, ps: seq<Patch>)
    requires ps != []
    ensures var n := |ps| - 1;
            NotesAtOnce(notes, ps) == NotesAtOnce(notes, ps[..n]) + Fresh(ps[n].notes, notes)
    ensures var n := |ps| - 1; |MergedPatch(ps).notes| == |MergedPatch(ps[..n]).notes| + |ps[n].notes|
  {
    var n := |ps| - 1;
    FreshJoined(MergedPatch(ps[..n]).notes, ps[n].notes, notes);
  }

  lemma {:induction false} FreshLength(add: seq<Note>, known: seq<Note>)
    ensures |Fresh(add, known)| <= |add|
    decreases |add|
  {
    if add == [] {
    } else {
      FreshLength(add[..|add| - 1], known);
    }
  }

  /** The more is known the less is fresh. */
  lemma {:induction false} FreshShrinks(add: seq<Note>, known: seq<Note>, more: seq<Note>)
    requires forall n :: n in known ==> n in more
    ensures |Fresh(add, more)| <= |Fresh(add, known)|
    ensures (forall n :: n in add && n in more ==> n in known) ==> Fresh(add, more) == Fresh(add, known)
    ensures (exists n :: n in add && n in more && n !in known) ==> |Fresh(add, more)| < |Fresh(add, known)|
    decreases |add|
  {
    if add == [] {
    } else {
      var n := |add| - 1;
      assert add == add[..n] + [add[n]];
      FreshShrinks(add[..n], known, more);
    }
  }

  /** Within the limit nothing is cut off. */
  lemma NextNotes(notes: seq<Note>, add: seq<Note>)
    requires |notes| + |add| <= MAX_NOTES
    ensures NotesAfter(notes, add) == notes + Fresh(add, notes)
  {
    FreshLength(add, notes);
    assert add == [] ==> notes + Fresh(add, notes) == notes;
  }

  /**
   * The notes after the first proposals, one by one: what is there, how many, and whether they are those of the fold.
   */
  ghost predicate Compared(m: UserMemory, ps: seq<Patch>) {
    var each, once := AppliedAll(m, ps).notes, NotesAtOnce(m.notes, ps);
    (forall n :: n in each <==> n in m.notes || Proposed(ps, n))
    && |each| <= |once| <= |m.notes| + |MergedPatch(ps).notes|
    && ((forall n :: !Repeated(m.notes, ps, n)) ==> each == once)
    && ((exists n :: Repeated(m.notes, ps, n)) ==> |each| < |once|)
  }

  lemma ComparedMember(notes: seq<Note>, ps: seq<Patch>, p: Patch, before: seq<Note>, n: Note)
    requires n in before <==> n in notes || Proposed(ps, n)
    ensures n in before + Fresh(p.notes, before) <==> n in notes || Proposed(ps + [p], n)
  {
    ProposedNext(ps, p, n);
  }

  lemma ComparedMembers(m: UserMemory, ps: seq<Patch>, before: seq<Note>, each: seq<Note>)
    requires ps != [] && each == before + Fresh(ps[|ps| - 1].notes, before)
    requires forall n :: n in before <==> n in m.notes || Proposed(ps[..|ps| - 1], n)
    ensures forall n :: n in each <==> n in m.notes || Proposed(ps, n)
  {
    var k := |ps| - 1;
    assert ps == ps[..k] + [ps[k]];
    forall n ensures n in each <==> n in m.notes || Proposed(ps, n) {
      ComparedMember(m.notes, ps[..k], ps[k], before, n);
    }
  }

  /** A repetition in the longer list is one in the shorter, or the last proposal repeats an earlier one. */
  lemma RepeatedLast(m: UserMemory, ps: seq<Patch>)
    requires ps != [] && Compared(m, ps[..|ps| - 1])
    ensures var k := |ps| - 1; var before := AppliedAll(m, ps[..k]).notes;
            (exists n :: Repeated(m.notes, ps, n)) <==>
            (exists n :: Repeated(m.notes, ps[..k], n))
            || (exists n :: n in ps[k].notes && n in before && n !in m.notes)
  {
    var k := |ps| - 1;
    var before := AppliedAll(m, ps[..k]).notes;
    assert ps == ps[..k] + [ps[k]];
    forall n
      ensures Repeated(m.notes, ps, n) <==>
                Repeated(m.notes, ps[..k], n) || (n in ps[k].notes && n in before && n !in m.notes)
    {
      RepeatedNext(m.notes, ps[..k], ps[k], n);
    }
  }

  lemma ComparedNext(m: UserMemory, ps: seq<Patch>)
    requires ps != [] && Compared(m, ps[..|ps| - 1]) && |m.notes| + |MergedPatch(ps).notes| <= MAX_NOTES
    ensures Compared(m, ps)
  {
    var k := |ps| - 1;
    var before, p := AppliedAll(m, ps[..k]).notes, ps[k].notes;
    AtOnceNext(m.notes, ps);
    NextNotes(before, p);
    ComparedMembers(m, ps, before, AppliedAll(m, ps).notes);
    FreshShrinks(p, m.notes, before);
    FreshLength(p, m.notes);
    RepeatedLast(m, ps);
  }

  lemma {:induction false} AllCompared(m: UserMemory, ps: seq<Patch>)
    requires |m.notes| + |MergedPatch(ps).notes| <= MAX_NOTES
    ensures Compared(m, ps)
    decreases |ps|
  {
    if ps == [] {
      assert NotesAtOnce(m.notes, ps) == m.notes;
    } else {
      AtOnceNext(m.notes, ps);
      AllCompared(m, ps[..|ps| - 1]);
      ComparedNext(m, ps);
    }
  }

  /**
   * Within the limit of notes: folding any number of proposals gives the same notes, in the same order, if and only if
   * no note that is new comes in two of them.
   */
  lemma FoldOfNotes(m: UserMemory, ps: seq<Patch>)
    requires |m.notes| + |MergedPatch(ps).notes| <= MAX_NOTES
    ensures AppliedAll(m, ps).notes == Applied(m, MergedPatch(ps)).notes <==> forall n :: !Repeated(m.notes, ps, n)
  {
    AllCompared(m, ps);
    NextNotes(m.notes, MergedPatch(ps).notes);
  }

  // ----- what the limit changes -----

  /** Every note of every proposal is new: neither known nor in an earlier proposal. */
  ghost predicate AllNew(notes: seq<Note>, ps: seq<Patch>) {
    forall i, n :: 0 <= i < |ps| && n in ps[i].notes ==> n !in notes && !Proposed(ps[..i], n)
  }

  lemma {:induction false} MergedNotesProposed(ps: seq<Patch>, n: Note)
    ensures n in MergedPatch(ps).notes <==> Proposed(ps, n)
    decreases |ps|
  {
    if ps == [] {
    } else {
      var k := |ps| - 1;
      assert ps == ps[..k] + [ps[k]];
      MergedNotesProposed(ps[..k], n);
      ProposedNext(ps[..k], ps[k], n);
    }
  }

  lemma AddNew(notes: seq<Note>, so: seq<Note>, add: seq<Note>)
    requires notes == LastNotes(so) && New(add, so)
    ensures NotesAfter(notes, add) == LastNotes(so + add)
  {
    forall n | n in add ensures n !in notes {
      if n in notes { LastNotesFrom(so, n); }
    }
    AllFresh(add, notes);
    LastNotesTwice(so, add);
    assert add == [] ==> so + add == so;
  }

  lemma AllNewPrefix(notes: seq<Note>, ps: seq<Patch>, k: nat)
    requires AllNew(notes, ps) && k <= |ps|
    ensures AllNew(notes, ps[..k])
  {
    forall i, n | 0 <= i < k && n in ps[..k][i].notes ensures n !in notes && !Proposed(ps[..k][..i], n) {
      assert ps[..k][..i] == ps[..i];
      assert n in ps[i].notes;
    }
  }

  lemma LastIsNew(notes: seq<Note>, ps: seq<Patch>)
    requires AllNew(notes, ps) && ps != []
    ensures New(ps[|ps| - 1].notes, notes + MergedPatch(ps[..|ps| - 1]).notes)
  {
    var k := |ps| - 1;
    forall n | n in ps[k].notes ensures n !in notes + MergedPatch(ps[..k]).notes { MergedNotesProposed(ps[..k], n); }
  }

  lemma NewStep(m: UserMemory, ps: seq<Patch>, k: nat, before: seq<Note>)
    requires |ps| == k + 1 && before == m.notes + MergedPatch(ps[..k]).notes
    requires AppliedAll(m, ps[..k]).notes == LastNotes(before)
    requires forall n :: n in ps[k].notes ==> n !in before
    ensures AppliedAll(m, ps).notes == LastNotes(before + ps[k].notes)
  {
    AddNew(LastNotes(before), before, ps[k].notes);
  }

  lemma MergedSnoc(notes: seq<Note>, ps: seq<Patch>)
    requires ps != []
    ensures var k := |ps| - 1;
            notes + MergedPatch(ps).notes == notes + MergedPatch(ps[..k]).notes + ps[k].notes
  {
  }

  lemma {:induction false} NewOneByOne(m: UserMemory, ps: seq<Patch>)
    requires |m.notes| <= MAX_NOTES && AllNew(m.notes, ps)
    ensures AppliedAll(m, ps).notes == LastNotes(m.notes + MergedPatch(ps).notes)
    decreases |ps|
  {
    if ps == [] {
      assert m.notes + MergedPatch(ps).notes == m.notes;
    } else {
      var k := |ps| - 1;
      AllNewPrefix(m.notes, ps, k);
      NewOneByOne(m, ps[..k]);
      LastIsNew(m.notes, ps);
      NewStep(m, ps, k, m.notes + MergedPatch(ps[..k]).notes);
      MergedSnoc(m.notes, ps);
    }
  }

  /** Proposals with nothing but new notes may be folded however many notes are cut off. */
  lemma FoldOfNewNotes(m: UserMemory, ps: seq<Patch>)
    requires |m.notes| <= MAX_NOTES && AllNew(m.notes, ps)
    ensures AppliedAll(m, ps).notes == Applied(m, MergedPatch(ps)).notes
  {
    NewOneByOne(m, ps);
    forall n | n in MergedPatch(ps).notes ensures n !in m.notes {
      MergedNotesProposed(ps, n);
      var i :| 0 <= i < |ps| && n in ps[i].notes;
    }
    AddNew(m.notes, m.notes, MergedPatch(ps).notes);
  }

  lemma {:induction false} NoneFresh(add: seq<Note>, known: seq<Note>)
    requires forall n :: n in add ==> n in known
    ensures Fresh(add, known) == []
    decreases |add|
  {
    if add == [] {
    } else {
      var n := |add| - 1;
      assert add == add[..n] + [add[n]];
      NoneFresh(add[..n], known);
    }
  }

  lemma PushedOut(notes: seq<Note>, x: Note)
    requires |notes| == MAX_NOTES && x !in notes
    ensures NotesAfter(notes, [x]) == notes[1..] + [x]
  {
    AllFresh([x], notes);
    assert notes + [x] == [notes[0]] + (notes[1..] + [x]);
  }

  /** With the limit reached, a known note that is pushed out counts as new again, one by one but not in the fold. */
  lemma LimitForgets(notes: seq<Note>, x: Note)
    requires |notes| == MAX_NOTES && x !in notes && notes[0] !in notes[1..]
    ensures NotesAfter(NotesAfter(notes, [x]), [notes[0]]) == notes[2..] + [x, notes[0]]
    ensures NotesAfter(notes, [x] + [notes[0]]) == notes[1..] + [x]
  {
    PushedOut(notes, x);
    assert notes[0] in notes;
    PushedOut(notes[1..] + [x], notes[0]);
    assert (notes[1..] + [x])[1..] + [notes[0]] == notes[2..] + [x, notes[0]];
    FreshJoined([x], [notes[0]], notes);
    NoneFresh([notes[0]], notes);
    AllFresh([x], notes);
    assert Fresh([x] + [notes[0]], notes) == [x];
    assert NotesAfter(notes, [x] + [notes[0]]) == NotesAfter(notes, [x]);
  }

  lemma LastNotesOf(s: seq<Note>, t: seq<Note>)
    requires |t| == MAX_NOTES
    ensures LastNotes(s + t) == t
  {
  }

  lemma KnownThenNew(known: seq<Note>, x: Note, more: seq<Note>)
    requires x in known && New(more, known) && |more| == MAX_NOTES
    ensures NotesAfter(known, [x] + more) == more
  {
    FreshJoined([x], more, known);
    AllFresh(more, known);
    NoneFresh([x], known);
    LastNotesOf(known, more);
  }

  lemma AllNewAtOnce(notes: seq<Note>, add: seq<Note>, more: seq<Note>)
    requires New(add + more, notes) && |more| == MAX_NOTES
    ensures NotesAfter(notes, add + more) == more
  {
    AllFresh(add + more, notes);
    assert notes + (add + more) == (notes + add) + more;
    LastNotesOf(notes + add, more);
  }

  /** And a repeated note makes no difference once enough new notes push both copies out. */
  lemma LimitHides(notes: seq<Note>, x: Note, more: seq<Note>)
    requires |notes| <= MAX_NOTES && |more| == MAX_NOTES && x !in notes && New(more, notes + [x])
    ensures NotesAfter(NotesAfter(notes, [x]), [x] + more) == more
    ensures NotesAfter(notes, [x, x] + more) == more
  {
    AddNew(notes, notes, [x]);
    var known := LastNotes(notes + [x]);
    assert known[|known| - 1] == x;
    forall n | n in more ensures n !in known {
      if n in known { LastNotesFrom(notes + [x], n); }
    }
    KnownThenNew(known, x, more);
    forall n | n in more ensures n !in notes { assert n !in notes + [x]; }
    AllNewAtOnce(notes, [x, x], more);
  }

  /** A new note proposed twice is stored twice when folded, and once when applied one by one. */
  lemma RepeatedNoteStaysTwice(n: Note)
    ensures NotesAfter(NotesAfter([], [n]), [n]) == [n]
    ensures NotesAfter([], [n] + [n]) == [n, n]
  {
    AllFresh([n], []);
    NoneFresh([n], [n]);
    AllFresh([n] + [n], []);
  }
}
