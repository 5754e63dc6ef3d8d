/** The declared data flow of the graph nodes and its taint analysis (course_discovery/privacy/flow.py). */
module Flow {
  import opened Text

  const SUBJECT := "subject"
  const RAW := "raw"

  datatype Kind = Store | External

  datatype Sink = Sink(name: string, kind: Kind, accepts: set<string>)

  datatype NodeFlow = NodeFlow(
    readSet: set<string>,
    writeSet: set<string>,
    sinks: seq<Sink>,
    redacts: set<string>,
    declassifies: map<string, string>)

  /** One entry of the `flows` dictionary; the dictionary itself is the sequence of its entries. */
  datatype Decl = Decl(node: string, spec: NodeFlow)

  type Labels = map<string, set<string>>

  /** A channel together with a label found on it; the keys of `origins`. */
  datatype Tag = Tag(channel: string, mark: string)
  datatype Back = Back(node: string, source: string)
  type Origins = map<Tag, Option<Back>>

  function At(labels: Labels, channel: string): set<string> {
    if channel in labels then labels[channel] else {}
  }

  predicate Has(labels: Labels, t: Tag) {
    t.channel in labels && t.mark in labels[t.channel]
  }

  /** `labels` with `added` put on one channel. */
  function Grown(labels: Labels, channel: string, added: set<string>): (r: Labels)
    ensures forall c :: c in r <==> c in labels || c == channel
    ensures forall t :: Has(r, t) <==> Has(labels, t) || (t.channel == channel && t.mark in added)
  {
    labels[channel := At(labels, channel) + added]
  }

  function Seen(spec: NodeFlow, labels: Labels, channel: string): set<string> {
    if channel in spec.redacts then At(labels, channel) - {RAW} else At(labels, channel)
  }

  function Inputs(spec: NodeFlow, labels: Labels): set<string> {
    set channel, mark | channel in spec.readSet && mark in Seen(spec, labels, channel) :: mark
  }

  function Source(spec: NodeFlow, labels: Labels, mark: string): (channel: string)
    requires mark in Inputs(spec, labels)
    ensures channel in spec.readSet && mark in Seen(spec, labels, channel)
    ensures forall c :: c in spec.readSet && mark in Seen(spec, labels, c) ==> Le(channel, c)
  {
    var carriers := set c | c in spec.readSet && mark in Seen(spec, labels, c);
    assert carriers != {} by {
      var c :| c in spec.readSet && mark in Seen(spec, labels, c);
      assert c in carriers;
    }
    Least(carriers)
  }

  // ----- what the analysis means: read/write paths from a seed -----

  datatype Hop = Hop(decl: Decl, source: string, target: string)

  /** `spec` lets `label` pass from channel `source` to channel `target`. */
  predicate Carries(spec: NodeFlow, source: string, target: string, mark: string) {
    && source in spec.readSet
    && target in spec.writeSet
    && target !in spec.declassifies
    && !(mark == RAW && source in spec.redacts)
  }

  /** `path` leads back from `channel`, hop by hop, to a seed of `label`. */
  ghost predicate IsPath(flows: seq<Decl>, seeds: Labels, mark: string, channel: string, path: seq<Hop>)
    decreases |path|
  {
    if path == [] then mark in At(seeds, channel)
    else
      && path[0].decl in flows
      && path[0].target == channel
      && Carries(path[0].decl.spec, path[0].source, channel, mark)
      && IsPath(flows, seeds, mark, path[0].source, path[1..])
  }

  ghost predicate Reached(flows: seq<Decl>, seeds: Labels, channel: string, mark: string) {
    exists path :: IsPath(flows, seeds, mark, channel, path)
  }

  /** The label map that `Propagate` must return: exactly the reached pairs, no empty extra entries. */
  ghost predicate IsLeast(flows: seq<Decl>, seeds: Labels, labels: Labels) {
    && NoEmptyExtras(seeds, labels)
    && (forall c, l :: l in At(labels, c) <==> Reached(flows, seeds, c, l))
  }

  ghost predicate NodeClosed(spec: NodeFlow, labels: Labels) {
    forall c :: c in spec.writeSet && c !in spec.declassifies ==> Inputs(spec, labels) <= At(labels, c)
  }

  ghost predicate Closed(flows: seq<Decl>, labels: Labels) {
    forall d :: d in flows ==> NodeClosed(d.spec, labels)
  }

  ghost predicate Contains(labels: Labels, seeds: Labels) {
    forall t :: Has(seeds, t) ==> Has(labels, t)
  }

  lemma {:induction false} ReachedStep(flows: seq<Decl>, seeds: Labels, d: Decl, source: string, target: string,
                                       mark: string)
    requires d in flows && Carries(d.spec, source, target, mark) && Reached(flows, seeds, source, mark)
    ensures Reached(flows, seeds, target, mark)
  {
    var path :| IsPath(flows, seeds, mark, source, path);
    var longer := [Hop(d, source, target)] + path;
    assert longer[1..] == path;
    assert IsPath(flows, seeds, mark, target, longer);
  }

  lemma {:induction false} PathWithinClosed(flows: seq<Decl>, seeds: Labels, labels: Labels, mark: string,
                                            channel: string, path: seq<Hop>)
    requires Contains(labels, seeds) && Closed(flows, labels)
    requires IsPath(flows, seeds, mark, channel, path)
    ensures mark in At(labels, channel)
    decreases |path|
  {
    if path == [] {
      assert Has(seeds, Tag(channel, mark));
    } else {
      PathWithinClosed(flows, seeds, labels, mark, path[0].source, path[1..]);
      assert mark in Seen(path[0].decl.spec, labels, path[0].source);
      assert mark in Inputs(path[0].decl.spec, labels);
      assert NodeClosed(path[0].decl.spec, labels);
    }
  }

  /** The map specified by `IsLeast` is the least one that contains the seeds and is closed under every node. */
  lemma {:induction false} LeastClosedMap(flows: seq<Decl>, seeds: Labels, labels: Labels)
    requires IsLeast(flows, seeds, labels)
    ensures Contains(labels, seeds) && Closed(flows, labels)
    ensures forall other: Labels :: Contains(other, seeds) && Closed(flows, other) ==> Contains(other, labels)
  {
    forall t | Has(seeds, t) ensures Has(labels, t) {
      assert IsPath(flows, seeds, t.mark, t.channel, []);
      assert t.mark in At(labels, t.channel);
    }
    forall d, c, l | d in flows && c in d.spec.writeSet && c !in d.spec.declassifies && l in Inputs(d.spec, labels)
      ensures l in At(labels, c)
    {
      var s :| s in d.spec.readSet && l in Seen(d.spec, labels, s);
      ReachedStep(flows, seeds, d, s, c, l);
    }
    forall other: Labels, t | Contains(other, seeds) && Closed(flows, other) && Has(labels, t)
      ensures Has(other, t)
    {
      assert t.mark in At(labels, t.channel);
      var path :| IsPath(flows, seeds, t.mark, t.channel, path);
      PathWithinClosed(flows, seeds, other, t.mark, t.channel, path);
    }
  }

  lemma {:induction false} PathInOtherOrder(flows: seq<Decl>, other: seq<Decl>, seeds: Labels, mark: string,
                                            channel: string, path: seq<Hop>)
    requires forall d :: d in flows ==> d in other
    requires IsPath(flows, seeds, mark, channel, path)
    ensures IsPath(other, seeds, mark, channel, path)
    decreases |path|
  {
    if path == [] {
    } else {
      PathInOtherOrder(flows, other, seeds, mark, path[0].source, path[1..]);
    }
  }

  /** Any two iteration orders of the same declarations give the same label map. */
  lemma {:induction false} OrderIndependent(flows: seq<Decl>, other: seq<Decl>, seeds: Labels, labels: Labels,
                                            labels': Labels)
    requires forall d :: d in flows <==> d in other
    requires IsLeast(flows, seeds, labels) && IsLeast(other, seeds, labels')
    ensures labels == labels'
  {
    forall c, l ensures l in At(labels, c) <==> l in At(labels', c) {
      if path :| IsPath(flows, seeds, l, c, path) { PathInOtherOrder(flows, other, seeds, l, c, path); }
      if path :| IsPath(other, seeds, l, c, path) { PathInOtherOrder(other, flows, seeds, l, c, path); }
    }
    forall c ensures At(labels, c) == At(labels', c) {}
    forall c ensures c in labels <==> c in labels' {
      assert At(labels, c) == At(labels', c);
    }
    forall c | c in labels ensures labels[c] == labels'[c] {
      assert At(labels, c) == At(labels', c);
    }
  }

  // ----- witnesses: the origins map -----

  function Tags(labels: Labels): (tags: set<Tag>)
    ensures forall t :: t in tags <==> Has(labels, t)
  {
    set c, l | c in labels && l in labels[c] :: Tag(c, l)
  }

  ghost predicate HasHop(flows: seq<Decl>, back: Back, tag: Tag) {
    exists d :: d in flows && d.node == back.node && Carries(d.spec, back.source, tag.channel, tag.mark)
  }

  /** The recorded origin of `tag`, unless it is a seed, is a declared hop from a channel labelled strictly earlier. */
  ghost predicate Explained(flows: seq<Decl>, origins: Origins, rank: map<Tag, nat>, tag: Tag) {
    tag in origins && origins[tag].Some? ==>
      var back := origins[tag].value;
      var earlier := Tag(back.source, tag.mark);
      earlier in origins && earlier in rank && tag in rank && rank[earlier] < rank[tag] && HasHop(flows, back, tag)
  }

  /** `origins` records, for exactly the labelled tags, either a seed or a hop from a tag labelled strictly earlier. */
  ghost predicate Ranked(flows: seq<Decl>, seeds: Labels, labels: Labels, origins: Origins, rank: map<Tag, nat>) {
    && rank.Keys == origins.Keys == Tags(labels)
    && (forall t :: t in origins ==> (origins[t].None? <==> t in Tags(seeds)))
    && (forall t {:trigger Explained(flows, origins, rank, t)} :: Explained(flows, origins, rank, t))
  }

  ghost predicate Founded(flows: seq<Decl>, seeds: Labels, labels: Labels, origins: Origins) {
    exists rank :: Ranked(flows, seeds, labels, origins, rank)
  }

  /** The chain of hops that `origins` records behind a labelled tag. */
  ghost function Walk(flows: seq<Decl>, seeds: Labels, labels: Labels, origins: Origins, rank: map<Tag, nat>,
                      tag: Tag): (path: seq<Hop>)
    requires Ranked(flows, seeds, labels, origins, rank) && tag in origins
    ensures IsPath(flows, seeds, tag.mark, tag.channel, path)
    ensures Follows(origins, tag, path)
    decreases rank[tag]
  {
    match origins[tag]
    case None => []
    case Some(back) =>
      assert Explained(flows, origins, rank, tag);
      var d :| d in flows && d.node == back.node && Carries(d.spec, back.source, tag.channel, tag.mark);
      var rest := Walk(flows, seeds, labels, origins, rank, Tag(back.source, tag.mark));
      assert ([Hop(d, back.source, tag.channel)] + rest)[1..] == rest;
      [Hop(d, back.source, tag.channel)] + rest
  }

  /** `path` is what `origins` records, entry after entry. */
  ghost predicate Follows(origins: Origins, tag: Tag, path: seq<Hop>)
    decreases |path|
  {
    tag in origins &&
    if path == [] then origins[tag] == None
    else
      && origins[tag] == Some(Back(path[0].decl.node, path[0].source))
      && Follows(origins, Tag(path[0].source, tag.mark), path[1..])
  }

  /** `after` is `origins` with one channel's new labels attributed to `d`. */
  ghost predicate Attributed(origins: Origins, after: Origins, d: Decl, labels: Labels, channel: string,
                             added: set<string>)
    requires added <= Inputs(d.spec, labels)
  {
    && (forall t :: t in after <==> t in origins || (t.channel == channel && t.mark in added))
    && (forall t :: t in after ==>
          after[t] == if t.channel == channel && t.mark in added then
              Some(Back(d.node, Source(d.spec, labels, t.mark))) else origins[t])
  }

  lemma {:induction false} AttributedBack(flows: seq<Decl>, seeds: Labels, labels: Labels, origins: Origins,
                                          after: Origins, rank: map<Tag, nat>, rank': map<Tag, nat>, clock: nat,
                                          d: Decl, channel: string, added: set<string>, t: Tag)
    requires Ranked(flows, seeds, labels, origins, rank) && forall t :: t in rank ==> rank[t] < clock
    requires d in flows && channel in d.spec.writeSet && channel !in d.spec.declassifies
    requires added <= Inputs(d.spec, labels) && added !! At(labels, channel)
    requires Attributed(origins, after, d, labels, channel, added)
    requires rank' == map t | t in after :: if t in origins then rank[t] else clock
    ensures Explained(flows, after, rank', t)
  {
    assert Explained(flows, origins, rank, t);
    if t in origins {
    } else if t in after {
      var source := Source(d.spec, labels, t.mark);
      assert Tag(source, t.mark) in origins;
      assert Carries(d.spec, source, channel, t.mark);
      assert HasHop(flows, after[t].value, t);
    }
  }

  lemma {:induction false} RankBound(rank: map<Tag, nat>, keys: set<Tag>) returns (clock: nat)
    requires keys <= rank.Keys
    ensures forall t :: t in keys ==> rank[t] < clock
  {
    clock := 0;
    if keys != {} {
      var t :| t in keys;
      clock := RankBound(rank, keys - {t});
      if clock <= rank[t] { clock := rank[t] + 1; }
    }
  }

  lemma {:induction false} AttributedRanked(flows: seq<Decl>, seeds: Labels, labels: Labels, origins: Origins,
                                            after: Origins, rank: map<Tag, nat>, d: Decl, channel: string,
                                            added: set<string>)
    returns (rank': map<Tag, nat>)
    requires Ranked(flows, seeds, labels, origins, rank)
    requires d in flows && channel in d.spec.writeSet && channel !in d.spec.declassifies
    requires added <= Inputs(d.spec, labels) && added !! At(labels, channel)
    requires Attributed(origins, after, d, labels, channel, added)
    ensures rank'.Keys == after.Keys
    ensures forall t {:trigger Explained(flows, after, rank', t)} :: Explained(flows, after, rank', t)
  {
    var clock := RankBound(rank, rank.Keys);
    rank' := map t | t in after :: if t in origins then rank[t] else clock;
    forall t ensures Explained(flows, after, rank', t) {
      AttributedBack(flows, seeds, labels, origins, after, rank, rank', clock, d, channel, added, t);
    }
  }

  lemma {:induction false} AttributedFounded(flows: seq<Decl>, seeds: Labels, labels: Labels, origins: Origins,
                                             after: Origins, d: Decl, channel: string, added: set<string>)
    requires Founded(flows, seeds, labels, origins) && Contains(labels, seeds)
    requires d in flows && channel in d.spec.writeSet && channel !in d.spec.declassifies
    requires added <= Inputs(d.spec, labels) && added !! At(labels, channel)
    requires Attributed(origins, after, d, labels, channel, added)
    ensures Founded(flows, seeds, Grown(labels, channel, added), after)
  {
    var rank :| Ranked(flows, seeds, labels, origins, rank);
    var rank' := AttributedRanked(flows, seeds, labels, origins, after, rank, d, channel, added);
    AttributedKeys(seeds, labels, origins, after, d, channel, added);
    assert Ranked(flows, seeds, Grown(labels, channel, added), after, rank');
  }

  lemma AttributedKeys(seeds: Labels, labels: Labels, origins: Origins, after: Origins, d: Decl, channel: string,
                       added: set<string>)
    requires Contains(labels, seeds) && origins.Keys == Tags(labels)
    requires forall t :: t in origins ==> (origins[t].None? <==> t in Tags(seeds))
    requires added <= Inputs(d.spec, labels) && added !! At(labels, channel)
    requires Attributed(origins, after, d, labels, channel, added)
    ensures after.Keys == Tags(Grown(labels, channel, added))
    ensures forall t :: t in after ==> (after[t].None? <==> t in Tags(seeds))
  {}

  /** The finite room the analysis works in: the seeded and written channels, and the seeded labels. */
  ghost function Channels(flows: seq<Decl>, seeds: Labels): set<string> {
    seeds.Keys + set d, c | d in flows && c in d.spec.writeSet :: c
  }

  ghost function Marks(seeds: Labels): set<string> {
    set s, l | s in seeds && l in seeds[s] :: l
  }

  ghost function Product(channels: set<string>, marks: set<string>): set<Tag> {
    set c, l | c in channels && l in marks :: Tag(c, l)
  }

  ghost predicate Within(labels: Labels, channels: set<string>, marks: set<string>) {
    (forall c :: c in labels ==> c in channels) && forall t :: Has(labels, t) ==> t.mark in marks
  }

  ghost predicate NoEmptyExtras(seeds: Labels, labels: Labels) {
    (forall c :: c in seeds ==> c in labels) && forall c :: c in labels && c !in seeds ==> labels[c] != {}
  }

  /** How many tags are still missing; what a sweep that changes anything lowers. */
  ghost function Missing(channels: set<string>, marks: set<string>, origins: Origins): nat {
    |Product(channels, marks) - origins.Keys|
  }

  ghost predicate Progress(flows: seq<Decl>, seeds: Labels, channels: set<string>, marks: set<string>, labels: Labels,
                           origins: Origins) {
    && Within(labels, channels, marks)
    && Contains(labels, seeds)
    && NoEmptyExtras(seeds, labels)
    && Founded(flows, seeds, labels, origins)
  }

  lemma GrownStays(seeds: Labels, labels: Labels, channels: set<string>, marks: set<string>, channel: string,
                   added: set<string>)
    requires Within(labels, channels, marks) && Contains(labels, seeds) && NoEmptyExtras(seeds, labels)
    requires channel in channels && added <= marks && added != {}
    ensures Within(Grown(labels, channel, added), channels, marks)
    ensures Contains(Grown(labels, channel, added), seeds)
    ensures NoEmptyExtras(seeds, Grown(labels, channel, added))
  {}

  lemma InputsWithin(spec: NodeFlow, labels: Labels, channels: set<string>, marks: set<string>)
    requires Within(labels, channels, marks)
    ensures Inputs(spec, labels) <= marks
  {
    forall l | l in Inputs(spec, labels) ensures l in marks {
      var c :| c in spec.readSet && l in Seen(spec, labels, c);
      assert Has(labels, Tag(c, l));
    }
  }

  lemma MissingShrinks(channels: set<string>, marks: set<string>, origins: Origins, after: Origins, t: Tag)
    requires origins.Keys <= after.Keys && t in after && t !in origins && t.channel in channels && t.mark in marks
    ensures Missing(channels, marks, after) < Missing(channels, marks, origins)
  {
    Shrinks(Product(channels, marks) - after.Keys, Product(channels, marks) - origins.Keys, t);
  }

  lemma Shrinks<T>(a: set<T>, b: set<T>, x: T)
    requires a <= b && x in b && x !in a
    ensures |a| < |b|
  {
    SubsetSize(a, b - {x});
  }

  lemma {:induction false} FixpointIsLeast(flows: seq<Decl>, seeds: Labels, labels: Labels, origins: Origins)
    requires Contains(labels, seeds) && NoEmptyExtras(seeds, labels) && Founded(flows, seeds, labels, origins)
    requires PrefixClosed(flows, |flows|, labels)
    ensures IsLeast(flows, seeds, labels)
  {
    var rank :| Ranked(flows, seeds, labels, origins, rank);
    forall c, l ensures l in At(labels, c) <==> Reached(flows, seeds, c, l) {
      if l in At(labels, c) {
        var path := Walk(flows, seeds, labels, origins, rank, Tag(c, l));
      }
      if path :| IsPath(flows, seeds, l, c, path) {
        PathWithinClosed(flows, seeds, labels, l, c, path);
      }
    }
  }

  ghost predicate PrefixClosed(flows: seq<Decl>, n: nat, labels: Labels)
    requires n <= |flows|
  {
    forall j :: 0 <= j < n ==> NodeClosed(flows[j].spec, labels)
  }

  lemma PrefixStep(flows: seq<Decl>, i: nat, labels: Labels)
    requires i < |flows| && PrefixClosed(flows, i, labels) && NodeClosed(flows[i].spec, labels)
    ensures PrefixClosed(flows, i + 1, labels)
  {}

  lemma SeedsFounded(flows: seq<Decl>, seeds: Labels)
    ensures Founded(flows, seeds, seeds, map t | t in Tags(seeds) :: None)
  {
    var origins: Origins := map t | t in Tags(seeds) :: None;
    var rank: map<Tag, nat> := map t | t in Tags(seeds) :: 0;
    assert Ranked(flows, seeds, seeds, origins, rank);
  }

  /** Chaotic iteration: sweep the declarations until a whole sweep changes nothing. */
  method Propagate(flows: seq<Decl>, seeds: Labels) returns (labels: Labels, origins: Origins)
    ensures IsLeast(flows, seeds, labels)
    ensures Founded(flows, seeds, labels, origins)
  {
    labels := seeds;
    origins := map t | t in Tags(seeds) :: None;
    SeedsFounded(flows, seeds);
    ghost var channels, marks := Channels(flows, seeds), Marks(seeds);
    var changed := true;
    while changed
      invariant Progress(flows, seeds, channels, marks, labels, origins)
      invariant changed || PrefixClosed(flows, |flows|, labels)
      decreases Missing(channels, marks, origins), changed
    {
      changed := false;
      ghost var known := origins;
      for i := 0 to |flows|
        invariant Progress(flows, seeds, channels, marks, labels, origins)
        invariant if changed then Missing(channels, marks, origins) < Missing(channels, marks, known)
                  else origins == known && PrefixClosed(flows, i, labels)
      {
        ghost var previous := labels;
        var moved;
        labels, origins, moved := Visit(flows, seeds, channels, marks, flows[i], labels, origins);
        changed := changed || moved;
        if !changed { PrefixStep(flows, i, previous); }
      }
    }
    FixpointIsLeast(flows, seeds, labels, origins);
  }

  /**
   * One node's turn in a sweep. `incoming` is fixed before the loop over the written channels, while `labels`
   * grows inside it and `Source` reads the grown map.
   */
  method Visit(ghost flows: seq<Decl>, ghost seeds: Labels, ghost channels: set<string>, ghost marks: set<string>,
               d: Decl, labels0: Labels, origins0: Origins)
    returns (labels: Labels, origins: Origins, changed: bool)
    requires d in flows && d.spec.writeSet <= channels
    requires Progress(flows, seeds, channels, marks, labels0, origins0)
    ensures Progress(flows, seeds, channels, marks, labels, origins)
    ensures Served(d.spec, labels0, labels, Inputs(d.spec, labels0), {})
    ensures if changed then Missing(channels, marks, origins) < Missing(channels, marks, origins0)
            else labels == labels0 && origins == origins0 && NodeClosed(d.spec, labels0)
  {
    labels, origins, changed := labels0, origins0, false;
    var incoming := Inputs(d.spec, labels);
    if incoming == {} { return; }
    var targets := d.spec.writeSet - d.spec.declassifies.Keys;
    labels, origins, changed := Offer(flows, seeds, channels, marks, d, labels0, origins0, incoming, targets);
    if !changed { ServedClosed(d.spec, labels0); }
  }

  /** Something moved and less is missing, or nothing changed. */
  ghost predicate Advanced(channels: set<string>, marks: set<string>, l: Labels, o: Origins, l': Labels, o': Origins,
                           moved: bool) {
    if moved then Missing(channels, marks, o') < Missing(channels, marks, o) else l' == l && o' == o
  }

  lemma AdvancedTwice(channels: set<string>, marks: set<string>, l: Labels, o: Origins, l': Labels, o': Origins,
                      l'': Labels, o'': Origins, first: bool, second: bool)
    requires Advanced(channels, marks, l, o, l', o', first) && Advanced(channels, marks, l', o', l'', o'', second)
    ensures Advanced(channels, marks, l, o, l'', o'', first || second)
  {
  }

  /** The loop over the written channels; `labels` grows inside it. */
  method Offer(ghost flows: seq<Decl>, ghost seeds: Labels, ghost channels: set<string>, ghost marks: set<string>,
               d: Decl, labels0: Labels, origins0: Origins, incoming: set<string>, targets: set<string>)
    returns (labels: Labels, origins: Origins, changed: bool)
    requires d in flows && incoming <= Inputs(d.spec, labels0)
    requires forall c :: c in targets <==> c in d.spec.writeSet && c !in d.spec.declassifies
    requires forall c :: c in targets ==> c in channels
    requires Progress(flows, seeds, channels, marks, labels0, origins0)
    ensures Progress(flows, seeds, channels, marks, labels, origins)
    ensures Served(d.spec, labels0, labels, incoming, {})
    ensures Advanced(channels, marks, labels0, origins0, labels, origins, changed)
  {
    labels, origins, changed := labels0, origins0, false;
    var open := targets;
    while open != {}
      invariant open <= targets
      invariant Progress(flows, seeds, channels, marks, labels, origins)
      invariant Served(d.spec, labels0, labels, incoming, open)
      invariant incoming <= Inputs(d.spec, labels)
      invariant Advanced(channels, marks, labels0, origins0, labels, origins, changed)
      decreases |open|
    {
      var channel :| channel in open;
      var labels1, origins1, moved :=
        Give(flows, seeds, channels, marks, d, labels0, labels, origins, incoming, open, channel);
      AdvancedTwice(channels, marks, labels0, origins0, labels, origins, labels1, origins1, changed, moved);
      labels, origins := labels1, origins1;
      open := open - {channel};
      changed := changed || moved;
    }
  }

  /** Entries of `origins` are written once: whatever is recorded stays recorded. */
  ghost predicate Extends(origins: Origins, after: Origins) {
    forall t :: t in origins ==> t in after && after[t] == origins[t]
  }

  lemma {:induction false} Given(flows: seq<Decl>, seeds: Labels, channels: set<string>, marks: set<string>, d: Decl,
                                 labels: Labels, origins: Origins, after: Origins, channel: string, added: set<string>)
    requires d in flows && channel in channels && channel in d.spec.writeSet && channel !in d.spec.declassifies
    requires Progress(flows, seeds, channels, marks, labels, origins)
    requires added <= Inputs(d.spec, labels) && added !! At(labels, channel) && added != {}
    requires Attributed(origins, after, d, labels, channel, added)
    ensures Progress(flows, seeds, channels, marks, Grown(labels, channel, added), after)
    ensures Extends(origins, after)
    ensures Missing(channels, marks, after) < Missing(channels, marks, origins)
  {
    AttributedFounded(flows, seeds, labels, origins, after, d, channel, added);
    InputsWithin(d.spec, labels, channels, marks);
    GrownStays(seeds, labels, channels, marks, channel, added);
    FoundedTags(flows, seeds, labels, origins);
    var l :| l in added;
    MissingShrinks(channels, marks, origins, after, Tag(channel, l));
  }

  lemma FoundedTags(flows: seq<Decl>, seeds: Labels, labels: Labels, origins: Origins)
    requires Founded(flows, seeds, labels, origins)
    ensures origins.Keys == Tags(labels)
  {}

  /** Gives one channel the incoming labels it lacks, with a back-pointer for each. */
  method Give(ghost flows: seq<Decl>, ghost seeds: Labels, ghost channels: set<string>, ghost marks: set<string>,
              d: Decl, ghost labels0: Labels, labels1: Labels, origins1: Origins, incoming: set<string>,
              ghost open: set<string>, channel: string)
    returns (labels: Labels, origins: Origins, moved: bool)
    requires d in flows && channel in channels && channel in open && channel in d.spec.writeSet
             && channel !in d.spec.declassifies
    requires Progress(flows, seeds, channels, marks, labels1, origins1) && incoming <= Inputs(d.spec, labels1)
    requires Served(d.spec, labels0, labels1, incoming, open)
    ensures Progress(flows, seeds, channels, marks, labels, origins) && incoming <= Inputs(d.spec, labels)
    ensures Extends(origins1, origins)
    ensures Served(d.spec, labels0, labels, incoming, open - {channel})
    ensures Advanced(channels, marks, labels1, origins1, labels, origins, moved)
  {
    labels, origins, moved := labels1, origins1, false;
    var added := incoming - At(labels, channel);
    ServeOne(d.spec, labels0, labels, incoming, open, channel);
    if added == {} { return; }
    origins := Record(d, labels, origins, channel, added);
    labels := Grown(labels, channel, added);
    moved := true;
    Given(flows, seeds, channels, marks, d, labels1, origins1, origins, channel, added);
    InputsGrow(d.spec, labels1, labels);
  }

  /** The innermost loop: one back-pointer per new label. */
  method Record(d: Decl, labels: Labels, origins0: Origins, channel: string, added: set<string>)
    returns (origins: Origins)
    requires added <= Inputs(d.spec, labels)
    ensures Attributed(origins0, origins, d, labels, channel, added)
  {
    origins := origins0;
    var todo := added;
    while todo != {}
      invariant todo <= added
      invariant Attributed(origins0, origins, d, labels, channel, added - todo)
      decreases |todo|
    {
      var mark :| mark in todo;
      origins := origins[Tag(channel, mark) := Some(Back(d.node, Source(d.spec, labels, mark)))];
      todo := todo - {mark};
    }
    assert added - todo == added;
  }

  /** `t` is a tag that a visit to `spec` gives, the channels in `open` not counted. */
  ghost predicate Due(spec: NodeFlow, incoming: set<string>, open: set<string>, t: Tag) {
    t.channel in spec.writeSet && t.channel !in spec.declassifies && t.channel !in open && t.mark in incoming
  }

  /** All written channels outside `open` have received `incoming`, and nothing else has changed. */
  ghost predicate Served(spec: NodeFlow, labels0: Labels, labels: Labels, incoming: set<string>, open: set<string>) {
    forall t :: Has(labels, t) <==> Has(labels0, t) || Due(spec, incoming, open, t)
  }

  lemma ServeOne(spec: NodeFlow, labels0: Labels, labels: Labels, incoming: set<string>, open: set<string>,
                 channel: string)
    requires channel in open && channel in spec.writeSet && channel !in spec.declassifies
    requires Served(spec, labels0, labels, incoming, open)
    ensures Served(spec, labels0, Grown(labels, channel, incoming - At(labels, channel)), incoming, open - {channel})
    ensures incoming - At(labels, channel) == {} ==> Served(spec, labels0, labels, incoming, open - {channel})
  {
    if incoming - At(labels, channel) == {} {
      forall l | l in incoming ensures Has(labels, Tag(channel, l)) {
        assert l !in incoming - At(labels, channel);
      }
    }
  }

  lemma ServedClosed(spec: NodeFlow, labels: Labels)
    requires Served(spec, labels, labels, Inputs(spec, labels), {})
    ensures NodeClosed(spec, labels)
  {
    forall c, l | c in spec.writeSet && c !in spec.declassifies && l in Inputs(spec, labels)
        ensures l in At(labels, c) {
      assert Due(spec, Inputs(spec, labels), {}, Tag(c, l));
    }
  }

  lemma InputsGrow(spec: NodeFlow, labels: Labels, labels': Labels)
    requires Contains(labels', labels)
    ensures Inputs(spec, labels) <= Inputs(spec, labels')
  {
    forall l | l in Inputs(spec, labels) ensures l in Inputs(spec, labels') {
      var c :| c in spec.readSet && l in Seen(spec, labels, c);
      assert Has(labels, Tag(c, l));
      assert l in Seen(spec, labels', c);
    }
  }

  // ----- trace -----

  /** The texts that a path contributes: channel, "(node)", channel, ... down to the seed. */
  function Hops(channel: string, path: seq<Hop>): seq<string>
    decreases |path|
  {
    if path == [] then [channel]
    else [channel, "(" + path[0].decl.node + ")"] + Hops(path[0].source, path[1..])
  }

  function Render(channel: string, path: seq<Hop>): string {
    Join(" <- ", Hops(channel, path))
  }

  /** Walks the back-pointers. The walk ends at a seed, and what it prints is a genuine path. */
  method Trace(channel: string, mark: string, origins: Origins, ghost flows: seq<Decl>, ghost seeds: Labels,
               ghost labels: Labels)
    returns (text: string)
    requires Founded(flows, seeds, labels, origins)
    ensures Has(labels, Tag(channel, mark)) ==>
              exists path :: IsPath(flows, seeds, mark, channel, path) && Follows(origins, Tag(channel, mark), path)
                             && text == Render(channel, path)
    ensures !Has(labels, Tag(channel, mark)) ==> text == channel
  {
    ghost var rank :| Ranked(flows, seeds, labels, origins, rank);
    ghost var path := if Tag(channel, mark) in origins then Walk(flows, seeds, labels, origins, rank,
        Tag(channel, mark)) else [];
    ghost var rest := path;
    var hops: seq<string> := [];
    var current := channel;
    while true
      invariant hops + Hops(current, rest) == Hops(channel, path)
      invariant Tag(current, mark) in origins ==> Follows(origins, Tag(current, mark), rest)
      invariant Tag(current, mark) !in origins ==> rest == []
      decreases |rest|
    {
      hops := hops + [current];
      if Tag(current, mark) !in origins || origins[Tag(current, mark)].None? { break; }
      var back := origins[Tag(current, mark)].value;
      hops := hops + ["(" + back.node + ")"];
      current := back.source;
      rest := rest[1..];
    }
    text := Join(" <- ", hops);
  }
}
