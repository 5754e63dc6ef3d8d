/** The checker over the analysis (`check_flows` of course_discovery/privacy/flow.py). */
module FlowCheck {
  import opened Text
  import opened Flow

  datatype Detail =
    | NoDeclaration
    | UnknownChannels(names: string)
    | SinkRejects(mark: string, sink: Sink, trace: string)
    | NotErasable(name: string)

  /**
   * One reported violation; its rule (coverage, unknown-channel, sink-accepts, erasable) is the constructor of
   * `detail`.
   */
  datatype Violation = Violation(node: string, detail: Detail)

  /** What a violation is about, without the printed trace. */
  datatype Report =
    | Undeclared(node: string)
    | Unknown(node: string, names: string)
    | Leak(node: string, mark: string, sink: Sink)
    | Unerasable(node: string, name: string)

  function ReportOf(v: Violation): Report {
    match v.detail
    case NoDeclaration => Undeclared(v.node)
    case UnknownChannels(names) => Unknown(v.node, names)
    case SinkRejects(mark, sink, _) => Leak(v.node, mark, sink)
    case NotErasable(name) => Unerasable(v.node, name)
  }

  function Reports(vs: seq<Violation>): (rs: set<Report>)
    ensures forall v :: v in vs ==> ReportOf(v) in rs
    ensures forall r :: r in rs ==> exists v :: v in vs && ReportOf(v) == r
  {
    set v | v in vs :: ReportOf(v)
  }

  // ----- the reports in their order -----

  function ReportList(vs: seq<Violation>): (rs: seq<Report>)
    ensures |rs| == |vs| && forall i :: 0 <= i < |vs| ==> rs[i] == ReportOf(vs[i])
  {
    seq(|vs|, i requires 0 <= i < |vs| => ReportOf(vs[i]))
  }

  lemma ReportsAre(vs: seq<Violation>, r: Report)
    ensures r in Reports(vs) <==> r in ReportList(vs)
  {
    if r in Reports(vs) {
      var i :| 0 <= i < |vs| && ReportOf(vs[i]) == r;
      assert ReportList(vs)[i] == r;
    }
    if r in ReportList(vs) {
      var i :| 0 <= i < |vs| && ReportList(vs)[i] == r;
      assert vs[i] in vs;
    }
  }

  lemma ListAppend(a: seq<Violation>, b: seq<Violation>)
    ensures ReportList(a + b) == ReportList(a) + ReportList(b)
  {
  }

  lemma ListPush(vs: seq<Violation>, v: Violation)
    ensures ReportList(vs + [v]) == ReportList(vs) + [ReportOf(v)]
  {
  }

  function CoverageList(missing: seq<string>): seq<Report> {
    if missing == [] then [] else CoverageList(missing[..|missing| - 1]) + [Undeclared(missing[|missing| - 1])]
  }

  function UnknownReports(d: Decl, channels: set<string>): seq<Report> {
    if UnknownNames(d.spec, channels) == {} then [] else [ReportOf(UnknownViolation(d, channels))]
  }

  function ChannelList(flows: seq<Decl>, channels: set<string>): seq<Report> {
    if flows == [] then []
    else
      var n := |flows| - 1;
      ChannelList(flows[..n], channels) + UnknownReports(flows[n], channels)
  }

  function LeakList(node: string, sink: Sink, marks: seq<string>): seq<Report> {
    if marks == [] then []
    else LeakList(node, sink, marks[..|marks| - 1]) + [Leak(node, marks[|marks| - 1], sink)]
  }

  /** What one sink gets: the rejected labels in sorted order, and then whether erasure misses it. */
  function SinkList(d: Decl, incoming: set<string>, sink: Sink, erasable: set<string>, unerasable: set<string>)
    : seq<Report>
  {
    LeakList(d.node, sink, Sorted(incoming - sink.accepts))
    + (if sink.kind == Store && SUBJECT in incoming && !Erases(sink.name, erasable, unerasable)
       then [Unerasable(d.node, sink.name)] else [])
  }

  function NodeList(d: Decl, incoming: set<string>, sinks: seq<Sink>, erasable: set<string>, unerasable: set<string>)
    : seq<Report>
  {
    if sinks == [] then []
    else
      var n := |sinks| - 1;
      NodeList(d, incoming, sinks[..n], erasable, unerasable) + SinkList(d, incoming, sinks[n], erasable, unerasable)
  }

  function SinksList(flows: seq<Decl>, labels: Labels, erasable: set<string>, unerasable: set<string>): seq<Report> {
    if flows == [] then []
    else
      var n := |flows| - 1;
      var d := flows[n];
      SinksList(flows[..n], labels, erasable, unerasable)
      + NodeList(d, Inputs(d.spec, labels), d.spec.sinks, erasable, unerasable)
  }

  function Declared(flows: seq<Decl>): set<string> {
    set d | d in flows :: d.node
  }

  /** Every report in its place: missing nodes sorted, then the declarations in their order, twice. */
  function AllReports(flows: seq<Decl>, labels: Labels, graphNodes: set<string>, channels: set<string>,
                      erasable: set<string>, unerasable: set<string>): seq<Report> {
    CoverageList(Sorted(graphNodes - Declared(flows))) + ChannelList(flows, channels)
    + SinksList(flows, labels, erasable, unerasable)
  }

  /** Data carrying `mark` arrives at the node declared by `spec`, after its redaction. */
  ghost predicate Arrives(flows: seq<Decl>, seeds: Labels, spec: NodeFlow, mark: string) {
    exists c :: c in spec.readSet && Reached(flows, seeds, c, mark) && !(mark == RAW && c in spec.redacts)
  }

  predicate Erases(name: string, erasable: set<string>, unerasable: set<string>) {
    name !in unerasable && name in erasable
  }

  function UnknownNames(spec: NodeFlow, channels: set<string>): set<string> {
    spec.readSet + spec.writeSet + spec.redacts + spec.declassifies.Keys - channels
  }

  function UnknownViolation(d: Decl, channels: set<string>): (v: Violation)
    ensures ReportOf(v).Unknown?
  {
    Violation(d.node, UnknownChannels(Join(", ", Sorted(UnknownNames(d.spec, channels)))))
  }

  ghost predicate CoverageWarrants(flows: seq<Decl>, graphNodes: set<string>, r: Report) {
    r.Undeclared? && r.node in graphNodes && forall d :: d in flows ==> d.node != r.node
  }

  ghost predicate UnknownWarrants(d: Decl, channels: set<string>, r: Report) {
    UnknownNames(d.spec, channels) != {} && r == ReportOf(UnknownViolation(d, channels))
  }

  ghost predicate SomeUnknown(flows: seq<Decl>, channels: set<string>, r: Report) {
    exists d :: d in flows && UnknownWarrants(d, channels, r)
  }

  ghost predicate SinkWarrants(d: Decl, incoming: set<string>, sink: Sink, erasable: set<string>,
                               unerasable: set<string>, r: Report) {
    || (r.Leak? && r.node == d.node && r.sink == sink && r.mark in incoming && r.mark !in sink.accepts)
    || (r == Unerasable(d.node, sink.name) && sink.kind == Store && SUBJECT in incoming
        && !Erases(sink.name, erasable, unerasable))
  }

  /** The meaning of every report, in terms of paths only. */
  ghost predicate Warranted(flows: seq<Decl>, seeds: Labels, graphNodes: set<string>, channels: set<string>,
                            erasable: set<string>, unerasable: set<string>, r: Report) {
    match r
    case Undeclared(_) => CoverageWarrants(flows, graphNodes, r)
    case Unknown(_, _) => SomeUnknown(flows, channels, r)
    case Leak(node, mark, sink) =>
      exists d :: d in flows && d.node == node && sink in d.spec.sinks && mark !in sink.accepts
          && Arrives(flows, seeds, d.spec, mark)
    case Unerasable(node, name) =>
      exists d, sink :: d in flows && d.node == node && sink in d.spec.sinks && sink.name == name && sink.kind == Store
        && !Erases(name, erasable, unerasable) && Arrives(flows, seeds, d.spec, SUBJECT)
  }

  lemma InputsArrive(flows: seq<Decl>, seeds: Labels, labels: Labels, spec: NodeFlow, mark: string)
    requires IsLeast(flows, seeds, labels)
    ensures mark in Inputs(spec, labels) <==> Arrives(flows, seeds, spec, mark)
  {
    if mark in Inputs(spec, labels) {
      var c :| c in spec.readSet && mark in Seen(spec, labels, c);
      assert Reached(flows, seeds, c, mark);
    }
    if Arrives(flows, seeds, spec, mark) {
      var c :| c in spec.readSet && Reached(flows, seeds, c, mark) && !(mark == RAW && c in spec.redacts);
      assert mark in At(labels, c);
      assert mark in Seen(spec, labels, c);
    }
  }

  /** The printed trace of a sink violation is a genuine path to data that the node reads. */
  ghost predicate Traced(flows: seq<Decl>, seeds: Labels, v: Violation) {
    v.detail.SinkRejects? ==>
      exists d, c, path :: d in flows && d.node == v.node && c in d.spec.readSet
          && !(v.detail.mark == RAW && c in d.spec.redacts)
        && IsPath(flows, seeds, v.detail.mark, c, path) && v.detail.trace == Render(c, path)
  }

  // ----- what the lists contain -----

  lemma {:induction false} CoverageMeans(missing: seq<string>, r: Report)
    ensures r in CoverageList(missing) <==> r.Undeclared? && r.node in missing
    decreases |missing|
  {
    if missing == [] {
    } else {
      var n := |missing| - 1;
      CoverageMeans(missing[..n], r);
      assert missing == missing[..n] + [missing[n]];
    }
  }

  lemma CoverageIs(flows: seq<Decl>, graphNodes: set<string>, r: Report)
    ensures r in CoverageList(Sorted(graphNodes - Declared(flows))) <==> CoverageWarrants(flows, graphNodes, r)
  {
    CoverageMeans(Sorted(graphNodes - Declared(flows)), r);
    if r.Undeclared? { assert r.node in Declared(flows) <==> exists d :: d in flows && d.node == r.node; }
  }

  lemma {:induction false} ChannelMeans(flows: seq<Decl>, channels: set<string>, r: Report)
    ensures r in ChannelList(flows, channels) <==> SomeUnknown(flows, channels, r)
    decreases |flows|
  {
    if flows == [] {
    } else {
      var n := |flows| - 1;
      ChannelMeans(flows[..n], channels, r);
      assert flows == flows[..n] + [flows[n]];
      SomeUnknownSnoc(flows[..n], flows[n], channels, r);
    }
  }

  lemma SomeUnknownSnoc(flows: seq<Decl>, d: Decl, channels: set<string>, r: Report)
    ensures SomeUnknown(flows + [d], channels, r) <==>
            SomeUnknown(flows, channels, r) || UnknownWarrants(d, channels, r)
  {
    if UnknownWarrants(d, channels, r) { assert d in flows + [d]; }
  }

  /** A declaration is reported exactly if a channel that it reads, writes, redacts or declassifies is unknown. */
  lemma UnknownExactly(d: Decl, channels: set<string>, r: Report)
    ensures UnknownWarrants(d, channels, r) <==>
              (exists c :: c !in channels
                 && (c in d.spec.readSet || c in d.spec.writeSet || c in d.spec.redacts || c in d.spec.declassifies))
              && r == Unknown(d.node, Join(", ", Sorted(
                   d.spec.readSet + d.spec.writeSet + d.spec.redacts + d.spec.declassifies.Keys - channels)))
  {
    if c :| c !in channels
            && (c in d.spec.readSet || c in d.spec.writeSet || c in d.spec.redacts || c in d.spec.declassifies)
    {
      assert c in UnknownNames(d.spec, channels);
    }
  }

  lemma {:induction false} LeakMeans(node: string, sink: Sink, marks: seq<string>, r: Report)
    ensures r in LeakList(node, sink, marks) <==> r.Leak? && r.node == node && r.sink == sink && r.mark in marks
    decreases |marks|
  {
    if marks == [] {
    } else {
      var n := |marks| - 1;
      LeakMeans(node, sink, marks[..n], r);
      assert marks == marks[..n] + [marks[n]];
    }
  }

  lemma SinkMeans(d: Decl, incoming: set<string>, sink: Sink, erasable: set<string>, unerasable: set<string>, r: Report)
    ensures r in SinkList(d, incoming, sink, erasable, unerasable) <==>
            SinkWarrants(d, incoming, sink, erasable, unerasable, r)
  {
    LeakMeans(d.node, sink, Sorted(incoming - sink.accepts), r);
  }

  ghost predicate NodeWarrants(d: Decl, incoming: set<string>, sinks: seq<Sink>, erasable: set<string>,
                               unerasable: set<string>, r: Report) {
    exists sink :: sink in sinks && SinkWarrants(d, incoming, sink, erasable, unerasable, r)
  }

  lemma {:induction false} NodeMeans(d: Decl, incoming: set<string>, sinks: seq<Sink>, erasable: set<string>,
                                     unerasable: set<string>, r: Report)
    ensures r in NodeList(d, incoming, sinks, erasable, unerasable) <==>
            NodeWarrants(d, incoming, sinks, erasable, unerasable, r)
    decreases |sinks|
  {
    if sinks == [] {
    } else {
      var n := |sinks| - 1;
      NodeMeans(d, incoming, sinks[..n], erasable, unerasable, r);
      NodeMeansSnoc(d, incoming, sinks[..n], sinks[n], sinks, erasable, unerasable, r);
    }
  }

  lemma NodeMeansSnoc(d: Decl, incoming: set<string>, sinks: seq<Sink>, last: Sink, all: seq<Sink>,
                      erasable: set<string>, unerasable: set<string>, r: Report)
    requires all == sinks + [last]
    requires r in NodeList(d, incoming, sinks, erasable, unerasable) <==>
             NodeWarrants(d, incoming, sinks, erasable, unerasable, r)
    ensures r in NodeList(d, incoming, all, erasable, unerasable) <==>
            NodeWarrants(d, incoming, all, erasable, unerasable, r)
  {
    SinkMeans(d, incoming, last, erasable, unerasable, r);
    NodeWarrantsSnoc(d, incoming, sinks, last, erasable, unerasable, r);
    NodeListSnoc(d, incoming, sinks, last, erasable, unerasable);
  }

  lemma NodeListSnoc(d: Decl, incoming: set<string>, sinks: seq<Sink>, last: Sink, erasable: set<string>,
                     unerasable: set<string>)
    ensures NodeList(d, incoming, sinks + [last], erasable, unerasable) ==
            NodeList(d, incoming, sinks, erasable, unerasable) + SinkList(d, incoming, last, erasable, unerasable)
  {
    assert (sinks + [last])[..|sinks|] == sinks;
  }

  lemma NodeWarrantsSnoc(d: Decl, incoming: set<string>, sinks: seq<Sink>, last: Sink, erasable: set<string>,
                         unerasable: set<string>, r: Report)
    ensures NodeWarrants(d, incoming, sinks + [last], erasable, unerasable, r) <==>
            NodeWarrants(d, incoming, sinks, erasable, unerasable, r)
            || SinkWarrants(d, incoming, last, erasable, unerasable, r)
  {
    if SinkWarrants(d, incoming, last, erasable, unerasable, r) { assert last in sinks + [last]; }
  }

  ghost predicate SinksWarrant(flows: seq<Decl>, labels: Labels, erasable: set<string>, unerasable: set<string>,
                               r: Report) {
    exists d :: d in flows && NodeWarrants(d, Inputs(d.spec, labels), d.spec.sinks, erasable, unerasable, r)
  }

  lemma {:induction false} SinksMean(flows: seq<Decl>, labels: Labels, erasable: set<string>, unerasable: set<string>,
                                     r: Report)
    ensures r in SinksList(flows, labels, erasable, unerasable) <==>
            SinksWarrant(flows, labels, erasable, unerasable, r)
    decreases |flows|
  {
    if flows == [] {
    } else {
      var n := |flows| - 1;
      var d := flows[n];
      SinksMean(flows[..n], labels, erasable, unerasable, r);
      NodeMeans(d, Inputs(d.spec, labels), d.spec.sinks, erasable, unerasable, r);
      assert flows == flows[..n] + [d];
    }
  }

  // ----- the checker -----

  method CheckCoverage(flows: seq<Decl>, graphNodes: set<string>) returns (violations: seq<Violation>)
    ensures ReportList(violations) == CoverageList(Sorted(graphNodes - Declared(flows)))
    ensures forall r :: r in Reports(violations) <==> CoverageWarrants(flows, graphNodes, r)
    ensures forall v :: v in violations ==> !v.detail.SinkRejects?
  {
    var missing := Sorted(graphNodes - Declared(flows));
    violations := [];
    for i := 0 to |missing|
      invariant forall v :: v in violations ==> !v.detail.SinkRejects?
      invariant ReportList(violations) == CoverageList(missing[..i])
    {
      var v := Violation(missing[i], NoDeclaration);
      ListPush(violations, v);
      violations := violations + [v];
      assert missing[..i + 1][..i] == missing[..i];
    }
    assert missing[..|missing|] == missing;
    forall r ensures r in Reports(violations) <==> CoverageWarrants(flows, graphNodes, r) {
      ReportsAre(violations, r);
      CoverageIs(flows, graphNodes, r);
    }
  }

  lemma ChannelListMore(flows: seq<Decl>, channels: set<string>, i: nat)
    requires i < |flows|
    ensures ChannelList(flows[..i + 1], channels) ==
            ChannelList(flows[..i], channels) + UnknownReports(flows[i], channels)
  {
    assert flows[..i + 1][..i] == flows[..i];
  }

  lemma ChannelsReported(flows: seq<Decl>, channels: set<string>, violations: seq<Violation>)
    requires ReportList(violations) == ChannelList(flows, channels)
    ensures forall r :: r in Reports(violations) <==> SomeUnknown(flows, channels, r)
  {
    forall r ensures r in Reports(violations) <==> SomeUnknown(flows, channels, r) {
      ReportsAre(violations, r);
      ChannelMeans(flows, channels, r);
    }
  }

  method CheckChannels(flows: seq<Decl>, channels: set<string>) returns (violations: seq<Violation>)
    ensures ReportList(violations) == ChannelList(flows, channels)
    ensures forall r :: r in Reports(violations) <==> SomeUnknown(flows, channels, r)
    ensures forall v :: v in violations ==> !v.detail.SinkRejects?
  {
    violations := [];
    for i := 0 to |flows|
      invariant forall v :: v in violations ==> !v.detail.SinkRejects?
      invariant ReportList(violations) == ChannelList(flows[..i], channels)
    {
      ChannelListMore(flows, channels, i);
      if UnknownNames(flows[i].spec, channels) != {} {
        var v := UnknownViolation(flows[i], channels);
        ListPush(violations, v);
        violations := violations + [v];
      }
    }
    assert flows[..|flows|] == flows;
    ChannelsReported(flows, channels, violations);
  }

  lemma TracedFrom(flows: seq<Decl>, seeds: Labels, origins: Origins, d: Decl, source: string, v: Violation,
                   path: seq<Hop>)
    requires d in flows && d.node == v.node && v.detail.SinkRejects?
    requires source in d.spec.readSet && !(v.detail.mark == RAW && source in d.spec.redacts)
    requires IsPath(flows, seeds, v.detail.mark, source, path) && v.detail.trace == Render(source, path)
    ensures Traced(flows, seeds, v)
  {}

  /** The report of one rejected label, with its trace. */
  method Reject(flows: seq<Decl>, ghost seeds: Labels, labels: Labels, origins: Origins, d: Decl, sink: Sink,
                mark: string)
    returns (v: Violation)
    requires Founded(flows, seeds, labels, origins) && d in flows && mark in Inputs(d.spec, labels)
    ensures ReportOf(v) == Leak(d.node, mark, sink) && Traced(flows, seeds, v)
  {
    var source := Source(d.spec, labels, mark);
    assert Has(labels, Tag(source, mark));
    var trace := Trace(source, mark, origins, flows, seeds, labels);
    v := Violation(d.node, SinkRejects(mark, sink, trace));
    ghost var path :| IsPath(flows, seeds, mark, source, path) && Follows(origins, Tag(source, mark), path)
        && trace == Render(source, path);
    TracedFrom(flows, seeds, origins, d, source, v, path);
  }

  method RejectAll(flows: seq<Decl>, ghost seeds: Labels, labels: Labels, origins: Origins, d: Decl, sink: Sink,
                   rejected: seq<string>)
    returns (violations: seq<Violation>)
    requires Founded(flows, seeds, labels, origins) && d in flows
    requires forall l :: l in rejected ==> l in Inputs(d.spec, labels)
    ensures ReportList(violations) == LeakList(d.node, sink, rejected)
    ensures forall v :: v in violations ==> Traced(flows, seeds, v)
  {
    violations := [];
    for i := 0 to |rejected|
      invariant forall v :: v in violations ==> Traced(flows, seeds, v)
      invariant ReportList(violations) == LeakList(d.node, sink, rejected[..i])
    {
      assert rejected[i] in rejected;
      var v := Reject(flows, seeds, labels, origins, d, sink, rejected[i]);
      ListPush(violations, v);
      violations := violations + [v];
      assert rejected[..i + 1][..i] == rejected[..i];
    }
    assert rejected[..|rejected|] == rejected;
  }

  /** One sink of one node. */
  method CheckSink(flows: seq<Decl>, ghost seeds: Labels, labels: Labels, origins: Origins, d: Decl, sink: Sink,
                   erasable: set<string>, unerasable: set<string>)
    returns (violations: seq<Violation>)
    requires Founded(flows, seeds, labels, origins) && d in flows
    ensures ReportList(violations) == SinkList(d, Inputs(d.spec, labels), sink, erasable, unerasable)
    ensures forall r :: r in Reports(violations) <==>
            SinkWarrants(d, Inputs(d.spec, labels), sink, erasable, unerasable, r)
    ensures forall v :: v in violations ==> Traced(flows, seeds, v)
  {
    var incoming := Inputs(d.spec, labels);
    var rejected := Sorted(incoming - sink.accepts);
    assert forall l :: l in rejected <==> l in incoming && l !in sink.accepts;
    violations := RejectAll(flows, seeds, labels, origins, d, sink, rejected);
    if sink.kind == Store && SUBJECT in incoming {
      if sink.name in unerasable || sink.name !in erasable {
        var v := Violation(d.node, NotErasable(sink.name));
        ListPush(violations, v);
        violations := violations + [v];
      }
    }
    forall r ensures r in Reports(violations) <==> SinkWarrants(d, incoming, sink, erasable, unerasable, r) {
      ReportsAre(violations, r);
      SinkMeans(d, incoming, sink, erasable, unerasable, r);
    }
  }

  method CheckNode(flows: seq<Decl>, ghost seeds: Labels, labels: Labels, origins: Origins, d: Decl,
                   erasable: set<string>, unerasable: set<string>)
    returns (violations: seq<Violation>)
    requires Founded(flows, seeds, labels, origins) && d in flows
    ensures ReportList(violations) == NodeList(d, Inputs(d.spec, labels), d.spec.sinks, erasable, unerasable)
    ensures forall v :: v in violations ==> Traced(flows, seeds, v)
  {
    ghost var incoming := Inputs(d.spec, labels);
    var sinks := d.spec.sinks;
    violations := [];
    for i := 0 to |sinks|
      invariant forall v :: v in violations ==> Traced(flows, seeds, v)
      invariant ReportList(violations) == NodeList(d, incoming, sinks[..i], erasable, unerasable)
    {
      var vs := CheckSink(flows, seeds, labels, origins, d, sinks[i], erasable, unerasable);
      ListAppend(violations, vs);
      NodeListMore(d, incoming, sinks, i, erasable, unerasable);
      violations := violations + vs;
    }
    assert sinks[..|sinks|] == sinks;
  }

  lemma NodeListMore(d: Decl, incoming: set<string>, sinks: seq<Sink>, i: nat, erasable: set<string>,
                     unerasable: set<string>)
    requires i < |sinks|
    ensures NodeList(d, incoming, sinks[..i + 1], erasable, unerasable) ==
            NodeList(d, incoming, sinks[..i], erasable, unerasable)
            + SinkList(d, incoming, sinks[i], erasable, unerasable)
  {
    assert sinks[..i + 1][..i] == sinks[..i];
  }

  method CheckSinks(flows: seq<Decl>, ghost seeds: Labels, labels: Labels, origins: Origins, erasable: set<string>,
                    unerasable: set<string>)
    returns (violations: seq<Violation>)
    requires Founded(flows, seeds, labels, origins)
    ensures ReportList(violations) == SinksList(flows, labels, erasable, unerasable)
    ensures forall v :: v in violations ==> Traced(flows, seeds, v)
  {
    violations := [];
    for i := 0 to |flows|
      invariant forall v :: v in violations ==> Traced(flows, seeds, v)
      invariant ReportList(violations) == SinksList(flows[..i], labels, erasable, unerasable)
    {
      assert flows[..i + 1][..i] == flows[..i];
      var vs := CheckNode(flows, seeds, labels, origins, flows[i], erasable, unerasable);
      ListAppend(violations, vs);
      violations := violations + vs;
    }
    assert flows[..|flows|] == flows;
  }

  lemma SinksWarranted(flows: seq<Decl>, seeds: Labels, labels: Labels, graphNodes: set<string>, channels: set<string>,
                       erasable: set<string>, unerasable: set<string>, r: Report)
    requires IsLeast(flows, seeds, labels)
    ensures SinksWarrant(flows, labels, erasable, unerasable, r) <==>
              (r.Leak? || r.Unerasable?) && Warranted(flows, seeds, graphNodes, channels, erasable, unerasable, r)
  {
    if SinksWarrant(flows, labels, erasable, unerasable, r) {
      var d :| d in flows && NodeWarrants(d, Inputs(d.spec, labels), d.spec.sinks, erasable, unerasable, r);
      var sink :| sink in d.spec.sinks && SinkWarrants(d, Inputs(d.spec, labels), sink, erasable, unerasable, r);
      InputsArrive(flows, seeds, labels, d.spec, if r.Leak? then r.mark else SUBJECT);
    }
    if r.Leak? && Warranted(flows, seeds, graphNodes, channels, erasable, unerasable, r) {
      var d :| d in flows && d.node == r.node && r.sink in d.spec.sinks && r.mark !in r.sink.accepts
          && Arrives(flows, seeds, d.spec, r.mark);
      InputsArrive(flows, seeds, labels, d.spec, r.mark);
      assert SinkWarrants(d, Inputs(d.spec, labels), r.sink, erasable, unerasable, r);
    }
    if r.Unerasable? && Warranted(flows, seeds, graphNodes, channels, erasable, unerasable, r) {
      var d, sink :| d in flows && d.node == r.node && sink in d.spec.sinks && sink.name == r.name && sink.kind == Store
        && !Erases(r.name, erasable, unerasable) && Arrives(flows, seeds, d.spec, SUBJECT);
      InputsArrive(flows, seeds, labels, d.spec, SUBJECT);
      assert SinkWarrants(d, Inputs(d.spec, labels), sink, erasable, unerasable, r);
    }
  }

  lemma AllMean(flows: seq<Decl>, seeds: Labels, labels: Labels, graphNodes: set<string>, channels: set<string>,
                erasable: set<string>, unerasable: set<string>, r: Report)
    requires IsLeast(flows, seeds, labels)
    ensures r in AllReports(flows, labels, graphNodes, channels, erasable, unerasable) <==>
            Warranted(flows, seeds, graphNodes, channels, erasable, unerasable, r)
  {
    CoverageIs(flows, graphNodes, r);
    ChannelMeans(flows, channels, r);
    SinksMean(flows, labels, erasable, unerasable, r);
    SinksWarranted(flows, seeds, labels, graphNodes, channels, erasable, unerasable, r);
  }

  /** The checker reports exactly what is warranted, and every trace it prints is a genuine path. */
  method CheckFlows(flows: seq<Decl>, seeds: Labels, graphNodes: set<string>, channels: set<string>,
                    erasable: set<string>, unerasable: set<string>)
    returns (violations: seq<Violation>)
    ensures forall r :: r in Reports(violations) <==>
            Warranted(flows, seeds, graphNodes, channels, erasable, unerasable, r)
    ensures forall v :: v in violations ==> Traced(flows, seeds, v)
    ensures exists labels :: IsLeast(flows, seeds, labels)
              && ReportList(violations) == AllReports(flows, labels, graphNodes, channels, erasable, unerasable)
  {
    var coverage := CheckCoverage(flows, graphNodes);
    var unknown := CheckChannels(flows, channels);
    var labels, origins := Propagate(flows, seeds);
    var sinks := CheckSinks(flows, seeds, labels, origins, erasable, unerasable);
    violations := coverage + unknown + sinks;
    ListAppend(coverage, unknown);
    ListAppend(coverage + unknown, sinks);
    forall r
      ensures r in Reports(violations) <==> Warranted(flows, seeds, graphNodes, channels, erasable, unerasable, r)
    {
      ReportsAre(violations, r);
      AllMean(flows, seeds, labels, graphNodes, channels, erasable, unerasable, r);
    }
  }
}
