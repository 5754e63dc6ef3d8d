/**
 * What the declarations mean at run time, and the theorem that ties the checker to it: it is silent about sinks
 * if and only if no run, of any schedule and any length, delivers a forbidden item.
 */
module FlowRuns {
  import opened Text
  import opened Flow
  import opened FlowCheck

  /** A value with its provenance: the labels of the personal data it was computed from. */
  datatype Item = Item(content: string, labels: set<string>)

  /** The current value of every channel; appending channels hold several items. */
  type State = map<string, seq<Item>>

  function Items(st: State, channel: string): seq<Item> {
    if channel in st then st[channel] else []
  }

  /** One item a node looks at while computing. */
  datatype Use = Use(channel: string, item: Item)

  /** The provenance a node's result inherits from what it used: redacted channels lose RAW. */
  function Taint(spec: NodeFlow, used: set<Use>): set<string> {
    set u, l | u in used && l in u.item.labels && !(l == RAW && u.channel in spec.redacts) :: l
  }

  ghost predicate CanUse(spec: NodeFlow, st: State, used: set<Use>) {
    forall u :: u in used ==> u.channel in spec.readSet && u.item in Items(st, u.channel)
  }

  /** `item` is computed by the node from something it reads in `st`. */
  ghost predicate Computed(spec: NodeFlow, st: State, item: Item) {
    exists used :: CanUse(spec, st, used) && item.labels == Taint(spec, used)
  }

  /** A channel is overwritten with, or extended by, `fresh` items. */
  predicate Put(before: seq<Item>, after: seq<Item>, items: seq<Item>) {
    after == items || after == before + items
  }

  ghost predicate NodeWrites(spec: NodeFlow, st: State, st': State, channel: string) {
    exists items :: Put(Items(st, channel), Items(st', channel), items) &&
      forall item: Item :: item in items ==>
        if channel in spec.declassifies then item.labels == {} else Computed(spec, st, item)
  }

  /** One execution of a declared node. */
  ghost predicate NodeStep(d: Decl, st: State, st': State) {
    forall channel {:trigger Items(st', channel)} ::
      if channel in d.spec.writeSet then NodeWrites(d.spec, st, st', channel)
          else Items(st', channel) == Items(st, channel)
  }

  ghost predicate Seeded(seeds: Labels, channel: string, items: seq<Item>) {
    forall item: Item :: item in items ==> item.labels <= At(seeds, channel)
  }

  /** Data arriving from outside the graph: user input on a seeded channel, unlabelled data anywhere. */
  ghost predicate Arrival(seeds: Labels, st: State, st': State) {
    forall channel {:trigger Items(st', channel)} ::
      exists items :: Put(Items(st, channel), Items(st', channel), items) && Seeded(seeds, channel, items)
  }

  ghost predicate Step(flows: seq<Decl>, seeds: Labels, st: State, st': State) {
    Arrival(seeds, st, st') || exists d :: d in flows && NodeStep(d, st, st')
  }

  /** Any schedule of nodes and arrivals, of any length. */
  ghost predicate IsRun(flows: seq<Decl>, seeds: Labels, run: seq<State>) {
    && run != []
    && (forall channel :: Seeded(seeds, channel, Items(run[0], channel)))
    && (forall i {:trigger run[i]} :: 0 < i < |run| ==> Step(flows, seeds, run[i - 1], run[i]))
  }

  /** In state `st` node `d` may hand `item` to `sink`. */
  ghost predicate Delivers(flows: seq<Decl>, st: State, d: Decl, sink: Sink, item: Item) {
    d in flows && sink in d.spec.sinks && Computed(d.spec, st, item)
  }

  predicate Allowed(sink: Sink, labels: set<string>, erasable: set<string>, unerasable: set<string>) {
    && labels <= sink.accepts
    && (SUBJECT in labels && sink.kind == Store ==> sink.name in erasable && sink.name !in unerasable)
  }

  ghost predicate Safe(flows: seq<Decl>, run: seq<State>, erasable: set<string>, unerasable: set<string>) {
    forall i, d, sink, item :: 0 <= i < |run| && Delivers(flows, run[i], d, sink, item) ==>
      Allowed(sink, item.labels, erasable, unerasable)
  }

  /** Every label in a state is one the analysis predicts. */
  ghost predicate Predicted(flows: seq<Decl>, seeds: Labels, st: State) {
    forall channel, item, l :: item in Items(st, channel) && l in item.labels ==> Reached(flows, seeds, channel, l)
  }

  lemma {:induction false} ComputedArrives(flows: seq<Decl>, seeds: Labels, d: Decl, st: State, item: Item,
                                           mark: string)
    requires Predicted(flows, seeds, st) && d in flows && Computed(d.spec, st, item) && mark in item.labels
    ensures Arrives(flows, seeds, d.spec, mark)
  {
    var used :| CanUse(d.spec, st, used) && item.labels == Taint(d.spec, used);
    var u: Use :| u in used && mark in u.item.labels && !(mark == RAW && u.channel in d.spec.redacts);
    assert Reached(flows, seeds, u.channel, mark);
  }

  lemma {:induction false} NodeStepPredicted(flows: seq<Decl>, seeds: Labels, d: Decl, st: State, st': State)
    requires Predicted(flows, seeds, st) && d in flows && NodeStep(d, st, st')
    ensures Predicted(flows, seeds, st')
  {
    forall channel, item, l | item in Items(st', channel) && l in item.labels
      ensures Reached(flows, seeds, channel, l)
    {
      if item in Items(st, channel) {
      } else {
        assert NodeWrites(d.spec, st, st', channel);
        assert Computed(d.spec, st, item) && channel !in d.spec.declassifies;
        ComputedArrives(flows, seeds, d, st, item, l);
        var c :| c in d.spec.readSet && Reached(flows, seeds, c, l) && !(l == RAW && c in d.spec.redacts);
        ReachedStep(flows, seeds, d, c, channel, l);
      }
    }
  }

  lemma {:induction false} SeededReached(flows: seq<Decl>, seeds: Labels, channel: string, mark: string)
    requires mark in At(seeds, channel)
    ensures Reached(flows, seeds, channel, mark)
  {
    assert IsPath(flows, seeds, mark, channel, []);
  }

  lemma {:induction false} ArrivalPredicted(flows: seq<Decl>, seeds: Labels, st: State, st': State)
    requires Predicted(flows, seeds, st) && Arrival(seeds, st, st')
    ensures Predicted(flows, seeds, st')
  {
    forall channel, item, l | item in Items(st', channel) && l in item.labels
      ensures Reached(flows, seeds, channel, l)
    {
      var items :| Put(Items(st, channel), Items(st', channel), items) && Seeded(seeds, channel, items);
      if item !in Items(st, channel) {
        assert item in items && item.labels <= At(seeds, channel);
        SeededReached(flows, seeds, channel, l);
      }
    }
  }

  /** Along every run, only predicted labels occur. */
  lemma {:induction false} RunPredicted(flows: seq<Decl>, seeds: Labels, run: seq<State>, i: nat)
    requires IsRun(flows, seeds, run) && i < |run|
    ensures Predicted(flows, seeds, run[i])
    decreases i
  {
    if i == 0 {
      forall channel, item, l | item in Items(run[0], channel) && l in item.labels
        ensures Reached(flows, seeds, channel, l)
      {
        assert Seeded(seeds, channel, Items(run[0], channel));
        SeededReached(flows, seeds, channel, l);
      }
    } else {
      RunPredicted(flows, seeds, run, i - 1);
      if Arrival(seeds, run[i - 1], run[i]) {
        ArrivalPredicted(flows, seeds, run[i - 1], run[i]);
      } else {
        var d :| d in flows && NodeStep(d, run[i - 1], run[i]);
        NodeStepPredicted(flows, seeds, d, run[i - 1], run[i]);
      }
    }
  }

  /** Every predicted label is real: some run puts exactly it on the channel, by executing the path. */
  lemma {:induction false} PathRun(flows: seq<Decl>, seeds: Labels, mark: string, channel: string, path: seq<Hop>)
    returns (run: seq<State>)
    requires IsPath(flows, seeds, mark, channel, path)
    ensures IsRun(flows, seeds, run)
    ensures Item("", {mark}) in Items(run[|run| - 1], channel)
    decreases |path|
  {
    var item := Item("", {mark});
    if path == [] {
      run := [map[channel := [item]]];
    } else {
      var source, spec := path[0].source, path[0].decl.spec;
      var prefix := PathRun(flows, seeds, mark, source, path[1..]);
      var st := prefix[|prefix| - 1];
      var st' := st[channel := Items(st, channel) + [item]];
      HopStep(path[0].decl, mark, source, channel, st);
      run := prefix + [st'];
      forall i | 0 < i < |run| ensures Step(flows, seeds, run[i - 1], run[i]) {
        if i < |prefix| { assert run[i - 1] == prefix[i - 1] && run[i] == prefix[i]; }
      }
    }
  }

  lemma UseOne(spec: NodeFlow, st: State, source: string, mark: string)
    requires source in spec.readSet && Item("", {mark}) in Items(st, source) && !(mark == RAW && source in spec.redacts)
    ensures Computed(spec, st, Item("", {mark}))
  {
    var used := {Use(source, Item("", {mark}))};
    assert CanUse(spec, st, used);
    assert Taint(spec, used) == {mark};
  }

  lemma HopStep(d: Decl, mark: string, source: string, channel: string, st: State)
    requires Carries(d.spec, source, channel, mark) && Item("", {mark}) in Items(st, source)
    ensures NodeStep(d, st, st[channel := Items(st, channel) + [Item("", {mark})]])
  {
    var st' := st[channel := Items(st, channel) + [Item("", {mark})]];
    UseOne(d.spec, st, source, mark);
    forall c ensures if c in d.spec.writeSet then NodeWrites(d.spec, st, st', c) else Items(st', c) == Items(st, c) {
      var items := if c == channel then [Item("", {mark})] else [];
      assert Put(Items(st, c), Items(st', c), items);
    }
  }

  /** A label that statically arrives at a node is handed to each of its sinks in some run. */
  lemma {:induction false} ArrivesDelivered(flows: seq<Decl>, seeds: Labels, d: Decl, sink: Sink, mark: string)
    returns (run: seq<State>)
    requires d in flows && sink in d.spec.sinks && Arrives(flows, seeds, d.spec, mark)
    ensures IsRun(flows, seeds, run)
    ensures Delivers(flows, run[|run| - 1], d, sink, Item("", {mark}))
  {
    var c :| c in d.spec.readSet && Reached(flows, seeds, c, mark) && !(mark == RAW && c in d.spec.redacts);
    var path :| IsPath(flows, seeds, mark, c, path);
    run := PathRun(flows, seeds, mark, c, path);
    UseOne(d.spec, run[|run| - 1], c, mark);
  }

  ghost predicate SinksClean(flows: seq<Decl>, seeds: Labels, graphNodes: set<string>, channels: set<string>,
                             erasable: set<string>, unerasable: set<string>) {
    forall r: Report :: r.Leak? || r.Unerasable? ==>
        !Warranted(flows, seeds, graphNodes, channels, erasable, unerasable, r)
  }

  /** Soundness: a clean check means that no run leaks. */
  lemma {:induction false} CleanIsSafe(flows: seq<Decl>, seeds: Labels, graphNodes: set<string>, channels: set<string>,
                                       erasable: set<string>, unerasable: set<string>, run: seq<State>)
    requires SinksClean(flows, seeds, graphNodes, channels, erasable, unerasable) && IsRun(flows, seeds, run)
    ensures Safe(flows, run, erasable, unerasable)
  {
    forall i, d, sink, item | 0 <= i < |run| && Delivers(flows, run[i], d, sink, item)
      ensures Allowed(sink, item.labels, erasable, unerasable)
    {
      RunPredicted(flows, seeds, run, i);
      forall l | l in item.labels ensures l in sink.accepts {
        ComputedArrives(flows, seeds, d, run[i], item, l);
        assert !Warranted(flows, seeds, graphNodes, channels, erasable, unerasable, Leak(d.node, l, sink));
      }
      if SUBJECT in item.labels && sink.kind == Store {
        ComputedArrives(flows, seeds, d, run[i], item, SUBJECT);
        assert !Warranted(flows, seeds, graphNodes, channels, erasable, unerasable, Unerasable(d.node, sink.name));
      }
    }
  }

  /** Completeness: what the check reports about a sink really happens in some run. */
  lemma {:induction false} WarrantedIsUnsafe(flows: seq<Decl>, seeds: Labels, graphNodes: set<string>,
                                             channels: set<string>, erasable: set<string>, unerasable: set<string>,
                                             r: Report)
    returns (run: seq<State>)
    requires (r.Leak? || r.Unerasable?) && Warranted(flows, seeds, graphNodes, channels, erasable, unerasable, r)
    ensures IsRun(flows, seeds, run) && !Safe(flows, run, erasable, unerasable)
  {
    var mark := if r.Leak? then r.mark else SUBJECT;
    var d, sink;
    if r.Leak? {
      sink := r.sink;
      d :| d in flows && d.node == r.node && sink in d.spec.sinks && mark !in sink.accepts
          && Arrives(flows, seeds, d.spec, mark);
    } else {
      d, sink :| d in flows && d.node == r.node && sink in d.spec.sinks && sink.name == r.name && sink.kind == Store
        && !Erases(r.name, erasable, unerasable) && Arrives(flows, seeds, d.spec, SUBJECT);
    }
    assert !Allowed(sink, {mark}, erasable, unerasable);
    run := ArrivesDelivered(flows, seeds, d, sink, mark);
    assert Delivers(flows, run[|run| - 1], d, sink, Item("", {mark}));
  }

  /** The checker's sink rules are exact: silent if and only if every run is safe. */
  lemma {:induction false} CheckIsExact(flows: seq<Decl>, seeds: Labels, graphNodes: set<string>, channels: set<string>,
                                        erasable: set<string>, unerasable: set<string>)
    ensures SinksClean(flows, seeds, graphNodes, channels, erasable, unerasable) <==>
              forall run :: IsRun(flows, seeds, run) ==> Safe(flows, run, erasable, unerasable)
  {
    if SinksClean(flows, seeds, graphNodes, channels, erasable, unerasable) {
      forall run | IsRun(flows, seeds, run) ensures Safe(flows, run, erasable, unerasable) {
        CleanIsSafe(flows, seeds, graphNodes, channels, erasable, unerasable, run);
      }
    } else {
      var r: Report :| (r.Leak? || r.Unerasable?)
        && Warranted(flows, seeds, graphNodes, channels, erasable, unerasable, r);
      var run := WarrantedIsUnsafe(flows, seeds, graphNodes, channels, erasable, unerasable, r);
    }
  }

  /**
   * The guarantee for the caller of `CheckFlows`: no sink or erasure violation in its result if and only if every run
   * is safe.
   */
  lemma {:induction false} SilentMeansSafe(flows: seq<Decl>, seeds: Labels, graphNodes: set<string>,
                                           channels: set<string>, erasable: set<string>, unerasable: set<string>,
                                           violations: seq<Violation>)
    requires forall r :: r in Reports(violations) <==>
             Warranted(flows, seeds, graphNodes, channels, erasable, unerasable, r)
    ensures (forall v :: v in violations ==> !v.detail.SinkRejects? && !v.detail.NotErasable?) <==>
              forall run :: IsRun(flows, seeds, run) ==> Safe(flows, run, erasable, unerasable)
  {
    CheckIsExact(flows, seeds, graphNodes, channels, erasable, unerasable);
    if v :| v in violations && (v.detail.SinkRejects? || v.detail.NotErasable?) {
      assert ReportOf(v) in Reports(violations);
    }
  }
}
