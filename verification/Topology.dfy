/** Network state derived from configuration and switch states: source paths, energisation,
    radiality, feeder loads and the isolation proof. */
module Topology {
  import opened Ids
  import opened Graphs
  import opened Trees
  import opened Configuration

  datatype Quality = Good | Uncertain | Bad
  datatype Freshness = Fresh | Stale | InvalidTimestamp
  datatype Observation = Observation(state: Option<SwitchState>, quality: Option<Quality>, freshness: Option<Freshness>)

  type States = map<Id, SwitchState>
  type Sources = map<Id, SourceAvailability>

  datatype Inputs = Inputs(
    states: States, sources: Sources, faulted: set<Id>,
    activeFault: Option<Id>, observations: map<Id, Observation>)

  datatype SourcePath = SourcePath(
    sourceId: Id, feederId: Id, breakerId: Id, sectionId: Id, nodes: seq<Id>, edges: seq<Id>)
  datatype SectionState = SectionState(energised: bool, faulted: bool, feeders: set<Id>, paths: seq<SourcePath>)
  datatype FeederLoad = FeederLoad(
    normalKw: nat, supplied: set<Id>, multiply: set<Id>, loadKw: Option<nat>, complete: bool)
  datatype ProofStatus = ProvenOpen | ProvenClosed | Unproven
  datatype BoundaryEvaluation = BoundaryEvaluation(device: Id, observation: Option<Observation>, status: ProofStatus)
  datatype IsolationProof = IsolationProof(
    fault: Id, boundaries: seq<Id>, evaluations: seq<BoundaryEvaluation>, feeders: set<Id>,
    paths: seq<SourcePath>, allOpen: bool, zeroPaths: bool, isolated: bool)
  datatype Radiality = Radial | UnintendedLoop
  datatype TopologyResult = TopologyResult(
    configuredEdges: set<Id>, activeEdges: set<Id>,
    availableSources: set<Id>, availableFeeders: set<Id>, activeFeeders: set<Id>,
    radiality: Radiality, loops: set<set<Id>>, sections: map<Id, SectionState>,
    loads: map<Id, FeederLoad>, proof: Option<IsolationProof>)

  datatype TopologyError = InvalidInputs | NoSourceEdge

  // ---------------------------------------------------------------- the distribution graph

  predicate IsClosed(states: States, d: Id) { d in states && states[d] == Closed }

  predicate EdgeLeq(x: Edge, y: Edge) { IdLeq(x.id, y.id) }

  /** Conducting edges that are not on the source side. */
  predicate Conducts(c: Network, states: States, e: Edge) {
    IsClosed(states, DeviceEnd(c, e)) && !SourceSide(c, e)
  }

  function Link(c: Network, e: Edge): (Id, Id) { (DeviceEnd(c, e), TerminalEnd(c, e)) }

  function EdgeIds(c: Network): set<Id> { set e | e in c.edges :: e.id }

  function Links(c: Network, states: States): Pairs {
    set e | e in c.edges && Conducts(c, states, e) :: Link(c, e)
  }

  /** A graph under construction: its pairs in insertion order and the edge name kept on each. */
  datatype Graph = Graph(pairs: seq<(Id, Id)>, edgeId: map<(Id, Id), Id>)

  function AddEdge(g: Graph, pair: (Id, Id), id: Id): Graph {
    Graph(if pair in g.pairs then g.pairs else g.pairs + [pair], g.edgeId[pair := id])
  }

  function GraphOf(c: Network, states: States, edges: seq<Edge>): Graph {
    if edges == [] then Graph([], map[])
    else
      var e := edges[|edges|-1];
      var g := GraphOf(c, states, edges[..|edges|-1]);
      if Conducts(c, states, e) then AddEdge(g, Link(c, e), e.id) else g
  }

  function DistributionGraph(c: Network, states: States): Graph {
    GraphOf(c, states, Sort(c.edges, EdgeLeq))
  }

  // ---------------------------------------------------------------- feeders in service

  predicate Available(c: Network, sources: Sources, f: Feeder) {
    f.sourceId in sources && sources[f.sourceId] == SourceAvailability.Available
  }

  predicate InService(c: Network, states: States, sources: Sources, f: Feeder) {
    Available(c, sources, f) && IsClosed(states, f.breakerId)
  }

  function AvailableSources(c: Network, sources: Sources): set<Id> {
    set s | s in c.sources && s.id in sources && sources[s.id] == SourceAvailability.Available :: s.id
  }

  function AvailableFeeders(c: Network, sources: Sources): set<Id> {
    set f | f in c.feeders && Available(c, sources, f) :: f.id
  }

  function ActiveFeeders(c: Network, states: States, sources: Sources): set<Id> {
    set f | f in c.feeders && InService(c, states, sources, f) :: f.id
  }

  // ---------------------------------------------------------------- source paths

  function EdgeName(g: Graph, u: Id, v: Id): seq<Id> {
    if (u, v) in g.edgeId then [g.edgeId[(u, v)]]
    else if (v, u) in g.edgeId then [g.edgeId[(v, u)]]
    else []
  }

  function EdgeNames(g: Graph, nodes: seq<Id>): seq<Id> {
    if |nodes| < 2 then [] else EdgeName(g, nodes[0], nodes[1]) + EdgeNames(g, nodes[1..])
  }

  function PathRecord(g: Graph, f: Feeder, sourceEdge: Id, section: Id, nodes: seq<Id>): SourcePath {
    SourcePath(f.sourceId, f.id, f.breakerId, section, [f.sourceId] + nodes, [sourceEdge] + EdgeNames(g, nodes))
  }

  function PathRecords(g: Graph, f: Feeder, sourceEdge: Id, section: Id, paths: seq<seq<Id>>): seq<SourcePath> {
    if paths == [] then []
    else [PathRecord(g, f, sourceEdge, section, paths[0])] + PathRecords(g, f, sourceEdge, section, paths[1..])
  }

  function FeederPaths(c: Network, g: Graph, f: Feeder, section: Id): seq<SourcePath> {
    var N := Nodes(PairSet(g.pairs));
    if SourceEdge(c, f).None? || f.breakerId !in N || section !in N then []
    else
      PathRecords(g, f, SourceEdge(c, f).value.id, section, SimplePaths(g.pairs, f.breakerId, section))
  }

  function AllFeederPaths(c: Network, g: Graph, active: set<Id>, feeders: seq<Feeder>, section: Id): seq<SourcePath> {
    if feeders == [] then []
    else
      var f := feeders[|feeders|-1];
      AllFeederPaths(c, g, active, feeders[..|feeders|-1], section)
      + (if f.id in active then FeederPaths(c, g, f, section) else [])
  }

  predicate FeederLeq(x: Feeder, y: Feeder) { IdLeq(x.id, y.id) }

  /** Feeder, then length, then edge names. */
  predicate PathLeq(p: SourcePath, q: SourcePath) {
    if p.feederId != q.feederId then IdLeq(p.feederId, q.feederId)
    else if |p.edges| != |q.edges| then |p.edges| < |q.edges|
    else IdsLeq(p.edges, q.edges)
  }

  function SectionPaths(c: Network, states: States, sources: Sources, section: Id): seq<SourcePath> {
    var g := DistributionGraph(c, states);
    var active := ActiveFeeders(c, states, sources);
    Sort(AllFeederPaths(c, g, active, Sort(c.feeders, FeederLeq), section), PathLeq)
  }

  function FeedersOfPaths(paths: seq<SourcePath>): set<Id> { set p | p in paths :: p.feederId }

  function SectionStateOf(c: Network, i: Inputs, section: Id): SectionState {
    var paths := SectionPaths(c, i.states, i.sources, section);
    SectionState(paths != [], section in i.faulted, FeedersOfPaths(paths), paths)
  }

  function SectionStates(c: Network, i: Inputs): map<Id, SectionState> {
    map s | s in SectionIds(c) :: SectionStateOf(c, i, s)
  }

  // ---------------------------------------------------------------- radiality

  function Injections(c: Network, active: set<Id>): set<Id> {
    set f | f in c.feeders && f.id in active :: f.breakerId
  }

  /** A fed component that is not a tree, or that more than one feeder injects into. */
  predicate Improper(c: Network, E: Pairs, active: set<Id>, K: set<Id>) {
    K * Injections(c, active) != {} && (!IsTree(E, K) || |K * Injections(c, active)| > 1)
  }

  function ImproperComponents(c: Network, E: Pairs, active: set<Id>): set<set<Id>> {
    set n | n in Nodes(E) && Improper(c, E, active, Component(E, n)) :: Component(E, n) * SectionIds(c)
  }

  function RadialityOf(c: Network, E: Pairs, active: set<Id>): Radiality {
    if ImproperComponents(c, E, active) == {} then Radial else UnintendedLoop
  }

  // ---------------------------------------------------------------- feeder loads

  /** The configured load of the sections named in `ids`. */
  function LoadOf(sections: seq<Section>, ids: set<Id>): nat {
    if sections == [] then 0
    else
      LoadOf(sections[..|sections|-1], ids)
      + (if sections[|sections|-1].id in ids then sections[|sections|-1].loadKw else 0)
  }

  /** The normal load configured for a feeder. */
  function NormalLoadOf(c: Network, feeder: Id): nat {
    match FeederById(c, feeder) case Some(f) => f.normalLoadKw case None => 0
  }

  function FeederLoadOf(c: Network, states: map<Id, SectionState>, feeder: Id): FeederLoad {
    var supplied := set s | s in states && states[s].feeders == {feeder};
    var multiply := set s | s in states && feeder in states[s].feeders && |states[s].feeders| > 1;
    FeederLoad(NormalLoadOf(c, feeder), supplied, multiply,
               if multiply == {} then Some(LoadOf(c.sections, supplied)) else None, multiply == {})
  }

  // ---------------------------------------------------------------- isolation proof

  function BoundaryList(c: Network, edges: seq<Edge>, fault: Id): seq<Id> {
    if edges == [] then []
    else
      var e := edges[|edges|-1];
      BoundaryList(c, edges[..|edges|-1], fault)
      + (if fault in {e.a, e.b} then [DeviceEnd(c, e)] else [])
  }

  /** The devices incident to the fault section, sorted; a device with both ends there appears twice. */
  function Boundaries(c: Network, fault: Id): seq<Id> { Sort(BoundaryList(c, c.edges, fault), IdLeq) }

  function StatusOf(o: Option<Observation>): ProofStatus {
    if o.Some? && o.value.quality == Some(Good) && o.value.freshness == Some(Fresh) && o.value.state.Some? then
      match o.value.state.value case Open => ProvenOpen case Closed => ProvenClosed
    else Unproven
  }

  function Evaluate(device: Id, o: Option<Observation>): BoundaryEvaluation {
    BoundaryEvaluation(device, o, StatusOf(o))
  }

  function ObservationOf(observations: map<Id, Observation>, d: Id): Option<Observation> {
    if d in observations then Some(observations[d]) else None
  }

  function Evaluations(boundaries: seq<Id>, observations: map<Id, Observation>): seq<BoundaryEvaluation> {
    seq(|boundaries|, k requires 0 <= k < |boundaries| => Evaluate(boundaries[k],
      ObservationOf(observations, boundaries[k])))
  }

  function ProofOf(c: Network, i: Inputs, fault: Id): IsolationProof {
    var boundaries := Boundaries(c, fault);
    var evaluations := Evaluations(boundaries, i.observations);
    var paths := SectionPaths(c, i.states, i.sources, fault);
    var allOpen := evaluations != [] && forall e | e in evaluations :: e.status == ProvenOpen;
    IsolationProof(fault, boundaries, evaluations, AvailableFeeders(c, i.sources), paths,
                   allOpen, paths == [], allOpen && paths == [])
  }

  // ---------------------------------------------------------------- the result

  function TopologyOf(c: Network, i: Inputs): TopologyResult {
    var active := ActiveFeeders(c, i.states, i.sources);
    var E := PairSet(DistributionGraph(c, i.states).pairs);
    var sections := SectionStates(c, i);
    TopologyResult(
      EdgeIds(c), set e | e in c.edges && IsClosed(i.states, DeviceEnd(c, e)) :: e.id,
      AvailableSources(c, i.sources), AvailableFeeders(c, i.sources), active,
      RadialityOf(c, E, active), ImproperComponents(c, E, active),
      sections,
      map f | f in FeederIds(c) :: FeederLoadOf(c, sections, f),
      match i.activeFault case None => None case Some(f) => Some(ProofOf(c, i, f)))
  }

  /** What the calculation checks before it derives anything. */
  predicate Complete(c: Network, i: Inputs) {
    && i.states.Keys == DeviceIds(c)
    && i.sources.Keys == SourceIds(c)
    && i.faulted <= SectionIds(c)
    && i.observations.Keys <= DeviceIds(c)
    && (i.activeFault.Some? ==> i.activeFault.value in i.faulted)
  }

  /** Every feeder in service has an edge from its breaker to its own source. */
  predicate SourceEdgesPresent(c: Network, i: Inputs) {
    forall f | f in c.feeders && InService(c, i.states, i.sources, f) :: SourceEdge(c, f).Some?
  }
}
