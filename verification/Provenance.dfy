/** First-party build provenance (scripts/native_provenance.py): the dependency closure, the content
    key over it, the inputs a package's key covers, and the admission of Cargo's output rows into a
    receipt. Hashing and JSON encoding are injective: a key is the value it hashes. */
module Provenance {
  import opened Results
  import opened Reachability

  type Id = string

  type Sha = string

  type Tree = map<string, Sha>

  /** One name of the Git roster. */
  datatype Entry = File(sha: Sha) | Link(target: string) | Missing

  type Frame = map<string, Entry>

  datatype Package = Package(name: string, manifest: string, directory: string)

  /** Cargo metadata: the workspace members and the resolve graph, which may name others. */
  datatype Metadata = Metadata(packages: map<Id, Package>, dependencies: map<Id, set<Id>>)

  /** What the file system and the environment answer while a state is built: `extras` names the trees a
      package needs besides its directory, `trees` are those that can be read. */
  datatype World = World(
    root: string, source: Frame, environment: map<string, Sha>, tools: map<string, Sha>,
    config: map<string, Option<Sha>>, extras: map<Id, set<string>>, trees: map<string, Tree>)

  datatype Context = Context(
    environment: map<string, Sha>, tools: map<string, Sha>, config: map<string, Option<Sha>>, vendored: Frame)

  datatype State = State(manifest: string, inputs: map<string, Sha>, extras: map<string, Tree>, root: string)

  datatype Key = Key(context: Context, packages: map<string, State>)

  datatype Snapshot = Snapshot(
    root: string, source: Frame, context: Context, metadata: Metadata, states: map<Id, State>, keys: map<Id, Key>)

  datatype Problem =
    | IncompleteGraph
    | AmbiguousRequest
    | MissingInput
    | InputsChanged
    | RowsDoNotCover
    | UnfrozenSource
    | FreshWithoutProducer
    | PredatesBuild

  /******* The dependency graph *******/

  type Graph = map<Id, set<Id>>

  function GraphEdges(graph: Graph): (edges: Edges<Id>)
    ensures forall p, d :: (p, d) in edges <==> p in graph && d in graph[p]
  {
    set p, d | p in graph && d in graph[p] :: (p, d)
  }

  /** The graph among the members only, as `packages` and `covered_inputs` both cut it. */
  function MemberGraph(dependencies: Graph, members: set<Id>): Graph {
    map n | n in dependencies && n in members :: dependencies[n] * members
  }

  ghost function Closure(graph: Graph, start: Id): set<Id> {
    Reachable(GraphEdges(graph), {start})
  }

  method ComputeClosure(graph: Graph, start: Id) returns (selected: set<Id>)
    ensures forall d :: d in selected <==> Reaches(GraphEdges(graph), {start}, d)
    ensures selected == Closure(graph, start)
  {
    selected := Grow(GraphEdges(graph), {start});
    forall d ensures d in selected <==> Reaches(GraphEdges(graph), {start}, d) {
      ReachableIff(GraphEdges(graph), {start}, d);
    }
  }

  lemma CutEdges(dependencies: Graph, members: set<Id>, selected: set<Id>)
    requires selected <= members <= dependencies.Keys
    ensures GraphEdges(MemberGraph(dependencies, selected))
         == Inside(GraphEdges(MemberGraph(dependencies, members)), selected)
  {
    var cut := GraphEdges(MemberGraph(dependencies, selected));
    var inside := Inside(GraphEdges(MemberGraph(dependencies, members)), selected);
    forall e: (Id, Id)
      ensures e in cut <==> e in inside
    {
      assert e == (e.0, e.1);
    }
  }

  /** Cutting the graph down to a closure leaves the closures inside it as they were. */
  lemma ClosureWithinClosure(metadata: Metadata, start: Id, p: Id)
    requires metadata.packages.Keys <= metadata.dependencies.Keys && start in metadata.packages
    requires p in Closure(MemberGraph(metadata.dependencies, metadata.packages.Keys), start)
    ensures var graph := MemberGraph(metadata.dependencies, metadata.packages.Keys);
      Closure(MemberGraph(metadata.dependencies, Closure(graph, start)), p) == Closure(graph, p)
  {
    var members := metadata.packages.Keys;
    var graph := MemberGraph(metadata.dependencies, members);
    var selected := Closure(graph, start);
    SelectedClosed(metadata, start);
    ReachableClosed(GraphEdges(graph), {start});
    StartReachable(GraphEdges(graph), {start});
    CutEdges(metadata.dependencies, members, selected);
    RestrictKeeps(GraphEdges(graph), selected, {p});
  }

  lemma SelectedClosed(metadata: Metadata, start: Id)
    requires metadata.packages.Keys <= metadata.dependencies.Keys && start in metadata.packages
    ensures var graph := MemberGraph(metadata.dependencies, metadata.packages.Keys);
      && start in Closure(graph, start)
      && Closure(graph, start) <= metadata.packages.Keys
      && forall p | p in Closure(graph, start) :: Closure(graph, p) <= Closure(graph, start)
  {
    var graph := MemberGraph(metadata.dependencies, metadata.packages.Keys);
    var edges := GraphEdges(graph);
    StartReachable(edges, {start});
    ReachableClosed(edges, {start});
    LeastClosed(edges, {start}, metadata.packages.Keys);
    forall p | p in Closure(graph, start)
      ensures Closure(graph, p) <= Closure(graph, start)
    {
      LeastClosed(edges, {p}, Closure(graph, start));
    }
  }

  /******* States and keys *******/

  predicate HasPrefix(name: string, prefix: string) {
    |prefix| <= |name| && name[..|prefix|] == prefix
  }

  function Inputs(source: Frame, prefix: string): Frame {
    map n | n in source && HasPrefix(n, prefix) :: source[n]
  }

  predicate AllFiles(frame: Frame) {
    frame != map[] && forall n | n in frame :: frame[n].File?
  }

  function Shas(frame: Frame): map<string, Sha> {
    map n | n in frame && frame[n].File? :: frame[n].sha
  }

  function StateOf(world: World, metadata: Metadata, p: Id): State
    requires p in metadata.packages
  {
    var package := metadata.packages[p];
    State(package.manifest, Shas(Inputs(world.source, package.directory + "/")),
          map t | t in ExtrasOf(world, p) && t in world.trees :: world.trees[t], world.root)
  }

  function ExtrasOf(world: World, p: Id): set<string> {
    if p in world.extras then world.extras[p] else {}
  }

  /** Cargo keeps one package per manifest. */
  ghost predicate Manifests(metadata: Metadata) {
    forall p, q | p in metadata.packages && q in metadata.packages
      && metadata.packages[p].manifest == metadata.packages[q].manifest :: p == q
  }

  function ManifestsOf(states: map<Id, State>, covered: set<Id>): set<string>
    requires covered <= states.Keys
  {
    set d | d in covered :: states[d].manifest
  }

  ghost function KeyOf(context: Context, metadata: Metadata, states: map<Id, State>, p: Id): Key
    requires Manifests(metadata) && states.Keys <= metadata.packages.Keys
    requires forall d | d in states :: states[d].manifest == metadata.packages[d].manifest
    requires Closure(MemberGraph(metadata.dependencies, metadata.packages.Keys), p) <= states.Keys
  {
    var covered := Closure(MemberGraph(metadata.dependencies, metadata.packages.Keys), p);
    Key(context, map m | m in ManifestsOf(states, covered) ::
      var d :| d in covered && states[d].manifest == m; states[d])
  }

  function ContextOf(world: World): Context {
    Context(world.environment, world.tools, world.config,
            map n | n in world.source && HasPrefix(n, "vendor/") :: world.source[n])
  }

  ghost function Requested(metadata: Metadata, name: string): set<Id> {
    set p | p in metadata.packages && metadata.packages[p].name == name
  }

  /** `build_state`: the snapshot of everything a build of the named package depends on. */
  ghost function BuildState(world: World, metadata: Metadata, name: string): Result<Snapshot, Problem>
    requires Manifests(metadata)
  {
    var named := Requested(metadata, name);
    if !(metadata.packages.Keys <= metadata.dependencies.Keys) then Err(IncompleteGraph)
    else if |named| != 1 then Err(AmbiguousRequest)
    else
      var start :| start in named;
      BuildFrom(world, metadata, start)
  }

  ghost function BuildFrom(world: World, metadata: Metadata, start: Id): Result<Snapshot, Problem>
    requires Manifests(metadata) && start in metadata.packages
    requires metadata.packages.Keys <= metadata.dependencies.Keys
  {
    SelectedClosed(metadata, start);
    var selected := Closure(MemberGraph(metadata.dependencies, metadata.packages.Keys), start);
    if exists p :: p in selected && !AllFiles(Inputs(world.source, metadata.packages[p].directory + "/"))
    then Err(MissingInput)
    else if exists p :: p in selected && !(ExtrasOf(world, p) <= world.trees.Keys) then Err(MissingInput)
    else
      var states := StatesOf(world, metadata, selected);
      var context := ContextOf(world);
      Ok(Snapshot(world.root, world.source, context, metadata, states, KeysOf(context, metadata, states)))
  }

  function StatesOf(world: World, metadata: Metadata, selected: set<Id>): (states: map<Id, State>)
    requires selected <= metadata.packages.Keys
    ensures states.Keys == selected
    ensures forall d | d in states :: states[d].manifest == metadata.packages[d].manifest && states[d].root == world.root
  {
    map p | p in selected :: StateOf(world, metadata, p)
  }

  ghost function KeysOf(context: Context, metadata: Metadata, states: map<Id, State>): (keys: map<Id, Key>)
    requires Manifests(metadata) && states.Keys <= metadata.packages.Keys
    requires forall d | d in states :: states[d].manifest == metadata.packages[d].manifest
    requires forall d | d in states :: Closure(MemberGraph(metadata.dependencies, metadata.packages.Keys), d) <= states.Keys
    ensures keys.Keys == states.Keys && forall d | d in states :: keys[d] == KeyOf(context, metadata, states, d)
  {
    map p | p in states :: KeyOf(context, metadata, states, p)
  }

  /******* The inputs a key covers *******/

  datatype Covered = Covered(frozen: map<string, Sha>, extras: map<string, Tree>)

  /** Entries of several packages put into one dict. Packages may share a name (one directory inside
      another); which of the equal keys is kept is left open. */
  ghost function Merged<V(!new)>(parts: set<map<string, V>>): map<string, V> {
    map n | n in (set m, n | m in parts && n in m :: n) :: Chosen(parts, n)
  }

  ghost function Chosen<V(!new)>(parts: set<map<string, V>>, n: string): V
    requires exists m :: m in parts && n in m
  {
    var m :| m in parts && n in m;
    m[n]
  }

  function Below(root: string, names: set<string>): (paths: set<string>)
    ensures forall p :: p in paths ==> |p| > |root| && p[|root| + 1..] in names
  {
    set n | n in names :: root + "/" + n
  }

  /** `root / name` for every name. */
  function Rooted<V>(root: string, m: map<string, V>): map<string, V> {
    map p | p in Below(root, m.Keys) :: m[p[|root| + 1..]]
  }

  function InputMaps(states: set<State>): set<map<string, Sha>> {
    set st | st in states :: st.inputs
  }

  function ExtraMaps(states: set<State>): set<map<string, Tree>> {
    set st | st in states :: st.extras
  }

  /** Where the file of a tree is: a tree that is one file names it `.`. */
  function FileAt(path: string, n: string): string {
    if n == "." then path else path + "/" + n
  }

  function FilePaths(path: string, names: set<string>): (paths: set<string>)
    ensures forall p | p in paths ::
      if p == path then "." in names else |p| > |path| && p[|path| + 1..] in names
  {
    set n | n in names :: FileAt(path, n)
  }

  /** `Path(path) / name`, resolved, for every file of a tree. */
  function FilesOf(path: string, tree: Tree): Tree {
    map p | p in FilePaths(path, tree.Keys) :: if p == path then tree["."] else tree[p[|path| + 1..]]
  }

  ghost function CoveredBy(root: string, states: set<State>, context: Context): Covered {
    var inputs, extras := Merged(InputMaps(states)), Merged(ExtraMaps(states));
    Covered(Rooted(root, inputs)
              + (map p | p in context.config && context.config[p].Some? :: context.config[p].value)
              + context.tools
              + Rooted(root, Shas(context.vendored)),
            Rooted(root, extras))
  }

  ghost function CoveredStates(s: Snapshot, p: Id): set<State> {
    var covered := Closure(MemberGraph(s.metadata.dependencies, s.states.Keys), p);
    set d | d in covered && d in s.states :: s.states[d]
  }

  /** `covered_inputs`: recomputed over the selected packages alone. */
  ghost function CoveredInputs(s: Snapshot, p: Id): Covered {
    CoveredBy(s.root, CoveredStates(s, p), s.context)
  }

  ghost function Members(s: Snapshot): Graph {
    MemberGraph(s.metadata.dependencies, s.metadata.packages.Keys)
  }

  /** What a snapshot built from one start package looks like. */
  ghost predicate BuiltFrom(s: Snapshot, start: Id) {
    && Manifests(s.metadata) && s.metadata.packages.Keys <= s.metadata.dependencies.Keys
    && start in s.metadata.packages
    && s.keys.Keys == s.states.Keys == Closure(Members(s), start)
    && s.states.Keys <= s.metadata.packages.Keys
    && (forall d | d in s.states :: s.states[d].manifest == s.metadata.packages[d].manifest && s.states[d].root == s.root)
    && forall d | d in s.states :: Closure(Members(s), d) <= s.states.Keys
         && s.keys[d] == KeyOf(s.context, s.metadata, s.states, d)
  }

  ghost predicate Built(s: Snapshot) {
    exists start :: BuiltFrom(s, start)
  }

  lemma BuildFromBuilt(w: World, metadata: Metadata, start: Id, s: Snapshot)
    requires BuildFrom.requires(w, metadata, start) && BuildFrom(w, metadata, start) == Ok(s)
    ensures BuiltFrom(s, start) && s.metadata == metadata && s.root == w.root && s.context == ContextOf(w)
    ensures forall d | d in s.states ::
      && AllFiles(Inputs(w.source, metadata.packages[d].directory + "/")) && ExtrasOf(w, d) <= w.trees.Keys
      && s.states[d] == StateOf(w, metadata, d)
  {
    SelectedClosed(metadata, start);
  }

  lemma BuildStateBuilt(w: World, metadata: Metadata, name: string, s: Snapshot)
    requires Manifests(metadata) && BuildState(w, metadata, name) == Ok(s)
    ensures Built(s) && s.metadata == metadata && s.states.Keys <= metadata.packages.Keys
    ensures s.root == w.root && s.context == ContextOf(w)
    ensures forall d | d in s.states ::
      && AllFiles(Inputs(w.source, metadata.packages[d].directory + "/")) && ExtrasOf(w, d) <= w.trees.Keys
      && s.states[d] == StateOf(w, metadata, d)
  {
    var start :| start in Requested(metadata, name) && BuildFrom(w, metadata, start) == Ok(s);
    BuildFromBuilt(w, metadata, start, s);
  }

  /** A package's key holds exactly the states its recomputed closure covers. */
  lemma KeyHoldsCovered(s: Snapshot, p: Id)
    requires Built(s) && p in s.states
    ensures p in s.keys && s.keys[p].context == s.context
    ensures s.keys[p].packages.Values == CoveredStates(s, p)
    ensures s.states[p] in CoveredStates(s, p)
    ensures forall d | d in CoveredStates(s, p) :: d.root == s.root
  {
    var start :| BuiltFrom(s, start);
    KeyValues(s.context, s.metadata, s.states, p);
    CoveredIsClosure(s, start, p);
  }

  lemma CoveredIsClosure(s: Snapshot, start: Id, p: Id)
    requires BuiltFrom(s, start) && p in s.states
    ensures p in Closure(Members(s), p)
    ensures CoveredStates(s, p) == set d | d in Closure(Members(s), p) :: s.states[d]
  {
    RecomputedClosure(s, start, p);
  }

  lemma RecomputedClosure(s: Snapshot, start: Id, p: Id)
    requires BuiltFrom(s, start) && p in s.states
    ensures Closure(MemberGraph(s.metadata.dependencies, s.states.Keys), p) == Closure(Members(s), p)
    ensures p in Closure(Members(s), p)
  {
    ClosureWithinClosure(s.metadata, start, p);
    SelfCovered(Members(s), p);
  }

  lemma SelfCovered(graph: Graph, p: Id)
    ensures p in Closure(graph, p)
  {
    StartReachable(GraphEdges(graph), {p});
  }

  lemma KeyValues(context: Context, metadata: Metadata, states: map<Id, State>, p: Id)
    requires KeyOf.requires(context, metadata, states, p)
    ensures KeyOf(context, metadata, states, p).context == context
    ensures KeyOf(context, metadata, states, p).packages.Values
      == set d | d in Closure(MemberGraph(metadata.dependencies, metadata.packages.Keys), p) :: states[d]
  {
    var covered := Closure(MemberGraph(metadata.dependencies, metadata.packages.Keys), p);
    var packages := KeyOf(context, metadata, states, p).packages;
    forall d | d in covered
      ensures states[d] in packages.Values
    {
      assert packages[states[d].manifest] == states[d];
    }
  }

  /** Equal package keys mean equal admissible inputs, whatever the two builds were otherwise. */
  lemma EqualKeysEqualInputs(a: Snapshot, p: Id, b: Snapshot, q: Id)
    requires Built(a) && Built(b) && p in a.states && q in b.states
    requires p in a.keys && q in b.keys && a.keys[p] == b.keys[q]
    ensures CoveredInputs(a, p) == CoveredInputs(b, q)
  {
    KeyHoldsCovered(a, p);
    KeyHoldsCovered(b, q);
    assert a.states[p] in CoveredStates(b, q);
  }

  /******* Receipts *******/

  const VERSION := 1

  datatype Stamp = Stamp(sha: Sha, size: nat, mtime: nat)

  datatype Variant = Variant(name: string, kind: seq<string>, test: bool, rest: string)

  datatype Unit = Unit(package: Id, key: Key, variant: Variant, files: map<string, Stamp>, reuse: bool)

  datatype Receipt = Receipt(version: nat, units: seq<Unit>)

  /** A `compiler-artifact` row with the files, the dep-info sources as they digest now, and the old
      outputs whose retention the archive proves. Cargo's `fresh` is true, false or something else. */
  datatype Row = Row(
    package: Id, variant: Variant, files: map<string, Stamp>, freshness: Option<bool>,
    sources: map<string, Sha>, retained: set<string>)

  type Generated = map<Key, map<string, Sha>>

  function Hashes(files: map<string, Stamp>): map<string, Sha> {
    map p | p in files :: files[p].sha
  }

  predicate Fits(u: Unit, key: Key, variant: Option<Variant>) {
    u.key == key && (variant.None? || variant == Some(u.variant))
  }

  function UnitsOf(units: seq<Unit>, key: Key, variant: Option<Variant>): seq<Unit> {
    if units == [] then []
    else
      var front, last := UnitsOf(units[..|units| - 1], key, variant), units[|units| - 1];
      if Fits(last, key, variant) then front + [last] else front
  }

  /** The units `matching_prior` yields, in order. */
  function PriorUnits(priors: seq<Receipt>, key: Key, variant: Option<Variant>): seq<Unit> {
    if priors == [] then []
    else
      var front, last := PriorUnits(priors[..|priors| - 1], key, variant), priors[|priors| - 1];
      if last.version == VERSION then front + UnitsOf(last.units, key, variant) else front
  }

  method MatchingPrior(priors: seq<Receipt>, key: Key, variant: Option<Variant>) returns (found: seq<Unit>)
    ensures found == PriorUnits(priors, key, variant)
  {
    found := [];
    for i := 0 to |priors|
      invariant found == PriorUnits(priors[..i], key, variant)
    {
      var prior := priors[i];
      assert priors[..i + 1][..i] == priors[..i];
      if prior.version != VERSION { continue; }
      ghost var before := found;
      for j := 0 to |prior.units|
        invariant found == before + UnitsOf(prior.units[..j], key, variant)
      {
        assert prior.units[..j + 1][..j] == prior.units[..j];
        if Fits(prior.units[j], key, variant) { found := found + [prior.units[j]]; }
      }
      assert prior.units[..|prior.units|] == prior.units;
    }
    assert priors[..|priors|] == priors;
  }

  lemma {:induction false} UnitsOfIff(units: seq<Unit>, key: Key, variant: Option<Variant>, u: Unit)
    ensures u in UnitsOf(units, key, variant) <==> u in units && Fits(u, key, variant)
  {
    if units != [] {
      UnitsOfIff(units[..|units| - 1], key, variant, u);
      assert units == units[..|units| - 1] + [units[|units| - 1]];
    }
  }

  /** Exactly the units of receipts of this version with the key, and the variant if one is asked for. */
  lemma {:induction false} PriorUnitsIff(priors: seq<Receipt>, key: Key, variant: Option<Variant>, u: Unit)
    ensures u in PriorUnits(priors, key, variant)
      <==> exists r :: r in priors && r.version == VERSION && u in r.units && Fits(u, key, variant)
  {
    if priors != [] {
      var front, last := priors[..|priors| - 1], priors[|priors| - 1];
      PriorUnitsIff(front, key, variant, u);
      UnitsOfIff(last.units, key, variant, u);
      assert forall r :: r in priors <==> r in front || r == last;
    }
  }

  /** One of the units yielded for a row has its bytes. */
  predicate HasProducer(priors: seq<Receipt>, row: Row, key: Key) {
    exists u | u in PriorUnits(priors, key, Some(row.variant)) :: Hashes(u.files) == Hashes(row.files)
  }

  function IsDepInfo(path: string): bool {
    |path| >= 2 && path[|path| - 2..] == ".d"
  }

  function ExtraParts(extras: map<string, Tree>): set<map<string, Sha>> {
    set path | path in extras :: FilesOf(path, extras[path])
  }

  ghost function GeneratedParts(s: Snapshot, p: Id, generated: Generated): set<map<string, Sha>> {
    set k | k in generated && k in CoveredKeys(s, p) :: generated[k]
  }

  ghost function CoveredKeys(s: Snapshot, p: Id): set<Key> {
    set d | d in s.keys && d in Closure(MemberGraph(s.metadata.dependencies, s.states.Keys), p) :: s.keys[d]
  }

  /** Every path a dep-info source of the row may name, with the digest it must have: the inputs
      covered by the key, the files of covered extra trees, and outputs generated under a covered
      key. */
  ghost function Allowed(s: Snapshot, p: Id, generated: Generated): map<string, Sha> {
    var covered := CoveredInputs(s, p);
    covered.frozen + Merged(ExtraParts(covered.extras)) + Merged(GeneratedParts(s, p, generated))
  }

  ghost predicate SourcesFrozen(row: Row, allowed: map<string, Sha>) {
    forall p | p in row.sources :: p in allowed && row.sources[p] == allowed[p]
  }

  predicate Current(row: Row, preparedAt: nat) {
    forall p | p in row.files && !IsDepInfo(p) && row.files[p].mtime < preparedAt :: p in row.retained
  }

  /** The unit a row earns, or why it earns none. */
  ghost function Admit(s: Snapshot, preparedAt: nat, priors: seq<Receipt>, generated: Generated, row: Row)
    : Result<Unit, Problem>
    requires row.package in s.keys
  {
    var key := s.keys[row.package];
    if !SourcesFrozen(row, Allowed(s, row.package, generated)) then Err(UnfrozenSource)
    else if row.freshness != Some(false) && !(row.freshness == Some(true) && HasProducer(priors, row, key))
    then Err(FreshWithoutProducer)
    else if row.freshness == Some(false) && !Current(row, preparedAt) then Err(PredatesBuild)
    else Ok(Unit(row.package, key, row.variant, row.files, row.freshness == Some(true)))
  }

  datatype Prepared = Prepared(snapshot: Snapshot, name: string, preparedAt: nat, priors: seq<Receipt>)

  /** The units of the rows in order, or the first refusal. */
  ghost function AdmitAll(p: Prepared, generated: Generated, rows: seq<Row>): Result<seq<Unit>, Problem>
    requires forall row | row in rows :: row.package in p.snapshot.keys
  {
    if rows == [] then Ok([])
    else
      var last := rows[|rows| - 1];
      Joined(AdmitAll(p, generated, rows[..|rows| - 1]), Admit(p.snapshot, p.preparedAt, p.priors, generated, last))
  }

  /** The first refusal, or all units. */
  function Joined(front: Result<seq<Unit>, Problem>, last: Result<Unit, Problem>): Result<seq<Unit>, Problem> {
    match front
    case Err(e) => Err(e)
    case Ok(units) =>
      match last
      case Err(e) => Err(e)
      case Ok(u) => Ok(units + [u])
  }

  /** `verify_build`: the receipt of a finished build over the world as it is now. */
  ghost function Verify(p: Prepared, now: World, generated: Generated, rows: seq<Row>): Result<Receipt, Problem>
    requires Manifests(p.snapshot.metadata)
  {
    if BuildState(now, p.snapshot.metadata, p.name) != Ok(p.snapshot) then Err(InputsChanged)
    else if p.snapshot.keys.Keys != set row | row in rows :: row.package then Err(RowsDoNotCover)
    else match AdmitAll(p, generated, rows)
      case Err(e) => Err(e)
      case Ok(units) => Ok(Receipt(VERSION, units))
  }

  /******* Chains of builds *******/

  datatype Run = Run(prepared: Prepared, now: World, generated: Generated, rows: seq<Row>, receipt: Receipt)

  /** Every run verified, with priors that earlier runs produced. */
  ghost predicate Chain(runs: seq<Run>) {
    forall k | 0 <= k < |runs| ::
      && Manifests(runs[k].prepared.snapshot.metadata)
      && Verify(runs[k].prepared, runs[k].now, runs[k].generated, runs[k].rows) == Ok(runs[k].receipt)
      && forall r | r in runs[k].prepared.priors :: exists j :: 0 <= j < k && r == runs[j].receipt
  }

  /** In run k, unit c was compiled, and it is u: same key and variant, same bytes, from the same
      covered inputs. */
  ghost predicate Producer(runs: seq<Run>, k: int, c: Unit, u: Unit, s: Snapshot) {
    && 0 <= k < |runs|
    && c in runs[k].receipt.units && !c.reuse
    && SameBytes(c, u)
    && CoveredInputs(runs[k].prepared.snapshot, c.package) == CoveredInputs(s, u.package)
  }

  predicate SameBytes(u: Unit, v: Unit) {
    u.key == v.key && u.variant == v.variant && Hashes(u.files) == Hashes(v.files)
  }

  lemma ProducerUnit(priors: seq<Receipt>, row: Row, u: Unit)
    requires HasProducer(priors, row, u.key) && u.variant == row.variant && u.files == row.files
    ensures exists r, v :: r in priors && v in r.units && SameBytes(v, u)
  {
    var v :| v in PriorUnits(priors, u.key, Some(row.variant)) && Hashes(v.files) == Hashes(row.files);
    PriorUnitsIff(priors, u.key, Some(row.variant), v);
    assert SameBytes(v, u);
  }

  lemma AdmittedRow(p: Prepared, generated: Generated, row: Row, u: Unit)
    requires row.package in p.snapshot.keys
    requires Admit(p.snapshot, p.preparedAt, p.priors, generated, row) == Ok(u)
    ensures u.package in p.snapshot.keys && u.key == p.snapshot.keys[u.package]
    ensures u.variant == row.variant && u.files == row.files && (u.reuse <==> row.freshness == Some(true))
    ensures u.reuse ==> exists r, v :: r in p.priors && v in r.units && SameBytes(v, u)
    ensures !u.reuse ==> row.freshness == Some(false) && Current(row, p.preparedAt)
    ensures SourcesFrozen(row, Allowed(p.snapshot, row.package, generated))
  {
    if u.reuse {
      ProducerUnit(p.priors, row, u);
    }
  }

  lemma AdmittedUnit(p: Prepared, generated: Generated, rows: seq<Row>, units: seq<Unit>, u: Unit)
    requires forall row | row in rows :: row.package in p.snapshot.keys
    requires AdmitAll(p, generated, rows) == Ok(units) && u in units
    ensures u.package in p.snapshot.keys && u.key == p.snapshot.keys[u.package]
    ensures u.reuse ==> exists r, v :: r in p.priors && v in r.units && SameBytes(v, u)
  {
    var front, last := rows[..|rows| - 1], rows[|rows| - 1];
    if u in AdmitAll(p, generated, front).value {
      AdmittedUnit(p, generated, front, AdmitAll(p, generated, front).value, u);
    } else {
      AdmittedRow(p, generated, last, u);
    }
  }

  lemma RunBuilt(runs: seq<Run>, k: nat)
    requires Chain(runs) && k < |runs|
    ensures Built(runs[k].prepared.snapshot)
    ensures forall row | row in runs[k].rows :: row.package in runs[k].prepared.snapshot.keys
    ensures AdmitAll(runs[k].prepared, runs[k].generated, runs[k].rows) == Ok(runs[k].receipt.units)
  {
    var p := runs[k].prepared;
    assert BuildState(runs[k].now, p.snapshot.metadata, p.name) == Ok(p.snapshot);
    BuildStateBuilt(runs[k].now, p.snapshot.metadata, p.name, p.snapshot);
    forall row | row in runs[k].rows
      ensures row.package in p.snapshot.keys
    {
      assert row.package in set r | r in runs[k].rows :: r.package;
    }
  }

  /** The earlier unit a reused unit was matched with. */
  lemma ReusedUnit(runs: seq<Run>, k: nat, u: Unit) returns (m: nat, v: Unit)
    requires Chain(runs) && k < |runs| && u in runs[k].receipt.units && u.reuse
    ensures m < k && v in runs[m].receipt.units && SameBytes(v, u)
  {
    RunBuilt(runs, k);
    var p := runs[k].prepared;
    AdmittedUnit(p, runs[k].generated, runs[k].rows, runs[k].receipt.units, u);
    var r;
    r, v :| r in p.priors && v in r.units && SameBytes(v, u);
    m :| 0 <= m < k && r == runs[m].receipt;
  }

  /** Over any chain of builds, every admitted unit, reused or not, is byte for byte a unit that some
      run of the chain really compiled under the same key and variant from the same inputs. */
  lemma {:induction false} EveryUnitWasCompiled(runs: seq<Run>, k: nat, u: Unit)
    requires Chain(runs) && k < |runs| && u in runs[k].receipt.units
    ensures exists j, c :: j <= k && Producer(runs, j, c, u, runs[k].prepared.snapshot)
    decreases k
  {
    if !u.reuse {
      assert Producer(runs, k, u, u, runs[k].prepared.snapshot);
    } else {
      var m, v := ReusedUnit(runs, k, u);
      EveryUnitWasCompiled(runs, m, v);
      var n, c :| n <= m && Producer(runs, n, c, v, runs[m].prepared.snapshot);
      SameKeySameInputs(runs, m, v, k, u);
      assert Producer(runs, n, c, u, runs[k].prepared.snapshot);
    }
  }

  lemma SameKeySameInputs(runs: seq<Run>, m: nat, v: Unit, k: nat, u: Unit)
    requires Chain(runs) && m < |runs| && k < |runs|
    requires v in runs[m].receipt.units && u in runs[k].receipt.units && v.key == u.key
    ensures CoveredInputs(runs[m].prepared.snapshot, v.package) == CoveredInputs(runs[k].prepared.snapshot, u.package)
  {
    UnitOfSnapshot(runs, m, v);
    UnitOfSnapshot(runs, k, u);
    EqualKeysEqualInputs(runs[m].prepared.snapshot, v.package, runs[k].prepared.snapshot, u.package);
  }

  lemma UnitOfSnapshot(runs: seq<Run>, k: nat, u: Unit)
    requires Chain(runs) && k < |runs| && u in runs[k].receipt.units
    ensures var s := runs[k].prepared.snapshot;
      Built(s) && u.package in s.states && u.package in s.keys && s.keys[u.package] == u.key
  {
    RunBuilt(runs, k);
    AdmittedUnit(runs[k].prepared, runs[k].generated, runs[k].rows, runs[k].receipt.units, u);
    var start :| BuiltFrom(runs[k].prepared.snapshot, start);
  }
}
