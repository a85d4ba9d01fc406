/** What a package's build may have read (covered_inputs and verify_build in scripts/native_provenance.py),
    told from the source frame, the dependencies and the paths alone. */
module Admission {
  import opened Provenance
  import opened Reachability
  import opened Results

  /** Package d is p or a member that p depends on, directly or not. */
  ghost predicate Needs(metadata: Metadata, p: Id, d: Id) {
    Reaches(GraphEdges(MemberGraph(metadata.dependencies, metadata.packages.Keys)), {p}, d)
  }

  function At(root: string, name: string): string {
    root + "/" + name
  }

  /******* Where a digest comes from, weakest first *******/

  /** A regular file below the directory of a needed package. */
  ghost predicate IsInput(w: World, metadata: Metadata, p: Id, path: string, sha: Sha) {
    exists d, n :: InputOf(w, metadata, p, d, n, sha) && path == At(w.root, n)
  }

  ghost predicate InputOf(w: World, metadata: Metadata, p: Id, d: Id, n: string, sha: Sha) {
    && Needs(metadata, p, d) && d in metadata.packages
    && n in w.source && w.source[n] == File(sha) && HasPrefix(n, metadata.packages[d].directory + "/")
  }

  predicate IsConfig(w: World, path: string, sha: Sha) {
    path in w.config && w.config[path] == Some(sha)
  }

  predicate IsTool(w: World, path: string, sha: Sha) {
    path in w.tools && w.tools[path] == sha
  }

  ghost predicate IsVendored(w: World, path: string, sha: Sha) {
    exists n :: n in w.source && w.source[n] == File(sha) && HasPrefix(n, "vendor/") && path == At(w.root, n)
  }

  /** A file of an extra tree of a needed package. */
  ghost predicate IsExtra(w: World, metadata: Metadata, p: Id, path: string, sha: Sha) {
    exists d, t, n :: ExtraOf(w, metadata, p, d, t, n, sha) && path == FileAt(At(w.root, t), n)
  }

  ghost predicate ExtraOf(w: World, metadata: Metadata, p: Id, d: Id, t: string, n: string, sha: Sha) {
    && Needs(metadata, p, d) && d in metadata.packages && d in w.extras && t in w.extras[d]
    && t in w.trees && n in w.trees[t] && w.trees[t][n] == sha
  }

  /** A file generated in this build under the key of a needed package. */
  ghost predicate IsGenerated(s: Snapshot, generated: Generated, p: Id, path: string, sha: Sha) {
    exists d :: Needs(s.metadata, p, d) && d in s.keys && s.keys[d] in generated && path in generated[s.keys[d]]
      && generated[s.keys[d]][path] == sha
  }

  ghost function GeneratedKind(s: Snapshot, generated: Generated, p: Id, path: string): Sha -> bool {
    sha => IsGenerated(s, generated, p, path, sha)
  }

  ghost function ExtraKind(w: World, metadata: Metadata, p: Id, path: string): Sha -> bool {
    sha => IsExtra(w, metadata, p, path, sha)
  }

  ghost function VendoredKind(w: World, path: string): Sha -> bool {
    sha => IsVendored(w, path, sha)
  }

  ghost function InputKind(w: World, metadata: Metadata, p: Id, path: string): Sha -> bool {
    sha => IsInput(w, metadata, p, path, sha)
  }

  ghost function ToolKind(w: World, path: string): Sha -> bool {
    sha => IsTool(w, path, sha)
  }

  ghost function ConfigKind(w: World, path: string): Sha -> bool {
    sha => IsConfig(w, path, sha)
  }

  /** What the stronger kind gives, and where it has nothing what the weaker one gives. */
  ghost function Over(strong: Sha -> bool, weak: Sha -> bool): Sha -> bool {
    sha => if exists x :: strong(x) then strong(sha) else weak(sha)
  }

  ghost function FrozenKind(w: World, metadata: Metadata, p: Id, path: string): Sha -> bool {
    Over(VendoredKind(w, path), Over(ToolKind(w, path), Over(ConfigKind(w, path), InputKind(w, metadata, p, path))))
  }

  ghost function BoundKind(w: World, s: Snapshot, generated: Generated, p: Id, path: string): Sha -> bool {
    Over(GeneratedKind(s, generated, p, path), Over(ExtraKind(w, s.metadata, p, path), FrozenKind(w, s.metadata, p, path)))
  }

  /** The digest that the strongest kind gives which has one for the path. */
  ghost predicate Binds(w: World, s: Snapshot, generated: Generated, p: Id, path: string, sha: Sha) {
    BoundKind(w, s, generated, p, path)(sha)
  }

  /******* Maps put together *******/

  lemma RootedAt<V>(root: string, m: map<string, V>, path: string)
    ensures path in Rooted(root, m) <==> exists n :: n in m && path == At(root, n)
    ensures forall n | n in m && path == At(root, n) :: path in Rooted(root, m) && Rooted(root, m)[path] == m[n]
  {
  }

  lemma FilesOfAt(root: string, tree: Tree, path: string)
    ensures path in FilesOf(root, tree) <==> exists n :: n in tree && path == FileAt(root, n)
    ensures forall n | n in tree && path == FileAt(root, n) :: path in FilesOf(root, tree) && FilesOf(root, tree)[path] == tree[n]
  {
  }

  lemma MergedAt<V(!new)>(parts: set<map<string, V>>, n: string)
    ensures n in Merged(parts) <==> exists m :: m in parts && n in m
    ensures n in Merged(parts) ==> exists m :: m in parts && n in m && Merged(parts)[n] == m[n]
  {
  }

  /******* What a snapshot covers *******/

  ghost predicate From(w: World, s: Snapshot, name: string) {
    Manifests(s.metadata) && BuildState(w, s.metadata, name) == Ok(s)
  }

  lemma CoveredStateIff(w: World, s: Snapshot, name: string, p: Id, st: State)
    requires From(w, s, name) && p in s.states
    ensures st in CoveredStates(s, p) <==> exists d :: Needs(s.metadata, p, d) && d in s.states && s.states[d] == st
    ensures forall d | Needs(s.metadata, p, d) :: d in s.states && d in s.metadata.packages
  {
    BuildStateBuilt(w, s.metadata, name, s);
    var start :| BuiltFrom(s, start);
    CoveredIsClosure(s, start, p);
    forall d
      ensures Needs(s.metadata, p, d) <==> d in Closure(Members(s), p)
    {
      ReachableIff(GraphEdges(Members(s)), {p}, d);
    }
  }

  /** What the snapshot holds of the packages that p needs. */
  ghost predicate Shows(w: World, s: Snapshot, p: Id) {
    && s.root == w.root && s.context == ContextOf(w)
    && (forall d | Needs(s.metadata, p, d) ::
      d in s.states && d in s.metadata.packages && s.states[d] == StateOf(w, s.metadata, d))
    && forall st | st in CoveredStates(s, p) :: exists d :: Needs(s.metadata, p, d) && s.states[d] == st
  }

  lemma SnapshotShows(w: World, s: Snapshot, name: string, p: Id)
    requires From(w, s, name) && p in s.states
    ensures Shows(w, s, p)
  {
    BuildStateBuilt(w, s.metadata, name, s);
    CoveredStateIff(w, s, name, p, s.states[p]);
    forall st | st in CoveredStates(s, p)
      ensures exists d :: Needs(s.metadata, p, d) && s.states[d] == st
    {
      CoveredStateIff(w, s, name, p, st);
    }
  }

  lemma ShownCovered(w: World, s: Snapshot, p: Id, d: Id)
    requires Built(s) && p in s.states && Needs(s.metadata, p, d) && d in s.states
    ensures s.states[d] in CoveredStates(s, p)
  {
    var start :| BuiltFrom(s, start);
    CoveredIsClosure(s, start, p);
    ReachableIff(GraphEdges(Members(s)), {p}, d);
  }

  lemma StateInputs(w: World, metadata: Metadata, d: Id, n: string)
    requires d in metadata.packages
    ensures var inputs := StateOf(w, metadata, d).inputs;
      && (n in inputs <==> n in w.source && w.source[n].File? && HasPrefix(n, metadata.packages[d].directory + "/"))
      && (n in inputs ==> w.source[n] == File(inputs[n]))
  {
  }

  ghost function FrozenInputs(s: Snapshot, p: Id): map<string, Sha> {
    Merged(InputMaps(CoveredStates(s, p)))
  }

  ghost function FrozenExtras(s: Snapshot, p: Id): map<string, Tree> {
    Merged(ExtraMaps(CoveredStates(s, p)))
  }

  lemma CoveredParts(s: Snapshot, p: Id)
    ensures CoveredInputs(s, p).extras == Rooted(s.root, FrozenExtras(s, p))
    ensures CoveredInputs(s, p).frozen == Rooted(s.root, FrozenInputs(s, p))
      + (map q | q in s.context.config && s.context.config[q].Some? :: s.context.config[q].value)
      + s.context.tools + Rooted(s.root, Shas(s.context.vendored))
  {
  }

  /** Also, every needed package's state is covered. */
  ghost predicate ShowsAll(w: World, s: Snapshot, p: Id) {
    Shows(w, s, p) && forall d | Needs(s.metadata, p, d) :: s.states[d] in CoveredStates(s, p)
  }

  lemma SnapshotShowsAll(w: World, s: Snapshot, name: string, p: Id)
    requires From(w, s, name) && p in s.states
    ensures ShowsAll(w, s, p)
  {
    SnapshotShows(w, s, name, p);
    BuildStateBuilt(w, s.metadata, name, s);
    forall d | Needs(s.metadata, p, d)
      ensures s.states[d] in CoveredStates(s, p)
    {
      ShownCovered(w, s, p, d);
    }
  }

  lemma FrozenInputFrom(w: World, s: Snapshot, p: Id, n: string)
    requires ShowsAll(w, s, p) && n in FrozenInputs(s, p)
    ensures exists d :: InputOf(w, s.metadata, p, d, n, FrozenInputs(s, p)[n])
  {
    var parts := InputMaps(CoveredStates(s, p));
    MergedAt(parts, n);
    var m :| m in parts && n in m && FrozenInputs(s, p)[n] == m[n];
    var st :| st in CoveredStates(s, p) && st.inputs == m;
    var d :| Needs(s.metadata, p, d) && s.states[d] == st;
    StateInputs(w, s.metadata, d, n);
    assert InputOf(w, s.metadata, p, d, n, m[n]);
  }

  lemma FrozenInputIn(w: World, s: Snapshot, p: Id, d: Id, n: string, sha: Sha)
    requires ShowsAll(w, s, p) && InputOf(w, s.metadata, p, d, n, sha)
    ensures n in FrozenInputs(s, p)
  {
    var parts := InputMaps(CoveredStates(s, p));
    MergedAt(parts, n);
    StateInputs(w, s.metadata, d, n);
    assert s.states[d].inputs in parts;
  }

  lemma InputsFrom(w: World, s: Snapshot, p: Id, path: string)
    requires ShowsAll(w, s, p) && path in Rooted(s.root, FrozenInputs(s, p))
    ensures IsInput(w, s.metadata, p, path, Rooted(s.root, FrozenInputs(s, p))[path])
  {
    var inputs := FrozenInputs(s, p);
    RootedAt(s.root, inputs, path);
    var n :| n in inputs && path == At(s.root, n);
    FrozenInputFrom(w, s, p, n);
    var d :| InputOf(w, s.metadata, p, d, n, inputs[n]);
  }

  lemma InputsIn(w: World, s: Snapshot, p: Id, path: string, sha: Sha)
    requires ShowsAll(w, s, p) && IsInput(w, s.metadata, p, path, sha)
    ensures path in Rooted(s.root, FrozenInputs(s, p))
  {
    var d, n :| InputOf(w, s.metadata, p, d, n, sha) && path == At(w.root, n);
    FrozenInputIn(w, s, p, d, n, sha);
    RootedAt(s.root, FrozenInputs(s, p), path);
  }

  ghost function Vendored(w: World): map<string, Sha> {
    Rooted(w.root, Shas(ContextOf(w).vendored))
  }

  lemma VendoredFrom(w: World, path: string)
    requires path in Vendored(w)
    ensures IsVendored(w, path, Vendored(w)[path])
  {
  }

  lemma VendoredIn(w: World, path: string, sha: Sha)
    requires IsVendored(w, path, sha)
    ensures path in Vendored(w)
  {
  }

  lemma FrozenExtraFrom(w: World, s: Snapshot, p: Id, t: string) returns (d: Id)
    requires ShowsAll(w, s, p) && t in FrozenExtras(s, p)
    ensures Needs(s.metadata, p, d) && d in s.metadata.packages && d in w.extras && t in w.extras[d] && t in w.trees
    ensures FrozenExtras(s, p)[t] == w.trees[t]
  {
    var parts := ExtraMaps(CoveredStates(s, p));
    MergedAt(parts, t);
    var m :| m in parts && t in m && FrozenExtras(s, p)[t] == m[t];
    var st :| st in CoveredStates(s, p) && st.extras == m;
    d :| Needs(s.metadata, p, d) && s.states[d] == st;
  }

  lemma FrozenExtraIn(w: World, s: Snapshot, p: Id, d: Id, t: string)
    requires ShowsAll(w, s, p) && Needs(s.metadata, p, d) && d in w.extras && t in w.extras[d] && t in w.trees
    ensures t in FrozenExtras(s, p)
  {
    var parts := ExtraMaps(CoveredStates(s, p));
    MergedAt(parts, t);
    assert t in s.states[d].extras && s.states[d].extras in parts;
  }

  ghost function ExtraFiles(s: Snapshot, p: Id): map<string, Sha> {
    var extras := CoveredInputs(s, p).extras;
    Merged(ExtraParts(extras))
  }

  lemma ExtrasFrom(w: World, s: Snapshot, p: Id, path: string)
    requires ShowsAll(w, s, p) && path in ExtraFiles(s, p)
    ensures IsExtra(w, s.metadata, p, path, ExtraFiles(s, p)[path])
  {
    var extras := CoveredInputs(s, p).extras;
    var parts := ExtraParts(extras);
    MergedAt(parts, path);
    var m :| m in parts && path in m && ExtraFiles(s, p)[path] == m[path];
    var q :| q in extras && m == FilesOf(q, extras[q]);
    ExtraFound(w, s, p, q, path);
  }

  lemma ExtrasIn(w: World, s: Snapshot, p: Id, path: string, sha: Sha)
    requires ShowsAll(w, s, p) && IsExtra(w, s.metadata, p, path, sha)
    ensures path in ExtraFiles(s, p)
  {
    var extras := CoveredInputs(s, p).extras;
    var d, t, n :| ExtraOf(w, s.metadata, p, d, t, n, sha) && path == FileAt(At(w.root, t), n);
    ExtraPlaced(w, s, p, d, t, n, sha);
    assert FilesOf(At(w.root, t), extras[At(w.root, t)]) in ExtraParts(extras);
    MergedAt(ExtraParts(extras), path);
  }

  lemma ExtraFound(w: World, s: Snapshot, p: Id, q: string, path: string)
    requires ShowsAll(w, s, p)
    requires q in CoveredInputs(s, p).extras && path in FilesOf(q, CoveredInputs(s, p).extras[q])
    ensures IsExtra(w, s.metadata, p, path, FilesOf(q, CoveredInputs(s, p).extras[q])[path])
  {
    var extras := CoveredInputs(s, p).extras;
    CoveredParts(s, p);
    RootedAt(s.root, FrozenExtras(s, p), q);
    var t :| t in FrozenExtras(s, p) && q == At(s.root, t);
    var d := FrozenExtraFrom(w, s, p, t);
    FilesOfAt(q, extras[q], path);
    var n :| n in extras[q] && path == FileAt(q, n);
    assert ExtraOf(w, s.metadata, p, d, t, n, w.trees[t][n]);
  }

  lemma ExtraPlaced(w: World, s: Snapshot, p: Id, d: Id, t: string, n: string, sha: Sha)
    requires ShowsAll(w, s, p) && ExtraOf(w, s.metadata, p, d, t, n, sha)
    ensures var q, extras := At(w.root, t), CoveredInputs(s, p).extras;
      q in extras && FileAt(q, n) in FilesOf(q, extras[q])
  {
    CoveredParts(s, p);
    FrozenExtraIn(w, s, p, d, t);
    var e := FrozenExtraFrom(w, s, p, t);
    RootedAt(s.root, FrozenExtras(s, p), At(w.root, t));
    FilesOfAt(At(w.root, t), w.trees[t], FileAt(At(w.root, t), n));
  }

  /******* What is allowed *******/

  ghost function GeneratedFiles(s: Snapshot, p: Id, generated: Generated): map<string, Sha> {
    Merged(GeneratedParts(s, p, generated))
  }

  lemma AllowedParts(s: Snapshot, p: Id, generated: Generated)
    ensures Allowed(s, p, generated) == CoveredInputs(s, p).frozen + ExtraFiles(s, p) + GeneratedFiles(s, p, generated)
  {
  }

  lemma CoveredKeyIff(s: Snapshot, p: Id, k: Key)
    requires Built(s) && p in s.states
    ensures k in CoveredKeys(s, p) <==> exists d :: Needs(s.metadata, p, d) && d in s.keys && s.keys[d] == k
  {
    var start :| BuiltFrom(s, start);
    RecomputedClosure(s, start, p);
    forall d
      ensures Needs(s.metadata, p, d) <==> d in Closure(Members(s), p)
    {
      ReachableIff(GraphEdges(Members(s)), {p}, d);
    }
  }

  lemma GeneratedFrom(s: Snapshot, p: Id, generated: Generated, path: string)
    requires Built(s) && p in s.states && path in GeneratedFiles(s, p, generated)
    ensures IsGenerated(s, generated, p, path, GeneratedFiles(s, p, generated)[path])
  {
    var parts := GeneratedParts(s, p, generated);
    MergedAt(parts, path);
    var m :| m in parts && path in m && GeneratedFiles(s, p, generated)[path] == m[path];
    var k :| k in generated && k in CoveredKeys(s, p) && generated[k] == m;
    CoveredKeyIff(s, p, k);
  }

  lemma GeneratedIn(s: Snapshot, p: Id, generated: Generated, path: string, sha: Sha)
    requires Built(s) && p in s.states && IsGenerated(s, generated, p, path, sha)
    ensures path in GeneratedFiles(s, p, generated)
  {
    var d :| Needs(s.metadata, p, d) && d in s.keys && s.keys[d] in generated && path in generated[s.keys[d]]
      && generated[s.keys[d]][path] == sha;
    CoveredKeyIff(s, p, s.keys[d]);
    assert generated[s.keys[d]] in GeneratedParts(s, p, generated);
    MergedAt(GeneratedParts(s, p, generated), path);
  }

  function ConfigFiles(w: World): map<string, Sha> {
    map q | q in w.config && w.config[q].Some? :: w.config[q].value
  }

  /** The map has the path exactly if the kind has a digest for it, and then gives one of these. */
  ghost predicate Gives(m: map<string, Sha>, path: string, kind: Sha -> bool) {
    && (path in m <==> exists sha :: kind(sha))
    && (path in m ==> kind(m[path]))
  }

  lemma GivesOver(weak: map<string, Sha>, strong: map<string, Sha>, path: string, under: Sha -> bool, over: Sha -> bool)
    requires Gives(weak, path, under) && Gives(strong, path, over)
    ensures Gives(weak + strong, path, Over(over, under))
  {
  }

  lemma GeneratedGiven(s: Snapshot, generated: Generated, p: Id, path: string)
    requires Built(s) && p in s.states
    ensures Gives(GeneratedFiles(s, p, generated), path, GeneratedKind(s, generated, p, path))
  {
    var kind := GeneratedKind(s, generated, p, path);
    if path in GeneratedFiles(s, p, generated) {
      GeneratedFrom(s, p, generated, path);
      assert kind(GeneratedFiles(s, p, generated)[path]);
    } else {
      forall sha ensures !kind(sha) {
        if kind(sha) { GeneratedIn(s, p, generated, path, sha); }
      }
    }
  }

  lemma ExtrasGiven(w: World, s: Snapshot, p: Id, path: string)
    requires ShowsAll(w, s, p)
    ensures Gives(ExtraFiles(s, p), path, ExtraKind(w, s.metadata, p, path))
  {
    var kind := ExtraKind(w, s.metadata, p, path);
    if path in ExtraFiles(s, p) {
      ExtrasFrom(w, s, p, path);
      assert kind(ExtraFiles(s, p)[path]);
    } else {
      forall sha ensures !kind(sha) {
        if kind(sha) { ExtrasIn(w, s, p, path, sha); }
      }
    }
  }

  lemma VendoredGiven(w: World, path: string)
    ensures Gives(Vendored(w), path, VendoredKind(w, path))
  {
    var kind := VendoredKind(w, path);
    if path in Vendored(w) {
      VendoredFrom(w, path);
      assert kind(Vendored(w)[path]);
    } else {
      forall sha ensures !kind(sha) {
        if kind(sha) { VendoredIn(w, path, sha); }
      }
    }
  }

  lemma InputsGiven(w: World, s: Snapshot, p: Id, path: string)
    requires ShowsAll(w, s, p)
    ensures Gives(Rooted(s.root, FrozenInputs(s, p)), path, InputKind(w, s.metadata, p, path))
  {
    var kind := InputKind(w, s.metadata, p, path);
    if path in Rooted(s.root, FrozenInputs(s, p)) {
      InputsFrom(w, s, p, path);
      assert kind(Rooted(s.root, FrozenInputs(s, p))[path]);
    } else {
      forall sha ensures !kind(sha) {
        if kind(sha) { InputsIn(w, s, p, path, sha); }
      }
    }
  }

  lemma ToolsGiven(w: World, path: string)
    ensures Gives(w.tools, path, ToolKind(w, path))
    ensures Gives(ConfigFiles(w), path, ConfigKind(w, path))
  {
    var tool, config := ToolKind(w, path), ConfigKind(w, path);
    if path in w.tools { assert tool(w.tools[path]); }
    if path in ConfigFiles(w) { assert config(ConfigFiles(w)[path]); }
  }

  lemma FrozenGiven(w: World, s: Snapshot, p: Id, path: string)
    requires ShowsAll(w, s, p)
    ensures Gives(CoveredInputs(s, p).frozen, path, FrozenKind(w, s.metadata, p, path))
  {
    var inputs, input := Rooted(s.root, FrozenInputs(s, p)), InputKind(w, s.metadata, p, path);
    var config, tool := ConfigKind(w, path), ToolKind(w, path);
    InputsGiven(w, s, p, path);
    ToolsGiven(w, path);
    VendoredGiven(w, path);
    GivesOver(inputs, ConfigFiles(w), path, input, config);
    GivesOver(inputs + ConfigFiles(w), w.tools, path, Over(config, input), tool);
    GivesOver(inputs + ConfigFiles(w) + w.tools, Vendored(w), path, Over(tool, Over(config, input)), VendoredKind(w, path));
    FrozenParts(w, s, p);
  }

  lemma FrozenParts(w: World, s: Snapshot, p: Id)
    requires s.root == w.root && s.context == ContextOf(w)
    ensures CoveredInputs(s, p).frozen == Rooted(s.root, FrozenInputs(s, p)) + ConfigFiles(w) + w.tools + Vendored(w)
  {
  }

  /** For every path: it is allowed exactly if some kind has a digest for it, and then with the digest that
      the strongest such kind gives; a package's own regular files, and those of the packages it needs, are
      the weakest. */
  lemma AllowedIsBound(w: World, s: Snapshot, name: string, p: Id, generated: Generated, path: string)
    requires From(w, s, name) && p in s.states
    ensures path in Allowed(s, p, generated) <==> exists sha :: Binds(w, s, generated, p, path, sha)
    ensures path in Allowed(s, p, generated) ==> Binds(w, s, generated, p, path, Allowed(s, p, generated)[path])
  {
    FromShows(w, s, name, p);
    BoundGiven(w, s, p, generated, path);
    GivesIff(Allowed(s, p, generated), w, s, p, generated, path);
  }

  lemma GivesIff(m: map<string, Sha>, w: World, s: Snapshot, p: Id, generated: Generated, path: string)
    requires Gives(m, path, BoundKind(w, s, generated, p, path))
    ensures path in m <==> exists sha :: Binds(w, s, generated, p, path, sha)
    ensures path in m ==> Binds(w, s, generated, p, path, m[path])
  {
    if sha :| Binds(w, s, generated, p, path, sha) {
      assert BoundKind(w, s, generated, p, path)(sha);
    }
    if path in m {
      assert Binds(w, s, generated, p, path, m[path]);
    }
  }

  lemma FromShows(w: World, s: Snapshot, name: string, p: Id)
    requires From(w, s, name) && p in s.states
    ensures ShowsAll(w, s, p) && Built(s)
  {
    SnapshotShowsAll(w, s, name, p);
    BuildStateBuilt(w, s.metadata, name, s);
  }

  lemma BoundGiven(w: World, s: Snapshot, p: Id, generated: Generated, path: string)
    requires ShowsAll(w, s, p) && Built(s) && p in s.states
    ensures Gives(Allowed(s, p, generated), path, BoundKind(w, s, generated, p, path))
  {
    FrozenGiven(w, s, p, path);
    ExtrasGiven(w, s, p, path);
    GeneratedGiven(s, generated, p, path);
    AllowedParts(s, p, generated);
    GivesThree(CoveredInputs(s, p).frozen, ExtraFiles(s, p), GeneratedFiles(s, p, generated), path,
      FrozenKind(w, s.metadata, p, path), ExtraKind(w, s.metadata, p, path), GeneratedKind(s, generated, p, path));
  }

  lemma GivesThree(a: map<string, Sha>, b: map<string, Sha>, c: map<string, Sha>, path: string,
                   ka: Sha -> bool, kb: Sha -> bool, kc: Sha -> bool)
    requires Gives(a, path, ka) && Gives(b, path, kb) && Gives(c, path, kc)
    ensures Gives(a + b + c, path, Over(kc, Over(kb, ka)))
  {
    GivesOver(a, b, path, ka, kb);
    GivesOver(a + b, c, path, Over(kb, ka), kc);
  }

  /******* Which builds have a snapshot *******/

  /** The one member of that name. */
  ghost predicate Sole(metadata: Metadata, name: string, p: Id) {
    && p in metadata.packages && metadata.packages[p].name == name
    && forall q | q in metadata.packages && metadata.packages[q].name == name :: q == p
  }

  /** The package has a file, all names below its directory are regular files and its extra trees can be read. */
  ghost predicate Ready(w: World, metadata: Metadata, d: Id) {
    && d in metadata.packages
    && (exists n :: n in w.source && HasPrefix(n, metadata.packages[d].directory + "/"))
    && (forall n | n in w.source && HasPrefix(n, metadata.packages[d].directory + "/") :: w.source[n].File?)
    && (d in w.extras ==> forall t | t in w.extras[d] :: t in w.trees)
  }

  lemma SoleIff(metadata: Metadata, name: string)
    ensures |Requested(metadata, name)| == 1 <==> exists p :: Sole(metadata, name, p)
    ensures forall p | Sole(metadata, name, p) :: Requested(metadata, name) == {p}
  {
    var named := Requested(metadata, name);
    forall p | Sole(metadata, name, p)
      ensures named == {p}
    {
      assert p in named;
    }
    if |named| == 1 {
      var p :| p in named;
      assert |named - {p}| == 0;
      assert Sole(metadata, name, p) by {
        forall q | q in metadata.packages && metadata.packages[q].name == name
          ensures q == p
        {
          assert q in named && q !in named - {p};
        }
      }
    }
  }

  lemma ReadyIff(w: World, metadata: Metadata, d: Id)
    requires d in metadata.packages
    ensures Ready(w, metadata, d)
      <==> AllFiles(Inputs(w.source, metadata.packages[d].directory + "/")) && ExtrasOf(w, d) <= w.trees.Keys
  {
    var prefix := metadata.packages[d].directory + "/";
    var inputs := Inputs(w.source, prefix);
    assert forall n :: n in inputs <==> n in w.source && HasPrefix(n, prefix);
    if n :| n in inputs { assert inputs != map[]; }
    if inputs != map[] { var n :| n in inputs; }
  }

  lemma NeededIff(metadata: Metadata, p: Id)
    requires p in metadata.packages && metadata.packages.Keys <= metadata.dependencies.Keys
    ensures var needed := Closure(MemberGraph(metadata.dependencies, metadata.packages.Keys), p);
      forall d :: Needs(metadata, p, d) <==> d in needed
    ensures forall d | Needs(metadata, p, d) :: d in metadata.packages
  {
  }

  lemma BuildFromIff(w: World, metadata: Metadata, start: Id)
    requires BuildFrom.requires(w, metadata, start)
    ensures BuildFrom(w, metadata, start).Ok? <==> forall d | Needs(metadata, start, d) :: Ready(w, metadata, d)
  {
    NeededIff(metadata, start);
    forall d | Needs(metadata, start, d)
      ensures Ready(w, metadata, d)
        <==> AllFiles(Inputs(w.source, metadata.packages[d].directory + "/")) && ExtrasOf(w, d) <= w.trees.Keys
    {
      ReadyIff(w, metadata, d);
    }
  }

  /** A snapshot is made exactly if the graph is complete, one member has the name, and all that it needs is
      ready; it then holds exactly the needed packages. */
  lemma BuildStateIff(w: World, metadata: Metadata, name: string)
    requires Manifests(metadata)
    ensures BuildState(w, metadata, name).Ok?
      <==> && metadata.packages.Keys <= metadata.dependencies.Keys
           && exists p :: Sole(metadata, name, p) && forall d | Needs(metadata, p, d) :: Ready(w, metadata, d)
    ensures BuildState(w, metadata, name).Ok? ==> forall p, d | Sole(metadata, name, p) ::
      d in BuildState(w, metadata, name).value.states <==> Needs(metadata, p, d)
  {
    SoleIff(metadata, name);
    if metadata.packages.Keys <= metadata.dependencies.Keys {
      forall p | Sole(metadata, name, p)
        ensures BuildState(w, metadata, name) == BuildFrom(w, metadata, p)
        ensures BuildFrom(w, metadata, p).Ok? <==> forall d | Needs(metadata, p, d) :: Ready(w, metadata, d)
        ensures BuildFrom(w, metadata, p).Ok?
          ==> forall d :: d in BuildFrom(w, metadata, p).value.states <==> Needs(metadata, p, d)
      {
        BuildFromIff(w, metadata, p);
        NeededIff(metadata, p);
      }
    }
  }

  /******* Equal keys *******/

  /** A file that p's build may read from the source, or from an extra tree. */
  ghost predicate ReadsFile(w: World, metadata: Metadata, p: Id, n: string, sha: Sha) {
    exists d :: InputOf(w, metadata, p, d, n, sha)
  }

  ghost predicate ReadsExtra(w: World, metadata: Metadata, p: Id, t: string, n: string, sha: Sha) {
    exists d :: ExtraOf(w, metadata, p, d, t, n, sha)
  }

  lemma ReadsFileIff(w: World, s: Snapshot, p: Id, n: string, sha: Sha)
    requires ShowsAll(w, s, p)
    ensures ReadsFile(w, s.metadata, p, n, sha)
      <==> exists st :: st in CoveredStates(s, p) && n in st.inputs && st.inputs[n] == sha
  {
    if d :| InputOf(w, s.metadata, p, d, n, sha) {
      StateInputs(w, s.metadata, d, n);
      assert s.states[d] in CoveredStates(s, p);
    }
    if st :| st in CoveredStates(s, p) && n in st.inputs && st.inputs[n] == sha {
      var d :| Needs(s.metadata, p, d) && s.states[d] == st;
      StateInputs(w, s.metadata, d, n);
      assert InputOf(w, s.metadata, p, d, n, sha);
    }
  }

  predicate HasExtra(st: State, t: string, n: string, sha: Sha) {
    t in st.extras && n in st.extras[t] && st.extras[t][n] == sha
  }

  lemma ExtraRead(w: World, s: Snapshot, p: Id, d: Id, t: string, n: string, sha: Sha)
    requires ShowsAll(w, s, p) && ExtraOf(w, s.metadata, p, d, t, n, sha)
    ensures s.states[d] in CoveredStates(s, p) && HasExtra(s.states[d], t, n, sha)
  {
  }

  lemma ExtraHeld(w: World, s: Snapshot, p: Id, st: State, t: string, n: string, sha: Sha)
    requires ShowsAll(w, s, p) && st in CoveredStates(s, p) && HasExtra(st, t, n, sha)
    ensures ReadsExtra(w, s.metadata, p, t, n, sha)
  {
    var d :| Needs(s.metadata, p, d) && s.states[d] == st;
    assert ExtraOf(w, s.metadata, p, d, t, n, sha);
  }

  lemma ReadsExtraIff(w: World, s: Snapshot, p: Id, t: string, n: string, sha: Sha)
    requires ShowsAll(w, s, p)
    ensures ReadsExtra(w, s.metadata, p, t, n, sha)
      <==> exists st :: st in CoveredStates(s, p) && HasExtra(st, t, n, sha)
  {
    if d :| ExtraOf(w, s.metadata, p, d, t, n, sha) {
      ExtraRead(w, s, p, d, t, n, sha);
    }
    if st :| st in CoveredStates(s, p) && HasExtra(st, t, n, sha) {
      ExtraHeld(w, s, p, st, t, n, sha);
    }
  }

  /** Builds whose package keys are equal may read the same files with the same digests, at the same root and
      in the same environment. */
  lemma EqualKeysSameFiles(v: World, a: Snapshot, x: string, p: Id, w: World, b: Snapshot, y: string, q: Id)
    requires From(v, a, x) && From(w, b, y) && p in a.states && q in b.states
    requires p in a.keys && q in b.keys && a.keys[p] == b.keys[q]
    ensures v.root == w.root && v.environment == w.environment && v.tools == w.tools && v.config == w.config
    ensures forall n, sha :: ReadsFile(v, a.metadata, p, n, sha) <==> ReadsFile(w, b.metadata, q, n, sha)
    ensures forall t, n, sha :: ReadsExtra(v, a.metadata, p, t, n, sha) <==> ReadsExtra(w, b.metadata, q, t, n, sha)
  {
    EqualStates(v, a, x, p, w, b, y, q);
    forall n, sha
      ensures ReadsFile(v, a.metadata, p, n, sha) <==> ReadsFile(w, b.metadata, q, n, sha)
    {
      ReadsFileIff(v, a, p, n, sha);
      ReadsFileIff(w, b, q, n, sha);
    }
    forall t, n, sha
      ensures ReadsExtra(v, a.metadata, p, t, n, sha) <==> ReadsExtra(w, b.metadata, q, t, n, sha)
    {
      ReadsExtraIff(v, a, p, t, n, sha);
      ReadsExtraIff(w, b, q, t, n, sha);
    }
  }

  lemma EqualStates(v: World, a: Snapshot, x: string, p: Id, w: World, b: Snapshot, y: string, q: Id)
    requires From(v, a, x) && From(w, b, y) && p in a.states && q in b.states
    requires p in a.keys && q in b.keys && a.keys[p] == b.keys[q]
    ensures ShowsAll(v, a, p) && ShowsAll(w, b, q) && CoveredStates(a, p) == CoveredStates(b, q)
    ensures v.root == w.root && ContextOf(v) == ContextOf(w)
  {
    FromShows(v, a, x, p);
    FromShows(w, b, y, q);
    KeyHoldsCovered(a, p);
    KeyHoldsCovered(b, q);
    assert a.states[p] in CoveredStates(b, q);
  }

  /******* Which rows are admitted *******/

  /** No stronger kind has a digest for the path. */
  ghost predicate Plain(w: World, s: Snapshot, generated: Generated, p: Id, path: string) {
    forall sha ::
      && !IsGenerated(s, generated, p, path, sha) && !IsExtra(w, s.metadata, p, path, sha)
      && !IsVendored(w, path, sha) && !IsTool(w, path, sha) && !IsConfig(w, path, sha)
  }

  ghost predicate BoundOnly(w: World, s: Snapshot, generated: Generated, p: Id, path: string, sha: Sha) {
    Binds(w, s, generated, p, path, sha) && forall x :: Binds(w, s, generated, p, path, x) ==> x == sha
  }

  lemma PlainBinds(w: World, s: Snapshot, generated: Generated, p: Id, path: string)
    requires Plain(w, s, generated, p, path)
    ensures forall sha :: Binds(w, s, generated, p, path, sha) <==> IsInput(w, s.metadata, p, path, sha)
  {
  }

  lemma OneInput(w: World, metadata: Metadata, p: Id, path: string, sha: Sha, x: Sha)
    requires IsInput(w, metadata, p, path, sha) && IsInput(w, metadata, p, path, x)
    ensures x == sha
  {
    var d, n :| InputOf(w, metadata, p, d, n, sha) && path == At(w.root, n);
    var e, m :| InputOf(w, metadata, p, e, m, x) && path == At(w.root, m);
    assert path[|w.root| + 1..] == n == m;
  }

  /** A regular file below the directory of a package that p needs is allowed with the digest it has in the
      source, whatever else the build knows, unless its path is also a configuration file, a tool, a
      vendored source, an extra tree's file or a generated one. */
  lemma OwnSourceAllowed(w: World, s: Snapshot, name: string, p: Id, generated: Generated, d: Id, n: string)
    requires From(w, s, name) && p in s.states && Needs(s.metadata, p, d) && d in s.metadata.packages
    requires n in w.source && w.source[n].File? && HasPrefix(n, s.metadata.packages[d].directory + "/")
    requires Plain(w, s, generated, p, At(w.root, n))
    ensures BoundOnly(w, s, generated, p, At(w.root, n), w.source[n].sha)
    ensures At(w.root, n) in Allowed(s, p, generated) && Allowed(s, p, generated)[At(w.root, n)] == w.source[n].sha
  {
    var path, sha := At(w.root, n), w.source[n].sha;
    PlainBinds(w, s, generated, p, path);
    assert InputOf(w, s.metadata, p, d, n, sha);
    forall x | Binds(w, s, generated, p, path, x)
      ensures x == sha
    {
      OneInput(w, s.metadata, p, path, sha, x);
    }
    AllowedIsBound(w, s, name, p, generated, path);
  }

  lemma OutsideRefused(w: World, s: Snapshot, name: string, row: Row, preparedAt: nat, priors: seq<Receipt>,
                       generated: Generated, path: string)
    requires From(w, s, name) && row.package in s.states && row.package in s.keys
    requires path in row.sources && !Binds(w, s, generated, row.package, path, row.sources[path])
    ensures Admit(s, preparedAt, priors, generated, row) == Err(UnfrozenSource)
  {
    AllowedIsBound(w, s, name, row.package, generated, path);
  }

  ghost predicate AllBound(w: World, s: Snapshot, generated: Generated, row: Row) {
    forall path | path in row.sources :: BoundOnly(w, s, generated, row.package, path, row.sources[path])
  }

  lemma AllBoundFrozen(w: World, s: Snapshot, name: string, generated: Generated, row: Row)
    requires From(w, s, name) && row.package in s.states && AllBound(w, s, generated, row)
    ensures SourcesFrozen(row, Allowed(s, row.package, generated))
  {
    forall path | path in row.sources
      ensures path in Allowed(s, row.package, generated)
      ensures row.sources[path] == Allowed(s, row.package, generated)[path]
    {
      AllowedIsBound(w, s, name, row.package, generated, path);
    }
  }

  /** Every file but the dep-info was written in this build, or its retention is proved. */
  predicate WrittenNow(row: Row, preparedAt: nat) {
    forall f | f in row.files ::
      (|f| >= 2 && f[|f| - 2..] == ".d") || row.files[f].mtime >= preparedAt || f in row.retained
  }

  /** A receipt of this version has a unit of this key and variant with the same bytes. */
  ghost predicate MadeBefore(s: Snapshot, priors: seq<Receipt>, row: Row)
    requires row.package in s.keys
  {
    exists r, u :: r in priors && r.version == 1 && u in r.units && SameUnit(u, s.keys[row.package], row)
  }

  predicate SameUnit(u: Unit, key: Key, row: Row) {
    && u.key == key && u.variant == row.variant && u.files.Keys == row.files.Keys
    && forall f | f in row.files :: u.files[f].sha == row.files[f].sha
  }

  lemma SameHashes(u: Unit, key: Key, row: Row)
    ensures SameUnit(u, key, row) <==> Fits(u, key, Some(row.variant)) && Hashes(u.files) == Hashes(row.files)
  {
    if Hashes(u.files) == Hashes(row.files) {
      assert u.files.Keys == Hashes(u.files).Keys == Hashes(row.files).Keys;
      forall f | f in row.files ensures u.files[f].sha == row.files[f].sha {
        assert Hashes(u.files)[f] == Hashes(row.files)[f];
      }
    }
  }

  lemma ProducerIff(s: Snapshot, priors: seq<Receipt>, row: Row)
    requires row.package in s.keys
    ensures HasProducer(priors, row, s.keys[row.package]) <==> MadeBefore(s, priors, row)
  {
    var key := s.keys[row.package];
    if HasProducer(priors, row, key) {
      var u :| u in PriorUnits(priors, key, Some(row.variant)) && Hashes(u.files) == Hashes(row.files);
      PriorUnitsIff(priors, key, Some(row.variant), u);
      SameHashes(u, key, row);
    }
    if r, u :| r in priors && r.version == 1 && u in r.units && SameUnit(u, key, row) {
      SameHashes(u, key, row);
      PriorUnitsIff(priors, key, Some(row.variant), u);
    }
  }

  /** What becomes of a row with bound sources. */
  ghost function Verdict(s: Snapshot, preparedAt: nat, priors: seq<Receipt>, row: Row): Result<Unit, Problem>
    requires row.package in s.keys
  {
    match row.freshness
    case Some(false) =>
      if WrittenNow(row, preparedAt) then Ok(Unit(row.package, s.keys[row.package], row.variant, row.files, false))
      else Err(PredatesBuild)
    case Some(true) =>
      if MadeBefore(s, priors, row) then Ok(Unit(row.package, s.keys[row.package], row.variant, row.files, true))
      else Err(FreshWithoutProducer)
    case None => Err(FreshWithoutProducer)
  }

  lemma CurrentIs(row: Row, preparedAt: nat)
    ensures Current(row, preparedAt) <==> WrittenNow(row, preparedAt)
  {
  }

  lemma FrozenVerdict(s: Snapshot, preparedAt: nat, priors: seq<Receipt>, generated: Generated, row: Row)
    requires row.package in s.keys && SourcesFrozen(row, Allowed(s, row.package, generated))
    ensures Admit(s, preparedAt, priors, generated, row) == Verdict(s, preparedAt, priors, row)
  {
    ProducerIff(s, priors, row);
    CurrentIs(row, preparedAt);
  }

  /** A row whose sources are all bound to the digests they have is admitted exactly if it was compiled now
      and its files are current, or Cargo calls it fresh and a receipt has its bytes. */
  lemma AdmittedIff(w: World, s: Snapshot, name: string, row: Row, preparedAt: nat, priors: seq<Receipt>,
                    generated: Generated)
    requires From(w, s, name) && row.package in s.states && row.package in s.keys && AllBound(w, s, generated, row)
    ensures Admit(s, preparedAt, priors, generated, row) == Verdict(s, preparedAt, priors, row)
  {
    AllBoundFrozen(w, s, name, generated, row);
    FrozenVerdict(s, preparedAt, priors, generated, row);
  }

  /** Only regular files below the directories of packages it needs, with the digests the source has. */
  ghost predicate ReadsSources(w: World, s: Snapshot, generated: Generated, row: Row) {
    forall path | path in row.sources ::
      && IsInput(w, s.metadata, row.package, path, row.sources[path])
      && Plain(w, s, generated, row.package, path)
  }

  /** An ordinary row: it reads the source files of needed packages only and was compiled now. */
  lemma OrdinaryAdmitted(w: World, s: Snapshot, name: string, row: Row, preparedAt: nat, priors: seq<Receipt>,
                         generated: Generated)
    requires From(w, s, name) && row.package in s.states && row.package in s.keys
    requires ReadsSources(w, s, generated, row) && row.freshness == Some(false) && WrittenNow(row, preparedAt)
    ensures Admit(s, preparedAt, priors, generated, row)
      == Ok(Unit(row.package, s.keys[row.package], row.variant, row.files, false))
  {
    forall path | path in row.sources
      ensures BoundOnly(w, s, generated, row.package, path, row.sources[path])
    {
      PlainBinds(w, s, generated, row.package, path);
      forall x | Binds(w, s, generated, row.package, path, x)
        ensures x == row.sources[path]
      {
        OneInput(w, s.metadata, row.package, path, row.sources[path], x);
      }
    }
    AdmittedIff(w, s, name, row, preparedAt, priors, generated);
  }

  /******* Whole builds *******/

  /** The row earns the unit. */
  ghost predicate Earns(p: Prepared, generated: Generated, row: Row, u: Unit) {
    row.package in p.snapshot.keys && Admit(p.snapshot, p.preparedAt, p.priors, generated, row) == Ok(u)
  }

  lemma JoinedIff(front: Result<seq<Unit>, Problem>, last: Result<Unit, Problem>, units: seq<Unit>)
    ensures Joined(front, last) == Ok(units)
      <==> units != [] && front == Ok(units[..|units| - 1]) && last == Ok(units[|units| - 1])
  {
    if units != [] {
      assert units == units[..|units| - 1] + [units[|units| - 1]];
    }
  }

  lemma AdmitLast(p: Prepared, generated: Generated, rows: seq<Row>, units: seq<Unit>)
    requires rows != [] && forall row | row in rows :: row.package in p.snapshot.keys
    ensures AdmitAll(p, generated, rows) == Ok(units)
      <==> && units != [] && AdmitAll(p, generated, rows[..|rows| - 1]) == Ok(units[..|units| - 1])
           && Earns(p, generated, rows[|rows| - 1], units[|units| - 1])
  {
    var last := rows[|rows| - 1];
    JoinedIff(AdmitAll(p, generated, rows[..|rows| - 1]), Admit(p.snapshot, p.preparedAt, p.priors, generated, last), units);
  }

  ghost predicate Pairwise<A, B>(a: seq<A>, b: seq<B>, r: (A, B) -> bool) {
    |a| == |b| && forall k | 0 <= k < |a| :: r(a[k], b[k])
  }

  lemma PairwiseLast<A, B>(a: seq<A>, b: seq<B>, r: (A, B) -> bool)
    requires a != [] && b != []
    ensures Pairwise(a, b, r) <==> Pairwise(a[..|a| - 1], b[..|b| - 1], r) && r(a[|a| - 1], b[|b| - 1])
  {
  }

  /** Each row earns the unit at its place. */
  ghost predicate EarnsAll(p: Prepared, generated: Generated, rows: seq<Row>, units: seq<Unit>) {
    Pairwise(rows, units, (row, u) => Earns(p, generated, row, u))
  }

  lemma {:induction false} AdmitAllIff(p: Prepared, generated: Generated, rows: seq<Row>, units: seq<Unit>)
    requires forall row | row in rows :: row.package in p.snapshot.keys
    ensures AdmitAll(p, generated, rows) == Ok(units) <==> EarnsAll(p, generated, rows, units)
  {
    if rows != [] && units != [] {
      AdmitLast(p, generated, rows, units);
      AdmitAllIff(p, generated, rows[..|rows| - 1], units[..|units| - 1]);
      PairwiseLast(rows, units, (row, u) => Earns(p, generated, row, u));
    } else if rows != [] {
      AdmitLast(p, generated, rows, units);
    }
  }

  /** A build yields a receipt exactly if nothing it depends on changed, its rows cover the prepared packages
      and every row earns its unit; the receipt has these units in the order of the rows. */
  lemma VerifyIff(p: Prepared, now: World, generated: Generated, rows: seq<Row>, receipt: Receipt)
    requires Manifests(p.snapshot.metadata)
    ensures Verify(p, now, generated, rows) == Ok(receipt)
      <==> && From(now, p.snapshot, p.name)
           && (forall d :: d in p.snapshot.keys <==> exists row :: row in rows && row.package == d)
           && receipt.version == 1 && EarnsAll(p, generated, rows, receipt.units)
  {
    var covered := set row | row in rows :: row.package;
    assert p.snapshot.keys.Keys == covered
      <==> forall d :: d in p.snapshot.keys <==> exists row :: row in rows && row.package == d;
    if p.snapshot.keys.Keys == covered {
      forall row | row in rows ensures row.package in p.snapshot.keys { assert row.package in covered; }
      AdmitAllIff(p, generated, rows, receipt.units);
    }
  }
}
