/** Release candidates in a remote store (scripts/release_store.py, scripts/release_manifest.py): the
    flattening of a candidate tree into release assets, the resumable publication, and fetching a
    candidate back. SHA-256 and JSON are injective: a digest is the content it digests, a JSON text is
    the document it spells (with its length). */
module Release {
  import opened Results
  import Sets

  /******* Contents *******/

  datatype Content = Text(text: string) | Json(doc: Doc, length: nat)

  datatype Info = Info(sha: Content, bytes: nat)

  type Files = map<string, Info>

  datatype Platform = LinuxX86 | LinuxArm | MacArm | MacX86 | MacArmApp | MacX86App | Ios

  const PLATFORMS := {LinuxX86, LinuxArm, MacArm, MacX86, MacArmApp, MacX86App, Ios}

  function Label(p: Platform): string {
    match p
    case LinuxX86 => "khor-linux-x86_64"
    case LinuxArm => "khor-linux-aarch64"
    case MacArm => "khor-macos-arm64"
    case MacX86 => "khor-macos-x86_64"
    case MacArmApp => "khor-macos-arm64-app"
    case MacX86App => "khor-macos-x86_64-app"
    case Ios => "ios-archive"
  }

  datatype Tag = Tag(version: string, candidate: Option<nat>)

  datatype Receipt = Receipt(
    schema: nat, kind: Platform, version: string, source: string, run: string, ui: string, files: Files)

  datatype Record = Record(
    schema: nat, tag: Tag, version: string, source: string, run: string,
    artifacts: map<Platform, Receipt>, installer: Info)

  datatype Upload = Upload(source: string, run: string, version: string, build: string, processed: bool)

  datatype Descriptor = Descriptor(
    schema: nat, tag: Tag, candidateTag: Tag, manifestSha: Content, testflight: Upload)

  datatype Doc =
    | ManifestDoc(record: Record)
    | ReceiptDoc(receipt: Receipt)
    | DescriptorDoc(descriptor: Descriptor)
    | ProofDoc(status: string, signed: bool, source: string, run: string, asset: Platform, wellFormed: bool)
    | BuildDoc(signed: bool, version: string, build: string)

  function Size(c: Content): nat {
    match c
    case Text(text) => |text|
    case Json(_, length) => length
  }

  function InfoOf(c: Content): Info {
    Info(c, Size(c))
  }

  /** The directories of a candidate: one a platform, one for the manifest. */
  datatype Directory = Root | CandidateManifest | Of(platform: Platform)

  /** A directory and the rest of the path. */
  datatype Path = Path(directory: Directory, name: string)

  type Tree = map<Path, Content>

  const MANIFEST := Path(CandidateManifest, "manifest.json")
  const INSTALLER := Path(CandidateManifest, "install.sh")
  const DESCRIPTOR := Path(Root, "release.json")

  /******* The receipt check *******/

  /** `path.name == "receipt.json"`, at any depth. */
  predicate NamesReceipt(name: string) {
    var r := "receipt.json";
    name == r || (|name| > |r| && name[|name| - |r| - 1..] == "/" + r)
  }

  /** `files`: what a directory holds besides receipts. */
  function FilesIn(tree: Tree, directory: Directory): Files {
    map name | name in (set p | p in tree :: p.name) && Path(directory, name) in tree && !NamesReceipt(name) ::
      InfoOf(tree[Path(directory, name)])
  }

  function ReadReceipt(tree: Tree, p: Platform): Option<Receipt> {
    var path := Path(Of(p), "receipt.json");
    if path in tree && tree[path].Json? && tree[path].doc.ReceiptDoc? then Some(tree[path].doc.receipt) else None
  }

  /** `verify` for one platform directory. */
  function Verified(tree: Tree, p: Platform, source: string): Option<Receipt> {
    match ReadReceipt(tree, p)
    case None => None
    case Some(r) =>
      if r.schema == 1 && r.files != map[] && r.files == FilesIn(tree, Of(p)) && r.source == source
      then Some(r) else None
  }

  /******* The candidate check *******/

  predicate Hex(c: char) { '0' <= c <= '9' || 'a' <= c <= 'f' }

  predicate ValidManifest(record: Record) {
    && record.schema == 1 && record.artifacts.Keys == PLATFORMS
    && record.tag.candidate.Some? && record.tag.version == record.version
    && |record.source| == 40 && (forall c | c in record.source :: Hex(c))
    && record.run != "" && (forall c | c in record.run :: '0' <= c <= '9')
    && (forall name | name in record.artifacts :: var r := record.artifacts[name];
          r.source == record.source && r.version == record.version && r.run == record.run
          && r.kind == name && r.schema == 1)
    && forall a, b | a in record.artifacts && b in record.artifacts :: record.artifacts[a].ui == record.artifacts[b].ui
  }

  function ReadManifest(tree: Tree): Option<Record> {
    if MANIFEST in tree && tree[MANIFEST].Json? && tree[MANIFEST].doc.ManifestDoc?
    then Some(tree[MANIFEST].doc.record) else None
  }

  /** The text is `true` between blanks. */
  predicate SaysTrue(c: Content) {
    c.Text? && exists i | 0 <= i <= |c.text| - 4 ::
      c.text[i..i + 4] == "true" && forall d | d in c.text[..i] + c.text[i + 4..] :: d in " \t\r\n"
  }

  predicate Notarized(tree: Tree, record: Record, app: Directory, asset: Platform) {
    && Path(app, "signed.txt") in tree && Path(app, "notarization.json") in tree
    && SaysTrue(tree[Path(app, "signed.txt")])
    && tree[Path(app, "notarization.json")].Json?
    && var proof := tree[Path(app, "notarization.json")].doc;
      proof.ProofDoc? && proof.status == "Accepted" && proof.signed && proof.source == record.source
      && proof.run == record.run && proof.asset == asset && proof.wellFormed
  }

  /** `signed_build`: the iOS build, if the whole candidate is signed. */
  function SignedBuild(tree: Tree, record: Record): Option<Doc> {
    var p := Path(Of(Ios), "build.json");
    if Notarized(tree, record, Of(MacArmApp), MacArm) && Notarized(tree, record, Of(MacX86App), MacX86)
      && p in tree && tree[p].Json? && tree[p].doc.BuildDoc? && tree[p].doc.signed && tree[p].doc.version == record.version
    then Some(tree[p].doc) else None
  }

  predicate Uploaded(record: Record, build: Doc, u: Upload)
    requires build.BuildDoc?
  {
    u.source == record.source && u.run == record.run && u.version == build.version && u.build == build.build && u.processed
  }

  /** `verify_candidate`. */
  function VerifyCandidate(tree: Tree): Option<Record> {
    match ReadManifest(tree)
    case None => None
    case Some(record) =>
      if ValidManifest(record)
        && (forall name | name in record.artifacts :: Verified(tree, name, record.source) == Some(record.artifacts[name]))
        && INSTALLER in tree && tree[INSTALLER] == record.installer.sha
        && SignedBuild(tree, record).Some?
      then Some(record) else None
  }

  /******* Flattening *******/

  datatype Asset = Asset(path: Path, info: Info)

  type Assets = map<string, Asset>

  predicate Alphanumeric(c: char) { '0' <= c <= '9' || 'A' <= c <= 'Z' || 'a' <= c <= 'z' }

  predicate Safe(name: string) {
    name != "" && Alphanumeric(name[0]) && forall c | c in name :: Alphanumeric(c) || c in "._-"
  }

  const RESERVED := {"manifest.json", "install.sh", "release.json"}
  const PER_PLATFORM := {"signed.txt", "build.json", "notarization.json"}

  /** The asset name of a platform's file. */
  function AssetName(e: Path): string {
    if e.directory.Of? && e.name in PER_PLATFORM then Label(e.directory.platform) + "-" + e.name else e.name
  }

  function Entries(record: Record): (es: set<Path>)
    ensures forall e :: e in es <==> (e.directory.Of? && e.directory.platform in record.artifacts
      && e.name in record.artifacts[e.directory.platform].files)
  {
    set p, name | p in record.artifacts && name in record.artifacts[p].files :: Path(Of(p), name)
  }

  function EntryInfo(record: Record, e: Path): Info
    requires e in Entries(record)
  {
    record.artifacts[e.directory.platform].files[e.name]
  }

  /** The files can be flattened: safe names, no two alike, none reserved. */
  predicate Flattens(record: Record) {
    && (forall e | e in Entries(record) :: Safe(e.name) && AssetName(e) !in RESERVED)
    && forall e, f | e in Entries(record) && f in Entries(record) && AssetName(e) == AssetName(f) :: e == f
  }

  function AssetNames(record: Record): set<string> {
    set e | e in Entries(record) :: AssetName(e)
  }

  ghost function FlatFiles(record: Record): Assets
    requires Flattens(record)
  {
    map n | n in AssetNames(record) ::
      var e :| e in Entries(record) && AssetName(e) == n; Asset(e, EntryInfo(record, e))
  }

  ghost function Flat(record: Record): Assets
    requires Flattens(record)
  {
    FlatFiles(record)["install.sh" := Asset(INSTALLER, record.installer)]
  }

  /** The map holds exactly the files in `done`, each under its own name. */
  predicate HoldsFiles(flat: Assets, record: Record, done: set<Path>)
    requires done <= Entries(record)
  {
    && (forall e | e in done :: AssetName(e) in flat && flat[AssetName(e)] == Asset(e, EntryInfo(record, e)))
    && forall n | n in flat :: flat[n].path in done && AssetName(flat[n].path) == n
  }

  lemma HoldsOneMore(flat: Assets, record: Record, done: set<Path>, e: Path)
    requires done <= Entries(record) && HoldsFiles(flat, record, done) && e in Entries(record) && AssetName(e) !in flat
    ensures HoldsFiles(flat[AssetName(e) := Asset(e, EntryInfo(record, e))], record, done + {e})
  {
  }

  lemma HoldsAll(flat: Assets, record: Record)
    requires HoldsFiles(flat, record, Entries(record))
    requires forall e | e in Entries(record) :: Safe(e.name) && AssetName(e) !in RESERVED
    ensures Flattens(record) && flat == FlatFiles(record)
  {
    forall e, f | e in Entries(record) && f in Entries(record) && AssetName(e) == AssetName(f)
      ensures e == f
    {
      assert flat[AssetName(e)].path == e && flat[AssetName(f)].path == f;
    }
  }

  /** `asset_map`; None where the source refuses. */
  method AssetMap(record: Record) returns (assets: Option<Assets>)
    ensures assets.Some? <==> Flattens(record)
    ensures assets.Some? ==> assets.value == Flat(record)
  {
    var flat: Assets := map[];
    var todo := Entries(record);
    ghost var done: set<Path> := {};
    while todo != {}
      invariant todo !! done && done + todo == Entries(record)
      invariant forall e | e in done :: Safe(e.name) && AssetName(e) !in RESERVED
      invariant HoldsFiles(flat, record, done)
    {
      var e :| e in todo;
      var name := AssetName(e);
      if !Safe(e.name) || name in flat || name in RESERVED {
        assert name in flat ==> flat[name].path != e && AssetName(flat[name].path) == AssetName(e);
        return None;
      }
      HoldsOneMore(flat, record, done, e);
      flat := flat[name := Asset(e, EntryInfo(record, e))];
      todo, done := todo - {e}, done + {e};
    }
    assert done == Entries(record);
    HoldsAll(flat, record);
    return Some(flat["install.sh" := Asset(INSTALLER, record.installer)]);
  }

  ghost predicate DistinctPaths(flat: Assets) {
    forall m, n | m in flat && n in flat && flat[m].path == flat[n].path :: m == n
  }

  /** Every listed file has one asset that tells its path and digest, and only the installer has
      another. */
  ghost predicate Inverts(flat: Assets, record: Record) {
    && DistinctPaths(flat)
    && "install.sh" in flat && flat["install.sh"] == Asset(INSTALLER, record.installer)
    && (forall e | e in Entries(record) :: exists n :: n in flat && flat[n] == Asset(e, EntryInfo(record, e)))
    && forall n | n in flat && n != "install.sh" ::
      flat[n].path in Entries(record) && flat[n].info == EntryInfo(record, flat[n].path)
  }

  /** The names of a flattened candidate do not collide and lead back to the paths. */
  lemma FlatInverts(record: Record)
    requires Flattens(record)
    ensures Inverts(Flat(record), record)
    ensures forall e | e in Entries(record) :: AssetName(e) in Flat(record) && Flat(record)[AssetName(e)].path == e
  {
    var flat := Flat(record);
    forall e | e in Entries(record)
      ensures AssetName(e) in flat && flat[AssetName(e)] == Asset(e, EntryInfo(record, e))
    {
      assert AssetName(e) in AssetNames(record);
    }
  }

  /******* The remote release *******/

  type Contents = map<string, Content>

  datatype Release =
    | Absent
    | Draft(assets: Contents)
    | Published(assets: Contents, prerelease: bool, immutable: bool)

  function Held(r: Release): Contents {
    if r.Absent? then map[] else r.assets
  }

  /** Nothing foreign and nothing different is there. */
  predicate Within(actual: Contents, expected: Contents) {
    actual.Keys <= expected.Keys && forall n | n in actual :: actual[n] == expected[n]
  }

  /** `verify_remote_assets`: the stated digests and sizes. */
  predicate Agrees(actual: Contents, expected: map<string, Info>, complete: bool) {
    && (if complete then actual.Keys == expected.Keys else actual.Keys <= expected.Keys)
    && forall n | n in actual :: actual[n] == expected[n].sha && Size(actual[n]) == expected[n].bytes
  }

  /** The local contents are what is stated about them. */
  predicate Consistent(contents: Contents, stated: map<string, Info>) {
    Agrees(contents, stated, true)
  }

  /** With consistent contents the remote check is a comparison of contents. */
  lemma AgreesWithin(actual: Contents, contents: Contents, stated: map<string, Info>)
    requires Consistent(contents, stated)
    ensures Agrees(actual, stated, false) <==> Within(actual, contents)
    ensures Agrees(actual, stated, true) <==> actual == contents
  {
  }

  /******* Publishing *******/

  datatype Outcome = Finished | Interrupted | Refused

  /** What the draft holds once everything missing is uploaded and nothing is replaced. */
  function Filled(held: Contents, contents: Contents): Contents {
    contents + held
  }

  /** One run of `publish`, interrupted anywhere or not: what it may leave behind and answer. */
  ghost predicate RunOf(
    before: Release, contents: Contents, stated: map<string, Info>, prerelease: bool, immutable: bool,
    after: Release, outcome: Outcome)
  {
    var held, all := Held(before), Filled(Held(before), contents);
    if before.Published? then
      after == before && outcome == (
        if before.prerelease == prerelease && before.immutable && Agrees(held, stated, true) then Finished else Refused)
    else if !Agrees(held, stated, false) then
      after == before && outcome == Refused
    else
      || (outcome == Interrupted && after == before)
      || (outcome == Interrupted && after.Draft? && Within(held, after.assets) && Within(after.assets, all))
      || (outcome == Refused && after == Draft(all) && !Agrees(all, stated, true))
      || (after == Published(all, prerelease, immutable) && Agrees(all, stated, true)
          && (outcome == Interrupted || outcome == if immutable then Finished else Refused))
  }

  class Store {
    const immutable: bool
    var release: Release

    /** `budget` is the number of remote effects this run lives to make; `lost` says that the last reply
        never arrives. */
    method Publish(contents: Contents, stated: map<string, Info>, prerelease: bool, budget: nat, lost: bool)
      returns (outcome: Outcome)
      requires contents.Keys == stated.Keys
      modifies this
      ensures RunOf(old(release), contents, stated, prerelease, immutable, release, outcome)
      ensures outcome.Interrupted? ==> lost || budget < |contents| + 2
    {
      if release.Published? {
        if release.prerelease != prerelease || !release.immutable { return Refused; }
        return if Agrees(release.assets, stated, true) then Finished else Refused;
      }
      var left := budget;
      if release.Absent? {
        if left == 0 { return Interrupted; }
        release, left := Draft(map[]), left - 1;
      }
      if !Agrees(release.assets, stated, false) { return Refused; }
      var done: bool;
      left, done := UploadMissing(contents, left);
      if !done { return Interrupted; }
      if !Agrees(release.assets, stated, true) { return Refused; }
      if left == 0 { return Interrupted; }
      release := Published(release.assets, prerelease, immutable);
      return if lost then Interrupted else if immutable then Finished else Refused;
    }

    /** Uploads what is missing and leaves what is there alone. */
    method UploadMissing(contents: Contents, budget: nat) returns (left: nat, done: bool)
      requires release.Draft? && release.assets.Keys <= contents.Keys
      modifies this
      ensures release.Draft? && Within(old(release.assets), release.assets)
      ensures Within(release.assets, Filled(old(release.assets), contents))
      ensures done ==> release.assets == Filled(old(release.assets), contents)
      ensures budget > |contents| ==> done && left > 0
    {
      left := budget;
      var todo := contents.Keys - release.assets.Keys;
      Sets.SubsetSize(todo, contents.Keys);
      while todo != {}
        invariant release.Draft? && Within(old(release.assets), release.assets)
        invariant Within(release.assets, Filled(old(release.assets), contents))
        invariant todo == contents.Keys - release.assets.Keys
        invariant budget > |contents| ==> left > |todo|
      {
        if left == 0 { return left, false; }
        var name :| name in todo;
        UploadOne(old(release.assets), release.assets, contents, name);
        release, left := Draft(release.assets[name := contents[name]]), left - 1;
        todo := todo - {name};
      }
      return left, true;
    }
  }

  lemma UploadOne(before: Contents, held: Contents, contents: Contents, name: string)
    requires Within(before, held) && Within(held, Filled(before, contents))
    requires name in contents && name !in held
    ensures Within(before, held[name := contents[name]])
    ensures Within(held[name := contents[name]], Filled(before, contents))
    ensures contents.Keys - held[name := contents[name]].Keys == contents.Keys - held.Keys - {name}
  {
  }

  /** Runs of `publish` with the same inputs, one after the other, from a store without this release. */
  ghost predicate Runs(
    states: seq<Release>, outcomes: seq<Outcome>, contents: Contents, stated: map<string, Info>,
    prerelease: bool, immutable: bool)
  {
    |states| == |outcomes| + 1 && states[0].Absent? && forall k | 0 <= k < |outcomes| ::
      RunOf(states[k], contents, stated, prerelease, immutable, states[k + 1], outcomes[k])
  }

  /** Whatever is interrupted, the remote assets stay a digest-exact part of the local ones and none is
      ever replaced, a published release is complete and never changes again, and a run that finishes
      has published exactly the local assets, immutably. */
  lemma {:induction false} PublishingIsSafe(
    states: seq<Release>, outcomes: seq<Outcome>, contents: Contents, stated: map<string, Info>,
    prerelease: bool, immutable: bool, m: nat, n: nat)
    requires Runs(states, outcomes, contents, stated, prerelease, immutable) && m <= n < |states|
    requires Consistent(contents, stated)
    ensures Within(Held(states[n]), contents) && Within(Held(states[m]), Held(states[n]))
    ensures states[n].Published? ==> states[n] == Published(contents, prerelease, immutable)
    ensures states[m].Published? ==> states[n] == states[m]
    ensures n > 0 && outcomes[n - 1].Finished? ==> states[n] == Published(contents, prerelease, true)
    decreases n, m
  {
    if n > 0 {
      assert RunOf(states[n - 1], contents, stated, prerelease, immutable, states[n], outcomes[n - 1]);
      PublishingIsSafe(states, outcomes, contents, stated, prerelease, immutable, if m < n then m else n - 1, n - 1);
      AgreesWithin(Held(states[n - 1]), contents, stated);
      FilledIsAll(Held(states[n - 1]), contents);
    }
  }

  lemma FilledIsAll(held: Contents, contents: Contents)
    requires Within(held, contents)
    ensures Filled(held, contents) == contents
  {
  }

  /** Contents that are not what is stated about them are never published. */
  lemma {:induction false} InconsistentStaysDraft(
    states: seq<Release>, outcomes: seq<Outcome>, contents: Contents, stated: map<string, Info>,
    prerelease: bool, immutable: bool, n: nat)
    requires Runs(states, outcomes, contents, stated, prerelease, immutable) && n < |states|
    requires contents.Keys == stated.Keys && !Consistent(contents, stated)
    ensures Within(Held(states[n]), contents) && !states[n].Published?
  {
    if n > 0 {
      assert RunOf(states[n - 1], contents, stated, prerelease, immutable, states[n], outcomes[n - 1]);
      InconsistentStaysDraft(states, outcomes, contents, stated, prerelease, immutable, n - 1);
      FilledIsAll(Held(states[n - 1]), contents);
    }
  }

  /** Once it is there complete and immutable, every further run finishes and changes nothing. */
  lemma RerunIsNoOp(contents: Contents, stated: map<string, Info>, prerelease: bool, immutable: bool, after: Release, outcome: Outcome)
    requires Consistent(contents, stated)
    requires RunOf(Published(contents, prerelease, true), contents, stated, prerelease, immutable, after, outcome)
    ensures after == Published(contents, prerelease, true) && outcome == Finished
  {
  }

  /******* Fetching a candidate *******/

  datatype Fetched = Fetched(record: Record, tree: Tree)

  function ManifestOf(assets: Contents): Option<Record> {
    if "manifest.json" in assets && assets["manifest.json"].Json? && assets["manifest.json"].doc.ManifestDoc?
    then Some(assets["manifest.json"].doc.record) else None
  }

  function DescriptorOf(assets: Contents): Option<Descriptor> {
    if "release.json" in assets && assets["release.json"].Json? && assets["release.json"].doc.DescriptorDoc?
    then Some(assets["release.json"].doc.descriptor) else None
  }

  /** The digests and sizes stated about a release: the flat files', and those of the two documents. */
  function Stated(flat: Assets, assets: Contents): map<string, Info>
    requires "manifest.json" in assets && "release.json" in assets
  {
    (map n | n in flat :: flat[n].info)
      ["manifest.json" := InfoOf(assets["manifest.json"])]["release.json" := InfoOf(assets["release.json"])]
  }

  /** The release of a candidate as `fetch_release` demands it, before anything is unpacked. */
  ghost predicate Fetchable(release: Release, tag: Tag) {
    && release.Published? && release.prerelease && release.immutable
    && ManifestOf(release.assets).Some? && DescriptorOf(release.assets).Some?
    && var record, d := ManifestOf(release.assets).value, DescriptorOf(release.assets).value;
      && ValidManifest(record) && d.schema == 1 && record.tag == tag == d.tag == d.candidateTag
      && d.manifestSha == release.assets["manifest.json"]
      && Flattens(record) && Agrees(release.assets, Stated(Flat(record), release.assets), true)
  }

  /** The named assets at their paths. */
  ghost function Placed(flat: Assets, assets: Contents, names: set<string>): Tree
    requires DistinctPaths(flat) && names <= flat.Keys && names <= assets.Keys
  {
    map p | p in Paths(flat, names) :: var n :| n in names && flat[n].path == p; assets[n]
  }

  function Paths(flat: Assets, names: set<string>): set<Path>
    requires names <= flat.Keys
  {
    set n | n in names :: flat[n].path
  }

  lemma PlacedOneMore(flat: Assets, assets: Contents, names: set<string>, n: string)
    requires DistinctPaths(flat) && n in flat && n in assets && names <= flat.Keys && names <= assets.Keys && n !in names
    ensures Placed(flat, assets, names + {n}) == Placed(flat, assets, names)[flat[n].path := assets[n]]
  {
  }

  function ReceiptPaths(record: Record): set<Path> {
    set p | p in record.artifacts :: Path(Of(p), "receipt.json")
  }

  function Receipts(record: Record, length: nat): Tree {
    map path | path in ReceiptPaths(record) :: Json(ReceiptDoc(record.artifacts[path.directory.platform]), length)
  }

  function Documents(assets: Contents): Tree
    requires "manifest.json" in assets && "release.json" in assets
  {
    map[MANIFEST := assets["manifest.json"], DESCRIPTOR := assets["release.json"]]
  }

  ghost predicate Unpackable(flat: Assets, assets: Contents) {
    DistinctPaths(flat) && flat.Keys + {"manifest.json", "release.json"} <= assets.Keys
  }

  /** The tree of a fetched candidate: the assets back at their paths, and each platform's receipt. */
  ghost function Unflattened(record: Record, flat: Assets, assets: Contents, length: nat): Tree
    requires Unpackable(flat, assets)
  {
    Documents(assets) + Placed(flat, assets, flat.Keys) + Receipts(record, length)
  }

  /** `fetch_release` of a full candidate; `length` is the size of a rewritten receipt. */
  ghost function Fetch(release: Release, tag: Tag, length: nat): Option<Fetched> {
    if !Fetchable(release, tag) then None
    else
      var record, d := ManifestOf(release.assets).value, DescriptorOf(release.assets).value;
      FlatInverts(record);
      Accept(record, d, Unflattened(record, Flat(record), release.assets, length))
  }

  /** The checks on the unpacked tree. */
  ghost function Accept(record: Record, d: Descriptor, tree: Tree): Option<Fetched> {
    match SignedBuild(tree, record)
    case None => None
    case Some(build) =>
      if Uploaded(record, build, d.testflight) && VerifyCandidate(tree) == Some(record)
      then Some(Fetched(record, tree)) else None
  }

  /** The downloads of `fetch_release`, one asset at a time into an empty root. */
  method Download(flat: Assets, assets: Contents) returns (tree: Tree)
    requires DistinctPaths(flat) && flat.Keys <= assets.Keys
    ensures tree == Placed(flat, assets, flat.Keys)
  {
    tree := map[];
    var todo := flat.Keys;
    ghost var done: set<string> := {};
    while todo != {}
      invariant todo !! done && done + todo == flat.Keys
      invariant tree == Placed(flat, assets, done)
    {
      var n :| n in todo;
      PlacedOneMore(flat, assets, done, n);
      tree := tree[flat[n].path := assets[n]];
      todo, done := todo - {n}, done + {n};
    }
    assert done == flat.Keys;
  }

  method Unflatten(record: Record, flat: Assets, assets: Contents, length: nat) returns (tree: Tree)
    requires Unpackable(flat, assets)
    ensures tree == Unflattened(record, flat, assets, length)
  {
    var placed := Download(flat, assets);
    tree := Documents(assets) + placed + Receipts(record, length);
  }

  /******* What is in a fetched tree *******/

  lemma PlacedAt(flat: Assets, assets: Contents, n: string)
    requires DistinctPaths(flat) && flat.Keys <= assets.Keys && n in flat
    ensures var placed := Placed(flat, assets, flat.Keys);
      flat[n].path in placed && placed[flat[n].path] == assets[n]
  {
  }

  lemma PlacedFrom(flat: Assets, assets: Contents, e: Path)
    requires DistinctPaths(flat) && flat.Keys <= assets.Keys && e in Placed(flat, assets, flat.Keys)
    ensures exists n :: n in flat && flat[n].path == e
  {
  }

  lemma ReceiptAt(record: Record, length: nat, p: Platform)
    requires p in record.artifacts
    ensures Path(Of(p), "receipt.json") in Receipts(record, length)
    ensures Receipts(record, length)[Path(Of(p), "receipt.json")] == Json(ReceiptDoc(record.artifacts[p]), length)
  {
  }

  lemma UnflattenedIn(record: Record, flat: Assets, assets: Contents, length: nat, k: Path)
    requires Unpackable(flat, assets)
    ensures var t, placed, receipts := Unflattened(record, flat, assets, length), Placed(flat, assets, flat.Keys), Receipts(record, length);
      && (k in t <==> k in Documents(assets) || k in placed || k in receipts)
      && (k in receipts ==> t[k] == receipts[k])
      && (k in placed && k !in receipts ==> t[k] == placed[k])
      && (k in t && k !in placed && k !in receipts ==> t[k] == Documents(assets)[k])
  {
  }

  /** Every flat asset is at its path, unless that is a receipt's. */
  lemma AssetFetched(record: Record, flat: Assets, assets: Contents, length: nat, n: string)
    requires Unpackable(flat, assets) && n in flat && flat[n].path !in Receipts(record, length)
    ensures var t := Unflattened(record, flat, assets, length);
      flat[n].path in t && t[flat[n].path] == assets[n]
  {
    PlacedAt(flat, assets, n);
    UnflattenedIn(record, flat, assets, length, flat[n].path);
  }

  lemma ReceiptFetched(record: Record, flat: Assets, assets: Contents, length: nat, p: Platform)
    requires Unpackable(flat, assets) && p in record.artifacts
    ensures ReadReceipt(Unflattened(record, flat, assets, length), p) == Some(record.artifacts[p])
  {
    ReceiptAt(record, length, p);
    UnflattenedIn(record, flat, assets, length, Path(Of(p), "receipt.json"));
  }

  lemma ManifestFetched(record: Record, flat: Assets, assets: Contents, length: nat)
    requires Unpackable(flat, assets) && Inverts(flat, record)
    ensures var t := Unflattened(record, flat, assets, length); MANIFEST in t && t[MANIFEST] == assets["manifest.json"]
  {
    UnflattenedIn(record, flat, assets, length, MANIFEST);
    if MANIFEST in Placed(flat, assets, flat.Keys) {
      PlacedFrom(flat, assets, MANIFEST);
      var n :| n in flat && flat[n].path == MANIFEST;
      NoAssetAtManifest(flat, record, n);
    }
  }

  lemma NoAssetAtManifest(flat: Assets, record: Record, n: string)
    requires Inverts(flat, record) && n in flat
    ensures flat[n].path != MANIFEST
  {
    if n != "install.sh" {
      assert flat[n].path in Entries(record);
    }
  }

  /** In a platform's directory there is nothing but listed files and the receipt. */
  lemma FetchedEntry(record: Record, flat: Assets, assets: Contents, length: nat, e: Path)
    requires Unpackable(flat, assets) && Inverts(flat, record)
    requires e.directory.Of? && e.name != "receipt.json" && e in Unflattened(record, flat, assets, length)
    ensures e in Entries(record)
  {
    UnflattenedIn(record, flat, assets, length, e);
    PlacedFrom(flat, assets, e);
    var n :| n in flat && flat[n].path == e;
    assert n != "install.sh";
  }

  /******* Publish, then fetch *******/

  /** What `publish` uploads: the flat files of the tree and the two documents. */
  function Expected(tree: Tree, flat: Assets, descriptor: Content): Contents
    requires MANIFEST in tree && forall n | n in flat :: flat[n].path in tree
  {
    (map n | n in flat :: tree[flat[n].path])["manifest.json" := tree[MANIFEST]]["release.json" := descriptor]
  }

  /** The tree has every flat file with its digest, and its size, the installer's aside. */
  ghost predicate Local(tree: Tree, flat: Assets) {
    && MANIFEST in tree && INSTALLER in tree
    && "install.sh" in flat && flat["install.sh"].path == INSTALLER
    && "manifest.json" !in flat && "release.json" !in flat
    && forall n | n in flat :: flat[n].path in tree && tree[flat[n].path] == flat[n].info.sha
         && (n != "install.sh" ==> Size(tree[flat[n].path]) == flat[n].info.bytes)
  }

  lemma CandidateHolds(tree: Tree, record: Record, e: Path)
    requires VerifyCandidate(tree) == Some(record) && e in Entries(record)
    ensures e in tree && InfoOf(tree[e]) == EntryInfo(record, e) && !NamesReceipt(e.name)
  {
    var p := e.directory.platform;
    assert Verified(tree, p, record.source) == Some(record.artifacts[p]);
    assert e.name in FilesIn(tree, e.directory);
  }

  ghost predicate Recorded(tree: Tree, record: Record) {
    forall e | e in Entries(record) :: e in tree && InfoOf(tree[e]) == EntryInfo(record, e) && !NamesReceipt(e.name)
  }

  lemma CandidateHoldsAll(tree: Tree, record: Record)
    requires VerifyCandidate(tree) == Some(record)
    ensures Recorded(tree, record)
  {
    forall e | e in Entries(record)
      ensures e in tree && InfoOf(tree[e]) == EntryInfo(record, e) && !NamesReceipt(e.name)
    {
      CandidateHolds(tree, record, e);
    }
  }

  lemma CandidateParts(tree: Tree, record: Record)
    requires VerifyCandidate(tree) == Some(record)
    ensures MANIFEST in tree && ReadManifest(tree) == Some(record) && ValidManifest(record)
    ensures INSTALLER in tree && tree[INSTALLER] == record.installer.sha
    ensures SignedBuild(tree, record).Some?
  {
  }

  lemma PartVerified(tree: Tree, record: Record, p: Platform)
    requires VerifyCandidate(tree) == Some(record) && p in record.artifacts
    ensures Verified(tree, p, record.source) == Some(record.artifacts[p])
  {
  }

  lemma ReservedNames(record: Record)
    requires Flattens(record)
    ensures "manifest.json" !in Flat(record) && "release.json" !in Flat(record)
  {
    assert forall n | n in AssetNames(record) :: n !in RESERVED;
  }

  lemma CandidateLocal(tree: Tree, record: Record)
    requires VerifyCandidate(tree) == Some(record) && Flattens(record)
    ensures Local(tree, Flat(record)) && Inverts(Flat(record), record)
  {
    FlatInverts(record);
    ReservedNames(record);
    CandidateParts(tree, record);
    CandidateHoldsAll(tree, record);
    LocalFrom(tree, Flat(record), record);
  }

  lemma LocalFrom(tree: Tree, flat: Assets, record: Record)
    requires Inverts(flat, record) && "manifest.json" !in flat && "release.json" !in flat
    requires MANIFEST in tree && INSTALLER in tree && tree[INSTALLER] == record.installer.sha
    requires forall e | e in Entries(record) :: e in tree && InfoOf(tree[e]) == EntryInfo(record, e)
    ensures Local(tree, flat)
  {
  }

  /** What is uploaded is what is stated exactly when the installer's size is stated right. */
  lemma LocalConsistent(tree: Tree, flat: Assets, descriptor: Content)
    requires Local(tree, flat)
    ensures var contents := Expected(tree, flat, descriptor);
      Consistent(contents, Stated(flat, contents)) <==> Size(tree[INSTALLER]) == flat["install.sh"].info.bytes
  {
    var contents := Expected(tree, flat, descriptor);
    assert contents.Keys == Stated(flat, contents).Keys;
    assert contents["install.sh"] == tree[INSTALLER];
  }

  /** A verified candidate can be published exactly when its manifest states the installer's size right:
      that size is compared with the uploaded asset but not by the candidate check. */
  lemma CandidateConsistent(tree: Tree, record: Record, descriptor: Content)
    requires VerifyCandidate(tree) == Some(record) && Flattens(record)
    ensures Expected.requires(tree, Flat(record), descriptor)
    ensures var contents := Expected(tree, Flat(record), descriptor);
      Consistent(contents, Stated(Flat(record), contents)) <==> Size(tree[INSTALLER]) == record.installer.bytes
  {
    CandidateLocal(tree, record);
    LocalConsistent(tree, Flat(record), descriptor);
  }

  /** A tree that comes back after a publication. */
  ghost function Back(tree: Tree, record: Record, flat: Assets, descriptor: Content, length: nat): Tree
    requires Local(tree, flat) && Inverts(flat, record)
  {
    Unflattened(record, flat, Expected(tree, flat, descriptor), length)
  }

  lemma NoReceiptPath(record: Record, length: nat, e: Path)
    requires e in Receipts(record, length)
    ensures NamesReceipt(e.name)
  {
  }

  lemma InPlatform(record: Record, length: nat, e: Path)
    requires e in Receipts(record, length)
    ensures e.directory.Of?
  {
  }

  lemma AssetBack(tree: Tree, record: Record, flat: Assets, descriptor: Content, length: nat, n: string)
    requires Local(tree, flat) && Inverts(flat, record) && n in flat && flat[n].path !in Receipts(record, length)
    ensures var t, e := Back(tree, record, flat, descriptor, length), flat[n].path;
      e in t && t[e] == tree[e]
  {
    AssetFetched(record, flat, Expected(tree, flat, descriptor), length, n);
  }

  lemma EntryBack(tree: Tree, record: Record, flat: Assets, descriptor: Content, length: nat, e: Path)
    requires Local(tree, flat) && Inverts(flat, record) && e in Entries(record) && !NamesReceipt(e.name)
    ensures var t := Back(tree, record, flat, descriptor, length);
      e in tree && e in t && t[e] == tree[e]
  {
    var n :| n in flat && flat[n] == Asset(e, EntryInfo(record, e));
    if e in Receipts(record, length) {
      NoReceiptPath(record, length, e);
    }
    AssetBack(tree, record, flat, descriptor, length, n);
  }

  lemma InstallerBack(tree: Tree, record: Record, flat: Assets, descriptor: Content, length: nat)
    requires Local(tree, flat) && Inverts(flat, record)
    ensures var t := Back(tree, record, flat, descriptor, length);
      INSTALLER in t && t[INSTALLER] == tree[INSTALLER]
  {
    if INSTALLER in Receipts(record, length) {
      InPlatform(record, length, INSTALLER);
    }
    AssetBack(tree, record, flat, descriptor, length, "install.sh");
  }

  lemma ManifestBack(tree: Tree, record: Record, flat: Assets, descriptor: Content, length: nat)
    requires Local(tree, flat) && Inverts(flat, record)
    ensures var t := Back(tree, record, flat, descriptor, length);
      MANIFEST in t && t[MANIFEST] == tree[MANIFEST]
  {
    ManifestFetched(record, flat, Expected(tree, flat, descriptor), length);
  }

  /** A directory with exactly the listed files, whose receipt is there, verifies. */
  lemma FilesExactly(t: Tree, directory: Directory, files: Files)
    requires forall name | name in files ::
      Path(directory, name) in t && InfoOf(t[Path(directory, name)]) == files[name] && !NamesReceipt(name)
    requires forall e | e in t && e.directory == directory && !NamesReceipt(e.name) :: e.name in files
    ensures FilesIn(t, directory) == files
  {
    var found := FilesIn(t, directory);
    forall name | name in files
      ensures name in found
    {
      assert Path(directory, name).name == name;
    }
  }

  lemma FilesBack(tree: Tree, record: Record, flat: Assets, descriptor: Content, length: nat, p: Platform)
    requires Local(tree, flat) && Inverts(flat, record) && p in record.artifacts
    requires Recorded(tree, record)
    ensures FilesIn(Back(tree, record, flat, descriptor, length), Of(p)) == record.artifacts[p].files
  {
    var t := Back(tree, record, flat, descriptor, length);
    var files := record.artifacts[p].files;
    forall name | name in files
      ensures Path(Of(p), name) in t && InfoOf(t[Path(Of(p), name)]) == files[name] && !NamesReceipt(name)
    {
      var e := Path(Of(p), name);
      assert e in Entries(record);
      EntryBack(tree, record, flat, descriptor, length, e);
    }
    forall e | e in t && e.directory == Of(p) && !NamesReceipt(e.name)
      ensures e.name in files
    {
      FetchedEntry(record, flat, Expected(tree, flat, descriptor), length, e);
    }
    FilesExactly(t, Of(p), files);
  }

  lemma ListedFile(tree: Tree, p: Platform, source: string, r: Receipt, e: Path)
    requires Verified(tree, p, source) == Some(r) && e in tree && e.directory == Of(p) && !NamesReceipt(e.name)
    ensures e.name in r.files
  {
    assert e.name in FilesIn(tree, Of(p));
  }

  /** A platform file that is no receipt is an entry of the record. */
  lemma FileIsEntry(tree: Tree, record: Record, e: Path)
    requires VerifyCandidate(tree) == Some(record) && e in tree && e.directory.Of? && !NamesReceipt(e.name)
    requires e.directory.platform in record.artifacts
    ensures e in Entries(record)
  {
    var p := e.directory.platform;
    PartVerified(tree, record, p);
    ListedFile(tree, p, record.source, record.artifacts[p], e);
  }

  predicate SameAt(a: Tree, b: Tree, e: Path) {
    e in a && e in b && a[e] == b[e]
  }

  lemma SignedSame(a: Tree, b: Tree, record: Record)
    requires SignedBuild(a, record).Some?
    requires SameAt(a, b, Path(Of(MacArmApp), "signed.txt")) && SameAt(a, b, Path(Of(MacArmApp), "notarization.json"))
    requires SameAt(a, b, Path(Of(MacX86App), "signed.txt")) && SameAt(a, b, Path(Of(MacX86App), "notarization.json"))
    requires SameAt(a, b, Path(Of(Ios), "build.json"))
    ensures SignedBuild(b, record) == SignedBuild(a, record)
  {
  }

  lemma SignedPaths(a: Tree, record: Record)
    requires SignedBuild(a, record).Some?
    ensures Path(Of(MacArmApp), "signed.txt") in a && Path(Of(MacArmApp), "notarization.json") in a
    ensures Path(Of(MacX86App), "signed.txt") in a && Path(Of(MacX86App), "notarization.json") in a
    ensures Path(Of(Ios), "build.json") in a
  {
  }

  lemma OneBack(tree: Tree, record: Record, flat: Assets, descriptor: Content, length: nat, e: Path)
    requires VerifyCandidate(tree) == Some(record) && Local(tree, flat) && Inverts(flat, record)
    requires e in tree && e.directory.Of? && !NamesReceipt(e.name)
    ensures SameAt(tree, Back(tree, record, flat, descriptor, length), e)
  {
    CandidateParts(tree, record);
    AllPlatforms(record, e.directory.platform);
    FileIsEntry(tree, record, e);
    EntryBack(tree, record, flat, descriptor, length, e);
  }

  lemma PlainNames()
    ensures !NamesReceipt("signed.txt") && !NamesReceipt("notarization.json") && !NamesReceipt("build.json")
  {
    var n := "notarization.json";
    assert n[|n| - 13..][0] == 'r';
  }

  lemma AllPlatforms(record: Record, p: Platform)
    requires record.artifacts.Keys == PLATFORMS
    ensures p in record.artifacts
  {
    assert p in PLATFORMS;
  }

  lemma SignedBack(tree: Tree, record: Record, flat: Assets, descriptor: Content, length: nat)
    requires VerifyCandidate(tree) == Some(record) && Local(tree, flat) && Inverts(flat, record)
    ensures SignedBuild(Back(tree, record, flat, descriptor, length), record) == SignedBuild(tree, record)
  {
    CandidateParts(tree, record);
    SignedPaths(tree, record);
    AppBack(tree, record, flat, descriptor, length, MacArmApp);
    AppBack(tree, record, flat, descriptor, length, MacX86App);
    BuildBack(tree, record, flat, descriptor, length);
    SignedSame(tree, Back(tree, record, flat, descriptor, length), record);
  }

  lemma AppBack(tree: Tree, record: Record, flat: Assets, descriptor: Content, length: nat, app: Platform)
    requires VerifyCandidate(tree) == Some(record) && Local(tree, flat) && Inverts(flat, record)
    requires Path(Of(app), "signed.txt") in tree && Path(Of(app), "notarization.json") in tree
    ensures SameAt(tree, Back(tree, record, flat, descriptor, length), Path(Of(app), "signed.txt"))
    ensures SameAt(tree, Back(tree, record, flat, descriptor, length), Path(Of(app), "notarization.json"))
  {
    PlainNames();
    OneBack(tree, record, flat, descriptor, length, Path(Of(app), "signed.txt"));
    OneBack(tree, record, flat, descriptor, length, Path(Of(app), "notarization.json"));
  }

  lemma BuildBack(tree: Tree, record: Record, flat: Assets, descriptor: Content, length: nat)
    requires VerifyCandidate(tree) == Some(record) && Local(tree, flat) && Inverts(flat, record)
    requires Path(Of(Ios), "build.json") in tree
    ensures SameAt(tree, Back(tree, record, flat, descriptor, length), Path(Of(Ios), "build.json"))
  {
    PlainNames();
    OneBack(tree, record, flat, descriptor, length, Path(Of(Ios), "build.json"));
  }

  lemma VerifiedParts(tree: Tree, p: Platform, source: string, r: Receipt)
    requires Verified(tree, p, source) == Some(r)
    ensures r.schema == 1 && r.files != map[] && r.source == source && FilesIn(tree, Of(p)) == r.files
  {
  }

  lemma VerifiedFrom(t: Tree, p: Platform, source: string, r: Receipt)
    requires r.schema == 1 && r.files != map[] && r.source == source
    requires ReadReceipt(t, p) == Some(r) && FilesIn(t, Of(p)) == r.files
    ensures Verified(t, p, source) == Some(r)
  {
  }

  lemma VerifiedBack(tree: Tree, record: Record, flat: Assets, descriptor: Content, length: nat, p: Platform)
    requires Local(tree, flat) && Inverts(flat, record) && Recorded(tree, record) && p in record.artifacts
    requires Verified(tree, p, record.source) == Some(record.artifacts[p])
    ensures Verified(Back(tree, record, flat, descriptor, length), p, record.source) == Some(record.artifacts[p])
  {
    VerifiedParts(tree, p, record.source, record.artifacts[p]);
    FilesBack(tree, record, flat, descriptor, length, p);
    ReceiptFetched(record, flat, Expected(tree, flat, descriptor), length, p);
    VerifiedFrom(Back(tree, record, flat, descriptor, length), p, record.source, record.artifacts[p]);
  }

  lemma CandidateFrom(t: Tree, record: Record)
    requires ReadManifest(t) == Some(record) && ValidManifest(record)
    requires INSTALLER in t && t[INSTALLER] == record.installer.sha && SignedBuild(t, record).Some?
    requires forall p | p in record.artifacts :: Verified(t, p, record.source) == Some(record.artifacts[p])
    ensures VerifyCandidate(t) == Some(record)
  {
  }

  lemma CandidateBack(tree: Tree, record: Record, flat: Assets, descriptor: Content, length: nat)
    requires VerifyCandidate(tree) == Some(record) && Local(tree, flat) && Inverts(flat, record)
    ensures VerifyCandidate(Back(tree, record, flat, descriptor, length)) == Some(record)
  {
    var t := Back(tree, record, flat, descriptor, length);
    CandidateParts(tree, record);
    ManifestBack(tree, record, flat, descriptor, length);
    InstallerBack(tree, record, flat, descriptor, length);
    SignedBack(tree, record, flat, descriptor, length);
    CandidateHoldsAll(tree, record);
    forall p | p in record.artifacts
      ensures Verified(t, p, record.source) == Some(record.artifacts[p])
    {
      PartVerified(tree, record, p);
      VerifiedBack(tree, record, flat, descriptor, length, p);
    }
    CandidateFrom(t, record);
  }

  /** The descriptor `publish` writes for a candidate. */
  function DescriptorFor(tree: Tree, record: Record, tag: Tag, upload: Upload, size: nat): Content
    requires MANIFEST in tree
  {
    Json(DescriptorDoc(Descriptor(1, tag, record.tag, tree[MANIFEST], upload)), size)
  }

  lemma PublishedFetchable(tree: Tree, record: Record, upload: Upload, size: nat)
    requires VerifyCandidate(tree) == Some(record) && Flattens(record) && Local(tree, Flat(record))
    requires Size(tree[INSTALLER]) == record.installer.bytes
    ensures Fetchable(
      Published(Expected(tree, Flat(record), DescriptorFor(tree, record, record.tag, upload, size)), true, true), record.tag)
  {
    CandidateParts(tree, record);
    LocalConsistent(tree, Flat(record), DescriptorFor(tree, record, record.tag, upload, size));
  }

  lemma AcceptBack(tree: Tree, record: Record, flat: Assets, d: Descriptor, descriptor: Content, length: nat)
    requires VerifyCandidate(tree) == Some(record) && Local(tree, flat) && Inverts(flat, record)
    requires SignedBuild(tree, record).Some? && Uploaded(record, SignedBuild(tree, record).value, d.testflight)
    ensures var t := Back(tree, record, flat, descriptor, length); Accept(record, d, t) == Some(Fetched(record, t))
  {
    CandidateBack(tree, record, flat, descriptor, length);
    SignedBack(tree, record, flat, descriptor, length);
  }

  lemma AllFilesBack(tree: Tree, record: Record, flat: Assets, descriptor: Content, length: nat)
    requires VerifyCandidate(tree) == Some(record) && Local(tree, flat) && Inverts(flat, record)
    ensures forall p | p in record.artifacts ::
      FilesIn(Back(tree, record, flat, descriptor, length), Of(p)) == FilesIn(tree, Of(p)) == record.artifacts[p].files
  {
    CandidateHoldsAll(tree, record);
    forall p | p in record.artifacts
      ensures FilesIn(Back(tree, record, flat, descriptor, length), Of(p)) == FilesIn(tree, Of(p)) == record.artifacts[p].files
    {
      PartVerified(tree, record, p);
      VerifiedParts(tree, p, record.source, record.artifacts[p]);
      FilesBack(tree, record, flat, descriptor, length, p);
    }
  }

  lemma FetchUnfolds(r: Release, tag: Tag, length: nat, record: Record, d: Descriptor)
    requires Fetchable(r, tag) && ManifestOf(r.assets) == Some(record) && DescriptorOf(r.assets) == Some(d)
    ensures Unpackable(Flat(record), r.assets)
    ensures Fetch(r, tag, length) == Accept(record, d, Unflattened(record, Flat(record), r.assets, length))
  {
    FlatInverts(record);
  }

  /** Fetching the release into an empty root gives the record over a tree that verifies again, with, for
      every platform, exactly the files of the tree it was published from. */
  ghost predicate ComesBack(tree: Tree, record: Record, flat: Assets, descriptor: Content, release: Release, length: nat) {
    && Local(tree, flat) && Inverts(flat, record)
    && var t := Back(tree, record, flat, descriptor, length);
      && Fetch(release, record.tag, length) == Some(Fetched(record, t))
      && VerifyCandidate(t) == Some(record)
      && forall p | p in record.artifacts :: FilesIn(t, Of(p)) == FilesIn(tree, Of(p)) == record.artifacts[p].files
  }

  /** A verified candidate that is published comes back. */
  lemma PublishedComesBack(tree: Tree, record: Record, upload: Upload, size: nat, length: nat)
    requires VerifyCandidate(tree) == Some(record) && Flattens(record)
    requires Size(tree[INSTALLER]) == record.installer.bytes
    requires Uploaded(record, SignedBuild(tree, record).value, upload)
    ensures Local(tree, Flat(record))
    ensures var descriptor := DescriptorFor(tree, record, record.tag, upload, size);
      var release := Published(Expected(tree, Flat(record), descriptor), true, true);
      ComesBack(tree, record, Flat(record), descriptor, release, length)
  {
    CandidateLocal(tree, record);
    var flat, content := Flat(record), DescriptorFor(tree, record, record.tag, upload, size);
    CandidateParts(tree, record);
    CandidateBack(tree, record, flat, content, length);
    AllFilesBack(tree, record, flat, content, length);
    PublishedFetchable(tree, record, upload, size);
    AcceptBack(tree, record, flat, content.doc.descriptor, content, length);
    FetchUnfolds(Published(Expected(tree, flat, content), true, true), record.tag, length, record, content.doc.descriptor);
  }

  /******* When a candidate can be published *******/

  /** What a publication is asked for: the tag, the commit it points at, the upload's receipt and the
      length of the descriptor written. */
  datatype Request = Request(tag: Tag, commit: string, upload: Upload, size: nat)

  /** The checks `publish` makes before it looks at the file names. */
  predicate Admits(tree: Tree, q: Request) {
    match VerifyCandidate(tree)
    case None => false
    case Some(record) =>
      && q.tag.version == record.version && (q.tag.candidate.Some? ==> q.tag == record.tag)
      && q.commit == record.source
      && Uploaded(record, SignedBuild(tree, record).value, q.upload)
  }

  ghost function ContentsOf(tree: Tree, record: Record, q: Request): Contents
    requires VerifyCandidate(tree) == Some(record) && Flattens(record)
  {
    CandidateLocal(tree, record);
    Expected(tree, Flat(record), DescriptorFor(tree, record, q.tag, q.upload, q.size))
  }

  ghost function StatedOf(tree: Tree, record: Record, q: Request): map<string, Info>
    requires VerifyCandidate(tree) == Some(record) && Flattens(record)
  {
    Stated(Flat(record), ContentsOf(tree, record, q))
  }

  /** One whole run of `publish` over a tree: refused before any effect if a check fails or the file names
      do not flatten, and else a run over the contents of the candidate. */
  ghost predicate Attempted(tree: Tree, q: Request, immutable: bool, before: Release, after: Release, outcome: Outcome) {
    if !Admits(tree, q) || !Flattens(VerifyCandidate(tree).value) then after == before && outcome == Refused
    else
      var record := VerifyCandidate(tree).value;
      RunOf(before, ContentsOf(tree, record, q), StatedOf(tree, record, q), q.tag.candidate.Some?, immutable, after, outcome)
  }

  /** Runs over the same tree, one after the other, from a store without this release. */
  ghost predicate Attempts(tree: Tree, q: Request, immutable: bool, states: seq<Release>, outcomes: seq<Outcome>) {
    |states| == |outcomes| + 1 && states[0].Absent? && forall k | 0 <= k < |outcomes| ::
      Attempted(tree, q, immutable, states[k], states[k + 1], outcomes[k])
  }

  ghost predicate CanPublish(tree: Tree, q: Request, immutable: bool) {
    exists states, outcomes :: EndsPublished(tree, q, immutable, states, outcomes)
  }

  ghost predicate EndsPublished(tree: Tree, q: Request, immutable: bool, states: seq<Release>, outcomes: seq<Outcome>) {
    Attempts(tree, q, immutable, states, outcomes) && states[|states| - 1].Published?
  }

  lemma {:induction false} NothingHappens(
    tree: Tree, q: Request, immutable: bool, states: seq<Release>, outcomes: seq<Outcome>, n: nat)
    requires Attempts(tree, q, immutable, states, outcomes) && n < |states|
    requires !Admits(tree, q) || !Flattens(VerifyCandidate(tree).value)
    ensures states[n].Absent?
  {
    if n > 0 {
      NothingHappens(tree, q, immutable, states, outcomes, n - 1);
      assert Attempted(tree, q, immutable, states[n - 1], states[n], outcomes[n - 1]);
    }
  }

  lemma AttemptsAreRuns(
    tree: Tree, record: Record, q: Request, immutable: bool, states: seq<Release>, outcomes: seq<Outcome>)
    requires Attempts(tree, q, immutable, states, outcomes) && Admits(tree, q)
    requires VerifyCandidate(tree) == Some(record) && Flattens(record)
    ensures Runs(states, outcomes, ContentsOf(tree, record, q), StatedOf(tree, record, q), q.tag.candidate.Some?, immutable)
  {
    forall k | 0 <= k < |outcomes|
      ensures RunOf(states[k], ContentsOf(tree, record, q), StatedOf(tree, record, q), q.tag.candidate.Some?, immutable,
                    states[k + 1], outcomes[k])
    {
      assert Attempted(tree, q, immutable, states[k], states[k + 1], outcomes[k]);
    }
  }

  lemma SameKeys(tree: Tree, flat: Assets, descriptor: Content)
    requires Local(tree, flat)
    ensures var contents := Expected(tree, flat, descriptor); contents.Keys == Stated(flat, contents).Keys
  {
  }

  lemma ContentsConsistent(tree: Tree, record: Record, q: Request)
    requires VerifyCandidate(tree) == Some(record) && Flattens(record)
    ensures INSTALLER in tree && ContentsOf(tree, record, q).Keys == StatedOf(tree, record, q).Keys
    ensures Consistent(ContentsOf(tree, record, q), StatedOf(tree, record, q))
      <==> Size(tree[INSTALLER]) == record.installer.bytes
  {
    CandidateLocal(tree, record);
    SameKeys(tree, Flat(record), DescriptorFor(tree, record, q.tag, q.upload, q.size));
    CandidateConsistent(tree, record, DescriptorFor(tree, record, q.tag, q.upload, q.size));
  }

  /** The file names flatten, and the installer has the size its manifest states. */
  predicate Presentable(tree: Tree, record: Record) {
    Flattens(record) && INSTALLER in tree && Size(tree[INSTALLER]) == record.installer.bytes
  }

  lemma OneRunPublishes(contents: Contents, stated: map<string, Info>, prerelease: bool, immutable: bool)
    requires Consistent(contents, stated)
    ensures RunOf(Absent, contents, stated, prerelease, immutable, Published(contents, prerelease, immutable),
                  if immutable then Finished else Refused)
  {
    assert Filled(map[], contents) == contents;
  }

  lemma OneAttempt(tree: Tree, q: Request, immutable: bool, states: seq<Release>, outcomes: seq<Outcome>)
    requires |states| == 2 && |outcomes| == 1 && states[0].Absent? && states[1].Published?
    requires Attempted(tree, q, immutable, states[0], states[1], outcomes[0])
    ensures EndsPublished(tree, q, immutable, states, outcomes)
  {
    forall k | 0 <= k < |outcomes|
      ensures Attempted(tree, q, immutable, states[k], states[k + 1], outcomes[k])
    {
      assert k == 0;
    }
  }

  lemma EndIsPublished(tree: Tree, q: Request, immutable: bool, states: seq<Release>, outcomes: seq<Outcome>)
    requires EndsPublished(tree, q, immutable, states, outcomes)
    ensures CanPublish(tree, q, immutable)
  {
  }

  lemma RunAttempted(tree: Tree, record: Record, q: Request, immutable: bool, before: Release, after: Release, outcome: Outcome)
    requires Admits(tree, q) && VerifyCandidate(tree) == Some(record) && Flattens(record)
    requires RunOf(before, ContentsOf(tree, record, q), StatedOf(tree, record, q), q.tag.candidate.Some?, immutable, after, outcome)
    ensures Attempted(tree, q, immutable, before, after, outcome)
  {
  }

  lemma PresentablePublishes(tree: Tree, record: Record, q: Request, immutable: bool)
    requires Admits(tree, q) && VerifyCandidate(tree) == Some(record) && Presentable(tree, record)
    ensures CanPublish(tree, q, immutable)
  {
    var contents, stated := ContentsOf(tree, record, q), StatedOf(tree, record, q);
    var after := Published(contents, q.tag.candidate.Some?, immutable);
    ContentsConsistent(tree, record, q);
    OneRunPublishes(contents, stated, q.tag.candidate.Some?, immutable);
    var states, outcomes := [Absent, after], [if immutable then Finished else Refused];
    RunAttempted(tree, record, q, immutable, states[0], states[1], outcomes[0]);
    OneAttempt(tree, q, immutable, states, outcomes);
    EndIsPublished(tree, q, immutable, states, outcomes);
  }

  /** A candidate that passes the checks can be published, by any number of runs, if and only if its file
      names flatten and its manifest states the installer's size right; neither is among the checks. */
  lemma PublishableIff(tree: Tree, q: Request, immutable: bool)
    ensures CanPublish(tree, q, immutable) <==> Admits(tree, q) && Presentable(tree, VerifyCandidate(tree).value)
  {
    if Admits(tree, q) && Presentable(tree, VerifyCandidate(tree).value) {
      PresentablePublishes(tree, VerifyCandidate(tree).value, q, immutable);
    } else if CanPublish(tree, q, immutable) {
      var states, outcomes :| EndsPublished(tree, q, immutable, states, outcomes);
      NeverPublished(tree, q, immutable, states, outcomes);
    }
  }

  lemma NeverPublished(tree: Tree, q: Request, immutable: bool, states: seq<Release>, outcomes: seq<Outcome>)
    requires Attempts(tree, q, immutable, states, outcomes)
    requires !(Admits(tree, q) && Presentable(tree, VerifyCandidate(tree).value))
    ensures !states[|states| - 1].Published?
  {
    if !Admits(tree, q) || !Flattens(VerifyCandidate(tree).value) {
      NothingHappens(tree, q, immutable, states, outcomes, |states| - 1);
    } else {
      var record := VerifyCandidate(tree).value;
      ContentsConsistent(tree, record, q);
      AttemptsAreRuns(tree, record, q, immutable, states, outcomes);
      InconsistentStaysDraft(states, outcomes, ContentsOf(tree, record, q), StatedOf(tree, record, q),
                             q.tag.candidate.Some?, immutable, |states| - 1);
    }
  }

  lemma FinishedIsPublished(
    states: seq<Release>, outcomes: seq<Outcome>, contents: Contents, stated: map<string, Info>,
    prerelease: bool, immutable: bool, n: nat)
    requires Runs(states, outcomes, contents, stated, prerelease, immutable) && contents.Keys == stated.Keys
    requires 0 < n < |states| && outcomes[n - 1].Finished?
    ensures Consistent(contents, stated) && states[n] == Published(contents, prerelease, true)
  {
    assert RunOf(states[n - 1], contents, stated, prerelease, immutable, states[n], outcomes[n - 1]);
    assert states[n].Published?;
    if !Consistent(contents, stated) {
      InconsistentStaysDraft(states, outcomes, contents, stated, prerelease, immutable, n);
    } else {
      PublishingIsSafe(states, outcomes, contents, stated, prerelease, immutable, n, n);
    }
  }

  lemma FinishedIsAdmitted(tree: Tree, q: Request, immutable: bool, before: Release, after: Release, outcome: Outcome)
    requires Attempted(tree, q, immutable, before, after, outcome) && outcome.Finished?
    ensures Admits(tree, q) && Flattens(VerifyCandidate(tree).value)
  {
  }

  lemma AdmittedUpload(tree: Tree, record: Record, q: Request)
    requires Admits(tree, q) && VerifyCandidate(tree) == Some(record)
    ensures Uploaded(record, SignedBuild(tree, record).value, q.upload)
    ensures record.tag.candidate.Some?
  {
    CandidateParts(tree, record);
  }

  /** However often a publication was interrupted and run again: once a run finishes, the release comes
      back. */
  lemma FinishedComesBack(
    tree: Tree, record: Record, q: Request, immutable: bool, states: seq<Release>, outcomes: seq<Outcome>, n: nat, length: nat)
    requires Attempts(tree, q, immutable, states, outcomes) && 0 < n < |states| && outcomes[n - 1].Finished?
    requires VerifyCandidate(tree) == Some(record) && q.tag == record.tag
    ensures Flattens(record) && MANIFEST in tree
    ensures ComesBack(tree, record, Flat(record), DescriptorFor(tree, record, q.tag, q.upload, q.size), states[n], length)
  {
    FinishedIsAdmitted(tree, q, immutable, states[n - 1], states[n], outcomes[n - 1]);
    HasManifest(tree, record);
    ContentsConsistent(tree, record, q);
    AttemptsAreRuns(tree, record, q, immutable, states, outcomes);
    AdmittedUpload(tree, record, q);
    FinishedIsPublished(states, outcomes, ContentsOf(tree, record, q), StatedOf(tree, record, q), q.tag.candidate.Some?, immutable, n);
    PublishedComesBack(tree, record, q.upload, q.size, length);
  }

  lemma HasManifest(tree: Tree, record: Record)
    requires VerifyCandidate(tree) == Some(record)
    ensures MANIFEST in tree
  {
  }
}
