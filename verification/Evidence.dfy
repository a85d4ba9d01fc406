/** What the documents of a release candidate say when it can be published or fetched
    (scripts/release_store.py), told from the tree alone. */
module Evidence {
  import opened Results
  import opened Release

  /******* The documents *******/

  predicate DocAt(tree: Tree, e: Path, doc: Doc) {
    e in tree && tree[e].Json? && tree[e].doc == doc
  }

  predicate AllIn(s: string, chars: string) {
    forall c | c in s :: c in chars
  }

  /** Apple accepted this asset of this very build. */
  predicate Accepted(tree: Tree, record: Record, app: Platform, asset: Platform) {
    DocAt(tree, Path(Of(app), "notarization.json"), ProofDoc("Accepted", true, record.source, record.run, asset, true))
  }

  /** The mark is the word between blanks. */
  ghost predicate Marked(tree: Tree, app: Platform) {
    Path(Of(app), "signed.txt") in tree && exists a, b :: Spells(tree[Path(Of(app), "signed.txt")], a, b)
  }

  predicate Spells(c: Content, a: string, b: string) {
    c == Text(a + "true" + b) && AllIn(a, " \t\r\n") && AllIn(b, " \t\r\n")
  }

  predicate BuiltAs(tree: Tree, record: Record, build: string) {
    DocAt(tree, Path(Of(Ios), "build.json"), BuildDoc(true, record.version, build))
  }

  ghost predicate IsReceiptName(name: string) {
    name == "receipt.json" || exists d: string :: name == d + "/receipt.json"
  }

  /** The platform's receipt is there, of this candidate, and lists exactly the directory's files. */
  ghost predicate Receipted(tree: Tree, record: Record, p: Platform) {
    && p in record.artifacts && DocAt(tree, Path(Of(p), "receipt.json"), ReceiptDoc(record.artifacts[p]))
    && record.artifacts[p].kind == p && Stamped(record.artifacts[p], record)
    && Lists(tree, p, record.artifacts[p].files)
  }

  ghost predicate ReceiptedAll(tree: Tree, record: Record) {
    forall p: Platform :: Receipted(tree, record, p)
  }

  predicate Stamped(r: Receipt, record: Record) {
    r.schema == 1 && r.version == record.version && r.source == record.source && r.run == record.run
  }

  ghost predicate Lists(tree: Tree, p: Platform, files: Files) {
    && (exists name :: name in files)
    && (forall name :: name in files <==> Path(Of(p), name) in tree && !IsReceiptName(name))
    && forall name | name in files && Path(Of(p), name) in tree ::
      files[name].sha == tree[Path(Of(p), name)] && files[name].bytes == Size(tree[Path(Of(p), name)])
  }

  /** A candidate of its version, from a commit and a run, with one frontend on every platform. */
  ghost predicate Proper(record: Record) {
    && record.schema == 1 && record.tag.candidate.Some? && record.tag.version == record.version
    && |record.source| == 40 && AllIn(record.source, "0123456789abcdef")
    && |record.run| > 0 && AllIn(record.run, "0123456789")
    && (forall p: Platform :: p in record.artifacts)
    && exists ui :: Shows(record, ui)
  }

  predicate Shows(record: Record, ui: string) {
    forall p | p in record.artifacts :: record.artifacts[p].ui == ui
  }

  ghost predicate Signed(tree: Tree, record: Record) {
    && Accepted(tree, record, MacArmApp, MacArm) && Accepted(tree, record, MacX86App, MacX86)
    && Marked(tree, MacArmApp) && Marked(tree, MacX86App)
    && exists build :: BuiltAs(tree, record, build)
  }

  /** Every document of the tree speaks for this one candidate. */
  ghost predicate Sound(tree: Tree, record: Record) {
    && DocAt(tree, MANIFEST, ManifestDoc(record)) && Proper(record)
    && ReceiptedAll(tree, record)
    && INSTALLER in tree && tree[INSTALLER] == record.installer.sha
    && Signed(tree, record)
  }

  /******* The checks ask for exactly that *******/

  lemma HexIs(c: char)
    ensures Hex(c) <==> c in "0123456789abcdef"
    ensures '0' <= c <= '9' <==> c in "0123456789"
  {
  }

  lemma TrueIs(c: Content)
    ensures SaysTrue(c) <==> exists a, b :: Spells(c, a, b)
  {
    if SaysTrue(c) {
      var i :| 0 <= i <= |c.text| - 4 && c.text[i..i + 4] == "true"
        && forall d | d in c.text[..i] + c.text[i + 4..] :: d in " \t\r\n";
      assert c.text == c.text[..i] + c.text[i..i + 4] + c.text[i + 4..];
      assert Spells(c, c.text[..i], c.text[i + 4..]);
    }
    if a, b :| Spells(c, a, b) {
      assert c.text[|a|..|a| + 4] == "true" && c.text[..|a|] == a && c.text[|a| + 4..] == b;
    }
  }

  lemma NotarizedIs(tree: Tree, record: Record, app: Platform, asset: Platform)
    ensures Notarized(tree, record, Of(app), asset) <==> Accepted(tree, record, app, asset) && Marked(tree, app)
  {
    if Path(Of(app), "signed.txt") in tree {
      TrueIs(tree[Path(Of(app), "signed.txt")]);
    }
  }

  lemma SignedIs(tree: Tree, record: Record)
    ensures SignedBuild(tree, record).Some? <==> Signed(tree, record)
    ensures var build := SignedBuild(tree, record);
      build.Some? ==> build.value.BuildDoc? && build.value == BuildDoc(true, record.version, build.value.build)
    ensures var build := SignedBuild(tree, record); build.Some? ==> BuiltAs(tree, record, build.value.build)
  {
    NotarizedIs(tree, record, MacArmApp, MacArm);
    NotarizedIs(tree, record, MacX86App, MacX86);
    BuildIs(tree, record);
  }

  lemma BuildIs(tree: Tree, record: Record)
    ensures var p := Path(Of(Ios), "build.json");
      p in tree && tree[p].Json? && tree[p].doc.BuildDoc? && tree[p].doc.signed && tree[p].doc.version == record.version
      <==> exists build :: BuiltAs(tree, record, build)
  {
    var p := Path(Of(Ios), "build.json");
    if p in tree && tree[p].Json? && tree[p].doc.BuildDoc? && tree[p].doc.signed && tree[p].doc.version == record.version {
      assert BuiltAs(tree, record, tree[p].doc.build);
    }
  }

  lemma ReceiptNameIs(name: string)
    ensures NamesReceipt(name) <==> IsReceiptName(name)
  {
    var r := "receipt.json";
    if |name| > |r| && name[|name| - |r| - 1..] == "/" + r {
      var d := name[..|name| - |r| - 1];
      assert name == d + "/receipt.json";
    }
    if d: string :| name == d + "/receipt.json" {
      assert name[|d|..] == "/" + r;
    }
  }

  lemma FilesAre(tree: Tree, directory: Directory, name: string)
    ensures name in FilesIn(tree, directory) <==> Path(directory, name) in tree && !NamesReceipt(name)
    ensures name in FilesIn(tree, directory) ==> FilesIn(tree, directory)[name] == InfoOf(tree[Path(directory, name)])
  {
    if Path(directory, name) in tree {
      assert Path(directory, name).name in set p | p in tree :: p.name;
    }
  }

  lemma ListsIs(tree: Tree, p: Platform, files: Files)
    ensures files != map[] && files == FilesIn(tree, Of(p)) <==> Lists(tree, p, files)
  {
    forall name
      ensures name in FilesIn(tree, Of(p)) <==> Path(Of(p), name) in tree && !IsReceiptName(name)
      ensures name in FilesIn(tree, Of(p)) ==> FilesIn(tree, Of(p))[name] == InfoOf(tree[Path(Of(p), name)])
    {
      FilesAre(tree, Of(p), name);
      ReceiptNameIs(name);
    }
    if files != map[] {
      var name :| name in files;
    }
  }

  lemma ReceiptedIs(tree: Tree, record: Record, p: Platform)
    requires p in record.artifacts && record.artifacts[p].kind == p && Stamped(record.artifacts[p], record)
    ensures Verified(tree, p, record.source) == Some(record.artifacts[p]) <==> Receipted(tree, record, p)
  {
    ListsIs(tree, p, record.artifacts[p].files);
  }

  lemma OnePlatform(p: Platform)
    ensures p in PLATFORMS
  {
  }

  lemma AllPlatformsAre(s: set<Platform>)
    ensures s == PLATFORMS <==> forall p: Platform :: p in s
  {
    forall p: Platform ensures p in PLATFORMS { OnePlatform(p); }
    if forall p: Platform :: p in s {
      assert s <= PLATFORMS && PLATFORMS <= s;
    }
  }

  lemma OneFrontend(record: Record)
    ensures (forall a, b | a in record.artifacts && b in record.artifacts :: record.artifacts[a].ui == record.artifacts[b].ui)
      <==> exists ui :: Shows(record, ui)
  {
    if forall a, b | a in record.artifacts && b in record.artifacts :: record.artifacts[a].ui == record.artifacts[b].ui {
      if p :| p in record.artifacts {
        assert Shows(record, record.artifacts[p].ui);
      } else {
        assert Shows(record, "");
      }
    }
  }

  ghost predicate StampedAll(record: Record) {
    forall p | p in record.artifacts :: record.artifacts[p].kind == p && Stamped(record.artifacts[p], record)
  }

  lemma HexAll(s: string)
    ensures (forall c | c in s :: Hex(c)) <==> AllIn(s, "0123456789abcdef")
    ensures (forall c | c in s :: '0' <= c <= '9') <==> AllIn(s, "0123456789")
  {
    forall c ensures Hex(c) <==> c in "0123456789abcdef" ensures '0' <= c <= '9' <==> c in "0123456789" { HexIs(c); }
  }

  lemma ManifestIs(record: Record)
    ensures ValidManifest(record) <==> Proper(record) && StampedAll(record)
  {
    AllPlatformsAre(record.artifacts.Keys);
    OneFrontend(record);
    HexAll(record.source);
    HexAll(record.run);
  }

  lemma ReadsManifest(tree: Tree, record: Record)
    ensures ReadManifest(tree) == Some(record) <==> DocAt(tree, MANIFEST, ManifestDoc(record))
  {
  }

  /** Each platform's receipt check, made one by one. */
  predicate VerifiedAll(tree: Tree, record: Record) {
    forall p | p in record.artifacts :: Verified(tree, p, record.source) == Some(record.artifacts[p])
  }

  lemma ReceiptedAllIs(tree: Tree, record: Record)
    requires forall p: Platform :: p in record.artifacts
    ensures StampedAll(record) && VerifiedAll(tree, record) <==> ReceiptedAll(tree, record)
  {
    forall p: Platform
      ensures Receipted(tree, record, p) <==>
        && record.artifacts[p].kind == p && Stamped(record.artifacts[p], record)
        && Verified(tree, p, record.source) == Some(record.artifacts[p])
    {
      if record.artifacts[p].kind == p && Stamped(record.artifacts[p], record) {
        ReceiptedIs(tree, record, p);
      }
    }
  }

  lemma CheckedIs(tree: Tree, record: Record)
    ensures VerifyCandidate(tree) == Some(record)
      <==> && ReadManifest(tree) == Some(record) && ValidManifest(record) && VerifiedAll(tree, record)
           && INSTALLER in tree && tree[INSTALLER] == record.installer.sha && SignedBuild(tree, record).Some?
  {
  }

  lemma ProperAll(record: Record)
    requires Proper(record)
    ensures forall p: Platform :: p in record.artifacts
  {
  }

  /** The candidate check passes a tree, with a record, exactly if every document speaks for that one. */
  lemma VerifiedIff(tree: Tree, record: Record)
    ensures VerifyCandidate(tree) == Some(record) <==> Sound(tree, record)
  {
    ReadsManifest(tree, record);
    ManifestIs(record);
    SignedIs(tree, record);
    CheckedIs(tree, record);
    if Proper(record) {
      ProperAll(record);
      ReceiptedAllIs(tree, record);
    }
  }

  /******* What is published *******/

  /** The request is about this candidate: its tag, its commit, and Apple's processed upload of its build. */
  predicate Submits(tree: Tree, record: Record, q: Request) {
    && q.tag.version == record.version && (q.tag.candidate.None? || q.tag == record.tag)
    && q.commit == record.source
    && q.upload.source == record.source && q.upload.run == record.run && q.upload.version == record.version
    && BuiltAs(tree, record, q.upload.build) && q.upload.processed
  }

  lemma SubmitsIs(tree: Tree, record: Record, q: Request)
    requires Sound(tree, record)
    ensures Admits(tree, q) <==> Submits(tree, record, q)
  {
    VerifiedIff(tree, record);
    SignedIs(tree, record);
  }

  /** The request passes the checks exactly if the documents speak for one candidate and it is about that. */
  lemma AdmitsIff(tree: Tree, q: Request)
    ensures Admits(tree, q) <==> exists record :: Sound(tree, record) && Submits(tree, record, q)
  {
    if Admits(tree, q) {
      var record := VerifyCandidate(tree).value;
      VerifiedIff(tree, record);
      SubmitsIs(tree, record, q);
    }
    if record :| Sound(tree, record) && Submits(tree, record, q) {
      SubmitsIs(tree, record, q);
    }
  }

  /** Besides, every listed file has a plain name, no two have the same published name, none has a name of
      the release's own documents, and the installer's size is stated right. */
  ghost predicate Publishable(tree: Tree, record: Record, q: Request) {
    && Sound(tree, record) && Submits(tree, record, q)
    && Flattens(record) && Size(tree[INSTALLER]) == record.installer.bytes
  }

  /** Some runs of a publication end with the release published exactly for a sound candidate. */
  lemma PublishedIff(tree: Tree, q: Request, immutable: bool)
    ensures CanPublish(tree, q, immutable) <==> exists record :: Publishable(tree, record, q)
  {
    PublishableIff(tree, q, immutable);
    AdmitsIff(tree, q);
    if Admits(tree, q) {
      VerifiedIff(tree, VerifyCandidate(tree).value);
    }
    if record :| Publishable(tree, record, q) {
      VerifiedIff(tree, record);
      SubmitsIs(tree, record, q);
    }
    if CanPublish(tree, q, immutable) {
      var record := VerifyCandidate(tree).value;
      SubmitsIs(tree, record, q);
      assert Publishable(tree, record, q);
    }
  }

  /** Every history of runs, however interrupted: once the release is published, Apple had accepted both
      apps of this very source and run, the marks say so, the iOS build is signed at the version, and every
      platform's receipt is of this candidate. */
  lemma PublishedIsSound(tree: Tree, q: Request, immutable: bool, states: seq<Release>, outcomes: seq<Outcome>)
    requires Attempts(tree, q, immutable, states, outcomes) && states[|states| - 1].Published?
    ensures exists record :: Publishable(tree, record, q)
  {
    EndIsPublished(tree, q, immutable, states, outcomes);
    PublishedIff(tree, q, immutable);
  }

  lemma OneRecord(tree: Tree, record: Record, r: Record)
    requires DocAt(tree, MANIFEST, ManifestDoc(record))
    ensures Sound(tree, r) ==> r == record
  {
  }

  /** The published assets: the two documents, the installer, and every listed file under its own name. */
  ghost predicate Holds(tree: Tree, record: Record, q: Request, assets: Contents) {
    && MANIFEST in tree && INSTALLER in tree
    && "manifest.json" in assets && assets["manifest.json"] == tree[MANIFEST]
    && "release.json" in assets && IsJson(assets["release.json"], DescriptorDoc(Descriptor(1, q.tag, record.tag, tree[MANIFEST], q.upload)))
    && "install.sh" in assets && assets["install.sh"] == tree[INSTALLER]
    && (forall e | e in Entries(record) :: e in tree && AssetName(e) in assets && assets[AssetName(e)] == tree[e])
    && forall n | n in assets :: n in {"manifest.json", "release.json", "install.sh"} || Names(record, n)
  }

  ghost predicate Names(record: Record, n: string) {
    exists e :: e in Entries(record) && AssetName(e) == n
  }

  lemma ContentsHold(tree: Tree, record: Record, q: Request)
    requires VerifyCandidate(tree) == Some(record) && Flattens(record)
    ensures Holds(tree, record, q, ContentsOf(tree, record, q))
  {
    CandidateLocal(tree, record);
    var flat, descriptor := Flat(record), DescriptorFor(tree, record, q.tag, q.upload, q.size);
    ExpectedDocuments(tree, flat, descriptor);
    forall e | e in Entries(record)
      ensures e in tree && AssetName(e) in Expected(tree, flat, descriptor) && Expected(tree, flat, descriptor)[AssetName(e)] == tree[e]
    {
      CandidateHolds(tree, record, e);
      FlatEntry(record, e);
      ExpectedAt(tree, flat, descriptor, AssetName(e));
    }
    forall n | n in Expected(tree, flat, descriptor) && n !in {"manifest.json", "release.json", "install.sh"}
      ensures Names(record, n)
    {
      ExpectedAt(tree, flat, descriptor, n);
      FlatName(record, n);
    }
  }

  lemma ExpectedDocuments(tree: Tree, flat: Assets, descriptor: Content)
    requires Local(tree, flat)
    ensures var assets := Expected(tree, flat, descriptor);
      && "manifest.json" in assets && assets["manifest.json"] == tree[MANIFEST]
      && "release.json" in assets && assets["release.json"] == descriptor
      && "install.sh" in assets && assets["install.sh"] == tree[INSTALLER]
  {
    assert "install.sh" != "manifest.json" && "install.sh" != "release.json" && "manifest.json" != "release.json";
  }

  lemma ExpectedAt(tree: Tree, flat: Assets, descriptor: Content, n: string)
    requires Local(tree, flat) && n != "manifest.json" && n != "release.json"
    ensures n in Expected(tree, flat, descriptor) <==> n in flat
    ensures n in flat ==> Expected(tree, flat, descriptor)[n] == tree[flat[n].path]
  {
  }

  lemma FlatEntry(record: Record, e: Path)
    requires Flattens(record) && e in Entries(record)
    ensures AssetName(e) in Flat(record) && Flat(record)[AssetName(e)].path == e
    ensures AssetName(e) != "manifest.json" && AssetName(e) != "release.json" && AssetName(e) != "install.sh"
  {
    FlatInverts(record);
    assert AssetName(e) !in RESERVED;
  }

  lemma FlatName(record: Record, n: string)
    requires Flattens(record) && n in Flat(record) && n != "install.sh"
    ensures Names(record, n)
  {
    assert n in AssetNames(record);
  }

  /** What is published is the sound candidate's documents and files, and nothing else. */
  lemma PublishedHolds(tree: Tree, record: Record, q: Request, immutable: bool, states: seq<Release>, outcomes: seq<Outcome>)
    requires Attempts(tree, q, immutable, states, outcomes) && states[|states| - 1].Published?
    requires DocAt(tree, MANIFEST, ManifestDoc(record))
    ensures Publishable(tree, record, q) && Holds(tree, record, q, states[|states| - 1].assets)
    ensures states[|states| - 1].prerelease == q.tag.candidate.Some? && states[|states| - 1].immutable == immutable
  {
    PublishedIsSound(tree, q, immutable, states, outcomes);
    var r :| Publishable(tree, r, q);
    OneRecord(tree, record, r);
    VerifiedIff(tree, record);
    SubmitsIs(tree, record, q);
    ContentsConsistent(tree, record, q);
    AttemptsAreRuns(tree, record, q, immutable, states, outcomes);
    PublishingIsSafe(states, outcomes, ContentsOf(tree, record, q), StatedOf(tree, record, q), q.tag.candidate.Some?, immutable,
                     |states| - 1, |states| - 1);
    ContentsHold(tree, record, q);
  }

  /** A tree with one document that does not speak for the candidate of its manifest is never published, at
      any request. */
  lemma UnsoundStays(tree: Tree, record: Record, q: Request, immutable: bool)
    requires DocAt(tree, MANIFEST, ManifestDoc(record)) && !Sound(tree, record)
    ensures !CanPublish(tree, q, immutable)
  {
    PublishedIff(tree, q, immutable);
    forall r ensures !Publishable(tree, r, q) { OneRecord(tree, record, r); }
  }

  /******* One document changed *******/

  /** A document at this path that does not say what a sound one says, for this candidate. */
  ghost predicate Spoils(record: Record, e: Path, c: Content) {
    || (e == Path(Of(MacArmApp), "notarization.json") && !IsProof(record, MacArm, c))
    || (e == Path(Of(MacX86App), "notarization.json") && !IsProof(record, MacX86, c))
    || (e in {Path(Of(MacArmApp), "signed.txt"), Path(Of(MacX86App), "signed.txt")} && forall a, b :: !Spells(c, a, b))
    || (e == Path(Of(Ios), "build.json") && forall build :: !IsJson(c, BuildDoc(true, record.version, build)))
    || (exists p :: e == Path(Of(p), "receipt.json") && !IsOurs(record, p, c))
    || (e == INSTALLER && c != record.installer.sha)
  }

  predicate IsJson(c: Content, doc: Doc) {
    c.Json? && c.doc == doc
  }

  predicate IsProof(record: Record, asset: Platform, c: Content) {
    IsJson(c, ProofDoc("Accepted", true, record.source, record.run, asset, true))
  }

  predicate IsOurs(record: Record, p: Platform, c: Content) {
    && c.Json? && c.doc.ReceiptDoc? && c.doc.receipt.kind == p && c.doc.receipt.schema == 1
    && c.doc.receipt.source == record.source && c.doc.receipt.version == record.version && c.doc.receipt.run == record.run
  }

  lemma SpoiledUnsound(tree: Tree, record: Record, e: Path)
    requires e in tree && Spoils(record, e, tree[e])
    ensures !Sound(tree, record)
  {
    if p :| e == Path(Of(p), "receipt.json") && !IsOurs(record, p, tree[e]) {
      assert !Receipted(tree, record, p);
    }
  }

  /** Whatever else is changed with it, a manifest for this candidate next to one spoiled document is never
      published. */
  lemma SpoiledStays(tree: Tree, record: Record, e: Path, q: Request, immutable: bool)
    requires DocAt(tree, MANIFEST, ManifestDoc(record)) && e in tree && Spoils(record, e, tree[e])
    ensures !CanPublish(tree, q, immutable)
  {
    SpoiledUnsound(tree, record, e);
    UnsoundStays(tree, record, q, immutable);
  }

  /** A listed file changed in any way, the receipts left alone, keeps the candidate from publication. */
  lemma ChangedFileStays(tree: Tree, record: Record, p: Platform, name: string, c: Content, q: Request, immutable: bool)
    requires Sound(tree, record) && p in record.artifacts && name in record.artifacts[p].files
    requires Path(Of(p), name) in tree && c != tree[Path(Of(p), name)]
    ensures !CanPublish(tree[Path(Of(p), name) := c], q, immutable)
  {
    var e := Path(Of(p), name);
    assert Receipted(tree, record, p) && !IsReceiptName(name);
    assert record.artifacts[p].files[name].sha == tree[e];
    assert !Lists(tree[e := c], p, record.artifacts[p].files);
    assert !Receipted(tree[e := c], record, p);
    UnsoundStays(tree[e := c], record, q, immutable);
  }

  /******* What is fetched *******/

  /** Whatever the remote release holds: a candidate that is fetched is sound, of the tag asked for, and
      its upload is of its own signed build. */
  lemma FetchedIsSound(release: Release, tag: Tag, length: nat, f: Fetched)
    requires Fetch(release, tag, length) == Some(f)
    ensures Sound(f.tree, f.record) && f.record.tag == tag
    ensures release.Published? && release.prerelease && release.immutable
    ensures "release.json" in release.assets && release.assets["release.json"].Json?
    ensures var doc := release.assets["release.json"].doc;
      && doc.DescriptorDoc? && doc.descriptor.tag == doc.descriptor.candidateTag == tag
      && doc.descriptor.manifestSha == f.tree[MANIFEST]
      && Submits(f.tree, f.record, Request(tag, f.record.source, doc.descriptor.testflight, 0))
  {
    var record, d := ManifestOf(release.assets).value, DescriptorOf(release.assets).value;
    FlatInverts(record);
    FetchUnfolds(release, tag, length, record, d);
    ManifestFetched(record, Flat(record), release.assets, length);
    VerifiedIff(f.tree, f.record);
    SignedIs(f.tree, f.record);
  }
}
