/** Concrete candidates: one that can be published, and one for each of the two ways a verified one
    cannot. */
module Candidates {
  import opened Results
  import opened Release

  function Commit(): string {
    seq(40, i => 'a')
  }

  /** The files of a platform; the first has one of any name. */
  function Names(p: Platform, name: string): set<string> {
    match p
    case LinuxX86 => {name}
    case LinuxArm => {"b"}
    case MacArm => {"c"}
    case MacX86 => {"d"}
    case MacArmApp => {"signed.txt", "notarization.json"}
    case MacX86App => {"signed.txt", "notarization.json"}
    case Ios => {"build.json"}
  }

  function Body(p: Platform, name: string): Content {
    match p
    case MacArmApp => if name == "signed.txt" then Text("true") else Json(Proof(MacArm), 2)
    case MacX86App => if name == "signed.txt" then Text("true") else Json(Proof(MacX86), 2)
    case Ios => Json(BuildDoc(true, "1", "1"), 2)
    case _ => Text("x")
  }

  function Proof(asset: Platform): Doc {
    ProofDoc("Accepted", true, Commit(), "1", asset, true)
  }

  function FilesOf(p: Platform, name: string): Files {
    map n | n in Names(p, name) :: InfoOf(Body(p, n))
  }

  function ReceiptOf(p: Platform, name: string): Receipt {
    Receipt(1, p, "1", Commit(), "1", "u", FilesOf(p, name))
  }

  /** The installer is one character long, whatever is stated. */
  function RecordOf(name: string, bytes: nat): Record {
    Record(1, Tag("1", Some(1)), "1", Commit(), "1", map p | p in PLATFORMS :: ReceiptOf(p, name), Info(Text("#"), bytes))
  }

  function Paths(name: string): (paths: set<Path>)
    ensures forall e :: e in paths <==> e.directory.Of? && e.name in Names(e.directory.platform, name)
  {
    Everything();
    set p, n | p in PLATFORMS && n in Names(p, name) :: Path(Of(p), n)
  }

  function Bodies(name: string): Tree {
    map e | e in Paths(name) :: Body(e.directory.platform, e.name)
  }

  function TreeOf(name: string, bytes: nat): Tree {
    Bodies(name) + Receipts(RecordOf(name, bytes), 0)
      + map[MANIFEST := Json(ManifestDoc(RecordOf(name, bytes)), 2), INSTALLER := Text("#")]
  }

  const UPLOAD := Upload(Commit(), "1", "1", "1", true)
  const REQUEST := Request(Tag("1", Some(1)), Commit(), UPLOAD, 2)

  lemma Plain(p: Platform, name: string, n: string)
    requires !NamesReceipt(name) && n in Names(p, name)
    ensures !NamesReceipt(n) && n != "receipt.json"
  {
    PlainNames();
  }

  lemma AllOf(p: Platform)
    ensures p in PLATFORMS
  {
  }

  lemma Everything()
    ensures forall p: Platform :: p in PLATFORMS
  {
    forall p: Platform
      ensures p in PLATFORMS
    {
      AllOf(p);
    }
  }

  lemma Present(name: string, bytes: nat, e: Path)
    requires !NamesReceipt(name) && e in Paths(name)
    ensures e in TreeOf(name, bytes) && TreeOf(name, bytes)[e] == Body(e.directory.platform, e.name)
  {
    Plain(e.directory.platform, name, e.name);
    if e in Receipts(RecordOf(name, bytes), 0) {
      NoReceiptPath(RecordOf(name, bytes), 0, e);
    }
  }

  lemma Listed(name: string, bytes: nat, e: Path)
    requires e in TreeOf(name, bytes) && e.directory.Of? && !NamesReceipt(e.name)
    ensures e in Paths(name)
  {
    if e in Receipts(RecordOf(name, bytes), 0) {
      NoReceiptPath(RecordOf(name, bytes), 0, e);
    }
  }

  lemma PartVerifies(name: string, bytes: nat, p: Platform)
    requires !NamesReceipt(name)
    ensures Verified(TreeOf(name, bytes), p, Commit()) == Some(ReceiptOf(p, name))
  {
    var t, files := TreeOf(name, bytes), FilesOf(p, name);
    forall n | n in files
      ensures Path(Of(p), n) in t && InfoOf(t[Path(Of(p), n)]) == files[n] && !NamesReceipt(n)
    {
      Plain(p, name, n);
      Present(name, bytes, Path(Of(p), n));
    }
    forall e | e in t && e.directory == Of(p) && !NamesReceipt(e.name)
      ensures e.name in files
    {
      Listed(name, bytes, e);
    }
    FilesExactly(t, Of(p), files);
    HasReceipt(name, bytes, p);
    NotEmpty(p, name);
    VerifiedFrom(t, p, Commit(), ReceiptOf(p, name));
  }

  lemma NotEmpty(p: Platform, name: string)
    ensures FilesOf(p, name) != map[]
  {
    var n := match p
      case LinuxX86 => name
      case LinuxArm => "b"
      case MacArm => "c"
      case MacX86 => "d"
      case Ios => "build.json"
      case _ => "signed.txt";
    assert n in FilesOf(p, name);
  }

  lemma HasReceipt(name: string, bytes: nat, p: Platform)
    ensures ReadReceipt(TreeOf(name, bytes), p) == Some(ReceiptOf(p, name))
  {
    AllOf(p);
    ReceiptAt(RecordOf(name, bytes), 0, p);
  }

  lemma Valid(name: string, bytes: nat)
    ensures ValidManifest(RecordOf(name, bytes))
  {
    assert forall c | c in Commit() :: c == 'a' && Hex(c);
    assert forall c | c in "1" :: c == '1';
  }

  lemma SignedFrom(t: Tree, record: Record, doc: Doc)
    requires Notarized(t, record, Of(MacArmApp), MacArm) && Notarized(t, record, Of(MacX86App), MacX86)
    requires Path(Of(Ios), "build.json") in t && t[Path(Of(Ios), "build.json")] == Json(doc, 2)
    requires doc.BuildDoc? && doc.signed && doc.version == record.version
    ensures SignedBuild(t, record) == Some(doc)
  {
  }

  lemma BuildPresent(name: string, bytes: nat)
    requires !NamesReceipt(name)
    ensures var t, e := TreeOf(name, bytes), Path(Of(Ios), "build.json"); e in t && t[e] == Json(BuildDoc(true, "1", "1"), 2)
    ensures RecordOf(name, bytes).version == "1"
  {
    Present(name, bytes, Path(Of(Ios), "build.json"));
  }

  lemma Signed(name: string, bytes: nat)
    requires !NamesReceipt(name)
    ensures SignedBuild(TreeOf(name, bytes), RecordOf(name, bytes)) == Some(BuildDoc(true, "1", "1"))
  {
    AppNotarized(name, bytes, MacArmApp, MacArm);
    AppNotarized(name, bytes, MacX86App, MacX86);
    BuildPresent(name, bytes);
    SignedFrom(TreeOf(name, bytes), RecordOf(name, bytes), BuildDoc(true, "1", "1"));
  }

  lemma True()
    ensures SaysTrue(Text("true"))
  {
    var t := "true";
    assert t[0..0 + 4] == "true" && t[..0] + t[0 + 4..] == "";
  }

  lemma AppNotarized(name: string, bytes: nat, app: Platform, asset: Platform)
    requires !NamesReceipt(name) && ((app == MacArmApp && asset == MacArm) || (app == MacX86App && asset == MacX86))
    ensures Notarized(TreeOf(name, bytes), RecordOf(name, bytes), Of(app), asset)
  {
    Present(name, bytes, Path(Of(app), "signed.txt"));
    Present(name, bytes, Path(Of(app), "notarization.json"));
    True();
    assert "notarization.json" != "signed.txt";
  }

  lemma PartsVerify(name: string, bytes: nat)
    requires !NamesReceipt(name)
    ensures var t, record := TreeOf(name, bytes), RecordOf(name, bytes);
      forall p | p in record.artifacts :: Verified(t, p, record.source) == Some(record.artifacts[p])
  {
    var t, record := TreeOf(name, bytes), RecordOf(name, bytes);
    forall p | p in record.artifacts
      ensures Verified(t, p, record.source) == Some(record.artifacts[p])
    {
      PartVerifies(name, bytes, p);
      assert record.artifacts[p] == ReceiptOf(p, name);
    }
  }

  lemma Documented(name: string, bytes: nat)
    ensures ReadManifest(TreeOf(name, bytes)) == Some(RecordOf(name, bytes))
    ensures INSTALLER in TreeOf(name, bytes) && TreeOf(name, bytes)[INSTALLER] == Text("#")
    ensures Size(Text("#")) == 1
  {
  }

  lemma AdmitsFrom(t: Tree, record: Record)
    requires VerifyCandidate(t) == Some(record) && SignedBuild(t, record) == Some(BuildDoc(true, "1", "1"))
    requires record.version == "1" && record.source == Commit() && record.run == "1" && record.tag == REQUEST.tag
    ensures Admits(t, REQUEST)
  {
  }

  /** Every such candidate passes every check made before its file names are looked at. */
  lemma Checked(name: string, bytes: nat)
    requires !NamesReceipt(name)
    ensures VerifyCandidate(TreeOf(name, bytes)) == Some(RecordOf(name, bytes)) && Admits(TreeOf(name, bytes), REQUEST)
  {
    Valid(name, bytes);
    Signed(name, bytes);
    Documented(name, bytes);
    PartsVerify(name, bytes);
    CandidateFrom(TreeOf(name, bytes), RecordOf(name, bytes));
    AdmitsFrom(TreeOf(name, bytes), RecordOf(name, bytes));
  }

  /******* The names of the assets *******/

  lemma EntriesAre(name: string, bytes: nat)
    ensures Entries(RecordOf(name, bytes)) == Paths(name)
  {
    Everything();
    forall e
      ensures e in Entries(RecordOf(name, bytes)) <==> e in Paths(name)
    {
    }
  }

  predicate IsApp(p: Platform) {
    p == MacArmApp || p == MacX86App
  }

  /** What tells the asset names apart: their lengths. */
  lemma NameShape(e: Path)
    requires e in Paths("a")
    ensures !IsApp(e.directory.platform) && e.directory.platform != Ios ==> AssetName(e) == e.name && |e.name| == 1
    ensures e.directory.platform == Ios ==> |AssetName(e)| == 22 && AssetName(e)[0] == 'i'
    ensures IsApp(e.directory.platform) ==> |e.name| == 10 || |e.name| == 17
    ensures e.directory.platform == MacArmApp ==> |AssetName(e)| == 21 + |e.name|
    ensures e.directory.platform == MacX86App ==> |AssetName(e)| == 22 + |e.name|
  {
  }

  lemma NameIs(e: Path)
    requires e in Paths("a")
    ensures e.name in {"a", "b", "c", "d"} || e.name == "signed.txt" || e.name == "notarization.json" || e.name == "build.json"
  {
  }

  lemma SafeSigned()
    ensures Safe("signed.txt") && Safe("build.json")
  {
  }

  lemma SafeProof()
    ensures Safe("notarization.json")
  {
  }

  lemma SafeNames(e: Path)
    requires e in Paths("a")
    ensures Safe(e.name)
  {
    NameIs(e);
    SafeSigned();
    SafeProof();
  }

  lemma SameSingle(e: Path, f: Path)
    requires e in Paths("a") && f in Paths("a") && e.name == f.name && |e.name| == 1
    ensures e == f
  {
  }

  lemma SameApp(e: Path, f: Path)
    requires e in Paths("a") && f in Paths("a") && e.directory == f.directory && |e.name| == |f.name|
    ensures e == f
  {
  }

  lemma SameAsset(e: Path, f: Path)
    requires e in Paths("a") && f in Paths("a") && AssetName(e) == AssetName(f)
    ensures e == f
  {
    NameShape(e);
    NameShape(f);
    if |AssetName(e)| == 1 {
      SameSingle(e, f);
    } else {
      SameApp(e, f);
    }
  }

  lemma FreeName(e: Path)
    requires e in Paths("a")
    ensures Safe(e.name) && AssetName(e) !in RESERVED
  {
    NameShape(e);
    SafeNames(e);
    assert |"manifest.json"| == 13 && |"install.sh"| == 10 && |"release.json"| == 12;
  }

  lemma FlattensA(bytes: nat)
    ensures Flattens(RecordOf("a", bytes))
  {
    EntriesAre("a", bytes);
    forall e | e in Entries(RecordOf("a", bytes))
      ensures Safe(e.name) && AssetName(e) !in RESERVED
    {
      FreeName(e);
    }
    forall e, f | e in Entries(RecordOf("a", bytes)) && f in Entries(RecordOf("a", bytes)) && AssetName(e) == AssetName(f)
      ensures e == f
    {
      SameAsset(e, f);
    }
  }

  lemma NestedIsUnsafe(bytes: nat)
    ensures !Flattens(RecordOf("a/b", bytes))
  {
    EntriesAre("a/b", bytes);
    var e := Path(Of(LinuxX86), "a/b");
    assert e in Entries(RecordOf("a/b", bytes));
    assert e.name[1] == '/' && e.name[1] in e.name;
  }

  /******* The three candidates *******/

  /** A verified candidate with a nested file, its installer stated right, can never be published. */
  lemma NestedStays(immutable: bool)
    ensures Admits(TreeOf("a/b", 1), REQUEST) && !CanPublish(TreeOf("a/b", 1), REQUEST, immutable)
  {
    var n := "a/b";
    assert |n| == 3 && !NamesReceipt(n);
    Checked(n, 1);
    NestedIsUnsafe(1);
    PublishableIff(TreeOf(n, 1), REQUEST, immutable);
  }

  /** Nor can one whose names flatten but whose manifest states another size of the installer; with the
      right size it can. */
  lemma SizeDecides(bytes: nat, immutable: bool)
    ensures Admits(TreeOf("a", bytes), REQUEST)
    ensures CanPublish(TreeOf("a", bytes), REQUEST, immutable) <==> bytes == 1
  {
    var n := "a";
    assert |n| == 1 && !NamesReceipt(n);
    Checked(n, bytes);
    Documented(n, bytes);
    FlattensA(bytes);
    PublishableIff(TreeOf(n, bytes), REQUEST, immutable);
  }
}
