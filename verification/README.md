# Proofs about Khor's build, release and interface machinery

Dafny models of the parts of this repository that have to be right across crashes, lost replies,
interleavings and all inputs, with proofs about them. `dafny verify dfyconfig.toml` checks everything.

| file | models |
|---|---|
| `Download.dfy` | the resumable parallel download of one artifact: workers, retries, crashes, the receipt |
| `Provenance.dfy`, `Admission.dfy`, `DepInfo.dfy`, `Reachability.dfy` | build provenance: the dependency closure, content keys, what a build may read, the receipt chain, the Make dep-info reader |
| `Wording.dfy`, `Quoting.dfy`, `Text.dfy` | the wording compiler: one template, a Rust `format!` string and a TypeScript template literal, and plain literals where there are no slots |
| `Release.dfy`, `Evidence.dfy`, `Candidates.dfy` | release candidates: flattening, resumable publication, fetching back; what their documents say; and concrete candidates |
| `Notary.dfy` | notarization that survives lost replies, lost state and crashes |
| `Lab.dfy`, `Retention.dfy` | the Lab manager: single-flight builds, the native host, retention |
| `FanStick.dfy` | the thumb stick of the session fan |
| `Signature.dfy` | ES256 signatures from DER to their raw form (section 2.2.3 of RFC 3279, section 8.3 of X.690, section 3.4 of RFC 7518) |
| `Processes.dfy` | which processes a native test run owns |
| `Gate.dfy` | the approval gate of the in-app agent and the tools that drive it |
| `Usage.dfy`, `Seating.dfy` | usage over a window of days, and the seating of names in its scatter plot |

The form follows the source. Where the source changes an object step by step there is a class whose
methods are proved against a specification function of the state (`Next`, `Submitted`, `Decided`,
`Launched`, ...); the histories are runs of that same function, with the environment (network replies,
crashes, failing writes, the user's answers) as part of each event, and the main results quantify over
every history. Where the source only computes, there are functions, and loops are methods proved against
them. Hashes and JSON encodings are injective: a digest is the content it digests.

## What holds, and what does not

Most of what the code promises holds on all inputs. The following does not, and for each the exact
condition is proved:

- **Download.** The offset moves before the local write (`scripts/khor_lab/download.py:42-45`), so a retry
  after a failed write continues behind bytes that were never written. The direct branch
  (`scripts/khor_lab/download.py:95-96`) rewrites the archive and keeps the receipt. For every file of a
  size that is downloaded in ranges, one such write has a history in which a wrong file is unpacked, unless
  every byte that is not zero is the last of its part (`LostWriteCorrupts`): behind the last byte the worker
  would ask for an empty range, which no server honors. So has one direct answer, unless the file is all
  zeros (`DirectCorrupts`). `DeliversIff` is exact over all histories: only the remote file gets through if
  and only if the digest is known, or what can happen does no harm to such a file. `ReturnsIff` says the
  same, without the digest, of what a normal return leaves. A wrong byte is always a zero (`AlwaysSparse`).
  A worker whose connection, write or receipt fails behind its last byte cannot finish its part in that run
  (`BehindNeverReturns`). None of this is for good: from every state of every history some continuation
  delivers exactly the remote file (`AlwaysRecovers`).
- **Dep-info.** Escaping does not save every path. A fully escaped rule is read back if and only if none of
  its words holds a line end, in Python's sense, and its last source does not end in a backslash
  (`EscapedRuleRead`). A line separator cuts the rule, which is refused (`SeparatorRefused`); a line feed or
  a return disappears, and a wrong path is read (`FeedJoins`).
- **Wording.** The two faces of a text agree if and only if, with slots, it holds no carriage return, which
  a template literal turns into a line feed, and, without slots, no NUL in front of a digit, which Rust
  prints as an escape that ECMAScript refuses (`FacesAgree`). The rules of the catalog do not keep two keys
  apart that differ only in dashes and underscores, and those are written under one name (`NamesCollide`,
  `AlignedYetOneName`).
- **Release.** `verify_candidate` looks neither at whether the file names flatten nor at the installer's
  size. A candidate that passes every check before `asset_map` can be published, by any number of runs, if
  and only if its names flatten and its manifest states that size right (`PublishableIff`). Concrete
  candidates fail in each of the two ways (`NestedStays`, `SizeDecides`).
- **Notarization.** With an incomplete history two runs that are allowed to submit can submit twice
  (`StaleHistoryResubmits`); `SecondSubmission` says exactly which step does it.
- **Lab.** `directory.mkdir` stands outside the `try` (`scripts/khor_lab/server.py:84-88`): if it fails,
  `building` stays true without a build, every later update is queued and none is built
  (`FailedDirectoryStops`, `StuckForever`). The same happens if saving the state or starting the thread
  fails in `update`. `BuildingIffActive` is an if and only if over every history. A queued update is also
  lost when the save, the prune or the restart in the `finally` fails (`StepServed`). `UnservedIff` says
  over every history exactly when an accepted update is left unserved.
- **Usage.** The cells of the columns are keyed by `${model}`, so the rows without a model and those of a
  model named "null" share a cell and count twice. The columns add up to the rows if and only if not both
  ran in the window (`ColumnsAddUp`).

## Model

| member | source | states |
|---|---|---|
| Download.StepInv | scripts/khor_lab/download.py:21-61 | every step of every worker, crash or restart keeps the invariant (recorded parts and every in-flight prefix match the remote) if and only if it is neither a failed write over missing bytes that its worker would go on behind, nor a direct download that cuts a recorded part |
| Download.ReplayInv | scripts/khor_lab/download.py:21-118 | over every careful history the invariant holds, the progress count is right, and whatever was unpacked last is the remote file |
| Download.StepCounted | scripts/khor_lab/download.py:43-48 | `received` never exceeds what the workers have passed and equals it unless a write was lost |
| Download.FinishedWhole | scripts/khor_lab/download.py:57-61 | when every worker has returned, the archive is the remote file byte for byte |
| Download.NormalReturn | scripts/khor_lab/download.py:21-61 | a normal return after any interleaving, short reads, retries, crashes and restarts leaves the remote file, with `received` at most `size` throughout and equal to it at the end |
| Download.DigestGuards | scripts/khor_lab/download.py:84-118 | with the digest known, nothing but the remote file is ever unpacked, whatever writes fail |
| Download.DeliversIff | scripts/khor_lab/download.py:84-118 | for every file downloaded in ranges: only the remote file is unpacked in every history if and only if the digest is known, or a write can be lost before the fourth attempt only of a file whose nonzero bytes all end their parts, and an answer be direct only for one of zeros |
| Download.ReturnsIff | scripts/khor_lab/download.py:21-61 | the same of the archive that a normal return leaves, where the digest does not help |
| Download.LostWriteCorrupts | scripts/khor_lab/download.py:42-55 | for every such file with a nonzero byte that does not end its part, one lost write and no digest have a history that unpacks a wrong file |
| Download.SparedIsRight | scripts/khor_lab/download.py:34-59 | a file without such a byte comes through right in every history, whatever writes are lost |
| Download.BehindNeverReturns | scripts/khor_lab/download.py:34-59 | a worker that failed behind the last byte of its part never finishes it in that run, and the run does not return |
| Download.DirectCorrupts | scripts/khor_lab/download.py:84-105 | so have a recorded part and one direct answer that breaks off, with no write lost |
| Download.AlwaysSparse | scripts/khor_lab/download.py:21-118 | in every history a byte on disk or unpacked is the remote's or zero |
| Download.ServeAll | scripts/khor_lab/download.py:28-61 | from every open download without a lost write all remaining parts can be served, and finished parts stay as they are |
| Download.UnpackedIff | scripts/khor_lab/download.py:57-113 | a run goes on to be unpacked exactly when every worker has returned, and what is unpacked is the archive if and only if no digest is known or it is the archive's; otherwise nothing new is |
| Download.SomeHistoryDelivers | scripts/khor_lab/download.py:84-118 | for every file downloaded in ranges, with and without a known digest, some history delivers exactly it |
| Download.OpenDelivers | scripts/khor_lab/download.py:21-118 | from every open download without a lost write or a direct answer some continuation without them delivers it |
| Download.AlwaysRecovers | scripts/khor_lab/download.py:84-118 | whatever went wrong before, writes lost, answers direct, wrong files unpacked: from every state of every history some continuation delivers exactly the remote file |
| Download.StartOfPart | scripts/khor_lab/download.py:24-31 | every byte of the file lies in exactly one part |
| Download.Ranges.Write | scripts/khor_lab/download.py:36-48 | a chunk that lies in the part and is the remote's keeps the invariant and is one step of the model |
| Download.Ranges.Fill | scripts/khor_lab/download.py:34-48 | a stream of chunks of any length is written up to its end, and one that goes past the part is refused |
| Download.Ranges.Attempt | scripts/khor_lab/download.py:34-59 | exactly when an attempt finishes the part, goes on from a later offset, or gives up |
| Download.Ranges.Finish | scripts/khor_lab/download.py:49-54 | the receipt is replaced by one with the finished part, as two steps of the model |
| Download.Ranges.Part | scripts/khor_lab/download.py:28-55 | a worker that returns leaves its part on disk as the remote has it and recorded, and it returns if and only if one of four attempts gets to the end of the part before any is refused |
| Provenance.ComputeClosure | scripts/native_provenance.py:112-118 | the loop ends with exactly the packages reachable from its start |
| Provenance.ClosureWithinClosure | scripts/native_provenance.py:355-371 | the closure recomputed over the selected packages alone is the closure hashed into the key |
| Provenance.BuildStateBuilt | scripts/native_provenance.py:121-157 | every snapshot holds exactly the states of the closure of one package, each with all and only the regular files under its directory, and each key is over that package's closure |
| Provenance.KeyHoldsCovered | scripts/native_provenance.py:154-157 | a package's key holds exactly the states that the recomputed coverage uses |
| Provenance.EqualKeysEqualInputs | scripts/native_provenance.py:355-371 | equal package keys, in whatever two builds, mean equal admissible input maps |
| Admission.EqualKeysSameFiles | scripts/native_provenance.py:121-157 | builds with equal package keys have the same root, environment, tools and configuration, and may read the same source files and extra trees' files with the same digests |
| Admission.BuildStateIff | scripts/native_provenance.py:121-157 | a snapshot is made if and only if the graph is complete, one member has the name, and every package it needs has a file, only regular files and readable extra trees; it holds exactly the needed packages |
| Admission.AllowedIsBound | scripts/native_provenance.py:355-371 | for every path: it is allowed if and only if it is a generated file, an extra tree's file, a vendored source, a tool, a configuration file or a regular file below the directory of a needed package, and then with the digest of the first of these that has one |
| Admission.OwnSourceAllowed | scripts/native_provenance.py:361-371 | a regular file below the directory of the package or of one it needs is allowed at its path with the digest the source has, unless one of the other kinds has that path |
| Provenance.MatchingPrior | scripts/native_provenance.py:160-166 | yields the matching units in order |
| Provenance.PriorUnitsIff | scripts/native_provenance.py:160-166 | these are exactly the units of receipts of this version with the key, and the variant if one is asked for |
| Provenance.AdmittedRow | scripts/native_provenance.py:434-500 | an admitted row has frozen sources, and is either fresh with a prior unit of the same key, variant and bytes, or compiled now with no file older than the build |
| Admission.OrdinaryAdmitted | scripts/native_provenance.py:464-490 | a row compiled now, with current files, whose sources are files of needed packages as the source has them, is admitted |
| Admission.OutsideRefused | scripts/native_provenance.py:471-473 | one source with a digest that nothing gives its path refuses the row |
| Admission.AdmittedIff | scripts/native_provenance.py:471-487 | a row whose sources are all bound to their digests is admitted if and only if it was compiled now with current files, or is fresh with a unit of the same key, variant and bytes in a receipt of this version; the two refusals otherwise |
| Admission.VerifyIff | scripts/native_provenance.py:434-500 | a build has a receipt if and only if nothing it depends on changed, its rows cover the prepared packages and every row earns a unit; the receipt has these units in the rows' order |
| Provenance.EveryUnitWasCompiled | scripts/native_provenance.py:434-500 | over every chain of builds, every admitted unit has the bytes of a unit that some run really compiled under the same key and variant from the same inputs |
| Reachability.LeastClosed | scripts/native_provenance.py:112-118 | reachability is the least set closed under the links, against which the loop is proved |
| DepInfo.MakeWords | scripts/native_provenance.py:245-272 | the loop computes the reading of the words, errors included |
| DepInfo.WordsRead | scripts/native_provenance.py:245-272 | any encoding of any list of nonempty words, separated by blanks, is read back as that list |
| DepInfo.WordsIff | scripts/native_provenance.py:245-272 | exactly which texts are words: those of escaped characters, doubled dollars and others; a dollar that is not doubled is refused wherever it stands, a backslash that escapes nothing at the end, and nothing else |
| DepInfo.FindColon | scripts/native_provenance.py:280-288 | the scan finds the first colon before a blank or the end that no backslash escapes |
| DepInfo.RuleRead | scripts/native_provenance.py:275-294 | every printed rule line is read as exactly its targets and sources |
| DepInfo.DepInfo | scripts/native_provenance.py:275-294 | the loop over a file computes the reading of its lines, errors included |
| DepInfo.FileRead | scripts/native_provenance.py:275-294 | a file of blank lines, comments and rules, each on one line that does not end in a backslash, in any order and encoding, reads as the union of the targets and the union of the sources |
| DepInfo.EscapedRuleRead | scripts/native_provenance.py:275-294 | for all nonempty words: a fully escaped rule in a file of its own is read back if and only if no word holds a line end and the last source does not end in a backslash |
| DepInfo.FileWordsOneLine | scripts/native_provenance.py:245-294 | whatever the file, no path read from it holds a line end |
| DepInfo.SeparatorRefused | scripts/native_provenance.py:275-294 | a source with any other line end than a feed or a return, escaped, is refused |
| DepInfo.FeedJoins | scripts/native_provenance.py:275-294 | one with a line feed or a return, escaped, is read without it |
| Wording.RustFormat | crates/catalog/build.rs:191-197 | for every template and arity the generated format string is well formed and formats to the simultaneous substitution of the slots |
| Wording.TsLiteral | crates/catalog/build.rs:313-319 | for every template and arity the generated literal is well formed and evaluates to the simultaneous substitution in the template with line ends normalised |
| Wording.FormatMeansSubst | crates/catalog/build.rs:191-197 | whatever braces surround the slots, the format string means plain substitution |
| Wording.TemplateMeansSubst | crates/catalog/build.rs:313-319 | whatever dollars, backticks and backslashes surround the slots, the template literal means plain substitution |
| Quoting.QuoteRead | crates/catalog/build.rs:178-196 | Rust reads every text back from the literal it prints; ECMAScript does if and only if no NUL stands in front of a digit |
| Wording.GenerateFace | crates/catalog/build.rs:178-197 | for every text and arity both written literals, plain without slots, render as stated under all arguments |
| Wording.FacesAgree | crates/catalog/build.rs:171-324 | the two faces generated for a text render the same for every argument list if and only if it holds no carriage return, or, without slots, no NUL in front of a digit |
| Wording.NamesCollide | crates/catalog/build.rs:177-177 | two entries are written under one name if and only if their keys differ in nothing but dashes and underscores |
| Wording.AlignedYetOneName | crates/catalog/build.rs:113-177 | aligned tables with two such entries |
| Wording.Align | crates/catalog/build.rs:113-159 | a section is let through if and only if both tables have the same keys, the same gap-free slots key by key, and no text twice |
| Wording.GenerateSection | crates/catalog/build.rs:171-324 | the build succeeds if and only if the tables are aligned, and then every entry of both languages renders its own template, with every slot an argument |
| Release.AssetMap | scripts/release_store.py:84-108 | succeeds if and only if the names are safe, unreserved and collision-free, and then is the flattening of the candidate |
| Release.FlatInverts | scripts/release_store.py:84-95 | every file has exactly one asset, which tells its path, digest and size, and only the installer has another |
| Release.AgreesWithin | scripts/release_store.py:133-141 | for consistent contents the remote check is equality, or inclusion, of contents |
| Release.Store.Publish | scripts/release_store.py:191-240 | one run, interrupted after any number of calls or with the last reply lost, does what `RunOf` allows and nothing else |
| Release.Store.UploadMissing | scripts/release_store.py:225-232 | uploads only what is missing and replaces nothing, and all of it unless interrupted |
| Release.PublishingIsSafe | scripts/release_store.py:191-240 | over every sequence of interrupted and repeated runs the remote assets are a digest-exact part of the local ones, none is replaced, a published release is complete and never changes again |
| Release.RerunIsNoOp | scripts/release_store.py:216-219 | a run over the complete immutable release finishes and changes nothing |
| Release.InconsistentStaysDraft | scripts/release_store.py:225-235 | contents that are not what is stated about them are never published |
| Release.PublishableIff | scripts/release_store.py:191-240 | for every tree and request: some sequence of runs publishes the candidate if and only if it passes the checks, its file names flatten and its manifest states the installer's size right |
| Evidence.VerifiedIff | scripts/release_store.py:38-81 | the candidate check passes a tree if and only if its documents speak for one candidate: Apple accepted both apps of this source, run and asset, both are marked signed, the iOS build is signed at the version, and every platform's receipt is of this source, version and run and lists exactly its directory |
| Evidence.AdmitsIff | scripts/release_store.py:191-199 | a request passes if and only if such a candidate is there and the request has its tag, its commit and Apple's processed upload of its own build |
| Evidence.PublishedIff | scripts/release_store.py:191-240 | some runs publish a tree if and only if that holds, the names flatten and the installer's size is stated right |
| Evidence.PublishedIsSound | scripts/release_store.py:56-81 | after every history of runs that ends published, all of it holds |
| Evidence.PublishedHolds | scripts/release_store.py:200-240 | and the published assets are the candidate's documents, its installer and its files, each under its name, and nothing else |
| Evidence.SpoiledStays | scripts/release_store.py:67-81 | with one proof, mark, build, receipt or installer that does not say this for the candidate of the manifest, whatever else is changed, no request is ever published |
| Evidence.ChangedFileStays | scripts/release_manifest.py:45-55 | a sound candidate with one listed file changed is never published |
| Evidence.FetchedIsSound | scripts/release_store.py:151-188 | whatever the remote release holds, a candidate that is fetched is sound, of the tag asked for, with an upload of its own signed build |
| Candidates.Checked | scripts/release_store.py:38-81 | concrete seven-platform candidates pass every check, whatever the name of one file and the stated size of the installer |
| Candidates.NestedStays | scripts/release_store.py:88-92 | one of them, with a nested file, can never be published |
| Candidates.SizeDecides | scripts/release_store.py:133-141 | and with flat names it can be published if and only if the stated size is right |
| Release.Download | scripts/release_store.py:171-177 | the downloads into an empty root place every asset at its path and nothing else |
| Release.Unflatten | scripts/release_store.py:151-181 | the fetched tree is the documents, the assets at their paths and a receipt for each platform |
| Release.FilesBack | scripts/release_manifest.py:19-28 | every platform's directory comes back with exactly the files its receipt lists |
| Release.VerifiedBack | scripts/release_manifest.py:45-55 | the receipt check accepts every directory that came back, with the receipt it had |
| Release.CandidateBack | scripts/release_store.py:56-64 | a verified candidate that was flattened and unflattened verifies again, to the same record |
| Release.SignedBack | scripts/release_store.py:67-81 | the signed build is the same after the round trip |
| Release.PublishedComesBack | scripts/release_store.py:151-188 | fetching a published candidate into an empty root is accepted, gives the same record, and rebuilds for every platform exactly the published files |
| Release.FinishedComesBack | scripts/release_store.py:151-240 | for every sequence of interrupted and repeated runs, once one finishes the release comes back so |
| Notary.Stages.Prepare | scripts/mac_notarization.py:87-93 | writes the intent once and afterwards accepts only the same build |
| Notary.Stages.Submit | scripts/mac_notarization.py:96-121 | the stage computes its specification, whichever replies and crashes it meets |
| Notary.SubmitIff | scripts/mac_notarization.py:96-121 | with its own intent a submit succeeds if and only if the saved request is good, or none is saved, it obtains the only matching submission, or Apple's answer where there is none and it may submit, and survives to save it; that and nothing else is written |
| Notary.Stages.WaitForAcceptance | scripts/mac_notarization.py:124-148 | accepts if and only if the first reply that does not keep it waiting is an acceptance of this very submission, and the status file names the last reply that was of it |
| Notary.Stages.Finalize | scripts/mac_notarization.py:151-183 | the stage computes its specification, stopped anywhere |
| Notary.FinalizeIff | scripts/mac_notarization.py:151-183 | with a request of this very build and no output it finishes if and only if it is not stopped and the build is unsigned, or some reply says that this submission is accepted and all before it leave it open; it leaves exactly that request's proof |
| Notary.FinalizeAgain | scripts/mac_notarization.py:157-163 | a finished build is left alone, and accepted again if and only if its output verifies and its proof is the request's |
| Notary.StatusIsLast | scripts/mac_notarization.py:124-148 | the status file tells the last reply about this very submission up to the one that ends the wait |
| Notary.AcceptedFinishes | scripts/mac_notarization.py:87-183 | after any history without this build, prepare, an answered submit and an acceptance end finished, with a proof of the id Apple gave |
| Notary.StoppedFinishes | scripts/mac_notarization.py:151-183 | a finalize stopped before the proof or before the receipt ends so when it is run again |
| Notary.UnsignedFinishes | scripts/mac_notarization.py:87-183 | an unsigned build ends finished without a word from Apple |
| Notary.Select | scripts/mac_notarization.py:107-108 | the matching submissions, in order |
| Notary.StepCounts | scripts/mac_notarization.py:96-121 | one event adds a submission of the archive exactly if it is a submit that goes through, and then one |
| Notary.AtMostAllowed | scripts/mac_notarization.py:96-121 | over every history, with stale replies, crashes and lost files, Apple holds at most as many submissions of an archive as runs were allowed to submit it |
| Notary.AtMostOnce | scripts/mac_notarization.py:96-121 | with complete histories Apple holds at most one, however many runs may submit and whatever is lost |
| Notary.SecondSubmission | scripts/mac_notarization.py:106-116 | a second submission is made if and only if an allowing run is shown a history without the first |
| Notary.StaleHistoryResubmits | scripts/mac_notarization.py:106-116 | a concrete history with two submissions |
| Notary.RecordsAreTrue | scripts/mac_notarization.py:96-183 | over every history every saved request, status and proof names a submission Apple holds for that archive, and a proof of acceptance one Apple accepted |
| Notary.OneSubmissionNamed | scripts/mac_notarization.py:151-160 | request and proof of an archive name the same submission whenever there is at most one |
| Notary.LostIsRecovered | scripts/mac_notarization.py:106-121 | a submission whose answer or request was lost is found again from a complete history, allowed to submit or not |
| Notary.NeverGuesses | scripts/mac_notarization.py:109-110 | several matches change nothing, and an unsigned build never reaches Apple |
| Lab.Manager.constructor | scripts/khor_lab/server.py:22-53 | a new manager over what an earlier one left, with its version shown |
| Lab.Manager.Update | scripts/khor_lab/server.py:67-82 | queues behind a running build, and else starts one over everything asked for |
| Lab.Manager.EnterBuild | scripts/khor_lab/server.py:84-87 | the build's directory is made, or its thread ends |
| Lab.Manager.EndBuild | scripts/khor_lab/server.py:96-104 | the build is over, old versions are pruned, and a queued update starts unless something on the way fails |
| Lab.Manager.PublishFrontend | scripts/khor_lab/server.py:116-126 | the version is shown and the host is made to speak its contract |
| Lab.Manager.PublishNative | scripts/khor_lab/server.py:127-136 | a host just built replaces an unusable one, is launched, and old hosts are pruned |
| Lab.Manager.LaunchNative | scripts/khor_lab/server.py:145-173 | every refusal, the early return for a running host, and the three ways a start can end |
| Lab.Manager.Restart | scripts/khor_lab/server.py:189-198 | the host is stopped and launched again from the hosts kept |
| Lab.FrontendRuns | scripts/khor_lab/server.py:116-126 | in full mode, after a frontend is shown, a host of its contract runs if and only if one ran for it already, or a host is kept for it that is managed, verified or local, here, for this port and sound, and its process starts; showing raises exactly if not, unless nothing usable is kept |
| Lab.NativeRuns | scripts/khor_lab/server.py:127-173 | after a native host just built is published a host runs if and only if one ran and was not replaced, or the host gone on with fits the active contract, is sound and starts; publishing succeeds exactly if it fits and a host runs |
| Lab.RestartRuns | scripts/khor_lab/server.py:189-198 | a restart runs the host of the active contract if and only if one is kept that fits, is sound and starts, and raises exactly if not; without one it leaves the process alone |
| Lab.EndLeaves | scripts/khor_lab/server.py:96-104 | at the end of a build that is saved exactly the active version stays and those with fewer than `keep` newer ones |
| Lab.AlwaysSafe | scripts/khor_lab/server.py:67-198 | over every history, whatever fails: at most one build, the active version's directory survives every prune, and in full mode a running host always speaks the active frontend's contract |
| Lab.StepHost | scripts/khor_lab/server.py:106-184 | every operation keeps the host matching the active contract |
| Lab.StepVersion | scripts/khor_lab/server.py:96-102 | every operation keeps the active version's directory |
| Lab.BuildingIffActive | scripts/khor_lab/server.py:67-101 | `building` is true exactly while a build is active, if and only if no build start broke |
| Lab.StuckForever | scripts/khor_lab/server.py:84-87 | a manager that says it is building without a build never builds again |
| Lab.StepServed | scripts/khor_lab/server.py:96-104 | a step loses an update if and only if a queued one is taken off at the end of a build that then fails or is cancelled |
| Lab.NoUpdateLost | scripts/khor_lab/server.py:67-104 | in every history without such a step every accepted update has had a build start after it, or waits behind the active build |
| Lab.UnservedIff | scripts/khor_lab/server.py:67-104 | at the end of every history, an accepted update that no build has started after is without one to come if and only if, since an update was dropped or a build start broke, no build has started |
| Lab.QueuedAreCoalesced | scripts/khor_lab/server.py:98-104 | the end of a build starts one build for all that was queued, and none otherwise |
| Lab.FailedDirectoryStops | scripts/khor_lab/server.py:84-87 | a concrete history after which updates are accepted and never built |
| Lab.HostDirectorySurvives | scripts/khor_lab/server.py:133-136 | a published host runs, its directory survives the pruning, and at most two others do |
| Retention.Prune | scripts/khor_lab/artifacts.py:46-53 | what is left is the newest `keep` and the protected directories, or a superset if it stops early |
| Retention.KeptIff | scripts/khor_lab/artifacts.py:46-53 | a directory is kept if and only if it is protected or fewer than `keep` are newer, or as old and listed earlier |
| Retention.ProtectedSurvives | scripts/khor_lab/artifacts.py:46-53 | a protected directory survives, however early the prune stops |
| Retention.OldestGo | scripts/khor_lab/artifacts.py:46-53 | something is removed only when there are more than `keep`, and nothing newer than an unprotected one that stays |
| Retention.FewLeft | scripts/khor_lab/artifacts.py:46-53 | at most `keep` unprotected directories are left |
| FanStick.GearSettles | apps/gui/lab/gui-session-fan-state.ts:43-46 | both gear loops end, in a gear that fits the travel and that they would keep |
| FanStick.NextKeeps | apps/gui/lab/gui-session-fan-state.ts:13-52 | every move keeps the state invariant (side 0 means gear 0 and peak 0) and its gain is the side's, in a gear its travel allows |
| FanStick.OpensIff | apps/gui/lab/gui-session-fan-state.ts:14-19 | the overview is shown exactly beyond its gate, and the stick is acquired exactly by a landing outside it |
| FanStick.StrokeEnds | apps/gui/lab/gui-session-fan-state.ts:25-33 | a stroke ends if and only if the thumb crosses the neutral point, comes within 0.16 unit of it, or within 0.32 unit on its way back |
| FanStick.StrokeStarts | apps/gui/lab/gui-session-fan-state.ts:34-40 | a stroke starts if and only if the travel exceeds 0.25 unit, 0.45 after a brake, and after one across the neutral point is on the remembered side and 0.12 unit further out |
| FanStick.ShiftsIff | apps/gui/lab/gui-session-fan-state.ts:41-49 | every gain, exactly: the side of the travel times the value of the gear it gives, from the lowest gear for a stroke that starts |
| FanStick.RepeatedEvent | apps/gui/lab/gui-session-fan-state.ts:13-52 | in every state that keeps the invariant an event delivered twice gives the same gain the second time and moves nothing on |
| FanStick.RepeatedEventInGesture | apps/gui/lab/gui-session-fan-state.ts:13-52 | the same wherever any gesture stands |
| FanStick.ReversalRests | apps/gui/lab/gui-session-fan-state.ts:27-51 | in every gesture two gains of opposite sign have a zero gain between them |
| FanStick.RestartNeedsTravel | apps/gui/lab/gui-session-fan-state.ts:27-40 | after a brake every later stroke starts beyond 0.45 unit |
| FanStick.GainFitsTravel | apps/gui/lab/gui-session-fan-state.ts:41-49 | a gain is the side times its gear's value: gear 1 below 0.85 unit, gear 2 from 0.6 to 1.3, gear 3 from 1.0 |
| FanStick.ThumbStick.Move | apps/gui/lab/gui-session-fan-state.ts:13-52 | the object moves and answers as the specification says, and keeps the invariant |
| FanStick.ThumbStick.Shift | apps/gui/lab/gui-session-fan-state.ts:43-46 | the two loops compute the gear functions |
| FanStick.ThumbStick.Steered | apps/gui/lab/gui-session-fan-state.ts:20-52 | braking, reversal memory and gears, step by step as the specification |
| Signature.RawSignature | scripts/apple_api.py:17-35 | the walk over the buffer computes the decoding, with each error where the source raises it |
| Signature.FrameDecoded | scripts/apple_api.py:17-35 | a frame of two integers is accepted if and only if both are below 2^256, and then gives their values in 32 bytes each |
| Signature.AcceptedIsFrame | scripts/apple_api.py:17-35 | an input is accepted if and only if it is such a frame |
| Signature.MinimalDecoded | scripts/apple_api.py:17-35 | for all r and s below 2^256 their minimal DER decodes to the two 32-byte big-endian values side by side |
| Signature.MinimalOf | scripts/apple_api.py:17-35 | every value has minimal content octets, so the former holds of something for every r and s |
| Processes.Inventory.Observe | scripts/run-node-acceptance.py:96-108 | after a sample the inventory is the old one and the rows of the family, none rebound, and the bound is checked |
| Processes.WatchedIsObserved | scripts/run-node-acceptance.py:96-108 | the histories below are runs of this very operation |
| Processes.FamilyOwned | scripts/run-node-acceptance.py:96-108 | after a sample every listed process with a chain of parent links from the launched process or a live owned identity is owned |
| Processes.OwnedKept | scripts/run-node-acceptance.py:105-107 | over every sequence of samples the inventory only grows and never gives a pid another birth |
| Processes.OwnedDescends | scripts/run-node-acceptance.py:96-108 | and nothing else is owned: every owned identity first appeared as such a descendant |
| Processes.PersistentOwners | scripts/run-node-acceptance.py:118-157 | admits the host's owned descendants if and only if the marked fixture is proven |
| Processes.NothingTemporary | scripts/run-node-acceptance.py:160-164 | nothing temporary remains if and only if every listed process that is an owned one of the same birth, or in a group whose leader was owned, is such an owned one and descends from the admitted host |
| Gate.Gate.Decide | apps/agent/src/gate.ts:72-113 | the decision and the plan after it, a licence spent by exactly its own words |
| Gate.Gate.License | apps/agent/src/gate.ts:116-118 | appends the approved steps |
| Gate.SpentOnce | apps/agent/src/gate.ts:108-111 | spending a licence takes exactly one of these very words from the plan |
| Gate.RunsIff | apps/agent/src/gate.ts:72-113 | over every manual session a command runs if and only if its verb reads, or it acts and is approved now or was approved more often than it ran; a reading one touches no approval |
| Gate.BypassRuns | apps/agent/src/gate.ts:98-105 | in bypass every known verb that is not internal runs |
| Gate.PlanLicenses | apps/agent/src/tools.ts:74-115 | an approved plan licenses each acting step as often as it lists it, and any other plan nothing |
| Gate.PlanTool | apps/agent/src/tools.ts:74-115 | licenses the acting steps of an approved plan, and nothing where it throws |
| Gate.KhorTool | apps/agent/src/tools.ts:127-147 | runs a command if and only if it is free or approved on the spot |
| Gate.ManualConserves | apps/agent/src/tools.ts:74-147 | over every manual session, argv by argv, what was approved is what ran and what is outstanding, so what ran maps to distinct earlier approvals |
| Gate.OnlyKnownVerbsRun | apps/agent/src/gate.ts:72-96 | in either mode no unknown, empty or internal command ever runs, and only acting ones are licensed |
| Gate.AskedIffSpent | apps/agent/src/gate.ts:98-113 | in every manual session the user is asked about an acting command if and only if all approvals of these words have been used |
| Gate.BypassHoldsNothing | apps/agent/src/gate.ts:105-105 | in bypass nothing is approved and nothing outstanding |
| Usage.DayAxis | apps/gui/lab/quota-usage.tsx:206-213 | the axis is every day from its start to its end |
| Usage.ShorterIsSuffix | apps/gui/lab/quota-usage.tsx:206-213 | a shorter window is the tail of a longer one, and neither empty nor longer than asked for |
| Usage.AxisIsGapFree | apps/gui/lab/quota-usage.tsx:206-213 | no window skips a day, and the longest has every day there is a row for |
| Usage.Aggregate | apps/gui/lab/quota-usage.tsx:277-329 | one line for each model that ran in the window, with its sums, rates and days, largest first |
| Usage.RanIffPositive | apps/gui/lab/quota-usage.tsx:309-318 | a model is listed if and only if its total is positive, and an unlisted one has nothing of any kind |
| Usage.TableAddsUp | apps/gui/lab/quota-usage.tsx:1023-1031 | the table adds up to the rows of the window, kind by kind |
| Usage.CellsOf | apps/gui/lab/quota-usage.tsx:541-545 | a cell holds its day's rows of every model spelled alike |
| Usage.Totals | apps/gui/lab/quota-usage.tsx:546-547 | the columns of the days |
| Usage.ColumnsAddUp | apps/gui/lab/quota-usage.tsx:541-547 | the columns add up to the rows of the window if and only if not both rows without a model and a model named "null" ran in it |
| Usage.NullCountsTwice | apps/gui/lab/quota-usage.tsx:541-547 | two rows that the columns count twice |
| Usage.RateIsShare | apps/gui/lab/quota-usage.tsx:319-330 | a rate lies between 0 and 1 and is missing exactly if the cache is not reported or nothing went in |
| Seating.Plot.Berth | apps/gui/lab/quota-usage.tsx:1379-1404 | the first of the four seats that fits is taken, and none exactly if none fits |
| Seating.Plot.SeatAll | apps/gui/lab/quota-usage.tsx:1117-1126 | however many names: each has its berth among what was taken before it, those seated are in bounds, and no two boxes, the gutter's included, overlap |
| Seating.OverlapIffShared | apps/gui/lab/quota-usage.tsx:1399-1399 | the test for overlap means that the boxes have a point in common |
| Seating.NoPointTwice | apps/gui/lab/quota-usage.tsx:1379-1404 | no point of the plot lies under two of the boxes |

## Left out

- The Rust daemon and the interface: their source is not what these proofs are about.
- Subprocesses, HTTP, `gh`, `xcrun`, signing and file metadata: their replies are parts of the events.
- Floating point: lengths, coordinates and rates are reals.
- Download.StepInv: the eight-worker limit is not modelled, so more interleavings are allowed than can happen; a server that honors a range is taken to send the remote's bytes, and none honors an empty one; after a crash any byte outside the recorded parts may not have been written.
- Download.ReplayInv: a completed direct download is followed only up to the bytes it leaves behind.
- DepInfo.RuleRead: joining the paths to a working directory is left out.
- Wording.GenerateSection: the `word` lookup and the templates of `zh.toml` are not modelled, and the result is by key, not by written name; arguments are their displayed strings, and which characters beyond ASCII Rust prints as they are is left open.
- Provenance.EveryUnitWasCompiled: generated outputs are a given map by key, retained old metadata is a given set of paths, and `prepare_build`'s refresh and `require_provenance` are left out; one manifest names one package, as in Cargo.
- Provenance.EqualKeysEqualInputs: which digest wins where two extra trees, or two generated outputs, hold one path is left open.
- Admission.AllowedIsBound: the name of an extra tree is taken below the root, as all but an absolute `KHOR_AGENT_BUNDLE` are; which packages have extra trees is given.
- Admission.VerifyIff: the checks of Cargo's messages, of the set of build scripts and of the one requested target are left out.
- Release.AssetMap: the files of an update publication are left out.
- Release.Store.Publish: the checks before the remote calls are not in the method but in `Admits`, which `PublishableIff` and `FinishedComesBack` put in front of its runs.
- Release.PublishableIff: candidates with an update publication are left out.
- Release.FinishedComesBack: candidates with an update publication are left out.
- Release.Store.UploadMissing: an upload is taken as atomic; an asset that an interrupted upload leaves half there is not modelled.
- Release.PublishedComesBack: candidates without an update publication, fetched in full; the checks of `gh`'s own replies are left out, and the blanks that `strip` removes are space, tab, CR and LF.
- Notary.AtMostOnce: the stages of one build run one at a time; two `submit`s at once could both read the history before either submits.
- Notary.RecordsAreTrue: the archive is a name that identifies its bytes; building, unpacking and stapling are left out.
- Notary.Stages.WaitForAcceptance: the deadline is where the replies end; the rejection log is not kept.
- Lab.AlwaysSafe: shutting down (`serve`'s last steps, which take no lock), the scenes and the progress throttle are left out; that a host dies is an event of its own.
- Lab.Manager.LaunchNative: archive digest, unpacking and the path of the binary are one yes or no.
- FanStick.NextKeeps: the angle of a point enters as whether it lies within 22 and within 60 degrees of the neutral direction; `thumbFanJoystick` and its engine, whose source is not part of this model, are left out.
- Processes.PersistentOwners: the marker files, path and symlink checks are one yes or no; sending signals is left out.
- Gate.KhorTool: the exit code and the cut of long output are left out; a command that fails has run.
- Usage.Aggregate: the order of models with equal totals is left open, and the drawn names are left out.
- Usage.DayAxis: days are numbers, so the arithmetic of calendar dates is left out.
- Usage.TableAddsUp: counts are not negative, as usage is.
- Seating.Plot.Berth: the size of the type and the width of a name are given.
