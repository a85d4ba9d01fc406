/** The Lab manager (class Lab in scripts/khor_lab/server.py): single-flight builds with coalesced
    updates, and in full mode a native host that speaks the active frontend's contract. Every operation
    below runs under the manager's lock, so a history is a sequence of operations; a build thread's own
    operations come one after the other between its start and its end. */
module Lab {
  import opened Results
  import Retention
  import Sets

  /******* State *******/

  datatype Mode = Frontend | Full

  /** A retained native manifest: what `host_usable` and `launch_native` look at. `here` is platform and
      architecture, `port` the configured port, `sound` a matching archive with a host inside it. */
  datatype Manifest = Manifest(contract: string, managed: bool, verified: bool, here: bool, port: bool, sound: bool)

  datatype Process = Process(contract: string, alive: bool)

  datatype Config = Config(mode: Mode, local: bool, keep: nat)

  /** `requests`, `covered` and `started` count: updates accepted so far, those of them a build has
      started after, and builds started. `active` are the build threads that have not ended, `made` those
      of them past creating their directory. */
  datatype Queue = Queue(
    building: bool, queued: bool, active: set<string>, made: set<string>, requests: nat, covered: nat, started: nat)

  /** The native process and the contract of the manifest it was started from. */
  datatype Host = Host(native: Option<Process>, source: Option<string>)

  /** The version shown and its source's contract. */
  datatype Shown = Shown(version: Option<string>, source: Option<string>)

  /** A host directory may lack its manifest. */
  type Hosts = map<string, Option<Manifest>>

  datatype State = State(
    config: Config, cancelled: bool, queue: Queue, host: Host, shown: Shown, versions: set<string>, hosts: Hosts)

  /** How reading the contract, saving the state and starting the thread go. */
  datatype Starting = Works | Unreadable | Breaks

  datatype Spawn = Started | Unspawned | Exited

  predicate Running(h: Host) {
    h.native.Some? && h.native.value.alive
  }

  predicate Usable(local: bool, m: Manifest) {
    m.managed && (local || m.verified)
  }

  /******* Operations *******/

  /** The tail of `update`: a new build over everything asked for so far. */
  function Begin(q: Queue, id: string, breaks: bool): Queue {
    var t := q.(building := true, queued := false);
    if breaks then t else t.(active := t.active + {id}, covered := t.requests, started := t.started + 1)
  }

  /** The contract of the source cannot be read, which only full mode tries. */
  predicate Fails(config: Config, how: Starting) {
    config.mode.Full? && how.Unreadable?
  }

  function Updated(q: Queue, config: Config, id: string, how: Starting): Queue {
    if q.building then q.(queued := true, requests := q.requests + 1)
    else if Fails(config, how) then q
    else Begin(q.(requests := q.requests + 1), id, how.Breaks?)
  }

  /** The head of `build_latest`, outside its try: a failure ends the thread. */
  function Entered(q: Queue, id: string, ok: bool): Queue {
    if ok then q.(made := q.made + {id}) else q.(active := q.active - {id})
  }

  /** Whether the finally of `build_latest` gets as far as the queued update. */
  predicate Restarts(s: State, saved: bool, whole: bool) {
    saved && whole && s.queue.queued && !s.cancelled
  }

  /** The finally of `build_latest`: the build is over, and the queued update may start another. */
  function Ended(q: Queue, id: string, restarts: bool, next: string, breaks: bool): Queue {
    var t := q.(building := false, queued := false, active := q.active - {id}, made := q.made - {id});
    if restarts then Begin(t, next, breaks) else t
  }

  function Protected(shown: Shown): set<string> {
    if shown.version.Some? then {shown.version.value} else {""}
  }

  /** The save may fail before the prune, and the prune may stop after n directories. */
  function Pruned(s: State, saved: bool, listing: seq<Retention.Entry>, n: nat): set<string> {
    if saved then Retention.Left(listing, s.config.keep, Protected(s.shown), n) else s.versions
  }

  function Launched(h: Host, local: bool, source: Option<string>, m: Manifest, spawn: Spawn): (Host, bool) {
    if !Usable(local, m) || !m.here || !m.port || source != Some(m.contract) then (h, false)
    else if Running(h) && h.source == Some(m.contract) then (h, true)
    else if !m.sound then (h, false)
    else match spawn
      case Unspawned => (h.(native := None), false)
      case Exited => (h.(native := Some(Process(m.contract, false))), false)
      case Started => (Host(Some(Process(m.contract, true)), Some(m.contract)), true)
  }

  /** The retained host of a contract, if it can be used. */
  function Retained(s: State, contract: string): Option<Manifest> {
    if contract in s.hosts && s.hosts[contract].Some? && Usable(s.config.local, s.hosts[contract].value)
    then s.hosts[contract] else None
  }

  /** The host after a frontend of the contract is shown; false where that raises, which fails the build. */
  function Switched(s: State, contract: string, spawn: Spawn): (Host, bool) {
    if s.config.mode.Frontend? then (s.host, true)
    else
      var h := if s.shown.source != Some(contract) then s.host.(native := None) else s.host;
      var m := Retained(s, contract);
      if m.Some? then Launched(h, s.config.local, Some(contract), m.value, spawn) else (h, true)
  }

  /** `publish` of a frontend. */
  function ShownFrontend(s: State, id: string, contract: string, spawn: Spawn): (State, bool) {
    if s.cancelled then (s, true)
    else
      var (h, ok) := Switched(s, contract, spawn);
      (s.(host := h, shown := Shown(Some(id), Some(contract))), ok)
  }

  /** The hosts with the one just built, unless a usable one was kept; None if there is no using them. */
  function Stocked(s: State, built: Manifest, copied: bool): (Hosts, bool) {
    var c := built.contract;
    if c in s.hosts && s.hosts[c].None? then (s.hosts, false)
    else if c in s.hosts && Usable(s.config.local, s.hosts[c].value) then (s.hosts, true)
    else if !copied then (s.hosts[c := None], false)
    else (s.hosts[c := Some(built)], true)
  }

  /** The host before its launch: an unusable one is stopped. */
  function Replaced(s: State, c: string): Host {
    if c in s.hosts && s.hosts[c].Some? && !Usable(s.config.local, s.hosts[c].value) then s.host.(native := None) else s.host
  }

  /** `publish` of a native host just built; `copied` says that copying it into the hosts succeeds. */
  function ShownNative(s: State, built: Manifest, copied: bool, listing: seq<Retention.Entry>, spawn: Spawn): (State, bool) {
    var c := built.contract;
    if s.cancelled then (s, true)
    else
      var (hosts, stocked) := Stocked(s, built, copied);
      var h := Replaced(s, c);
      if !stocked then (s.(host := h, hosts := hosts), false)
      else
        var (g, ok) := Launched(h, s.config.local, s.shown.source, hosts[c].value, spawn);
        (s.(host := g, hosts := if ok then hosts - (hosts.Keys - Retention.Kept(listing, 2, {c})) else hosts), ok)
  }

  function Restarted(s: State, spawn: Spawn): (Host, bool) {
    if s.config.mode.Frontend? || s.shown.source.None? then (s.host, false)
    else if s.shown.source.value !in s.hosts || s.hosts[s.shown.source.value].None? then (s.host, false)
    else Launched(s.host.(native := None), s.config.local, s.shown.source, s.hosts[s.shown.source.value].value, spawn)
  }

  function Reaped(h: Host): Host {
    if h.native.Some? && !h.native.value.alive then h.(native := None) else h
  }

  /******* The class *******/

  class Manager {
    const config: Config
    var cancelled: bool
    var building: bool
    var queued: bool
    var native: Option<Process>
    var nativeSource: Option<string>
    var version: Option<string>
    var source: Option<string>
    var versions: set<string>
    var hosts: Hosts
    ghost var active: set<string>
    ghost var made: set<string>
    ghost var requests: nat
    ghost var covered: nat
    ghost var started: nat

    /** A new manager over what an earlier one left on disk. */
    constructor (config: Config, prior: Shown, versions: set<string>, hosts: Hosts)
      requires prior.version.Some? ==> prior.version.value in versions
      ensures Fresh(Now())
      ensures Now().config == config && Now().shown == prior && Now().versions == versions && Now().hosts == hosts
    {
      this.config, this.versions, this.hosts, version, source := config, versions, hosts, prior.version, prior.source;
      building, queued, cancelled, native, nativeSource := false, false, false, None, None;
      active, made, requests, covered, started := {}, {}, 0, 0, 0;
    }

    ghost function Line(): Queue
      reads this
    {
      Queue(building, queued, active, made, requests, covered, started)
    }

    function Serving(): Host
      reads this
    {
      Host(native, nativeSource)
    }

    ghost function Now(): State
      reads this
    {
      State(config, cancelled, Line(), Serving(), Shown(version, source), versions, hosts)
    }

    method Update(id: string, how: Starting)
      modifies `building, `queued, `active, `requests, `covered, `started
      ensures Line() == Updated(old(Line()), config, id, how)
    {
      if building {
        queued, requests := true, requests + 1;
        return;
      }
      if config.mode.Full? && how.Unreadable? { return; }
      requests := requests + 1;
      StartBuild(id, how.Breaks?);
    }

    method StartBuild(id: string, breaks: bool)
      modifies `building, `queued, `active, `covered, `started
      ensures Line() == Begin(old(Line()), id, breaks)
    {
      building, queued := true, false;
      if breaks { return; }
      active, covered, started := active + {id}, requests, started + 1;
    }

    method EnterBuild(id: string, ok: bool)
      modifies `versions, `made, `active
      ensures Line() == Entered(old(Line()), id, ok)
      ensures versions == if ok then old(versions) + {id} else old(versions)
    {
      if !ok {
        active := active - {id};
        return;
      }
      versions, made := versions + {id}, made + {id};
    }

    method EndBuild(id: string, saved: bool, listing: seq<Retention.Entry>, n: nat, next: string, how: Starting)
      modifies `building, `queued, `active, `made, `covered, `started, `versions
      ensures Line() == Ended(old(Line()), id, old(Restarts(Now(), saved, n >= |listing|)) && !Fails(config, how), next, how.Breaks?)
      ensures versions == Pruned(old(Now()), saved, listing, n)
    {
      var again := queued;
      building, queued, active, made := false, false, active - {id}, made - {id};
      if !saved { return; }
      versions := Retention.Prune(listing, config.keep, if version.Some? then {version.value} else {""}, n);
      if n < |listing| { return; }
      if again && !cancelled {
        if config.mode.Full? && how.Unreadable? { return; }
        StartBuild(next, how.Breaks?);
      }
    }

    method PublishFrontend(id: string, contract: string, spawn: Spawn) returns (ok: bool)
      modifies `native, `nativeSource, `version, `source
      ensures (Now(), ok) == ShownFrontend(old(Now()), id, contract, spawn)
    {
      if cancelled { return true; }
      ok := Switch(contract, spawn);
      version := Some(id);
    }

    /** Makes the contract the active one and the host speak it. */
    method Switch(contract: string, spawn: Spawn) returns (ok: bool)
      modifies `native, `nativeSource, `source
      ensures source == Some(contract) && (Serving(), ok) == Switched(old(Now()), contract, spawn)
    {
      if config.mode.Full? && source != Some(contract) { StopNative(); }
      source := Some(contract);
      if config.mode.Full? && contract in hosts && hosts[contract].Some? {
        if Usable(config.local, hosts[contract].value) {
          ok := LaunchNative(hosts[contract].value, spawn);
          return;
        }
      }
      return true;
    }

    method PublishNative(built: Manifest, copied: bool, listing: seq<Retention.Entry>, spawn: Spawn) returns (ok: bool)
      modifies `native, `nativeSource, `hosts
      ensures (Now(), ok) == ShownNative(old(Now()), built, copied, listing, spawn)
    {
      if cancelled { return true; }
      var c := built.contract;
      ok := Stock(built, copied);
      if !ok { return; }
      ok := LaunchNative(hosts[c].value, spawn);
      if !ok { return; }
      var retained := Retention.Prune(listing, 2, {c}, |listing|);
      hosts := hosts - (hosts.Keys - retained);
    }

    /** Puts a host just built among the hosts; an unusable one there is stopped and removed first. */
    method Stock(built: Manifest, copied: bool) returns (ok: bool)
      modifies `native, `hosts
      ensures (hosts, ok) == Stocked(old(Now()), built, copied)
      ensures Serving() == Replaced(old(Now()), built.contract)
    {
      var c := built.contract;
      if c in hosts {
        if hosts[c].None? { return false; }
        if Usable(config.local, hosts[c].value) { return true; }
        StopNative();
        hosts := hosts - {c};
      }
      hosts := hosts[c := if copied then Some(built) else None];
      assert hosts == old(hosts)[c := if copied then Some(built) else None];
      return copied;
    }

    method LaunchNative(m: Manifest, spawn: Spawn) returns (ok: bool)
      modifies `native, `nativeSource
      ensures (Serving(), ok) == Launched(old(Serving()), config.local, source, m, spawn)
    {
      if !Usable(config.local, m) { return false; }
      if !m.here { return false; }
      if !m.port || source != Some(m.contract) { return false; }
      if native.Some? && native.value.alive && nativeSource == Some(m.contract) { return true; }
      if !m.sound { return false; }
      StopNative();
      if spawn.Unspawned? { return false; }
      native := Some(Process(m.contract, spawn.Started?));
      if !native.value.alive { return false; }
      nativeSource := Some(m.contract);
      return true;
    }

    method StopNative()
      modifies `native
      ensures native == None
    {
      native := None;
    }

    method Restart(spawn: Spawn) returns (ok: bool)
      modifies `native, `nativeSource
      ensures (Serving(), ok) == Restarted(old(Now()), spawn)
    {
      if config.mode.Frontend? || source.None? { return false; }
      if source.value !in hosts || hosts[source.value].None? { return false; }
      StopNative();
      ok := LaunchNative(hosts[source.value].value, spawn);
    }

    method Status()
      modifies `native
      ensures Serving() == Reaped(old(Serving()))
    {
      if native.Some? && !native.value.alive { native := None; }
    }
  }

  /******* Histories *******/

  const EMPTY := Queue(false, false, {}, {}, 0, 0, 0)

  predicate Fresh(s: State) {
    && !s.cancelled && s.queue == EMPTY && s.host == Host(None, None)
    && (s.shown.version.Some? ==> s.shown.version.value in s.versions)
  }

  datatype Event =
    | Update(id: string, how: Starting)
    | Enter(id: string, ok: bool)
    | ShowFrontend(id: string, contract: string, spawn: Spawn)
    | ShowNative(id: string, built: Manifest, copied: bool, listing: seq<Retention.Entry>, spawn: Spawn)
    | End(id: string, saved: bool, listing: seq<Retention.Entry>, n: nat, next: string, how: Starting)
    | Restart(spawn: Spawn)
    | Status
    | Dies
    | Cancel

  function NextQueue(s: State, e: Event): Queue {
    match e
    case Update(id, how) => Updated(s.queue, s.config, id, how)
    case Enter(id, ok) => Entered(s.queue, id, ok)
    case End(id, saved, listing, n, next, how) =>
      Ended(s.queue, id, Restarts(s, saved, n >= |listing|) && !Fails(s.config, how), next, how.Breaks?)
    case _ => s.queue
  }

  function Next(s: State, e: Event): State {
    var t := s.(queue := NextQueue(s, e));
    match e
    case Update(_, _) => t
    case Enter(id, ok) => if ok then t.(versions := s.versions + {id}) else t
    case ShowFrontend(id, contract, spawn) => ShownFrontend(s, id, contract, spawn).0
    case ShowNative(_, built, copied, listing, spawn) => ShownNative(s, built, copied, listing, spawn).0
    case End(_, saved, listing, n, _, _) => t.(versions := Pruned(s, saved, listing, n))
    case Restart(spawn) => s.(host := Restarted(s, spawn).0)
    case Status => s.(host := Reaped(s.host))
    case Dies => if s.host.native.Some? then s.(host := s.host.(native := Some(s.host.native.value.(alive := false)))) else s
    case Cancel => s.(cancelled := true)
  }

  lemma NextParts(s: State, e: Event)
    ensures Next(s, e).queue == NextQueue(s, e) && Next(s, e).config == s.config
    ensures Next(s, e).cancelled == (s.cancelled || e.Cancel?)
  {
  }

  /** Only a build thread that is still there does what a build thread does, directories are listed as
      they are, and new names are new. */
  predicate Enabled(s: State, e: Event) {
    match e
    case Enter(id, _) => id in s.queue.active && id !in s.queue.made
    case ShowFrontend(id, _, _) => id in s.queue.made
    case ShowNative(id, _, _, _, _) => id in s.queue.made
    case End(id, _, listing, _, next, _) => id in s.queue.made && Retention.Names(listing) == s.versions && next != id
    case _ => true
  }

  function After(s: State, events: seq<Event>): State {
    if events == [] then s else Next(After(s, events[..|events| - 1]), events[|events| - 1])
  }

  ghost predicate Possible(s: State, events: seq<Event>) {
    forall k | 0 <= k < |events| :: Enabled(After(s, events[..k]), events[k])
  }

  lemma PossibleFront(s: State, events: seq<Event>)
    requires Possible(s, events) && events != []
    ensures Possible(s, events[..|events| - 1])
    ensures Enabled(After(s, events[..|events| - 1]), events[|events| - 1])
  {
    var front := events[..|events| - 1];
    forall k | 0 <= k < |front|
      ensures Enabled(After(s, front[..k]), front[k])
    {
      assert front[..k] == events[..k];
    }
  }

  /******* Safety, whatever fails *******/

  /** One build at most, and only while `building`. */
  predicate SingleFlight(q: Queue) {
    && (forall a, b | a in q.active && b in q.active :: a == b)
    && (q.active != {} ==> q.building)
    && q.made <= q.active && q.covered <= q.requests
  }

  /** The active version's directory is there, and so is a running build's. */
  predicate VersionThere(s: State) {
    && s.queue.made <= s.versions
    && (s.shown.version.Some? ==> s.shown.version.value in s.versions)
  }

  /** A running host speaks the contract and was started from a manifest that says so. */
  predicate Speaks(h: Host, contract: Option<string>) {
    Running(h) ==> contract == Some(h.native.value.contract) && h.source == contract
  }

  /** In full mode a running host speaks the active frontend's contract. */
  predicate HostMatches(s: State) {
    s.config.mode.Full? ==> Speaks(s.host, s.shown.source)
  }

  predicate Safe(s: State) {
    SingleFlight(s.queue) && VersionThere(s) && HostMatches(s)
  }

  lemma StepFlies(s: State, e: Event)
    requires SingleFlight(s.queue) && Enabled(s, e)
    ensures SingleFlight(NextQueue(s, e))
  {
  }

  lemma LaunchSpeaks(h: Host, local: bool, source: Option<string>, m: Manifest, spawn: Spawn)
    requires Speaks(h, source)
    ensures Speaks(Launched(h, local, source, m, spawn).0, source)
    ensures Launched(h, local, source, m, spawn).1 ==> Running(Launched(h, local, source, m, spawn).0)
  {
  }

  lemma StepHost(s: State, e: Event)
    requires HostMatches(s)
    ensures HostMatches(Next(s, e))
  {
    if s.config.mode.Full? {
      match e
      case ShowFrontend(_, contract, spawn) => SwitchedSpeaks(s, contract, spawn);
      case ShowNative(_, built, copied, listing, spawn) => NativeSpeaks(s, built, copied, listing, spawn);
      case Restart(spawn) => RestartSpeaks(s, spawn);
      case _ =>
    }
  }

  lemma SwitchedSpeaks(s: State, contract: string, spawn: Spawn)
    requires HostMatches(s) && s.config.mode.Full?
    ensures Speaks(Switched(s, contract, spawn).0, Some(contract))
  {
    var h := if s.shown.source != Some(contract) then s.host.(native := None) else s.host;
    if Retained(s, contract).Some? {
      LaunchSpeaks(h, s.config.local, Some(contract), Retained(s, contract).value, spawn);
    }
  }

  lemma NativeSpeaks(s: State, built: Manifest, copied: bool, listing: seq<Retention.Entry>, spawn: Spawn)
    requires Speaks(s.host, s.shown.source)
    ensures Speaks(ShownNative(s, built, copied, listing, spawn).0.host, s.shown.source)
    ensures ShownNative(s, built, copied, listing, spawn).0.shown == s.shown
  {
    var (hosts, stocked) := Stocked(s, built, copied);
    if stocked {
      LaunchSpeaks(Replaced(s, built.contract), s.config.local, s.shown.source, hosts[built.contract].value, spawn);
    }
  }

  lemma RestartSpeaks(s: State, spawn: Spawn)
    requires Speaks(s.host, s.shown.source)
    ensures Speaks(Restarted(s, spawn).0, s.shown.source)
  {
  }

  lemma NativeKeeps(s: State, e: Event)
    requires e.ShowNative?
    ensures Next(s, e).shown == s.shown && Next(s, e).versions == s.versions
  {
  }

  lemma StepVersion(s: State, e: Event)
    requires SingleFlight(s.queue) && VersionThere(s) && Enabled(s, e)
    ensures VersionThere(Next(s, e))
  {
    NextParts(s, e);
    if e.End? {
      assert s.queue.made == {e.id};
      if e.saved && s.shown.version.Some? {
        Retention.ProtectedSurvives(e.listing, s.config.keep, Protected(s.shown), e.n, s.shown.version.value);
      }
    } else if e.ShowNative? {
      NativeKeeps(s, e);
    }
  }

  /** Over every history, whatever fails in it: single flight, the active version's directory survives
      every prune, and in full mode a running host always matches the active frontend. */
  lemma {:induction false} AlwaysSafe(s: State, events: seq<Event>)
    requires Fresh(s) && Possible(s, events)
    ensures Safe(After(s, events))
  {
    if events != [] {
      var before, last := After(s, events[..|events| - 1]), events[|events| - 1];
      PossibleFront(s, events);
      AlwaysSafe(s, events[..|events| - 1]);
      NextParts(before, last);
      StepFlies(before, last);
      StepVersion(before, last);
      StepHost(before, last);
    }
  }

  /******* What the end of a build and a look at the host leave *******/

  /** At the end of a build whose state is saved and whose prune is not stopped, exactly the active version
      stays, and those with fewer than `keep` newer ones. */
  lemma EndLeaves(s: State, e: Event, i: nat)
    requires e.End? && e.saved && e.n >= |e.listing| && Retention.DistinctNames(e.listing) && i < |e.listing|
    requires e.listing[i].name != ""
    ensures e.listing[i].name in Next(s, e).versions
      <==> s.shown.version == Some(e.listing[i].name) || Retention.Before(e.listing, i) < s.config.keep
  {
    Retention.KeptIff(e.listing, s.config.keep, Protected(s.shown), i);
    Retention.LeftIsKept(e.listing, s.config.keep, Protected(s.shown), e.n);
  }

  /** A live host stays as it is, and a dead one is forgotten. */
  lemma StatusForgets(s: State)
    ensures Running(s.host) ==> Next(s, Status) == s
    ensures !Running(s.host) ==> Next(s, Status) == s.(host := Host(None, s.host.source))
  {
  }

  /******* When a host runs *******/

  /** The manifest is for this manager and this contract, and its host can be started. */
  predicate Startable(s: State, m: Manifest, contract: string) {
    && m.managed && (s.config.local || m.verified) && m.here && m.port && m.contract == contract
  }

  predicate RunsFor(s: State, contract: string) {
    Running(s.host) && s.shown.source == Some(contract)
  }

  /** The retained manifest of a contract, if its host may be used here at all. */
  predicate Keeps(s: State, contract: string, m: Manifest) {
    contract in s.hosts && s.hosts[contract] == Some(m) && m.managed && (s.config.local || m.verified)
  }

  ghost predicate StartsKept(s: State, contract: string, spawn: Spawn) {
    exists m :: Keeps(s, contract, m) && Startable(s, m, contract) && m.sound && spawn == Started
  }

  /** In full mode, once a frontend is shown: a host of its contract runs exactly if one was running for it
      already, or one is retained for it, fits, is sound and its process starts. Showing raises exactly if
      what is retained does not fit, or no host runs and it is not sound or its process does not start. */
  lemma FrontendRuns(s: State, id: string, contract: string, spawn: Spawn)
    requires s.config.mode.Full? && !s.cancelled && HostMatches(s)
    ensures var (t, ok) := ShownFrontend(s, id, contract, spawn);
      && t.shown == Shown(Some(id), Some(contract))
      && (Running(t.host) <==> RunsFor(s, contract) || StartsKept(s, contract, spawn))
      && (Running(t.host) ==> t.host.native == Some(Process(contract, true)) && t.host.source == Some(contract))
      && (ok <==> forall m | Keeps(s, contract, m) ::
        Startable(s, m, contract) && (RunsFor(s, contract) || (m.sound && spawn == Started)))
  {
    if Retained(s, contract).Some? {
      assert Keeps(s, contract, Retained(s, contract).value);
    }
  }

  /** Without full mode, or cancelled, no process is touched. */
  lemma FrontendLeavesHost(s: State, id: string, contract: string, spawn: Spawn)
    requires s.config.mode.Frontend? || s.cancelled
    ensures var (t, ok) := ShownFrontend(s, id, contract, spawn);
      ok && t.host == s.host && t.shown == if s.cancelled then s.shown else Shown(Some(id), Some(contract))
  {
  }

  /** The manifest a native publication goes on with: the usable one kept, or else the one just built. */
  predicate GoesWith(s: State, built: Manifest, copied: bool, m: Manifest) {
    || Keeps(s, built.contract, m)
    || (m == built && copied && Replaces(s, built.contract))
  }

  /** No host is kept for the contract, or one that cannot be used. */
  predicate Replaces(s: State, contract: string) {
    contract in s.hosts ==> s.hosts[contract].Some? && !Keeps(s, contract, s.hosts[contract].value)
  }

  ghost predicate StartsNative(s: State, built: Manifest, copied: bool, spawn: Spawn) {
    exists m :: GoesWith(s, built, copied, m) && s.shown.source == Some(m.contract) && Startable(s, m, m.contract)
      && m.sound && spawn == Started
  }

  ghost predicate FitsActive(s: State, built: Manifest, copied: bool) {
    exists m :: GoesWith(s, built, copied, m) && s.shown.source == Some(m.contract) && Startable(s, m, m.contract)
  }

  /** The publication does not stop the host: none is kept for the contract, or it can be used. */
  predicate Spares(s: State, contract: string) {
    contract in s.hosts && s.hosts[contract].Some? ==> Keeps(s, contract, s.hosts[contract].value)
  }

  /** Once a native host just built is published: a host runs exactly if one was running and is spared, or
      the manifest gone on with fits the active contract, is sound and its process starts. Publishing
      succeeds exactly if that manifest fits and one of the two holds, and then the host runs it. */
  lemma NativeRuns(s: State, built: Manifest, copied: bool, listing: seq<Retention.Entry>, spawn: Spawn)
    requires !s.cancelled && Speaks(s.host, s.shown.source)
    ensures var (t, ok) := ShownNative(s, built, copied, listing, spawn);
      var spared := Running(s.host) && Spares(s, built.contract);
      && t.shown == s.shown
      && (Running(t.host) <==> spared || StartsNative(s, built, copied, spawn))
      && (ok <==> (spared && FitsActive(s, built, copied)) || StartsNative(s, built, copied, spawn))
      && (ok ==> Running(t.host) && Some(t.host.native.value.contract) == s.shown.source)
  {
    var (hosts, stocked) := Stocked(s, built, copied);
    forall m
      ensures GoesWith(s, built, copied, m) <==> stocked && hosts[built.contract] == Some(m)
    {
      StockedIff(s, built, copied, m);
    }
    if stocked {
      var m := hosts[built.contract].value;
      LaunchRuns(Replaced(s, built.contract), s, m, spawn);
      assert GoesWith(s, built, copied, m);
    }
  }

  lemma StockedIff(s: State, built: Manifest, copied: bool, m: Manifest)
    ensures var (hosts, stocked) := Stocked(s, built, copied);
      && (stocked ==> built.contract in hosts && hosts[built.contract].Some?)
      && (GoesWith(s, built, copied, m) <==> stocked && hosts[built.contract] == Some(m))
  {
  }

  lemma LaunchRuns(h: Host, s: State, m: Manifest, spawn: Spawn)
    requires Speaks(h, s.shown.source)
    ensures var (g, ok) := Launched(h, s.config.local, s.shown.source, m, spawn);
      var fits := s.shown.source == Some(m.contract) && Startable(s, m, m.contract);
      && (Running(g) <==> Running(h) || (fits && m.sound && spawn == Started))
      && (ok <==> fits && (Running(h) || (m.sound && spawn == Started)))
      && (ok ==> Some(g.native.value.contract) == s.shown.source)
  {
  }

  /** A restart that finds its host's manifest always stops the old process; a host runs then exactly if the
      manifest fits, is sound and the process starts, and the restart raises exactly if not. Any other
      restart raises and leaves the process alone. */
  lemma RestartRuns(s: State, spawn: Spawn)
    ensures var (h, ok) := Restarted(s, spawn);
      if s.config.mode.Full? && s.shown.source.Some? && s.shown.source.value in s.hosts && s.hosts[s.shown.source.value].Some?
      then
        var m := s.hosts[s.shown.source.value].value;
        && (Running(h) <==> Startable(s, m, s.shown.source.value) && m.sound && spawn == Started)
        && (ok <==> Running(h))
        && (ok ==> h == Host(Some(Process(s.shown.source.value, true)), s.shown.source))
      else h == s.host && !ok
  {
  }

  /******* Liveness, and exactly what breaks it *******/

  /** `building` says that a build is active. */
  predicate Live(q: Queue) {
    q.building <==> q.active != {}
  }

  /** Every accepted update is followed by a build: one has started since, or one is queued behind the
      active build; and nothing else is queued. */
  predicate Served(q: Queue) {
    q.covered < q.requests <==> q.queued
  }

  /** Creating the build's directory fails, or what comes between claiming the build and its thread. */
  predicate Sticks(s: State, e: Event) {
    match e
    case Enter(_, ok) => !ok
    case Update(_, how) => !s.queue.building && how.Breaks?
    case End(_, saved, listing, n, _, how) => Restarts(s, saved, n >= |listing|) && how.Breaks?
    case _ => false
  }

  /** A queued update is taken off the queue and its build does not come: the manager is cancelled, or
      the end of the build fails on its way. */
  predicate Drops(s: State, e: Event) {
    e.End? && s.queue.queued && (!Restarts(s, e.saved, e.n >= |e.listing|) || Fails(s.config, e.how))
  }

  lemma StepLive(s: State, e: Event)
    requires SingleFlight(s.queue) && Enabled(s, e) && Live(s.queue)
    ensures Live(NextQueue(s, e)) <==> !Sticks(s, e)
  {
    if e.End? || e.Enter? {
      assert s.queue.active == {e.id};
    }
  }

  lemma StuckStep(s: State, e: Event)
    requires SingleFlight(s.queue) && Enabled(s, e) && !Live(s.queue)
    ensures !Live(NextQueue(s, e)) && NextQueue(s, e).started == s.queue.started
  {
  }

  /** A manager that says it is building without a build says so forever and never builds again. */
  lemma {:induction false} StuckForever(s: State, events: seq<Event>)
    requires SingleFlight(s.queue) && !Live(s.queue) && Possible(s, events)
    ensures SingleFlight(After(s, events).queue) && !Live(After(s, events).queue)
    ensures After(s, events).queue.started == s.queue.started
  {
    if events != [] {
      var before, last := After(s, events[..|events| - 1]), events[|events| - 1];
      PossibleFront(s, events);
      StuckForever(s, events[..|events| - 1]);
      NextParts(before, last);
      StepFlies(before, last);
      StuckStep(before, last);
    }
  }

  ghost predicate NeverSticks(s: State, events: seq<Event>) {
    events == [] || (NeverSticks(s, events[..|events| - 1]) && !Sticks(After(s, events[..|events| - 1]), events[|events| - 1]))
  }

  ghost predicate NeverDrops(s: State, events: seq<Event>) {
    events == [] || (NeverDrops(s, events[..|events| - 1]) && !Drops(After(s, events[..|events| - 1]), events[|events| - 1]))
  }

  /** `building` is true exactly while a build is active if and only if no build start broke. */
  lemma {:induction false} BuildingIffActive(s: State, events: seq<Event>)
    requires Fresh(s) && Possible(s, events)
    ensures Live(After(s, events).queue) <==> NeverSticks(s, events)
  {
    if events != [] {
      var before, last := After(s, events[..|events| - 1]), events[|events| - 1];
      PossibleFront(s, events);
      BuildingIffActive(s, events[..|events| - 1]);
      AlwaysSafe(s, events[..|events| - 1]);
      NextParts(before, last);
      if Live(before.queue) {
        StepLive(before, last);
      } else {
        StuckStep(before, last);
      }
    }
  }

  lemma StepServed(s: State, e: Event)
    requires SingleFlight(s.queue) && Enabled(s, e) && Live(s.queue) && Served(s.queue) && !Sticks(s, e)
    ensures Served(NextQueue(s, e)) <==> !Drops(s, e)
  {
    if e.End? || e.Enter? {
      assert s.queue.active == {e.id};
    }
  }

  /** No update is lost: if no build start breaks and no queued update is dropped, every accepted update
      has had a build start after it, or is queued behind the build that is active. */
  lemma {:induction false} NoUpdateLost(s: State, events: seq<Event>)
    requires Fresh(s) && Possible(s, events) && NeverSticks(s, events) && NeverDrops(s, events)
    ensures var q := After(s, events).queue; Served(q) && (q.covered < q.requests ==> q.active != {})
  {
    if events != [] {
      var before, last := After(s, events[..|events| - 1]), events[|events| - 1];
      PossibleFront(s, events);
      NoUpdateLost(s, events[..|events| - 1]);
      AlwaysSafe(s, events[..|events| - 1]);
      BuildingIffActive(s, events[..|events| - 1]);
      NextParts(before, last);
      StepServed(before, last);
      StepLive(before, last);
      QueuedIsBuilding(s, events);
    }
  }

  /** An update waits in the queue only while `building`. */
  lemma {:induction false} QueuedIsBuilding(s: State, events: seq<Event>)
    requires Fresh(s) && Possible(s, events)
    ensures After(s, events).queue.queued ==> After(s, events).queue.building
  {
    if events != [] {
      PossibleFront(s, events);
      QueuedIsBuilding(s, events[..|events| - 1]);
      NextParts(After(s, events[..|events| - 1]), events[|events| - 1]);
    }
  }

  /** An update was dropped, or a build start broke, and no build has started since. */
  ghost predicate Blocked(s: State, events: seq<Event>) {
    events != [] &&
    var before, last := After(s, events[..|events| - 1]), events[|events| - 1];
      || Sticks(before, last) || Drops(before, last)
      || (Blocked(s, events[..|events| - 1]) && NextQueue(before, last).started == before.queue.started)
  }

  /** A step that starts a build leaves nothing open. */
  lemma StepStarts(s: State, e: Event)
    requires SingleFlight(s.queue) && Enabled(s, e) && NextQueue(s, e).started != s.queue.started
    ensures Live(NextQueue(s, e)) && Served(NextQueue(s, e)) && !Sticks(s, e) && !Drops(s, e)
  {
  }

  /** A step that blocks, or starts nothing while nothing is active, leaves nothing active. */
  lemma StepIdles(s: State, e: Event)
    requires SingleFlight(s.queue) && Enabled(s, e)
    requires Sticks(s, e) || Drops(s, e) || (s.queue.active == {} && NextQueue(s, e).started == s.queue.started)
    ensures NextQueue(s, e).active == {}
  {
    if e.End? || e.Enter? {
      assert s.queue.active == {e.id};
    }
  }

  lemma {:induction false} BlockedOrOpen(s: State, events: seq<Event>)
    requires Fresh(s) && Possible(s, events)
    ensures var q := After(s, events).queue; if Blocked(s, events) then q.active == {} else Live(q) && Served(q)
  {
    if events != [] {
      var front, last := events[..|events| - 1], events[|events| - 1];
      var before := After(s, front);
      PossibleFront(s, events);
      BlockedOrOpen(s, front);
      AlwaysSafe(s, front);
      NextParts(before, last);
      if Blocked(s, events) {
        StepIdles(before, last);
      } else if Blocked(s, front) {
        StepStarts(before, last);
      } else {
        StepLive(before, last);
        StepServed(before, last);
      }
    }
  }

  /** Exactly when an accepted update is left without a build that started after it and without one to
      come: some update is not covered, and since an update was dropped or a build start broke no build
      has started. */
  lemma UnservedIff(s: State, events: seq<Event>)
    requires Fresh(s) && Possible(s, events)
    ensures var q := After(s, events).queue;
      q.covered < q.requests ==> (!(q.queued && q.active != {}) <==> Blocked(s, events))
  {
    BlockedOrOpen(s, events);
    QueuedIsBuilding(s, events);
  }

  /** The end of a build starts one build for all that was queued behind it, and none otherwise. */
  lemma QueuedAreCoalesced(s: State, e: Event)
    requires e.End? && Enabled(s, e) && SingleFlight(s.queue) && Served(s.queue) && !Sticks(s, e) && !Drops(s, e)
    ensures NextQueue(s, e).covered == NextQueue(s, e).requests == s.queue.requests
    ensures NextQueue(s, e).started == s.queue.started + if s.queue.queued then 1 else 0
    ensures NextQueue(s, e).active == if s.queue.queued then {e.next} else {}
  {
    assert s.queue.active == {e.id};
  }

  /** One directory that cannot be created stops the manager for good: later updates are accepted and
      never built. */
  lemma FailedDirectoryStops(s: State, id: string, later: string)
    requires Fresh(s)
    ensures var events := [Update(id, Works), Enter(id, false), Update(later, Works)];
      Possible(s, events) && !Live(After(s, events).queue) && After(s, events).queue.covered < After(s, events).queue.requests
  {
    var e0, e1, e2 := Update(id, Works), Enter(id, false), Update(later, Works);
    var events := [e0, e1, e2];
    assert events[..2] == [e0, e1] && events[..1] == [e0] && events[..0] == [];
    assert [e0, e1][..1] == [e0] && [e0][..0] == [];
    assert After(s, []) == s && After(s, [e0]) == Next(s, e0);
    assert After(s, [e0, e1]) == Next(Next(s, e0), e1);
    assert After(s, events) == Next(Next(Next(s, e0), e1), e2);
  }

  /** A native host that is published runs, and its directory survives the pruning of hosts. */
  lemma HostDirectorySurvives(s: State, built: Manifest, copied: bool, listing: seq<Retention.Entry>, spawn: Spawn)
    requires !s.cancelled && Speaks(s.host, s.shown.source) && ShownNative(s, built, copied, listing, spawn).1
    requires built.contract in Retention.Names(listing)
    ensures var t := ShownNative(s, built, copied, listing, spawn).0;
      built.contract in t.hosts && t.hosts[built.contract].Some? && Running(t.host)
      && |t.hosts.Keys - {built.contract}| <= 2
  {
    var t := ShownNative(s, built, copied, listing, spawn).0;
    var kept := Retention.Kept(listing, 2, {built.contract});
    LaunchSpeaks(Replaced(s, built.contract), s.config.local, s.shown.source,
                 Stocked(s, built, copied).0[built.contract].value, spawn);
    Retention.FewLeft(listing, 2, {built.contract});
    assert t.hosts.Keys <= kept;
    Sets.SubsetSize(t.hosts.Keys - {built.contract}, kept - {built.contract});
  }
}
