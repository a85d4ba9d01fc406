/** The resumable parallel download (scripts/khor_lab/download.py). Workers fill 4 MiB parts of one
    file, retry from a moving offset and record finished parts in a receipt that is replaced
    atomically. The model steps at every point where another worker, a crash or the network can come
    in between. */
module Download {
  import opened Octets
  import opened Results

  const PART := 4 * 1024 * 1024
  const ATTEMPTS := 4
  const BUFFER := 64 * 1024

  /** Sizes `acquire` accepts at all, and those it downloads in ranges. */
  predicate Accepted(size: nat) {
    0 < size <= 512 * 1024 * 1024
  }

  predicate Ranged(size: nat) {
    Accepted(size) && size > 16 * 1024 * 1024
  }

  /******* Parts *******/

  predicate IsStart(start: nat, size: nat) {
    start < size && start % PART == 0
  }

  function End(start: nat, size: nat): nat {
    if start + PART < size then start + PART else size
  }

  predicate InPart(i: nat, start: nat, size: nat) {
    start <= i < End(start, size)
  }

  function StartOf(i: nat): nat {
    i - i % PART
  }

  lemma StartOfPart(i: nat, size: nat)
    requires i < size
    ensures IsStart(StartOf(i), size) && InPart(i, StartOf(i), size)
    ensures forall start: nat | IsStart(start, size) && InPart(i, start, size) :: start == StartOf(i)
  {
    forall start: nat | IsStart(start, size) && InPart(i, start, size)
      ensures start == StartOf(i)
    {
      assert i / PART == start / PART;
    }
  }

  /******* State *******/

  /** Where one call of `part` stands; `offset` is the next byte to ask for. While Saving it holds the
      lock and has written the new receipt beside the old one. An attempt that starts at the end of its
      part is Beyond: it asks for an empty range, which no server honors. */
  datatype Phase =
    | Waiting
    | Active(offset: nat, attempt: nat)
    | Beyond(offset: nat, attempt: nat)
    | Saving(attempt: nat)
    | Done
    | Failed(offset: nat)

  /** What survives a crash. */
  datatype Disk = Disk(archive: Option<Bytes>, receipt: Option<set<nat>>)

  datatype Process =
    | Down
    | Up(completed: set<nat>, received: nat, tmp: set<nat>, parts: map<nat, Phase>)
    | Unpacked

  /** `delivered` is what was handed to the unpacker last. */
  datatype State = State(disk: Disk, process: Process, delivered: Option<Bytes>)

  const START := State(Disk(None, None), Down, None)

  datatype Event =
    | Open
    | Begin(start: nat)
    | Chunk(start: nat, length: nat)
    | LostWrite(start: nat, length: nat)
    | Refused(start: nat)
    | NetworkError(start: nat)
    | StreamEnd(start: nat)
    | Replace(start: nat)
    | SaveError(start: nat)
    | Unpack(digest: Option<Bytes>)
    | Clear
    | Direct(length: nat)
    | Stop(torn: Bytes)

  /******* Steps *******/

  function Starts(size: nat): set<nat> {
    set start: nat | start < size && IsStart(start, size)
  }

  /** `truncate(size)`: cut, or pad with zeros. */
  function Resized(archive: Bytes, size: nat): (r: Bytes)
    ensures |r| == size
    ensures forall i | 0 <= i < |archive| && i < size :: r[i] == archive[i]
  {
    if |archive| >= size then archive[..size] else archive + seq(size - |archive|, _ => 0)
  }

  function Splice(archive: Bytes, offset: nat, chunk: Bytes): Bytes
    requires offset + |chunk| <= |archive|
  {
    archive[..offset] + chunk + archive[offset + |chunk|..]
  }

  /** The bytes of the recorded parts: what `received` starts from. */
  ghost function Sum(starts: set<nat>, size: nat): nat
    requires forall start | start in starts :: IsStart(start, size)
  {
    if starts == {} then 0
    else
      var start :| start in starts;
      assert IsStart(start, size);
      End(start, size) - start + Sum(starts - {start}, size)
  }

  function Recorded(receipt: Option<set<nat>>): set<nat> {
    if receipt.Some? then receipt.value else {}
  }

  /** An `OSError` or `URLError` in an attempt: the next attempt goes on from the same offset, the
      fourth gives up. */
  function Retry(offset: nat, attempt: nat, end: nat): Phase {
    if attempt + 1 >= ATTEMPTS then Failed(offset)
    else if offset < end then Active(offset, attempt + 1) else Beyond(offset, attempt + 1)
  }

  predicate LockFree(parts: map<nat, Phase>) {
    forall start | start in parts :: !parts[start].Saving?
  }

  predicate AllDone(parts: map<nat, Phase>) {
    forall start | start in parts :: parts[start].Done?
  }

  /** One step over a remote file, or None where the step cannot happen. A part that a server answers
      is answered with the bytes of the remote, in pieces of any length. */
  ghost function Next(remote: Bytes, s: State, e: Event): Option<State>
    requires ReceiptFits(remote, s)
  {
    var size := |remote|;
    match e
    case Open =>
      if !s.process.Down? || !Ranged(size) then None
      else
        var receipt := if s.disk.archive.None? then None else s.disk.receipt;
        var archive := if s.disk.archive.None? then [] else s.disk.archive.value;
        Some(s.(disk := Disk(Some(Resized(archive, size)), receipt),
                process := Up(Recorded(receipt), Sum(Recorded(receipt), size), {},
                              map start | start in Starts(size) :: Waiting)))
    case Unpack(digest) =>
      if !s.process.Up? || !AllDone(s.process.parts) || s.disk.archive.None? then None
      else
        Some(State(Disk(None, s.disk.receipt), Unpacked,
                   if digest.None? || digest == s.disk.archive then s.disk.archive else s.delivered))
    case Clear =>
      if !s.process.Unpacked? then None else Some(s.(disk := s.disk.(receipt := None), process := Down))
    case Direct(length) =>
      if !s.process.Down? || !Accepted(size) || length > size then None
      else
        var receipt := if s.disk.archive.None? then None else s.disk.receipt;
        Some(s.(disk := Disk(Some(remote[..length]), receipt)))
    case Stop(torn) =>
      if s.disk.archive.None? then Some(s.(process := Down))
      else if |torn| != |s.disk.archive.value| || !KeepsRecorded(remote, s, torn) then None
      else Some(s.(disk := s.disk.(archive := Some(torn)), process := Down))
    case _ =>
      if !s.process.Up? || e.start !in s.process.parts || s.disk.archive.None? || |s.disk.archive.value| != size
      then None
      else PartStep(remote, s, e)
  }

  /** The bytes a stopped process leaves behind: finished parts were flushed before they were recorded;
      any other byte is what was written last, or not written at all. */
  ghost predicate KeepsRecorded(remote: Bytes, s: State, torn: Bytes)
    requires s.disk.archive.Some? && |torn| == |s.disk.archive.value|
  {
    && (forall i: nat | i < |torn| :: torn[i] == s.disk.archive.value[i] || torn[i] == 0)
    && forall start, i: nat | start in Recorded(s.disk.receipt) && InPart(i, start, |remote|) && i < |torn| ::
      torn[i] == s.disk.archive.value[i]
  }

  ghost predicate ReceiptFits(remote: Bytes, s: State) {
    forall start | start in Recorded(s.disk.receipt) :: IsStart(start, |remote|)
  }

  predicate IsPartEvent(e: Event) {
    e.Begin? || e.Chunk? || e.LostWrite? || e.Refused? || e.NetworkError? || e.StreamEnd? || e.Replace? || e.SaveError?
  }

  /** A step of the worker for one part. */
  ghost function PartStep(remote: Bytes, s: State, e: Event): Option<State>
    requires s.process.Up? && IsPartEvent(e) && e.start in s.process.parts
    requires s.disk.archive.Some? && |s.disk.archive.value| == |remote|
  {
    var p, start, archive := s.process, e.start, s.disk.archive.value;
    var phase, end := p.parts[start], End(start, |remote|);
    match e
    case Begin(_) =>
      if !phase.Waiting? then None
      else Some(s.(process := p.(parts := p.parts[start := if start in p.completed then Done else Active(start, 0)])))
    case Chunk(_, length) =>
      if !phase.Active? || length == 0 || phase.offset + length > end || !LockFree(p.parts) || end > |remote| then None
      else
        var chunk := remote[phase.offset..phase.offset + length];
        Some(s.(disk := s.disk.(archive := Some(Splice(archive, phase.offset, chunk))),
                process := p.(received := p.received + length,
                              parts := p.parts[start := Active(phase.offset + length, phase.attempt)])))
    case LostWrite(_, length) =>
      // The offset moves before the write that then fails.
      if !phase.Active? || length == 0 || phase.offset + length > end then None
      else Some(s.(process := p.(parts := p.parts[start := Retry(phase.offset + length, phase.attempt, end)])))
    case Refused(_) =>
      // A reply for another range, or more bytes than asked for: no retry.
      if !phase.Active? && !phase.Beyond? then None
      else Some(s.(process := p.(parts := p.parts[start := Failed(phase.offset)])))
    case NetworkError(_) =>
      if !phase.Active? && !phase.Beyond? then None
      else Some(s.(process := p.(parts := p.parts[start := Retry(phase.offset, phase.attempt, end)])))
    case StreamEnd(_) =>
      if !phase.Active? then None
      else if phase.offset != end then
        Some(s.(process := p.(parts := p.parts[start := Retry(phase.offset, phase.attempt, end)])))
      else if !LockFree(p.parts) then None
      else Some(s.(process := p.(completed := p.completed + {start}, tmp := p.completed + {start},
                                 parts := p.parts[start := Saving(phase.attempt)])))
    case Replace(_) =>
      if !phase.Saving? then None
      else Some(s.(disk := s.disk.(receipt := Some(p.tmp)), process := p.(parts := p.parts[start := Done])))
    case SaveError(_) =>
      if !phase.Saving? then None
      else Some(s.(process := p.(parts := p.parts[start := Retry(end, phase.attempt, end)])))
  }

  /******* What every step keeps *******/

  /** The part is on disk as the remote has it. */
  predicate Holds(remote: Bytes, archive: Bytes, start: nat, upTo: nat) {
    upTo <= |remote| && upTo <= |archive| && forall i | start <= i < upTo :: archive[i] == remote[i]
  }

  ghost predicate DiskOk(remote: Bytes, disk: Disk) {
    forall start | start in Recorded(disk.receipt) ::
      && IsStart(start, |remote|)
      && (disk.archive.Some? ==> Holds(remote, disk.archive.value, start, End(start, |remote|)))
  }

  ghost predicate PhaseOk(remote: Bytes, archive: Bytes, start: nat, phase: Phase, completed: set<nat>) {
    match phase
    case Waiting => true
    case Active(offset, _) =>
      && start <= offset <= End(start, |remote|) && Holds(remote, archive, start, offset)
      && (start in completed ==> offset == End(start, |remote|))
    case Beyond(offset, _) => offset == End(start, |remote|)
    case Failed(offset) => start <= offset <= End(start, |remote|)
    case _ => start in completed
  }

  ghost predicate Inv(remote: Bytes, s: State) {
    && DiskOk(remote, s.disk)
    && (s.process.Up? ==>
      && s.disk.archive.Some? && |s.disk.archive.value| == |remote|
      && s.process.parts.Keys == Starts(|remote|)
      && Recorded(s.disk.receipt) <= s.process.completed <= Starts(|remote|)
      && s.process.tmp <= s.process.completed
      && (forall start | start in s.process.completed :: Holds(remote, s.disk.archive.value, start, End(start, |remote|)))
      && forall start | start in s.process.parts ::
           PhaseOk(remote, s.disk.archive.value, start, s.process.parts[start], s.process.completed))
  }

  /** The two steps that can break the invariant do not exactly when this holds: a failed local write ended
      its worker's last attempt or its part, or skipped bytes that were on disk already; and a direct download left a prefix that still holds
      every recorded part. */
  ghost predicate Harmless(remote: Bytes, s: State, e: Event)
    requires ReceiptFits(remote, s)
  {
    match e
    case LostWrite(start, length) =>
      s.process.Up? && start in s.process.parts && s.process.parts[start].Active? && s.disk.archive.Some? &&
      var offset := s.process.parts[start].offset;
      s.process.parts[start].attempt + 1 >= ATTEMPTS || offset + length == End(start, |remote|)
        || (offset + length <= |s.disk.archive.value| && Holds(remote, s.disk.archive.value, offset, offset + length))
    case Direct(length) =>
      s.disk.archive.Some? ==> forall start | start in Recorded(s.disk.receipt) :: End(start, |remote|) <= length
    case _ => true
  }

  /** Every step keeps the invariant exactly when it is harmless. */
  lemma StepInv(remote: Bytes, s: State, e: Event, s': State)
    requires Inv(remote, s) && Next(remote, s, e) == Some(s')
    ensures Inv(remote, s') <==> Harmless(remote, s, e)
  {
    if IsPartEvent(e) {
      if e.Chunk? {
        ChunkInv(remote, s, e.start, e.length, s');
      } else if e.LostWrite? {
        LostWriteInv(remote, s, e.start, e.length, s');
      } else {
        PartStepInv(remote, s, e, s');
      }
    } else if e.Direct? {
      DirectInv(remote, s, e.length, s');
    } else {
      ProcessStepInv(remote, s, e, s');
    }
  }

  lemma ProcessStepInv(remote: Bytes, s: State, e: Event, s': State)
    requires Inv(remote, s) && Next(remote, s, e) == Some(s') && !IsPartEvent(e) && !e.Direct?
    ensures Inv(remote, s')
  {
    if e.Open? {
      assert forall start | start in Recorded(s'.disk.receipt) :: start in Starts(|remote|) by {
        forall start | start in Recorded(s'.disk.receipt)
          ensures start in Starts(|remote|)
        {
          assert IsStart(start, |remote|);
        }
      }
    } else if e.Stop? && s.disk.archive.Some? {
      forall start | start in Recorded(s'.disk.receipt)
        ensures Holds(remote, e.torn, start, End(start, |remote|))
      {
        forall i: nat | start <= i < End(start, |remote|)
          ensures e.torn[i] == remote[i]
        {
          assert InPart(i, start, |remote|);
        }
      }
    }
  }

  lemma DirectInv(remote: Bytes, s: State, length: nat, s': State)
    requires Inv(remote, s) && Next(remote, s, Direct(length)) == Some(s')
    ensures Inv(remote, s') <==> Harmless(remote, s, Direct(length))
  {
    if s.disk.archive.Some? {
      forall start | start in Recorded(s.disk.receipt)
        ensures Holds(remote, remote[..length], start, End(start, |remote|)) <==> End(start, |remote|) <= length
      {
      }
    }
  }

  /** Writing remote bytes leaves every range that matched the remote matching. */
  lemma SpliceHolds(remote: Bytes, archive: Bytes, offset: nat, length: nat, start: nat, upTo: nat)
    requires offset + length <= |remote| == |archive| && Holds(remote, archive, start, upTo)
    ensures Holds(remote, Splice(archive, offset, remote[offset..offset + length]), start, upTo)
  {
  }

  lemma ChunkInv(remote: Bytes, s: State, start: nat, length: nat, s': State)
    requires Inv(remote, s) && Next(remote, s, Chunk(start, length)) == Some(s')
    ensures Inv(remote, s')
  {
    var archive, offset := s.disk.archive.value, s.process.parts[start].offset;
    var a := s'.disk.archive.value;
    forall p, upTo: nat | Holds(remote, archive, p, upTo)
      ensures Holds(remote, a, p, upTo)
    {
      SpliceHolds(remote, archive, offset, length, p, upTo);
    }
    assert Holds(remote, a, start, offset + length);
    forall p | p in s'.process.parts
      ensures PhaseOk(remote, a, p, s'.process.parts[p], s'.process.completed)
    {
      assert PhaseOk(remote, archive, p, s.process.parts[p], s.process.completed);
    }
  }

  lemma TailHolds(remote: Bytes, archive: Bytes, a: nat, b: nat, c: nat)
    requires a <= b <= c <= |remote| && |archive| == |remote|
    ensures Holds(remote, archive, a, c) ==> Holds(remote, archive, b, c)
  {
    if Holds(remote, archive, a, c) {
      assert archive[b..c] == archive[a..c][b - a..] && remote[b..c] == remote[a..c][b - a..];
    }
  }

  lemma LostWriteInv(remote: Bytes, s: State, start: nat, length: nat, s': State)
    requires Inv(remote, s) && Next(remote, s, LostWrite(start, length)) == Some(s')
    ensures Inv(remote, s') <==> Harmless(remote, s, LostWrite(start, length))
  {
    var archive, phase := s.disk.archive.value, s.process.parts[start];
    assert PhaseOk(remote, archive, start, phase, s.process.completed);
    if Harmless(remote, s, LostWrite(start, length)) {
      forall p | p in s'.process.parts
        ensures PhaseOk(remote, archive, p, s'.process.parts[p], s'.process.completed)
      {
        assert PhaseOk(remote, archive, p, s.process.parts[p], s.process.completed);
      }
    } else {
      TailHolds(remote, archive, start, phase.offset, phase.offset + length);
      assert s'.process.parts[start] == Active(phase.offset + length, phase.attempt + 1);
      assert !PhaseOk(remote, archive, start, s'.process.parts[start], s'.process.completed);
    }
  }

  lemma PartStepInv(remote: Bytes, s: State, e: Event, s': State)
    requires Inv(remote, s) && Next(remote, s, e) == Some(s')
    requires IsPartEvent(e) && !e.Chunk? && !e.LostWrite?
    ensures Inv(remote, s')
  {
    var archive := s.disk.archive.value;
    assert PhaseOk(remote, archive, e.start, s.process.parts[e.start], s.process.completed);
    forall p | p in s'.process.parts
      ensures PhaseOk(remote, archive, p, s'.process.parts[p], s'.process.completed)
    {
      assert PhaseOk(remote, archive, p, s.process.parts[p], s.process.completed);
    }
  }

  /******* What `received` counts *******/

  function Offset(phase: Phase): nat {
    if phase.Active? || phase.Beyond? || phase.Failed? then phase.offset else 0
  }

  /** The positions the workers have passed. */
  ghost function Passed(size: nat, p: Process): set<nat>
    requires p.Up? && p.parts.Keys == Starts(size)
  {
    set i: nat | i < size && (StartOf(i) in p.completed
                              || (StartOf(i) in p.parts && i < Offset(p.parts[StartOf(i)])))
  }

  function Range(low: nat, high: nat): (r: set<nat>)
    requires low <= high
    ensures |r| == high - low
    ensures forall i: nat :: i in r <==> low <= i < high
    decreases high
  {
    if low == high then {} else Range(low, high - 1) + {high - 1}
  }

  lemma PassedBounded(size: nat, p: Process)
    requires p.Up? && p.parts.Keys == Starts(size)
    ensures |Passed(size, p)| <= size
    ensures AllDone(p.parts) && (forall start | start in p.parts && p.parts[start].Done? :: start in p.completed)
      ==> |Passed(size, p)| == size
  {
    var all := Range(0, size);
    assert all == Passed(size, p) + (all - Passed(size, p));
    if AllDone(p.parts) && forall start | start in p.parts && p.parts[start].Done? :: start in p.completed {
      forall i: nat | i < size
        ensures StartOf(i) in p.completed
      {
        StartOfPart(i, size);
      }
      assert all == Passed(size, p);
    }
  }

  ghost function Positions(starts: set<nat>, size: nat): set<nat> {
    set i: nat | i < size && StartOf(i) in starts
  }

  lemma PartSplits(starts: set<nat>, start: nat, size: nat)
    requires start in starts && IsStart(start, size)
    ensures |Positions(starts, size)| == End(start, size) - start + |Positions(starts - {start}, size)|
  {
    var part, rest := Range(start, End(start, size)), Positions(starts - {start}, size);
    forall i: nat
      ensures i in Positions(starts, size) <==> i in part + rest
      ensures !(i in part && i in rest)
    {
      if i < size {
        StartOfPart(i, size);
      }
    }
    assert Positions(starts, size) == part + rest && part !! rest;
  }

  /** The sum a run starts with is the number of positions in the recorded parts. */
  lemma {:induction false} SumCounts(starts: set<nat>, size: nat)
    requires forall start | start in starts :: IsStart(start, size)
    ensures Sum(starts, size) == |Positions(starts, size)|
  {
    if starts == {} {
      assert Positions(starts, size) == {};
    } else {
      var start :| start in starts && Sum(starts, size) == End(start, size) - start + Sum(starts - {start}, size);
      SumCounts(starts - {start}, size);
      assert IsStart(start, size);
      PartSplits(starts, start, size);
    }
  }

  /** A worker moving on passes exactly the positions it moves over. */
  lemma PassedGrows(size: nat, p: Process, p': Process, start: nat, low: nat, high: nat)
    requires p.Up? && p'.Up? && p.parts.Keys == p'.parts.Keys == Starts(size)
    requires start in p.parts && start !in p.completed && p'.completed == p.completed
    requires p' == p.(received := p'.received, parts := p.parts[start := p'.parts[start]])
    requires start <= low == Offset(p.parts[start]) <= high == Offset(p'.parts[start]) <= End(start, size)
    ensures |Passed(size, p')| == |Passed(size, p)| + (high - low)
  {
    var gained := Range(low, high);
    assert IsStart(start, size);
    forall i: nat
      ensures i in Passed(size, p') <==> i in Passed(size, p) + gained
      ensures !(i in gained && i in Passed(size, p))
    {
      if i < size {
        StartOfPart(i, size);
      }
    }
    assert Passed(size, p') == Passed(size, p) + gained && Passed(size, p) !! gained;
  }

  ghost predicate Counted(remote: Bytes, s: State, exact: bool)
    requires Inv(remote, s)
  {
    s.process.Up? ==>
      && s.process.received <= |Passed(|remote|, s.process)|
      && (exact ==> s.process.received == |Passed(|remote|, s.process)|)
  }

  /** `received` never runs ahead of the workers, and falls behind them only by lost writes. */
  lemma StepCounted(remote: Bytes, s: State, e: Event, s': State, exact: bool)
    requires Inv(remote, s) && Inv(remote, s') && Next(remote, s, e) == Some(s')
    requires Counted(remote, s, exact) && (exact ==> !e.LostWrite?)
    ensures Counted(remote, s', exact)
  {
    var size := |remote|;
    if e.Open? {
      SumCounts(Recorded(s'.disk.receipt), size);
      assert Passed(size, s'.process) == Positions(s'.process.completed, size);
    } else if IsPartEvent(e) {
      var p, p', start := s.process, s'.process, e.start;
      var archive := s.disk.archive.value;
      assert PhaseOk(remote, archive, start, p.parts[start], p.completed);
      assert PhaseOk(remote, s'.disk.archive.value, start, p'.parts[start], p'.completed);
      if e.Chunk? || e.LostWrite? {
        PassedGrows(size, p, p', start, Offset(p.parts[start]), Offset(p'.parts[start]));
      } else {
        PassedKept(remote, s, e, s');
      }
    }
  }

  lemma PassedKept(remote: Bytes, s: State, e: Event, s': State)
    requires Inv(remote, s) && Inv(remote, s') && Next(remote, s, e) == Some(s')
    requires IsPartEvent(e) && !e.Chunk? && !e.LostWrite?
    ensures Passed(|remote|, s'.process) == Passed(|remote|, s.process)
  {
    var p, p', size, start := s.process, s'.process, |remote|, e.start;
    assert PhaseOk(remote, s.disk.archive.value, start, p.parts[start], p.completed);
    assert IsStart(start, size);
    forall i: nat
      ensures i in Passed(size, p') <==> i in Passed(size, p)
    {
      if i < size {
        StartOfPart(i, size);
      }
    }
  }

  /******* Whole runs *******/

  /** The state after a history of acquisitions, crashes and restarts from an empty cache. */
  ghost function Replay(remote: Bytes, es: seq<Event>): Option<State> {
    if es == [] then Some(START)
    else match Replay(remote, es[..|es| - 1])
      case None => None
      case Some(s) => if ReceiptFits(remote, s) then Next(remote, s, es[|es| - 1]) else None
  }

  /** No local write fails over bytes that are not there yet, and no direct download replaces an archive
      whose receipt claims more. */
  ghost predicate Careful(remote: Bytes, es: seq<Event>) {
    es != [] ==>
      && Careful(remote, es[..|es| - 1])
      && match Replay(remote, es[..|es| - 1])
         case None => true
         case Some(s) => ReceiptFits(remote, s) ==> Harmless(remote, s, es[|es| - 1])
  }

  predicate WritesSucceed(es: seq<Event>) {
    forall e | e in es :: !e.LostWrite?
  }

  lemma {:induction false} ReplayInv(remote: Bytes, es: seq<Event>, s: State)
    requires Careful(remote, es) && Replay(remote, es) == Some(s)
    ensures Inv(remote, s) && Counted(remote, s, WritesSucceed(es))
    ensures s.delivered.Some? ==> s.delivered.value == remote
  {
    if es != [] {
      var front, e := es[..|es| - 1], es[|es| - 1];
      var prev := Replay(remote, front).value;
      ReplayInv(remote, front, prev);
      StepInv(remote, prev, e, s);
      assert WritesSucceed(es) ==> WritesSucceed(front) && !e.LostWrite?;
      StepCounted(remote, prev, e, s, WritesSucceed(es));
      if e.Unpack? {
        FinishedWhole(remote, prev);
      }
    }
  }

  /** When every worker has returned the archive is the remote file. */
  lemma FinishedWhole(remote: Bytes, s: State)
    requires Inv(remote, s) && s.process.Up? && AllDone(s.process.parts)
    ensures s.disk.archive == Some(remote)
  {
    var archive := s.disk.archive.value;
    forall i: nat | i < |remote|
      ensures archive[i] == remote[i]
    {
      StartOfPart(i, |remote|);
      var start := StartOf(i);
      assert PhaseOk(remote, archive, start, s.process.parts[start], s.process.completed);
      assert Holds(remote, archive, start, End(start, |remote|));
    }
    assert archive == remote;
  }

  /** A normal return of the range download, after any careful history of interleavings, retries,
      crashes and restarts: the archive is the remote file byte for byte, and the progress count has
      reached the size, short of it only by writes that failed. */
  lemma NormalReturn(remote: Bytes, es: seq<Event>, s: State)
    requires Careful(remote, es) && Replay(remote, es) == Some(s) && s.process.Up?
    ensures s.process.received <= |remote|
    ensures AllDone(s.process.parts) ==> s.disk.archive == Some(remote)
    ensures AllDone(s.process.parts) && WritesSucceed(es) ==> s.process.received == |remote|
  {
    ReplayInv(remote, es, s);
    PassedBounded(|remote|, s.process);
    if AllDone(s.process.parts) {
      FinishedWhole(remote, s);
      forall start | start in s.process.parts
        ensures start in s.process.completed
      {
        assert PhaseOk(remote, s.disk.archive.value, start, s.process.parts[start], s.process.completed);
      }
    }
  }

  /** With the artifact's digest known, nothing but the remote file is ever unpacked, careful or not. */
  lemma {:induction false} DigestGuards(remote: Bytes, es: seq<Event>, s: State)
    requires Replay(remote, es) == Some(s)
    requires forall e | e in es && e.Unpack? :: e.digest == Some(remote)
    ensures s.delivered.Some? ==> s.delivered.value == remote
  {
    if es != [] {
      DigestGuards(remote, es[..|es| - 1], Replay(remote, es[..|es| - 1]).value);
    }
  }

  /******* Exactly when only the remote file gets through *******/

  /** What can happen to an artifact: whether its digest is known, whether a local write may fail before
      the fourth attempt, and whether the server may answer directly. */
  datatype Env = Env(digest: bool, losses: bool, directs: bool)

  /** The event can happen there; a stream is read a buffer at a time. */
  predicate Suits(remote: Bytes, env: Env, s: State, e: Event) {
    match e
    case Chunk(_, length) => length <= BUFFER
    case LostWrite(start, length) =>
      && length <= BUFFER && s.process.Up? && start in s.process.parts && s.process.parts[start].Active?
      && (env.losses || s.process.parts[start].attempt + 1 >= ATTEMPTS)
    case Unpack(digest) => digest == if env.digest then Some(remote) else None
    case Direct(_) => env.directs
    case _ => true
  }

  /** A history that can happen. */
  ghost predicate Happens(remote: Bytes, env: Env, es: seq<Event>) {
    && Replay(remote, es).Some?
    && (es != [] ==>
      && Happens(remote, env, es[..|es| - 1])
      && Suits(remote, env, Replay(remote, es[..|es| - 1]).value, es[|es| - 1]))
  }

  predicate Blank(remote: Bytes) {
    forall b | b in remote :: b == 0
  }

  predicate EndsPart(i: nat, size: nat) {
    i + 1 == End(StartOf(i), size)
  }

  /** Every byte that is not zero is the last of its part. */
  predicate Spared(remote: Bytes) {
    forall i | 0 <= i < |remote| && !EndsPart(i, |remote|) :: remote[i] == 0
  }

  /** No history goes wrong: what can happen to the artifact does no harm to such a file. */
  predicate Immune(remote: Bytes, env: Env) {
    (env.losses ==> Spared(remote)) && (env.directs ==> Blank(remote))
  }

  ghost predicate DeliversRight(remote: Bytes, es: seq<Event>) {
    Replay(remote, es).Some? ==> var d := Replay(remote, es).value.delivered; d.Some? ==> d.value == remote
  }

  ghost predicate ReturnsRight(remote: Bytes, es: seq<Event>) {
    Replay(remote, es).Some? ==>
      var s := Replay(remote, es).value; s.process.Up? && AllDone(s.process.parts) ==> s.disk.archive == Some(remote)
  }

  lemma {:induction false} HarmlessHistory(remote: Bytes, env: Env, es: seq<Event>)
    requires Happens(remote, env, es) && !env.losses && !env.directs
    ensures Careful(remote, es)
  {
    if es != [] {
      HarmlessHistory(remote, env, es[..|es| - 1]);
    }
  }

  /** Whatever happens, a byte on disk or delivered is the remote's or zero. */
  ghost predicate Sparse(remote: Bytes, s: State) {
    && (s.disk.archive.Some? ==> SparseBytes(remote, s.disk.archive.value))
    && (s.process.Up? ==> s.disk.archive.Some? && |s.disk.archive.value| == |remote|)
    && (s.delivered.Some? ==> |s.delivered.value| == |remote| && SparseBytes(remote, s.delivered.value))
  }

  predicate SparseBytes(remote: Bytes, bytes: Bytes) {
    |bytes| <= |remote| && forall i | 0 <= i < |bytes| :: bytes[i] == remote[i] || bytes[i] == 0
  }

  lemma SpliceSparse(remote: Bytes, archive: Bytes, offset: nat, length: nat)
    requires SparseBytes(remote, archive) && |archive| == |remote| && offset + length <= |remote|
    ensures SparseBytes(remote, Splice(archive, offset, remote[offset..offset + length]))
  {
  }

  lemma StepSparse(remote: Bytes, s: State, e: Event, s': State)
    requires Sparse(remote, s) && ReceiptFits(remote, s) && Next(remote, s, e) == Some(s')
    ensures Sparse(remote, s')
  {
    if e.Chunk? {
      var phase := s.process.parts[e.start];
      SpliceSparse(remote, s.disk.archive.value, phase.offset, e.length);
    }
  }

  lemma {:induction false} AlwaysSparse(remote: Bytes, es: seq<Event>)
    requires Replay(remote, es).Some?
    ensures Sparse(remote, Replay(remote, es).value)
  {
    if es != [] {
      var front := es[..|es| - 1];
      AlwaysSparse(remote, front);
      StepSparse(remote, Replay(remote, front).value, es[|es| - 1], Replay(remote, es).value);
    }
  }

  lemma BlankIsRight(remote: Bytes, es: seq<Event>)
    requires Blank(remote)
    ensures DeliversRight(remote, es) && ReturnsRight(remote, es)
  {
    if Replay(remote, es).Some? {
      var s := Replay(remote, es).value;
      AlwaysSparse(remote, es);
      if s.delivered.Some? { BlankBytes(remote, s.delivered.value); }
      if s.process.Up? { BlankBytes(remote, s.disk.archive.value); }
    }
  }

  lemma BlankBytes(remote: Bytes, bytes: Bytes)
    requires Blank(remote) && SparseBytes(remote, bytes) && |bytes| == |remote|
    ensures bytes == remote
  {
    assert forall i | 0 <= i < |remote| :: remote[i] in remote;
  }

  /** A history and the state it leaves. */
  datatype Story = Story(es: seq<Event>, s: State)

  function Losses(es: seq<Event>): nat {
    if es == [] then 0 else Losses(es[..|es| - 1]) + if es[|es| - 1].LostWrite? then 1 else 0
  }

  ghost predicate Told(remote: Bytes, env: Env, t: Story) {
    Happens(remote, env, t.es) && Replay(remote, t.es) == Some(t.s) && ReceiptFits(remote, t.s)
  }

  lemma Tell(remote: Bytes, env: Env, t: Story, e: Event, s': State) returns (u: Story)
    requires Told(remote, env, t) && Suits(remote, env, t.s, e)
    requires Next(remote, t.s, e) == Some(s') && ReceiptFits(remote, s')
    ensures u == Story(t.es + [e], s') && Told(remote, env, u)
    ensures Losses(u.es) == Losses(t.es) + if e.LostWrite? then 1 else 0
  {
    u := Story(t.es + [e], s');
    assert u.es[..|t.es|] == t.es;
  }

  /** An open download; no worker holds the lock. */
  ghost predicate Running(remote: Bytes, s: State) {
    && s.process.Up? && s.disk.archive.Some? && |s.disk.archive.value| == |remote|
    && s.process.parts.Keys == Starts(|remote|) && s.process.completed <= Starts(|remote|)
    && LockFree(s.process.parts)
  }

  /** The stream of a part up to a byte, a buffer at a time. */
  lemma {:induction false} StreamTo(remote: Bytes, env: Env, t: Story, start: nat, upTo: nat) returns (u: Story)
    requires Told(remote, env, t) && Running(remote, t.s) && start in t.s.process.parts
    requires t.s.process.parts[start].Active? && t.s.process.parts[start].offset <= upTo <= End(start, |remote|)
    ensures Told(remote, env, u) && StreamedTo(remote, t.s, start, upTo, u.s) && Losses(u.es) == Losses(t.es)
    ensures t.es <= u.es
    decreases upTo - t.s.process.parts[start].offset
  {
    var phase := t.s.process.parts[start];
    if phase.offset == upTo {
      u := t;
    } else {
      var length := if upTo - phase.offset < BUFFER then upTo - phase.offset else BUFFER;
      var s' := OneChunk(remote, t.s, start, length);
      var v := Tell(remote, env, t, Chunk(start, length), s');
      u := StreamTo(remote, env, v, start, upTo);
    }
  }

  /** The part is on disk from where its worker was up to a byte, and nothing else has changed. */
  ghost predicate StreamedTo(remote: Bytes, s: State, start: nat, upTo: nat, s': State)
    requires Running(remote, s) && start in s.process.parts && s.process.parts[start].Active?
  {
    && Running(remote, s')
    && s'.process.parts == s.process.parts[start := Active(upTo, s.process.parts[start].attempt)]
    && s'.process.completed == s.process.completed && s'.disk.receipt == s.disk.receipt && s'.delivered == s.delivered
    && forall i: nat | i < |remote| ::
      s'.disk.archive.value[i]
        == if s.process.parts[start].offset <= i < upTo then remote[i] else s.disk.archive.value[i]
  }

  lemma OneChunk(remote: Bytes, s: State, start: nat, length: nat) returns (s': State)
    requires Running(remote, s) && ReceiptFits(remote, s) && start in s.process.parts && s.process.parts[start].Active?
    requires 0 < length && s.process.parts[start].offset + length <= End(start, |remote|)
    ensures Next(remote, s, Chunk(start, length)) == Some(s') && ReceiptFits(remote, s')
    ensures StreamedTo(remote, s, start, s.process.parts[start].offset + length, s')
  {
    assert IsStart(start, |remote|);
    s' := Next(remote, s, Chunk(start, length)).value;
  }

  /** A worker at the end of its part records it. */
  lemma EndPart(remote: Bytes, env: Env, t: Story, start: nat) returns (u: Story)
    requires Told(remote, env, t) && Running(remote, t.s) && start in t.s.process.parts
    requires t.s.process.parts[start].Active? && t.s.process.parts[start].offset == End(start, |remote|)
    ensures Told(remote, env, u) && Running(remote, u.s) && Losses(u.es) == Losses(t.es)
    ensures u.s.process.parts == t.s.process.parts[start := Done] && u.s.disk.archive == t.s.disk.archive
    ensures u.s.disk.receipt == Some(t.s.process.completed + {start}) && u.s.delivered == t.s.delivered
    ensures u.s.process.completed == t.s.process.completed + {start} && t.es <= u.es
  {
    var s1 := Next(remote, t.s, StreamEnd(start)).value;
    var v := Tell(remote, env, t, StreamEnd(start), s1);
    var s2 := Next(remote, s1, Replace(start)).value;
    forall p | p in Recorded(s2.disk.receipt)
      ensures IsStart(p, |remote|)
    {
      assert p in Starts(|remote|);
    }
    u := Tell(remote, env, v, Replace(start), s2);
    assert u.s.process.parts == t.s.process.parts[start := Done];
  }

  /** A part nobody has begun is served; the bytes of finished parts stay what they are. */
  lemma ServePart(remote: Bytes, env: Env, t: Story, start: nat) returns (u: Story)
    requires Told(remote, env, t) && Running(remote, t.s) && start in t.s.process.parts && t.s.process.parts[start].Waiting?
    ensures Told(remote, env, u) && Running(remote, u.s) && Losses(u.es) == Losses(t.es)
    ensures u.s.process.parts == t.s.process.parts[start := Done] && u.s.delivered == t.s.delivered
    ensures forall i: nat | i < |remote| && (!InPart(i, start, |remote|) || start in t.s.process.completed) ::
      u.s.disk.archive.value[i] == t.s.disk.archive.value[i]
    ensures t.s.process.completed <= u.s.process.completed && start in u.s.process.completed
    ensures start !in t.s.process.completed ==> u.s.disk.receipt == Some(u.s.process.completed)
    ensures t.es <= u.es
  {
    var s1 := Next(remote, t.s, Begin(start)).value;
    var v := Tell(remote, env, t, Begin(start), s1);
    if start in t.s.process.completed {
      u := v;
    } else {
      assert IsStart(start, |remote|);
      v := StreamTo(remote, env, v, start, End(start, |remote|));
      u := EndPart(remote, env, v, start);
    }
  }

  function Unserved(s: State): set<nat>
    requires s.process.Up?
  {
    set p | p in s.process.parts && s.process.parts[p].Waiting?
  }

  predicate Settles(parts: map<nat, Phase>) {
    forall p | p in parts :: parts[p].Waiting? || parts[p].Done?
  }

  /** All other parts are served; byte j stays what it is if its part is finished, or recorded so. */
  lemma {:induction false} ServeAll(remote: Bytes, env: Env, t: Story, j: nat) returns (u: Story)
    requires Told(remote, env, t) && Running(remote, t.s) && Settles(t.s.process.parts) && j < |remote|
    ensures Told(remote, env, u) && Running(remote, u.s) && AllDone(u.s.process.parts) && Losses(u.es) == Losses(t.es)
    ensures StartOf(j) in t.s.process.completed ==> u.s.disk.archive.value[j] == t.s.disk.archive.value[j]
    ensures u.s.delivered == t.s.delivered && t.es <= u.es
    decreases |Unserved(t.s)|
  {
    if Unserved(t.s) == {} {
      u := t;
      assert forall p | p in t.s.process.parts :: t.s.process.parts[p].Waiting? ==> p in Unserved(t.s);
    } else {
      var p :| p in Unserved(t.s);
      var v := ServePart(remote, env, t, p);
      assert Unserved(v.s) == Unserved(t.s) - {p};
      StartOfPart(j, |remote|);
      assert IsStart(p, |remote|);
      u := ServeAll(remote, env, v, j);
    }
  }

  /** Opening an empty or cut archive, whatever its receipt says. */
  lemma OpenZeros(remote: Bytes, env: Env, t: Story) returns (u: Story)
    requires Told(remote, env, t) && Ranged(|remote|) && t.s.process.Down?
    requires t.s.disk.archive == None || t.s.disk.archive == Some([])
    ensures Told(remote, env, u) && Running(remote, u.s) && Losses(u.es) == Losses(t.es) && u.s.delivered == t.s.delivered
    ensures forall i: nat | i < |remote| :: u.s.disk.archive.value[i] == 0
    ensures forall p | p in u.s.process.parts :: u.s.process.parts[p].Waiting?
    ensures u.s.process.completed == if t.s.disk.archive.None? then {} else Recorded(t.s.disk.receipt)
  {
    var s1 := Next(remote, t.s, Open).value;
    forall p | p in s1.process.completed
      ensures p in Starts(|remote|)
    {
      assert IsStart(p, |remote|);
    }
    u := Tell(remote, env, t, Open, s1);
  }

  lemma Beginning(remote: Bytes, env: Env) returns (t: Story)
    ensures Told(remote, env, t) && t.s == START && Losses(t.es) == 0
  {
    t := Story([], START);
  }

  /** The next byte is received, and its write fails; it is not the last of the part. */
  lemma LoseByte(remote: Bytes, env: Env, t: Story, start: nat) returns (u: Story)
    requires Told(remote, env, t) && Running(remote, t.s) && env.losses && start in t.s.process.parts
    requires t.s.process.parts[start].Active? && t.s.process.parts[start].attempt == 0
    requires t.s.process.parts[start].offset + 1 < End(start, |remote|)
    ensures Told(remote, env, u) && Running(remote, u.s) && Losses(u.es) == Losses(t.es) + 1
    ensures u.s.process.parts == t.s.process.parts[start := Active(t.s.process.parts[start].offset + 1, 1)]
    ensures u.s.disk == t.s.disk && u.s.process.completed == t.s.process.completed
  {
    u := Tell(remote, env, t, LostWrite(start, 1), Next(remote, t.s, LostWrite(start, 1)).value);
  }

  /** The download stops, and a direct answer empties the archive and breaks off. */
  lemma CutShort(remote: Bytes, env: Env, t: Story) returns (u: Story)
    requires Told(remote, env, t) && Running(remote, t.s) && env.directs && Accepted(|remote|)
    ensures Told(remote, env, u) && u.s.process.Down? && Losses(u.es) == Losses(t.es)
    ensures u.s.disk == Disk(Some([]), t.s.disk.receipt)
  {
    var stop := Stop(t.s.disk.archive.value);
    u := Tell(remote, env, t, stop, Next(remote, t.s, stop).value);
    u := Tell(remote, env, u, Direct(0), Next(remote, u.s, Direct(0)).value);
  }

  /** One lost write, of one byte that is not zero and not the last of its part, and every worker returns
      over a wrong archive. */
  lemma LossReturns(remote: Bytes, env: Env, j: nat) returns (t: Story)
    requires Ranged(|remote|) && env.losses && j < |remote| && remote[j] != 0 && !EndsPart(j, |remote|)
    ensures Told(remote, env, t) && Running(remote, t.s) && AllDone(t.s.process.parts) && Losses(t.es) == 1
    ensures t.s.disk.archive.value[j] == 0
  {
    var start := StartOf(j);
    StartOfPart(j, |remote|);
    t := Beginning(remote, env);
    t := OpenZeros(remote, env, t);
    t := Tell(remote, env, t, Begin(start), Next(remote, t.s, Begin(start)).value);
    t := StreamTo(remote, env, t, start, j);
    t := LoseByte(remote, env, t, start);
    t := StreamTo(remote, env, t, start, End(start, |remote|));
    t := EndPart(remote, env, t, start);
    t := ServeAll(remote, env, t, j);
  }

  /** A part is recorded, a direct answer cuts the archive and breaks off, and the next ranges trust the
      receipt: every worker returns over a wrong archive. No write is lost. */
  lemma DirectReturns(remote: Bytes, env: Env, j: nat) returns (t: Story)
    requires Ranged(|remote|) && env.directs && j < |remote| && remote[j] != 0
    ensures Told(remote, env, t) && Running(remote, t.s) && AllDone(t.s.process.parts) && Losses(t.es) == 0
    ensures t.s.disk.archive.value[j] == 0
  {
    var start := StartOf(j);
    StartOfPart(j, |remote|);
    t := Beginning(remote, env);
    t := OpenZeros(remote, env, t);
    t := ServePart(remote, env, t, start);
    t := CutShort(remote, env, t);
    t := OpenZeros(remote, env, t);
    t := ServeAll(remote, env, t, j);
  }

  /** Without a digest to compare, the wrong archive is unpacked. */
  lemma WrongIsUnpacked(remote: Bytes, env: Env, t: Story, j: nat) returns (u: Story)
    requires Told(remote, env, t) && Running(remote, t.s) && AllDone(t.s.process.parts) && !env.digest
    requires j < |remote| && t.s.disk.archive.value[j] != remote[j]
    ensures Told(remote, env, u) && Losses(u.es) == Losses(t.es) && u.s.delivered == t.s.disk.archive
    ensures !DeliversRight(remote, u.es)
  {
    u := Tell(remote, env, t, Unpack(None), Next(remote, t.s, Unpack(None)).value);
  }

  lemma NotBlank(remote: Bytes) returns (j: nat)
    requires !Blank(remote)
    ensures j < |remote| && remote[j] != 0
  {
    var b :| b in remote && b != 0;
    j :| 0 <= j < |remote| && remote[j] == b;
  }

  lemma NotSpared(remote: Bytes) returns (j: nat)
    requires !Spared(remote)
    ensures j < |remote| && remote[j] != 0 && !EndsPart(j, |remote|)
  {
    j :| 0 <= j < |remote| && !EndsPart(j, |remote|) && remote[j] != 0;
  }

  /** A history in which every worker returns over a wrong archive, where that can happen. */
  lemma SomethingReturns(remote: Bytes, env: Env) returns (t: Story, j: nat)
    requires Ranged(|remote|) && !Immune(remote, env)
    ensures Told(remote, env, t) && Running(remote, t.s) && AllDone(t.s.process.parts)
    ensures j < |remote| && t.s.disk.archive.value[j] != remote[j]
  {
    if env.directs && !Blank(remote) {
      j := NotBlank(remote);
      t := DirectReturns(remote, env, j);
    } else {
      j := NotSpared(remote);
      t := LossReturns(remote, env, j);
    }
  }

  /******* The last byte of a part is never lost *******/

  predicate LastHolds(remote: Bytes, archive: Bytes, start: nat) {
    IsStart(start, |remote|) && |archive| == |remote|
      && archive[End(start, |remote|) - 1] == remote[End(start, |remote|) - 1]
  }

  predicate LastOk(remote: Bytes, archive: Bytes, start: nat, phase: Phase, completed: set<nat>) {
    match phase
    case Active(offset, _) => 
      start <= offset <= End(start, |remote|) && (offset == End(start, |remote|) ==> LastHolds(remote, archive, start))
    case Beyond(offset, _) => offset == End(start, |remote|)
    case Saving(_) => start in completed
    case Done => start in completed
    case _ => true
  }

  /** Without direct answers: the last byte of every finished or recorded part is the remote's. */
  ghost predicate Capped(remote: Bytes, s: State) {
    && (s.disk.archive.Some? ==> |s.disk.archive.value| == |remote|)
    && (forall start | start in Recorded(s.disk.receipt) && s.disk.archive.Some? ::
      LastHolds(remote, s.disk.archive.value, start))
    && (s.process.Up? ==> CappedParts(remote, s))
  }

  ghost predicate CappedParts(remote: Bytes, s: State)
    requires s.process.Up?
  {
    && s.disk.archive.Some? && s.process.parts.Keys == Starts(|remote|)
    && s.process.tmp <= s.process.completed
    && (forall start | start in s.process.completed :: LastHolds(remote, s.disk.archive.value, start))
    && forall start | start in s.process.parts ::
      LastOk(remote, s.disk.archive.value, start, s.process.parts[start], s.process.completed)
  }

  /** Writing remote bytes keeps every last byte, and one that reaches the end of a part writes its last. */
  lemma SpliceCaps(remote: Bytes, archive: Bytes, offset: nat, length: nat, start: nat)
    requires 0 < length && offset + length <= |remote| == |archive| && IsStart(start, |remote|)
    ensures var after := Splice(archive, offset, remote[offset..offset + length]);
      && (LastHolds(remote, archive, start) ==> LastHolds(remote, after, start))
      && (offset + length == End(start, |remote|) ==> LastHolds(remote, after, start))
  {
  }

  lemma ChunkCaps(remote: Bytes, s: State, start: nat, length: nat, s': State)
    requires Capped(remote, s) && ReceiptFits(remote, s) && Next(remote, s, Chunk(start, length)) == Some(s')
    ensures Capped(remote, s')
  {
    var archive, offset := s.disk.archive.value, s.process.parts[start].offset;
    forall p | p in Starts(|remote|)
      ensures LastHolds(remote, archive, p) ==> LastHolds(remote, s'.disk.archive.value, p)
      ensures LastOk(remote, s'.disk.archive.value, p, s'.process.parts[p], s'.process.completed)
    {
      assert LastOk(remote, archive, p, s.process.parts[p], s.process.completed);
      SpliceCaps(remote, archive, offset, length, p);
    }
  }

  /** The worker that steps keeps its own part's promise, over an archive that does not change. */
  lemma WorkerCaps(remote: Bytes, s: State, e: Event, s': State)
    requires s.process.Up? && s.disk.archive.Some? && |s.disk.archive.value| == |remote|
    requires IsPartEvent(e) && !e.Chunk? && e.start in s.process.parts && PartStep(remote, s, e) == Some(s')
    requires IsStart(e.start, |remote|)
    requires LastOk(remote, s.disk.archive.value, e.start, s.process.parts[e.start], s.process.completed)
    ensures LastOk(remote, s.disk.archive.value, e.start, s'.process.parts[e.start], s'.process.completed)
    ensures s'.disk.archive == s.disk.archive && s.process.completed <= s'.process.completed
    ensures s'.process.completed <= s.process.completed + {e.start}
    ensures e.start in s'.process.completed - s.process.completed ==> e.StreamEnd?
  {
  }

  lemma EndCaps(remote: Bytes, s: State, start: nat, s': State)
    requires s.process.Up? && s.disk.archive.Some? && |s.disk.archive.value| == |remote| && start in s.process.parts
    requires PartStep(remote, s, StreamEnd(start)) == Some(s') && start in s'.process.completed - s.process.completed
    requires LastOk(remote, s.disk.archive.value, start, s.process.parts[start], s.process.completed)
    ensures LastHolds(remote, s.disk.archive.value, start)
  {
  }

  lemma OthersKept(remote: Bytes, s: State, e: Event, s': State, p: nat)
    requires s.process.Up? && s.disk.archive.Some? && |s.disk.archive.value| == |remote|
    requires IsPartEvent(e) && e.start in s.process.parts && PartStep(remote, s, e) == Some(s')
    requires p in s'.process.parts && p != e.start
    ensures p in s.process.parts && s'.process.parts[p] == s.process.parts[p]
  {
  }

  lemma PartCaps(remote: Bytes, s: State, e: Event, s': State)
    requires Capped(remote, s) && ReceiptFits(remote, s) && IsPartEvent(e) && !e.Chunk? && Next(remote, s, e) == Some(s')
    ensures Capped(remote, s')
  {
    var archive := s.disk.archive.value;
    assert IsStart(e.start, |remote|);
    WorkerCaps(remote, s, e, s');
    if e.start in s'.process.completed - s.process.completed {
      EndCaps(remote, s, e.start, s');
    }
    forall p | p in s'.process.parts
      ensures LastOk(remote, archive, p, s'.process.parts[p], s'.process.completed)
    {
      if p != e.start {
        OthersKept(remote, s, e, s', p);
        assert LastOk(remote, archive, p, s.process.parts[p], s.process.completed);
      }
    }
  }

  lemma OpenCaps(remote: Bytes, s: State, s': State)
    requires Capped(remote, s) && ReceiptFits(remote, s) && Next(remote, s, Open) == Some(s')
    ensures Capped(remote, s')
  {
    forall start | start in Recorded(s'.disk.receipt)
      ensures LastHolds(remote, s'.disk.archive.value, start)
    {
      assert LastHolds(remote, s.disk.archive.value, start);
    }
    forall start | start in s'.process.parts
      ensures LastOk(remote, s'.disk.archive.value, start, s'.process.parts[start], s'.process.completed)
    {
      assert s'.process.parts[start] == Waiting;
    }
  }

  lemma StopCaps(remote: Bytes, s: State, torn: Bytes, s': State)
    requires Capped(remote, s) && ReceiptFits(remote, s) && Next(remote, s, Stop(torn)) == Some(s')
    ensures Capped(remote, s')
  {
    if s.disk.archive.Some? {
      forall start | start in Recorded(s.disk.receipt)
        ensures LastHolds(remote, torn, start)
      {
        assert LastHolds(remote, s.disk.archive.value, start);
        assert InPart(End(start, |remote|) - 1, start, |remote|);
      }
    }
  }

  lemma StepCaps(remote: Bytes, s: State, e: Event, s': State)
    requires Capped(remote, s) && ReceiptFits(remote, s) && !e.Direct? && Next(remote, s, e) == Some(s')
    ensures Capped(remote, s')
  {
    if e.Chunk? {
      ChunkCaps(remote, s, e.start, e.length, s');
    } else if IsPartEvent(e) {
      PartCaps(remote, s, e, s');
    } else if e.Open? {
      OpenCaps(remote, s, s');
    } else if e.Stop? {
      StopCaps(remote, s, e.torn, s');
    }
  }

  lemma {:induction false} AlwaysCapped(remote: Bytes, env: Env, es: seq<Event>)
    requires Happens(remote, env, es) && !env.directs
    ensures Capped(remote, Replay(remote, es).value)
  {
    if es != [] {
      var front := es[..|es| - 1];
      AlwaysCapped(remote, env, front);
      StepCaps(remote, Replay(remote, front).value, es[|es| - 1], Replay(remote, es).value);
    }
  }

  lemma SparedWhole(remote: Bytes, s: State)
    requires Spared(remote) && Sparse(remote, s) && Capped(remote, s) && s.process.Up? && AllDone(s.process.parts)
    ensures s.disk.archive == Some(remote)
  {
    var archive := s.disk.archive.value;
    forall i: nat | i < |remote|
      ensures archive[i] == remote[i]
    {
      StartOfPart(i, |remote|);
      if EndsPart(i, |remote|) {
        assert StartOf(i) in s.process.parts && s.process.parts[StartOf(i)].Done?;
        assert LastOk(remote, archive, StartOf(i), s.process.parts[StartOf(i)], s.process.completed);
        assert LastHolds(remote, archive, StartOf(i));
      }
    }
    assert archive == remote;
  }

  /** A file that is spared: whatever is lost, what is unpacked is right, and so is a normal return. */
  lemma {:induction false} SparedIsRight(remote: Bytes, env: Env, es: seq<Event>)
    requires Happens(remote, env, es) && !env.directs && Spared(remote)
    ensures DeliversRight(remote, es) && ReturnsRight(remote, es)
  {
    var s := Replay(remote, es).value;
    AlwaysSparse(remote, es);
    AlwaysCapped(remote, env, es);
    if s.process.Up? && AllDone(s.process.parts) {
      SparedWhole(remote, s);
    }
    if es != [] {
      var front, e := es[..|es| - 1], es[|es| - 1];
      SparedIsRight(remote, env, front);
      if e.Unpack? {
        assert ReturnsRight(remote, front);
      }
    }
  }

  /** For every remote file of a size that is downloaded in ranges: in every history every worker's return
      means the right archive, if and only if no write can be lost before the fourth attempt, or every byte
      that is not zero is the last of its part, and no answer can be direct, or the file is all zeros. */
  lemma ReturnsIff(remote: Bytes, env: Env)
    requires Ranged(|remote|)
    ensures (forall es | Happens(remote, env, es) :: ReturnsRight(remote, es)) <==> Immune(remote, env)
  {
    if Immune(remote, env) {
      forall es | Happens(remote, env, es)
        ensures ReturnsRight(remote, es)
      {
        RightHistory(remote, env, es);
      }
    } else {
      var t, j := SomethingReturns(remote, env);
      assert Happens(remote, env, t.es) && !ReturnsRight(remote, t.es);
    }
  }

  lemma RightHistory(remote: Bytes, env: Env, es: seq<Event>)
    requires Happens(remote, env, es) && Immune(remote, env)
    ensures ReturnsRight(remote, es) && DeliversRight(remote, es)
  {
    if env.directs {
      BlankIsRight(remote, es);
    } else if env.losses {
      SparedIsRight(remote, env, es);
    } else {
      var s := Replay(remote, es).value;
      HarmlessHistory(remote, env, es);
      ReplayInv(remote, es, s);
      if s.process.Up? && AllDone(s.process.parts) {
        FinishedWhole(remote, s);
      }
    }
  }

  lemma {:induction false} DigestKnown(remote: Bytes, env: Env, es: seq<Event>)
    requires Happens(remote, env, es) && env.digest
    ensures forall e | e in es && e.Unpack? :: e.digest == Some(remote)
  {
    if es != [] {
      DigestKnown(remote, env, es[..|es| - 1]);
      assert es == es[..|es| - 1] + [es[|es| - 1]];
    }
  }

  /** And only the remote file is ever unpacked, if and only if the digest is known or that holds. */
  lemma DeliversIff(remote: Bytes, env: Env)
    requires Ranged(|remote|)
    ensures (forall es | Happens(remote, env, es) :: DeliversRight(remote, es)) <==> env.digest || Immune(remote, env)
  {
    if env.digest || Immune(remote, env) {
      forall es | Happens(remote, env, es)
        ensures DeliversRight(remote, es)
      {
        if env.digest {
          DigestKnown(remote, env, es);
          DigestGuards(remote, es, Replay(remote, es).value);
        } else {
          RightHistory(remote, env, es);
        }
      }
    } else {
      var t, j := SomethingReturns(remote, env);
      var u := WrongIsUnpacked(remote, env, t, j);
      assert Happens(remote, env, u.es) && !DeliversRight(remote, u.es);
    }
  }

  /** With no digest, one single lost write has a wrong file unpacked, whatever the file, if a byte that is
      not zero is not the last of its part. */
  lemma LostWriteCorrupts(remote: Bytes) returns (t: Story)
    requires Ranged(|remote|) && !Spared(remote)
    ensures Happens(remote, Env(false, true, false), t.es) && Losses(t.es) == 1 && !DeliversRight(remote, t.es)
  {
    var j := NotSpared(remote);
    t := LossReturns(remote, Env(false, true, false), j);
    t := WrongIsUnpacked(remote, Env(false, true, false), t, j);
  }

  /** So has one direct answer, with no write lost, if any byte is not zero. */
  lemma DirectCorrupts(remote: Bytes) returns (t: Story)
    requires Ranged(|remote|) && !Blank(remote)
    ensures Happens(remote, Env(false, false, true), t.es) && Losses(t.es) == 0 && !DeliversRight(remote, t.es)
  {
    var j := NotBlank(remote);
    t := DirectReturns(remote, Env(false, false, true), j);
    t := WrongIsUnpacked(remote, Env(false, false, true), t, j);
  }

  /******* The right file does get through *******/

  /** A run goes on to be unpacked exactly when every worker has returned, and what is unpacked is the archive
      if no digest is known or it is the archive's; otherwise nothing is. */
  lemma UnpackedIff(remote: Bytes, es: seq<Event>, digest: Option<Bytes>)
    requires Replay(remote, es).Some? && ReceiptFits(remote, Replay(remote, es).value)
    requires Replay(remote, es).value.process.Up? && Replay(remote, es).value.disk.archive.Some?
    ensures var s, after := Replay(remote, es).value, Replay(remote, es + [Unpack(digest)]);
      && (after.Some? <==> AllDone(s.process.parts))
      && (after.Some? && (digest == None || digest == s.disk.archive) ==> after.value.delivered == s.disk.archive)
      && (after.Some? && digest != None && digest != s.disk.archive ==> after.value.delivered == s.delivered)
  {
    assert (es + [Unpack(digest)])[..|es|] == es;
  }

  predicate NoDirect(es: seq<Event>) {
    forall e | e in es :: !e.Direct?
  }

  function Mild(env: Env): Env {
    Env(env.digest, false, false)
  }

  lemma {:induction false} HappensMildly(remote: Bytes, env: Env, es: seq<Event>)
    requires Happens(remote, env, es) && Losses(es) == 0 && NoDirect(es)
    ensures Happens(remote, Mild(env), es)
  {
    if es != [] {
      assert es[|es| - 1] in es && forall e | e in es[..|es| - 1] :: e in es;
      HappensMildly(remote, env, es[..|es| - 1]);
    }
  }

  lemma {:induction false} MildHappens(remote: Bytes, env: Env, es: seq<Event>)
    requires Happens(remote, Mild(env), es)
    ensures Happens(remote, env, es)
  {
    if es != [] {
      MildHappens(remote, env, es[..|es| - 1]);
    }
  }

  /** A download that was stopped is opened again over what it left. */
  lemma Reopened(remote: Bytes, env: Env, t: Story) returns (u: Story)
    requires Told(remote, env, t) && Ranged(|remote|) && t.s.process.Down?
    requires t.s.disk.archive.Some? ==> |t.s.disk.archive.value| <= |remote|
    ensures Told(remote, env, u) && Running(remote, u.s) && t.es <= u.es && u.s.delivered == t.s.delivered
    ensures forall p | p in u.s.process.parts :: u.s.process.parts[p].Waiting?
  {
    var s1 := Next(remote, t.s, Open).value;
    forall p | p in s1.process.completed
      ensures p in Starts(|remote|)
    {
      assert IsStart(p, |remote|);
    }
    u := Tell(remote, env, t, Open, s1);
  }

  lemma MildUnpacks(remote: Bytes, env: Env, t: Story) returns (u: Story)
    requires Told(remote, env, t) && Running(remote, t.s) && AllDone(t.s.process.parts) && !env.losses && !env.directs
    ensures Told(remote, env, u) && t.es <= u.es && u.s.delivered == Some(remote)
  {
    HarmlessHistory(remote, env, t.es);
    ReplayInv(remote, t.es, t.s);
    FinishedWhole(remote, t.s);
    var digest := if env.digest then Some(remote) else None;
    u := Tell(remote, env, t, Unpack(digest), Next(remote, t.s, Unpack(digest)).value);
  }

  /** From a download that is down, without lost writes or direct answers, to the remote file unpacked. */
  lemma DownDelivers(remote: Bytes, env: Env, t: Story) returns (u: Story)
    requires Told(remote, env, t) && Ranged(|remote|) && t.s.process.Down? && !env.losses && !env.directs
    ensures Told(remote, env, u) && t.es <= u.es && u.s.delivered == Some(remote)
  {
    AlwaysSparse(remote, t.es);
    var v := Reopened(remote, env, t);
    v := ServeAll(remote, env, v, 0);
    u := MildUnpacks(remote, env, v);
  }

  /** For every file of a ranged size, whatever can happen, there is a history that delivers exactly it. */
  lemma SomeHistoryDelivers(remote: Bytes, env: Env) returns (es: seq<Event>)
    requires Ranged(|remote|)
    ensures Happens(remote, env, es) && Replay(remote, es).value.delivered == Some(remote)
  {
    var t := Beginning(remote, Mild(env));
    var u := DownDelivers(remote, Mild(env), t);
    MildHappens(remote, env, u.es);
    es := u.es;
  }

  /** From every open download, however its workers stand, in whose history no write was lost and no answer
      was direct, some continuation delivers exactly the remote file. */
  lemma OpenDelivers(remote: Bytes, env: Env, es: seq<Event>) returns (more: seq<Event>)
    requires Ranged(|remote|) && Happens(remote, env, es) && Losses(es) == 0 && NoDirect(es)
    requires Replay(remote, es).value.process.Up?
    ensures Happens(remote, env, es + more) && Replay(remote, es + more).value.delivered == Some(remote)
  {
    var mild, s := Mild(env), Replay(remote, es).value;
    HappensMildly(remote, env, es);
    HarmlessHistory(remote, mild, es);
    ReplayInv(remote, es, s);
    var t := Story(es, s);
    var stop := Stop(s.disk.archive.value);
    t := Tell(remote, mild, t, stop, Next(remote, s, stop).value);
    var u := DownDelivers(remote, mild, t);
    MildHappens(remote, env, u.es);
    more := u.es[|es|..];
    assert es + more == u.es;
  }

  /******* Whatever went wrong before *******/

  /** Only starts of parts are worked on or recorded. */
  ghost predicate Sane(remote: Bytes, s: State) {
    && ReceiptFits(remote, s)
    && (s.process.Up? ==> forall start | start in s.process.completed || start in s.process.tmp || start in s.process.parts ::
      IsStart(start, |remote|))
  }

  lemma StepSane(remote: Bytes, s: State, e: Event)
    requires Sane(remote, s) && Next(remote, s, e).Some?
    ensures Sane(remote, Next(remote, s, e).value)
  {
  }

  lemma {:induction false} AlwaysSane(remote: Bytes, es: seq<Event>)
    requires Replay(remote, es).Some?
    ensures Sane(remote, Replay(remote, es).value)
  {
    if es != [] {
      AlwaysSane(remote, es[..|es| - 1]);
      StepSane(remote, Replay(remote, es[..|es| - 1]).value, es[|es| - 1]);
    }
  }

  /** The state, but for a file handed on earlier if none was since. */
  function Since(s: State, earlier: Option<Bytes>): State {
    s.(delivered := if s.delivered.None? then earlier else s.delivered)
  }

  lemma NextSince(remote: Bytes, s: State, e: Event, earlier: Option<Bytes>)
    requires ReceiptFits(remote, s) && Next(remote, s, e).Some?
    ensures Next(remote, Since(s, earlier), e) == Some(Since(Next(remote, s, e).value, earlier))
  {
  }

  /** A history that leaves nothing on disk can be followed by any other. */
  lemma {:induction false} Resumes(remote: Bytes, env: Env, es: seq<Event>, more: seq<Event>)
    requires Happens(remote, env, es) && Happens(remote, env, more)
    requires var s := Replay(remote, es).value; s.disk == Disk(None, None) && s.process.Down?
    ensures Happens(remote, env, es + more)
    ensures Replay(remote, es + more) == Some(Since(Replay(remote, more).value, Replay(remote, es).value.delivered))
  {
    if more == [] {
      assert es + more == es;
    } else {
      var front, e, earlier := more[..|more| - 1], more[|more| - 1], Replay(remote, es).value.delivered;
      Resumes(remote, env, es, front);
      assert (es + more)[..|es + more| - 1] == es + front && (es + more)[|es + more| - 1] == e;
      AlwaysSane(remote, front);
      NextSince(remote, Replay(remote, front).value, e, earlier);
    }
  }

  /** A run that is stopped, opened again and served to its end. */
  lemma ServedAgain(remote: Bytes, env: Env, t: Story) returns (u: Story)
    requires Told(remote, env, t) && Ranged(|remote|)
    ensures Told(remote, env, u) && t.es <= u.es && Running(remote, u.s) && AllDone(u.s.process.parts)
  {
    AlwaysSparse(remote, t.es);
    var stop := Stop(if t.s.disk.archive.Some? then t.s.disk.archive.value else []);
    var v := Tell(remote, env, t, stop, Next(remote, t.s, stop).value);
    v := Reopened(remote, env, v);
    u := ServeAll(remote, env, v, 0);
  }

  /** And so it is from every state any history leaves, with writes lost, answers direct and wrong files
      handed on before: some continuation delivers exactly the remote file. */
  lemma AlwaysRecovers(remote: Bytes, env: Env, es: seq<Event>) returns (more: seq<Event>)
    requires Ranged(|remote|) && Happens(remote, env, es)
    ensures Happens(remote, env, es + more) && Replay(remote, es + more).value.delivered == Some(remote)
  {
    AlwaysSane(remote, es);
    var t := ServedAgain(remote, env, Story(es, Replay(remote, es).value));
    var unpack := Unpack(if env.digest then Some(remote) else None);
    var u := Tell(remote, env, t, unpack, Next(remote, t.s, unpack).value);
    var v := Tell(remote, env, u, Clear, Next(remote, u.s, Clear).value);
    var again := SomeHistoryDelivers(remote, env);
    Resumes(remote, env, v.es, again);
    more := (v.es + again)[|es|..];
    assert es + more == v.es + again;
  }

  /** The worker's connection, write or receipt failed behind the last byte of its part. */
  predicate Behind(remote: Bytes, s: State, start: nat) {
    && s.process.Up? && start in s.process.parts
    && var phase := s.process.parts[start]; phase.Failed? || (phase.Beyond? && phase.offset == End(start, |remote|))
  }

  /** Such a worker cannot finish its part in that run, and the run does not return: the next run fetches
      the part again. */
  lemma {:induction false} BehindNeverReturns(remote: Bytes, es: seq<Event>, more: seq<Event>, start: nat)
    requires Replay(remote, es + more).Some? && (forall e | e in more :: !e.Stop?)
    requires Replay(remote, es).Some? && Behind(remote, Replay(remote, es).value, start)
    ensures Behind(remote, Replay(remote, es + more).value, start)
    ensures !AllDone(Replay(remote, es + more).value.process.parts)
  {
    if more == [] {
      assert es + more == es;
    } else {
      var front, e := more[..|more| - 1], more[|more| - 1];
      assert (es + more)[..|es + more| - 1] == es + front && (es + more)[|es + more| - 1] == e;
      assert e in more;
      BehindNeverReturns(remote, es, front, start);
    }
  }

  /******* The running download *******/

  /** What the server does with one attempt: whether it honors the range, the chunks it sends, and
      whether the connection breaks after them. */
  datatype Reply = Reply(honored: bool, chunks: seq<nat>, broken: bool)

  datatype Outcome = Returned | Raised

  /** The bytes of a stream before it ends. */
  function Streamed(chunks: seq<nat>): nat {
    if chunks == [] || chunks[0] == 0 then 0 else chunks[0] + Streamed(chunks[1..])
  }

  /** A failed worker's offset is of no use to anyone. */
  function Settled(phase: Phase): Phase {
    if phase.Failed? then Failed(0) else phase
  }

  predicate Trying(phase: Phase) {
    phase.Active? || phase.Beyond?
  }

  /** Where one attempt leaves a worker whose part ends at `end`. */
  function AttemptedRange(offset: nat, attempt: nat, end: nat, reply: Reply): Phase {
    var upTo := offset + Streamed(reply.chunks);
    if !reply.honored || upTo > end then Failed(0)
    else if reply.broken || upTo != end then Settled(Retry(upTo, attempt, end))
    else Done
  }

  /** An empty range breaks the attempt (416), or is refused. */
  function Attempted(phase: Phase, end: nat, reply: Reply): Phase
    requires Trying(phase)
  {
    if phase.Active? then AttemptedRange(phase.offset, phase.attempt, end, reply)
    else if reply.broken then Settled(Retry(phase.offset, phase.attempt, end))
    else Failed(0)
  }

  /** Where the attempts leave it, one after the other until one decides. */
  function Tried(phase: Phase, end: nat, replies: seq<Reply>): Phase
    decreases |replies|
  {
    if replies == [] || !Trying(phase) then phase else Tried(Attempted(phase, end, replies[0]), end, replies[1..])
  }

  /** The open archive, its receipt and the shared counters of one `_ranges` call. */
  class Ranges {
    ghost const remote: Bytes
    const size: nat
    var archive: Bytes
    var receipt: Option<set<nat>>
    var completed: set<nat>
    var received: nat
    var tmp: set<nat>
    var parts: map<nat, Phase>

    ghost function Snapshot(): State
      reads this
    {
      State(Disk(Some(archive), receipt), Up(completed, received, tmp, parts), None)
    }

    ghost predicate Valid()
      reads this
    {
      size == |remote| && Inv(remote, Snapshot())
    }

    /** The state moved by one step of the model. */
    twostate predicate Stepped(e: Event)
      reads this
    {
      ReceiptFits(remote, old(Snapshot())) && Next(remote, old(Snapshot()), e) == Some(Snapshot())
    }

    constructor (ghost remote: Bytes, size: nat, archive: Option<Bytes>, receipt: Option<set<nat>>)
      requires size == |remote| && Ranged(size) && DiskOk(remote, Disk(archive, receipt))
      ensures this.remote == remote && Valid()
      ensures Next(remote, State(Disk(archive, receipt), Down, None), Open) == Some(Snapshot())
    {
      this.remote, this.size := remote, size;
      var known := if archive.None? then None else receipt;
      this.archive := Resized(if archive.None? then [] else archive.value, size);
      this.receipt, this.completed, this.tmp := known, Recorded(known), {};
      var sum, todo := 0, Recorded(known);
      while todo != {}
        invariant todo <= Recorded(known)
        invariant sum + Sum(todo, size) == Sum(Recorded(known), size)
      {
        var start :| start in todo;
        assert IsStart(start, size);
        SumTakes(todo, start, size);
        sum := sum + (End(start, size) - start);
        todo := todo - {start};
      }
      this.received := sum;
      this.parts := map start | start in Starts(size) :: Waiting;
      new;
      StepInv(remote, State(Disk(archive, receipt), Down, None), Open, Snapshot());
    }

    method Begin(start: nat)
      requires Valid() && start in parts && parts[start].Waiting?
      modifies this
      ensures Valid() && Stepped(Event.Begin(start))
    {
      parts := parts[start := if start in completed then Done else Active(start, 0)];
      StepInv(remote, old(Snapshot()), Event.Begin(start), Snapshot());
    }

    method Write(start: nat, chunk: Bytes)
      requires Valid() && start in parts && parts[start].Active? && LockFree(parts)
      requires var offset := parts[start].offset;
        0 < |chunk| && offset + |chunk| <= End(start, size) && chunk == remote[offset..offset + |chunk|]
      modifies this
      ensures Valid() && Stepped(Chunk(start, |chunk|))
    {
      var offset := parts[start].offset;
      archive := Splice(archive, offset, chunk);
      parts := parts[start := Active(offset + |chunk|, parts[start].attempt)];
      received := received + |chunk|;
      StepInv(remote, old(Snapshot()), Chunk(start, |chunk|), Snapshot());
    }

    method Refuse(start: nat)
      requires Valid() && start in parts && Trying(parts[start])
      modifies this
      ensures Valid() && Stepped(Refused(start))
    {
      parts := parts[start := Failed(parts[start].offset)];
      StepInv(remote, old(Snapshot()), Refused(start), Snapshot());
    }

    method Retried(start: nat)
      requires Valid() && start in parts && Trying(parts[start])
      modifies this
      ensures Valid() && Stepped(NetworkError(start))
    {
      parts := parts[start := Retry(parts[start].offset, parts[start].attempt, End(start, size))];
      StepInv(remote, old(Snapshot()), NetworkError(start), Snapshot());
    }

    /** The end of the stream at the end of the part: the receipt is written beside the old one and
        then takes its place. */
    method Finish(start: nat)
      requires Valid() && start in parts && LockFree(parts)
      requires parts[start].Active? && parts[start].offset == End(start, size)
      modifies this
      ensures Valid() && parts == old(parts)[start := Done]
      ensures receipt == Some(old(completed) + {start})
      ensures Next(remote, Next(remote, old(Snapshot()), StreamEnd(start)).value, Event.Replace(start)) == Some(Snapshot())
    {
      ghost var before := Snapshot();
      completed := completed + {start};
      tmp := completed;
      parts := parts[start := Saving(parts[start].attempt)];
      StepInv(remote, before, StreamEnd(start), Snapshot());
      ghost var saving := Snapshot();
      receipt := Some(tmp);
      parts := parts[start := Done];
      StepInv(remote, saving, Event.Replace(start), Snapshot());
    }

    /** Writes the stream's chunks, up to its end or past the part's, which is refused. */
    method Fill(start: nat, chunks: seq<nat>, source: Bytes)
      requires Valid() && start in parts && parts[start].Active? && LockFree(parts) && source == remote
      modifies this
      ensures Valid() && LockFree(parts) && start in parts
      ensures var upTo := old(parts[start].offset) + Streamed(chunks);
        Settled(parts[start]) == if upTo > End(start, size) then Failed(0) else Active(upTo, old(parts[start].attempt))
    {
      for i := 0 to |chunks|
        invariant Valid() && LockFree(parts) && start in parts && parts[start].Active?
        invariant parts[start].attempt == old(parts[start].attempt)
        invariant parts[start].offset + Streamed(chunks[i..]) == old(parts[start].offset) + Streamed(chunks)
      {
        assert chunks[i..][0] == chunks[i] && chunks[i..][1..] == chunks[i + 1..];
        InBounds(start);
        if chunks[i] == 0 { return; }
        var offset := parts[start].offset;
        if offset + chunks[i] > End(start, size) {
          Refuse(start);
          return;
        }
        Write(start, source[offset..offset + chunks[i]]);
      }
      InBounds(start);
    }

    lemma InBounds(start: nat)
      requires Valid() && start in parts && parts[start].Active?
      ensures start <= parts[start].offset <= End(start, size) <= size
    {
      assert PhaseOk(remote, archive, start, parts[start], completed);
      assert IsStart(start, size);
    }

    lemma OnDisk(start: nat)
      requires Valid() && start in parts && parts[start].Done?
      ensures start in completed && Holds(remote, archive, start, End(start, size))
    {
      assert PhaseOk(remote, archive, start, parts[start], completed);
    }

    /** One attempt: the replies are the remote's bytes from the current offset. */
    method Attempt(start: nat, reply: Reply, source: Bytes)
      requires Valid() && start in parts && Trying(parts[start]) && LockFree(parts) && source == remote
      modifies this
      ensures Valid() && LockFree(parts) && start in parts
      ensures Settled(parts[start]) == old(Attempted(parts[start], End(start, size), reply))
      ensures parts[start].Done? ==> start in Recorded(receipt)
    {
      if parts[start].Active? {
        AttemptRange(start, reply, source);
      } else if reply.broken {
        Retried(start);
      } else {
        Refuse(start);
      }
    }

    method AttemptRange(start: nat, reply: Reply, source: Bytes)
      requires Valid() && start in parts && parts[start].Active? && LockFree(parts) && source == remote
      modifies this
      ensures Valid() && LockFree(parts) && start in parts
      ensures Settled(parts[start])
        == old(AttemptedRange(parts[start].offset, parts[start].attempt, End(start, size), reply))
      ensures parts[start].Done? ==> start in Recorded(receipt)
    {
      if !reply.honored {
        Refuse(start);
        return;
      }
      Fill(start, reply.chunks, source);
      if parts[start].Failed? { return; }
      Conclude(start, reply.broken);
    }

    /** The end of a stream: the part is finished, or the next attempt goes on. */
    method Conclude(start: nat, broken: bool)
      requires Valid() && start in parts && parts[start].Active? && LockFree(parts)
      modifies this
      ensures Valid() && LockFree(parts) && start in parts
      ensures var phase, end := old(parts[start]), End(start, size);
        parts[start] == if broken || phase.offset != end then Retry(phase.offset, phase.attempt, end) else Done
      ensures parts[start].Done? ==> start in Recorded(receipt)
    {
      if broken || parts[start].offset != End(start, size) {
        Retried(start);
      } else {
        Finish(start);
      }
    }

    /** `part`: up to four attempts, each going on where the last one stopped. A worker that returns
        leaves its part on disk as the remote has it, and recorded; it returns unless all attempts or a
        reply for other bytes fail it. */
    method Part(start: nat, replies: seq<Reply>, source: Bytes) returns (outcome: Outcome)
      requires Valid() && start in parts && parts[start].Waiting? && LockFree(parts)
      requires |replies| == ATTEMPTS && source == remote
      modifies this
      ensures Valid()
      ensures outcome.Returned? ==> start in completed && Holds(remote, archive, start, End(start, size))
      ensures outcome.Returned? && start !in old(completed) ==> start in Recorded(receipt)
      ensures outcome.Returned? <==> start in old(completed) || Tried(Active(start, 0), End(start, size), replies).Done?
    {
      Begin(start);
      if parts[start].Done? {
        OnDisk(start);
        return Returned;
      }
      TriedFour(Active(start, 0), End(start, size), replies);
      for attempt := 0 to ATTEMPTS
        invariant Valid() && LockFree(parts) && start in parts && Trying(parts[start]) && parts[start].attempt == attempt
        invariant Tried(parts[start], End(start, size), replies[attempt..]) == Tried(Active(start, 0), End(start, size), replies)
      {
        TriedStep(parts[start], End(start, size), replies, attempt);
        Attempt(start, replies[attempt], source);
        if parts[start].Done? {
          OnDisk(start);
          return Returned;
        }
        if !Trying(parts[start]) { return Raised; }
      }
      return Raised;
    }
  }

  lemma TriedStep(phase: Phase, end: nat, replies: seq<Reply>, k: nat)
    requires Trying(phase) && k < |replies|
    ensures Tried(phase, end, replies[k..]) == Tried(Attempted(phase, end, replies[k]), end, replies[k + 1..])
  {
    assert replies[k..][0] == replies[k] && replies[k..][1..] == replies[k + 1..];
  }

  /** Four attempts decide. */
  lemma TriedFour(phase: Phase, end: nat, replies: seq<Reply>)
    requires Trying(phase) && phase.attempt + |replies| == ATTEMPTS
    ensures !Trying(Tried(phase, end, replies)) || phase.attempt == ATTEMPTS
    decreases |replies|
  {
    if replies != [] {
      var next := Attempted(phase, end, replies[0]);
      if Trying(next) {
        TriedFour(next, end, replies[1..]);
      }
    }
  }

  lemma SumTakes(starts: set<nat>, start: nat, size: nat)
    requires (forall s | s in starts :: IsStart(s, size)) && start in starts
    ensures Sum(starts, size) == End(start, size) - start + Sum(starts - {start}, size)
  {
    SumCounts(starts, size);
    SumCounts(starts - {start}, size);
    assert IsStart(start, size);
    PartSplits(starts, start, size);
  }
}
