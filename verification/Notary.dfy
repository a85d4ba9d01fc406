/** Recovering a notarization (scripts/mac_notarization.py): three stages that keep their state in
    files, an Apple service whose replies may be lost or stale, and crashes anywhere. The files are
    replaced atomically, so each one is either absent or whole. The stages of one build run one at a time:
    two `submit`s at once could both read the history before either submits. */
module Notary {
  import opened Results

  /******* Records *******/

  datatype Identity = Identity(
    asset: string, source: string, run: string, receipt: string, archive: string, sha: string, signed: bool)

  datatype Submission = Submission(id: string, name: string)

  datatype Request = Request(identity: Identity, id: Option<string>)

  datatype Status = Accepted | Invalid | Rejected | InProgress | QueryUnavailable | Unsigned | Unexpected(text: string)

  datatype Proof = Proof(request: Request, status: Status)

  /** The files of the stages, and what Apple holds and has accepted. */
  datatype State = State(
    intent: Option<Identity>, request: Option<Request>, status: Option<Proof>, proof: Option<Proof>, finished: bool,
    apple: seq<Submission>, accepted: set<string>)

  datatype Outcome = Done | Refused

  predicate HexDigits(s: string) {
    forall c | c in s :: '0' <= c <= '9' || 'a' <= c <= 'f' || 'A' <= c <= 'F'
  }

  /** A UUID in its usual form: what `request_id` lets pass. */
  predicate ValidId(id: string) {
    && |id| == 36 && id[8] == id[13] == id[18] == id[23] == '-'
    && HexDigits(id[..8]) && HexDigits(id[9..13]) && HexDigits(id[14..18]) && HexDigits(id[19..23]) && HexDigits(id[24..])
  }

  /******* Matching submissions *******/

  function Matching(submissions: seq<Submission>, name: string): seq<Submission> {
    if submissions == [] then []
    else if submissions[0].name == name then [submissions[0]] + Matching(submissions[1..], name)
    else Matching(submissions[1..], name)
  }

  /** How many submissions Apple holds for an archive. */
  function Count(submissions: seq<Submission>, name: string): nat {
    |Matching(submissions, name)|
  }

  lemma {:induction false} MatchingAppends(a: seq<Submission>, b: seq<Submission>, name: string)
    ensures Matching(a + b, name) == Matching(a, name) + Matching(b, name)
  {
    if a == [] {
      assert a + b == b;
    } else {
      MatchingAppends(a[1..], b, name);
      assert (a + b)[1..] == a[1..] + b;
    }
  }

  lemma MatchingOneMore(a: seq<Submission>, s: Submission, name: string)
    ensures Matching(a + [s], name) == if s.name == name then Matching(a, name) + [s] else Matching(a, name)
  {
    MatchingAppends(a, [s], name);
  }

  lemma {:induction false} MatchingHas(submissions: seq<Submission>, name: string, s: Submission)
    ensures s in Matching(submissions, name) <==> s in submissions && s.name == name
  {
    if submissions != [] {
      MatchingHas(submissions[1..], name, s);
    }
  }

  lemma NoMatch(submissions: seq<Submission>, name: string)
    ensures Count(submissions, name) == 0 <==> forall s | s in submissions :: s.name != name
  {
    var found := Matching(submissions, name);
    forall s
      ensures s in found <==> s in submissions && s.name == name
    {
      MatchingHas(submissions, name, s);
    }
    if found != [] {
      assert found[0] in found;
    }
  }

  lemma OneMatch(submissions: seq<Submission>, name: string, a: Submission, b: Submission)
    requires Count(submissions, name) <= 1
    requires a in submissions && b in submissions && a.name == b.name == name
    ensures a == b
  {
    MatchingHas(submissions, name, a);
    MatchingHas(submissions, name, b);
  }

  /******* The stages *******/

  function Prepared(s: State, identity: Identity): (State, Outcome) {
    match s.intent
    case None => (s.(intent := Some(identity)), Done)
    case Some(bound) => (s, if bound == identity then Done else Refused)
  }

  /** The call that submits: not taken by Apple, taken without an answer, or answered. */
  datatype Attempt = Untaken | Unanswered(id: string) | Answered(id: string)

  function Held(s: State, a: Attempt, name: string): seq<Submission> {
    if a.Untaken? then s.apple else s.apple + [Submission(a.id, name)]
  }

  function Save(s: State, request: Request, survives: bool): (State, Outcome) {
    if survives then (s.(request := Some(request)), Done) else (s, Refused)
  }

  /** This call goes through to Apple's submission service. */
  predicate Sends(s: State, identity: Identity, allow: bool, history: Option<seq<Submission>>) {
    s.intent == Some(identity) && s.request.None? && identity.signed && allow
      && history.Some? && Matching(history.value, identity.archive) == []
  }

  /** `submit`; a history of None is a failed call, and the process survives to save its request or not. */
  function Submitted(
    s: State, identity: Identity, allow: bool, history: Option<seq<Submission>>, attempt: Attempt, survives: bool)
    : (State, Outcome)
  {
    if s.intent != Some(identity) then (s, Refused)
    else if s.request.Some? then
      var r := s.request.value;
      (s, if r.identity == identity && (identity.signed ==> r.id.Some? && ValidId(r.id.value)) then Done else Refused)
    else if !identity.signed then Save(s, Request(identity, None), survives)
    else if history.None? then (s, Refused)
    else
      var found := Matching(history.value, identity.archive);
      if |found| > 1 then (s, Refused)
      else if |found| == 1 then
        if ValidId(found[0].id) then Save(s, Request(identity, Some(found[0].id)), survives) else (s, Refused)
      else if !allow then (s, Refused)
      else
        var sent := s.(apple := Held(s, attempt, identity.archive));
        if attempt.Answered? && ValidId(attempt.id)
        then Save(sent, Request(identity, Some(attempt.id)), survives) else (sent, Refused)
  }

  datatype Reply = Unavailable | Info(id: string, name: string, status: Status)

  function StatusOf(r: Reply): Status {
    if r.Unavailable? then QueryUnavailable else r.status
  }

  predicate Foreign(r: Reply, request: Request) {
    r.Info? && (Some(r.id) != request.id || r.name != request.identity.archive)
  }

  predicate KeepsWaiting(r: Reply, request: Request) {
    !Foreign(r, request) && StatusOf(r) in {InProgress, QueryUnavailable}
  }

  /** Which reply ends the wait: its index, or the number of replies if the deadline does. */
  function Deciding(replies: seq<Reply>, request: Request): (n: nat)
    ensures n <= |replies| && forall k | 0 <= k < n :: KeepsWaiting(replies[k], request)
    ensures n < |replies| ==> !KeepsWaiting(replies[n], request)
  {
    if replies == [] || !KeepsWaiting(replies[0], request) then 0 else
      assert forall k | 1 <= k < |replies| :: replies[1..][k - 1] == replies[k];
      1 + Deciding(replies[1..], request)
  }

  predicate Acceptance(replies: seq<Reply>, request: Request) {
    var n := Deciding(replies, request);
    n < |replies| && !Foreign(replies[n], request) && StatusOf(replies[n]) == Accepted
  }

  /** The last status written: that of the deciding reply, or of the one before if that is foreign. */
  function Written(replies: seq<Reply>, request: Request, before: Option<Proof>): Option<Proof> {
    var n := Deciding(replies, request);
    if n < |replies| && !Foreign(replies[n], request) then Some(Proof(request, StatusOf(replies[n])))
    else if n > 0 then Some(Proof(request, StatusOf(replies[n - 1])))
    else before
  }

  /** Where a `finalize` that got its acceptance stops: before the proof, before the receipt, or not. */
  datatype Stop = BeforeProof | BeforeReceipt | AtEnd

  /** `finalize`; `intact` says that a restored output verifies and is of this run and platform. */
  function Finalized(s: State, identity: Identity, intact: bool, replies: seq<Reply>, stop: Stop): (State, Outcome) {
    if s.request.None? || s.request.value.identity != identity then (s, Refused)
    else
      var request := s.request.value;
      var proof := Proof(request, if identity.signed then Accepted else Unsigned);
      if identity.signed && !(request.id.Some? && ValidId(request.id.value)) then (s, Refused)
      else if s.finished then (s, if intact && s.proof == Some(proof) then Done else Refused)
      else
        var waited := if identity.signed then s.(status := Written(replies, request, s.status)) else s;
        if (identity.signed && !Acceptance(replies, request)) || stop.BeforeProof? then (waited, Refused)
        else (waited.(proof := Some(proof), finished := stop.AtEnd?), if stop.AtEnd? then Done else Refused)
  }

  /** The stages as they run, on their files and on Apple. */
  class Stages {
    var intent: Option<Identity>
    var request: Option<Request>
    var status: Option<Proof>
    var proof: Option<Proof>
    var finished: bool
    var apple: seq<Submission>
    var accepted: set<string>

    constructor ()
      ensures Now() == State(None, None, None, None, false, [], {})
    {
      intent, request, status, proof, finished, apple, accepted := None, None, None, None, false, [], {};
    }

    function Now(): State
      reads this
    {
      State(intent, request, status, proof, finished, apple, accepted)
    }

    method Prepare(identity: Identity) returns (outcome: Outcome)
      modifies `intent
      ensures (Now(), outcome) == Prepared(old(Now()), identity)
    {
      if intent.Some? {
        return if intent.value == identity then Done else Refused;
      }
      intent := Some(identity);
      return Done;
    }

    method Submit(identity: Identity, allow: bool, history: Option<seq<Submission>>, attempt: Attempt, survives: bool)
      returns (outcome: Outcome)
      modifies `request, `apple
      ensures (Now(), outcome) == Submitted(old(Now()), identity, allow, history, attempt, survives)
    {
      if intent != Some(identity) { return Refused; }
      if request.Some? {
        if request.value.identity != identity { return Refused; }
        if identity.signed && !(request.value.id.Some? && ValidId(request.value.id.value)) { return Refused; }
        return Done;
      }
      var submission: Option<string> := None;
      if identity.signed {
        if history.None? { return Refused; }
        var matches := Select(history.value, identity.archive);
        if |matches| > 1 { return Refused; }
        if |matches| == 1 {
          if !ValidId(matches[0].id) { return Refused; }
          submission := Some(matches[0].id);
        } else if allow {
          if attempt.Untaken? { return Refused; }
          apple := apple + [Submission(attempt.id, identity.archive)];
          if attempt.Unanswered? || !ValidId(attempt.id) { return Refused; }
          submission := Some(attempt.id);
        } else {
          return Refused;
        }
      }
      if !survives { return Refused; }
      request := Some(Request(identity, submission));
      return Done;
    }

    method Finalize(identity: Identity, intact: bool, replies: seq<Reply>, stop: Stop) returns (outcome: Outcome)
      modifies `status, `proof, `finished
      ensures (Now(), outcome) == Finalized(old(Now()), identity, intact, replies, stop)
    {
      if request.None? || request.value.identity != identity { return Refused; }
      var record := request.value;
      if identity.signed && !(record.id.Some? && ValidId(record.id.value)) { return Refused; }
      var made := Proof(record, if identity.signed then Accepted else Unsigned);
      if finished {
        return if intact && proof == Some(made) then Done else Refused;
      }
      if identity.signed {
        var ok := WaitForAcceptance(record, replies);
        if !ok { return Refused; }
      }
      if stop.BeforeProof? { return Refused; }
      proof := Some(made);
      if stop.BeforeReceipt? { return Refused; }
      finished := true;
      return Done;
    }

    /** Polls until a reply decides or the replies end with the deadline. */
    method WaitForAcceptance(record: Request, replies: seq<Reply>) returns (ok: bool)
      modifies `status
      ensures ok <==> Acceptance(replies, record)
      ensures status == Written(replies, record, old(status))
    {
      var n := 0;
      while n < |replies|
        invariant n <= Deciding(replies, record)
        invariant status == if n == 0 then old(status) else Some(Proof(record, StatusOf(replies[n - 1])))
      {
        if Foreign(replies[n], record) { return false; }
        status := Some(Proof(record, StatusOf(replies[n])));
        if StatusOf(replies[n]) == Accepted { return true; }
        if StatusOf(replies[n]) !in {InProgress, QueryUnavailable} { return false; }
        n := n + 1;
      }
      return false;
    }
  }

  method Select(submissions: seq<Submission>, name: string) returns (found: seq<Submission>)
    ensures found == Matching(submissions, name)
  {
    found := [];
    for i := 0 to |submissions|
      invariant found == Matching(submissions[..i], name)
    {
      MatchingOneMore(submissions[..i], submissions[i], name);
      assert submissions[..i + 1] == submissions[..i] + [submissions[i]];
      if submissions[i].name == name { found := found + [submissions[i]]; }
    }
    assert submissions[..|submissions|] == submissions;
  }

  /******* Whole histories *******/

  datatype Event =
    | Prepare(identity: Identity)
    | Submit(identity: Identity, allow: bool, history: Option<seq<Submission>>, attempt: Attempt, survives: bool)
    | Finalize(identity: Identity, intact: bool, replies: seq<Reply>, stop: Stop)
    | LoseIntent
    | LoseRequest
    | LoseOutput
    | Elsewhere(submission: Submission)
    | Accept(id: string)

  function Next(s: State, e: Event): State {
    match e
    case Prepare(identity) => Prepared(s, identity).0
    case Submit(identity, allow, history, attempt, survives) => Submitted(s, identity, allow, history, attempt, survives).0
    case Finalize(identity, intact, replies, stop) => Finalized(s, identity, intact, replies, stop).0
    case LoseIntent => s.(intent := None)
    case LoseRequest => s.(request := None)
    case LoseOutput => s.(proof := None, finished := false)
    case Elsewhere(submission) => s.(apple := s.apple + [submission])
    case Accept(id) => s.(accepted := s.accepted + {id})
  }

  const START := State(None, None, None, None, false, [], {})

  function After(events: seq<Event>): State {
    if events == [] then START else Next(After(events[..|events| - 1]), events[|events| - 1])
  }

  predicate Distinct(submissions: seq<Submission>) {
    forall i, j | 0 <= i < j < |submissions| :: submissions[i] != submissions[j]
  }

  /** Apple does not invent: its history lists submissions it holds, each once, and it reports an
      acceptance only of what it has accepted. It may leave any out. */
  predicate Truthful(s: State, e: Event) {
    match e
    case Submit(_, _, history, _, _) =>
      history.Some? ==> Distinct(history.value) && forall h | h in history.value :: h in s.apple
    case Finalize(_, _, replies, _) => forall r | r in replies && r.Info? && r.status == Accepted :: r.id in s.accepted
    case _ => true
  }

  /** Only these stages submit an archive of this name. */
  predicate OnlyHere(e: Event, archive: string) {
    e.Elsewhere? ==> e.submission.name != archive
  }

  /** The history leaves out no submission of the archive. */
  predicate CompleteFor(s: State, e: Event, archive: string) {
    e.Submit? && e.history.Some? ==> forall x | x in s.apple && x.name == archive :: x in e.history.value
  }

  /** A run that may submit the archive. */
  predicate Allows(e: Event, archive: string) {
    e.Submit? && e.allow && e.identity.signed && e.identity.archive == archive
  }

  function Allowing(events: seq<Event>, archive: string): nat {
    if events == [] then 0
    else Allowing(events[..|events| - 1], archive) + if Allows(events[|events| - 1], archive) then 1 else 0
  }

  ghost predicate Run(events: seq<Event>) {
    forall k | 0 <= k < |events| :: Truthful(After(events[..k]), events[k])
  }

  lemma RunPrefix(events: seq<Event>, k: nat)
    requires Run(events) && k <= |events|
    ensures Run(events[..k])
  {
    forall i | 0 <= i < k
      ensures Truthful(After(events[..k][..i]), events[..k][i])
    {
      assert events[..k][..i] == events[..i];
    }
  }

  lemma Unfold(events: seq<Event>)
    requires Run(events) && events != []
    ensures Run(events[..|events| - 1]) && Truthful(After(events[..|events| - 1]), events[|events| - 1])
    ensures After(events) == Next(After(events[..|events| - 1]), events[|events| - 1])
  {
    RunPrefix(events, |events| - 1);
  }

  /** Exactly when one event adds a submission of the archive. */
  predicate Adds(s: State, e: Event, archive: string) {
    || (e.Elsewhere? && e.submission.name == archive)
    || (e.Submit? && e.identity.archive == archive && Sends(s, e.identity, e.allow, e.history) && !e.attempt.Untaken?)
  }

  lemma StepCounts(s: State, e: Event, archive: string)
    ensures Count(Next(s, e).apple, archive) == Count(s.apple, archive) + if Adds(s, e, archive) then 1 else 0
  {
    match e
    case Submit(identity, allow, history, attempt, survives) =>
      if !attempt.Untaken? {
        MatchingOneMore(s.apple, Submission(attempt.id, identity.archive), archive);
      }
    case Elsewhere(submission) =>
      MatchingOneMore(s.apple, submission, archive);
    case _ =>
  }

  /** Whatever is lost, stale or interrupted: no more submissions than runs that were allowed to submit. */
  lemma {:induction false} AtMostAllowed(events: seq<Event>, archive: string)
    requires forall e | e in events :: OnlyHere(e, archive)
    ensures Count(After(events).apple, archive) <= Allowing(events, archive)
  {
    if events != [] {
      var front, last := events[..|events| - 1], events[|events| - 1];
      assert last in events;
      AtMostAllowed(front, archive);
      StepCounts(After(front), last, archive);
    }
  }

  /** With complete histories: at most one submission, however many runs may submit and whatever is lost. */
  lemma {:induction false} AtMostOnce(events: seq<Event>, archive: string)
    requires Run(events) && forall e | e in events :: OnlyHere(e, archive)
    requires forall k | 0 <= k < |events| :: CompleteFor(After(events[..k]), events[k], archive)
    ensures Count(After(events).apple, archive) <= 1
  {
    if events != [] {
      var front, last := events[..|events| - 1], events[|events| - 1];
      assert last in events && CompleteFor(After(front), last, archive);
      Unfold(events);
      forall k | 0 <= k < |front|
        ensures CompleteFor(After(front[..k]), front[k], archive)
      {
        assert front[..k] == events[..k];
      }
      AtMostOnce(front, archive);
      StepCounts(After(front), last, archive);
      if Adds(After(front), last, archive) {
        NoMatch(last.history.value, archive);
        NoMatch(After(front).apple, archive);
      }
    }
  }

  /** One event makes a second submission exactly when an allowing run gets a history without the first. */
  lemma SecondSubmission(s: State, e: Event, archive: string)
    requires Truthful(s, e) && OnlyHere(e, archive) && Count(s.apple, archive) == 1
    ensures Count(Next(s, e).apple, archive) == 2
      <==> e.Submit? && e.identity.archive == archive && Sends(s, e.identity, e.allow, e.history)
           && !e.attempt.Untaken? && !CompleteFor(s, e, archive)
  {
    StepCounts(s, e, archive);
    NoMatch(s.apple, archive);
    if e.Submit? && e.history.Some? {
      NoMatch(e.history.value, archive);
    }
  }

  /******* What the saved records say *******/

  /** The request is of one submission that Apple holds for the archive, or of an unsigned build. */
  predicate NamesSubmission(s: State, r: Request) {
    if r.identity.signed
    then r.id.Some? && ValidId(r.id.value) && Submission(r.id.value, r.identity.archive) in s.apple
    else r.id.None?
  }

  predicate Proves(s: State, p: Proof) {
    && NamesSubmission(s, p.request)
    && (p.status == Accepted ==> p.request.identity.signed && p.request.id.value in s.accepted)
  }

  predicate Bound(s: State) {
    && (s.request.Some? ==> NamesSubmission(s, s.request.value))
    && (s.status.Some? ==> Proves(s, s.status.value))
    && (s.proof.Some? ==> Proves(s, s.proof.value))
    && (s.proof.Some? ==> s.proof.value.status == if s.proof.value.request.identity.signed then Accepted else Unsigned)
    && (s.finished ==> s.proof.Some?)
  }

  lemma NamesStays(s: State, t: State, r: Request)
    requires NamesSubmission(s, r) && s.apple <= t.apple
    ensures NamesSubmission(t, r)
  {
    assert forall x | x in s.apple :: x in t.apple;
  }

  lemma StaysBound(s: State, t: State)
    requires Bound(s) && s.apple <= t.apple && s.accepted <= t.accepted
    requires t.(apple := s.apple, accepted := s.accepted) == s
    ensures Bound(t)
  {
    if s.request.Some? { NamesStays(s, t, s.request.value); }
    if s.status.Some? { NamesStays(s, t, s.status.value.request); }
    if s.proof.Some? { NamesStays(s, t, s.proof.value.request); }
  }

  lemma SaveBound(s: State, request: Request, survives: bool)
    requires Bound(s) && NamesSubmission(s, request)
    ensures Bound(Save(s, request, survives).0)
  {
  }

  lemma FoundNames(s: State, identity: Identity, history: seq<Submission>)
    requires identity.signed && |Matching(history, identity.archive)| == 1 && forall h | h in history :: h in s.apple
    requires ValidId(Matching(history, identity.archive)[0].id)
    ensures NamesSubmission(s, Request(identity, Some(Matching(history, identity.archive)[0].id)))
  {
    var x := Matching(history, identity.archive)[0];
    MatchingHas(history, identity.archive, x);
    assert x == Submission(x.id, identity.archive);
  }

  lemma SentNames(s: State, identity: Identity, attempt: Attempt)
    requires identity.signed && attempt.Answered? && ValidId(attempt.id)
    ensures NamesSubmission(s.(apple := Held(s, attempt, identity.archive)), Request(identity, Some(attempt.id)))
  {
    var sent := Held(s, attempt, identity.archive);
    assert sent[|sent| - 1] == Submission(attempt.id, identity.archive);
  }

  lemma SubmitBound(s: State, e: Event)
    requires Bound(s) && Truthful(s, e) && e.Submit?
    ensures Bound(Next(s, e))
  {
    if s.intent == Some(e.identity) && s.request.None? {
      if !e.identity.signed {
        SaveBound(s, Request(e.identity, None), e.survives);
      } else if Sends(s, e.identity, e.allow, e.history) {
        var sent := s.(apple := Held(s, e.attempt, e.identity.archive));
        StaysBound(s, sent);
        if e.attempt.Answered? && ValidId(e.attempt.id) {
          SentNames(s, e.identity, e.attempt);
          SaveBound(sent, Request(e.identity, Some(e.attempt.id)), e.survives);
        }
      } else if e.history.Some? {
        var found := Matching(e.history.value, e.identity.archive);
        if |found| == 1 && ValidId(found[0].id) {
          FoundNames(s, e.identity, e.history.value);
          SaveBound(s, Request(e.identity, Some(found[0].id)), e.survives);
        }
      }
    }
  }

  /** What a wait writes is true, and ends in an acceptance only if Apple accepted. */
  lemma WrittenProves(s: State, request: Request, replies: seq<Reply>)
    requires Bound(s) && NamesSubmission(s, request) && request.identity.signed
    requires forall r | r in replies && r.Info? && r.status == Accepted :: r.id in s.accepted
    ensures Written(replies, request, s.status).Some? ==> Proves(s, Written(replies, request, s.status).value)
    ensures Acceptance(replies, request) ==> request.id.value in s.accepted
  {
    var n := Deciding(replies, request);
    if n < |replies| {
      assert replies[n] in replies;
    }
  }

  lemma FinalizeBound(s: State, e: Event)
    requires Bound(s) && Truthful(s, e) && e.Finalize?
    ensures Bound(Next(s, e))
  {
    if s.request.Some? && s.request.value.identity == e.identity && !s.finished {
      if e.identity.signed {
        WrittenProves(s, s.request.value, e.replies);
      }
    }
  }

  lemma StepBound(s: State, e: Event)
    requires Bound(s) && Truthful(s, e)
    ensures Bound(Next(s, e))
  {
    if e.Submit? {
      SubmitBound(s, e);
    } else if e.Finalize? {
      FinalizeBound(s, e);
    } else if e.Elsewhere? || e.Accept? {
      StaysBound(s, Next(s, e));
    }
  }

  /** Every saved request, status and proof names a submission Apple holds for that very archive, and a
      proof of acceptance only one that Apple accepted. */
  lemma {:induction false} RecordsAreTrue(events: seq<Event>)
    requires Run(events)
    ensures Bound(After(events))
  {
    if events != [] {
      Unfold(events);
      RecordsAreTrue(events[..|events| - 1]);
      StepBound(After(events[..|events| - 1]), events[|events| - 1]);
    }
  }

  /** The id a saved request and a saved proof of the archive give is one and the same, whenever Apple
      holds at most one submission of it. */
  lemma OneSubmissionNamed(events: seq<Event>, archive: string)
    requires Run(events) && Count(After(events).apple, archive) <= 1
    ensures var s := After(events);
      s.request.Some? && s.proof.Some? && s.request.value.identity.signed && s.proof.value.request.identity.signed
      && s.request.value.identity.archive == s.proof.value.request.identity.archive == archive
      ==> s.request.value.id == s.proof.value.request.id
  {
    RecordsAreTrue(events);
    var s := After(events);
    if s.request.Some? && s.proof.Some? && s.request.value.identity.signed && s.proof.value.request.identity.signed
      && s.request.value.identity.archive == s.proof.value.request.identity.archive == archive {
      OneMatch(s.apple, archive, Submission(s.request.value.id.value, archive),
               Submission(s.proof.value.request.id.value, archive));
    }
  }

  /** A submission whose answer or saved request was lost is found again, allowed to submit or not. */
  lemma LostIsRecovered(s: State, e: Event, x: Submission)
    requires e.Submit? && e.identity.signed && s.intent == Some(e.identity) && s.request.None?
    requires e.history.Some? && Truthful(s, e) && CompleteFor(s, e, e.identity.archive) && e.survives
    requires x in s.apple && x.name == e.identity.archive && ValidId(x.id) && Count(s.apple, x.name) == 1
    ensures Next(s, e) == s.(request := Some(Request(e.identity, Some(x.id))))
  {
    var found := Matching(e.history.value, x.name);
    MatchingHas(e.history.value, x.name, x);
    forall y | y in found
      ensures y == x
    {
      MatchingHas(e.history.value, x.name, y);
      OneMatch(s.apple, x.name, x, y);
    }
    MatchingDistinct(e.history.value, x.name);
    if |found| > 1 {
      TwoDiffer(found);
    }
  }

  lemma TwoDiffer(found: seq<Submission>)
    requires Distinct(found) && |found| > 1
    ensures found[0] in found && found[1] in found && found[0] != found[1]
  {
  }

  lemma {:induction false} MatchingDistinct(submissions: seq<Submission>, name: string)
    requires Distinct(submissions)
    ensures Distinct(Matching(submissions, name))
  {
    if submissions != [] {
      var rest := Matching(submissions[1..], name);
      MatchingDistinct(submissions[1..], name);
      MatchingHas(submissions[1..], name, submissions[0]);
      assert submissions[0] !in submissions[1..];
      assert forall i | 0 <= i < |rest| :: rest[i] in rest;
    }
  }

  /******* What a submission comes to *******/

  /** The history has exactly one submission of this name, and it is this one. */
  ghost predicate OnlyMatch(history: seq<Submission>, name: string, id: string) {
    exists k :: 0 <= k < |history| && history[k] == Submission(id, name)
      && forall j | 0 <= j < |history| && j != k :: history[j].name != name
  }

  predicate NoneNamed(history: seq<Submission>, name: string) {
    forall j | 0 <= j < |history| :: history[j].name != name
  }

  lemma {:induction false} NoneNamedIff(history: seq<Submission>, name: string)
    ensures NoneNamed(history, name) <==> Matching(history, name) == []
  {
    if history != [] {
      NoneNamedIff(history[1..], name);
      assert forall j | 0 < j < |history| :: history[j] == history[1..][j - 1];
      assert forall j | 0 <= j < |history[1..]| :: history[1..][j] == history[j + 1];
    }
  }

  lemma {:induction false} OnlyMatchIff(history: seq<Submission>, name: string, id: string)
    ensures OnlyMatch(history, name, id) <==> Matching(history, name) == [Submission(id, name)]
  {
    if history != [] {
      var rest := history[1..];
      NoneNamedIff(rest, name);
      OnlyMatchIff(rest, name, id);
      assert forall j | 0 < j < |history| :: history[j] == rest[j - 1];
      assert forall j | 0 <= j < |rest| :: rest[j] == history[j + 1];
      if history[0].name == name {
        if NoneNamed(rest, name) && history[0].id == id {
          assert history[0] == Submission(id, name);
        }
      } else if OnlyMatch(rest, name, id) {
        var k :| 0 <= k < |rest| && rest[k] == Submission(id, name) && forall j | 0 <= j < |rest| && j != k :: rest[j].name != name;
        assert history[k + 1] == Submission(id, name);
      }
    }
  }

  /** The submission that a run may save: the only one in the history, or, with none there and leave to
      submit, the one Apple answers. */
  ghost predicate Obtains(name: string, allow: bool, history: Option<seq<Submission>>, attempt: Attempt, id: string) {
    && history.Some?
    && (OnlyMatch(history.value, name, id) || (NoneNamed(history.value, name) && allow && attempt == Answered(id)))
  }

  /** The request is good for the build. */
  predicate Serves(request: Request, identity: Identity) {
    request.identity == identity && (identity.signed ==> request.id.Some? && ValidId(request.id.value))
  }

  /** The request that this run would save if it survives. */
  ghost predicate Makes(identity: Identity, allow: bool, history: Option<seq<Submission>>, attempt: Attempt, request: Request) {
    && Serves(request, identity)
    && (if identity.signed then Obtains(identity.archive, allow, history, attempt, request.id.value) else request.id.None?)
  }

  /** With its own intent a run succeeds exactly if the saved request is good for the build, or none is saved,
      it obtains one and survives to save it; only in this last case a request is written, and it is that. */
  lemma SubmitIff(s: State, identity: Identity, allow: bool, history: Option<seq<Submission>>, attempt: Attempt, survives: bool)
    requires s.intent == Some(identity)
    ensures var (t, outcome) := Submitted(s, identity, allow, history, attempt, survives);
      && (s.request.Some? ==> t == s && (outcome == Done <==> Serves(s.request.value, identity)))
      && (s.request.None? ==> forall r :: t.request == Some(r) <==> survives && Makes(identity, allow, history, attempt, r))
      && (s.request.None? ==> (outcome == Done <==> t.request.Some?))
  {
    if s.request.None? && identity.signed && history.Some? {
      NoneNamedIff(history.value, identity.archive);
      forall id
        ensures OnlyMatch(history.value, identity.archive, id)
          <==> Matching(history.value, identity.archive) == [Submission(id, identity.archive)]
      {
        OnlyMatchIff(history.value, identity.archive, id);
      }
      MatchingNamed(history.value, identity.archive);
    }
  }

  lemma {:induction false} MatchingNamed(history: seq<Submission>, name: string)
    ensures forall k | 0 <= k < |Matching(history, name)| :: Matching(history, name)[k].name == name
  {
    if history != [] {
      MatchingNamed(history[1..], name);
    }
  }

  /** Without its own intent it changes nothing. */
  lemma SubmitForeign(s: State, identity: Identity, allow: bool, history: Option<seq<Submission>>, attempt: Attempt, survives: bool)
    requires s.intent != Some(identity)
    ensures Submitted(s, identity, allow, history, attempt, survives) == (s, Refused)
  {
  }

  /******* An accepted build is finalized *******/

  /** A reply that says nothing final about the submission. */
  predicate StillWaiting(r: Reply, id: string, archive: string) {
    r == Unavailable || r == Info(id, archive, InProgress) || r == Info(id, archive, QueryUnavailable)
  }

  /** Some reply says that this very submission is accepted, and none before it ends the wait. */
  ghost predicate SaysAccepted(replies: seq<Reply>, id: string, archive: string) {
    exists k :: 0 <= k < |replies| && replies[k] == Info(id, archive, Accepted)
      && forall j | 0 <= j < k :: StillWaiting(replies[j], id, archive)
  }

  lemma WaitsAlike(r: Reply, request: Request)
    requires request.id.Some?
    ensures KeepsWaiting(r, request) <==> StillWaiting(r, request.id.value, request.identity.archive)
  {
  }

  lemma AcceptanceIff(replies: seq<Reply>, request: Request)
    requires request.id.Some?
    ensures Acceptance(replies, request) <==> SaysAccepted(replies, request.id.value, request.identity.archive)
  {
    var id, archive, n := request.id.value, request.identity.archive, Deciding(replies, request);
    forall r: Reply
      ensures KeepsWaiting(r, request) <==> StillWaiting(r, id, archive)
    {
      WaitsAlike(r, request);
    }
    if Acceptance(replies, request) {
      assert replies[n] == Info(id, archive, Accepted);
    }
    if SaysAccepted(replies, id, archive) {
      var k :| 0 <= k < |replies| && replies[k] == Info(id, archive, Accepted)
        && forall j | 0 <= j < k :: StillWaiting(replies[j], id, archive);
      assert k == n;
    }
  }

  /** The build may be finalized on these replies. */
  ghost predicate Releasable(request: Request, replies: seq<Reply>) {
    request.identity.signed ==>
      request.id.Some? && ValidId(request.id.value) && SaysAccepted(replies, request.id.value, request.identity.archive)
  }

  /** With a saved request of this very build and no output yet, `finalize` finishes exactly when it is not
      stopped and the build is unsigned, or Apple says that this submission is accepted; then it leaves
      exactly that request's proof. Stopped before the receipt it leaves the proof alone, and in all other
      cases neither. */
  lemma FinalizeIff(s: State, identity: Identity, id: Option<string>, intact: bool, replies: seq<Reply>, stop: Stop)
    requires s.request == Some(Request(identity, id)) && !s.finished
    ensures var (t, outcome) := Finalized(s, identity, intact, replies, stop);
      var proof := Proof(Request(identity, id), if identity.signed then Accepted else Unsigned);
      && t.(status := s.status, proof := s.proof, finished := s.finished) == s
      && (outcome == Done <==> stop == AtEnd && Releasable(Request(identity, id), replies))
      && t.finished == (outcome == Done)
      && t.proof == if stop != BeforeProof && Releasable(Request(identity, id), replies) then Some(proof) else s.proof
  {
    if identity.signed && id.Some? {
      AcceptanceIff(replies, Request(identity, id));
    }
  }

  /** The wait ends at reply k: all before it leave it open. */
  ghost predicate OpenUntil(replies: seq<Reply>, k: nat, id: string, archive: string) {
    k <= |replies| && forall j | 0 <= j < k :: StillWaiting(replies[j], id, archive)
  }

  /** The status file of a signed build afterwards tells the last reply about this very submission, up to the
      one that ends the wait: its status, or that the query failed. */
  lemma StatusIsLast(
    s: State, identity: Identity, id: string, intact: bool, replies: seq<Reply>, stop: Stop, k: nat, status: Status)
    requires s.request == Some(Request(identity, Some(id))) && !s.finished && identity.signed && ValidId(id)
    requires k < |replies| && OpenUntil(replies, k, id, identity.archive)
    requires replies[k] == Info(id, identity.archive, status) || (replies[k] == Unavailable && status == QueryUnavailable)
    requires k + 1 < |replies| && StillWaiting(replies[k], id, identity.archive) ==> Elsewhere(replies[k + 1], id, identity.archive)
    ensures Finalized(s, identity, intact, replies, stop).0.status == Some(Proof(Request(identity, Some(id)), status))
  {
    var request := Request(identity, Some(id));
    forall r: Reply
      ensures KeepsWaiting(r, request) <==> StillWaiting(r, id, identity.archive)
    {
      WaitsAlike(r, request);
    }
    var n := Deciding(replies, request);
    assert n == k || n == k + 1;
  }

  /** The reply is about another submission. */
  predicate Elsewhere(r: Reply, id: string, archive: string) {
    r.Info? && (r.id != id || r.name != archive)
  }

  /** A finished build is left alone, and accepted again exactly if its output verifies and its proof is of
      the saved request. */
  lemma FinalizeAgain(s: State, identity: Identity, id: Option<string>, intact: bool, replies: seq<Reply>, stop: Stop)
    requires s.request == Some(Request(identity, id)) && s.finished
    ensures Finalized(s, identity, intact, replies, stop).0 == s
    ensures Finalized(s, identity, intact, replies, stop).1 == Done
      <==> intact && (identity.signed ==> id.Some? && ValidId(id.value))
           && s.proof == Some(Proof(Request(identity, id), if identity.signed then Accepted else Unsigned))
  {
  }

  /** Without a request of this very build nothing is finalized. */
  lemma FinalizeForeign(s: State, identity: Identity, intact: bool, replies: seq<Reply>, stop: Stop)
    requires s.request.None? || s.request.value.identity != identity
    ensures Finalized(s, identity, intact, replies, stop) == (s, Refused)
  {
  }

  /** Wherever a `finalize` of an accepted build was stopped, running it again finishes it, with the same
      proof. */
  lemma StoppedFinishes(s: State, identity: Identity, id: string, first: Event, again: Event)
    requires s.request == Some(Request(identity, Some(id))) && !s.finished && identity.signed && ValidId(id)
    requires first.Finalize? && first.identity == identity && first.stop != AtEnd
    requires again.Finalize? && again.identity == identity && again.stop == AtEnd
    requires SaysAccepted(again.replies, id, identity.archive)
    ensures var t := Next(Next(s, first), again);
      !Next(s, first).finished && t.finished && t.proof == Some(Proof(Request(identity, Some(id)), Accepted))
  {
    FinalizeIff(s, identity, Some(id), first.intact, first.replies, first.stop);
    FinalizeIff(Next(s, first), identity, Some(id), again.intact, again.replies, again.stop);
  }

  lemma AfterMore(events: seq<Event>, e: Event)
    ensures After(events + [e]) == Next(After(events), e)
  {
    assert (events + [e])[..|events|] == events;
  }

  /** After any history that has left neither intent nor request nor output: prepare, an answered submit and
      an acceptance end finished, with the id Apple gave. */
  lemma AcceptedFinishes(events: seq<Event>, identity: Identity, id: string, history: seq<Submission>, intact: bool, replies: seq<Reply>)
    requires var s := After(events); s.intent.None? && s.request.None? && !s.finished
    requires identity.signed && ValidId(id) && Matching(history, identity.archive) == []
    requires SaysAccepted(replies, id, identity.archive)
    ensures var t := After(events + [Prepare(identity)] + [Submit(identity, true, Some(history), Answered(id), true)]
                           + [Accept(id)] + [Finalize(identity, intact, replies, AtEnd)]);
      && t.finished && t.proof == Some(Proof(Request(identity, Some(id)), Accepted))
      && t.apple == After(events).apple + [Submission(id, identity.archive)] && id in t.accepted
  {
    var submit := Submit(identity, true, Some(history), Answered(id), true);
    AfterMore(events, Prepare(identity));
    AfterMore(events + [Prepare(identity)], submit);
    AfterMore(events + [Prepare(identity)] + [submit], Accept(id));
    var before := events + [Prepare(identity)] + [submit] + [Accept(id)];
    AfterMore(before, Finalize(identity, intact, replies, AtEnd));
    FinalizeIff(After(before), identity, Some(id), intact, replies, AtEnd);
  }

  /** An unsigned build needs no word from Apple. */
  lemma UnsignedFinishes(events: seq<Event>, identity: Identity, allow: bool, intact: bool)
    requires var s := After(events); s.intent.None? && s.request.None? && !s.finished
    requires !identity.signed
    ensures var t := After(events + [Prepare(identity)] + [Submit(identity, allow, None, Untaken, true)]
                           + [Finalize(identity, intact, [], AtEnd)]);
      t.finished && t.proof == Some(Proof(Request(identity, None), Unsigned)) && t.apple == After(events).apple
  {
    var submit := Submit(identity, allow, None, Untaken, true);
    AfterMore(events, Prepare(identity));
    AfterMore(events + [Prepare(identity)], submit);
    AfterMore(events + [Prepare(identity)] + [submit], Finalize(identity, intact, [], AtEnd));
    FinalizeIff(After(events + [Prepare(identity)] + [submit]), identity, None, intact, [], AtEnd);
  }

  /** Several matches are never chosen from, and an unsigned build never reaches Apple. */
  lemma NeverGuesses(s: State, e: Event)
    requires e.Submit?
    ensures e.history.Some? && |Matching(e.history.value, e.identity.archive)| > 1 && e.identity.signed ==> Next(s, e) == s
    ensures !e.identity.signed ==> Next(s, e).apple == s.apple
    ensures Next(s, e).request != s.request ==> Next(s, e).request == Some(Request(e.identity, Next(s, e).request.value.id))
  {
  }

  /** Without complete histories two allowing runs can submit twice: the first answer is lost and the
      second run is shown a history from before. */
  lemma StaleHistoryResubmits(identity: Identity, a: string, b: string)
    requires identity.signed && a != b
    ensures var events := [
        Prepare(identity),
        Submit(identity, true, Some([]), Unanswered(a), true),
        Submit(identity, true, Some([]), Answered(b), true)];
      Run(events) && Allowing(events, identity.archive) == 2 && Count(After(events).apple, identity.archive) == 2
  {
    var e0, e1, e2 := Prepare(identity), Submit(identity, true, Some([]), Unanswered(a), true),
      Submit(identity, true, Some([]), Answered(b), true);
    var events := [e0, e1, e2];
    assert events[..2] == [e0, e1] && events[..1] == [e0] && events[..0] == [];
    assert [e0, e1][..1] == [e0] && [e0][..0] == [];
    var s1 := Next(START, e0);
    assert After([]) == START && After([e0]) == s1;
    assert Allowing([], identity.archive) == Allowing([e0], identity.archive) == 0;
    assert Allowing([e0, e1], identity.archive) == 1;
    assert After([e0, e1]) == Next(s1, e1) && After(events) == Next(Next(s1, e1), e2);
    StepCounts(s1, e1, identity.archive);
    StepCounts(Next(s1, e1), e2, identity.archive);
  }
}
