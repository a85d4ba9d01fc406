/** The approval gate of the in-app agent (apps/agent/src/gate.ts) and the two tools that drive it
    (apps/agent/src/tools.ts). The tools run one call at a time. */
module Gate {
  import opened Results

  type Argv = seq<string>

  datatype Reach = Read | Act | Inner

  type VerbTable = map<string, Reach>

  datatype Mode = Manual | Bypass

  datatype Decision = Free | Ask | Refuse

  /** What the table says of the first word; None if there is no word or it is not a verb. */
  function ReachOf(table: VerbTable, args: Argv): Option<Reach> {
    if args != [] && args[0] in table then Some(table[args[0]]) else None
  }

  /******* The gate *******/

  /** The plan without its first step of exactly these words. */
  function Spent(plan: seq<Argv>, args: Argv): seq<Argv> {
    if plan == [] then [] else if plan[0] == args then plan[1..] else [plan[0]] + Spent(plan[1..], args)
  }

  /** A licence is spent once, and only on its own words. */
  lemma {:induction false} SpentOnce(plan: seq<Argv>, args: Argv)
    requires args in plan
    ensures multiset(Spent(plan, args)) == multiset(plan) - multiset{args}
  {
    if plan[0] == args {
      assert plan == [args] + plan[1..];
    } else {
      SpentOnce(plan[1..], args);
      assert plan == [plan[0]] + plan[1..];
      assert args in multiset(plan[1..]);
    }
  }

  lemma {:induction false} SpentAt(plan: seq<Argv>, args: Argv, i: nat)
    requires i < |plan| && plan[i] == args && args !in plan[..i]
    ensures Spent(plan, args) == plan[..i] + plan[i + 1..]
  {
    if i > 0 {
      assert plan[0] in plan[..i];
      assert args !in plan[1..][..i - 1];
      SpentAt(plan[1..], args, i - 1);
    }
  }

  function Decided(mode: Mode, table: VerbTable, plan: seq<Argv>, args: Argv): (Decision, seq<Argv>) {
    match ReachOf(table, args)
    case None => (Refuse, plan)
    case Some(Inner) => (Refuse, plan)
    case Some(Read) => (Free, plan)
    case Some(Act) =>
      if mode.Bypass? then (Free, plan) else if args in plan then (Free, Spent(plan, args)) else (Ask, plan)
  }

  class Gate {
    const mode: Mode
    const table: VerbTable
    var plan: seq<Argv>

    constructor (table: VerbTable, mode: Mode)
      ensures this.table == table && this.mode == mode && plan == []
    {
      this.table, this.mode, plan := table, mode, [];
    }

    method Decide(args: Argv) returns (d: Decision)
      modifies `plan
      ensures (d, plan) == Decided(mode, table, old(plan), args)
    {
      if args == [] { return Refuse; }
      if args[0] !in table { return Refuse; }
      var reach := table[args[0]];
      if reach.Inner? { return Refuse; }
      if reach.Read? { return Free; }
      if mode.Bypass? { return Free; }
      for i := 0 to |plan|
        invariant plan == old(plan) && args !in plan[..i]
      {
        if plan[i] == args {
          SpentAt(plan, args, i);
          plan := plan[..i] + plan[i + 1..];
          return Free;
        }
      }
      assert plan[..|plan|] == plan;
      return Ask;
    }

    method License(steps: seq<Argv>)
      modifies `plan
      ensures plan == old(plan) + steps
    {
      for i := 0 to |steps|
        invariant plan == old(plan) + steps[..i]
      {
        plan := plan + [steps[i]];
      }
      assert steps[..|steps|] == steps;
    }
  }

  /******* The tools *******/

  function Actions(table: VerbTable, steps: seq<Argv>): seq<Argv> {
    if steps == [] then []
    else
      var front, last := Actions(table, steps[..|steps| - 1]), steps[|steps| - 1];
      if ReachOf(table, last) == Some(Act) then front + [last] else front
  }

  predicate Plannable(table: VerbTable, steps: seq<Argv>) {
    forall s | s in steps :: ReachOf(table, s).Some? && ReachOf(table, s) != Some(Inner)
  }

  /** The steps a call of `plan` licenses; None where it throws. */
  function Planned(mode: Mode, table: VerbTable, steps: seq<Argv>, approves: bool): Option<seq<Argv>> {
    if !Plannable(table, steps) then None
    else if mode.Bypass? || Actions(table, steps) == [] then Some([])
    else if approves then Some(Actions(table, steps)) else None
  }

  method PlanTool(gate: Gate, steps: seq<Argv>, approves: bool) returns (licensed: Option<nat>)
    modifies gate`plan
    ensures var p := Planned(gate.mode, gate.table, steps, approves);
      && licensed == (if p.Some? then Some(|p.value|) else None)
      && gate.plan == if p.Some? then old(gate.plan) + p.value else old(gate.plan)
  {
    var actions: seq<Argv> := [];
    for i := 0 to |steps|
      invariant gate.plan == old(gate.plan) && Plannable(gate.table, steps[..i])
      invariant actions == Actions(gate.table, steps[..i])
    {
      var reach := ReachOf(gate.table, steps[i]);
      assert steps[i] in steps && steps[..i + 1][..i] == steps[..i];
      if reach.None? || reach == Some(Inner) { return None; }
      if reach == Some(Act) { actions := actions + [steps[i]]; }
    }
    assert steps[..|steps|] == steps;
    if gate.mode.Bypass? { return Some(0); }
    if actions == [] { return Some(0); }
    if !approves { return None; }
    gate.License(actions);
    return Some(|actions|);
  }

  /** `khor`: whether the command runs; `approves` is the user's answer if asked. */
  method KhorTool(gate: Gate, args: Argv, approves: bool) returns (ran: bool)
    modifies gate`plan
    ensures var (d, plan) := Decided(gate.mode, gate.table, old(gate.plan), args);
      gate.plan == plan && (ran <==> d.Free? || (d.Ask? && approves))
  {
    var d := gate.Decide(args);
    if d.Refuse? { return false; }
    if d.Ask? && !approves { return false; }
    return true;
  }

  /******* Sessions *******/

  datatype Event = Plan(steps: seq<Argv>, approves: bool) | Khor(args: Argv, approves: bool)

  /** What is licensed and not yet run, what the user has approved in plans and on the spot, and every
      command run, in order. */
  datatype State = State(plan: seq<Argv>, planned: multiset<Argv>, spot: multiset<Argv>, ran: seq<Argv>)

  const START := State([], multiset{}, multiset{}, [])

  function Next(mode: Mode, table: VerbTable, s: State, e: Event): State {
    match e
    case Plan(steps, approves) =>
      (match Planned(mode, table, steps, approves)
       case None => s
       case Some(p) => s.(plan := s.plan + p, planned := s.planned + multiset(p)))
    case Khor(args, approves) =>
      var (d, plan) := Decided(mode, table, s.plan, args);
      if d.Free? then s.(plan := plan, ran := s.ran + [args])
      else if d.Ask? && approves then s.(spot := s.spot + multiset{args}, ran := s.ran + [args])
      else s
  }

  function After(mode: Mode, table: VerbTable, events: seq<Event>): State {
    if events == [] then START
    else Next(mode, table, After(mode, table, events[..|events| - 1]), events[|events| - 1])
  }

  /** The commands run that act. */
  function Acts(table: VerbTable, ran: seq<Argv>): multiset<Argv> {
    multiset(Actions(table, ran))
  }

  /** Every acting command that ran has its own approval, every other licence is outstanding: argv by
      argv, what was approved is what ran and what may still run. */
  predicate Conserved(table: VerbTable, s: State) {
    s.planned + s.spot == Acts(table, s.ran) + multiset(s.plan)
  }

  /** Only verbs an agent may use have run, and only acting ones are licensed. */
  predicate Proper(table: VerbTable, s: State) {
    Plannable(table, s.ran) && forall p | p in s.plan :: ReachOf(table, p) == Some(Act)
  }

  lemma ActsMore(table: VerbTable, ran: seq<Argv>, args: Argv)
    ensures Acts(table, ran + [args])
      == Acts(table, ran) + if ReachOf(table, args) == Some(Act) then multiset{args} else multiset{}
  {
    assert (ran + [args])[..|ran|] == ran;
  }

  lemma {:induction false} ActionsAct(table: VerbTable, steps: seq<Argv>, a: Argv)
    ensures a in Actions(table, steps) <==> a in steps && ReachOf(table, a) == Some(Act)
  {
    if steps != [] {
      ActionsAct(table, steps[..|steps| - 1], a);
      assert steps == steps[..|steps| - 1] + [steps[|steps| - 1]];
    }
  }

  lemma StepProper(mode: Mode, table: VerbTable, s: State, e: Event)
    requires Proper(table, s)
    ensures Proper(table, Next(mode, table, s, e))
  {
    match e
    case Plan(steps, _) =>
      forall a
        ensures a in Actions(table, steps) ==> ReachOf(table, a) == Some(Act)
      {
        ActionsAct(table, steps, a);
      }
    case Khor(args, _) => SpentFrom(s.plan, args);
  }

  lemma {:induction false} SpentFrom(plan: seq<Argv>, args: Argv)
    ensures forall a | a in Spent(plan, args) :: a in plan
  {
    if plan != [] {
      SpentFrom(plan[1..], args);
    }
  }

  /** One licence less, one command more. */
  lemma Moved(approved: multiset<Argv>, acts: multiset<Argv>, held: multiset<Argv>, args: Argv)
    requires approved == acts + held && args in held
    ensures approved == acts + multiset{args} + (held - multiset{args})
  {
  }

  lemma SpendConserved(table: VerbTable, s: State, args: Argv)
    requires Conserved(table, s) && args in s.plan && ReachOf(table, args) == Some(Act)
    ensures Conserved(table, s.(plan := Spent(s.plan, args), ran := s.ran + [args]))
  {
    ActsMore(table, s.ran, args);
    SpentOnce(s.plan, args);
    Moved(s.planned + s.spot, Acts(table, s.ran), multiset(s.plan), args);
  }

  lemma SpotConserved(table: VerbTable, s: State, args: Argv)
    requires Conserved(table, s) && ReachOf(table, args) == Some(Act)
    ensures Conserved(table, s.(spot := s.spot + multiset{args}, ran := s.ran + [args]))
  {
    ActsMore(table, s.ran, args);
    Added(s.planned, s.spot, Acts(table, s.ran), multiset(s.plan), multiset{args});
  }

  lemma ReadConserved(table: VerbTable, s: State, args: Argv)
    requires Conserved(table, s) && ReachOf(table, args) != Some(Act)
    ensures Conserved(table, s.(ran := s.ran + [args]))
  {
    ActsMore(table, s.ran, args);
  }

  /** What a call of `khor` does in manual mode, case by case. */
  lemma KhorCases(table: VerbTable, s: State, args: Argv, approves: bool)
    ensures var t := Next(Manual, table, s, Khor(args, approves));
      || t == s
      || (ReachOf(table, args) == Some(Read) && t == s.(ran := s.ran + [args]))
      || (ReachOf(table, args) == Some(Act) && args in s.plan && t == s.(plan := Spent(s.plan, args), ran := s.ran + [args]))
      || (ReachOf(table, args) == Some(Act) && approves && t == s.(spot := s.spot + multiset{args}, ran := s.ran + [args]))
  {
  }

  lemma KhorConserved(table: VerbTable, s: State, args: Argv, approves: bool, t: State)
    requires Conserved(table, s) && t == Next(Manual, table, s, Khor(args, approves))
    ensures Conserved(table, t)
  {
    KhorCases(table, s, args, approves);
    if t == s {
    } else if ReachOf(table, args) == Some(Read) {
      ReadConserved(table, s, args);
    } else if t == s.(plan := Spent(s.plan, args), ran := s.ran + [args]) && args in s.plan {
      SpendConserved(table, s, args);
    } else {
      SpotConserved(table, s, args);
    }
  }

  lemma Added(a: multiset<Argv>, b: multiset<Argv>, c: multiset<Argv>, d: multiset<Argv>, x: multiset<Argv>)
    requires a + b == c + d
    ensures a + (b + x) == (c + x) + d
    ensures (a + x) + b == c + (d + x)
  {
    assert a + (b + x) == (a + b) + x;
    assert (a + x) + b == (a + b) + x;
    assert (c + d) + x == c + (d + x);
  }

  lemma PlanConserved(table: VerbTable, s: State, steps: seq<Argv>, approves: bool)
    requires Conserved(table, s)
    ensures Conserved(table, Next(Manual, table, s, Plan(steps, approves)))
  {
    var p := Planned(Manual, table, steps, approves);
    if p.Some? {
      assert multiset(s.plan + p.value) == multiset(s.plan) + multiset(p.value);
      Added(s.planned, s.spot, Acts(table, s.ran), multiset(s.plan), multiset(p.value));
    }
  }

  lemma StepConserved(table: VerbTable, s: State, e: Event)
    requires Conserved(table, s)
    ensures Conserved(table, Next(Manual, table, s, e))
  {
    match e
    case Plan(steps, approves) => PlanConserved(table, s, steps, approves);
    case Khor(args, approves) => KhorConserved(table, s, args, approves, Next(Manual, table, s, e));
  }

  /** In manual mode, over every session: approvals are conserved, so the acting commands that ran map to
      distinct approvals given before, and none runs beyond them. */
  lemma {:induction false} ManualConserves(table: VerbTable, events: seq<Event>)
    ensures var s := After(Manual, table, events);
      Conserved(table, s) && Acts(table, s.ran) <= s.planned + s.spot
  {
    if events != [] {
      ManualConserves(table, events[..|events| - 1]);
      StepConserved(table, After(Manual, table, events[..|events| - 1]), events[|events| - 1]);
    }
  }

  /** In either mode, nothing unknown and nothing internal ever runs, and neither is ever licensed. */
  lemma {:induction false} OnlyKnownVerbsRun(mode: Mode, table: VerbTable, events: seq<Event>)
    ensures Proper(table, After(mode, table, events))
  {
    if events != [] {
      OnlyKnownVerbsRun(mode, table, events[..|events| - 1]);
      StepProper(mode, table, After(mode, table, events[..|events| - 1]), events[|events| - 1]);
    }
  }

  /** The user is asked about a command exactly if it acts, in manual mode, and these very words are not
      among the outstanding licences: how many were approved for them so far have all been used. */
  lemma AskedIffSpent(table: VerbTable, events: seq<Event>, args: Argv)
    ensures var s := After(Manual, table, events);
      Decided(Manual, table, s.plan, args).0 == Ask
      <==> ReachOf(table, args) == Some(Act) && (s.planned + s.spot)[args] == Acts(table, s.ran)[args]
  {
    ManualConserves(table, events);
    var s := After(Manual, table, events);
    assert args in s.plan <==> args in multiset(s.plan);
  }

  /** Bypass approves nothing and holds nothing. */
  lemma {:induction false} BypassHoldsNothing(table: VerbTable, events: seq<Event>)
    ensures var s := After(Bypass, table, events); s.plan == [] && s.planned == multiset{} && s.spot == multiset{}
  {
    if events != [] {
      BypassHoldsNothing(table, events[..|events| - 1]);
    }
  }

  /******* What runs, and what is licensed *******/

  lemma {:induction false} ActionsCount(table: VerbTable, steps: seq<Argv>, a: Argv)
    ensures multiset(Actions(table, steps))[a] == if ReachOf(table, a) == Some(Act) then multiset(steps)[a] else 0
  {
    if steps != [] {
      ActionsCount(table, steps[..|steps| - 1], a);
      assert steps == steps[..|steps| - 1] + [steps[|steps| - 1]];
    }
  }

  /** The same words stand this often in the sequence. */
  function Times(steps: seq<Argv>, a: Argv): nat {
    multiset(steps)[a]
  }

  /** Over every session in manual mode: a command runs exactly if its verb reads, or it acts and is approved
      now or has been approved more often than it ran; a reading one leaves every approval as it was. */
  lemma RunsIff(table: VerbTable, events: seq<Event>, args: Argv, approves: bool)
    ensures var s, t := After(Manual, table, events), After(Manual, table, events + [Khor(args, approves)]);
      && t.planned == s.planned
      && (ReachOf(table, args) == Some(Read) ==> t == s.(ran := s.ran + [args]))
      && (ReachOf(table, args) == Some(Act) && (approves || (s.planned + s.spot)[args] > Times(s.ran, args))
          ==> t.ran == s.ran + [args])
      && (ReachOf(table, args) == Some(Act) && !approves && (s.planned + s.spot)[args] <= Times(s.ran, args) ==> t == s)
      && (ReachOf(table, args) != Some(Read) && ReachOf(table, args) != Some(Act) ==> t == s)
  {
    assert (events + [Khor(args, approves)])[..|events|] == events;
    AskedIffSpent(table, events, args);
    ManualConserves(table, events);
    ActionsCount(table, After(Manual, table, events).ran, args);
  }

  /** In bypass every known verb that is not internal runs. */
  lemma BypassRuns(table: VerbTable, events: seq<Event>, args: Argv, approves: bool)
    ensures var s, t := After(Bypass, table, events), After(Bypass, table, events + [Khor(args, approves)]);
      t == if ReachOf(table, args) in {Some(Read), Some(Act)} then s.(ran := s.ran + [args]) else s
  {
    assert (events + [Khor(args, approves)])[..|events|] == events;
  }

  /** A plan that is approved licenses each acting step as often as it lists it and nothing else; one that is
      refused, or that has a step no agent may take, licenses nothing. */
  lemma PlanLicenses(table: VerbTable, events: seq<Event>, steps: seq<Argv>, approves: bool, a: Argv)
    ensures var s, t := After(Manual, table, events), After(Manual, table, events + [Plan(steps, approves)]);
      && t.spot == s.spot && t.ran == s.ran
      && t.planned[a] - s.planned[a]
         == (if Plannable(table, steps) && approves && ReachOf(table, a) == Some(Act) then Times(steps, a) else 0)
      && Times(t.plan, a) == Times(s.plan, a) + (t.planned[a] - s.planned[a])
  {
    assert (events + [Plan(steps, approves)])[..|events|] == events;
    ActionsCount(table, steps, a);
    var s := After(Manual, table, events);
    var p := Planned(Manual, table, steps, approves);
    if p.Some? {
      assert multiset(s.plan + p.value) == multiset(s.plan) + multiset(p.value);
    }
  }
}
