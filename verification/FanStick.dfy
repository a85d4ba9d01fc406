/** The thumb stick of the session fan (apps/gui/lab/gui-session-fan-state.ts, `fanStick`): landing,
    overview, braking, reversal memory and gears. Lengths are reals. The angle of a point is only ever
    compared with two cones, so a sample carries those two answers beside its distance. */
module FanStick {
  import opened Results

  const REACH := 56.0

  datatype Point = Point(x: real, y: real)

  datatype Placement = Right | Bottom

  /** What `fanControl` reads off a point: how far it is from the origin and whether it lies within 22
      and within 60 degrees of the neutral direction. */
  datatype Sample = Sample(at: Point, distance: real, central: bool, landing: bool)

  datatype Stick = Stick(
    neutral: Point, motion: Point, radius: real, acquired: bool, side: int, gear: nat, peak: real,
    wasOverview: bool, paused: bool, reverseFrom: Option<real>)

  datatype Reading = Reading(overview: bool, acquired: bool, gain: real, moved: bool, cursor: real)

  function Abs(x: real): real { if x < 0.0 then -x else x }

  function Sign(x: real): int { if x < 0.0 then -1 else if x > 0.0 then 1 else 0 }

  function Max(a: real, b: real): real { if a < b then b else a }

  function Min(a: real, b: real): real { if a < b then a else b }

  function Clamp(x: real, limit: real): real { Max(-limit, Min(limit, x)) }

  function Start(origin: Point): Stick {
    Stick(origin, origin, 0.0, false, 0, 0, 0.0, false, false, None)
  }

  /******* Gears *******/

  function GearUp(gear: nat, m: real, unit: real): nat
    decreases 3 - gear
  {
    if gear < 3 && m >= unit * (if gear == 1 then 0.85 else 1.3) then GearUp(gear + 1, m, unit) else gear
  }

  function GearDown(gear: nat, m: real, unit: real): nat {
    if gear > 1 && m < unit * (if gear == 3 then 1.0 else 0.6) then GearDown(gear - 1, m, unit) else gear
  }

  function GearGain(gear: nat): real {
    if gear == 1 then 18.0 else if gear == 2 then 35.0 else if gear == 3 then REACH else 0.0
  }

  /** The travel a gear allows. */
  predicate GearFits(gear: nat, m: real, unit: real) {
    (gear == 1 && m < unit * 0.85) || (gear == 2 && unit * 0.6 <= m < unit * 1.3) || (gear == 3 && m >= unit)
  }

  /** Both loops stop, in a gear that fits the travel and that the loops would keep. */
  lemma GearSettles(gear: nat, m: real, unit: real)
    requires 1 <= gear <= 3 && unit > 0.0
    ensures var g := GearDown(GearUp(gear, m, unit), m, unit);
      GearFits(g, m, unit) && GearDown(GearUp(g, m, unit), m, unit) == g
  {
    assert GearUp(2, m, unit) == if m >= unit * 1.3 then 3 else 2;
    assert GearUp(1, m, unit) == if m >= unit * 0.85 then GearUp(2, m, unit) else 1;
    assert GearDown(2, m, unit) == if m < unit * 0.6 then 1 else 2;
    assert GearDown(3, m, unit) == if m < unit * 1.0 then GearDown(2, m, unit) else 3;
  }

  /******* One move *******/

  function Travel(s: Stick, p: Point, placement: Placement): real {
    if placement.Bottom? then p.x - s.neutral.x
    else s.neutral.y - p.y + 0.2 * (s.neutral.x - p.x)
  }

  predicate IsOverview(s: Stick, a: Sample, unit: real, armed: bool) {
    a.central && a.distance > Max(unit * 3.2, s.radius + unit * 1.5) - (if armed then unit * 0.5 else 0.0)
  }

  predicate Lands(s: Stick, a: Sample, unit: real) {
    !s.acquired && a.distance >= unit * 0.7 && a.landing
  }

  /** A return stroke that is over, or a stroke across the neutral point. */
  predicate Brakes(s: Stick, travel: real, unit: real) {
    var m := Abs(travel);
    s.side != 0 && ((m <= unit * 0.32 && (m <= unit * 0.16 || m < s.peak - unit * 0.02)) || Sign(travel) != s.side)
  }

  /** A reversal waits: it is remembered, and the thumb has not gone on far enough beyond it. */
  predicate Waits(s: Stick, travel: real, unit: real) {
    s.reverseFrom.Some? && Abs(travel) > unit * 0.32
      && (Sign(travel) != Sign(s.reverseFrom.value) || Abs(travel) < Abs(s.reverseFrom.value) + unit * 0.12)
  }

  predicate TooShort(s: Stick, travel: real, unit: real) {
    s.side == 0 && Abs(travel) <= unit * (if s.paused then 0.45 else 0.25)
  }

  predicate FarApart(p: Point, q: Point, unit: real) {
    (p.x - q.x) * (p.x - q.x) + (p.y - q.y) * (p.y - q.y) >= (unit * 0.12) * (unit * 0.12)
  }

  function Rest(s: Stick, cursor: real): Reading {
    Reading(false, s.acquired, 0.0, false, cursor)
  }

  /** The state and the reading after a move to a sample. */
  function Next(s: Stick, a: Sample, unit: real, placement: Placement, armed: bool): (Stick, Reading)
    requires unit > 0.0
  {
    if IsOverview(s, a, unit, armed) then
      (s.(wasOverview := true, side := 0, gear := 0, peak := 0.0, paused := true, reverseFrom := None),
       Rest(s, 0.0).(overview := true))
    else if Lands(s, a, unit) then
      (s.(neutral := a.at, motion := a.at, radius := Min(a.distance, unit * 1.2), acquired := true, wasOverview := false),
       Rest(s, 0.0).(acquired := true))
    else if s.wasOverview then
      (s.(neutral := a.at, motion := a.at, wasOverview := false), Rest(s, 0.0))
    else
      Steer(s, a, unit, placement)
  }

  function Steer(s: Stick, a: Sample, unit: real, placement: Placement): (Stick, Reading)
    requires unit > 0.0
  {
    var travel := Travel(s, a.at, placement);
    var m, side := Abs(travel), Sign(travel);
    var cursor := if s.acquired then Clamp(travel / (unit * 0.6), 2.0) else 0.0;
    var still := Rest(s, cursor);
    if !s.acquired then (s, still)
    else if Brakes(s, travel, unit) then
      (s.(reverseFrom := if side != s.side && m > unit * 0.32 then Some(travel) else None,
          side := 0, gear := 0, peak := 0.0, paused := true), still)
    else if Waits(s, travel, unit) then
      (if side != Sign(s.reverseFrom.value) then s.(reverseFrom := Some(travel)) else s, still)
    else if TooShort(s, travel, unit) then
      (s.(reverseFrom := None), still)
    else
      Drive(s, a, unit, travel, still)
  }

  function Drive(s: Stick, a: Sample, unit: real, travel: real, still: Reading): (Stick, Reading) {
    var m, side := Abs(travel), Sign(travel);
    var gear := GearDown(GearUp(if side != s.side then 1 else s.gear, m, unit), m, unit);
    var moved := gear != s.gear || FarApart(a.at, s.motion, unit);
    (s.(reverseFrom := None, side := side, gear := gear, peak := Max(s.peak, m),
        motion := if moved then a.at else s.motion),
     still.(gain := side as real * GearGain(gear), moved := moved))
  }

  /******* What every move keeps *******/

  ghost predicate Inv(s: Stick, unit: real) {
    && 0.0 <= s.radius <= unit * 1.2
    && 0.0 <= s.peak
    && (s.side == 0 ==> s.gear == 0 && s.peak == 0.0)
    && (s.side != 0 ==> -1 <= s.side <= 1 && 1 <= s.gear <= 3 && s.acquired && !s.wasOverview && s.reverseFrom.None?)
    && (s.reverseFrom.Some? ==> s.acquired && s.paused && !s.wasOverview && Abs(s.reverseFrom.value) > unit * 0.32)
  }

  /** What one move keeps, and what its reading says about the stick it leaves. */
  ghost predicate Keeps(s: Stick, a: Sample, unit: real, placement: Placement, s': Stick, r: Reading) {
    && Inv(s', unit)
    && (s.paused ==> s'.paused)
    && (s.side != 0 && s'.side == 0 ==> s'.paused)
    && (r.gain == 0.0 ==> s'.side == 0)
    && (r.gain != 0.0 ==> Sign(r.gain) == s'.side && Abs(r.gain) == GearGain(s'.gear))
    && (r.gain != 0.0 ==> s.side == 0 || s.side == s'.side)
    && (r.gain != 0.0 ==> GearFits(s'.gear, Abs(Travel(s, a.at, placement)), unit))
    && (r.gain != 0.0 && s.side == 0 ==> Abs(Travel(s, a.at, placement)) > unit * (if s.paused then 0.45 else 0.25))
  }

  lemma NextKeeps(s: Stick, a: Sample, unit: real, placement: Placement, armed: bool)
    requires unit > 0.0 && Inv(s, unit) && a.distance >= 0.0
    ensures var (s', r) := Next(s, a, unit, placement, armed); Keeps(s, a, unit, placement, s', r)
  {
    var travel := Travel(s, a.at, placement);
    var gear := if Sign(travel) != s.side then 1 else s.gear;
    if 1 <= gear <= 3 {
      GearSettles(gear, Abs(travel), unit);
    }
  }

  /** The landing radius never reaches the gate that opens the overview. */
  lemma GateFixed(s: Stick, a: Sample, unit: real, armed: bool)
    requires unit > 0.0 && Inv(s, unit)
    ensures IsOverview(s, a, unit, armed)
       <==> a.central && a.distance > unit * 3.2 - (if armed then unit * 0.5 else 0.0)
  {
  }

  ghost predicate SameAgain(s: Stick, a: Sample, unit: real, placement: Placement, armed: bool)
    requires unit > 0.0
  {
    var (s1, r1) := Next(s, a, unit, placement, armed);
    var (s2, r2) := Next(s1, a, unit, placement, armed);
    && r2.gain == r1.gain && !r2.moved && r2.overview == r1.overview
    && s2.side == s1.side && s2.gear == s1.gear
  }

  /** The same point delivered twice: the second reading has the same gain and reports no motion, and
      the stick keeps its side and its gear. A resting thumb never starts, reverses or shifts. */
  lemma RepeatedEvent(s: Stick, a: Sample, unit: real, placement: Placement, armed: bool)
    requires unit > 0.0 && Inv(s, unit) && a.distance >= 0.0
    ensures SameAgain(s, a, unit, placement, armed)
  {
    if IsOverview(s, a, unit, armed) {
      OverviewAgain(s, a, unit, placement, armed);
    } else if Lands(s, a, unit) || s.wasOverview {
      LandedAgain(s, a, unit, placement, armed);
    } else {
      SteeringAgain(s, a, unit, placement, armed);
    }
  }

  lemma OverviewAgain(s: Stick, a: Sample, unit: real, placement: Placement, armed: bool)
    requires unit > 0.0 && IsOverview(s, a, unit, armed)
    ensures SameAgain(s, a, unit, placement, armed)
  {
    assert IsOverview(Next(s, a, unit, placement, armed).0, a, unit, armed);
  }

  lemma LandedAgain(s: Stick, a: Sample, unit: real, placement: Placement, armed: bool)
    requires unit > 0.0 && Inv(s, unit) && a.distance >= 0.0
    requires !IsOverview(s, a, unit, armed) && (Lands(s, a, unit) || s.wasOverview)
    ensures SameAgain(s, a, unit, placement, armed)
  {
    var s1 := Next(s, a, unit, placement, armed).0;
    assert !IsOverview(s1, a, unit, armed) by {
      NextKeeps(s, a, unit, placement, armed);
      GateFixed(s, a, unit, armed);
      GateFixed(s1, a, unit, armed);
    }
    RestsAtNeutral(s1, a, unit, placement);
  }

  lemma SteeringAgain(s: Stick, a: Sample, unit: real, placement: Placement, armed: bool)
    requires unit > 0.0 && Inv(s, unit) && a.distance >= 0.0
    requires !IsOverview(s, a, unit, armed) && !Lands(s, a, unit) && !s.wasOverview
    ensures SameAgain(s, a, unit, placement, armed)
  {
    SteerFrame(s, a, unit, placement);
    SteeredAgain(s, a, unit, placement);
    assert Next(s, a, unit, placement, armed) == Steer(s, a, unit, placement);
    var s1 := Steer(s, a, unit, placement).0;
    assert Next(s1, a, unit, placement, armed) == Steer(s1, a, unit, placement);
  }

  lemma SteerFrame(s: Stick, a: Sample, unit: real, placement: Placement)
    requires unit > 0.0
    ensures var (s', r) := Steer(s, a, unit, placement);
      && s'.neutral == s.neutral && s'.radius == s.radius && s'.acquired == s.acquired
      && s'.wasOverview == s.wasOverview && !r.overview && r.acquired == s.acquired
  {
  }

  lemma RestsAtNeutral(s: Stick, a: Sample, unit: real, placement: Placement)
    requires unit > 0.0 && s.neutral == a.at && s.side == 0 && s.gear == 0
    ensures var (s', r) := Steer(s, a, unit, placement);
      r.gain == 0.0 && !r.moved && !r.overview && s'.side == 0 && s'.gear == 0
  {
    assert Travel(s, a.at, placement) == 0.0;
  }

  /** The move neither stands still, brakes, waits nor falls short. */
  predicate Drives(s: Stick, travel: real, unit: real) {
    s.acquired && !Brakes(s, travel, unit) && !Waits(s, travel, unit) && !TooShort(s, travel, unit)
  }

  ghost predicate SteersSame(s: Stick, a: Sample, unit: real, placement: Placement)
    requires unit > 0.0
  {
    var (s1, r1) := Steer(s, a, unit, placement);
    var (s2, r2) := Steer(s1, a, unit, placement);
    r2.gain == r1.gain && !r2.moved && s2.side == s1.side && s2.gear == s1.gear
  }

  lemma SteeredAgain(s: Stick, a: Sample, unit: real, placement: Placement)
    requires unit > 0.0 && Inv(s, unit)
    ensures SteersSame(s, a, unit, placement)
  {
    if Drives(s, Travel(s, a.at, placement), unit) {
      DrivenAgain(s, a, unit, placement);
    } else {
      var s1 := Steer(s, a, unit, placement).0;
      StillAgain(s, a, unit, placement);
      StillReading(s1, a, unit, placement);
    }
  }

  lemma StillAgain(s: Stick, a: Sample, unit: real, placement: Placement)
    requires unit > 0.0 && Inv(s, unit) && !Drives(s, Travel(s, a.at, placement), unit)
    ensures var (s1, r1) := Steer(s, a, unit, placement);
      !Drives(s1, Travel(s1, a.at, placement), unit) && r1.gain == 0.0 && s1.side == 0 && s1.gear == 0
  {
  }

  lemma StillReading(s: Stick, a: Sample, unit: real, placement: Placement)
    requires unit > 0.0 && !Drives(s, Travel(s, a.at, placement), unit) && s.side == 0 && s.gear == 0
    ensures var (s1, r1) := Steer(s, a, unit, placement);
      r1.gain == 0.0 && !r1.moved && s1.side == 0 && s1.gear == 0
  {
  }

  lemma DrivenAgain(s: Stick, a: Sample, unit: real, placement: Placement)
    requires unit > 0.0 && Inv(s, unit) && Drives(s, Travel(s, a.at, placement), unit)
    ensures SteersSame(s, a, unit, placement)
  {
    var travel := Travel(s, a.at, placement);
    var (s1, r1) := Steer(s, a, unit, placement);
    DriveTwice(s, a, unit, travel, r1.(gain := 0.0, moved := false));
    DrivesOn(s, s1, travel, unit);
  }

  lemma DriveTwice(s: Stick, a: Sample, unit: real, travel: real, still: Reading)
    requires unit > 0.0 && (Sign(travel) == s.side ==> 1 <= s.gear <= 3)
    ensures var (s1, r1) := Drive(s, a, unit, travel, still);
      var (s2, r2) := Drive(s1, a, unit, travel, still);
      r2.gain == r1.gain && !r2.moved && s2.side == s1.side && s2.gear == s1.gear
  {
    GearSettles(if Sign(travel) != s.side then 1 else s.gear, Abs(travel), unit);
    NotFarFromItself(a.at, unit);
  }

  lemma DrivesOn(s: Stick, s1: Stick, travel: real, unit: real)
    requires unit > 0.0 && Inv(s, unit) && Drives(s, travel, unit)
    requires s1.acquired && s1.side == Sign(travel) && s1.peak == Max(s.peak, Abs(travel)) && s1.reverseFrom.None?
    ensures Drives(s1, travel, unit)
  {
  }

  lemma NotFarFromItself(p: Point, unit: real)
    requires unit > 0.0
    ensures !FarApart(p, p, unit)
  {
    assert (unit * 0.12) * (unit * 0.12) > 0.0;
  }

  /******* Whole gestures *******/

  datatype Touch = Touch(sample: Sample, armed: bool)

  /** One gesture: where it began, how large the thumb's unit is, and every touch event. */
  datatype Gesture = Gesture(origin: Point, unit: real, placement: Placement, touches: seq<Touch>)

  predicate Sensible(g: Gesture) {
    g.unit > 0.0 && forall t | t in g.touches :: t.sample.distance >= 0.0
  }

  function After(g: Gesture, n: nat): Stick
    requires Sensible(g) && n <= |g.touches|
  {
    if n == 0 then Start(g.origin)
    else Next(After(g, n - 1), g.touches[n - 1].sample, g.unit, g.placement, g.touches[n - 1].armed).0
  }

  function ReadingAt(g: Gesture, n: nat): Reading
    requires Sensible(g) && n < |g.touches|
  {
    Next(After(g, n), g.touches[n].sample, g.unit, g.placement, g.touches[n].armed).1
  }

  function TravelAt(g: Gesture, n: nat): real
    requires Sensible(g) && n < |g.touches|
  {
    Travel(After(g, n), g.touches[n].sample.at, g.placement)
  }

  lemma {:induction false} EveryMove(g: Gesture, n: nat)
    requires Sensible(g) && n <= |g.touches|
    ensures Inv(After(g, n), g.unit)
    ensures n > 0 ==> Keeps(After(g, n - 1), g.touches[n - 1].sample, g.unit, g.placement, After(g, n), ReadingAt(g, n - 1))
  {
    if n > 0 {
      var t := g.touches[n - 1];
      EveryMove(g, n - 1);
      NextKeeps(After(g, n - 1), t.sample, g.unit, g.placement, t.armed);
    }
  }

  /** Wherever a gesture stands, an event delivered twice changes nothing the second time. */
  lemma RepeatedEventInGesture(g: Gesture, n: nat)
    requires Sensible(g) && n < |g.touches|
    ensures SameAgain(After(g, n), g.touches[n].sample, g.unit, g.placement, g.touches[n].armed)
  {
    EveryMove(g, n);
    RepeatedEvent(After(g, n), g.touches[n].sample, g.unit, g.placement, g.touches[n].armed);
  }

  lemma GainSide(g: Gesture, n: nat)
    requires Sensible(g) && n < |g.touches|
    ensures ReadingAt(g, n).gain == 0.0 ==> After(g, n + 1).side == 0
    ensures ReadingAt(g, n).gain != 0.0 ==>
      Sign(ReadingAt(g, n).gain) == After(g, n + 1).side && After(g, n).side in {0, After(g, n + 1).side}
  {
    EveryMove(g, n + 1);
  }

  /** Between two gains of opposite sign some reading is zero. */
  lemma ReversalRests(g: Gesture, i: nat, j: nat)
    requires Sensible(g) && i < j < |g.touches|
    requires Sign(ReadingAt(g, i).gain) == -Sign(ReadingAt(g, j).gain) != 0
    ensures exists k :: i < k < j && ReadingAt(g, k).gain == 0.0
  {
    if forall k | i < k < j :: ReadingAt(g, k).gain != 0.0 {
      SideHolds(g, i, j);
      GainSide(g, j);
      assert false;
    }
  }

  lemma {:induction false} SideHolds(g: Gesture, i: nat, j: nat)
    requires Sensible(g) && i < j < |g.touches| && ReadingAt(g, i).gain != 0.0
    requires forall k | i < k < j :: ReadingAt(g, k).gain != 0.0
    ensures After(g, j).side == Sign(ReadingAt(g, i).gain) != 0
  {
    GainSide(g, j - 1);
    if i + 1 < j {
      SideHolds(g, i, j - 1);
    }
  }

  /** Once a stroke has been braked or interrupted, every later stroke starts beyond 0.45 of the unit. */
  lemma RestartNeedsTravel(g: Gesture, i: nat, j: nat)
    requires Sensible(g) && i < j < |g.touches|
    requires After(g, i).side != 0 && After(g, i + 1).side == 0
    requires After(g, j).side == 0 && ReadingAt(g, j).gain != 0.0
    ensures Abs(TravelAt(g, j)) > g.unit * 0.45
  {
    assert After(g, j).paused by {
      assert After(g, i + 1).paused by { EveryMove(g, i + 1); }
      StaysPaused(g, i + 1, j);
    }
    EveryMove(g, j + 1);
  }

  lemma {:induction false} StaysPaused(g: Gesture, i: nat, j: nat)
    requires Sensible(g) && i <= j <= |g.touches| && After(g, i).paused
    ensures After(g, j).paused
  {
    if i < j {
      StaysPaused(g, i, j - 1);
      EveryMove(g, j);
    }
  }

  /** A gain is the side times what the gear is worth, in a gear its travel allows. */
  lemma GainFitsTravel(g: Gesture, n: nat)
    requires Sensible(g) && n < |g.touches| && ReadingAt(g, n).gain != 0.0
    ensures GearFits(After(g, n + 1).gear, Abs(TravelAt(g, n)), g.unit)
    ensures Abs(ReadingAt(g, n).gain) == GearGain(After(g, n + 1).gear)
    ensures Sign(ReadingAt(g, n).gain) == After(g, n + 1).side
  {
    EveryMove(g, n + 1);
  }

  /******* When it lands, opens, stops, starts and shifts *******/

  /** How far the thumb is along the fan. */
  function Along(s: Stick, p: Point, placement: Placement): real {
    match placement
    case Bottom => p.x - s.neutral.x
    case Right => (s.neutral.y - p.y) + (s.neutral.x - p.x) / 5.0
  }

  /** The overview is shown exactly beyond its gate, and the stick is acquired exactly by a landing outside it. */
  lemma OpensIff(s: Stick, a: Sample, unit: real, placement: Placement, armed: bool)
    requires unit > 0.0 && Inv(s, unit)
    ensures var (s', r) := Next(s, a, unit, placement, armed);
      && (r.overview <==> a.central && a.distance > unit * (if armed then 2.7 else 3.2))
      && (s'.acquired <==> s.acquired || (!r.overview && a.distance >= unit * 0.7 && a.landing))
      && r.acquired == s'.acquired
      && (s'.neutral != s.neutral ==> s'.neutral == a.at && r.gain == 0.0)
  {
    GateFixed(s, a, unit, armed);
  }

  /** A stroke goes on unless the thumb crosses the neutral point, comes within 0.16 unit of it, or comes
      within 0.32 unit of it on its way back. */
  lemma StrokeEnds(s: Stick, a: Sample, unit: real, placement: Placement, armed: bool)
    requires unit > 0.0 && Inv(s, unit) && s.side != 0
    ensures var (s', r) := Next(s, a, unit, placement, armed);
      var m := s.side as real * Along(s, a.at, placement);
      !r.overview ==>
        (r.gain == 0.0 <==> m <= 0.16 * unit || (m <= 0.32 * unit && m < s.peak - 0.02 * unit))
  {
    var travel := Travel(s, a.at, placement);
    assert travel == Along(s, a.at, placement);
    GateFixed(s, a, unit, armed);
    DriveMoves(s, a, unit, travel, Rest(s, 0.0));
  }

  lemma DriveMoves(s: Stick, a: Sample, unit: real, travel: real, still: Reading)
    requires unit > 0.0 && Inv(s, unit)
    ensures var (s', r) := Drive(s, a, unit, travel, still); travel != 0.0 ==> r.gain != 0.0
  {
    if travel != 0.0 {
      GearSettles(if Sign(travel) != s.side then 1 else s.gear, Abs(travel), unit);
    }
  }

  /** From rest it starts beyond a quarter of a unit; after a brake beyond 0.45 unit, and after one across the
      neutral point besides on the remembered side, 0.12 unit further out. */
  lemma StrokeStarts(s: Stick, a: Sample, unit: real, placement: Placement, armed: bool)
    requires unit > 0.0 && Inv(s, unit) && s.side == 0 && s.acquired && !s.wasOverview
    ensures var (s', r) := Next(s, a, unit, placement, armed);
      var t := Along(s, a.at, placement);
      !r.overview ==>
        (r.gain != 0.0 <==>
          && Abs(t) > unit * (if s.paused then 0.45 else 0.25)
          && (s.reverseFrom.Some? ==> Abs(t) >= Abs(s.reverseFrom.value) + 0.12 * unit && (t > 0.0 <==> s.reverseFrom.value > 0.0)))
  {
    var travel := Travel(s, a.at, placement);
    assert travel == Along(s, a.at, placement);
    GateFixed(s, a, unit, armed);
    DriveMoves(s, a, unit, travel, Rest(s, 0.0));
  }

  /** The gear that a travel of m units gives a stroke in this gear. */
  function Shifted(gear: nat, m: real, unit: real): nat {
    if m >= 1.3 * unit then 3
    else if gear == 3 && m >= unit then 3
    else if m >= (if gear == 1 then 0.85 else 0.6) * unit then 2
    else 1
  }

  /** A stroke that starts does so from the lowest gear; each gear is taken at one travel and left below
      a smaller one. */
  lemma ShiftsIff(s: Stick, a: Sample, unit: real, placement: Placement, armed: bool)
    requires unit > 0.0 && Inv(s, unit) && a.distance >= 0.0
    ensures var (s', r) := Next(s, a, unit, placement, armed);
      var t := Along(s, a.at, placement);
      r.gain != 0.0 ==>
        && s'.gear == Shifted(if s.side == 0 then 1 else s.gear, Abs(t), unit)
        && s'.side == (if t > 0.0 then 1 else -1)
        && r.gain == s'.side as real * (if s'.gear == 1 then 18.0 else if s'.gear == 2 then 35.0 else 56.0)
  {
    var travel := Travel(s, a.at, placement);
    assert travel == Along(s, a.at, placement);
    NextKeeps(s, a, unit, placement, armed);
    if travel != 0.0 && s.acquired && (s.side == 0 || s.side == Sign(travel)) {
      ShiftedIs(if Sign(travel) != s.side then 1 else s.gear, Abs(travel), unit);
    }
  }

  lemma ShiftedIs(gear: nat, m: real, unit: real)
    requires 1 <= gear <= 3 && unit > 0.0
    ensures GearDown(GearUp(gear, m, unit), m, unit) == Shifted(gear, m, unit)
  {
    GearSettles(gear, m, unit);
    assert GearUp(2, m, unit) == if m >= unit * 1.3 then 3 else 2;
    assert GearDown(2, m, unit) == if m < unit * 0.6 then 1 else 2;
  }

  /******* The object the fan drives *******/

  class ThumbStick {
    const unit: real
    const placement: Placement
    var neutral: Point
    var motion: Point
    var radius: real
    var acquired: bool
    var side: int
    var gear: nat
    var peak: real
    var wasOverview: bool
    var paused: bool
    var reverseFrom: Option<real>

    function State(): Stick
      reads this
    {
      Stick(neutral, motion, radius, acquired, side, gear, peak, wasOverview, paused, reverseFrom)
    }

    ghost predicate Valid()
      reads this
    {
      unit > 0.0 && Inv(State(), unit)
    }

    constructor (origin: Point, unit: real, placement: Placement)
      requires unit > 0.0
      ensures Valid() && State() == Start(origin) && this.unit == unit && this.placement == placement
    {
      this.unit, this.placement := unit, placement;
      neutral, motion, radius, acquired := origin, origin, 0.0, false;
      side, gear, peak, wasOverview, paused, reverseFrom := 0, 0, 0.0, false, false, None;
    }

    method Move(a: Sample, armed: bool) returns (r: Reading)
      requires Valid() && a.distance >= 0.0
      modifies this
      ensures Valid() && (State(), r) == Next(old(State()), a, unit, placement, armed)
    {
      NextKeeps(State(), a, unit, placement, armed);
      if IsOverview(State(), a, unit, armed) {
        wasOverview, side, gear, peak, paused, reverseFrom := true, 0, 0, 0.0, true, None;
        return Reading(true, acquired, 0.0, false, 0.0);
      }
      if !acquired && a.distance >= unit * 0.7 && a.landing {
        neutral, motion, radius := a.at, a.at, Min(a.distance, unit * 1.2);
        acquired, wasOverview := true, false;
        return Reading(false, true, 0.0, false, 0.0);
      }
      if wasOverview {
        neutral, motion, wasOverview := a.at, a.at, false;
        return Reading(false, acquired, 0.0, false, 0.0);
      }
      r := Steered(a);
    }

    /** The two gear loops. */
    method Shift(magnitude: real, next: int)
      requires next != side || 1 <= gear <= 3
      modifies `gear
      ensures gear == GearDown(GearUp(if next != side then 1 else old(gear), magnitude, unit), magnitude, unit)
    {
      if next != side {
        gear := 1;
      }
      ghost var first := gear;
      while gear < 3 && magnitude >= unit * (if gear == 1 then 0.85 else 1.3)
        invariant 1 <= gear <= 3 && GearUp(gear, magnitude, unit) == GearUp(first, magnitude, unit)
        decreases 3 - gear
      {
        gear := gear + 1;
      }
      while gear > 1 && magnitude < unit * (if gear == 3 then 1.0 else 0.6)
        invariant 1 <= gear <= 3
        invariant GearDown(gear, magnitude, unit) == GearDown(GearUp(first, magnitude, unit), magnitude, unit)
        decreases gear
      {
        gear := gear - 1;
      }
    }

    method Steered(a: Sample) returns (r: Reading)
      requires Valid()
      modifies this
      ensures (State(), r) == Steer(old(State()), a, unit, placement)
    {
      var travel := Travel(State(), a.at, placement);
      var magnitude, next, stop := Abs(travel), Sign(travel), unit * 0.32;
      var still := Reading(false, acquired, 0.0, false, if acquired then Clamp(travel / (unit * 0.6), 2.0) else 0.0);
      if !acquired { return still; }
      var returning := magnitude <= unit * 0.16 || magnitude < peak - unit * 0.02;
      if side != 0 && ((magnitude <= stop && returning) || next != side) {
        reverseFrom := if next != side && magnitude > stop then Some(travel) else None;
        side, gear, peak, paused := 0, 0, 0.0, true;
        return still;
      }
      if reverseFrom.Some? {
        if magnitude <= stop {
          reverseFrom := None;
        } else if next != Sign(reverseFrom.value) {
          reverseFrom := Some(travel);
          return still;
        } else if magnitude < Abs(reverseFrom.value) + unit * 0.12 {
          return still;
        } else {
          reverseFrom := None;
        }
      }
      if side == 0 && magnitude <= unit * (if paused then 0.45 else 0.25) { return still; }
      assert Drives(old(State()), travel, unit);
      var previous := gear;
      Shift(magnitude, next);
      var moved := gear != previous || FarApart(a.at, motion, unit);
      side := next;
      peak := Max(peak, magnitude);
      if moved {
        motion := a.at;
      }
      return still.(gain := side as real * GearGain(gear), moved := moved);
    }
  }
}
