/** Seating the names of a scatter plot (berth in apps/gui/lab/quota-usage.tsx). Coordinates are reals. */
module Seating {
  import opened Results

  datatype Box = Box(x0: real, y0: real, x1: real, y1: real)

  datatype Anchor = Start | Middle | End

  datatype Seat = Seat(x: real, y: real, anchor: Anchor)

  /** A point's centre and radius, and the width of its name. */
  datatype Label = Label(cx: real, cy: real, r: real, w: real)

  /** Neither is beside, above or below the other. */
  predicate Overlap(a: Box, b: Box) {
    !(a.x1 < b.x0 || a.x0 > b.x1 || a.y1 < b.y0 || a.y0 > b.y1)
  }

  predicate Covers(b: Box, x: real, y: real) {
    b.x0 <= x <= b.x1 && b.y0 <= y <= b.y1
  }

  /** Boxes overlap exactly if they have a point in common. */
  lemma OverlapIffShared(a: Box, b: Box)
    requires a.x0 <= a.x1 && a.y0 <= a.y1 && b.x0 <= b.x1 && b.y0 <= b.y1
    ensures Overlap(a, b) <==> exists x, y :: Covers(a, x, y) && Covers(b, x, y)
  {
    if Overlap(a, b) {
      var x := if a.x0 < b.x0 then b.x0 else a.x0;
      var y := if a.y0 < b.y0 then b.y0 else a.y0;
      assert Covers(a, x, y) && Covers(b, x, y);
    }
  }

  /** Above, right, left, below. */
  function Tries(l: Label, size: real): seq<Seat> {
    [Seat(l.cx, l.cy - l.r - 6.0, Middle),
     Seat(l.cx + l.r + 5.0, l.cy + size * 0.4, Start),
     Seat(l.cx - l.r - 5.0, l.cy + size * 0.4, End),
     Seat(l.cx, l.cy + l.r + size * 1.3, Middle)]
  }

  /** The words' own box. */
  function BoxOf(s: Seat, w: real, size: real): Box {
    var x0 := match s.anchor case Middle => s.x - w / 2.0 case End => s.x - w case Start => s.x;
    Box(x0, s.y - size * 0.9, x0 + w, s.y + size * 0.25)
  }

  predicate Inside(b: Box, width: real, height: real) {
    2.0 <= b.x0 && b.x1 <= width - 2.0 && 2.0 <= b.y0 && b.y1 <= height - 2.0
  }

  predicate Free(b: Box, taken: seq<Box>) {
    forall t | t in taken :: !Overlap(b, t)
  }

  predicate Fits(s: Seat, w: real, size: real, taken: seq<Box>, width: real, height: real) {
    Inside(BoxOf(s, w, size), width, height) && Free(BoxOf(s, w, size), taken)
  }

  predicate FirstFit(tries: seq<Seat>, k: nat, w: real, size: real, taken: seq<Box>, width: real, height: real)
    requires k < |tries|
  {
    && Fits(tries[k], w, size, taken, width, height)
    && forall j | 0 <= j < k :: !Fits(tries[j], w, size, taken, width, height)
  }

  /** The first seat of the four that fits. */
  ghost predicate IsBerth(seat: Option<Seat>, l: Label, taken: seq<Box>, size: real, width: real, height: real) {
    var tries := Tries(l, size);
    match seat
    case None => forall k | 0 <= k < 4 :: !Fits(tries[k], l.w, size, taken, width, height)
    case Some(s) => exists k | 0 <= k < 4 :: s == tries[k] && FirstFit(tries, k, l.w, size, taken, width, height)
  }

  /** No two of the boxes share a point. */
  ghost predicate Apart(boxes: seq<Box>) {
    forall i, j | 0 <= i < j < |boxes| :: !Overlap(boxes[i], boxes[j])
  }

  predicate AllInside(boxes: seq<Box>, width: real, height: real) {
    forall b | b in boxes :: Inside(b, width, height)
  }

  lemma OneMoreApart(boxes: seq<Box>, b: Box)
    requires Apart(boxes) && Free(b, boxes)
    ensures Apart(boxes + [b])
  {
    forall i | 0 <= i < |boxes|
      ensures !Overlap(boxes[i], b)
    {
      assert boxes[i] in boxes;
    }
  }

  class Plot {
    const size: real
    const width: real
    const height: real
    var taken: seq<Box>

    /** The gutter of the y ticks is taken from the start; names stay above the x ticks. */
    constructor (size: real, padL: real, width: real, height: real)
      ensures taken == [Box(0.0, 0.0, padL - 2.0, height)]
      ensures this.size == size && this.width == width && this.height == height - 16.0
    {
      this.size, this.width, this.height := size, width, height - 16.0;
      taken := [Box(0.0, 0.0, padL - 2.0, height)];
    }

    method Berth(l: Label) returns (seat: Option<Seat>)
      modifies `taken
      ensures IsBerth(seat, l, old(taken), size, width, height)
      ensures taken == if seat.Some? then old(taken) + [BoxOf(seat.value, l.w, size)] else old(taken)
    {
      var tries := Tries(l, size);
      for k := 0 to 4
        invariant taken == old(taken)
        invariant forall j | 0 <= j < k :: !Fits(tries[j], l.w, size, taken, width, height)
      {
        var box := BoxOf(tries[k], l.w, size);
        if !Inside(box, width, height) { continue; }
        var some := AnyOverlap(box);
        if some { continue; }
        taken := taken + [box];
        assert FirstFit(tries, k, l.w, size, old(taken), width, height);
        return Some(tries[k]);
      }
      return None;
    }

    method AnyOverlap(box: Box) returns (some: bool)
      ensures some <==> !Free(box, taken)
    {
      for i := 0 to |taken|
        invariant forall t | t in taken[..i] :: !Overlap(box, t)
      {
        if Overlap(box, taken[i]) { return true; }
      }
      assert taken[..|taken|] == taken;
      return false;
    }

    /** Every name in turn. */
    method SeatAll(labels: seq<Label>) returns (seats: seq<Option<Seat>>)
      requires Apart(taken) && taken != [] && AllInside(taken[1..], width, height)
      modifies `taken
      ensures Progress(labels, seats, old(taken), taken, size, width, height)
    {
      seats := [];
      ghost var first, done: seq<Label> := taken, [];
      NoneSeated(taken, size, width, height);
      for n := 0 to |labels|
        invariant done == labels[..n]
        invariant Progress(done, seats, first, taken, size, width, height)
      {
        ghost var before := taken;
        var seat := Berth(labels[n]);
        OneMoreSeated(done, seats, labels[n], seat, first, before, size, width, height);
        seats, done := seats + [seat], done + [labels[n]];
      }
      assert done == labels;
    }
  }

  /** The boxes of the names that were seated. */
  function Placed(labels: seq<Label>, seats: seq<Option<Seat>>, size: real): seq<Box>
    requires |labels| == |seats|
  {
    if labels == [] then []
    else
      var n := |labels| - 1;
      var before := Placed(labels[..n], seats[..n], size);
      if seats[n].Some? then before + [BoxOf(seats[n].value, labels[n].w, size)] else before
  }

  /** Every name has its berth among what was taken before it. */
  ghost predicate InTurn(labels: seq<Label>, seats: seq<Option<Seat>>, taken: seq<Box>, size: real, width: real, height: real) {
    && |labels| == |seats|
    && (labels != [] ==>
      var n := |labels| - 1;
      && InTurn(labels[..n], seats[..n], taken, size, width, height)
      && IsBerth(seats[n], labels[n], taken + Placed(labels[..n], seats[..n], size), size, width, height))
  }

  lemma InTurnMore(labels: seq<Label>, seats: seq<Option<Seat>>, l: Label, seat: Option<Seat>, taken: seq<Box>,
                   size: real, width: real, height: real)
    requires InTurn(labels, seats, taken, size, width, height)
    requires IsBerth(seat, l, taken + Placed(labels, seats, size), size, width, height)
    ensures InTurn(labels + [l], seats + [seat], taken, size, width, height)
  {
    assert (labels + [l])[..|labels|] == labels && (seats + [seat])[..|seats|] == seats;
  }

  lemma PlacedMore(labels: seq<Label>, seats: seq<Option<Seat>>, l: Label, seat: Option<Seat>, size: real)
    requires |labels| == |seats|
    ensures Placed(labels + [l], seats + [seat], size)
      == Placed(labels, seats, size) + if seat.Some? then [BoxOf(seat.value, l.w, size)] else []
  {
    assert (labels + [l])[..|labels|] == labels && (seats + [seat])[..|seats|] == seats;
  }

  /** A seat keeps all boxes apart and all but the gutter in bounds. */
  lemma BerthKeeps(taken: seq<Box>, seat: Option<Seat>, l: Label, size: real, width: real, height: real)
    requires IsBerth(seat, l, taken, size, width, height)
    requires Apart(taken) && taken != [] && AllInside(taken[1..], width, height)
    ensures var boxes := taken + if seat.Some? then [BoxOf(seat.value, l.w, size)] else [];
      Apart(boxes) && AllInside(boxes[1..], width, height)
  {
    if seat.Some? {
      var box := BoxOf(seat.value, l.w, size);
      OneMoreApart(taken, box);
      assert (taken + [box])[1..] == taken[1..] + [box];
    } else {
      assert taken + [] == taken;
    }
  }

  /** Every name has its berth in turn, what is taken is what was and the boxes of those seated, all apart
      and all but the gutter in bounds. */
  ghost predicate Progress(labels: seq<Label>, seats: seq<Option<Seat>>, first: seq<Box>, taken: seq<Box>,
                           size: real, width: real, height: real)
  {
    && InTurn(labels, seats, first, size, width, height)
    && taken == first + Placed(labels, seats, size) && taken != []
    && Apart(taken) && AllInside(taken[1..], width, height)
  }

  lemma NoneSeated(taken: seq<Box>, size: real, width: real, height: real)
    requires Apart(taken) && taken != [] && AllInside(taken[1..], width, height)
    ensures Progress([], [], taken, taken, size, width, height)
  {
    assert taken + [] == taken;
  }

  lemma OneMoreSeated(labels: seq<Label>, seats: seq<Option<Seat>>, l: Label, seat: Option<Seat>, first: seq<Box>,
                      taken: seq<Box>, size: real, width: real, height: real)
    requires Progress(labels, seats, first, taken, size, width, height) && IsBerth(seat, l, taken, size, width, height)
    ensures Progress(labels + [l], seats + [seat], first,
                     if seat.Some? then taken + [BoxOf(seat.value, l.w, size)] else taken, size, width, height)
  {
    BerthKeeps(taken, seat, l, size, width, height);
    PlacedMore(labels, seats, l, seat, size);
    InTurnMore(labels, seats, l, seat, first, size, width, height);
    assert seat.None? ==> taken + [] == taken;
  }

  /** Boxes that are apart have no point in common, names and gutter alike. */
  lemma NoPointTwice(boxes: seq<Box>, i: nat, j: nat, x: real, y: real)
    requires Apart(boxes) && i < |boxes| && j < |boxes| && i != j
    ensures !(Covers(boxes[i], x, y) && Covers(boxes[j], x, y))
  {
    assert !Overlap(boxes[if i < j then i else j], boxes[if i < j then j else i]);
  }
}
