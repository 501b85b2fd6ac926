/** The car that drives along the bottom of the terminal: a position in
    percent of the width that bounces between two edges, speeding up for a
    while after each bounce, and hidden once the terminal holds many lines. */
module MovingCar {

  /** The right edge, as a percentage of the width. */
  const RightEdge: int := 92

  /** Above this many terminal lines the car is hidden. */
  const MaxLines: int := 12

  /** The three values one tick of the interval reads and writes. */
  datatype Motion = Motion(position: int, direction: int, boosting: bool)

  /** On the road: between the edges, heading left or right. */
  predicate OnRoad(m: Motion) {
    0 <= m.position <= RightEdge && (m.direction == 1 || m.direction == -1)
  }

  function Speed(boosting: bool): int {
    if boosting then 4 else 2
  }

  /** The position the car would reach if no edge stopped it. */
  function Target(m: Motion): int {
    m.position + m.direction * Speed(m.boosting)
  }

  /** One tick: move by the speed in the current direction; on reaching or
      passing an edge, stop at the edge, turn round and boost. */
  function Advance(m: Motion): (r: Motion)
    ensures 0 <= r.position <= RightEdge
    ensures r.position == RightEdge ==> r.direction == -1 && r.boosting
    ensures r.position == 0 ==> r.direction == 1 && r.boosting
    ensures 0 < r.position < RightEdge ==>
      r.position == Target(m) && r.direction == m.direction && r.boosting == m.boosting
    ensures OnRoad(m) ==> OnRoad(r)
  {
    var next := Target(m);
    if next >= RightEdge then Motion(RightEdge, -1, true)
    else if next <= 0 then Motion(0, 1, true)
    else Motion(next, m.direction, m.boosting)
  }

  /** Whether the car is shown for a terminal holding `linesCount` lines. */
  predicate Visible(linesCount: int) {
    linesCount <= MaxLines
  }

  /** The car after `n` ticks. */
  function Ticks(m: Motion, n: nat): Motion
    decreases n
  {
    if n == 0 then m else Ticks(Advance(m), n - 1)
  }

  /** The car as the component holds it: four state cells. */
  class Car {
    var position: int
    var direction: int
    var visible: bool
    var boosting: bool

    function State(): Motion
      reads this
    {
      Motion(position, direction, boosting)
    }

    constructor ()
      ensures position == 0 && direction == 1 && visible && !boosting
      ensures OnRoad(State())
    {
      position, direction, visible, boosting := 0, 1, true, false;
    }

    /** The effect run when the line count changes: show or hide the car. */
    method Refresh(linesCount: int)
      modifies this
      ensures visible == Visible(linesCount)
      ensures State() == old(State())
    {
      visible := linesCount <= MaxLines;
    }

    /** One firing of the interval; the interval only runs while the car is shown. */
    method Tick()
      modifies this
      ensures visible == old(visible)
      ensures State() == if old(visible) then Advance(old(State())) else old(State())
      ensures old(OnRoad(State())) ==> OnRoad(State())
    {
      if visible {
        var speed := Speed(boosting);
        var newPosition := position + direction * speed;
        if newPosition >= RightEdge {
          direction := -1;
          boosting := true;
          position := RightEdge;
        } else if newPosition <= 0 {
          direction := 1;
          boosting := true;
          position := 0;
        } else {
          position := newPosition;
        }
      }
    }

    /** The delayed reset that ends a boost. */
    method BoostOff()
      modifies this
      ensures !boosting
      ensures position == old(position) && direction == old(direction) && visible == old(visible)
    {
      boosting := false;
    }
  }

  /** The three cases of one tick, as the component writes them. */
  lemma TickCases(m: Motion)
    ensures Target(m) >= RightEdge ==> Advance(m) == Motion(RightEdge, -1, true)
    ensures Target(m) <= 0 ==> Advance(m) == Motion(0, 1, true)
    ensures 0 < Target(m) < RightEdge ==> Advance(m) == Motion(Target(m), m.direction, m.boosting)
  {
  }

  /** The car never leaves the road, however many ticks run. */
  lemma {:induction false} StaysOnRoad(m: Motion, n: nat)
    requires OnRoad(m)
    ensures OnRoad(Ticks(m, n))
    decreases n
  {
    if n > 0 {
      StaysOnRoad(Advance(m), n - 1);
    }
  }
}
