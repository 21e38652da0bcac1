/** The reflection variant of the bounce (dvd.py): a bounding box moved one
    velocity step per frame, the two edges the heading faces tested after the
    move, the overshoot added back as a correction, and the heading and the
    edge checks swapped per crossed axis. */
module Dvd {
  import opened Compass

  datatype Option<T> = None | Some(value: T)

  /** Canvas size (`FrameResolution`). */
  datatype Resolution = Resolution(width: int, height: int)

  /** An `AbsoluteBoundingBox` as a value: its four edges in pixels. */
  datatype Box = Box(leftX: int, rightX: int, topY: int, bottomY: int) {

    function X(): int { leftX }

    function Y(): int { topY }

    function Width(): int { rightX - leftX }

    function Height(): int { bottomY - topY }

    /** `from_origin`: the box whose top-left corner is (x, y) and whose size is width × height. */
    static function FromOrigin(x: int, y: int, width: int, height: int): (b: Box)
      ensures b.X() == x && b.Y() == y && b.Width() == width && b.Height() == height
      ensures b.rightX == x + width && b.bottomY == y + height
    {
      Box(x, x + width, y, y + height)
    }

    /** `box + delta`: the box shifted by delta, same size. */
    function Plus(delta: (int, int)): (b: Box)
      ensures b.X() == X() + delta.0 && b.Y() == Y() + delta.1
      ensures b.Width() == Width() && b.Height() == Height()
    {
      Box(leftX + delta.0, rightX + delta.0, topY + delta.1, bottomY + delta.1)
    }
  }

  /** The dataclass itself, whose `+=` updates the fields in place. */
  class AbsoluteBoundingBox {
    var leftX: int
    var rightX: int
    var topY: int
    var bottomY: int

    function Value(): Box
      reads this
    {
      Box(leftX, rightX, topY, bottomY)
    }

    /** The dataclass's generated initialiser. */
    constructor (leftX: int, rightX: int, topY: int, bottomY: int)
      ensures Value() == Box(leftX, rightX, topY, bottomY)
    {
      this.leftX := leftX;
      this.rightX := rightX;
      this.topY := topY;
      this.bottomY := bottomY;
    }

    /** `AbsoluteBoundingBox.from_origin(x, y, width, height)`. */
    constructor FromOrigin(x: int, y: int, width: int, height: int)
      ensures Value() == Box.FromOrigin(x, y, width, height)
      ensures Value().X() == x && Value().Y() == y
      ensures Value().Width() == width && Value().Height() == height
    {
      leftX := x;
      topY := y;
      rightX := x + width;
      bottomY := y + height;
    }

    /** `__iadd__`: shifts this very box and returns it. */
    method IAdd(delta: (int, int)) returns (self: AbsoluteBoundingBox)
      modifies this
      ensures self == this
      ensures Value() == old(Value()).Plus(delta)
      ensures Value().Width() == old(Value().Width()) && Value().Height() == old(Value().Height())
    {
      if delta.0 != 0 {
        leftX := leftX + delta.0;
        rightX := rightX + delta.0;
      }
      if delta.1 != 0 {
        topY := topY + delta.1;
        bottomY := bottomY + delta.1;
      }
      self := this;
    }

    /** `__add__`: a new shifted box; this one is left as it was. */
    method Add(delta: (int, int)) returns (r: AbsoluteBoundingBox)
      ensures fresh(r) && r.Value() == Value().Plus(delta)
      ensures unchanged(this)
    {
      r := new AbsoluteBoundingBox(leftX + delta.0, rightX + delta.0, topY + delta.1, bottomY + delta.1);
    }
  }

  /** `+` and `+=` land on the same coordinates; `+=` also keeps the size. */
  method AddAgreesWithIAdd(box: AbsoluteBoundingBox, delta: (int, int)) returns (sum: Box)
    modifies box
    ensures sum == box.Value()
    ensures sum == old(box.Value()).Plus(delta)
  {
    var copy := box.Add(delta);
    var same := box.IAdd(delta);
    sum := copy.Value();
  }

  /** The shift each `move_*` function adds to the box. */
  function MoveDelta(d: Direction, velocity: int): (delta: (int, int))
    ensures delta.0 == if DX(d) == 1 then velocity else -velocity
    ensures delta.1 == if DY(d) == 1 then velocity else -velocity
  {
    match d
    case Southeast => (velocity, velocity)
    case Northeast => (velocity, -velocity)
    case Northwest =>
      var negativeVelocity := -1 * velocity;
      (negativeVelocity, negativeVelocity)
    case Southwest => (-velocity, velocity)
  }

  /** `move_southeast` … `move_southwest`, chosen by heading. */
  function MoveBox(d: Direction, current: Box, velocity: int): (b: Box)
    ensures b.X() == if DX(d) == 1 then current.X() + velocity else current.X() - velocity
    ensures b.Y() == if DY(d) == 1 then current.Y() + velocity else current.Y() - velocity
    ensures b.Width() == current.Width() && b.Height() == current.Height()
  {
    current.Plus(MoveDelta(d, velocity))
  }

  /** The four `passes_*_boundary` functions, named by the edge they test. */
  datatype Edge = North | South | East | West

  function Opposite(e: Edge): Edge {
    match e
    case North => South
    case South => North
    case East => West
    case West => East
  }

  /** Whether a box lies past an edge of the canvas. */
  predicate Crossed(e: Edge, b: Box, res: Resolution) {
    match e
    case North => b.topY < 0
    case South => b.bottomY > res.height
    case East => b.rightX > res.width
    case West => b.leftX < 0
  }

  /** The boundary delta: zero when the box is not past the edge, otherwise
      the overshoot as a negative number. The correction adds it to the box,
      which moves a box back in from the south or east edge but further out
      from the north or west edge: the near-edge deltas have the wrong sign. */
  function Delta(e: Edge, b: Box, res: Resolution): (r: int)
    ensures r <= 0
    ensures r == 0 <==> !Crossed(e, b, res)
    ensures e == South ==> r == if res.height - b.bottomY < 0 then res.height - b.bottomY else 0
    ensures e == East ==> r == if res.width - b.rightX < 0 then res.width - b.rightX else 0
    ensures e == North && Crossed(e, b, res) ==> r == b.topY
    ensures e == West && Crossed(e, b, res) ==> r == b.leftX
  {
    match e
    case North => if b.topY < 0 then b.topY else 0
    case West => if b.leftX < 0 then b.leftX else 0
    case South => Min(0, res.height - b.bottomY)
    case East => Min(0, res.width - b.rightX)
  }

  function Min(a: int, b: int): int {
    if a <= b then a else b
  }

  /** Index into `swaps`: HORIZONTAL = 0, VERTICAL = 1. */
  datatype Axis = Horizontal | Vertical

  /** `swaps[axis][move]`: the heading with that axis reversed. */
  function Swap(axis: Axis, d: Direction): (r: Direction)
    ensures axis == Horizontal ==> DX(r) == -DX(d) && DY(r) == DY(d)
    ensures axis == Vertical ==> DX(r) == DX(d) && DY(r) == -DY(d)
  {
    match axis
    case Horizontal => (
      match d
      case Northeast => Northwest
      case Southeast => Southwest
      case Northwest => Northeast
      case Southwest => Southeast)
    case Vertical => (
      match d
      case Northeast => Southeast
      case Southeast => Northeast
      case Northwest => Southwest
      case Southwest => Northwest)
  }

  /** Each swap table is an involution, the two commute, and applying both
      sends a heading to its diagonal opposite. */
  lemma SwapTables(axis: Axis, d: Direction)
    ensures Swap(axis, Swap(axis, d)) == d
    ensures Swap(Horizontal, Swap(Vertical, d)) == Swap(Vertical, Swap(Horizontal, d))
    ensures DX(Swap(Horizontal, Swap(Vertical, d))) == -DX(d)
    ensures DY(Swap(Horizontal, Swap(Vertical, d))) == -DY(d)
  {
  }

  /** A current / reverse pair of boundary checks for one axis. */
  datatype CheckPair = CheckPair(current: Edge, reverse: Edge)

  /** The keyword dictionary the driver threads through `velocity_update`. */
  datatype Keywords = Keywords(
    flip: bool,                    // the "flip" key is present (it is only ever True)
    nextLocationVelocity: Direction,
    velocity: int,
    currentNorthSouth: Edge,
    currentEastWest: Edge,
    reverseNorthSouth: Edge,
    reverseEastWest: Edge,
    frameResolution: Resolution,
    currentImageLocation: Box)

  /** The dictionary `velocity_update` returns: the location always, the
      other keys only when a boundary was crossed. */
  datatype Changes = Changes(
    currentImageLocation: Box,
    nextLocationVelocity: Option<Direction>,
    northSouth: Option<CheckPair>,
    eastWest: Option<CheckPair>,
    flip: bool)

  /** `keywords |= changes`: keys present in the changes replace the old values. */
  function Merge(k: Keywords, c: Changes): Keywords
  {
    var k1 := k.(currentImageLocation := c.currentImageLocation);
    var k2 := if c.nextLocationVelocity.Some? then k1.(nextLocationVelocity := c.nextLocationVelocity.value) else k1;
    var k3 := if c.northSouth.Some? then k2.(currentNorthSouth := c.northSouth.value.current, reverseNorthSouth := c.northSouth.value.reverse) else k2;
    var k4 := if c.eastWest.Some? then k3.(currentEastWest := c.eastWest.value.current, reverseEastWest := c.eastWest.value.reverse) else k3;
    if c.flip then k4.(flip := true) else k4
  }

  /** The tentative location: the box moved one step in the current heading. */
  function Moved(k: Keywords): Box {
    MoveBox(k.nextLocationVelocity, k.currentImageLocation, k.velocity)
  }

  function NorthSouthDelta(k: Keywords): int {
    Delta(k.currentNorthSouth, Moved(k), k.frameResolution)
  }

  function EastWestDelta(k: Keywords): int {
    Delta(k.currentEastWest, Moved(k), k.frameResolution)
  }

  /** `velocity_update` as a function of the keywords. */
  function Update(k: Keywords): Changes {
    var newLocation := Moved(k);
    var northDelta := NorthSouthDelta(k);
    var eastDelta := EastWestDelta(k);
    if northDelta == 0 && eastDelta == 0 then
      Changes(newLocation, None, None, None, false)
    else
      var afterVertical := if northDelta != 0 then Swap(Vertical, k.nextLocationVelocity) else k.nextLocationVelocity;
      var afterHorizontal := if eastDelta != 0 then Swap(Horizontal, afterVertical) else afterVertical;
      Changes(
        newLocation.Plus((eastDelta, northDelta)),
        Some(afterHorizontal),
        if northDelta != 0 then Some(CheckPair(k.reverseNorthSouth, k.currentNorthSouth)) else None,
        if eastDelta != 0 then Some(CheckPair(k.reverseEastWest, k.currentEastWest)) else None,
        eastDelta != 0)
  }

  /** `velocity_update` as the source runs it: the move builds a fresh box,
      `+=` corrects that box in place (the returned dictionary holds the
      same box, so it sees the correction), and the dictionary grows by `|=`. */
  method VelocityUpdate(k: Keywords) returns (c: Changes)
    ensures c == Update(k)
  {
    var loc := k.currentImageLocation;
    var current := new AbsoluteBoundingBox(loc.leftX, loc.rightX, loc.topY, loc.bottomY);
    var newLocation := current.Add(MoveDelta(k.nextLocationVelocity, k.velocity));

    var northBoundaryDelta := Delta(k.currentNorthSouth, newLocation.Value(), k.frameResolution);
    var eastBoundaryDelta := Delta(k.currentEastWest, newLocation.Value(), k.frameResolution);

    if northBoundaryDelta == 0 && eastBoundaryDelta == 0 {
      return Changes(newLocation.Value(), None, None, None, false);
    }

    newLocation := newLocation.IAdd((eastBoundaryDelta, northBoundaryDelta));
    c := Changes(newLocation.Value(), None, None, None, false);
    var nextLocationVelocity := k.nextLocationVelocity;

    if northBoundaryDelta != 0 {
      c := c.(northSouth := Some(CheckPair(k.reverseNorthSouth, k.currentNorthSouth)));
      nextLocationVelocity := Swap(Vertical, nextLocationVelocity);
    }

    if eastBoundaryDelta != 0 {
      c := c.(eastWest := Some(CheckPair(k.reverseEastWest, k.currentEastWest)), flip := true);
      nextLocationVelocity := Swap(Horizontal, nextLocationVelocity);
    }

    c := c.(nextLocationVelocity := Some(nextLocationVelocity));
  }

  /** When neither current check fires, only the moved location comes back,
      so merging keeps the heading, all four checks and the flip key; and
      when one fires, a new heading comes back. */
  lemma QuietUpdate(k: Keywords)
    ensures Update(k).nextLocationVelocity.None? <==>
              !Crossed(k.currentNorthSouth, Moved(k), k.frameResolution) &&
              !Crossed(k.currentEastWest, Moved(k), k.frameResolution)
    ensures Update(k).nextLocationVelocity.None? ==>
              Update(k) == Changes(Moved(k), None, None, None, false) &&
              Merge(k, Update(k)) == k.(currentImageLocation := Moved(k))
  {
  }

  /** The correction `new_location += (east_delta, north_delta)`: a south or
      east crossing lands the box exactly on that edge, while a north or
      west crossing at tentative coordinate t < 0 leaves it at 2t, further
      out; an axis not crossed keeps the tentative coordinates, and the
      size never changes. */
  lemma BounceCorrection(k: Keywords)
    ensures var c := Update(k).currentImageLocation; var m := Moved(k); var res := k.frameResolution;
      && c.Width() == k.currentImageLocation.Width()
      && c.Height() == k.currentImageLocation.Height()
      && (k.currentNorthSouth == South && Crossed(South, m, res) ==> c.bottomY == res.height)
      && (k.currentEastWest == East && Crossed(East, m, res) ==> c.rightX == res.width)
      && (k.currentNorthSouth == North && Crossed(North, m, res) ==> c.topY == 2 * m.topY < 0)
      && (k.currentEastWest == West && Crossed(West, m, res) ==> c.leftX == 2 * m.leftX < 0)
      && (!Crossed(k.currentNorthSouth, m, res) ==> c.topY == m.topY && c.bottomY == m.bottomY)
      && (!Crossed(k.currentEastWest, m, res) ==> c.leftX == m.leftX && c.rightX == m.rightX)
  {
  }

  /** A north/south crossing swaps the vertical checks and reverses the
      vertical heading; an east/west crossing swaps the horizontal checks,
      reverses the horizontal heading and sets flip; a corner does both in
      one call. Flip is set exactly when the east/west delta is non-zero. */
  lemma BounceTurns(k: Keywords)
    ensures var c := Update(k); var m := Moved(k); var res := k.frameResolution;
      var ns := Crossed(k.currentNorthSouth, m, res);
      var ew := Crossed(k.currentEastWest, m, res);
      && (c.flip <==> EastWestDelta(k) != 0)
      && (c.flip <==> ew)
      && (c.northSouth.Some? <==> ns)
      && (ns ==> c.northSouth == Some(CheckPair(k.reverseNorthSouth, k.currentNorthSouth)))
      && (c.eastWest.Some? <==> ew)
      && (ew ==> c.eastWest == Some(CheckPair(k.reverseEastWest, k.currentEastWest)))
      && ((ns || ew) ==>
            && c.nextLocationVelocity.Some?
            && DX(c.nextLocationVelocity.value) == (if ew then -DX(k.nextLocationVelocity) else DX(k.nextLocationVelocity))
            && DY(c.nextLocationVelocity.value) == (if ns then -DY(k.nextLocationVelocity) else DY(k.nextLocationVelocity)))
  {
  }

  /** The checks in the current slots are the edges the heading faces, and
      each reverse slot holds the opposite edge. */
  ghost predicate Consistent(k: Keywords) {
    && (k.currentNorthSouth == South || k.currentNorthSouth == North)
    && (k.currentNorthSouth == South <==> DY(k.nextLocationVelocity) == 1)
    && k.reverseNorthSouth == Opposite(k.currentNorthSouth)
    && (k.currentEastWest == East || k.currentEastWest == West)
    && (k.currentEastWest == East <==> DX(k.nextLocationVelocity) == 1)
    && k.reverseEastWest == Opposite(k.currentEastWest)
  }

  /** One driver iteration: pop the flip key, then `keywords |= velocity_update(**keywords)`. */
  function Next(k: Keywords): Keywords {
    var popped := k.(flip := false);
    Merge(popped, Update(popped))
  }

  /** `velocity_update` keeps the current checks facing the heading. */
  lemma ConsistentPreserved(k: Keywords)
    requires Consistent(k)
    ensures Consistent(Next(k))
  {
    var popped := k.(flip := false);
    BounceTurns(popped);
  }
}
