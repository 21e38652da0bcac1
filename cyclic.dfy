/** The older bounce variant (main.py): the heading walks a fixed cycle
    southeast → northeast → northwest → southwest, and advances one place
    whenever a look-ahead test of the current pair of boundary predicates
    fires; then the paste position moves one velocity step on both axes. */
module Cyclic {
  import opened Compass
  import FrameNames
  import opened Traces

  /** The settings `main` hard-codes. */
  const FramesPerSecond := 60
  const Duration := 1
  const Velocity := 20
  const ResolutionWidth := 3840
  const ResolutionHeight := 2160

  /** `move_southeast` … `move_southwest` on the paste position. */
  function Move(d: Direction, x: int, y: int, velocity: int): (p: (int, int))
    ensures p.0 == if DX(d) == 1 then x + velocity else x - velocity
    ensures p.1 == if DY(d) == 1 then y + velocity else y - velocity
  {
    match d
    case Southeast => (x + velocity, y + velocity)
    case Northeast => (x + velocity, y - velocity)
    case Northwest => (x - velocity, y - velocity)
    case Southwest => (x - velocity, y + velocity)
  }

  /** The four `passes_*_boundary` predicates, under the names the source gives them. */
  datatype Check = PassesNorthBoundary | PassesWestBoundary | PassesSouthBoundary | PassesEastBoundary

  /** The look-ahead tests on the top-left (`top_*`) and bottom-right
      (`bottom_*`) corners; the "south" one compares x with the width and
      the "east" one compares y with the height, as written. */
  function Passes(c: Check, topX: int, topY: int, bottomX: int, bottomY: int,
                  width: int, height: int, velocity: int): bool
  {
    match c
    case PassesNorthBoundary => topY - velocity < 0
    case PassesWestBoundary => topX - velocity < 0
    case PassesSouthBoundary => bottomX + velocity > width
    case PassesEastBoundary => bottomY + velocity > height
  }

  /** The two `itertools.cycle` sequences; position i of each is used together. */
  const MoveFunctions: seq<Direction> := [Southeast, Northeast, Northwest, Southwest]
  const PassesBoundaryFunctions: seq<(Check, Check)> := [
    (PassesSouthBoundary, PassesEastBoundary),
    (PassesNorthBoundary, PassesEastBoundary),
    (PassesNorthBoundary, PassesWestBoundary),
    (PassesSouthBoundary, PassesWestBoundary)]

  /** Sprite size, canvas size and step, fixed for a run. */
  datatype Scene = Scene(logoWidth: int, logoHeight: int, width: int, height: int, velocity: int)

  /** A position in the two 4-element cycles. */
  type CyclePosition = i: nat | i < 4

  /** The loop state: paste position and the position of both cycles. */
  datatype Sprite = Sprite(pasteX: int, pasteY: int, index: CyclePosition)

  /** What one `next()` does to a position: on by one, wrapping after the fourth. */
  function Advance(index: CyclePosition): CyclePosition {
    if index == 3 then 0 else index + 1
  }

  function Heading(s: Sprite): Direction {
    MoveFunctions[s.index]
  }

  /** Whether one more step would take an edge of the sprite past an edge of the canvas. */
  predicate ReachesTop(s: Sprite, sc: Scene) { s.pasteY - sc.velocity < 0 }
  predicate ReachesLeft(s: Sprite, sc: Scene) { s.pasteX - sc.velocity < 0 }
  predicate ReachesRight(s: Sprite, sc: Scene) { s.pasteX + sc.logoWidth + sc.velocity > sc.width }
  predicate ReachesBottom(s: Sprite, sc: Scene) { s.pasteY + sc.logoHeight + sc.velocity > sc.height }

  function Test(c: Check, s: Sprite, sc: Scene): bool {
    Passes(c, s.pasteX, s.pasteY, s.pasteX + sc.logoWidth, s.pasteY + sc.logoHeight, sc.width, sc.height, sc.velocity)
  }

  /** Some predicate of the current pair holds. */
  predicate Fires(s: Sprite, sc: Scene) {
    var pair := PassesBoundaryFunctions[s.index];
    Test(pair.0, s, sc) || Test(pair.1, s, sc)
  }

  /** One frame of the loop. */
  function Tick(s: Sprite, sc: Scene): Sprite {
    var index := if Fires(s, sc) then Advance(s.index) else s.index;
    var p := Move(MoveFunctions[index], s.pasteX, s.pasteY, sc.velocity);
    Sprite(p.0, p.1, index)
  }

  /** The state after `n` frames. */
  function Frames(s: Sprite, sc: Scene, n: nat): Sprite
    decreases n
  {
    if n == 0 then s else Tick(Frames(s, sc, n - 1), sc)
  }

  /** The predicate names are swapped: "south" tests the right edge and
      "east" the bottom edge, while "north" and "west" test what they say. */
  lemma SwappedPredicateNames(s: Sprite, sc: Scene)
    ensures Test(PassesSouthBoundary, s, sc) <==> ReachesRight(s, sc)
    ensures Test(PassesEastBoundary, s, sc) <==> ReachesBottom(s, sc)
    ensures Test(PassesNorthBoundary, s, sc) <==> ReachesTop(s, sc)
    ensures Test(PassesWestBoundary, s, sc) <==> ReachesLeft(s, sc)
  {
  }

  /** The edges each position of the cycle actually tests: southeast the
      right and bottom, northeast the top and bottom, northwest the top and
      left, southwest the right and left. */
  lemma PairsTestEdges(s: Sprite, sc: Scene)
    ensures s.index == 0 ==> (Fires(s, sc) <==> ReachesRight(s, sc) || ReachesBottom(s, sc))
    ensures s.index == 1 ==> (Fires(s, sc) <==> ReachesTop(s, sc) || ReachesBottom(s, sc))
    ensures s.index == 2 ==> (Fires(s, sc) <==> ReachesTop(s, sc) || ReachesLeft(s, sc))
    ensures s.index == 3 ==> (Fires(s, sc) <==> ReachesRight(s, sc) || ReachesLeft(s, sc))
  {
  }

  /** Four advances bring the cycle back to where it was, and each advance
      reverses exactly one axis of the heading. */
  lemma CycleOrder(index: CyclePosition)
    ensures Advance(Advance(Advance(Advance(index)))) == index
    ensures var d, e := MoveFunctions[index], MoveFunctions[Advance(index)];
      (DX(e) == -DX(d) && DY(e) == DY(d)) || (DX(e) == DX(d) && DY(e) == -DY(d))
  {
  }

  /** In one frame the heading advances once if some predicate of the pair
      holds (even if both do) and stays otherwise; then the position moves
      once, one velocity step on each axis in the possibly new heading. */
  lemma TickAdvancesAtMostOnce(s: Sprite, sc: Scene)
    ensures Fires(s, sc) ==> Tick(s, sc).index == Advance(s.index)
    ensures !Fires(s, sc) ==> Tick(s, sc).index == s.index
    ensures Tick(s, sc).pasteX == if DX(Heading(Tick(s, sc))) == 1 then s.pasteX + sc.velocity else s.pasteX - sc.velocity
    ensures Tick(s, sc).pasteY == if DY(Heading(Tick(s, sc))) == 1 then s.pasteY + sc.velocity else s.pasteY - sc.velocity
  {
  }

  /** Whether the pair fires in frame `i` of the run from `s`. */
  function FiresAt(s: Sprite, sc: Scene): nat -> bool {
    (i: nat) => Fires(Frames(s, sc, i), sc)
  }

  /** The position reached from `index` by `k` advances. */
  function AdvanceBy(index: CyclePosition, k: nat): CyclePosition
    decreases k
  {
    if k == 0 then index else Advance(AdvanceBy(index, k - 1))
  }

  /** `k` advances move a position on by `k` modulo 4. */
  lemma {:induction false} AdvanceByIsModular(index: CyclePosition, k: nat)
    ensures AdvanceBy(index, k) == (index + k) % 4
    decreases k
  {
    if k > 0 {
      AdvanceByIsModular(index, k - 1);
    }
  }

  /** Any trace of positions that moves on exactly at the steps where
      `fires` holds has moved on, after `n` steps, once per such step. */
  lemma {:induction false} AdvancesCounted(position: nat -> CyclePosition, fires: nat -> bool, n: nat)
    requires forall i: nat :: position(i + 1) == if fires(i) then Advance(position(i)) else position(i)
    ensures position(n) == AdvanceBy(position(0), Count(fires, n))
    decreases n
  {
    if n > 0 {
      AdvancesCounted(position, fires, n - 1);
      assert position(n) == if fires(n - 1) then Advance(position(n - 1)) else position(n - 1);
    }
  }

  /** After `n` frames the cycle position has moved on once for every
      frame in which a predicate fired. */
  lemma CyclePositionAfter(s: Sprite, sc: Scene, n: nat)
    ensures Frames(s, sc, n).index == AdvanceBy(s.index, Count(FiresAt(s, sc), n))
  {
    var position := (i: nat) => Frames(s, sc, i).index;
    forall i: nat
      ensures position(i + 1) == if FiresAt(s, sc)(i) then Advance(position(i)) else position(i)
    {
      TickAdvancesAtMostOnce(Frames(s, sc, i), sc);
    }
    AdvancesCounted(position, FiresAt(s, sc), n);
  }

  /** So, with `fired` the number of frames in which a predicate fired, the
      position after `n` frames is the start moved on by `fired` modulo 4. */
  lemma HeadingAfter(s: Sprite, sc: Scene, n: nat, fired: nat)
    requires fired == Count(FiresAt(s, sc), n)
    ensures Frames(s, sc, n).index == (s.index + fired) % 4
  {
    CyclePositionAfter(s, sc, n);
    AdvanceByIsModular(s.index, fired);
  }

  /** The look-ahead fires on the right edge while heading southeast, but
      the heading it turns to, northeast, still moves right: the next frame
      already lies past the right edge. */
  lemma RightEdgeOvershoot(s: Sprite, sc: Scene)
    requires s.index == 0 && ReachesRight(s, sc)
    ensures Heading(Tick(s, sc)) == Northeast
    ensures Tick(s, sc).pasteX + sc.logoWidth > sc.width
  {
  }

  /** Heading northeast, only the top and bottom are tested, so a sprite
      touching neither keeps moving right whatever its x. */
  lemma NortheastIgnoresRightEdge(s: Sprite, sc: Scene)
    requires s.index == 1 && !ReachesTop(s, sc) && !ReachesBottom(s, sc)
    ensures Tick(s, sc) == Sprite(s.pasteX + sc.velocity, s.pasteY - sc.velocity, 1)
  {
  }

  /** Heading southwest, only the right and left are tested, so a sprite
      touching neither keeps moving down whatever its y. */
  lemma SouthwestIgnoresBottomEdge(s: Sprite, sc: Scene)
    requires s.index == 3 && !ReachesRight(s, sc) && !ReachesLeft(s, sc)
    ensures Tick(s, sc) == Sprite(s.pasteX - sc.velocity, s.pasteY + sc.velocity, 3)
  {
  }

  /** From the centred start, a 2000 × 100 logo moves southeast untouched
      for its first 46 frames. */
  lemma {:induction false} WideLogoEarlyFrames(n: nat)
    requires n <= 46
    ensures Frames(Start(2000, 100), SourceScene(2000, 100), n) == Sprite(920 + 20 * n, 1030 + 20 * n, 0)
    decreases n
  {
    if n > 0 {
      WideLogoEarlyFrames(n - 1);
    }
  }

  /** So `main` does not keep the sprite on the canvas: a 2000 × 100 logo
      is pasted past the right edge in frame 47 of the 60 it renders. */
  lemma WideLogoLeavesCanvas()
    ensures var s := Frames(Start(2000, 100), SourceScene(2000, 100), 47);
      s.index == 1 && s.pasteX + 2000 > ResolutionWidth
  {
    WideLogoEarlyFrames(46);
    RightEdgeOvershoot(Frames(Start(2000, 100), SourceScene(2000, 100), 46), SourceScene(2000, 100));
  }

  /** One frame: its file name and where the sprite is pasted. */
  datatype Placement = Placement(name: string, x: int, y: int)

  function ExpectedPlacement(start: Sprite, sc: Scene, i: nat, framesToGenerate: int): Placement {
    var s := Frames(start, sc, i);
    Placement(FrameNames.FrameName(i, framesToGenerate), s.pasteX, s.pasteY)
  }

  function ExpectedPlacements(start: Sprite, sc: Scene, n: nat, framesToGenerate: int): seq<Placement> {
    Tabulate((i: nat) => ExpectedPlacement(start, sc, i, framesToGenerate), n)
  }

  /** Frame `index` is pasted where the run stands before its move. */
  lemma PlacementRecorded(start: Sprite, sc: Scene, index: nat, framesToGenerate: int,
                          s: Sprite, placements: seq<Placement>)
    requires s == Frames(start, sc, index)
    requires placements == ExpectedPlacements(start, sc, index, framesToGenerate)
    ensures placements + [Placement(FrameNames.ZFill(FrameNames.IntToString(index), |FrameNames.IntToString(framesToGenerate)|), s.pasteX, s.pasteY)]
            == ExpectedPlacements(start, sc, index + 1, framesToGenerate)
  {
    assert ExpectedPlacement(start, sc, index, framesToGenerate) ==
      Placement(FrameNames.ZFill(FrameNames.IntToString(index), |FrameNames.IntToString(framesToGenerate)|), s.pasteX, s.pasteY);
  }

  /** The list built frame by frame holds, at each index, that frame's placement. */
  lemma PlacementsListed(start: Sprite, sc: Scene, n: nat, framesToGenerate: int, placements: seq<Placement>)
    requires placements == ExpectedPlacements(start, sc, n, framesToGenerate)
    ensures |placements| == n
    ensures forall i :: 0 <= i < n ==> placements[i] == ExpectedPlacement(start, sc, i, framesToGenerate)
  {
    forall i | 0 <= i < n
      ensures placements[i] == ExpectedPlacement(start, sc, i, framesToGenerate)
    {
      TabulateAt((i: nat) => ExpectedPlacement(start, sc, i, framesToGenerate), n, i);
    }
  }

  /** The inner `for … break` of `main`: tries the predicates of the pair
      in order and stops at the first that holds, so it reports whether
      either holds; the caller then advances both cycles once. */
  method AnyPasses(pair: (Check, Check), topX: int, topY: int, bottomX: int, bottomY: int,
                   width: int, height: int, velocity: int) returns (found: bool)
    ensures found <==> Passes(pair.0, topX, topY, bottomX, bottomY, width, height, velocity)
                       || Passes(pair.1, topX, topY, bottomX, bottomY, width, height, velocity)
  {
    var checks := [pair.0, pair.1];
    found := false;
    var j := 0;
    while j < |checks|
      invariant 0 <= j <= |checks| && !found
      invariant forall i :: 0 <= i < j ==> !Passes(checks[i], topX, topY, bottomX, bottomY, width, height, velocity)
    {
      if Passes(checks[j], topX, topY, bottomX, bottomY, width, height, velocity) {
        found := true;
        break;
      }
      j := j + 1;
    }
    if !found {
      assert !Passes(checks[0], topX, topY, bottomX, bottomY, width, height, velocity);
      assert !Passes(checks[1], topX, topY, bottomX, bottomY, width, height, velocity);
    }
  }

  /** One pass of the frame loop: with `fired` whether either predicate of
      the pair held, the next frame of the run is the current sprite moved
      in the heading it has after the advance. */
  lemma PairChecked(start: Sprite, sc: Scene, index: nat, s: Sprite, fired: bool)
    requires s == Frames(start, sc, index)
    requires fired <==> Passes(PassesBoundaryFunctions[s.index].0, s.pasteX, s.pasteY, s.pasteX + sc.logoWidth,
                               s.pasteY + sc.logoHeight, sc.width, sc.height, sc.velocity)
                        || Passes(PassesBoundaryFunctions[s.index].1, s.pasteX, s.pasteY, s.pasteX + sc.logoWidth,
                                  s.pasteY + sc.logoHeight, sc.width, sc.height, sc.velocity)
    ensures var k := if fired then Advance(s.index) else s.index;
      var p := Move(MoveFunctions[k], s.pasteX, s.pasteY, sc.velocity);
      Frames(start, sc, index + 1) == Sprite(p.0, p.1, k)
  {
  }

  /** The scene `main` sets up for a logo of the given size. */
  function SourceScene(logoWidth: nat, logoHeight: nat): Scene {
    Scene(logoWidth, logoHeight, ResolutionWidth, ResolutionHeight, Velocity)
  }

  /** The centred start, heading southeast. */
  function Start(logoWidth: nat, logoHeight: nat): Sprite {
    Sprite(ResolutionWidth / 2 - logoWidth / 2, ResolutionHeight / 2 - logoHeight / 2, 0)
  }

  /** The loop of `main` with the image work left out: frame i is pasted
      at the position reached after i moves from the centred start. */
  method Render(logoWidth: nat, logoHeight: nat) returns (frames: seq<Placement>)
    ensures |frames| == FramesPerSecond * Duration
    ensures forall i :: 0 <= i < |frames| ==>
      frames[i] == ExpectedPlacement(Start(logoWidth, logoHeight), SourceScene(logoWidth, logoHeight), i, FramesPerSecond * Duration)
  {
    var fps := FramesPerSecond;
    var duration := Duration;
    var framesToGenerate := duration * fps;
    var velocity := Velocity;
    var resolution := (ResolutionWidth, ResolutionHeight);

    var centerX := resolution.0 / 2;
    var centerY := resolution.1 / 2;
    var width, height := logoWidth, logoHeight;
    var pasteX := centerX - width / 2;
    var pasteY := centerY - height / 2;

    var digits := |FrameNames.IntToString(framesToGenerate)|;

    // Positions in the two cycles, each advanced by its own `next()`.
    var moveIndex: CyclePosition, boundaryIndex: CyclePosition := 0, 0;
    var currentMoveFunction := MoveFunctions[moveIndex];
    var currentBoundaryFunction := PassesBoundaryFunctions[boundaryIndex];

    ghost var sc := SourceScene(logoWidth, logoHeight);
    ghost var start := Start(logoWidth, logoHeight);
    frames := [];
    var index := 0;
    while index < framesToGenerate
      invariant 0 <= index <= framesToGenerate
      invariant moveIndex == boundaryIndex
      invariant Frames(start, sc, index) == Sprite(pasteX, pasteY, moveIndex)
      invariant currentMoveFunction == MoveFunctions[moveIndex]
      invariant currentBoundaryFunction == PassesBoundaryFunctions[boundaryIndex]
      invariant frames == ExpectedPlacements(start, sc, index, framesToGenerate)
    {
      ghost var before := Sprite(pasteX, pasteY, moveIndex);
      PlacementRecorded(start, sc, index, framesToGenerate, before, frames);
      frames := frames + [Placement(FrameNames.ZFill(FrameNames.IntToString(index), digits), pasteX, pasteY)];

      var fired := AnyPasses(currentBoundaryFunction, pasteX, pasteY, pasteX + width, pasteY + height,
                             resolution.0, resolution.1, velocity);
      PairChecked(start, sc, index, before, fired);
      if fired {
        boundaryIndex := Advance(boundaryIndex);
        currentBoundaryFunction := PassesBoundaryFunctions[boundaryIndex];
        moveIndex := Advance(moveIndex);
        currentMoveFunction := MoveFunctions[moveIndex];
      }

      var next := Move(currentMoveFunction, pasteX, pasteY, velocity);
      pasteX, pasteY := next.0, next.1;
      index := index + 1;
    }
    PlacementsListed(start, sc, index, framesToGenerate, frames);
  }
}
