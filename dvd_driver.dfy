/** The frame loop of dvd.py's `main`, without the images: the keyword record
    is threaded through `velocity_update` once per frame, the flip key is
    popped before each frame is drawn, and each frame is named
    `str(index).zfill(digits)`. */
module DvdDriver {
  import opened Compass
  import opened Dvd
  import FrameNames
  import opened Traces

  /** The fixed output resolution. */
  const FrameWidth := 3840
  const FrameHeight := 2160

  /** What the loop decides for one frame: the file name, where the sprite
      is pasted, and how many times the sprite has been transposed so far
      (it is mirrored exactly when that count is odd). */
  datatype Frame = Frame(name: string, x: int, y: int, transposes: nat)

  /** The keyword dictionary the loop starts from: flip set, heading
      southeast, south/east the current checks, the sprite centred. */
  function Initial(logoWidth: nat, logoHeight: nat, velocity: int): (k: Keywords)
    ensures Consistent(k) && k.flip
  {
    Keywords(
      flip := true,
      nextLocationVelocity := Southeast,
      velocity := velocity,
      currentNorthSouth := South,
      currentEastWest := East,
      reverseNorthSouth := North,
      reverseEastWest := West,
      frameResolution := Resolution(FrameWidth, FrameHeight),
      currentImageLocation := Box.FromOrigin(FrameWidth / 2 - logoWidth / 2, FrameHeight / 2 - logoHeight / 2, logoWidth, logoHeight))
  }

  /** The keywords after `n` loop iterations. */
  function Run(k: Keywords, n: nat): Keywords
    decreases n
  {
    if n == 0 then k else Next(Run(k, n - 1))
  }

  /** Whether the update made from `k` crosses the east/west edge it checks. */
  predicate EastWestBounce(k: Keywords) {
    Crossed(k.currentEastWest, Moved(k), k.frameResolution)
  }

  /** Pops of a present flip key during the first `n` frames. */
  function FlipCount(k: Keywords, n: nat): nat {
    Count((i: nat) => Run(k, i).flip, n)
  }

  /** East/west crossings during the first `n` updates. */
  function EastWestBounces(k: Keywords, n: nat): nat {
    Count((i: nat) => EastWestBounce(Run(k, i)), n)
  }

  /** After an update the flip key is present exactly when that update crossed east/west. */
  lemma FlipAfterUpdate(k: Keywords, n: nat)
    ensures Run(k, n + 1).flip == EastWestBounce(Run(k, n))
  {
    var popped := Run(k, n).(flip := false);
    BounceTurns(popped);
  }

  /** The sprite is transposed once for the initial flip key and once more
      for every east/west crossing of the earlier updates. */
  lemma TransposeCount(k: Keywords, n: nat)
    ensures FlipCount(k, n + 1) == (if k.flip then 1 else 0) + EastWestBounces(k, n)
  {
    forall i: nat
      ensures Run(k, i + 1).flip == EastWestBounce(Run(k, i))
    {
      FlipAfterUpdate(k, i);
    }
    CountShift((i: nat) => Run(k, i).flip, (i: nat) => EastWestBounce(Run(k, i)), n);
  }

  /** The run invariant that holds in place of containment: the south and
      east edges are never passed, the north and west edges by at most
      twice the velocity, and a box heading north (west) has not passed
      the north (west) edge; the checks stay consistent with the heading
      and the sprite keeps its size. */
  ghost predicate NearCanvas(k: Keywords, logoWidth: nat, logoHeight: nat) {
    var b := k.currentImageLocation;
    var res := k.frameResolution;
    && Consistent(k)
    && b.Width() == logoWidth && b.Height() == logoHeight
    && b.bottomY <= res.height && b.rightX <= res.width
    && -2 * k.velocity <= b.topY && -2 * k.velocity <= b.leftX
    && (k.currentNorthSouth == North ==> 0 <= b.topY)
    && (k.currentEastWest == West ==> 0 <= b.leftX)
  }

  lemma NearCanvasStep(k: Keywords, logoWidth: nat, logoHeight: nat)
    requires 0 <= k.velocity
    requires logoWidth <= k.frameResolution.width && logoHeight <= k.frameResolution.height
    requires NearCanvas(k, logoWidth, logoHeight)
    ensures NearCanvas(Next(k), logoWidth, logoHeight)
  {
    var popped := k.(flip := false);
    ConsistentPreserved(k);
    BounceCorrection(popped);
    BounceTurns(popped);
  }

  /** For a non-negative velocity and a sprite no larger than the canvas,
      every location of the run stays within the canvas on the south and
      east and at most 2 × velocity beyond it on the north and west. */
  lemma {:induction false} RunStaysNearCanvas(logoWidth: nat, logoHeight: nat, velocity: int, n: nat)
    requires 0 <= velocity
    requires logoWidth <= FrameWidth && logoHeight <= FrameHeight
    ensures var b := Run(Initial(logoWidth, logoHeight, velocity), n).currentImageLocation;
      && b.Width() == logoWidth && b.Height() == logoHeight
      && -2 * velocity <= b.leftX && b.rightX <= FrameWidth
      && -2 * velocity <= b.topY && b.bottomY <= FrameHeight
    decreases n
  {
    RunNearCanvas(Initial(logoWidth, logoHeight, velocity), logoWidth, logoHeight, n);
  }

  lemma {:induction false} RunNearCanvas(k: Keywords, logoWidth: nat, logoHeight: nat, n: nat)
    requires 0 <= k.velocity
    requires logoWidth <= k.frameResolution.width && logoHeight <= k.frameResolution.height
    requires NearCanvas(k, logoWidth, logoHeight)
    ensures NearCanvas(Run(k, n), logoWidth, logoHeight)
    ensures Run(k, n).velocity == k.velocity && Run(k, n).frameResolution == k.frameResolution
    decreases n
  {
    if n > 0 {
      RunNearCanvas(k, logoWidth, logoHeight, n - 1);
      NearCanvasStep(Run(k, n - 1), logoWidth, logoHeight);
    }
  }

  /** The frame the loop produces at `index` for a run started from `start`. */
  function ExpectedFrame(start: Keywords, index: nat, framesToGenerate: int): Frame {
    var k := Run(start, index);
    Frame(FrameNames.FrameName(index, framesToGenerate),
          k.currentImageLocation.X(), k.currentImageLocation.Y(),
          1 + EastWestBounces(start, index))
  }

  /** The frames the loop has produced after `n` iterations. */
  function ExpectedFrames(start: Keywords, n: nat, framesToGenerate: int): seq<Frame> {
    Tabulate((i: nat) => ExpectedFrame(start, i, framesToGenerate), n)
  }

  /** What frame `index` shows once its flip key has been popped. */
  lemma FrameDrawn(start: Keywords, index: nat, framesToGenerate: int, k: Keywords, transposes: nat)
    requires start.flip && k == Run(start, index)
    requires transposes == FlipCount(start, index) + (if k.flip then 1 else 0)
    ensures transposes == FlipCount(start, index + 1)
    ensures ExpectedFrame(start, index, framesToGenerate) ==
      Frame(FrameNames.ZFill(FrameNames.IntToString(index), |FrameNames.IntToString(framesToGenerate)|),
            k.currentImageLocation.X(), k.currentImageLocation.Y(), transposes)
  {
    TransposeCount(start, index);
  }

  lemma FramesExtended(start: Keywords, index: nat, framesToGenerate: int, frames: seq<Frame>, frame: Frame)
    requires frames == ExpectedFrames(start, index, framesToGenerate)
    requires frame == ExpectedFrame(start, index, framesToGenerate)
    ensures frames + [frame] == ExpectedFrames(start, index + 1, framesToGenerate)
  {
  }

  /** Drawing frame `index` extends the frames so far by the expected one. */
  lemma FrameRecorded(start: Keywords, index: nat, framesToGenerate: int, k: Keywords,
                      transposes: nat, frames: seq<Frame>)
    requires start.flip && k == Run(start, index)
    requires transposes == FlipCount(start, index) + (if k.flip then 1 else 0)
    requires frames == ExpectedFrames(start, index, framesToGenerate)
    ensures transposes == FlipCount(start, index + 1)
    ensures frames + [Frame(FrameNames.ZFill(FrameNames.IntToString(index), |FrameNames.IntToString(framesToGenerate)|),
                            k.currentImageLocation.X(), k.currentImageLocation.Y(), transposes)]
            == ExpectedFrames(start, index + 1, framesToGenerate)
  {
    FrameDrawn(start, index, framesToGenerate, k, transposes);
    var frame := Frame(FrameNames.ZFill(FrameNames.IntToString(index), |FrameNames.IntToString(framesToGenerate)|),
                       k.currentImageLocation.X(), k.currentImageLocation.Y(), transposes);
    FramesExtended(start, index, framesToGenerate, frames, frame);
  }

  /** The list built frame by frame holds, at each index, that frame's record. */
  lemma FramesListed(start: Keywords, n: nat, framesToGenerate: int, frames: seq<Frame>)
    requires frames == ExpectedFrames(start, n, framesToGenerate)
    ensures |frames| == n
    ensures forall i :: 0 <= i < n ==> frames[i] == ExpectedFrame(start, i, framesToGenerate)
  {
    forall i | 0 <= i < n
      ensures frames[i] == ExpectedFrame(start, i, framesToGenerate)
    {
      TabulateAt((i: nat) => ExpectedFrame(start, i, framesToGenerate), n, i);
    }
  }

  /** Merging what `velocity_update` returns into the popped keywords is one step of the run. */
  lemma UpdateMerged(start: Keywords, index: nat, popped: Keywords, changes: Changes)
    requires popped == Run(start, index).(flip := false) && changes == Update(popped)
    ensures Merge(popped, changes) == Run(start, index + 1)
  {
  }

  /** The loop of `main` with the image work left out: one `Frame` per index. */
  method Animate(duration: int, fps: int, velocity: int, logoWidth: nat, logoHeight: nat)
    returns (frames: seq<Frame>)
    ensures |frames| == if duration * fps > 0 then duration * fps else 0
    ensures forall i :: 0 <= i < |frames| ==>
      frames[i] == ExpectedFrame(Initial(logoWidth, logoHeight, velocity), i, duration * fps)
  {
    var resolution := Resolution(FrameWidth, FrameHeight);
    var centerX := resolution.width / 2;
    var centerY := resolution.height / 2;
    var currentImageLocation := new AbsoluteBoundingBox.FromOrigin(
      centerX - logoWidth / 2, centerY - logoHeight / 2, logoWidth, logoHeight);

    var framesToGenerate := duration * fps;
    var digits := |FrameNames.IntToString(framesToGenerate)|;

    var keywords := Keywords(
      flip := true,
      nextLocationVelocity := Southeast,
      velocity := velocity,
      currentNorthSouth := South,
      currentEastWest := East,
      reverseNorthSouth := North,
      reverseEastWest := West,
      frameResolution := resolution,
      currentImageLocation := currentImageLocation.Value());
    ghost var start := keywords;
    assert start == Initial(logoWidth, logoHeight, velocity);

    var transposes: nat := 0;
    frames := [];
    var index := 0;
    while index < framesToGenerate
      invariant 0 <= index && |frames| == index
      invariant index <= framesToGenerate || index == 0
      invariant keywords == Run(start, index)
      invariant transposes == FlipCount(start, index)
      invariant frames == ExpectedFrames(start, index, framesToGenerate)
    {
      ghost var before := keywords;
      var flip := keywords.flip;
      keywords := keywords.(flip := false);
      if flip {
        transposes := transposes + 1;
      }

      var location := keywords.currentImageLocation;
      var frameFilename := FrameNames.ZFill(FrameNames.IntToString(index), digits);
      FrameRecorded(start, index, framesToGenerate, before, transposes, frames);
      frames := frames + [Frame(frameFilename, location.X(), location.Y(), transposes)];

      var changes := VelocityUpdate(keywords);
      UpdateMerged(start, index, keywords, changes);
      keywords := Merge(keywords, changes);
      index := index + 1;
    }
    FramesListed(start, index, framesToGenerate, frames);
  }
}
