# DVD logo bounce, modelled in Dafny

The repository renders the frames of a logo bouncing around a 3840 × 2160
canvas, the "DVD screensaver" effect. The logic lives in two scripts, and
this project models the state machine inside each of them. The images
themselves are left out.

- `dvd.py` is the reflection variant. An `AbsoluteBoundingBox` moves one
  velocity step in its heading. Then only the two edges the heading faces
  are tested, through the `passes_*_boundary` delta functions. The
  non-positive delta is added back as a correction. For every crossed axis,
  the current and reverse checks are swapped and the heading is reversed
  through the `swaps` tables. An east/west crossing also sets the `flip`
  key. The frame loop pops `flip` before it draws each frame, and merges
  the result of `velocity_update` into its keyword dictionary.
- `main.py` is the older cyclic variant. The heading walks the fixed cycle
  southeast → northeast → northwest → southwest. It advances one place
  whenever a look-ahead test of the current pair of boundary predicates
  holds. Then the paste position moves one step on both axes.

Modules:

- `Compass`, in `compass.dfy`: the four headings and their x and y signs.
- `Dvd`, in `dvd.dfy`:
  - the box as a value (`Box`) and as the mutable dataclass
    (`AbsoluteBoundingBox`, with `+` and `+=`);
  - the moves, the deltas and the swap tables;
  - `velocity_update`, as the method `VelocityUpdate` and the function
    `Update` it is proved equal to;
  - `keywords |= …` as `Merge`.
- `DvdDriver`, in `dvd_driver.dfy`: the frame loop of `dvd.py`'s `main`
  (`Animate`), the run it follows (`Run`), and the properties of that run.
- `Cyclic`, in `cyclic.dfy`: all of `main.py`. This covers the moves, the
  predicates, the two cycles as one index into 4-element sequences, and the
  frame loop (`Render`).
- `FrameNames`, in `frame_names.dfy`: `str(index).zfill(digits)`.
- `Traces`, in `traces.dfy`: generic per-frame lists and counts.

Behaviour modelled as the code has it:

- **North/west correction has the wrong sign.** Every delta is the
  overshoot as a non-positive number, and `new_location += (east_delta,
  north_delta)` adds it. That moves a box back in from the south or east
  edge, where the edge lies in the positive direction, but further out from
  the north or west edge. A box whose tentative top (left) is `t < 0` ends
  at `2t` (`BounceCorrection`), while south and east land exactly on the
  edge. So the exact clamp on all four edges does not hold.
  `RunStaysNearCanvas` proves what does hold over a whole run:
  - the south and east edges are never passed;
  - the north and west edges are passed by at most twice the velocity.
- **Swapped names in `main.py`.** `passes_south_boundary` tests the right
  edge and `passes_east_boundary` tests the bottom edge
  (`SwappedPredicateNames`). As a result the northeast pair watches the top
  and the bottom, and the southwest pair watches the right and the left
  (`PairsTestEdges`).
- **`main.py` does not keep the sprite on the canvas.** The look-ahead
  fires on the right edge while heading southeast, but the next heading,
  northeast, still moves right (`RightEdgeOvershoot`). Heading northeast,
  the right edge is not tested at all (`NortheastIgnoresRightEdge`), and
  heading southwest, the bottom edge is not (`SouthwestIgnoresBottomEdge`).
  For a 2000 × 100 logo, frame 47 of the 60 rendered is already past the
  right edge (`WideLogoLeavesCanvas`).

## Model

| member | source | states |
|---|---|---|
| Dvd.Box.FromOrigin | dvd.py:28-35 | the box has top-left corner (x, y), right_x = x + width and bottom_y = y + height |
| Dvd.Box.Plus | dvd.py:46-52 | `box + delta` shifts the corner by delta and keeps width and height |
| Dvd.AbsoluteBoundingBox.constructor | dvd.py:13-18 | the dataclass holds exactly the four edges it is given |
| Dvd.AbsoluteBoundingBox.FromOrigin | dvd.py:28-35 | the new object holds the `from_origin` box: corner (x, y), size width × height |
| Dvd.AbsoluteBoundingBox.IAdd | dvd.py:37-44 | `+=` returns the same object, now holding the old box shifted by delta, with its size kept |
| Dvd.AbsoluteBoundingBox.Add | dvd.py:46-52 | `+` returns a fresh object holding the shifted box and leaves the original unchanged |
| Dvd.AddAgreesWithIAdd | dvd.py:37-52 | `box + d` and `box += d` give the same coordinates |
| Dvd.MoveDelta | dvd.py:121-135 | each `move_*` shifts by (±v, ±v), with SE (+,+), NE (+,−), NW (−,−) and SW (−,+) |
| Dvd.MoveBox | dvd.py:121-135 | the moved box's corner is shifted by the heading's signs times velocity, and its size is unchanged |
| Dvd.Delta | dvd.py:138-155 | every delta is ≤ 0 and is 0 exactly when the box is not past that edge; south is min(0, height − bottom_y) and east is min(0, width − right_x); a crossed north returns top_y itself and a crossed west returns left_x itself |
| Dvd.Swap | dvd.py:158-171 | `swaps[HORIZONTAL]` reverses only the x sign of a heading and `swaps[VERTICAL]` only the y sign |
| Dvd.SwapTables | dvd.py:161-171 | each table is an involution, the two tables commute, and applying both reverses both signs |
| Dvd.VelocityUpdate | dvd.py:64-118 | the method does what `Update` says: it allocates the moved box, corrects it in place with `+=` and builds the returned dictionary step by step |
| Dvd.QuietUpdate | dvd.py:88-93 | no new heading is returned exactly when neither current check is crossed; then only the moved location is returned, and merging it keeps the heading, all four checks and flip |
| Dvd.BounceCorrection | dvd.py:95-95 | after a south (east) crossing, bottom_y (right_x) equals the canvas height (width); after a north (west) crossing at t < 0 the coordinate is 2t < 0; an uncrossed axis keeps the moved coordinates; the size is kept |
| Dvd.BounceTurns | dvd.py:97-117 | flip is set iff the east/west delta is non-zero, iff east/west is crossed; a crossed axis swaps that axis's current/reverse pair and reverses that sign of the heading; a corner does both |
| Dvd.ConsistentPreserved | dvd.py:97-114 | if the current checks face the heading and each reverse check is the opposite edge, one driver step keeps it so |
| DvdDriver.Initial | dvd.py:216-226 | the starting keywords have flip set and current checks that face the heading |
| DvdDriver.FlipAfterUpdate | dvd.py:229-246 | after an update the flip key is present exactly when that update crossed east/west |
| DvdDriver.TransposeCount | dvd.py:216-246 | the flips popped in the first n + 1 frames are the initial flip plus the east/west crossings of the first n updates |
| DvdDriver.NearCanvasStep | dvd.py:64-118 | after one step the box is never past the south or east edge, is within 2 × velocity of the north and west edges, is not past north (west) while heading north (west), and keeps its size and consistent checks |
| DvdDriver.RunNearCanvas | dvd.py:229-246 | that invariant, together with velocity and resolution, holds after any number of frames |
| DvdDriver.RunStaysNearCanvas | dvd.py:183-246 | from the centred start, for velocity ≥ 0 and a logo no larger than the canvas, every frame's box keeps its size, has right_x ≤ 3840 and bottom_y ≤ 2160, and has left_x and top_y ≥ −2 × velocity |
| DvdDriver.Animate | dvd.py:174-246 | the loop makes max(0, duration × fps) frames; frame i is named `str(i).zfill(digits)`, pasted at the run's location after i updates, and transposed 1 + (east/west crossings of the first i updates) times |
| FrameNames.ZFill | dvd.py:242-242 | `zfill` gives max(width, len) characters and leaves a string already that long unchanged |
| FrameNames.ZFillPads | dvd.py:242-242 | `zfill` puts the zeros before an unsigned string, and between the sign and the digits of a signed one |
| FrameNames.NatToStringRoundTrip | dvd.py:242-242 | `str(n)` of a natural number is all digits and reads back as n |
| FrameNames.NatToStringMonotone | dvd.py:194-195 | a smaller number never has more decimal digits than a larger one |
| FrameNames.FrameNameDenotesIndex | dvd.py:194-242 | for 0 ≤ index < frames_to_generate, the name has exactly `digits` characters, all decimal digits, and reads back as the index |
| FrameNames.FrameNamesDistinct | dvd.py:242-243 | two different frames of a run get different file names |
| Cyclic.Move | main.py:9-22 | each `move_*` returns (x ± v, y ± v), with SE (+,+), NE (+,−), NW (−,−) and SW (−,+) |
| Cyclic.SwappedPredicateNames | main.py:25-38 | north tests top − v < 0 and west tests left − v < 0; "south" tests right + v > width and "east" tests bottom + v > height |
| Cyclic.PairsTestEdges | main.py:33-47 | the four pairs watch right/bottom, top/bottom, top/left and right/left |
| Cyclic.CycleOrder | main.py:41-47 | four advances return the cycle to where it was, and each advance reverses exactly one sign of the heading |
| Cyclic.TickAdvancesAtMostOnce | main.py:91-97 | a frame advances the cycle once if either predicate holds, even when both do, and keeps it otherwise; then it moves one step on each axis in the new heading |
| Cyclic.RightEdgeOvershoot | main.py:91-97 | when the southeast pair fires on the right edge, the new heading is northeast and the moved sprite is already past the right edge |
| Cyclic.NortheastIgnoresRightEdge | main.py:44-44 | heading northeast and touching neither top nor bottom, the sprite moves right and up and keeps its heading, whatever its x |
| Cyclic.SouthwestIgnoresBottomEdge | main.py:46-46 | heading southwest and touching neither right nor left, the sprite moves left and down and keeps its heading, whatever its y |
| Cyclic.WideLogoEarlyFrames | main.py:67-97 | from the centred start, a 2000 × 100 logo is at (920 + 20n, 1030 + 20n), heading southeast, for its first 46 frames |
| Cyclic.WideLogoLeavesCanvas | main.py:50-97 | for a 2000 × 100 logo, the sprite pasted in frame 47 has its right edge past x = 3840 |
| Cyclic.AdvanceByIsModular | main.py:41-47 | k advances of the cycle move its position on by k modulo 4 |
| Cyclic.CyclePositionAfter | main.py:78-95 | after n frames, the position has advanced once for each frame in which a predicate fired |
| Cyclic.HeadingAfter | main.py:78-95 | after n frames, the position is the start plus the number of firing frames, modulo 4 |
| Cyclic.AnyPasses | main.py:91-95 | the inner `for … break` reports true iff either predicate of the pair holds |
| Cyclic.Render | main.py:50-100 | the loop makes fps × duration frames; frame i is named `str(i).zfill(digits)` and pasted where the run from the centred start stands after i moves |

## Left out

- Image work is not modelled: opening the logo, the blank frame, `copy`, `paste`, `transpose`, `save`, and the `left.png` / `right.png` previews. The flip is modelled as the number of transposes a frame has had, and the logo size is a parameter.
- The progress bars, the command-line parsing, creating the output directory and running `./stitch.sh` are not modelled. They are I/O and a separate process.
- Python's dispatch on function identity, and its dictionaries of callables, are replaced: headings and edges are enumerations, and the keyword dictionary is a record whose optional keys are `Option` fields.
- `main.py`'s `itertools.cycle` objects are module-level, so a second call of `main` would continue where the first stopped. The model starts both cycles at their first element, which is what the one call the script makes sees.
- The box held in the keyword dictionary is modelled as a value (`Box`). The only aliasing in the loop is between the freshly moved box and the returned dictionary, and `VelocityUpdate` models that box as an object.
- `dvd.py`'s `velocity` and `duration × fps` come from the command line and are parameters of `Animate`. `main.py` hard-codes velocity 20, 60 fps and 1 second, and `Render` uses those constants.
