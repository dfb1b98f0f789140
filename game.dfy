/**
 * The `WalkTheDog` game: a character that walks freely in two dimensions
 * under the W, A, S and D keys while a running animation loops over the
 * eight cells "Run (1).png" .. "Run (8).png" of a sprite sheet.
 */
module Game {
  import opened Wrappers
  import opened Engine
  import opened Format

  /** Rust's `u8`, the type of the animation counter and of the sprite index. */
  newtype u8 = x: int | 0 <= x < 256

  /** The last value of the animation counter before it wraps to 0. */
  const LastFrame: u8 := 23
  /** The number of values the animation counter cycles through. */
  const FrameCycle: nat := 24
  /** The cycle length is one past the wrap point. */
  lemma CycleFollowsLastFrame()
    ensures FrameCycle == LastFrame as nat + 1
  {
  }

  /** How many ticks each sprite cell stays on screen. */
  const TicksPerSprite: u8 := 3
  /** The number of "Run" cells the counter can select. */
  const SpriteCount: u8 := 8
  /** Pixels moved per tick along an axis whose key is held. */
  const Speed: int := 3

  /** The animation counter after one tick. */
  function NextFrame(f: u8): (r: u8)
    ensures r <= LastFrame
    ensures f <= LastFrame ==> r as int == (f as int + 1) % FrameCycle
    ensures LastFrame <= f ==> r == 0
  {
    if f < LastFrame then f + 1 else 0
  }

  /** The animation counter after `n` ticks. */
  function FrameAfter(f: u8, n: nat): u8
  {
    if n == 0 then f else NextFrame(FrameAfter(f, n - 1))
  }

  /** From a counter in range, `n` ticks advance the counter by `n` modulo the cycle. */
  lemma {:induction false} FrameAfterIsModular(f: u8, n: nat)
    requires f <= LastFrame
    ensures FrameAfter(f, n) <= LastFrame
    ensures FrameAfter(f, n) as int == (f as int + n) % FrameCycle
  {
    if n > 0 {
      FrameAfterIsModular(f, n - 1);
      var prev := FrameAfter(f, n - 1) as int;
      assert prev == (f as int + n - 1) % FrameCycle;
      assert (prev + 1) % FrameCycle == (f as int + n) % FrameCycle;
    }
  }

  /** The counter comes back to where it started exactly after whole cycles of ticks. */
  lemma CounterReturnsAfterWholeCycles(f: u8, n: nat)
    requires f <= LastFrame
    ensures FrameAfter(f, n) == f <==> n % FrameCycle == 0
  {
    FrameAfterIsModular(f, n);
  }

  /** The velocity that the held keys give for one tick, one key at a time. */
  function Velocity(keys: KeyState): (v: Point)
    ensures v.x == Speed <==> keys.IsPressed("D") && !keys.IsPressed("A")
    ensures v.x == -Speed <==> keys.IsPressed("A") && !keys.IsPressed("D")
    ensures v.x == 0 <==> keys.IsPressed("D") == keys.IsPressed("A")
    ensures v.y == Speed <==> keys.IsPressed("S") && !keys.IsPressed("W")
    ensures v.y == -Speed <==> keys.IsPressed("W") && !keys.IsPressed("S")
    ensures v.y == 0 <==> keys.IsPressed("S") == keys.IsPressed("W")
  {
    Point(Push(keys, "D") - Push(keys, "A"), Push(keys, "S") - Push(keys, "W"))
  }

  /** The contribution of one held key to its axis. */
  function Push(keys: KeyState, code: string): int
  {
    if keys.IsPressed(code) then Speed else 0
  }

  /** The position after one tick from `p` with velocity `v`. */
  function Moved(p: Point, v: Point): Point
  {
    Point(p.x + v.x, p.y + v.y)
  }

  /** One tick moves each coordinate by at most `Speed`, and not at all when no key is held. */
  lemma StepIsBounded(p: Point, keys: KeyState)
    ensures -Speed <= Moved(p, Velocity(keys)).x - p.x <= Speed
    ensures -Speed <= Moved(p, Velocity(keys)).y - p.y <= Speed
    ensures keys.pressed == {} ==> Moved(p, Velocity(keys)) == p
  {
  }

  /** The position after one tick per key state in `ticks`, in order. */
  function PositionAfter(p: Point, ticks: seq<KeyState>): Point
    decreases |ticks|
  {
    if ticks == [] then p else PositionAfter(Moved(p, Velocity(ticks[0])), ticks[1..])
  }

  /** Over `n` ticks each coordinate drifts by at most `n * Speed`. */
  lemma {:induction false} DriftIsBounded(p: Point, ticks: seq<KeyState>)
    ensures -Speed * |ticks| <= PositionAfter(p, ticks).x - p.x <= Speed * |ticks|
    ensures -Speed * |ticks| <= PositionAfter(p, ticks).y - p.y <= Speed * |ticks|
    decreases |ticks|
  {
    if ticks != [] {
      DriftIsBounded(Moved(p, Velocity(ticks[0])), ticks[1..]);
    }
  }

  /** Holding the same keys for `|ticks|` ticks moves by that many times one tick's velocity. */
  lemma {:induction false} SteadyKeysMoveLinearly(p: Point, ticks: seq<KeyState>, keys: KeyState)
    requires forall i :: 0 <= i < |ticks| ==> ticks[i] == keys
    ensures PositionAfter(p, ticks).x == p.x + |ticks| * Velocity(keys).x
    ensures PositionAfter(p, ticks).y == p.y + |ticks| * Velocity(keys).y
    decreases |ticks|
  {
    if ticks != [] {
      SteadyKeysMoveLinearly(Moved(p, Velocity(keys)), ticks[1..], keys);
    }
  }

  /** The 1-based index of the "Run" cell shown for animation counter `frame`. */
  function SpriteIndex(frame: u8): (n: u8)
    ensures 1 <= n
    ensures TicksPerSprite as int * (n as int - 1) <= frame as int < TicksPerSprite as int * n as int
    ensures frame <= LastFrame ==> n <= SpriteCount
  {
    frame / TicksPerSprite + 1
  }

  /** The sprite-sheet key of the `n`th "Run" cell: the decimal index between "Run (" and ").png". */
  function FrameName(n: u8): (name: string)
    ensures |name| >= 11
    ensures name[..5] == "Run (" && name[|name| - 5..] == ").png"
    ensures forall i :: 5 <= i < |name| - 5 ==> IsDigit(name[i])
    ensures DecimalValue(name[5..|name| - 5]) == n as int
    ensures name[5] == '0' ==> n == 0 && |name| == 11
  {
    var digits := DecimalString(n as nat);
    var name := "Run (" + digits + ").png";
    assert name[5..|name| - 5] == digits;
    DecimalRoundTrip(n as nat);
    name
  }

  /** Different sprite indices name different cells. */
  lemma FrameNameInjective(a: u8, b: u8)
    ensures FrameName(a) == FrameName(b) <==> a == b
  {
  }

  /** For a counter in range, the cell name carries a single digit from '1' to '8'. */
  lemma SpriteNameIsSingleDigit(frame: u8)
    requires frame <= LastFrame
    ensures var name := FrameName(SpriteIndex(frame));
      |name| == 11 && name[..5] == "Run (" && name[6..] == ").png" && '1' <= name[5] <= '8'
  {
  }

  /** The failure `draw` reports: the sheet is absent or lacks the cell. */
  datatype DrawError = CellNotFound

  /** Looks up the cell `name` in an optional sheet. */
  function LookupCell(sheet: Option<Sheet>, name: string): (r: Result<Cell, DrawError>)
    ensures r.Success? <==> sheet.Some? && name in sheet.value.frames
    ensures r.Success? ==> r.value == sheet.value.frames[name]
    ensures r.Failure? ==> r.error == CellNotFound
  {
    match sheet
    case None => Failure(CellNotFound)
    case Some(s) => if name in s.frames then Success(s.frames[name]) else Failure(CellNotFound)
  }

  /** The sheet has every "Run" cell the animation counter can select. */
  predicate HasRunCells(sheet: Sheet) {
    forall n: u8 :: 1 <= n <= SpriteCount ==> FrameName(n) in sheet.frames
  }

  /** With every "Run" cell present, the lookup for any counter in range succeeds. */
  lemma CompleteSheetNeverMisses(sheet: Sheet, frame: u8)
    requires HasRunCells(sheet)
    requires frame <= LastFrame
    ensures LookupCell(Some(sheet), FrameName(SpriteIndex(frame))).Success?
  {
  }

  /** The game state: the loaded assets, the animation counter and the position. */
  class WalkTheDog {
    var image: Option<Image>
    var sheet: Option<Sheet>
    var frame: u8
    var position: Point

    /** The animation counter is within its cycle. */
    predicate FrameInRange()
      reads this
    {
      frame <= LastFrame
    }

    /** A game with no assets, counter 0 and the origin as position. */
    constructor ()
      ensures image == None && sheet == None
      ensures frame == 0 && position == Point(0, 0)
      ensures FrameInRange()
    {
      image := None;
      sheet := None;
      frame := 0;
      position := Point(0, 0);
    }

    /** A game assembled from each of its fields. */
    constructor FromParts(image: Option<Image>, sheet: Option<Sheet>, frame: u8, position: Point)
      ensures this.image == image && this.sheet == sheet
      ensures this.frame == frame && this.position == position
    {
      this.image := image;
      this.sheet := sheet;
      this.frame := frame;
      this.position := position;
    }

    /**
     * Builds the loaded game from the fetched sprite-sheet description and
     * the loaded image. The description is fetched first, so its failure is
     * the one reported when both fail; `this` is left as it is.
     */
    method Initialize(fetchedSheet: Result<Option<Sheet>, string>, loadedImage: Result<Image, string>)
      returns (r: Result<WalkTheDog, string>)
      ensures fetchedSheet.Failure? ==> r == Failure(fetchedSheet.error)
      ensures fetchedSheet.Success? && loadedImage.Failure? ==> r == Failure(loadedImage.error)
      ensures fetchedSheet.Success? && loadedImage.Success? ==>
        r.Success? && fresh(r.value) &&
        r.value.sheet == fetchedSheet.value && r.value.image == Some(loadedImage.value) &&
        r.value.frame == frame && r.value.position == position
    {
      if fetchedSheet.Failure? {
        return Failure(fetchedSheet.error);
      }
      if loadedImage.Failure? {
        return Failure(loadedImage.error);
      }
      var game := new WalkTheDog.FromParts(Some(loadedImage.value), fetchedSheet.value, frame, position);
      r := Success(game);
    }

    /** One tick: move by the held keys' velocity and advance the animation counter. */
    method Update(keystate: KeyState)
      modifies this`frame, this`position
      ensures position == Moved(old(position), Velocity(keystate))
      ensures frame == NextFrame(old(frame))
      ensures FrameInRange()
      ensures image == old(image) && sheet == old(sheet)
    {
      var velocity := Point(0, 0);
      if keystate.IsPressed("S") {
        velocity := velocity.(y := velocity.y + Speed);
      }
      if keystate.IsPressed("W") {
        velocity := velocity.(y := velocity.y - Speed);
      }
      if keystate.IsPressed("D") {
        velocity := velocity.(x := velocity.x + Speed);
      }
      if keystate.IsPressed("A") {
        velocity := velocity.(x := velocity.x - Speed);
      }

      position := position.(x := position.x + velocity.x);
      position := position.(y := position.y + velocity.y);
      if frame < LastFrame {
        frame := frame + 1;
      } else {
        frame := 0;
      }
    }

    /**
     * The cell that `draw` shows: the "Run" cell for the current counter,
     * or `CellNotFound` when the sheet is absent or lacks it.
     */
    method Draw() returns (r: Result<Cell, DrawError>)
      ensures r.Success? <==> sheet.Some? && FrameName(SpriteIndex(frame)) in sheet.value.frames
      ensures r.Success? ==> r.value == sheet.value.frames[FrameName(SpriteIndex(frame))]
      ensures FrameInRange() && sheet.Some? && HasRunCells(sheet.value) ==> r.Success?
    {
      var currentSprite := frame / TicksPerSprite + 1;
      var frameName := "Run (" + DecimalString(currentSprite as nat) + ").png";
      r := LookupCell(sheet, frameName);
      if FrameInRange() && sheet.Some? && HasRunCells(sheet.value) {
        CompleteSheetNeverMisses(sheet.value, frame);
      }
    }
  }
}
