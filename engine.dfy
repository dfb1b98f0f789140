/**
 * The parts of the engine module that the game code consumes, abstracted to
 * values: integer points, a sprite sheet as a map from cell name to cell, an
 * opaque image handle and the set of keys currently held down.
 */
module Engine {

  /** A 2-D integer vector, used for positions and velocities. */
  datatype Point = Point(x: int, y: int)

  /** The source rectangle of one cell inside the sprite image, in pixels. */
  datatype SheetRect = SheetRect(x: int, y: int, w: int, h: int)

  /** One entry of the sprite sheet's JSON description. */
  datatype Cell = Cell(frame: SheetRect)

  /** The sprite sheet: cell name (such as "Run (3).png") to cell. */
  datatype Sheet = Sheet(frames: map<string, Cell>)

  /** An image element loaded by the browser; only its identity matters here. */
  datatype Image = Image(handle: nat)

  /** The keyboard state: the codes of the keys held down during this tick. */
  datatype KeyState = KeyState(pressed: set<string>) {
    predicate IsPressed(code: string) {
      code in pressed
    }
  }
}
