/** The playing field of the game: its dimensions, the bird and the pipes,
    as declared at the top of script.js. Lengths are in canvas pixels,
    velocities in pixels per frame. */
module World {

  const GameWidth: real := 360.0
  const GameHeight: real := 640.0

  /** Every pipe is this wide. */
  const PipeWidth: real := 50.0
  /** Vertical size of the passable gap between a pipe's two segments. */
  const PipeGap: real := 150.0
  /** How far every pipe moves to the left per frame. */
  const PipeSpeed: real := 2.5
  /** A pipe is spawned on every frame whose number is a multiple of this. */
  const SpawnInterval: nat := 100

  /** The score is the number of frames played divided by this, rounded down. */
  const FramesPerPoint: nat := 15
  /** The wing animation advances once every this many frames ... */
  const FramesPerWingBeat: nat := 5
  /** ... and cycles through this many sprite frames. */
  const WingFrames: nat := 3

  /** The username popup accepts at most this many characters. */
  const MaxNameLength: nat := 10

  /** The bird: its box, its two physical constants and its vertical velocity. */
  datatype Bird = Bird(x: real, y: real, width: real, height: real,
                       gravity: real, lift: real, velocity: real)

  /** The bird as declared when the page loads. */
  const StartBird: Bird := Bird(50.0, 300.0, 40.0, 30.0, 0.6, -10.0, 0.0)

  /** Where a restarted run puts the bird, and how fast it is then moving. */
  const StartY: real := 300.0
  const StartVelocity: real := 0.0

  /** A pipe pair: an upper segment `top` pixels high hanging from the ceiling and
      a lower segment `bottom` pixels high standing on the floor, both `width`
      wide with their left edge at `x`. */
  datatype Pipe = Pipe(x: real, width: real, top: real, bottom: real)
}
