/** The fixed geometry of the level and the records the frame update works
    on.  Positions are exact reals: the game only adds, clamps, compares and
    floors them. */
module Level {
  import opened Latch

  /** The canvas size, which the page supplies. */
  datatype Canvas = Canvas(width: real, height: real)

  datatype Phase =
    | StartPrompt | WalkToBus | WaitingBoard | InBus | WaitingExit
    | WalkToSchool | OnStairs | AtSchool | GameOver

  /** The player record (the animation phase is only drawn and is left out). */
  datatype Body = Body(x: real, y: real, vy: real, onGround: bool)

  /** The mutable part of the bus; its size and speed are constants below. */
  datatype BusState = BusState(x: real, doorOpen: bool, doorProg: real, arrivalPlayed: bool)

  datatype Car = Car(x: real, y: real, w: real, h: real, color: string, speed: real)

  /** The one-shot sound cues, recorded in the order they are emitted. */
  datatype Cue = BoardBeep | ArrivalBeep | Trumpet

  /** Everything `update()` reads or writes. */
  datatype GameState = GameState(
    keys: KeyState,
    player: Body,
    bus: BusState,
    cars: seq<Car>,
    phase: Phase,
    cameraX: real,
    finished: bool,
    trumpetPlayed: bool,
    cues: seq<Cue>)

  const LevelWidth: real := 2600.0
  const SchoolX: real := 2400.0
  const SchoolWidth: real := 360.0

  const StairsX: real := SchoolX - 180.0
  const StairSteps: int := 6
  const StairW: real := 22.0
  const StairH: real := 12.0

  const BusStartX: real := 360.0
  const BusWidth: real := 240.0
  const BusHeight: real := 90.0
  const BusSpeed: real := 5.0
  const StopOffset: real := 60.0
  const DoorStep: real := 0.06

  const PlayerStartX: real := 100.0
  const PlayerW: real := 40.0
  const PlayerH: real := 40.0
  const Gravity: real := 0.8

  const BigDoorW: real := 54.0
  const BigDoorX: real := SchoolX + SchoolWidth - BigDoorW - 18.0
  const MinPlayerX: real := 20.0
  const MaxPlayerX: real := SchoolX + SchoolWidth - 10.0

  /** Where the bus stops next to the stairs. */
  const DropX: real := StairsX - (BusWidth - 62.0) - StopOffset
  /** Where the flat ground after the stairs begins. */
  const StairsEnd: real := StairsX + (StairSteps as real) * StairW - 4.0

  const CarColors: seq<string> := ["#e74c3c", "#3498db", "#f1c40f", "#27ae60", "#9b59b6"]

  function Max(a: real, b: real): real { if a >= b then a else b }
  function Min(a: real, b: real): real { if a <= b then a else b }
  function Abs(a: real): real { if a >= 0.0 then a else -a }

  /** JavaScript's Math.round: halves round up. */
  function Round(v: real): int { (v + 0.5).Floor }

  function GroundY(c: Canvas): real { c.height - 70.0 }

  function BusY(c: Canvas): real { GroundY(c) - Round(BusHeight / 2.0) as real }

  /** The x the player is snapped to when reaching the bus door. */
  function BoardSpot(busX: real): real { busX + BusWidth - 62.0 - 20.0 }

  function MaxCameraX(c: Canvas): real { Max(0.0, SchoolX + SchoolWidth - c.width + 40.0) }

  /** The camera that follows the player, as set at the end of every update. */
  function FollowCamera(c: Canvas, x: real): real { Min(MaxCameraX(c), Max(0.0, x - c.width / 2.0)) }

  /** The camera the atSchool phase centres on the school. */
  function SchoolCamera(c: Canvas): real
  {
    Max(0.0, Min(LevelWidth - c.width, Round(SchoolX + Round(SchoolWidth / 2.0) as real - c.width / 2.0) as real))
  }

  /** The phases in which the player walks and can be hit by a car. */
  predicate Walking(p: Phase) { p == WalkToBus || p == WalkToSchool || p == OnStairs }

  /** Position of a phase along the chain startPrompt -> ... -> atSchool. */
  function Rank(p: Phase): nat
  {
    match p
    case StartPrompt => 0
    case WalkToBus => 1
    case WaitingBoard => 2
    case InBus => 3
    case WaitingExit => 4
    case WalkToSchool => 5
    case OnStairs => 6
    case AtSchool => 7
    case GameOver => 8
  }

  /** An allowed one-frame move of the phase: forward along the chain, or
      from a walking phase into gameOver; gameOver is never left. */
  predicate NeverBack(p: Phase, q: Phase)
  {
    if p == GameOver then q == GameOver
    else if q == GameOver then Walking(p)
    else Rank(p) <= Rank(q)
  }

  lemma GeometryConstants()
    ensures StairsX == 2220.0 && DropX == 1982.0 && BigDoorX == 2688.0 && MaxPlayerX == 2750.0
    ensures StairsEnd == 2348.0 && BoardSpot(BusStartX) == 518.0
    ensures forall c: Canvas :: BusY(c) == GroundY(c) - 45.0
  {
  }
}
