/** One call of `update()` as a function on the game state, split the way
    the source is: the collision check, the traffic move, the start prompt,
    the door animation, one handler per phase, and the final clamp. */
module Rules {
  import opened Latch
  import opened Level
  import opened Traffic

  /** The state when the page has loaded (spawnTrafficCars has run once). */
  function Initial(c: Canvas, draws: seq<Draw>): GameState
    requires ValidDraws(draws)
  {
    GameState(NoKeys, Body(PlayerStartX, GroundY(c) - 30.0, 0.0, true), BusState(BusStartX, false, 0.0, false),
              SpawnCars(BusStartX, BusY(c), draws), StartPrompt, 0.0, false, false, [])
  }

  /** The horizontal displacement of one frame of walking: right first, then left. */
  function Walk(k: KeyState, step: real): real
  {
    (if k.right then step else 0.0) - (if k.left then step else 0.0)
  }

  /** A walking player touches some car (before the cars move). */
  predicate Hit(s: GameState)
  {
    Walking(s.phase) && AnyOverlap(s.player, s.cars)
  }

  function Collide(s: GameState): GameState
  {
    if Hit(s) then s.(finished := true, phase := GameOver) else s
  }

  function StartStep(s: GameState): GameState
  {
    if s.keys.jumpPressed then s.(keys := s.keys.(jumpPressed := false), phase := WalkToBus) else s
  }

  function AnimateDoor(s: GameState): GameState
  {
    var prog := if s.bus.doorOpen then s.bus.doorProg + DoorStep else s.bus.doorProg - DoorStep;
    s.(bus := s.bus.(doorProg := Max(0.0, Min(1.0, prog))))
  }

  function Board(c: Canvas, s: GameState): GameState
  {
    s.(phase := InBus,
       keys := s.keys.(jumpPressed := false),
       player := s.player.(x := s.bus.x + 40.0, y := BusY(c)),
       bus := s.bus.(doorOpen := false),
       cues := s.cues + [BoardBeep])
  }

  /** The walk towards the door: close enough to the board spot, the
      player is snapped to it and the door opens. */
  function Approach(s: GameState): GameState
  {
    var x := s.player.x + Walk(s.keys, 1.8);
    var spot := BoardSpot(s.bus.x);
    if x + 10.0 >= spot
    then s.(player := s.player.(x := spot), phase := WaitingBoard, bus := s.bus.(doorOpen := true))
    else s.(player := s.player.(x := x))
  }

  /** walkToBus and waitingBoard. */
  function WalkToBusStep(c: Canvas, s: GameState): GameState
  {
    var s1 := Approach(s);
    if s1.phase == WaitingBoard && s1.keys.jumpPressed then Board(c, s1) else s1
  }

  /** Where the arrow keys take the bus this frame, clamped to the level. */
  function RideTarget(k: KeyState, busX: real, blocked: bool): real
  {
    var x := busX + (if k.right && !blocked then BusSpeed else 0.0) - (if k.left then BusSpeed else 0.0);
    Max(0.0, Min(LevelWidth - BusWidth, x))
  }

  function Arrive(s: GameState): GameState
  {
    s.(bus := s.bus.(x := DropX, doorOpen := true, arrivalPlayed := true),
       phase := WaitingExit,
       cues := if s.bus.arrivalPlayed then s.cues else s.cues + [ArrivalBeep])
  }

  /** inBus: the cars have already moved when the window ahead is tested. */
  function RideStep(c: Canvas, s: GameState): GameState
  {
    var blocked := CarAhead(s.cars, s.bus.x, BusY(c));
    var x := RideTarget(s.keys, s.bus.x, blocked);
    var s1 := s.(bus := s.bus.(x := x), player := s.player.(x := x + 40.0, y := BusY(c)));
    if x >= DropX then Arrive(s1) else s1
  }

  function ExitStep(s: GameState): GameState
  {
    if s.keys.jumpPressed
    then s.(keys := s.keys.(jumpPressed := false),
            phase := WalkToSchool,
            player := s.player.(x := s.bus.x + BusWidth - 80.0),
            bus := s.bus.(doorOpen := false))
    else s
  }

  function ReachSchool(s: GameState): GameState
  {
    s.(phase := AtSchool, finished := true, trumpetPlayed := true,
       cues := if s.trumpetPlayed then s.cues else s.cues + [Trumpet])
  }

  function WalkToSchoolStep(c: Canvas, s: GameState): GameState
  {
    var x := s.player.x + Walk(s.keys, 1.6);
    var s1 := s.(player := s.player.(x := x));
    if x >= StairsEnd then
      var s2 := s1.(player := s1.player.(y := GroundY(c) - PlayerH / 2.0));
      if x >= BigDoorX - 10.0 then ReachSchool(s2) else s2
    else if x >= StairsX then s1.(phase := OnStairs)
    else s1
  }

  /** The stair the player stands on at horizontal position x: the tread
      whose run contains x, the first one left of the stairs and the last
      one at and past the final tread. */
  function StairIndex(x: real): (idx: int)
    ensures 0 <= idx < StairSteps
    ensures x < StairsX ==> idx == 0
    ensures x >= StairsX + ((StairSteps - 1) as real) * StairW ==> idx == StairSteps - 1
    ensures StairsX <= x ==> StairsX + (idx as real) * StairW <= x
    ensures x < StairsX + (StairSteps as real) * StairW - 1.0 ==> x < StairsX + ((idx + 1) as real) * StairW
  {
    (Max(0.0, Min(x - StairsX, (StairSteps as real) * StairW - 1.0)) / StairW).Floor
  }

  /** The height of the player standing on stair idx. */
  function StairY(c: Canvas, idx: int): real
  {
    GroundY(c) + (idx as real) * StairH - PlayerH / 2.0
  }

  function StairsStep(c: Canvas, s: GameState): GameState
  {
    var x := s.player.x + Walk(s.keys, 1.0);
    var idx := StairIndex(x);
    var s1 := s.(player := s.player.(x := x, y := StairY(c, idx)));
    if idx == StairSteps - 1 && x >= BigDoorX - 10.0 then ReachSchool(s1) else s1
  }

  /** Player.update(): gravity, then landing on the ground.  The player
      lands exactly when the fall would reach the ground, never ends below
      it, and a landed player stands still. */
  function Fall(groundY: real, p: Body): (r: Body)
    ensures r.x == p.x
    ensures r.y + PlayerH / 2.0 <= groundY
    ensures p.y + p.vy + Gravity + PlayerH / 2.0 >= groundY ==>
      r.y == groundY - PlayerH / 2.0 && r.vy == 0.0 && r.onGround
    ensures p.y + p.vy + Gravity + PlayerH / 2.0 < groundY ==>
      r.vy == p.vy + Gravity && r.y == p.y + r.vy && r.onGround == p.onGround
  {
    var vy := p.vy + Gravity;
    var y := p.y + vy;
    if y + PlayerH / 2.0 >= groundY then Body(p.x, groundY - PlayerH / 2.0, 0.0, true)
    else p.(y := y, vy := vy)
  }

  function PhaseStep(c: Canvas, s: GameState): GameState
  {
    match s.phase
    case WalkToBus => WalkToBusStep(c, s)
    case WaitingBoard => WalkToBusStep(c, s)
    case InBus => RideStep(c, s)
    case WaitingExit => ExitStep(s)
    case WalkToSchool => WalkToSchoolStep(c, s)
    case OnStairs => StairsStep(c, s)
    case AtSchool => s.(cameraX := SchoolCamera(c))
    case GameOver => s.(player := Fall(GroundY(c), s.player))
    case StartPrompt => s
  }

  /** The clamp of the player and the camera that ends every update past
      the start prompt. */
  function Settle(c: Canvas, s: GameState): GameState
  {
    var x := if s.player.x < MinPlayerX then MinPlayerX else s.player.x;
    var x' := if x > MaxPlayerX then MaxPlayerX else x;
    s.(player := s.player.(x := x'), cameraX := FollowCamera(c, x'))
  }

  /** The part of update() before the start prompt: the collision check
      (on the cars' old positions) and the traffic move. */
  function Prelude(s: GameState): GameState
  {
    var s1 := Collide(s);
    s1.(cars := MoveCars(s1.cars))
  }

  /** The rest of update(): the start prompt returns early, every other
      phase animates the door, runs its handler and clamps. */
  function AfterTraffic(c: Canvas, s: GameState): GameState
  {
    if s.phase == StartPrompt then StartStep(s)
    else Settle(c, PhaseStep(c, AnimateDoor(s)))
  }

  /** One call of update(). */
  function Step(c: Canvas, s: GameState): GameState
  {
    AfterTraffic(c, Prelude(s))
  }

  /** One iteration of loop(): update, then the latch's per-frame clear. */
  function Frame(c: Canvas, s: GameState): GameState
  {
    var r := Step(c, s);
    r.(keys := EndFrame(r.keys))
  }

  predicate Riding(p: Phase) { p == InBus }
  predicate BeforeRide(p: Phase) { p == StartPrompt || p == WalkToBus || p == WaitingBoard }
  predicate AfterRide(p: Phase) { p == WaitingExit || p == WalkToSchool || p == OnStairs || p == AtSchool }

  /** What holds of the game state before and after every update, apart
      from the player's and the camera's ranges. */
  predicate Core(c: Canvas, s: GameState)
  {
    && 0.0 <= s.bus.doorProg <= 1.0
    && 0.0 <= s.bus.x <= LevelWidth - BusWidth && s.bus.x <= DropX
    && (BeforeRide(s.phase) ==> s.bus.x == BusStartX)
    && (Riding(s.phase) ==> s.bus.x < DropX)
    && (AfterRide(s.phase) ==> s.bus.x == DropX)
    && (s.phase == WaitingBoard ==> s.player.x == BoardSpot(BusStartX))
    && s.finished == (s.phase == AtSchool || s.phase == GameOver)
    && s.trumpetPlayed == (s.phase == AtSchool)
    && (Trumpet in s.cues <==> s.trumpetPlayed) && multiset(s.cues)[Trumpet] <= 1
    && (ArrivalBeep in s.cues <==> s.bus.arrivalPlayed) && multiset(s.cues)[ArrivalBeep] <= 1
    && forall i :: 0 <= i < |s.cars| ==> InBand(BusY(c), s.cars[i])
  }

  /** The player inside the walkable range and the camera inside its range. */
  predicate Placed(c: Canvas, s: GameState)
  {
    MinPlayerX <= s.player.x <= MaxPlayerX && 0.0 <= s.cameraX <= MaxCameraX(c)
  }

  /** What holds of the game state before and after every update. */
  predicate Inv(c: Canvas, s: GameState)
  {
    Core(c, s) && Placed(c, s)
  }
}
