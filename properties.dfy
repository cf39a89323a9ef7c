/** What one update guarantees, stated about Rules.Step. */
module Properties {
  import opened Latch
  import opened Level
  import opened Traffic
  import opened Rules

  /** The page's initial state satisfies the invariant. */
  lemma InitialInv(c: Canvas, draws: seq<Draw>)
    requires ValidDraws(draws)
    ensures Inv(c, Initial(c, draws))
  {
    SpawnedCarsInBand(BusY(c), draws);
    GeometryConstants();
  }

  /** Every update keeps the invariant. */
  lemma StepKeepsInv(c: Canvas, s: GameState)
    requires Inv(c, s)
    ensures Inv(c, Step(c, s))
  {
    PreludeKeepsCore(c, s);
    var p := Prelude(s);
    if p.phase == StartPrompt {
      assert Step(c, s) == StartStep(p);
    } else {
      var a := AnimateDoor(p);
      PhaseKeepsCore(c, a);
      SettlePlaces(c, PhaseStep(c, a));
      assert Step(c, s) == Settle(c, PhaseStep(c, a));
    }
  }

  /** The collision check and the traffic move keep the invariant's core. */
  lemma PreludeKeepsCore(c: Canvas, s: GameState)
    requires Inv(c, s)
    ensures Core(c, Prelude(s)) && Placed(c, Prelude(s))
  {
    MoveCarsStayInBand(BusY(c), s.cars);
  }

  /** The final clamp restores the player's and the camera's ranges. */
  lemma SettlePlaces(c: Canvas, t: GameState)
    requires Core(c, t)
    ensures Inv(c, Settle(c, t))
  {
    GeometryConstants();
  }

  /** Every phase handler keeps the invariant's core. */
  lemma PhaseKeepsCore(c: Canvas, a: GameState)
    requires Core(c, a) && a.phase != StartPrompt
    ensures Core(c, PhaseStep(c, a))
  {
    match a.phase
    case WalkToBus => BoardingKeepsCore(c, a);
    case WaitingBoard => BoardingKeepsCore(c, a);
    case InBus => RidingKeepsCore(c, a);
    case WaitingExit => LeavingKeepsCore(c, a);
    case WalkToSchool => WalkingToSchoolKeepsCore(c, a);
    case OnStairs => ClimbingKeepsCore(c, a);
    case AtSchool =>
    case GameOver =>
  }

  lemma LeavingKeepsCore(c: Canvas, a: GameState)
    requires Core(c, a) && a.phase == WaitingExit
    ensures Core(c, ExitStep(a))
  {
  }

  lemma WalkingToSchoolKeepsCore(c: Canvas, a: GameState)
    requires Core(c, a) && a.phase == WalkToSchool
    ensures Core(c, WalkToSchoolStep(c, a))
  {
    GeometryConstants();
  }

  lemma ClimbingKeepsCore(c: Canvas, a: GameState)
    requires Core(c, a) && a.phase == OnStairs
    ensures Core(c, StairsStep(c, a))
  {
    GeometryConstants();
  }

  lemma BoardingKeepsCore(c: Canvas, a: GameState)
    requires Core(c, a) && (a.phase == WalkToBus || a.phase == WaitingBoard)
    ensures Core(c, WalkToBusStep(c, a))
  {
    GeometryConstants();
  }

  lemma RidingKeepsCore(c: Canvas, a: GameState)
    requires Core(c, a) && a.phase == InBus
    ensures Core(c, RideStep(c, a))
  {
    GeometryConstants();
  }

  /** The start prompt waits for one press and changes nothing else. */
  lemma StartPromptWaitsForPress(c: Canvas, s: GameState)
    requires s.phase == StartPrompt
    ensures var r := Step(c, s);
      r == s.(cars := MoveCars(s.cars), keys := s.keys.(jumpPressed := false),
              phase := if s.keys.jumpPressed then WalkToBus else StartPrompt)
  {
  }

  /** Past the start prompt the door moves one step towards open or
      closed and stays within [0, 1]. */
  lemma DoorProgress(c: Canvas, s: GameState)
    requires 0.0 <= s.bus.doorProg <= 1.0
    ensures var r := Step(c, s);
      && 0.0 <= r.bus.doorProg <= 1.0
      && (s.phase == StartPrompt ==> r.bus.doorProg == s.bus.doorProg)
      && (s.phase != StartPrompt && s.bus.doorOpen ==> r.bus.doorProg == Min(1.0, s.bus.doorProg + DoorStep))
      && (s.phase != StartPrompt && !s.bus.doorOpen ==> r.bus.doorProg == Max(0.0, s.bus.doorProg - DoorStep))
  {
    var p := Prelude(s);
    assert p.bus == s.bus && (p.phase == StartPrompt <==> s.phase == StartPrompt);
    if p.phase != StartPrompt {
      var a := AnimateDoor(p);
      HandlerFacts(c, a);
      assert Step(c, s).bus.doorProg == a.bus.doorProg;
    }
  }

  /** The phase handlers leave the door's progress alone and move the phase
      forward along the chain, gameOver only to itself. */
  lemma HandlerFacts(c: Canvas, a: GameState)
    requires a.phase != StartPrompt
    ensures PhaseStep(c, a).bus.doorProg == a.bus.doorProg
    ensures a.phase != GameOver ==> Rank(a.phase) <= Rank(PhaseStep(c, a).phase) && PhaseStep(c, a).phase != GameOver
    ensures a.phase == GameOver ==> PhaseStep(c, a).phase == GameOver
    ensures a.phase == AtSchool ==> PhaseStep(c, a).phase == AtSchool
  {
    match a.phase
    case WalkToBus =>
    case WaitingBoard =>
    case InBus =>
    case WaitingExit =>
    case WalkToSchool =>
    case OnStairs =>
    case AtSchool =>
    case GameOver =>
  }

  /** Reaching the board spot snaps the player to it, opens the door and
      waits for boarding; a pending press boards the bus at once. */
  lemma Boarding(c: Canvas, s: GameState)
    requires Inv(c, s)
    requires s.phase == WalkToBus || s.phase == WaitingBoard
    requires !Hit(s)
    ensures var r := Step(c, s); var x := s.player.x + Walk(s.keys, 1.8);
      && (x + 10.0 >= BoardSpot(s.bus.x) && !s.keys.jumpPressed ==>
            r.phase == WaitingBoard && r.player.x == BoardSpot(s.bus.x) && r.bus.doorOpen)
      && (x + 10.0 >= BoardSpot(s.bus.x) && s.keys.jumpPressed ==>
            && r.phase == InBus && r.player.x == s.bus.x + 40.0 && r.player.y == BusY(c)
            && !r.bus.doorOpen && !r.keys.jumpPressed && r.cues == s.cues + [BoardBeep])
      && (x + 10.0 < BoardSpot(s.bus.x) ==>
            r.phase == WalkToBus && r.player.x == Max(MinPlayerX, x) && r.bus.doorOpen == s.bus.doorOpen)
  {
    GeometryConstants();
  }

  /** In waitingBoard the player is always at the spot, so the press alone
      decides boarding. */
  lemma WaitingBoardBoardsOnPress(c: Canvas, s: GameState)
    requires Inv(c, s) && s.phase == WaitingBoard
    ensures var r := Step(c, s);
      && (r.phase == InBus <==> s.keys.jumpPressed)
      && (r.phase != InBus ==> r.phase == WaitingBoard)
  {
    GeometryConstants();
  }

  /** Riding: the bus stays within the level and never passes the drop-off
      point; the player rides along; reaching the drop-off opens the door. */
  lemma Ride(c: Canvas, s: GameState)
    requires Inv(c, s) && s.phase == InBus
    ensures var r := Step(c, s);
      var target := RideTarget(s.keys, s.bus.x, CarAhead(MoveCars(s.cars), s.bus.x, BusY(c)));
      && 0.0 <= r.bus.x <= LevelWidth - BusWidth && r.bus.x <= DropX
      && r.player.y == BusY(c)
      && (r.phase == InBus || r.phase == WaitingExit)
      && (r.phase == WaitingExit <==> target >= DropX)
      && (r.phase == InBus ==> r.bus.x == target && r.player.x == r.bus.x + 40.0)
      && (r.phase == WaitingExit ==>
            r.bus.x == DropX && r.bus.doorOpen && r.bus.arrivalPlayed && r.player.x == target + 40.0)
  {
    GeometryConstants();
  }

  /** A car just ahead of the bus stops it from moving right. */
  lemma BlockedBusStays(c: Canvas, s: GameState)
    requires Inv(c, s) && s.phase == InBus
    requires s.keys.right && !s.keys.left
    requires CarAhead(MoveCars(s.cars), s.bus.x, BusY(c))
    ensures Step(c, s).bus.x == s.bus.x && Step(c, s).phase == InBus
  {
    GeometryConstants();
  }

  /** Without a car ahead, right-only input advances the bus by its speed
      until the drop-off point. */
  lemma UnblockedBusAdvances(c: Canvas, s: GameState)
    requires Inv(c, s) && s.phase == InBus
    requires s.keys.right && !s.keys.left
    requires !CarAhead(MoveCars(s.cars), s.bus.x, BusY(c))
    ensures Step(c, s).bus.x == Min(DropX, s.bus.x + BusSpeed)
  {
    GeometryConstants();
  }

  /** On the arrival frame the player is placed from the clamped target
      before the bus snaps back to the drop-off point, so the player can end
      up ahead of the bus's seat: from 1980 the bus targets 1985, stops at
      1982 and leaves the player at 2025. */
  lemma ArrivalLeavesPlayerAhead(c: Canvas, s: GameState)
    requires Inv(c, s) && s.phase == InBus && s.bus.x == 1980.0
    requires s.keys.right && !s.keys.left
    requires !CarAhead(MoveCars(s.cars), s.bus.x, BusY(c))
    ensures Step(c, s).phase == WaitingExit
    ensures Step(c, s).bus.x == 1982.0 && Step(c, s).player.x == 2025.0
    ensures Step(c, s).player.x == Step(c, s).bus.x + 40.0 + 3.0
  {
    GeometryConstants();
  }

  /** waitingExit: a press puts the player on the pavement behind the bus. */
  lemma LeavingTheBus(c: Canvas, s: GameState)
    requires Inv(c, s) && s.phase == WaitingExit
    ensures var r := Step(c, s);
      && (r.phase == WalkToSchool <==> s.keys.jumpPressed)
      && (r.phase != WalkToSchool ==> r.phase == WaitingExit)
      && (s.keys.jumpPressed ==> r.player.x == DropX + BusWidth - 80.0 && !r.bus.doorOpen && !r.keys.jumpPressed)
  {
    GeometryConstants();
  }

  /** walkToSchool: the stairs are entered at their top; past them the
      player walks on the ground to the school door. */
  lemma WalkingToSchool(c: Canvas, s: GameState)
    requires Inv(c, s) && s.phase == WalkToSchool && !AnyOverlap(s.player, s.cars)
    ensures var r := Step(c, s); var x := s.player.x + Walk(s.keys, 1.6);
      && (r.phase == AtSchool <==> x >= BigDoorX - 10.0)
      && (r.phase == OnStairs <==> StairsX <= x < StairsEnd)
      && (r.phase == WalkToSchool <==> x < StairsX || StairsEnd <= x < BigDoorX - 10.0)
      && (x >= StairsEnd ==> r.player.y == GroundY(c) - PlayerH / 2.0)
  {
    GeometryConstants();
  }

  /** onStairs: the player's height follows the stepped profile, and the
      school is reached only on the last tread at the big door. */
  lemma Stairs(c: Canvas, s: GameState)
    requires Inv(c, s) && s.phase == OnStairs && !AnyOverlap(s.player, s.cars)
    ensures var r := Step(c, s); var x := s.player.x + Walk(s.keys, 1.0); var idx := StairIndex(x);
      && 0 <= idx < StairSteps
      && r.player.y == GroundY(c) + (idx as real) * StairH - PlayerH / 2.0
      && (r.phase == AtSchool <==> idx == StairSteps - 1 && x >= BigDoorX - 10.0)
      && (r.phase != AtSchool ==> r.phase == OnStairs)
  {
  }

  /** The phase only moves forward along the chain; gameOver is entered
      only from a walking phase; atSchool and gameOver are never left. */
  lemma PhaseNeverMovesBack(c: Canvas, s: GameState)
    ensures NeverBack(s.phase, Step(c, s).phase)
    ensures s.phase == AtSchool ==> Step(c, s).phase == AtSchool
    ensures s.phase == GameOver ==> Step(c, s).phase == GameOver
  {
    var p := Prelude(s);
    if p.phase != StartPrompt {
      var a := AnimateDoor(p);
      HandlerFacts(c, a);
      assert Step(c, s).phase == PhaseStep(c, a).phase;
    }
  }

  /** gameOver is entered exactly when a walking player touches a car. */
  lemma GameOverExactlyOnCollision(c: Canvas, s: GameState)
    ensures (Step(c, s).phase == GameOver && s.phase != GameOver) <==> Hit(s)
  {
  }

  /** In gameOver only gravity acts on the player. */
  lemma GameOverFalls(c: Canvas, s: GameState)
    requires Inv(c, s) && s.phase == GameOver
    ensures Step(c, s).player == Fall(GroundY(c), s.player)
  {
  }

  /** After every update past the start prompt the player is inside the
      walkable range and the camera follows the player within its range;
      in particular the atSchool camera is always replaced. */
  lemma PositionAndCamera(c: Canvas, s: GameState)
    requires s.phase != StartPrompt
    ensures var r := Step(c, s);
      && MinPlayerX <= r.player.x <= MaxPlayerX
      && 0.0 <= r.cameraX <= MaxCameraX(c)
      && r.cameraX == FollowCamera(c, r.player.x)
  {
  }

  /** The arrival beep and the trumpet each sound at most once, the trumpet
      exactly when the school has been reached. */
  lemma CuesAtMostOnce(c: Canvas, s: GameState)
    requires Inv(c, s)
    ensures var r := Step(c, s);
      && multiset(r.cues)[ArrivalBeep] <= 1 && multiset(r.cues)[Trumpet] <= 1
      && (Trumpet in r.cues <==> r.phase == AtSchool)
      && (r.finished <==> r.phase == AtSchool || r.phase == GameOver)
  {
    StepKeepsInv(c, s);
  }

  /** After any frame of the loop no press is pending. */
  lemma FrameClearsPress(c: Canvas, s: GameState)
    ensures !Frame(c, s).keys.jumpPressed
    ensures Frame(c, s) == Step(c, s).(keys := Step(c, s).keys.(jumpPressed := false))
    ensures Frame(c, s).keys == EndFrame(s.keys)
  {
  }
}
