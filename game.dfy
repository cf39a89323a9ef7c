/** The game's mutable records as objects: the keyboard latch, the player,
    the bus and the session that owns them together with the traffic, the
    phase, the camera and the one-shot flags.  Each method is proved to do
    what the matching function of Rules (or Latch) says. */
module Game {
  import opened Latch
  import opened Level
  import opened Traffic
  import opened Rules
  import Properties

  class Input {
    var left: bool
    var right: bool
    var jump: bool
    var jumpPressed: bool

    constructor ()
      ensures State() == NoKeys
    {
      left, right, jump, jumpPressed := false, false, false, false;
    }

    function State(): KeyState
      reads this
    {
      KeyState(left, right, jump, jumpPressed)
    }

    /** The keydown listener. */
    method KeyDown(key: Key)
      modifies this
      ensures State() == Down(old(State()), key)
    {
      if key == ArrowLeft { left := true; }
      if key == ArrowRight { right := true; }
      if key == Space {
        if !jump { jumpPressed := true; }
        jump := true;
      }
    }

    /** The keyup listener. */
    method KeyUp(key: Key)
      modifies this
      ensures State() == Up(old(State()), key)
    {
      if key == ArrowLeft { left := false; }
      if key == ArrowRight { right := false; }
      if key == Space { jump := false; }
    }
  }

  class Player {
    const groundY: real
    var x: real
    var y: real
    var vy: real
    var onGround: bool

    constructor (groundY: real)
      ensures this.groundY == groundY
      ensures State() == Body(PlayerStartX, groundY - 30.0, 0.0, true)
    {
      this.groundY := groundY;
      x, y, vy, onGround := PlayerStartX, groundY - 30.0, 0.0, true;
    }

    function State(): Body
      reads this
    {
      Body(x, y, vy, onGround)
    }

    /** Gravity and landing. */
    method Update()
      modifies this
      ensures State() == Fall(groundY, old(State()))
    {
      vy := vy + Gravity;
      y := y + vy;
      if y + PlayerH / 2.0 >= groundY {
        y := groundY - PlayerH / 2.0;
        vy := 0.0;
        onGround := true;
      }
    }
  }

  class Bus {
    const y: real
    var x: real
    var doorOpen: bool
    var doorProg: real
    var arrivalPlayed: bool

    constructor (groundY: real)
      ensures y == groundY - Round(BusHeight / 2.0) as real
      ensures State() == BusState(BusStartX, false, 0.0, false)
    {
      y := groundY - Round(BusHeight / 2.0) as real;
      x, doorOpen, doorProg, arrivalPlayed := BusStartX, false, 0.0, false;
    }

    function State(): BusState
      reads this
    {
      BusState(x, doorOpen, doorProg, arrivalPlayed)
    }
  }

  class Session {
    const canvas: Canvas
    const input: Input
    const player: Player
    const bus: Bus
    var trafficCars: array<Car>
    var state: Phase
    var cameraX: real
    var finished: bool
    var trumpetPlayed: bool
    var cues: seq<Cue>

    function Snapshot(): GameState
      reads this, input, player, bus, trafficCars
    {
      GameState(input.State(), player.State(), bus.State(), trafficCars[..], state, cameraX, finished, trumpetPlayed, cues)
    }

    ghost predicate Valid()
      reads this, input, player, bus, trafficCars
    {
      player.groundY == GroundY(canvas) && bus.y == BusY(canvas) && Inv(canvas, Snapshot())
    }

    constructor (canvas: Canvas, draws: seq<Draw>)
      requires ValidDraws(draws)
      ensures Valid() && Snapshot() == Initial(canvas, draws)
      ensures fresh(input) && fresh(player) && fresh(bus) && fresh(trafficCars)
    {
      this.canvas := canvas;
      input := new Input();
      player := new Player(GroundY(canvas));
      bus := new Bus(GroundY(canvas));
      trafficCars := new Car[0];
      state, cameraX, finished, trumpetPlayed, cues := StartPrompt, 0.0, false, false, [];
      new;
      SpawnTrafficCars(draws);
      Properties.InitialInv(canvas, draws);
    }

    /** Replaces the traffic by three cars spread out ahead of the bus. */
    method SpawnTrafficCars(draws: seq<Draw>)
      requires ValidDraws(draws)
      modifies this`trafficCars
      ensures fresh(trafficCars)
      ensures trafficCars[..] == SpawnCars(bus.x, bus.y, draws)
    {
      var cars := new Car[CarCount];
      var carStart := bus.x + BusWidth + 120.0;
      for i := 0 to CarCount
        invariant forall j :: 0 <= j < i ==> cars[j] == SpawnCar(bus.x, bus.y, j, draws[j])
      {
        cars[i] := Car(carStart + (i as real) * 260.0 + draws[i].x * 60.0,
                       bus.y,
                       110.0 + draws[i].w * 40.0,
                       48.0 + draws[i].h * 12.0,
                       CarColors[i % |CarColors|],
                       2.2 + draws[i].speed * 1.2);
      }
      trafficCars := cars;
    }

    /** Whether the player's box meets some car's box. */
    method CollidesWithTraffic() returns (hit: bool)
      ensures hit == AnyOverlap(player.State(), trafficCars[..])
    {
      hit := false;
      var i := 0;
      while i < trafficCars.Length
        invariant 0 <= i <= trafficCars.Length
        invariant forall j :: 0 <= j < i ==> !Overlaps(player.State(), trafficCars[j])
      {
        var car := trafficCars[i];
        var px, py := player.x, player.y;
        if px + PlayerW / 2.0 > car.x && px - PlayerW / 2.0 < car.x + car.w &&
           py + PlayerH / 2.0 > car.y && py - PlayerH / 2.0 < car.y + car.h
        {
          hit := true;
          assert trafficCars[..][i] == car;
          break;
        }
        i := i + 1;
      }
    }

    /** Advances every car and wraps those past the right end. */
    method MoveTraffic()
      modifies trafficCars
      ensures trafficCars[..] == MoveCars(old(trafficCars[..]))
    {
      for i := 0 to trafficCars.Length
        invariant forall j :: 0 <= j < i ==> trafficCars[j] == MoveCar(old(trafficCars[j]))
        invariant forall j :: i <= j < trafficCars.Length ==> trafficCars[j] == old(trafficCars[j])
      {
        var car := trafficCars[i];
        car := car.(x := car.x + car.speed);
        if car.x > LevelWidth + 60.0 { car := car.(x := -car.w - 60.0); }
        trafficCars[i] := car;
      }
    }

    /** Whether some car occupies the stretch just ahead of the bus. */
    method CarInFront() returns (blocked: bool)
      ensures blocked == CarAhead(trafficCars[..], bus.x, bus.y)
    {
      blocked := false;
      var i := 0;
      while i < trafficCars.Length
        invariant 0 <= i <= trafficCars.Length
        invariant forall j :: 0 <= j < i ==> !Ahead(trafficCars[j], bus.x, bus.y)
      {
        var car := trafficCars[i];
        if car.x > bus.x + BusWidth - 10.0 && car.x < bus.x + BusWidth + 80.0 && Abs(car.y - bus.y) < 30.0 {
          blocked := true;
          assert trafficCars[..][i] == car;
          break;
        }
        i := i + 1;
      }
    }

    method ReachSchool()
      requires state == OnStairs || state == WalkToSchool
      modifies this`state, this`finished, this`trumpetPlayed, this`cues
      ensures Snapshot() == Rules.ReachSchool(old(Snapshot()))
    {
      state := AtSchool;
      finished := true;
      if !trumpetPlayed {
        cues := cues + [Trumpet];
        trumpetPlayed := true;
      }
    }

    /** Where the arrow keys move the player this frame, `step` per key. */
    method Stride(step: real) returns (x: real)
      ensures x == player.x + Walk(input.State(), step)
    {
      x := player.x;
      if input.right { x := x + step; }
      if input.left { x := x - step; }
    }

    /** Where the arrow keys move the bus this frame; a car ahead stops it
        from moving right. */
    method Steer(blocked: bool) returns (x: real)
      ensures x == RideTarget(input.State(), bus.x, blocked)
    {
      var canMoveRight := true;
      if blocked { canMoveRight := false; }
      x := bus.x;
      if input.right && canMoveRight { x := x + BusSpeed; }
      if input.left { x := x - BusSpeed; }
      x := Max(0.0, Min(LevelWidth - BusWidth, x));
    }

    /** Walks towards the bus door and, once close enough, snaps to the
        board spot and opens the door. */
    method ApproachBus()
      modifies this`state, player`x, bus`doorOpen
      ensures Snapshot() == Approach(old(Snapshot()))
    {
      var x := Stride(1.8);
      player.x := x;
      var doorX := bus.x + BusWidth - 62.0;
      var boardSpot := doorX - 20.0;
      if player.x + 10.0 >= boardSpot {
        player.x := boardSpot;
        state := WaitingBoard;
        bus.doorOpen := true;
      }
    }

    /** Gets on the bus. */
    method BoardBus()
      requires bus.y == BusY(canvas)
      modifies this`state, this`cues, input`jumpPressed, player`x, player`y, bus`doorOpen
      ensures Snapshot() == Board(canvas, old(Snapshot()))
    {
      state := InBus;
      input.jumpPressed := false;
      player.x := bus.x + 40.0;
      player.y := bus.y;
      bus.doorOpen := false;
      cues := cues + [BoardBeep];
    }

    method WalkToBusFrame()
      requires bus.y == BusY(canvas)
      modifies this`state, this`cues, input`jumpPressed, player`x, player`y, bus`doorOpen
      ensures Snapshot() == WalkToBusStep(canvas, old(Snapshot()))
    {
      ApproachBus();
      if state == WaitingBoard && input.jumpPressed {
        BoardBus();
      }
    }

    /** Stops at the drop-off point, opens the door and beeps the first time. */
    method ArriveAtStop()
      modifies this`state, this`cues, bus`x, bus`doorOpen, bus`arrivalPlayed
      ensures Snapshot() == Arrive(old(Snapshot()))
    {
      var dropX := StairsX - (BusWidth - 62.0) - StopOffset;
      bus.x := dropX;
      bus.doorOpen := true;
      state := WaitingExit;
      if !bus.arrivalPlayed {
        cues := cues + [ArrivalBeep];
        bus.arrivalPlayed := true;
      }
    }

    method RideFrame()
      requires bus.y == BusY(canvas)
      modifies this`state, this`cues, player`x, player`y, bus`x, bus`doorOpen, bus`arrivalPlayed
      ensures Snapshot() == RideStep(canvas, old(Snapshot()))
    {
      var ahead := CarInFront();
      var x := Steer(ahead);
      bus.x := x;
      player.x := bus.x + 40.0;
      player.y := bus.y;
      if bus.x >= DropX {
        ArriveAtStop();
      }
    }

    method ExitFrame()
      modifies this`state, input`jumpPressed, player`x, bus`doorOpen
      ensures Snapshot() == ExitStep(old(Snapshot()))
    {
      if input.jumpPressed {
        input.jumpPressed := false;
        state := WalkToSchool;
        player.x := bus.x + BusWidth - 80.0;
        bus.doorOpen := false;
      }
    }

    method WalkToSchoolFrame()
      requires state == WalkToSchool
      modifies this`state, this`finished, this`trumpetPlayed, this`cues, player`x, player`y
      ensures Snapshot() == WalkToSchoolStep(canvas, old(Snapshot()))
    {
      var bigDoorX := SchoolX + SchoolWidth - BigDoorW - 18.0;
      var x := Stride(1.6);
      player.x := x;
      if player.x >= StairsX + (StairSteps as real) * StairW - 4.0 {
        player.y := GroundY(canvas) - PlayerH / 2.0;
        if player.x >= bigDoorX - 10.0 {
          ReachSchool();
        }
      } else if player.x >= StairsX {
        state := OnStairs;
      }
    }

    method StairsFrame()
      requires state == OnStairs
      modifies this`state, this`finished, this`trumpetPlayed, this`cues, player`x, player`y
      ensures Snapshot() == StairsStep(canvas, old(Snapshot()))
    {
      var x := Stride(1.0);
      player.x := x;
      var rel := Max(0.0, Min(player.x - StairsX, (StairSteps as real) * StairW - 1.0));
      var idx := (rel / StairW).Floor;
      var topY := GroundY(canvas);
      var stepY := topY + (idx as real) * StairH;
      player.y := stepY - PlayerH / 2.0;
      var bigDoorX := SchoolX + SchoolWidth - BigDoorW - 18.0;
      if idx == StairSteps - 1 && player.x >= bigDoorX - 10.0 {
        ReachSchool();
      }
    }

    /** One call of update(). */
    method Update()
      requires Valid()
      modifies this, input, player, bus, trafficCars
      ensures Valid() && trafficCars == old(trafficCars)
      ensures Snapshot() == Step(canvas, old(Snapshot()))
    {
      ghost var s0 := Snapshot();
      CheckCollision();
      MoveTraffic();
      AfterTraffic();
      Properties.StepKeepsInv(canvas, s0);
    }

    /** update() after the traffic has moved. */
    method AfterTraffic()
      requires player.groundY == GroundY(canvas) && bus.y == BusY(canvas)
      modifies this`state, this`cameraX, this`finished, this`trumpetPlayed, this`cues
      modifies input`jumpPressed, player, bus`x, bus`doorOpen, bus`doorProg, bus`arrivalPlayed
      ensures Snapshot() == Rules.AfterTraffic(canvas, old(Snapshot()))
    {
      if state == StartPrompt {
        if input.jumpPressed {
          input.jumpPressed := false;
          state := WalkToBus;
        }
        return;
      }
      AnimateBusDoor();
      RunPhase();
      ClampAndFollow();
    }

    /** A walking player who touches a car ends the game. */
    method CheckCollision()
      modifies this`finished, this`state
      ensures Snapshot() == Collide(old(Snapshot()))
    {
      if state == WalkToBus || state == WalkToSchool || state == OnStairs {
        var hit := CollidesWithTraffic();
        if hit {
          finished := true;
          state := GameOver;
        }
      }
    }

    method AnimateBusDoor()
      modifies bus`doorProg
      ensures Snapshot() == AnimateDoor(old(Snapshot()))
    {
      if bus.doorOpen {
        bus.doorProg := bus.doorProg + DoorStep;
      } else {
        bus.doorProg := bus.doorProg - DoorStep;
      }
      bus.doorProg := Max(0.0, Min(1.0, bus.doorProg));
    }

    /** The state machine proper. */
    method RunPhase()
      requires player.groundY == GroundY(canvas) && bus.y == BusY(canvas)
      requires state != StartPrompt
      modifies this`state, this`cameraX, this`finished, this`trumpetPlayed, this`cues
      modifies input`jumpPressed, player, bus`x, bus`doorOpen, bus`arrivalPlayed
      ensures Snapshot() == PhaseStep(canvas, old(Snapshot()))
    {
      if state == WalkToBus || state == WaitingBoard {
        WalkToBusFrame();
      } else if state == InBus {
        RideFrame();
      } else if state == WaitingExit {
        ExitFrame();
      } else if state == WalkToSchool {
        WalkToSchoolFrame();
      } else if state == OnStairs {
        StairsFrame();
      } else if state == AtSchool {
        CentreOnSchool();
      } else {
        FallFrame();
      }
    }

    /** atSchool: the camera is centred on the school. */
    method CentreOnSchool()
      modifies this`cameraX
      ensures Snapshot() == old(Snapshot()).(cameraX := SchoolCamera(canvas))
    {
      var target := Round(SchoolX + Round(SchoolWidth / 2.0) as real - canvas.width / 2.0) as real;
      cameraX := Max(0.0, Min(LevelWidth - canvas.width, target));
    }

    /** gameOver: only gravity acts on the player. */
    method FallFrame()
      requires player.groundY == GroundY(canvas)
      modifies player
      ensures Snapshot() == old(Snapshot()).(player := Fall(GroundY(canvas), old(Snapshot()).player))
    {
      player.Update();
    }

    /** The clamp of the player and the camera at the end of update(). */
    method ClampAndFollow()
      modifies this`cameraX, player`x
      ensures Snapshot() == Settle(canvas, old(Snapshot()))
    {
      if player.x < MinPlayerX { player.x := MinPlayerX; }
      if player.x > MaxPlayerX { player.x := MaxPlayerX; }
      var maxCameraX := Max(0.0, SchoolX + SchoolWidth - canvas.width + 40.0);
      cameraX := Max(0.0, player.x - canvas.width / 2.0);
      cameraX := Min(maxCameraX, cameraX);
    }

    /** One iteration of loop(): update, then clear the pending press. */
    method Loop()
      requires Valid()
      modifies this, input, player, bus, trafficCars
      ensures Valid() && trafficCars == old(trafficCars)
      ensures Snapshot() == Frame(canvas, old(Snapshot()))
    {
      Update();
      ghost var s1 := Snapshot();
      input.jumpPressed := false;
      assert Snapshot() == s1.(keys := EndFrame(s1.keys));
    }

    method KeyDown(key: Key)
      requires Valid()
      modifies input
      ensures Valid()
      ensures Snapshot() == old(Snapshot()).(keys := Down(old(Snapshot()).keys, key))
    {
      input.KeyDown(key);
    }

    method KeyUp(key: Key)
      requires Valid()
      modifies input
      ensures Valid()
      ensures Snapshot() == old(Snapshot()).(keys := Up(old(Snapshot()).keys, key))
    {
      input.KeyUp(key);
    }
  }
}
