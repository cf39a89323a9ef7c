/** Traffic cars: how they are spawned, how they move and wrap, and the two
    geometric tests the frame update applies to them. */
module Traffic {
  import opened Level

  const CarCount: nat := 3

  /** The four Math.random() draws one car consumes, in the order drawn. */
  datatype Draw = Draw(x: real, w: real, h: real, speed: real)

  predicate UnitDraw(d: Draw)
  {
    0.0 <= d.x < 1.0 && 0.0 <= d.w < 1.0 && 0.0 <= d.h < 1.0 && 0.0 <= d.speed < 1.0
  }

  predicate ValidDraws(draws: seq<Draw>)
  {
    |draws| == CarCount && forall i :: 0 <= i < |draws| ==> UnitDraw(draws[i])
  }

  /** The i-th car placed ahead of a bus at (busX, busY). */
  function SpawnCar(busX: real, busY: real, i: nat, d: Draw): (car: Car)
    requires UnitDraw(d)
    ensures car.y == busY
    ensures busX + BusWidth + 120.0 + (i as real) * 260.0 <= car.x < busX + BusWidth + 180.0 + (i as real) * 260.0
    ensures 110.0 <= car.w < 150.0 && 48.0 <= car.h < 60.0 && 2.2 <= car.speed < 3.4
  {
    Car(busX + BusWidth + 120.0 + (i as real) * 260.0 + d.x * 60.0,
        busY,
        110.0 + d.w * 40.0,
        48.0 + d.h * 12.0,
        CarColors[i % |CarColors|],
        2.2 + d.speed * 1.2)
  }

  /** The cars spawnTrafficCars() leaves behind, all on the bus's plane,
      spaced out ahead of it so that no two of them overlap. */
  function SpawnCars(busX: real, busY: real, draws: seq<Draw>): (cars: seq<Car>)
    requires ValidDraws(draws)
    ensures |cars| == CarCount
    ensures forall i :: 0 <= i < |cars| ==> cars[i].y == busY && busX + BusWidth + 120.0 <= cars[i].x
    ensures forall i :: 0 <= i < |cars| ==> 110.0 <= cars[i].w < 150.0 && 48.0 <= cars[i].h < 60.0
    ensures forall i :: 0 <= i < |cars| ==> 2.2 <= cars[i].speed < 3.4
    ensures forall i :: 0 <= i < |cars| ==> cars[i].x < busX + BusWidth + 700.0
    ensures forall i :: 0 <= i < |cars| - 1 ==> cars[i].x + cars[i].w < cars[i + 1].x
  {
    seq(CarCount, i requires 0 <= i < CarCount => SpawnCar(busX, busY, i, draws[i]))
  }

  /** One car's move for a frame: advance by its speed and, once beyond
      the right end of the level, re-enter just off the left end. */
  function MoveCar(car: Car): (r: Car)
    ensures r == car.(x := r.x)
    ensures car.x + car.speed > LevelWidth + 60.0 ==> r.x == -car.w - 60.0
    ensures car.x + car.speed <= LevelWidth + 60.0 ==> r.x == car.x + car.speed
  {
    var x := car.x + car.speed;
    if x > LevelWidth + 60.0 then car.(x := -car.w - 60.0) else car.(x := x)
  }

  function MoveCars(cars: seq<Car>): (r: seq<Car>)
    ensures |r| == |cars|
    ensures forall i :: 0 <= i < |cars| ==> r[i] == MoveCar(cars[i])
  {
    if cars == [] then [] else [MoveCar(cars[0])] + MoveCars(cars[1..])
  }

  /** The envelope every car stays in: on the bus plane, moving right, and
      horizontally between its wrap-in point and the wrap-out threshold. */
  predicate InBand(busY: real, car: Car)
  {
    car.y == busY && 0.0 <= car.speed && 0.0 <= car.w && -car.w - 60.0 <= car.x <= LevelWidth + 60.0
  }

  lemma MoveCarStaysInBand(busY: real, car: Car)
    requires InBand(busY, car)
    ensures InBand(busY, MoveCar(car))
  {
  }

  lemma {:induction false} MoveCarsStayInBand(busY: real, cars: seq<Car>)
    requires forall i :: 0 <= i < |cars| ==> InBand(busY, cars[i])
    ensures forall i :: 0 <= i < |cars| ==> InBand(busY, MoveCars(cars)[i])
  {
    forall i | 0 <= i < |cars| ensures InBand(busY, MoveCars(cars)[i]) {
      MoveCarStaysInBand(busY, cars[i]);
    }
  }

  /** The player's box (centred on the player) meets the car's box
      (anchored at the car's x, y). */
  predicate Overlaps(p: Body, car: Car)
  {
    p.x + PlayerW / 2.0 > car.x && p.x - PlayerW / 2.0 < car.x + car.w &&
    p.y + PlayerH / 2.0 > car.y && p.y - PlayerH / 2.0 < car.y + car.h
  }

  predicate AnyOverlap(p: Body, cars: seq<Car>)
  {
    exists i :: 0 <= i < |cars| && Overlaps(p, cars[i])
  }

  /** The car sits in the stretch just ahead of the front of a bus at
      (busX, busY), at the bus's height. */
  predicate Ahead(car: Car, busX: real, busY: real)
  {
    car.x > busX + BusWidth - 10.0 && car.x < busX + BusWidth + 80.0 && Abs(car.y - busY) < 30.0
  }

  predicate CarAhead(cars: seq<Car>, busX: real, busY: real)
  {
    exists i :: 0 <= i < |cars| && Ahead(cars[i], busX, busY)
  }

  /** Spawned in the initial layout, every car starts inside its band. */
  lemma SpawnedCarsInBand(busY: real, draws: seq<Draw>)
    requires ValidDraws(draws)
    ensures forall i :: 0 <= i < CarCount ==> InBand(busY, SpawnCars(BusStartX, busY, draws)[i])
  {
  }
}
