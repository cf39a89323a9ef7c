/** The keyboard latch of the game: arrow keys are held signals, Space is
    edge-triggered.  `jump` mirrors whether Space is physically down and
    `jumpPressed` is the one-shot flag the frame loop consumes. */
module Latch {

  datatype Key = ArrowLeft | ArrowRight | Space | OtherKey

  datatype KeyState = KeyState(left: bool, right: bool, jump: bool, jumpPressed: bool)

  const NoKeys := KeyState(false, false, false, false)

  /** The keydown handler. */
  function Down(k: KeyState, key: Key): (r: KeyState)
    ensures key == Space ==> r.jump && r.jumpPressed == (k.jumpPressed || !k.jump)
    ensures key != Space ==> r.jump == k.jump && r.jumpPressed == k.jumpPressed
    ensures r.left == (k.left || key == ArrowLeft) && r.right == (k.right || key == ArrowRight)
  {
    match key
    case ArrowLeft => k.(left := true)
    case ArrowRight => k.(right := true)
    case Space => k.(jumpPressed := if !k.jump then true else k.jumpPressed, jump := true)
    case OtherKey => k
  }

  /** The keyup handler: releasing Space clears only `jump`. */
  function Up(k: KeyState, key: Key): (r: KeyState)
    ensures r.jumpPressed == k.jumpPressed
    ensures r.jump == (k.jump && key != Space)
    ensures r.left == (k.left && key != ArrowLeft) && r.right == (k.right && key != ArrowRight)
  {
    match key
    case ArrowLeft => k.(left := false)
    case ArrowRight => k.(right := false)
    case Space => k.(jump := false)
    case OtherKey => k
  }

  /** What the frame loop does to the latch after every update. */
  function EndFrame(k: KeyState): KeyState
  {
    k.(jumpPressed := false)
  }

  /** Everything that can happen to the latch between two observations. */
  datatype Event = KeyDown(key: Key) | KeyUp(key: Key) | FrameEnd

  function Apply(k: KeyState, e: Event): KeyState
  {
    match e
    case KeyDown(key) => Down(k, key)
    case KeyUp(key) => Up(k, key)
    case FrameEnd => EndFrame(k)
  }

  function Run(k: KeyState, evs: seq<Event>): KeyState
    decreases |evs|
  {
    if evs == [] then k else Run(Apply(k, evs[0]), evs[1..])
  }

  /** A rising edge: a Space keydown while Space was not held. */
  predicate RisingEdge(k: KeyState, e: Event)
  {
    e == KeyDown(Space) && !k.jump
  }

  /** The number of rising edges of Space along `evs`. */
  function RisingEdges(k: KeyState, evs: seq<Event>): nat
    decreases |evs|
  {
    if evs == [] then 0
    else (if RisingEdge(k, evs[0]) then 1 else 0) + RisingEdges(Apply(k, evs[0]), evs[1..])
  }

  /** The number of physical Space releases along `evs`. */
  function Releases(evs: seq<Event>): nat
  {
    if evs == [] then 0
    else (if evs[0] == KeyUp(Space) then 1 else 0) + Releases(evs[1..])
  }

  /** The number of frames along `evs` that find a pending press. */
  function FramesSeeingPress(k: KeyState, evs: seq<Event>): nat
    decreases |evs|
  {
    if evs == [] then 0
    else (if evs[0] == FrameEnd && k.jumpPressed then 1 else 0) + FramesSeeingPress(Apply(k, evs[0]), evs[1..])
  }

  /** Holding Space down (any number of auto-repeat keydowns, no keyup)
      produces at most one press: none more than the first. */
  lemma {:induction false} RepeatedKeyDownsOnePress(k: KeyState, n: nat)
    requires n >= 1
    decreases n
    ensures RisingEdges(k, seq(n, _ => KeyDown(Space))) == (if k.jump then 0 else 1)
    ensures Run(k, seq(n, _ => KeyDown(Space))).jump
    ensures Run(k, seq(n, _ => KeyDown(Space))).jumpPressed == (k.jumpPressed || !k.jump)
  {
    var evs := seq(n, _ => KeyDown(Space));
    var k' := Down(k, Space);
    if n == 1 {
      assert evs[1..] == [];
    } else {
      assert evs[1..] == seq(n - 1, _ => KeyDown(Space));
      RepeatedKeyDownsOnePress(k', n - 1);
    }
  }

  /** Every press after the first needs a release in between: along any
      sequence of events the rising edges are bounded by the releases
      (plus one if Space starts up). */
  lemma {:induction false} EdgesBoundedByReleases(k: KeyState, evs: seq<Event>)
    ensures RisingEdges(k, evs) <= Releases(evs) + (if k.jump then 0 else 1)
    decreases |evs|
  {
    if evs != [] {
      EdgesBoundedByReleases(Apply(k, evs[0]), evs[1..]);
    }
  }

  /** Because the loop clears the flag after every frame, each rising edge
      is seen by at most one frame. */
  lemma {:induction false} EachPressSeenOnce(k: KeyState, evs: seq<Event>)
    ensures FramesSeeingPress(k, evs) <= RisingEdges(k, evs) + (if k.jumpPressed then 1 else 0)
    decreases |evs|
  {
    if evs != [] {
      EachPressSeenOnce(Apply(k, evs[0]), evs[1..]);
    }
  }

  /** Held across two frames, released, held again: the frames see
      exactly two presses. */
  lemma HoldReleaseHoldTwoPresses()
    ensures FramesSeeingPress(NoKeys, [KeyDown(Space), FrameEnd, KeyDown(Space), FrameEnd,
                                       KeyUp(Space), KeyDown(Space), FrameEnd]) == 2
  {
    var evs := [KeyDown(Space), FrameEnd, KeyDown(Space), FrameEnd, KeyUp(Space), KeyDown(Space), FrameEnd];
    assert evs[1..] == [FrameEnd, KeyDown(Space), FrameEnd, KeyUp(Space), KeyDown(Space), FrameEnd];
    assert evs[1..][1..] == [KeyDown(Space), FrameEnd, KeyUp(Space), KeyDown(Space), FrameEnd];
    assert evs[1..][1..][1..] == [FrameEnd, KeyUp(Space), KeyDown(Space), FrameEnd];
    assert evs[1..][1..][1..][1..] == [KeyUp(Space), KeyDown(Space), FrameEnd];
    assert evs[1..][1..][1..][1..][1..] == [KeyDown(Space), FrameEnd];
    assert evs[1..][1..][1..][1..][1..][1..] == [FrameEnd];
  }
}
