/** The proximity trigger of components/game/NavMarker.tsx. Each marker keeps
    a `within` flag and compares it with the player's planar distance every
    frame; on a change it writes the hint. A separate global flag, set by an
    "e" keydown and cleared by an "e" keyup, is consumed by the first marker
    that is within when it sees the flag, and that marker navigates. The
    beacon distance test and the beacon list are shared with the scene of
    components/rpg/Scene.tsx. */
module NavMarker {
  import opened Common
  import opened Geometry
  import GameStore

  datatype Beacon = Beacon(pos: Vec3, name: string, href: string)  // `name` is the `label` prop

  /** The markers the game scene places, in mount order. */
  const Beacons: seq<Beacon> := [
    Beacon(Vec3(0.0, 0.0, -2.0), "Main", "/"),
    Beacon(Vec3(4.0, 0.0, -1.0), "About", "/about"),
    Beacon(Vec3(-4.0, 0.0, -1.0), "Gallery", "/gallery"),
    Beacon(Vec3(2.0, 0.0, 4.0), "Dashboard", "/dashboard"),
    Beacon(Vec3(-2.0, 0.0, 4.0), "Contact", "/contact")
  ]

  const NearRadius: real := 1.6

  /** A point strictly inside the disc of radius 1.6 lies strictly inside
      the square of side 3.2 around it. */
  lemma InsideRadius(a: real, b: real)
    ensures a * a + b * b < NearRadius * NearRadius ==>
      -NearRadius < a < NearRadius && -NearRadius < b < NearRadius
  {
    assert NearRadius * NearRadius == 2.56;
    SquareNonNegative(a);
    SquareNonNegative(b);
    if a >= 1.6 {
      assert a * a >= 1.6 * a;
    } else if a <= -1.6 {
      assert a * a >= -1.6 * a;
    }
    if b >= 1.6 {
      assert b * b >= 1.6 * b;
    } else if b <= -1.6 {
      assert b * b >= -1.6 * b;
    }
  }

  lemma InsideBox(p: Vec3, c: Vec3)
    ensures PlanarDistSq(p, c) < NearRadius * NearRadius ==>
      -NearRadius < p.x - c.x < NearRadius && -NearRadius < p.z - c.z < NearRadius
  {
    var a := p.x - c.x;
    var b := p.z - c.z;
    InsideRadius(a, b);
    assert PlanarDistSq(p, c) == a * a + b * b;
  }

  /** `Math.hypot(dx, dz) < 1.6`, compared on squares. A near player is
      within the radius on each ground axis separately. */
  predicate IsNear(player: Vec3, b: Beacon)
    ensures IsNear(player, b) ==>
      -NearRadius < player.x - b.pos.x < NearRadius && -NearRadius < player.z - b.pos.z < NearRadius
  {
    InsideBox(player, b.pos);
    PlanarDistSq(player, b.pos) < NearRadius * NearRadius
  }

  lemma RadiusSquared(d: real, s: real)
    requires d >= 0.0 && d * d == s
    ensures s < 2.56 <==> d < 1.6
  {
    if d < 1.6 {
      assert d * d <= d * 1.6;
    } else {
      assert d * d >= d * 1.6;
    }
  }

  /** The squared test agrees with the source's test on the distance itself:
      for the non-negative `d` with `d * d` the planar squared distance, the
      player is near exactly when `d < 1.6`. The height plays no part, and a
      distance of exactly 1.6 is not near. */
  lemma NearMatchesDistance(player: Vec3, b: Beacon, d: real)
    requires d >= 0.0 && d * d == PlanarDistSq(player, b.pos)
    ensures IsNear(player, b) <==> d < NearRadius
    ensures forall h: real :: IsNear(player.(y := h), b) == IsNear(player, b)
  {
    RadiusSquared(d, PlanarDistSq(player, b.pos));
  }

  /** Standing on a marker is near; standing exactly 1.6 away along x is not. */
  lemma NearBoundary(b: Beacon, h: real)
    ensures IsNear(b.pos.(y := h), b)
    ensures !IsNear(b.pos.(x := b.pos.x + 1.6, y := h), b)
  {
    assert (b.pos.x + 1.6) - b.pos.x == 1.6;
    assert b.pos.z - b.pos.z == 0.0;
  }

  /** The prompt a marker shows: a fixed prefix followed by its label, so
      different labels give different prompts. */
  function HintText(name: string): (h: string)
    ensures |h| == |"Press E to enter "| + |name|
    ensures h[..|"Press E to enter "|] == "Press E to enter "
    ensures h[|"Press E to enter "|..] == name
  {
    "Press E to enter " + name
  }

  lemma HintTextInjective(a: string, b: string)
    ensures HintText(a) == HintText(b) ==> a == b
  {
    if HintText(a) == HintText(b) {
      assert a == HintText(a)[17..];
    }
  }

  /** The hint and the `within` flag after one proximity frame. */
  datatype Proximity = Proximity(within: bool, hint: Option<string>)

  /** One evaluation of the near test: the flag follows the test, and the hint
      is written only when the flag changes; entering shows the marker's
      prompt and leaving clears the hint whatever it shows. */
  function ProximityStep(within: bool, hint: Option<string>, player: Vec3, b: Beacon): (r: Proximity)
    ensures r.within == IsNear(player, b)
    ensures r.within == within ==> r.hint == hint
    ensures r.within && !within ==> r.hint == Some(HintText(b.name))
    ensures !r.within && within ==> r.hint == None
  {
    var near := IsNear(player, b);
    if near != within then
      Proximity(near, if near then Some(HintText(b.name)) else None)
    else
      Proximity(within, hint)
  }

  /** A second evaluation at the same position writes nothing. */
  lemma ProximitySettles(within: bool, hint: Option<string>, player: Vec3, b: Beacon)
    ensures var r := ProximityStep(within, hint, player, b);
      ProximityStep(r.within, r.hint, player, b) == r
  {
  }

  /** The global flag after one interaction frame and the destination the
      marker asks the router for, if any. */
  datatype Interact = Interact(pressed: bool, destination: Option<string>)

  /** One interaction frame of a marker: nothing happens unless the marker is
      within; then a set flag is consumed and the marker navigates. */
  function InteractStep(within: bool, pressed: bool, href: string): (r: Interact)
    ensures !within ==> r == Interact(pressed, None)
    ensures within ==> !r.pressed
    ensures r.destination.Some? <==> within && pressed
    ensures r.destination.Some? ==> r.destination.value == href
  {
    if !within then Interact(pressed, None)
    else if pressed then Interact(false, Some(href))
    else Interact(pressed, None)
  }

  /** How many navigations a marker requests over consecutive frames in which
      no key event arrives; `withins[i]` is its flag on frame i. */
  function Navigations(withins: seq<bool>, pressed: bool, href: string): nat
    decreases |withins|
  {
    if withins == [] then 0
    else
      var r := InteractStep(withins[0], pressed, href);
      (if r.destination.Some? then 1 else 0) + Navigations(withins[1..], r.pressed, href)
  }

  /** One "e" press navigates at most once however many frames follow, and it
      navigates exactly when the marker is within on some frame. Without a
      press nothing happens. */
  lemma {:induction false} OneNavigationPerPress(withins: seq<bool>, pressed: bool, href: string)
    ensures Navigations(withins, pressed, href) <= 1
    ensures Navigations(withins, pressed, href) == 1 <==> pressed && true in withins
    ensures !pressed ==> Navigations(withins, pressed, href) == 0
    decreases |withins|
  {
    if withins != [] {
      var r := InteractStep(withins[0], pressed, href);
      OneNavigationPerPress(withins[1..], r.pressed, href);
      assert withins == [withins[0]] + withins[1..];
      assert true in withins <==> withins[0] || true in withins[1..];
    }
  }

  /** Holding "e" for ten frames while within navigates once. */
  lemma HeldForTenFrames(href: string)
    ensures Navigations(seq(10, _ => true), true, href) == 1
  {
    OneNavigationPerPress(seq(10, _ => true), true, href);
    assert seq(10, _ => true)[0];
  }

  /** `window._hc_e_pressed`, written by the key handlers every marker
      installs. Every marker installs the same two handlers, so one object
      stands for all of them. */
  class EKeyFlag {
    var pressed: bool

    constructor ()
      ensures !pressed
    {
      pressed := false;
    }

    /** Only a lower-case "e" sets the flag. */
    method OnKeyDown(key: string)
      modifies this
      ensures pressed == (key == "e" || old(pressed))
    {
      if key == "e" { pressed := true; }
    }

    /** Only a lower-case "e" clears the flag. */
    method OnKeyUp(key: string)
      modifies this
      ensures pressed == (key != "e" && old(pressed))
    {
      if key == "e" { pressed := false; }
    }
  }

  /** One `NavMarker`: its beacon and its `within` state. */
  class Marker {
    const beacon: Beacon
    var within: bool

    constructor (b: Beacon)
      ensures beacon == b && !within
    {
      beacon := b;
      within := false;
    }

    /** The first `useFrame` callback: the near test with edge detection. */
    method ProximityFrame(store: GameStore.Store)
      modifies this, store
      ensures Proximity(within, store.hint) == ProximityStep(old(within), old(store.hint), old(store.playerPos), beacon)
      ensures store.playerPos == old(store.playerPos) && store.cameraMode == old(store.cameraMode)
    {
      var near := IsNear(store.playerPos, beacon);
      if near != within {
        within := near;
        store.SetHint(if near then Some(HintText(beacon.name)) else None);
      }
    }

    /** The second `useFrame` callback: consume the "e" flag while within. */
    method InteractFrame(flag: EKeyFlag) returns (destination: Option<string>)
      modifies flag
      ensures Interact(flag.pressed, destination) == InteractStep(within, old(flag.pressed), beacon.href)
    {
      destination := None;
      if !within {
        return;
      }
      if flag.pressed {
        flag.pressed := false;
        destination := Some(beacon.href);
      }
    }
  }

  /** The proximity callbacks of several markers run one after another in a
      frame; each sees the hint the previous one left. */
  function Sweep(bs: seq<Beacon>, withins: seq<bool>, hint: Option<string>, player: Vec3): (r: (seq<bool>, Option<string>))
    requires |withins| == |bs|
    ensures |r.0| == |bs|
    ensures forall i :: 0 <= i < |bs| ==> r.0[i] == IsNear(player, bs[i])
    ensures (forall i :: 0 <= i < |bs| ==> withins[i] == IsNear(player, bs[i])) ==> r.1 == hint
    decreases |bs|
  {
    if bs == [] then ([], hint)
    else
      var first := ProximityStep(withins[0], hint, player, bs[0]);
      var rest := Sweep(bs[1..], withins[1..], first.hint, player);
      ([first.within] + rest.0, rest.1)
  }

  /** The hint at the end of a sweep is the one written by the last marker
      whose flag changes: `j` changes and no marker after it does. */
  lemma {:induction false} SweepLastChangeWins(bs: seq<Beacon>, withins: seq<bool>, hint: Option<string>, player: Vec3, j: nat)
    requires |withins| == |bs| && j < |bs|
    requires withins[j] != IsNear(player, bs[j])
    requires forall i :: j < i < |bs| ==> withins[i] == IsNear(player, bs[i])
    ensures Sweep(bs, withins, hint, player).1
         == if IsNear(player, bs[j]) then Some(HintText(bs[j].name)) else None
    decreases j
  {
    var first := ProximityStep(withins[0], hint, player, bs[0]);
    if j == 0 {
      assert forall i :: 0 <= i < |bs[1..]| ==> withins[1..][i] == IsNear(player, bs[1..][i]) by {
        forall i | 0 <= i < |bs[1..]|
          ensures withins[1..][i] == IsNear(player, bs[1..][i])
        {
          assert withins[1..][i] == withins[i + 1] && bs[1..][i] == bs[i + 1];
        }
      }
    } else {
      forall i | j - 1 < i < |bs[1..]|
        ensures withins[1..][i] == IsNear(player, bs[1..][i])
      {
        assert withins[1..][i] == withins[i + 1] && bs[1..][i] == bs[i + 1];
      }
      SweepLastChangeWins(bs[1..], withins[1..], first.hint, player, j - 1);
    }
  }

  /** A jump to a marker later in mount order keeps the right hint: from
      Main to About the frame ends on About's prompt. */
  lemma JumpForwardKeepsHint()
    ensures Sweep(Beacons, [true, false, false, false, false], Some(HintText("Main")), Vec3(4.0, 0.9, -1.0)).1
         == Some(HintText("About"))
  {
    var p := Vec3(4.0, 0.9, -1.0);
    var w := [true, false, false, false, false];
    forall i | 1 < i < |Beacons|
      ensures w[i] == IsNear(p, Beacons[i])
    {
    }
    assert IsNear(p, Beacons[1]);
    SweepLastChangeWins(Beacons, w, Some(HintText("Main")), p, 1);
  }

  /** Two markers that are both near the player lie less than twice the
      radius apart (compared on squares: 4 * 1.6^2 = 10.24). */
  lemma BothNearMeansClose(p: Vec3, a: Beacon, b: Beacon)
    requires IsNear(p, a) && IsNear(p, b)
    ensures PlanarDistSq(a.pos, b.pos) < 10.24
  {
    PlanarSpread(p, b.pos, a.pos);
  }

  /** With the scene's markers, no position is near two markers at once: they
      stand at least 4 apart, more than twice the radius. */
  lemma AtMostOneNear(p: Vec3, i: nat, j: nat)
    requires i < j < |Beacons|
    ensures !(IsNear(p, Beacons[i]) && IsNear(p, Beacons[j]))
  {
    assert PlanarDistSq(Beacons[i].pos, Beacons[j].pos) >= 16.0;
    if IsNear(p, Beacons[i]) && IsNear(p, Beacons[j]) {
      BothNearMeansClose(p, Beacons[i], Beacons[j]);
    }
  }

  /** The hint can be lost while the player stands at a marker: a jump in one
      frame from About to Main makes Main write its prompt and About, which
      runs after it, clear the hint. Later frames never repair it, since
      neither marker changes state again. */
  lemma JumpBetweenMarkersLosesHint()
    ensures var p := Vec3(0.0, 0.9, -2.0);
      var r := Sweep(Beacons, [false, true, false, false, false], Some(HintText("About")), p);
      && r.0 == [true, false, false, false, false]
      && r.1 == None
      && Sweep(Beacons, r.0, r.1, p) == (r.0, None)
  {
    var p := Vec3(0.0, 0.9, -2.0);
    var near := [true, false, false, false, false];
    forall i | 0 <= i < |Beacons|
      ensures near[i] == IsNear(p, Beacons[i])
    {
    }
    var r := Sweep(Beacons, [false, true, false, false, false], Some(HintText("About")), p);
    assert r.0 == near;
    var main := ProximityStep(false, Some(HintText("About")), p, Beacons[0]);
    var about := ProximityStep(true, main.hint, p, Beacons[1]);
    assert about.hint == None;
    var tail := Sweep(Beacons[2..], [false, false, false], about.hint, p);
    assert tail.1 == None by {
      assert forall i :: 0 <= i < 3 ==> [false, false, false][i] == IsNear(p, Beacons[2..][i]);
    }
    assert Beacons[1..][1..] == Beacons[2..];
  }
}
