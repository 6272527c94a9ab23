/** A walk through the game scene end to end: the avatar starts at its mount
    position, holds "w" for one frame of 1.24 seconds facing yaw 0, arrives
    beside the Main marker, which shows its prompt, and one "e" press sends
    the router to "/" exactly once however long it is held. */
module Scenario {
  import opened Common
  import opened Geometry
  import Player
  import NavMarker

  /** Holding "w" for 1.24 seconds at yaw 0 takes the avatar 6.2 forward. */
  lemma WalkForward(k: real)
    requires IsInvSqrt2(k)
    ensures Player.StepPosition(Vec3(0.0, 0.9, 4.0), Player.IntentFrom(false, false, false, true), Identity, k, 1.24)
         == Vec3(0.0, 0.9, -2.2)
  {
    assert Player.IntentFrom(false, false, false, true) == Player.Intent(0, -1);
    StraightStep(k);
  }

  lemma StraightStep(k: real)
    requires IsInvSqrt2(k)
    ensures Player.StepPosition(Vec3(0.0, 0.9, 4.0), Player.Intent(0, -1), Identity, k, 1.24) == Vec3(0.0, 0.9, -2.2)
  {
    assert Player.Normalize(Player.Intent(0, -1), k) == (0.0, -1.0);
    assert RotateY(Identity, 0.0, -1.0) == (0.0, -1.0);
  }

  /** Arriving there shows Main's prompt, and an "e" press held over the next
      frames navigates to "/" once. */
  lemma ArriveAtMainAndEnter()
    ensures NavMarker.ProximityStep(false, None, Vec3(0.0, 0.9, -2.2), NavMarker.Beacons[0])
         == NavMarker.Proximity(true, Some("Press E to enter Main"))
    ensures NavMarker.Navigations([true, true, true], true, NavMarker.Beacons[0].href) == 1
  {
    var main := NavMarker.Beacons[0];
    assert main == NavMarker.Beacon(Vec3(0.0, 0.0, -2.0), "Main", "/");
    assert PlanarDistSq(Vec3(0.0, 0.9, -2.2), main.pos) == 0.04;
    assert NavMarker.IsNear(Vec3(0.0, 0.9, -2.2), main);
    assert NavMarker.HintText("Main") == "Press E to enter Main";
    NavMarker.OneNavigationPerPress([true, true, true], true, "/");
    assert [true, true, true][0];
  }
}
