/** The scene of components/rpg/Scene.tsx: a player that keeps its held keys
    in a dictionary keyed by the lower-cased key name and turns only while
    the primary button is held, a camera rig that follows the first group of
    the scene and toggles on "t" in either case, and beacons that show a hint
    by proximity and navigate on every "e" keydown while near. The movement,
    offsets, easing, near test and beacon list are those of the game scene. */
module RpgScene {
  import opened Common
  import opened Geometry
  import Player
  import CameraRig
  import NavMarker
  import RpgStore

  /** A key counts as held when the dictionary has it set to true; a key never
      seen is `undefined`, which counts as not held. */
  predicate Held(keys: map<string, bool>, k: string) {
    k in keys && keys[k]
  }

  /** The dictionary after a keydown (`down`) or keyup of `key`: the
      lower-cased name takes the new state and every other name keeps its own. */
  function KeyStore(keys: map<string, bool>, key: string, down: bool): (r: map<string, bool>)
    ensures Lower(key) in r && r[Lower(key)] == down
    ensures forall k :: k != Lower(key) ==> (k in r <==> k in keys)
    ensures forall k :: k != Lower(key) && k in keys ==> r[k] == keys[k]
  {
    keys[Lower(key) := down]
  }

  /** The local movement intent: "d" minus "a" across, "s" minus "w" along.
      A key missing from the dictionary counts as released, so an empty
      dictionary means standing still. */
  function Intent(keys: map<string, bool>): (i: Player.Intent)
    ensures -1 <= i.x <= 1 && -1 <= i.z <= 1
    ensures i == Player.NoIntent <==> Held(keys, "d") == Held(keys, "a") && Held(keys, "s") == Held(keys, "w")
    ensures i.z == -1 <==> Held(keys, "w") && !Held(keys, "s")
    ensures keys == map[] ==> i == Player.NoIntent
  {
    Player.IntentFrom(Held(keys, "d"), Held(keys, "a"), Held(keys, "s"), Held(keys, "w"))
  }

  lemma LowerW()
    ensures Lower("W") == "w" && Lower("w") == "w"
  {
    assert Lower("W")[0] == 'w';
    assert Lower("w")[0] == 'w';
  }

  /** Unlike the game scene, a shifted "W" drives forward exactly as "w" does,
      and releasing either releases both. */
  lemma ShiftedKeysMove(keys: map<string, bool>)
    ensures Intent(KeyStore(keys, "W", true)) == Intent(KeyStore(keys, "w", true))
    ensures Intent(KeyStore(keys, "W", true)).z == if Held(keys, "s") then 0 else -1
    ensures !Held(KeyStore(KeyStore(keys, "w", true), "W", false), "w")
  {
    LowerW();
  }

  /** Only a drag with exactly the primary button (`buttons === 1`) turns the
      player; any other button combination leaves the yaw alone. */
  function YawAfterMove(yaw: real, buttons: int, movementX: real): (y: real)
    ensures buttons != 1 ==> y == yaw
    ensures buttons == 1 && movementX > 0.0 ==> y < yaw
    ensures buttons == 1 && movementX < 0.0 ==> y > yaw
    ensures buttons == 1 ==> y == yaw - Player.RotSpeed * movementX
  {
    if buttons == 1 then yaw - movementX * Player.RotSpeed else yaw
  }

  /** The `Player` component of the scene. */
  class RpgPlayer {
    var keys: map<string, bool>
    var yaw: real
    var position: Vec3

    constructor ()
      ensures keys == map[] && yaw == 0.0 && position == Vec3(0.0, Player.GroundHeight, 4.0)
    {
      keys := map[];
      yaw := 0.0;
      position := Vec3(0.0, Player.GroundHeight, 4.0);
    }

    method OnKeyDown(key: string)
      modifies this
      ensures keys == KeyStore(old(keys), key, true)
      ensures yaw == old(yaw) && position == old(position)
    {
      keys := keys[Lower(key) := true];
    }

    method OnKeyUp(key: string)
      modifies this
      ensures keys == KeyStore(old(keys), key, false)
      ensures yaw == old(yaw) && position == old(position)
    {
      keys := keys[Lower(key) := false];
    }

    /** The mousemove listener; `buttons` is the event's pressed-buttons mask. */
    method OnMouseMove(buttons: int, movementX: real)
      modifies this
      ensures yaw == YawAfterMove(old(yaw), buttons, movementX)
      ensures keys == old(keys) && position == old(position)
    {
      if buttons == 1 {
        yaw := yaw - movementX * Player.RotSpeed;
      }
    }

    /** One `useFrame` callback; `rot` is the rotation by the yaw the frame
        renders with. */
    method Frame(dt: real, rot: Rotation, k: real)
      requires IsRotation(rot) && IsInvSqrt2(k)
      modifies this
      ensures position == Player.StepPosition(old(position), Intent(keys), rot, k, dt)
      ensures position.y == Player.GroundHeight
      ensures keys == old(keys) && yaw == old(yaw)
    {
      ghost var p0 := position;
      var right := if Held(keys, "d") then 1 else 0;
      var left := if Held(keys, "a") then 1 else 0;
      var back := if Held(keys, "s") then 1 else 0;
      var forward := if Held(keys, "w") then 1 else 0;
      var dir := Player.Intent(right - left, back - forward);
      assert dir == Intent(keys);
      Player.LengthSqPositive(dir);
      if dir.x * dir.x + dir.z * dir.z > 0 {
        var n := Player.Normalize(dir, k);
        var d := RotateY(rot, n.0, n.1);
        Player.StepTaken(p0, dir, rot, k, dt, d);
        position := Vec3(position.x + d.0 * (dt * Player.Speed), position.y, position.z + d.1 * (dt * Player.Speed));
      }
      position := position.(y := Player.GroundHeight);
    }
  }

  /** The rig's frame callback. `player` is the position of the first group
      among the scene's children, `None` when there is none; the camera then
      is left where it is. */
  method RigFrame(camera: CameraRig.Camera, player: Option<Vec3>, store: RpgStore.Store, alpha: real)
    modifies camera
    ensures player.None? ==> camera.position == old(camera.position)
    ensures player.Some? ==>
      camera.position == CameraRig.Lerp(old(camera.position), CameraRig.Desired(store.cam, player.value), alpha)
  {
    if player.None? {
      return;
    }
    var target := player.value;
    var desired;
    if store.cam == Third {
      desired := Vec3(target.x - 2.5, target.y + 2.0, target.z + 3.5);
    } else {
      desired := Vec3(target.x + 6.0, target.y + 8.0, target.z + 6.0);
    }
    camera.position := CameraRig.Lerp(camera.position, desired, alpha);
  }

  /** The rig's keydown listener: "t" or "T" flips the mode. */
  method OnToggleKey(key: string, store: RpgStore.Store)
    modifies store
    ensures store.cam == if Lower(key) == "t" then CameraRig.Toggled(old(store.cam)) else old(store.cam)
    ensures store.hint == old(store.hint)
  {
    if Lower(key) == "t" {
      var next := if store.cam == Third then Iso else Third;
      store.SetCam(next);
    }
  }

  /** What a beacon's keydown listener asks the router for: its link, when
      the beacon is near and the key is "e" or "E". There is no flag to
      consume, so every such keydown navigates. */
  function BeaconKey(near: bool, key: string, href: string): (nav: Option<string>)
    ensures nav.Some? <==> near && Lower(key) == "e"
    ensures nav.Some? ==> nav.value == href
  {
    if near && Lower(key) == "e" then Some(href) else None
  }

  /** How many navigations a sequence of keydowns requests from one beacon
      whose `near` state stays the same. */
  function KeyNavigations(near: bool, keys: seq<string>, href: string): nat
    decreases |keys|
  {
    if keys == [] then 0
    else (if BeaconKey(near, keys[0], href).Some? then 1 else 0) + KeyNavigations(near, keys[1..], href)
  }

  /** Every "e" keydown while near navigates, a held key's auto-repeat
      included; none does while not near. Contrast
      `NavMarker.OneNavigationPerPress`. */
  lemma {:induction false} EveryPressNavigates(keys: seq<string>, href: string)
    requires forall i :: 0 <= i < |keys| ==> Lower(keys[i]) == "e"
    ensures KeyNavigations(true, keys, href) == |keys|
    ensures KeyNavigations(false, keys, href) == 0
    decreases |keys|
  {
    if keys != [] {
      EveryPressNavigates(keys[1..], href);
    }
  }

  /** Neither the near state nor a key other than "e" ever navigates. */
  lemma {:induction false} NavigationsBounded(near: bool, keys: seq<string>, href: string)
    ensures KeyNavigations(near, keys, href) <= |keys|
    ensures (forall i :: 0 <= i < |keys| ==> Lower(keys[i]) != "e") ==> KeyNavigations(near, keys, href) == 0
    decreases |keys|
  {
    if keys != [] {
      NavigationsBounded(near, keys[1..], href);
    }
  }

  /** One `Beacon` of the scene with its `near` state. */
  class RpgBeacon {
    const beacon: NavMarker.Beacon
    var near: bool

    constructor (b: NavMarker.Beacon)
      ensures beacon == b && !near
    {
      beacon := b;
      near := false;
    }

    /** The frame callback: without a player group nothing happens; otherwise
        the near test with edge detection, as in the game scene. */
    method Frame(player: Option<Vec3>, store: RpgStore.Store)
      modifies this, store
      ensures player.None? ==> near == old(near) && store.hint == old(store.hint)
      ensures player.Some? ==>
        NavMarker.Proximity(near, store.hint)
        == NavMarker.ProximityStep(old(near), old(store.hint), player.value, beacon)
      ensures store.cam == old(store.cam)
    {
      if player.None? {
        return;
      }
      var nowNear := NavMarker.IsNear(player.value, beacon);
      if nowNear != near {
        near := nowNear;
        store.SetHint(if nowNear then Some(NavMarker.HintText(beacon.name)) else None);
      }
    }

    /** The keydown listener installed with the current `near` value. */
    method OnKeyDown(key: string) returns (nav: Option<string>)
      ensures nav == BeaconKey(near, key, beacon.href)
    {
      nav := None;
      if near && Lower(key) == "e" {
        nav := Some(beacon.href);
      }
    }
  }
}
