/** The avatar step of components/game/Player.tsx: each frame the drag delta
    turns the yaw and is consumed, the held direction keys give an intent in
    the avatar's local frame, a non-zero intent moves the avatar at a fixed
    speed, the height is pinned to the ground offset, and the position is
    published to the store. The movement arithmetic is shared with the
    player of components/rpg/Scene.tsx. */
module Player {
  import opened Geometry
  import Input
  import GameStore

  /** Radians of yaw per unit of horizontal drag. */
  const RotSpeed: real := 0.003
  /** Units per second. */
  const Speed: real := 5.0
  /** The fixed height of the avatar above the ground. */
  const GroundHeight: real := 0.9

  /** The local movement direction (x, z); its y component is always 0. */
  datatype Intent = Intent(x: int, z: int)

  const NoIntent: Intent := Intent(0, 0)

  /** x = right − left and z = back − forward, each key counting 1 when held. */
  function IntentFrom(right: bool, left: bool, back: bool, forward: bool): (i: Intent)
    ensures -1 <= i.x <= 1 && -1 <= i.z <= 1
    ensures i.x == 1 <==> right && !left
    ensures i.x == -1 <==> left && !right
    ensures i.z == 1 <==> back && !forward
    ensures i.z == -1 <==> forward && !back
  {
    Intent((if right then 1 else 0) - (if left then 1 else 0),
           (if back then 1 else 0) - (if forward then 1 else 0))
  }

  /** The intent of the game's input record: the avatar stands still exactly
      when each pair of opposing keys is both held or both released, and it
      heads forward exactly when "w" is held without "s". */
  function IntentOf(k: Input.Keys): (i: Intent)
    ensures -1 <= i.x <= 1 && -1 <= i.z <= 1
    ensures i == NoIntent <==> k.right == k.left && k.back == k.forward
    ensures i.z == -1 <==> k.forward && !k.back
  {
    IntentFrom(k.right, k.left, k.back, k.forward)
  }

  /** `dir.normalize()` for a non-zero intent: a unit vector pointing the same
      way as the intent. `k` is 1/√2, which the diagonal case needs. */
  function Normalize(i: Intent, k: real): (n: (real, real))
    requires -1 <= i.x <= 1 && -1 <= i.z <= 1 && i != NoIntent
    requires IsInvSqrt2(k)
    ensures n.0 * n.0 + n.1 * n.1 == 1.0
    ensures n.0 * (i.z as real) == n.1 * (i.x as real)
    ensures n.0 * (i.x as real) >= 0.0 && n.1 * (i.z as real) >= 0.0
    ensures (i.x == 0 ==> n.0 == 0.0) && (i.z == 0 ==> n.1 == 0.0)
    ensures (i.x > 0 <==> n.0 > 0.0) && (i.z > 0 <==> n.1 > 0.0)
    ensures (i.x < 0 <==> n.0 < 0.0) && (i.z < 0 <==> n.1 < 0.0)
  {
    if i.x != 0 && i.z != 0 then
      assert (i.x as real) * (i.x as real) == 1.0 && (i.z as real) * (i.z as real) == 1.0;
      assert (i.x as real * k) * (i.x as real * k) == (i.x as real) * (i.x as real) * (k * k);
      assert (i.z as real * k) * (i.z as real * k) == (i.z as real) * (i.z as real) * (k * k);
      (i.x as real * k, i.z as real * k)
    else
      (i.x as real, i.z as real)
  }

  /** The world direction of a non-zero intent: the normalised intent rotated
      by the yaw, a unit vector. */
  function Heading(i: Intent, rot: Rotation, k: real): (d: (real, real))
    requires -1 <= i.x <= 1 && -1 <= i.z <= 1 && i != NoIntent
    requires IsRotation(rot) && IsInvSqrt2(k)
    ensures d.0 * d.0 + d.1 * d.1 == 1.0
    ensures rot == Identity ==> d == Normalize(i, k)
  {
    var n := Normalize(i, k);
    RotateY(rot, n.0, n.1)
  }

  /** Moving by a unit vector scaled by `s` covers a planar distance of `s`. */
  lemma ScaledUnitStep(p: Vec3, q: Vec3, a: real, b: real, s: real)
    requires a * a + b * b == 1.0
    requires q.x == p.x + a * s && q.z == p.z + b * s
    ensures PlanarDistSq(q, p) == s * s
  {
    var u := q.x - p.x;
    var v := q.z - p.z;
    assert u == a * s && v == b * s;
    assert u * u + v * v == (a * a + b * b) * (s * s);
    assert PlanarDistSq(q, p) == u * u + v * v;
  }

  /** The sign of a product by a positive factor. */
  lemma ScaledSign(a: real, s: real)
    requires s > 0.0
    ensures (a > 0.0 ==> a * s > 0.0) && (a < 0.0 ==> a * s < 0.0)
  {
  }

  /** Where one frame takes the avatar from `p`: move by the rotated unit
      intent times `Speed * dt` when the intent is non-zero, then pin y. */
  function StepPosition(p: Vec3, i: Intent, rot: Rotation, k: real, dt: real): (q: Vec3)
    requires -1 <= i.x <= 1 && -1 <= i.z <= 1
    requires IsRotation(rot) && IsInvSqrt2(k)
    ensures q.y == GroundHeight
    ensures i == NoIntent ==> q.x == p.x && q.z == p.z
    ensures i != NoIntent ==> PlanarDistSq(q, p) == (Speed * dt) * (Speed * dt)
    ensures i != NoIntent ==>
      q.x == p.x + Heading(i, rot, k).0 * (Speed * dt) && q.z == p.z + Heading(i, rot, k).1 * (Speed * dt)
  {
    if i == NoIntent then
      p.(y := GroundHeight)
    else
      var d := Heading(i, rot, k);
      var s := Speed * dt;
      var q := Vec3(p.x + d.0 * s, GroundHeight, p.z + d.1 * s);
      ScaledUnitStep(p, q, d.0, d.1, s);
      q
  }

  /** A frame with a non-zero intent lands one `Speed * dt` step along the
      heading from `p`, at ground height. */
  lemma StepTaken(p: Vec3, i: Intent, rot: Rotation, k: real, dt: real, d: (real, real))
    requires -1 <= i.x <= 1 && -1 <= i.z <= 1 && i != NoIntent
    requires IsRotation(rot) && IsInvSqrt2(k)
    requires d == Heading(i, rot, k)
    ensures StepPosition(p, i, rot, k, dt) == Vec3(p.x + d.0 * (Speed * dt), GroundHeight, p.z + d.1 * (Speed * dt))
    ensures StepPosition(p, i, rot, k, dt) == Vec3(p.x + d.0 * (dt * Speed), GroundHeight, p.z + d.1 * (dt * Speed))
  {
    assert dt * Speed == Speed * dt;
  }

  /** Facing yaw 0 the avatar moves along the normalised intent itself, scaled
      by `Speed * dt`: right is +x and forward is -z. */
  lemma StepAtIdentity(p: Vec3, i: Intent, k: real, dt: real)
    requires -1 <= i.x <= 1 && -1 <= i.z <= 1 && i != NoIntent
    requires IsInvSqrt2(k)
    ensures IsRotation(Identity)
    ensures var n := Normalize(i, k);
      var q := StepPosition(p, i, Identity, k, dt);
      q.x == p.x + n.0 * (Speed * dt) && q.z == p.z + n.1 * (Speed * dt)
      && (i.x > 0 ==> q.x > p.x || dt <= 0.0) && (i.z < 0 ==> q.z < p.z || dt <= 0.0)
  {
    assert IsRotation(Identity);
    var n := Normalize(i, k);
    assert RotateY(Identity, n.0, n.1) == n;
    if dt > 0.0 {
      ScaledSign(n.0, Speed * dt);
      ScaledSign(n.1, Speed * dt);
    }
  }

  /** Holding two opposing keys is the same as holding neither. */
  lemma OpposingKeysCancel(p: Vec3, rot: Rotation, k: real, dt: real, a: bool, b: bool)
    requires IsRotation(rot) && IsInvSqrt2(k)
    ensures IntentFrom(a, a, b, b) == NoIntent
    ensures var q := StepPosition(p, IntentFrom(a, a, b, b), rot, k, dt);
      q.x == p.x && q.z == p.z && q.y == GroundHeight
  {
  }

  /** A diagonal key combination moves the avatar exactly as far as a single
      direction key: normalisation removes the diagonal speed boost. */
  lemma DiagonalMovesAsFarAsStraight(p: Vec3, rot: Rotation, k: real, dt: real)
    requires IsRotation(rot) && IsInvSqrt2(k)
    ensures PlanarDistSq(StepPosition(p, IntentFrom(true, false, false, true), rot, k, dt), p)
         == PlanarDistSq(StepPosition(p, IntentFrom(false, false, false, true), rot, k, dt), p)
  {
  }

  /** `dir.lengthSq() > 0` is exactly "the intent is not zero". */
  lemma LengthSqPositive(i: Intent)
    requires -1 <= i.x <= 1 && -1 <= i.z <= 1
    ensures i.x * i.x + i.z * i.z > 0 <==> i != NoIntent
  {
    assert i.x * i.x >= 0 && i.z * i.z >= 0;
    if i.x != 0 { assert i.x * i.x == 1; }
    if i.z != 0 { assert i.z * i.z == 1; }
  }

  /** The avatar group of Player.tsx together with its yaw state. */
  class Avatar {
    var position: Vec3
    var yaw: real

    /** The group is mounted at (0, 0.9, 4) facing yaw 0. */
    constructor ()
      ensures position == Vec3(0.0, GroundHeight, 4.0) && yaw == 0.0
    {
      position := Vec3(0.0, GroundHeight, 4.0);
      yaw := 0.0;
    }

    /** One `useFrame` callback. `rot` is the rotation by the yaw the frame
        renders with, the value before this frame's update, since the new yaw
        only takes effect on a later render. */
    method Frame(input: Input.InputState, store: GameStore.Store, dt: real, rot: Rotation, k: real)
      requires IsRotation(rot) && IsInvSqrt2(k)
      modifies this, input, store
      ensures yaw == old(yaw) - RotSpeed * old(input.dx)
      ensures input.Snapshot() == old(input.Snapshot()).(dx := 0.0)
      ensures position == StepPosition(old(position), IntentOf(old(input.Snapshot())), rot, k, dt)
      ensures position.y == GroundHeight
      ensures store.playerPos == position
      ensures store.cameraMode == old(store.cameraMode) && store.hint == old(store.hint)
    {
      ghost var p0 := position;
      ghost var intent := IntentOf(input.Snapshot());
      yaw := yaw - RotSpeed * input.dx;
      input.dx := 0.0;

      var right := if input.right then 1 else 0;
      var left := if input.left then 1 else 0;
      var back := if input.back then 1 else 0;
      var forward := if input.forward then 1 else 0;
      var dir := Intent(right - left, back - forward);
      assert dir == intent;
      LengthSqPositive(dir);
      if dir.x * dir.x + dir.z * dir.z > 0 {
        var n := Normalize(dir, k);
        var d := RotateY(rot, n.0, n.1);
        StepTaken(p0, dir, rot, k, dt, d);
        position := Vec3(position.x + d.0 * (Speed * dt), position.y, position.z + d.1 * (Speed * dt));
      }
      position := position.(y := GroundHeight);
      store.SetPlayerPos(position);
    }
  }
}
