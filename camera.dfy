/** The camera rig of components/game/CameraRig.tsx, whose offsets and easing
    the rig of components/rpg/Scene.tsx shares: a mode toggle, a desired
    position offset from the player by mode, and a linear interpolation of the
    camera position toward it. The easing factor `1 - 0.001^dt` is the
    parameter `alpha`; for every dt >= 0 it lies in [0, 1). */
module CameraRig {
  import opened Common
  import opened Geometry
  import GameStore

  /** `mode === "third" ? "iso" : "third"`. */
  function Toggled(m: CameraMode): (r: CameraMode)
    ensures r != m
    ensures m == Third <==> r == Iso
  {
    if m == Third then Iso else Third
  }

  /** Toggling `n` times: the reference the toggle lemma is stated against. */
  function ToggledTimes(m: CameraMode, n: nat): CameraMode {
    if n == 0 then m else Toggled(ToggledTimes(m, n - 1))
  }

  /** An even number of toggles restores the mode, an odd number flips it. */
  lemma {:induction false} ToggleParity(m: CameraMode, n: nat)
    ensures ToggledTimes(m, n) == if n % 2 == 0 then m else Toggled(m)
  {
    if n > 0 {
      ToggleParity(m, n - 1);
    }
  }

  /** Where the camera wants to be relative to the player in each mode. */
  function Offset(m: CameraMode): Vec3 {
    match m
    case Third => Vec3(-2.5, 2.0, 3.5)
    case Iso => Vec3(6.0, 8.0, 6.0)
  }

  /** The desired camera position for a target: behind and above it in third
      person, high on the diagonal in isometric view. */
  function Desired(m: CameraMode, target: Vec3): (d: Vec3)
    ensures m == Third ==> d == Vec3(target.x - 2.5, target.y + 2.0, target.z + 3.5)
    ensures m == Iso ==> d == Vec3(target.x + 6.0, target.y + 8.0, target.z + 6.0)
    ensures d.y > target.y
  {
    Add(target, Offset(m))
  }

  /** `Vector3.lerp(q, alpha)`: `p + (q - p) * alpha` componentwise. The new
      position's offset from `q` is the old offset scaled by `1 - alpha`. */
  function Lerp(p: Vec3, q: Vec3, alpha: real): (r: Vec3)
    ensures Sub(r, q) == Scale(1.0 - alpha, Sub(p, q))
    ensures alpha == 0.0 ==> r == p
    ensures alpha == 1.0 ==> r == q
    ensures p == q ==> r == q
  {
    Vec3(p.x + (q.x - p.x) * alpha, p.y + (q.y - p.y) * alpha, p.z + (q.z - p.z) * alpha)
  }

  /** Multiplying a non-negative quantity by the square of a factor in [0, 1]
      cannot increase it, and strictly decreases it when the factor is below 1. */
  lemma ShrinkBySquare(c: real, n: real)
    requires 0.0 <= c <= 1.0 && n >= 0.0
    ensures c * c * n <= n
    ensures c < 1.0 && n > 0.0 ==> c * c * n < n
  {
    assert c * c <= c;
    if c < 1.0 {
      assert c * c < 1.0;
    }
  }

  /** For an easing factor in [0, 1] the step never overshoots: the squared
      distance to the desired position is multiplied by (1 - alpha)^2, so it
      never grows and it shrinks whenever alpha > 0 and the camera is not yet
      at the desired position. */
  lemma LerpNeverOvershoots(p: Vec3, q: Vec3, alpha: real)
    requires 0.0 <= alpha <= 1.0
    ensures DistSq(Lerp(p, q, alpha), q) == (1.0 - alpha) * (1.0 - alpha) * DistSq(p, q)
    ensures DistSq(Lerp(p, q, alpha), q) <= DistSq(p, q)
    ensures alpha > 0.0 && DistSq(p, q) > 0.0 ==> DistSq(Lerp(p, q, alpha), q) < DistSq(p, q)
  {
    var c := 1.0 - alpha;
    var d := Sub(p, q);
    NormSqScale(c, d);
    NormSqNonNegative(d);
    ShrinkBySquare(c, NormSq(d));
  }

  /** The camera whose transform the rendering layer owns. */
  class Camera {
    var position: Vec3

    constructor (p: Vec3)
      ensures position == p
    {
      position := p;
    }
  }

  /** The `CameraRig` component: its `target` ref and its two callbacks. */
  class Rig {
    var target: Vec3

    constructor ()
      ensures target == Origin
    {
      target := Origin;
    }

    /** The per-frame callback: aim at the published player position and ease
        the camera toward the desired position for the current mode. */
    method Frame(camera: Camera, store: GameStore.Store, alpha: real)
      modifies this, camera
      ensures target == store.playerPos
      ensures camera.position == Lerp(old(camera.position), Desired(store.cameraMode, store.playerPos), alpha)
    {
      target := store.playerPos;
      var desired;
      if store.cameraMode == Third {
        desired := Vec3(target.x - 2.5, target.y + 2.0, target.z + 3.5);
      } else {
        desired := Vec3(target.x + 6.0, target.y + 8.0, target.z + 6.0);
      }
      camera.position := Lerp(camera.position, desired, alpha);
    }

    /** The "toggle-camera" handler: flip the store's mode. */
    method OnToggle(store: GameStore.Store)
      modifies store
      ensures store.cameraMode == Toggled(old(store.cameraMode))
      ensures store.playerPos == old(store.playerPos) && store.hint == old(store.hint)
    {
      var now := if store.cameraMode == Third then Iso else Third;
      store.SetCameraMode(now);
    }
  }
}
