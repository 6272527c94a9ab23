/** The shared game store of components/game/store.ts: one record holding the
    camera mode, the published player position and the interaction hint, with
    one setter per field. The zustand subscription machinery is not part of
    this model; the store is a plain object whose setters overwrite a field. */
module GameStore {
  import opened Common
  import opened Geometry

  class Store {
    var cameraMode: CameraMode
    var playerPos: Vec3
    var hint: Option<string>

    /** The state the store is created with. */
    constructor ()
      ensures cameraMode == Third && playerPos == Origin && hint == None
    {
      cameraMode := Third;
      playerPos := Origin;
      hint := None;
    }

    method SetCameraMode(m: CameraMode)
      modifies this
      ensures cameraMode == m
      ensures playerPos == old(playerPos) && hint == old(hint)
    {
      cameraMode := m;
    }

    method SetPlayerPos(p: Vec3)
      modifies this
      ensures playerPos == p
      ensures cameraMode == old(cameraMode) && hint == old(hint)
    {
      playerPos := p;
    }

    /** `setHint(null)` is `SetHint(None)` and clears the hint. */
    method SetHint(t: Option<string>)
      modifies this
      ensures hint == t
      ensures cameraMode == old(cameraMode) && playerPos == old(playerPos)
    {
      hint := t;
    }
  }
}
