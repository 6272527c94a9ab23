/** The store of components/rpg/store.ts: the camera mode (`cam`) and the
    interaction hint, each with its own setter. */
module RpgStore {
  import opened Common

  class Store {
    var cam: CameraMode
    var hint: Option<string>

    constructor ()
      ensures cam == Third && hint == None
    {
      cam := Third;
      hint := None;
    }

    method SetCam(m: CameraMode)
      modifies this
      ensures cam == m && hint == old(hint)
    {
      cam := m;
    }

    method SetHint(t: Option<string>)
      modifies this
      ensures hint == t && cam == old(cam)
    {
      hint := t;
    }
  }

  /** A read after each setter returns the value just written, and the other
      field keeps what was there before. */
  method SetThenRead(s: Store, m: CameraMode, t: Option<string>)
    returns (readCam: CameraMode, readHint: Option<string>)
    modifies s
    ensures readCam == m && readHint == t
    ensures s.cam == m && s.hint == t
  {
    s.SetCam(m);
    readCam := s.cam;
    s.SetHint(t);
    assert s.cam == m;
    readHint := s.hint;
  }
}
