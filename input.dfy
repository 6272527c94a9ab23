/** The input sampler of components/game/useInput.ts. A `Keys` record is
    written by key and mouse handlers and read once per frame by the avatar.
    The functions on `Keys` say what each handler does; the class
    `InputState` is the mutable record the handlers update in place. */
module Input {

  /** The source's `Keys` record as a value. */
  datatype Keys = Keys(
    forward: bool, back: bool, left: bool, right: bool,
    interact: bool,
    mouseDown: bool, dx: real)

  const Initial: Keys := Keys(false, false, false, false, false, false, 0.0)

  /** Effect of one key event on the record, with `down` true for keydown. */
  function AfterKey(s: Keys, key: string, down: bool): (r: Keys)
    ensures key == "w" ==> r == s.(forward := down)
    ensures key == "s" ==> r == s.(back := down)
    ensures key == "a" ==> r == s.(left := down)
    ensures key == "d" ==> r == s.(right := down)
    ensures key == "e" ==> r == s.(interact := down)
    ensures key !in {"w", "s", "a", "d", "e"} ==> r == s
    ensures r.mouseDown == s.mouseDown && r.dx == s.dx
  {
    match key
    case "w" => s.(forward := down)
    case "s" => s.(back := down)
    case "a" => s.(left := down)
    case "d" => s.(right := down)
    case "e" => s.(interact := down)
    case _ => s
  }

  /** Whether a key event asks for the camera to toggle: "t" on keydown only. */
  function RequestsToggle(key: string, down: bool): (r: bool)
    ensures r ==> down
    ensures !down ==> !r
    ensures key != "t" ==> !r
    ensures key == "t" && down ==> r
  {
    key == "t" && down
  }

  function AfterMouseDown(s: Keys): (r: Keys)
    ensures r.mouseDown && r == s.(mouseDown := true)
  {
    s.(mouseDown := true)
  }

  /** Releasing the button also drops the drag accumulated so far. */
  function AfterMouseUp(s: Keys): (r: Keys)
    ensures !r.mouseDown && r.dx == 0.0
    ensures r.(mouseDown := s.mouseDown, dx := s.dx) == s
  {
    s.(mouseDown := false, dx := 0.0)
  }

  /** Horizontal motion accumulates in `dx` only while the button is held. */
  function AfterMouseMove(s: Keys, movementX: real): (r: Keys)
    ensures s.mouseDown ==> r.dx == s.dx + movementX
    ensures !s.mouseDown ==> r == s
    ensures r.(dx := s.dx) == s
  {
    if s.mouseDown then s.(dx := s.dx + movementX) else s
  }

  /** The key names are matched exactly: the upper-case letters change
      nothing and request no toggle. */
  lemma UpperCaseIgnored(s: Keys, down: bool)
    ensures forall key :: key in {"W", "S", "A", "D", "E", "T"} ==>
      AfterKey(s, key, down) == s && !RequestsToggle(key, down)
  {
  }

  /** A "t" event, any keyup of "t" included, leaves the record unchanged. */
  lemma ToggleKeyLeavesRecord(s: Keys, down: bool)
    ensures AfterKey(s, "t", down) == s
    ensures RequestsToggle("t", down) <==> down
  {
  }

  /** `state.current`: the record the event handlers mutate field by field. */
  class InputState {
    var forward: bool
    var back: bool
    var left: bool
    var right: bool
    var interact: bool
    var mouseDown: bool
    var dx: real

    /** The record as a value, for stating what the handlers do. */
    function Snapshot(): Keys
      reads this
    {
      Keys(forward, back, left, right, interact, mouseDown, dx)
    }

    constructor ()
      ensures Snapshot() == Initial
    {
      forward, back, left, right := false, false, false, false;
      interact, mouseDown, dx := false, false, 0.0;
    }

    /** `onKey(e, down)`. The returned flag stands for the "toggle-camera"
        event the handler dispatches. */
    method OnKey(key: string, down: bool) returns (toggle: bool)
      modifies this
      ensures Snapshot() == AfterKey(old(Snapshot()), key, down)
      ensures toggle == RequestsToggle(key, down)
    {
      if key == "w" { forward := down; }
      if key == "s" { back := down; }
      if key == "a" { left := down; }
      if key == "d" { right := down; }
      if key == "e" { interact := down; }
      toggle := false;
      if key == "t" && down { toggle := true; }
    }

    method OnMouseDown()
      modifies this
      ensures Snapshot() == AfterMouseDown(old(Snapshot()))
    {
      mouseDown := true;
    }

    method OnMouseUp()
      modifies this
      ensures Snapshot() == AfterMouseUp(old(Snapshot()))
    {
      mouseDown := false;
      dx := 0.0;
    }

    method OnMouseMove(movementX: real)
      modifies this
      ensures Snapshot() == AfterMouseMove(old(Snapshot()), movementX)
    {
      if mouseDown { dx := dx + movementX; }
    }
  }
}
