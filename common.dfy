/** Small shared vocabulary: optional values (the source's `null`), the two
    camera modes, and the ASCII case folding that `toLowerCase` performs on
    the key names the scene listens for. */
module Common {

  /** `T | null` in the source. */
  datatype Option<+T> = None | Some(value: T)

  /** The store's `CameraMode = "third" | "iso"`. */
  datatype CameraMode = Third | Iso

  /** Lower-case an ASCII letter; every other character is left alone. */
  function LowerChar(c: char): (r: char)
    ensures 'A' <= c <= 'Z' ==> 'a' <= r <= 'z' && r as int == c as int + 32
    ensures !('A' <= c <= 'Z') ==> r == c
    ensures !('A' <= r <= 'Z')
  {
    if 'A' <= c <= 'Z' then (c as int + 32) as char else c
  }

  /** `String.prototype.toLowerCase`, restricted to ASCII letters. */
  function Lower(s: string): (r: string)
    ensures |r| == |s|
    ensures forall i :: 0 <= i < |s| ==> r[i] == LowerChar(s[i])
    ensures forall i :: 0 <= i < |r| ==> !('A' <= r[i] <= 'Z')
  {
    seq(|s|, i requires 0 <= i < |s| => LowerChar(s[i]))
  }
}
