/** Pointer helpers of wire/helpers.go; a Go pointer is an Option (None is nil). */
module WireHelpers {
  import opened Wrappers

  /** `PString`: a pointer to a copy of src, never nil. */
  function PString(src: string): (p: Option<string>)
    ensures p.Some? && p.value == src
  {
    Some(src)
  }

  /** `OptString`: nil for the empty string, otherwise a pointer to a copy. */
  function OptString(src: string): (p: Option<string>)
    ensures p.None? <==> src == ""
    ensures p.Some? ==> p.value == src
  {
    if src == "" then None else PString(src)
  }

  /** `PBool`: a pointer to a copy of b, never nil. */
  function PBool(b: bool): (p: Option<bool>)
    ensures p.Some? && p.value == b
  {
    Some(b)
  }
}
