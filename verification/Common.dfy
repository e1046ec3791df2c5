/** Small vocabulary shared by the other modules. */
module Common {

  datatype Option<+T> = None | Some(value: T)

  datatype Result<+T, +E> = Success(value: T) | Failure(error: E)

  function Bit(b: bool): nat {
    if b then 1 else 0
  }

  /** The part of a string before its first NUL, which is all that a C string keeps. */
  function CString(s: string): (c: string)
    ensures NoNul(c)
    ensures NoNul(s) <==> c == s
  {
    if s == "" || s[0] == '\0' then "" else [s[0]] + CString(s[1..])
  }

  predicate NoNul(s: string) {
    forall i :: 0 <= i < |s| ==> s[i] != '\0'
  }
}
