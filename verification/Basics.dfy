/** What several modules use. */
module Basics {
  datatype Option<+T> = None | Some(value: T)

  lemma Regroup<T>(a: seq<T>, b: seq<T>, c: seq<T>)
    ensures (a + b) + c == a + (b + c)
  {}

  /** The code units that JavaScript takes for white space or for the end of a line (sections 12.2
      and 12.3 of ECMA-262). */
  predicate White(code: int) {
    || code == 32 || 9 <= code <= 13 || code == 0xA0 || code == 0xFEFF || code == 0x1680 || 0x2000 <= code <= 0x200A
    || code == 0x2028 || code == 0x2029 || code == 0x202F || code == 0x205F || code == 0x3000
  }

  /** A text without the white space at its ends. */
  function Trim<T>(s: seq<T>, white: T -> bool): (r: seq<T>)
    ensures r != [] ==> !white(r[0]) && !white(r[|r| - 1])
    ensures s != [] && !white(s[0]) && !white(s[|s| - 1]) ==> r == s
    decreases |s|
  {
    if s == [] then s
    else if white(s[0]) then Trim(s[1..], white)
    else if white(s[|s| - 1]) then Trim(s[..|s| - 1], white)
    else s
  }
}
