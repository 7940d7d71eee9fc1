/** JavaScript's `String.prototype.split` with a one-character separator, and
    `Array.prototype.join`, its inverse. `split` always returns at least one
    piece (`''.split('.')` is `['']`), so `.pop()` on its result is never
    `undefined`. */
module Strings {

  /** `parts.join([sep])`. */
  function Join(parts: seq<string>, sep: char): string
    requires |parts| >= 1
    decreases |parts|
  {
    if |parts| == 1 then parts[0] else parts[0] + [sep] + Join(parts[1..], sep)
  }

  /** `s.split(sep)`: the maximal separator-free pieces of `s`, in order. */
  function Split(s: string, sep: char): (parts: seq<string>)
    ensures |parts| >= 1
    ensures forall i :: 0 <= i < |parts| ==> sep !in parts[i]
    ensures Join(parts, sep) == s
    decreases |s|
  {
    if s == [] then [""]
    else
      var rest := Split(s[1..], sep);
      if s[0] == sep then
        [""] + rest
      else
        [[s[0]] + rest[0]] + rest[1..]
  }

  /** `s.split(sep).pop()`: the last piece. */
  function LastPiece(s: string, sep: char): (last: string)
    ensures sep !in last
  {
    var parts := Split(s, sep);
    parts[|parts| - 1]
  }

  /** The last piece is the text after the last separator, or all of `s` when
      it holds no separator. */
  lemma {:induction false} LastPieceIsTail(s: string, sep: char)
    ensures var last := LastPiece(s, sep);
            && |last| <= |s|
            && s[|s| - |last|..] == last
            && sep !in last
            && (|last| < |s| ==> s[|s| - |last| - 1] == sep)
            && (sep !in s ==> last == s)
    decreases |s|
  {
    var last := LastPiece(s, sep);
    if s != [] {
      var rest := Split(s[1..], sep);
      LastPieceIsTail(s[1..], sep);
      if s[0] != sep && |rest| == 1 {
        assert Join(rest, sep) == rest[0];
        assert last == s;
      } else {
        assert last == rest[|rest| - 1];
        assert s[1..][|s| - 1 - |last|..] == s[|s| - |last|..];
      }
    }
  }
}
