/** Values of the JavaScript runtime that every part of the benchmark shares:
    `null`/`undefined` as `Option`, a thrown exception as `Result`, bytes, and
    `String.prototype.includes`. */
module Js {

  /** A value that may be `null` or `undefined` (both read as `None`). */
  datatype Option<+T> = None | Some(value: T)

  /** The outcome of a call that may throw: `Err` carries the error's message. */
  datatype Result<+T> = Ok(value: T) | Err(message: string)

  /** One element of a `Uint8Array`. */
  newtype byte = x: int | 0 <= x < 256

  /** A JavaScript number used as a millisecond clock reading (`performance.now()`,
      `Date.now()`); this model uses whole milliseconds. */
  type Millis = int

  /** The `width` and `height` of a canvas or an image, in pixels. */
  datatype Size = Size(width: nat, height: nat)

  /** `s.includes(sub)`: `sub` occurs in `s` at some position. */
  predicate Includes(s: string, sub: string)
  {
    exists i | 0 <= i <= |s| - |sub| :: OccursAt(s, sub, i)
  }

  /** `sub` occurs in `s` starting at index `i`. */
  predicate OccursAt(s: string, sub: string, i: int)
  {
    0 <= i <= |s| - |sub| && s[i..i + |sub|] == sub
  }

  /** A string includes every prefix of itself. */
  lemma {:induction false} IncludesPrefix(s: string, t: string)
    ensures Includes(s + t, s)
  {
    assert OccursAt(s + t, s, 0);
  }

  /** When `sub` starts with a character that never occurs in `p`, every occurrence
      of `sub` in `p + s` lies inside `s`. */
  lemma {:induction false} IncludesAfterForeignPrefix(p: string, s: string, sub: string)
    requires |sub| > 0 && sub[0] !in p
    ensures Includes(p + s, sub) <==> Includes(s, sub)
  {
    if Includes(p + s, sub) {
      var i :| 0 <= i <= |p + s| - |sub| && OccursAt(p + s, sub, i);
      assert (p + s)[i..i + |sub|][0] == sub[0];
      if i < |p| {
        assert false;
      }
      assert s[i - |p|..i - |p| + |sub|] == (p + s)[i..i + |sub|];
      assert OccursAt(s, sub, i - |p|);
    }
    if Includes(s, sub) {
      var j :| 0 <= j <= |s| - |sub| && OccursAt(s, sub, j);
      assert (p + s)[|p| + j..|p| + j + |sub|] == s[j..j + |sub|];
      assert OccursAt(p + s, sub, |p| + j);
    }
  }

  /** A string in which some character of `sub` never occurs does not include `sub`. */
  lemma {:induction false} NotIncludesMissingChar(s: string, sub: string, k: int)
    requires 0 <= k < |sub| && sub[k] !in s
    ensures !Includes(s, sub)
  {
  }
}
