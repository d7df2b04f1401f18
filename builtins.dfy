/** The handful of Python built-ins the modelled code relies on: `None`,
    raised exceptions as explicit errors, `str.join`, `str.startswith`,
    and `min`/`max` on numbers. */
module Builtins {

  /** Python's `None` next to a present value. */
  datatype Option<+T> = None | Some(value: T)

  /** A value, or the error an exception would have carried. */
  datatype Result<+T, +E> = Ok(value: T) | Err(error: E)

  /** `sep.join(parts)` */
  function Join(sep: string, parts: seq<string>): string
  {
    if |parts| == 0 then ""
    else if |parts| == 1 then parts[0]
    else parts[0] + sep + Join(sep, parts[1..])
  }

  /** `s.startswith(prefix)` */
  predicate StartsWith(s: string, prefix: string)
  {
    |prefix| <= |s| && s[..|prefix|] == prefix
  }

  /** `needle` occurs in `haystack` starting at index `k`. */
  predicate OccursAt(needle: string, haystack: string, k: int)
  {
    0 <= k <= |haystack| - |needle| && haystack[k..k + |needle|] == needle
  }

  /** Python's `needle in haystack` on strings. */
  predicate Contains(haystack: string, needle: string)
  {
    exists k :: 0 <= k <= |haystack| && OccursAt(needle, haystack, k)
  }

  /** Every part survives the join: it occurs verbatim in the joined text. */
  lemma {:induction false} JoinContainsEachPart(sep: string, parts: seq<string>, i: nat)
    requires i < |parts|
    ensures Contains(Join(sep, parts), parts[i])
  {
    var joined := Join(sep, parts);
    if |parts| == 1 {
      assert OccursAt(parts[i], joined, 0);
    } else if i == 0 {
      assert joined == parts[0] + (sep + Join(sep, parts[1..]));
      assert joined[0..|parts[0]|] == parts[0];
      assert OccursAt(parts[i], joined, 0);
    } else {
      var rest := Join(sep, parts[1..]);
      JoinContainsEachPart(sep, parts[1..], i - 1);
      assert parts[1..][i - 1] == parts[i];
      var k :| 0 <= k <= |rest| && OccursAt(parts[i], rest, k);
      assert 0 <= k <= |rest| - |parts[i]| && rest[k .. k + |parts[i]|] == parts[i];
      var offset := |parts[0]| + |sep|;
      assert joined == (parts[0] + sep) + rest;
      assert |joined| == offset + |rest|;
      assert joined[offset + k .. offset + k + |parts[i]|] == rest[k .. k + |parts[i]|];
      assert OccursAt(parts[i], joined, offset + k);
    }
  }

  /** `max(a, b)` on numbers */
  function Max(a: real, b: real): real
  {
    if a >= b then a else b
  }

  /** `min(a, b)` on numbers */
  function Min(a: real, b: real): real
  {
    if a <= b then a else b
  }
}
