/** Small value-level helpers shared by the server modules: an optional value,
    the string operations the server code relies on (lower-casing for email
    comparison, JavaScript truthiness of a string field, Array.join). */
module Common {

  datatype Option<+T> = None | Some(value: T)

  /** One character of String.prototype.toLowerCase, restricted to ASCII letters. */
  function LowerChar(c: char): char
  {
    if 'A' <= c <= 'Z' then (c as int + ('a' as int - 'A' as int)) as char else c
  }

  function ToLower(s: string): (r: string)
    ensures |r| == |s|
  {
    seq(|s|, i requires 0 <= i < |s| => LowerChar(s[i]))
  }

  /** `a.toLowerCase() === b.toLowerCase()` */
  predicate SameEmail(a: string, b: string)
  {
    ToLower(a) == ToLower(b)
  }

  /** A string-valued field is truthy in JavaScript when present and non-empty. */
  predicate Truthy(s: Option<string>)
  {
    s.Some? && s.value != ""
  }

  /** `parts.join(sep)` */
  function Join(parts: seq<string>, sep: string): string
  {
    if |parts| == 0 then ""
    else if |parts| == 1 then parts[0]
    else parts[0] + sep + Join(parts[1..], sep)
  }

  /** `x` occurs in `s` starting at position `k`. */
  predicate OccursAt(x: string, s: string, k: int)
  {
    0 <= k <= |s| - |x| && s[k..k + |x|] == x
  }

  /** `x` occurs as a contiguous piece of `s`. */
  ghost predicate IsInfix(x: string, s: string)
  {
    exists k :: OccursAt(x, s, k)
  }

  /** Joining loses no part: every part occurs verbatim in the joined text. */
  lemma {:induction false} JoinContainsEach(parts: seq<string>, sep: string, i: nat)
    requires i < |parts|
    ensures IsInfix(parts[i], Join(parts, sep))
  {
    var s := Join(parts, sep);
    if i == 0 {
      assert OccursAt(parts[0], s, 0);
    } else {
      var rest := Join(parts[1..], sep);
      JoinContainsEach(parts[1..], sep, i - 1);
      var k :| OccursAt(parts[i], rest, k);
      var head := parts[0] + sep;
      assert s == head + rest;
      assert s[|head| + k..|head| + k + |parts[i]|] == rest[k..k + |parts[i]|];
      assert OccursAt(parts[i], s, |head| + k);
    }
  }
}
