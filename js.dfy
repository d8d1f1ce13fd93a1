/**
 * The few JavaScript value semantics the portal's decisions rely on:
 * truthiness of optional strings and loosely typed metadata, the `a || b`
 * default idiom, and `String.prototype.includes`.
 */
module Js {
  import opened Wrappers

  /** A loosely typed value such as an entry of an account's metadata. */
  datatype JsValue =
    | Undefined
    | Null
    | Bool(b: bool)
    | Number(n: int)
    | Str(s: string)
    | Object

  /** JavaScript truthiness of a scalar value (NaN is not represented). */
  predicate Truthy(v: JsValue) {
    match v
    case Undefined => false
    case Null => false
    case Bool(b) => b
    case Number(n) => n != 0
    case Str(s) => s != ""
    case Object => true
  }

  /** Truthiness of an optional string: present and non-empty. */
  predicate Present(s: Option<string>) {
    s.Some? && s.value != ""
  }

  /** `s || fallback` for an optional string. */
  function OrElse(s: Option<string>, fallback: string): (r: string)
    ensures Present(s) ==> r == s.value
    ensures !Present(s) ==> r == fallback
  {
    if s.Some? && s.value != "" then s.value else fallback
  }

  /** `p` is a prefix of `s`. */
  predicate StartsWith(s: string, p: string) {
    |p| <= |s| && s[..|p|] == p
  }

  /** `s.includes(sub)`: `sub` occurs in `s` at some position. */
  predicate Includes(s: string, sub: string)
    decreases |s|
  {
    StartsWith(s, sub) || (|s| > 0 && Includes(s[1..], sub))
  }

  /** `sub` occurs in `s` starting at index `i`. */
  predicate OccursAt(s: string, sub: string, i: int) {
    0 <= i && i + |sub| <= |s| && s[i..i + |sub|] == sub
  }

  /** `Includes` holds exactly when `sub` occurs at some index of `s`. */
  lemma {:induction false} IncludesIffOccurs(s: string, sub: string)
    ensures Includes(s, sub) <==> exists i :: OccursAt(s, sub, i)
    decreases |s|
  {
    if |s| == 0 {
      if Includes(s, sub) {
        assert OccursAt(s, sub, 0);
      }
    } else {
      IncludesIffOccurs(s[1..], sub);
      // An occurrence in `s` is a prefix occurrence or an occurrence in its tail.
      forall i | 0 <= i
        ensures OccursAt(s, sub, i) == if i == 0 then StartsWith(s, sub) else OccursAt(s[1..], sub, i - 1)
      {
        if 0 < i && i + |sub| <= |s| {
          var tail := s[1..];
          var here, there := s[i..i + |sub|], tail[i - 1..i - 1 + |sub|];
          assert forall k :: 0 <= k < |sub| ==> here[k] == there[k];
          assert here == there;
        }
      }
      if StartsWith(s, sub) {
        assert OccursAt(s, sub, 0);
      } else if Includes(s[1..], sub) {
        var j :| OccursAt(s[1..], sub, j);
        assert OccursAt(s, sub, j + 1);
      }
    }
  }
}
