/**
 The few PHP built-ins whose semantics the callback pipeline depends on,
 restricted to string arguments.
 */
module Php {

  /** PHP's `empty()` applied to a string: true exactly for "" and "0". */
  predicate Empty(s: string)
  {
    s == "" || s == "0"
  }

  /** `!empty($m[$key])`: the key is present and its value is not empty. */
  predicate NonEmptyAt(m: map<string, string>, key: string)
  {
    key in m && !Empty(m[key])
  }

  /** `$m[$key] ?? $default`: tests presence only, never emptiness. */
  function OrDefault(m: map<string, string>, key: string, default: string): string
  {
    if key in m then m[key] else default
  }

  /** `strtolower` on one character: only the ASCII letters A-Z change. */
  function LowerChar(c: char): char
  {
    if 'A' <= c <= 'Z' then (c as int + 32) as char else c
  }

  /** `strtolower` (PHP 8.2 and later, locale-independent). */
  function ToLower(s: string): (r: string)
    ensures |r| == |s|
    ensures forall i :: 0 <= i < |s| ==> r[i] == LowerChar(s[i])
  {
    if s == [] then [] else [LowerChar(s[0])] + ToLower(s[1..])
  }
}
