/**
 * The few pieces of JavaScript semantics the three handlers rely on:
 * optional values, truthiness of strings, `String.prototype.trim`, and the
 * `err.error || fallback` idiom used to turn a rejected API call into a
 * message.
 */
module Js {

  /** A value that may be absent (`undefined` / `null` in the source). */
  datatype Option<+T> = None | Some(value: T)

  /** A string is truthy in JavaScript exactly when it is not empty. */
  predicate Truthy(s: string) {
    s != ""
  }

  /** An optional string field is truthy when it is present and non-empty. */
  predicate TruthyField(o: Option<string>) {
    o.Some? && Truthy(o.value)
  }

  /**
   * The characters `String.prototype.trim` removes: the WhiteSpace and
   * LineTerminator code points of section 12.2 and 12.3 of ECMA-262.
   */
  predicate IsWhitespace(c: char) {
    var n := c as int;
    || n == 0x09 || n == 0x0A || n == 0x0B || n == 0x0C || n == 0x0D
    || n == 0x20 || n == 0xA0 || n == 0x1680
    || (0x2000 <= n <= 0x200A)
    || n == 0x2028 || n == 0x2029 || n == 0x202F || n == 0x205F
    || n == 0x3000 || n == 0xFEFF
  }

  /** Every character of `s` is whitespace (vacuously true of ""). */
  ghost predicate AllWhitespace(s: string) {
    forall i :: 0 <= i < |s| ==> IsWhitespace(s[i])
  }

  /** The length of the maximal run of whitespace at the start of `s`. */
  function LeadingWhitespace(s: string): (k: nat)
    ensures k <= |s|
    ensures forall i :: 0 <= i < k ==> IsWhitespace(s[i])
    ensures k < |s| ==> !IsWhitespace(s[k])
  {
    if |s| > 0 && IsWhitespace(s[0]) then
      var k := 1 + LeadingWhitespace(s[1..]);
      assert forall i :: 1 <= i < k ==> s[i] == s[1..][i - 1];
      k
    else 0
  }

  /** The length of the maximal run of whitespace at the end of `s`. */
  function TrailingWhitespace(s: string): (k: nat)
    ensures k <= |s|
    ensures forall i :: |s| - k <= i < |s| ==> IsWhitespace(s[i])
    ensures k < |s| ==> !IsWhitespace(s[|s| - 1 - k])
  {
    if |s| > 0 && IsWhitespace(s[|s| - 1]) then
      var k := 1 + TrailingWhitespace(s[..|s| - 1]);
      assert forall i :: |s| - k <= i < |s| - 1 ==> s[i] == s[..|s| - 1][i];
      k
    else 0
  }

  /**
   * Where `s.trim()` cuts `s`: after the leading whitespace run, and before
   * the trailing whitespace run of what remains.
   */
  lemma TrimBounds(s: string, i: nat, j: nat)
    requires i == LeadingWhitespace(s)
    requires j == i + |s[i..]| - TrailingWhitespace(s[i..])
    ensures i <= j <= |s|
    ensures AllWhitespace(s[..i]) && AllWhitespace(s[j..])
    ensures i < j ==> !IsWhitespace(s[i]) && !IsWhitespace(s[j - 1])
  {
    var t := s[i..];
    assert AllWhitespace(s[j..]) by {
      forall k | 0 <= k < |s[j..]|
        ensures IsWhitespace(s[j..][k])
      {
        assert s[j..][k] == t[j - i + k];
      }
    }
    if i < j {
      assert t[0] == s[i];
      assert t[|t| - 1 - TrailingWhitespace(t)] == s[j - 1];
    }
  }

  /**
   * `s.trim()`: the slice of `s` left after dropping whitespace at both ends,
   * which starts and ends with a non-whitespace character when not empty.
   */
  function Trim(s: string): (r: string)
    ensures exists i, j :: 0 <= i <= j <= |s| && r == s[i..j]
                           && AllWhitespace(s[..i]) && AllWhitespace(s[j..])
    ensures r != "" ==> !IsWhitespace(r[0]) && !IsWhitespace(r[|r| - 1])
  {
    var i := LeadingWhitespace(s);
    var j := i + |s[i..]| - TrailingWhitespace(s[i..]);
    TrimBounds(s, i, j);
    assert i < j ==> s[i..j][0] == s[i] && s[i..j][j - i - 1] == s[j - 1];
    s[i..j]
  }

  /** A string is empty once trimmed exactly when it consists of whitespace only. */
  lemma TrimEmptyIffAllWhitespace(s: string)
    ensures Trim(s) == "" <==> AllWhitespace(s)
  {
    var k := LeadingWhitespace(s);
    if k < |s| {
      // the first kept character is not whitespace, and it survives the end trim
      var t := s[k..];
      assert t[0] == s[k];
      assert TrailingWhitespace(t) < |t|;
    }
  }

  /** `!s.trim()`: blank exactly when every character is whitespace. */
  predicate IsBlank(s: string)
    ensures IsBlank(s) <==> AllWhitespace(s)
  {
    TrimEmptyIffAllWhitespace(s);
    !Truthy(Trim(s))
  }

  /**
   * The message shown after a rejected call: `err.error || fallback`.
   * An absent or empty `error` field falls back.
   */
  function ErrorText(errorField: Option<string>, fallback: string): (m: string)
    ensures Truthy(fallback) ==> Truthy(m)
    ensures m == fallback || Some(m) == errorField
  {
    if TruthyField(errorField) then errorField.value else fallback
  }
}
