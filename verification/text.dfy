/** Character and string helpers standing in for the JavaScript string
    operations the pages use: `toLowerCase`/`toLocaleLowerCase`,
    `toUpperCase`, `includes`, and the `\d` regular-expression class.
    Case mapping covers the ASCII letters only. */
module Text {

  predicate IsUpperAscii(c: char) { 'A' <= c <= 'Z' }

  predicate IsLowerAscii(c: char) { 'a' <= c <= 'z' }

  /** The `\d` class of a JavaScript regular expression without the `u` flag. */
  predicate IsDigit(c: char) { '0' <= c <= '9' }

  predicate AllDigits(s: string) {
    forall i :: 0 <= i < |s| ==> IsDigit(s[i])
  }

  /** Lower-cases one character: upper-case letters move to lower case,
      every other character is left alone. */
  function LowerChar(c: char): (r: char)
    ensures !IsUpperAscii(r)
    ensures IsUpperAscii(c) || r == c
    ensures IsUpperAscii(c) ==> IsLowerAscii(r) && r as int - c as int == 32
  {
    if IsUpperAscii(c) then (c as int - 'A' as int + 'a' as int) as char else c
  }

  /** Upper-cases one character, the mirror image of LowerChar. */
  function UpperChar(c: char): (r: char)
    ensures !IsLowerAscii(r)
    ensures IsLowerAscii(c) || r == c
    ensures IsLowerAscii(c) ==> IsUpperAscii(r) && c as int - r as int == 32
  {
    if IsLowerAscii(c) then (c as int - 'a' as int + 'A' as int) as char else c
  }

  function Lower(s: string): string {
    seq(|s|, i requires 0 <= i < |s| => LowerChar(s[i]))
  }

  /** A string with no upper-case letter is its own lower-case form. */
  lemma LowerFixesLowercase(s: string)
    requires forall i :: 0 <= i < |s| ==> !IsUpperAscii(s[i])
    ensures Lower(s) == s
  {
  }

  /** `needle` starts at position `i` of `hay`. */
  predicate OccursAt(hay: string, needle: string, i: int) {
    0 <= i <= |hay| - |needle| && hay[i..i + |needle|] == needle
  }

  /** `needle` occurs as a contiguous run somewhere in `hay`. */
  ghost predicate Occurs(hay: string, needle: string) {
    exists i :: OccursAt(hay, needle, i)
  }

  /** `String.prototype.includes`: scans the start positions of `hay` from
      the left and stops at the first one where `needle` is a prefix. */
  function Includes(hay: string, needle: string): (b: bool)
    ensures b <==> Occurs(hay, needle)
    decreases |hay|
  {
    if needle <= hay then
      assert OccursAt(hay, needle, 0);
      true
    else if hay == [] then
      false
    else
      OccursInTail(hay, needle);
      Includes(hay[1..], needle)
  }

  /** When `needle` is not a prefix of a non-empty `hay`, it occurs in `hay`
      exactly when it occurs in `hay` without its first character. */
  lemma OccursInTail(hay: string, needle: string)
    requires hay != [] && !(needle <= hay)
    ensures Occurs(hay, needle) <==> Occurs(hay[1..], needle)
  {
    var n := |needle|;
    if Occurs(hay, needle) {
      var i :| OccursAt(hay, needle, i);
      assert i != 0;
      var tailRun, run := hay[1..][i - 1..i - 1 + n], hay[i..i + n];
      forall k | 0 <= k < n
        ensures tailRun[k] == run[k]
      {
        assert hay[1..][i - 1 + k] == hay[i + k];
      }
      assert tailRun == run;
      assert OccursAt(hay[1..], needle, i - 1);
    }
    if Occurs(hay[1..], needle) {
      var j :| OccursAt(hay[1..], needle, j);
      var run, tailRun := hay[j + 1..j + 1 + n], hay[1..][j..j + n];
      forall k | 0 <= k < n
        ensures run[k] == tailRun[k]
      {
        assert hay[1..][j + k] == hay[j + 1 + k];
      }
      assert run == tailRun;
      assert OccursAt(hay, needle, j + 1);
    }
  }
}
