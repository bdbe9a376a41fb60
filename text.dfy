/** The two string operations the device heuristics use: Kotlin's
    `String.lowercase()` (modelled on ASCII letters) and `String.contains`. */
module Text {

  predicate IsUpperAscii(c: char)
  {
    'A' <= c <= 'Z'
  }

  function LowerChar(c: char): (d: char)
    ensures !IsUpperAscii(d)
    ensures !IsUpperAscii(c) ==> d == c
  {
    if IsUpperAscii(c) then (c as int - 'A' as int + 'a' as int) as char else c
  }

  /** No character of `s` is an upper-case ASCII letter. */
  predicate IsLower(s: string)
  {
    forall i :: 0 <= i < |s| ==> !IsUpperAscii(s[i])
  }

  /** `s.lowercase()`: every character is lowered in place, so the length is
      kept, the result has no upper-case letter, and a string that is
      already lower case is returned unchanged. */
  function Lowercase(s: string): (r: string)
    ensures |r| == |s|
    ensures forall i :: 0 <= i < |s| ==> r[i] == LowerChar(s[i])
    ensures IsLower(r)
    ensures IsLower(s) ==> r == s
  {
    if s == [] then [] else [LowerChar(s[0])] + Lowercase(s[1..])
  }

  /** Lowering twice is lowering once. */
  lemma LowercaseIdempotent(s: string)
    ensures Lowercase(Lowercase(s)) == Lowercase(s)
  {
  }

  /** `s.contains(needle)`: the needle is a prefix of some suffix of `s`. */
  predicate Contains(s: string, needle: string)
  {
    needle <= s || (s != [] && Contains(s[1..], needle))
  }

  /** `Contains` holds exactly when the needle starts at some position. */
  lemma {:induction false} ContainsAt(s: string, needle: string)
    ensures Contains(s, needle) <==> exists i :: 0 <= i <= |s| && needle <= s[i..]
  {
    if Contains(s, needle) {
      var i := ContainedPosition(s, needle);
      assert needle <= s[i..];
    }
    if exists i :: 0 <= i <= |s| && needle <= s[i..] {
      var i :| 0 <= i <= |s| && needle <= s[i..];
      ContainedFrom(s, needle, i);
    }
  }

  /** A position where a contained needle starts. */
  lemma {:induction false} ContainedPosition(s: string, needle: string) returns (i: nat)
    requires Contains(s, needle)
    ensures i <= |s| && needle <= s[i..]
  {
    if needle <= s {
      assert s[0..] == s;
      i := 0;
    } else {
      var j := ContainedPosition(s[1..], needle);
      assert s[1..][j..] == s[j + 1..];
      i := j + 1;
    }
  }

  /** A needle starting at position `i` is contained. */
  lemma {:induction false} ContainedFrom(s: string, needle: string, i: nat)
    requires i <= |s| && needle <= s[i..]
    ensures Contains(s, needle)
  {
    if i == 0 {
      assert s[0..] == s;
    } else {
      assert s[1..][i - 1..] == s[i..];
      ContainedFrom(s[1..], needle, i - 1);
    }
  }
}
