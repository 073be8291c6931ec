/** String helpers the webhook's termination test relies on: lowercasing and
    substring search, in the way JavaScript's `toLowerCase` and `includes`
    behave on the letters that matter here. */
module Text {

  /** Lowercases one character. Only the ASCII letters A-Z are folded; every
      other character is kept as it is. */
  function LowerChar(c: char): (d: char)
    ensures !('A' <= d <= 'Z')
    ensures 'A' <= c <= 'Z' ==> d as int == c as int + 32
    ensures !('A' <= c <= 'Z') ==> d == c
  {
    if 'A' <= c <= 'Z' then (c as int + 32) as char else c
  }

  /** Lowercases a string character by character. */
  function ToLower(s: string): (r: string)
    ensures |r| == |s|
    ensures forall i :: 0 <= i < |s| ==> r[i] == LowerChar(s[i])
    ensures forall i :: 0 <= i < |r| ==> !('A' <= r[i] <= 'Z')
  {
    if s == [] then [] else [LowerChar(s[0])] + ToLower(s[1..])
  }

  /** `p` occurs in `s` starting at index `i`. */
  ghost predicate OccursAt(s: string, p: string, i: int)
  {
    0 <= i && i + |p| <= |s| && s[i..i + |p|] == p
  }

  /** `s.includes(p)`: some index of `s` starts an occurrence of `p`
      (the empty pattern occurs everywhere). */
  function Includes(s: string, p: string): (b: bool)
    ensures b <==> exists i :: OccursAt(s, p, i)
    decreases |s|
  {
    if |p| > |s| then false
    else if s[..|p|] == p then
      assert OccursAt(s, p, 0);
      true
    else
      var b := Includes(s[1..], p);
      assert b ==> exists i :: OccursAt(s, p, i) by {
        if b {
          var j :| OccursAt(s[1..], p, j);
          assert s[1..][j..j + |p|] == s[j + 1..j + 1 + |p|];
          assert OccursAt(s, p, j + 1);
        }
      }
      assert (exists i :: OccursAt(s, p, i)) ==> b by {
        if exists i :: OccursAt(s, p, i) {
          var i :| OccursAt(s, p, i);
          assert i != 0;
          assert s[1..][i - 1..i - 1 + |p|] == s[i..i + |p|];
          assert OccursAt(s[1..], p, i - 1);
        }
      }
      b
  }

  /** Lowercasing both sides keeps an occurrence where it was. */
  lemma LowerKeepsOccurrence(s: string, p: string, i: int)
    requires OccursAt(s, p, i)
    ensures OccursAt(ToLower(s), ToLower(p), i)
  {
    var ls, lp := ToLower(s), ToLower(p);
    forall k | 0 <= k < |p|
      ensures ls[i..i + |p|][k] == lp[k]
    {
      assert s[i + k] == s[i..i + |p|][k] == p[k];
      assert ls[i..i + |p|][k] == ls[i + k] == LowerChar(s[i + k]);
    }
    assert ls[i..i + |p|] == lp;
  }

  /** So a search on lowercased text finds the pattern whatever the case the
      pattern was written in: "MERCI" in `s` means "merci" in `ToLower(s)`. */
  lemma LowerKeepsInclusion(s: string, p: string)
    requires Includes(s, p)
    ensures Includes(ToLower(s), ToLower(p))
  {
    var i :| OccursAt(s, p, i);
    LowerKeepsOccurrence(s, p, i);
  }

  /** A non-empty pattern can only occur in a string that holds its first
      character. */
  lemma IncludesNeedsFirstChar(s: string, p: string)
    requires |p| > 0 && Includes(s, p)
    ensures p[0] in s
  {
    var i :| OccursAt(s, p, i);
    assert s[i] == s[i..i + |p|][0];
  }

  /** A lowercase letter is absent from the lowercased string when neither
      it nor its uppercase form is in the original. */
  lemma LowerLacksLetter(s: string, c: char)
    requires 'a' <= c <= 'z' && c !in s && (c as int - 32) as char !in s
    ensures c !in ToLower(s)
  {
    var r := ToLower(s);
    forall i | 0 <= i < |s| ensures r[i] != c {
      assert s[i] != c;
    }
  }

  /** Text without ASCII capitals is its own lowercase form. */
  lemma LowerKeepsLowercase(s: string)
    requires forall i :: 0 <= i < |s| ==> !('A' <= s[i] <= 'Z')
    ensures ToLower(s) == s
  {
  }

  /** Text that starts with a pattern free of ASCII capitals still contains
      that pattern once lowercased. */
  lemma LowerFindsLowercasePrefix(s: string, p: string)
    requires |p| <= |s| && s[..|p|] == p
    requires forall i :: 0 <= i < |p| ==> !('A' <= p[i] <= 'Z')
    ensures Includes(ToLower(s), p)
  {
    assert OccursAt(s, p, 0);
    LowerKeepsOccurrence(s, p, 0);
    LowerKeepsLowercase(p);
  }
}
