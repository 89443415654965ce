/**
 * The case fold applied to a requested charmap name before lookup.  The
 * string class's lowercasing routine is not part of this model; it is
 * modelled as folding the ASCII capitals A-Z onto a-z and leaving every
 * other character alone.  Every registered name is lowercase ASCII, so a
 * fold that maps non-ASCII characters only to non-ASCII characters finds
 * the same names; a fold that sends a non-ASCII letter to an ASCII one
 * (U+212A KELVIN SIGN to 'k', say) would find more.
 */
module CaseFold {

  predicate IsUpper(c: char) {
    'A' <= c <= 'Z'
  }

  /** One character folded to lower case. */
  function LowerChar(c: char): (d: char)
    ensures !IsUpper(d)
    ensures IsUpper(c) ==> d as int == c as int + 32
    ensures !IsUpper(c) ==> d == c
  {
    if IsUpper(c) then (c as int + 32) as char else c
  }

  /** A string folded to lower case, character by character. */
  function Lower(s: string): (r: string)
    ensures |r| == |s|
    ensures forall i :: 0 <= i < |s| ==> r[i] == LowerChar(s[i])
  {
    if s == [] then [] else [LowerChar(s[0])] + Lower(s[1..])
  }

  /** A string with no capital letter in it. */
  predicate NoUpper(s: string) {
    forall i :: 0 <= i < |s| ==> !IsUpper(s[i])
  }

  /**
   * Two characters are the same letter up to case: equal, or one of them
   * the capital of the other.  Stated without reference to LowerChar.
   */
  predicate SameIgnoringCase(x: char, y: char) {
    x == y
    || ('A' <= x <= 'Z' && y as int == x as int + 32)
    || ('A' <= y <= 'Z' && x as int == y as int + 32)
  }

  /** Two strings are equal up to the case of their ASCII letters. */
  predicate EqualIgnoringCase(a: string, b: string) {
    |a| == |b| && forall i :: 0 <= i < |a| ==> SameIgnoringCase(a[i], b[i])
  }

  /** Folding never leaves a capital behind. */
  lemma LowerHasNoUpper(s: string)
    ensures NoUpper(Lower(s))
  {
  }

  /** Folding twice is folding once. */
  lemma LowerIdempotent(s: string)
    ensures Lower(Lower(s)) == Lower(s)
  {
    LowerHasNoUpper(s);
    LowerFixesNoUpper(Lower(s));
  }

  /** A string with no capitals, such as every registered name, is its own fold. */
  lemma {:induction false} LowerFixesNoUpper(s: string)
    ensures NoUpper(s) <==> Lower(s) == s
  {
    if NoUpper(s) {
      assert forall i :: 0 <= i < |s| ==> Lower(s)[i] == s[i];
    }
    if Lower(s) == s {
      forall i | 0 <= i < |s|
        ensures !IsUpper(s[i])
      {
        assert s[i] == LowerChar(s[i]);
      }
    }
  }

  /** Two characters fold to the same character exactly when they are the same letter up to case. */
  lemma LowerCharEqualIff(x: char, y: char)
    ensures LowerChar(x) == LowerChar(y) <==> SameIgnoringCase(x, y)
  {
  }

  /** Two strings fold to the same string exactly when they are equal up to case. */
  lemma {:induction false} LowerEqualIff(a: string, b: string)
    ensures Lower(a) == Lower(b) <==> EqualIgnoringCase(a, b)
  {
    if Lower(a) == Lower(b) {
      forall i | 0 <= i < |a|
        ensures SameIgnoringCase(a[i], b[i])
      {
        assert Lower(a)[i] == Lower(b)[i];
        LowerCharEqualIff(a[i], b[i]);
      }
    }
    if EqualIgnoringCase(a, b) {
      forall i | 0 <= i < |a|
        ensures Lower(a)[i] == Lower(b)[i]
      {
        LowerCharEqualIff(a[i], b[i]);
      }
    }
  }

  /** A string is equal up to case to its own fold. */
  lemma EqualIgnoringCaseToLower(s: string)
    ensures EqualIgnoringCase(s, Lower(s))
  {
    LowerIdempotent(s);
    LowerEqualIff(s, Lower(s));
  }
}
