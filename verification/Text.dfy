/** The string operations the code takes from its standard library. */
module Text {

  /** str::contains. */
  predicate Contains(haystack: string, needle: string) {
    exists i :: 0 <= i <= |haystack| && StartsAt(haystack, needle, i)
  }

  predicate StartsAt(haystack: string, needle: string, i: nat) {
    i + |needle| <= |haystack| && haystack[i..i + |needle|] == needle
  }

  /** A text contains another exactly when it can be cut into something, that text, and something. */
  lemma ContainsIff(haystack: string, needle: string)
    ensures Contains(haystack, needle) <==> exists front, back :: haystack == front + needle + back
  {
    if Contains(haystack, needle) {
      var i :| 0 <= i <= |haystack| && StartsAt(haystack, needle, i);
      assert haystack == haystack[..i] + needle + haystack[i + |needle|..];
    }
    if front, back :| haystack == front + needle + back {
      assert StartsAt(haystack, needle, |front|);
    }
  }

  /** str::to_lowercase, whose Unicode tables are a parameter of the model. */
  type Lowercase = string -> string
}
