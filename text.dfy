/** The few string operations of java.lang.String the dispatcher relies on. */
module Text {

  /** String.endsWith */
  predicate EndsWith(s: string, suffix: string)
  {
    |suffix| <= |s| && s[|s| - |suffix|..] == suffix
  }

  lemma EndsWithIff(s: string, suffix: string)
    ensures EndsWith(s, suffix) <==> exists prefix: string :: prefix + suffix == s
  {
    if EndsWith(s, suffix) {
      assert s[..|s| - |suffix|] + suffix == s;
    }
    forall prefix: string | prefix + suffix == s
      ensures EndsWith(s, suffix)
    {
      assert s[|s| - |suffix|..] == suffix;
    }
  }

  /** Character.toLowerCase restricted to the ASCII letters. */
  function LowerChar(c: char): char
  {
    if 'A' <= c <= 'Z' then (c as int + 32) as char else c
  }

  /** String.toLowerCase restricted to the ASCII letters. */
  function Lower(s: string): (r: string)
    ensures |r| == |s|
  {
    seq(|s|, i requires 0 <= i < |s| => LowerChar(s[i]))
  }

  /**
   * String.equalsIgnoreCase. Folding only ASCII letters agrees with Java for
   * the one literal it is compared against, "content-length": the only
   * non-ASCII characters Java folds onto ASCII letters fold onto i, k or s,
   * none of which occurs in it.
   */
  predicate EqualsIgnoreCase(a: string, b: string)
  {
    |a| == |b| && forall i :: 0 <= i < |a| ==> LowerChar(a[i]) == LowerChar(b[i])
  }

  lemma EqualsIgnoreCaseIsLowerEqual(a: string, b: string)
    ensures EqualsIgnoreCase(a, b) <==> Lower(a) == Lower(b)
  {
    if Lower(a) == Lower(b) {
      forall i | 0 <= i < |a|
        ensures LowerChar(a[i]) == LowerChar(b[i])
      {
        assert Lower(a)[i] == Lower(b)[i];
      }
    }
  }
}
