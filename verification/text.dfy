/** Character scanning used by the path and URI modules. */
module Text {

  /** No character of `s` belongs to `stops`. */
  predicate Avoids(s: string, stops: set<char>)
  {
    forall k :: 0 <= k < |s| ==> s[k] !in stops
  }

  /** `s` begins with `p`. */
  predicate StartsWith(s: string, p: string)
  {
    |p| <= |s| && s[..|p|] == p
  }

  /** The index of the first character of `s` that is in `stops`, or `|s|` when there is none. */
  function IndexOfAny(s: string, stops: set<char>): (i: nat)
    ensures i <= |s|
    ensures Avoids(s[..i], stops)
    ensures i < |s| ==> s[i] in stops
    decreases |s|
  {
    if |s| == 0 || s[0] in stops then 0 else 1 + IndexOfAny(s[1..], stops)
  }

  /** A prefix free of stop characters is skipped over whole. */
  lemma {:induction false} IndexOfAnyAfter(x: string, t: string, stops: set<char>)
    requires Avoids(x, stops)
    ensures IndexOfAny(x + t, stops) == |x| + IndexOfAny(t, stops)
    decreases |x|
  {
    if |x| > 0 {
      assert (x + t)[0] == x[0];
      assert (x + t)[1..] == x[1..] + t;
      IndexOfAnyAfter(x[1..], t, stops);
    } else {
      assert x + t == t;
    }
  }

  lemma AvoidsIndexOfAny(s: string, stops: set<char>)
    requires Avoids(s, stops)
    ensures IndexOfAny(s, stops) == |s|
  {
    IndexOfAnyAfter(s, "", stops);
    assert s + "" == s;
  }

  lemma AppendAssoc(a: string, b: string, c: string)
    ensures a + (b + c) == a + b + c
  {
  }

  /** The length of the longest prefix of `s` that ends in `/` (0 when `s` has no `/`). */
  function LastSlashEnd(s: string): (e: nat)
    ensures e <= |s|
    ensures e == 0 || s[e - 1] == '/'
    ensures Avoids(s[e..], {'/'})
    decreases |s|
  {
    if |s| == 0 then 0
    else if s[|s| - 1] == '/' then |s|
    else LastSlashEnd(s[..|s| - 1])
  }
}
