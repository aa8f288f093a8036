/**
 Small string functions shared by the parsers.
 */
module Text {
  predicate HasPrefix(s: string, p: string) {
    |p| <= |s| && s[..|p|] == p
  }

  predicate HasSuffix(s: string, p: string) {
    |p| <= |s| && s[|s| - |p|..] == p
  }

  predicate Contains(s: string, p: string) {
    HasPrefix(s, p) || (s != "" && Contains(s[1..], p))
  }

  lemma PrefixMeans(s: string, p: string)
    ensures HasPrefix(s, p) <==> exists rest :: s == p + rest
  {
    if HasPrefix(s, p) {
      assert s == p + s[|p|..];
    }
  }

  lemma SuffixMeans(s: string, p: string)
    ensures HasSuffix(s, p) <==> exists before :: s == before + p
  {
    if HasSuffix(s, p) {
      assert s == s[..|s| - |p|] + p;
    }
  }

  lemma {:induction false} ContainedAt(s: string, p: string) returns (before: string, rest: string)
    requires Contains(s, p)
    ensures s == before + p + rest
  {
    if HasPrefix(s, p) {
      before, rest := "", s[|p|..];
    } else {
      before, rest := ContainedAt(s[1..], p);
      before := [s[0]] + before;
    }
  }

  lemma {:induction false} ContainsMiddle(before: string, p: string, rest: string)
    ensures Contains(before + p + rest, p)
    decreases |before|
  {
    var s := before + p + rest;
    if before == "" {
      assert s[..|p|] == p;
    } else {
      assert s[1..] == before[1..] + p + rest;
      ContainsMiddle(before[1..], p, rest);
    }
  }

  lemma ContainsMeans(s: string, p: string)
    ensures Contains(s, p) <==> exists before, rest :: s == before + p + rest
  {
    if Contains(s, p) {
      var before, rest := ContainedAt(s, p);
    }
    if before, rest :| s == before + p + rest {
      ContainsMiddle(before, p, rest);
    }
  }

  function LastIndex(s: string, c: char): (i: int)
    ensures -1 <= i < |s|
    ensures i >= 0 ==> s[i] == c && forall k | i < k < |s| :: s[k] != c
    ensures i < 0 ==> c !in s
  {
    if s == "" then -1
    else if s[|s| - 1] == c then |s| - 1
    else LastIndex(s[..|s| - 1], c)
  }
}
