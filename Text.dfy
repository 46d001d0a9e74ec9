/** Small facts about strings used to show that the request strings the tools
    build can be taken apart again. */
module Text {
  import opened Json

  /** The position of the last occurrence of `c` in `s`, if any. */
  function LastIndexOf(s: string, c: char): (r: Option<nat>)
    ensures r.None? <==> c !in s
    ensures r.Some? ==> r.value < |s| && s[r.value] == c
    ensures r.Some? ==> forall k :: r.value < k < |s| ==> s[k] != c
  {
    if |s| == 0 then None
    else if s[|s| - 1] == c then Some(|s| - 1)
    else LastIndexOf(s[..|s| - 1], c)
  }

  /** Splits `s` at the last occurrence of `c`, dropping the separator. */
  function SplitLast(s: string, c: char): (r: Option<(string, string)>)
    ensures r.None? <==> c !in s
    ensures r.Some? ==> s == r.value.0 + [c] + r.value.1 && c !in r.value.1
  {
    match LastIndexOf(s, c)
    case None => None
    case Some(i) =>
      assert s == s[..i] + [c] + s[i + 1..];
      Some((s[..i], s[i + 1..]))
  }

  /** Joining two strings with a separator that the second one does not
      contain can be undone by splitting at the last separator, whatever the
      first string holds. */
  lemma SplitLastOfJoin(a: string, c: char, b: string)
    requires c !in b
    ensures SplitLast(a + [c] + b, c) == Some((a, b))
  {
    var s := a + [c] + b;
    forall k | |a| < k < |s| ensures s[k] != c {
      assert s[k] == b[k - |a| - 1];
    }
    assert s[|a|] == c;
    var i := LastIndexOf(s, c).value;
    assert i == |a|;
    assert s[..i] == a;
    assert s[i + 1..] == b;
  }
}
