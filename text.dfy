/** Small string helpers shared by the key and file-name parsers. */
module Text {
  import opened Wrappers

  /** Position of the first `c` in `s`, or `|s|` when `c` does not occur. */
  function IndexOf(s: string, c: char): (r: nat)
    ensures r <= |s|
    ensures r < |s| ==> s[r] == c
    ensures forall i :: 0 <= i < r ==> s[i] != c
  {
    if s == [] then 0
    else if s[0] == c then 0
    else 1 + IndexOf(s[1..], c)
  }

  /** In `a + [c] + b` the first `c` is the one right after `a`, when `a` has none. */
  lemma IndexOfAfter(a: string, c: char, b: string)
    requires c !in a
    ensures IndexOf(a + [c] + b, c) == |a|
  {
    var s := a + [c] + b;
    assert s[|a|] == c;
    assert forall i :: 0 <= i < |a| ==> s[i] == a[i];
  }

  /** Splits `s` at its first `c`: the part before (free of `c`) and the part after. */
  function SplitAt(s: string, c: char): (r: Option<(string, string)>)
    ensures r.Some? ==> c !in r.value.0 && s == r.value.0 + ([c] + r.value.1)
    ensures r.None? ==> c !in s
  {
    var i := IndexOf(s, c);
    if i == |s| then None
    else
      assert s == s[..i] + ([c] + s[i + 1..]);
      Some((s[..i], s[i + 1..]))
  }

  /** Splitting `a + [c] + b` at `c` gives back `a` and `b` when `a` has no `c`. */
  lemma SplitAtAfter(a: string, c: char, b: string)
    requires c !in a
    ensures SplitAt(a + ([c] + b), c) == Some((a, b))
  {
    var s := a + ([c] + b);
    assert s == a + [c] + b;
    IndexOfAfter(a, c, b);
    assert s[..|a|] == a;
    assert s[|a| + 1..] == b;
  }
}
