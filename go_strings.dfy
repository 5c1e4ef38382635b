/** The part of Go's `strings` package the model needs: splitting at a one-character separator. */
module GoStrings {
  /** strings.Index for a one-character separator: the first position of c in s, or -1. */
  function IndexOf(s: string, c: char): (i: int)
    ensures -1 <= i < |s|
    ensures i == -1 <==> c !in s
    ensures 0 <= i ==> s[i] == c && c !in s[..i]
  {
    if |s| == 0 then -1
    else if s[0] == c then 0
    else
      var j := IndexOf(s[1..], c);
      if j == -1 then -1
      else
        assert s[..j + 1] == [s[0]] + s[1..][..j];
        j + 1
  }

  /** strings.SplitN(s, sep, 2) for a one-character separator. */
  function SplitN2(s: string, sep: char): (segs: seq<string>)
    ensures sep !in s ==> segs == [s]
    ensures sep in s ==> |segs| == 2 && sep !in segs[0] && segs[0] + [sep] + segs[1] == s
  {
    var i := IndexOf(s, sep);
    if i == -1 then [s]
    else
      assert s[..i] + [sep] + s[i + 1..] == s;
      [s[..i], s[i + 1..]]
  }

  /** Joining a key free of the separator to any value and splitting again gives the pair back. */
  lemma SplitJoin(key: string, sep: char, value: string)
    requires sep !in key
    ensures SplitN2(key + [sep] + value, sep) == [key, value]
  {
    var s := key + [sep] + value;
    assert s[|key|] == sep;
    var segs := SplitN2(s, sep);
    assert IndexOf(s, sep) == |key| by {
      assert s[..|key|] == key;
    }
    assert segs[0] == key by {
      assert segs[0] == (segs[0] + [sep] + segs[1])[..|key|];
    }
    assert segs[1] == value by {
      assert segs[1] == (segs[0] + [sep] + segs[1])[|key| + 1..];
      assert s[|key| + 1..] == value;
    }
  }
}
