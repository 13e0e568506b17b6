/** Bytes, and where a value first comes in a sequence. */
module Sequences {
  type byte = b: nat | b < 256

  function First<T(==)>(s: seq<T>, x: T): (i: nat)
    requires x in s
    ensures i < |s| && s[i] == x && x !in s[..i]
  {
    if s[0] == x then 0
    else
      assert s == [s[0]] + s[1..];
      var i := 1 + First(s[1..], x);
      assert s[..i] == [s[0]] + s[1..][..i - 1];
      i
  }

  lemma {:induction false} FirstIs<T>(s: seq<T>, x: T, i: nat)
    requires i < |s| && s[i] == x && x !in s[..i]
    ensures First(s, x) == i
  {
    if i > 0 {
      assert s[..i][0] == s[0] && s[1..][..i - 1] == s[..i][1..];
      FirstIs(s[1..], x, i - 1);
    }
  }

  lemma FirstInPrefix<T>(s: seq<T>, t: seq<T>, x: T)
    requires x in s
    ensures First(s + t, x) == First(s, x)
  {
    var i := First(s, x);
    assert (s + t)[..i] == s[..i];
    FirstIs(s + t, x, i);
  }

  lemma FirstAfter<T>(s: seq<T>, x: T)
    requires x !in s
    ensures First(s + [x], x) == |s|
  {
    assert (s + [x])[..|s|] == s;
    FirstIs(s + [x], x, |s|);
  }
}
