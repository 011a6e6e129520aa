/** Key-binding references shared by both input managers: a key code reference is written
  * `key#mods` and a scan code reference `scan$mods`, both numbers in decimal. */
module Keys {
  import opened JavaStrings

  /** The GLFW action codes passed to the key callback. */
  const GLFW_RELEASE: int := 0
  const GLFW_PRESS: int := 1
  const GLFW_REPEAT: int := 2

  function KeyRef(key: int, mods: int): (r: string)
    ensures '#' in r && '$' !in r
  {
    IntToString(key) + "#" + IntToString(mods)
  }

  function ScanRef(scan: int, mods: int): (r: string)
    ensures '$' in r && '#' !in r
  {
    IntToString(scan) + "$" + IntToString(mods)
  }

  /** Two texts each glued to a tail by a separator absent from both are equal when the results are. */
  lemma SplitAtSeparator(x: string, y: string, u: string, w: string, sep: char)
    requires sep !in x && sep !in u
    requires x + [sep] + y == u + [sep] + w
    ensures x == u && y == w
  {
    var s := x + [sep] + y;
    assert |x| == |u| by {
      assert s[|x|] == sep && s[|u|] == sep;
    }
    assert x == s[..|x|] == u;
    assert y == s[|x| + 1..] == w;
  }

  /** A key code reference names exactly one (key, mods) pair. */
  lemma KeyRefInjective(k1: int, m1: int, k2: int, m2: int)
    requires KeyRef(k1, m1) == KeyRef(k2, m2)
    ensures k1 == k2 && m1 == m2
  {
    SplitAtSeparator(IntToString(k1), IntToString(m1), IntToString(k2), IntToString(m2), '#');
    IntToStringInjective(k1, k2);
    IntToStringInjective(m1, m2);
  }

  /** A scan code reference names exactly one (scan, mods) pair. */
  lemma ScanRefInjective(s1: int, m1: int, s2: int, m2: int)
    requires ScanRef(s1, m1) == ScanRef(s2, m2)
    ensures s1 == s2 && m1 == m2
  {
    SplitAtSeparator(IntToString(s1), IntToString(m1), IntToString(s2), IntToString(m2), '$');
    IntToStringInjective(s1, s2);
    IntToStringInjective(m1, m2);
  }
}
