/** Small facts about strings shared by the configuration and the subscription workflow. */
module Strings {

  /** The characters after the last occurrence of `sep` in `s`, or all of `s` when `sep` does not occur. */
  function AfterLast(s: string, sep: char): (r: string)
    ensures sep !in r
    ensures |r| <= |s| && r == s[|s| - |r|..]
  {
    if s == [] then []
    else if s[|s| - 1] == sep then []
    else AfterLast(s[..|s| - 1], sep) + [s[|s| - 1]]
  }

  /** Whatever comes before the separator, the part after it is recovered when it holds no separator. */
  lemma {:induction false} AfterLastOfJoin(prefix: string, sep: char, tail: string)
    requires sep !in tail
    ensures AfterLast(prefix + [sep] + tail, sep) == tail
  {
    var s := prefix + [sep] + tail;
    if tail == [] {
      assert s[|s| - 1] == sep;
    } else {
      var init := tail[..|tail| - 1];
      assert s[..|s| - 1] == prefix + [sep] + init;
      assert s[|s| - 1] == tail[|tail| - 1];
      AfterLastOfJoin(prefix, sep, init);
      assert init + [tail[|tail| - 1]] == tail;
    }
  }
}
