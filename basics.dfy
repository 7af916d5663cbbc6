/** Small shared vocabulary: optional values and the truthiness rules the
    JavaScript front end and the Python back end apply to optional strings. */
module Basics {

  datatype Option<+T> = None | Some(value: T)

  /** A string-valued field as JavaScript `if (x)` and Python `if x:` see it:
      absent (null / None / undefined) and the empty string are both false. */
  predicate Truthy(s: Option<string>) {
    s.Some? && s.value != ""
  }

  /** `sub` occurs somewhere inside `s`. */
  ghost predicate Contains(s: string, sub: string) {
    exists i :: 0 <= i <= |s| && sub <= s[i..]
  }

  /** A string occurs at the start of any string it begins. */
  lemma ContainsPrefix(sub: string, post: string)
    ensures Contains(sub + post, sub)
  {
    assert sub <= (sub + post)[0..];
  }

  /** What occurs in `s` still occurs once something is put before `s`. */
  lemma ContainsAfter(pre: string, s: string, sub: string)
    requires Contains(s, sub)
    ensures Contains(pre + s, sub)
  {
    var i :| 0 <= i <= |s| && sub <= s[i..];
    assert (pre + s)[|pre| + i..] == s[i..];
  }
}
