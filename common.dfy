/** Shared value types: optional values, results, and file-system paths. */
module Common {

  /** An optional value, as Rust's `Option`. */
  datatype Option<+T> = None | Some(value: T)

  /** A success value or an error, as Rust's `Result`. */
  datatype Result<+T, +E> = Ok(value: T) | Err(error: E)

  /** A path is the sequence of its components; `join(c)` appends one component
      (or several, for a relative multi-component argument). */
  type Path = seq<string>

  /** The last component of a non-empty path (`file_name`). */
  function FileName(p: Path): string
    requires |p| > 0
  {
    p[|p| - 1]
  }

  /** Everything but the last component of a non-empty path (`parent`). */
  function Parent(p: Path): Path
    requires |p| > 0
  {
    p[..|p| - 1]
  }

  /** `t` is a prefix of `s`. */
  predicate IsPrefix(t: string, s: string)
  {
    |t| <= |s| && s[..|t|] == t
  }

  /** `t` occurs somewhere inside `s` (Rust's `str::contains`). */
  predicate Contains(s: string, t: string)
    decreases |s|
  {
    IsPrefix(t, s) || (|s| > 0 && Contains(s[1..], t))
  }

  /** A string that contains `t + u` contains `t`. */
  lemma {:induction false} ContainsPrefixOfPattern(s: string, t: string, u: string)
    requires Contains(s, t + u)
    ensures Contains(s, t)
    decreases |s|
  {
    if IsPrefix(t + u, s) {
      assert s[..|t|] == (s[..|t + u|])[..|t|];
      assert (t + u)[..|t|] == t;
    } else {
      ContainsPrefixOfPattern(s[1..], t, u);
    }
  }
}
