/** Values shared by every module of the model: Python's optional strings and
    their truthiness, JSON object fields, raised exceptions, and the two string
    operations the service uses (`str.startswith` and `str.replace(old, new, 1)`). */
module Common {

  /** `T | None` */
  datatype Option<+T> = None | Some(value: T)

  /** A key of a received JSON object: missing, present with `null`, or present with a value. */
  datatype Field<+T> = Absent | Null | Given(value: T)

  /** `data.get(key, default)`: the default only when the key is missing;
      an explicit `null` reads as `None`. */
  function Get<T>(f: Field<T>, default: Option<T>): Option<T>
  {
    match f
    case Absent => default
    case Null => None
    case Given(v) => Some(v)
  }

  /** The exceptions the core raises: FastAPI's `HTTPException`, or any other
      exception carrying the text `str(e)`. */
  datatype Error = HttpError(status: int, detail: string) | Exception(message: string)

  /** The result of a call that either returns a value or raises. */
  datatype Result<+T> = Ok(value: T) | Raise(error: Error)

  /** Python truthiness of `str | None`: false for `None` and for `""`. */
  predicate Truthy(s: Option<string>)
  {
    s.Some? && s.value != ""
  }

  /** `s or fallback` for `s: str | None`. */
  function Or(s: Option<string>, fallback: string): string
  {
    if Truthy(s) then s.value else fallback
  }

  /** `s.startswith(prefix)` */
  predicate StartsWith(s: string, prefix: string)
  {
    |prefix| <= |s| && s[..|prefix|] == prefix
  }

  /** `pat` occurs somewhere in `s` (Python's `pat in s`). */
  predicate Occurs(s: string, pat: string)
    decreases |s|
  {
    StartsWith(s, pat) || (|s| > 0 && Occurs(s[1..], pat))
  }

  /** `s.replace(pat, rep, 1)`: the first occurrence of `pat`, scanning from the
      left, is replaced by `rep`; with no occurrence `s` is returned unchanged. */
  function ReplaceFirst(s: string, pat: string, rep: string): (r: string)
    ensures !Occurs(s, pat) ==> r == s
    ensures StartsWith(s, pat) ==> r == rep + s[|pat|..]
    ensures Occurs(s, pat) ==> |r| == |s| - |pat| + |rep|
    decreases |s|
  {
    if StartsWith(s, pat) then rep + s[|pat|..]
    else if |s| == 0 then s
    else [s[0]] + ReplaceFirst(s[1..], pat, rep)
  }

  /** A string whose first character differs from a prefix's does not start with it. */
  lemma DifferentFirstChar(m: string, p: string)
    requires |m| > 0 && |p| > 0 && m[0] != p[0]
    ensures !StartsWith(m, p)
  {
    if |p| <= |m| {
      assert m[..|p|][0] != p[0];
    }
  }
}
