/**
 * `truncate` (main.go:373-382): cut a string to at most `l` runes. A Dafny
 * `char` is a Unicode scalar value, so a `string` here is Go's `[]rune(s)`.
 */
module Text {

  function Min(a: int, b: int): int { if a <= b then a else b }

  /** The first `l` runes of `s`, all of `s` when it is shorter, and nothing
      when `l` is not positive. */
  function Truncate(s: string, l: int): (r: string)
    ensures |r| == if l <= 0 then 0 else Min(|s|, l)
    ensures r == s[..|r|]
  {
    if l <= 0 then ""
    else if |s| < l then s
    else s[..l]
  }

  /** Truncating twice to the same length changes nothing more. */
  lemma TruncateIdempotent(s: string, l: int)
    ensures Truncate(Truncate(s, l), l) == Truncate(s, l)
  {
  }

  /** A string that already fits is returned unchanged. */
  lemma TruncateShort(s: string, l: int)
    requires 0 < l && |s| <= l
    ensures Truncate(s, l) == s
  {
  }
}
