/** Small vocabulary shared by every module: an optional value and Python's string trimming. */
module Prelude {

  datatype Option<+T> = None | Some(value: T) {
    function GetOr(default: T): T {
      if Some? then value else default
    }
  }

  function Min(a: int, b: int): int {
    if a < b then a else b
  }

  function Max(a: int, b: int): int {
    if a > b then a else b
  }

  /** The characters for which Python's str.isspace() holds. */
  predicate IsBlank(c: char) {
    || '\U{0009}' <= c <= '\U{000D}' || '\U{001C}' <= c <= '\U{0020}'
    || c == '\U{0085}' || c == '\U{00A0}' || c == '\U{1680}' || '\U{2000}' <= c <= '\U{200A}'
    || c == '\U{2028}' || c == '\U{2029}' || c == '\U{202F}' || c == '\U{205F}' || c == '\U{3000}'
  }

  function StripLeft(s: string): (r: string)
    ensures r == "" || !IsBlank(r[0])
    ensures |r| <= |s|
    ensures s != "" && !IsBlank(s[0]) ==> r == s
  {
    if s == "" || !IsBlank(s[0]) then s else StripLeft(s[1..])
  }

  function StripRight(s: string): (r: string)
    ensures r == "" || !IsBlank(r[|r| - 1])
    ensures r <= s
    ensures s != "" && !IsBlank(s[|s| - 1]) ==> r == s
  {
    if s == "" || !IsBlank(s[|s| - 1]) then s else StripRight(s[..|s| - 1])
  }

  function Strip(s: string): (r: string)
    ensures |r| <= |s|
    ensures Trimmed(r)
  {
    StripRight(StripLeft(s))
  }

  /** Python's s[:n]. */
  function Cut(s: string, n: nat): (r: string)
    ensures r <= s && |r| <= n
  {
    if |s| <= n then s else s[..n]
  }

  predicate Trimmed(s: string) {
    s != "" ==> !IsBlank(s[0]) && !IsBlank(s[|s| - 1])
  }

  lemma StripFixesTrimmed(s: string)
    ensures Strip(s) == s <==> Trimmed(s)
  {
  }
}
