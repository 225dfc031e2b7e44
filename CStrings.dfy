/**
 * The C library's view of character buffers, as the logger relies on it:
 * a string ends at its first NUL, `strncpy` copies a bounded prefix and pads
 * with NUL, and `vsnprintf` truncates its output to the buffer and terminates it.
 */
module CStrings {
  import opened Wrappers

  const NUL: char := '\0'

  /** Position of the first `c` in `s`, or `|s|` when there is none. */
  function IndexOf(s: seq<char>, c: char): (r: nat)
    ensures r <= |s|
    ensures r < |s| ==> s[r] == c
    ensures forall i :: 0 <= i < r ==> s[i] != c
  {
    if s == [] || s[0] == c then 0 else 1 + IndexOf(s[1..], c)
  }

  /** `strlen`: a sequence with no NUL is read as if terminated right after its end. */
  function CLen(s: seq<char>): (r: nat)
    ensures r <= |s|
    ensures r < |s| ==> s[r] == NUL
    ensures forall i :: 0 <= i < r ==> s[i] != NUL
  {
    IndexOf(s, NUL)
  }

  /** The text a `%s` conversion prints from `s`. */
  function CString(s: seq<char>): (r: seq<char>)
    ensures r <= s
    ensures NUL !in r
    ensures |r| < |s| ==> s[|r|] == NUL
  {
    s[..CLen(s)]
  }

  /** A sequence with no NUL is its own C string. */
  lemma CStringOfPlain(s: seq<char>)
    requires NUL !in s
    ensures CString(s) == s
  {
  }

  /** Whatever follows a NUL is invisible to `%s`. */
  lemma CStringStopsAtNul(s: seq<char>, t: seq<char>)
    requires |t| < |s| && s[..|t|] == t && s[|t|] == NUL
    ensures CString(s) == CString(t)
  {
  }

  /**
   * The contents of `dst` after `strncpy(dst, src, n)` (C11 section 7.24.2.4):
   * the first `n` characters become the C string in `src`, cut at `n`, then NUL
   * padding; the characters from `n` on are untouched.
   */
  function StrNCpyResult(dst: seq<char>, src: seq<char>, n: nat): (r: seq<char>)
    requires n <= |dst|
    ensures |r| == |dst|
    ensures forall j :: 0 <= j < |r| ==>
      r[j] == if j < Min(CLen(src), n) then src[j] else if j < n then NUL else dst[j]
  {
    var k := Min(CLen(src), n);
    src[..k] + seq(n - k, _ => NUL) + dst[n..]
  }

  /** The C string `strncpy(dst, src, n)` leaves behind when `dst[n]` is NUL. */
  function CopiedString(src: seq<char>, n: nat): (r: seq<char>)
    ensures |r| <= n && NUL !in r
    ensures r == src[..Min(CLen(src), n)]
    ensures NUL !in src ==> r == src[..Min(|src|, n)]
  {
    CString(src)[..Min(CLen(src), n)]
  }

  /**
   * When the character at `n` is already NUL, the C string left in `dst` by
   * `strncpy(dst, src, n)` is the C string of `src` cut to `n` characters.
   */
  lemma StrNCpyReadsBack(dst: seq<char>, src: seq<char>, n: nat)
    requires n < |dst| && dst[n] == NUL
    ensures CString(StrNCpyResult(dst, src, n)) == CopiedString(src, n)
  {
    var r := StrNCpyResult(dst, src, n);
    var k := Min(CLen(src), n);
    assert r[..k] == src[..k];
    assert r[k] == NUL;
    CStringStopsAtNul(r, src[..k]);
    CStringOfPlain(src[..k]);
  }

  /** `strncpy(dst, src, n)`: copy up to the first NUL of `src` or `n` characters, then pad. */
  method StrNCpy(dst: array<char>, src: seq<char>, n: nat)
    requires n <= dst.Length
    modifies dst
    ensures dst[..] == StrNCpyResult(old(dst[..]), src, n)
  {
    ghost var r := StrNCpyResult(dst[..], src, n);
    ghost var k := Min(CLen(src), n);
    var i := 0;
    while i < n && i < |src| && src[i] != NUL
      invariant i <= k
      invariant forall j :: 0 <= j < dst.Length ==> dst[j] == if j < i then r[j] else old(dst[j])
    {
      dst[i] := src[i];
      i := i + 1;
    }
    while i < n
      invariant k <= i <= n
      invariant forall j :: 0 <= j < dst.Length ==> dst[j] == if j < i then r[j] else old(dst[j])
    {
      dst[i] := NUL;
      i := i + 1;
    }
    assert dst[..] == r;
  }

  /** What `vsnprintf` leaves in a buffer of `size` characters for the rendered text `s`. */
  function Truncated(s: seq<char>, size: nat): (r: seq<char>)
    requires size > 0
    ensures |r| == Min(|s|, size - 1)
    ensures r <= s
    ensures |s| < size ==> r == s
  {
    s[..Min(|s|, size - 1)]
  }

  /**
   * The bounded write of `vsnprintf(buf, buf.Length, ...)` once the text is
   * rendered: at most `buf.Length - 1` characters, then a terminating NUL;
   * nothing past the NUL is written.
   */
  method TruncateInto(buf: array<char>, s: seq<char>)
    requires buf.Length > 0
    modifies buf
    ensures buf[..|Truncated(s, buf.Length)|] == Truncated(s, buf.Length)
    ensures buf[|Truncated(s, buf.Length)|] == NUL
    ensures buf[|Truncated(s, buf.Length)| + 1..] == old(buf[|Truncated(s, buf.Length)| + 1..])
  {
    var k := Min(|s|, buf.Length - 1);
    var i := 0;
    while i < k
      invariant i <= k
      invariant buf[..i] == s[..i]
      invariant buf[k..] == old(buf[k..])
    {
      buf[i] := s[i];
      i := i + 1;
    }
    buf[k] := NUL;
    assert buf[..k] == s[..k];
  }
}
