/**
 * NUL-terminated strings in a character buffer: where one ends, `strlen`,
 * and the copy `strcpy` and `strcat` make.
 */
module CStrings {

  /** The text of a C string holds no NUL character. */
  predicate IsCString(s: string) { forall i :: 0 <= i < |s| ==> s[i] != '\0' }

  /** The index of the first NUL in a buffer, or its length when there is none. */
  function NulAt(s: seq<char>): (k: nat)
    ensures k <= |s| && (k < |s| ==> s[k] == '\0')
    ensures forall j :: 0 <= j < k ==> s[j] != '\0'
  {
    if s == [] || s[0] == '\0' then 0 else 1 + NulAt(s[1..])
  }

  /** The C string a buffer holds: everything before its first NUL. */
  function Text(s: seq<char>): (r: string)
    ensures IsCString(r) && |r| <= |s| && r == s[..|r|]
    ensures |r| == |s| || s[|r|] == '\0'
  {
    s[..NulAt(s)]
  }

  /** A buffer that starts with a C string and its NUL holds that string. */
  lemma TextOf(s: seq<char>, t: string)
    requires IsCString(t) && |t| < |s| && s[..|t|] == t && s[|t|] == '\0'
    ensures Text(s) == t
  {
    forall j | 0 <= j < |t| ensures s[j] != '\0' {
      assert s[j] == s[..|t|][j];
    }
  }

  /** `strlen`: a scan for the NUL. */
  method Strlen(a: array<char>) returns (n: nat)
    requires exists k :: 0 <= k < a.Length && a[k] == '\0'
    ensures n == NulAt(a[..]) && n < a.Length
  {
    ghost var k :| 0 <= k < a.Length && a[k] == '\0';
    assert NulAt(a[..]) <= k;
    n := 0;
    while a[n] != '\0'
      invariant n <= NulAt(a[..]) < a.Length
      decreases a.Length - n
    {
      n := n + 1;
    }
  }

  /** `strcpy(dst + at, src)`: the characters of `src`, then a NUL. */
  method CopyAt(dst: array<char>, at: nat, src: string)
    requires at + |src| < dst.Length
    modifies dst
    ensures dst[..at] == old(dst[..at])
    ensures dst[at..at + |src|] == src && dst[at + |src|] == '\0'
    ensures dst[at + |src| + 1..] == old(dst[at + |src| + 1..])
  {
    for i := 0 to |src|
      invariant dst[..at] == old(dst[..at])
      invariant dst[at..at + i] == src[..i]
      invariant dst[at + |src|..] == old(dst[at + |src|..])
    {
      dst[at + i] := src[i];
    }
    dst[at + |src|] := '\0';
  }
}
