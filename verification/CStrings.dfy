/** C strings in fixed-size buffers. */
module CStrings {

  /** strnlen and a copy of that length: the characters before the first NUL, at most n. */
  function CString(s: string, n: nat): (r: string)
    ensures r <= s && |r| <= n && '\0' !in r
    ensures |r| < n && |r| < |s| ==> s[|r|] == '\0'
  {
    if n == 0 || s == [] || s[0] == '\0' then [] else [s[0]] + CString(s[1..], n - 1)
  }

  /** What a zeroed buffer of n characters holds after s was copied to its front. */
  function Padded(s: string, n: nat): (r: string)
    requires |s| <= n
    ensures |r| == n && s <= r
    ensures forall i :: |s| <= i < n ==> r[i] == '\0'
  {
    s + seq(n - |s|, _ => '\0')
  }

  /** Reading a zeroed buffer back gives the C string that was copied into it. */
  lemma CStringPadded(s: string, n: nat, m: nat)
    requires |s| <= n
    ensures CString(Padded(s, n), m) == CString(s, m)
  {
    CStringUnique(Padded(s, n), m, CString(s, m));
  }

  /** A prefix without NUL that is as long as allowed or ends before one is the C string. */
  lemma {:induction false} CStringUnique(s: string, n: nat, r: string)
    requires r <= s && |r| <= n && '\0' !in r
    requires |r| == n || |r| == |s| || s[|r|] == '\0'
    ensures CString(s, n) == r
  {
    if r != [] {
      CStringUnique(s[1..], n - 1, r[1..]);
    }
  }
}
