/** Strings as the standard library handles them: find, white space, trimming. */
module Strings {
  // ---------------------------------------------------------------- characters

  predicate IsSpace(c: char) {
    c in {' ', '\n', '\t', '\U{000B}', '\r', '\U{000C}'}
  }

  predicate Blank(s: string) {
    forall i :: 0 <= i < |s| ==> IsSpace(s[i])
  }

  /** find( c ), with the length of the string for npos */
  function Index(s: string, c: char): (i: nat)
    ensures i <= |s| && (forall k :: 0 <= k < i ==> s[k] != c) && (i < |s| ==> s[i] == c)
  {
    if s == "" || s[0] == c then 0 else 1 + Index(s[1..], c)
  }

  predicate Occurs(s: string, w: string, i: int) {
    0 <= i <= |s| - |w| && s[i..i + |w|] == w
  }

  predicate Contains(s: string, w: string) {
    exists i :: 0 <= i <= |s| - |w| && Occurs(s, w, i)
  }

  lemma OccursHead(s: string, w: string)
    requires w != ""
    ensures forall i :: Occurs(s, w, i) ==> s[i] == w[0]
  {
    assert forall i :: Occurs(s, w, i) ==> s[i] == s[i..i + |w|][0];
  }

  /** A word occurs in a part only if it occurs in the whole. */
  lemma ContainsPart(s: string, w: string, lo: nat, hi: nat)
    requires lo <= hi <= |s| && Contains(s[lo..hi], w)
    ensures Contains(s, w)
  {
    var t := s[lo..hi];
    var i :| 0 <= i <= |t| - |w| && Occurs(t, w, i);
    forall k | 0 <= k < |w| ensures s[lo + i + k] == w[k] {
      assert t[i..i + |w|][k] == t[i + k];
    }
    assert Occurs(s, w, lo + i);
  }

  /** A word that has none of the characters of `mid` occurs in one of the parts around it. */
  lemma ContainsAround(a: string, mid: string, b: string, w: string)
    requires mid != "" && w != "" && forall i :: 0 <= i < |mid| ==> mid[i] !in w
    requires Contains(a + mid + b, w)
    ensures Contains(a, w) || Contains(b, w)
  {
    var s := a + mid + b;
    var i :| 0 <= i <= |s| - |w| && Occurs(s, w, i);
    assert forall k :: 0 <= k < |w| ==> s[i + k] == w[k];
    assert forall k :: 0 <= k < |mid| ==> s[|a| + k] == mid[k];
    var k := if i < |a| then |a| else i;
    assert i <= k < i + |w| ==> s[k] == s[i + (k - i)] && s[k] in w;
    assert |a| <= k < |a| + |mid| ==> s[k] == s[|a| + (k - |a|)] && s[k] !in w;
    if i + |w| <= |a| {
      assert s[i..i + |w|] == a[i..i + |w|];
      assert Occurs(a, w, i);
    } else if i >= |a| + |mid| {
      var j := i - |a| - |mid|;
      assert s[i..i + |w|] == b[j..j + |w|];
      assert Occurs(b, w, j);
    }
  }

  // ---------------------------------------------------------------- trim

  predicate AllSpace(s: string, lo: int, hi: int) {
    forall k :: lo <= k < hi && 0 <= k < |s| ==> IsSpace(s[k])
  }

  function TrimLeft(s: string): (r: string)
    ensures |r| <= |s| && r == s[|s| - |r|..] && AllSpace(s, 0, |s| - |r|) && (r != "" ==> !IsSpace(r[0]))
  {
    if s != "" && IsSpace(s[0]) then
      var r := TrimLeft(s[1..]);
      assert forall k :: 1 <= k < |s| - |r| ==> s[k] == s[1..][k - 1];
      r
    else s
  }

  function TrimRight(s: string): (r: string)
    ensures |r| <= |s| && r == s[..|r|] && AllSpace(s, |r|, |s|) && (r != "" ==> !IsSpace(r[|r| - 1]))
  {
    if s != "" && IsSpace(s[|s| - 1]) then
      var r := TrimRight(s[..|s| - 1]);
      assert forall k :: |r| <= k < |s| - 1 ==> s[k] == s[..|s| - 1][k];
      r
    else s
  }

  function Trim(s: string): string {
    TrimRight(TrimLeft(s))
  }

  predicate Trimmed(s: string) {
    s == "" || (!IsSpace(s[0]) && !IsSpace(s[|s| - 1]))
  }

  /** Trimming takes white space off both ends, and all of it. */
  lemma TrimSplits(s: string) returns (lo: nat, hi: nat)
    ensures lo <= hi <= |s| && Trim(s) == s[lo..hi] && AllSpace(s, 0, lo) && AllSpace(s, hi, |s|)
    ensures lo < hi ==> !IsSpace(s[lo]) && !IsSpace(s[hi - 1])
  {
    hide IsSpace, TrimLeft, TrimRight;
    var l := TrimLeft(s);
    var r := TrimRight(l);
    lo, hi := |s| - |l|, |s| - |l| + |r|;
    assert forall k :: hi <= k < |s| ==> s[k] == l[k - lo];
  }

  lemma TrimAt(s: string, lo: nat, hi: nat)
    requires lo <= hi <= |s| && AllSpace(s, 0, lo) && AllSpace(s, hi, |s|)
    requires lo < hi ==> !IsSpace(s[lo]) && !IsSpace(s[hi - 1])
    ensures Trim(s) == s[lo..hi]
  {
    var l, h := TrimSplits(s);
  }

  lemma TrimAround(a: string, v: string, b: string)
    requires Blank(a) && Blank(b) && Trimmed(v)
    ensures Trim(a + v + b) == v
  {
    var s := a + v + b;
    assert forall k :: 0 <= k < |a| ==> s[k] == a[k];
    assert forall k :: |a| + |v| <= k < |s| ==> s[k] == b[k - |a| - |v|];
    TrimAt(s, |a|, |a| + |v|);
  }

  lemma TrimBlank(s: string)
    ensures Trim(s) == "" <==> Blank(s)
  {
    var lo, hi := TrimSplits(s);
  }
}

/** C strings in fixed buffers. */
module CStrings {
  /** A C string in a buffer: the characters before the first NUL. */
  function StrLen(s: seq<char>): (n: nat)
    ensures n <= |s| && (n < |s| ==> s[n] == '\0') && forall i :: 0 <= i < n ==> s[i] != '\0'
  {
    if s == [] || s[0] == '\0' then 0 else 1 + StrLen(s[1..])
  }

  function CString(s: seq<char>): string {
    s[..StrLen(s)]
  }

  predicate Ended(s: seq<char>) {
    StrLen(s) < |s|
  }

  lemma StrLenIs(s: seq<char>, n: nat)
    requires n < |s| && s[n] == '\0' && forall i :: 0 <= i < n ==> s[i] != '\0'
    ensures StrLen(s) == n
  {
  }

  /** strncat, into a buffer that has room */
  method Append(buf: array<char>, s: string)
    requires Ended(buf[..]) && StrLen(buf[..]) + |s| < buf.Length && '\0' !in s
    modifies buf
    ensures Ended(buf[..]) && CString(buf[..]) == old(CString(buf[..])) + s
  {
    var len := StrLen(buf[..]);
    for i := 0 to |s|
      invariant forall j :: 0 <= j < len ==> buf[j] == old(buf[j])
      invariant forall j :: 0 <= j < i ==> buf[len + j] == s[j]
    {
      buf[len + i] := s[i];
    }
    buf[len + |s|] := '\0';
    assert forall j :: 0 <= j < len ==> old(buf[..])[j] == buf[j];
    assert forall j :: len <= j < len + |s| ==> buf[j] == s[j - len];
    StrLenIs(buf[..], len + |s|);
    assert buf[..][..len + |s|] == old(CString(buf[..])) + s;
  }

  /** strncpy, into a buffer that has room */
  method Store(buf: array<char>, s: string)
    requires |s| < buf.Length && '\0' !in s
    modifies buf
    ensures Ended(buf[..]) && CString(buf[..]) == s
  {
    buf[0] := '\0';
    StrLenIs(buf[..], 0);
    assert CString(buf[..]) == "";
    Append(buf, s);
    assert "" + s == s;
  }

  /** The first position from `i` on whose character is, or is not, among `delims`. */
  function Span(s: string, i: nat, delims: string, stop: bool): (k: nat)
    requires i <= |s|
    ensures i <= k <= |s| && (forall j :: i <= j < k ==> (s[j] in delims) != stop)
      && (k < |s| ==> (s[k] in delims) == stop)
    decreases |s| - i
  {
    if i == |s| || (s[i] in delims) == stop then i else Span(s, i + 1, delims, stop)
  }

  /** What the first strtok( s, delims ) leaves in `s`: delimiters in front of the token stay. */
  function StrTok(s: string, delims: string): string {
    s[..Span(s, Span(s, 0, delims, false), delims, true)]
  }
}
