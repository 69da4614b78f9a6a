/** White space as the source's string functions see it. */
module Text {

  predicate IsSpace(c: char) {
    || c in {' ', '\t', '\n', '\r', '\U{000B}', '\U{000C}', '\U{0085}', '\U{00A0}', '\U{1680}'}
    || '\U{2000}' <= c <= '\U{200A}'
    || c in {'\U{2028}', '\U{2029}', '\U{202F}', '\U{205F}', '\U{3000}'}
  }

  function TrimLeft(s: string): string {
    if s != "" && IsSpace(s[0]) then TrimLeft(s[1..]) else s
  }

  function TrimRight(s: string): string {
    if s != "" && IsSpace(s[|s| - 1]) then TrimRight(s[..|s| - 1]) else s
  }

  /** The text without the white space around it. */
  function Trim(s: string): string {
    TrimRight(TrimLeft(s))
  }

  lemma {:induction false} TrimLeftStart(s: string)
    ensures TrimLeft(s) != "" ==> !IsSpace(TrimLeft(s)[0])
  {
    if s != "" && IsSpace(s[0]) {
      TrimLeftStart(s[1..]);
    }
  }

  lemma {:induction false} TrimRightEnd(s: string)
    ensures TrimRight(s) <= s
    ensures TrimRight(s) != "" ==> !IsSpace(TrimRight(s)[|TrimRight(s)| - 1])
  {
    if s != "" && IsSpace(s[|s| - 1]) {
      TrimRightEnd(s[..|s| - 1]);
    }
  }

  /** What has been trimmed stays as it is. */
  lemma TrimTwice(s: string)
    ensures Trim(Trim(s)) == Trim(s)
  {
    TrimLeftStart(s);
    TrimRightEnd(TrimLeft(s));
  }

  /** The text from `m` to `n`, with nothing but white space around it. */
  predicate Core(s: string, m: nat, n: nat) {
    m <= n <= |s| && (forall i :: 0 <= i < m ==> IsSpace(s[i])) && (forall i :: n <= i < |s| ==> IsSpace(s[i]))
  }

  lemma {:induction false} TrimLeftDrops(s: string) returns (n: nat)
    ensures n <= |s| && TrimLeft(s) == s[n..] && forall i :: 0 <= i < n ==> IsSpace(s[i])
  {
    hide IsSpace;
    n := 0;
    if s != "" && IsSpace(s[0]) {
      n := TrimLeftDrops(s[1..]);
      assert s[1..][n..] == s[n + 1..];
      assert forall i :: 0 <= i < n ==> s[i + 1] == s[1..][i];
      n := n + 1;
    }
  }

  lemma {:induction false} TrimRightDrops(s: string) returns (n: nat)
    ensures n <= |s| && TrimRight(s) == s[..n] && forall i :: n <= i < |s| ==> IsSpace(s[i])
  {
    hide IsSpace;
    n := |s|;
    if s != "" && IsSpace(s[|s| - 1]) {
      var init := s[..|s| - 1];
      n := TrimRightDrops(init);
      assert init[..n] == s[..n];
      assert forall i :: 0 <= i < |init| ==> s[i] == init[i];
    }
  }

  /** Trimming takes away white space at both ends, all of it, and nothing else. */
  lemma TrimMeans(s: string) returns (m: nat, n: nat)
    ensures Core(s, m, n) && Trim(s) == s[m..n]
    ensures Trim(s) != "" ==> !IsSpace(Trim(s)[0]) && !IsSpace(Trim(s)[|Trim(s)| - 1])
  {
    hide IsSpace;
    var t := TrimLeft(s);
    m := TrimLeftDrops(s);
    var k := TrimRightDrops(t);
    TrimLeftStart(s);
    TrimRightEnd(t);
    n := m + k;
    assert t[..k] == s[m..n];
    assert forall i :: 0 <= i < |t| ==> s[m + i] == t[i];
    forall i | n <= i < |s| ensures IsSpace(s[i]) {
      assert s[i] == t[i - m];
    }
  }
}
