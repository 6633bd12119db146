/** White space as the program's language counts it. */
module Whitespace {
  predicate IsSpace(c: char) {
    || '\t' <= c <= '\r' || c == ' ' || c == '\U{00a0}' || c == '\U{1680}' || '\U{2000}' <= c <= '\U{200a}'
    || c == '\U{2028}' || c == '\U{2029}' || c == '\U{202f}' || c == '\U{205f}' || c == '\U{3000}' || c == '\U{feff}'
  }

  /** The text without the white space at its ends. */
  function Trim(s: string): (r: string)
    ensures r == [] || (!IsSpace(r[0]) && !IsSpace(r[|r| - 1]))
  {
    TrimEnd(TrimStart(s))
  }

  function TrimStart(s: string): (r: string)
    ensures r == [] || !IsSpace(r[0])
  {
    if s != [] && IsSpace(s[0]) then TrimStart(s[1..]) else s
  }

  function TrimEnd(s: string): (r: string)
    ensures r <= s && (r == [] || !IsSpace(r[|r| - 1]))
  {
    if s != [] && IsSpace(s[|s| - 1]) then TrimEnd(s[..|s| - 1]) else s
  }

  predicate AllSpace(s: string) {
    forall i :: 0 <= i < |s| ==> IsSpace(s[i])
  }

  /** No white space at either end. */
  predicate IsTrimmed(s: string) {
    s == [] || (!IsSpace(s[0]) && !IsSpace(s[|s| - 1]))
  }

  lemma {:induction false} TrimStartDrops(s: string) returns (front: string)
    ensures AllSpace(front) && s == front + TrimStart(s)
  {
    front := [];
    if s != [] && IsSpace(s[0]) {
      front := TrimStartDrops(s[1..]);
      front := [s[0]] + front;
    }
  }

  lemma {:induction false} TrimEndDrops(s: string) returns (back: string)
    ensures AllSpace(back) && s == TrimEnd(s) + back
  {
    back := [];
    if s != [] && IsSpace(s[|s| - 1]) {
      back := TrimEndDrops(s[..|s| - 1]);
      back := back + [s[|s| - 1]];
    }
  }

  lemma {:induction false} TrimStartOf(front: string, s: string)
    requires AllSpace(front) && (s == [] || !IsSpace(s[0]))
    ensures TrimStart(front + s) == s
  {
    if front != [] {
      TrimStartOf(front[1..], s);
      assert (front + s)[1..] == front[1..] + s;
    } else {
      assert front + s == s;
    }
  }

  lemma {:induction false} TrimEndOf(s: string, back: string)
    requires AllSpace(back) && (s == [] || !IsSpace(s[|s| - 1]))
    ensures TrimEnd(s + back) == s
    decreases |back|
  {
    if back != [] {
      var n := |back| - 1;
      TrimEndOf(s, back[..n]);
      assert (s + back)[..|s + back| - 1] == s + back[..n];
    } else {
      assert s + back == s;
    }
  }

  lemma {:induction false} TrimAllSpace(s: string)
    requires AllSpace(s)
    ensures TrimStart(s) == []
  {
    if s != [] {
      TrimAllSpace(s[1..]);
    }
  }

  /** Trimming takes white space off both ends, and nothing else. */
  lemma TrimIff(s: string, m: string)
    ensures Trim(s) == m <==> IsTrimmed(m) && exists front, back :: AllSpace(front) && AllSpace(back) && s == front + m + back
  {
    if Trim(s) == m {
      var front := TrimStartDrops(s);
      var back := TrimEndDrops(TrimStart(s));
      assert s == front + m + back;
    }
    if IsTrimmed(m) {
      if front, back :| AllSpace(front) && AllSpace(back) && s == front + m + back {
        TrimOf(front, m, back);
      }
    }
  }

  lemma TrimOf(front: string, m: string, back: string)
    requires AllSpace(front) && AllSpace(back) && IsTrimmed(m)
    ensures Trim(front + m + back) == m
  {
    assert front + m + back == front + (m + back);
    if m == [] {
      TrimAllSpace(front + back);
      assert front + m + back == front + back;
    } else {
      TrimStartOf(front, m + back);
      TrimEndOf(m, back);
    }
  }
}
