/** The part of Go's `strings` package that the modelled code relies on. */
module Strings {

  /** Unicode's White_Space property, which is what `strings.TrimSpace` removes. */
  predicate IsSpace(c: char) {
    || '\t' <= c <= '\r' || c == ' ' || c == '\U{85}' || c == '\U{A0}' || c == '\U{1680}'
    || '\U{2000}' <= c <= '\U{200A}'
    || c == '\U{2028}' || c == '\U{2029}' || c == '\U{202F}' || c == '\U{205F}' || c == '\U{3000}'
  }

  function TrimLeft(s: string): string {
    if s != "" && IsSpace(s[0]) then TrimLeft(s[1..]) else s
  }

  function TrimRight(s: string): string {
    if s != "" && IsSpace(s[|s| - 1]) then TrimRight(s[..|s| - 1]) else s
  }

  /** `strings.TrimSpace`. */
  function Trim(s: string): string {
    TrimRight(TrimLeft(s))
  }

  /** No white space at either end. */
  predicate IsTrimmed(s: string) {
    s != "" ==> !IsSpace(s[0]) && !IsSpace(s[|s| - 1])
  }

  lemma {:induction false} TrimLeftCuts(s: string)
    ensures var r := TrimLeft(s);
            && |r| <= |s| && r == s[|s| - |r|..]
            && (forall i :: 0 <= i < |s| - |r| ==> IsSpace(s[i]))
            && (r != "" ==> !IsSpace(r[0]))
  {
    if s != "" && IsSpace(s[0]) {
      var rest := s[1..];
      TrimLeftCuts(rest);
      forall i | 1 <= i < |s| - |TrimLeft(rest)| ensures IsSpace(s[i]) {
        assert s[i] == rest[i - 1];
      }
    }
  }

  lemma {:induction false} TrimRightCuts(s: string)
    ensures var r := TrimRight(s);
            && |r| <= |s| && r == s[..|r|]
            && (forall i :: |r| <= i < |s| ==> IsSpace(s[i]))
            && (r != "" ==> !IsSpace(r[|r| - 1]))
  {
    if s != "" && IsSpace(s[|s| - 1]) {
      TrimRightCuts(s[..|s| - 1]);
    }
  }

  /**
    Trimming removes white space at both ends and nothing else, and keeps exactly the
    strings without outer white space.
   */
  lemma TrimCuts(s: string)
    ensures IsTrimmed(Trim(s))
    ensures exists i, j :: 0 <= i <= j <= |s| && Trim(s) == s[i..j]
              && (forall k :: 0 <= k < i || j <= k < |s| ==> IsSpace(s[k]))
    ensures Trim(s) == s <==> IsTrimmed(s)
  {
    var l := TrimLeft(s);
    var r := Trim(s);
    TrimLeftCuts(s);
    TrimRightCuts(l);
    var i := |s| - |l|;
    assert s[i..i + |r|] == r;
    assert r != "" ==> r[0] == l[0];
    forall k | 0 <= k < i || i + |r| <= k < |s| ensures IsSpace(s[k]) {
      assert k >= i ==> s[k] == l[k - i];
    }
  }
}
