/** Output event IDs: the run, the kind and the sequence number, joined with dashes. */
module EventIDs {

  function Digit(n: nat): char
    requires n < 10
  {
    '0' + n as char
  }

  function Decimal(n: nat): string {
    if n < 10 then [Digit(n)] else Decimal(n / 10) + [Digit(n % 10)]
  }

  function EventID(runID: string, kind: string, sequence: nat): string {
    runID + "-output-" + kind + "-" + Decimal(sequence)
  }

  predicate DashFree(s: string) {
    forall i :: 0 <= i < |s| ==> s[i] != '-'
  }

  lemma {:induction false} DecimalInjective(m: nat, n: nat)
    requires Decimal(m) == Decimal(n)
    ensures m == n
    decreases m
  {
    var a, b := Decimal(m), Decimal(n);
    assert a[|a| - 1] == Digit(m % 10) && b[|b| - 1] == Digit(n % 10);
    assert a[..|a| - 1] == (if m < 10 then "" else Decimal(m / 10));
    assert b[..|b| - 1] == (if n < 10 then "" else Decimal(n / 10));
    DecimalNonEmpty(m / 10);
    DecimalNonEmpty(n / 10);
    if m >= 10 && n >= 10 {
      DecimalInjective(m / 10, n / 10);
    }
  }

  lemma {:induction false} DecimalNonEmpty(n: nat)
    ensures Decimal(n) != "" && DashFree(Decimal(n))
  {
    if n >= 10 {
      DecimalNonEmpty(n / 10);
    }
  }

  /** What follows the last dash of a string. */
  function Tail(s: string): string {
    if s == "" || s[|s| - 1] == '-' then "" else Tail(s[..|s| - 1]) + [s[|s| - 1]]
  }

  lemma {:induction false} TailAfterDash(head: string, tail: string)
    requires DashFree(tail)
    ensures Tail(head + "-" + tail) == tail
    decreases |tail|
  {
    var s := head + "-" + tail;
    if tail != "" {
      var init := tail[..|tail| - 1];
      assert s[..|s| - 1] == head + "-" + init;
      TailAfterDash(head, init);
      assert tail == init + [tail[|tail| - 1]];
    }
  }

  /** Splitting at the last dash is unambiguous. */
  lemma SplitAtLastDash(a: string, x: string, b: string, y: string)
    requires DashFree(x) && DashFree(y) && a + "-" + x == b + "-" + y
    ensures a == b && x == y
  {
    TailAfterDash(a, x);
    TailAfterDash(b, y);
    assert (a + "-" + x)[..|a|] == a && (b + "-" + y)[..|b|] == b;
  }

  /** Within one run, equal event IDs mean equal sequence numbers and kinds, whatever the kinds are. */
  lemma EventIDWithinRun(runID: string, k1: string, n1: nat, k2: string, n2: nat)
    ensures EventID(runID, k1, n1) == EventID(runID, k2, n2) <==> k1 == k2 && n1 == n2
  {
    if EventID(runID, k1, n1) == EventID(runID, k2, n2) {
      DecimalNonEmpty(n1);
      DecimalNonEmpty(n2);
      var base := runID + "-output-";
      SplitAtLastDash(base + k1, Decimal(n1), base + k2, Decimal(n2));
      DecimalInjective(n1, n2);
      assert (base + k1)[|base|..] == k1 && (base + k2)[|base|..] == k2;
    }
  }

  /** Across runs they are distinct as well, as long as the kinds contain no dash. */
  lemma EventIDAcrossRuns(r1: string, k1: string, n1: nat, r2: string, k2: string, n2: nat)
    requires DashFree(k1) && DashFree(k2) && EventID(r1, k1, n1) == EventID(r2, k2, n2)
    ensures r1 == r2 && k1 == k2 && n1 == n2
  {
    DecimalNonEmpty(n1);
    DecimalNonEmpty(n2);
    SplitAtLastDash(r1 + "-output-" + k1, Decimal(n1), r2 + "-output-" + k2, Decimal(n2));
    DecimalInjective(n1, n2);
    assert r1 + "-output-" + k1 == (r1 + "-output") + "-" + k1;
    assert r2 + "-output-" + k2 == (r2 + "-output") + "-" + k2;
    SplitAtLastDash(r1 + "-output", k1, r2 + "-output", k2);
    assert (r1 + "-output")[..|r1|] == r1 && (r2 + "-output")[..|r2|] == r2;
  }

  /** With a dash in a kind they need not be. */
  lemma DashedKindsCollide()
    ensures EventID("r", "a-output-b", 1) == EventID("r-output-a", "b", 1)
  {
    assert "r" + "-output-" + "a-output-b" == "r-output-a" + "-output-" + "b";
  }
}
