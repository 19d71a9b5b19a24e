/** Counting maximal runs: maximal stretches of consecutive characters that all satisfy a
    predicate. `RunCount` is the defining count (positions where a run begins); `Scan` counts
    the same runs in one left-to-right pass and is what the proofs about `split` reason with. */
module Runs {
  import opened JsString

  /** A maximal run of characters satisfying `p` begins at position `i` of `s`. */
  predicate StartsRun(s: string, p: CharClass, i: nat)
    requires i < |s|
  {
    In(s[i], p) && (i == 0 || !In(s[i - 1], p))
  }

  /** The number of positions at or after `k` where a maximal run of `p` begins. */
  function RunStartsFrom(s: string, p: CharClass, k: nat): (n: nat)
    requires k <= |s|
    ensures n <= |s| - k
    decreases |s| - k
  {
    if k == |s| then 0
    else (if StartsRun(s, p, k) then 1 else 0) + RunStartsFrom(s, p, k + 1)
  }

  /** The number of maximal runs of characters of `s` satisfying `p`. */
  function RunCount(s: string, p: CharClass): (n: nat)
    ensures n <= |s|
  {
    RunStartsFrom(s, p, 0)
  }

  /** One pass over `s` counting the runs of `p` it enters; `inRun` says whether the character
      before `s` satisfied `p`, so that a run continuing into `s` is not counted again. */
  function Scan(s: string, p: CharClass, inRun: bool): (n: nat)
    ensures n <= |s|
  {
    if s == [] then 0
    else if In(s[0], p) then (if inRun then 0 else 1) + Scan(s[1..], p, true)
    else Scan(s[1..], p, false)
  }

  lemma {:induction false} ScanFrom(s: string, p: CharClass, k: nat)
    requires k <= |s|
    ensures Scan(s[k..], p, k > 0 && In(s[k - 1], p)) == RunStartsFrom(s, p, k)
    decreases |s| - k
  {
    if k < |s| {
      assert s[k..][0] == s[k];
      assert s[k..][1..] == s[k + 1..];
      ScanFrom(s, p, k + 1);
    }
  }

  /** The one-pass count and the defining count agree. */
  lemma ScanIsRunCount(s: string, p: CharClass)
    ensures Scan(s, p, false) == RunCount(s, p)
  {
    ScanFrom(s, p, 0);
    assert s[0..] == s;
  }

  /** A prefix inside one run adds one run if it starts it, and none if it continues one. */
  lemma {:induction false} ScanRun(a: string, t: string, p: CharClass, inRun: bool)
    requires All(a, p)
    ensures Scan(a + t, p, inRun) == (if a != [] && !inRun then 1 else 0) + Scan(t, p, inRun || a != [])
  {
    if a == [] {
      assert a + t == t;
    } else {
      assert (a + t)[0] == a[0];
      assert (a + t)[1..] == a[1..] + t;
      ScanRun(a[1..], t, p, true);
    }
  }

  /** A non-empty prefix outside every run ends whatever run came before it. */
  lemma {:induction false} ScanGap(a: string, t: string, p: CharClass, inRun: bool)
    requires a != [] && NoneOf(a, p)
    ensures Scan(a + t, p, inRun) == Scan(t, p, false)
  {
    assert (a + t)[0] == a[0];
    assert (a + t)[1..] == a[1..] + t;
    if |a| > 1 {
      ScanGap(a[1..], t, p, false);
    } else {
      assert a[1..] + t == t;
    }
  }

  /** Whether a run was open does not matter when the next character is outside every run. */
  lemma ScanRestart(t: string, p: CharClass, inRun: bool)
    requires t == [] || !In(t[0], p)
    ensures Scan(t, p, inRun) == Scan(t, p, false)
  {
  }

  lemma {:induction false} ScanZero(s: string, p: CharClass)
    ensures Scan(s, p, false) == 0 <==> NoneOf(s, p)
  {
    if s != [] {
      ScanZero(s[1..], p);
      if In(s[0], p) {
        assert !NoneOf(s, p);
      } else {
        assert NoneOf(s, p) <==> NoneOf(s[1..], p) by {
          if NoneOf(s[1..], p) {
            forall i | 0 <= i < |s| ensures !In(s[i], p) {
              if i > 0 { assert s[i] == s[1..][i - 1]; }
            }
          }
        }
      }
    }
  }

  /** There is no run exactly when no character satisfies `p`. */
  lemma RunCountZero(s: string, p: CharClass)
    ensures RunCount(s, p) == 0 <==> NoneOf(s, p)
  {
    ScanIsRunCount(s, p);
    ScanZero(s, p);
  }
}
