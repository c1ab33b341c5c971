/** Python's `sorted` on strings: code-point lexicographic order, and the
    sorted list of distinct non-empty values that `expo_filters` and
    `company_filter_options` return. */
module Ordering {

  /** `a < b` on Python strings: compare code points from the left; a proper
      prefix comes first. */
  predicate Below(a: string, b: string)
    decreases |a|
  {
    if |a| == 0 then |b| > 0
    else if |b| == 0 then false
    else if a[0] != b[0] then a[0] < b[0]
    else Below(a[1..], b[1..])
  }

  lemma {:induction false} BelowIrreflexive(a: string)
    ensures !Below(a, a)
    decreases |a|
  {
    if |a| > 0 {
      BelowIrreflexive(a[1..]);
    }
  }

  lemma {:induction false} BelowTransitive(a: string, b: string, c: string)
    requires Below(a, b) && Below(b, c)
    ensures Below(a, c)
    decreases |a|
  {
    if |a| > 0 && a[0] == b[0] && b[0] == c[0] {
      BelowTransitive(a[1..], b[1..], c[1..]);
    }
  }

  /** Any two different strings are ordered one way or the other. */
  lemma {:induction false} BelowTotal(a: string, b: string)
    requires a != b
    ensures Below(a, b) || Below(b, a)
    decreases |a|
  {
    if |a| > 0 && |b| > 0 && a[0] == b[0] {
      assert a == [a[0]] + a[1..] && b == [b[0]] + b[1..];
      BelowTotal(a[1..], b[1..]);
    }
  }

  /** Ascending without repetitions. */
  predicate StrictlySorted(s: seq<string>) {
    forall i, j :: 0 <= i < j < |s| ==> Below(s[i], s[j])
  }

  /** Adds `x` to a strictly sorted list, keeping it strictly sorted. */
  function Insert(x: string, s: seq<string>): (r: seq<string>)
    requires StrictlySorted(s)
    ensures StrictlySorted(r)
    ensures forall y :: y in r <==> y == x || y in s
    decreases |s|
  {
    if |s| == 0 then [x]
    else if x == s[0] then s
    else if Below(x, s[0]) then
      InsertFront(x, s)
    else
      BelowTotal(x, s[0]);
      var t := Insert(x, s[1..]);
      assert forall y :: y in t ==> Below(s[0], y);
      [s[0]] + t
  }

  /** Helper for Insert: `x` goes in front of a list whose head it precedes. */
  function InsertFront(x: string, s: seq<string>): (r: seq<string>)
    requires StrictlySorted(s) && |s| > 0 && Below(x, s[0])
    ensures StrictlySorted(r)
    ensures r == [x] + s
  {
    forall j | 0 < j < |s| ensures Below(x, s[j]) {
      BelowTransitive(x, s[0], s[j]);
    }
    [x] + s
  }

  /** The distinct non-empty values of `vals`, ascending:
      `sorted([v for v in distinct(vals) if v])`. */
  function SortedDistinct(vals: seq<string>): (r: seq<string>)
    ensures StrictlySorted(r)
    ensures forall x :: x in r <==> x in vals && x != ""
  {
    if |vals| == 0 then []
    else
      var rest := SortedDistinct(vals[..|vals| - 1]);
      var v := vals[|vals| - 1];
      assert vals == vals[..|vals| - 1] + [v];
      if v != "" then Insert(v, rest) else rest
  }

  /** A strictly sorted list holds no value twice. */
  lemma NoRepeats(s: seq<string>, i: nat, j: nat)
    requires StrictlySorted(s) && i < j < |s|
    ensures s[i] != s[j]
  {
    BelowIrreflexive(s[i]);
  }
}
