/** Shared vocabulary: optional values, the truthiness rule both the Python
    handlers and the TypeScript client apply to strings, and the sequence
    queries a document store answers (first match, first n matches). */
module Common {

  datatype Option<+T> = None | Some(value: T)

  /** A string parameter that may be absent; `if s:` in Python and `s ? … : …`
      in TypeScript both treat the absent value and the empty string alike. */
  predicate Truthy(s: Option<string>) {
    s.Some? && s.value != ""
  }

  /** `s or fallback` on an optional string. */
  function OrElse(s: Option<string>, fallback: string): string {
    if Truthy(s) then s.value else fallback
  }

  /** The elements of `s` that satisfy `p`, in order. */
  function Filter<T>(s: seq<T>, p: T -> bool): (r: seq<T>)
    ensures |r| <= |s|
    ensures forall x :: x in r ==> x in s && p(x)
    ensures forall x :: x in s && p(x) ==> x in r
  {
    if |s| == 0 then []
    else
      var last := s[|s| - 1];
      Filter(s[..|s| - 1], p) + (if p(last) then [last] else [])
  }

  /** Two sequences that agree on what `p` keeps filter to the same result. */
  lemma {:induction false} FilterAgree<T>(a: seq<T>, b: seq<T>, p: T -> bool)
    requires |a| == |b|
    requires forall k :: 0 <= k < |a| ==> p(a[k]) == p(b[k])
    requires forall k :: 0 <= k < |a| && p(a[k]) ==> a[k] == b[k]
    ensures Filter(a, p) == Filter(b, p)
    decreases |a|
  {
    if |a| > 0 {
      var n := |a| - 1;
      FilterAgree(a[..n], b[..n], p);
    }
  }

  /** Filtering depends only on what the predicate says of each element. */
  lemma FilterExtensional<T>(s: seq<T>, f: T -> bool, g: T -> bool)
    requires forall x :: f(x) == g(x)
    ensures Filter(s, f) == Filter(s, g)
  {
    FilterAgree(s, s, f);
  }

  /** The first `n` elements of `s`, or all of them when there are fewer. */
  function Take<T>(s: seq<T>, n: nat): (r: seq<T>)
    ensures |r| == if |s| <= n then |s| else n
    ensures r <= s
  {
    if |s| <= n then s else s[..n]
  }

  /** `collection.find(q).to_list(limit)`: the first `limit` records, in
      table order, that satisfy the query (a prefix of all the matches). */
  function Select<T>(table: seq<T>, p: T -> bool, limit: nat): (r: seq<T>)
    ensures |r| <= limit
    ensures r <= Filter(table, p)
    ensures |r| == if |Filter(table, p)| <= limit then |Filter(table, p)| else limit
    ensures forall x :: x in r ==> x in table && p(x)
    ensures |Filter(table, p)| <= limit ==> r == Filter(table, p)
    ensures |Filter(table, p)| <= limit ==> forall x :: x in table && p(x) ==> x in r
  {
    var all := Filter(table, p);
    var r := Take(all, limit);
    assert forall x :: x in r ==> x in all;
    r
  }

  /** `collection.find_one(q)`: the position of the first record that
      satisfies the query, if there is one. */
  function FindFirst<T>(table: seq<T>, p: T -> bool): (r: Option<nat>)
    ensures r.Some? ==> r.value < |table| && p(table[r.value])
    ensures r.Some? ==> forall j :: 0 <= j < r.value ==> !p(table[j])
    ensures r.None? ==> forall j :: 0 <= j < |table| ==> !p(table[j])
  {
    if |table| == 0 then None
    else if p(table[0]) then Some(0)
    else
      match FindFirst(table[1..], p)
      case None => None
      case Some(i) => Some(i + 1)
  }

  /** `find_one` returning the record itself. */
  function FindOne<T>(table: seq<T>, p: T -> bool): (r: Option<T>)
    ensures r.Some? <==> exists j :: 0 <= j < |table| && p(table[j])
    ensures r.Some? ==> r.value in table && p(r.value)
  {
    match FindFirst(table, p)
    case None => None
    case Some(i) => Some(table[i])
  }

  /** `delete_one(q)`: the table without its first match. */
  function DeleteFirst<T>(table: seq<T>, p: T -> bool): (r: seq<T>)
    ensures FindFirst(table, p).None? ==> r == table
    ensures FindFirst(table, p).Some? ==>
      var i := FindFirst(table, p).value;
      r == table[..i] + table[i + 1..] &&
      multiset(r) == multiset(table) - multiset{table[i]}
  {
    match FindFirst(table, p)
    case None => table
    case Some(i) =>
      assert table == table[..i] + [table[i]] + table[i + 1..];
      table[..i] + table[i + 1..]
  }
}
