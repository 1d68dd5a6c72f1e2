/** The order of strings, and sorting by it. */
module TextOrder {

  function Compare(s: string, t: string): int {
    if s == "" && t == "" then 0
    else if s == "" then -1
    else if t == "" then 1
    else if s[0] < t[0] then -1
    else if t[0] < s[0] then 1
    else Compare(s[1..], t[1..])
  }

  lemma {:induction false} CompareTotal(s: string, t: string)
    ensures Compare(s, t) == 0 <==> s == t
    ensures Compare(s, t) <= 0 || Compare(t, s) <= 0
    ensures Compare(s, t) <= 0 && Compare(t, s) <= 0 ==> s == t
  {
    if s != "" && t != "" && s[0] == t[0] {
      CompareTotal(s[1..], t[1..]);
      assert s == [s[0]] + s[1..] && t == [t[0]] + t[1..];
    }
  }

  lemma {:induction false} CompareTransitive(s: string, t: string, u: string)
    requires Compare(s, t) <= 0 && Compare(t, u) <= 0
    ensures Compare(s, u) <= 0
  {
    if s != "" && t != "" && u != "" && s[0] == t[0] == u[0] {
      CompareTransitive(s[1..], t[1..], u[1..]);
    }
  }

  function Insert(token: string, sorted: seq<string>): (r: seq<string>)
    ensures multiset(r) == multiset(sorted) + multiset{token}
  {
    if sorted == [] then [token]
    else if Compare(token, sorted[0]) <= 0 then [token] + sorted
    else
      assert sorted == [sorted[0]] + sorted[1..];
      [sorted[0]] + Insert(token, sorted[1..])
  }

  function Sort(tokens: seq<string>): (r: seq<string>)
    ensures multiset(r) == multiset(tokens)
  {
    if tokens == [] then []
    else
      assert tokens == [tokens[0]] + tokens[1..];
      Insert(tokens[0], Sort(tokens[1..]))
  }

  ghost predicate Ascending(tokens: seq<string>) {
    forall i, j :: 0 <= i < j < |tokens| ==> Compare(tokens[i], tokens[j]) <= 0
  }

  lemma ConsAscends(x: string, sorted: seq<string>)
    requires Ascending(sorted) && (sorted != [] ==> Compare(x, sorted[0]) <= 0)
    ensures Ascending([x] + sorted)
  {
    hide Compare;
    forall j | 0 <= j < |sorted| ensures Compare(x, sorted[j]) <= 0 {
      if j > 0 {
        CompareTransitive(x, sorted[0], sorted[j]);
      }
    }
  }

  lemma {:induction false} InsertAscends(token: string, sorted: seq<string>)
    requires Ascending(sorted)
    ensures Ascending(Insert(token, sorted))
  {
    hide Compare;
    if sorted == [] {
    } else if Compare(token, sorted[0]) <= 0 {
      ConsAscends(token, sorted);
    } else {
      CompareTotal(token, sorted[0]);
      var rest := sorted[1..];
      var r := Insert(token, rest);
      InsertAscends(token, rest);
      if r != [] {
        assert r[0] in multiset(rest) + multiset{token};
        assert r[0] in rest || r[0] == token;
      }
      ConsAscends(sorted[0], r);
    }
  }

  lemma {:induction false} SortAscends(tokens: seq<string>)
    ensures Ascending(Sort(tokens))
  {
    if tokens != [] {
      SortAscends(tokens[1..]);
      InsertAscends(tokens[0], Sort(tokens[1..]));
    }
  }

  /** Two ascending lists of the same markers are the same list. */
  lemma {:induction false} AscendingUnique(a: seq<string>, b: seq<string>)
    requires Ascending(a) && Ascending(b) && multiset(a) == multiset(b)
    ensures a == b
  {
    hide Compare;
    assert |multiset(a)| == |a| && |multiset(b)| == |b|;
    if a != [] {
      HeadIsLeast(a, b);
      HeadIsLeast(b, a);
      CompareTotal(a[0], b[0]);
      TailAscends(a);
      TailAscends(b);
      hide Ascending;
      AscendingUnique(a[1..], b[1..]);
    }
  }

  lemma TailAscends(a: seq<string>)
    requires a != [] && Ascending(a)
    ensures Ascending(a[1..])
    ensures a == [a[0]] + a[1..] && multiset(a[1..]) == multiset(a) - multiset{a[0]}
  {
    assert a == [a[0]] + a[1..];
  }

  lemma HeadIsLeast(a: seq<string>, b: seq<string>)
    requires a != [] && b != [] && Ascending(a) && multiset(a) == multiset(b)
    ensures Compare(a[0], b[0]) <= 0
  {
    assert b[0] in multiset(a);
    var i :| 0 <= i < |a| && a[i] == b[0];
    CompareTotal(a[0], a[0]);
  }
}
