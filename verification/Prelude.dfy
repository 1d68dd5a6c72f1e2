/** Small shared definitions. */
module Prelude {

  datatype Option<+T> = None | Some(value: T)

  /** Rust's `saturating_sub(1)` on an unsigned counter. */
  function SaturatingDec(n: nat): nat {
    if n == 0 then 0 else n - 1
  }

  lemma {:induction false} SubsetSize<T>(a: set<T>, b: set<T>)
    requires a <= b
    ensures |a| <= |b|
  {
    if a != {} {
      var x :| x in a;
      SubsetSize(a - {x}, b - {x});
    }
  }

  lemma Member<T>(a: set<T>) returns (x: T)
    requires a != {}
    ensures x in a
  {
    x :| x in a;
  }

  lemma {:induction false} Shifted(s: set<int>)
    ensures |set i | i in s :: i + 1| == |s|
  {
    var up := set i | i in s :: i + 1;
    if s == {} {
      assert up == {};
    } else {
      var x := Member(s);
      Shifted(s - {x});
      var rest := set i | i in s - {x} :: i + 1;
      forall j | j in up ensures j in rest + {x + 1} {
        var i :| i in s && j == i + 1;
        if i != x {
          assert i in s - {x};
        }
      }
      assert x in s && x + 1 in up && x + 1 !in rest;
      assert up == rest + {x + 1};
    }
  }

  /** Where in the sequence an element satisfies `p`. */
  function Where<T>(s: seq<T>, p: T -> bool): set<int> {
    set i | 0 <= i < |s| && p(s[i])
  }

  lemma WhereFirst<T>(s: seq<T>, p: T -> bool)
    ensures s == [] ==> Where(s, p) == {}
    ensures s != [] ==> |Where(s, p)| == |Where(s[1..], p)| + (if p(s[0]) then 1 else 0)
  {
    if s != [] {
      var rest, here := Where(s[1..], p), Where(s, p);
      var shifted := set i | i in rest :: i + 1;
      forall i | i in here - {0} ensures i in shifted {
        assert s[1..][i - 1] == s[i] && i - 1 in rest;
      }
      forall i | i in shifted ensures i in here - {0} {
        assert s[1..][i - 1] == s[i];
      }
      assert here - {0} == shifted;
      assert 0 in here <==> p(s[0]);
      hide Where;
      Shifted(rest);
      assert here == if 0 in here then here - {0} + {0} else here - {0};
    }
  }

  /** The places of `s` where `p` holds, all of them and from left to right. */
  ghost predicate Picks<T(!new)>(at: seq<nat>, s: seq<T>, p: T -> bool) {
    && (forall k :: 0 <= k < |at| ==> at[k] < |s| && p(s[at[k]]))
    && (forall j, k :: 0 <= j < k < |at| ==> at[j] < at[k])
    && (forall i: nat :: i < |s| && p(s[i]) ==> i in at)
  }

  lemma PicksNext<T(!new)>(at: seq<nat>, s: seq<T>, p: T -> bool)
    ensures s == [] ==> Picks([], s, p)
    ensures s != [] && Picks(at, s[..|s| - 1], p) ==> Picks(if p(s[|s| - 1]) then at + [|s| - 1] else at, s, p)
  {
    if s != [] && Picks(at, s[..|s| - 1], p) {
      var n := |s| - 1;
      var t := s[..n];
      forall k | 0 <= k < |at| ensures at[k] < n && p(s[at[k]]) {
        assert p(t[at[k]]) && t[at[k]] == s[at[k]];
      }
      forall i: nat | i < n && p(s[i]) ensures i in at {
        assert t[i] == s[i];
      }
      if p(s[n]) {
        PicksLast(at, s, p);
      } else {
        assert forall i: nat :: i < |s| && p(s[i]) ==> i < n;
      }
    }
  }

  lemma PicksLast<T(!new)>(at: seq<nat>, s: seq<T>, p: T -> bool)
    requires s != [] && p(s[|s| - 1])
    requires forall k :: 0 <= k < |at| ==> at[k] < |s| - 1 && p(s[at[k]])
    requires forall j, k :: 0 <= j < k < |at| ==> at[j] < at[k]
    requires forall i: nat :: i < |s| - 1 && p(s[i]) ==> i in at
    ensures Picks(at + [|s| - 1], s, p)
  {
    var more := at + [|s| - 1];
    assert forall k :: 0 <= k < |at| ==> more[k] == at[k];
    assert more[|at|] == |s| - 1;
    forall i: nat | i < |s| && p(s[i]) ensures i in more {
      if i < |s| - 1 {
        assert i in at;
      }
    }
  }

  lemma PicksSame<T(!new)>(at: seq<nat>, s: seq<T>, p: T -> bool, q: T -> bool)
    requires Picks(at, s, p) && forall e :: p(e) <==> q(e)
    ensures Picks(at, s, q)
  {
  }
}
