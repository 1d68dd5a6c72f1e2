/** The playlist folder table and the trigger that guards updates of its parent column. */
module FolderForest {
  import opened Prelude

  type Id = string

  /** Each row's parent. */
  type Rows = map<Id, Option<Id>>

  // ---------------------------------------------------------------- the folder graph

  /** The folder `n` steps above `a`.  The parent of a row need not be a row itself: its foreign key
      is checked only at commit. */
  function Climb(t: Rows, a: Id, n: nat): Option<Id> {
    if n == 0 then Some(a)
    else match Climb(t, a, n - 1)
      case None => None
      case Some(b) => if b in t then t[b] else None
  }

  ghost predicate Reaches(t: Rows, a: Id, b: Id) {
    exists n: nat :: Climb(t, a, n) == Some(b)
  }

  ghost predicate OnCycle(t: Rows, a: Id) {
    exists n: nat :: n > 0 && Climb(t, a, n) == Some(a)
  }

  ghost predicate Forest(t: Rows) {
    forall a :: !OnCycle(t, a)
  }

  lemma {:induction false} ClimbOn(t: Rows, a: Id, m: nat, n: nat)
    requires Climb(t, a, m).Some?
    ensures Climb(t, a, m + n) == Climb(t, Climb(t, a, m).value, n)
  {
    if n > 0 {
      ClimbOn(t, a, m, n - 1);
    }
  }

  /** Two tables that differ at most in the row of `id`. */
  ghost predicate SameBut(t: Rows, u: Rows, id: Id) {
    forall a :: a != id ==> (a in t <==> a in u) && (a in t ==> t[a] == u[a])
  }

  /** Below the first visit to `id`, the row of `id` plays no part. */
  lemma {:induction false} ClimbBefore(t: Rows, u: Rows, id: Id, a: Id, n: nat)
    requires SameBut(t, u, id) && forall m: nat :: m < n ==> Climb(t, a, m) != Some(id)
    ensures Climb(u, a, n) == Climb(t, a, n)
  {
    if n > 0 {
      ClimbBefore(t, u, id, a, n - 1);
      assert Climb(t, a, n - 1) != Some(id);
    }
  }

  lemma {:induction false} FirstVisit(t: Rows, a: Id, b: Id, n: nat) returns (first: nat)
    requires Climb(t, a, n) == Some(b)
    ensures first <= n && Climb(t, a, first) == Some(b) && forall m: nat :: m < first ==> Climb(t, a, m) != Some(b)
  {
    if m: nat :| m < n && Climb(t, a, m) == Some(b) {
      first := FirstVisit(t, a, b, m);
    } else {
      first := n;
    }
  }

  /** Giving row `id` the parent `p` closes a cycle exactly when `id` was above `p` already, in any
      table, cyclic or not. */
  lemma ClosesCycle(t: Rows, id: Id, p: Id)
    ensures OnCycle(t[id := Some(p)], id) <==> Reaches(t, p, id)
  {
    var t' := t[id := Some(p)];
    assert Climb(t', id, 0) == Some(id) && Climb(t', id, 1) == Some(p);
    if n: nat :| n > 0 && Climb(t', id, n) == Some(id) {
      ClimbOn(t', id, 1, n - 1);
      var first := FirstVisit(t', p, id, n - 1);
      ClimbBefore(t', t, id, p, first);
    }
    if n: nat :| Climb(t, p, n) == Some(id) {
      var first := FirstVisit(t, p, id, n);
      ClimbBefore(t, t', id, p, first);
      ClimbOn(t', id, 1, first);
      assert Climb(t', id, 1 + first) == Some(id);
    }
  }

  /** A cycle that passes through `id` is a cycle of `id`. */
  lemma CycleRotates(t: Rows, a: Id, id: Id)
    requires OnCycle(t, a) && Reaches(t, a, id)
    ensures OnCycle(t, id)
  {
    var n: nat :| n > 0 && Climb(t, a, n) == Some(a);
    var m: nat :| Climb(t, a, m) == Some(id);
    ClimbOn(t, a, n, m);
    ClimbOn(t, a, m, n);
    assert n + m == m + n;
  }

  /** Changing one row can only create cycles through that row. */
  lemma ForestBut(t: Rows, u: Rows, id: Id)
    requires Forest(t) && SameBut(t, u, id)
    ensures Forest(u) <==> !OnCycle(u, id)
  {
    if !OnCycle(u, id) {
      forall a ensures !OnCycle(u, a) {
        if n: nat :| n > 0 && Climb(u, a, n) == Some(a) {
          if Reaches(u, a, id) {
            CycleRotates(u, a, id);
          } else {
            ClimbBefore(u, t, id, a, n);
            assert OnCycle(t, a);
          }
        }
      }
    }
  }

  lemma NoParentNoCycle(t: Rows, id: Id)
    requires id in t ==> t[id] == None
    ensures !OnCycle(t, id)
  {
    if n: nat :| n > 0 && Climb(t, id, n) == Some(id) {
      assert Climb(t, id, 0) == Some(id) && Climb(t, id, 1) == None;
      StaysNone(t, id, 1, n);
    }
  }

  lemma {:induction false} StaysNone(t: Rows, a: Id, m: nat, n: nat)
    requires m <= n && Climb(t, a, m) == None
    ensures Climb(t, a, n) == None
  {
    if m < n {
      StaysNone(t, a, m, n - 1);
    }
  }

  /** `b` is visited in the first `n` steps. */
  ghost predicate Seen(t: Rows, a: Id, n: nat, b: Id) {
    exists m: nat :: m < n && Climb(t, a, m) == Some(b)
  }

  function Visited(t: Rows, a: Id, n: nat): (ids: set<Id>)
    ensures forall b :: b in ids <==> Seen(t, a, n, b)
  {
    if n == 0 then {}
    else
      var before, last := Visited(t, a, n - 1), Climb(t, a, n - 1);
      SeenStep(t, a, n - 1);
      if last.None? then before else before + {last.value}
  }

  lemma SeenStep(t: Rows, a: Id, n: nat)
    ensures forall b :: Seen(t, a, n + 1, b) <==> Seen(t, a, n, b) || Climb(t, a, n) == Some(b)
  {
    forall b ensures Seen(t, a, n + 1, b) <==> Seen(t, a, n, b) || Climb(t, a, n) == Some(b) {
      if Seen(t, a, n + 1, b) {
        var m: nat :| m < n + 1 && Climb(t, a, m) == Some(b);
        assert m < n || m == n;
      }
    }
  }

  /** In a forest every folder has a root: a climb ends within as many steps as there are rows. */
  lemma EveryClimbEnds(t: Rows, a: Id)
    requires Forest(t)
    ensures Climb(t, a, |t| + 1) == None
  {
    var n := |t| + 1;
    if Climb(t, a, n).Some? {
      AllDistinct(t, a, n);
      forall b | b in Visited(t, a, n) ensures b in t {
        var m: nat :| m < n && Climb(t, a, m) == Some(b);
        if Climb(t, a, m + 1) == None {
          StaysNone(t, a, m + 1, n);
        }
      }
      SubsetSize(Visited(t, a, n), t.Keys);
    }
  }

  lemma ReturnIsCycle(t: Rows, a: Id, m: nat, n: nat)
    requires m < n && Climb(t, a, m).Some? && Climb(t, a, n) == Climb(t, a, m)
    ensures OnCycle(t, Climb(t, a, m).value)
  {
    ClimbOn(t, a, m, n - m);
  }

  lemma NotSeenAgain(t: Rows, a: Id, n: nat)
    requires Forest(t) && Climb(t, a, n).Some?
    ensures Climb(t, a, n).value !in Visited(t, a, n)
  {
    if Seen(t, a, n, Climb(t, a, n).value) {
      var m: nat :| m < n && Climb(t, a, m) == Climb(t, a, n);
      ReturnIsCycle(t, a, m, n);
    }
  }

  lemma {:induction false} AllDistinct(t: Rows, a: Id, n: nat)
    requires Forest(t) && Climb(t, a, n).Some?
    ensures |Visited(t, a, n)| == n
  {
    hide Forest, Seen;
    if n > 0 {
      AllDistinct(t, a, n - 1);
      NotSeenAgain(t, a, n - 1);
    }
  }

  // ---------------------------------------------------------------- statements on the table

  datatype Statement = SetParent(id: Id, parent: Option<Id>) | Insert(id: Id, parent: Option<Id>) | Delete(id: Id)

  /** The trigger runs before an update of the parent column that sets a value; nothing guards an
      insert. */
  ghost predicate Rejected(t: Rows, s: Statement) {
    s.SetParent? && s.parent.Some? && Reaches(t, s.parent.value, s.id)
  }

  /** What a statement does when it is not rejected; one that names no row, or an existing row to
      insert, changes nothing. */
  function Effect(t: Rows, s: Statement): Rows {
    match s
    case SetParent(id, parent) => if id in t then t[id := parent] else t
    case Insert(id, parent) => if id in t then t else t[id := parent]
    case Delete(id) => t - {id}
  }

  ghost function Step(t: Rows, s: Statement): Rows {
    if Rejected(t, s) then t else Effect(t, s)
  }

  /** The trigger rejects exactly the updates that would leave something other than a forest. */
  lemma RejectsExactlyCycles(t: Rows, s: Statement)
    requires Forest(t) && s.SetParent? && s.id in t
    ensures Rejected(t, s) <==> !Forest(Effect(t, s))
  {
    ForestBut(t, Effect(t, s), s.id);
    if s.parent.Some? {
      ClosesCycle(t, s.id, s.parent.value);
    } else {
      NoParentNoCycle(Effect(t, s), s.id);
    }
  }

  /** An insert, which nothing guards, keeps a forest exactly when the new id is not above its own
      parent already: not its own parent, and not named by a parent column before it exists. */
  lemma InsertKeepsForest(t: Rows, id: Id, parent: Option<Id>)
    requires Forest(t) && id !in t
    ensures Forest(Effect(t, Insert(id, parent))) <==> !(parent.Some? && Reaches(t, parent.value, id))
  {
    ForestBut(t, t[id := parent], id);
    if parent.Some? {
      ClosesCycle(t, id, parent.value);
    } else {
      NoParentNoCycle(t[id := parent], id);
    }
  }

  /** Every named parent is a row, as at every commit. */
  ghost predicate Closed(t: Rows) {
    forall a :: a in t && t[a].Some? ==> t[a].value in t
  }

  /** A new row under an existing one is never above it while no parent column dangles. */
  lemma FreshLeafKeepsForest(t: Rows, id: Id, parent: Option<Id>)
    requires Forest(t) && Closed(t) && id !in t && (parent.Some? ==> parent.value in t)
    ensures Forest(Effect(t, Insert(id, parent))) && Closed(Effect(t, Insert(id, parent)))
  {
    if parent.Some? && Reaches(t, parent.value, id) {
      var n: nat :| Climb(t, parent.value, n) == Some(id);
      StaysInside(t, parent.value, n);
    }
    InsertKeepsForest(t, id, parent);
  }

  lemma {:induction false} StaysInside(t: Rows, a: Id, n: nat)
    requires Closed(t) && a in t && Climb(t, a, n).Some?
    ensures Climb(t, a, n).value in t
  {
    if n > 0 {
      StaysInside(t, a, n - 1);
    }
  }

  /** One transaction can insert two folders each under the other, or a folder under itself: the
      foreign keys hold at its commit and the trigger never runs. */
  lemma InsertsCanCloseCycle(a: Id, b: Id)
    ensures var t := Step(Step(map[], Insert(a, Some(b))), Insert(b, Some(a)));
            Closed(t) && !Forest(t)
    ensures Closed(Step(map[], Insert(a, Some(a)))) && !Forest(Step(map[], Insert(a, Some(a))))
  {
    var one := Step(map[], Insert(a, Some(a)));
    assert Climb(one, a, 0) == Some(a) && Climb(one, a, 1) == Some(a);
    assert OnCycle(one, a);
    if a != b {
      var t := Step(Step(map[], Insert(a, Some(b))), Insert(b, Some(a)));
      assert Climb(t, a, 0) == Some(a) && Climb(t, a, 1) == Some(b) && Climb(t, a, 2) == Some(a);
      assert OnCycle(t, a);
    }
  }

  lemma DeleteKeepsForest(t: Rows, id: Id)
    requires Forest(t)
    ensures Forest(t - {id})
  {
    ForestBut(t, t - {id}, id);
    NoParentNoCycle(t - {id}, id);
  }

  ghost function Run(statements: seq<Statement>): Rows {
    if statements == [] then map[] else Step(Run(statements[..|statements| - 1]), statements[|statements| - 1])
  }

  /** A new row that is above its own parent already. */
  ghost predicate BadInsert(t: Rows, s: Statement) {
    s.Insert? && s.id !in t && s.parent.Some? && Reaches(t, s.parent.value, s.id)
  }

  /** Every table of the run is a forest. */
  ghost predicate AlwaysForest(statements: seq<Statement>) {
    Forest(Run(statements)) && (statements != [] ==> AlwaysForest(statements[..|statements| - 1]))
  }

  ghost predicate NoBadInsert(statements: seq<Statement>) {
    statements != [] ==>
      var before := statements[..|statements| - 1];
      NoBadInsert(before) && !BadInsert(Run(before), statements[|statements| - 1])
  }

  /** Over every run of updates, inserts and deletes, in which any row may be moved anywhere, every
      table on the way is a forest exactly when no insert was of a row above its own parent. */
  lemma {:induction false} RunKeepsForest(statements: seq<Statement>)
    ensures AlwaysForest(statements) <==> NoBadInsert(statements)
  {
    hide Forest, BadInsert, Step;
    if statements == [] {
      EmptyForest();
    } else {
      var before := statements[..|statements| - 1];
      RunKeepsForest(before);
      if AlwaysForest(before) {
        StepForest(Run(before), statements[|statements| - 1]);
      }
    }
  }

  lemma EmptyForest()
    ensures Forest(map[])
  {
    forall a ensures !OnCycle(map[], a) {
      NoParentNoCycle(map[], a);
    }
  }

  lemma StepForest(t: Rows, s: Statement)
    requires Forest(t)
    ensures !Forest(Step(t, s)) <==> BadInsert(t, s)
  {
    match s
    case SetParent(id, parent) =>
      if id in t {
        RejectsExactlyCycles(t, s);
      }
    case Insert(id, parent) =>
      if id !in t {
        InsertKeepsForest(t, id, parent);
      }
    case Delete(id) => DeleteKeepsForest(t, id);
  }

  // ---------------------------------------------------------------- the table and its trigger

  class FolderTable {
    var rows: Rows

    constructor ()
      ensures rows == Run([])
    {
      rows := map[];
    }

    /** The trigger's recursive query: a queue of rows still to be joined, and `UNION`, which keeps an
        id only once.  It ends on every finite table, cyclic or not, with exactly the start and
        everything above it. */
    method Ancestors(start: Id) returns (ancestors: set<Id>)
      ensures forall b :: b in ancestors <==> Reaches(rows, start, b)
    {
      hide ClosedBut, Climb, Visited, Reaches, Left;
      var queue := [start];
      ancestors := {start};
      ghost var n: nat := 0;
      SearchStarts(rows, start);
      while queue != []
        invariant queue == [] || (Climb(rows, start, n).Some? && queue == [Climb(rows, start, n).value])
        invariant ancestors == Visited(rows, start, n + 1)
        invariant ClosedBut(rows, ancestors, if queue == [] then None else Some(queue[0]))
        decreases Left(rows, ancestors), |queue|
      {
        var a := queue[0];
        queue := queue[1..];
        SearchStep(rows, start, n);
        if a in rows && rows[a].Some? {
          var parent := rows[a].value;
          if parent !in ancestors {
            ancestors := ancestors + {parent};
            queue := queue + [parent];
            n := n + 1;
          }
        }
      }
      SearchEnds(rows, start, n);
    }

    method SetParent(id: Id, parent: Option<Id>) returns (ok: bool)
      modifies this
      ensures ok <==> !(id in old(rows) && Rejected(old(rows), Statement.SetParent(id, parent)))
      ensures rows == Step(old(rows), Statement.SetParent(id, parent))
    {
      if id !in rows {
        return true;
      }
      if parent.Some? {
        var ancestors := Ancestors(parent.value);
        if id in ancestors {
          return false;
        }
      }
      rows := rows[id := parent];
      return true;
    }

    method Insert(id: Id, parent: Option<Id>) returns (ok: bool)
      modifies this
      ensures ok <==> id !in old(rows)
      ensures rows == Step(old(rows), Statement.Insert(id, parent))
    {
      if id in rows {
        return false;
      }
      rows := rows[id := parent];
      return true;
    }

    method Delete(id: Id)
      modifies this
      ensures rows == Step(old(rows), Statement.Delete(id))
    {
      rows := rows - {id};
    }
  }

  /** The ids that some parent column names. */
  function Named(t: Rows): set<Id> {
    set a | a in t && t[a].Some? :: t[a].value
  }

  function Left(t: Rows, ids: set<Id>): nat {
    |Named(t) - ids|
  }

  /** The parents of all the ids, except perhaps of `open`, are among the ids. */
  ghost predicate ClosedBut(t: Rows, ids: set<Id>, open: Option<Id>) {
    forall b :: b in ids && Some(b) != open && b in t && t[b].Some? ==> t[b].value in ids
  }

  lemma SearchStarts(t: Rows, a: Id)
    ensures Climb(t, a, 0) == Some(a) && Visited(t, a, 1) == {a} && ClosedBut(t, {a}, Some(a))
  {
    assert Visited(t, a, 0) == {};
  }

  lemma SearchStep(t: Rows, start: Id, n: nat)
    requires Climb(t, start, n).Some? && ClosedBut(t, Visited(t, start, n + 1), Climb(t, start, n))
    ensures var a, ids := Climb(t, start, n).value, Visited(t, start, n + 1);
            && a in ids
            && if a in t && t[a].Some? then
                 && Climb(t, start, n + 1) == t[a]
                 && (t[a].value !in ids ==> Left(t, ids + {t[a].value}) < Left(t, ids))
                 && Visited(t, start, n + 2) == ids + {t[a].value}
                 && (if t[a].value in ids then ClosedBut(t, ids, None) else ClosedBut(t, ids + {t[a].value}, t[a]))
               else ClosedBut(t, ids, None)
  {
    var a, ids := Climb(t, start, n).value, Visited(t, start, n + 1);
    SeenStep(t, start, n);
    if a in t && t[a].Some? && t[a].value !in ids {
      assert t[a].value in Named(t);
      assert Named(t) - (ids + {t[a].value}) == Named(t) - ids - {t[a].value};
    }
  }

  lemma SearchEnds(t: Rows, start: Id, n: nat)
    requires ClosedBut(t, Visited(t, start, n + 1), None)
    ensures forall b :: b in Visited(t, start, n + 1) <==> Reaches(t, start, b)
  {
    var ids := Visited(t, start, n + 1);
    assert Climb(t, start, 0) == Some(start);
    assert Seen(t, start, n + 1, start);
    forall m: nat | Climb(t, start, m).Some? ensures Climb(t, start, m).value in ids {
      StaysAmong(t, start, ids, m);
    }
    hide Visited, Climb;
  }

  lemma {:induction false} StaysAmong(t: Rows, a: Id, ids: set<Id>, n: nat)
    requires a in ids && forall b :: b in ids && b in t && t[b].Some? ==> t[b].value in ids
    requires Climb(t, a, n).Some?
    ensures Climb(t, a, n).value in ids
  {
    if n > 0 {
      StaysAmong(t, a, ids, n - 1);
    }
  }
}
