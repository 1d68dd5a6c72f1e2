/** The migration ledger under any number of concurrent runners. */
module Migrations {
  import opened Prelude

  /** The registry holds migrations 1 to 50, in order. */
  const LAST: nat := 50

  function Upto(n: nat): (ids: seq<nat>)
    ensures |ids| == n && forall i :: 0 <= i < n ==> ids[i] == i + 1
  {
    seq(n, i => i + 1)
  }

  function Ids(n: nat): (ids: set<nat>)
    ensures forall i :: i in ids <==> 1 <= i <= n
  {
    if n == 0 then {} else Ids(n - 1) + {n}
  }

  /** `order` remembers every application of a migration body, in the order of the commits. */
  datatype Db<S> = Db(ledger: set<nat>, store: S, order: seq<nat>)

  datatype Progress = Looping | Done | Failed

  /** A runner: the ids it believes applied, and the registry entry it looks at next. */
  datatype Runner = Runner(ceiling: Option<nat>, applied: set<nat>, next: nat, newly: seq<nat>, progress: Progress) {
    predicate Beyond() {
      next > LAST || (ceiling.Some? && next > ceiling.value)
    }
  }

  datatype World<S> = World(db: Db<S>, runners: map<nat, Runner>)

  /** `Begin` reads the ledger; `Advance` handles one registry entry, with a transaction that commits
      or not; `Crash` ends a runner between two transactions. */
  datatype Event = Begin(id: nat, ceiling: Option<nat>) | Advance(id: nat, commits: bool) | Crash(id: nat)

  function Commit<S>(apply: (nat, S) -> S, db: Db<S>, id: nat): Db<S> {
    if id in db.ledger then db else Db(db.ledger + {id}, apply(id, db.store), db.order + [id])
  }

  function Advanced<S>(apply: (nat, S) -> S, db: Db<S>, r: Runner, commits: bool): (Db<S>, Runner) {
    if r.Beyond() then (db, r.(progress := Done))
    else if r.next in r.applied then (db, r.(next := r.next + 1))
    else if !commits then (db, r.(progress := Failed))
    else (Commit(apply, db, r.next),
          r.(applied := r.applied + {r.next}, next := r.next + 1,
             newly := if r.next in db.ledger then r.newly else r.newly + [r.next]))
  }

  function Step<S>(apply: (nat, S) -> S, w: World<S>, e: Event): World<S> {
    match e
    case Begin(id, ceiling) =>
      if id in w.runners then w
      else w.(runners := w.runners[id := Runner(ceiling, w.db.ledger, 1, [], Looping)])
    case Advance(id, commits) =>
      if id !in w.runners || !w.runners[id].progress.Looping? then w
      else var (db, r) := Advanced(apply, w.db, w.runners[id], commits); World(db, w.runners[id := r])
    case Crash(id) =>
      if id !in w.runners || !w.runners[id].progress.Looping? then w
      else w.(runners := w.runners[id := w.runners[id].(progress := Failed)])
  }

  /** A database that has the first `first` migrations. */
  function Initial<S>(apply: (nat, S) -> S, empty: S, first: nat): World<S> {
    World(Db(Ids(first), Fold(apply, empty, first), Upto(first)), map[])
  }

  function Run<S>(apply: (nat, S) -> S, empty: S, first: nat, events: seq<Event>): World<S> {
    if events == [] then Initial(apply, empty, first)
    else Step(apply, Run(apply, empty, first, events[..|events| - 1]), events[|events| - 1])
  }

  // ---------------------------------------------------------------- the ordered fold

  /** Migrations 1 to `n`, each applied once, in order. */
  function Fold<S>(apply: (nat, S) -> S, empty: S, n: nat): S {
    if n == 0 then empty else apply(n, Fold(apply, empty, n - 1))
  }

  /** The database is what applying the first `|order|` migrations in order gives. */
  ghost predicate Prefix<S>(apply: (nat, S) -> S, empty: S, db: Db<S>) {
    var n := |db.order|;
    n <= LAST && db.ledger == Ids(n) && db.store == Fold(apply, empty, n) && db.order == Upto(n)
  }

  /** A runner has behind it every id below `next`, and reports only ids that it applied. */
  ghost predicate RunnerOk(ledger: set<nat>, r: Runner) {
    && 1 <= r.next
    && r.applied <= ledger
    && (forall i :: 1 <= i < r.next ==> i in ledger)
    && (r.progress.Done? ==> r.Beyond())
    && (forall i :: 0 <= i < |r.newly| ==> r.newly[i] in ledger && 1 <= r.newly[i] < r.next)
    && (forall i, j :: 0 <= i < j < |r.newly| ==> r.newly[i] < r.newly[j])
    && (r.ceiling.Some? ==> forall i :: 0 <= i < |r.newly| ==> r.newly[i] <= r.ceiling.value)
  }

  ghost predicate Disjoint(runners: map<nat, Runner>) {
    forall a, b, i, j :: a in runners && b in runners && a != b && 0 <= i < |runners[a].newly| && 0 <= j < |runners[b].newly|
      ==> runners[a].newly[i] != runners[b].newly[j]
  }

  ghost predicate Inv<S>(apply: (nat, S) -> S, empty: S, w: World<S>) {
    && Prefix(apply, empty, w.db)
    && (forall id :: id in w.runners ==> RunnerOk(w.db.ledger, w.runners[id]))
    && Disjoint(w.runners)
  }

  /** A runner that has everything below `id` behind it extends the prefix by exactly one. */
  lemma CommitKeepsPrefix<S>(apply: (nat, S) -> S, empty: S, db: Db<S>, id: nat)
    requires Prefix(apply, empty, db) && 1 <= id <= LAST && forall i :: 1 <= i < id ==> i in db.ledger
    ensures Prefix(apply, empty, Commit(apply, db, id))
    ensures id !in db.ledger ==> id == |db.order| + 1
    ensures Commit(apply, db, id).ledger == db.ledger + {id}
  {
    var n := |db.order|;
    if id !in db.ledger {
      assert id > n + 1 ==> n + 1 in db.ledger;
      assert id == n + 1;
      assert db.ledger + {id} == Ids(id);
      assert db.order + [id] == Upto(id);
    } else {
      assert db.ledger + {id} == db.ledger;
    }
  }

  lemma AdvanceKeepsDisjoint<S>(apply: (nat, S) -> S, w: World<S>, id: nat, commits: bool)
    requires Disjoint(w.runners) && (forall a :: a in w.runners ==> RunnerOk(w.db.ledger, w.runners[a])) && id in w.runners
    ensures Disjoint(w.runners[id := Advanced(apply, w.db, w.runners[id], commits).1])
  {
    var r := w.runners[id];
    var r' := Advanced(apply, w.db, r, commits).1;
    if r'.newly != r.newly {
      forall a, i | a in w.runners && 0 <= i < |w.runners[a].newly| ensures w.runners[a].newly[i] != r.next {
        assert RunnerOk(w.db.ledger, w.runners[a]);
      }
      hide RunnerOk;
    }
  }

  lemma AdvanceKeepsRunner<S>(apply: (nat, S) -> S, empty: S, db: Db<S>, r: Runner, commits: bool)
    requires Prefix(apply, empty, db) && RunnerOk(db.ledger, r) && r.progress.Looping?
    ensures var (db', r') := Advanced(apply, db, r, commits);
            Prefix(apply, empty, db') && RunnerOk(db'.ledger, r') && db.ledger <= db'.ledger
  {
    if !r.Beyond() && r.next !in r.applied && commits {
      CommitKeepsPrefix(apply, empty, db, r.next);
    }
    hide Prefix, Commit;
  }

  lemma AdvanceKeeps<S>(apply: (nat, S) -> S, empty: S, w: World<S>, id: nat, commits: bool)
    requires Inv(apply, empty, w) && id in w.runners && w.runners[id].progress.Looping?
    ensures Inv(apply, empty, Step(apply, w, Advance(id, commits)))
  {
    var db := Advanced(apply, w.db, w.runners[id], commits).0;
    AdvanceKeepsRunner(apply, empty, w.db, w.runners[id], commits);
    AdvanceKeepsDisjoint(apply, w, id, commits);
    hide Prefix, Advanced, Disjoint;
    forall a | a in w.runners ensures RunnerOk(w.db.ledger, w.runners[a]) && RunnerOk(db.ledger, w.runners[a]) {
    }
    hide RunnerOk;
  }

  lemma InitialInv<S>(apply: (nat, S) -> S, empty: S, first: nat)
    requires first <= LAST
    ensures Inv(apply, empty, Initial(apply, empty, first))
  {
  }

  lemma StepInv<S>(apply: (nat, S) -> S, empty: S, w: World<S>, e: Event)
    requires Inv(apply, empty, w)
    ensures Inv(apply, empty, Step(apply, w, e))
  {
    hide Prefix, Advanced;
    if e.Advance? && e.id in w.runners && w.runners[e.id].progress.Looping? {
      AdvanceKeeps(apply, empty, w, e.id, e.commits);
    } else {
      assert e.Crash? && e.id in w.runners ==> RunnerOk(w.db.ledger, w.runners[e.id]);
    }
  }

  lemma {:induction false} RunInv<S>(apply: (nat, S) -> S, empty: S, first: nat, events: seq<Event>)
    requires first <= LAST
    ensures Inv(apply, empty, Run(apply, empty, first, events))
  {
    hide Inv, Initial, Step;
    if events == [] {
      InitialInv(apply, empty, first);
    } else {
      RunInv(apply, empty, first, events[..|events| - 1]);
      StepInv(apply, empty, Run(apply, empty, first, events[..|events| - 1]), events[|events| - 1]);
    }
  }

  // ---------------------------------------------------------------- what every run keeps

  /** At every moment, whatever the runners, their ceilings, their crashes and their failed
      transactions, the ledger is a prefix, each of its migrations was applied exactly once, in order,
      and the store is the ordered fold. */
  lemma LedgerIsPrefix<S>(apply: (nat, S) -> S, empty: S, first: nat, events: seq<Event>)
    requires first <= LAST
    ensures var db := Run(apply, empty, first, events).db;
            db.order == Upto(|db.order|) && db.ledger == Ids(|db.order|) && db.store == Fold(apply, empty, |db.order|)
            && |db.order| <= LAST
  {
    RunInv(apply, empty, first, events);
  }

  /** A runner that ends well leaves everything up to its ceiling applied. */
  lemma DoneReachesCeiling<S>(apply: (nat, S) -> S, empty: S, first: nat, events: seq<Event>, id: nat, i: nat)
    requires first <= LAST
    requires var w := Run(apply, empty, first, events);
             id in w.runners && w.runners[id].progress.Done? && 1 <= i <= LAST
             && (w.runners[id].ceiling.Some? ==> i <= w.runners[id].ceiling.value)
    ensures i in Run(apply, empty, first, events).db.ledger
  {
    RunInv(apply, empty, first, events);
    var w := Run(apply, empty, first, events);
    assert RunnerOk(w.db.ledger, w.runners[id]);
  }

  /** Two histories in each of which some runner without a ceiling ended well leave the same
      database: migrating in stages, or concurrently, or after crashes, is migrating at once. */
  lemma Confluence<S>(apply: (nat, S) -> S, empty: S, first1: nat, events1: seq<Event>, id1: nat,
                      first2: nat, events2: seq<Event>, id2: nat)
    requires first1 <= LAST && first2 <= LAST
    requires var w := Run(apply, empty, first1, events1);
             id1 in w.runners && w.runners[id1].progress.Done? && w.runners[id1].ceiling.None?
    requires var w := Run(apply, empty, first2, events2);
             id2 in w.runners && w.runners[id2].progress.Done? && w.runners[id2].ceiling.None?
    ensures Run(apply, empty, first1, events1).db == Run(apply, empty, first2, events2).db
    ensures Run(apply, empty, first1, events1).db.store == Fold(apply, empty, LAST)
  {
    DoneReachesCeiling(apply, empty, first1, events1, id1, LAST);
    DoneReachesCeiling(apply, empty, first2, events2, id2, LAST);
    LedgerIsPrefix(apply, empty, first1, events1);
    LedgerIsPrefix(apply, empty, first2, events2);
    hide Run, Fold, Ids;
  }

  /** No migration is reported as newly applied by two runners. */
  lemma ReportsAreDisjoint<S>(apply: (nat, S) -> S, empty: S, first: nat, events: seq<Event>, a: nat, b: nat, id: nat)
    requires first <= LAST && a != b
    requires var w := Run(apply, empty, first, events); a in w.runners && b in w.runners && id in w.runners[a].newly
    ensures id !in Run(apply, empty, first, events).runners[b].newly
  {
    RunInv(apply, empty, first, events);
  }

  // ---------------------------------------------------------------- that runners end, and how

  function Onward<S>(apply: (nat, S) -> S, w: World<S>, events: seq<Event>): World<S>
    decreases |events|
  {
    if events == [] then w else Onward(apply, Step(apply, w, events[0]), events[1..])
  }

  function Advances(id: nat, n: nat): seq<Event> {
    if n == 0 then [] else [Advance(id, true)] + Advances(id, n - 1)
  }

  lemma AdvanceFirst<S>(apply: (nat, S) -> S, w: World<S>, id: nat, n: nat)
    requires n > 0
    ensures Onward(apply, w, Advances(id, n)) == Onward(apply, Step(apply, w, Advance(id, true)), Advances(id, n - 1))
    ensures Onward(apply, w, Advances(id, 0)) == w
  {
    assert Advances(id, n)[1..] == Advances(id, n - 1);
  }

  /** The last migration that a runner with this ceiling applies. */
  function Target(ceiling: Option<nat>): nat {
    if ceiling.Some? && ceiling.value < LAST then ceiling.value else LAST
  }

  /** The ids after `a` and up to `b`. */
  function Between(a: nat, b: nat): seq<nat> {
    if b <= a then [] else Between(a, b - 1) + [b]
  }

  lemma {:induction false} BetweenFirst(a: nat, b: nat)
    requires a < b
    ensures Between(a, b) == [a + 1] + Between(a + 1, b)
  {
    if a + 1 < b {
      BetweenFirst(a, b - 1);
    }
  }

  /** The runner has ended well, nothing else has moved, and it has applied and reported exactly what was
      missing up to its ceiling, in order. */
  ghost predicate FinishedFrom<S>(w: World<S>, w': World<S>, id: nat)
    requires id in w.runners
  {
    var r, had, has := w.runners[id], |w.db.order|, |w'.db.order|;
    && w'.runners.Keys == w.runners.Keys && (forall a :: a in w.runners && a != id ==> w'.runners[a] == w.runners[a])
    && w'.runners[id].progress == Done && w'.runners[id].ceiling == r.ceiling
    && has == (if had < Target(r.ceiling) then Target(r.ceiling) else had)
    && w'.runners[id].newly == r.newly + Between(had, has)
  }

  /** In every reachable world, a runner that still goes on and whose transactions commit ends well, within
      one step for every migration and one more, also where others had applied what it did not know of. */
  lemma {:induction false} RunnerFinishes<S>(apply: (nat, S) -> S, empty: S, w: World<S>, id: nat) returns (n: nat)
    requires Inv(apply, empty, w) && id in w.runners && w.runners[id].progress.Looping?
    ensures n == 1 || n <= LAST + 2 - w.runners[id].next
    ensures FinishedFrom(w, Onward(apply, w, Advances(id, n)), id)
    decreases LAST + 1 - w.runners[id].next
  {
    hide Onward, Advances, Inv, FinishedFrom, Advanced;
    var r := w.runners[id];
    var w1 := Step(apply, w, Advance(id, true));
    InvHas(apply, empty, w, id);
    StepInv(apply, empty, w, Advance(id, true));
    assert w1 == World(Advanced(apply, w.db, r, true).0, w.runners[id := Advanced(apply, w.db, r, true).1]);
    hide Step;
    if r.Beyond() {
      n := 1;
      AdvanceFirst(apply, w, id, 1);
      AdvanceFirst(apply, w1, id, 1);
      AtItsEnd(apply, empty, w, w1, id);
    } else {
      OneAdvance(apply, empty, w.db, r);
      var m := RunnerFinishes(apply, empty, w1, id);
      n := m + 1;
      AdvanceFirst(apply, w, id, n);
      OneMore(apply, w, w1, Onward(apply, w, Advances(id, n)), id);
    }
  }

  lemma InvHas<S>(apply: (nat, S) -> S, empty: S, w: World<S>, id: nat)
    requires Inv(apply, empty, w) && id in w.runners
    ensures Prefix(apply, empty, w.db) && RunnerOk(w.db.ledger, w.runners[id])
  {
  }

  lemma AtItsEnd<S>(apply: (nat, S) -> S, empty: S, w: World<S>, w1: World<S>, id: nat)
    requires id in w.runners && Prefix(apply, empty, w.db) && RunnerOk(w.db.ledger, w.runners[id]) && w.runners[id].Beyond()
    requires w1 == World(Advanced(apply, w.db, w.runners[id], true).0, w.runners[id := Advanced(apply, w.db, w.runners[id], true).1])
    ensures FinishedFrom(w, w1, id)
  {
    BehindAll(apply, empty, w.db, w.runners[id]);
    assert Between(|w.db.order|, |w.db.order|) == [];
    assert w.runners[id].newly + [] == w.runners[id].newly;
  }

  lemma OneMore<S>(apply: (nat, S) -> S, w: World<S>, w1: World<S>, w': World<S>, id: nat)
    requires id in w.runners && id in w1.runners && !w.runners[id].Beyond() && w1 == World(w1.db, w.runners[id := w1.runners[id]])
    requires w1.runners[id].ceiling == w.runners[id].ceiling && FinishedFrom(w1, w', id)
    requires var r, r1 := w.runners[id], w1.runners[id];
             if r.next <= |w.db.order| then |w1.db.order| == |w.db.order| && r1.newly == r.newly
             else |w1.db.order| == |w.db.order| + 1 == r.next && r1.newly == r.newly + [r.next]
    ensures FinishedFrom(w, w', id)
  {
    var r, has := w.runners[id], |w'.db.order|;
    if |w1.db.order| != |w.db.order| {
      BetweenFirst(|w.db.order|, has);
      assert r.newly + [r.next] + Between(r.next, has) == r.newly + ([r.next] + Between(r.next, has));
    }
  }

  lemma BehindAll<S>(apply: (nat, S) -> S, empty: S, db: Db<S>, r: Runner)
    requires Prefix(apply, empty, db) && RunnerOk(db.ledger, r) && r.Beyond()
    ensures |db.order| >= Target(r.ceiling)
  {
    if Target(r.ceiling) > 0 {
      assert Target(r.ceiling) in db.ledger;
    }
  }

  lemma OneAdvance<S>(apply: (nat, S) -> S, empty: S, db: Db<S>, r: Runner)
    requires Prefix(apply, empty, db) && RunnerOk(db.ledger, r) && !r.Beyond()
    ensures var (db', r') := Advanced(apply, db, r, true);
            && r'.next == r.next + 1 && r'.progress == r.progress && r'.ceiling == r.ceiling
            && (if r.next <= |db.order| then |db'.order| == |db.order| && r'.newly == r.newly
                else |db'.order| == |db.order| + 1 == r.next && r'.newly == r.newly + [r.next])
  {
    CommitKeepsPrefix(apply, empty, db, r.next);
  }

  /** A transaction that does not commit ends its runner and leaves the database as it was, as does a
      crash; a runner that has ended stays as it ended. */
  lemma FailuresChangeNothing<S>(apply: (nat, S) -> S, w: World<S>, id: nat, e: Event)
    requires id in w.runners
    ensures w.runners[id].progress.Looping? ==>
              Step(apply, w, Crash(id)) == w.(runners := w.runners[id := w.runners[id].(progress := Failed)])
    ensures var r, w' := w.runners[id], Step(apply, w, Advance(id, false));
            && w'.db == w.db
            && (r.progress.Looping? && !r.Beyond() && r.next !in r.applied ==> w'.runners[id] == r.(progress := Failed))
    ensures !w.runners[id].progress.Looping? ==> id in Step(apply, w, e).runners && Step(apply, w, e).runners[id] == w.runners[id]
  {
  }

  /** A runner started in any reachable world and left alone ends well within one step for every migration
      and one more; what it leaves applied is what was there and everything up to its ceiling, and it
      reports exactly what was missing. */
  lemma StartedFinishes<S>(apply: (nat, S) -> S, empty: S, first: nat, events: seq<Event>, id: nat, ceiling: Option<nat>) returns (n: nat)
    requires first <= LAST && id !in Run(apply, empty, first, events).runners
    ensures n <= LAST + 1
    ensures var w, w' := Run(apply, empty, first, events), Onward(apply, Run(apply, empty, first, events), [Begin(id, ceiling)] + Advances(id, n));
            var had, has := |w.db.order|, |w'.db.order|;
            && id in w'.runners && w'.runners[id].progress == Done
            && has == (if had < Target(ceiling) then Target(ceiling) else had) && w'.runners[id].newly == Between(had, has)
  {
    RunInv(apply, empty, first, events);
    var w := Run(apply, empty, first, events);
    hide Run, Inv;
    StepInv(apply, empty, w, Begin(id, ceiling));
    var w1 := Step(apply, w, Begin(id, ceiling));
    n := RunnerFinishes(apply, empty, w1, id);
    assert ([Begin(id, ceiling)] + Advances(id, n))[1..] == Advances(id, n);
    hide Advances, Between;
    var w' := Onward(apply, w1, Advances(id, n));
    assert [] + Between(|w.db.order|, |w'.db.order|) == Between(|w.db.order|, |w'.db.order|);
  }

  /** Some runner reports the id. */
  ghost predicate Reported(runners: map<nat, Runner>, id: nat) {
    exists a :: a in runners && id in runners[a].newly
  }

  /** In every run, every migration that was not there at the start and is applied now is reported by some
      runner, and by `ReportsAreDisjoint` by one only, however that runner ended. */
  lemma {:induction false} EveryApplicationIsReported<S>(apply: (nat, S) -> S, empty: S, first: nat, events: seq<Event>, id: nat)
    ensures id in Run(apply, empty, first, events).db.ledger <==> 1 <= id <= first || Reported(Run(apply, empty, first, events).runners, id)
  {
    hide Step;
    if events != [] {
      var n := |events| - 1;
      EveryApplicationIsReported(apply, empty, first, events[..n], id);
      hide Reported;
      ReportedNext(apply, Run(apply, empty, first, events[..n]), events[n], id);
    }
  }

  lemma ReportedNext<S>(apply: (nat, S) -> S, w: World<S>, e: Event, id: nat)
    ensures var w' := Step(apply, w, e);
            && w.db.ledger <= w'.db.ledger
            && (Reported(w'.runners, id) <==> Reported(w.runners, id) || (id in w'.db.ledger && id !in w.db.ledger))
  {
    var w' := Step(apply, w, e);
    forall a | a in w.runners ensures a in w'.runners && (id in w.runners[a].newly ==> id in w'.runners[a].newly) {
      ReportGrows(apply, w, e, a);
    }
    if id in w'.db.ledger && id !in w.db.ledger {
      assert w'.runners[e.id].newly[|w'.runners[e.id].newly| - 1] == id;
      assert e.id in w'.runners && id in w'.runners[e.id].newly;
    }
    if a :| a in w'.runners && id in w'.runners[a].newly && !Reported(w.runners, id) {
      ReportGrows(apply, w, e, a);
    }
  }

  /** A report only grows, by the id that its runner just applied. */
  lemma ReportGrows<S>(apply: (nat, S) -> S, w: World<S>, e: Event, a: nat)
    ensures var w' := Step(apply, w, e);
            && (a in w.runners ==> a in w'.runners)
            && (a in w'.runners ==>
                  var before := (if a in w.runners then w.runners[a].newly else []);
                  || w'.runners[a].newly == before
                  || exists id :: id in w'.db.ledger && id !in w.db.ledger && w'.runners[a].newly == before + [id])
  {
  }

  // ---------------------------------------------------------------- one runner's loop

  datatype Report = Report(newlyApplied: seq<nat>, totalApplied: nat, targetVersion: Option<nat>)

  /** Ids applied by a run that has passed every id below `next`, in increasing order. */
  ghost predicate NewlyOk(newly: seq<nat>, before: set<nat>, ledger: set<nat>, next: nat, upTo: Option<nat>) {
    && (forall k :: 0 <= k < |newly| ==> newly[k] in ledger && newly[k] !in before && 1 <= newly[k] < next)
    && (upTo.Some? ==> forall k :: 0 <= k < |newly| ==> newly[k] <= upTo.value)
    && (forall k, m :: 0 <= k < m < |newly| ==> newly[k] < newly[m])
  }

  lemma NewlyPassed(newly: seq<nat>, before: set<nat>, ledger: set<nat>, next: nat, upTo: Option<nat>, end: nat)
    requires NewlyOk(newly, before, ledger, next, upTo) && next <= end
    ensures NewlyOk(newly, before, ledger, end, upTo)
  {
  }

  lemma NewlyGrows(newly: seq<nat>, before: set<nat>, ledger: set<nat>, next: nat, upTo: Option<nat>, later: set<nat>)
    requires NewlyOk(newly, before, ledger, next, upTo) && ledger <= later
    ensures NewlyOk(newly, before, later, next, upTo) && NewlyOk(newly, before, later, next + 1, upTo)
    ensures 1 <= next && next in later && next !in before && (upTo.Some? ==> next <= upTo.value) ==>
              NewlyOk(newly + [next], before, later, next + 1, upTo)
  {
  }

  /** No transaction of an id up to `last` that was not applied before fails. */
  ghost predicate NoneFails(fails: nat -> bool, before: set<nat>, last: nat) {
    forall i: nat :: 1 <= i <= last && i !in before ==> !fails(i)
  }

  lemma NoneFailsNext(fails: nat -> bool, before: set<nat>, last: nat)
    ensures NoneFails(fails, before, 0)
    ensures NoneFails(fails, before, last + 1) <==> NoneFails(fails, before, last) && (last + 1 in before || !fails(last + 1))
    ensures forall more: nat :: more >= last && NoneFails(fails, before, more) ==> NoneFails(fails, before, last)
  {
  }

  /** The database as one runner sees it: between any two of its statements, others may migrate too. */
  class Database<S> {
    const apply: (nat, S) -> S
    const empty: S
    var ledger: set<nat>
    var store: S
    ghost var order: seq<nat>

    ghost predicate Valid()
      reads this
    {
      Prefix(apply, empty, Db(ledger, store, order))
    }

    constructor (apply: (nat, S) -> S, empty: S)
      ensures Valid() && ledger == {} && this.apply == apply && this.empty == empty
    {
      this.apply, this.empty := apply, empty;
      ledger, store, order := {}, empty, [];
      new;
      assert Ids(0) == {} && Upto(0) == [];
    }

    /** The transaction of one registry entry: look again under the write lock, apply, record. */
    method Transact(id: nat) returns (applied: bool)
      requires Valid() && 1 <= id <= LAST && forall i :: 1 <= i < id ==> i in ledger
      modifies this
      ensures Valid()
      ensures applied <==> id !in old(ledger)
      ensures Db(ledger, store, order) == Commit(apply, old(Db(ledger, store, order)), id)
      ensures ledger == old(ledger) + {id}
    {
      CommitKeepsPrefix(apply, empty, Db(ledger, store, order), id);
      applied := id !in ledger;
      if applied {
        store := apply(id, store);
        ledger := ledger + {id};
        order := order + [id];
      }
    }

    /** Any number of other runners' commits. */
    method Others(n: nat)
      requires Valid()
      modifies this
      ensures Valid() && old(ledger) <= ledger
    {
      var i := 0;
      while i < n && |ledger| < LAST
        invariant Valid() && old(ledger) <= ledger
      {
        var missing := Missing(ledger);
        if missing <= LAST {
          var _ := Transact(missing);
        }
        i := i + 1;
      }
    }

    /** Applies every unapplied migration up to the ceiling.  Before the transaction of an id, `others`
        says how many commits of other runners come in, and `fails` whether the transaction fails. */
    method RunMigrations(upTo: Option<nat>, others: nat -> nat, fails: nat -> bool)
        returns (report: Option<Report>, ghost failed: nat, ghost alone: bool)
      requires Valid()
      modifies this
      ensures Valid() && old(ledger) <= ledger
      ensures report.None? ==>
                && fails(failed) && 1 <= failed <= LAST && (upTo.Some? ==> failed <= upTo.value)
                && failed !in old(ledger) && (forall i :: 1 <= i < failed ==> i in ledger)
      ensures alone ==> (report.Some? <==> NoneFails(fails, old(ledger), Target(upTo)))
      ensures alone || exists id :: others(id) > 0
      ensures report.Some? ==>
                && (forall i :: 1 <= i <= LAST && (upTo.Some? ==> i <= upTo.value) ==> i in ledger)
                && NewlyOk(report.value.newlyApplied, old(ledger), ledger, LAST + 1, upTo)
                && report.value.targetVersion == upTo
      ensures report.Some? && alone ==>
                report.value.totalApplied == |ledger| == |old(ledger)| + |report.value.newlyApplied|
    {
      hide Prefix, Fold, Ids;
      ghost var before := ledger;
      var appliedIds := ledger;
      var newly: seq<nat> := [];
      var id := 1;
      alone, failed := true, 0;
      NoneFailsNext(fails, before, 0);
      while id <= LAST
        invariant 1 <= id <= LAST + 1
        invariant Valid() && before <= appliedIds <= ledger
        invariant forall i :: 1 <= i < id ==> i in ledger
        invariant NewlyOk(newly, before, ledger, id, upTo)
        invariant alone || exists i :: others(i) > 0
        invariant id <= Target(upTo) + 1 || (upTo.Some? && upTo.value == 0)
        invariant alone ==> NoneFails(fails, before, id - 1) && forall i :: i in ledger && i >= id ==> i in before
        invariant alone ==> appliedIds == ledger && |ledger| == |before| + |newly|
      {
        hide NewlyOk, NoneFails;
        NoneFailsNext(fails, before, id - 1);
        if upTo.Some? && id > upTo.value {
          break;
        }
        ghost var was := ledger;
        if id !in appliedIds {
          if others(id) > 0 {
            Others(others(id));
            alone := false;
          }
          if fails(id) {
            NoneFailsNext(fails, before, id);
            return None, id, alone;
          }
          var applied := Transact(id);
          NewlyGrows(newly, before, was, id, upTo, ledger);
          if applied {
            newly := newly + [id];
          }
          appliedIds := appliedIds + {id};
        } else {
          NewlyGrows(newly, before, was, id, upTo, ledger);
        }
        id := id + 1;
      }
      NewlyPassed(newly, before, ledger, id, upTo, LAST + 1);
      hide NewlyOk;
      report := Some(Report(newly, |appliedIds|, upTo));
    }
  }

  /** The least id not yet in the ledger. */
  method Missing(ledger: set<nat>) returns (id: nat)
    ensures id !in ledger && id >= 1 && forall i :: 1 <= i < id ==> i in ledger
  {
    id := 1;
    ghost var rest := ledger;
    while id in ledger
      invariant id >= 1 && rest <= ledger
      invariant forall i :: 1 <= i < id ==> i in ledger
      invariant forall i :: i in ledger && i >= id ==> i in rest
      decreases |rest|
    {
      rest := rest - {id};
      id := id + 1;
    }
  }
}
