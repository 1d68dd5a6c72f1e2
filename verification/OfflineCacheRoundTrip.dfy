/** What the offline cache is for: a response that was stored is found again, and stays until one of the
    few things happens that take an entry away. */
module OfflineCacheRoundTrip {
  import opened Prelude
  import opened OfflineCache
  import opened OfflineCachePolicy

  /** The state after some more events. */
  function Onward(s: State, events: seq<Event>): State {
    if events == [] then s else Step(Onward(s, events[..|events| - 1]), events[|events| - 1])
  }

  lemma {:induction false} RunOnward(before: seq<Event>, after: seq<Event>)
    ensures Run(before + after) == Onward(Run(before), after)
  {
    hide Step;
    if after == [] {
      assert before + after == before;
    } else {
      var n := |after| - 1;
      assert before + after == before + after[..n] + [after[n]];
      RunOnward(before, after[..n]);
      RunSnoc(before + after[..n], after[n]);
    }
  }

  lemma {:induction false} OnwardAppend(s: State, a: seq<Event>, b: seq<Event>)
    ensures Onward(s, a + b) == Onward(Onward(s, a), b)
  {
    hide Step;
    if b == [] {
      assert a + b == a;
    } else {
      var n := |b| - 1;
      assert (a + b)[..|a + b| - 1] == a + b[..n];
      OnwardAppend(s, a, b[..n]);
    }
  }

  lemma OnwardOne(s: State, e: Event)
    ensures Onward(s, [e]) == Step(s, e)
  {
    hide Step;
    assert [e][..0] == [];
    assert Onward(s, []) == s;
  }

  // ---------------------------------------------------------------- which requests the caches answer

  /** Somebody is signed in, and the kind of request is one that is kept for them: artwork, external
      artwork only while it is on, and the catalogue once its mode is known. */
  predicate Takes(cfg: Settings, kind: Kind, key: Key) {
    cfg.owner.Some? && if kind == Catalog then cfg.metadata.Some? else External(key) ==> cfg.externalArtwork
  }

  /** Exactly those requests are taken up; any other goes to the network and leaves no trace. */
  lemma TakenUp(s: State, id: nat, kind: Kind, key: Key)
    requires id !in s.requests
    ensures id in Step(s, Fetch(id, kind, key)).requests <==> Takes(s.cfg, kind, key)
    ensures !Takes(s.cfg, kind, key) ==> Step(s, Fetch(id, kind, key)) == s
    ensures Takes(s.cfg, kind, key) ==>
              var s' := Step(s, Fetch(id, kind, key));
              s' == s.(requests := s'.requests) && s'.requests - {id} == s.requests
              && s'.requests[id].kind == kind && s'.requests[id].key == key && s'.requests[id].phase.Awaiting?
  {
  }

  /** Accounts, kinds and the two modes of the catalogue have caches of their own. */
  lemma CachesApart(kind: Kind, u: User, mode: Option<bool>, kind': Kind, v: User, mode': Option<bool>)
    ensures NameFor(kind, u, mode) == NameFor(kind', v, mode') <==>
            u == v && kind == kind' && (kind == Catalog ==> (mode == Some(true) <==> mode' == Some(true)))
    ensures NameFor(kind, u, mode).Kind() == kind && NameFor(kind, u, mode).user == u
  {
  }

  // ---------------------------------------------------------------- a request with nothing in its way

  predicate Idle(s: State) {
    s.chain.queue == [] && s.chain.stage.Waiting?
  }

  /** The cache that requests of the kind use now. */
  function CacheOf(cfg: Settings, kind: Kind): Name
    requires cfg.owner.Some?
  {
    NameFor(kind, cfg.owner.value, cfg.metadata)
  }

  /** The entry is in that cache. */
  ghost predicate Kept(s: State, kind: Kind, e: Entry) {
    && s.cfg.owner.Some? && CacheOf(s.cfg, kind) in s.disk.names
    && e in EntriesOf(s.disk, s.disk.names[CacheOf(s.cfg, kind)])
  }

  /** Thirty days have not passed since the entry was stored. */
  predicate Young(e: Entry, now: nat) {
    0 < e.storedAt && now - e.storedAt < 30 * 24 * 60 * 60 * 1000
  }

  function Asking(id: nat, kind: Kind, key: Key): seq<Event> {
    [Fetch(id, kind, key)] + [Resume(id)] + [Open(id)] + [Match(id)]
  }

  /** The end of the lookup of a request that waited for nothing. */
  function LookedUp(s: State, id: nat, kind: Kind, key: Key): State
    requires s.cfg.owner.Some?
  {
    var (d, box) := OpenName(s.disk, CacheOf(s.cfg, kind));
    s.(disk := d, requests := s.requests[id := Request(kind, key, s.history.Announced(kind),
         Deciding(s.cfg.generation, s.cfg.owner.value, box, Lookup(EntriesOf(d, box), key)))])
  }

  lemma AskedTo(s: State, id: nat, kind: Kind, key: Key)
    requires Idle(s) && id !in s.requests && Takes(s.cfg, kind, key)
    ensures Onward(s, Asking(id, kind, key)) == LookedUp(s, id, kind, key)
  {
    hide OpenName, Lookup, EntriesOf, NameFor;
    var floor, g, u := s.history.Announced(kind), s.cfg.generation, s.cfg.owner.value;
    var e1, e2, e3, e4 := [Fetch(id, kind, key)], [Resume(id)], [Open(id)], [Match(id)];
    var r := s.requests;
    OnwardOne(s, e1[0]);
    var s1 := s.(requests := r[id := Request(kind, key, floor, Awaiting(s.chain.finished))]);
    assert Step(s, e1[0]) == s1;
    var s2 := s.(requests := r[id := Request(kind, key, floor, Opening(g, u, CacheOf(s.cfg, kind)))]);
    OneMore(s, e1, e2[0], s1, s2);
    var (d, box) := OpenName(s.disk, CacheOf(s.cfg, kind));
    var s3 := s.(disk := d, requests := r[id := Request(kind, key, floor, Matching(g, u, box))]);
    OneMore(s, e1 + e2, e3[0], s2, s3);
    OneMore(s, e1 + e2 + e3, e4[0], s3, LookedUp(s, id, kind, key));
  }

  lemma OneMore(s: State, events: seq<Event>, e: Event, before: State, after: State)
    requires Onward(s, events) == before && Step(before, e) == after
    ensures Onward(s, events + [e]) == after
  {
    hide Step;
    assert (events + [e])[..|events|] == events;
  }

  /** The request as it is answered. */
  function Answered(s: State, id: nat, kind: Kind, e: Entry, now: nat): Served
    requires s.cfg.owner.Some?
  {
    Served(LookedUp(s, id, kind, e.key).requests[id], e, s.cfg.owner, now)
  }

  lemma YoungIsAnswered(s: State, id: nat, kind: Kind, e: Entry, now: nat)
    requires s.cfg.owner.Some? && id !in s.requests && Kept(s, kind, e) && Young(e, now)
    requires Lookup(EntriesOf(s.disk, s.disk.names[CacheOf(s.cfg, kind)]), e.key) == Some(e)
    ensures Step(LookedUp(s, id, kind, e.key), Decide(id, now)) == s.(served := s.served + [Answered(s, id, kind, e, now)])
  {
    hide Lookup, NameFor, EntriesOf;
    assert s.requests[id := LookedUp(s, id, kind, e.key).requests[id]] - {id} == s.requests;
  }

  /** An entry of the cache that is not too old is what the request is answered with, and nothing changes. */
  lemma HitIsServed(s: State, id: nat, kind: Kind, e: Entry, now: nat)
    requires Storage(s) && Idle(s) && id !in s.requests && Takes(s.cfg, kind, e.key)
    requires Kept(s, kind, e) && Young(e, now)
    ensures var s' := Onward(s, Asking(id, kind, e.key) + [Decide(id, now)]);
            && s' == s.(served := s'.served)
            && |s'.served| == |s.served| + 1 && s'.served[..|s.served|] == s.served
            && var answer := s'.served[|s.served|];
              answer.entry == e && answer.owner == s.cfg.owner && answer.now == now && answer.request.kind == kind && answer.request.key == e.key
  {
    OneEntry(s, kind, e);
    hide Onward, External, Storage, Asking, Step, Lookup, EntriesOf, Kept;
    AskedTo(s, id, kind, e.key);
    YoungIsAnswered(s, id, kind, e, now);
    OneMore(s, Asking(id, kind, e.key), Decide(id, now), LookedUp(s, id, kind, e.key),
            s.(served := s.served + [Answered(s, id, kind, e, now)]));
  }

  /** A cache holds one entry for a key. */
  lemma OneEntry(s: State, kind: Kind, e: Entry)
    requires Storage(s) && Kept(s, kind, e)
    ensures Lookup(EntriesOf(s.disk, s.disk.names[CacheOf(s.cfg, kind)]), e.key) == Some(e)
  {
    var box := s.disk.names[CacheOf(s.cfg, kind)];
    assert BoxOk(s.disk.boxes[box], s.cfg.generation);
    LookupIn(EntriesOf(s.disk, box), e);
  }

  lemma {:induction false} LookupIn(es: seq<Entry>, e: Entry)
    requires Distinct(es) && e in es
    ensures Lookup(es, e.key) == Some(e)
  {
    var i :| 0 <= i < |es| && es[i] == e;
    if i > 0 {
      assert es[0].key != e.key;
      assert es[1..][i - 1] == e;
      assert forall j, k :: 0 <= j < k < |es| - 1 ==> es[1..][j] == es[j + 1] && es[1..][k] == es[k + 1];
      LookupIn(es[1..], e);
    }
  }

  /** The request of an account is being fetched, to be stored in the cache that it uses now, where no
      entry has its key. */
  ghost predicate Missing(s: State, id: nat, kind: Kind, key: Key) {
    && s.cfg.owner.Some? && id in s.requests && s.requests[id].kind == kind && s.requests[id].key == key
    && CacheOf(s.cfg, kind) in s.disk.names
    && s.requests[id].phase == Fetching(s.cfg.generation, s.cfg.owner.value, s.disk.names[CacheOf(s.cfg, kind)])
    && (forall e :: e in EntriesOf(s.disk, s.disk.names[CacheOf(s.cfg, kind)]) ==> e.key != key)
  }

  lemma {:induction false} OnwardStorage(s: State, events: seq<Event>)
    requires Storage(s)
    ensures Storage(Onward(s, events))
  {
    hide Storage, Step;
    if events != [] {
      OnwardStorage(s, events[..|events| - 1]);
      StorageStep(Onward(s, events[..|events| - 1]), events[|events| - 1]);
    }
  }

  /** The request went to the network, and what was found for it is gone. */
  function Passed(s: State, id: nat, kind: Kind, key: Key): State
    requires s.cfg.owner.Some?
  {
    var (d, box) := OpenName(s.disk, CacheOf(s.cfg, kind));
    s.(disk := if Lookup(EntriesOf(d, box), key).Some? then DropKey(d, box, key) else d,
       requests := s.requests[id := Request(kind, key, s.history.Announced(kind),
                                            Fetching(s.cfg.generation, s.cfg.owner.value, box))])
  }

  lemma TooOld(s: State, id: nat, kind: Kind, key: Key, now: nat)
    requires Storage(s) && s.cfg.owner.Some? && id !in s.requests
    requires forall e :: Kept(s, kind, e) && e.key == key ==> !Young(e, now)
    ensures Step(Step(LookedUp(s, id, kind, key), Decide(id, now)), Drop(id)) == Passed(s, id, kind, key)
  {
    hide Storage, NameFor, DropKey;
    var (d, box) := OpenName(s.disk, CacheOf(s.cfg, kind));
    var found := Lookup(EntriesOf(d, box), key);
    if found.Some? {
      assert CacheOf(s.cfg, kind) in s.disk.names;
      assert Kept(s, kind, found.value);
    }
    hide Lookup, OpenName;
    var asked := LookedUp(s, id, kind, key);
    assert asked.requests[id].phase == Deciding(s.cfg.generation, s.cfg.owner.value, box, found);
  }

  lemma PassedMissing(s: State, id: nat, kind: Kind, key: Key)
    requires Storage(s) && s.cfg.owner.Some?
    ensures var s' := Passed(s, id, kind, key);
            && Missing(s', id, kind, key)
            && (forall k, e :: Kept(s, k, e) && !(k == kind && e.key == key) ==> Kept(s', k, e))
  {
    hide Lookup, Without;
    CachesApart(Artwork, s.cfg.owner.value, s.cfg.metadata, Catalog, s.cfg.owner.value, s.cfg.metadata);
    hide NameFor;
    assert forall n :: n in s.disk.names ==> s.disk.names[n] < |s.disk.boxes| && s.disk.boxes[s.disk.names[n]].name == n;
  }

  /** Without such an entry the request goes to the network; one that is too old is gone by then, and every
      other entry is still kept. */
  lemma MissIsFetched(s: State, id: nat, kind: Kind, key: Key, now: nat)
    requires Storage(s) && Idle(s) && id !in s.requests && Takes(s.cfg, kind, key)
    requires forall e :: Kept(s, kind, e) && e.key == key ==> !Young(e, now)
    ensures var s' := Onward(s, Asking(id, kind, key) + [Decide(id, now)] + [Drop(id)]);
            && Missing(s', id, kind, key)
            && s'.served == s.served && s'.cfg == s.cfg && s'.chain == s.chain && s'.requests - {id} == s.requests
            && (forall k, e :: Kept(s, k, e) && !(k == kind && e.key == key) ==> Kept(s', k, e))
  {
    hide Onward, External, Step, Storage, LookedUp, Kept, Missing;
    var asked := Asking(id, kind, key);
    AskedTo(s, id, kind, key);
    var s1 := LookedUp(s, id, kind, key);
    var s2 := Step(s1, Decide(id, now));
    OneMore(s, asked, Decide(id, now), s1, s2);
    OneMore(s, asked + [Decide(id, now)], Drop(id), s2, Step(s2, Drop(id)));
    hide Asking;
    TooOld(s, id, kind, key, now);
    PassedMissing(s, id, kind, key);
    assert Passed(s, id, kind, key).requests - {id} == s.requests;
  }

  // ---------------------------------------------------------------- storing with nothing in its way

  function Works(n: nat, now: nat): seq<Event> {
    if n == 0 then [] else [Work(now, ArtworkOf(""))] + Works(n - 1, now)
  }

  lemma WorkFirst(s: State, n: nat, now: nat)
    requires n > 0
    ensures Onward(s, Works(n, now)) == Onward(Step(s, Work(now, ArtworkOf(""))), Works(n - 1, now))
  {
    hide Step;
    OnwardAppend(s, [Work(now, ArtworkOf(""))], Works(n - 1, now));
    OnwardOne(s, Work(now, ArtworkOf("")));
  }

  /** Nothing but the disk and the chain, which is empty again, changed. */
  function Written(s: State, es: seq<Entry>): State
    requires s.chain.queue != [] && s.chain.queue[0].Write?
  {
    s.(chain := Finish(s.chain), disk := SetEntries(s.disk, s.chain.queue[0].box, es))
  }

  lemma {:induction false} EvictsAll(s: State, now: nat)
    requires |s.chain.queue| == 1 && s.chain.queue[0].Write? && s.chain.stage.Evicting? && s.chain.queue[0].box < |s.disk.boxes|
    ensures var op := s.chain.queue[0];
            Onward(s, Works(|s.chain.stage.keys| + 1, now)) == Written(s, DropAll(EntriesOf(s.disk, op.box), s.chain.stage.keys))
    decreases |s.chain.stage.keys|
  {
    hide Without, Onward, Works;
    var keys, box := s.chain.stage.keys, s.chain.queue[0].box;
    WorkFirst(s, |keys| + 1, now);
    var s' := Step(s, Work(now, ArtworkOf("")));
    if keys == [] {
      NoWorks(s', now);
      assert s.disk.boxes[box := s.disk.boxes[box].(entries := s.disk.boxes[box].entries)] == s.disk.boxes;
    } else {
      assert s' == s.(chain := To(s.chain, Evicting(keys[1..])), disk := DropKey(s.disk, box, keys[0]));
      EvictsAll(s', now);
      hide Remove;
      SetTwice(s.disk, box, Remove(EntriesOf(s.disk, box), keys[0]), DropAll(Remove(EntriesOf(s.disk, box), keys[0]), keys[1..]));
    }
  }

  lemma NoWorks(s: State, now: nat)
    ensures Onward(s, Works(0, now)) == s
  {
  }

  lemma SetTwice(d: Disk, box: nat, es: seq<Entry>, fs: seq<Entry>)
    ensures SetEntries(SetEntries(d, box, es), box, fs) == SetEntries(d, box, fs)
    ensures box < |d.boxes| ==> EntriesOf(SetEntries(d, box, es), box) == es
  {
  }

  /** What a cache holds after one more entry was stored: no other entry of the key, and at most the
      newest thousand. */
  function Stored(es: seq<Entry>, e: Entry): seq<Entry> {
    var all := Put(es, e);
    all[if |all| > 1000 then |all| - 1000 else 0..]
  }

  /** A write at the head of the chain of a worker that is still signed in to the same account, with
      nothing announced since the request asked. */
  lemma WriteRuns(s: State, now: nat) returns (n: nat)
    requires Storage(s) && |s.chain.queue| == 1 && s.chain.queue[0].Write? && s.chain.stage.Waiting?
    requires s.chain.queue[0].epoch == s.cfg.generation && s.cfg.owner == Some(s.chain.queue[0].account)
    ensures var op := s.chain.queue[0];
            Onward(s, Works(n, now)) ==
            Written(s, Stored(EntriesOf(s.disk, op.box), Entry(op.key, now, op.account, op.epoch)))
  {
    var op := s.chain.queue[0];
    assert OpOk(op, s.disk, s.cfg.generation) && BoxOk(s.disk.boxes[op.box], s.cfg.generation);
    assert Distinct(EntriesOf(s.disk, op.box));
    hide Storage, Onward, Works, Step, Put, Excess, Keys, SetEntries, EntriesOf, Distinct;
    var e := Entry(op.key, now, op.account, op.epoch);
    var all := Put(EntriesOf(s.disk, op.box), e);
    var keys := Excess(Keys(all));
    n := |keys| + 4;
    ThreeWorks(s, now);
    var s3 := s.(chain := To(s.chain, Evicting(keys)), disk := SetEntries(s.disk, op.box, all));
    WorkFirst(s, n, now);
    WorkFirst(s.(chain := To(s.chain, Putting(now))), n - 1, now);
    WorkFirst(s.(chain := To(s.chain, Listing), disk := SetEntries(s.disk, op.box, all)), n - 2, now);
    SameBoxes(s.disk, op.box, all);
    EvictsAll(s3, now);
    OldestGo(all);
    SetTwice(s.disk, op.box, all, DropAll(all, keys));
  }

  lemma SameBoxes(d: Disk, box: nat, es: seq<Entry>)
    ensures |SetEntries(d, box, es).boxes| == |d.boxes| && SetEntries(d, box, es).names == d.names
    ensures box < |d.boxes| ==> EntriesOf(SetEntries(d, box, es), box) == es
  {
  }

  /** The re-check, the storing and the listing. */
  lemma ThreeWorks(s: State, now: nat)
    requires |s.chain.queue| == 1 && s.chain.queue[0].Write? && s.chain.stage.Waiting? && s.chain.queue[0].box < |s.disk.boxes|
    requires s.chain.queue[0].epoch == s.cfg.generation && s.cfg.owner == Some(s.chain.queue[0].account)
    ensures var w, op := Work(now, ArtworkOf("")), s.chain.queue[0];
            var all := Put(EntriesOf(s.disk, op.box), Entry(op.key, now, op.account, op.epoch));
            var s1, s2 := s.(chain := To(s.chain, Putting(now))), s.(chain := To(s.chain, Listing), disk := SetEntries(s.disk, op.box, all));
            && Step(s, w) == s1 && Step(s1, w) == s2
            && Step(s2, w) == s2.(chain := To(s.chain, Evicting(Excess(Keys(all)))))
  {
    hide Put, Excess, Keys, SetEntries, EntriesOf;
    var op := s.chain.queue[0];
    SameBoxes(s.disk, op.box, Put(EntriesOf(s.disk, op.box), Entry(op.key, now, op.account, op.epoch)));
  }

  /** A cacheable answer to a missing request is kept, in a cache where it is the newest. */
  lemma AnswerIsKept(s: State, id: nat, kind: Kind, key: Key, now: nat) returns (n: nat)
    requires Storage(s) && Idle(s) && Missing(s, id, kind, key)
    ensures var s' := Onward(s, [Respond(id, true)] + Works(n, now));
            var e, name := Entry(key, now, s.cfg.owner.value, s.cfg.generation), CacheOf(s.cfg, kind);
            && Idle(s') && s'.cfg == s.cfg && s'.served == s.served && s'.requests == s.requests - {id}
            && s'.disk.names == s.disk.names && Kept(s', kind, e)
            && EntriesOf(s'.disk, s.disk.names[name]) == Stored(EntriesOf(s.disk, s.disk.names[name]), e)
            && (forall b: nat :: b < |s.disk.boxes| && b != s.disk.names[name] ==> EntriesOf(s'.disk, b) == EntriesOf(s.disk, b))
  {
    assert RequestOk(s.requests[id], s.disk, s.cfg.generation);
    hide Onward, Works, NameFor, EntriesOf;
    var box, e := s.disk.names[CacheOf(s.cfg, kind)], Entry(key, now, s.cfg.owner.value, s.cfg.generation);
    OnwardOne(s, Respond(id, true));
    var s1 := Step(s, Respond(id, true));
    StorageStep(s, Respond(id, true));
    assert s1 == s.(requests := s.requests - {id},
                    chain := Chain([Write(s.cfg.generation, s.cfg.owner.value, box, key)], Waiting, s.chain.finished));
    hide Storage, Step, SetEntries, Stored;
    n := WriteRuns(s1, now);
    OnwardAppend(s, [Respond(id, true)], Works(n, now));
    NewestStays(EntriesOf(s.disk, box), e);
    var es := Stored(EntriesOf(s.disk, box), e);
    SameBoxes(s.disk, box, es);
    forall b: nat | b < |s.disk.boxes| && b != box ensures EntriesOf(SetEntries(s.disk, box, es), b) == EntriesOf(s.disk, b) {
      OtherBox(s.disk, box, es, b);
    }
  }

  lemma OtherBox(d: Disk, box: nat, es: seq<Entry>, b: nat)
    requires b != box
    ensures EntriesOf(SetEntries(d, box, es), b) == EntriesOf(d, b)
  {
  }


  lemma NewestStays(es: seq<Entry>, e: Entry)
    ensures e in Stored(es, e)
  {
    hide Remove;
    var all := Put(es, e);
    assert all[|all| - 1] == e;
    assert Stored(es, e)[|Stored(es, e)| - 1] == e;
  }

  /** In every run, whenever nothing is going on: a request that the caches take and have no young entry
      for goes to the network; its cacheable answer is stored; and the next request for the same key is
      answered with that entry, for thirty days. */
  lemma StoredIsServed(before: seq<Event>, id: nat, kind: Kind, key: Key, asked: nat, stored: nat, again: nat) returns (after: seq<Event>)
    requires Idle(Run(before)) && id !in Run(before).requests && Takes(Run(before).cfg, kind, key)
    requires forall e :: Kept(Run(before), kind, e) && e.key == key ==> !Young(e, asked)
    requires 0 < stored && again - stored < 30 * 24 * 60 * 60 * 1000
    ensures exists n: nat :: after == Asking(id, kind, key) + [Decide(id, asked)] + [Drop(id)] + [Respond(id, true)] + Works(n, stored)
                                      + (Asking(id, kind, key) + [Decide(id, again)])
    ensures var s, s' := Run(before), Run(before + after);
            && |s'.served| == |s.served| + 1 && s'.served[..|s.served|] == s.served
            && var answer := s'.served[|s.served|];
              && answer.entry == Entry(key, stored, s.cfg.owner.value, s.cfg.generation)
              && answer.owner == s.cfg.owner && answer.now == again
              && answer.request.kind == kind && answer.request.key == key
  {
    hide Run, Onward, Asking, Works, External, Stored;
    RunInv(before);
    var s := Run(before);
    MissIsFetched(s, id, kind, key, asked);
    var miss := Asking(id, kind, key) + [Decide(id, asked)] + [Drop(id)];
    OnwardStorage(s, miss);
    var s1 := Onward(s, miss);
    var n := AnswerIsKept(s1, id, kind, key, stored);
    var store := [Respond(id, true)] + Works(n, stored);
    OnwardStorage(s1, store);
    var s2 := Onward(s1, store);
    HitIsServed(s2, id, kind, Entry(key, stored, s.cfg.owner.value, s.cfg.generation), again);
    var hit := Asking(id, kind, key) + [Decide(id, again)];
    after := miss + [Respond(id, true)] + Works(n, stored) + hit;
    assert after == miss + store + hit;
    OnwardAppend(s, miss, store);
    OnwardAppend(s, miss + store, hit);
    RunOnward(before, after);
  }

  // ---------------------------------------------------------------- what takes an entry away

  /** The entry is in the cache of that name. */
  ghost predicate InCache(d: Disk, n: Name, e: Entry) {
    n in d.names && e in EntriesOf(d, d.names[n])
  }

  /** The step belongs to a write into the cache: it stores another entry of the key, or evicts the key. */
  predicate WriteTakes(s: State, n: Name, e: Entry)
    requires n in s.disk.names && s.chain.queue != [] && s.chain.queue[0].Write?
  {
    && s.chain.queue[0].box == s.disk.names[n]
    && (if s.chain.stage.Putting? then s.chain.queue[0].key == e.key
        else s.chain.stage.Evicting? && s.chain.stage.keys != [] && s.chain.stage.keys[0] == e.key)
  }

  /** The step belongs to the clean-up of a policy message: it deletes a cache of the catalogue, or one of
      artwork, or trims external artwork. */
  predicate PolicyTakes(s: State, n: Name, e: Entry) {
    match s.chain.stage
    case Deleting(_) => n.Kind() == Catalog
    case ArtworkDropping(_, next) => n == next && n.Kind() == Artwork
    case ArtworkTrimming(_, _, _) => n.Kind() == Artwork && External(e.key)
    case _ => false
  }

  /** An event that may take the entry away: the lookup of its key found it too old, or the operation at
      the head of the chain is one that takes it. */
  predicate MayTake(s: State, event: Event, n: Name, e: Entry)
    requires n in s.disk.names
  {
    match event
    case Drop(id) => id in s.requests && s.requests[id].phase.Dropping? && s.requests[id].key == e.key && s.requests[id].kind == n.Kind()
    case Work(_, _) =>
      s.chain.queue != []
      && (match s.chain.queue[0]
          case Write(_, _, _, _) => WriteTakes(s, n, e)
          case Purge(kind, _) => kind == n.Kind()
          case Policy(_, _, _) => PolicyTakes(s, n, e))
    case _ => false
  }

  /** In every run, an entry that was stored stays until one of these takes it: no request of another
      kind, no purge of another kind, no message and no termination of the worker does. */
  lemma EntryStays(events: seq<Event>, event: Event, n: Name, e: Entry)
    requires InCache(Run(events).disk, n, e) && !MayTake(Run(events), event, n, e)
    ensures InCache(Step(Run(events), event).disk, n, e)
  {
    RunInv(events);
    RunTrimOk(events);
    RunPurgeOk(events);
    hide Run, External;
    var s := Run(events);
    if event.Work? {
      WorkLeaves(s, event.now, event.pick, n, e);
    } else if event.Drop? {
      DropLeaves(s, event.id, n, e);
    } else {
      hide TrimOk, Storage, MayTake;
      StorageHas(s);
      OthersLeave(s, event, n, e);
    }
  }

  lemma OthersLeave(s: State, event: Event, n: Name, e: Entry)
    requires InCache(s.disk, n, e) && !event.Work? && !event.Drop?
    requires s.disk.names[n] < |s.disk.boxes|
    ensures InCache(Step(s, event).disk, n, e)
  {
    hide Lookup, NameFor;
  }

  lemma DropLeaves(s: State, id: nat, n: Name, e: Entry)
    requires Storage(s) && InCache(s.disk, n, e) && !MayTake(s, Drop(id), n, e)
    ensures InCache(StepDrop(s, id).disk, n, e)
  {
    StorageHas(s);
    if id in s.requests && s.requests[id].phase.Dropping? {
      var r := s.requests[id];
      assert RequestOk(r, s.disk, s.cfg.generation);
      assert r.phase.box == s.disk.names[n] ==> r.kind == n.Kind();
      assert r.kind == n.Kind() ==> r.key != e.key;
      assert StepDrop(s, id).disk == DropKey(s.disk, r.phase.box, r.key);
      hide Storage, MayTake, RequestOk;
      OthersLeft(s.disk, r.phase.box, r.key, n, e);
    }
  }

  /** Dropping a key from one object leaves the other keys, and every other object. */
  lemma OthersLeft(d: Disk, box: nat, k: Key, n: Name, e: Entry)
    requires InCache(d, n, e) && d.names[n] < |d.boxes| && (box == d.names[n] ==> e.key != k)
    ensures InCache(DropKey(d, box, k), n, e)
  {
  }

  lemma WorkLeaves(s: State, now: nat, pick: Name, n: Name, e: Entry)
    requires Storage(s) && TrimOk(s) && PurgeOk(s) && InCache(s.disk, n, e) && !MayTake(s, Work(now, pick), n, e)
    ensures InCache(StepWork(s, now, pick).disk, n, e)
  {
    hide Without, External, ExternalKeys, Bounded, RequestsOk, HistoryOk;
    StorageHas(s);
  }

  /** The names that a purge still has to delete are of its kind. */
  ghost predicate PurgeOk(s: State) {
    s.chain.queue != [] && s.chain.queue[0].Purge? && s.chain.stage.Deleting? ==>
      forall n :: n in s.chain.stage.todo ==> n.Kind() == s.chain.queue[0].kind
  }

  lemma {:induction false} RunPurgeOk(events: seq<Event>)
    ensures PurgeOk(Run(events))
  {
    hide PurgeOk, Step;
    if events == [] {
      NoPurgeYet();
    } else {
      RunPurgeOk(events[..|events| - 1]);
      RunInv(events[..|events| - 1]);
      PurgeOkStep(Run(events[..|events| - 1]), events[|events| - 1]);
    }
  }

  lemma NoPurgeYet()
    ensures PurgeOk(Init)
  {
  }

  lemma PurgeOkStep(s: State, e: Event)
    requires Storage(s) && PurgeOk(s)
    ensures PurgeOk(Step(s, e))
  {
    hide DropKey, OpenName, SetEntries, ExternalKeys, Lookup, NameFor, DiskOk, Bounded, RequestsOk, QueueOk;
  }

  /** A policy message that changes neither the owner nor the mode of the catalogue, while external artwork
      is on, is dealt with in two steps that touch nothing. */
  lemma SamePolicyTouchesNothing(s: State, now: nat, pick: Name)
    requires s.chain.queue != [] && s.chain.stage.Waiting? && s.chain.queue[0].Policy?
    requires s.chain.queue[0].previous == s.cfg.owner && s.chain.queue[0].previousMetadata == s.cfg.metadata && s.cfg.externalArtwork
    ensures Step(Step(s, Work(now, pick)), Work(now, pick)) == s.(chain := Finish(s.chain))
  {
    hide ExternalKeys, External;
  }

  /** While owner and mode are those that the message found, no step of its clean-up turns to the
      catalogue; and while external artwork is on as well, none turns to artwork. */
  lemma SameModeKeepsCatalogue(s: State, now: nat, pick: Name)
    requires s.chain.queue != [] && s.chain.queue[0].Policy?
    requires s.chain.queue[0].previous == s.cfg.owner && s.chain.queue[0].previousMetadata == s.cfg.metadata
    ensures var stage, next := s.chain.stage, Step(s, Work(now, pick)).chain.stage;
            && (!stage.Listing? && !stage.Deleting? ==> !next.Listing? && !next.Deleting?)
            && (s.cfg.externalArtwork && (stage.Waiting? || stage.ArtworkChoice?) ==> next.ArtworkChoice? || next.Waiting?)
  {
    hide ExternalKeys, External;
  }

  // ---------------------------------------------------------------- the chain runs empty

  /** How far the operation at the head still has to go: its stage, the names it has listed, and how far it
      is with one of them. */
  function StagesLeft(stage: Stage): nat {
    match stage
    case Waiting => 7
    case Putting(_) => 6
    case Listing => 5
    case Evicting(_) => 4
    case Deleting(_) => 3
    case ArtworkChoice => 2
    case ArtworkListing => 1
    case _ => 0
  }

  function Listed(stage: Stage): set<Name> {
    if stage.Deleting? || stage.ArtworkNext? || stage.ArtworkDropping? || stage.ArtworkOpening?
       || stage.ArtworkScanning? || stage.ArtworkTrimming? then stage.todo else {}
  }

  function PartsLeft(stage: Stage): nat {
    if stage.ArtworkOpening? then 3 else if stage.ArtworkScanning? then 2
    else if stage.ArtworkTrimming? || stage.ArtworkDropping? then 1 else 0
  }

  function KeysLeft(stage: Stage): nat {
    if stage.Evicting? || stage.ArtworkTrimming? then |stage.keys| else 0
  }

  /** Nearer to the end of the chain. */
  predicate Nearer(c: Chain, c': Chain) {
    || |c'.queue| < |c.queue|
    || (|c'.queue| == |c.queue| && StagesLeft(c'.stage) < StagesLeft(c.stage))
    || (|c'.queue| == |c.queue| && StagesLeft(c'.stage) == StagesLeft(c.stage) && |Listed(c'.stage)| < |Listed(c.stage)|)
    || (|c'.queue| == |c.queue| && StagesLeft(c'.stage) == StagesLeft(c.stage) && |Listed(c'.stage)| == |Listed(c.stage)|
        && PartsLeft(c'.stage) < PartsLeft(c.stage))
    || (|c'.queue| == |c.queue| && StagesLeft(c'.stage) == StagesLeft(c.stage) && |Listed(c'.stage)| == |Listed(c.stage)|
        && PartsLeft(c'.stage) == PartsLeft(c.stage) && KeysLeft(c'.stage) < KeysLeft(c.stage))
  }

  /** Every step of the operation at the head brings it nearer to its end, if it picks a name that is left
      where one is. */
  lemma WorkGoesOn(s: State, now: nat, pick: Name)
    requires StageOk(s.chain) && s.chain.queue != [] && (Listed(s.chain.stage) != {} ==> pick in Listed(s.chain.stage))
    ensures Nearer(s.chain, Step(s, Work(now, pick)).chain)
    ensures var s' := Step(s, Work(now, pick)); s'.cfg == s.cfg && s'.requests == s.requests && s'.served == s.served
  {
    hide OpenName, DropKey, DeleteName, NamesOf, SetEntries, Put, Keys, Excess, ExternalKeys, EntriesOf;
  }

  /** In every run, the chain can run empty: no operation waits for ever, and none waits for a request. */
  lemma {:induction false} ChainRunsEmpty(s: State, now: nat) returns (events: seq<Event>)
    requires Storage(s)
    ensures forall i :: 0 <= i < |events| ==> events[i].Work?
    ensures var s' := Onward(s, events);
            s'.chain.queue == [] && s'.cfg == s.cfg && s'.requests == s.requests && s'.served == s.served
    decreases |s.chain.queue|, StagesLeft(s.chain.stage), |Listed(s.chain.stage)|, PartsLeft(s.chain.stage), KeysLeft(s.chain.stage)
  {
    hide Step, Onward, Listed, StagesLeft, PartsLeft, KeysLeft;
    StorageHas(s);
    if s.chain.queue == [] {
      events := [];
      OnwardNone(s);
    } else {
      var pick := PickOne(Listed(s.chain.stage));
      WorkGoesOn(s, now, pick);
      StorageStep(s, Work(now, pick));
      hide Storage;
      var rest := ChainRunsEmpty(Step(s, Work(now, pick)), now);
      events := [Work(now, pick)] + rest;
      OnwardAppend(s, [Work(now, pick)], rest);
      OnwardOne(s, Work(now, pick));
    }
  }

  lemma OnwardNone(s: State)
    ensures Onward(s, []) == s
  {
  }

  lemma PickOne(names: set<Name>) returns (pick: Name)
    ensures names != {} ==> pick in names
  {
    if names != {} {
      pick := Member(names);
    } else {
      pick := ArtworkOf("");
    }
  }
}
