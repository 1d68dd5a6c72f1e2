/** Runs of the offline cache in which a termination of the worker does harm: one that leaves a cache
    above its limit, and one that answers a request from an entry older than a mutation. */
module OfflineCacheRuns {
  import opened Prelude
  import opened OfflineCache

  function Cat(u: User): Name {
    CatalogOf(u, false)
  }

  /** The disk with one catalogue cache of the account, which the last request opened or will create. */
  function Shelf(u: User, es: seq<Entry>): Disk {
    Disk(map[Cat(u) := 0], [Box(Cat(u), es)])
  }

  ghost predicate Holds(d: Disk, u: User, es: seq<Entry>) {
    d == Shelf(u, es) || (d == Disk(map[], []) && es == [])
  }

  /** Signed in with nothing going on. */
  function Quiet(u: User, d: Disk, finished: nat): State {
    State(Settings(Some(u), false, Some(false), 1), Chain([], Waiting, finished), d, map[], [], History(map[], map[], Some(1), 0))
  }

  function Asking(u: User, d: Disk, finished: nat, key: Key, phase: Phase): State {
    Quiet(u, d, finished).(requests := map[0 := Request(Catalog, key, 0, phase)])
  }

  function Writing(u: User, d: Disk, finished: nat, key: Key, stage: Stage): State {
    Quiet(u, d, finished).(chain := Chain([Write(1, u, 0, key)], stage, finished))
  }

  /** The policy message at sign-in, with its clean-up. */
  function SignIn(u: User): seq<Event> {
    [SetPolicy(Some(u), false, Some(false))] + [Work(0, Cat(u))] + [Work(0, Cat(u))] + [Work(0, Cat(u))]
    + [Work(0, Cat(u))] + [Work(0, Cat(u))] + [Work(0, Cat(u))]
  }

  lemma SignedIn(u: User)
    ensures Run(SignIn(u)) == Quiet(u, Disk(map[], []), 1)
  {
    var cfg, h := Settings(Some(u), false, Some(false), 1), History(map[], map[], Some(1), 0);
    var p1 := [SetPolicy(Some(u), false, Some(false))];
    var w := [Work(0, Cat(u))];
    RunSnoc([], p1[0]);
    assert [] + p1 == p1;
    assert Run(p1) == State(cfg, Chain([Policy(1, None, None)], Waiting, 0), Disk(map[], []), map[], [], h);
    hide Run, WorkWrite, WorkPurge, OpenName, DropKey;
    RunSnoc(p1, w[0]);
    assert Run(p1 + w) == State(cfg, Chain([Policy(1, None, None)], Listing, 0), Disk(map[], []), map[], [], h);
    RunSnoc(p1 + w, w[0]);
    assert NamesOf(Disk(map[], []), Catalog) == {};
    assert Run(p1 + w + w) == State(cfg, Chain([Policy(1, None, None)], Deleting({}), 0), Disk(map[], []), map[], [], h);
    RunSnoc(p1 + w + w, w[0]);
    assert Run(p1 + w + w + w) == State(cfg, Chain([Policy(1, None, None)], ArtworkChoice, 0), Disk(map[], []), map[], [], h);
    RunSnoc(p1 + w + w + w, w[0]);
    assert Run(p1 + w + w + w + w) == State(cfg, Chain([Policy(1, None, None)], ArtworkListing, 0), Disk(map[], []), map[], [], h);
    RunSnoc(p1 + w + w + w + w, w[0]);
    assert NamesOf(Disk(map[], []), Artwork) == {};
    assert Run(p1 + w + w + w + w + w) == State(cfg, Chain([Policy(1, None, None)], ArtworkNext({}), 0), Disk(map[], []), map[], [], h);
    RunSnoc(p1 + w + w + w + w + w, w[0]);
  }

  /** A request for a key that is not cached, up to the end of its lookup. */
  function Ask(events: seq<Event>, key: Key): seq<Event> {
    events + [Fetch(0, Catalog, key)] + [Resume(0)] + [Open(0)] + [Match(0)]
  }

  lemma Asked(events: seq<Event>, u: User, d: Disk, es: seq<Entry>, finished: nat, key: Key)
    requires Run(events) == Quiet(u, d, finished) && Holds(d, u, es) && !HasKey(es, key)
    ensures Run(Ask(events, key)) == Asking(u, Shelf(u, es), finished, key, Deciding(1, u, 0, None))
  {
    hide Run, WorkOn;
    var e1 := events + [Fetch(0, Catalog, key)];
    RunSnoc(events, Fetch(0, Catalog, key));
    assert Run(e1) == Asking(u, d, finished, key, Awaiting(finished));
    var e2 := e1 + [Resume(0)];
    RunSnoc(e1, Resume(0));
    assert Run(e2) == Asking(u, d, finished, key, Opening(1, u, Cat(u)));
    var e3 := e2 + [Open(0)];
    RunSnoc(e2, Open(0));
    Opened(d, u, es);
    assert Run(e3) == Asking(u, Shelf(u, es), finished, key, Matching(1, u, 0));
    RunSnoc(e3, Match(0));
    assert EntriesOf(Shelf(u, es), 0) == es;
    assert Lookup(es, key) == None;
  }

  lemma Opened(d: Disk, u: User, es: seq<Entry>)
    requires Holds(d, u, es)
    ensures OpenName(d, Cat(u)) == (Shelf(u, es), 0)
  {
    if d != Shelf(u, es) {
      assert d.names[Cat(u) := 0] == map[Cat(u) := 0] && d.boxes + [Box(Cat(u), [])] == [Box(Cat(u), es)];
    }
  }

  /** The response comes, and its write gets as far as storing it. */
  function Store(events: seq<Event>, u: User, key: Key): seq<Event> {
    Ask(events, key) + [Decide(0, 1)] + [Respond(0, true)] + [Work(1, Cat(u))] + [Work(1, Cat(u))]
  }

  lemma Stored(events: seq<Event>, u: User, d: Disk, es: seq<Entry>, finished: nat, key: Key)
    requires Run(events) == Quiet(u, d, finished) && Holds(d, u, es) && !HasKey(es, key)
    ensures Run(Store(events, u, key)) == Writing(u, Shelf(u, es + [Entry(key, 1, u, 1)]), finished, key, Listing)
  {
    Asked(events, u, d, es, finished, key);
    hide Run, Asking, HasKey;
    var e1 := Ask(events, key) + [Decide(0, 1)];
    RunSnoc(Ask(events, key), Decide(0, 1));
    DecideStep(u, Shelf(u, es), finished, key);
    var e2 := e1 + [Respond(0, true)];
    RunSnoc(e1, Respond(0, true));
    RespondStep(u, Shelf(u, es), finished, key);
    RunSnoc(e2, Work(1, Cat(u)));
    assert Run(e2 + [Work(1, Cat(u))]) == Writing(u, Shelf(u, es), finished, key, Putting(1));
    RunSnoc(e2 + [Work(1, Cat(u))], Work(1, Cat(u)));
    StoreStep(u, es, finished, key);
  }

  lemma DecideStep(u: User, d: Disk, finished: nat, key: Key)
    ensures Step(Asking(u, d, finished, key, Deciding(1, u, 0, None)), Decide(0, 1))
         == Asking(u, d, finished, key, Fetching(1, u, 0))
  {
    hide WorkOn;
  }

  lemma RespondStep(u: User, d: Disk, finished: nat, key: Key)
    ensures Step(Asking(u, d, finished, key, Fetching(1, u, 0)), Respond(0, true)) == Writing(u, d, finished, key, Waiting)
  {
    hide WorkOn;
  }

  lemma StoreStep(u: User, es: seq<Entry>, finished: nat, key: Key)
    requires !HasKey(es, key)
    ensures Step(Writing(u, Shelf(u, es), finished, key, Putting(1)), Work(1, Cat(u)))
         == Writing(u, Shelf(u, es + [Entry(key, 1, u, 1)]), finished, key, Listing)
  {
    PutNew(es, Entry(key, 1, u, 1));
    hide Put, HasKey, WorkPurge, WorkPolicy;
    assert EntriesOf(Shelf(u, es), 0) == es;
    assert SetEntries(Shelf(u, es), 0, es + [Entry(key, 1, u, 1)]) == Shelf(u, es + [Entry(key, 1, u, 1)]);
  }

  lemma PutNew(es: seq<Entry>, e: Entry)
    requires !HasKey(es, e.key)
    ensures Put(es, e) == es + [e]
  {
    WithoutAbsent(es, e.key);
    hide Without;
  }

  /** The write ends, with nothing to evict. */
  function Keep(events: seq<Event>, u: User, key: Key): seq<Event> {
    Store(events, u, key) + [Work(1, Cat(u))] + [Work(1, Cat(u))]
  }

  lemma Kept(events: seq<Event>, u: User, d: Disk, es: seq<Entry>, finished: nat, key: Key)
    requires Run(events) == Quiet(u, d, finished) && Holds(d, u, es) && !HasKey(es, key) && |es| < ARTWORK_MAX_ITEMS
    ensures Run(Keep(events, u, key)) == Quiet(u, Shelf(u, es + [Entry(key, 1, u, 1)]), finished + 1)
  {
    hide Run, HasKey;
    var more := es + [Entry(key, 1, u, 1)];
    Stored(events, u, d, es, finished, key);
    var e1 := Store(events, u, key) + [Work(1, Cat(u))];
    RunSnoc(Store(events, u, key), Work(1, Cat(u)));
    assert EntriesOf(Shelf(u, more), 0) == more && |Keys(more)| <= ARTWORK_MAX_ITEMS && Excess(Keys(more)) == [];
    assert Run(e1) == Writing(u, Shelf(u, more), finished, key, Evicting([]));
    RunSnoc(e1, Work(1, Cat(u)));
  }

  // ---------------------------------------------------------------- a cache above its limit

  /** The `n`th of a sequence of different keys. */
  function NthKey(n: nat): Key {
    seq(n, i => 'k')
  }

  function Entries(u: User, n: nat): seq<Entry> {
    seq(n, i requires 0 <= i < n => Entry(NthKey(i), 1, u, 1))
  }

  function Fill(u: User, n: nat): seq<Event> {
    if n == 0 then SignIn(u) else Keep(Fill(u, n - 1), u, NthKey(n - 1))
  }

  lemma NewKey(u: User, n: nat)
    ensures !HasKey(Entries(u, n), NthKey(n)) && Entries(u, n + 1) == Entries(u, n) + [Entry(NthKey(n), 1, u, 1)]
  {
    forall i | 0 <= i < n ensures Entries(u, n)[i].key != NthKey(n) {
      assert |NthKey(i)| != |NthKey(n)|;
    }
  }

  lemma {:induction false} Filled(u: User, n: nat)
    requires n <= ARTWORK_MAX_ITEMS
    ensures exists d :: Holds(d, u, Entries(u, n)) && Run(Fill(u, n)) == Quiet(u, d, n + 1)
  {
    hide Run, Keep, SignIn, Quiet, Holds, Entries, NthKey, HasKey;
    Shelves(u, n);
    if n == 0 {
      SignedIn(u);
    } else {
      Filled(u, n - 1);
      var d :| Holds(d, u, Entries(u, n - 1)) && Run(Fill(u, n - 1)) == Quiet(u, d, n);
      NewKey(u, n - 1);
      Kept(Fill(u, n - 1), u, d, Entries(u, n - 1), n, NthKey(n - 1));
    }
  }

  lemma Shelves(u: User, n: nat)
    ensures Holds(Disk(map[], []), u, Entries(u, 0)) && Holds(Shelf(u, Entries(u, n)), u, Entries(u, n)) && |Entries(u, n)| == n
  {
    assert Entries(u, 0) == [];
  }

  /** A full cache, one more entry stored, and the worker is terminated before the oldest is evicted: the
      cache can be found by its name and holds one entry too many. */
  lemma CutWriteOverLimit(u: User)
    ensures var s := Run(Store(Fill(u, ARTWORK_MAX_ITEMS), u, NthKey(ARTWORK_MAX_ITEMS)) + [Restart]);
            Cat(u) in s.disk.names && |EntriesOf(s.disk, s.disk.names[Cat(u)])| == ARTWORK_MAX_ITEMS + 1
  {
    Filled(u, ARTWORK_MAX_ITEMS);
    Shelves(u, ARTWORK_MAX_ITEMS);
    var es := Entries(u, ARTWORK_MAX_ITEMS);
    var d :| Holds(d, u, es) && Run(Fill(u, ARTWORK_MAX_ITEMS)) == Quiet(u, d, ARTWORK_MAX_ITEMS + 1);
    NewKey(u, ARTWORK_MAX_ITEMS);
    hide Run, Fill, Entries, NthKey;
    Stored(Fill(u, ARTWORK_MAX_ITEMS), u, d, es, ARTWORK_MAX_ITEMS + 1, NthKey(ARTWORK_MAX_ITEMS));
    RunSnoc(Store(Fill(u, ARTWORK_MAX_ITEMS), u, NthKey(ARTWORK_MAX_ITEMS)), Restart);
    hide Store;
  }

  // ---------------------------------------------------------------- an entry older than a mutation

  /** An entry is cached, a mutation is announced, and the worker is terminated before its purge. */
  function Lost(u: User, key: Key): seq<Event> {
    Keep(SignIn(u), u, key) + [Mutate] + [Restart]
  }

  function Second(u: User, key: Key, owner: Option<User>, generation: nat, chain: Chain, requests: Requests,
                  purged: map<Kind, nat>, switchedAt: Option<nat>): State {
    State(Settings(owner, false, if owner.Some? then Some(false) else None, generation), chain,
          Shelf(u, [Entry(key, 1, u, 1)]), requests, [], History(map[Artwork := 3], purged, switchedAt, 0))
  }

  function Waits(key: Key, phase: Phase): Requests {
    map[1 := Request(Catalog, key, 0, phase)]
  }

  lemma LostAt(u: User, key: Key)
    ensures Run(Keep(SignIn(u), u, key)).cfg.generation == 1
    ensures Run(Lost(u, key)) == State(Settings(None, false, None, 2), Chain([], Waiting, 0), Shelf(u, [Entry(key, 1, u, 1)]),
                                       map[], [], History(map[], map[], None, 0))
  {
    hide Run;
    SignedIn(u);
    assert Holds(Disk(map[], []), u, []);
    assert [] + [Entry(key, 1, u, 1)] == [Entry(key, 1, u, 1)];
    Kept(SignIn(u), u, Disk(map[], []), [], 1, key);
    var e0 := Keep(SignIn(u), u, key);
    hide Keep, SignIn;
    RunSnoc(e0, Mutate);
    RunSnoc(e0 + [Mutate], Restart);
  }

  /** In the next life the images are purged, and while that purge runs the user is signed in, asks for
      the key, and is signed out. */
  function Back(u: User, key: Key): seq<Event> {
    Lost(u, key) + [ClearImages] + [SetPolicy(Some(u), false, Some(false))] + [Fetch(1, Catalog, key)]
    + [SetPolicy(None, false, None)]
  }

  lemma BackAt(u: User, key: Key)
    ensures Run(Back(u, key))
         == Second(u, key, None, 5, Chain([Purge(Artwork, 3), Policy(4, None, None), Policy(5, Some(u), Some(false))], Waiting, 0),
                   Waits(key, Awaiting(2)), map[], Some(5))
  {
    LostAt(u, key);
    hide Run, Lost, WorkOn;
    var e1 := Lost(u, key) + [ClearImages];
    RunSnoc(Lost(u, key), ClearImages);
    assert map[][Artwork := 3] == map[Artwork := 3];
    assert Run(e1) == Second(u, key, None, 3, Chain([Purge(Artwork, 3)], Waiting, 0), map[], map[], None);
    var e2 := e1 + [SetPolicy(Some(u), false, Some(false))];
    RunSnoc(e1, SetPolicy(Some(u), false, Some(false)));
    assert Run(e2) == Second(u, key, Some(u), 4, Chain([Purge(Artwork, 3), Policy(4, None, None)], Waiting, 0), map[], map[], Some(4));
    var e3 := e2 + [Fetch(1, Catalog, key)];
    RunSnoc(e2, Fetch(1, Catalog, key));
    assert Run(e3) == Second(u, key, Some(u), 4, Chain([Purge(Artwork, 3), Policy(4, None, None)], Waiting, 0),
                             Waits(key, Awaiting(2)), map[], Some(4));
    RunSnoc(e3, SetPolicy(None, false, None));
  }

  /** The purge ends, and the clean-up of the sign-in, which finds the same owner as before it, skips the
      catalogue. */
  function Skipped(u: User, key: Key): seq<Event> {
    Back(u, key) + [Work(0, Cat(u))] + [Work(0, Cat(u))] + [Work(0, Cat(u))] + [Work(0, Cat(u))]
  }

  lemma SkippedAt(u: User, key: Key)
    ensures Run(Skipped(u, key))
         == Second(u, key, None, 5, Chain([Policy(4, None, None), Policy(5, Some(u), Some(false))], ArtworkListing, 1),
                   Waits(key, Awaiting(2)), map[Artwork := 3], Some(5))
  {
    BackAt(u, key);
    hide Run, Back, WorkWrite, OpenName, DropKey;
    var a, b, w := Policy(4, None, None), Policy(5, Some(u), Some(false)), Work(0, Cat(u));
    var rs := Waits(key, Awaiting(2));
    var e0 := Back(u, key);
    assert NamesOf(Shelf(u, [Entry(key, 1, u, 1)]), Artwork) == {};
    RunSnoc(e0, w);
    assert Run(e0 + [w]) == Second(u, key, None, 5, Chain([Purge(Artwork, 3), a, b], Deleting({}), 0), rs, map[], Some(5));
    RunSnoc(e0 + [w], w);
    assert map[][Artwork := 3] == map[Artwork := 3];
    assert Run(e0 + [w] + [w]) == Second(u, key, None, 5, Chain([a, b], Waiting, 1), rs, map[Artwork := 3], Some(5));
    RunSnoc(e0 + [w] + [w], w);
    assert Run(e0 + [w] + [w] + [w]) == Second(u, key, None, 5, Chain([a, b], ArtworkChoice, 1), rs, map[Artwork := 3], Some(5));
    RunSnoc(e0 + [w] + [w] + [w], w);
  }

  /** The user is signed in again, and that clean-up ends. */
  function Again(u: User, key: Key): seq<Event> {
    Skipped(u, key) + [SetPolicy(Some(u), false, Some(false))] + [Work(0, Cat(u))] + [Work(0, Cat(u))]
  }

  lemma AgainAt(u: User, key: Key)
    ensures Run(Again(u, key))
         == Second(u, key, Some(u), 6, Chain([Policy(5, Some(u), Some(false)), Policy(6, None, None)], Waiting, 2),
                   Waits(key, Awaiting(2)), map[Artwork := 3], Some(6))
  {
    SkippedAt(u, key);
    hide Run, Skipped, WorkWrite, WorkPurge, OpenName, DropKey;
    var a, b, c, w := Policy(4, None, None), Policy(5, Some(u), Some(false)), Policy(6, None, None), Work(0, Cat(u));
    var rs := Waits(key, Awaiting(2));
    var e1 := Skipped(u, key) + [SetPolicy(Some(u), false, Some(false))];
    RunSnoc(Skipped(u, key), SetPolicy(Some(u), false, Some(false)));
    assert Run(e1) == Second(u, key, Some(u), 6, Chain([a, b, c], ArtworkListing, 1), rs, map[Artwork := 3], Some(6));
    RunSnoc(e1, w);
    assert NamesOf(Shelf(u, [Entry(key, 1, u, 1)]), Artwork) == {};
    assert Run(e1 + [w]) == Second(u, key, Some(u), 6, Chain([a, b, c], ArtworkNext({}), 1), rs, map[Artwork := 3], Some(6));
    RunSnoc(e1 + [w], w);
  }

  /** The request goes on before the other clean-ups run. */
  function Stale(u: User, key: Key): seq<Event> {
    Again(u, key) + [Resume(1)] + [Open(1)] + [Match(1)] + [Decide(1, 2)]
  }

  /** A run in which a request, in the second life of the worker, is answered from an entry whose own
      request captured its epoch before a mutation that the first life announced. */
  lemma StaleAfterRestart(u: User, key: Key)
    ensures var s := Run(Stale(u, key));
            |s.served| == 1 && s.served[0].request.key == key && s.served[0].request.floor == 0
            && s.served[0].entry.epoch <= Run(Keep(SignIn(u), u, key)).cfg.generation
  {
    LostAt(u, key);
    AgainAt(u, key);
    hide Run, Again, WorkOn, Keep, SignIn;
    var chain := Chain([Policy(5, Some(u), Some(false)), Policy(6, None, None)], Waiting, 2);
    var entry := Entry(key, 1, u, 1);
    var e1 := Again(u, key) + [Resume(1)];
    RunSnoc(Again(u, key), Resume(1));
    assert Run(e1) == Second(u, key, Some(u), 6, chain, Waits(key, Opening(6, u, Cat(u))), map[Artwork := 3], Some(6));
    var e2 := e1 + [Open(1)];
    RunSnoc(e1, Open(1));
    assert Run(e2) == Second(u, key, Some(u), 6, chain, Waits(key, Matching(6, u, 0)), map[Artwork := 3], Some(6));
    var e3 := e2 + [Match(1)];
    RunSnoc(e2, Match(1));
    assert EntriesOf(Shelf(u, [entry]), 0) == [entry] && Lookup([entry], key) == Some(entry);
    assert Run(e3) == Second(u, key, Some(u), 6, chain, Waits(key, Deciding(6, u, 0, Some(entry))), map[Artwork := 3], Some(6));
    RunSnoc(e3, Decide(1, 2));
  }
}
