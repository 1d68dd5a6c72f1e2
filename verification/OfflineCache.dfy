/** The offline cache protocol of the service worker.

    Any number of intercepted requests and one first-in-first-out chain of storage operations
    interleave.  Every place where the program awaits something is a step boundary, so a request
    or an operation may find a different world after each of its steps. */
module OfflineCache {
  import opened Prelude

  type User = string
  type Key = string

  const ARTWORK_MAX_ITEMS: nat := 1000
  const ARTWORK_MAX_AGE_MS: nat := 2592000000
  const EXTERNAL_PREFIX: string := "/api/artwork/external/"

  datatype Kind = Artwork | Catalog

  /** The name of an account cache. */
  datatype Name = ArtworkOf(user: User) | CatalogOf(user: User, enriched: bool) {
    function Kind(): Kind {
      if ArtworkOf? then Artwork else Catalog
    }
  }

  /** A stored response.  `account` and `epoch` record which request stored it: the owner and the
      generation that the request captured before fetching. */
  datatype Entry = Entry(key: Key, storedAt: nat, account: User, epoch: nat)

  /** A cache object.  Deleting a name detaches the object; whoever opened it keeps its handle. */
  datatype Box = Box(name: Name, entries: seq<Entry>)

  datatype Disk = Disk(names: map<Name, nat>, boxes: seq<Box>)

  datatype Settings = Settings(owner: Option<User>, externalArtwork: bool, metadata: Option<bool>, generation: nat)

  datatype Op =
    | Write(epoch: nat, account: User, box: nat, key: Key)
    | Purge(kind: Kind, gen: nat)
    | Policy(gen: nat, previous: Option<User>, previousMetadata: Option<bool>)

  /** How far the operation at the head of the chain has got. */
  datatype Stage =
    | Waiting
    | Putting(at: nat)
    | Listing
    | Evicting(keys: seq<Key>)
    | Deleting(todo: set<Name>)
    | ArtworkChoice
    | ArtworkListing
    | ArtworkNext(todo: set<Name>)
    | ArtworkDropping(todo: set<Name>, next: Name)
    | ArtworkOpening(todo: set<Name>, next: Name)
    | ArtworkScanning(todo: set<Name>, box: nat)
    | ArtworkTrimming(todo: set<Name>, box: nat, keys: seq<Key>)

  /** `finished` counts the operations that have left the chain. */
  datatype Chain = Chain(queue: seq<Op>, stage: Stage, finished: nat)

  datatype Phase =
    | Awaiting(ticket: nat)
    | Opening(epoch: nat, account: User, name: Name)
    | Matching(epoch: nat, account: User, box: nat)
    | Deciding(epoch: nat, account: User, box: nat, found: Option<Entry>)
    | Dropping(epoch: nat, account: User, box: nat)
    | Fetching(epoch: nat, account: User, box: nat)

  /** `floor` records the latest purge of the request's kind announced before the request started. */
  datatype Request = Request(kind: Kind, key: Key, floor: nat, phase: Phase)

  type Requests = map<nat, Request>

  /** A response answered from a cache, with the owner and the clock at the moment of return. */
  datatype Served = Served(request: Request, entry: Entry, owner: Option<User>, now: nat)

  /** What the proofs remember: per kind, the generation of the latest announced purge and of the
      latest finished one; the generation of the latest change of owner in this life of the worker;
      and how many writes were stopped between storing an entry and evicting the excess. */
  datatype History = History(announced: map<Kind, nat>, purged: map<Kind, nat>, switchedAt: Option<nat>, cut: nat) {
    function Announced(kind: Kind): nat {
      if kind in announced then announced[kind] else 0
    }

    function Purged(kind: Kind): nat {
      if kind in purged then purged[kind] else 0
    }
  }

  datatype State = State(cfg: Settings, chain: Chain, disk: Disk, requests: Requests, served: seq<Served>, history: History)

  datatype Event =
    | Fetch(id: nat, kind: Kind, key: Key)
    | Resume(id: nat)
    | Open(id: nat)
    | Match(id: nat)
    | Decide(id: nat, now: nat)
    | Drop(id: nat)
    | Respond(id: nat, cacheable: bool)
    | Mutate
    | ClearImages
    | PurgeStale
    | SetPolicy(newOwner: Option<User>, external: bool, newMetadata: Option<bool>)
    | Work(now: nat, pick: Name)
    | Restart

  // ---------------------------------------------------------------- entries and objects

  ghost predicate Distinct(es: seq<Entry>) {
    forall i, j :: 0 <= i < j < |es| ==> es[i].key != es[j].key
  }

  function Lookup(es: seq<Entry>, k: Key): (found: Option<Entry>)
    ensures found.Some? ==> found.value in es && found.value.key == k
    ensures found.None? ==> forall i :: 0 <= i < |es| ==> es[i].key != k
  {
    if es == [] then None else if es[0].key == k then Some(es[0]) else Lookup(es[1..], k)
  }

  function Without(es: seq<Entry>, ks: set<Key>): (r: seq<Entry>)
    ensures |r| <= |es|
    ensures forall e :: e in r <==> e in es && e.key !in ks
    ensures Distinct(es) ==> Distinct(r)
  {
    if es == [] then []
    else if es[0].key in ks then Without(es[1..], ks)
    else
      var rest := Without(es[1..], ks);
      assert forall e :: e in [es[0]] + rest <==> e == es[0] || e in rest;
      [es[0]] + rest
  }

  function Remove(es: seq<Entry>, k: Key): (r: seq<Entry>)
    ensures |r| <= |es|
    ensures forall e :: e in r <==> e in es && e.key != k
    ensures Distinct(es) ==> Distinct(r)
  {
    Without(es, {k})
  }

  /** Storing replaces the entry with the same key and appends. */
  function Put(es: seq<Entry>, e: Entry): (r: seq<Entry>)
    ensures |r| <= |es| + 1
    ensures forall x :: x in r <==> x == e || (x in es && x.key != e.key)
    ensures Distinct(es) ==> Distinct(r)
  {
    Remove(es, e.key) + [e]
  }

  function Keys(es: seq<Entry>): (ks: seq<Key>)
    ensures |ks| == |es| && forall i :: 0 <= i < |es| ==> ks[i] == es[i].key
  {
    seq(|es|, i requires 0 <= i < |es| => es[i].key)
  }

  function KeySet(ks: seq<Key>): set<Key> {
    set k | k in ks
  }

  function ExternalKeys(ks: seq<Key>): seq<Key> {
    if ks == [] then []
    else (if EXTERNAL_PREFIX <= ks[0] then [ks[0]] else []) + ExternalKeys(ks[1..])
  }

  function Excess(ks: seq<Key>): seq<Key> {
    ks[..if |ks| > ARTWORK_MAX_ITEMS then |ks| - ARTWORK_MAX_ITEMS else 0]
  }

  function EntriesOf(d: Disk, box: nat): seq<Entry> {
    if box < |d.boxes| then d.boxes[box].entries else []
  }

  function SetEntries(d: Disk, box: nat, es: seq<Entry>): Disk {
    if box < |d.boxes| then d.(boxes := d.boxes[box := d.boxes[box].(entries := es)]) else d
  }

  function DropKey(d: Disk, box: nat, k: Key): Disk {
    SetEntries(d, box, Remove(EntriesOf(d, box), k))
  }

  /** `caches.open`: the object of that name, created when there is none. */
  function OpenName(d: Disk, name: Name): (Disk, nat) {
    if name in d.names then (d, d.names[name])
    else (Disk(d.names[name := |d.boxes|], d.boxes + [Box(name, [])]), |d.boxes|)
  }

  /** `caches.delete`: the name goes, the object stays with whoever holds it. */
  function DeleteName(d: Disk, name: Name): Disk {
    d.(names := d.names - {name})
  }

  function NamesOf(d: Disk, kind: Kind): set<Name> {
    set n | n in d.names && n.Kind() == kind
  }

  function NameFor(kind: Kind, account: User, metadata: Option<bool>): Name {
    if kind == Artwork then ArtworkOf(account) else CatalogOf(account, metadata == Some(true))
  }

  // ---------------------------------------------------------------- the chain of operations

  function Finish(c: Chain): Chain
    requires c.queue != []
  {
    Chain(c.queue[1..], Waiting, c.finished + 1)
  }

  function Enqueue(c: Chain, op: Op): Chain {
    c.(queue := c.queue + [op])
  }

  function To(c: Chain, stage: Stage): Chain {
    c.(stage := stage)
  }

  /** One step of a write: re-check the captured epoch and owner, store, list, evict the oldest. */
  function WorkWrite(c: Chain, d: Disk, cfg: Settings, now: nat): (Chain, Disk)
    requires c.queue != [] && c.queue[0].Write?
  {
    var op := c.queue[0];
    match c.stage
    case Waiting =>
      (if op.epoch != cfg.generation || Some(op.account) != cfg.owner then Finish(c) else To(c, Putting(now)), d)
    case Putting(at) =>
      (To(c, Listing), SetEntries(d, op.box, Put(EntriesOf(d, op.box), Entry(op.key, at, op.account, op.epoch))))
    case Listing => (To(c, Evicting(Excess(Keys(EntriesOf(d, op.box))))), d)
    case Evicting(keys) =>
      if keys == [] then (Finish(c), d) else (To(c, Evicting(keys[1..])), DropKey(d, op.box, keys[0]))
    case _ => (c, d)
  }

  /** One step of deleting the listed names, in any order; `true` when nothing is left. */
  function DeleteNext(c: Chain, d: Disk, todo: set<Name>, pick: Name): (Chain, Disk) {
    if pick in todo then (To(c, Deleting(todo - {pick})), DeleteName(d, pick)) else (c, d)
  }

  function WorkPurge(c: Chain, d: Disk, pick: Name): (Chain, Disk)
    requires c.queue != [] && c.queue[0].Purge?
  {
    match c.stage
    case Waiting => (To(c, Deleting(NamesOf(d, c.queue[0].kind))), d)
    case Deleting(todo) => if todo == {} then (Finish(c), d) else DeleteNext(c, d, todo, pick)
    case _ => (c, d)
  }

  /** One step of a policy change: the conditions compare the owner captured when the message
      arrived with the owner at the time of the step. */
  function WorkPolicy(c: Chain, d: Disk, cfg: Settings, pick: Name): (Chain, Disk)
    requires c.queue != [] && c.queue[0].Policy?
  {
    var op := c.queue[0];
    match c.stage
    case Waiting =>
      (To(c, if op.previous != cfg.owner || op.previousMetadata != cfg.metadata then Listing else ArtworkChoice), d)
    case Listing => (To(c, Deleting(NamesOf(d, Catalog))), d)
    case Deleting(todo) => if todo == {} then (To(c, ArtworkChoice), d) else DeleteNext(c, d, todo, pick)
    case ArtworkChoice =>
      (if op.previous != cfg.owner || !cfg.externalArtwork then To(c, ArtworkListing) else Finish(c), d)
    case ArtworkListing => (To(c, ArtworkNext(NamesOf(d, Artwork))), d)
    case ArtworkNext(todo) =>
      (if todo == {} then Finish(c)
       else if pick !in todo then c
       else To(c, if op.previous != cfg.owner then ArtworkDropping(todo - {pick}, pick) else ArtworkOpening(todo - {pick}, pick)), d)
    case ArtworkDropping(todo, next) => (To(c, ArtworkNext(todo)), DeleteName(d, next))
    case ArtworkOpening(todo, next) =>
      var (d', box) := OpenName(d, next);
      (To(c, ArtworkScanning(todo, box)), d')
    case ArtworkScanning(todo, box) => (To(c, ArtworkTrimming(todo, box, ExternalKeys(Keys(EntriesOf(d, box))))), d)
    case ArtworkTrimming(todo, box, keys) =>
      if keys == [] then (To(c, ArtworkNext(todo)), d)
      else (To(c, ArtworkTrimming(todo, box, keys[1..])), DropKey(d, box, keys[0]))
    case _ => (c, d)
  }

  function WorkOn(c: Chain, d: Disk, cfg: Settings, now: nat, pick: Name): (Chain, Disk) {
    if c.queue == [] then (c, d)
    else match c.queue[0]
      case Write(_, _, _, _) => WorkWrite(c, d, cfg, now)
      case Purge(_, _) => WorkPurge(c, d, pick)
      case Policy(_, _, _) => WorkPolicy(c, d, cfg, pick)
  }

  // ---------------------------------------------------------------- one step of the worker

  function At(s: State, id: nat, phase: Phase): State
    requires id in s.requests
  {
    s.(requests := s.requests[id := s.requests[id].(phase := phase)])
  }

  function Gone(s: State, id: nat): State {
    s.(requests := s.requests - {id})
  }

  /** The fetch handler's guards for a cacheable GET. */
  function StepFetch(s: State, id: nat, kind: Kind, key: Key): State {
    if id in s.requests || s.cfg.owner.None? then s
    else if kind == Catalog && s.cfg.metadata.None? then s
    else if kind == Artwork && EXTERNAL_PREFIX <= key && !s.cfg.externalArtwork then s
    else s.(requests := s.requests[id :=
              Request(kind, key, s.history.Announced(kind), Awaiting(s.chain.finished + |s.chain.queue|))])
  }

  /** The chain as it was when the request started has run: capture the generation and the owner. */
  function StepResume(s: State, id: nat): State {
    if id in s.requests && s.requests[id].phase.Awaiting? && s.requests[id].phase.ticket <= s.chain.finished then
      if s.cfg.owner.None? then Gone(s, id)
      else At(s, id, Opening(s.cfg.generation, s.cfg.owner.value,
                             NameFor(s.requests[id].kind, s.cfg.owner.value, s.cfg.metadata)))
    else s
  }

  function StepOpen(s: State, id: nat): State {
    if id in s.requests && s.requests[id].phase.Opening? then
      var p := s.requests[id].phase;
      var (d', box) := OpenName(s.disk, p.name);
      At(s.(disk := d'), id, Matching(p.epoch, p.account, box))
    else s
  }

  function StepMatch(s: State, id: nat): State {
    if id in s.requests && s.requests[id].phase.Matching? then
      var p := s.requests[id].phase;
      At(s, id, Deciding(p.epoch, p.account, p.box, Lookup(EntriesOf(s.disk, p.box), s.requests[id].key)))
    else s
  }

  /** The checks after the lookup: a changed generation or owner sends the request to the network. */
  function StepDecide(s: State, id: nat, now: nat): State {
    if id in s.requests && s.requests[id].phase.Deciding? then
      var r := s.requests[id];
      var p := r.phase;
      if p.epoch != s.cfg.generation || Some(p.account) != s.cfg.owner then Gone(s, id)
      else if p.found.None? then At(s, id, Fetching(p.epoch, p.account, p.box))
      else if p.found.value.storedAt > 0 && now - p.found.value.storedAt < ARTWORK_MAX_AGE_MS then
        Gone(s, id).(served := s.served + [Served(r, p.found.value, s.cfg.owner, now)])
      else At(s, id, Dropping(p.epoch, p.account, p.box))
    else s
  }

  function StepDrop(s: State, id: nat): State {
    if id in s.requests && s.requests[id].phase.Dropping? then
      var p := s.requests[id].phase;
      At(s.(disk := DropKey(s.disk, p.box, s.requests[id].key)), id, Fetching(p.epoch, p.account, p.box))
    else s
  }

  function StepRespond(s: State, id: nat, cacheable: bool): State {
    if id in s.requests && s.requests[id].phase.Fetching? then
      var p := s.requests[id].phase;
      if cacheable then
        Gone(s, id).(chain := Enqueue(s.chain, Write(p.epoch, p.account, p.box, s.requests[id].key)))
      else Gone(s, id)
    else s
  }

  /** A mutation or a purge message: bump the generation, chain the purge. */
  function StepAnnounce(s: State, kind: Kind): State {
    var g := s.cfg.generation + 1;
    s.(cfg := s.cfg.(generation := g),
       chain := Enqueue(s.chain, Purge(kind, g)),
       history := s.history.(announced := s.history.announced[kind := g]))
  }

  function StepPolicy(s: State, newOwner: Option<User>, external: bool, newMetadata: Option<bool>): State {
    var g := s.cfg.generation + 1;
    s.(cfg := Settings(newOwner, external, newMetadata, g),
       chain := Enqueue(s.chain, Policy(g, s.cfg.owner, s.cfg.metadata)),
       history := s.history.(switchedAt := if newOwner != s.cfg.owner then Some(g) else s.history.switchedAt))
  }

  function Completed(h: History, op: Op): History
    requires op.Purge?
  {
    h.(purged := h.purged[op.kind := if op.gen < h.Purged(op.kind) then h.Purged(op.kind) else op.gen])
  }

  function StepWork(s: State, now: nat, pick: Name): State {
    var (c', d') := WorkOn(s.chain, s.disk, s.cfg, now, pick);
    var ended := s.chain.queue != [] && s.chain.queue[0].Purge? && c'.finished > s.chain.finished;
    s.(chain := c', disk := d', history := if ended then Completed(s.history, s.chain.queue[0]) else s.history)
  }

  /** The worker is terminated and started again: module state and suspended work are lost,
      storage stays.  Only events the new worker sees count as announced.  (The generation is
      compared within one life only, so it may as well go on counting.) */
  function StepRestart(s: State): State {
    State(Settings(None, false, None, s.cfg.generation), Chain([], Waiting, 0), s.disk, map[], s.served,
          History(s.history.purged, s.history.purged, None, s.history.cut + (if Stopped(s.chain) then 1 else 0)))
  }

  predicate Stopped(c: Chain) {
    c.queue != [] && c.queue[0].Write? && (c.stage.Listing? || c.stage.Evicting?)
  }

  function Step(s: State, e: Event): State {
    match e
    case Fetch(id, kind, key) => StepFetch(s, id, kind, key)
    case Resume(id) => StepResume(s, id)
    case Open(id) => StepOpen(s, id)
    case Match(id) => StepMatch(s, id)
    case Decide(id, now) => StepDecide(s, id, now)
    case Drop(id) => StepDrop(s, id)
    case Respond(id, cacheable) => StepRespond(s, id, cacheable)
    case Mutate => StepAnnounce(s, Catalog)
    case ClearImages => StepAnnounce(s, Artwork)
    case PurgeStale => StepAnnounce(s, Catalog)
    case SetPolicy(o, x, m) => StepPolicy(s, o, x, m)
    case Work(now, pick) => StepWork(s, now, pick)
    case Restart => StepRestart(s)
  }

  const Init := State(Settings(None, false, None, 0), Chain([], Waiting, 0), Disk(map[], []), map[], [],
                      History(map[], map[], None, 0))

  function Run(events: seq<Event>): State {
    if events == [] then Init
    else Step(Run(events[..|events| - 1]), events[|events| - 1])
  }

  // ---------------------------------------------------------------- storage invariant

  ghost predicate BoxOk(b: Box, generation: nat) {
    && Distinct(b.entries)
    && forall e :: e in b.entries ==> e.account == b.name.user && e.epoch <= generation
  }

  ghost predicate DiskOk(d: Disk, generation: nat) {
    && (forall n :: n in d.names ==> d.names[n] < |d.boxes| && d.boxes[d.names[n]].name == n)
    && (forall b :: 0 <= b < |d.boxes| ==> BoxOk(d.boxes[b], generation))
  }

  ghost predicate HandleOk(d: Disk, kind: Kind, account: User, box: nat) {
    box < |d.boxes| && d.boxes[box].name.Kind() == kind && d.boxes[box].name.user == account
  }

  ghost predicate RequestOk(r: Request, d: Disk, generation: nat) {
    && r.floor <= generation
    && (!r.phase.Awaiting? ==> r.phase.epoch <= generation)
    && match r.phase
       case Awaiting(_) => true
       case Opening(_, account, name) => name.Kind() == r.kind && name.user == account
       case Matching(_, account, box) => HandleOk(d, r.kind, account, box)
       case Deciding(_, account, box, found) =>
         HandleOk(d, r.kind, account, box)
         && (found.Some? ==> found.value.account == account && found.value.key == r.key)
       case Dropping(_, account, box) => HandleOk(d, r.kind, account, box)
       case Fetching(_, account, box) => HandleOk(d, r.kind, account, box)
  }

  ghost predicate RequestsOk(rs: Requests, d: Disk, generation: nat) {
    forall id :: id in rs ==> RequestOk(rs[id], d, generation)
  }

  ghost predicate OpOk(op: Op, d: Disk, generation: nat) {
    match op
    case Write(epoch, account, box, _) => epoch <= generation && box < |d.boxes| && d.boxes[box].name.user == account
    case Purge(_, gen) => gen <= generation
    case Policy(gen, _, _) => gen <= generation
  }

  ghost predicate QueueOk(queue: seq<Op>, d: Disk, generation: nat) {
    forall i :: 0 <= i < |queue| ==> OpOk(queue[i], d, generation)
  }

  ghost predicate StageOk(c: Chain) {
    && (c.queue == [] ==> c.stage.Waiting?)
    && (c.queue != [] && c.queue[0].Write? ==> c.stage.Waiting? || c.stage.Putting? || c.stage.Listing? || c.stage.Evicting?)
    && (c.queue != [] && c.queue[0].Purge? ==> c.stage.Waiting? || c.stage.Deleting?)
    && (c.queue != [] && c.queue[0].Policy? ==> !c.stage.Putting? && !c.stage.Evicting?)
  }

  /** The head operation has stored an entry in object `b` and not finished evicting. */
  ghost predicate InWrite(c: Chain, b: nat) {
    Stopped(c) && c.queue[0].box == b
  }

  ghost predicate BoxBounded(c: Chain, b: nat, es: seq<Entry>, cut: nat) {
    && |es| <= ARTWORK_MAX_ITEMS + cut + (if InWrite(c, b) then 1 else 0)
    && (InWrite(c, b) && c.stage.Evicting? ==> |Without(es, KeySet(c.stage.keys))| <= ARTWORK_MAX_ITEMS)
  }

  ghost predicate Bounded(c: Chain, d: Disk, cut: nat) {
    forall b :: 0 <= b < |d.boxes| ==> BoxBounded(c, b, d.boxes[b].entries, cut)
  }

  ghost predicate HistoryOk(h: History, generation: nat) {
    && h.Announced(Artwork) <= generation && h.Announced(Catalog) <= generation
    && h.Purged(Artwork) <= generation && h.Purged(Catalog) <= generation
  }

  ghost predicate Storage(s: State) {
    && DiskOk(s.disk, s.cfg.generation)
    && RequestsOk(s.requests, s.disk, s.cfg.generation)
    && QueueOk(s.chain.queue, s.disk, s.cfg.generation)
    && StageOk(s.chain)
    && Bounded(s.chain, s.disk, s.history.cut)
    && HistoryOk(s.history, s.cfg.generation)
  }

  lemma {:induction false} WithoutTwice(es: seq<Entry>, a: set<Key>, b: set<Key>)
    ensures Without(Without(es, a), b) == Without(es, a + b)
  {
    if es != [] {
      WithoutTwice(es[1..], a, b);
    }
  }

  lemma {:induction false} WithoutNone(es: seq<Entry>)
    ensures Without(es, {}) == es
  {
    if es != [] {
      WithoutNone(es[1..]);
    }
  }

  lemma {:induction false} WithoutAbsent(es: seq<Entry>, k: Key)
    requires forall i :: 0 <= i < |es| ==> es[i].key != k
    ensures Without(es, {k}) == es
  {
    if es != [] {
      WithoutAbsent(es[1..], k);
    }
  }

  lemma WithoutFirst(es: seq<Entry>, ks: set<Key>)
    requires es != [] && es[0].key in ks
    ensures Without(es, ks) == Without(es[1..], ks)
  {
  }

  lemma DistinctTail(es: seq<Entry>, n: nat)
    requires Distinct(es) && 0 < n <= |es|
    ensures Distinct(es[1..]) && es[1..][n - 1..] == es[n..]
    ensures forall i :: 0 <= i < |es[n..]| ==> es[n..][i].key != es[0].key
  {
  }

  lemma KeysPrefix(es: seq<Entry>, n: nat)
    requires 0 < n <= |es|
    ensures KeySet(Keys(es)[..n]) == KeySet(Keys(es[1..])[..n - 1]) + {es[0].key}
  {
    assert Keys(es)[..n] == [es[0].key] + Keys(es[1..])[..n - 1];
  }

  /** Deleting the first `n` listed keys leaves the rest. */
  lemma {:induction false} WithoutPrefix(es: seq<Entry>, n: nat)
    requires Distinct(es) && n <= |es|
    ensures Without(es, KeySet(Keys(es)[..n])) == es[n..]
  {
    if n == 0 {
      WithoutNone(es);
      assert KeySet(Keys(es)[..n]) == {};
    } else {
      DistinctTail(es, n);
      hide Distinct, Without, KeySet;
      var tail, k := es[1..], es[0].key;
      KeysPrefix(es, n);
      WithoutFirst(es, KeySet(Keys(es)[..n]));
      WithoutTwice(tail, KeySet(Keys(tail)[..n - 1]), {k});
      WithoutPrefix(tail, n - 1);
      WithoutAbsent(es[n..], k);
    }
  }

  /** What a change of the disk may do without disturbing handles. */
  ghost predicate SameNames(d: Disk, d': Disk) {
    |d.boxes| <= |d'.boxes| && forall b :: 0 <= b < |d.boxes| ==> d'.boxes[b].name == d.boxes[b].name
  }

  lemma HandlesSurvive(rs: Requests, queue: seq<Op>, d: Disk, d': Disk, g: nat, g': nat)
    requires RequestsOk(rs, d, g) && QueueOk(queue, d, g) && SameNames(d, d') && g <= g'
    ensures RequestsOk(rs, d', g') && QueueOk(queue, d', g')
  {
    forall id | id in rs ensures RequestOk(rs[id], d', g') {
      assert RequestOk(rs[id], d, g);
    }
    forall i | 0 <= i < |queue| ensures OpOk(queue[i], d', g') {
      assert OpOk(queue[i], d, g);
    }
  }

  lemma GenerationGrows(d: Disk, g: nat, g': nat)
    requires DiskOk(d, g) && g <= g'
    ensures DiskOk(d, g')
  {
    forall b | 0 <= b < |d.boxes| ensures BoxOk(d.boxes[b], g') {
      assert BoxOk(d.boxes[b], g);
    }
  }

  lemma SetEntriesOk(d: Disk, box: nat, es: seq<Entry>, g: nat)
    requires DiskOk(d, g) && box < |d.boxes| && BoxOk(Box(d.boxes[box].name, es), g)
    ensures DiskOk(SetEntries(d, box, es), g) && SameNames(d, SetEntries(d, box, es))
  {
    var d' := SetEntries(d, box, es);
    forall b | 0 <= b < |d'.boxes| ensures BoxOk(d'.boxes[b], g) {
      assert BoxOk(d.boxes[b], g);
    }
  }

  lemma DropKeyOk(c: Chain, d: Disk, box: nat, k: Key, g: nat, cut: nat)
    requires DiskOk(d, g) && Bounded(c, d, cut)
    ensures DiskOk(DropKey(d, box, k), g) && SameNames(d, DropKey(d, box, k)) && Bounded(c, DropKey(d, box, k), cut)
  {
    if box < |d.boxes| {
      var es := d.boxes[box].entries;
      assert BoxOk(d.boxes[box], g);
      SetEntriesOk(d, box, Remove(es, k), g);
      assert BoxBounded(c, box, es, cut);
      if InWrite(c, box) && c.stage.Evicting? {
        WithoutTwice(es, {k}, KeySet(c.stage.keys));
        WithoutTwice(es, KeySet(c.stage.keys), {k});
        assert {k} + KeySet(c.stage.keys) == KeySet(c.stage.keys) + {k};
      }
      assert BoxBounded(c, box, Remove(es, k), cut);
    }
  }

  lemma OpenNameOk(c: Chain, d: Disk, name: Name, g: nat, cut: nat)
    requires DiskOk(d, g) && Bounded(c, d, cut)
    ensures var (d', box) := OpenName(d, name);
            DiskOk(d', g) && SameNames(d, d') && Bounded(c, d', cut) && name in d'.names && d'.names[name] == box
  {
    var (d', box) := OpenName(d, name);
    forall b | 0 <= b < |d'.boxes| ensures BoxOk(d'.boxes[b], g) && BoxBounded(c, b, d'.boxes[b].entries, cut) {
      if b < |d.boxes| {
        assert BoxOk(d.boxes[b], g) && BoxBounded(c, b, d.boxes[b].entries, cut);
      }
    }
  }

  lemma StorageWrite(c: Chain, d: Disk, cfg: Settings, now: nat, cut: nat)
    requires DiskOk(d, cfg.generation) && QueueOk(c.queue, d, cfg.generation) && StageOk(c) && Bounded(c, d, cut)
    requires c.queue != [] && c.queue[0].Write?
    ensures var (c', d') := WorkWrite(c, d, cfg, now);
            DiskOk(d', cfg.generation) && SameNames(d, d') && StageOk(c') && Bounded(c', d', cut)
  {
    var op := c.queue[0];
    var (c', d') := WorkWrite(c, d, cfg, now);
    assert OpOk(op, d, cfg.generation);
    assert BoxOk(d.boxes[op.box], cfg.generation) && BoxBounded(c, op.box, d.boxes[op.box].entries, cut);
    var es := d.boxes[op.box].entries;
    match c.stage {
    case Putting(at) =>
      SetEntriesOk(d, op.box, Put(es, Entry(op.key, at, op.account, op.epoch)), cfg.generation);
    case Listing =>
      WithoutPrefix(es, |Excess(Keys(es))|);
    case Evicting(keys) =>
      if keys == [] {
        WithoutNone(es);
        assert KeySet(keys) == {};
      } else {
        DropKeyOk(c, d, op.box, keys[0], cfg.generation, cut);
        WithoutTwice(es, {keys[0]}, KeySet(keys[1..]));
        assert {keys[0]} + KeySet(keys[1..]) == KeySet(keys);
      }
    case _ =>
    }
    hide Without;
    forall b | 0 <= b < |d'.boxes| ensures BoxBounded(c', b, d'.boxes[b].entries, cut) {
      assert BoxBounded(c, b, d.boxes[b].entries, cut);
    }
  }

  lemma StoragePolicy(c: Chain, d: Disk, cfg: Settings, pick: Name, cut: nat)
    requires DiskOk(d, cfg.generation) && StageOk(c) && Bounded(c, d, cut)
    requires c.queue != [] && c.queue[0].Policy?
    ensures var (c', d') := WorkPolicy(c, d, cfg, pick);
            DiskOk(d', cfg.generation) && SameNames(d, d') && StageOk(c') && Bounded(c', d', cut)
  {
    var (c', d') := WorkPolicy(c, d, cfg, pick);
    match c.stage {
    case ArtworkOpening(_, next) => OpenNameOk(c, d, next, cfg.generation, cut);
    case ArtworkTrimming(_, box, keys) =>
      if keys != [] {
        DropKeyOk(c, d, box, keys[0], cfg.generation, cut);
      }
    case _ =>
    }
    NoWriteBounded(c, c', d', cut);
  }

  /** Outside a write the bound does not depend on the chain. */
  lemma NoWriteBounded(c: Chain, c': Chain, d: Disk, cut: nat)
    requires Bounded(c, d, cut) && !Stopped(c) && !Stopped(c')
    ensures Bounded(c', d, cut)
  {
    forall b | 0 <= b < |d.boxes| ensures BoxBounded(c', b, d.boxes[b].entries, cut) {
      assert BoxBounded(c, b, d.boxes[b].entries, cut);
    }
  }

  lemma StoragePurge(c: Chain, d: Disk, pick: Name, g: nat, cut: nat)
    requires DiskOk(d, g) && StageOk(c) && Bounded(c, d, cut)
    requires c.queue != [] && c.queue[0].Purge?
    ensures var (c', d') := WorkPurge(c, d, pick);
            DiskOk(d', g) && SameNames(d, d') && StageOk(c') && Bounded(c', d', cut)
  {
    var (c', d') := WorkPurge(c, d, pick);
    NoWriteBounded(c, c', d', cut);
  }

  lemma StorageWork(s: State, now: nat, pick: Name)
    requires Storage(s)
    ensures Storage(StepWork(s, now, pick))
  {
    var c, d, g, cut := s.chain, s.disk, s.cfg.generation, s.history.cut;
    if c.queue != [] {
      var (c', d') := WorkOn(c, d, s.cfg, now, pick);
      match c.queue[0] {
        case Write(_, _, _, _) => StorageWrite(c, d, s.cfg, now, cut);
        case Purge(_, _) => StoragePurge(c, d, pick, g, cut);
        case Policy(_, _, _) => StoragePolicy(c, d, s.cfg, pick, cut);
      }
      HandlesSurvive(s.requests, c.queue, d, d', g, g);
      WorkQueue(c, d, s.cfg, now, pick);
      assert OpOk(c.queue[0], d, g);
      hide DiskOk, StageOk, Bounded, OpOk, WorkWrite, WorkPurge, WorkPolicy;
    }
  }

  lemma WorkQueue(c: Chain, d: Disk, cfg: Settings, now: nat, pick: Name)
    requires c.queue != []
    ensures var c' := WorkOn(c, d, cfg, now, pick).0; c'.queue == c.queue || c'.queue == c.queue[1..]
  {
    hide NamesOf, DropKey, OpenName, ExternalKeys;
  }

  lemma StorageFetchers(s: State, e: Event)
    requires Storage(s) && (e.Fetch? || e.Resume? || e.Decide?)
    ensures Storage(Step(s, e))
  {
    var s' := Step(s, e);
    forall id | id in s'.requests ensures RequestOk(s'.requests[id], s.disk, s.cfg.generation) {
      assert id in s.requests ==> RequestOk(s.requests[id], s.disk, s.cfg.generation);
    }
    hide DiskOk, QueueOk, StageOk, Bounded;
  }

  lemma StorageMatch(s: State, id: nat)
    requires Storage(s)
    ensures Storage(StepMatch(s, id))
  {
    var s' := StepMatch(s, id);
    forall j | j in s'.requests ensures RequestOk(s'.requests[j], s.disk, s.cfg.generation) {
      assert RequestOk(s.requests[j], s.disk, s.cfg.generation);
      if j == id && s.requests[id].phase.Matching? {
        assert BoxOk(s.disk.boxes[s.requests[id].phase.box], s.cfg.generation);
      }
    }
    hide QueueOk, StageOk, Bounded;
  }

  lemma StorageOpen(s: State, id: nat)
    requires Storage(s)
    ensures Storage(StepOpen(s, id))
  {
    if id in s.requests && s.requests[id].phase.Opening? {
      var p := s.requests[id].phase;
      var (d', box) := OpenName(s.disk, p.name);
      OpenNameOk(s.chain, s.disk, p.name, s.cfg.generation, s.history.cut);
      HandlesSurvive(s.requests, s.chain.queue, s.disk, d', s.cfg.generation, s.cfg.generation);
      assert RequestOk(s.requests[id], s.disk, s.cfg.generation);
      hide QueueOk, StageOk, Bounded;
    }
  }

  lemma StorageDrop(s: State, id: nat)
    requires Storage(s)
    ensures Storage(StepDrop(s, id))
  {
    if id in s.requests && s.requests[id].phase.Dropping? {
      var p := s.requests[id].phase;
      DropKeyOk(s.chain, s.disk, p.box, s.requests[id].key, s.cfg.generation, s.history.cut);
      HandlesSurvive(s.requests, s.chain.queue, s.disk, DropKey(s.disk, p.box, s.requests[id].key),
                     s.cfg.generation, s.cfg.generation);
      hide QueueOk, StageOk, Bounded, DiskOk;
    }
  }

  /** Chaining one more operation disturbs neither the head nor the bounds. */
  lemma EnqueueOk(c: Chain, op: Op, d: Disk, g: nat, cut: nat)
    requires QueueOk(c.queue, d, g) && StageOk(c) && Bounded(c, d, cut) && OpOk(op, d, g)
    ensures QueueOk(Enqueue(c, op).queue, d, g) && StageOk(Enqueue(c, op)) && Bounded(Enqueue(c, op), d, cut)
  {
    forall b | 0 <= b < |d.boxes| ensures BoxBounded(Enqueue(c, op), b, d.boxes[b].entries, cut) {
      assert BoxBounded(c, b, d.boxes[b].entries, cut);
    }
  }

  lemma StorageRespond(s: State, id: nat, cacheable: bool)
    requires Storage(s)
    ensures Storage(StepRespond(s, id, cacheable))
  {
    if id in s.requests && s.requests[id].phase.Fetching? {
      assert RequestOk(s.requests[id], s.disk, s.cfg.generation);
      var p := s.requests[id].phase;
      EnqueueOk(s.chain, Write(p.epoch, p.account, p.box, s.requests[id].key), s.disk, s.cfg.generation, s.history.cut);
    }
    hide QueueOk, StageOk, Bounded, DiskOk;
  }

  lemma StorageBump(s: State, s': State, op: Op)
    requires Storage(s) && s'.chain == Enqueue(s.chain, op) && (op.Purge? || op.Policy?) && op.gen == s.cfg.generation + 1
    requires s'.cfg.generation == s.cfg.generation + 1 && s'.disk == s.disk && s'.requests == s.requests
    requires s'.history.cut == s.history.cut && HistoryOk(s'.history, s'.cfg.generation)
    ensures Storage(s')
  {
    GenerationGrows(s.disk, s.cfg.generation, s'.cfg.generation);
    HandlesSurvive(s.requests, s.chain.queue, s.disk, s.disk, s.cfg.generation, s'.cfg.generation);
    EnqueueOk(s.chain, op, s.disk, s'.cfg.generation, s.history.cut);
  }

  lemma StorageRestart(s: State)
    requires Storage(s)
    ensures Storage(StepRestart(s))
  {
    var s' := StepRestart(s);
    forall b | 0 <= b < |s.disk.boxes| ensures BoxBounded(s'.chain, b, s.disk.boxes[b].entries, s'.history.cut) {
      assert BoxBounded(s.chain, b, s.disk.boxes[b].entries, s.history.cut);
    }
  }

  lemma StorageStep(s: State, e: Event)
    requires Storage(s)
    ensures Storage(Step(s, e))
  {
    match e
    case Fetch(_, _, _) => StorageFetchers(s, e);
    case Resume(_) => StorageFetchers(s, e);
    case Decide(_, _) => StorageFetchers(s, e);
    case Open(id) => StorageOpen(s, id);
    case Match(id) => StorageMatch(s, id);
    case Drop(id) => StorageDrop(s, id);
    case Respond(id, cacheable) => StorageRespond(s, id, cacheable);
    case Mutate => StorageBump(s, Step(s, e), Purge(Catalog, s.cfg.generation + 1));
    case ClearImages => StorageBump(s, Step(s, e), Purge(Artwork, s.cfg.generation + 1));
    case PurgeStale => StorageBump(s, Step(s, e), Purge(Catalog, s.cfg.generation + 1));
    case SetPolicy(_, _, _) => StorageBump(s, Step(s, e), Policy(s.cfg.generation + 1, s.cfg.owner, s.cfg.metadata));
    case Work(now, pick) => StorageWork(s, now, pick);
    case Restart => StorageRestart(s);
  }

  // ---------------------------------------------------------------- freshness invariant

  /** Every entry that can be found by name was stored by a request that captured its epoch no
      earlier than the latest finished purge of its kind. */
  ghost predicate PurgedOk(d: Disk, h: History) {
    forall n, e :: n in d.names && e in EntriesOf(d, d.names[n]) ==> h.Purged(n.Kind()) <= e.epoch
  }

  ghost predicate EmptyOutside(d: Disk, kind: Kind, todo: set<Name>) {
    forall n :: n in d.names && n.Kind() == kind && n !in todo ==> EntriesOf(d, d.names[n]) == []
  }

  /** While a purge deletes, the names of its kind that are not waiting to be deleted are empty. */
  ghost predicate DeletingOk(c: Chain, d: Disk) {
    c.queue != [] && c.queue[0].Purge? && c.stage.Deleting? ==> EmptyOutside(d, c.queue[0].kind, c.stage.todo)
  }

  ghost predicate PurgeQueued(queue: seq<Op>, kind: Kind, gen: nat, limit: int) {
    exists i :: 0 <= i < |queue| && i < limit && queue[i].Purge? && queue[i].kind == kind && gen <= queue[i].gen
  }

  ghost predicate AnnouncedOk(c: Chain, h: History) {
    forall kind: Kind :: h.Announced(kind) <= h.Purged(kind) || PurgeQueued(c.queue, kind, h.Announced(kind), |c.queue|)
  }

  ghost predicate Since(es: seq<Entry>, floor: nat) {
    forall e :: e in es ==> floor <= e.epoch
  }

  ghost predicate RequestFresh(r: Request, c: Chain, d: Disk, h: History) {
    match r.phase
    case Awaiting(ticket) =>
      && ticket <= c.finished + |c.queue|
      && (r.floor <= h.Purged(r.kind) || PurgeQueued(c.queue, r.kind, r.floor, ticket - c.finished))
    case Opening(_, _, _) => r.floor <= h.Purged(r.kind)
    case Matching(_, _, box) => Since(EntriesOf(d, box), r.floor)
    case Deciding(_, _, box, found) =>
      Since(EntriesOf(d, box), r.floor) && (found.Some? ==> r.floor <= found.value.epoch)
    case Dropping(_, _, box) => Since(EntriesOf(d, box), r.floor)
    case Fetching(_, _, box) => Since(EntriesOf(d, box), r.floor)
  }

  ghost predicate RequestsFresh(rs: Requests, c: Chain, d: Disk, h: History) {
    forall id :: id in rs ==> RequestFresh(rs[id], c, d, h)
  }

  predicate Writing(c: Chain) {
    c.queue != [] && c.queue[0].Write? && !c.stage.Waiting?
  }

  /** A write that passed its check is younger than every finished purge, and than the floor of every
      request except those still waiting behind it. */
  ghost predicate WriteFresh(c: Chain, rs: Requests, h: History) {
    Writing(c) ==>
      && h.Purged(Artwork) <= c.queue[0].epoch && h.Purged(Catalog) <= c.queue[0].epoch
      && forall id :: id in rs ==>
           rs[id].floor <= c.queue[0].epoch || (rs[id].phase.Awaiting? && c.finished < rs[id].phase.ticket)
  }

  ghost predicate Fresh(s: State) {
    && PurgedOk(s.disk, s.history)
    && DeletingOk(s.chain, s.disk)
    && AnnouncedOk(s.chain, s.history)
    && RequestsFresh(s.requests, s.chain, s.disk, s.history)
    && WriteFresh(s.chain, s.requests, s.history)
  }

  /** `d'` holds nothing that `d` does not: entries dropped, names deleted, empty objects opened. */
  ghost predicate Thinner(d: Disk, d': Disk) {
    && (forall n :: n in d'.names ==>
          (n in d.names && d'.names[n] == d.names[n]) || (EntriesOf(d', d'.names[n]) == [] && d'.names[n] >= |d.boxes|))
    && (forall b: nat, e :: e in EntriesOf(d', b) ==> e in EntriesOf(d, b))
  }

  lemma ThinnerKeepsFresh(rs: Requests, c: Chain, d: Disk, d': Disk, h: History)
    requires PurgedOk(d, h) && DeletingOk(c, d) && RequestsFresh(rs, c, d, h) && Thinner(d, d')
    ensures PurgedOk(d', h) && DeletingOk(c, d') && RequestsFresh(rs, c, d', h)
  {
    forall n | n in d'.names && n in d.names && EntriesOf(d, d.names[n]) == [] ensures EntriesOf(d', d'.names[n]) == [] {
      NoEntries(d, d', n);
    }
    forall id | id in rs ensures RequestFresh(rs[id], c, d', h) {
      assert RequestFresh(rs[id], c, d, h);
    }
  }

  lemma NoEntries(d: Disk, d': Disk, n: Name)
    requires Thinner(d, d') && n in d'.names && n in d.names && EntriesOf(d, d.names[n]) == []
    ensures EntriesOf(d', d'.names[n]) == []
  {
    var es := EntriesOf(d', d'.names[n]);
    assert |es| > 0 ==> es[0] in es;
  }

  lemma DropKeyThinner(d: Disk, box: nat, k: Key)
    ensures Thinner(d, DropKey(d, box, k))
  {
  }

  lemma OpenNameThinner(d: Disk, name: Name)
    ensures Thinner(d, OpenName(d, name).0)
  {
  }

  lemma DeleteNameThinner(d: Disk, name: Name)
    ensures Thinner(d, DeleteName(d, name))
  {
  }

  lemma PurgeQueuedStays(queue: seq<Op>, kind: Kind, gen: nat, limit: int, op: Op)
    requires PurgeQueued(queue, kind, gen, limit)
    ensures PurgeQueued(queue + [op], kind, gen, limit)
  {
    var i :| 0 <= i < |queue| && i < limit && queue[i].Purge? && queue[i].kind == kind && gen <= queue[i].gen;
    assert (queue + [op])[i] == queue[i];
  }

  lemma EnqueueFresh(c: Chain, op: Op, d: Disk, rs: Requests, h: History)
    requires DeletingOk(c, d) && RequestsFresh(rs, c, d, h) && WriteFresh(c, rs, h) && StageOk(c)
    ensures var c' := Enqueue(c, op);
            DeletingOk(c', d) && RequestsFresh(rs, c', d, h) && WriteFresh(c', rs, h)
  {
    var c' := Enqueue(c, op);
    forall id | id in rs ensures RequestFresh(rs[id], c', d, h) {
      assert RequestFresh(rs[id], c, d, h);
      var r := rs[id];
      if r.phase.Awaiting? && h.Purged(r.kind) < r.floor {
        PurgeQueuedStays(c.queue, r.kind, r.floor, r.phase.ticket - c.finished, op);
      }
    }
  }

  lemma EnqueueAnnounced(c: Chain, op: Op, h: History)
    requires AnnouncedOk(c, h)
    ensures AnnouncedOk(Enqueue(c, op), h)
  {
    forall kind: Kind | h.Purged(kind) < h.Announced(kind)
      ensures PurgeQueued(c.queue + [op], kind, h.Announced(kind), |c.queue + [op]|)
    {
      PurgeQueuedStays(c.queue, kind, h.Announced(kind), |c.queue|, op);
      var q := c.queue + [op];
      var i :| 0 <= i < |q| && i < |c.queue| && q[i].Purge? && q[i].kind == kind && h.Announced(kind) <= q[i].gen;
    }
  }

  /** Requests that started before a bump keep their floors; the announced purge is on the chain. */
  lemma FreshAnnounce(s: State, kind: Kind)
    requires Storage(s) && Fresh(s)
    ensures Fresh(StepAnnounce(s, kind))
  {
    var s' := StepAnnounce(s, kind);
    var op := Purge(kind, s.cfg.generation + 1);
    EnqueueFresh(s.chain, op, s.disk, s.requests, s.history);
    EnqueueAnnounced(s.chain, op, s.history);
    assert s'.chain.queue[|s.chain.queue|] == op;
    assert forall k: Kind :: s'.history.Purged(k) == s.history.Purged(k);
    FloorsOnly(s.requests, s'.chain, s.disk, s.history, s'.history);
  }

  /** The freshness of requests depends on the finished purges, not on the announced ones. */
  lemma FloorsOnly(rs: Requests, c: Chain, d: Disk, h: History, h': History)
    requires RequestsFresh(rs, c, d, h) && forall k: Kind :: h.Purged(k) <= h'.Purged(k)
    ensures RequestsFresh(rs, c, d, h')
  {
    forall id | id in rs ensures RequestFresh(rs[id], c, d, h') {
      assert RequestFresh(rs[id], c, d, h);
    }
  }

  lemma FreshPolicy(s: State, o: Option<User>, x: bool, m: Option<bool>)
    requires Storage(s) && Fresh(s)
    ensures Fresh(StepPolicy(s, o, x, m))
  {
    var s' := StepPolicy(s, o, x, m);
    var op := Policy(s.cfg.generation + 1, s.cfg.owner, s.cfg.metadata);
    EnqueueFresh(s.chain, op, s.disk, s.requests, s.history);
    EnqueueAnnounced(s.chain, op, s.history);
    assert forall k: Kind :: s'.history.Purged(k) == s.history.Purged(k) && s'.history.Announced(k) == s.history.Announced(k);
    FloorsOnly(s.requests, s'.chain, s.disk, s.history, s'.history);
  }

  lemma FreshFetch(s: State, id: nat, kind: Kind, key: Key)
    requires Storage(s) && Fresh(s)
    ensures Fresh(StepFetch(s, id, kind, key))
  {
    var s' := StepFetch(s, id, kind, key);
    assert s.history.Announced(kind) <= s.history.Purged(kind)
        || PurgeQueued(s.chain.queue, kind, s.history.Announced(kind), |s.chain.queue|);
    assert s.history.Announced(kind) <= s.cfg.generation by {
      assert kind == Artwork || kind == Catalog;
    }
    forall j | j in s'.requests ensures RequestFresh(s'.requests[j], s.chain, s.disk, s.history) {
      assert j in s.requests ==> RequestFresh(s.requests[j], s.chain, s.disk, s.history);
    }
  }

  /** A request that stops waiting has its purge behind it. */
  lemma FreshResume(s: State, id: nat)
    requires Storage(s) && Fresh(s)
    ensures Fresh(StepResume(s, id))
  {
    var s' := StepResume(s, id);
    forall j | j in s'.requests ensures RequestFresh(s'.requests[j], s.chain, s.disk, s.history) {
      assert RequestFresh(s.requests[j], s.chain, s.disk, s.history);
    }
  }

  lemma FreshOpen(s: State, id: nat)
    requires Storage(s) && Fresh(s)
    ensures Fresh(StepOpen(s, id))
  {
    if id in s.requests && s.requests[id].phase.Opening? {
      var p := s.requests[id].phase;
      var (d', box) := OpenName(s.disk, p.name);
      OpenNameThinner(s.disk, p.name);
      ThinnerKeepsFresh(s.requests, s.chain, s.disk, d', s.history);
      assert RequestFresh(s.requests[id], s.chain, d', s.history);
      assert RequestOk(s.requests[id], s.disk, s.cfg.generation);
      assert Since(EntriesOf(d', box), s.requests[id].floor);
      hide PurgedOk, DeletingOk, AnnouncedOk;
    }
  }

  lemma FreshMatch(s: State, id: nat)
    requires Storage(s) && Fresh(s)
    ensures Fresh(StepMatch(s, id))
  {
    if id in s.requests && s.requests[id].phase.Matching? {
      assert RequestFresh(s.requests[id], s.chain, s.disk, s.history);
    }
    hide PurgedOk, DeletingOk, AnnouncedOk, Storage;
  }

  lemma FreshDecide(s: State, id: nat, now: nat)
    requires Storage(s) && Fresh(s)
    ensures Fresh(StepDecide(s, id, now))
  {
    if id in s.requests && s.requests[id].phase.Deciding? {
      assert RequestFresh(s.requests[id], s.chain, s.disk, s.history);
    }
    hide PurgedOk, DeletingOk, AnnouncedOk, Storage;
  }

  lemma FreshDrop(s: State, id: nat)
    requires Storage(s) && Fresh(s)
    ensures Fresh(StepDrop(s, id))
  {
    if id in s.requests && s.requests[id].phase.Dropping? {
      var p := s.requests[id].phase;
      var d' := DropKey(s.disk, p.box, s.requests[id].key);
      DropKeyThinner(s.disk, p.box, s.requests[id].key);
      ThinnerKeepsFresh(s.requests, s.chain, s.disk, d', s.history);
      hide PurgedOk, DeletingOk, AnnouncedOk, Storage, DropKey, EntriesOf, PurgeQueued;
      assert RequestFresh(s.requests[id], s.chain, d', s.history);
    }
  }

  lemma FreshRespond(s: State, id: nat, cacheable: bool)
    requires Storage(s) && Fresh(s)
    ensures Fresh(StepRespond(s, id, cacheable))
  {
    if id in s.requests && s.requests[id].phase.Fetching? {
      var p := s.requests[id].phase;
      var op := Write(p.epoch, p.account, p.box, s.requests[id].key);
      EnqueueFresh(s.chain, op, s.disk, s.requests, s.history);
      EnqueueAnnounced(s.chain, op, s.history);
      hide PurgedOk, DeletingOk, AnnouncedOk;
    }
  }

  lemma FreshRestart(s: State)
    requires Storage(s) && Fresh(s)
    ensures Fresh(StepRestart(s))
  {
  }

  lemma PurgeQueuedPops(queue: seq<Op>, kind: Kind, gen: nat, limit: int)
    requires queue != [] && PurgeQueued(queue, kind, gen, limit)
    ensures (queue[0].Purge? && queue[0].kind == kind && gen <= queue[0].gen) || PurgeQueued(queue[1..], kind, gen, limit - 1)
  {
    var i :| 0 <= i < |queue| && i < limit && queue[i].Purge? && queue[i].kind == kind && gen <= queue[i].gen;
    if i > 0 {
      assert queue[1..][i - 1] == queue[i];
    }
  }

  /** An operation leaves the chain; if it was a purge, its generation counts as purged. */
  lemma FinishFresh(c: Chain, d: Disk, rs: Requests, h: History, h': History)
    requires c.queue != [] && RequestsFresh(rs, c, d, h) && AnnouncedOk(c, h)
    requires h' == if c.queue[0].Purge? then Completed(h, c.queue[0]) else h
    ensures RequestsFresh(rs, Finish(c), d, h') && AnnouncedOk(Finish(c), h')
  {
    var c' := Finish(c);
    forall kind: Kind | h'.Purged(kind) < h'.Announced(kind)
      ensures PurgeQueued(c'.queue, kind, h'.Announced(kind), |c'.queue|)
    {
      PurgeQueuedPops(c.queue, kind, h.Announced(kind), |c.queue|);
    }
    forall id | id in rs ensures RequestFresh(rs[id], c', d, h') {
      var r := rs[id];
      assert RequestFresh(r, c, d, h);
      if r.phase.Awaiting? && h'.Purged(r.kind) < r.floor {
        PurgeQueuedPops(c.queue, r.kind, r.floor, r.phase.ticket - c.finished);
      }
    }
  }

  lemma StageFresh(c: Chain, stage: Stage, d: Disk, rs: Requests, h: History)
    requires RequestsFresh(rs, c, d, h) && AnnouncedOk(c, h)
    ensures RequestsFresh(rs, To(c, stage), d, h) && AnnouncedOk(To(c, stage), h)
  {
    forall id | id in rs ensures RequestFresh(rs[id], To(c, stage), d, h) {
      assert RequestFresh(rs[id], c, d, h);
    }
  }

  /** A write that may start is as young as the current generation. */
  lemma FreshWriteStart(s: State, now: nat)
    requires Storage(s) && Fresh(s) && s.chain.queue != [] && s.chain.queue[0].Write? && s.chain.stage.Waiting?
    ensures Fresh(StepWork(s, now, ArtworkOf("")))
  {
    var c, op := s.chain, s.chain.queue[0];
    StageFresh(c, Putting(now), s.disk, s.requests, s.history);
    FinishFresh(c, s.disk, s.requests, s.history, s.history);
    forall id | id in s.requests ensures s.requests[id].floor <= s.cfg.generation {
      assert RequestOk(s.requests[id], s.disk, s.cfg.generation);
    }
    hide PurgedOk, RequestsFresh, AnnouncedOk;
  }

  /** Storing changes one cache, and adds one entry to it. */
  lemma PutStep(s: State, now: nat)
    requires s.chain.queue != [] && s.chain.queue[0].Write? && s.chain.stage.Putting?
    ensures var s', op := StepWork(s, now, ArtworkOf("")), s.chain.queue[0];
            && s' == s.(chain := To(s.chain, Listing), disk := s'.disk)
            && s'.disk.names == s.disk.names
            && forall b: nat, e :: e in EntriesOf(s'.disk, b) ==>
                 e in EntriesOf(s.disk, b) || (e.epoch == op.epoch && e.account == op.account)
  {
  }

  /** The stored entry is younger than the floors of everyone who can see it. */
  lemma FreshPut(s: State, now: nat)
    requires Storage(s) && Fresh(s) && s.chain.queue != [] && s.chain.queue[0].Write? && s.chain.stage.Putting?
    ensures Fresh(StepWork(s, now, ArtworkOf("")))
  {
    var c, op := s.chain, s.chain.queue[0];
    var s' := StepWork(s, now, ArtworkOf(""));
    PutStep(s, now);
    hide StepWork, PurgedOk, RequestsFresh, AnnouncedOk, Storage, EntriesOf;
    PutKeeps(s.requests, c, s.disk, s'.disk, s.history);
    StageFresh(c, Listing, s'.disk, s.requests, s.history);
  }

  lemma PutKeeps(rs: Requests, c: Chain, d: Disk, d': Disk, h: History)
    requires PurgedOk(d, h) && RequestsFresh(rs, c, d, h) && WriteFresh(c, rs, h) && Writing(c) && d'.names == d.names
    requires forall b: nat, e :: e in EntriesOf(d', b) ==>
               e in EntriesOf(d, b) || (e.epoch == c.queue[0].epoch && e.account == c.queue[0].account)
    ensures PurgedOk(d', h) && RequestsFresh(rs, c, d', h)
  {
    hide EntriesOf, PurgeQueued;
    forall n, e | n in d'.names && e in EntriesOf(d', d'.names[n]) ensures h.Purged(n.Kind()) <= e.epoch {
      assert n.Kind() == Artwork || n.Kind() == Catalog;
    }
    forall id | id in rs ensures RequestFresh(rs[id], c, d', h) {
      assert RequestFresh(rs[id], c, d, h);
    }
  }

  lemma FreshWriteRest(s: State, now: nat)
    requires Storage(s) && Fresh(s) && s.chain.queue != [] && s.chain.queue[0].Write?
    requires s.chain.stage.Listing? || s.chain.stage.Evicting?
    ensures Fresh(StepWork(s, now, ArtworkOf("")))
  {
    var c, d, h, op := s.chain, s.disk, s.history, s.chain.queue[0];
    match c.stage {
      case Listing => StageFresh(c, Evicting(Excess(Keys(EntriesOf(d, op.box)))), d, s.requests, h);
      case Evicting(keys) =>
        if keys == [] {
          FinishFresh(c, d, s.requests, h, h);
        } else {
          DropKeyThinner(d, op.box, keys[0]);
          ThinnerKeepsFresh(s.requests, c, d, DropKey(d, op.box, keys[0]), h);
          StageFresh(c, Evicting(keys[1..]), DropKey(d, op.box, keys[0]), s.requests, h);
        }
    }
    hide PurgedOk, RequestsFresh, AnnouncedOk, DropKey;
  }

  lemma FreshPurgeStep(s: State, now: nat, pick: Name)
    requires Storage(s) && Fresh(s) && s.chain.queue != [] && s.chain.queue[0].Purge?
    ensures Fresh(StepWork(s, now, pick))
  {
    var c, d, h, op := s.chain, s.disk, s.history, s.chain.queue[0];
    match c.stage {
      case Waiting => StageFresh(c, Deleting(NamesOf(d, op.kind)), d, s.requests, h);
      case Deleting(todo) =>
        if todo == {} {
          FinishFresh(c, d, s.requests, h, Completed(h, op));
          NothingLeft(d, h, op);
        } else if pick in todo {
          DeleteNameThinner(d, pick);
          ThinnerKeepsFresh(s.requests, c, d, DeleteName(d, pick), h);
          StageFresh(c, Deleting(todo - {pick}), DeleteName(d, pick), s.requests, h);
        }
    }
    hide PurgedOk, RequestsFresh, AnnouncedOk;
  }

  /** When a purge ends, every object of its kind that still has a name is empty. */
  lemma NothingLeft(d: Disk, h: History, op: Op)
    requires op.Purge? && PurgedOk(d, h) && EmptyOutside(d, op.kind, {})
    ensures PurgedOk(d, Completed(h, op))
  {
    forall n, e | n in d.names && e in EntriesOf(d, d.names[n]) ensures Completed(h, op).Purged(n.Kind()) <= e.epoch {
      assert n.Kind() != op.kind;
    }
  }

  lemma PurgeThinner(c: Chain, d: Disk, pick: Name)
    requires c.queue != [] && c.queue[0].Purge?
    ensures Thinner(d, WorkPurge(c, d, pick).1)
    ensures var c' := WorkPurge(c, d, pick).0; c' == Finish(c) || c' == To(c, c'.stage)
  {
  }

  lemma PolicyThinner(c: Chain, d: Disk, cfg: Settings, pick: Name)
    requires c.queue != [] && c.queue[0].Policy?
    ensures Thinner(d, WorkPolicy(c, d, cfg, pick).1)
    ensures var c' := WorkPolicy(c, d, cfg, pick).0; c' == Finish(c) || c' == To(c, c'.stage)
  {
    hide Remove;
  }

  lemma FreshPolicyStep(s: State, now: nat, pick: Name)
    requires Storage(s) && Fresh(s) && s.chain.queue != [] && s.chain.queue[0].Policy?
    ensures Fresh(StepWork(s, now, pick))
  {
    var c, d, h := s.chain, s.disk, s.history;
    var (c', d') := WorkPolicy(c, d, s.cfg, pick);
    PolicyThinner(c, d, s.cfg, pick);
    ThinnerKeepsFresh(s.requests, c, d, d', h);
    if c' == Finish(c) {
      FinishFresh(c, d', s.requests, h, h);
    } else {
      StageFresh(c, c'.stage, d', s.requests, h);
    }
    hide PurgedOk, RequestsFresh, AnnouncedOk, WorkPolicy, Thinner;
  }

  lemma FreshWork(s: State, now: nat, pick: Name)
    requires Storage(s) && Fresh(s)
    ensures Fresh(StepWork(s, now, pick))
  {
    if s.chain.queue != [] {
      match s.chain.queue[0] {
        case Write(_, _, _, _) =>
          if s.chain.stage.Waiting? {
            FreshWriteStart(s, now);
          } else if s.chain.stage.Putting? {
            FreshPut(s, now);
          } else {
            FreshWriteRest(s, now);
          }
        case Purge(_, _) => FreshPurgeStep(s, now, pick);
        case Policy(_, _, _) => FreshPolicyStep(s, now, pick);
      }
      hide Fresh, Storage, WorkPurge, WorkPolicy;
    }
  }

  lemma FreshStep(s: State, e: Event)
    requires Storage(s) && Fresh(s)
    ensures Fresh(Step(s, e))
  {
    hide Storage, Fresh, WorkOn;
    match e
    case Fetch(id, kind, key) => FreshFetch(s, id, kind, key);
    case Resume(id) => FreshResume(s, id);
    case Open(id) => FreshOpen(s, id);
    case Match(id) => FreshMatch(s, id);
    case Decide(id, now) => FreshDecide(s, id, now);
    case Drop(id) => FreshDrop(s, id);
    case Respond(id, cacheable) => FreshRespond(s, id, cacheable);
    case Mutate => FreshAnnounce(s, Catalog);
    case ClearImages => FreshAnnounce(s, Artwork);
    case PurgeStale => FreshAnnounce(s, Catalog);
    case SetPolicy(o, x, m) => FreshPolicy(s, o, x, m);
    case Work(now, pick) => FreshWork(s, now, pick);
    case Restart => FreshRestart(s);
  }

  // ---------------------------------------------------------------- change of owner

  /** Everything captured or stored since the owner last changed belongs to the owner. */
  ghost predicate OwnedSince(s: State, g: nat) {
    && g <= s.cfg.generation
    && (forall id :: id in s.requests && !s.requests[id].phase.Awaiting? && g <= s.requests[id].phase.epoch
          ==> s.cfg.owner == Some(s.requests[id].phase.account))
    && (forall i :: 0 <= i < |s.chain.queue| && s.chain.queue[i].Write? && g <= s.chain.queue[i].epoch
          ==> s.cfg.owner == Some(s.chain.queue[i].account))
    && (forall b: nat, e :: e in EntriesOf(s.disk, b) && g <= e.epoch ==> s.cfg.owner == Some(e.account))
  }

  /** Nobody has been signed in since this life of the worker began. */
  ghost predicate SignedOut(s: State) {
    && s.cfg.owner.None?
    && s.requests == map[]
    && forall i :: 0 <= i < |s.chain.queue| ==> !s.chain.queue[i].Write?
  }

  ghost predicate NamedSince(d: Disk, g: nat) {
    forall n :: n in d.names ==> Since(EntriesOf(d, d.names[n]), g)
  }

  ghost predicate Settled(c: Chain, d: Disk, g: nat) {
    NamedSince(d, g) && (Writing(c) ==> g <= c.queue[0].epoch)
  }

  /** How far the clean-up after the change of owner has got. */
  ghost predicate SwitchStage(c: Chain, d: Disk) {
    match c.stage
    case Waiting => true
    case Listing => true
    case Deleting(todo) => EmptyOutside(d, Catalog, todo)
    case ArtworkChoice => EmptyOutside(d, Catalog, {})
    case ArtworkListing => EmptyOutside(d, Catalog, {})
    case ArtworkNext(todo) => EmptyOutside(d, Catalog, {}) && EmptyOutside(d, Artwork, todo)
    case ArtworkDropping(todo, next) => EmptyOutside(d, Catalog, {}) && EmptyOutside(d, Artwork, todo + {next})
    case _ => false
  }

  /** The clean-up that the change of owner at generation `g` chained is still on the chain. */
  ghost predicate Switching(c: Chain, d: Disk, g: nat, owner: Option<User>) {
    exists i :: 0 <= i < |c.queue| && c.queue[i].Policy? && c.queue[i].gen == g && c.queue[i].previous != owner
             && (i == 0 ==> SwitchStage(c, d))
  }

  ghost predicate SwitchOk(s: State) {
    match s.history.switchedAt
    case None => SignedOut(s)
    case Some(g) => OwnedSince(s, g) && (Settled(s.chain, s.disk, g) || Switching(s.chain, s.disk, g, s.cfg.owner))
  }

  lemma ThinnerSwitch(c: Chain, d: Disk, d': Disk, g: nat, owner: Option<User>)
    requires Thinner(d, d') && (Settled(c, d, g) || Switching(c, d, g, owner))
    ensures Settled(c, d', g) || Switching(c, d', g, owner)
  {
    if Settled(c, d, g) {
    } else {
      forall n | n in d'.names && n in d.names && EntriesOf(d, d.names[n]) == [] ensures EntriesOf(d', d'.names[n]) == [] {
        NoEntries(d, d', n);
      }
      var i :| 0 <= i < |c.queue| && c.queue[i].Policy? && c.queue[i].gen == g && c.queue[i].previous != owner
             && (i == 0 ==> SwitchStage(c, d));
      assert i == 0 ==> SwitchStage(c, d');
    }
  }

  lemma EnqueueSwitch(c: Chain, op: Op, d: Disk, g: nat, owner: Option<User>)
    requires StageOk(c) && (Settled(c, d, g) || Switching(c, d, g, owner))
    ensures Settled(Enqueue(c, op), d, g) || Switching(Enqueue(c, op), d, g, owner)
  {
    if !Settled(c, d, g) {
      var i :| 0 <= i < |c.queue| && c.queue[i].Policy? && c.queue[i].gen == g && c.queue[i].previous != owner
             && (i == 0 ==> SwitchStage(c, d));
      assert (c.queue + [op])[i] == c.queue[i];
    }
  }

  lemma ThinnerOwned(s: State, s': State, g: nat)
    requires OwnedSince(s, g) && Thinner(s.disk, s'.disk) && s'.cfg.owner == s.cfg.owner && g <= s'.cfg.generation
    requires forall id :: id in s'.requests && !s'.requests[id].phase.Awaiting? && g <= s'.requests[id].phase.epoch
               ==> s.cfg.owner == Some(s'.requests[id].phase.account)
    requires forall i :: 0 <= i < |s'.chain.queue| && s'.chain.queue[i].Write? ==> s'.chain.queue[i] in s.chain.queue
    ensures OwnedSince(s', g)
  {
    forall i | 0 <= i < |s'.chain.queue| && s'.chain.queue[i].Write? && g <= s'.chain.queue[i].epoch
      ensures s'.cfg.owner == Some(s'.chain.queue[i].account)
    {
      var j :| 0 <= j < |s.chain.queue| && s.chain.queue[j] == s'.chain.queue[i];
    }
  }

  lemma SwitchFetchers(s: State, e: Event)
    requires Storage(s) && SwitchOk(s) && (e.Fetch? || e.Resume? || e.Match? || e.Decide?)
    ensures SwitchOk(Step(s, e))
  {
    hide Storage, Settled, Switching;
    if s.history.switchedAt.Some? {
      ThinnerOwned(s, Step(s, e), s.history.switchedAt.value);
    }
  }

  lemma SwitchOpen(s: State, id: nat)
    requires Storage(s) && SwitchOk(s)
    ensures SwitchOk(StepOpen(s, id))
  {
    if id in s.requests && s.requests[id].phase.Opening? {
      var g := s.history.switchedAt.value;
      OpenNameThinner(s.disk, s.requests[id].phase.name);
      ThinnerSwitch(s.chain, s.disk, StepOpen(s, id).disk, g, s.cfg.owner);
      ThinnerOwned(s, StepOpen(s, id), g);
      hide Storage, Settled, Switching, OpenName;
    }
  }

  lemma SwitchDrop(s: State, id: nat)
    requires Storage(s) && SwitchOk(s)
    ensures SwitchOk(StepDrop(s, id))
  {
    if id in s.requests && s.requests[id].phase.Dropping? {
      var g := s.history.switchedAt.value;
      DropKeyThinner(s.disk, s.requests[id].phase.box, s.requests[id].key);
      ThinnerSwitch(s.chain, s.disk, StepDrop(s, id).disk, g, s.cfg.owner);
      ThinnerOwned(s, StepDrop(s, id), g);
      hide Storage, Settled, Switching, DropKey;
    }
  }

  lemma SwitchRespond(s: State, id: nat, cacheable: bool)
    requires Storage(s) && SwitchOk(s)
    ensures SwitchOk(StepRespond(s, id, cacheable))
  {
    if id in s.requests && s.requests[id].phase.Fetching? {
      var g, p := s.history.switchedAt.value, s.requests[id].phase;
      EnqueueSwitch(s.chain, Write(p.epoch, p.account, p.box, s.requests[id].key), s.disk, g, s.cfg.owner);
      hide Storage, Settled, Switching;
    }
  }

  lemma SwitchAnnounce(s: State, kind: Kind)
    requires Storage(s) && SwitchOk(s)
    ensures SwitchOk(StepAnnounce(s, kind))
  {
    hide DiskOk, RequestsOk, QueueOk, StageOk, Bounded, HistoryOk, Settled, Switching, SwitchStage, EntriesOf;
    if s.history.switchedAt.Some? {
      EnqueueSwitch(s.chain, Purge(kind, s.cfg.generation + 1), s.disk, s.history.switchedAt.value, s.cfg.owner);
    }
  }

  lemma SwitchPolicy(s: State, o: Option<User>, x: bool, m: Option<bool>)
    requires Storage(s) && SwitchOk(s)
    ensures SwitchOk(StepPolicy(s, o, x, m))
  {
    var s' := StepPolicy(s, o, x, m);
    var op := Policy(s.cfg.generation + 1, s.cfg.owner, s.cfg.metadata);
    if o == s.cfg.owner {
      if s.history.switchedAt.Some? {
        EnqueueSwitch(s.chain, op, s.disk, s.history.switchedAt.value, s.cfg.owner);
      }
      hide Storage, Settled, Switching;
    } else {
      NothingYet(s, s');
      assert s'.chain.queue[|s.chain.queue|] == op;
      hide OwnedSince, Settled;
    }
  }

  /** Nothing can have been captured at the generation a change of owner has just opened. */
  lemma NothingYet(s: State, s': State)
    requires Storage(s) && s'.disk == s.disk && s'.requests == s.requests && s'.cfg.generation == s.cfg.generation + 1
    requires forall i :: 0 <= i < |s'.chain.queue| && s'.chain.queue[i].Write? ==> s'.chain.queue[i] in s.chain.queue
    ensures OwnedSince(s', s'.cfg.generation)
  {
    var g := s.cfg.generation;
    forall id | id in s.requests && !s.requests[id].phase.Awaiting? ensures s.requests[id].phase.epoch <= g {
      assert RequestOk(s.requests[id], s.disk, g);
    }
    forall i | 0 <= i < |s'.chain.queue| && s'.chain.queue[i].Write? ensures s'.chain.queue[i].epoch <= g {
      var j :| 0 <= j < |s.chain.queue| && s.chain.queue[j] == s'.chain.queue[i];
      assert OpOk(s.chain.queue[j], s.disk, g);
    }
    forall b: nat, e | e in EntriesOf(s.disk, b) ensures e.epoch <= g {
      assert BoxOk(s.disk.boxes[b], g);
    }
  }

  lemma FinishSwitch(c: Chain, d: Disk, g: nat, owner: Option<User>)
    requires c.queue != [] && (Settled(c, d, g) || Switching(c, d, g, owner))
    requires !(c.queue[0].Policy? && c.queue[0].gen == g && c.queue[0].previous != owner) || NamedSince(d, g)
    ensures Settled(Finish(c), d, g) || Switching(Finish(c), d, g, owner)
  {
    if !NamedSince(d, g) {
      var i :| 0 <= i < |c.queue| && c.queue[i].Policy? && c.queue[i].gen == g && c.queue[i].previous != owner
             && (i == 0 ==> SwitchStage(c, d));
      assert Finish(c).queue[i - 1] == c.queue[i];
    }
  }

  /** Moving a head that is not the clean-up leaves the clean-up where it is. */
  lemma StageSwitch(c: Chain, stage: Stage, d: Disk, g: nat, owner: Option<User>)
    requires c.queue != [] && (Settled(c, d, g) || Switching(c, d, g, owner))
    requires c.queue[0].Write? ==> !c.stage.Waiting? || g <= c.queue[0].epoch
    requires c.queue[0].Policy? && c.queue[0].gen == g && c.queue[0].previous != owner ==> SwitchStage(c, d) ==> SwitchStage(To(c, stage), d)
    ensures Settled(To(c, stage), d, g) || Switching(To(c, stage), d, g, owner)
  {
    if !Settled(c, d, g) {
      var i :| 0 <= i < |c.queue| && c.queue[i].Policy? && c.queue[i].gen == g && c.queue[i].previous != owner
             && (i == 0 ==> SwitchStage(c, d));
      assert To(c, stage).queue[i] == c.queue[i];
    }
  }

  lemma SwitchWrite(s: State, now: nat)
    requires Storage(s) && SwitchOk(s) && s.chain.queue != [] && s.chain.queue[0].Write?
    ensures SwitchOk(StepWork(s, now, ArtworkOf("")))
  {
    var s' := StepWork(s, now, ArtworkOf(""));
    var c, d, op, g, o := s.chain, s.disk, s.chain.queue[0], s.history.switchedAt.value, s.cfg.owner;
    match c.stage {
      case Waiting =>
        if op.epoch != s.cfg.generation || Some(op.account) != o {
          FinishSwitch(c, d, g, o);
        } else {
          StageSwitch(c, Putting(now), d, g, o);
        }
        ThinnerOwned(s, s', g);
      case Putting(at) =>
        SwitchPut(s, now);
      case Listing =>
        StageSwitch(c, s'.chain.stage, d, g, o);
        ThinnerOwned(s, s', g);
      case Evicting(keys) =>
        if keys == [] {
          FinishSwitch(c, d, g, o);
        } else {
          DropKeyThinner(d, op.box, keys[0]);
          ThinnerSwitch(c, d, s'.disk, g, o);
          StageSwitch(c, Evicting(keys[1..]), s'.disk, g, o);
        }
        ThinnerOwned(s, s', g);
    }
    hide Storage, Settled, Switching, OwnedSince, Thinner, DropKey;
  }

  lemma SwitchPut(s: State, now: nat)
    requires Storage(s) && SwitchOk(s) && s.chain.queue != [] && s.chain.queue[0].Write? && s.chain.stage.Putting?
    ensures SwitchOk(StepWork(s, now, ArtworkOf("")))
  {
    var s' := StepWork(s, now, ArtworkOf(""));
    var c, d, op, g, o := s.chain, s.disk, s.chain.queue[0], s.history.switchedAt.value, s.cfg.owner;
    forall b: nat, e | e in EntriesOf(s'.disk, b)
      ensures e in EntriesOf(d, b) || (e.epoch == op.epoch && e.account == op.account)
    {
    }
    StageSwitch(c, Listing, d, g, o);
    assert g <= op.epoch ==> o == Some(op.account);
    forall b: nat, e | e in EntriesOf(s'.disk, b) && g <= e.epoch ensures o == Some(e.account) {
      assert e in EntriesOf(d, b) || (e.epoch == op.epoch && e.account == op.account);
    }
    if Settled(c, d, g) {
      assert Settled(s'.chain, s'.disk, g);
    } else {
      var i :| 0 <= i < |c.queue| && c.queue[i].Policy? && c.queue[i].gen == g && c.queue[i].previous != o
             && (i == 0 ==> SwitchStage(c, d));
      assert s'.chain.queue[i] == c.queue[i];
    }
  }

  lemma SwitchPurge(s: State, now: nat, pick: Name)
    requires Storage(s) && SwitchOk(s) && s.chain.queue != [] && s.chain.queue[0].Purge?
    ensures SwitchOk(StepWork(s, now, pick))
  {
    var s' := StepWork(s, now, pick);
    if s.history.switchedAt.Some? {
      var c, d, g, o := s.chain, s.disk, s.history.switchedAt.value, s.cfg.owner;
      PurgeThinner(c, d, pick);
      hide Storage, WorkPurge, Thinner;
      ThinnerSwitch(c, d, s'.disk, g, o);
      if s'.chain == Finish(c) {
        FinishSwitch(c, d, g, o);
      } else {
        StageSwitch(c, s'.chain.stage, s'.disk, g, o);
      }
      ThinnerOwned(s, s', g);
      hide Settled, Switching, OwnedSince;
    }
  }

  /** One step of the clean-up itself: `previous` differs from the owner all along. */
  lemma CleanUpStep(c: Chain, d: Disk, cfg: Settings, pick: Name, g: nat)
    requires c.queue != [] && c.queue[0].Policy? && c.queue[0].previous != cfg.owner && SwitchStage(c, d)
    ensures var (c', d') := WorkPolicy(c, d, cfg, pick);
            if c' == Finish(c) then NamedSince(d', g) else SwitchStage(c', d')
  {
    if c.stage == ArtworkNext({}) {
      forall n | n in d.names ensures EntriesOf(d, d.names[n]) == [] {
        assert n.Kind() == Artwork || n.Kind() == Catalog;
      }
    }
  }

  lemma SwitchPolicyStep(s: State, now: nat, pick: Name)
    requires Storage(s) && SwitchOk(s) && s.chain.queue != [] && s.chain.queue[0].Policy?
    ensures SwitchOk(StepWork(s, now, pick))
  {
    var s' := StepWork(s, now, pick);
    if s.history.switchedAt.Some? {
      var c, d, g, o := s.chain, s.disk, s.history.switchedAt.value, s.cfg.owner;
      PolicyThinner(c, d, s.cfg, pick);
      ThinnerSwitch(c, d, s'.disk, g, o);
      ThinnerOwned(s, s', g);
      if c.queue[0].previous != o && SwitchStage(c, d) {
        CleanUpStep(c, d, s.cfg, pick, g);
      }
      PolicyMoves(c, s'.chain, d, s'.disk, g, o);
      hide Storage, Settled, Switching, OwnedSince, Thinner, WorkPolicy;
    }
  }

  lemma PolicyMoves(c: Chain, c': Chain, d: Disk, d': Disk, g: nat, o: Option<User>)
    requires c.queue != [] && c.queue[0].Policy? && (c' == Finish(c) || c' == To(c, c'.stage))
    requires Settled(c, d, g) || Switching(c, d, g, o)
    requires Thinner(d, d')
    requires c.queue[0].previous != o && SwitchStage(c, d) ==> if c' == Finish(c) then NamedSince(d', g) else SwitchStage(c', d')
    ensures Settled(c', d', g) || Switching(c', d', g, o)
  {
    if Settled(c, d, g) {
      assert NamedSince(d', g);
      assert Settled(c', d', g);
    } else {
      var i :| 0 <= i < |c.queue| && c.queue[i].Policy? && c.queue[i].gen == g && c.queue[i].previous != o
             && (i == 0 ==> SwitchStage(c, d));
      if c' == Finish(c) {
        if i > 0 {
          assert c'.queue[i - 1] == c.queue[i];
        }
      } else {
        assert c'.queue[i] == c.queue[i];
      }
    }
  }

  lemma SwitchStep(s: State, e: Event)
    requires Storage(s) && SwitchOk(s)
    ensures SwitchOk(Step(s, e))
  {
    match e
    case Fetch(_, _, _) => SwitchFetchers(s, e);
    case Resume(_) => SwitchFetchers(s, e);
    case Match(_) => SwitchFetchers(s, e);
    case Decide(_, _) => SwitchFetchers(s, e);
    case Open(id) => SwitchOpen(s, id);
    case Drop(id) => SwitchDrop(s, id);
    case Respond(id, cacheable) => SwitchRespond(s, id, cacheable);
    case Mutate => SwitchAnnounce(s, Catalog);
    case ClearImages => SwitchAnnounce(s, Artwork);
    case PurgeStale => SwitchAnnounce(s, Catalog);
    case SetPolicy(o, x, m) => SwitchPolicy(s, o, x, m);
    case Work(now, pick) => SwitchWork(s, now, pick);
    case Restart =>
  }

  lemma SwitchWork(s: State, now: nat, pick: Name)
    requires Storage(s) && SwitchOk(s)
    ensures SwitchOk(StepWork(s, now, pick))
  {
    if s.chain.queue != [] {
      match s.chain.queue[0] {
        case Write(_, _, _, _) => SwitchWrite(s, now);
        case Purge(_, _) => SwitchPurge(s, now, pick);
        case Policy(_, _, _) => SwitchPolicyStep(s, now, pick);
      }
      hide SwitchOk, Storage, WorkPurge, WorkPolicy;
    }
  }

  // ---------------------------------------------------------------- whole runs

  /** What holds of a response at the moment it is answered from a cache. */
  ghost predicate ServedOk(a: Served) {
    && a.owner == Some(a.entry.account)
    && a.entry.key == a.request.key
    && a.request.floor <= a.entry.epoch
    && 0 < a.entry.storedAt && a.now - a.entry.storedAt < ARTWORK_MAX_AGE_MS
  }

  ghost predicate AllServedOk(served: seq<Served>) {
    forall i :: 0 <= i < |served| ==> ServedOk(served[i])
  }

  ghost predicate Inv(s: State) {
    Storage(s) && Fresh(s) && SwitchOk(s) && AllServedOk(s.served)
  }

  lemma ServedStep(s: State, e: Event)
    requires Storage(s) && Fresh(s) && AllServedOk(s.served)
    ensures AllServedOk(Step(s, e).served)
  {
    if e.Decide? {
      DecideServes(s, e.id, e.now);
    } else {
      hide Storage, Fresh, WorkOn, DropKey, OpenName;
      assert Step(s, e).served == s.served;
    }
  }

  lemma DecideServes(s: State, id: nat, now: nat)
    requires Storage(s) && Fresh(s) && AllServedOk(s.served)
    ensures AllServedOk(StepDecide(s, id, now).served)
  {
    if id in s.requests && s.requests[id].phase.Deciding? {
      var r, served := s.requests[id], StepDecide(s, id, now).served;
      assert RequestOk(r, s.disk, s.cfg.generation);
      assert RequestFresh(r, s.chain, s.disk, s.history);
      hide Storage, Fresh;
      if served != s.served {
        assert served == s.served + [Served(r, r.phase.found.value, s.cfg.owner, now)];
        assert ServedOk(Served(r, r.phase.found.value, s.cfg.owner, now));
      }
    }
  }

  lemma StepInv(s: State, e: Event)
    requires Inv(s)
    ensures Inv(Step(s, e))
  {
    StorageStep(s, e);
    FreshStep(s, e);
    SwitchStep(s, e);
    ServedStep(s, e);
    hide Storage, Fresh, SwitchOk, AllServedOk, Step;
  }

  lemma InitInv()
    ensures Inv(Init)
  {
  }

  lemma {:induction false} RunInv(events: seq<Event>)
    ensures Inv(Run(events))
  {
    hide Inv, Step;
    if events == [] {
      InitInv();
    } else {
      RunInv(events[..|events| - 1]);
      StepInv(Run(events[..|events| - 1]), events[|events| - 1]);
    }
  }

  /** In every run, a response answered from a cache was stored under the account that is the owner
      at the moment of return, answers the request's own key, and has not expired. */
  lemma ServedBelongsToOwner(events: seq<Event>, i: nat)
    requires i < |Run(events).served|
    ensures var a := Run(events).served[i];
            a.owner == Some(a.entry.account) && a.entry.key == a.request.key && a.now - a.entry.storedAt < ARTWORK_MAX_AGE_MS
  {
    RunInv(events);
  }

  /** A request that starts after a mutation or purge message is never answered from an entry whose
      request captured its epoch before that message. */
  lemma ServedAfterAnnouncement(events: seq<Event>, i: nat)
    requires i < |Run(events).served|
    ensures var a := Run(events).served[i]; a.request.floor <= a.entry.epoch
  {
    RunInv(events);
  }

  predicate Announces(e: Event, kind: Kind) {
    if kind == Artwork then e.ClearImages? else e.Mutate? || e.PurgeStale?
  }

  /** In the same life of the worker, a message sent before a request starts is below the floor of the
      request. */
  lemma FloorCoversAnnouncement(before: seq<Event>, e: Event, after: seq<Event>, id: nat, kind: Kind, key: Key)
    requires Announces(e, kind) && Restart !in after
    requires id !in Run(before + [e] + after).requests
    ensures var s := Step(Run(before + [e] + after), Fetch(id, kind, key));
            id in s.requests ==> Run(before).cfg.generation < s.requests[id].floor
  {
    AnnouncedStays(before, e, after, kind);
  }

  /** When the worker was terminated in between, a message sent before a request starts is below the
      floor of the request exactly when its purge had run before the last termination, or a purge of its
      kind was announced since. */
  lemma FloorAfterRestart(before: seq<Event>, e: Event, mid: seq<Event>, rest: seq<Event>, id: nat, kind: Kind, key: Key)
    requires Announces(e, kind) && Restart !in rest
    requires var s := Run(before + [e] + mid + [Restart] + rest); id !in s.requests && id in Step(s, Fetch(id, kind, key)).requests
    ensures var s := Step(Run(before + [e] + mid + [Restart] + rest), Fetch(id, kind, key));
            Run(before).cfg.generation < s.requests[id].floor <==>
              || Run(before).cfg.generation < Run(before + [e] + mid).history.Purged(kind)
              || exists i :: 0 <= i < |rest| && Announces(rest[i], kind)
  {
    AnnouncedAcrossRestart(before, e, mid, rest, kind);
  }

  /** An announcement outlives a termination of the worker exactly when its purge had run by then. */
  lemma AnnouncedAcrossRestart(before: seq<Event>, e: Event, mid: seq<Event>, rest: seq<Event>, kind: Kind)
    requires Announces(e, kind) && Restart !in rest
    ensures Run(before).cfg.generation < Run(before + [e] + mid + [Restart] + rest).history.Announced(kind) <==>
              || Run(before).cfg.generation < Run(before + [e] + mid).history.Purged(kind)
              || exists i :: 0 <= i < |rest| && Announces(rest[i], kind)
  {
    hide Run, Step, Announces;
    var stopped := before + [e] + mid;
    RunSnoc(stopped, Restart);
    assert Run(stopped + [Restart]).history.Announced(kind) == Run(stopped).history.Purged(kind) by {
      RestartForgets(Run(stopped), kind);
    }
    if i :| 0 <= i < |rest| && Announces(rest[i], kind) {
      var sofar := stopped + [Restart] + rest[..i];
      assert stopped + [Restart] + rest == sofar + [rest[i]] + rest[i + 1..];
      AnnouncedStays(sofar, rest[i], rest[i + 1..], kind);
      assert sofar == before + ([e] + mid + [Restart] + rest[..i]);
      GenerationGrowsOver(before, [e] + mid + [Restart] + rest[..i]);
    } else {
      NoneAnnounced(stopped + [Restart], rest, kind);
    }
  }

  lemma RestartForgets(s: State, kind: Kind)
    ensures Step(s, Restart).history.Announced(kind) == s.history.Purged(kind)
  {
  }

  lemma {:induction false} NoneAnnounced(before: seq<Event>, after: seq<Event>, kind: Kind)
    requires Restart !in after && forall i :: 0 <= i < |after| ==> !Announces(after[i], kind)
    ensures Run(before + after).history.Announced(kind) == Run(before).history.Announced(kind)
  {
    hide Run, Step, Announces;
    if after == [] {
      assert before + after == before;
    } else {
      var shorter, last := after[..|after| - 1], after[|after| - 1];
      assert before + after == before + shorter + [last] && last in after;
      NoneAnnounced(before, shorter, kind);
      RunSnoc(before + shorter, last);
      OthersAnnounceNothing(Run(before + shorter), last, kind);
    }
  }

  lemma OthersAnnounceNothing(s: State, e: Event, kind: Kind)
    requires e != Restart && !Announces(e, kind)
    ensures Step(s, e).history.Announced(kind) == s.history.Announced(kind)
  {
    hide WorkOn, DropKey, OpenName;
  }

  lemma {:induction false} GenerationGrowsOver(before: seq<Event>, after: seq<Event>)
    ensures Run(before).cfg.generation <= Run(before + after).cfg.generation
  {
    hide Run, Step;
    if after == [] {
      assert before + after == before;
    } else {
      var shorter, last := after[..|after| - 1], after[|after| - 1];
      assert before + after == before + shorter + [last];
      GenerationGrowsOver(before, shorter);
      RunSnoc(before + shorter, last);
      GenerationStays(Run(before + shorter), last);
    }
  }

  lemma GenerationStays(s: State, e: Event)
    ensures s.cfg.generation <= Step(s, e).cfg.generation
  {
    hide WorkOn, DropKey, OpenName;
  }

  lemma {:induction false} AnnouncedStays(before: seq<Event>, e: Event, after: seq<Event>, kind: Kind)
    requires Announces(e, kind) && Restart !in after
    ensures Run(before).cfg.generation < Run(before + [e] + after).history.Announced(kind)
  {
    hide Step, Inv, Run, Announces;
    if after == [] {
      assert before + [e] + after == before + [e];
      RunSnoc(before, e);
      AnnounceCounts(Run(before), e, kind);
    } else {
      var shorter, last := after[..|after| - 1], after[|after| - 1];
      assert before + [e] + after == before + [e] + shorter + [last];
      AnnouncedStays(before, e, shorter, kind);
      RunInv(before + [e] + shorter);
      RunSnoc(before + [e] + shorter, last);
      StepKeepsAnnounced(Run(before + [e] + shorter), last, kind);
    }
  }

  lemma AnnounceCounts(s: State, e: Event, kind: Kind)
    requires Announces(e, kind)
    ensures s.cfg.generation < Step(s, e).history.Announced(kind)
  {
  }

  lemma RunSnoc(events: seq<Event>, e: Event)
    ensures Run(events + [e]) == Step(Run(events), e)
  {
    hide Step;
    assert (events + [e])[..|events|] == events;
  }

  lemma StepKeepsAnnounced(s: State, e: Event, kind: Kind)
    requires Inv(s) && e != Restart
    ensures s.history.Announced(kind) <= Step(s, e).history.Announced(kind)
  {
    assert s.history.Announced(kind) <= s.cfg.generation by {
      assert kind == Artwork || kind == Catalog;
    }
    hide WorkOn, Storage, DropKey, OpenName;
  }

  /** Once a purge has run, every entry that can be found by name under its kind was stored by a
      request that captured an epoch no earlier than the purge's generation. */
  lemma NamedEntriesAfterPurge(events: seq<Event>, n: Name, e: Entry)
    requires n in Run(events).disk.names && e in EntriesOf(Run(events).disk, Run(events).disk.names[n])
    ensures Run(events).history.Purged(n.Kind()) <= e.epoch
  {
    RunInv(events);
  }

  /** Whenever the chain is empty and somebody is signed in, every stored response that can be found
      belongs to the owner, whatever accounts were signed in before; once an owner has been set in
      this life of the worker and signed out again, nothing is left to find. */
  lemma QuietCachesBelongToOwner(events: seq<Event>, n: Name, e: Entry)
    requires Run(events).chain.queue == []
    requires n in Run(events).disk.names && e in EntriesOf(Run(events).disk, Run(events).disk.names[n])
    requires Run(events).cfg.owner.Some? || Run(events).history.switchedAt.Some?
    ensures Run(events).cfg.owner == Some(e.account)
  {
    RunInv(events);
  }

  /** A cache holds at most the limit when no write is in progress, one more while one is, and one
      more for every write that a termination of the worker stopped before it evicted. */
  lemma CacheBound(events: seq<Event>, b: nat)
    requires b < |Run(events).disk.boxes|
    ensures var s := Run(events);
            |EntriesOf(s.disk, b)| <= ARTWORK_MAX_ITEMS + s.history.cut + (if Stopped(s.chain) then 1 else 0)
  {
    RunInv(events);
    var s := Run(events);
    assert BoxBounded(s.chain, b, s.disk.boxes[b].entries, s.history.cut);
  }

  lemma {:induction false} NoRestartNoCut(events: seq<Event>)
    requires Restart !in events
    ensures Run(events).history.cut == 0
  {
    hide Step;
    if events != [] {
      NoRestartNoCut(events[..|events| - 1]);
      StepKeepsCut(Run(events[..|events| - 1]), events[|events| - 1]);
    }
  }

  lemma StepKeepsCut(s: State, e: Event)
    requires !e.Restart?
    ensures Step(s, e).history.cut == s.history.cut
  {
    hide WorkOn, DropKey, OpenName;
  }

  /** The step makes the cache object smaller. */
  predicate Shrinks(s: State, e: Event, box: nat) {
    |EntriesOf(Step(s, e).disk, box)| < |EntriesOf(s.disk, box)|
  }

  predicate HasKey(es: seq<Entry>, k: Key) {
    exists i :: 0 <= i < |es| && es[i].key == k
  }

  /** A write is about to store its entry, and nothing was cut before.  A termination of the worker after
      that and before the write is done leaves a cache above the limit exactly when the cache was full,
      the key was new, and no step in between deleted an entry of that cache. */
  lemma RestartOverLimit(before: seq<Event>, now: nat, pick: Name, mid: seq<Event>)
    requires var s := Run(before);
             s.history.cut == 0 && s.chain.queue != [] && s.chain.queue[0].Write? && s.chain.stage.Putting?
    requires Restart !in mid && Run(before + [Work(now, pick)] + mid).chain.finished == Run(before).chain.finished
    ensures var s, later := Run(before), before + [Work(now, pick)] + mid;
            var box, key := s.chain.queue[0].box, s.chain.queue[0].key;
            (exists b: nat :: |EntriesOf(StepRestart(Run(later)).disk, b)| > ARTWORK_MAX_ITEMS) <==>
              && |EntriesOf(s.disk, box)| == ARTWORK_MAX_ITEMS && !HasKey(EntriesOf(s.disk, box), key)
              && forall i :: 0 <= i < |mid| ==> !Shrinks(Run(before + [Work(now, pick)] + mid[..i]), mid[i], box)
  {
    hide Run, Step, Shrinks, HasKey;
    var put, later := before + [Work(now, pick)], before + [Work(now, pick)] + mid;
    var s, s1, s2 := Run(before), Run(before + [Work(now, pick)]), Run(later);
    var box := s.chain.queue[0].box;
    RunInv(before);
    RunSnoc(before, Work(now, pick));
    PutSize(s, now, pick);
    NoneGrows(put, mid, s.chain.queue[0]);
    RunInv(later);
    OverLimitAt(s2);
  }

  /** What storing does to the size of the cache. */
  lemma PutSize(s: State, now: nat, pick: Name)
    requires Inv(s) && s.history.cut == 0 && s.chain.queue != [] && s.chain.queue[0].Write? && s.chain.stage.Putting?
    ensures var s', box := Step(s, Work(now, pick)), s.chain.queue[0].box;
            && Stopped(s'.chain) && s'.chain.queue == s.chain.queue && s'.chain.finished == s.chain.finished
            && s'.history.cut == 0
            && (|EntriesOf(s'.disk, box)| > ARTWORK_MAX_ITEMS <==>
                  |EntriesOf(s.disk, box)| == ARTWORK_MAX_ITEMS && !HasKey(EntriesOf(s.disk, box), s.chain.queue[0].key))
            && |EntriesOf(s'.disk, box)| <= ARTWORK_MAX_ITEMS + 1
  {
    var op := s.chain.queue[0];
    assert OpOk(op, s.disk, s.cfg.generation);
    var es := s.disk.boxes[op.box].entries;
    assert BoxBounded(s.chain, op.box, es, 0);
    if HasKey(es, op.key) {
      RemovePresent(es, op.key);
    } else {
      WithoutAbsent(es, op.key);
    }
    hide Without, HasKey, Inv;
  }

  lemma {:induction false} RemovePresent(es: seq<Entry>, k: Key)
    requires HasKey(es, k)
    ensures |Remove(es, k)| < |es|
  {
    if es[0].key != k {
      var i :| 0 <= i < |es| && es[i].key == k;
      assert es[1..][i - 1].key == k;
      RemovePresent(es[1..], k);
    }
  }

  /** While the write is between storing and its end, its cache does not grow: it keeps its size exactly
      as long as no step makes it smaller. */
  lemma {:induction false} NoneGrows(put: seq<Event>, mid: seq<Event>, op: Op)
    requires op.Write? && Restart !in mid
    requires Stopped(Run(put).chain) && Run(put).chain.queue[0] == op
    requires Run(put + mid).chain.finished == Run(put).chain.finished
    ensures Stopped(Run(put + mid).chain) && Run(put + mid).chain.queue[0] == op
    ensures Run(put + mid).history.cut == Run(put).history.cut
    ensures |EntriesOf(Run(put + mid).disk, op.box)| <= |EntriesOf(Run(put).disk, op.box)|
    ensures |EntriesOf(Run(put + mid).disk, op.box)| == |EntriesOf(Run(put).disk, op.box)| <==>
            forall i :: 0 <= i < |mid| ==> !Shrinks(Run(put + mid[..i]), mid[i], op.box)
  {
    hide Run, Step, Shrinks, Stopped;
    if mid == [] {
      assert put + mid == put;
    } else {
      var shorter, last := mid[..|mid| - 1], mid[|mid| - 1];
      assert put + mid == put + shorter + [last] && last in mid;
      RunSnoc(put + shorter, last);
      FinishedGrowsOver(put, shorter);
      FinishedGrows(Run(put + shorter), last);
      NoneGrows(put, shorter, op);
      NotGrown(Run(put + shorter), last, op);
      assert forall i :: 0 <= i < |shorter| ==> shorter[i] == mid[i] && shorter[..i] == mid[..i];
      assert mid[..|shorter|] == shorter;
    }
  }

  lemma {:induction false} FinishedGrowsOver(before: seq<Event>, after: seq<Event>)
    requires Restart !in after
    ensures Run(before).chain.finished <= Run(before + after).chain.finished
  {
    hide Run, Step;
    if after == [] {
      assert before + after == before;
    } else {
      var shorter, last := after[..|after| - 1], after[|after| - 1];
      assert before + after == before + shorter + [last] && last in after;
      FinishedGrowsOver(before, shorter);
      RunSnoc(before + shorter, last);
      FinishedGrows(Run(before + shorter), last);
    }
  }

  lemma FinishedGrows(s: State, e: Event)
    requires e != Restart
    ensures s.chain.finished <= Step(s, e).chain.finished
  {
    hide DropKey, OpenName, SetEntries, ExternalKeys;
  }

  lemma NotGrown(s: State, e: Event, op: Op)
    requires e != Restart && op.Write? && Stopped(s.chain) && s.chain.queue[0] == op
    requires Step(s, e).chain.finished == s.chain.finished
    ensures Stopped(Step(s, e).chain) && Step(s, e).chain.queue[0] == op && Step(s, e).history.cut == s.history.cut
    ensures |EntriesOf(Step(s, e).disk, op.box)| <= |EntriesOf(s.disk, op.box)|
    ensures |EntriesOf(Step(s, e).disk, op.box)| == |EntriesOf(s.disk, op.box)| <==> !Shrinks(s, e, op.box)
  {
    hide Without, NamesOf, ExternalKeys, Lookup;
  }

  lemma OverLimitAt(s: State)
    requires Inv(s) && s.history.cut == 0 && Stopped(s.chain)
    ensures (exists b: nat :: |EntriesOf(StepRestart(s).disk, b)| > ARTWORK_MAX_ITEMS) <==>
            |EntriesOf(s.disk, s.chain.queue[0].box)| > ARTWORK_MAX_ITEMS
  {
    forall b: nat | |EntriesOf(s.disk, b)| > ARTWORK_MAX_ITEMS ensures b == s.chain.queue[0].box {
      assert BoxBounded(s.chain, b, s.disk.boxes[b].entries, 0);
    }
    assert EntriesOf(StepRestart(s).disk, s.chain.queue[0].box) == EntriesOf(s.disk, s.chain.queue[0].box);
  }

  /** A write that completes leaves its cache within the limit, even after earlier ones were cut. */
  lemma CompletedWriteWithinLimit(events: seq<Event>, now: nat, pick: Name)
    requires var s := Run(events);
             s.chain.queue != [] && s.chain.queue[0].Write? && s.chain.stage.Evicting?
             && StepWork(s, now, pick).chain.finished > s.chain.finished
    ensures var s := Run(events); |EntriesOf(StepWork(s, now, pick).disk, s.chain.queue[0].box)| <= ARTWORK_MAX_ITEMS
  {
    RunInv(events);
    WriteEndsWithinLimit(Run(events), now, pick);
  }

  lemma WriteEndsWithinLimit(s: State, now: nat, pick: Name)
    requires Storage(s) && s.chain.queue != [] && s.chain.queue[0].Write? && s.chain.stage.Evicting?
    requires StepWork(s, now, pick).chain.finished > s.chain.finished
    ensures |EntriesOf(StepWork(s, now, pick).disk, s.chain.queue[0].box)| <= ARTWORK_MAX_ITEMS
  {
    var b := s.chain.queue[0].box;
    assert OpOk(s.chain.queue[0], s.disk, s.cfg.generation);
    assert BoxBounded(s.chain, b, s.disk.boxes[b].entries, s.history.cut);
    WithoutNone(s.disk.boxes[b].entries);
    assert KeySet([]) == {};
  }

  /** Eviction, step by step. */
  function DropAll(es: seq<Entry>, ks: seq<Key>): seq<Entry>
    decreases |ks|
  {
    if ks == [] then es else DropAll(Remove(es, ks[0]), ks[1..])
  }

  lemma {:induction false} DropAllIsWithout(es: seq<Entry>, ks: seq<Key>)
    ensures DropAll(es, ks) == Without(es, KeySet(ks))
    decreases |ks|
  {
    hide Without;
    if ks == [] {
      WithoutNone(es);
      assert KeySet(ks) == {};
    } else {
      DropAllIsWithout(Remove(es, ks[0]), ks[1..]);
      WithoutTwice(es, {ks[0]}, KeySet(ks[1..]));
      assert KeySet(ks) == {ks[0]} + KeySet(ks[1..]);
    }
  }

  /** What a write evicts are the oldest entries: the newest stay, in their order. */
  lemma OldestGo(es: seq<Entry>)
    requires Distinct(es)
    ensures DropAll(es, Excess(Keys(es))) == es[if |es| > ARTWORK_MAX_ITEMS then |es| - ARTWORK_MAX_ITEMS else 0..]
  {
    hide Without, DropAll, KeySet, Distinct;
    var n := if |es| > ARTWORK_MAX_ITEMS then |es| - ARTWORK_MAX_ITEMS else 0;
    DropAllIsWithout(es, Keys(es)[..n]);
    WithoutPrefix(es, n);
  }

  function Printed(n: Name, encode: User -> string, artworkPrefix: string, catalogPrefix: string): string {
    match n
    case ArtworkOf(user) => artworkPrefix + encode(user)
    case CatalogOf(user, enriched) => catalogPrefix + encode(user) + (if enriched then "-enriched" else "-local")
  }

  lemma PrefixesNest(a: string, b: string, s: string)
    requires a <= s && b <= s
    ensures a <= b || b <= a
  {
    if |a| <= |b| {
      assert b[..|a|] == s[..|a|];
    } else {
      assert a[..|b|] == s[..|b|];
    }
  }

  /** No two account caches share a printed name, when the account encoding is injective and neither
      prefix extends the other. */
  lemma PrintedInjective(a: Name, b: Name, encode: User -> string, artworkPrefix: string, catalogPrefix: string)
    requires forall u, v :: encode(u) == encode(v) ==> u == v
    requires !(artworkPrefix <= catalogPrefix) && !(catalogPrefix <= artworkPrefix)
    requires Printed(a, encode, artworkPrefix, catalogPrefix) == Printed(b, encode, artworkPrefix, catalogPrefix)
    ensures a == b
  {
    var pa, pb := Printed(a, encode, artworkPrefix, catalogPrefix), Printed(b, encode, artworkPrefix, catalogPrefix);
    if a.Kind() != b.Kind() {
      PrefixesNest(artworkPrefix, catalogPrefix, pa);
    } else if a.ArtworkOf? {
      assert pa[|artworkPrefix|..] == encode(a.user) && pb[|artworkPrefix|..] == encode(b.user);
    } else {
      assert pa[|pa| - 1] == if a.enriched then 'd' else 'l';
      assert pb[|pb| - 1] == if b.enriched then 'd' else 'l';
      var tail := if a.enriched then "-enriched" else "-local";
      assert pa[|catalogPrefix|..|pa| - |tail|] == encode(a.user);
      assert pb[|catalogPrefix|..|pb| - |tail|] == encode(b.user);
    }
  }

  // ---------------------------------------------------------------- the program's own names and filters

  const PWA_CACHE_PREFIX: string := "musicdeck-pwa-"
  const SHELL_CACHE: string := "musicdeck-pwa-shell-v1"
  const STATIC_CACHE: string := "musicdeck-pwa-static-v1"
  const METADATA_CACHE: string := "musicdeck-pwa-metadata-v1"
  const ARTWORK_CACHE_PREFIX: string := "musicdeck-pwa-artwork-v1-"
  const CATALOG_CACHE_PREFIX: string := "musicdeck-pwa-catalog-v1-"

  function CacheName(n: Name, encode: User -> string): string {
    Printed(n, encode, ARTWORK_CACHE_PREFIX, CATALOG_CACHE_PREFIX)
  }

  predicate IsArtworkCache(name: string) {
    "musicdeck-pwa-artwork-" <= name
  }

  predicate IsCatalogCache(name: string) {
    "musicdeck-pwa-catalog-" <= name
  }

  predicate IsStaleWebCache(name: string) {
    && PWA_CACHE_PREFIX <= name && name !in {SHELL_CACHE, STATIC_CACHE, METADATA_CACHE}
    && !(SHELL_CACHE + "-" <= name) && !(STATIC_CACHE + "-" <= name)
    && !(CATALOG_CACHE_PREFIX <= name) && !(ARTWORK_CACHE_PREFIX <= name)
  }

  predicate IsPurgeableWebCache(name: string) {
    IsStaleWebCache(name) || IsCatalogCache(name)
  }

  /** No two account caches share a name. */
  lemma CacheNamesDiffer(a: Name, b: Name, encode: User -> string)
    requires forall u, v :: encode(u) == encode(v) ==> u == v
    requires CacheName(a, encode) == CacheName(b, encode)
    ensures a == b
  {
    assert ARTWORK_CACHE_PREFIX[14] != CATALOG_CACHE_PREFIX[14];
    PrintedInjective(a, b, encode, ARTWORK_CACHE_PREFIX, CATALOG_CACHE_PREFIX);
  }

  /** Of the account caches, the filter of the image purge picks exactly those of artwork, and the
      filters of mutations and of the stale purge exactly those of the catalogue. */
  lemma FiltersPickKinds(n: Name, encode: User -> string)
    ensures IsArtworkCache(CacheName(n, encode)) <==> n.Kind() == Artwork
    ensures IsCatalogCache(CacheName(n, encode)) <==> n.Kind() == Catalog
    ensures IsPurgeableWebCache(CacheName(n, encode)) <==> n.Kind() == Catalog
  {
    var name := CacheName(n, encode);
    if n.ArtworkOf? {
      assert name == ARTWORK_CACHE_PREFIX + encode(n.user);
      assert name[14] == 'a' && "musicdeck-pwa-catalog-"[14] == 'c';
    } else {
      assert CATALOG_CACHE_PREFIX <= name;
      assert name[14] == 'c' && "musicdeck-pwa-artwork-"[14] == 'a';
    }
  }

  lemma SameHead(head: string, tail: string)
    ensures head + tail == head + "v1" <==> tail == "v1"
    ensures head + "v1-" <= head + tail <==> "v1-" <= tail
    ensures head <= head + tail
  {
    assert (head + tail)[|head|..] == tail && (head + "v1")[|head|..] == "v1";
    if head + "v1-" <= head + tail {
      assert (head + tail)[..|head| + 3][|head|..] == "v1-";
    }
  }

  /** A name with another head is not that cache, and not one kept beside it. */
  lemma OtherHead(head: string, tail: string, other: string)
    requires |head| > 15 && |other| > 15 && (head[14] != other[14] || head[15] != other[15])
    ensures head + tail != other && !(other <= head + tail) && !(other + "-" <= head + tail)
  {
    assert (head + tail)[14] == head[14] && (head + tail)[15] == head[15];
    assert (other + "-")[14] == other[14] && (other + "-")[15] == other[15];
  }

  lemma OtherCaches(head: string, tail: string)
    requires |head| > 15 && PWA_CACHE_PREFIX <= head
    ensures PWA_CACHE_PREFIX <= head + tail
    ensures head[14] != 's' || head[15] != 'h' ==> head + tail != SHELL_CACHE && !(SHELL_CACHE + "-" <= head + tail)
    ensures head[14] != 's' || head[15] != 't' ==> head + tail != STATIC_CACHE && !(STATIC_CACHE + "-" <= head + tail)
    ensures head[14] != 'm' ==> head + tail != METADATA_CACHE
    ensures head[14] != 'c' ==> !(CATALOG_CACHE_PREFIX <= head + tail) && !IsCatalogCache(head + tail)
    ensures head[14] != 'a' ==> !(ARTWORK_CACHE_PREFIX <= head + tail)
  {
    if head[14] != 's' || head[15] != 'h' {
      OtherHead(head, tail, SHELL_CACHE);
    }
    if head[14] != 's' || head[15] != 't' {
      OtherHead(head, tail, STATIC_CACHE);
    }
    if head[14] != 'm' {
      OtherHead(head, tail, METADATA_CACHE);
    }
    if head[14] != 'c' {
      OtherHead(head, tail, CATALOG_CACHE_PREFIX);
      OtherHead(head, tail, "musicdeck-pwa-catalog-");
    }
    if head[14] != 'a' {
      OtherHead(head, tail, ARTWORK_CACHE_PREFIX);
    }
  }

  /** Of all caches of the application the stale purge spares exactly the shell, the static files and the
      metadata of this version, with what is kept beside the first two, and the artwork of this version;
      it never picks a cache of another application. */
  lemma StalePurgePicks(name: string, version: string)
    ensures IsPurgeableWebCache("musicdeck-pwa-shell-" + version) <==> version != "v1" && !("v1-" <= version)
    ensures IsPurgeableWebCache("musicdeck-pwa-static-" + version) <==> version != "v1" && !("v1-" <= version)
    ensures IsPurgeableWebCache("musicdeck-pwa-metadata-" + version) <==> version != "v1"
    ensures IsPurgeableWebCache("musicdeck-pwa-artwork-" + version) <==> !("v1-" <= version)
    ensures IsPurgeableWebCache("musicdeck-pwa-catalog-" + version)
    ensures IsPurgeableWebCache(name) ==> PWA_CACHE_PREFIX <= name
  {
    ShellPurge(version);
    StaticPurge(version);
    MetadataPurge(version);
    ArtworkPurge(version);
    SameHead("musicdeck-pwa-catalog-", version);
    if IsCatalogCache(name) {
      assert "musicdeck-pwa-catalog-"[..14] == PWA_CACHE_PREFIX;
    }
    assert IsPurgeableWebCache(name) ==> PWA_CACHE_PREFIX <= name;
    hide IsStaleWebCache;
  }

  lemma ShellPurge(version: string)
    ensures IsPurgeableWebCache("musicdeck-pwa-shell-" + version) <==> version != "v1" && !("v1-" <= version)
  {
    var head := "musicdeck-pwa-shell-";
    assert head[..14] == PWA_CACHE_PREFIX && SHELL_CACHE == head + "v1" && SHELL_CACHE + "-" == head + "v1-";
    OtherCaches(head, version);
    SameHead(head, version);
  }

  lemma StaticPurge(version: string)
    ensures IsPurgeableWebCache("musicdeck-pwa-static-" + version) <==> version != "v1" && !("v1-" <= version)
  {
    var head := "musicdeck-pwa-static-";
    assert head[..14] == PWA_CACHE_PREFIX && STATIC_CACHE == head + "v1" && STATIC_CACHE + "-" == head + "v1-";
    OtherCaches(head, version);
    SameHead(head, version);
  }

  lemma MetadataPurge(version: string)
    ensures IsPurgeableWebCache("musicdeck-pwa-metadata-" + version) <==> version != "v1"
  {
    var head := "musicdeck-pwa-metadata-";
    assert head[..14] == PWA_CACHE_PREFIX && METADATA_CACHE == head + "v1";
    OtherCaches(head, version);
    SameHead(head, version);
  }

  lemma ArtworkPurge(version: string)
    ensures IsPurgeableWebCache("musicdeck-pwa-artwork-" + version) <==> !("v1-" <= version)
  {
    var head := "musicdeck-pwa-artwork-";
    assert head[..14] == PWA_CACHE_PREFIX && ARTWORK_CACHE_PREFIX == head + "v1-";
    OtherCaches(head, version);
    SameHead(head, version);
  }
}
