/** The clean-up that a policy message chains: what it takes out of the caches, what it leaves, and
    which entries can still be found once it has run. */
module OfflineCachePolicy {
  import opened Prelude
  import opened OfflineCache

  predicate External(k: Key) {
    EXTERNAL_PREFIX <= k
  }

  // ---------------------------------------------------------------- what one trim takes

  lemma {:induction false} ListedKeys(ks: seq<Key>)
    ensures forall k :: k in ExternalKeys(ks) <==> k in ks && External(k)
  {
    if ks != [] {
      ListedKeys(ks[1..]);
      assert forall k :: k in ks <==> k == ks[0] || k in ks[1..];
    }
  }

  /** Undisturbed, a trim takes out exactly the external entries, and the others keep their order. */
  lemma TrimIsExact(es: seq<Entry>)
    ensures var left := DropAll(es, ExternalKeys(Keys(es)));
            && (forall e :: e in left <==> e in es && !External(e.key))
            && left == NotExternal(es)
  {
    var ks := ExternalKeys(Keys(es));
    DropAllIsWithout(es, ks);
    ListedKeys(Keys(es));
    assert forall e :: e in es ==> e.key in Keys(es) by {
      forall e | e in es ensures e.key in Keys(es) {
        var i :| 0 <= i < |es| && es[i] == e;
        assert Keys(es)[i] == e.key;
      }
    }
    hide ExternalKeys, External;
    WithoutIsFilter(es, KeySet(ks));
  }

  function NotExternal(es: seq<Entry>): seq<Entry> {
    if es == [] then []
    else (if External(es[0].key) then [] else [es[0]]) + NotExternal(es[1..])
  }

  lemma {:induction false} WithoutIsFilter(es: seq<Entry>, ks: set<Key>)
    requires forall e :: e in es ==> (e.key in ks <==> External(e.key))
    ensures Without(es, ks) == NotExternal(es)
  {
    if es != [] {
      assert es[0] in es;
      WithoutIsFilter(es[1..], ks);
    }
  }

  // ---------------------------------------------------------------- what a clean-up has to leave

  /** The entries that a clean-up is after: the external artwork when external artwork is off, and the
      catalogue when the metadata mode has changed. */
  datatype Scope = ExternalArtwork | WholeCatalog

  predicate InScope(scope: Scope, n: Name, k: Key) {
    match scope
    case ExternalArtwork => n.Kind() == Artwork && External(k)
    case WholeCatalog => n.Kind() == Catalog
  }

  /** What makes the clean-up of an operation due, whenever it comes to its turn. */
  predicate Due(scope: Scope, op: Op, cfg: Settings)
    requires op.Policy?
  {
    match scope
    case ExternalArtwork => !cfg.externalArtwork
    case WholeCatalog => op.previousMetadata != cfg.metadata
  }

  /** Of the entries under a name that are in scope, all but those of some keys were captured at `g` or
      later. */
  ghost predicate ClearBut(scope: Scope, d: Disk, g: nat, n: Name, keys: set<Key>) {
    n in d.names ==>
      forall e :: e in EntriesOf(d, d.names[n]) && InScope(scope, n, e.key) && e.key !in keys ==> g <= e.epoch
  }

  ghost predicate Clear(scope: Scope, d: Disk, g: nat, todo: set<Name>) {
    forall n :: n !in todo ==> ClearBut(scope, d, g, n, {})
  }

  /** How far the clean-up has got, when it is the operation at the head of the chain. */
  ghost predicate CleanStage(scope: Scope, c: Chain, d: Disk, g: nat) {
    match c.stage
    case Waiting => true
    case Listing => true
    case Deleting(todo) => scope.WholeCatalog? ==> Clear(scope, d, g, todo)
    case Putting(_) => false
    case Evicting(_) => false
    case _ => if scope.WholeCatalog? then Clear(scope, d, g, {}) else TrimStage(c.stage, d, g)
  }

  ghost predicate TrimStage(stage: Stage, d: Disk, g: nat) {
    match stage
    case ArtworkNext(todo) => Clear(ExternalArtwork, d, g, todo)
    case ArtworkDropping(todo, next) => Clear(ExternalArtwork, d, g, todo + {next})
    case ArtworkOpening(todo, next) => Clear(ExternalArtwork, d, g, todo + {next})
    case ArtworkScanning(todo, box) =>
      forall n :: n !in todo && n in d.names && d.names[n] != box ==> ClearBut(ExternalArtwork, d, g, n, {})
    case ArtworkTrimming(todo, box, keys) =>
      forall n :: n !in todo && n in d.names ==>
        ClearBut(ExternalArtwork, d, g, n, if d.names[n] == box then KeySet(keys) else {})
    case _ => true
  }

  ghost predicate Cleaned(scope: Scope, c: Chain, d: Disk, g: nat) {
    Clear(scope, d, g, {}) && (OfflineCache.Writing(c) ==> g <= c.queue[0].epoch)
  }

  ghost predicate IsCleaning(scope: Scope, op: Op, cfg: Settings, g: nat) {
    op.Policy? && op.gen == g && Due(scope, op, cfg)
  }

  /** The clean-up chained by the message of generation `g` is still on the chain. */
  ghost predicate Cleaning(scope: Scope, c: Chain, d: Disk, cfg: Settings, g: nat) {
    exists i :: 0 <= i < |c.queue| && IsCleaning(scope, c.queue[i], cfg, g) && (i == 0 ==> CleanStage(scope, c, d, g))
  }

  ghost predicate CleanOk(scope: Scope, s: State, g: nat) {
    g <= s.cfg.generation && (Cleaned(scope, s.chain, s.disk, g) || Cleaning(scope, s.chain, s.disk, s.cfg, g))
  }

  /** The settings that matter to the scope stay as they are. */
  predicate Same(scope: Scope, e: Event, cfg: Settings) {
    && e != Restart
    && (e.SetPolicy? ==> if scope.ExternalArtwork? then !e.external else e.newMetadata == cfg.metadata)
  }

  predicate SameOver(scope: Scope, events: seq<Event>, cfg: Settings) {
    forall i :: 0 <= i < |events| ==> Same(scope, events[i], cfg)
  }

  // ---------------------------------------------------------------- every step keeps it

  lemma ThinnerClear(scope: Scope, d: Disk, d': Disk, g: nat, n: Name, keys: set<Key>)
    requires Thinner(d, d') && ClearBut(scope, d, g, n, keys)
    ensures n in d.names ==> ClearBut(scope, d', g, n, keys)
    ensures n !in d.names ==> ClearBut(scope, d', g, n, {})
  {
  }

  lemma ThinnerStage(scope: Scope, c: Chain, d: Disk, d': Disk, g: nat)
    requires Thinner(d, d') && CleanStage(scope, c, d, g)
    ensures CleanStage(scope, c, d', g)
  {
    forall n, keys | ClearBut(scope, d, g, n, keys) ensures ClearBut(scope, d', g, n, keys) {
      ThinnerClear(scope, d, d', g, n, keys);
    }
    forall n | n in d'.names && n !in d.names ensures ClearBut(scope, d', g, n, {}) {
      ThinnerClear(scope, d, d', g, n, {});
    }
    NewClear(scope, d, d', g);
    hide ClearBut, KeySet, EntriesOf;
  }

  lemma NewClear(scope: Scope, d: Disk, d': Disk, g: nat)
    requires Thinner(d, d')
    ensures forall n, keys :: n in d'.names && (n !in d.names || d'.names[n] != d.names[n]) ==> ClearBut(scope, d', g, n, keys)
  {
  }

  lemma ThinnerClean(scope: Scope, c: Chain, d: Disk, d': Disk, cfg: Settings, g: nat)
    requires Thinner(d, d') && (Cleaned(scope, c, d, g) || Cleaning(scope, c, d, cfg, g))
    ensures Cleaned(scope, c, d', g) || Cleaning(scope, c, d', cfg, g)
  {
    hide CleanStage, Thinner;
    if Cleaned(scope, c, d, g) {
      forall n ensures ClearBut(scope, d', g, n, {}) {
        ThinnerClear(scope, d, d', g, n, {});
      }
    } else {
      var i :| 0 <= i < |c.queue| && IsCleaning(scope, c.queue[i], cfg, g) && (i == 0 ==> CleanStage(scope, c, d, g));
      if i == 0 {
        ThinnerStage(scope, c, d, d', g);
      }
    }
  }

  lemma EnqueueClean(scope: Scope, c: Chain, op: Op, d: Disk, cfg: Settings, cfg': Settings, g: nat)
    requires StageOk(c) && (Cleaned(scope, c, d, g) || Cleaning(scope, c, d, cfg, g))
    requires scope.ExternalArtwork? ==> cfg'.externalArtwork == cfg.externalArtwork || !cfg'.externalArtwork
    requires scope.WholeCatalog? ==> cfg'.metadata == cfg.metadata
    ensures Cleaned(scope, Enqueue(c, op), d, g) || Cleaning(scope, Enqueue(c, op), d, cfg', g)
  {
    hide CleanStage, Clear;
    if !Cleaned(scope, c, d, g) {
      var i :| 0 <= i < |c.queue| && IsCleaning(scope, c.queue[i], cfg, g) && (i == 0 ==> CleanStage(scope, c, d, g));
      assert (c.queue + [op])[i] == c.queue[i];
      assert i == 0 ==> CleanStage(scope, Enqueue(c, op), d, g) by {
        SameStage(scope, c, Enqueue(c, op), d, g);
      }
    }
  }

  lemma SameStage(scope: Scope, c: Chain, c': Chain, d: Disk, g: nat)
    requires c'.stage == c.stage
    ensures CleanStage(scope, c', d, g) == CleanStage(scope, c, d, g)
  {
  }

  /** The head leaves the chain: it was not the clean-up, or it has left everything clear. */
  lemma FinishClean(scope: Scope, c: Chain, d: Disk, cfg: Settings, g: nat)
    requires c.queue != [] && (Cleaned(scope, c, d, g) || Cleaning(scope, c, d, cfg, g))
    requires !IsCleaning(scope, c.queue[0], cfg, g) || Clear(scope, d, g, {})
    ensures Cleaned(scope, Finish(c), d, g) || Cleaning(scope, Finish(c), d, cfg, g)
  {
    hide Clear;
    if !Clear(scope, d, g, {}) {
      var i :| 0 <= i < |c.queue| && IsCleaning(scope, c.queue[i], cfg, g) && (i == 0 ==> CleanStage(scope, c, d, g));
      assert Finish(c).queue[i - 1] == c.queue[i];
    }
  }

  /** The head moves on; if it is the clean-up, as the clean-up does. */
  lemma MoveClean(scope: Scope, c: Chain, stage: Stage, d: Disk, cfg: Settings, g: nat)
    requires c.queue != [] && (Cleaned(scope, c, d, g) || Cleaning(scope, c, d, cfg, g))
    requires c.queue[0].Write? ==> !c.stage.Waiting? || g <= c.queue[0].epoch
    requires IsCleaning(scope, c.queue[0], cfg, g) && CleanStage(scope, c, d, g) ==> CleanStage(scope, To(c, stage), d, g)
    ensures Cleaned(scope, To(c, stage), d, g) || Cleaning(scope, To(c, stage), d, cfg, g)
  {
    hide CleanStage, Clear;
    if !Cleaned(scope, c, d, g) {
      var i :| 0 <= i < |c.queue| && IsCleaning(scope, c.queue[i], cfg, g) && (i == 0 ==> CleanStage(scope, c, d, g));
      assert To(c, stage).queue[i] == c.queue[i];
    }
  }

  lemma CleanWrite(scope: Scope, s: State, now: nat, g: nat)
    requires Storage(s) && CleanOk(scope, s, g) && s.chain.queue != [] && s.chain.queue[0].Write?
    ensures CleanOk(scope, StepWork(s, now, ArtworkOf("")), g)
  {
    hide Clear, CleanStage, Thinner, Without, DropKey, Storage;
    var c, d, cfg, op := s.chain, s.disk, s.cfg, s.chain.queue[0];
    var s' := StepWork(s, now, ArtworkOf(""));
    match c.stage {
      case Waiting =>
        if op.epoch != cfg.generation || Some(op.account) != cfg.owner {
          FinishClean(scope, c, d, cfg, g);
        } else {
          MoveClean(scope, c, Putting(now), d, cfg, g);
        }
      case Putting(at) =>
        MoveClean(scope, c, Listing, d, cfg, g);
        PutClean(scope, To(c, Listing), d, s'.disk, cfg, g, Entry(op.key, at, op.account, op.epoch));
      case Listing =>
        MoveClean(scope, c, s'.chain.stage, d, cfg, g);
      case Evicting(keys) =>
        if keys == [] {
          FinishClean(scope, c, d, cfg, g);
        } else {
          DropKeyThinner(d, op.box, keys[0]);
          ThinnerClean(scope, c, d, s'.disk, cfg, g);
          MoveClean(scope, c, Evicting(keys[1..]), s'.disk, cfg, g);
        }
      case _ =>
    }
  }

  /** Storing an entry that was captured at `g` or later. */
  lemma PutClean(scope: Scope, c: Chain, d: Disk, d': Disk, cfg: Settings, g: nat, e: Entry)
    requires c.queue != [] && c.queue[0].Write? && c.stage.Listing? && e.epoch == c.queue[0].epoch
    requires d' == SetEntries(d, c.queue[0].box, Put(EntriesOf(d, c.queue[0].box), e))
    requires Cleaned(scope, c, d, g) || Cleaning(scope, c, d, cfg, g)
    ensures Cleaned(scope, c, d', g) || Cleaning(scope, c, d', cfg, g)
  {
    if Cleaned(scope, c, d, g) {
      forall n ensures ClearBut(scope, d', g, n, {}) {
        assert ClearBut(scope, d, g, n, {});
      }
      hide ClearBut;
    } else {
      hide CleanStage, Clear, Put;
      var i :| 0 <= i < |c.queue| && IsCleaning(scope, c.queue[i], cfg, g) && (i == 0 ==> CleanStage(scope, c, d, g));
      assert i > 0;
      assert IsCleaning(scope, c.queue[i], cfg, g) && (i == 0 ==> CleanStage(scope, c, d', g));
    }
  }

  lemma CleanPurge(scope: Scope, s: State, now: nat, pick: Name, g: nat)
    requires Storage(s) && CleanOk(scope, s, g) && s.chain.queue != [] && s.chain.queue[0].Purge?
    ensures CleanOk(scope, StepWork(s, now, pick), g)
  {
    hide Clear, CleanStage, Thinner, Storage, Cleaned, Cleaning;
    var c, d, cfg := s.chain, s.disk, s.cfg;
    var s' := StepWork(s, now, pick);
    PurgeThinner(c, d, pick);
    hide WorkPurge;
    ThinnerClean(scope, c, d, s'.disk, cfg, g);
    if s'.chain == Finish(c) {
      FinishClean(scope, c, s'.disk, cfg, g);
    } else {
      MoveClean(scope, c, s'.chain.stage, s'.disk, cfg, g);
    }
  }

  lemma CleanPolicy(scope: Scope, s: State, now: nat, pick: Name, g: nat)
    requires Storage(s) && CleanOk(scope, s, g) && s.chain.queue != [] && s.chain.queue[0].Policy?
    ensures CleanOk(scope, StepWork(s, now, pick), g)
  {
    hide Clear, CleanStage, Thinner, Storage, Cleaned, Cleaning;
    var c, d, cfg := s.chain, s.disk, s.cfg;
    var s' := StepWork(s, now, pick);
    PolicyThinner(c, d, cfg, pick);
    if IsCleaning(scope, c.queue[0], cfg, g) && CleanStage(scope, c, d, g) {
      StorageHas(s);
      ScopeStep(scope, c, d, cfg, pick, g);
    }
    hide WorkPolicy;
    ThinnerClean(scope, c, d, s'.disk, cfg, g);
    PolicyMoved(scope, c, s'.chain, d, s'.disk, cfg, g);
  }

  lemma StorageHas(s: State)
    requires Storage(s)
    ensures StageOk(s.chain)
    ensures forall n :: n in s.disk.names ==> s.disk.names[n] < |s.disk.boxes| && s.disk.boxes[s.disk.names[n]].name == n
  {
  }

  lemma PolicyMoved(scope: Scope, c: Chain, c': Chain, d: Disk, d': Disk, cfg: Settings, g: nat)
    requires c.queue != [] && c.queue[0].Policy? && (c' == Finish(c) || c' == To(c, c'.stage))
    requires Cleaned(scope, c, d', g) || Cleaning(scope, c, d', cfg, g)
    requires Cleaned(scope, c, d, g) || Cleaning(scope, c, d, cfg, g)
    requires Thinner(d, d')
    requires IsCleaning(scope, c.queue[0], cfg, g) && CleanStage(scope, c, d, g) ==>
               if c' == Finish(c) then Clear(scope, d', g, {}) else CleanStage(scope, c', d', g)
    ensures Cleaned(scope, c', d', g) || Cleaning(scope, c', d', cfg, g)
  {
    hide CleanStage, Clear, Thinner;
    if Cleaned(scope, c, d, g) {
      ThinnerAllClear(scope, d, d', g);
    } else {
      var i :| 0 <= i < |c.queue| && IsCleaning(scope, c.queue[i], cfg, g) && (i == 0 ==> CleanStage(scope, c, d, g));
      if c' == Finish(c) {
        if i > 0 {
          assert c'.queue[i - 1] == c.queue[i];
          assert i - 1 == 0 ==> CleanStage(scope, c', d', g) by {
            WaitingStage(scope, c', d', g);
          }
        }
      } else {
        assert c'.queue[i] == c.queue[i];
      }
    }
  }

  lemma WaitingStage(scope: Scope, c: Chain, d: Disk, g: nat)
    requires c.stage.Waiting?
    ensures CleanStage(scope, c, d, g)
  {
  }

  lemma ThinnerAllClear(scope: Scope, d: Disk, d': Disk, g: nat)
    requires Thinner(d, d') && Clear(scope, d, g, {})
    ensures Clear(scope, d', g, {})
  {
    forall n ensures ClearBut(scope, d', g, n, {}) {
      assert ClearBut(scope, d, g, n, {});
      ThinnerClear(scope, d, d', g, n, {});
    }
  }

  /** One step of a clean-up that is due. */
  lemma ScopeStep(scope: Scope, c: Chain, d: Disk, cfg: Settings, pick: Name, g: nat)
    requires c.queue != [] && IsCleaning(scope, c.queue[0], cfg, g) && CleanStage(scope, c, d, g)
    requires forall n :: n in d.names ==> d.names[n] < |d.boxes| && d.boxes[d.names[n]].name == n
    ensures var (c', d') := WorkPolicy(c, d, cfg, pick);
            if c' == Finish(c) then Clear(scope, d', g, {}) else CleanStage(scope, c', d', g)
  {
    match scope {
      case ExternalArtwork => TrimStep(c, d, cfg, pick, g);
      case WholeCatalog => CatalogStep(c, d, cfg, pick, g);
    }
  }

  lemma CatalogStep(c: Chain, d: Disk, cfg: Settings, pick: Name, g: nat)
    requires c.queue != [] && IsCleaning(WholeCatalog, c.queue[0], cfg, g) && CleanStage(WholeCatalog, c, d, g)
    ensures var (c', d') := WorkPolicy(c, d, cfg, pick);
            if c' == Finish(c) then Clear(WholeCatalog, d', g, {}) else CleanStage(WholeCatalog, c', d', g)
  {
    hide ExternalKeys, Remove;
    var (c', d') := WorkPolicy(c, d, cfg, pick);
    PolicyThinner(c, d, cfg, pick);
    if c.stage.Listing? || c.stage.Waiting? || c.stage.Deleting? {
    } else {
      hide WorkPolicy, Thinner, Clear;
      ThinnerAllClear(WholeCatalog, d, d', g);
      hide ClearBut;
    }
  }

  lemma TrimStep(c: Chain, d: Disk, cfg: Settings, pick: Name, g: nat)
    requires c.queue != [] && IsCleaning(ExternalArtwork, c.queue[0], cfg, g) && CleanStage(ExternalArtwork, c, d, g)
    requires forall n :: n in d.names ==> d.names[n] < |d.boxes| && d.boxes[d.names[n]].name == n
    ensures var (c', d') := WorkPolicy(c, d, cfg, pick);
            if c' == Finish(c) then Clear(ExternalArtwork, d', g, {}) else CleanStage(ExternalArtwork, c', d', g)
  {
    hide ExternalKeys, Remove;
    match c.stage {
      case ArtworkScanning(todo, box) => ScanStep(d, todo, box, g);
      case ArtworkTrimming(todo, box, keys) =>
        if keys != [] {
          TrimOne(d, todo, box, keys, g);
        } else {
          assert KeySet(keys) == {};
        }
      case ArtworkListing => ListStep(d, g);
      case ArtworkDropping(todo, next) => NextStep(d, DeleteName(d, next), todo, next, g);
      case ArtworkOpening(todo, next) => OpenStep(d, todo, next, g);
      case ArtworkNext(todo) => 
        if pick in todo {
          assert todo - {pick} + {pick} == todo;
        }
      case _ =>
    }
  }

  lemma ListStep(d: Disk, g: nat)
    ensures TrimStage(ArtworkNext(NamesOf(d, Artwork)), d, g)
  {
    hide External;
  }

  /** The next name is gone. */
  lemma NextStep(d: Disk, d': Disk, todo: set<Name>, next: Name, g: nat)
    requires d' == DeleteName(d, next) && Clear(ExternalArtwork, d, g, todo + {next})
    ensures TrimStage(ArtworkNext(todo), d', g)
  {
    forall n | n !in todo ensures ClearBut(ExternalArtwork, d', g, n, {}) {
      if n != next {
        assert ClearBut(ExternalArtwork, d, g, n, {});
      }
    }
  }

  lemma OpenStep(d: Disk, todo: set<Name>, next: Name, g: nat)
    requires Clear(ExternalArtwork, d, g, todo + {next})
    ensures var (d', box) := OpenName(d, next); TrimStage(ArtworkScanning(todo, box), d', g)
  {
    var (d', box) := OpenName(d, next);
    assert d'.names[next] == box;
    OpenNameThinner(d, next);
    forall n | n !in todo && n in d'.names && d'.names[n] != box ensures ClearBut(ExternalArtwork, d', g, n, {}) {
      assert ClearBut(ExternalArtwork, d, g, n, {});
      ThinnerClear(ExternalArtwork, d, d', g, n, {});
    }
  }

  /** What the scan lists is all that is left to do in the cache. */
  lemma ScanStep(d: Disk, todo: set<Name>, box: nat, g: nat)
    requires TrimStage(ArtworkScanning(todo, box), d, g)
    ensures TrimStage(ArtworkTrimming(todo, box, ExternalKeys(Keys(EntriesOf(d, box)))), d, g)
  {
    var es := EntriesOf(d, box);
    ListedKeys(Keys(es));
    forall e | e in es && External(e.key) ensures e.key in KeySet(ExternalKeys(Keys(es))) {
      var i :| 0 <= i < |es| && es[i] == e;
      assert Keys(es)[i] == e.key;
    }
    hide ExternalKeys;
  }

  lemma TrimOne(d: Disk, todo: set<Name>, box: nat, keys: seq<Key>, g: nat)
    requires keys != [] && TrimStage(ArtworkTrimming(todo, box, keys), d, g)
    ensures TrimStage(ArtworkTrimming(todo, box, keys[1..]), DropKey(d, box, keys[0]), g)
  {
    var d' := DropKey(d, box, keys[0]);
    DropKeyThinner(d, box, keys[0]);
    forall n | n !in todo && n in d'.names
      ensures ClearBut(ExternalArtwork, d', g, n, if d'.names[n] == box then KeySet(keys[1..]) else {})
    {
      assert ClearBut(ExternalArtwork, d, g, n, if d.names[n] == box then KeySet(keys) else {});
      assert forall k :: k in keys ==> k == keys[0] || k in keys[1..];
      assert forall e :: e in EntriesOf(d', box) ==> e.key != keys[0] && e in EntriesOf(d, box);
    }
  }

  lemma CleanStep(scope: Scope, s: State, e: Event, g: nat)
    requires Storage(s) && CleanOk(scope, s, g) && Same(scope, e, s.cfg)
    ensures CleanOk(scope, Step(s, e), g)
  {
    hide Cleaned, Cleaning, DropKey, OpenName, WorkWrite, WorkPurge, WorkPolicy, Thinner;
    match e
    case Open(id) =>
      if id in s.requests && s.requests[id].phase.Opening? {
        OpenNameThinner(s.disk, s.requests[id].phase.name);
        ThinnerClean(scope, s.chain, s.disk, OpenName(s.disk, s.requests[id].phase.name).0, s.cfg, g);
      }
    case Drop(id) =>
      if id in s.requests && s.requests[id].phase.Dropping? {
        DropKeyThinner(s.disk, s.requests[id].phase.box, s.requests[id].key);
        ThinnerClean(scope, s.chain, s.disk, DropKey(s.disk, s.requests[id].phase.box, s.requests[id].key), s.cfg, g);
      }
    case Respond(id, cacheable) =>
      if id in s.requests && s.requests[id].phase.Fetching? && cacheable {
        var p := s.requests[id].phase;
        EnqueueClean(scope, s.chain, Write(p.epoch, p.account, p.box, s.requests[id].key), s.disk, s.cfg, s.cfg, g);
      }
    case Mutate => CleanAnnounce(scope, s, Catalog, g);
    case ClearImages => CleanAnnounce(scope, s, Artwork, g);
    case PurgeStale => CleanAnnounce(scope, s, Catalog, g);
    case SetPolicy(o, x, m) =>
      EnqueueClean(scope, s.chain, Policy(s.cfg.generation + 1, s.cfg.owner, s.cfg.metadata), s.disk, s.cfg, Step(s, e).cfg, g);
    case Work(now, pick) =>
      if s.chain.queue != [] {
        match s.chain.queue[0] {
          case Write(_, _, _, _) => CleanWrite(scope, s, now, g);
          case Purge(_, _) => CleanPurge(scope, s, now, pick, g);
          case Policy(_, _, _) => CleanPolicy(scope, s, now, pick, g);
        }
      }
    case _ =>
  }

  lemma CleanAnnounce(scope: Scope, s: State, kind: Kind, g: nat)
    requires Storage(s) && CleanOk(scope, s, g)
    ensures CleanOk(scope, StepAnnounce(s, kind), g)
  {
    hide Cleaned, Cleaning, Storage;
    StorageHas(s);
    var s' := StepAnnounce(s, kind);
    SameDue(scope, s.chain, s.disk, s.cfg, s'.cfg, g);
    EnqueueClean(scope, s.chain, Purge(kind, s.cfg.generation + 1), s.disk, s.cfg, s'.cfg, g);
  }

  lemma SameDue(scope: Scope, c: Chain, d: Disk, cfg: Settings, cfg': Settings, g: nat)
    requires cfg'.externalArtwork == cfg.externalArtwork && cfg'.metadata == cfg.metadata
    ensures Cleaning(scope, c, d, cfg, g) == Cleaning(scope, c, d, cfg', g)
  {
    assert forall op :: IsCleaning(scope, op, cfg, g) == IsCleaning(scope, op, cfg', g);
    hide CleanStage;
  }

  lemma {:induction false} CleanOver(scope: Scope, before: seq<Event>, after: seq<Event>, g: nat)
    requires CleanOk(scope, Run(before), g) && SameOver(scope, after, Run(before).cfg)
    ensures CleanOk(scope, Run(before + after), g)
    ensures scope.ExternalArtwork? && !Run(before).cfg.externalArtwork ==> !Run(before + after).cfg.externalArtwork
    ensures scope.WholeCatalog? ==> Run(before + after).cfg.metadata == Run(before).cfg.metadata
  {
    hide Run, Step, CleanOk, Storage, Same;
    if after == [] {
      assert before + after == before;
    } else {
      var shorter, last := after[..|after| - 1], after[|after| - 1];
      assert before + after == before + shorter + [last];
      assert forall i :: 0 <= i < |shorter| ==> shorter[i] == after[i];
      CleanOver(scope, before, shorter, g);
      RunSnoc(before + shorter, last);
      RunInv(before + shorter);
      SameFor(scope, last, Run(before).cfg, Run(before + shorter).cfg);
      CleanStep(scope, Run(before + shorter), last, g);
      SameSettings(scope, Run(before + shorter), last);
    }
  }

  lemma SameFor(scope: Scope, e: Event, cfg: Settings, cfg': Settings)
    requires Same(scope, e, cfg) && (scope.WholeCatalog? ==> cfg'.metadata == cfg.metadata)
    ensures Same(scope, e, cfg')
  {
  }

  lemma SameSettings(scope: Scope, s: State, e: Event)
    requires Same(scope, e, s.cfg)
    ensures scope.ExternalArtwork? && !s.cfg.externalArtwork ==> !Step(s, e).cfg.externalArtwork
    ensures scope.WholeCatalog? ==> Step(s, e).cfg.metadata == s.cfg.metadata
  {
    hide WorkOn, DropKey, OpenName;
  }

  lemma MessageChains(scope: Scope, s: State, e: Event)
    requires e.SetPolicy? && (if scope.ExternalArtwork? then !e.external else e.newMetadata != s.cfg.metadata) && StageOk(s.chain)
    ensures CleanOk(scope, Step(s, e), s.cfg.generation + 1)
  {
    var c := Step(s, e).chain;
    assert c.queue[|s.chain.queue|] == Policy(s.cfg.generation + 1, s.cfg.owner, s.cfg.metadata);
  }

  /** After a policy message that changes the metadata mode, and as long as the mode stays, no entry of the
      catalogue can be found once the chain has run, except those whose request captured its epoch after
      the message. */
  lemma CatalogLeft(before: seq<Event>, change: Event, after: seq<Event>, n: Name, e: Entry)
    requires change.SetPolicy? && change.newMetadata != Run(before).cfg.metadata
    requires SameOver(WholeCatalog, after, Step(Run(before), change).cfg)
    requires var s := Run(before + [change] + after);
             s.chain.queue == [] && n in s.disk.names && n.Kind() == Catalog && e in EntriesOf(s.disk, s.disk.names[n])
    ensures Run(before).cfg.generation < e.epoch
  {
    hide Run, Step;
    CleanAfter(WholeCatalog, before, change, after, n, e);
  }

  lemma CleanAfter(scope: Scope, before: seq<Event>, message: Event, after: seq<Event>, n: Name, e: Entry)
    requires message.SetPolicy?
    requires if scope.ExternalArtwork? then !message.external else message.newMetadata != Run(before).cfg.metadata
    requires SameOver(scope, after, Step(Run(before), message).cfg)
    requires var s := Run(before + [message] + after);
             s.chain.queue == [] && n in s.disk.names && e in EntriesOf(s.disk, s.disk.names[n]) && InScope(scope, n, e.key)
    ensures Run(before).cfg.generation < e.epoch
  {
    hide Run, Step, SameOver, InScope, Storage;
    RunSnoc(before, message);
    RunInv(before);
    StorageHas(Run(before));
    MessageChains(scope, Run(before), message);
    CleanOver(scope, before + [message], after, Run(before).cfg.generation + 1);
    assert ClearBut(scope, Run(before + [message] + after).disk, Run(before).cfg.generation + 1, n, {});
  }

  // ---------------------------------------------------------------- which external entries can come later

  /** The keys of external artwork that requests ask for which still wait for the chain. */
  function WaitingKeys(s: State): set<Key> {
    set id | id in s.requests && s.requests[id].kind == Artwork && s.requests[id].phase.Awaiting? && External(s.requests[id].key)
      :: s.requests[id].key
  }

  predicate OnArtwork(d: Disk, box: nat) {
    box < |d.boxes| && d.boxes[box].name.Kind() == Artwork
  }

  predicate LateRequest(r: Request, g: nat) {
    r.kind == Artwork && External(r.key) && (r.phase.Awaiting? || g <= r.phase.epoch)
  }

  predicate LateWrite(op: Op, d: Disk, g: nat) {
    op.Write? && g <= op.epoch && OnArtwork(d, op.box) && External(op.key)
  }

  /** Whatever of external artwork waits, was captured, is being stored or was stored since `g` has a key
      in the set. */
  ghost predicate LateKeys(s: State, g: nat, keys: set<Key>) {
    && !s.cfg.externalArtwork && g <= s.cfg.generation
    && (forall id :: id in s.requests && LateRequest(s.requests[id], g) ==> s.requests[id].key in keys)
    && (forall i :: 0 <= i < |s.chain.queue| && LateWrite(s.chain.queue[i], s.disk, g) ==> s.chain.queue[i].key in keys)
    && (forall b: nat, e :: e in EntriesOf(s.disk, b) && OnArtwork(s.disk, b) && g <= e.epoch && External(e.key) ==> e.key in keys)
  }

  lemma LateStart(s: State, e: Event)
    requires Storage(s) && e.SetPolicy? && !e.external
    ensures LateKeys(Step(s, e), s.cfg.generation + 1, WaitingKeys(s))
  {
    var s', g := Step(s, e), s.cfg.generation + 1;
    forall id | id in s'.requests && LateRequest(s'.requests[id], g) ensures s'.requests[id].key in WaitingKeys(s) {
      assert RequestOk(s.requests[id], s.disk, s.cfg.generation);
    }
    forall i | 0 <= i < |s'.chain.queue| ensures !LateWrite(s'.chain.queue[i], s'.disk, g) {
      if i < |s.chain.queue| {
        assert OpOk(s.chain.queue[i], s.disk, s.cfg.generation);
      }
    }
    forall b: nat, x | x in EntriesOf(s'.disk, b) ensures x.epoch < g {
      assert BoxOk(s.disk.boxes[b], s.cfg.generation);
    }
  }

  lemma LateStep(s: State, e: Event, g: nat, keys: set<Key>)
    requires Storage(s) && LateKeys(s, g, keys) && Same(ExternalArtwork, e, s.cfg)
    ensures LateKeys(Step(s, e), g, keys)
  {
    hide External;
    match e
    case Respond(id, cacheable) => LateRespond(s, id, cacheable, g, keys);
    case Work(now, pick) => LateWork(s, now, pick, g, keys);
    case Open(id) => LateOpen(s, id, g, keys);
    case Drop(id) => LateDrop(s, id, g, keys);
    case _ => hide Storage, OnArtwork, EntriesOf, Lookup, NameFor; LateRest(s, e, g, keys);
  }

  lemma LateRest(s: State, e: Event, g: nat, keys: set<Key>)
    requires LateKeys(s, g, keys) && Same(ExternalArtwork, e, s.cfg)
    requires !e.Respond? && !e.Work? && !e.Open? && !e.Drop?
    ensures LateKeys(Step(s, e), g, keys)
  {
    hide OnArtwork, EntriesOf, Lookup, NameFor;
  }

  lemma LateRespond(s: State, id: nat, cacheable: bool, g: nat, keys: set<Key>)
    requires Storage(s) && LateKeys(s, g, keys)
    ensures LateKeys(StepRespond(s, id, cacheable), g, keys)
  {
    if id in s.requests && s.requests[id].phase.Fetching? {
      assert RequestOk(s.requests[id], s.disk, s.cfg.generation);
      hide Storage, External, EntriesOf;
      assert LateRequest(s.requests[id], g) ==> s.requests[id].key in keys;
    }
  }

  lemma LateOpen(s: State, id: nat, g: nat, keys: set<Key>)
    requires Storage(s) && LateKeys(s, g, keys)
    ensures LateKeys(StepOpen(s, id), g, keys)
  {
    if id in s.requests && s.requests[id].phase.Opening? {
      OpenNameThinner(s.disk, s.requests[id].phase.name);
      OpenNameOk(s.chain, s.disk, s.requests[id].phase.name, s.cfg.generation, s.history.cut);
      LateThinner(s, StepOpen(s, id), g, keys);
    }
  }

  lemma LateDrop(s: State, id: nat, g: nat, keys: set<Key>)
    requires Storage(s) && LateKeys(s, g, keys)
    ensures LateKeys(StepDrop(s, id), g, keys)
  {
    if id in s.requests && s.requests[id].phase.Dropping? {
      DropKeyThinner(s.disk, s.requests[id].phase.box, s.requests[id].key);
      LateThinner(s, StepDrop(s, id), g, keys);
    }
  }

  /** Where nothing is stored and no object changes its name. */
  lemma LateThinner(s: State, s': State, g: nat, keys: set<Key>)
    requires Storage(s) && LateKeys(s, g, keys) && s'.cfg == s.cfg && Thinner(s.disk, s'.disk) && SameNames(s.disk, s'.disk)
    requires forall id :: id in s'.requests && LateRequest(s'.requests[id], g) ==>
               id in s.requests && LateRequest(s.requests[id], g) && s'.requests[id].key == s.requests[id].key
    requires forall i :: 0 <= i < |s'.chain.queue| && s'.chain.queue[i].Write? ==> s'.chain.queue[i] in s.chain.queue
    ensures LateKeys(s', g, keys)
  {
    hide External;
    forall i | 0 <= i < |s'.chain.queue| && LateWrite(s'.chain.queue[i], s'.disk, g) ensures s'.chain.queue[i].key in keys {
      var j :| 0 <= j < |s.chain.queue| && s.chain.queue[j] == s'.chain.queue[i];
      assert OpOk(s.chain.queue[j], s.disk, s.cfg.generation);
    }
    forall b: nat, e | e in EntriesOf(s'.disk, b) && OnArtwork(s'.disk, b) ensures e in EntriesOf(s.disk, b) && OnArtwork(s.disk, b) {
    }
  }

  lemma LateWork(s: State, now: nat, pick: Name, g: nat, keys: set<Key>)
    requires Storage(s) && LateKeys(s, g, keys)
    ensures LateKeys(StepWork(s, now, pick), g, keys)
  {
    if s.chain.queue != [] {
      WorkQueue(s.chain, s.disk, s.cfg, now, pick);
      if s.chain.queue[0].Write? && s.chain.stage.Putting? {
        LatePut(s, now, pick, g, keys);
      } else {
        WorkThinner(s, now, pick);
        var s' := StepWork(s, now, pick);
        assert forall i :: 0 <= i < |s'.chain.queue| ==> s'.chain.queue[i] in s.chain.queue;
        hide StepWork, LateKeys;
        LateThinner(s, s', g, keys);
      }
    }
  }

  lemma WorkThinner(s: State, now: nat, pick: Name)
    requires Storage(s) && s.chain.queue != [] && !(s.chain.queue[0].Write? && s.chain.stage.Putting?)
    ensures var s' := StepWork(s, now, pick);
            Thinner(s.disk, s'.disk) && SameNames(s.disk, s'.disk) && s'.cfg == s.cfg && s'.requests == s.requests
  {
    var c, d := s.chain, s.disk;
    match c.queue[0] {
      case Write(_, _, box, _) =>
        StorageWrite(c, d, s.cfg, now, s.history.cut);
        if c.stage.Evicting? && c.stage.keys != [] {
          DropKeyThinner(d, box, c.stage.keys[0]);
        }
        assert Thinner(d, WorkWrite(c, d, s.cfg, now).1);
      case Purge(_, _) =>
        PurgeThinner(c, d, pick);
        StoragePurge(c, d, pick, s.cfg.generation, s.history.cut);
      case Policy(_, _, _) =>
        PolicyThinner(c, d, s.cfg, pick);
        StoragePolicy(c, d, s.cfg, pick, s.history.cut);
    }
    hide Thinner, SameNames, WorkPurge, WorkPolicy, DropKey;
  }

  lemma LatePut(s: State, now: nat, pick: Name, g: nat, keys: set<Key>)
    requires Storage(s) && LateKeys(s, g, keys) && s.chain.queue != [] && s.chain.queue[0].Write? && s.chain.stage.Putting?
    ensures LateKeys(StepWork(s, now, pick), g, keys)
  {
    hide External;
    var op, s' := s.chain.queue[0], StepWork(s, now, pick);
    assert OpOk(op, s.disk, s.cfg.generation);
    assert s'.chain.queue == s.chain.queue;
    forall b | 0 <= b < |s.disk.boxes| ensures OnArtwork(s'.disk, b) == OnArtwork(s.disk, b) {
    }
    forall b: nat, e | e in EntriesOf(s'.disk, b)
      ensures e in EntriesOf(s.disk, b) || (b == op.box && e.key == op.key && e.epoch == op.epoch)
    {
    }
  }

  lemma {:induction false} LateOver(before: seq<Event>, after: seq<Event>, g: nat, keys: set<Key>)
    requires LateKeys(Run(before), g, keys) && SameOver(ExternalArtwork, after, Run(before).cfg)
    ensures LateKeys(Run(before + after), g, keys)
  {
    hide Run, Step, LateKeys, Same;
    if after == [] {
      assert before + after == before;
    } else {
      var shorter, last := after[..|after| - 1], after[|after| - 1];
      assert before + after == before + shorter + [last];
      assert forall i :: 0 <= i < |shorter| ==> shorter[i] == after[i];
      LateOver(before, shorter, g, keys);
      RunSnoc(before + shorter, last);
      RunInv(before + shorter);
      SameFor(ExternalArtwork, last, Run(before).cfg, Run(before + shorter).cfg);
      LateStep(Run(before + shorter), last, g, keys);
    }
  }

  /** After a policy message that switches external artwork off, or leaves it off, and as long as it stays
      off: an entry of external artwork that can be found once the chain has run was stored for a request
      that captured its epoch after the message, and whose key was asked for by a request that had been
      accepted before the message and was still waiting for the chain. */
  lemma ExternalLeft(before: seq<Event>, off: Event, after: seq<Event>, n: Name, e: Entry)
    requires off.SetPolicy? && !off.external && SameOver(ExternalArtwork, after, Step(Run(before), off).cfg)
    requires var s := Run(before + [off] + after);
             s.chain.queue == [] && n in s.disk.names && n.Kind() == Artwork
             && e in EntriesOf(s.disk, s.disk.names[n]) && External(e.key)
    ensures Run(before).cfg.generation < e.epoch
    ensures exists id :: id in Run(before).requests && Run(before).requests[id].kind == Artwork
                      && Run(before).requests[id].key == e.key && Run(before).requests[id].phase.Awaiting?
  {
    hide Run, Step, External, SameOver;
    CleanAfter(ExternalArtwork, before, off, after, n, e);
    RunInv(before);
    RunSnoc(before, off);
    LateStart(Run(before), off);
    var s := Run(before + [off] + after);
    LateOver(before + [off], after, Run(before).cfg.generation + 1, WaitingKeys(Run(before)));
    RunInv(before + [off] + after);
    StorageHas(s);
    assert OnArtwork(s.disk, s.disk.names[n]);
    assert e.key in WaitingKeys(Run(before));
  }

  /** The latest policy message of a signed-in worker, and what has not happened since. */
  lemma {:induction false} LatestPolicy(events: seq<Event>) returns (i: nat)
    requires Run(events).cfg.owner.Some? && !Run(events).cfg.externalArtwork
    ensures i < |events| && events[i].SetPolicy? && !events[i].external
    ensures forall j :: i < j < |events| ==> events[j] != Restart && !events[j].SetPolicy?
  {
    hide Step;
    assert events != [];
    var init, last := events[..|events| - 1], events[|events| - 1];
    if last.SetPolicy? {
      PolicySets(Run(init), last);
      i := |events| - 1;
    } else {
      SettingsStay(Run(init), last);
      i := LatestPolicy(init);
      assert forall j :: 0 <= j < |init| ==> init[j] == events[j];
    }
  }

  lemma PolicySets(s: State, e: Event)
    requires e.SetPolicy?
    ensures Step(s, e).cfg.owner == e.newOwner && Step(s, e).cfg.externalArtwork == e.external
  {
  }

  lemma SettingsStay(s: State, e: Event)
    requires !e.SetPolicy? && Step(s, e).cfg.owner.Some?
    ensures e != Restart && Step(s, e).cfg.owner == s.cfg.owner && Step(s, e).cfg.externalArtwork == s.cfg.externalArtwork
  {
    hide WorkOn, DropKey, OpenName;
  }

  /** In every run: with the chain empty, somebody signed in and external artwork off, an entry of external
      artwork that can be found was stored for a request that captured its epoch after a policy message
      that had it off, and whose key was asked for by a request accepted before that message. */
  lemma ExternalWhenOff(events: seq<Event>, n: Name, e: Entry)
    requires var s := Run(events);
             s.chain.queue == [] && s.cfg.owner.Some? && !s.cfg.externalArtwork
             && n in s.disk.names && n.Kind() == Artwork && e in EntriesOf(s.disk, s.disk.names[n]) && External(e.key)
    ensures exists i :: 0 <= i < |events| && events[i].SetPolicy? && !events[i].external && events[i].newOwner == Run(events).cfg.owner
                     && CameLate(Run(events[..i]), e)
  {
    hide *;
    var i := LatestPolicy(events);
    var before, after := events[..i], events[i + 1..];
    assert events == before + [events[i]] + after;
    assert forall j :: 0 <= j < |after| ==> after[j] == events[i + 1 + j];
    NoPolicySame(after, Step(Run(before), events[i]).cfg);
    ExternalLate(before, events[i], after, n, e);
    RunSnoc(before, events[i]);
    PolicySets(Run(before), events[i]);
    OwnerStays(before + [events[i]], after);
    assert events[i].newOwner == Run(events).cfg.owner && CameLate(Run(events[..i]), e);
  }

  lemma NoPolicySame(events: seq<Event>, cfg: Settings)
    requires forall j :: 0 <= j < |events| ==> events[j] != Restart && !events[j].SetPolicy?
    ensures SameOver(ExternalArtwork, events, cfg)
  {
  }

  /** The entry's request captured its epoch after this moment, and a request for its key was waiting. */
  ghost predicate CameLate(s: State, e: Entry) {
    && s.cfg.generation < e.epoch
    && exists id :: id in s.requests && s.requests[id].kind == Artwork && s.requests[id].key == e.key && s.requests[id].phase.Awaiting?
  }

  lemma ExternalLate(before: seq<Event>, off: Event, after: seq<Event>, n: Name, e: Entry)
    requires off.SetPolicy? && !off.external && SameOver(ExternalArtwork, after, Step(Run(before), off).cfg)
    requires var s := Run(before + [off] + after);
             s.chain.queue == [] && n in s.disk.names && n.Kind() == Artwork
             && e in EntriesOf(s.disk, s.disk.names[n]) && External(e.key)
    ensures CameLate(Run(before), e)
  {
    hide Run, Step, External, SameOver;
    ExternalLeft(before, off, after, n, e);
  }

  lemma {:induction false} OwnerStays(before: seq<Event>, after: seq<Event>)
    requires forall j :: 0 <= j < |after| ==> after[j] != Restart && !after[j].SetPolicy?
    ensures Run(before + after).cfg.owner == Run(before).cfg.owner
  {
    hide Run, Step;
    if after == [] {
      assert before + after == before;
    } else {
      var shorter, last := after[..|after| - 1], after[|after| - 1];
      assert before + after == before + shorter + [last];
      OwnerStays(before, shorter);
      RunSnoc(before + shorter, last);
      OwnerKept(Run(before + shorter), last);
    }
  }

  lemma OwnerKept(s: State, e: Event)
    requires e != Restart && !e.SetPolicy?
    ensures Step(s, e).cfg.owner == s.cfg.owner
  {
    hide WorkOn, DropKey, OpenName;
  }

  // ---------------------------------------------------------------- what a trim leaves alone

  /** The keys that a trim still has to delete are external, and its cache is one of artwork. */
  ghost predicate TrimOk(s: State) {
    && (s.chain.stage.ArtworkNext? ==> forall n :: n in s.chain.stage.todo ==> n.Kind() == Artwork)
    && (s.chain.stage.ArtworkOpening? || s.chain.stage.ArtworkDropping? ==>
          s.chain.stage.next.Kind() == Artwork && forall n :: n in s.chain.stage.todo ==> n.Kind() == Artwork)
    && (s.chain.stage.ArtworkScanning? || s.chain.stage.ArtworkTrimming? ==>
          OnArtwork(s.disk, s.chain.stage.box) && forall n :: n in s.chain.stage.todo ==> n.Kind() == Artwork)
    && (s.chain.stage.ArtworkTrimming? ==> forall k :: k in s.chain.stage.keys ==> External(k))
    && (s.chain.stage.Deleting? && s.chain.queue != [] && s.chain.queue[0].Policy? ==>
          forall n :: n in s.chain.stage.todo ==> n.Kind() == Catalog)
  }

  lemma TrimOkStep(s: State, e: Event)
    requires Storage(s) && TrimOk(s)
    ensures TrimOk(Step(s, e))
  {
    hide External;
    match e
    case Open(id) =>
      if id in s.requests && s.requests[id].phase.Opening? {
        OpenNameOk(s.chain, s.disk, s.requests[id].phase.name, s.cfg.generation, s.history.cut);
      }
    case Drop(id) =>
    case Work(now, pick) => TrimOkWork(s, now, pick);
    case _ =>
      StorageHas(s);
      hide Storage, OnArtwork, EntriesOf, Lookup, NameFor;
      TrimOkRest(s, e);
  }

  lemma TrimOkRest(s: State, e: Event)
    requires StageOk(s.chain) && TrimOk(s) && !e.Open? && !e.Drop? && !e.Work?
    ensures TrimOk(Step(s, e))
  {
    hide OnArtwork, EntriesOf, Lookup, NameFor, External;
  }

  lemma TrimOkWork(s: State, now: nat, pick: Name)
    requires Storage(s) && TrimOk(s)
    ensures TrimOk(StepWork(s, now, pick))
  {
    hide External, Remove, Bounded, RequestsOk, HistoryOk, WorkWrite, WorkPurge, ExternalKeys, Keys;
    if s.chain.queue != [] {
      match s.chain.queue[0]
      case Write(_, _, _, _) =>
        StorageHas(s);
        hide WorkPolicy;
        WriteStages(s.chain, s.disk, s.cfg, now);
      case Purge(_, _) =>
        hide WorkPolicy;
        PurgeStages(s.chain, s.disk, pick);
      case Policy(_, _, _) =>
        if s.chain.stage.ArtworkScanning? {
          ListedKeys(Keys(EntriesOf(s.disk, s.chain.stage.box)));
        }
        if s.chain.stage.ArtworkOpening? {
          OpenNameOk(s.chain, s.disk, s.chain.stage.next, s.cfg.generation, s.history.cut);
        }
    }
  }

  lemma WriteStages(c: Chain, d: Disk, cfg: Settings, now: nat)
    requires StageOk(c) && c.queue != [] && c.queue[0].Write?
    ensures var stage := WorkWrite(c, d, cfg, now).0.stage;
            stage.Waiting? || stage.Putting? || stage.Listing? || stage.Evicting?
  {
    hide Excess, Put, Keys;
  }

  lemma PurgeStages(c: Chain, d: Disk, pick: Name)
    requires StageOk(c) && c.queue != [] && c.queue[0].Purge?
    ensures var c' := WorkPurge(c, d, pick).0;
            c'.stage.Waiting? || (c'.stage.Deleting? && c'.queue != [] && c'.queue[0].Purge?)
  {
  }

  lemma {:induction false} RunTrimOk(events: seq<Event>)
    ensures TrimOk(Run(events))
  {
    hide Step, TrimOk, Storage;
    if events == [] {
      TrimOkAtFirst();
    } else {
      RunTrimOk(events[..|events| - 1]);
      RunInv(events[..|events| - 1]);
      TrimOkStep(Run(events[..|events| - 1]), events[|events| - 1]);
    }
  }

  lemma TrimOkAtFirst()
    ensures TrimOk(Init)
  {
  }

  /** In every run, what a step of a policy clean-up takes out of a cache object is external artwork. */
  lemma PolicyTakesExternal(events: seq<Event>, now: nat, pick: Name, box: nat, e: Entry)
    requires Run(events).chain.queue != [] && Run(events).chain.queue[0].Policy?
    requires e in EntriesOf(Run(events).disk, box) && e !in EntriesOf(Step(Run(events), Work(now, pick)).disk, box)
    ensures External(e.key) && OnArtwork(Run(events).disk, box)
  {
    RunTrimOk(events);
    hide Run;
    TakesExternal(Run(events), now, pick, box, e);
  }

  lemma TakesExternal(s: State, now: nat, pick: Name, box: nat, e: Entry)
    requires TrimOk(s) && s.chain.queue != [] && s.chain.queue[0].Policy?
    requires e in EntriesOf(s.disk, box) && e !in EntriesOf(StepWork(s, now, pick).disk, box)
    ensures External(e.key) && OnArtwork(s.disk, box)
  {
    hide ExternalKeys, External;
  }

  /** In every run, a name that such a step deletes is one of the catalogue, or the owner was not the one
      that the message found when the step was chosen. */
  lemma PolicyUnnames(events: seq<Event>, now: nat, pick: Name, n: Name)
    requires Run(events).chain.queue != [] && Run(events).chain.queue[0].Policy?
    requires n in Run(events).disk.names && n !in Step(Run(events), Work(now, pick)).disk.names
    ensures n.Kind() == (if Run(events).chain.stage.Deleting? then Catalog else Artwork)
    ensures Run(events).chain.stage.Deleting? || Run(events).chain.stage.ArtworkDropping?
  {
    RunTrimOk(events);
    hide Run, External;
  }

  /** While the owner is the one that the message found, no step of its clean-up starts to delete a cache
      of artwork. */
  lemma SameOwnerKeepsArtwork(s: State, now: nat, pick: Name)
    requires s.chain.queue != [] && s.chain.queue[0].Policy? && s.chain.queue[0].previous == s.cfg.owner
    requires !s.chain.stage.ArtworkDropping?
    ensures !Step(s, Work(now, pick)).chain.stage.ArtworkDropping?
  {
    hide External, ExternalKeys;
  }

  // ---------------------------------------------------------------- an external entry after the switch

  const COVER: Key := "/api/artwork/external/a"
  const NOTHING: Disk := Disk(map[], [])

  function Moment(u: User, external: bool, generation: nat, chain: Chain, d: Disk, requests: Requests): State {
    State(Settings(Some(u), external, Some(false), generation), chain, d, requests, [], History(map[], map[], Some(1), 0))
  }

  function Asks(phase: Phase): Requests {
    map[0 := Request(Artwork, COVER, 0, phase)]
  }

  function Covers(u: User, es: seq<Entry>): Disk {
    Disk(map[ArtworkOf(u) := 0], [Box(ArtworkOf(u), es)])
  }

  /** Signed in with external artwork on. */
  function SignIn(u: User): seq<Event> {
    [SetPolicy(Some(u), true, Some(false))] + [Work(0, ArtworkOf(u))] + [Work(0, ArtworkOf(u))] + [Work(0, ArtworkOf(u))]
    + [Work(0, ArtworkOf(u))] + [Work(0, ArtworkOf(u))] + [Work(0, ArtworkOf(u))]
  }

  lemma SignedIn(u: User)
    ensures Run(SignIn(u)) == Moment(u, true, 1, Chain([], Waiting, 1), NOTHING, map[])
  {
    var p, w, op := [SetPolicy(Some(u), true, Some(false))], [Work(0, ArtworkOf(u))], Policy(1, None, None);
    RunSnoc([], p[0]);
    assert [] + p == p;
    assert Run(p) == Moment(u, true, 1, Chain([op], Waiting, 0), NOTHING, map[]);
    hide Run, WorkWrite, WorkPurge, OpenName, DropKey;
    assert NamesOf(NOTHING, Catalog) == {} && NamesOf(NOTHING, Artwork) == {};
    RunSnoc(p, w[0]);
    assert Run(p + w) == Moment(u, true, 1, Chain([op], Listing, 0), NOTHING, map[]);
    RunSnoc(p + w, w[0]);
    assert Run(p + w + w) == Moment(u, true, 1, Chain([op], Deleting({}), 0), NOTHING, map[]);
    RunSnoc(p + w + w, w[0]);
    assert Run(p + w + w + w) == Moment(u, true, 1, Chain([op], ArtworkChoice, 0), NOTHING, map[]);
    RunSnoc(p + w + w + w, w[0]);
    assert Run(p + w + w + w + w) == Moment(u, true, 1, Chain([op], ArtworkListing, 0), NOTHING, map[]);
    RunSnoc(p + w + w + w + w, w[0]);
    assert Run(p + w + w + w + w + w) == Moment(u, true, 1, Chain([op], ArtworkNext({}), 0), NOTHING, map[]);
    RunSnoc(p + w + w + w + w + w, w[0]);
  }

  /** An external cover is asked for, external artwork is switched off, and the clean-up runs before the
      request goes on. */
  function SwitchedOff(u: User): seq<Event> {
    SignIn(u) + [Fetch(0, Artwork, COVER)] + [SetPolicy(Some(u), false, Some(false))]
    + [Work(0, ArtworkOf(u))] + [Work(0, ArtworkOf(u))] + [Work(0, ArtworkOf(u))] + [Work(0, ArtworkOf(u))]
  }

  lemma SwitchedOffAt(u: User)
    ensures Run(SwitchedOff(u)) == Moment(u, false, 2, Chain([], Waiting, 2), NOTHING, Asks(Awaiting(1)))
  {
    SignedIn(u);
    hide Run, SignIn, WorkWrite, WorkPurge, OpenName, DropKey;
    var w, op := [Work(0, ArtworkOf(u))], Policy(2, Some(u), Some(false));
    var e1 := SignIn(u) + [Fetch(0, Artwork, COVER)];
    RunSnoc(SignIn(u), Fetch(0, Artwork, COVER));
    assert Run(e1) == Moment(u, true, 1, Chain([], Waiting, 1), NOTHING, Asks(Awaiting(1)));
    var e2 := e1 + [SetPolicy(Some(u), false, Some(false))];
    RunSnoc(e1, SetPolicy(Some(u), false, Some(false)));
    assert Run(e2) == Moment(u, false, 2, Chain([op], Waiting, 1), NOTHING, Asks(Awaiting(1)));
    RunSnoc(e2, w[0]);
    assert Run(e2 + w) == Moment(u, false, 2, Chain([op], ArtworkChoice, 1), NOTHING, Asks(Awaiting(1)));
    RunSnoc(e2 + w, w[0]);
    assert Run(e2 + w + w) == Moment(u, false, 2, Chain([op], ArtworkListing, 1), NOTHING, Asks(Awaiting(1)));
    assert NamesOf(NOTHING, Artwork) == {};
    RunSnoc(e2 + w + w, w[0]);
    assert Run(e2 + w + w + w) == Moment(u, false, 2, Chain([op], ArtworkNext({}), 1), NOTHING, Asks(Awaiting(1)));
    RunSnoc(e2 + w + w + w, w[0]);
  }

  /** The request goes on as far as its response. */
  function Fetched(u: User): seq<Event> {
    SwitchedOff(u) + [Resume(0)] + [Open(0)] + [Match(0)] + [Decide(0, 1)] + [Respond(0, true)]
  }

  lemma FetchedAt(u: User)
    ensures Run(Fetched(u)) == Moment(u, false, 2, Chain([Write(2, u, 0, COVER)], Waiting, 2), Covers(u, []), map[])
  {
    SwitchedOffAt(u);
    hide Run, SwitchedOff, WorkOn;
    var quiet := Chain([], Waiting, 2);
    var e1 := SwitchedOff(u) + [Resume(0)];
    RunSnoc(SwitchedOff(u), Resume(0));
    assert Run(e1) == Moment(u, false, 2, quiet, NOTHING, Asks(Opening(2, u, ArtworkOf(u))));
    var e2 := e1 + [Open(0)];
    RunSnoc(e1, Open(0));
    assert NOTHING.names[ArtworkOf(u) := 0] == map[ArtworkOf(u) := 0] && NOTHING.boxes + [Box(ArtworkOf(u), [])] == [Box(ArtworkOf(u), [])];
    assert OpenName(NOTHING, ArtworkOf(u)) == (Covers(u, []), 0);
    assert Run(e2) == Moment(u, false, 2, quiet, Covers(u, []), Asks(Matching(2, u, 0)));
    var e3 := e2 + [Match(0)];
    RunSnoc(e2, Match(0));
    assert EntriesOf(Covers(u, []), 0) == [] && Lookup([], COVER) == None;
    assert Run(e3) == Moment(u, false, 2, quiet, Covers(u, []), Asks(Deciding(2, u, 0, None)));
    var e4 := e3 + [Decide(0, 1)];
    RunSnoc(e3, Decide(0, 1));
    assert Run(e4) == Moment(u, false, 2, quiet, Covers(u, []), Asks(Fetching(2, u, 0)));
    RunSnoc(e4, Respond(0, true));
  }

  /** A run in which external artwork is off, the chain has run, and an external cover can be found: its
      request was accepted before the switch and captured its epoch after it. */
  lemma ExternalAfterSwitchOff(u: User)
    ensures var w := [Work(1, ArtworkOf(u))];
            var s := Run(Fetched(u) + w + w + w + w);
            && s.chain.queue == [] && s.cfg.owner == Some(u) && !s.cfg.externalArtwork
            && ArtworkOf(u) in s.disk.names && External(COVER)
            && Entry(COVER, 1, u, 2) in EntriesOf(s.disk, s.disk.names[ArtworkOf(u)])
  {
    FetchedAt(u);
    hide Run, Fetched, WorkPurge, WorkPolicy;
    var w, op, e0 := [Work(1, ArtworkOf(u))], Write(2, u, 0, COVER), Fetched(u);
    var es := [Entry(COVER, 1, u, 2)];
    RunSnoc(e0, w[0]);
    assert Run(e0 + w) == Moment(u, false, 2, Chain([op], Putting(1), 2), Covers(u, []), map[]);
    RunSnoc(e0 + w, w[0]);
    StoreFirst(u);
    assert Run(e0 + w + w) == Moment(u, false, 2, Chain([op], OfflineCache.Listing, 2), Covers(u, es), map[]);
    RunSnoc(e0 + w + w, w[0]);
    assert EntriesOf(Covers(u, es), 0) == es && |Keys(es)| == 1 && Excess(Keys(es)) == [];
    assert Run(e0 + w + w + w) == Moment(u, false, 2, Chain([op], Evicting([]), 2), Covers(u, es), map[]);
    RunSnoc(e0 + w + w + w, w[0]);
  }

  lemma StoreFirst(u: User)
    ensures SetEntries(Covers(u, []), 0, Put(EntriesOf(Covers(u, []), 0), Entry(COVER, 1, u, 2))) == Covers(u, [Entry(COVER, 1, u, 2)])
  {
    assert Put([], Entry(COVER, 1, u, 2)) == [Entry(COVER, 1, u, 2)];
  }
}
