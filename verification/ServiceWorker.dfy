/** The service worker as it runs: module-level variables that handlers reassign, a chain of storage
    operations, and the requests that are suspended somewhere in the middle.  Each method is what runs
    between two awaits; each is one step of the protocol and keeps its invariant. */
module ServiceWorker {
  import opened Prelude
  import opened OfflineCache

  class Worker {
    var owner: Option<User>
    var externalArtwork: bool
    var metadataMode: Option<bool>
    var generation: nat
    /** The promise chain: the operations not finished yet, how far the first one is, how many are done. */
    var queue: seq<Op>
    var stage: Stage
    var finished: nat
    /** The browser's storage. */
    var names: map<Name, nat>
    var boxes: seq<Box>
    /** The suspended requests, and what the proofs remember. */
    var requests: Requests
    var served: seq<Served>
    var history: History

    function View(): State
      reads this
    {
      State(Settings(owner, externalArtwork, metadataMode, generation), Chain(queue, stage, finished),
            Disk(names, boxes), requests, served, history)
    }

    ghost predicate Valid()
      reads this
    {
      Inv(View())
    }

    constructor ()
      ensures Valid() && View() == Init
    {
      owner, externalArtwork, metadataMode, generation := None, false, None, 0;
      queue, stage, finished, names, boxes, requests := [], Waiting, 0, map[], [], map[];
      served, history := [], History(map[], map[], None, 0);
      new;
      InitInv();
    }

    method Move(id: nat, phase: Phase)
      requires id in requests
      modifies this`requests
      ensures requests == old(requests)[id := old(requests)[id].(phase := phase)]
    {
      requests := requests[id := requests[id].(phase := phase)];
    }

    /** `caches.open`. */
    method OpenCache(name: Name) returns (box: nat)
      modifies this`names, this`boxes
      ensures (Disk(names, boxes), box) == OpenName(old(Disk(names, boxes)), name)
    {
      if name in names {
        return names[name];
      }
      box := |boxes|;
      names := names[name := box];
      boxes := boxes + [Box(name, [])];
    }

    /** `cache.delete`. */
    method DeleteEntry(box: nat, key: Key)
      modifies this`boxes
      ensures Disk(names, boxes) == DropKey(old(Disk(names, boxes)), box, key)
    {
      if box < |boxes| {
        boxes := boxes[box := boxes[box].(entries := Remove(boxes[box].entries, key))];
      }
    }

    method Serialize(op: Op)
      modifies this`queue
      ensures queue == old(queue) + [op]
    {
      queue := queue + [op];
    }

    /** The fetch handler for a cacheable GET. */
    method OnFetch(id: nat, kind: Kind, key: Key)
      requires Valid() && id !in requests
      modifies this
      ensures Valid() && View() == Step(old(View()), Fetch(id, kind, key))
    {
      hide Inv;
      StepInv(View(), Fetch(id, kind, key));
      assert Step(View(), Fetch(id, kind, key)) == StepFetch(View(), id, kind, key);
      hide Step;
      if owner.None? {
        return;
      }
      if kind == Catalog && metadataMode.None? {
        return;
      }
      if kind == Artwork && EXTERNAL_PREFIX <= key && !externalArtwork {
        return;
      }
      requests := requests[id := Request(kind, key, history.Announced(kind), Awaiting(finished + |queue|))];
    }

    /** After the wait for the chain. */
    method Capture(id: nat)
      requires Valid() && id in requests && requests[id].phase.Awaiting? && requests[id].phase.ticket <= finished
      modifies this
      ensures Valid() && View() == Step(old(View()), Resume(id))
    {
      hide Inv;
      StepInv(View(), Resume(id));
      assert Step(View(), Resume(id)) == StepResume(View(), id);
      hide Step;
      var epoch := generation;
      var account := owner;
      if account.None? {
        requests := requests - {id};
        return;
      }
      Move(id, Opening(epoch, account.value, NameFor(requests[id].kind, account.value, metadataMode)));
    }

    method OpenFor(id: nat)
      requires Valid() && id in requests && requests[id].phase.Opening?
      modifies this
      ensures Valid() && View() == Step(old(View()), Open(id))
    {
      hide Inv;
      StepInv(View(), Open(id));
      assert Step(View(), Open(id)) == StepOpen(View(), id);
      hide Step, OpenName;
      var p := requests[id].phase;
      var box := OpenCache(p.name);
      Move(id, Matching(p.epoch, p.account, box));
    }

    method MatchFor(id: nat)
      requires Valid() && id in requests && requests[id].phase.Matching?
      modifies this
      ensures Valid() && View() == Step(old(View()), Match(id))
    {
      hide Inv;
      StepInv(View(), Match(id));
      assert Step(View(), Match(id)) == StepMatch(View(), id);
      hide Step, Lookup;
      var p := requests[id].phase;
      Move(id, Deciding(p.epoch, p.account, p.box, Lookup(if p.box < |boxes| then boxes[p.box].entries else [], requests[id].key)));
    }

    /** The checks after the lookup: the answer, if it comes from the cache. */
    method DecideFor(id: nat, now: nat) returns (answer: Option<Entry>)
      requires Valid() && id in requests && requests[id].phase.Deciding?
      modifies this
      ensures Valid() && View() == Step(old(View()), Decide(id, now))
      ensures answer.Some? ==> owner == Some(answer.value.account) && answer.value.key == old(requests)[id].key
                               && old(requests)[id].floor <= answer.value.epoch
    {
      hide Inv;
      StepInv(View(), Decide(id, now));
      assert Step(View(), Decide(id, now)) == StepDecide(View(), id, now);
      hide Step;
      ghost var before := View();
      var r := requests[id];
      var p := r.phase;
      answer := None;
      if p.epoch != generation || Some(p.account) != owner {
        requests := requests - {id};
      } else if p.found.None? {
        Move(id, Fetching(p.epoch, p.account, p.box));
      } else if p.found.value.storedAt > 0 && now - p.found.value.storedAt < ARTWORK_MAX_AGE_MS {
        answer := p.found;
        requests := requests - {id};
        served := served + [Served(r, p.found.value, owner, now)];
        LastServed(before, id, now);
      } else {
        Move(id, Dropping(p.epoch, p.account, p.box));
      }
    }

    method DropFor(id: nat)
      requires Valid() && id in requests && requests[id].phase.Dropping?
      modifies this
      ensures Valid() && View() == Step(old(View()), Drop(id))
    {
      hide Inv;
      StepInv(View(), Drop(id));
      assert Step(View(), Drop(id)) == StepDrop(View(), id);
      hide Step, DropKey;
      var p := requests[id].phase;
      DeleteEntry(p.box, requests[id].key);
      Move(id, Fetching(p.epoch, p.account, p.box));
    }

    method RespondFor(id: nat, cacheable: bool)
      requires Valid() && id in requests && requests[id].phase.Fetching?
      modifies this
      ensures Valid() && View() == Step(old(View()), Respond(id, cacheable))
    {
      hide Inv;
      StepInv(View(), Respond(id, cacheable));
      assert Step(View(), Respond(id, cacheable)) == StepRespond(View(), id, cacheable);
      hide Step;
      var p := requests[id].phase;
      if cacheable {
        Serialize(Write(p.epoch, p.account, p.box, requests[id].key));
      }
      requests := requests - {id};
    }

    /** A mutation, or a message that asks for a purge. */
    method OnPurge(e: Event)
      requires Valid() && (e.Mutate? || e.ClearImages? || e.PurgeStale?)
      modifies this
      ensures Valid() && View() == Step(old(View()), e)
    {
      hide Inv;
      StepInv(View(), e);
      var kind := if e.ClearImages? then Artwork else Catalog;
      assert Step(View(), e) == StepAnnounce(View(), kind);
      hide Step;
      generation := generation + 1;
      history := history.(announced := history.announced[kind := generation]);
      Serialize(Purge(kind, generation));
    }

    method OnPolicy(newOwner: Option<User>, external: bool, newMetadata: Option<bool>)
      requires Valid()
      modifies this
      ensures Valid() && View() == Step(old(View()), SetPolicy(newOwner, external, newMetadata))
    {
      hide Inv;
      StepInv(View(), SetPolicy(newOwner, external, newMetadata));
      assert Step(View(), SetPolicy(newOwner, external, newMetadata)) == StepPolicy(View(), newOwner, external, newMetadata);
      hide Step;
      var previous, previousMetadata := owner, metadataMode;
      owner, externalArtwork, metadataMode := newOwner, external, newMetadata;
      generation := generation + 1;
      if previous != owner {
        history := history.(switchedAt := Some(generation));
      }
      Serialize(Policy(generation, previous, previousMetadata));
    }

    /** One step of the operation at the head of the chain. */
    method RunWrites(now: nat, pick: Name)
      requires Valid()
      modifies this
      ensures Valid() && View() == Step(old(View()), Event.Work(now, pick))
    {
      hide Inv;
      StepInv(View(), Event.Work(now, pick));
      assert Step(View(), Event.Work(now, pick)) == StepWork(View(), now, pick);
      hide Step, WorkWrite, WorkPurge, WorkPolicy;
      if queue == [] {
        return;
      }
      ghost var before := View();
      var op, done := queue[0], finished;
      RunOne(now, pick);
      if op.Purge? && finished > done {
        history := Completed(history, op);
      }
      assert View() == StepWork(before, now, pick);
    }

    method RunOne(now: nat, pick: Name)
      requires queue != []
      modifies this`queue, this`stage, this`finished, this`names, this`boxes
      ensures (Chain(queue, stage, finished), Disk(names, boxes)) ==
              WorkOn(old(Chain(queue, stage, finished)), old(Disk(names, boxes)), View().cfg, now, pick)
    {
      hide WorkWrite, WorkPurge, WorkPolicy;
      match queue[0] {
        case Write(_, _, _, _) => RunWrite(now);
        case Purge(_, _) => RunPurge(pick);
        case Policy(_, _, _) => RunPolicy(pick);
      }
    }

    method Next()
      requires queue != []
      modifies this`queue, this`stage, this`finished
      ensures Chain(queue, stage, finished) == Finish(old(Chain(queue, stage, finished)))
    {
      queue, stage, finished := queue[1..], Waiting, finished + 1;
    }

    method RunWrite(now: nat)
      requires queue != [] && queue[0].Write?
      modifies this`queue, this`stage, this`finished, this`boxes
      ensures (Chain(queue, stage, finished), Disk(names, boxes)) ==
              WorkWrite(old(Chain(queue, stage, finished)), old(Disk(names, boxes)), View().cfg, now)
    {
      var op := queue[0];
      match stage {
        case Waiting =>
          if op.epoch != generation || Some(op.account) != owner {
            Next();
          } else {
            stage := Putting(now);
          }
        case Putting(at) =>
          if op.box < |boxes| {
            boxes := boxes[op.box := boxes[op.box].(entries := Put(boxes[op.box].entries, Entry(op.key, at, op.account, op.epoch)))];
          }
          stage := Listing;
        case Listing =>
          stage := Evicting(Excess(Keys(if op.box < |boxes| then boxes[op.box].entries else [])));
        case Evicting(keys) =>
          if keys == [] {
            Next();
          } else {
            DeleteEntry(op.box, keys[0]);
            stage := Evicting(keys[1..]);
          }
        case _ =>
      }
    }

    method RunPurge(pick: Name)
      requires queue != [] && queue[0].Purge?
      modifies this`queue, this`stage, this`finished, this`names
      ensures (Chain(queue, stage, finished), Disk(names, boxes)) ==
              WorkPurge(old(Chain(queue, stage, finished)), old(Disk(names, boxes)), pick)
    {
      match stage {
        case Waiting =>
          stage := Deleting(NamesOf(Disk(names, boxes), queue[0].kind));
        case Deleting(todo) =>
          if todo == {} {
            Next();
          } else if pick in todo {
            names := names - {pick};
            stage := Deleting(todo - {pick});
          }
        case _ =>
      }
    }

    method RunPolicy(pick: Name)
      requires queue != [] && queue[0].Policy?
      modifies this`queue, this`stage, this`finished, this`names, this`boxes
      ensures (Chain(queue, stage, finished), Disk(names, boxes)) ==
              WorkPolicy(old(Chain(queue, stage, finished)), old(Disk(names, boxes)), View().cfg, pick)
    {
      var op := queue[0];
      match stage {
        case Waiting =>
          stage := if op.previous != owner || op.previousMetadata != metadataMode then Listing else ArtworkChoice;
        case Listing =>
          stage := Deleting(NamesOf(Disk(names, boxes), Catalog));
        case Deleting(todo) =>
          if todo == {} {
            stage := ArtworkChoice;
          } else if pick in todo {
            names := names - {pick};
            stage := Deleting(todo - {pick});
          }
        case ArtworkChoice =>
          if op.previous != owner || !externalArtwork {
            stage := ArtworkListing;
          } else {
            Next();
          }
        case ArtworkListing =>
          stage := ArtworkNext(NamesOf(Disk(names, boxes), Artwork));
        case ArtworkNext(todo) =>
          if todo == {} {
            Next();
          } else if pick in todo {
            stage := if op.previous != owner then ArtworkDropping(todo - {pick}, pick) else ArtworkOpening(todo - {pick}, pick);
          }
        case ArtworkDropping(todo, next) =>
          names := names - {next};
          stage := ArtworkNext(todo);
        case ArtworkOpening(todo, next) =>
          var box := OpenCache(next);
          stage := ArtworkScanning(todo, box);
        case ArtworkScanning(todo, box) =>
          stage := ArtworkTrimming(todo, box, ExternalKeys(Keys(if box < |boxes| then boxes[box].entries else [])));
        case ArtworkTrimming(todo, box, keys) =>
          if keys == [] {
            stage := ArtworkNext(todo);
          } else {
            DeleteEntry(box, keys[0]);
            stage := ArtworkTrimming(todo, box, keys[1..]);
          }
        case _ =>
      }
    }
  }

  /** What a request is answered with from a cache is right at that moment. */
  lemma LastServed(s: State, id: nat, now: nat)
    requires Inv(Step(s, Decide(id, now))) && |Step(s, Decide(id, now)).served| == |s.served| + 1
    ensures ServedOk(Step(s, Decide(id, now)).served[|s.served|])
  {
  }
}
