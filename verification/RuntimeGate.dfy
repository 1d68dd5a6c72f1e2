/** The gate of runtime updates: one mutex for updates, one read-write lock against request handlers,
    and a readiness flag that stays down when an update does not end well. */
module RuntimeGate {
  import opened Prelude

  datatype Ending = Completed | Unchanged | Abandoned | Cancelled

  /** How far an update has got.  `Locked` holds the mutex; `Draining` waits for the handlers; `Holding`
      is the life of its guard; `Leaving` drops the two locks one after the other. */
  datatype Phase = Queued | Locked | Draining(wasReady: bool) | Holding(wasReady: bool) | Leaving(gate: bool)

  datatype Holder = Update(id: nat) | Privacy(id: nat)

  datatype State = State(ready: bool, suspended: bool, serial: Option<Holder>, writer: Option<nat>, readers: set<nat>,
                         updates: map<nat, Phase>, endings: seq<Ending>)

  datatype Event =
    | Ask(id: nat)
    | Lock(id: nat)
    | Suspend(id: nat)
    | Enter(id: nat)
    | Complete(id: nat)
    | KeepUnchanged(id: nat)
    | Abandon(id: nat)
    | Cancel(id: nat)
    | LeaveGate(id: nat)
    | LeaveSerial(id: nat)
    | Read(reader: nat)
    | EndRead(reader: nat)
    | LockPrivacy(id: nat)
    | UnlockPrivacy(id: nat)

  predicate In(s: State, id: nat, phase: Phase) {
    id in s.updates && s.updates[id] == phase
  }

  function To(s: State, id: nat, phase: Phase): State {
    s.(updates := s.updates[id := phase])
  }

  function End(s: State, id: nat, ending: Ending, gate: bool): State {
    To(s, id, Leaving(gate)).(endings := s.endings + [ending])
  }

  function Restore(s: State): State {
    s.(ready := true, suspended := false)
  }

  /** An event that is not enabled does not occur: it changes nothing. */
  function Step(s: State, e: Event): State {
    match e
    case Ask(id) => if id in s.updates then s else To(s, id, Queued)
    case Lock(id) => if In(s, id, Queued) && s.serial.None? then To(s, id, Locked).(serial := Some(Update(id))) else s
    case Suspend(id) =>
      if In(s, id, Locked) then To(s, id, Draining(s.ready)).(suspended := true, ready := false) else s
    case Enter(id) =>
      if id in s.updates && s.updates[id].Draining? && s.readers == {} && s.writer.None?
      then To(s, id, Holding(s.updates[id].wasReady)).(writer := Some(id)) else s
    case Complete(id) => if id in s.updates && s.updates[id].Holding? then End(Restore(s), id, Completed, true) else s
    case KeepUnchanged(id) =>
      if id in s.updates && s.updates[id].Holding?
      then End(if s.updates[id].wasReady then Restore(s) else s, id, Unchanged, true) else s
    case Abandon(id) => if id in s.updates && s.updates[id].Holding? then End(s, id, Abandoned, true) else s
    case Cancel(id) =>
      if In(s, id, Queued) then s.(updates := s.updates - {id})
      else if id in s.updates && s.updates[id].Draining? then End(s, id, Cancelled, false)
      else s
    case LeaveGate(id) => if In(s, id, Leaving(true)) then To(s, id, Leaving(false)).(writer := None) else s
    case LeaveSerial(id) => if In(s, id, Leaving(false)) then s.(updates := s.updates - {id}, serial := None) else s
    case Read(reader) => if s.writer.None? then s.(readers := s.readers + {reader}) else s
    case EndRead(reader) => s.(readers := s.readers - {reader})
    case LockPrivacy(id) => if s.serial.None? then s.(serial := Some(Privacy(id))) else s
    case UnlockPrivacy(id) => if s.serial == Some(Privacy(id)) then s.(serial := None) else s
  }

  const START: State := State(true, false, None, None, {}, map[], [])

  function Run(events: seq<Event>): State {
    if events == [] then START else Step(Run(events[..|events| - 1]), events[|events| - 1])
  }

  // ---------------------------------------------------------------- what every run keeps

  /** An update is active from its lock to its last release. */
  predicate Active(s: State, id: nat) {
    id in s.updates && !s.updates[id].Queued?
  }

  /** What the endings so far leave of readiness: the last one that was not "unchanged" decides. */
  function Expected(endings: seq<Ending>): bool {
    if endings == [] then true
    else if endings[|endings| - 1] == Unchanged then Expected(endings[..|endings| - 1])
    else endings[|endings| - 1] == Completed
  }

  ghost predicate SerialOk(s: State) {
    forall id :: Active(s, id) <==> s.serial == Some(Update(id))
  }

  predicate HasGate(s: State, id: nat) {
    id in s.updates && (s.updates[id].Holding? || s.updates[id] == Leaving(true))
  }

  ghost predicate GateOk(s: State) {
    && (forall id: nat :: s.writer == Some(id) <==> HasGate(s, id))
    && (s.readers != {} ==> s.writer.None?)
  }

  predicate Underway(s: State, id: nat) {
    id in s.updates && (s.updates[id].Draining? || s.updates[id].Holding?)
  }

  ghost predicate ReadyOk(s: State) {
    && s.suspended == !s.ready
    && (forall id :: Underway(s, id) ==> !s.ready && s.updates[id].wasReady == Expected(s.endings))
    && ((forall id :: !Underway(s, id)) ==> s.ready == Expected(s.endings))
  }

  lemma StepSerial(s: State, e: Event)
    requires SerialOk(s)
    ensures SerialOk(Step(s, e))
  {
    var s' := Step(s, e);
    if e.LeaveSerial? || e.Lock? || e.Suspend? || e.Cancel? {
      assert Active(s, e.id) <==> s.serial == Some(Update(e.id));
    }
    forall id ensures Active(s', id) <==> s'.serial == Some(Update(id)) {
      assert Active(s, id) <==> s.serial == Some(Update(id));
    }
  }

  lemma StepGate(s: State, e: Event)
    requires GateOk(s)
    ensures GateOk(Step(s, e))
  {
    var s' := Step(s, e);
    if e.LeaveGate? || e.Enter? {
      assert HasGate(s, e.id) <==> s.writer == Some(e.id);
    }
    forall id: nat ensures s'.writer == Some(id) <==> HasGate(s', id) {
      assert s.writer == Some(id) <==> HasGate(s, id);
    }
  }

  lemma OneActive(s: State, a: nat, b: nat)
    requires SerialOk(s) && Active(s, a) && Active(s, b)
    ensures a == b
  {
  }

  lemma ExpectedSnoc(endings: seq<Ending>, e: Ending)
    ensures Expected(endings + [e]) == if e == Unchanged then Expected(endings) else e == Completed
  {
    assert (endings + [e])[..|endings|] == endings;
  }

  lemma StepReady(s: State, e: Event)
    requires SerialOk(s) && ReadyOk(s)
    ensures ReadyOk(Step(s, e))
  {
    var s' := Step(s, e);
    ExpectedSnoc(s.endings, Completed);
    ExpectedSnoc(s.endings, Unchanged);
    ExpectedSnoc(s.endings, Abandoned);
    ExpectedSnoc(s.endings, Cancelled);
    hide Expected;
    if (e.Suspend? || e.Enter? || e.Complete? || e.KeepUnchanged? || e.Abandon? || e.Cancel?) && Active(s, e.id) {
      forall id | id != e.id ensures !Underway(s, id) && !Underway(s', id) {
        if Active(s, id) {
          OneActive(s, id, e.id);
        }
      }
      hide SerialOk;
      assert !Underway(s, e.id) ==> forall id :: !Underway(s, id);
      assert Underway(s, e.id) ==> !s.ready && s.updates[e.id].wasReady == Expected(s.endings);
      assert !Underway(s, e.id) ==> s.ready == Expected(s.endings);
      assert Underway(s', e.id) ==> !s'.ready && s'.updates[e.id].wasReady == Expected(s'.endings);
      assert !Underway(s', e.id) ==> s'.ready == Expected(s'.endings);
    } else {
      assert forall id :: Underway(s, id) <==> Underway(s', id);
    }
  }

  ghost predicate Inv(s: State) {
    SerialOk(s) && GateOk(s) && ReadyOk(s)
  }

  lemma StepInv(s: State, e: Event)
    requires Inv(s)
    ensures Inv(Step(s, e))
  {
    hide SerialOk, GateOk, ReadyOk, Step;
    StepSerial(s, e);
    StepGate(s, e);
    StepReady(s, e);
  }

  lemma {:induction false} RunInv(events: seq<Event>)
    ensures SerialOk(Run(events)) && GateOk(Run(events)) && ReadyOk(Run(events))
  {
    if events != [] {
      var s, e := Run(events[..|events| - 1]), events[|events| - 1];
      RunInv(events[..|events| - 1]);
      StepSerial(s, e);
      StepGate(s, e);
      StepReady(s, e);
      hide SerialOk, GateOk, ReadyOk, Step;
    }
  }

  /** At most one update is active, and while one holds its guard no handler holds the gate. */
  lemma Exclusion(events: seq<Event>, a: nat, b: nat)
    ensures var s := Run(events);
            && (Active(s, a) && Active(s, b) ==> a == b)
            && (Active(s, a) ==> forall p :: s.serial != Some(Privacy(p)))
            && (a in s.updates && s.updates[a].Holding? ==> s.readers == {})
  {
    RunInv(events);
    var s := Run(events);
    assert Active(s, a) <==> s.serial == Some(Update(a));
    assert Active(s, b) <==> s.serial == Some(Update(b));
    assert s.writer == Some(a) <==> HasGate(s, a);
    hide Run;
  }

  predicate Settles(endings: seq<Ending>, i: nat) {
    i < |endings| && endings[i] == Completed && forall j :: i < j < |endings| ==> endings[j] == Unchanged
  }

  /** The last ending that was not "unchanged" is a completion, or there is none. */
  ghost predicate LastDecisive(endings: seq<Ending>) {
    (forall e :: e in endings ==> e == Unchanged) || (exists i: nat :: Settles(endings, i))
  }

  lemma {:induction false} ExpectedDecides(endings: seq<Ending>)
    ensures Expected(endings) <==> LastDecisive(endings)
  {
    if endings != [] {
      var n: nat := |endings| - 1;
      var before := endings[..n];
      ExpectedDecides(before);
      assert endings == before + [endings[n]];
      hide LastDecisive;
      DecisiveSnoc(before, endings[n]);
    }
  }

  lemma DecisiveSnoc(before: seq<Ending>, e: Ending)
    ensures LastDecisive(before + [e]) <==> if e == Unchanged then LastDecisive(before) else e == Completed
  {
    var endings, n: nat := before + [e], |before|;
    forall i: nat | i < n ensures Settles(endings, i) <==> Settles(before, i) && e == Unchanged {
      assert forall j :: 0 <= j < n ==> before[j] == endings[j];
      assert endings[n] == e;
    }
    assert Settles(endings, n) <==> e == Completed;
    assert forall x :: x in endings <==> x in before || x == e;
    assert forall i: nat :: Settles(endings, i) ==> i < n || i == n;
    assert e in endings;
    if LastDecisive(before) && e == Unchanged && exists i: nat :: Settles(before, i) {
      var i: nat :| Settles(before, i);
      assert Settles(endings, i);
    }
    if e == Unchanged && exists i: nat :: Settles(endings, i) {
      var i: nat :| Settles(endings, i);
      assert Settles(before, i);
    }
    hide Settles;
  }

  /** With no update active, the server is ready exactly when the last ended update that did not end
      unchanged was completed, or no such update ended yet; outside calls are suspended otherwise. */
  lemma ReadyWhenCompleted(events: seq<Event>)
    requires forall id :: !Active(Run(events), id)
    ensures var s := Run(events); (s.ready <==> LastDecisive(s.endings)) && s.suspended == !s.ready
  {
    RunInv(events);
    ExpectedDecides(Run(events).endings);
    assert forall id :: Underway(Run(events), id) ==> Active(Run(events), id);
  }

  /** After an update was abandoned, or cancelled while it waited for the handlers, and until one is
      completed, the server is not ready, however many updates end unchanged. */
  lemma FailsClosed(events: seq<Event>, i: nat)
    requires var s := Run(events);
             i < |s.endings| && s.endings[i] in {Abandoned, Cancelled} && Completed !in s.endings[i..]
    ensures (forall id :: !Active(Run(events), id)) ==> !Run(events).ready
    ensures forall id :: Underway(Run(events), id) ==> !Run(events).ready && !Run(events).updates[id].wasReady
  {
    var s := Run(events);
    RunInv(events);
    ExpectedDecides(s.endings);
    assert forall k :: i <= k < |s.endings| ==> s.endings[k] == s.endings[i..][k - i] && s.endings[k] in s.endings[i..];
    assert s.endings[i] != Unchanged && s.endings[i] in s.endings;
    assert forall k: nat :: !Settles(s.endings, k);
    assert forall id :: Underway(s, id) ==> Active(s, id);
  }

  function Ended(s: State, e: Event): State
    requires e.Complete? || e.KeepUnchanged? || e.Abandon?
  {
    Step(Step(Step(s, e), LeaveGate(e.id)), LeaveSerial(e.id))
  }

  /** What the three ways to give up a guard come to, both releases included. */
  lemma EndedAs(s: State, e: Event)
    requires Inv(s) && (e.Complete? || e.KeepUnchanged? || e.Abandon?) && e.id in s.updates && s.updates[e.id].Holding?
    ensures !s.ready && s.suspended && Inv(Ended(s, e))
    ensures var up := e.Complete? || (e.KeepUnchanged? && s.updates[e.id].wasReady);
            var ending := if e.Complete? then Completed else if e.KeepUnchanged? then Unchanged else Abandoned;
            Ended(s, e) == State(up, !up, None, None, s.readers, s.updates - {e.id}, s.endings + [ending])
  {
    hide Inv, Step;
    NotReadyInside(s, e.id);
    StepInv(s, e);
    StepInv(Step(s, e), LeaveGate(e.id));
    StepInv(Step(Step(s, e), LeaveGate(e.id)), LeaveSerial(e.id));
    EndsAs(s, e);
  }

  lemma NotReadyInside(s: State, id: nat)
    requires Inv(s) && Underway(s, id)
    ensures !s.ready && s.suspended && s.serial == Some(Update(id))
  {
    hide Expected;
    assert Active(s, id);
  }

  lemma EndsAs(s: State, e: Event)
    requires (e.Complete? || e.KeepUnchanged? || e.Abandon?) && e.id in s.updates && s.updates[e.id].Holding?
    requires !s.ready && s.suspended
    ensures var up := e.Complete? || (e.KeepUnchanged? && s.updates[e.id].wasReady);
            var ending := if e.Complete? then Completed else if e.KeepUnchanged? then Unchanged else Abandoned;
            Ended(s, e) == State(up, !up, None, None, s.readers, s.updates - {e.id}, s.endings + [ending])
  {
    var a := Step(s, e);
    assert In(a, e.id, Leaving(true));
    var b := Step(a, LeaveGate(e.id));
    assert In(b, e.id, Leaving(false));
    assert b.updates - {e.id} == s.updates - {e.id};
  }

  // ---------------------------------------------------------------- who is inside, and that nobody waits for ever

  /** Event `i` let the handler in, and it has not left since. */
  ghost predicate InsideSince(events: seq<Event>, i: int, reader: nat) {
    && 0 <= i < |events| && events[i] == Read(reader) && Run(events[..i]).writer.None?
    && forall j :: i < j < |events| ==> events[j] != EndRead(reader)
  }

  /** In every run, the handlers inside are those that came while no guard was out and have not left. */
  lemma {:induction false} HandlersInside(events: seq<Event>, reader: nat)
    ensures reader in Run(events).readers <==> exists i :: InsideSince(events, i, reader)
  {
    hide Step;
    if events != [] {
      var n := |events| - 1;
      HandlersInside(events[..n], reader);
      ReadersAfter(Run(events[..n]), events[n], reader);
      assert forall i :: 0 <= i < n ==> events[..n][..i] == events[..i] && events[..n][i] == events[i];
      if events[n] == Read(reader) && Run(events[..n]).writer.None? {
        assert InsideSince(events, n, reader);
      } else if reader in Run(events).readers {
        var i :| InsideSince(events[..n], i, reader);
        assert InsideSince(events, i, reader);
      }
      if i :| InsideSince(events, i, reader) && i < n {
        assert InsideSince(events[..n], i, reader);
      }
    }
  }

  lemma ReadersAfter(s: State, e: Event, reader: nat)
    ensures reader in Step(s, e).readers <==>
            (e == Read(reader) && s.writer.None?) || (reader in s.readers && e != EndRead(reader))
  {
  }

  /** Event `i` gave the mutex to this privacy change, which has not given it back. */
  ghost predicate PrivacySince(events: seq<Event>, i: int, id: nat) {
    && 0 <= i < |events| && events[i] == LockPrivacy(id) && Run(events[..i]).serial.None?
    && forall j :: i < j < |events| ==> events[j] != UnlockPrivacy(id)
  }

  /** In every run, a privacy change holds the mutex exactly from the moment it was given to it, when it was
      free, to the moment it gives it back. */
  lemma {:induction false} PrivacyHolds(events: seq<Event>, id: nat)
    ensures Run(events).serial == Some(Privacy(id)) <==> exists i :: PrivacySince(events, i, id)
  {
    hide Step, Inv;
    if events != [] {
      var n := |events| - 1;
      PrivacyHolds(events[..n], id);
      RunInv(events[..n]);
      SerialAfter(Run(events[..n]), events[n], id);
      assert forall i :: 0 <= i < n ==> events[..n][..i] == events[..i] && events[..n][i] == events[i];
      if events[n] == LockPrivacy(id) && Run(events[..n]).serial.None? {
        assert PrivacySince(events, n, id);
      } else if Run(events).serial == Some(Privacy(id)) {
        var i :| PrivacySince(events[..n], i, id);
        assert PrivacySince(events, i, id);
      }
      if i :| PrivacySince(events, i, id) && i < n {
        assert PrivacySince(events[..n], i, id);
      }
    }
  }

  lemma SerialAfter(s: State, e: Event, id: nat)
    requires Inv(s)
    ensures Step(s, e).serial == Some(Privacy(id)) <==>
            (e == LockPrivacy(id) && s.serial.None?) || (s.serial == Some(Privacy(id)) && e != UnlockPrivacy(id))
  {
    if e.LeaveSerial? {
      assert Active(s, e.id) <==> s.serial == Some(Update(e.id));
    }
  }

  function Onward(s: State, events: seq<Event>): State
    decreases |events|
  {
    if events == [] then s else Onward(Step(s, events[0]), events[1..])
  }

  lemma {:induction false} OnwardAppend(s: State, a: seq<Event>, b: seq<Event>)
    ensures Onward(s, a + b) == Onward(Onward(s, a), b)
    decreases |a|
  {
    hide Step;
    if a == [] {
      assert a + b == b;
    } else {
      assert (a + b)[1..] == a[1..] + b;
      OnwardAppend(Step(s, a[0]), a[1..], b);
    }
  }

  /** The rest of the life of the update that holds the mutex, if it gives up as soon as it can. */
  function GiveUp(phase: Phase, id: nat): seq<Event> {
    match phase
    case Queued => []
    case Locked => [Suspend(id), Cancel(id), LeaveSerial(id)]
    case Draining(_) => [Cancel(id), LeaveSerial(id)]
    case Holding(_) => [Abandon(id), LeaveGate(id), LeaveSerial(id)]
    case Leaving(gate) => [LeaveGate(id), LeaveSerial(id)]
  }

  lemma GivenUp(s: State, a: nat)
    requires Active(s, a)
    ensures var s' := Onward(s, GiveUp(s.updates[a], a)); s'.serial == None && s'.updates == s.updates - {a}
  {
    hide Onward, Step;
    var phase := s.updates[a];
    if phase.Locked? {
      Three(s, Suspend(a), Cancel(a), LeaveSerial(a));
      Moves(s, a, Suspend(a));
      Moves(Step(s, Suspend(a)), a, Cancel(a));
      Leaves(Step(Step(s, Suspend(a)), Cancel(a)), a);
    } else if phase.Draining? {
      Two(s, Cancel(a), LeaveSerial(a));
      Moves(s, a, Cancel(a));
      Leaves(Step(s, Cancel(a)), a);
    } else if phase.Holding? {
      Three(s, Abandon(a), LeaveGate(a), LeaveSerial(a));
      Moves(s, a, Abandon(a));
      Moves(Step(s, Abandon(a)), a, LeaveGate(a));
      Leaves(Step(Step(s, Abandon(a)), LeaveGate(a)), a);
    } else {
      Two(s, LeaveGate(a), LeaveSerial(a));
      Moves(s, a, LeaveGate(a));
      Leaves(Step(s, LeaveGate(a)), a);
    }
  }

  /** The phase of an update after one of its own events; the other updates stay where they are. */
  lemma Moves(s: State, a: nat, e: Event)
    requires Active(s, a) && e in {Suspend(a), Cancel(a), Abandon(a), LeaveGate(a)}
    ensures var s' := Step(s, e);
            && Active(s', a) && s'.updates - {a} == s.updates - {a}
            && (s.updates[a].Locked? && e.Suspend? ==> s'.updates[a].Draining?)
            && (s.updates[a].Draining? && e.Cancel? ==> s'.updates[a] == Leaving(false))
            && (s.updates[a].Holding? && e.Abandon? ==> s'.updates[a] == Leaving(true))
            && (s.updates[a].Leaving? && e.LeaveGate? ==> s'.updates[a] == Leaving(false))
  {
    var s' := Step(s, e);
    assert s'.updates == s.updates || s'.updates == s.updates[a := s'.updates[a]];
  }

  lemma Leaves(s: State, a: nat)
    requires In(s, a, Leaving(false))
    ensures var s' := Step(s, LeaveSerial(a)); s'.serial == None && s'.updates == s.updates - {a}
  {
  }

  lemma Two(s: State, e: Event, f: Event)
    ensures Onward(s, [e, f]) == Step(Step(s, e), f)
  {
    hide Step;
    assert [e, f][1..] == [f] && [f][1..] == [];
    assert Onward(Step(s, e), [f]) == Step(Step(s, e), f);
  }

  lemma Three(s: State, e: Event, f: Event, g: Event)
    ensures Onward(s, [e, f, g]) == Step(Step(Step(s, e), f), g)
  {
    hide Step;
    assert [e, f, g][1..] == [f, g];
    Two(Step(s, e), f, g);
  }

  lemma {:induction false} OnwardInv(s: State, events: seq<Event>)
    requires Inv(s)
    ensures Inv(Onward(s, events))
    decreases |events|
  {
    hide Inv, Step;
    if events != [] {
      StepInv(s, events[0]);
      OnwardInv(Step(s, events[0]), events[1..]);
    }
  }

  /** Whoever holds the mutex can give it up. */
  lemma CanVacate(s: State, id: nat) returns (events: seq<Event>)
    requires Inv(s) && In(s, id, Queued)
    ensures var s' := Onward(s, events); s'.serial == None && s'.writer == None && In(s', id, Queued)
  {
    hide Expected, Onward;
    match s.serial
    case None =>
      events := [];
      One(s, UnlockPrivacy(0));
      NoMutexNoGate(s);
    case Some(Update(a)) =>
      events := GiveUp(s.updates[a], a);
      assert Active(s, a);
      GivenUp(s, a);
      OnwardInv(s, events);
      NoMutexNoGate(Onward(s, events));
    case Some(Privacy(p)) =>
      events := [UnlockPrivacy(p)];
      OnwardInv(s, events);
      One(s, UnlockPrivacy(p));
      NoMutexNoGate(Onward(s, events));
  }

  lemma One(s: State, e: Event)
    ensures Onward(s, []) == s && Onward(s, [e]) == Step(s, e)
  {
    hide Step;
    assert [e][1..] == [];
  }

  lemma NoMutexNoGate(s: State)
    requires Inv(s) && s.serial == None
    ensures s.writer == None
  {
    assert forall id: nat :: s.writer == Some(id) ==> HasGate(s, id) && Active(s, id);
  }

  /** The handlers inside can leave. */
  lemma {:induction false} CanDrain(s: State) returns (events: seq<Event>)
    ensures Onward(s, events) == s.(readers := {})
    decreases s.readers
  {
    events := [];
    if s.readers != {} {
      var r := Member(s.readers);
      var rest := CanDrain(s.(readers := s.readers - {r}));
      events := [EndRead(r)] + rest;
    }
  }

  /** In every run, an update that was asked for can still be let in: those before it can end and the
      handlers inside can leave, and then nothing keeps it out. */
  lemma EveryUpdateCanEnter(events: seq<Event>, id: nat) returns (more: seq<Event>)
    requires In(Run(events), id, Queued)
    ensures var s := Onward(Run(events), more);
            && id in s.updates && s.updates[id].Holding? && s.writer == Some(id) && s.serial == Some(Update(id))
  {
    RunInv(events);
    hide Run;
    var vacate := CanVacate(Run(events), id);
    var s1 := Onward(Run(events), vacate);
    var drain := CanDrain(s1);
    var s2 := Onward(s1, drain);
    var enter := [Lock(id), Suspend(id), Enter(id)];
    Three(s2, Lock(id), Suspend(id), Enter(id));
    hide Onward;
    OnwardAppend(Run(events), vacate, drain);
    OnwardAppend(Run(events), vacate + drain, enter);
    more := vacate + drain + enter;
  }

  /** An update is asked for once, and one that still waits for the mutex can go away. */
  lemma AskAndCancel(s: State, id: nat)
    ensures id !in s.updates ==> Step(s, Ask(id)).updates == s.updates[id := Queued]
    ensures In(s, id, Queued) ==> Step(s, Cancel(id)).updates == s.updates - {id}
    ensures id in s.updates ==> Step(s, Ask(id)) == s
  {
  }

  // ---------------------------------------------------------------- the gate as it runs

  /** `phases` stands for the guards that callers hold. */
  class Gate {
    var ready: bool
    var suspended: bool
    var serial: Option<Holder>
    var writer: Option<nat>
    var readers: set<nat>
    var phases: map<nat, Phase>
    ghost var endings: seq<Ending>

    ghost function View(): State
      reads this
    {
      State(ready, suspended, serial, writer, readers, phases, endings)
    }

    /** The locks agree with the guards that are out, and readiness with the endings. */
    ghost predicate Valid()
      reads this
    {
      Inv(View())
    }

    constructor ()
      ensures Valid() && View() == START
    {
      ready, suspended, serial, writer, readers, phases, endings := true, false, None, None, {}, map[], [];
    }

    /** `begin_runtime_update` up to its second wait, once it is the mutex's turn. */
    method Begin(id: nat)
      requires Valid() && id in phases && phases[id] == Queued && serial.None?
      modifies this
      ensures Valid() && View() == Step(Step(old(View()), Lock(id)), Suspend(id))
      ensures serial == Some(Update(id)) && suspended && !ready && phases[id] == Draining(old(ready))
      ensures writer == old(writer) && readers == old(readers) && endings == old(endings) && phases.Keys == old(phases.Keys)
    {
      hide Inv, Expected;
      ghost var after := Step(Step(View(), Lock(id)), Suspend(id));
      StepInv(View(), Lock(id));
      StepInv(Step(View(), Lock(id)), Suspend(id));
      serial := Some(Update(id));
      var wasReady := ready;
      suspended := true;
      ready := false;
      phases := phases[id := Draining(wasReady)];
      assert View() == after;
    }

    /** The end of `begin_runtime_update`, once the handlers have drained. */
    method Acquire(id: nat)
      requires Valid() && id in phases && phases[id].Draining? && readers == {} && writer.None?
      modifies this
      ensures Valid() && View() == Step(old(View()), Enter(id))
      ensures writer == Some(id) && serial == Some(Update(id)) && readers == {} && !ready && suspended
    {
      NotReadyInside(View(), id);
      hide Inv, Expected;
      ghost var after := Step(View(), Enter(id));
      StepInv(View(), Enter(id));
      writer := Some(id);
      phases := phases[id := Holding(phases[id].wasReady)];
      assert View() == after;
    }

    method Resume()
      modifies this`ready, this`suspended
      ensures ready && !suspended
    {
      suspended := false;
      ready := true;
    }

    /** `complete`, and the drop of the two locks at its end. */
    method Complete(id: nat)
      requires Valid() && id in phases && phases[id].Holding?
      modifies this
      ensures Valid() && View() == Ended(old(View()), Event.Complete(id))
      ensures ready && !suspended
      ensures serial == None && writer == None && id !in phases
    {
      hide Inv, Step;
      EndedAs(View(), Event.Complete(id));
      Resume();
      endings := endings + [Completed];
      Release(id);
    }

    /** `unchanged`: a completion if the server was ready when the update began. */
    method Unchanged(id: nat)
      requires Valid() && id in phases && phases[id].Holding?
      modifies this
      ensures Valid() && View() == Ended(old(View()), KeepUnchanged(id))
      ensures ready == old(phases[id].wasReady) && suspended == !ready
      ensures serial == None && writer == None && id !in phases
    {
      hide Inv, Step;
      EndedAs(View(), KeepUnchanged(id));
      if phases[id].wasReady {
        Resume();
      }
      endings := endings + [Ending.Unchanged];
      Release(id);
    }

    /** A guard that is dropped without either. */
    method Drop(id: nat)
      requires Valid() && id in phases && phases[id].Holding?
      modifies this
      ensures Valid() && View() == Ended(old(View()), Abandon(id))
      ensures !ready && suspended
      ensures serial == None && writer == None && id !in phases
    {
      hide Inv, Step;
      EndedAs(View(), Abandon(id));
      endings := endings + [Abandoned];
      Release(id);
    }

    /** An update that is cancelled while it waits for the handlers: only the mutex is dropped. */
    method CancelDraining(id: nat)
      requires Valid() && id in phases && phases[id].Draining?
      modifies this
      ensures Valid() && View() == Step(Step(old(View()), Cancel(id)), LeaveSerial(id))
      ensures !ready && suspended && serial == None && writer == old(writer) && id !in phases
    {
      NotReadyInside(View(), id);
      hide Inv, Expected;
      ghost var after := Step(Step(View(), Cancel(id)), LeaveSerial(id));
      StepInv(View(), Cancel(id));
      StepInv(Step(View(), Cancel(id)), LeaveSerial(id));
      endings := endings + [Cancelled];
      serial := None;
      phases := phases - {id};
      assert View() == after;
    }

    method Release(id: nat)
      requires id in phases
      modifies this`writer, this`serial, this`phases
      ensures writer == None && serial == None && phases == old(phases) - {id}
    {
      writer := None;
      serial := None;
      phases := phases - {id};
    }
  }
}
