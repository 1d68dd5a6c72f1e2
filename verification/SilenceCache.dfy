/** Cached silence analyses and the content revisions that guard them.  Analyses are slow, and looking
    one up takes two queries; between any two steps the content of the track may be seen to change. */
module SilenceCache {
  import opened Prelude

  type Track = string

  datatype SourceRef = SourceRef(connection: string, item: string)

  datatype Source = Source(track: Track, fingerprint: Option<string>, path: Option<string>)

  datatype Hint = Hint(fingerprint: Option<string>, path: Option<string>)

  datatype Parameters = Parameters(threshold: real, minimum: real)

  /** A fresh random token, named here by the moment it was made; the empty token of a track that
      does not exist is `None`. */
  type Revision = Option<nat>

  /** A stored profile; `begun` remembers when its analysis read the revision. */
  datatype Profile = Profile(revision: Revision, begun: nat)

  datatype Analysis = Analysis(track: Track, parameters: Parameters, revision: Revision, begun: nat)

  datatype Lookup = Lookup(track: Track, parameters: Parameters, revision: Revision, readAt: nat)

  datatype Answer = Answer(lookup: Lookup, profile: Profile, at: nat)

  /** `changes` remembers when a change of content was observed, and for which track. */
  datatype State = State(clock: nat, items: map<Track, nat>, sources: map<SourceRef, Source>,
                         profiles: map<(Track, Parameters), Profile>, changes: set<(Track, nat)>,
                         analyses: map<nat, Analysis>, lookups: map<nat, Lookup>, answers: seq<Answer>)

  datatype Event =
    | Create(track: Track, source: SourceRef)
    | Observe(source: SourceRef, hint: Hint)
    | Invalidate(connection: string)
    | Delete(track: Track)
    | BeginAnalysis(id: nat, track: Track, parameters: Parameters)
    | Persist(id: nat)
    | BeginLookup(id: nat, track: Track, parameters: Parameters)
    | FinishLookup(id: nat)

  function RevisionOf(s: State, track: Track): Revision {
    if track in s.items then Some(s.items[track]) else None
  }

  /** A fingerprint is given and differs from the stored one, or a path is given and differs from a
      stored one. */
  predicate Differs(source: Source, hint: Hint) {
    || (hint.fingerprint.Some? && source.fingerprint != hint.fingerprint)
    || (hint.path.Some? && source.path.Some? && source.path != hint.path)
  }

  function Coalesce<T>(a: Option<T>, b: Option<T>): Option<T> {
    if a.Some? then a else b
  }

  /** New revisions for the tracks, and their profiles gone, in one transaction. */
  function Rotate(s: State, tracks: set<Track>): State {
    s.(items := map t | t in s.items :: if t in tracks then s.clock else s.items[t],
       profiles := map k | k in s.profiles && k.0 !in tracks :: s.profiles[k],
       changes := s.changes + set t | t in tracks :: (t, s.clock))
  }

  function ObserveStep(s: State, source: SourceRef, hint: Hint): State {
    if source !in s.sources then s
    else
      var row := s.sources[source];
      var s' := if Differs(row, hint) then Rotate(s, {row.track}) else s;
      s'.(sources := s'.sources[source := Source(row.track, Coalesce(hint.fingerprint, row.fingerprint), Coalesce(hint.path, row.path))])
  }

  function TracksOf(s: State, connection: string): set<Track> {
    set r | r in s.sources && r.connection == connection :: s.sources[r].track
  }

  /** Every step takes place at a moment of its own. */
  function Step(before: State, e: Event): State {
    var s := before.(clock := before.clock + 1);
    match e
    case Create(track, source) =>
      if track in s.items || source in s.sources then s
      else s.(items := s.items[track := s.clock], sources := s.sources[source := Source(track, None, None)])
    case Observe(source, hint) => ObserveStep(s, source, hint)
    case Invalidate(connection) => Rotate(s, TracksOf(s, connection))
    case Delete(track) =>
      s.(items := s.items - {track}, sources := map r | r in s.sources && s.sources[r].track != track :: s.sources[r])
    case BeginAnalysis(id, track, parameters) =>
      s.(analyses := s.analyses[id := Analysis(track, parameters, RevisionOf(s, track), s.clock)])
    case Persist(id) =>
      if id !in s.analyses then s
      else
        var a := s.analyses[id];
        s.(profiles := s.profiles[(a.track, a.parameters) := Profile(a.revision, a.begun)], analyses := s.analyses - {id})
    case BeginLookup(id, track, parameters) =>
      s.(lookups := s.lookups[id := Lookup(track, parameters, RevisionOf(s, track), s.clock)])
    case FinishLookup(id) =>
      if id !in s.lookups then s
      else
        var l := s.lookups[id];
        var s' := s.(lookups := s.lookups - {id});
        if (l.track, l.parameters) in s.profiles && s.profiles[(l.track, l.parameters)].revision == l.revision
        then s'.(answers := s.answers + [Answer(l, s.profiles[(l.track, l.parameters)], s.clock)])
        else s'
  }

  const START: State := State(0, map[], map[], map[], {}, map[], map[], [])

  function Run(events: seq<Event>): State {
    if events == [] then START else Step(Run(events[..|events| - 1]), events[|events| - 1])
  }

  // ---------------------------------------------------------------- what every run keeps

  /** No change of the track was observed after `from` and up to `to`. */
  ghost predicate Quiet(changes: set<(Track, nat)>, track: Track, from: nat, to: nat) {
    forall c :: c in changes && c.0 == track ==> c.1 <= from || c.1 > to
  }

  /** A revision read at `at` was made before, and nothing has been observed in between. */
  ghost predicate ReadOk(changes: set<(Track, nat)>, clock: nat, track: Track, revision: Revision, at: nat) {
    at <= clock && (revision.Some? ==> revision.value <= at && Quiet(changes, track, revision.value, at))
  }

  ghost predicate AnswerOk(changes: set<(Track, nat)>, clock: nat, a: Answer) {
    && ReadOk(changes, clock, a.lookup.track, a.lookup.revision, a.lookup.readAt)
    && ReadOk(changes, clock, a.lookup.track, a.profile.revision, a.profile.begun)
    && a.profile.revision == a.lookup.revision && a.lookup.readAt < a.at <= clock
  }

  ghost predicate ItemsOk(s: State) {
    && (forall c :: c in s.changes ==> c.1 <= s.clock)
    && (forall t :: t in s.items ==> ReadOk(s.changes, s.clock, t, Some(s.items[t]), s.clock))
  }

  ghost predicate ProfilesOk(s: State) {
    forall k :: k in s.profiles ==> ReadOk(s.changes, s.clock, k.0, s.profiles[k].revision, s.profiles[k].begun)
  }

  ghost predicate AnalysesOk(s: State) {
    forall i :: i in s.analyses ==> ReadOk(s.changes, s.clock, s.analyses[i].track, s.analyses[i].revision, s.analyses[i].begun)
  }

  ghost predicate LookupsOk(s: State) {
    forall i :: i in s.lookups ==> ReadOk(s.changes, s.clock, s.lookups[i].track, s.lookups[i].revision, s.lookups[i].readAt)
  }

  ghost predicate AnswersOk(s: State) {
    forall i :: 0 <= i < |s.answers| ==> AnswerOk(s.changes, s.clock, s.answers[i])
  }

  /** Sources go with their item. */
  ghost predicate SourcesOk(s: State) {
    forall r :: r in s.sources ==> s.sources[r].track in s.items
  }

  ghost predicate Inv(s: State) {
    SourcesOk(s) && ItemsOk(s) && ProfilesOk(s) && AnalysesOk(s) && LookupsOk(s) && AnswersOk(s)
  }

  /** Later changes do not disturb what was read before. */
  lemma ReadLater(changes: set<(Track, nat)>, more: set<(Track, nat)>, clock: nat, track: Track, revision: Revision, at: nat)
    requires ReadOk(changes, clock, track, revision, at) && changes <= more && forall c :: c in more && c !in changes ==> c.1 > clock
    ensures ReadOk(more, clock + 1, track, revision, at)
  {
  }

  /** What was read before stays right. */
  ghost predicate Carries(s: State, s': State) {
    forall t, r, at :: ReadOk(s.changes, s.clock, t, r, at) ==> ReadOk(s'.changes, s'.clock, t, r, at)
  }

  lemma StepItems(s: State, e: Event)
    requires ItemsOk(s)
    ensures Carries(s, Step(s, e)) && ItemsOk(Step(s, e))
  {
    var s' := Step(s, e);
    assert s.changes <= s'.changes && forall c :: c in s'.changes && c !in s.changes ==> c.1 > s.clock;
    forall t, r, at | ReadOk(s.changes, s.clock, t, r, at) ensures ReadOk(s'.changes, s'.clock, t, r, at) {
      ReadLater(s.changes, s'.changes, s.clock, t, r, at);
    }
    forall t | t in s'.items ensures ReadOk(s'.changes, s'.clock, t, Some(s'.items[t]), s'.clock) {
      if t in s.items {
        assert ReadOk(s.changes, s.clock, t, Some(s.items[t]), s.clock);
      }
    }
  }

  lemma StepSources(s: State, e: Event)
    requires SourcesOk(s)
    ensures SourcesOk(Step(s, e))
  {
  }

  lemma StepProfiles(s: State, e: Event)
    requires Inv(s) && Carries(s, Step(s, e))
    ensures ProfilesOk(Step(s, e))
  {
    hide ReadOk, AnswersOk, LookupsOk, ItemsOk;
  }

  /** A revision read now is right now. */
  lemma ReadNow(s: State, e: Event, track: Track)
    requires ItemsOk(Step(s, e)) && (e.BeginAnalysis? || e.BeginLookup?)
    ensures var s' := Step(s, e); ReadOk(s'.changes, s'.clock, track, RevisionOf(s', track), s'.clock)
  {
  }

  lemma StepReaders(s: State, e: Event)
    requires Inv(s) && Carries(s, Step(s, e)) && ItemsOk(Step(s, e))
    ensures AnalysesOk(Step(s, e)) && LookupsOk(Step(s, e))
  {
    if e.BeginAnalysis? || e.BeginLookup? {
      ReadNow(s, e, e.track);
    }
    hide ReadOk, AnswersOk, ProfilesOk, ItemsOk;
  }

  lemma StepAnswers(s: State, e: Event)
    requires Inv(s) && Carries(s, Step(s, e))
    ensures AnswersOk(Step(s, e))
  {
    var s' := Step(s, e);
    forall i | 0 <= i < |s.answers| ensures AnswerOk(s'.changes, s'.clock, s.answers[i]) {
      assert AnswerOk(s.changes, s.clock, s.answers[i]);
    }
    if e.FinishLookup? && e.id in s.lookups {
      LookedUpBefore(s, e.id);
    }
    hide ReadOk, AnalysesOk, ItemsOk;
  }

  lemma LookedUpBefore(s: State, id: nat)
    requires LookupsOk(s) && id in s.lookups
    ensures s.lookups[id].readAt <= s.clock
  {
    assert ReadOk(s.changes, s.clock, s.lookups[id].track, s.lookups[id].revision, s.lookups[id].readAt);
  }

  lemma StepInv(s: State, e: Event)
    requires Inv(s)
    ensures Inv(Step(s, e))
  {
    hide Step, SourcesOk, ItemsOk, ProfilesOk, AnalysesOk, LookupsOk, AnswersOk, Carries;
    StepSources(s, e);
    StepItems(s, e);
    StepProfiles(s, e);
    StepReaders(s, e);
    StepAnswers(s, e);
  }

  lemma {:induction false} RunInv(events: seq<Event>)
    ensures Inv(Run(events))
  {
    hide Inv, Step;
    if events == [] {
      StartInv();
    } else {
      RunInv(events[..|events| - 1]);
      StepInv(Run(events[..|events| - 1]), events[|events| - 1]);
    }
  }

  lemma StartInv()
    ensures Inv(START)
  {
  }

  /** In every interleaving, a profile that is returned for a track that exists was begun after every
      change of content observed before the lookup read the revision. */
  lemma NoStaleProfile(events: seq<Event>, i: nat)
    requires i < |Run(events).answers| && Run(events).answers[i].lookup.revision.Some?
    ensures var a := Run(events).answers[i]; Quiet(Run(events).changes, a.lookup.track, a.profile.begun, a.lookup.readAt)
  {
    RunInv(events);
    assert AnswerOk(Run(events).changes, Run(events).clock, Run(events).answers[i]);
  }

  /** It is fresh at the moment it is returned exactly when nothing was observed between the lookup's
      two queries. */
  lemma FreshAtReturn(events: seq<Event>, i: nat)
    requires i < |Run(events).answers| && Run(events).answers[i].lookup.revision.Some?
    ensures var s, a := Run(events), Run(events).answers[i];
            Quiet(s.changes, a.lookup.track, a.profile.begun, a.at) <==> Quiet(s.changes, a.lookup.track, a.lookup.readAt, a.at)
  {
    RunInv(events);
    assert AnswerOk(Run(events).changes, Run(events).clock, Run(events).answers[i]);
  }

  /** An analysis that persists late puts back a profile that the change had deleted, and a lookup that
      had read the old revision returns it. */
  lemma StaleAtReturn(track: Track, source: SourceRef, p: Parameters)
    ensures var s := Run([Create(track, source), BeginAnalysis(0, track, p), BeginLookup(0, track, p),
                          Invalidate(source.connection), Persist(0), FinishLookup(0)]);
            |s.answers| == 1 && s.answers[0].lookup.track == track && s.answers[0].profile.begun == 2 && s.answers[0].at == 6
            && (track, 4) in s.changes
  {
    var events := [Create(track, source), BeginAnalysis(0, track, p), BeginLookup(0, track, p),
                   Invalidate(source.connection), Persist(0), FinishLookup(0)];
    var sources := map[source := Source(track, None, None)];
    var analyses, lookups := map[0 := Analysis(track, p, Some(1), 2)], map[0 := Lookup(track, p, Some(1), 3)];
    var s1 := State(1, map[track := 1], sources, map[], {}, map[], map[], []);
    var s2 := s1.(clock := 2, analyses := analyses);
    var s3 := s2.(clock := 3, lookups := lookups);
    var s4 := s3.(clock := 4, items := map[track := 4], changes := {(track, 4)});
    var s5 := s4.(clock := 5, analyses := map[], profiles := map[(track, p) := Profile(Some(1), 2)]);
    var s6 := s5.(clock := 6, lookups := map[], answers := [Answer(lookups[0], Profile(Some(1), 2), 6)]);
    FirstSteps(s1, s2, track, source, p);
    assert Step(s2, events[2]) == s3;
    InvalidateOne(s3, track, source);
    LastSteps(s4, s5, track, p);
    hide Step;
    RunSteps(events, [START, s1, s2, s3, s4, s5, s6]);
  }

  lemma FirstSteps(s1: State, s2: State, track: Track, source: SourceRef, p: Parameters)
    requires s1 == State(1, map[track := 1], map[source := Source(track, None, None)], map[], {}, map[], map[], [])
    requires s2 == s1.(clock := 2, analyses := map[0 := Analysis(track, p, Some(1), 2)])
    ensures Step(START, Create(track, source)) == s1 && Step(s1, BeginAnalysis(0, track, p)) == s2
  {
  }

  lemma LastSteps(s4: State, s5: State, track: Track, p: Parameters)
    requires s4.clock == 4 && s4.profiles == map[] && s4.answers == []
    requires s4.analyses == map[0 := Analysis(track, p, Some(1), 2)] && s4.lookups == map[0 := Lookup(track, p, Some(1), 3)]
    requires s5 == s4.(clock := 5, analyses := map[], profiles := map[(track, p) := Profile(Some(1), 2)])
    ensures Step(s4, Persist(0)) == s5
    ensures Step(s5, FinishLookup(0)) ==
            s5.(clock := 6, lookups := map[], answers := [Answer(s4.lookups[0], Profile(Some(1), 2), 6)])
  {
  }

  lemma InvalidateOne(s: State, track: Track, source: SourceRef)
    requires s.sources == map[source := Source(track, None, None)] && s.items.Keys == {track}
    requires s.profiles == map[] && s.changes == {}
    ensures Step(s, Invalidate(source.connection)) ==
            s.(clock := s.clock + 1, items := map[track := s.clock + 1], changes := {(track, s.clock + 1)})
  {
    var now := s.(clock := s.clock + 1);
    assert source in s.sources;
    assert TracksOf(now, source.connection) == {track};
    assert (set t | t in {track} :: (t, now.clock)) == {(track, now.clock)};
    assert (map t | t in s.items :: if t in {track} then now.clock else s.items[t]) == map[track := now.clock];
  }

  lemma {:induction false} RunSteps(events: seq<Event>, states: seq<State>)
    requires |states| == |events| + 1 && states[0] == START
    requires forall i :: 0 <= i < |events| ==> states[i + 1] == Step(states[i], events[i])
    ensures Run(events) == states[|events|]
  {
    hide Step;
    if events != [] {
      var n := |events| - 1;
      RunSteps(events[..n], states[..n + 1]);
      assert states[n + 1] == Step(states[n], events[n]);
    }
  }

  /** Observing the same hint again changes nothing: a rescan that finds what it found before keeps every
      revision and every profile. */
  lemma RescanKeepsProfiles(s: State, source: SourceRef, hint: Hint)
    ensures var once := ObserveStep(s, source, hint);
            ObserveStep(once, source, hint) == once
  {
  }

  // ---------------------------------------------------------------- what an observation changes

  /** The hint has a fingerprint, and it is not the one on record. */
  ghost predicate OtherFingerprint(row: Source, hint: Hint) {
    exists f :: hint.fingerprint == Some(f) && row.fingerprint != Some(f)
  }

  /** The hint has a path and another one is on record. */
  ghost predicate OtherPath(row: Source, hint: Hint) {
    exists p, q :: hint.path == Some(p) && row.path == Some(q) && p != q
  }

  /** The track gets a revision made in this step and loses its profiles; no other track is affected. */
  ghost predicate Renewed(s: State, s': State, tracks: set<Track>) {
    && s.clock < s'.clock && s'.items.Keys == s.items.Keys
    && (forall t :: t in s.items ==> s'.items[t] == if t in tracks then s'.clock else s.items[t])
    && (forall k :: k in s'.profiles <==> k in s.profiles && k.0 !in tracks)
    && (forall k :: k in s'.profiles ==> s'.profiles[k] == s.profiles[k])
  }

  /** A hint that tells of another fingerprint or of a path other than a known one renews the track of
      the source; any other hint, or one for a source that is not known, renews nothing. */
  lemma ObservedChange(s: State, source: SourceRef, hint: Hint)
    ensures Renewed(s, Step(s, Observe(source, hint)),
                    if source in s.sources && (OtherFingerprint(s.sources[source], hint) || OtherPath(s.sources[source], hint))
                    then {s.sources[source].track} else {})
  {
  }

  /** What a hint has to say replaces what is on record, and what it leaves out stays. */
  lemma ObservedContent(s: State, source: SourceRef, hint: Hint)
    ensures var sources := Step(s, Observe(source, hint)).sources;
            && sources.Keys == s.sources.Keys
            && (forall r :: r in s.sources && r != source ==> sources[r] == s.sources[r])
            && (source in s.sources ==>
                  && sources[source].track == s.sources[source].track
                  && (hint.fingerprint.Some? ==> sources[source].fingerprint == hint.fingerprint)
                  && (hint.fingerprint.None? ==> sources[source].fingerprint == s.sources[source].fingerprint)
                  && (hint.path.Some? ==> sources[source].path == hint.path)
                  && (hint.path.None? ==> sources[source].path == s.sources[source].path))
  {
  }

  /** The track has a source on the connection. */
  ghost predicate OnConnection(s: State, connection: string, track: Track) {
    exists r :: r in s.sources && r.connection == connection && s.sources[r].track == track
  }

  /** Invalidating a connection renews exactly the tracks that have a source there. */
  lemma InvalidatedTracks(s: State, connection: string)
    ensures var s' := Step(s, Invalidate(connection));
            && s'.sources == s.sources
            && (forall t :: t in s.items ==> s'.items[t] == if OnConnection(s, connection, t) then s.clock + 1 else s.items[t])
            && (forall k :: k in s'.profiles <==> k in s.profiles && !OnConnection(s, connection, k.0))
            && (forall k :: k in s'.profiles ==> s'.profiles[k] == s.profiles[k])
  {
    var now := s.(clock := s.clock + 1);
    assert forall t :: t in TracksOf(now, connection) <==> OnConnection(s, connection, t);
  }

  /** The event changes the content of the track. */
  ghost predicate ChangesTrack(s: State, e: Event, track: Track) {
    match e
    case Observe(source, hint) =>
      source in s.sources && s.sources[source].track == track
      && (OtherFingerprint(s.sources[source], hint) || OtherPath(s.sources[source], hint))
    case Invalidate(connection) => OnConnection(s, connection, track)
    case _ => false
  }

  /** The changes that the other results speak of are those of the events: a change of the track at a
      moment is on record exactly when the event of that moment changed the track. */
  lemma {:induction false} ChangesAreObserved(events: seq<Event>, track: Track, at: nat)
    ensures Run(events).clock == |events|
    ensures (track, at) in Run(events).changes <==>
            0 < at <= |events| && ChangesTrack(Run(events[..at - 1]), events[at - 1], track)
  {
    hide ChangesTrack, Step;
    if events != [] {
      var n := |events| - 1;
      var before := Run(events[..n]);
      ChangesAreObserved(events[..n], track, at);
      ChangeIsRecorded(before, events[n], track, at);
      if 0 < at <= n {
        assert events[..n][..at - 1] == events[..at - 1];
      }
    }
  }

  lemma ChangeIsRecorded(s: State, e: Event, track: Track, at: nat)
    ensures Step(s, e).clock == s.clock + 1
    ensures (track, at) in Step(s, e).changes <==> (track, at) in s.changes || (at == s.clock + 1 && ChangesTrack(s, e, track))
  {
    if e.Invalidate? {
      assert forall t :: t in TracksOf(s.(clock := s.clock + 1), e.connection) <==> OnConnection(s, e.connection, t);
    }
  }

  // ---------------------------------------------------------------- profiles that are served

  /** A profile of the revision that the track has now. */
  ghost predicate Current(s: State, track: Track, p: Parameters, profile: Profile) {
    track in s.items && (track, p) in s.profiles && s.profiles[(track, p)] == profile && profile.revision == Some(s.items[track])
  }

  /** A current profile stays current until its track is changed or deleted or another analysis with the
      same parameters is put in its place. */
  lemma CurrentStays(s: State, e: Event, track: Track, p: Parameters, profile: Profile)
    requires Inv(s) && Current(s, track, p, profile)
    ensures Current(Step(s, e), track, p, profile) <==>
            && !ChangesTrack(s, e, track) && e != Delete(track)
            && !(e.Persist? && e.id in s.analyses && s.analyses[e.id].track == track && s.analyses[e.id].parameters == p
                 && Profile(s.analyses[e.id].revision, s.analyses[e.id].begun) != profile)
  {
    if e.Invalidate? {
      assert forall t :: t in TracksOf(s.(clock := s.clock + 1), e.connection) <==> OnConnection(s, e.connection, t);
    }
    assert ReadOk(s.changes, s.clock, track, Some(s.items[track]), s.clock);
    hide ReadOk, AnswersOk, LookupsOk, AnalysesOk, ProfilesOk;
  }

  /** An analysis of a track that exists and has not changed since it began leaves a current profile. */
  lemma PersistedIsCurrent(s: State, id: nat)
    requires id in s.analyses && s.analyses[id].track in s.items
    ensures var a, s' := s.analyses[id], Step(s, Persist(id));
            && id !in s'.analyses && (forall k :: k in s.profiles && k != (a.track, a.parameters) ==> k in s'.profiles && s'.profiles[k] == s.profiles[k])
            && (Current(s', a.track, a.parameters, Profile(a.revision, a.begun)) <==> a.revision == Some(s.items[a.track]))
  {
  }

  /** A lookup returns the current profile if there is one.  Whatever happens between its two queries, it
      returns a profile exactly when one is stored whose revision is that of its first query. */
  lemma LookupReturns(s: State, id: nat)
    requires id in s.lookups
    ensures var l, s' := s.lookups[id], Step(s, FinishLookup(id));
            && id !in s'.lookups && s'.profiles == s.profiles && s'.items == s.items
            && (s'.answers == s.answers <==> !exists p :: p in s.profiles.Items && p.0 == (l.track, l.parameters) && p.1.revision == l.revision)
            && (forall profile :: Current(s, l.track, l.parameters, profile) && l.revision == RevisionOf(s, l.track) ==>
                  s'.answers == s.answers + [Answer(l, profile, s'.clock)])
  {
    var l := s.lookups[id];
    if (l.track, l.parameters) in s.profiles {
      assert ((l.track, l.parameters), s.profiles[(l.track, l.parameters)]) in s.profiles.Items;
    }
  }

  /** An analysis that nothing interrupts leaves a current profile, begun when it read the revision. */
  lemma AnalysedIsCurrent(s: State, id: nat, track: Track, p: Parameters)
    requires track in s.items
    ensures var begun := Step(s, BeginAnalysis(id, track, p));
            && begun.items == s.items && begun.profiles == s.profiles
            && Current(Step(begun, Persist(id)), track, p, Profile(RevisionOf(s, track), begun.clock))
  {
  }

  /** A lookup that nothing interrupts returns the current profile. */
  lemma CurrentIsServed(s: State, id: nat, track: Track, p: Parameters, profile: Profile)
    requires Current(s, track, p, profile)
    ensures var asked := Step(s, BeginLookup(id, track, p));
            && asked.answers == s.answers && Current(asked, track, p, profile)
            && Step(asked, FinishLookup(id)).answers
               == s.answers + [Answer(Lookup(track, p, RevisionOf(s, track), asked.clock), profile, asked.clock + 1)]
  {
  }

  lemma ObserveKeepsSource(s: State, source: SourceRef, hint: Hint)
    requires source in s.sources
    ensures source in Step(s, Observe(source, hint)).sources
    ensures Step(s, Observe(source, hint)).sources[source].track == s.sources[source].track
  {
  }

  lemma SourceHasItem(s: State, source: SourceRef)
    requires Inv(s) && source in s.sources
    ensures s.sources[source].track in s.items
  {
  }

  // ---------------------------------------------------------------- the library and the cache as they run

  class Library {
    /** Stands for the generator of fresh tokens. */
    var clock: nat
    var items: map<Track, nat>
    var sources: map<SourceRef, Source>
    var profiles: map<(Track, Parameters), Profile>
    ghost var changes: set<(Track, nat)>
    /** The analyses and lookups that are between their two steps, and what was returned. */
    var analyses: map<nat, Analysis>
    var lookups: map<nat, Lookup>
    ghost var answers: seq<Answer>

    ghost function View(): State
      reads this
    {
      State(clock, items, sources, profiles, changes, analyses, lookups, answers)
    }

    ghost predicate Valid()
      reads this
    {
      Inv(View())
    }

    constructor ()
      ensures Valid() && View() == START
    {
      clock, items, sources, profiles, changes := 0, map[], map[], map[], {};
      analyses, lookups, answers := map[], map[], [];
    }

    /** The id of the item that has the source; without one, a new item under the given fresh id.  A hint
        about its content is observed in the same call. */
    method EnsureId(source: SourceRef, hint: Option<Hint>, fresh': Track) returns (id: Track)
      requires Valid() && fresh' !in items
      modifies this
      ensures Valid() && id in items && source in sources && sources[source].track == id
      ensures id == if source in old(sources) then old(sources)[source].track else fresh'
      ensures var found := if source in old(sources) then old(View()) else Step(old(View()), Create(fresh', source));
              View() == if hint.Some? then Step(found, Observe(source, hint.value)) else found
    {
      if source !in sources {
        CreateItem(fresh', source);
      }
      id := sources[source].track;
      ghost var found := View();
      if hint.Some? {
        ObserveContent(source, hint.value);
        ObserveKeepsSource(found, source, hint.value);
      }
      SourceHasItem(View(), source);
    }

    method CreateItem(track: Track, source: SourceRef)
      requires Valid() && track !in items && source !in sources
      modifies this
      ensures Valid() && View() == Step(old(View()), Create(track, source))
    {
      hide Inv, Rotate, ObserveStep, TracksOf;
      StepInv(View(), Create(track, source));
      clock := clock + 1;
      items := items[track := clock];
      sources := sources[source := Source(track, None, None)];
    }

    /** A deleted track takes its sources with it. */
    method Remove(track: Track)
      requires Valid()
      modifies this
      ensures Valid() && View() == Step(old(View()), Delete(track))
      ensures track !in items && forall r :: r in sources ==> sources[r].track != track
    {
      hide Inv, Rotate, ObserveStep, TracksOf;
      StepInv(View(), Delete(track));
      clock := clock + 1;
      items := items - {track};
      sources := map r | r in sources && sources[r].track != track :: sources[r];
    }

    method RotateTracks(tracks: set<Track>)
      modifies this`items, this`profiles, this`changes
      ensures View() == Rotate(old(View()), tracks)
    {
      items := map t | t in items :: if t in tracks then clock else items[t];
      profiles := map k | k in profiles && k.0 !in tracks :: profiles[k];
      changes := changes + set t | t in tracks :: (t, clock);
    }

    method ObserveContent(source: SourceRef, hint: Hint)
      requires Valid()
      modifies this
      ensures Valid() && View() == Step(old(View()), Observe(source, hint))
    {
      hide Inv, TracksOf;
      StepInv(View(), Observe(source, hint));
      clock := clock + 1;
      if source !in sources {
        return;
      }
      var row := sources[source];
      var changed := (hint.fingerprint.Some? && row.fingerprint != hint.fingerprint)
        || (hint.path.Some? && row.path.Some? && row.path != hint.path);
      if changed {
        RotateTracks({row.track});
      }
      sources := sources[source := Source(row.track, Coalesce(hint.fingerprint, row.fingerprint), Coalesce(hint.path, row.path))];
    }

    method InvalidateConnection(connection: string)
      requires Valid()
      modifies this
      ensures Valid() && View() == Step(old(View()), Invalidate(connection))
    {
      hide Inv, Rotate, ObserveStep;
      StepInv(View(), Invalidate(connection));
      clock := clock + 1;
      var tracks := set r | r in sources && r.connection == connection :: sources[r].track;
      assert tracks == TracksOf(View(), connection);
      hide TracksOf;
      RotateTracks(tracks);
    }

    /** An analysis up to the start of the encoder: it reads the revision. */
    method StartAnalysis(id: nat, track: Track, parameters: Parameters)
      requires Valid()
      modifies this
      ensures Valid() && View() == Step(old(View()), BeginAnalysis(id, track, parameters))
    {
      hide Inv, Rotate, ObserveStep, TracksOf;
      StepInv(View(), BeginAnalysis(id, track, parameters));
      clock := clock + 1;
      var revision := if track in items then Some(items[track]) else None;
      analyses := analyses[id := Analysis(track, parameters, revision, clock)];
    }

    /** The end of an analysis: the profile replaces whatever was stored for the parameters. */
    method PersistRow(id: nat)
      requires Valid()
      modifies this
      ensures Valid() && View() == Step(old(View()), Persist(id))
    {
      hide Inv, Rotate, ObserveStep, TracksOf;
      StepInv(View(), Persist(id));
      clock := clock + 1;
      if id in analyses {
        var a := analyses[id];
        profiles := profiles[(a.track, a.parameters) := Profile(a.revision, a.begun)];
        analyses := analyses - {id};
      }
    }

    /** The first query of a lookup. */
    method ReadRevision(id: nat, track: Track, parameters: Parameters)
      requires Valid()
      modifies this
      ensures Valid() && View() == Step(old(View()), BeginLookup(id, track, parameters))
    {
      hide Inv, Rotate, ObserveStep, TracksOf;
      StepInv(View(), BeginLookup(id, track, parameters));
      clock := clock + 1;
      var revision := if track in items then Some(items[track]) else None;
      lookups := lookups[id := Lookup(track, parameters, revision, clock)];
    }

    /** The second query: a profile of the revision that was read, if there is one. */
    method SelectProfile(id: nat) returns (found: Option<Profile>)
      requires Valid()
      modifies this
      ensures Valid() && View() == Step(old(View()), FinishLookup(id))
      ensures found.Some? <==> |answers| == |old(answers)| + 1
      ensures found.Some? ==> answers[|answers| - 1].profile == found.value
    {
      hide Inv, Rotate, ObserveStep, TracksOf;
      StepInv(View(), FinishLookup(id));
      clock := clock + 1;
      found := None;
      if id in lookups {
        var l := lookups[id];
        lookups := lookups - {id};
        if (l.track, l.parameters) in profiles && profiles[(l.track, l.parameters)].revision == l.revision {
          found := Some(profiles[(l.track, l.parameters)]);
          answers := answers + [Answer(l, found.value, clock)];
        }
      }
    }
  }
}
