/** The activity table: an aggregate of two event tables, kept up to date by triggers, and the
    query it stands in for. */
module ActivityTable {
  import opened Prelude

  type User = string
  type Track = string

  datatype Kind = Play | Complete | Skip | Progress | Other

  /** A row of `listening_events`.  `ms` is the creation time in milliseconds when it can be read as a
      date, `created` the same text as a sort key, and `listened` says that some seconds were heard. */
  datatype Listen = Listen(user: User, track: Track, kind: Kind, finished: bool, listened: bool,
                           ms: Option<int>, created: int, excluded: bool, recording: Option<string>)

  /** A row of `recently_played`. */
  datatype Recent = Recent(user: User, track: Track, ms: Option<int>, played: int, excluded: bool, recording: Option<string>)

  datatype Exclusion = Exclusion(track: Track, recording: string)

  /** `Base` reads the event tables themselves; `Taste` reads them through the taste views. */
  datatype Rules = Base | Taste(resetBefore: map<User, int>, floor: int, exclusions: map<User, set<Exclusion>>)

  datatype Data = Data(rules: Rules, users: set<User>, listening: map<nat, Listen>, recent: map<nat, Recent>)

  datatype Heard = Heard(plays: nat, skips: nat, last: Option<int>)

  datatype Played = Played(plays: nat, last: Option<int>)

  datatype Row = Row(heard: Heard, played: Played)

  type Activity = map<(User, Track), Row>

  const NOT_HEARD: Heard := Heard(0, 0, None)
  const NOT_PLAYED: Played := Played(0, None)
  const ZERO: Row := Row(NOT_HEARD, NOT_PLAYED)

  // ---------------------------------------------------------------- the query

  predicate Kept(r: Rules, user: User, track: Track, at: int, excluded: bool, recording: Option<string>) {
    match r
    case Base => true
    case Taste(resetBefore, floor, exclusions) =>
      && !excluded
      && at > (if user in resetBefore then resetBefore[user] else floor)
      && (user in exclusions ==>
            forall x :: x in exclusions[user] ==> x.track != track && Some(x.recording) != recording)
  }

  predicate ListenOf(r: Rules, e: Listen, user: User, track: Track) {
    e.user == user && e.track == track && Kept(r, user, track, e.created, e.excluded, e.recording)
  }

  predicate RecentOf(r: Rules, e: Recent, user: User, track: Track) {
    e.user == user && e.track == track && Kept(r, user, track, e.played, e.excluded, e.recording)
  }

  predicate IsPlay(e: Listen) {
    e.kind in {Play, Complete}
  }

  predicate IsSkip(e: Listen) {
    e.kind == Skip || (e.kind == Progress && e.finished && e.listened)
  }

  predicate IsDated(e: Listen) {
    e.ms.Some? && (e.kind in {Play, Complete, Skip} || e.listened)
  }

  predicate IsLatest(times: set<int>, t: int) {
    t in times && forall u :: u in times ==> u <= t
  }

  /** `MAX`: null over nothing. */
  function Latest(times: set<int>): (latest: Option<int>)
    ensures latest.None? <==> times == {}
    ensures latest.Some? ==> IsLatest(times, latest.value)
  {
    if times == {} then None
    else
      HasLatest(times);
      var t :| IsLatest(times, t) && t in times;
      Some(t)
  }

  lemma HasLatest(times: set<int>)
    requires times != {}
    ensures exists t :: IsLatest(times, t)
  {
    var t := FindLatest(times);
    assert IsLatest(times, t);
  }

  lemma {:induction false} FindLatest(times: set<int>) returns (t: int)
    requires times != {}
    ensures IsLatest(times, t)
  {
    var x := Member(times);
    var rest := times - {x};
    t := x;
    assert forall u :: u in times ==> u == x || u in rest;
    if rest != {} {
      var y := FindLatest(rest);
      if x < y {
        t := y;
      }
    }
  }

  function ListenIds(r: Rules, l: map<nat, Listen>, user: User, track: Track): (ids: set<nat>)
    ensures ids <= l.Keys
  {
    set id | id in l && ListenOf(r, l[id], user, track)
  }

  function RecentIds(r: Rules, l: map<nat, Recent>, user: User, track: Track): (ids: set<nat>)
    ensures ids <= l.Keys
  {
    set id | id in l && RecentOf(r, l[id], user, track)
  }

  function PlayIds(l: map<nat, Listen>, ids: set<nat>): set<nat>
    requires ids <= l.Keys
  {
    set id | id in ids && IsPlay(l[id])
  }

  function SkipIds(l: map<nat, Listen>, ids: set<nat>): set<nat>
    requires ids <= l.Keys
  {
    set id | id in ids && IsSkip(l[id])
  }

  function DatesOf(l: map<nat, Listen>, ids: set<nat>): set<int>
    requires ids <= l.Keys
  {
    set id | id in ids && IsDated(l[id]) :: l[id].ms.value
  }

  function TimesOf(l: map<nat, Recent>, ids: set<nat>): set<int>
    requires ids <= l.Keys
  {
    set id | id in ids && l[id].ms.Some? :: l[id].ms.value
  }

  function HeardOf(r: Rules, listening: map<nat, Listen>, user: User, track: Track): Heard {
    var ids := ListenIds(r, listening, user, track);
    Heard(|PlayIds(listening, ids)|,
          |SkipIds(listening, ids)|,
          Latest(DatesOf(listening, ids)))
  }

  function PlayedOf(r: Rules, recent: map<nat, Recent>, user: User, track: Track): Played {
    var ids := RecentIds(r, recent, user, track);
    Played(|ids|, Latest(TimesOf(recent, ids)))
  }

  function FromScratch(d: Data, user: User, track: Track): Row {
    Row(HeardOf(d.rules, d.listening, user, track), PlayedOf(d.rules, d.recent, user, track))
  }

  function At(a: Activity, user: User, track: Track): Row {
    if (user, track) in a then a[(user, track)] else ZERO
  }

  /** Foreign keys: rows of all three tables belong to existing users. */
  ghost predicate Owned(d: Data, a: Activity) {
    && (forall k :: k in a ==> k.0 in d.users)
    && (forall id :: id in d.listening ==> d.listening[id].user in d.users)
    && (forall id :: id in d.recent ==> d.recent[id].user in d.users)
  }

  /** Every existing user's row is what the query would compute, an absent row meaning zeros. */
  ghost predicate Agrees(d: Data, a: Activity) {
    forall user, track :: user in d.users ==> At(a, user, track) == FromScratch(d, user, track)
  }

  ghost predicate Consistent(d: Data, a: Activity) {
    Owned(d, a) && Agrees(d, a)
  }

  // ---------------------------------------------------------------- statements and their triggers

  datatype Statement =
    | PutListen(id: nat, listen: Listen)
    | DropListen(id: nat)
    | PutRecent(id: nat, recent: Recent)
    | DropRecent(id: nat)
    | AddUser(user: User)
    | RemoveUser(user: User)

  /** The body of a listening trigger for one user and track. */
  function RefreshHeard(d: Data, a: Activity, user: User, track: Track): Activity {
    if user in d.users then a[(user, track) := At(a, user, track).(heard := HeardOf(d.rules, d.listening, user, track))] else a
  }

  function RefreshPlayed(d: Data, a: Activity, user: User, track: Track): Activity {
    if user in d.users then a[(user, track) := At(a, user, track).(played := PlayedOf(d.rules, d.recent, user, track))] else a
  }

  datatype State = State(data: Data, activity: Activity)

  /** An insert or an update of one row: the old user and track, if any, are refreshed first, then
      the new ones.  A row of a user who does not exist is refused. */
  function PutListenStep(s: State, id: nat, e: Listen): State {
    if e.user !in s.data.users then s
    else
      var d := s.data.(listening := s.data.listening[id := e]);
      var a := if id in s.data.listening then RefreshHeard(d, s.activity, s.data.listening[id].user, s.data.listening[id].track)
               else s.activity;
      State(d, RefreshHeard(d, a, e.user, e.track))
  }

  function DropListenStep(s: State, id: nat): State {
    if id !in s.data.listening then s
    else
      var d := s.data.(listening := s.data.listening - {id});
      State(d, RefreshHeard(d, s.activity, s.data.listening[id].user, s.data.listening[id].track))
  }

  function PutRecentStep(s: State, id: nat, e: Recent): State {
    if e.user !in s.data.users then s
    else
      var d := s.data.(recent := s.data.recent[id := e]);
      var a := if id in s.data.recent then RefreshPlayed(d, s.activity, s.data.recent[id].user, s.data.recent[id].track)
               else s.activity;
      State(d, RefreshPlayed(d, a, e.user, e.track))
  }

  function DropRecentStep(s: State, id: nat): State {
    if id !in s.data.recent then s
    else
      var d := s.data.(recent := s.data.recent - {id});
      State(d, RefreshPlayed(d, s.activity, s.data.recent[id].user, s.data.recent[id].track))
  }

  /** Deleting a user cascades to the three tables; the delete triggers find no such user. */
  function RemoveUserStep(s: State, user: User): State {
    State(Data(s.data.rules, s.data.users - {user},
               map id | id in s.data.listening && s.data.listening[id].user != user :: s.data.listening[id],
               map id | id in s.data.recent && s.data.recent[id].user != user :: s.data.recent[id]),
          map k | k in s.activity && k.0 != user :: s.activity[k])
  }

  function Step(s: State, statement: Statement): State {
    match statement
    case PutListen(id, e) => PutListenStep(s, id, e)
    case DropListen(id) => DropListenStep(s, id)
    case PutRecent(id, e) => PutRecentStep(s, id, e)
    case DropRecent(id) => DropRecentStep(s, id)
    case AddUser(user) => s.(data := s.data.(users := s.data.users + {user}))
    case RemoveUser(user) => RemoveUserStep(s, user)
  }

  /** The aggregate of a user and track depends on the rows of that user and track only. */
  lemma HeardFrame(r: Rules, l: map<nat, Listen>, q: Rules, m: map<nat, Listen>, user: User, track: Track)
    requires forall id :: id in l && ListenOf(r, l[id], user, track) ==> id in m && m[id] == l[id] && ListenOf(q, m[id], user, track)
    requires forall id :: id in m && ListenOf(q, m[id], user, track) ==> id in l && m[id] == l[id] && ListenOf(r, l[id], user, track)
    ensures HeardOf(r, l, user, track) == HeardOf(q, m, user, track)
  {
    hide ListenOf, Latest;
    var ids := ListenIds(r, l, user, track);
    assert ids == ListenIds(q, m, user, track);
    assert PlayIds(l, ids) == PlayIds(m, ids);
    assert SkipIds(l, ids) == SkipIds(m, ids);
    assert DatesOf(l, ids) == DatesOf(m, ids);
  }

  lemma PlayedFrame(r: Rules, l: map<nat, Recent>, q: Rules, m: map<nat, Recent>, user: User, track: Track)
    requires forall id :: id in l && RecentOf(r, l[id], user, track) ==> id in m && m[id] == l[id] && RecentOf(q, m[id], user, track)
    requires forall id :: id in m && RecentOf(q, m[id], user, track) ==> id in l && m[id] == l[id] && RecentOf(r, l[id], user, track)
    ensures PlayedOf(r, l, user, track) == PlayedOf(q, m, user, track)
  {
    hide RecentOf, Latest;
    var ids := RecentIds(r, l, user, track);
    assert ids == RecentIds(q, m, user, track);
    assert TimesOf(l, ids) == TimesOf(m, ids);
  }

  /** Refreshing a key makes its row right, and leaves every other row as it was. */
  lemma RefreshHeardAt(d: Data, a: Activity, user: User, track: Track, u: User, t: Track)
    requires user in d.users
    ensures At(RefreshHeard(d, a, user, track), u, t) ==
            At(a, u, t).(heard := if (u, t) == (user, track) then HeardOf(d.rules, d.listening, u, t) else At(a, u, t).heard)
  {
  }

  lemma RefreshPlayedAt(d: Data, a: Activity, user: User, track: Track, u: User, t: Track)
    requires user in d.users
    ensures At(RefreshPlayed(d, a, user, track), u, t) ==
            At(a, u, t).(played := if (u, t) == (user, track) then PlayedOf(d.rules, d.recent, u, t) else At(a, u, t).played)
  {
  }

  lemma PutListenKeeps(s: State, id: nat, e: Listen)
    requires Consistent(s.data, s.activity) && e.user in s.data.users
    ensures Consistent(PutListenStep(s, id, e).data, PutListenStep(s, id, e).activity)
  {
    var s' := PutListenStep(s, id, e);
    var d := s'.data;
    forall u, t | u in d.users ensures At(s'.activity, u, t) == FromScratch(d, u, t) {
      var a := s.activity;
      if id in s.data.listening {
        var old' := s.data.listening[id];
        RefreshHeardAt(d, a, old'.user, old'.track, u, t);
        a := RefreshHeard(d, a, old'.user, old'.track);
      }
      RefreshHeardAt(d, a, e.user, e.track, u, t);
      if (u, t) != (e.user, e.track)
         && (id in s.data.listening ==> (u, t) != (s.data.listening[id].user, s.data.listening[id].track)) {
        HeardFrame(d.rules, s.data.listening, d.rules, d.listening, u, t);
      }
      assert At(s.activity, u, t) == FromScratch(s.data, u, t);
    }
  }

  lemma DropListenKeeps(s: State, id: nat)
    requires Consistent(s.data, s.activity) && id in s.data.listening
    ensures Consistent(DropListenStep(s, id).data, DropListenStep(s, id).activity)
  {
    var s' := DropListenStep(s, id);
    var d, e := s'.data, s.data.listening[id];
    forall u, t | u in d.users ensures At(s'.activity, u, t) == FromScratch(d, u, t) {
      RefreshHeardAt(d, s.activity, e.user, e.track, u, t);
      if (u, t) != (e.user, e.track) {
        HeardFrame(d.rules, s.data.listening, d.rules, d.listening, u, t);
      }
      assert At(s.activity, u, t) == FromScratch(s.data, u, t);
    }
  }

  lemma PutRecentKeeps(s: State, id: nat, e: Recent)
    requires Consistent(s.data, s.activity) && e.user in s.data.users
    ensures Consistent(PutRecentStep(s, id, e).data, PutRecentStep(s, id, e).activity)
  {
    var s' := PutRecentStep(s, id, e);
    var d := s'.data;
    forall u, t | u in d.users ensures At(s'.activity, u, t) == FromScratch(d, u, t) {
      var a := s.activity;
      if id in s.data.recent {
        var old' := s.data.recent[id];
        RefreshPlayedAt(d, a, old'.user, old'.track, u, t);
        a := RefreshPlayed(d, a, old'.user, old'.track);
      }
      RefreshPlayedAt(d, a, e.user, e.track, u, t);
      if (u, t) != (e.user, e.track)
         && (id in s.data.recent ==> (u, t) != (s.data.recent[id].user, s.data.recent[id].track)) {
        PlayedFrame(d.rules, s.data.recent, d.rules, d.recent, u, t);
      }
      assert At(s.activity, u, t) == FromScratch(s.data, u, t);
    }
  }

  lemma DropRecentKeeps(s: State, id: nat)
    requires Consistent(s.data, s.activity) && id in s.data.recent
    ensures Consistent(DropRecentStep(s, id).data, DropRecentStep(s, id).activity)
  {
    var s' := DropRecentStep(s, id);
    var d, e := s'.data, s.data.recent[id];
    forall u, t | u in d.users ensures At(s'.activity, u, t) == FromScratch(d, u, t) {
      RefreshPlayedAt(d, s.activity, e.user, e.track, u, t);
      if (u, t) != (e.user, e.track) {
        PlayedFrame(d.rules, s.data.recent, d.rules, d.recent, u, t);
      }
      assert At(s.activity, u, t) == FromScratch(s.data, u, t);
    }
  }

  lemma RemoveUserKeeps(s: State, user: User)
    requires Consistent(s.data, s.activity)
    ensures Consistent(RemoveUserStep(s, user).data, RemoveUserStep(s, user).activity)
  {
    var s' := RemoveUserStep(s, user);
    forall u, t | u in s'.data.users ensures At(s'.activity, u, t) == FromScratch(s'.data, u, t) {
      HeardFrame(s.data.rules, s.data.listening, s.data.rules, s'.data.listening, u, t);
      PlayedFrame(s.data.rules, s.data.recent, s.data.rules, s'.data.recent, u, t);
      assert At(s.activity, u, t) == FromScratch(s.data, u, t);
    }
  }

  lemma AddUserKeeps(s: State, user: User)
    requires Consistent(s.data, s.activity)
    ensures Consistent(Step(s, AddUser(user)).data, s.activity)
  {
    var d := Step(s, AddUser(user)).data;
    forall u, t | u in d.users ensures At(s.activity, u, t) == FromScratch(d, u, t) {
      if u !in s.data.users {
        NoRowsNoRow(d, u, t);
      } else {
        assert At(s.activity, u, t) == FromScratch(s.data, u, t);
      }
    }
  }

  lemma NoRowsNoRow(d: Data, u: User, t: Track)
    requires forall id :: id in d.listening ==> d.listening[id].user != u
    requires forall id :: id in d.recent ==> d.recent[id].user != u
    ensures FromScratch(d, u, t) == ZERO
  {
    assert ListenIds(d.rules, d.listening, u, t) == {};
    assert RecentIds(d.rules, d.recent, u, t) == {};
  }

  lemma StepKeeps(s: State, statement: Statement)
    requires Consistent(s.data, s.activity)
    ensures Consistent(Step(s, statement).data, Step(s, statement).activity)
  {
    match statement {
      case PutListen(id, e) => if e.user in s.data.users { PutListenKeeps(s, id, e); }
      case DropListen(id) => if id in s.data.listening { DropListenKeeps(s, id); }
      case PutRecent(id, e) => if e.user in s.data.users { PutRecentKeeps(s, id, e); }
      case DropRecent(id) => if id in s.data.recent { DropRecentKeeps(s, id); }
      case AddUser(user) => AddUserKeeps(s, user);
      case RemoveUser(user) => RemoveUserKeeps(s, user);
    }
    hide Consistent, RemoveUserStep, RefreshHeard, RefreshPlayed;
  }

  function Run(s: State, statements: seq<Statement>): State {
    if statements == [] then s else Step(Run(s, statements[..|statements| - 1]), statements[|statements| - 1])
  }

  /** From a table that agrees with the query, every run of inserts, updates (also ones that move a
      row to another user or track), deletes and user removals leaves one that does, while the taste
      settings and exclusions stay as they are. */
  lemma {:induction false} RunAgrees(s: State, statements: seq<Statement>, user: User, track: Track)
    requires Consistent(s.data, s.activity)
    ensures Consistent(Run(s, statements).data, Run(s, statements).activity)
    ensures user in Run(s, statements).data.users ==>
              At(Run(s, statements).activity, user, track) == FromScratch(Run(s, statements).data, user, track)
  {
    if statements != [] {
      RunAgrees(s, statements[..|statements| - 1], user, track);
      StepKeeps(Run(s, statements[..|statements| - 1]), statements[|statements| - 1]);
    }
    hide Owned, Step, FromScratch;
  }

  // ---------------------------------------------------------------- what one statement does to the figures

  /** `MAX` with one more value. */
  function LatestWith(latest: Option<int>, t: int): Option<int> {
    Some(if latest.Some? && t < latest.value then latest.value else t)
  }

  lemma LatestGrows(times: set<int>, t: int)
    ensures Latest(times + {t}) == LatestWith(Latest(times), t)
  {
    var more := times + {t};
    assert t in more && forall u :: u in times ==> u in more;
  }

  /** One more id in the sets that the figures are taken from. */
  lemma IdsWith(l: map<nat, Listen>, ids: set<nat>, id: nat, e: Listen)
    requires ids <= l.Keys && id !in l
    ensures PlayIds(l[id := e], ids + {id}) == if IsPlay(e) then PlayIds(l, ids) + {id} else PlayIds(l, ids)
    ensures SkipIds(l[id := e], ids + {id}) == if IsSkip(e) then SkipIds(l, ids) + {id} else SkipIds(l, ids)
    ensures id !in PlayIds(l, ids) && id !in SkipIds(l, ids)
  {
    hide IsPlay, IsSkip;
  }

  lemma DatesWith(l: map<nat, Listen>, ids: set<nat>, id: nat, e: Listen)
    requires ids <= l.Keys && id !in l
    ensures DatesOf(l[id := e], ids + {id}) == if IsDated(e) then DatesOf(l, ids) + {e.ms.value} else DatesOf(l, ids)
  {
    var m := l[id := e];
    assert m[id] == e && forall i :: i in ids ==> m[i] == l[i];
    forall t | t in DatesOf(l, ids) ensures t in DatesOf(m, ids + {id}) {
      var i :| i in ids && IsDated(l[i]) && l[i].ms.value == t;
      assert IsDated(m[i]);
    }
    assert IsDated(e) ==> e.ms.value in DatesOf(m, ids + {id}) by {
      assert IsDated(e) ==> IsDated(m[id]) && id in ids + {id};
    }
  }

  lemma TimesWith(l: map<nat, Recent>, ids: set<nat>, id: nat, e: Recent)
    requires ids <= l.Keys && id !in l
    ensures TimesOf(l[id := e], ids + {id}) == if e.ms.Some? then TimesOf(l, ids) + {e.ms.value} else TimesOf(l, ids)
  {
    var m := l[id := e];
    assert m[id] == e && forall i :: i in ids ==> m[i] == l[i];
    forall t | t in TimesOf(l, ids) ensures t in TimesOf(m, ids + {id}) {
      var i :| i in ids && l[i].ms.Some? && l[i].ms.value == t;
      assert m[i].ms.Some?;
    }
    assert e.ms.Some? ==> e.ms.value in TimesOf(m, ids + {id}) by {
      assert e.ms.Some? ==> m[id].ms.Some? && id in ids + {id};
    }
  }

  lemma HeardWith(r: Rules, l: map<nat, Listen>, id: nat, e: Listen, user: User, track: Track)
    requires id !in l && ListenOf(r, e, user, track)
    ensures var before, after := HeardOf(r, l, user, track), HeardOf(r, l[id := e], user, track);
            && after.plays == before.plays + (if IsPlay(e) then 1 else 0)
            && after.skips == before.skips + (if IsSkip(e) then 1 else 0)
            && after.last == (if IsDated(e) then LatestWith(before.last, e.ms.value) else before.last)
  {
    var ids := ListenIds(r, l, user, track);
    assert ListenIds(r, l[id := e], user, track) == ids + {id};
    hide ListenOf, ListenIds, PlayIds, SkipIds, DatesOf, Latest, IsPlay, IsSkip, LatestWith;
    IdsWith(l, ids, id, e);
    DatesWith(l, ids, id, e);
    if IsDated(e) {
      LatestGrows(DatesOf(l, ids), e.ms.value);
    }
  }

  lemma PlayedWith(r: Rules, l: map<nat, Recent>, id: nat, e: Recent, user: User, track: Track)
    requires id !in l && RecentOf(r, e, user, track)
    ensures var before, after := PlayedOf(r, l, user, track), PlayedOf(r, l[id := e], user, track);
            && after.plays == before.plays + 1
            && after.last == (if e.ms.Some? then LatestWith(before.last, e.ms.value) else before.last)
  {
    var ids := RecentIds(r, l, user, track);
    assert RecentIds(r, l[id := e], user, track) == ids + {id};
    hide RecentOf, RecentIds, TimesOf, Latest, LatestWith;
    TimesWith(l, ids, id, e);
    if e.ms.Some? {
      LatestGrows(TimesOf(l, ids), e.ms.value);
    }
  }

  /** A new listening event that the rules keep adds to the row of its user and track in the table: one to
      the plays for a play or a completion, one to the skips for a skip or for a progress report of a
      finished track some of which was heard, and its time, if it is later, where it is such a play, such a
      skip, or anything of which some was heard.  No other row changes. */
  lemma ListenCounts(s: State, id: nat, e: Listen, user: User, track: Track)
    requires Consistent(s.data, s.activity) && id !in s.data.listening && e.user in s.data.users && user in s.data.users
    ensures var before, after := At(s.activity, user, track), At(Step(s, PutListen(id, e)).activity, user, track);
            var kept := user == e.user && track == e.track && Kept(s.data.rules, user, track, e.created, e.excluded, e.recording);
            && after.played == before.played
            && after.heard.plays == before.heard.plays + (if kept && (e.kind == Play || e.kind == Complete) then 1 else 0)
            && after.heard.skips == before.heard.skips
               + (if kept && (e.kind == Skip || (e.kind == Progress && e.finished && e.listened)) then 1 else 0)
            && after.heard.last == (if kept && e.ms.Some? && (e.kind == Play || e.kind == Complete || e.kind == Skip || e.listened)
                                    then LatestWith(before.heard.last, e.ms.value) else before.heard.last)
  {
    hide Latest, LatestWith, HeardOf, PlayedOf, RefreshHeard;
    StepKeeps(s, PutListen(id, e));
    var s' := Step(s, PutListen(id, e));
    assert At(s.activity, user, track) == FromScratch(s.data, user, track);
    assert At(s'.activity, user, track) == FromScratch(s'.data, user, track);
    if ListenOf(s.data.rules, e, user, track) {
      HeardWith(s.data.rules, s.data.listening, id, e, user, track);
    } else {
      HeardFrame(s.data.rules, s.data.listening, s.data.rules, s'.data.listening, user, track);
    }
  }

  /** The same for a row of recent plays. */
  lemma RecentCounts(s: State, id: nat, e: Recent, user: User, track: Track)
    requires Consistent(s.data, s.activity) && id !in s.data.recent && e.user in s.data.users && user in s.data.users
    ensures var before, after := At(s.activity, user, track), At(Step(s, PutRecent(id, e)).activity, user, track);
            var kept := user == e.user && track == e.track && Kept(s.data.rules, user, track, e.played, e.excluded, e.recording);
            && after.heard == before.heard
            && after.played.plays == before.played.plays + (if kept then 1 else 0)
            && after.played.last == (if kept && e.ms.Some? then LatestWith(before.played.last, e.ms.value) else before.played.last)
  {
    hide Latest, LatestWith, HeardOf, PlayedOf, RefreshPlayed;
    StepKeeps(s, PutRecent(id, e));
    var s' := Step(s, PutRecent(id, e));
    assert At(s.activity, user, track) == FromScratch(s.data, user, track);
    assert At(s'.activity, user, track) == FromScratch(s'.data, user, track);
    if RecentOf(s.data.rules, e, user, track) {
      PlayedWith(s.data.rules, s.data.recent, id, e, user, track);
    } else {
      PlayedFrame(s.data.rules, s.data.recent, s.data.rules, s'.data.recent, user, track);
    }
  }

  /** Two runs from tables that agree which leave the same data leave the same figures. */
  lemma SameDataSameRows(s: State, one: seq<Statement>, two: seq<Statement>, user: User, track: Track)
    requires Consistent(s.data, s.activity) && Run(s, one).data == Run(s, two).data && user in Run(s, one).data.users
    ensures At(Run(s, one).activity, user, track) == At(Run(s, two).activity, user, track)
  {
    RunAgrees(s, one, user, track);
    RunAgrees(s, two, user, track);
    hide Run, FromScratch;
  }

  lemma FewSteps(s: State, one: Statement, two: Statement)
    ensures Run(s, []) == s && Run(s, [one]) == Step(s, one) && Run(s, [one, two]) == Step(Step(s, one), two)
  {
    hide Step;
    assert [one, two][..1] == [one] && [one][..0] == [];
    assert Run(s, []) == s && Run(s, [one]) == Step(s, one);
  }

  /** Deleting a row takes back what inserting it did, for every user and track. */
  lemma DeleteUndoesInsert(s: State, id: nat, e: Listen, f: Recent, user: User, track: Track)
    requires Consistent(s.data, s.activity) && user in s.data.users
    ensures id !in s.data.listening ==>
              var undone := Run(s, [PutListen(id, e), DropListen(id)]);
              undone.data == s.data && At(undone.activity, user, track) == At(s.activity, user, track)
    ensures id !in s.data.recent ==>
              var undone := Run(s, [PutRecent(id, f), DropRecent(id)]);
              undone.data == s.data && At(undone.activity, user, track) == At(s.activity, user, track)
  {
    hide Run, Consistent, RefreshHeard, RefreshPlayed;
    if id !in s.data.listening {
      FewSteps(s, PutListen(id, e), DropListen(id));
      assert s.data.listening[id := e] - {id} == s.data.listening;
      SameDataSameRows(s, [PutListen(id, e), DropListen(id)], [], user, track);
    }
    if id !in s.data.recent {
      FewSteps(s, PutRecent(id, f), DropRecent(id));
      assert s.data.recent[id := f] - {id} == s.data.recent;
      SameDataSameRows(s, [PutRecent(id, f), DropRecent(id)], [], user, track);
    }
  }

  /** Updating a row is deleting it and inserting what it becomes, also where it moves to another user or
      track. */
  lemma UpdateIsDeleteAndInsert(s: State, id: nat, e: Listen, f: Recent, user: User, track: Track)
    requires Consistent(s.data, s.activity) && user in s.data.users
    ensures e.user in s.data.users ==>
              var updated, anew := Run(s, [PutListen(id, e)]), Run(s, [DropListen(id), PutListen(id, e)]);
              updated.data == anew.data && At(updated.activity, user, track) == At(anew.activity, user, track)
    ensures f.user in s.data.users ==>
              var updated, anew := Run(s, [PutRecent(id, f)]), Run(s, [DropRecent(id), PutRecent(id, f)]);
              updated.data == anew.data && At(updated.activity, user, track) == At(anew.activity, user, track)
  {
    hide Run, Consistent, RefreshHeard, RefreshPlayed;
    if e.user in s.data.users {
      FewSteps(s, PutListen(id, e), PutListen(id, e));
      FewSteps(s, DropListen(id), PutListen(id, e));
      assert (s.data.listening - {id})[id := e] == s.data.listening[id := e];
      SameDataSameRows(s, [PutListen(id, e)], [DropListen(id), PutListen(id, e)], user, track);
    }
    if f.user in s.data.users {
      FewSteps(s, PutRecent(id, f), PutRecent(id, f));
      FewSteps(s, DropRecent(id), PutRecent(id, f));
      assert (s.data.recent - {id})[id := f] == s.data.recent[id := f];
      SameDataSameRows(s, [PutRecent(id, f)], [DropRecent(id), PutRecent(id, f)], user, track);
    }
  }

  /** A new user starts with no figures; a user who goes takes every row along, in all three tables, and
      nobody else loses one. */
  lemma UsersComeAndGo(s: State, user: User, other: User, track: Track)
    requires Consistent(s.data, s.activity) && other in s.data.users && other != user
    ensures var more := Step(s, AddUser(user));
            && user in more.data.users && other in more.data.users
            && At(more.activity, other, track) == At(s.activity, other, track)
            && (user !in s.data.users ==> At(more.activity, user, track) == ZERO)
    ensures var less := Step(s, RemoveUser(user));
            && user !in less.data.users && other in less.data.users
            && (forall k :: k in less.activity ==> k.0 != user)
            && (forall id :: id in less.data.listening ==> less.data.listening[id].user != user)
            && (forall id :: id in less.data.recent ==> less.data.recent[id].user != user)
            && (forall id :: id in s.data.listening && s.data.listening[id].user != user ==>
                  id in less.data.listening && less.data.listening[id] == s.data.listening[id])
            && (forall id :: id in s.data.recent && s.data.recent[id].user != user ==>
                  id in less.data.recent && less.data.recent[id] == s.data.recent[id])
            && At(less.activity, other, track) == At(s.activity, other, track)
  {
    hide FromScratch;
  }

  // ---------------------------------------------------------------- what the taste rules hide

  /** The data without the rows of one user that some condition on track, time and recording picks. */
  function WithoutRows(d: Data, user: User, hidden: (Track, int, Option<string>) -> bool): Data {
    d.(listening := map id | id in d.listening && !(d.listening[id].user == user
                               && hidden(d.listening[id].track, d.listening[id].created, d.listening[id].recording)) :: d.listening[id],
       recent := map id | id in d.recent && !(d.recent[id].user == user
                               && hidden(d.recent[id].track, d.recent[id].played, d.recent[id].recording)) :: d.recent[id])
  }

  lemma HiddenRows(d: Data, r: Rules, hider: User, hidden: (Track, int, Option<string>) -> bool, user: User, track: Track)
    requires forall at, excluded, recording :: Kept(r, user, track, at, excluded, recording) <==>
               Kept(d.rules, user, track, at, excluded, recording) && !(user == hider && hidden(track, at, recording))
    ensures FromScratch(d.(rules := r), user, track) == FromScratch(WithoutRows(d, hider, hidden), user, track)
  {
    hide Kept, HeardOf, PlayedOf;
    var without := WithoutRows(d, hider, hidden);
    HeardFrame(r, d.listening, d.rules, without.listening, user, track);
    PlayedFrame(r, d.recent, d.rules, without.recent, user, track);
  }

  /** A reset at a later time than the last, or than the floor without one, hides the user's rows up to
      that time and nothing else: the figures are as if they had never been written. */
  lemma ResetHides(d: Data, hider: User, now: int, user: User, track: Track)
    requires d.rules.Taste?
    requires now >= if hider in d.rules.resetBefore then d.rules.resetBefore[hider] else d.rules.floor
    ensures FromScratch(d.(rules := d.rules.(resetBefore := d.rules.resetBefore[hider := now])), user, track)
         == FromScratch(WithoutRows(d, hider, (t, at, recording) => at <= now), user, track)
  {
    hide FromScratch, WithoutRows;
    HiddenRows(d, d.rules.(resetBefore := d.rules.resetBefore[hider := now]), hider, (t, at, recording) => at <= now, user, track);
  }

  /** The rules with one more exclusion of a user. */
  function Excluding(r: Rules, user: User, x: Exclusion): Rules
    requires r.Taste?
  {
    r.(exclusions := r.exclusions[user := (if user in r.exclusions then r.exclusions[user] else {}) + {x}])
  }

  /** An exclusion hides the user's rows of that track, and those of that recording under any track, and
      nothing else. */
  lemma ExclusionHides(d: Data, hider: User, x: Exclusion, user: User, track: Track)
    requires d.rules.Taste?
    ensures FromScratch(d.(rules := Excluding(d.rules, hider, x)), user, track)
         == FromScratch(WithoutRows(d, hider, (t, at, recording) => t == x.track || recording == Some(x.recording)), user, track)
  {
    hide FromScratch, WithoutRows;
    HiddenRows(d, Excluding(d.rules, hider, x), hider, (t, at, recording) => t == x.track || recording == Some(x.recording), user, track);
  }

  /** Without resets and exclusions, the taste rules keep exactly the rows after the floor that are not
      marked; the base rules keep all. */
  lemma PlainTaste(floor: int, user: User, track: Track, at: int, excluded: bool, recording: Option<string>)
    ensures Kept(Taste(map[], floor, map[]), user, track, at, excluded, recording) <==> floor < at && !excluded
    ensures Kept(Base, user, track, at, excluded, recording)
  {
  }

  // ---------------------------------------------------------------- building the table

  function HeardKeys(d: Data): set<(User, Track)> {
    set id | id in d.listening && ListenOf(d.rules, d.listening[id], d.listening[id].user, d.listening[id].track)
      :: (d.listening[id].user, d.listening[id].track)
  }

  function PlayedKeys(d: Data): set<(User, Track)> {
    set id | id in d.recent && RecentOf(d.rules, d.recent[id], d.recent[id].user, d.recent[id].track)
      :: (d.recent[id].user, d.recent[id].track)
  }

  /** The two grouped inserts of the schema: each writes its columns for the groups it finds. */
  function Fill(d: Data, a: Activity): Activity {
    map k | k in a.Keys + HeardKeys(d) + PlayedKeys(d) ::
      Row(if k in HeardKeys(d) then HeardOf(d.rules, d.listening, k.0, k.1) else At(a, k.0, k.1).heard,
          if k in PlayedKeys(d) then PlayedOf(d.rules, d.recent, k.0, k.1) else At(a, k.0, k.1).played)
  }

  lemma NoGroupNoRow(d: Data, u: User, t: Track)
    ensures (u, t) !in HeardKeys(d) ==> HeardOf(d.rules, d.listening, u, t) == NOT_HEARD
    ensures (u, t) !in HeardKeys(d) ==> ListenIds(d.rules, d.listening, u, t) == {}
    ensures (u, t) !in PlayedKeys(d) ==> PlayedOf(d.rules, d.recent, u, t) == NOT_PLAYED
  {
    if (u, t) !in HeardKeys(d) {
      forall id | id in d.listening ensures !ListenOf(d.rules, d.listening[id], u, t) {
        assert d.listening[id].user == u && d.listening[id].track == t && ListenOf(d.rules, d.listening[id], u, t) ==>
            (u, t) in HeardKeys(d);
      }
      assert ListenIds(d.rules, d.listening, u, t) == {};
    }
    if (u, t) !in PlayedKeys(d) {
      forall id | id in d.recent ensures !RecentOf(d.rules, d.recent[id], u, t) {
        assert d.recent[id].user == u && d.recent[id].track == t && RecentOf(d.rules, d.recent[id], u, t) ==>
            (u, t) in PlayedKeys(d);
      }
      assert RecentIds(d.rules, d.recent, u, t) == {};
    }
  }

  /** Filling a table makes it agree with the query exactly when it held no figures for groups that
      have no rows: so on an empty table (migrations 33 and 43) and on one that agreed already
      (migration 39). */
  lemma FillAgrees(d: Data, a: Activity)
    ensures Agrees(d, Fill(d, a)) <==>
            (forall u, t :: u in d.users ==>
               && ((u, t) in HeardKeys(d) || At(a, u, t).heard == NOT_HEARD)
               && ((u, t) in PlayedKeys(d) || At(a, u, t).played == NOT_PLAYED))
  {
    forall u, t
      ensures At(Fill(d, a), u, t) == FromScratch(d, u, t) <==>
              && ((u, t) in HeardKeys(d) || At(a, u, t).heard == NOT_HEARD)
              && ((u, t) in PlayedKeys(d) || At(a, u, t).played == NOT_PLAYED)
    {
      NoGroupNoRow(d, u, t);
      hide HeardOf, PlayedOf, HeardKeys, PlayedKeys;
    }
    hide At, Fill, FromScratch, HeardKeys, PlayedKeys;
  }

  lemma FillEmptyOrAgreeing(d: Data, a: Activity)
    requires a == map[] || Agrees(d, a)
    ensures Agrees(d, Fill(d, a))
  {
    forall u, t | u in d.users
      ensures (u, t) in HeardKeys(d) || At(a, u, t).heard == NOT_HEARD
      ensures (u, t) in PlayedKeys(d) || At(a, u, t).played == NOT_PLAYED
    {
      NoGroupNoRow(d, u, t);
      assert a != map[] ==> At(a, u, t) == FromScratch(d, u, t);
      hide HeardOf, PlayedOf, HeardKeys, PlayedKeys;
    }
    FillAgrees(d, a);
    hide HeardOf, PlayedOf, HeardKeys, PlayedKeys, Fill;
  }

  // ---------------------------------------------------------------- the taste service's own rebuild

  /** The service's figures: the latest time is taken over every kept event, dated or not in the
      query's sense. */
  function LooseHeard(d: Data, user: User, track: Track): Heard {
    var ids := ListenIds(d.rules, d.listening, user, track);
    HeardOf(d.rules, d.listening, user, track).(last := Latest(set id | id in ids && d.listening[id].ms.Some? :: d.listening[id].ms.value))
  }

  /** The first of the three statements of a rebuild. */
  function DeleteRows(a: Activity, user: User): Activity {
    map k | k in a && k.0 != user :: a[k]
  }

  /** The second: a plain insert, which a row under one of its keys makes fail as a whole; the
      failure is ignored. */
  function InsertHeard(d: Data, a: Activity, user: User): Activity {
    var groups := set k | k in HeardKeys(d) && k.0 == user;
    if groups !! a.Keys then a + map k | k in groups :: Row(LooseHeard(d, k.0, k.1), NOT_PLAYED) else a
  }

  predicate Refused(d: Data, a: Activity, user: User) {
    exists k :: k in HeardKeys(d) && k.0 == user && k in a
  }

  /** The third overwrites the columns of rows that exist. */
  function UpsertPlayed(d: Data, a: Activity, user: User): Activity {
    var groups := set k | k in PlayedKeys(d) && k.0 == user;
    a + map k | k in groups :: At(a, k.0, k.1).(played := PlayedOf(d.rules, d.recent, k.0, k.1))
  }

  /** The three statements with nothing between them. */
  function RebuildUser(d: Data, a: Activity, user: User): Activity {
    UpsertPlayed(d, InsertHeard(d, DeleteRows(a, user), user), user)
  }

  /** What the second and third statement leave: the figures of the event tables, unless a row under
      one of the keys was there; then every track keeps the listening figures it had. */
  lemma Inserted(d: Data, a: Activity, user: User, track: Track)
    ensures var after := At(UpsertPlayed(d, InsertHeard(d, a, user), user), user, track);
            var kept := Refused(d, a, user) || (user, track) !in HeardKeys(d);
            && after.heard == (if kept then At(a, user, track).heard else LooseHeard(d, user, track))
            && after.played == (if (user, track) in PlayedKeys(d) then PlayedOf(d.rules, d.recent, user, track)
                                else if kept then At(a, user, track).played else NOT_PLAYED)
    ensures forall u, t :: u != user ==> At(UpsertPlayed(d, InsertHeard(d, a, user), user), u, t) == At(a, u, t)
  {
    hide HeardKeys, PlayedKeys, LooseHeard, PlayedOf;
    var groups := set k | k in HeardKeys(d) && k.0 == user;
    if k :| k in HeardKeys(d) && k.0 == user && k in a {
      assert k in groups && k in a.Keys;
    }
  }

  lemma {:induction false} LatestIs(times: set<int>, t: int)
    ensures Latest(times) == Some(t) <==> IsLatest(times, t)
  {
  }

  /** Two maxima agree exactly when nothing in the larger set lies above everything in the smaller. */
  lemma MaximaAgree(loose: set<int>, strict: set<int>)
    requires strict <= loose
    ensures Latest(loose) == Latest(strict) <==> forall t :: t in loose ==> exists u :: u in strict && t <= u
  {
    if loose != {} {
      var top := Latest(loose).value;
      if Latest(loose) == Latest(strict) {
        assert forall t :: t in loose ==> t <= top;
        assert top in strict;
      } else if forall t :: t in loose ==> exists u :: u in strict && t <= u {
        var u :| u in strict && top <= u;
        assert u in loose && u == top;
        assert IsLatest(strict, top);
        LatestIs(strict, top);
      }
    }
  }

  /** A kept event of the user and track that has a readable date, whether or not the query dates it. */
  predicate KeptAt(d: Data, user: User, track: Track, id: nat) {
    id in d.listening && ListenOf(d.rules, d.listening[id], user, track) && d.listening[id].ms.Some?
  }

  function KeptTimes(d: Data, user: User, track: Track): set<int> {
    set id | id in d.listening && KeptAt(d, user, track, id) :: d.listening[id].ms.value
  }

  function DatedTimes(d: Data, user: User, track: Track): set<int> {
    set id | id in d.listening && KeptAt(d, user, track, id) && IsDated(d.listening[id]) :: d.listening[id].ms.value
  }

  lemma TheirLatest(d: Data, user: User, track: Track)
    ensures LooseHeard(d, user, track).last == Latest(KeptTimes(d, user, track))
    ensures HeardOf(d.rules, d.listening, user, track).last == Latest(DatedTimes(d, user, track))
  {
    hide ListenOf, Latest;
    var ids := ListenIds(d.rules, d.listening, user, track);
    assert (set id | id in ids && d.listening[id].ms.Some? :: d.listening[id].ms.value) == KeptTimes(d, user, track);
    assert DatesOf(d.listening, ids) == DatedTimes(d, user, track);
  }

  /** Some kept event that the query dates is as late. */
  ghost predicate Covered(d: Data, user: User, track: Track, t: int) {
    exists j: nat :: KeptAt(d, user, track, j) && IsDated(d.listening[j]) && t <= d.listening[j].ms.value
  }

  /** No kept event is later than every kept event that the query dates. */
  ghost predicate NoneLater(d: Data, user: User, track: Track) {
    forall id: nat :: KeptAt(d, user, track, id) ==> Covered(d, user, track, d.listening[id].ms.value)
  }

  lemma CoveredTimes(d: Data, user: User, track: Track, t: int)
    ensures Covered(d, user, track, t) <==> exists u :: u in DatedTimes(d, user, track) && t <= u
  {
    hide ListenOf, IsDated;
    if Covered(d, user, track, t) {
      var j: nat :| KeptAt(d, user, track, j) && IsDated(d.listening[j]) && t <= d.listening[j].ms.value;
      assert d.listening[j].ms.value in DatedTimes(d, user, track);
    }
  }

  lemma NoneLaterTimes(d: Data, user: User, track: Track)
    ensures NoneLater(d, user, track) <==>
            forall t :: t in KeptTimes(d, user, track) ==> exists u :: u in DatedTimes(d, user, track) && t <= u
  {
    hide ListenOf, Covered, DatedTimes;
    forall t { CoveredTimes(d, user, track, t); }
    if !NoneLater(d, user, track) {
      var id: nat :| KeptAt(d, user, track, id) && !Covered(d, user, track, d.listening[id].ms.value);
      assert d.listening[id].ms.value in KeptTimes(d, user, track);
    }
  }

  /** The service's figures are the query's exactly when no kept event is later than every kept event
      that the query dates. */
  lemma LooseHeardAgrees(d: Data, user: User, track: Track)
    ensures LooseHeard(d, user, track) == HeardOf(d.rules, d.listening, user, track) <==> NoneLater(d, user, track)
  {
    TheirLatest(d, user, track);
    NoneLaterTimes(d, user, track);
    hide NoneLater, Latest, KeptAt;
    MaximaAgree(KeptTimes(d, user, track), DatedTimes(d, user, track));
  }

  /** The service's rebuild agrees with the query for a track exactly when no kept event of that user
      and track, such as a progress report without listening, is later than every kept event that the
      query dates.  Other users are not touched. */
  lemma RebuildUserAgrees(d: Data, a: Activity, user: User, track: Track)
    ensures At(RebuildUser(d, a, user), user, track) == FromScratch(d, user, track) <==> NoneLater(d, user, track)
    ensures forall u, t :: u != user ==> At(RebuildUser(d, a, user), u, t) == At(a, u, t)
  {
    hide HeardKeys, PlayedKeys, HeardOf, PlayedOf, LooseHeard, NoneLater, UpsertPlayed, InsertHeard;
    Inserted(d, DeleteRows(a, user), user, track);
    LooseHeardAgrees(d, user, track);
    NoGroupNoRow(d, user, track);
    if (user, track) !in HeardKeys(d) {
      NoGroupLoosely(d, user, track);
    }
  }

  lemma NoGroupLoosely(d: Data, u: User, t: Track)
    requires (u, t) !in HeardKeys(d)
    ensures LooseHeard(d, u, t) == NOT_HEARD
  {
    NoGroupNoRow(d, u, t);
    hide HeardKeys;
  }

  /** An event between the first two statements whose trigger makes a row under one of the keys makes
      the insert fail: all other tracks of the user lose their listening figures, whatever they were. */
  lemma InterruptedRebuild(d: Data, a: Activity, user: User, track: Track, other: Track)
    requires user in d.users && (user, other) in HeardKeys(d) && other != track
    ensures var interrupted := RefreshHeard(d, DeleteRows(a, user), user, other);
            At(UpsertPlayed(d, InsertHeard(d, interrupted, user), user), user, track).heard == NOT_HEARD
  {
    hide HeardKeys, PlayedKeys, HeardOf, PlayedOf, LooseHeard, UpsertPlayed, InsertHeard;
    var interrupted := RefreshHeard(d, DeleteRows(a, user), user, other);
    assert (user, other) in HeardKeys(d) && (user, other).0 == user && (user, other) in interrupted;
    assert At(interrupted, user, track) == ZERO;
    hide RefreshHeard, DeleteRows, At;
    Inserted(d, interrupted, user, track);
  }

  /** A play of one track that arrives between the statements: the play of the other is no longer in
      the table, though the query still counts it. */
  lemma InterruptedRebuildLoses(user: User)
    ensures var one, two := Listen(user, "a", Play, false, true, Some(1), 1, false, None), Listen(user, "b", Play, false, true, Some(2), 2, false, None);
            var data := Data(Base, {user}, map[0 := one], map[]);
            var activity := map[(user, "a") := Row(Heard(1, 0, Some(1)), NOT_PLAYED)];
            var played := Step(State(data, DeleteRows(activity, user)), PutListen(1, two));
            && Agrees(data, activity)
            && At(UpsertPlayed(played.data, InsertHeard(played.data, played.activity, user), user), user, "a").heard == NOT_HEARD
            && FromScratch(played.data, user, "a").heard == Heard(1, 0, Some(1))
  {
    var one, two := Listen(user, "a", Play, false, true, Some(1), 1, false, None), Listen(user, "b", Play, false, true, Some(2), 2, false, None);
    var data := Data(Base, {user}, map[0 := one], map[]);
    var activity := map[(user, "a") := Row(Heard(1, 0, Some(1)), NOT_PLAYED)];
    var later := data.(listening := data.listening[1 := two]);
    OnePlayAgrees(data, activity, user, "a", 0);
    OnePlay(later, user, "a", 0);
    assert (later.listening[1].user, later.listening[1].track) in HeardKeys(later);
    hide DeleteRows, HeardKeys, PlayedKeys, HeardOf, PlayedOf, LooseHeard, UpsertPlayed, InsertHeard, RefreshHeard;
    InterruptedRebuild(later, activity, user, "a", "b");
  }

  /** A table whose one row stands for the one event there is. */
  lemma OnePlayAgrees(d: Data, a: Activity, user: User, track: Track, id: nat)
    requires KeptAt(d, user, track, id) && d.listening[id].kind == Play && d.listening.Keys == {id} && d.recent == map[]
    requires d.users == {user} && a.Keys == {(user, track)}
    requires a[(user, track)] == Row(Heard(1, 0, d.listening[id].ms), NOT_PLAYED)
    ensures Agrees(d, a)
  {
    OnePlay(d, user, track, id);
    NoPlayedKeys(d, user, track);
    forall u, t | u in d.users ensures At(a, u, t) == FromScratch(d, u, t) {
      if t != track {
        NothingHeard(d, u, t);
      }
    }
  }

  /** A user and track with one kept event, a play. */
  lemma OnePlay(d: Data, user: User, track: Track, id: nat)
    requires KeptAt(d, user, track, id) && d.listening[id].kind == Play
    requires forall j: nat :: j in d.listening && ListenOf(d.rules, d.listening[j], user, track) ==> j == id
    ensures HeardOf(d.rules, d.listening, user, track) == Heard(1, 0, d.listening[id].ms)
  {
    var ids := ListenIds(d.rules, d.listening, user, track);
    assert ids == {id};
    hide ListenOf;
    assert PlayIds(d.listening, ids) == {id};
    assert SkipIds(d.listening, ids) == {};
    assert DatesOf(d.listening, ids) == {d.listening[id].ms.value};
  }

  lemma NothingHeard(d: Data, user: User, track: Track)
    requires forall j: nat :: j in d.listening ==> !ListenOf(d.rules, d.listening[j], user, track)
    requires d.recent == map[]
    ensures FromScratch(d, user, track) == ZERO
  {
    assert ListenIds(d.rules, d.listening, user, track) == {};
  }

  lemma NoPlayedKeys(d: Data, user: User, track: Track)
    requires d.recent == map[]
    ensures (user, track) !in PlayedKeys(d)
    ensures PlayedOf(d.rules, d.recent, user, track) == NOT_PLAYED
  {
  }

  /** A progress report without listening, later than a play, is one such event. */
  lemma RebuildUserCanDisagree(user: User, track: Track)
    ensures var d := Data(Base, {user}, map[0 := Listen(user, track, Play, false, true, Some(1), 1, false, None),
                                            1 := Listen(user, track, Progress, false, false, Some(2), 2, false, None)], map[]);
            At(RebuildUser(d, map[], user), user, track).heard.last == Some(2) && FromScratch(d, user, track).heard.last == Some(1)
  {
    var d := Data(Base, {user}, map[0 := Listen(user, track, Play, false, true, Some(1), 1, false, None),
                                    1 := Listen(user, track, Progress, false, false, Some(2), 2, false, None)], map[]);
    TwoEvents(d, user, track);
    assert (d.listening[0].user, d.listening[0].track) in HeardKeys(d);
    hide HeardKeys, PlayedKeys, HeardOf, PlayedOf, LooseHeard, UpsertPlayed, InsertHeard;
    assert DeleteRows(map[], user) == map[];
    Inserted(d, map[], user, track);
  }

  lemma TwoEvents(d: Data, user: User, track: Track)
    requires d.listening == map[0 := Listen(user, track, Play, false, true, Some(1), 1, false, None),
                                1 := Listen(user, track, Progress, false, false, Some(2), 2, false, None)]
    requires d.rules == Base
    ensures HeardOf(d.rules, d.listening, user, track).last == Some(1) && LooseHeard(d, user, track).last == Some(2)
  {
    hide Latest;
    var ids := ListenIds(d.rules, d.listening, user, track);
    assert 0 in d.listening && 1 in d.listening;
    assert ids == {0, 1};
    assert DatesOf(d.listening, ids) == {1};
    assert (set id | id in ids && d.listening[id].ms.Some? :: d.listening[id].ms.value) == {1, 2};
    LatestIs({1}, 1);
    LatestIs({1, 2}, 2);
  }

  predicate Contributes(e: Listen) {
    IsPlay(e) || IsSkip(e) || IsDated(e)
  }

  lemma ZeroRow(d: Data, u: User, t: Track)
    ensures FromScratch(d, u, t) == ZERO <==>
            && (forall id :: id in d.listening && ListenOf(d.rules, d.listening[id], u, t) ==> !Contributes(d.listening[id]))
            && (forall id :: id in d.recent ==> !RecentOf(d.rules, d.recent[id], u, t))
  {
    hide ListenOf, RecentOf, IsPlay, IsSkip;
    var ids := ListenIds(d.rules, d.listening, u, t);
    var plays, skips := PlayIds(d.listening, ids), SkipIds(d.listening, ids);
    var dates := DatesOf(d.listening, ids);
    forall id | id in ids && Contributes(d.listening[id]) ensures plays != {} || skips != {} || dates != {} {
      if IsPlay(d.listening[id]) {
        assert id in plays;
      } else if IsSkip(d.listening[id]) {
        assert id in skips;
      } else {
        assert d.listening[id].ms.value in dates;
      }
    }
    var recents := RecentIds(d.rules, d.recent, u, t);
    assert forall id :: id in d.recent && RecentOf(d.rules, d.recent[id], u, t) ==> id in recents;
    var times := TimesOf(d.recent, recents);
    assert times != {} ==> recents != {};
  }

  /** A taste reset moves the user's starting point and deletes the user's rows.  What it leaves
      agrees with the query for a track exactly when no row kept after the new starting point
      contributes; other users are not touched. */
  lemma ResetAgrees(d: Data, a: Activity, user: User, track: Track, now: int)
    requires d.rules.Taste? && user in d.users && Agrees(d, a)
    ensures var d' := d.(rules := d.rules.(resetBefore := d.rules.resetBefore[user := now]));
            var a' := DeleteRows(a, user);
            && (At(a', user, track) == FromScratch(d', user, track) <==>
                  && (forall id :: id in d.listening && ListenOf(d'.rules, d.listening[id], user, track) ==>
                        !Contributes(d.listening[id]))
                  && (forall id :: id in d.recent ==> !RecentOf(d'.rules, d.recent[id], user, track)))
            && (forall u, t :: u in d.users && u != user ==> At(a', u, t) == FromScratch(d', u, t))
  {
    var d' := d.(rules := d.rules.(resetBefore := d.rules.resetBefore[user := now]));
    var a' := DeleteRows(a, user);
    ZeroRow(d', user, track);
    forall u, t | u in d.users && u != user ensures At(a', u, t) == FromScratch(d', u, t) {
      assert At(a, u, t) == FromScratch(d, u, t);
      SameRules(d.rules, d'.rules, d, u, t);
      hide HeardOf, PlayedOf;
    }
    hide FromScratch;
  }

  /** A play that is recorded while a reset is under way, after the new starting point was taken and
      before the rows are deleted: the query counts it, the table no longer does. */
  lemma ResetLosesLaterRow(user: User, track: Track)
    ensures var d := Data(Taste(map[], 0, map[]), {user}, map[0 := Listen(user, track, Play, false, true, Some(5), 5, false, None)], map[]);
            var a := map[(user, track) := Row(Heard(1, 0, Some(5)), NOT_PLAYED)];
            && Agrees(d, a)
            && At(DeleteRows(a, user), user, track) == ZERO
            && FromScratch(d.(rules := d.rules.(resetBefore := map[user := 3])), user, track) == Row(Heard(1, 0, Some(5)), NOT_PLAYED)
  {
    var d := Data(Taste(map[], 0, map[]), {user}, map[0 := Listen(user, track, Play, false, true, Some(5), 5, false, None)], map[]);
    var a := map[(user, track) := Row(Heard(1, 0, Some(5)), NOT_PLAYED)];
    OnePlay(d.(rules := d.rules.(resetBefore := map[user := 3])), user, track, 0);
    OnePlayAgrees(d, a, user, track, 0);
  }

  lemma SameRules(r: Rules, q: Rules, d: Data, u: User, t: Track)
    requires forall at, excluded, recording :: Kept(r, u, t, at, excluded, recording) == Kept(q, u, t, at, excluded, recording)
    ensures HeardOf(r, d.listening, u, t) == HeardOf(q, d.listening, u, t)
    ensures PlayedOf(r, d.recent, u, t) == PlayedOf(q, d.recent, u, t)
  {
    hide Kept, Latest;
    assert forall id :: id in d.listening ==> (ListenOf(r, d.listening[id], u, t) == ListenOf(q, d.listening[id], u, t));
    assert ListenIds(r, d.listening, u, t)
        == ListenIds(q, d.listening, u, t);
    assert forall id :: id in d.recent ==> (RecentOf(r, d.recent[id], u, t) == RecentOf(q, d.recent[id], u, t));
    assert RecentIds(r, d.recent, u, t)
        == RecentIds(q, d.recent, u, t);
  }

  // ---------------------------------------------------------------- the database

  /** The tables as they are changed in place, each change followed by its trigger. */
  class Database {
    var data: Data
    var activity: Activity

    ghost predicate Valid()
      reads this
    {
      Consistent(data, activity)
    }

    function View(): State
      reads this
    {
      State(data, activity)
    }

    /** Migration 43: whatever the table held, it is emptied and filled again. */
    constructor (data: Data)
      requires Owned(data, map[])
      ensures Valid() && this.data == data
    {
      this.data := data;
      activity := Fill(data, map[]);
      new;
      FillEmptyOrAgreeing(data, map[]);
      FillOwned(data, map[]);
    }

    method RefreshHeardRow(user: User, track: Track)
      modifies this`activity
      ensures activity == RefreshHeard(data, old(activity), user, track)
    {
      if user in data.users {
        var row := if (user, track) in activity then activity[(user, track)] else ZERO;
        activity := activity[(user, track) := row.(heard := HeardOf(data.rules, data.listening, user, track))];
      }
    }

    method RefreshPlayedRow(user: User, track: Track)
      modifies this`activity
      ensures activity == RefreshPlayed(data, old(activity), user, track)
    {
      if user in data.users {
        var row := if (user, track) in activity then activity[(user, track)] else ZERO;
        activity := activity[(user, track) := row.(played := PlayedOf(data.rules, data.recent, user, track))];
      }
    }

    method InsertListen(id: nat, e: Listen) returns (ok: bool)
      requires Valid()
      modifies this
      ensures Valid() && (ok <==> id !in old(data.listening) && e.user in data.users)
      ensures View() == if ok then Step(old(View()), PutListen(id, e)) else old(View())
    {
      ok := id !in data.listening && e.user in data.users;
      if ok {
        PutListenKeeps(View(), id, e);
        data := data.(listening := data.listening[id := e]);
        RefreshHeardRow(e.user, e.track);
      }
    }

    method UpdateListen(id: nat, e: Listen) returns (ok: bool)
      requires Valid()
      modifies this
      ensures Valid() && (ok <==> id in old(data.listening) && e.user in data.users)
      ensures View() == if ok then Step(old(View()), PutListen(id, e)) else old(View())
    {
      ok := id in data.listening && e.user in data.users;
      if ok {
        PutListenKeeps(View(), id, e);
        var before := data.listening[id];
        data := data.(listening := data.listening[id := e]);
        RefreshHeardRow(before.user, before.track);
        RefreshHeardRow(e.user, e.track);
      }
    }

    method DeleteListen(id: nat)
      requires Valid()
      modifies this
      ensures Valid() && View() == Step(old(View()), DropListen(id))
    {
      if id in data.listening {
        DropListenKeeps(View(), id);
        var before := data.listening[id];
        data := data.(listening := data.listening - {id});
        RefreshHeardRow(before.user, before.track);
      }
    }

    method InsertRecent(id: nat, e: Recent) returns (ok: bool)
      requires Valid()
      modifies this
      ensures Valid() && (ok <==> id !in old(data.recent) && e.user in data.users)
      ensures View() == if ok then Step(old(View()), PutRecent(id, e)) else old(View())
    {
      ok := id !in data.recent && e.user in data.users;
      if ok {
        PutRecentKeeps(View(), id, e);
        data := data.(recent := data.recent[id := e]);
        RefreshPlayedRow(e.user, e.track);
      }
    }

    method UpdateRecent(id: nat, e: Recent) returns (ok: bool)
      requires Valid()
      modifies this
      ensures Valid() && (ok <==> id in old(data.recent) && e.user in data.users)
      ensures View() == if ok then Step(old(View()), PutRecent(id, e)) else old(View())
    {
      ok := id in data.recent && e.user in data.users;
      if ok {
        PutRecentKeeps(View(), id, e);
        var before := data.recent[id];
        data := data.(recent := data.recent[id := e]);
        RefreshPlayedRow(before.user, before.track);
        RefreshPlayedRow(e.user, e.track);
      }
    }

    method DeleteRecent(id: nat)
      requires Valid()
      modifies this
      ensures Valid() && View() == Step(old(View()), DropRecent(id))
    {
      if id in data.recent {
        DropRecentKeeps(View(), id);
        var before := data.recent[id];
        data := data.(recent := data.recent - {id});
        RefreshPlayedRow(before.user, before.track);
      }
    }
  }

  lemma FillOwned(d: Data, a: Activity)
    requires Owned(d, a)
    ensures Owned(d, Fill(d, a))
  {
    hide HeardOf, PlayedOf;
  }
}
