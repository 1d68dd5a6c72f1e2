/** The submission window of the acquisition service: one vector of admission times for everybody
    and one per user, each pruned only when it is consulted.  The clock is read before the lock is
    taken, so the readings need not come in the order in which the vectors are consulted. */
module AcquisitionWindow {
  import opened Prelude

  datatype Limits = Limits(maxPending: nat, maxPendingPerUser: nat, windowMs: int, global: nat, perUser: nat)

  /** A submission that found `pending` unfinished jobs, `pendingOfUser` of them the caller's, and
      read the clock at `now`. */
  datatype Submission = Submission(user: string, now: int, pending: nat, pendingOfUser: nat)

  /** How far a submission came: refused for the unfinished jobs, by the vector of everybody, by the
      vector of its user, or not at all. */
  datatype Reach = Pending | Global | User | Admitted

  datatype Visit = Visit(s: Submission, reach: Reach)

  // ---------------------------------------------------------------- the full history

  /** Whether the visit consulted, and so pruned, the vector of one user or of everybody. */
  predicate Prunes(v: Visit, who: Option<string>) {
    match who
    case None => v.reach != Pending
    case Some(user) => (v.reach == User || v.reach == Admitted) && v.s.user == user
  }

  /** Whether the visit is an admission of that user, or of anybody. */
  predicate Admission(v: Visit, who: Option<string>) {
    v.reach == Admitted && (who == None || who == Some(v.s.user))
  }

  /** The readings of the admissions of one user, or of everybody, in the order of the lock. */
  function Times(h: seq<Visit>, who: Option<string>): seq<int> {
    if h == [] then []
    else
      var rest, v := Times(h[..|h| - 1], who), h[|h| - 1];
      if Admission(v, who) then rest + [v.s.now] else rest
  }

  /** `retain`: the times after the cutoff, in order. */
  function After(ts: seq<int>, cutoff: int): (kept: seq<int>)
    ensures |kept| <= |ts|
  {
    if ts == [] then []
    else
      var rest, t := After(ts[..|ts| - 1], cutoff), ts[|ts| - 1];
      if t > cutoff then rest + [t] else rest
  }

  /** The number of admissions of `who` with a reading in the half-open interval `(from, to]`. */
  function CountIn(h: seq<Visit>, who: Option<string>, from: int, to: int): nat {
    if h == [] then 0
    else
      CountIn(h[..|h| - 1], who, from, to)
      + (if Admission(h[|h| - 1], who) && from < h[|h| - 1].s.now <= to then 1 else 0)
  }

  function Limit(l: Limits, who: Option<string>): nat {
    if who == None then l.global else l.perUser
  }

  /** The decision that the full history of admissions calls for. */
  predicate Admits(l: Limits, h: seq<Visit>, s: Submission) {
    && s.pending < l.maxPending
    && s.pendingOfUser < l.maxPendingPerUser
    && |After(Times(h, None), s.now - l.windowMs)| < l.global
    && |After(Times(h, Some(s.user)), s.now - l.windowMs)| < l.perUser
  }

  // ---------------------------------------------------------------- the window as it runs

  /** What the vector of `who` holds after a history: every visit that consults it drops what its own
      cutoff drops, and an admission appends its reading. */
  function Kept(window: int, h: seq<Visit>, who: Option<string>): seq<int> {
    if h == [] then []
    else
      var rest, v := Kept(window, h[..|h| - 1], who), h[|h| - 1];
      var pruned := if Prunes(v, who) then After(rest, v.s.now - window) else rest;
      if Admission(v, who) then pruned + [v.s.now] else pruned
  }

  function Decide(l: Limits, h: seq<Visit>, s: Submission): Reach {
    if s.pending >= l.maxPending || s.pendingOfUser >= l.maxPendingPerUser then Pending
    else if |After(Kept(l.windowMs, h, None), s.now - l.windowMs)| >= l.global then Global
    else if |After(Kept(l.windowMs, h, Some(s.user)), s.now - l.windowMs)| >= l.perUser then User
    else Admitted
  }

  function Step(l: Limits, h: seq<Visit>, s: Submission): seq<Visit> {
    h + [Visit(s, Decide(l, h, s))]
  }

  function Run(l: Limits, submissions: seq<Submission>): seq<Visit> {
    if submissions == [] then []
    else Step(l, Run(l, submissions[..|submissions| - 1]), submissions[|submissions| - 1])
  }

  datatype Vectors = Vectors(everybody: seq<int>, perUser: map<string, seq<int>>) {
    /** The stored times of one user, or of everybody. */
    function Of(who: Option<string>): seq<int> {
      match who
      case None => everybody
      case Some(user) => if user in perUser then perUser[user] else []
    }
  }

  class RateWindow {
    const limits: Limits
    var globalTimestamps: seq<int>
    var perUserTimestamps: map<string, seq<int>>

    ghost var history: seq<Visit>

    function Stored(): Vectors
      reads this
    {
      Vectors(globalTimestamps, perUserTimestamps)
    }

    /** The vectors are what replaying the history leaves. */
    ghost predicate Valid()
      reads this
    {
      forall who :: Stored().Of(who) == Kept(limits.windowMs, history, who)
    }

    constructor (limits: Limits)
      ensures Valid() && this.limits == limits && history == []
    {
      this.limits := limits;
      globalTimestamps, perUserTimestamps := [], map[];
      history := [];
    }

    /** Admits exactly when the stored vectors leave room; `Decides` says what that means in terms of
        all admissions ever made. */
    method Check(s: Submission) returns (ok: bool)
      requires Valid()
      modifies this
      ensures Valid()
      ensures history == Step(limits, old(history), s)
      ensures ok == (history[|history| - 1].reach == Admitted)
      ensures ok ==> forall who :: who == None || who == Some(s.user) ==>
                       s.now in Stored().Of(who) && |Stored().Of(who)| <= Limit(limits, who)
      ensures forall user :: user != s.user ==> Stored().Of(Some(user)) == old(Stored().Of(Some(user)))
    {
      hide After, Kept;
      var cutoff := s.now - limits.windowMs;
      ghost var before, was := Stored(), history;
      assert forall who :: before.Of(who) == Kept(limits.windowMs, was, who);
      history := was + [Visit(s, Decide(limits, was, s))];
      Replayed(limits.windowMs, before, was, Visit(s, Decide(limits, was, s)));
      if s.pending >= limits.maxPending {
        return false;
      }
      if s.pendingOfUser >= limits.maxPendingPerUser {
        return false;
      }
      globalTimestamps := After(globalTimestamps, cutoff);
      if |globalTimestamps| >= limits.global {
        return false;
      }
      var userVec := After(Stored().Of(Some(s.user)), cutoff);
      perUserTimestamps := perUserTimestamps[s.user := userVec];
      if |userVec| >= limits.perUser {
        return false;
      }
      perUserTimestamps := perUserTimestamps[s.user := userVec + [s.now]];
      globalTimestamps := globalTimestamps + [s.now];
      return true;
    }
  }

  /** The vectors after one more visit. */
  function Visited(window: int, v: Vectors, visit: Visit): Vectors {
    var user, cutoff := visit.s.user, visit.s.now - window;
    match visit.reach
    case Pending => v
    case Global => v.(everybody := After(v.everybody, cutoff))
    case User => Vectors(After(v.everybody, cutoff), v.perUser[user := After(v.Of(Some(user)), cutoff)])
    case Admitted => Vectors(After(v.everybody, cutoff) + [visit.s.now],
                             v.perUser[user := After(v.Of(Some(user)), cutoff) + [visit.s.now]])
  }

  lemma Replayed(window: int, v: Vectors, h: seq<Visit>, visit: Visit)
    requires forall who :: v.Of(who) == Kept(window, h, who)
    ensures forall who :: Visited(window, v, visit).Of(who) == Kept(window, h + [visit], who)
  {
    hide After, Kept;
    forall who ensures Visited(window, v, visit).Of(who) == Kept(window, h + [visit], who) {
      assert v.Of(who) == Kept(window, h, who);
      KeptSnoc(window, h, visit, who);
    }
  }

  // ---------------------------------------------------------------- one more visit

  lemma KeptSnoc(window: int, h: seq<Visit>, v: Visit, who: Option<string>)
    ensures var rest := Kept(window, h, who);
            var pruned := if Prunes(v, who) then After(rest, v.s.now - window) else rest;
            Kept(window, h + [v], who) == if Admission(v, who) then pruned + [v.s.now] else pruned
  {
    assert (h + [v])[..|h|] == h;
  }

  lemma TimesSnoc(h: seq<Visit>, v: Visit, who: Option<string>)
    ensures Times(h + [v], who) == if Admission(v, who) then Times(h, who) + [v.s.now] else Times(h, who)
  {
    assert (h + [v])[..|h|] == h;
  }

  lemma CountSnoc(h: seq<Visit>, v: Visit, who: Option<string>, from: int, to: int)
    ensures CountIn(h + [v], who, from, to)
         == CountIn(h, who, from, to) + (if Admission(v, who) && from < v.s.now <= to then 1 else 0)
  {
    assert (h + [v])[..|h|] == h;
  }

  lemma AfterSnoc(ts: seq<int>, t: int, cutoff: int)
    ensures After(ts + [t], cutoff) == if t > cutoff then After(ts, cutoff) + [t] else After(ts, cutoff)
  {
    assert (ts + [t])[..|ts|] == ts;
  }

  /** Pruning twice is pruning at the later cutoff: it does not matter how often or late a vector is
      pruned, only how far. */
  lemma {:induction false} AfterTwice(ts: seq<int>, cutoff: int, c: int)
    ensures After(After(ts, cutoff), c) == After(ts, if c >= cutoff then c else cutoff)
  {
    if ts != [] {
      var rest, t := ts[..|ts| - 1], ts[|ts| - 1];
      AfterTwice(rest, cutoff, c);
      AfterSnoc(After(rest, cutoff), t, c);
    }
  }

  /** Some time lies after one cutoff but not after another. */
  predicate Between(ts: seq<int>, from: int, to: int) {
    exists t :: t in ts && from < t <= to
  }

  /** A later cutoff leaves no more, and as much only when nothing lies between the two. */
  lemma {:induction false} AfterLater(ts: seq<int>, cutoff: int, c: int)
    requires cutoff <= c
    ensures |After(ts, c)| <= |After(ts, cutoff)|
    ensures |After(ts, c)| == |After(ts, cutoff)| <==> !Between(ts, cutoff, c)
    ensures |After(ts, c)| == |After(ts, cutoff)| ==> After(ts, c) == After(ts, cutoff)
  {
    if ts != [] {
      var rest, t := ts[..|ts| - 1], ts[|ts| - 1];
      AfterLater(rest, cutoff, c);
      assert ts == rest + [t];
      if cutoff < t <= c {
        assert t in ts;
      } else {
        assert forall u :: u in ts && cutoff < u <= c ==> u in rest;
        assert forall u :: u in rest ==> u in ts;
      }
    }
  }

  lemma {:induction false} TimesAre(h: seq<Visit>, who: Option<string>)
    ensures forall i :: 0 <= i < |h| && Admission(h[i], who) ==> h[i].s.now in Times(h, who)
    ensures forall t :: t in Times(h, who) ==> exists i :: 0 <= i < |h| && Admission(h[i], who) && h[i].s.now == t
  {
    if h != [] {
      TimesAre(h[..|h| - 1], who);
    }
  }

  // ---------------------------------------------------------------- what a decision misses

  /** Whether a later visit pruned admission `i` of `who` from its vector. */
  ghost predicate Dropped(window: int, h: seq<Visit>, who: Option<string>, i: nat)
    requires i < |h|
  {
    exists j :: i < j < |h| && Prunes(h[j], who) && h[j].s.now - window >= h[i].s.now
  }

  /** Some admission of `who` that counts at the cutoff is no longer stored. */
  ghost predicate Missing(window: int, h: seq<Visit>, who: Option<string>, cutoff: int) {
    exists i: nat :: i < |h| && Admission(h[i], who) && h[i].s.now > cutoff && Dropped(window, h, who, i)
  }

  /** In every history, however its readings are ordered, the stored vector holds after a cutoff no
      more than the full history does, and the very same exactly when no admission that counts was
      pruned by a visit with a later reading. */
  lemma {:induction false} StoredExactly(window: int, h: seq<Visit>, who: Option<string>, cutoff: int)
    ensures |After(Kept(window, h, who), cutoff)| <= |After(Times(h, who), cutoff)|
    ensures After(Kept(window, h, who), cutoff) == After(Times(h, who), cutoff) <==> !Missing(window, h, who, cutoff)
    ensures |After(Kept(window, h, who), cutoff)| == |After(Times(h, who), cutoff)| <==> !Missing(window, h, who, cutoff)
  {
    hide *;
    if h == [] {
      StoredAtFirst(window, who, cutoff);
    } else {
      var rest, v := h[..|h| - 1], h[|h| - 1];
      var c := if Prunes(v, who) && v.s.now - window > cutoff then v.s.now - window else cutoff;
      StoredExactly(window, rest, who, c);
      StoredSnoc(window, rest, v, who, cutoff, c);
      assert h == rest + [v];
    }
  }

  lemma StoredSnoc(window: int, h: seq<Visit>, v: Visit, who: Option<string>, cutoff: int, c: int)
    requires c == if Prunes(v, who) && v.s.now - window > cutoff then v.s.now - window else cutoff
    requires |After(Kept(window, h, who), c)| <= |After(Times(h, who), c)|
    requires After(Kept(window, h, who), c) == After(Times(h, who), c) <==> !Missing(window, h, who, c)
    requires |After(Kept(window, h, who), c)| == |After(Times(h, who), c)| <==> !Missing(window, h, who, c)
    ensures |After(Kept(window, h + [v], who), cutoff)| <= |After(Times(h + [v], who), cutoff)|
    ensures After(Kept(window, h + [v], who), cutoff) == After(Times(h + [v], who), cutoff)
       <==> !Missing(window, h + [v], who, cutoff)
    ensures |After(Kept(window, h + [v], who), cutoff)| == |After(Times(h + [v], who), cutoff)|
       <==> !Missing(window, h + [v], who, cutoff)
  {
    hide *;
    var kept, times := Kept(window, h, who), Times(h, who);
    var pruned := if Prunes(v, who) then After(kept, v.s.now - window) else kept;
    AfterTwice(kept, v.s.now - window, cutoff);
    assert After(pruned, cutoff) == After(kept, c);
    AfterLater(times, cutoff, c);
    MissingSnoc(window, h, v, who, cutoff, c);
    KeptSnoc(window, h, v, who);
    TimesSnoc(h, v, who);
    AfterSnoc(pruned, v.s.now, cutoff);
    AfterSnoc(times, v.s.now, cutoff);
    SameTail(After(pruned, cutoff), After(times, cutoff), v.s.now);
  }

  lemma StoredAtFirst(window: int, who: Option<string>, cutoff: int)
    ensures After(Kept(window, [], who), cutoff) == After(Times([], who), cutoff)
    ensures !Missing(window, [], who, cutoff)
  {
  }

  lemma SameTail(a: seq<int>, b: seq<int>, t: int)
    ensures a + [t] == b + [t] <==> a == b
  {
    assert (a + [t])[..|a|] == a && (b + [t])[..|b|] == b;
  }

  /** What a further visit makes go missing: what was missing at the cutoff it leaves, and every
      admission that its own cutoff drops. */
  lemma MissingSnoc(window: int, h: seq<Visit>, v: Visit, who: Option<string>, cutoff: int, c: int)
    requires c == if Prunes(v, who) && v.s.now - window > cutoff then v.s.now - window else cutoff
    ensures Missing(window, h + [v], who, cutoff) <==> Missing(window, h, who, c) || Between(Times(h, who), cutoff, c)
  {
    if Missing(window, h + [v], who, cutoff) {
      MissingBefore(window, h, v, who, cutoff, c);
    }
    if Missing(window, h, who, c) {
      MissingStill(window, h, v, who, cutoff, c);
    }
    if Between(Times(h, who), cutoff, c) {
      MissingNow(window, h, v, who, cutoff, c);
    }
  }

  lemma MissingBefore(window: int, h: seq<Visit>, v: Visit, who: Option<string>, cutoff: int, c: int)
    requires c == if Prunes(v, who) && v.s.now - window > cutoff then v.s.now - window else cutoff
    requires Missing(window, h + [v], who, cutoff)
    ensures Missing(window, h, who, c) || Between(Times(h, who), cutoff, c)
  {
    hide Times;
    var h' := h + [v];
    var i: nat :| i < |h'| && Admission(h'[i], who) && h'[i].s.now > cutoff && Dropped(window, h', who, i);
    var j :| i < j < |h'| && Prunes(h'[j], who) && h'[j].s.now - window >= h'[i].s.now;
    assert h'[i] == h[i];
    if h[i].s.now <= c {
      TimesAre(h, who);
      assert h[i].s.now in Times(h, who);
    } else {
      assert h'[j] == h[j];
      assert Dropped(window, h, who, i);
    }
  }

  lemma MissingStill(window: int, h: seq<Visit>, v: Visit, who: Option<string>, cutoff: int, c: int)
    requires cutoff <= c && Missing(window, h, who, c)
    ensures Missing(window, h + [v], who, cutoff)
  {
    var h' := h + [v];
    var i: nat :| i < |h| && Admission(h[i], who) && h[i].s.now > c && Dropped(window, h, who, i);
    var j :| i < j < |h| && Prunes(h[j], who) && h[j].s.now - window >= h[i].s.now;
    assert h'[i] == h[i] && h'[j] == h[j];
    assert Dropped(window, h', who, i);
  }

  lemma MissingNow(window: int, h: seq<Visit>, v: Visit, who: Option<string>, cutoff: int, c: int)
    requires c == if Prunes(v, who) && v.s.now - window > cutoff then v.s.now - window else cutoff
    requires Between(Times(h, who), cutoff, c)
    ensures Missing(window, h + [v], who, cutoff)
  {
    hide Times;
    var h' := h + [v];
    var t :| t in Times(h, who) && cutoff < t <= c;
    TimesAre(h, who);
    var i: nat :| i < |h| && Admission(h[i], who) && h[i].s.now == t;
    assert h'[i] == h[i] && h'[|h|] == v;
    assert Dropped(window, h', who, i);
  }

  /** A decision refuses nobody whom the full history admits, and it is the one that the full history
      calls for unless an admission that counts is missing from a vector it consults. */
  lemma Decides(l: Limits, h: seq<Visit>, s: Submission)
    ensures Admits(l, h, s) ==> Decide(l, h, s) == Admitted
    ensures Decide(l, h, s) == Admitted && !Admits(l, h, s) ==>
              exists who :: (who == None || who == Some(s.user))
                         && Missing(l.windowMs, h, who, s.now - l.windowMs)
                         && |After(Times(h, who), s.now - l.windowMs)| >= Limit(l, who)
  {
    hide Missing, After, Times, Kept;
    StoredExactly(l.windowMs, h, None, s.now - l.windowMs);
    StoredExactly(l.windowMs, h, Some(s.user), s.now - l.windowMs);
  }

  // ---------------------------------------------------------------- readings that go back little

  /** Of the visits that read the clock, a later one reads at most `skew` less than an earlier one. */
  ghost predicate GoesBack(h: seq<Visit>, skew: int) {
    forall i, j :: 0 <= i < j < |h| && h[i].reach != Pending && h[j].reach != Pending ==>
      h[i].s.now - skew <= h[j].s.now
  }

  /** When readings go back by less than the window, something that counts is missing exactly when an
      admission lies between the cutoff and the cutoff of the latest visit that consulted the vector. */
  lemma MissingBetween(window: int, skew: nat, h: seq<Visit>, who: Option<string>, cutoff: int, latest: int)
    requires GoesBack(h, skew) && skew < window
    requires exists j :: 0 <= j < |h| && Prunes(h[j], who) && h[j].s.now == latest
    requires forall j :: 0 <= j < |h| && Prunes(h[j], who) ==> h[j].s.now <= latest
    ensures Missing(window, h, who, cutoff)
       <==> exists i :: 0 <= i < |h| && Admission(h[i], who) && cutoff < h[i].s.now <= latest - window
  {
    if i: nat :| i < |h| && Admission(h[i], who) && h[i].s.now > cutoff && Dropped(window, h, who, i) {
      assert h[i].s.now <= latest - window;
    }
    if i: nat :| i < |h| && Admission(h[i], who) && cutoff < h[i].s.now <= latest - window {
      var j :| 0 <= j < |h| && Prunes(h[j], who) && h[j].s.now == latest;
      if j <= i {
        assert false;
      } else {
        assert Dropped(window, h, who, i);
      }
    }
  }

  /** In every run whose readings go back by at most `skew`, every interval shorter by `skew` than the
      window holds at most the global limit of admissions, and at most the per-user limit of each user. */
  lemma {:induction false} SkewedWindow(l: Limits, submissions: seq<Submission>, skew: nat, who: Option<string>, T: int)
    requires GoesBack(Run(l, submissions), skew)
    ensures CountIn(Run(l, submissions), who, T - (l.windowMs - skew), T) <= Limit(l, who)
  {
    if submissions != [] {
      var s := submissions[|submissions| - 1];
      var h := Run(l, submissions[..|submissions| - 1]);
      var v := Visit(s, Decide(l, h, s));
      assert Run(l, submissions) == h + [v];
      assert GoesBack(h, skew) by {
        forall i, j | 0 <= i < j < |h| && h[i].reach != Pending && h[j].reach != Pending
          ensures h[i].s.now - skew <= h[j].s.now
        {
          assert (h + [v])[i] == h[i] && (h + [v])[j] == h[j];
        }
      }
      SkewedWindow(l, submissions[..|submissions| - 1], skew, who, T);
      hide Run, CountIn, GoesBack;
      CountSnoc(h, v, who, T - (l.windowMs - skew), T);
      if Admission(v, who) && s.now <= T {
        RoomLeft(l, h, s, skew, who, T);
      }
    }
  }

  /** Every earlier admission in the interval is still stored when the next one is decided. */
  lemma RoomLeft(l: Limits, h: seq<Visit>, s: Submission, skew: nat, who: Option<string>, T: int)
    requires GoesBack(h + [Visit(s, Admitted)], skew)
    requires Decide(l, h, s) == Admitted && (who == None || who == Some(s.user)) && s.now <= T
    ensures CountIn(h, who, T - (l.windowMs - skew), T) < Limit(l, who)
  {
    hide Missing, After, Kept, Times, CountIn, GoesBack;
    var from := T - (l.windowMs - skew);
    NoneMissing(l.windowMs, h, s, skew, who, from);
    StoredExactly(l.windowMs, h, who, from);
    AfterLater(Kept(l.windowMs, h, who), s.now - l.windowMs, from);
    CountWithin(h, who, from, T);
  }

  lemma NoneMissing(window: int, h: seq<Visit>, s: Submission, skew: nat, who: Option<string>, cutoff: int)
    requires GoesBack(h + [Visit(s, Admitted)], skew)
    requires s.now - (window - skew) <= cutoff
    ensures !Missing(window, h, who, cutoff)
  {
    var h' := h + [Visit(s, Admitted)];
    forall j | 0 <= j < |h| && Prunes(h[j], who) ensures h[j].s.now - skew <= s.now {
      assert h'[j] == h[j] && h'[|h|].s == s;
    }
  }

  lemma {:induction false} CountWithin(h: seq<Visit>, who: Option<string>, cutoff: int, now: int)
    ensures CountIn(h, who, cutoff, now) <= |After(Times(h, who), cutoff)|
    ensures (forall i :: 0 <= i < |h| && Admission(h[i], who) ==> h[i].s.now <= now) ==>
              CountIn(h, who, cutoff, now) == |After(Times(h, who), cutoff)|
  {
    if h != [] {
      var rest, v := h[..|h| - 1], h[|h| - 1];
      CountWithin(rest, who, cutoff, now);
      assert h == rest + [v];
      TimesSnoc(rest, v, who);
      AfterSnoc(Times(rest, who), v.s.now, cutoff);
    }
  }

  /** Readings in order are the case without skew: a true sliding window. */
  lemma SlidingWindow(l: Limits, submissions: seq<Submission>, who: Option<string>, T: int)
    requires GoesBack(Run(l, submissions), 0)
    ensures CountIn(Run(l, submissions), who, T - l.windowMs, T) <= Limit(l, who)
  {
    SkewedWindow(l, submissions, 0, who, T);
  }

  // ---------------------------------------------------------------- a reading that goes back far

  /** A reading taken before the lock and used after one that is a whole window later finds the
      earlier admissions pruned: both the global and the per-user limit of two are exceeded. */
  lemma StaleReadingExceedsLimit(user: string)
    ensures var l := Limits(9, 9, 5, 2, 2);
            var h := Run(l, [Submission(user, 4, 0, 0), Submission(user, 5, 1, 1), Submission(user, 10, 2, 2),
                             Submission(user, 5, 3, 3)]);
            && CountIn(h, None, 0, 5) == 3 > l.global
            && CountIn(h, Some(user), 0, 5) == 3 > l.perUser
  {
    hide After, Kept, CountIn, Run;
    var l := Limits(9, 9, 5, 2, 2);
    var a, b, c, d := Submission(user, 4, 0, 0), Submission(user, 5, 1, 1), Submission(user, 10, 2, 2), Submission(user, 5, 3, 3);
    StaleAfter();
    StaleVectors(user, None);
    StaleVectors(user, Some(user));
    RunEmpty(l);
    RunSnoc(l, [], a);
    RunSnoc(l, [a], b);
    RunSnoc(l, [a, b], c);
    RunSnoc(l, [a, b, c], d);
    assert [] + [a] == [a] && [a] + [b] == [a, b] && [a, b] + [c] == [a, b, c] && [a, b, c] + [d] == [a, b, c, d];
    assert Run(l, [a]) == [Visit(a, Admitted)];
    assert Run(l, [a, b]) == [Visit(a, Admitted), Visit(b, Admitted)];
    assert Run(l, [a, b, c]) == [Visit(a, Admitted), Visit(b, Admitted), Visit(c, Admitted)];
    assert Run(l, [a, b, c, d]) == [Visit(a, Admitted), Visit(b, Admitted), Visit(c, Admitted), Visit(d, Admitted)];
  }

  /** The four readings leave these vectors behind, of everybody and of the user alike. */
  lemma StaleVectors(user: string, who: Option<string>)
    requires who == None || who == Some(user)
    ensures var a, b, c, d := Visit(Submission(user, 4, 0, 0), Admitted), Visit(Submission(user, 5, 1, 1), Admitted),
                              Visit(Submission(user, 10, 2, 2), Admitted), Visit(Submission(user, 5, 3, 3), Admitted);
            && Kept(5, [], who) == [] && Kept(5, [a], who) == [4]
            && Kept(5, [a, b], who) == [4, 5] && Kept(5, [a, b, c], who) == [10]
            && CountIn([a, b, c, d], who, 0, 5) == 3
  {
    hide *;
    var a, b, c, d := Visit(Submission(user, 4, 0, 0), Admitted), Visit(Submission(user, 5, 1, 1), Admitted),
                      Visit(Submission(user, 10, 2, 2), Admitted), Visit(Submission(user, 5, 3, 3), Admitted);
    StaleAfter();
    AtFirst(5, who, 0, 5);
    PushedBy(5, [], a, who, 0, 5);
    PushedBy(5, [a], b, who, 0, 5);
    PushedBy(5, [a, b], c, who, 0, 5);
    PushedBy(5, [a, b, c], d, who, 0, 5);
    assert [] + [4] == [4] && [4] + [5] == [4, 5] && [] + [10] == [10];
    assert [] + [a] == [a] && [a] + [b] == [a, b] && [a, b] + [c] == [a, b, c] && [a, b, c] + [d] == [a, b, c, d];
  }

  lemma AtFirst(window: int, who: Option<string>, from: int, to: int)
    ensures Kept(window, [], who) == [] && CountIn([], who, from, to) == 0
  {
  }

  lemma PushedBy(window: int, h: seq<Visit>, v: Visit, who: Option<string>, from: int, to: int)
    requires v.reach == Admitted && (who == None || who == Some(v.s.user))
    ensures Kept(window, h + [v], who) == After(Kept(window, h, who), v.s.now - window) + [v.s.now]
    ensures CountIn(h + [v], who, from, to) == CountIn(h, who, from, to) + (if from < v.s.now <= to then 1 else 0)
  {
    KeptSnoc(window, h, v, who);
    CountSnoc(h, v, who, from, to);
  }

  lemma StaleAfter()
    ensures After([], -1) == [] && After([], 0) == []
    ensures After([4], 0) == [4] && After([4, 5], 5) == [] && After([10], 0) == [10]
  {
    assert [] + [4] == [4] && [4] + [5] == [4, 5] && [] + [10] == [10];
    AfterSnoc([], 4, 0);
    AfterSnoc([], 4, 5);
    AfterSnoc([4], 5, 5);
    AfterSnoc([], 10, 0);
  }

  lemma RunEmpty(l: Limits)
    ensures Run(l, []) == []
  {
  }

  lemma RunSnoc(l: Limits, submissions: seq<Submission>, s: Submission)
    ensures Run(l, submissions + [s]) == Step(l, Run(l, submissions), s)
  {
    assert (submissions + [s])[..|submissions|] == submissions;
  }
}
