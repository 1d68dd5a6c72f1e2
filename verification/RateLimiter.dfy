/** The login rate limiter: two fixed-window buckets per attempt (client address and
    account digest), swept lazily, with a capacity ceiling that never evicts a live bucket.

    The first half is the eager limiter, whose table holds unexpired buckets only, with the
    history of every counted attempt.  The second half is the limiter as it runs, a class whose
    methods are proved to give the eager limiter's answers. */
module LoginRateLimit {
  import opened Prelude

  const MAX_SAFE_INTEGER: nat := 9007199254740991

  datatype Config = Config(windowMs: nat, ipMax: nat, accountMax: nat, maxConcurrent: nat, maxEntries: nat) {
    predicate Valid() {
      && 0 < windowMs <= MAX_SAFE_INTEGER
      && 0 < ipMax <= MAX_SAFE_INTEGER
      && 0 < accountMax <= MAX_SAFE_INTEGER
      && 0 < maxConcurrent <= MAX_SAFE_INTEGER
      && 2 <= maxEntries <= MAX_SAFE_INTEGER
    }

    function Limit(k: Key): nat {
      if k.Ip? then ipMax else accountMax
    }
  }

  datatype Key = Ip(address: string) | Account(digest: string)

  datatype Bucket = Bucket(attempts: nat, expiresAt: nat)

  type Table = map<Key, Bucket>

  datatype Verdict = Allowed | Denied(retryAfterSecs: nat)

  /** One attempt counted against one key; `start` is when the bucket that counted it was opened. */
  datatype Hit = Hit(key: Key, at: nat, start: nat)

  // ---------------------------------------------------------------- the eager limiter

  /** The buckets of `t` that have not expired at `now`. */
  function Live(t: Table, now: nat): (live: Table)
    ensures forall k :: k in live ==> live[k].expiresAt > now
  {
    map k | k in t && t[k].expiresAt > now :: t[k]
  }

  function RetrySeconds(ms: nat): (s: nat)
    ensures s >= 1
    ensures ms <= s * 1000
    ensures s == 1 || (s - 1) * 1000 < ms
  {
    if ms <= 1000 then 1 else (ms + 999) / 1000
  }

  predicate Exhausted(cfg: Config, t: Table, k: Key) {
    k in t && t[k].attempts >= cfg.Limit(k)
  }

  function LaterExpiry(cfg: Config, t: Table, a: Key, b: Key): nat {
    var ea := if Exhausted(cfg, t, a) then t[a].expiresAt else 0;
    var eb := if Exhausted(cfg, t, b) then t[b].expiresAt else 0;
    if ea < eb then eb else ea
  }

  ghost predicate IsEarliest(t: Table, e: nat) {
    && (exists k :: k in t && t[k].expiresAt == e)
    && (forall k :: k in t ==> e <= t[k].expiresAt)
  }

  lemma EarliestExists(t: Table)
    requires t != map[]
    ensures exists e: nat :: IsEarliest(t, e)
  {
    var k :| k in t;
    var rest := t - {k};
    if rest == map[] {
      assert forall j :: j in t && j != k ==> j in rest;
      assert IsEarliest(t, t[k].expiresAt);
    } else {
      EarliestExists(rest);
      var e: nat :| IsEarliest(rest, e);
      var j :| j in rest && rest[j].expiresAt == e;
      assert forall i :: i in t && i != k ==> i in rest && rest[i] == t[i];
      if e <= t[k].expiresAt {
        assert t[j].expiresAt == e;
        assert IsEarliest(t, e);
      } else {
        assert IsEarliest(t, t[k].expiresAt);
      }
    }
  }

  ghost function EarliestExpiry(t: Table): (e: nat)
    requires t != map[]
    ensures IsEarliest(t, e)
  {
    EarliestExists(t);
    var e: nat :| IsEarliest(t, e);
    e
  }

  /** The answer to an attempt, given only unexpired buckets. */
  ghost function EagerVerdict(cfg: Config, live: Table, active: nat, now: nat, ip: Key, account: Key): Verdict
    requires cfg.Valid()
    requires forall k :: k in live ==> live[k].expiresAt > now
  {
    if Exhausted(cfg, live, ip) || Exhausted(cfg, live, account) then
      Denied(RetrySeconds(LaterExpiry(cfg, live, ip, account) - now))
    else if active >= cfg.maxConcurrent then
      Denied(1)
    else if |live.Keys + {ip, account}| > cfg.maxEntries then
      NotEmptyWhenFull(cfg, live, ip, account);
      Denied(RetrySeconds(EarliestExpiry(live) - now))
    else
      Allowed
  }

  lemma NotEmptyWhenFull(cfg: Config, live: Table, ip: Key, account: Key)
    requires cfg.Valid()
    ensures |live.Keys + {ip, account}| > cfg.maxEntries ==> live != map[]
  {
    assert live == map[] ==> live.Keys + {ip, account} == {ip, account};
    assert {ip, account} == if ip == account then {ip} else {ip, account};
  }

  /** A bucket of the attempt that has not expired at `now` and has counted as many attempts as its kind
      of key allows. */
  predicate Reached(cfg: Config, t: Table, now: nat, k: Key) {
    k in t && t[k].expiresAt > now && (if k.Ip? then cfg.ipMax <= t[k].attempts else cfg.accountMax <= t[k].attempts)
  }

  /** Keys with a bucket that has not expired at `now`. */
  function Unexpired(t: Table, now: nat): set<Key> {
    set k | k in t && t[k].expiresAt > now
  }

  /** An attempt is admitted exactly when neither of its buckets has reached its limit, a slot is free and
      its buckets have room beside the unexpired ones. */
  lemma AdmittedWhen(cfg: Config, t: Table, active: nat, now: nat, ip: Key, account: Key)
    requires cfg.Valid()
    ensures EagerVerdict(cfg, Live(t, now), active, now, ip, account) == Allowed <==>
            && !Reached(cfg, t, now, ip) && !Reached(cfg, t, now, account)
            && active < cfg.maxConcurrent && |Unexpired(t, now) + {ip, account}| <= cfg.maxEntries
  {
    assert Live(t, now).Keys == Unexpired(t, now);
  }

  /** The delay of a refusal by a limit is the least one, from one second on, after which both buckets have
      left their limits. */
  lemma LimitDelay(cfg: Config, t: Table, active: nat, now: nat, ip: Key, account: Key)
    requires cfg.Valid() && (Reached(cfg, t, now, ip) || Reached(cfg, t, now, account))
    ensures var v := EagerVerdict(cfg, Live(t, now), active, now, ip, account);
            && v.Denied? && v.retryAfterSecs >= 1
            && (forall later: nat :: later >= now + 1000 * v.retryAfterSecs ==>
                  !Reached(cfg, t, later, ip) && !Reached(cfg, t, later, account))
            && (forall r: nat :: 1 <= r < v.retryAfterSecs ==>
                  Reached(cfg, t, now + 1000 * r, ip) || Reached(cfg, t, now + 1000 * r, account))
  {
    var v := EagerVerdict(cfg, Live(t, now), active, now, ip, account);
    assert forall k :: k in {ip, account} ==> (Exhausted(cfg, Live(t, now), k) <==> Reached(cfg, t, now, k));
  }

  /** The delay of a refusal for want of room is the least one, from one second on, after which some
      unexpired bucket has expired; for want of a slot it is one second. */
  lemma RoomDelay(cfg: Config, t: Table, active: nat, now: nat, ip: Key, account: Key)
    requires cfg.Valid() && !Reached(cfg, t, now, ip) && !Reached(cfg, t, now, account)
    ensures var v := EagerVerdict(cfg, Live(t, now), active, now, ip, account);
            && (active >= cfg.maxConcurrent ==> v == Denied(1))
            && (active < cfg.maxConcurrent && |Unexpired(t, now) + {ip, account}| > cfg.maxEntries ==>
                  && v.Denied? && v.retryAfterSecs >= 1
                  && Unexpired(t, now + 1000 * v.retryAfterSecs) < Unexpired(t, now)
                  && (forall r: nat :: 1 <= r < v.retryAfterSecs ==> Unexpired(t, now + 1000 * r) == Unexpired(t, now)))
  {
    var v, live := EagerVerdict(cfg, Live(t, now), active, now, ip, account), Live(t, now);
    assert live.Keys == Unexpired(t, now);
    assert forall k :: k in {ip, account} ==> (Exhausted(cfg, live, k) <==> Reached(cfg, t, now, k));
    if active < cfg.maxConcurrent && |Unexpired(t, now) + {ip, account}| > cfg.maxEntries {
      NotEmptyWhenFull(cfg, live, ip, account);
      var e := EarliestExpiry(live);
      var k :| k in live && live[k].expiresAt == e;
      assert k in Unexpired(t, now) && k !in Unexpired(t, now + 1000 * v.retryAfterSecs);
      assert forall j :: j in Unexpired(t, now) ==> e <= live[j].expiresAt;
    }
  }

  /** Counts one attempt against `k`, opening a bucket when there is none. */
  function Touch(cfg: Config, t: Table, now: nat, k: Key): Table {
    t[k := if k in t then Bucket(t[k].attempts + 1, t[k].expiresAt) else Bucket(1, now + cfg.windowMs)]
  }

  datatype Eager = Eager(table: Table, active: nat, clock: nat, log: seq<Hit>)

  /** `Clean` is a sweep asked for from outside. */
  datatype Event = Attempt(now: nat, address: string, digest: string) | Release | Clean(now: nat)

  function TouchHit(cfg: Config, live: Table, now: nat, k: Key): Hit {
    Hit(k, now, if k in live && live[k].expiresAt >= cfg.windowMs then live[k].expiresAt - cfg.windowMs else now)
  }

  /** An attempt whose clock reading precedes an earlier one, or a release with nothing to release,
      changes nothing: neither occurs.  A sweep with an earlier reading finds nothing to drop. */
  ghost function Step(cfg: Config, s: Eager, e: Event): Eager
    requires cfg.Valid()
  {
    match e
    case Attempt(now, address, digest) =>
      if now < s.clock then s else EagerAttempt(cfg, s, now, Ip(address), Account(digest))
    case Release =>
      if s.active == 0 then s else s.(active := s.active - 1)
    case Clean(now) =>
      if now < s.clock then s else s.(table := Live(s.table, now), clock := now)
  }

  ghost function EagerAttempt(cfg: Config, s: Eager, now: nat, ip: Key, account: Key): Eager
    requires cfg.Valid()
  {
    var live := Live(s.table, now);
    if EagerVerdict(cfg, live, s.active, now, ip, account) == Allowed then
      Eager(Touch(cfg, Touch(cfg, live, now, ip), now, account), s.active + 1, now,
            s.log + [TouchHit(cfg, live, now, ip), TouchHit(cfg, live, now, account)])
    else
      s.(table := live, clock := now)
  }

  ghost function Run(cfg: Config, events: seq<Event>): Eager
    requires cfg.Valid()
  {
    if events == [] then Eager(map[], 0, 0, [])
    else Step(cfg, Run(cfg, events[..|events| - 1]), events[|events| - 1])
  }

  /** How many hits on `k` were counted by the bucket opened at `start`. */
  function CountBucket(log: seq<Hit>, k: Key, start: nat): nat {
    if log == [] then 0
    else
      var h := log[|log| - 1];
      CountBucket(log[..|log| - 1], k, start) + (if h.key == k && h.start == start then 1 else 0)
  }

  /** How many attempts were counted against `k` at times in `[from, to)`. */
  function CountBetween(log: seq<Hit>, k: Key, from: int, to: int): nat {
    if log == [] then 0
    else
      var h := log[|log| - 1];
      CountBetween(log[..|log| - 1], k, from, to) + (if h.key == k && from <= h.at < to then 1 else 0)
  }

  /** Two buckets of one key open at least a window apart, less the skew of the clock readings. */
  ghost predicate Apart(cfg: Config, skew: nat, a: Hit, b: Hit) {
    a.key == b.key ==> a.start == b.start || a.start + cfg.windowMs <= b.start + skew || b.start + cfg.windowMs <= a.start + skew
  }

  /** A bucket that counted `h` is either the stored one or had expired when the stored one opened. */
  ghost predicate Placed(cfg: Config, skew: nat, t: Table, clock: nat, h: Hit) {
    && h.start <= h.at + skew && h.at < h.start + cfg.windowMs
    && h.at <= clock && h.start <= clock
    && if h.key in t
       then h.start + cfg.windowMs == t[h.key].expiresAt || h.start + 2 * cfg.windowMs <= t[h.key].expiresAt + skew
       else h.start + cfg.windowMs <= clock
  }

  /** `clock` is the latest reading so far; a later one may be smaller by `skew` at most, because the
      clock is read before the lock is taken. */
  ghost predicate HistoryInv(cfg: Config, skew: nat, t: Table, log: seq<Hit>, clock: nat) {
    && (forall k :: k in t ==>
          && cfg.windowMs <= t[k].expiresAt <= clock + cfg.windowMs
          && t[k].attempts == CountBucket(log, k, t[k].expiresAt - cfg.windowMs))
    && (forall i :: 0 <= i < |log| ==> Placed(cfg, skew, t, clock, log[i]))
    && (forall i, j :: 0 <= i < |log| && 0 <= j < |log| ==> Apart(cfg, skew, log[i], log[j]))
    && (forall k, s :: CountBucket(log, k, s) <= cfg.Limit(k))
  }

  function Later(a: nat, b: nat): nat {
    if a < b then b else a
  }

  lemma CountBucketAppend(log: seq<Hit>, h: Hit, k: Key, start: nat)
    ensures CountBucket(log + [h], k, start)
         == CountBucket(log, k, start) + (if h.key == k && h.start == start then 1 else 0)
  {
    assert (log + [h])[..|log|] == log;
  }

  lemma {:induction false} CountBucketZero(log: seq<Hit>, k: Key, start: nat)
    requires forall i :: 0 <= i < |log| ==> log[i].key != k || log[i].start != start
    ensures CountBucket(log, k, start) == 0
  {
    if log != [] {
      CountBucketZero(log[..|log| - 1], k, start);
    }
  }

  /** Dropping buckets that have expired by some reading, whichever and how many, keeps the history. */
  lemma DropKeepsHistory(cfg: Config, skew: nat, t: Table, t': Table, log: seq<Hit>, clock: nat, clock': nat)
    requires HistoryInv(cfg, skew, t, log, clock) && clock <= clock' && skew <= cfg.windowMs
    requires forall k :: k in t' ==> k in t && t'[k] == t[k]
    requires forall k :: k in t && k !in t' ==> t[k].expiresAt <= clock'
    ensures HistoryInv(cfg, skew, t', log, clock')
  {
    hide Apart, CountBucket;
    forall i | 0 <= i < |log| ensures Placed(cfg, skew, t', clock', log[i]) {
      assert Placed(cfg, skew, t, clock, log[i]);
    }
  }

  /** The attempt's reading, and the bucket of its key: one that had not expired by then. */
  ghost predicate MayTouch(cfg: Config, skew: nat, t: Table, clock: nat, now: nat, k: Key) {
    && skew < cfg.windowMs && now <= clock <= now + skew
    && (k in t ==> t[k].expiresAt > now) && !Exhausted(cfg, t, k)
  }

  lemma TouchKeepsCounts(cfg: Config, skew: nat, t: Table, log: seq<Hit>, clock: nat, now: nat, k: Key)
    requires cfg.Valid() && HistoryInv(cfg, skew, t, log, clock) && MayTouch(cfg, skew, t, clock, now, k)
    ensures var t', log' := Touch(cfg, t, now, k), log + [TouchHit(cfg, t, now, k)];
            && (forall j :: j in t' ==> t'[j].attempts == CountBucket(log', j, t'[j].expiresAt - cfg.windowMs))
            && (forall j, s :: CountBucket(log', j, s) <= cfg.Limit(j))
  {
    hide CountBucket, Apart;
    var h := TouchHit(cfg, t, now, k);
    var t', log' := Touch(cfg, t, now, k), log + [h];
    if k !in t {
      forall i | 0 <= i < |log| ensures log[i].key != k || log[i].start != h.start {
        assert Placed(cfg, skew, t, clock, log[i]);
      }
      CountBucketZero(log, k, h.start);
    }
    forall j, s ensures CountBucket(log', j, s) <= cfg.Limit(j) {
      CountBucketAppend(log, h, j, s);
      assert CountBucket(log, j, s) <= cfg.Limit(j);
    }
    forall j | j in t'
      ensures t'[j].attempts == CountBucket(log', j, t'[j].expiresAt - cfg.windowMs)
    {
      CountBucketAppend(log, h, j, t'[j].expiresAt - cfg.windowMs);
    }
  }

  lemma TouchKeepsPlaces(cfg: Config, skew: nat, t: Table, log: seq<Hit>, clock: nat, now: nat, k: Key, i: nat)
    requires cfg.Valid() && HistoryInv(cfg, skew, t, log, clock) && MayTouch(cfg, skew, t, clock, now, k) && i < |log|
    ensures var h := TouchHit(cfg, t, now, k);
            Placed(cfg, skew, Touch(cfg, t, now, k), clock, log[i]) && Apart(cfg, skew, log[i], h)
  {
    hide CountBucket;
    assert Placed(cfg, skew, t, clock, log[i]);
  }

  lemma TouchPlaced(cfg: Config, skew: nat, t: Table, log: seq<Hit>, clock: nat, now: nat, k: Key)
    requires cfg.Valid() && HistoryInv(cfg, skew, t, log, clock) && MayTouch(cfg, skew, t, clock, now, k)
    ensures Placed(cfg, skew, Touch(cfg, t, now, k), clock, TouchHit(cfg, t, now, k))
    ensures var t' := Touch(cfg, t, now, k);
            forall j :: j in t' ==> cfg.windowMs <= t'[j].expiresAt <= clock + cfg.windowMs
  {
    hide CountBucket, Apart;
  }

  /** Counting one attempt against a key whose bucket is not exhausted keeps the history. */
  lemma TouchKeepsHistory(cfg: Config, skew: nat, t: Table, log: seq<Hit>, clock: nat, now: nat, k: Key)
    requires cfg.Valid() && HistoryInv(cfg, skew, t, log, clock) && MayTouch(cfg, skew, t, clock, now, k)
    ensures HistoryInv(cfg, skew, Touch(cfg, t, now, k), log + [TouchHit(cfg, t, now, k)], clock)
  {
    hide CountBucket, Placed, Apart, Touch, TouchHit, MayTouch;
    var h := TouchHit(cfg, t, now, k);
    var t', log' := Touch(cfg, t, now, k), log + [h];
    TouchKeepsCounts(cfg, skew, t, log, clock, now, k);
    TouchPlaced(cfg, skew, t, log, clock, now, k);
    forall i | 0 <= i < |log'| ensures Placed(cfg, skew, t', clock, log'[i]) {
      if i < |log| {
        TouchKeepsPlaces(cfg, skew, t, log, clock, now, k, i);
      }
    }
    forall i, j | 0 <= i < |log'| && 0 <= j < |log'| ensures Apart(cfg, skew, log'[i], log'[j]) {
      ApartSymmetric(cfg, skew, log'[j], log'[i]);
      if i < |log| && j < |log| {
        assert Apart(cfg, skew, log[i], log[j]);
      } else if i < |log| {
        TouchKeepsPlaces(cfg, skew, t, log, clock, now, k, i);
      } else if j < |log| {
        TouchKeepsPlaces(cfg, skew, t, log, clock, now, k, j);
      }
    }
  }

  lemma ApartSymmetric(cfg: Config, skew: nat, a: Hit, b: Hit)
    ensures Apart(cfg, skew, a, b) <==> Apart(cfg, skew, b, a)
    ensures Apart(cfg, skew, a, a)
  {
  }

  /** Both hits of an admitted attempt, on a table from which expired buckets were dropped. */
  lemma CommitKeepsHistory(cfg: Config, skew: nat, t: Table, log: seq<Hit>, clock: nat, now: nat, a: Key, b: Key)
    requires cfg.Valid() && HistoryInv(cfg, skew, t, log, clock) && a != b
    requires MayTouch(cfg, skew, t, clock, now, a) && MayTouch(cfg, skew, t, clock, now, b)
    ensures HistoryInv(cfg, skew, Touch(cfg, Touch(cfg, t, now, a), now, b),
                       log + [TouchHit(cfg, t, now, a), TouchHit(cfg, t, now, b)], clock)
  {
    hide HistoryInv, Touch, TouchHit;
    TouchKeepsHistory(cfg, skew, t, log, clock, now, a);
    TouchOther(cfg, t, now, a, b);
    TouchKeepsHistory(cfg, skew, Touch(cfg, t, now, a), log + [TouchHit(cfg, t, now, a)], clock, now, b);
    assert log + [TouchHit(cfg, t, now, a)] + [TouchHit(cfg, t, now, b)]
        == log + [TouchHit(cfg, t, now, a), TouchHit(cfg, t, now, b)];
  }

  lemma AttemptKeepsHistory(cfg: Config, s: Eager, now: nat, ip: Key, account: Key)
    requires cfg.Valid() && HistoryInv(cfg, 0, s.table, s.log, s.clock) && s.clock <= now && ip != account
    ensures var s' := EagerAttempt(cfg, s, now, ip, account);
            HistoryInv(cfg, 0, s'.table, s'.log, s'.clock)
  {
    hide HistoryInv, EagerVerdict, Touch, TouchHit, Exhausted;
    var live := Live(s.table, now);
    DropKeepsHistory(cfg, 0, s.table, live, s.log, s.clock, now);
    AllowedHasRoom(cfg, live, s.active, now, ip, account);
    if EagerVerdict(cfg, live, s.active, now, ip, account) == Allowed {
      CommitKeepsHistory(cfg, 0, live, s.log, now, now, ip, account);
    }
  }

  lemma TouchOther(cfg: Config, t: Table, now: nat, a: Key, b: Key)
    requires a != b
    ensures var t' := Touch(cfg, t, now, a);
            && Exhausted(cfg, t', b) == Exhausted(cfg, t, b) && TouchHit(cfg, t', now, b) == TouchHit(cfg, t, now, b)
            && (b in t' <==> b in t) && (b in t ==> t'[b] == t[b])
  {
  }

  lemma AllowedHasRoom(cfg: Config, live: Table, active: nat, now: nat, a: Key, b: Key)
    requires cfg.Valid() && forall k :: k in live ==> live[k].expiresAt > now
    ensures EagerVerdict(cfg, live, active, now, a, b) == Allowed <==>
            (!Exhausted(cfg, live, a) && !Exhausted(cfg, live, b)
             && active < cfg.maxConcurrent && |live.Keys + {a, b}| <= cfg.maxEntries)
  {
  }

  lemma EmptyHistory(cfg: Config)
    ensures forall skew :: HistoryInv(cfg, skew, map[], [], 0)
  {
  }

  lemma {:induction false} RunKeepsHistory(cfg: Config, events: seq<Event>)
    requires cfg.Valid()
    ensures var s := Run(cfg, events);
            HistoryInv(cfg, 0, s.table, s.log, s.clock) && |s.table| <= cfg.maxEntries && s.active <= cfg.maxConcurrent
  {
    hide HistoryInv, EagerAttempt;
    if events == [] {
      EmptyHistory(cfg);
    } else {
      var before := events[..|events| - 1];
      RunKeepsHistory(cfg, before);
      var s := Run(cfg, before);
      match events[|events| - 1]
      case Attempt(now, address, digest) =>
        if s.clock <= now {
          AttemptKeepsHistory(cfg, s, now, Ip(address), Account(digest));
          AttemptKeepsCapacity(cfg, s, now, Ip(address), Account(digest));
        }
      case Release =>
      case Clean(now) =>
        if s.clock <= now {
          DropKeepsHistory(cfg, 0, s.table, Live(s.table, now), s.log, s.clock, now);
          LiveIsSmaller(s.table, now);
        }
    }
  }

  lemma LiveIsSmaller(t: Table, now: nat)
    ensures |Live(t, now)| <= |t|
  {
    SubsetSize(Live(t, now).Keys, t.Keys);
  }

  lemma AttemptKeepsCapacity(cfg: Config, s: Eager, now: nat, ip: Key, account: Key)
    requires cfg.Valid() && |s.table| <= cfg.maxEntries && s.active <= cfg.maxConcurrent
    ensures var s' := EagerAttempt(cfg, s, now, ip, account);
            |s'.table| <= cfg.maxEntries && s'.active <= cfg.maxConcurrent
  {
    LiveIsSmaller(s.table, now);
    var live := Live(s.table, now);
    var t' := Touch(cfg, Touch(cfg, live, now, ip), now, account);
    assert t'.Keys == live.Keys + {ip, account};
  }

  /** The hits on `k` in any half-open interval, shorter than the window by three times the skew, come
      from two buckets at most. */
  lemma TwoBucketsCover(cfg: Config, skew: nat, t: Table, log: seq<Hit>, clock: nat, k: Key, from: int, to: int)
      returns (a: nat, b: nat)
    requires HistoryInv(cfg, skew, t, log, clock) && to <= from + cfg.windowMs - 3 * skew
    ensures forall i :: 0 <= i < |log| && log[i].key == k && from <= log[i].at < to
              ==> log[i].start == a || log[i].start == b
  {
    a, b := 0, 0;
    if i :| 0 <= i < |log| && log[i].key == k && from <= log[i].at < to {
      a, b := log[i].start, log[i].start;
      if j :| 0 <= j < |log| && log[j].key == k && from <= log[j].at < to && log[j].start != a {
        b := log[j].start;
        forall m | 0 <= m < |log| && log[m].key == k && from <= log[m].at < to
          ensures log[m].start == a || log[m].start == b
        {
          assert Placed(cfg, skew, t, clock, log[i]) && Placed(cfg, skew, t, clock, log[j]) && Placed(cfg, skew, t, clock, log[m]);
          assert Apart(cfg, skew, log[i], log[j]) && Apart(cfg, skew, log[i], log[m]) && Apart(cfg, skew, log[j], log[m]);
        }
      }
    }
  }

  lemma {:induction false} WindowWithinBuckets(log: seq<Hit>, k: Key, from: int, to: int, a: nat, b: nat)
    requires forall i :: 0 <= i < |log| && log[i].key == k && from <= log[i].at < to
               ==> log[i].start == a || log[i].start == b
    ensures CountBetween(log, k, from, to) <= CountBucket(log, k, a) + CountBucket(log, k, b)
  {
    if log != [] {
      var rest := log[..|log| - 1];
      assert forall i :: 0 <= i < |rest| ==> rest[i] == log[i];
      WindowWithinBuckets(rest, k, from, to, a, b);
    }
  }

  lemma HistoryBounds(cfg: Config, skew: nat, t: Table, log: seq<Hit>, clock: nat, k: Key, from: int)
    requires HistoryInv(cfg, skew, t, log, clock)
    ensures CountBetween(log, k, from, from + cfg.windowMs - 3 * skew) <= 2 * cfg.Limit(k)
  {
    hide Placed, Apart;
    var to := from + cfg.windowMs - 3 * skew;
    var a, b := TwoBucketsCover(cfg, skew, t, log, clock, k, from, to);
    WindowWithinBuckets(log, k, from, to, a, b);
    assert CountBucket(log, k, a) <= cfg.Limit(k);
    assert CountBucket(log, k, b) <= cfg.Limit(k);
  }

  /** Over every run whose readings do not go back, no half-open interval of one window length sees more
      than twice the limit of one address or of one account. */
  lemma AtMostTwiceTheLimit(cfg: Config, events: seq<Event>, k: Key, from: int)
    requires cfg.Valid()
    ensures CountBetween(Run(cfg, events).log, k, from, from + cfg.windowMs) <= 2 * cfg.Limit(k)
  {
    hide Run, HistoryInv;
    var s := Run(cfg, events);
    RunKeepsHistory(cfg, events);
    HistoryBounds(cfg, 0, s.table, s.log, s.clock, k, from);
  }

  /** An allowed attempt adds exactly one hit on its address and one on its account, at its time;
      a denied one adds none. */
  lemma AllowedIsLogged(cfg: Config, s: Eager, now: nat, ip: Key, account: Key, k: Key, from: int, to: int)
    requires cfg.Valid() && ip != account && from <= now < to
    ensures var live := Live(s.table, now);
            var s' := EagerAttempt(cfg, s, now, ip, account);
            CountBetween(s'.log, k, from, to) == CountBetween(s.log, k, from, to)
              + (if EagerVerdict(cfg, live, s.active, now, ip, account) == Allowed && (k == ip || k == account) then 1 else 0)
  {
    var live := Live(s.table, now);
    TwoHits(s.log, TouchHit(cfg, live, now, ip), TouchHit(cfg, live, now, account), k, from, to);
    hide EagerVerdict, Live, Touch, CountBetween;
  }

  lemma TwoHits(log: seq<Hit>, a: Hit, b: Hit, k: Key, from: int, to: int)
    ensures CountBetween(log + [a, b], k, from, to) == CountBetween(log, k, from, to)
      + (if a.key == k && from <= a.at < to then 1 else 0) + (if b.key == k && from <= b.at < to then 1 else 0)
  {
    var log' := log + [a, b];
    assert log'[..|log'| - 1] == log + [a];
    assert (log + [a])[..|log|] == log;
  }

  // ---------------------------------------------------------------- the limiter as it runs

  /** The flag shared by every clone of one admission permit. */
  class Permit {
    var released: bool

    constructor ()
      ensures !released
    {
      released := false;
    }
  }

  class Limiter {
    const cfg: Config
    var buckets: Table
    var active: nat
    var nextCleanup: nat

    /** By how much a clock reading may precede an earlier one: it is taken before the lock. */
    ghost const skew: nat
    /** The latest clock reading used under the lock, and the hits counted so far. */
    ghost var clock: nat
    ghost var log: seq<Hit>
    /** Permits nobody has released, and permits whose flag is set but whose slot is not yet returned. */
    ghost var held: set<Permit>
    ghost var returning: set<Permit>

    ghost predicate Valid()
      reads this, held, returning
    {
      && cfg.Valid()
      && |buckets| <= cfg.maxEntries
      && skew < cfg.windowMs && HistoryInv(cfg, skew, buckets, log, clock)
      && SlotsCounted()
    }

    /** The counter is the number of permits not released yet plus those being returned. */
    ghost predicate SlotsCounted()
      reads this, held, returning
    {
      && held !! returning
      && (forall p :: p in held ==> !p.released)
      && (forall p :: p in returning ==> p.released)
      && active == |held| + |returning| <= cfg.maxConcurrent
    }

    /** What the eager limiter would hold. */
    ghost function View(): Eager
      reads this
    {
      Eager(Live(buckets, clock), active, clock, log)
    }

    constructor (cfg: Config, ghost skew: nat)
      requires cfg.Valid() && skew < cfg.windowMs
      ensures Valid() && this.cfg == cfg && this.skew == skew && View() == Run(cfg, [])
    {
      this.cfg, this.skew := cfg, skew;
      buckets, active, nextCleanup := map[], 0, 0;
      clock, log, held, returning := 0, [], {}, {};
      new;
      assert Live(buckets, clock) == map[];
    }

    method CleanupLocked(now: nat)
      modifies this`buckets, this`nextCleanup
      ensures buckets == Live(old(buckets), now)
      ensures nextCleanup == now + (if cfg.windowMs < 60000 then cfg.windowMs else 60000)
    {
      buckets := map k | k in buckets && buckets[k].expiresAt > now :: buckets[k];
      nextCleanup := now + (if cfg.windowMs < 60000 then cfg.windowMs else 60000);
    }

    /** A sweep at any reading drops the buckets expired by then and nothing else; the live ones are
        those of the eager limiter. */
    method Cleanup(now: nat)
      requires Valid()
      modifies this
      ensures Valid()
      ensures buckets == Live(old(buckets), now) && clock == Later(old(clock), now)
      ensures View() == Step(cfg, old(View()), Clean(now))
      ensures active == old(active) && log == old(log) && held == old(held) && returning == old(returning)
    {
      hide HistoryInv, Live, Later, EagerAttempt;
      Cleaned(cfg, skew, buckets, log, clock, now);
      CleanupLocked(now);
      clock := Later(clock, now);
    }

    method Forget(now: nat, k: Key)
      modifies this`buckets
      ensures Live(buckets, now) == Live(old(buckets), now)
      ensures buckets.Keys <= old(buckets).Keys && |buckets| <= |old(buckets)|
      ensures forall j :: j in buckets ==> buckets[j] == old(buckets)[j]
      ensures k in buckets <==> k in Live(old(buckets), now)
      ensures forall j :: j != k ==> (j in buckets <==> j in old(buckets))
    {
      if k in buckets && buckets[k].expiresAt <= now {
        buckets := buckets - {k};
        SubsetSize(buckets.Keys, old(buckets).Keys);
      }
    }

    method Count(now: nat, k: Key)
      modifies this`buckets
      ensures buckets == Touch(cfg, old(buckets), now, k)
    {
      var entry := if k in buckets then buckets[k] else Bucket(0, now + cfg.windowMs);
      buckets := buckets[k := entry.(attempts := entry.attempts + 1)];
    }

    /** The periodic sweep, and the removal of the attempt's own expired buckets. */
    method Sweep(now: nat, ip: Key, account: Key)
      modifies this`buckets, this`nextCleanup
      ensures Live(buckets, now) == Live(old(buckets), now)
      ensures forall k :: k in buckets ==> k in old(buckets) && buckets[k] == old(buckets)[k]
      ensures |buckets| <= |old(buckets)|
      ensures forall k :: k in {ip, account} && k in buckets ==> k in Live(buckets, now)
    {
      LiveTwice(buckets, now, now);
      LiveIsSmaller(buckets, now);
      if now >= nextCleanup {
        CleanupLocked(now);
      }
      Forget(now, ip);
      Forget(now, account);
    }

    method BlockedUntil(t: Table, now: nat, ip: Key, account: Key) returns (until: nat)
      requires ip.Ip? && account.Account?
      requires forall k :: k in {ip, account} && k in t ==> k in Live(t, now)
      ensures until == LaterExpiry(cfg, Live(t, now), ip, account)
      ensures until > now <==> Exhausted(cfg, Live(t, now), ip) || Exhausted(cfg, Live(t, now), account)
    {
      until := 0;
      if ip in t && t[ip].attempts >= cfg.ipMax && until < t[ip].expiresAt {
        until := t[ip].expiresAt;
      }
      if account in t && t[account].attempts >= cfg.accountMax && until < t[account].expiresAt {
        until := t[account].expiresAt;
      }
      assert forall k :: k in {ip, account} ==> (k in t <==> k in Live(t, now));
    }

    /** The checks of an attempt.  They sweep lazily, so they may drop expired buckets; they never
        drop a live one, and they answer as the eager limiter does. */
    method Decide(now: nat, ip: Key, account: Key) returns (verdict: Verdict)
      requires cfg.Valid() && ip.Ip? && account.Account?
      modifies this`buckets, this`nextCleanup
      ensures Live(buckets, now) == Live(old(buckets), now)
      ensures forall k :: k in buckets ==> k in old(buckets) && buckets[k] == old(buckets)[k]
      ensures verdict == EagerVerdict(cfg, Live(buckets, now), active, now, ip, account)
      ensures |buckets| <= |old(buckets)|
      ensures verdict == Allowed ==> |buckets.Keys + {ip, account}| <= cfg.maxEntries
      ensures forall k :: k in {ip, account} && k in buckets ==> k in Live(buckets, now)
    {
      Sweep(now, ip, account);
      ghost var live := Live(buckets, now);
      var blockedUntil := BlockedUntil(buckets, now, ip, account);
      if blockedUntil > now {
        return Denied(RetrySeconds(blockedUntil - now));
      }
      if active >= cfg.maxConcurrent {
        return Denied(1);
      }
      SubsetSize(live.Keys + {ip, account}, buckets.Keys + {ip, account});
      var missing := MissingKeys(buckets, ip, account);
      if |buckets| + missing > cfg.maxEntries {
        LiveIsSmaller(buckets, now);
        LiveTwice(buckets, now, now);
        CleanupLocked(now);
        missing := MissingKeys(buckets, ip, account);
        if |buckets| + missing > cfg.maxEntries {
          NotEmptyWhenFull(cfg, live, ip, account);
          var earliest := MinExpiry(buckets);
          return Denied(RetrySeconds(earliest - now));
        }
      }
      return Allowed;
    }

    /** The effect of an attempt on the buckets, and on the history. */
    method AdmitBuckets(now: nat, ip: Key, account: Key) returns (verdict: Verdict)
      requires cfg.Valid() && ip.Ip? && account.Account? && |buckets| <= cfg.maxEntries
      requires skew < cfg.windowMs && HistoryInv(cfg, skew, buckets, log, clock) && clock <= now + skew
      modifies this`buckets, this`nextCleanup, this`clock, this`log
      ensures clock == Later(old(clock), now) && HistoryInv(cfg, skew, buckets, log, clock)
      ensures verdict == EagerVerdict(cfg, Live(old(buckets), now), active, now, ip, account)
      ensures old(clock) <= now ==>
                var s := EagerAttempt(cfg, old(View()), now, ip, account);
                Live(buckets, clock) == s.table && log == s.log && s.active == active + (if verdict == Allowed then 1 else 0)
      ensures log == old(log) + (if verdict == Allowed then [TouchHit(cfg, Live(old(buckets), now), now, ip),
                                                            TouchHit(cfg, Live(old(buckets), now), now, account)] else [])
      ensures forall k :: k in buckets && k !in Live(buckets, now) ==> k in old(buckets) && buckets[k] == old(buckets)[k]
      ensures |buckets| <= cfg.maxEntries
      ensures verdict == Allowed ==> active < cfg.maxConcurrent
    {
      hide EagerVerdict, EagerAttempt, Touch, TouchHit, HistoryInv, Exhausted, Live, Later;
      ghost var start, earlier := buckets, clock;
      verdict := Decide(now, ip, account);
      ghost var stored := buckets;
      AdmitChecked(cfg, skew, start, stored, log, earlier, now, ip, account);
      AdmitCommitted(cfg, start, stored, log, active, earlier, now, ip, account);
      AllowedHasRoom(cfg, Live(stored, now), active, now, ip, account);
      clock := Later(clock, now);
      if verdict == Allowed {
        Count(now, ip);
        Count(now, account);
        log := log + [TouchHit(cfg, Live(stored, now), now, ip), TouchHit(cfg, Live(stored, now), now, account)];
      }
    }

    /** Whatever the reading, admission on the lazily swept table answers as the eager limiter would on
        the buckets stored, and counts an admitted attempt in the history.  When the reading does not
        precede an earlier one it changes the live buckets exactly as the eager limiter does; stored
        buckets are either live ones or buckets stored before. */
    method Admit(now: nat, address: string, digest: string) returns (verdict: Verdict, permit: Permit?)
      requires Valid() && clock <= now + skew
      modifies this
      ensures Valid() && clock == Later(old(clock), now)
      ensures verdict == EagerVerdict(cfg, Live(old(buckets), now), old(active), now, Ip(address), Account(digest))
      ensures old(clock) <= now ==> View() == EagerAttempt(cfg, old(View()), now, Ip(address), Account(digest))
      ensures log == old(log) + (if verdict == Allowed then [TouchHit(cfg, Live(old(buckets), now), now, Ip(address)),
                                                            TouchHit(cfg, Live(old(buckets), now), now, Account(digest))] else [])
      ensures forall k :: k in buckets && k !in Live(buckets, now) ==> k in old(buckets) && buckets[k] == old(buckets)[k]
      ensures verdict == Allowed <==> permit != null
      ensures permit != null ==> fresh(permit) && held == old(held) + {permit} && returning == old(returning)
      ensures permit == null ==> held == old(held) && returning == old(returning)
    {
      hide HistoryInv, Live, EagerAttempt, EagerVerdict, TouchHit;
      AttemptClock(cfg, View(), now, Ip(address), Account(digest));
      permit := null;
      verdict := AdmitBuckets(now, Ip(address), Account(digest));
      if verdict == Allowed {
        permit := Grant();
      }
    }

    method Grant() returns (permit: Permit)
      requires SlotsCounted() && active < cfg.maxConcurrent
      modifies this`active, this`held
      ensures SlotsCounted() && fresh(permit)
      ensures held == old(held) + {permit} && active == old(active) + 1
    {
      active := active + 1;
      permit := new Permit();
      held := held + {permit};
    }

    /** The first half of releasing: swap the shared flag.  Only the first caller wins. */
    method SwapReleased(p: Permit) returns (won: bool)
      requires Valid()
      requires p in held || p.released
      modifies p, this`held, this`returning
      ensures Valid() && p.released
      ensures won <==> p in old(held)
      ensures held == old(held) - {p}
      ensures returning == if won then old(returning) + {p} else old(returning)
    {
      won := !p.released;
      p.released := true;
      if won {
        held := held - {p};
        returning := returning + {p};
      }
    }

    /** The second half, under the lock: the saturating subtraction never saturates. */
    method ReturnSlot(ghost p: Permit)
      requires Valid() && p in returning
      modifies this`active, this`returning
      ensures Valid()
      ensures active == old(active) - 1 && returning == old(returning) - {p}
      ensures View() == Step(cfg, old(View()), Release)
    {
      active := SaturatingDec(active);
      returning := returning - {p};
    }
  }

  /** At any moment of a limiter whose readings go back by at most the skew, no half-open interval shorter
      than the window by three times the skew has seen more than twice the limit of one address or of one
      account. */
  lemma SkewedTwiceTheLimit(limiter: Limiter, k: Key, from: int)
    requires limiter.Valid()
    ensures CountBetween(limiter.log, k, from, from + limiter.cfg.windowMs - 3 * limiter.skew) <= 2 * limiter.cfg.Limit(k)
  {
    hide HistoryInv;
    HistoryBounds(limiter.cfg, limiter.skew, limiter.buckets, limiter.log, limiter.clock, k, from);
  }

  /** The history after the checks of an attempt, and after both its hits. */
  lemma AdmitChecked(cfg: Config, skew: nat, start: Table, stored: Table, log: seq<Hit>, clock: nat, now: nat, a: Key, b: Key)
    requires cfg.Valid() && skew < cfg.windowMs && HistoryInv(cfg, skew, start, log, clock) && clock <= now + skew && a != b
    requires Live(stored, now) == Live(start, now) && forall k :: k in stored ==> k in start && stored[k] == start[k]
    requires forall k :: k in {a, b} && k in stored ==> k in Live(stored, now)
    ensures HistoryInv(cfg, skew, stored, log, Later(clock, now))
    ensures !Exhausted(cfg, Live(stored, now), a) && !Exhausted(cfg, Live(stored, now), b) ==>
              HistoryInv(cfg, skew, Touch(cfg, Touch(cfg, stored, now, a), now, b),
                         log + [TouchHit(cfg, Live(stored, now), now, a), TouchHit(cfg, Live(stored, now), now, b)], Later(clock, now))
  {
    hide Touch, TouchHit, HistoryInv, Exhausted, Live;
    DroppedExpired(start, stored, now);
    DropKeepsHistory(cfg, skew, start, stored, log, clock, Later(clock, now));
    if !Exhausted(cfg, Live(stored, now), a) && !Exhausted(cfg, Live(stored, now), b) {
      OwnBuckets(cfg, stored, now, a, b);
      CommitKeepsHistory(cfg, skew, stored, log, Later(clock, now), now, a, b);
    }
  }

  /** The table after the checks of an attempt, and after both its hits, beside the eager limiter's. */
  lemma AdmitCommitted(cfg: Config, start: Table, stored: Table, log: seq<Hit>, active: nat, clock: nat, now: nat, a: Key, b: Key)
    requires cfg.Valid() && Live(stored, now) == Live(start, now)
    requires forall k :: k in {a, b} && k in stored ==> k in Live(stored, now)
    ensures var t' := Touch(cfg, Touch(cfg, stored, now, a), now, b);
            && t'.Keys == stored.Keys + {a, b}
            && (forall k :: k in t' && k !in Live(t', now) ==> k in stored && t'[k] == stored[k])
    ensures clock <= now ==> Later(clock, now) == now
    ensures clock <= now ==>
              var live, s' := Live(stored, now), EagerAttempt(cfg, Eager(Live(start, clock), active, clock, log), now, a, b);
              if EagerVerdict(cfg, live, active, now, a, b) == Allowed
              then s'.table == Live(Touch(cfg, Touch(cfg, stored, now, a), now, b), now) && s'.active == active + 1
                   && s'.log == log + [TouchHit(cfg, live, now, a), TouchHit(cfg, live, now, b)]
              else s'.table == live && s'.active == active && s'.log == log
  {
    hide Touch, TouchHit, Live, EagerVerdict, EagerAttempt;
    TouchStored(cfg, stored, now, a, b);
    if clock <= now {
      LiveTwice(start, clock, now);
      CommitLive(cfg, Eager(Live(start, clock), active, clock, log), stored, now, a, b);
    }
  }

  lemma AttemptClock(cfg: Config, s: Eager, now: nat, ip: Key, account: Key)
    requires cfg.Valid()
    ensures EagerAttempt(cfg, s, now, ip, account).clock == now
  {
  }

  lemma Cleaned(cfg: Config, skew: nat, t: Table, log: seq<Hit>, clock: nat, now: nat)
    requires HistoryInv(cfg, skew, t, log, clock) && skew <= cfg.windowMs
    ensures HistoryInv(cfg, skew, Live(t, now), log, Later(clock, now)) && |Live(t, now)| <= |t|
    ensures Later(clock, now) == if now < clock then clock else now
    ensures Live(Live(t, now), Later(clock, now)) == if now < clock then Live(t, clock) else Live(Live(t, clock), now)
  {
    DropKeepsHistory(cfg, skew, t, Live(t, now), log, clock, Later(clock, now));
    hide HistoryInv, Live;
    LiveIsSmaller(t, now);
    if clock <= now {
      LiveTwice(t, clock, now);
      LiveTwice(t, now, now);
    } else {
      LiveTwice(t, now, clock);
    }
  }

  lemma DroppedExpired(t: Table, t': Table, now: nat)
    requires Live(t', now) == Live(t, now)
    ensures forall k :: k in t && k !in t' ==> t[k].expiresAt <= now
  {
    forall k | k in t && k !in t' ensures t[k].expiresAt <= now {
      assert k !in Live(t', now);
    }
  }

  /** After the checks, the attempt's own buckets are live, and have room if it was admitted. */
  lemma OwnBuckets(cfg: Config, t: Table, now: nat, a: Key, b: Key)
    requires forall k :: k in {a, b} && k in t ==> k in Live(t, now)
    requires !Exhausted(cfg, Live(t, now), a) && !Exhausted(cfg, Live(t, now), b)
    ensures forall k :: k in {a, b} ==> !Exhausted(cfg, t, k) && (k in t ==> t[k].expiresAt > now)
    ensures forall k :: k in {a, b} ==> TouchHit(cfg, t, now, k) == TouchHit(cfg, Live(t, now), now, k)
  {
  }

  lemma LiveTwice(t: Table, earlier: nat, now: nat)
    requires earlier <= now
    ensures Live(Live(t, earlier), now) == Live(t, now)
  {
  }

  /** Counting attempts commutes with dropping expired buckets that are not touched. */
  lemma CommitLive(cfg: Config, before: Eager, t: Table, now: nat, a: Key, b: Key)
    requires cfg.Valid() && Live(t, now) == Live(before.table, now)
    requires forall k :: k in {a, b} && k in t ==> k in Live(t, now)
    ensures var live := Live(t, now);
            var t', s' := Touch(cfg, Touch(cfg, t, now, a), now, b), EagerAttempt(cfg, before, now, a, b);
            && s'.clock == now
            && t'.Keys == t.Keys + {a, b}
            && (forall k :: k in t' && k !in Live(t', now) ==> k in t && t'[k] == t[k])
            && if EagerVerdict(cfg, live, before.active, now, a, b) == Allowed
               then Live(t', now) == s'.table && s'.active == before.active + 1
                    && s'.log == before.log + [TouchHit(cfg, live, now, a), TouchHit(cfg, live, now, b)]
                    && before.active < cfg.maxConcurrent
               else live == s'.table && s'.active == before.active && s'.log == before.log
  {
    hide Live, Touch, EagerVerdict;
    TouchLive(cfg, t, now, a, b);
    TouchStored(cfg, t, now, a, b);
    AllowedHasRoom(cfg, Live(t, now), before.active, now, a, b);
  }

  lemma TouchStored(cfg: Config, t: Table, now: nat, a: Key, b: Key)
    requires cfg.Valid()
    requires forall k :: k in {a, b} && k in t ==> k in Live(t, now)
    ensures var t' := Touch(cfg, Touch(cfg, t, now, a), now, b);
            && t'.Keys == t.Keys + {a, b}
            && (forall k :: k in t' && k !in Live(t', now) ==> k in t && t'[k] == t[k])
  {
  }

  lemma TouchLive(cfg: Config, t: Table, now: nat, a: Key, b: Key)
    requires cfg.Valid() && forall k :: k in {a, b} && k in t ==> k in Live(t, now)
    ensures Live(Touch(cfg, Touch(cfg, t, now, a), now, b), now) == Touch(cfg, Touch(cfg, Live(t, now), now, a), now, b)
  {
  }

  function MissingKeys(t: Table, a: Key, b: Key): (n: nat)
    requires a != b
    ensures |t| + n == |t.Keys + {a, b}|
  {
    assert t.Keys + {a, b} == t.Keys + ({a, b} - t.Keys);
    assert {a, b} - t.Keys ==
      if a !in t && b !in t then {a, b} else if a !in t then {a} else if b !in t then {b} else {};
    (if a in t then 0 else 1) + (if b in t then 0 else 1)
  }

  method MinExpiry(t: Table) returns (e: nat)
    requires t != map[]
    ensures IsEarliest(t, e)
  {
    var k :| k in t;
    e := t[k].expiresAt;
    var todo := t.Keys - {k};
    while todo != {}
      invariant todo <= t.Keys
      invariant exists j :: j in t && t[j].expiresAt == e
      invariant forall j :: j in t && j !in todo ==> e <= t[j].expiresAt
      decreases |todo|
    {
      var j :| j in todo;
      if t[j].expiresAt < e {
        e := t[j].expiresAt;
      }
      todo := todo - {j};
    }
  }
}
