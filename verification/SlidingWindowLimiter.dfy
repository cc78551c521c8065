/** The production limiter: a sliding window of 60 seconds per key, kept in a list or in a
    Redis sorted set (src/infrastructure/resilience/rate_limiter.py). Both are compared with
    a limiter that never forgets an admission. */
module SlidingWindowLimiter {
  import opened Prelude

  datatype Status = Status(
    allowed: bool,
    remaining: int,
    resetAfter: real,
    retryAfter: Option<real>,
    limit: int,
    current: int)

  function NonNegative(x: real): real {
    if x > 0.0 then x else 0.0
  }

  /** The status both limiters assemble from the number of live admissions before the call
      and the oldest one after it. */
  function Report(limit: int, current: int, oldest: real, now: real): Status {
    Status(
      current < limit,
      Max(0, limit - current - 1),
      NonNegative(60.0 - (now - oldest)),
      if current < limit then None else Some(60.0),
      limit,
      current)
  }

  // ---------------------------------------------------------------------------
  // Reference: the full log of admissions of a key

  /** The admissions still inside the window (now - 60, ...). */
  function Live(log: seq<real>, now: real): seq<real> {
    Filter(After(now - 60.0), log)
  }

  function FirstOr(s: seq<real>, default: real): real {
    if s == [] then default else s[0]
  }

  function LogStep(log: seq<real>, now: real, limit: int): (seq<real>, Status) {
    var current := |Live(log, now)|;
    var log' := if current < limit then log + [now] else log;
    (log', Report(limit, current, FirstOr(Live(log', now), now), now))
  }

  // ---------------------------------------------------------------------------
  // The in-memory limiter

  function LocalStep(window: seq<real>, now: real, limit: int): (seq<real>, Status) {
    var live := Filter(After(now - 60.0), window);
    var window' := if |live| < limit then live + [now] else live;
    (window', Report(limit, |live|, FirstOr(window', now), now))
  }

  class LocalRateLimiter {
    var windows: map<string, seq<real>>

    constructor ()
      ensures windows == map[]
    {
      windows := map[];
    }

    method CheckRateLimit(key: string, now: real, requestsPerMinute: real) returns (status: Status)
      modifies this
      ensures var (window, s) :=
              LocalStep(if key in old(windows) then old(windows)[key] else [], now, Truncate(requestsPerMinute));
              windows == old(windows)[key := window] && status == s
    {
      if key !in windows {
        windows := windows[key := []];
      }
      windows := windows[key := Filter(After(now - 60.0), windows[key])];
      var current := |windows[key]|;
      var limit := Truncate(requestsPerMinute);
      var allowed := current < limit;
      if allowed {
        windows := windows[key := windows[key] + [now]];
      }
      var oldest := if windows[key] != [] then windows[key][0] else now;
      var resetAfter := 60.0 - (now - oldest);
      var remaining := Max(0, limit - current - 1);
      status :=
        Status(allowed, remaining, NonNegative(resetAfter), if !allowed then Some(60.0) else None, limit, current);
    }

    method Reset(key: string)
      modifies this
      ensures windows == old(windows) - {key}
    {
      if key in windows {
        windows := windows - {key};
      }
    }
  }

  // ---------------------------------------------------------------------------
  // The Redis limiter

  /** A sorted set. The member of an admission is the decimal form of its score, so a score
      determines its member; a key may carry an expiry instant. */
  datatype SortedSet = SortedSet(scores: set<real>, expiresAt: Option<real>)

  type Store = map<string, SortedSet>

  function Scores(db: Store, key: string, now: real): set<real> {
    if key in db && (db[key].expiresAt.None? || now < db[key].expiresAt.value) then db[key].scores else {}
  }

  /** Writing a score set back: an empty sorted set is no key at all, and an expired key
      loses its expiry. */
  function WithScores(db: Store, key: string, now: real, scores: set<real>): Store {
    if scores == {} then db - {key}
    else if Scores(db, key, now) == {} then db[key := SortedSet(scores, None)]
    else db[key := SortedSet(scores, db[key].expiresAt)]
  }

  function ZRemRangeByScore(db: Store, key: string, now: real, lo: real, hi: real): Store {
    WithScores(db, key, now, set x | x in Scores(db, key, now) && !(lo <= x <= hi))
  }

  function ZAdd(db: Store, key: string, now: real, score: real): Store {
    WithScores(db, key, now, Scores(db, key, now) + {score})
  }

  function Expire(db: Store, key: string, now: real, seconds: real): Store {
    if Scores(db, key, now) == {} then db
    else db[key := db[key].(expiresAt := Some(now + seconds))]
  }

  ghost predicate IsLeast(x: real, s: set<real>) {
    x in s && forall y :: y in s ==> x <= y
  }

  lemma {:induction false} LeastExists(s: set<real>)
    requires s != {}
    ensures exists x :: IsLeast(x, s)
    decreases |s|
  {
    assert (forall y :: y !in s) ==> s == {};
    var x :| x in s;
    var rest := s - {x};
    if rest == {} {
      assert s == {x};
      assert IsLeast(x, s);
    } else {
      LeastExists(rest);
      var y :| IsLeast(y, rest);
      var least := if x < y then x else y;
      forall z | z in s
        ensures least <= z
      {
        assert z == x || z in rest;
      }
      assert IsLeast(least, s);
    }
  }

  /** `ZRANGE key 0 0`: the least score, if any. */
  function ZFirst(s: set<real>): Option<real> {
    if s == {} then None
    else
      LeastExists(s);
      var x :| x in s && forall y :: y in s ==> x <= y;
      Some(x)
  }

  function RedisStep(db: Store, key: string, now: real, limit: int): (Store, Status) {
    var db1 := ZRemRangeByScore(db, key, now, 0.0, now - 60.0);
    var current := |Scores(db1, key, now)|;
    var db2 := if current < limit then Expire(ZAdd(db1, key, now, now), key, now, 120.0) else db1;
    var oldest := ZFirst(Scores(db2, key, now));
    (db2, Report(limit, current, if oldest.Some? then oldest.value else now, now))
  }

  class RedisRateLimiter {
    var db: Store

    constructor ()
      ensures db == map[]
    {
      db := map[];
    }

    method CheckRateLimit(key: string, now: real, requestsPerMinute: real) returns (status: Status)
      modifies this
      ensures (db, status) == RedisStep(old(db), key, now, Truncate(requestsPerMinute))
    {
      var windowStart := now - 60.0;
      db := ZRemRangeByScore(db, key, now, 0.0, windowStart);
      var current := |Scores(db, key, now)|;
      var limit := Truncate(requestsPerMinute);
      var allowed := current < limit;
      if allowed {
        db := ZAdd(db, key, now, now);
        db := Expire(db, key, now, 120.0);
      }
      assert db == RedisStep(old(db), key, now, limit).0;
      var oldest := ZFirst(Scores(db, key, now));
      var resetAfter := if oldest.Some? then 60.0 - (now - oldest.value) else 60.0;
      var remaining := Max(0, limit - current - 1);
      status :=
        Status(allowed, remaining, NonNegative(resetAfter), if !allowed then Some(60.0) else None, limit, current);
    }

    method Reset(key: string)
      modifies this
      ensures db == old(db) - {key}
    {
      db := db - {key};
    }
  }

  // ---------------------------------------------------------------------------
  // Runs

  datatype Event =
    | Call(key: string, at: real, requestsPerMinute: real)
    | Reset(key: string, at: real)

  function LogOf(logs: map<string, seq<real>>, key: string): seq<real> {
    if key in logs then logs[key] else []
  }

  /** The reference run: every admission since the last reset of its key, and the statuses. */
  function LogRun(h: seq<Event>): (map<string, seq<real>>, seq<Status>) {
    if h == [] then (map[], [])
    else
      var (logs, out) := LogRun(h[..|h| - 1]);
      match h[|h| - 1]
      case Call(key, now, rpm) =>
        var (log, status) := LogStep(LogOf(logs, key), now, Truncate(rpm));
        (logs[key := log], out + [status])
      case Reset(key, _) => (logs - {key}, out)
  }

  function LocalRun(h: seq<Event>): (map<string, seq<real>>, seq<Status>) {
    if h == [] then (map[], [])
    else
      var (windows, out) := LocalRun(h[..|h| - 1]);
      match h[|h| - 1]
      case Call(key, now, rpm) =>
        var (window, status) := LocalStep(LogOf(windows, key), now, Truncate(rpm));
        (windows[key := window], out + [status])
      case Reset(key, _) => (windows - {key}, out)
  }

  function RedisRun(h: seq<Event>): (Store, seq<Status>) {
    if h == [] then (map[], [])
    else
      var (db, out) := RedisRun(h[..|h| - 1]);
      match h[|h| - 1]
      case Call(key, now, rpm) =>
        var (db', status) := RedisStep(db, key, now, Truncate(rpm));
        (db', out + [status])
      case Reset(key, _) => (db - {key}, out)
  }

  /** The admissions of `key` since its last reset. */
  function Log(h: seq<Event>, key: string): seq<real> {
    LogOf(LogRun(h).0, key)
  }

  /** The list the in-memory limiter stores for `key`. */
  function Window(h: seq<Event>, key: string): seq<real> {
    LogOf(LocalRun(h).0, key)
  }

  ghost predicate Monotone(h: seq<Event>) {
    && (forall i :: 0 <= i < |h| ==> 0.0 <= h[i].at)
    && (forall i, j :: 0 <= i < j < |h| ==> h[i].at <= h[j].at)
  }

  /** No two calls on one key read the same instant. */
  ghost predicate Strict(h: seq<Event>) {
    forall i, j :: 0 <= i < j < |h| && h[i].Call? && h[j].Call? && h[i].key == h[j].key ==> h[i].at < h[j].at
  }

  function Clock(h: seq<Event>): real {
    if h == [] then 0.0 else h[|h| - 1].at
  }

  /** The instant of the last call on `key`. */
  function LastCall(h: seq<Event>, key: string): Option<real> {
    if h == [] then None
    else if h[|h| - 1].Call? && h[|h| - 1].key == key then Some(h[|h| - 1].at)
    else LastCall(h[..|h| - 1], key)
  }

  ghost predicate UpTo(log: seq<real>, clock: real) {
    Sorted(log) && forall i :: 0 <= i < |log| ==> 0.0 <= log[i] <= clock
  }

  lemma LogUnfold(h: seq<Event>, key: string)
    requires h != []
    ensures var p, e := h[..|h| - 1], h[|h| - 1];
            Log(h, key) == if e.key != key then Log(p, key)
                           else if e.Call? then LogStep(Log(p, key), e.at, Truncate(e.requestsPerMinute)).0
                           else []
  {
  }

  lemma LocalUnfold(h: seq<Event>, key: string)
    requires h != []
    ensures var p, e := h[..|h| - 1], h[|h| - 1];
            Window(h, key) == if e.key != key then Window(p, key)
                              else if e.Call? then LocalStep(Window(p, key), e.at, Truncate(e.requestsPerMinute)).0
                              else []
  {
  }

  lemma LogStepSorted(log: seq<real>, clock: real, now: real, limit: int)
    requires UpTo(log, clock) && clock <= now && 0.0 <= now
    ensures UpTo(LogStep(log, now, limit).0, now)
  {
  }

  lemma {:induction false} LogIsSorted(h: seq<Event>, key: string)
    requires Monotone(h)
    ensures UpTo(Log(h, key), Clock(h))
    ensures LastCall(h, key).Some? ==> UpTo(Log(h, key), LastCall(h, key).value) && LastCall(h, key).value <= Clock(h)
    ensures LastCall(h, key).None? ==> Log(h, key) == []
  {
    if h != [] {
      var p, e := h[..|h| - 1], h[|h| - 1];
      assert Clock(p) <= e.at;
      LogIsSorted(p, key);
      if e.Call? {
        LogStepSorted(Log(p, key), Clock(p), e.at, Truncate(e.requestsPerMinute));
      }
      LogUnfold(h, key);
    }
  }

  // ---------------------------------------------------------------------------
  // The list limiter refines the log

  /** Pruning to an earlier window first changes nothing. */
  lemma PruneTwice(log: seq<real>, earlier: real, now: real)
    requires earlier <= now
    ensures Live(Live(log, earlier), now) == Live(log, now)
  {
    FilterTwice(After(earlier - 60.0), After(now - 60.0), log);
  }

  lemma AdmissionIsLive(log: seq<real>, now: real)
    ensures Live(log + [now], now) == Live(log, now) + [now]
  {
    FilterAppend(After(now - 60.0), log, [now]);
    assert [now][..0] == [];
    assert Filter(After(now - 60.0), [now]) == [now];
  }

  lemma LocalMatchesLog(window: seq<real>, log: seq<real>, last: Option<real>, now: real, limit: int)
    requires window == if last.Some? then Live(log, last.value) else []
    requires (last.Some? ==> last.value <= now) && (last.None? ==> log == [])
    ensures LocalStep(window, now, limit).1 == LogStep(log, now, limit).1
    ensures LocalStep(window, now, limit).0 == Live(LogStep(log, now, limit).0, now)
  {
    if last.Some? {
      PruneTwice(log, last.value, now);
    }
    assert Filter(After(now - 60.0), window) == Live(log, now);
    AdmissionIsLive(log, now);
  }

  /** After any run the stored list of a key is exactly its admissions that were live at the
      key's last call, in order, and every status, field by field, is that of the log. */
  lemma {:induction false} LocalRefinesLog(h: seq<Event>)
    requires Monotone(h)
    ensures LocalRun(h).1 == LogRun(h).1
    ensures forall key :: Window(h, key) == if LastCall(h, key).Some? then Live(Log(h, key), LastCall(h, key).value)
            else []
  {
    if h != [] {
      var p, e := h[..|h| - 1], h[|h| - 1];
      LocalRefinesLog(p);
      if e.Call? {
        LogIsSorted(p, e.key);
        LocalMatchesLog(Window(p, e.key), Log(p, e.key), LastCall(p, e.key), e.at, Truncate(e.requestsPerMinute));
      }
      forall key
        ensures Window(h, key) == if LastCall(h, key).Some? then Live(Log(h, key), LastCall(h, key).value) else []
      {
        LogUnfold(h, key);
        LocalUnfold(h, key);
      }
    }
  }

  // ---------------------------------------------------------------------------
  // The sorted-set limiter agrees with the list limiter

  function SetOf(s: seq<real>): set<real> {
    set x | x in s
  }

  ghost predicate Increasing(s: seq<real>) {
    forall i, j :: 0 <= i < j < |s| ==> s[i] < s[j]
  }

  lemma {:induction false} SizeOfIncreasing(s: seq<real>)
    requires Increasing(s)
    ensures |SetOf(s)| == |s|
  {
    if s != [] {
      var p, x := s[..|s| - 1], s[|s| - 1];
      SizeOfIncreasing(p);
      assert SetOf(s) == SetOf(p) + {x};
    }
  }

  lemma FirstIsLeast(s: seq<real>)
    requires Sorted(s)
    ensures ZFirst(SetOf(s)) == if s == [] then None else Some(s[0])
  {
    if s != [] {
      assert s[0] in SetOf(s);
      forall y | y in SetOf(s)
        ensures s[0] <= y
      {
      }
    }
  }

  lemma {:induction false} FilterIncreasing(keep: real -> bool, s: seq<real>)
    requires Increasing(s)
    ensures Increasing(Filter(keep, s))
    ensures Filter(keep, s) != [] ==> Filter(keep, s)[|Filter(keep, s)| - 1] <= s[|s| - 1]
  {
    if s != [] {
      FilterIncreasing(keep, s[..|s| - 1]);
    }
  }

  /** What the sorted set of a key holds while the list limiter stores `window`: until the
      expiry instant the same admissions; by then none of them is live any more. */
  ghost predicate Mirrors(db: Store, key: string, window: seq<real>) {
    && (key in db ==> db[key].scores == SetOf(window) && db[key].expiresAt.Some?
                      && forall i :: 0 <= i < |window| ==> window[i] + 120.0 <= db[key].expiresAt.value)
    && (key !in db ==> window == [])
  }

  lemma PrunedScores(db: Store, key: string, window: seq<real>, now: real)
    requires Mirrors(db, key, window) && (forall i :: 0 <= i < |window| ==> 0.0 <= window[i])
    ensures Scores(ZRemRangeByScore(db, key, now, 0.0, now - 60.0), key, now) == SetOf(Live(window, now))
    ensures Mirrors(ZRemRangeByScore(db, key, now, 0.0, now - 60.0), key, Live(window, now))
  {
    forall x
      ensures x in SetOf(Live(window, now)) <==> x in window && x > now - 60.0
    {
      FilterMember(After(now - 60.0), window, x);
    }
    var kept := set x | x in Scores(db, key, now) && !(0.0 <= x <= now - 60.0);
    assert kept == SetOf(Live(window, now));
    assert Live(window, now) != [] ==> Live(window, now)[0] in SetOf(Live(window, now));
    forall i | 0 <= i < |Live(window, now)|
      ensures Live(window, now)[i] in window
    {
      assert Live(window, now)[i] in SetOf(Live(window, now));
    }
  }

  ghost predicate Past(window: seq<real>, now: real) {
    Sorted(window) && forall i :: 0 <= i < |window| ==> 0.0 <= window[i] <= now
  }

  lemma LiveIsPast(window: seq<real>, now: real)
    requires Past(window, now) && Increasing(window) && 0.0 <= now
    ensures Past(Live(window, now), now) && Past(Live(window, now) + [now], now)
    ensures Increasing(Live(window, now))
    ensures now !in window ==> Increasing(Live(window, now) + [now])
  {
    var live := Live(window, now);
    FilterIncreasing(After(now - 60.0), window);
    forall i | 0 <= i < |live|
      ensures 0.0 <= live[i] <= now && live[i] in window
    {
      FilterMember(After(now - 60.0), window, live[i]);
    }
  }

  lemma AdmittedScores(db: Store, key: string, live: seq<real>, now: real)
    requires Mirrors(db, key, live) && Scores(db, key, now) == SetOf(live) && Past(live, now)
    ensures var db' := Expire(ZAdd(db, key, now, now), key, now, 120.0);
            && Mirrors(db', key, live + [now])
            && Scores(db', key, now) == SetOf(live + [now])
  {
    assert SetOf(live + [now]) == SetOf(live) + {now};
    assert now in SetOf(live) + {now};
  }

  lemma OldestOf(live: seq<real>, now: real)
    requires Past(live, now)
    ensures ZFirst(SetOf(live)) == (if live == [] then None else Some(live[0]))
  {
    FirstIsLeast(live);
  }

  /** While the sorted set mirrors the list, one call gives the same status on both sides,
      and afterwards the one still holds exactly the instants of the other. */
  lemma RedisMatchesLocal(db: Store, key: string, window: seq<real>, now: real, limit: int)
    requires Mirrors(db, key, window) && Increasing(window) && Past(window, now) && 0.0 <= now
    ensures RedisStep(db, key, now, limit).1 == LocalStep(window, now, limit).1
    ensures Mirrors(RedisStep(db, key, now, limit).0, key, LocalStep(window, now, limit).0)
  {
    var live, db1 := Live(window, now), ZRemRangeByScore(db, key, now, 0.0, now - 60.0);
    LiveIsPast(window, now);
    PrunedScores(db, key, window, now);
    SizeOfIncreasing(live);
    AfterPruning(db1, key, live, now, limit);
  }

  lemma AfterPruning(db1: Store, key: string, live: seq<real>, now: real, limit: int)
    requires Mirrors(db1, key, live) && Scores(db1, key, now) == SetOf(live)
    requires Past(live, now) && Past(live + [now], now)
    ensures var db2 := if |live| < limit then Expire(ZAdd(db1, key, now, now), key, now, 120.0) else db1;
            var after := if |live| < limit then live + [now] else live;
            && Mirrors(db2, key, after)
            && ZFirst(Scores(db2, key, now)) == (if after == [] then None else Some(after[0]))
  {
    if |live| < limit {
      AdmittedScores(db1, key, live, now);
      OldestOf(live + [now], now);
    } else {
      OldestOf(live, now);
    }
  }

  ghost predicate SameAt(db: Store, db': Store, key: string) {
    (key in db <==> key in db') && (key in db ==> db'[key] == db[key])
  }

  lemma CommandsKeepOthers(db: Store, key: string, now: real, lo: real, hi: real, other: string)
    requires other != key
    ensures SameAt(db, ZRemRangeByScore(db, key, now, lo, hi), other)
    ensures SameAt(db, ZAdd(db, key, now, now), other)
    ensures SameAt(db, Expire(db, key, now, 120.0), other)
  {
  }

  lemma OtherKeysKept(db: Store, key: string, now: real, limit: int, other: string)
    requires other != key
    ensures var db' := RedisStep(db, key, now, limit).0;
            (other in db <==> other in db') && (other in db ==> db'[other] == db[other])
  {
    var db1 := ZRemRangeByScore(db, key, now, 0.0, now - 60.0);
    CommandsKeepOthers(db, key, now, 0.0, now - 60.0, other);
    CommandsKeepOthers(db1, key, now, 0.0, now - 60.0, other);
    CommandsKeepOthers(ZAdd(db1, key, now, now), key, now, 0.0, now - 60.0, other);
  }

  /** No call is admitted at an instant at which its key was admitted before. */
  ghost predicate DistinctAdmissions(h: seq<Event>) {
    h == [] ||
    var p, e := h[..|h| - 1], h[|h| - 1];
    && DistinctAdmissions(p)
    && !AdmittedAgain(p, e)
  }

  ghost predicate AdmittedAgain(h: seq<Event>, e: Event) {
    && e.Call?
    && LogStep(Log(h, e.key), e.at, Truncate(e.requestsPerMinute)).1.allowed && e.at in Log(h, e.key)
  }

  lemma WindowOfLog(h: seq<Event>, key: string, now: real)
    requires Monotone(h) && Clock(h) <= now
    ensures Past(Window(h, key), now)
    ensures now in Window(h, key) ==> now in Log(h, key)
    ensures now in Log(h, key) ==> now in Window(h, key)
  {
    LocalRefinesLog(h);
    LogIsSorted(h, key);
    var log, last := Log(h, key), LastCall(h, key);
    if last.Some? {
      FilterMember(After(last.value - 60.0), log, now);
      LiveOfSorted(log, last.value);
      if i :| 0 <= i < |log| && log[i] == now {
        assert log[i] <= last.value;
      }
    }
  }

  lemma StatusOfLog(h: seq<Event>, key: string, now: real, limit: int)
    requires Monotone(h) && Clock(h) <= now
    ensures LocalStep(Window(h, key), now, limit).1 == LogStep(Log(h, key), now, limit).1
  {
    LocalRefinesLog(h);
    LogIsSorted(h, key);
    LocalMatchesLog(Window(h, key), Log(h, key), LastCall(h, key), now, limit);
  }

  /** In a sorted log the live admissions are a suffix. */
  lemma {:induction false} LiveOfSorted(log: seq<real>, now: real)
    requires Sorted(log)
    ensures var n := |Live(log, now)|;
            && n <= |log| && Live(log, now) == log[|log| - n..]
            && forall i :: 0 <= i < |log| - n ==> log[i] <= now - 60.0
  {
    if log != [] {
      var p, last := log[..|log| - 1], log[|log| - 1];
      if last <= now - 60.0 {
        FilterNone(After(now - 60.0), log);
      } else {
        LiveOfSorted(p, now);
        var n := |Live(p, now)|;
        assert Live(log, now) == Live(p, now) + [last];
        assert log[|log| - (n + 1)..] == p[|p| - n..] + [last];
        assert forall i :: 0 <= i < |p| - n ==> log[i] == p[i];
      }
    }
  }

  lemma StaysIncreasing(window: seq<real>, now: real, limit: int)
    requires Past(window, now) && Increasing(window) && 0.0 <= now
    requires LocalStep(window, now, limit).1.allowed ==> now !in window
    ensures Increasing(LocalStep(window, now, limit).0)
  {
    LiveIsPast(window, now);
  }

  lemma RedisUnfold(h: seq<Event>, key: string)
    requires h != [] && h[|h| - 1].key != key
    requires Mirrors(RedisRun(h[..|h| - 1]).0, key, Window(h[..|h| - 1], key))
    ensures Mirrors(RedisRun(h).0, key, Window(h, key))
  {
    var p, e := h[..|h| - 1], h[|h| - 1];
    LocalUnfold(h, key);
    if e.Call? {
      OtherKeysKept(RedisRun(p).0, e.key, e.at, Truncate(e.requestsPerMinute), key);
    }
  }

  lemma {:induction false} RedisMirrorsLocal(h: seq<Event>)
    requires Monotone(h) && DistinctAdmissions(h)
    ensures RedisRun(h).1 == LocalRun(h).1
    ensures forall key :: Mirrors(RedisRun(h).0, key, Window(h, key)) && Increasing(Window(h, key))
  {
    if h != [] {
      var p, e := h[..|h| - 1], h[|h| - 1];
      RedisMirrorsLocal(p);
      if e.Call? {
        var window, limit := Window(p, e.key), Truncate(e.requestsPerMinute);
        WindowOfLog(p, e.key, e.at);
        StatusOfLog(p, e.key, e.at, limit);
        StaysIncreasing(window, e.at, limit);
        RedisMatchesLocal(RedisRun(p).0, e.key, window, e.at, limit);
      }
      forall key
        ensures Mirrors(RedisRun(h).0, key, Window(h, key)) && Increasing(Window(h, key))
      {
        LocalUnfold(h, key);
        if e.key != key {
          RedisUnfold(h, key);
        }
      }
    }
  }

  lemma {:induction false} LogBelow(h: seq<Event>, key: string, t: real)
    requires forall i :: 0 <= i < |h| && h[i].Call? && h[i].key == key ==> h[i].at < t
    ensures forall i :: 0 <= i < |Log(h, key)| ==> Log(h, key)[i] < t
  {
    if h != [] {
      LogBelow(h[..|h| - 1], key, t);
      LogUnfold(h, key);
    }
  }

  lemma {:induction false} StrictIsDistinct(h: seq<Event>)
    requires Strict(h)
    ensures DistinctAdmissions(h)
  {
    if h != [] {
      var p, e := h[..|h| - 1], h[|h| - 1];
      StrictIsDistinct(p);
      if e.Call? {
        LogBelow(p, e.key, e.at);
      }
    }
  }

  /** With a strictly increasing clock per key the two limiters return the same statuses,
      field by field, on every run; the 120 s key expiry never shows. */
  lemma RedisAgreesWithLocal(h: seq<Event>)
    requires Monotone(h) && Strict(h)
    ensures RedisRun(h).1 == LocalRun(h).1
  {
    StrictIsDistinct(h);
    RedisMirrorsLocal(h);
  }

  /** The two limiters give the same statuses for `h`, and for any call made after any
      prefix of it. */
  ghost predicate Interchangeable(h: seq<Event>) {
    forall i, call: Event {:trigger SameStatuses(h[..i], call)} ::
      0 <= i <= |h| && call.Call? && call.at >= Clock(h[..i]) ==> SameStatuses(h[..i], call)
  }

  ghost predicate SameStatuses(h: seq<Event>, call: Event) {
    RedisRun(h + [call]).1 == LocalRun(h + [call]).1
  }

  lemma SameNextStatus(h: seq<Event>, call: Event)
    requires Monotone(h) && DistinctAdmissions(h) && call.Call? && call.at >= Clock(h)
    ensures RedisRun(h + [call]).1 == LocalRun(h + [call]).1
    ensures Mirrors(RedisRun(h + [call]).0, call.key, Window(h + [call], call.key))
  {
    RedisMirrorsLocal(h);
    WindowOfLog(h, call.key, call.at);
    assert (h + [call])[..|h|] == h;
    RedisMatchesLocal(RedisRun(h).0, call.key, Window(h, call.key), call.at, Truncate(call.requestsPerMinute));
  }

  lemma {:induction false} DistinctPrefix(h: seq<Event>, i: nat)
    requires DistinctAdmissions(h) && i <= |h|
    ensures DistinctAdmissions(h[..i])
  {
    if i < |h| {
      DistinctPrefix(h[..|h| - 1], i);
      assert h[..|h| - 1][..i] == h[..i];
    } else {
      assert h[..i] == h;
    }
  }

  /** A sorted set that holds fewer instants than the list gives itself away. */
  lemma ShorterSetShows(db: Store, key: string, window: seq<real>, now: real, limit: int)
    requires Mirrors(db, key, window) && Past(window, now) && 0.0 <= now
    requires |SetOf(Live(window, now))| != |Live(window, now)|
    ensures RedisStep(db, key, now, limit).1.current != LocalStep(window, now, limit).1.current
  {
    PrunedScores(db, key, window, now);
  }

  lemma DoubledInstant(window: seq<real>, now: real)
    requires now in window && Past(window, now) && Increasing(window) && 0.0 <= now
    ensures var after := Live(window, now) + [now];
            Live(after, now) == after && |SetOf(after)| < |after|
  {
    var live := Live(window, now);
    LiveIsPast(window, now);
    FilterTwice(After(now - 60.0), After(now - 60.0), window);
    AdmissionIsLive(live, now);
    SizeOfIncreasing(live);
    assert SetOf(live + [now]) == SetOf(live) by {
      FilterMember(After(now - 60.0), window, now);
      assert now in live;
    }
  }

  /** A second admission at one instant is lost by the sorted set, and the next call shows it. */
  lemma DuplicateShows(h: seq<Event>, e: Event)
    requires Monotone(h) && DistinctAdmissions(h) && e.Call? && Clock(h) <= e.at && 0.0 <= e.at
    requires LogStep(Log(h, e.key), e.at, Truncate(e.requestsPerMinute)).1.allowed && e.at in Log(h, e.key)
    ensures RedisRun(h + [e] + [e]).1 != LocalRun(h + [e] + [e]).1
  {
    var r, key, now, limit := h + [e], e.key, e.at, Truncate(e.requestsPerMinute);
    assert r[..|h|] == h && (r + [e])[..|r|] == r;
    RedisMirrorsLocal(h);
    WindowOfLog(h, key, now);
    StatusOfLog(h, key, now, limit);
    SameNextStatus(h, e);
    DoubledInstant(Window(h, key), now);
    LocalUnfold(r, key);
    LiveIsPast(Window(h, key), now);
    ShorterSetShows(RedisRun(r).0, key, Window(r, key), now, limit);
    DifferentTail(r, e);
  }

  lemma DifferentTail(r: seq<Event>, e: Event)
    requires e.Call?
    requires RedisStep(RedisRun(r).0, e.key, e.at, Truncate(e.requestsPerMinute)).1.current !=
             LocalStep(Window(r, e.key), e.at, Truncate(e.requestsPerMinute)).1.current
    ensures RedisRun(r + [e]).1 != LocalRun(r + [e]).1
  {
    assert (r + [e])[..|r|] == r;
    var redis, local := RedisRun(r + [e]).1, LocalRun(r + [e]).1;
    assert redis[|redis| - 1] != local[|local| - 1];
  }

  lemma DistinctIsInterchangeable(h: seq<Event>)
    requires Monotone(h) && DistinctAdmissions(h)
    ensures Interchangeable(h)
  {
    forall i, call: Event | 0 <= i <= |h| && call.Call? && call.at >= Clock(h[..i])
      ensures SameStatuses(h[..i], call)
    {
      DistinctPrefix(h, i);
      SameNextStatus(h[..i], call);
    }
  }

  lemma InterchangeablePrefix(h: seq<Event>)
    requires h != [] && Interchangeable(h)
    ensures Interchangeable(h[..|h| - 1])
  {
    var p := h[..|h| - 1];
    forall i, call: Event | 0 <= i <= |p| && call.Call? && call.at >= Clock(p[..i])
      ensures SameStatuses(p[..i], call)
    {
      assert p[..i] == h[..i];
    }
  }

  lemma InterchangeableNow(h: seq<Event>, call: Event)
    requires Interchangeable(h) && call.Call? && call.at >= Clock(h)
    ensures SameStatuses(h, call)
  {
    assert h[..|h|] == h;
  }

  lemma AdmittedTwice(p: seq<Event>, e: Event)
    requires Monotone(p) && DistinctAdmissions(p) && e.Call? && Clock(p) <= e.at && 0.0 <= e.at
    requires SameStatuses(p + [e], e)
    ensures !AdmittedAgain(p, e)
  {
    if AdmittedAgain(p, e) {
      DuplicateShows(p, e);
    }
  }

  lemma LastIsDistinct(p: seq<Event>, e: Event)
    requires Monotone(p + [e]) && Interchangeable(p + [e]) && DistinctAdmissions(p) && Monotone(p)
    ensures !AdmittedAgain(p, e)
  {
    if e.Call? {
      var h := p + [e];
      InterchangeableNow(h, e);
      assert h[|p|] == e;
      assert p != [] ==> h[|p| - 1] == p[|p| - 1];
      AdmittedTwice(p, e);
    }
  }

  lemma {:induction false} InterchangeableIsDistinct(h: seq<Event>)
    requires Monotone(h) && Interchangeable(h)
    ensures DistinctAdmissions(h)
  {
    if h != [] {
      var p, e := h[..|h| - 1], h[|h| - 1];
      InterchangeablePrefix(h);
      InterchangeableIsDistinct(p);
      assert h == p + [e];
      LastIsDistinct(p, e);
      DistinctSnoc(p, e);
    }
  }

  lemma DistinctSnoc(p: seq<Event>, e: Event)
    requires DistinctAdmissions(p) && !AdmittedAgain(p, e)
    ensures DistinctAdmissions(p + [e])
  {
    assert (p + [e])[..|p|] == p;
  }

  /** On a run whose clock never goes back, the two limiters are interchangeable exactly when
      no call was admitted twice at one instant. */
  lemma InterchangeableExactly(h: seq<Event>)
    requires Monotone(h)
    ensures Interchangeable(h) <==> DistinctAdmissions(h)
  {
    if DistinctAdmissions(h) {
      DistinctIsInterchangeable(h);
    }
    if Interchangeable(h) {
      InterchangeableIsDistinct(h);
    }
  }

  // ---------------------------------------------------------------------------
  // What the decisions mean

  /** One call on `key` after the run `h`. */
  function StatusOf(h: seq<Event>, key: string, now: real, requestsPerMinute: real): Status {
    LocalStep(Window(h, key), now, Truncate(requestsPerMinute)).1
  }

  /** A call is refused exactly when its limit of requests was admitted in the preceding
      60 seconds, and `current` counts them. */
  lemma RefusedExactlyWhenFull(h: seq<Event>, key: string, now: real, requestsPerMinute: real)
    requires Monotone(h) && Clock(h) <= now
    ensures var status := StatusOf(h, key, now, requestsPerMinute);
            var recent := |Filter(AfterUpTo(now - 60.0, now), Log(h, key))|;
            && (status.allowed <==> recent < Truncate(requestsPerMinute))
            && status.current == recent
            && (status.allowed ==> recent + 1 + status.remaining == status.limit)
            && (!status.allowed ==> status.remaining == 0)
            && status.limit == Truncate(requestsPerMinute)
            && status.retryAfter == if status.allowed then None else Some(60.0)
  {
    StatusOfLog(h, key, now, Truncate(requestsPerMinute));
    LogIsSorted(h, key);
    FilterSame(After(now - 60.0), AfterUpTo(now - 60.0, now), Log(h, key));
  }

  /** After a call at `now`, the first live admission of its key lapses exactly
      `resetAfter` seconds later. */
  lemma ResetAfterIsNextLapse(log: seq<real>, now: real, limit: int, later: real)
    requires UpTo(log, now) && now <= later
    ensures var (log', status) := LogStep(log, now, limit);
            && 0.0 <= status.resetAfter <= 60.0
            && (Live(log', now) != [] ==>
                  (|Live(log', later)| == |Live(log', now)| <==> later < now + status.resetAfter))
  {
    var (log', status) := LogStep(log, now, limit);
    var live := Live(log', now);
    LiveOfSorted(log', now);
    LiveOfSorted(log', later);
    if live != [] {
      assert live[0] == log'[|log'| - |live|];
      FilterMember(After(now - 60.0), log', live[0]);
      FilterMember(After(later - 60.0), log', live[0]);
      assert live[0] > now - 60.0 && live[0] <= now;
      assert status.resetAfter == 60.0 - (now - live[0]);
      LapseOfOldest(log', now, later);
    }
  }

  lemma LapseOfOldest(log: seq<real>, now: real, later: real)
    requires Sorted(log) && now <= later && Live(log, now) != []
    ensures |Live(log, later)| == |Live(log, now)| <==> later - 60.0 < Live(log, now)[0]
  {
    LiveOfSorted(log, now);
    LiveOfSorted(log, later);
    var i := |log| - |Live(log, now)|;
    assert log[i] == Live(log, now)[0];
    if later - 60.0 < log[i] {
      forall j | 0 <= j < |Live(log, now)|
        ensures After(later - 60.0)(Live(log, now)[j])
      {
      }
      FilterAll(After(later - 60.0), Live(log, now));
      FilterTwice(After(now - 60.0), After(later - 60.0), log);
    } else if |Live(log, later)| == |Live(log, now)| {
      FilterMember(After(later - 60.0), log, log[i]);
    }
  }

  /** Waiting out `retryAfter` is enough: if nothing was admitted since, a call with a
      positive limit is allowed. */
  lemma RetryAfterSuffices(log: seq<real>, now: real, limit: int, later: real, laterLimit: int)
    requires UpTo(log, now)
    requires var status := LogStep(log, now, limit).1;
             !status.allowed && later >= now + status.retryAfter.value && laterLimit >= 1
    ensures LogStep(log, now, limit).0 == log && LogStep(log, later, laterLimit).1.allowed
  {
    FilterNone(After(later - 60.0), log);
  }

  ghost predicate LimitsUpTo(h: seq<Event>, key: string, n: int) {
    forall i :: 0 <= i < |h| && h[i].Call? && h[i].key == key ==> Truncate(h[i].requestsPerMinute) <= n
  }

  lemma {:induction false} AdmissionsAreSpaced(h: seq<Event>, key: string, n: nat)
    requires Monotone(h) && LimitsUpTo(h, key, n)
    ensures forall i :: 0 <= i && i + n < |Log(h, key)| ==> Log(h, key)[i + n] >= Log(h, key)[i] + 60.0
  {
    if h != [] {
      var p, e := h[..|h| - 1], h[|h| - 1];
      AdmissionsAreSpaced(p, key, n);
      LogUnfold(h, key);
      if e.key == key && e.Call? {
        LogIsSorted(p, key);
        LiveOfSorted(Log(p, key), e.at);
      }
    }
  }

  /** Every interval (t - 60, t] holds at most n admissions of a key whose limit never
      exceeds n, over every run with a clock that does not go back. */
  lemma SlidingWindowBound(h: seq<Event>, key: string, n: nat, t: real)
    requires Monotone(h) && LimitsUpTo(h, key, n)
    ensures |Filter(AfterUpTo(t - 60.0, t), Log(h, key))| <= n
  {
    var log, inside := Log(h, key), AfterUpTo(t - 60.0, t);
    AdmissionsAreSpaced(h, key, n);
    LogIsSorted(h, key);
    forall i, j | 0 <= i <= j < |log| && inside(log[i]) && inside(log[j])
      ensures j - i < n
    {
      if i + n < |log| {
        assert log[i + n] >= log[i] + 60.0;
      }
    }
    SparseFilter(inside, log, n);
  }

  /** The bound for a whole number of requests per minute. */
  lemma WholeLimitBound(h: seq<Event>, key: string, n: nat, t: real)
    requires Monotone(h)
    requires forall i :: 0 <= i < |h| && h[i].Call? && h[i].key == key ==> h[i].requestsPerMinute <= n as real
    ensures |Filter(AfterUpTo(t - 60.0, t), Log(h, key))| <= n
  {
    forall i | 0 <= i < |h| && h[i].Call? && h[i].key == key
      ensures Truncate(h[i].requestsPerMinute) <= n
    {
      TruncateIsIntegerPart(h[i].requestsPerMinute);
    }
    SlidingWindowBound(h, key, n, t);
  }

  /** The admissions of `key` since its last reset, as the in-memory limiter answered. */
  function AnsweredYes(h: seq<Event>, key: string): seq<real> {
    if h == [] then []
    else
      var p, e := h[..|h| - 1], h[|h| - 1];
      if e.key != key then AnsweredYes(p, key)
      else if e.Reset? then []
      else if LocalRun(h).1 != [] && LocalRun(h).1[|LocalRun(h).1| - 1].allowed then AnsweredYes(p, key) + [e.at]
      else AnsweredYes(p, key)
  }

  /** The log the laws speak of holds exactly the instants of the calls that were answered with
      an admission. */
  lemma {:induction false} LogIsAnswers(h: seq<Event>, key: string)
    requires Monotone(h)
    ensures Log(h, key) == AnsweredYes(h, key)
  {
    if h != [] {
      var p, e := h[..|h| - 1], h[|h| - 1];
      LogIsAnswers(p, key);
      LogUnfold(h, key);
      LocalRefinesLog(h);
      if e.Call? && e.key == key {
        LastAnswer(h);
      }
    }
  }

  lemma LastAnswer(h: seq<Event>)
    requires h != [] && h[|h| - 1].Call?
    ensures var p, e, out := h[..|h| - 1], h[|h| - 1], LogRun(h).1;
            out != [] && out[|out| - 1] == LogStep(Log(p, e.key), e.at, Truncate(e.requestsPerMinute)).1
  {
  }
}
