/** The MCP rate limiter: a fixed window per key, a penalty block once the window is
    exhausted, and a garbage collector for old entries
    (src/services/mcp/mcp_rate_limiter.py).

    The clock is an argument: one reading per call. */
module FixedWindowLimiter {
  import opened Prelude

  datatype Config = Config(maxRequests: int, windowSeconds: real)

  datatype Entry = Entry(count: int, firstRequest: real, blockedUntil: real)

  datatype Decision = Decision(allowed: bool, retryAfter: int)

  type Table = map<string, Entry>

  /** The entry a `defaultdict` lookup yields. */
  function Lookup(t: Table, key: string, now: real): Entry {
    if key in t then t[key] else Entry(0, now, 0.0)
  }

  function CheckEntry(cfg: Config, e: Entry, now: real): (Entry, Decision) {
    if now < e.blockedUntil then
      (e, Decision(false, Truncate(e.blockedUntil - now)))
    else
      var w := if now - e.firstRequest > cfg.windowSeconds then e.(count := 0, firstRequest := now) else e;
      if w.count >= cfg.maxRequests then
        (w.(blockedUntil := now + cfg.windowSeconds, count := 0), Decision(false, Truncate(cfg.windowSeconds)))
      else
        (w.(count := w.count + 1), Decision(true, 0))
  }

  function CheckTable(cfg: Config, t: Table, key: string, now: real): (Table, Decision) {
    var (e, d) := CheckEntry(cfg, Lookup(t, key, now), now);
    (t[key := e], d)
  }

  function CleanTable(t: Table, now: real, maxAge: real): Table {
    map k | k in t && !(now - t[k].firstRequest > maxAge) :: t[k]
  }

  class RateLimitEntry {
    var count: int
    var firstRequest: real
    var blockedUntil: real

    constructor (now: real)
      ensures Value() == Entry(0, now, 0.0)
    {
      count := 0;
      firstRequest := now;
      blockedUntil := 0.0;
    }

    ghost function Value(): Entry
      reads this
    {
      Entry(count, firstRequest, blockedUntil)
    }

    predicate IsBlocked(now: real)
      reads this
    {
      now < blockedUntil
    }

    method Increment()
      modifies `count
      ensures count == old(count) + 1
    {
      count := count + 1;
    }
  }

  class RateLimiter {
    const cfg: Config
    var entries: map<string, RateLimitEntry>

    /** No two keys share an entry object. */
    ghost predicate Valid()
      reads this
    {
      forall k, j :: k in entries && j in entries && entries[k] == entries[j] ==> k == j
    }

    ghost function Contents(): Table
      reads this, entries.Values
    {
      map k | k in entries :: entries[k].Value()
    }

    constructor (maxRequests: int, windowSeconds: real)
      ensures Valid() && Contents() == map[]
      ensures cfg == Config(maxRequests, windowSeconds)
    {
      cfg := Config(maxRequests, windowSeconds);
      entries := map[];
    }

    /** `self._entries[key]` on a `defaultdict`: a missing entry is created and stored. */
    method EntryFor(key: string, now: real) returns (entry: RateLimitEntry)
      requires Valid()
      modifies this
      ensures Valid() && key in entries && entry == entries[key]
      ensures fresh(entries.Values - old(entries.Values))
      ensures entry.Value() == Lookup(old(Contents()), key, now)
      ensures Contents() == old(Contents())[key := entry.Value()]
    {
      if key !in entries {
        entry := new RateLimitEntry(now);
        entries := entries[key := entry];
      } else {
        entry := entries[key];
      }
    }

    method CheckRateLimit(key: string, now: real) returns (d: Decision)
      requires Valid()
      modifies this, entries.Values
      ensures Valid()
      ensures fresh(entries.Values - old(entries.Values))
      ensures (Contents(), d) == CheckTable(cfg, old(Contents()), key, now)
    {
      var entry := EntryFor(key, now);
      label Found:
      d := CheckOne(entry, now);
      assert forall k :: k in entries && k != key ==> entries[k].Value() == old@Found(entries[k].Value());
      assert Contents() == old(Contents())[key := entry.Value()];
    }

    /** The part of `check_rate_limit` after the lookup. */
    method CheckOne(entry: RateLimitEntry, now: real) returns (d: Decision)
      modifies entry
      ensures (entry.Value(), d) == CheckEntry(cfg, old(entry.Value()), now)
    {
      if entry.IsBlocked(now) {
        return Decision(false, Truncate(entry.blockedUntil - now));
      }
      if now - entry.firstRequest > cfg.windowSeconds {
        entry.count := 0;
        entry.firstRequest := now;
      }
      if entry.count >= cfg.maxRequests {
        entry.blockedUntil := now + cfg.windowSeconds;
        entry.count := 0;
        return Decision(false, Truncate(cfg.windowSeconds));
      }
      entry.Increment();
      return Decision(true, 0);
    }

    method CleanupOldEntries(now: real, maxAge: real)
      requires Valid()
      modifies this
      ensures Valid()
      ensures entries.Values <= old(entries.Values)
      ensures Contents() == CleanTable(old(Contents()), now, maxAge)
      ensures forall k :: k in entries <==> k in old(entries) && now - old(entries[k].firstRequest) <= maxAge
      ensures forall k :: k in entries ==> entries[k] == old(entries)[k]
    {
      var expired := set k | k in entries && now - entries[k].firstRequest > maxAge;
      var todo := expired;
      while todo != {}
        invariant todo <= expired
        invariant entries == map k | k in old(entries) && k !in expired - todo :: old(entries)[k]
        decreases |todo|
      {
        var k :| k in todo;
        entries := entries - {k};
        todo := todo - {k};
      }
    }
  }

  // ---------------------------------------------------------------------------
  // Runs

  datatype Event =
    | Check(key: string, at: real)
    | Cleanup(at: real, maxAge: real)

  function Apply(cfg: Config, t: Table, e: Event): Table {
    match e
    case Check(key, now) => CheckTable(cfg, t, key, now).0
    case Cleanup(now, maxAge) => CleanTable(t, now, maxAge)
  }

  function Run(cfg: Config, h: seq<Event>): Table {
    if h == [] then map[] else Apply(cfg, Run(cfg, h[..|h| - 1]), h[|h| - 1])
  }

  /** The answers of the check calls of a run, in order. */
  function Answers(cfg: Config, h: seq<Event>): seq<Decision> {
    if h == [] then []
    else
      var p, e := h[..|h| - 1], h[|h| - 1];
      Answers(cfg, p) + (if e.Check? then [CheckTable(cfg, Run(cfg, p), e.key, e.at).1] else [])
  }

  /** The instants at which `key` was admitted. */
  function Admitted(cfg: Config, h: seq<Event>, key: string): seq<real> {
    if h == [] then []
    else
      var p, e := h[..|h| - 1], h[|h| - 1];
      Admitted(cfg, p, key) +
      (if e.Check? && e.key == key && CheckTable(cfg, Run(cfg, p), key, e.at).1.allowed then [e.at] else [])
  }

  /** A clock that starts at or after the epoch and never runs backwards. */
  ghost predicate Monotone(h: seq<Event>) {
    && (forall i :: 0 <= i < |h| ==> 0.0 <= h[i].at)
    && (forall i, j :: 0 <= i < j < |h| ==> h[i].at <= h[j].at)
  }

  function Clock(h: seq<Event>): real {
    if h == [] then 0.0 else h[|h| - 1].at
  }

  ghost predicate CollectsAt(h: seq<Event>, maxAge: real) {
    forall i :: 0 <= i < |h| && h[i].Cleanup? ==> h[i].maxAge == maxAge
  }

  /** Every collection, whatever its own age is, spares entries younger than two windows. */
  ghost predicate Spares(cfg: Config, h: seq<Event>) {
    forall i :: 0 <= i < |h| && h[i].Cleanup? ==> h[i].maxAge >= 2.0 * cfg.windowSeconds
  }

  function WithoutCleanup(h: seq<Event>): seq<Event> {
    Filter((e: Event) => e.Check?, h)
  }

  // ---------------------------------------------------------------------------
  // Garbage collection is invisible exactly when maxAge >= 2 * window

  /** An entry that a later check treats as brand new. */
  predicate Stale(cfg: Config, e: Entry, clock: real) {
    clock - e.firstRequest > cfg.windowSeconds && e.blockedUntil <= clock
  }

  ghost predicate SameEntry(e: Entry, f: Entry, clock: real) {
    && e.count == f.count && e.firstRequest == f.firstRequest
    && (e.blockedUntil == f.blockedUntil || (e.blockedUntil <= clock && f.blockedUntil <= clock))
  }

  /** `c` is `t` minus some entries that no later check can tell from new ones. */
  ghost predicate Collected(cfg: Config, t: Table, c: Table, clock: real) {
    && c.Keys <= t.Keys
    && (forall k :: k in c ==> SameEntry(t[k], c[k], clock))
    && (forall k :: k in t && k !in c ==> Stale(cfg, t[k], clock))
  }

  /** The bound behind the collector: no entry stays blocked past firstRequest + 2 * window. */
  ghost predicate BlockBounded(cfg: Config, t: Table, clock: real) {
    forall k :: k in t ==>
      t[k].firstRequest <= clock && t[k].blockedUntil <= Later(clock, t[k].firstRequest + 2.0 * cfg.windowSeconds)
  }

  function Later(x: real, y: real): real {
    if x > y then x else y
  }

  lemma RunSnoc(cfg: Config, h: seq<Event>, e: Event)
    ensures Run(cfg, h + [e]) == Apply(cfg, Run(cfg, h), e)
    ensures Answers(cfg, h + [e]) ==
            Answers(cfg, h) + (if e.Check? then [CheckTable(cfg, Run(cfg, h), e.key, e.at).1] else [])
  {
    assert (h + [e])[..|h + [e]| - 1] == h;
  }

  lemma AdmittedSnoc(cfg: Config, h: seq<Event>, e: Event, key: string)
    ensures Admitted(cfg, h + [e], key) ==
            Admitted(cfg, h, key) +
            (if e.Check? && e.key == key && CheckTable(cfg, Run(cfg, h), key, e.at).1.allowed then [e.at] else [])
  {
    assert (h + [e])[..|h + [e]| - 1] == h;
  }

  lemma StepKeepsBounded(cfg: Config, t: Table, clock: real, e: Event)
    requires 0.0 <= clock <= e.at && BlockBounded(cfg, t, clock)
    ensures BlockBounded(cfg, Apply(cfg, t, e), e.at)
    ensures BlockBounded(cfg, t, e.at)
  {
  }

  lemma {:induction false} BlockEndsWithinTwoWindows(cfg: Config, h: seq<Event>)
    requires Monotone(h)
    ensures BlockBounded(cfg, Run(cfg, h), Clock(h))
    ensures cfg.windowSeconds >= 0.0 ==>
              forall k :: k in Run(cfg, h) ==>
                Run(cfg, h)[k].blockedUntil <= Run(cfg, h)[k].firstRequest + 2.0 * cfg.windowSeconds
  {
    if h != [] {
      BlockEndsWithinTwoWindows(cfg, h[..|h| - 1]);
      StepKeepsBounded(cfg, Run(cfg, h[..|h| - 1]), Clock(h[..|h| - 1]), h[|h| - 1]);
    }
  }

  lemma CheckKeepsCollected(cfg: Config, t: Table, c: Table, clock: real, key: string, now: real)
    requires 0.0 <= clock <= now && Collected(cfg, t, c, clock)
    ensures CheckTable(cfg, t, key, now).1 == CheckTable(cfg, c, key, now).1
    ensures Collected(cfg, CheckTable(cfg, t, key, now).0, CheckTable(cfg, c, key, now).0, now)
  {
    var e, f := Lookup(t, key, now), Lookup(c, key, now);
    assert SameEntry(CheckEntry(cfg, e, now).0, CheckEntry(cfg, f, now).0, now);
  }

  lemma CleanupKeepsCollected(cfg: Config, t: Table, c: Table, clock: real, now: real, maxAge: real)
    requires clock <= now && Collected(cfg, t, c, clock) && BlockBounded(cfg, t, clock)
    requires maxAge >= 2.0 * cfg.windowSeconds
    ensures Collected(cfg, t, CleanTable(c, now, maxAge), now)
  {
  }

  lemma {:induction false} CollectionStep(cfg: Config, h: seq<Event>)
    requires Monotone(h) && Spares(cfg, h)
    ensures Collected(cfg, Run(cfg, WithoutCleanup(h)), Run(cfg, h), Clock(h))
    ensures BlockBounded(cfg, Run(cfg, WithoutCleanup(h)), Clock(h))
    ensures Answers(cfg, h) == Answers(cfg, WithoutCleanup(h))
    ensures forall k :: Admitted(cfg, h, k) == Admitted(cfg, WithoutCleanup(h), k)
  {
    if h != [] {
      var p, e := h[..|h| - 1], h[|h| - 1];
      CollectionStep(cfg, p);
      assert h == p + [e];
      RunSnoc(cfg, p, e);
      var s := WithoutCleanup(p);
      var t, c := Run(cfg, s), Run(cfg, p);
      StepKeepsBounded(cfg, t, Clock(p), e);
      match e
      case Check(key, now) =>
        assert WithoutCleanup(h) == s + [e];
        RunSnoc(cfg, s, e);
        CheckKeepsCollected(cfg, t, c, Clock(p), key, now);
        forall k
          ensures Admitted(cfg, h, k) == Admitted(cfg, WithoutCleanup(h), k)
        {
          AdmittedSnoc(cfg, p, e, k);
          AdmittedSnoc(cfg, s, e, k);
        }
      case Cleanup(now, maxAge) =>
        assert WithoutCleanup(h) == s;
        CleanupKeepsCollected(cfg, t, c, Clock(p), now, maxAge);
    }
  }

  /** Inserting collector calls anywhere changes no answer and admits the same requests. */
  lemma CollectorIsInvisible(cfg: Config, h: seq<Event>)
    requires Monotone(h) && Spares(cfg, h)
    ensures Answers(cfg, h) == Answers(cfg, WithoutCleanup(h))
    ensures forall k :: Admitted(cfg, h, k) == Admitted(cfg, WithoutCleanup(h), k)
  {
    CollectionStep(cfg, h);
  }

  function Burst(key: string, at: real, n: nat): seq<Event> {
    if n == 0 then [] else Burst(key, at, n - 1) + [Check(key, at)]
  }

  lemma {:induction false} BurstIsChecks(key: string, n: nat)
    ensures |Burst(key, 0.0, n)| == n && forall i :: 0 <= i < n ==> Burst(key, 0.0, n)[i] == Check(key, 0.0)
    ensures WithoutCleanup(Burst(key, 0.0, n)) == Burst(key, 0.0, n)
  {
    if n > 0 {
      BurstIsChecks(key, n - 1);
      assert Burst(key, 0.0, n)[..n - 1] == Burst(key, 0.0, n - 1);
    }
  }

  lemma {:induction false} BurstRun(cfg: Config, key: string, n: nat)
    requires cfg.windowSeconds > 0.0 && n <= cfg.maxRequests
    ensures Run(cfg, Burst(key, 0.0, n)) == if n == 0 then map[] else map[key := Entry(n, 0.0, 0.0)]
  {
    if n > 0 {
      BurstRun(cfg, key, n - 1);
      RunSnoc(cfg, Burst(key, 0.0, n - 1), Check(key, 0.0));
      assert CheckEntry(cfg, Entry(n - 1, 0.0, 0.0), 0.0).0 == Entry(n, 0.0, 0.0);
    }
  }

  /** A burst that fills the window, one request that trips the block, a collection before
      the block ends, and a request that the collected limiter admits. */
  function EarlyCollection(cfg: Config, maxAge: real): seq<Event>
    requires cfg.maxRequests >= 0
  {
    var g := CollectionInstant(cfg, maxAge);
    Burst("k", 0.0, cfg.maxRequests) + [Check("k", cfg.windowSeconds)] + [Cleanup(g, maxAge)] + [Check("k", g)]
  }

  function CollectionInstant(cfg: Config, maxAge: real): real {
    (Later(maxAge, cfg.windowSeconds) + 2.0 * cfg.windowSeconds) / 2.0
  }

  lemma TrippedAfterBurst(cfg: Config) returns (h: seq<Event>)
    requires cfg.windowSeconds > 0.0 && cfg.maxRequests >= 1
    ensures h == Burst("k", 0.0, cfg.maxRequests) + [Check("k", cfg.windowSeconds)]
    ensures Run(cfg, h) == map["k" := Entry(0, 0.0, 2.0 * cfg.windowSeconds)]
    ensures WithoutCleanup(h) == h
  {
    var b, trip := Burst("k", 0.0, cfg.maxRequests), Check("k", cfg.windowSeconds);
    h := b + [trip];
    BurstRun(cfg, "k", cfg.maxRequests);
    RunSnoc(cfg, b, trip);
    assert CheckEntry(cfg, Entry(cfg.maxRequests, 0.0, 0.0), cfg.windowSeconds).0 ==
           Entry(0, 0.0, 2.0 * cfg.windowSeconds);
    assert WithoutCleanup(h) == h by {
      BurstIsChecks("k", cfg.maxRequests);
      ChecksSnoc(h);
      assert h[..|h| - 1] == b;
    }
  }

  lemma EarlyCollectionShows(cfg: Config, maxAge: real)
    requires cfg.windowSeconds > 0.0 && cfg.maxRequests >= 1 && maxAge < 2.0 * cfg.windowSeconds
    ensures var h := EarlyCollection(cfg, maxAge);
            Monotone(h) && CollectsAt(h, maxAge) && Answers(cfg, h) != Answers(cfg, WithoutCleanup(h))
  {
    var g := CollectionInstant(cfg, maxAge);
    var t := TrippedAfterBurst(cfg);
    EarlyCollectionIsOrdered(cfg, maxAge);
    assert WithoutCleanup(EarlyCollection(cfg, maxAge)) == t + [Check("k", g)] by {
      FilterAppend((e: Event) => e.Check?, t, [Cleanup(g, maxAge)]);
      FilterAppend((e: Event) => e.Check?, t + [Cleanup(g, maxAge)], [Check("k", g)]);
    }
    CollectedForgets(cfg, t, g, maxAge);
  }

  lemma EarlyCollectionIsOrdered(cfg: Config, maxAge: real)
    requires cfg.windowSeconds > 0.0 && cfg.maxRequests >= 1 && maxAge < 2.0 * cfg.windowSeconds
    ensures Monotone(EarlyCollection(cfg, maxAge)) && CollectsAt(EarlyCollection(cfg, maxAge), maxAge)
  {
    BurstIsChecks("k", cfg.maxRequests);
  }

  /** A blocked key is admitted once its entry is collected, and refused if it is not. */
  lemma CollectedForgets(cfg: Config, t: seq<Event>, g: real, maxAge: real)
    requires cfg.maxRequests >= 1 && maxAge < g && 0.0 < cfg.windowSeconds < g < 2.0 * cfg.windowSeconds
    requires Run(cfg, t) == map["k" := Entry(0, 0.0, 2.0 * cfg.windowSeconds)]
    ensures Answers(cfg, t + [Cleanup(g, maxAge)] + [Check("k", g)]) != Answers(cfg, t + [Check("k", g)])
  {
    var gc, again := Cleanup(g, maxAge), Check("k", g);
    RunSnoc(cfg, t, gc);
    RunSnoc(cfg, t + [gc], again);
    RunSnoc(cfg, t, again);
    assert Run(cfg, t + [gc]) == map[];
    assert Answers(cfg, t + [gc] + [again])[|Answers(cfg, t)|].allowed;
    assert !Answers(cfg, t + [again])[|Answers(cfg, t)|].allowed;
  }

  /** For a limiter that admits anything at all, the collector is invisible in every run
      exactly when `maxAge` is at least twice the window. */
  lemma CollectorInvisibleExactly(cfg: Config, maxAge: real)
    requires cfg.windowSeconds > 0.0 && cfg.maxRequests >= 1
    ensures (forall h :: Monotone(h) && CollectsAt(h, maxAge) ==> Answers(cfg, h) == Answers(cfg, WithoutCleanup(h)))
            <==> maxAge >= 2.0 * cfg.windowSeconds
  {
    if maxAge >= 2.0 * cfg.windowSeconds {
      forall h | Monotone(h) && CollectsAt(h, maxAge)
        ensures Answers(cfg, h) == Answers(cfg, WithoutCleanup(h))
      {
        CollectorIsInvisible(cfg, h);
      }
    } else {
      EarlyCollectionShows(cfg, maxAge);
    }
  }

  // ---------------------------------------------------------------------------
  // At most 2 * maxRequests admissions in any interval as long as the window

  /** The admissions of one key, cut wherever the counter was zeroed: the current batch, the
      one before it, and everything older. */
  datatype Batches = Batches(older: seq<real>, prev: seq<real>, cur: seq<real>) {
    function Log(): seq<real> {
      older + prev + cur
    }
  }

  ghost predicate AllWithin(s: seq<real>, lo: real, hi: real) {
    forall i :: 0 <= i < |s| ==> lo <= s[i] <= hi
  }

  ghost predicate AllBefore(s: seq<real>, x: real) {
    forall i :: 0 <= i < |s| ==> s[i] < x
  }

  ghost predicate AllUpTo(s: seq<real>, x: real) {
    forall i :: 0 <= i < |s| ==> s[i] <= x
  }

  /** Everything older than the last two batches lies more than a window before the next
      possible admission: `blockedUntil` while the current batch is empty, its first
      admission afterwards. */
  ghost predicate Batched(cfg: Config, e: Entry, b: Batches) {
    var w := cfg.windowSeconds;
    && |b.cur| == e.count <= cfg.maxRequests && |b.prev| <= cfg.maxRequests
    && AllWithin(b.cur, e.firstRequest, e.firstRequest + w)
    && (b.cur == [] ==>
          && e.firstRequest + w <= e.blockedUntil
          && AllUpTo(b.prev, e.blockedUntil - w)
          && AllBefore(b.older, e.blockedUntil - w))
    && (b.cur != [] ==>
          && AllUpTo(b.prev, e.firstRequest)
          && (AllBefore(b.prev, e.firstRequest) || e.firstRequest + w <= b.cur[0])
          && AllBefore(b.older, b.cur[0] - w))
  }

  ghost predicate Spaced(log: seq<real>, n: nat, w: real) {
    forall i :: 0 <= i && i + n < |log| ==> log[i + n] - log[i] > w
  }

  ghost predicate UpTo(log: seq<real>, clock: real) {
    Sorted(log) && AllUpTo(log, clock)
  }

  lemma AppendAdmission(b: Batches, n: nat, w: real, clock: real, now: real)
    requires UpTo(b.Log(), clock) && Spaced(b.Log(), 2 * n, w) && clock <= now
    requires AllBefore(b.older, now - w) && |b.prev| <= n && |b.cur| < n
    ensures UpTo(b.Log() + [now], now) && Spaced(b.Log() + [now], 2 * n, w)
  {
    var log := b.Log();
    forall i | 0 <= i && i + 2 * n < |log + [now]|
      ensures (log + [now])[i + 2 * n] - (log + [now])[i] > w
    {
      if i + 2 * n == |log| {
        assert i < |b.older| && log[i] == b.older[i];
      } else {
        assert log[i + 2 * n] - log[i] > w;
      }
    }
  }

  /** Zeroing the counter closes the current batch; what was older stays more than a window
      before `next`, provided the window has been outlived or the block starts now. */
  function Close(b: Batches): Batches {
    if b.cur == [] then b else Batches(b.older + b.prev, b.cur, [])
  }

  lemma CloseKeepsOlder(cfg: Config, e: Entry, b: Batches, now: real, next: real)
    requires cfg.windowSeconds > 0.0 && Batched(cfg, e, b) && UpTo(b.Log(), now) && b.cur != []
    requires next > e.firstRequest + cfg.windowSeconds || next == now + cfg.windowSeconds
    requires next >= now >= e.firstRequest
    ensures AllBefore(Close(b).older, next - cfg.windowSeconds)
    ensures Close(b).Log() == b.Log()
  {
    assert b.cur[0] == b.Log()[|b.older| + |b.prev|];
    assert b.cur[0] <= now;
  }

  /** The batches after a check at `now`. */
  function CheckBatches(cfg: Config, e: Entry, b: Batches, now: real): Batches {
    if now < e.blockedUntil then b
    else
      var c := if now - e.firstRequest > cfg.windowSeconds then Close(b) else b;
      if |c.cur| >= cfg.maxRequests then Close(c) else c.(cur := c.cur + [now])
  }

  ghost predicate StepHolds(cfg: Config, e: Entry, b: Batches, now: real)
    requires cfg.maxRequests >= 1
  {
    var (e', d) := CheckEntry(cfg, e, now);
    var b' := CheckBatches(cfg, e, b, now);
    && b'.Log() == b.Log() + (if d.allowed then [now] else [])
    && UpTo(b'.Log(), now) && Spaced(b'.Log(), 2 * cfg.maxRequests, cfg.windowSeconds)
    && Batched(cfg, e', b') && e'.firstRequest <= now
  }

  ghost predicate Ready(cfg: Config, e: Entry, b: Batches, clock: real, now: real) {
    && cfg.windowSeconds > 0.0 && cfg.maxRequests >= 1 && e.firstRequest <= clock <= now
    && UpTo(b.Log(), clock) && Batched(cfg, e, b) && Spaced(b.Log(), 2 * cfg.maxRequests, cfg.windowSeconds)
  }

  lemma ResetStep(cfg: Config, e: Entry, b: Batches, clock: real, now: real)
    requires Ready(cfg, e, b, clock, now)
    requires now >= e.blockedUntil && now - e.firstRequest > cfg.windowSeconds
    ensures StepHolds(cfg, e, b, now)
  {
    var c := Close(b);
    if b.cur != [] {
      CloseKeepsOlder(cfg, e, b, now, now);
      assert AllBefore(c.prev, now);
    }
    AppendAdmission(c, cfg.maxRequests, cfg.windowSeconds, clock, now);
    assert CheckBatches(cfg, e, b, now).Log() == c.Log() + [now];
  }

  lemma PenaltyStep(cfg: Config, e: Entry, b: Batches, clock: real, now: real)
    requires Ready(cfg, e, b, clock, now)
    requires now >= e.blockedUntil && now - e.firstRequest <= cfg.windowSeconds && e.count >= cfg.maxRequests
    ensures StepHolds(cfg, e, b, now)
  {
    CloseKeepsOlder(cfg, e, b, now, now + cfg.windowSeconds);
    assert AllUpTo(Close(b).prev, now) by {
      forall i | 0 <= i < |b.cur|
        ensures b.cur[i] <= now
      {
        assert b.cur[i] == b.Log()[|b.older| + |b.prev| + i];
      }
    }
  }

  lemma AdmitStep(cfg: Config, e: Entry, b: Batches, clock: real, now: real)
    requires Ready(cfg, e, b, clock, now)
    requires now >= e.blockedUntil && now - e.firstRequest <= cfg.windowSeconds && e.count < cfg.maxRequests
    ensures StepHolds(cfg, e, b, now)
  {
    if b.cur != [] {
      assert b.cur[0] == b.Log()[|b.older| + |b.prev|] <= now;
    }
    AppendAdmission(b, cfg.maxRequests, cfg.windowSeconds, clock, now);
    var b' := CheckBatches(cfg, e, b, now);
    assert b'.Log() == b.Log() + [now];
    assert b'.cur[0] == if b.cur == [] then now else b.cur[0];
  }

  lemma BatchStep(cfg: Config, e: Entry, b: Batches, clock: real, now: real)
    requires Ready(cfg, e, b, clock, now)
    ensures StepHolds(cfg, e, b, now)
  {
    if now < e.blockedUntil {
    } else if now - e.firstRequest > cfg.windowSeconds {
      ResetStep(cfg, e, b, clock, now);
    } else if e.count >= cfg.maxRequests {
      PenaltyStep(cfg, e, b, clock, now);
    } else {
      AdmitStep(cfg, e, b, clock, now);
    }
  }

  lemma FirstCheck(cfg: Config, now: real) returns (b: Batches)
    requires cfg.windowSeconds > 0.0 && cfg.maxRequests >= 1 && 0.0 <= now
    ensures var (e, d) := CheckEntry(cfg, Entry(0, now, 0.0), now);
            d.allowed && b.Log() == [now] && Batched(cfg, e, b) && e.firstRequest <= now
  {
    b := Batches([], [], [now]);
  }

  lemma {:induction false} BatchesOf(cfg: Config, h: seq<Event>, key: string) returns (b: Batches)
    requires Monotone(h) && cfg.windowSeconds > 0.0 && cfg.maxRequests >= 1
    requires forall i :: 0 <= i < |h| ==> h[i].Check?
    ensures b.Log() == Admitted(cfg, h, key)
    ensures UpTo(b.Log(), Clock(h)) && Spaced(b.Log(), 2 * cfg.maxRequests, cfg.windowSeconds)
    ensures key in Run(cfg, h) ==> Batched(cfg, Run(cfg, h)[key], b) && Run(cfg, h)[key].firstRequest <= Clock(h)
    ensures key !in Run(cfg, h) ==> b.Log() == []
  {
    b := Batches([], [], []);
    if h != [] {
      var p, e := h[..|h| - 1], h[|h| - 1];
      b := BatchesOf(cfg, p, key);
      RunSnoc(cfg, p, e);
      AdmittedSnoc(cfg, p, e, key);
      assert h == p + [e];
      if e.key == key {
        if key in Run(cfg, p) {
          BatchStep(cfg, Run(cfg, p)[key], b, Clock(p), e.at);
          b := CheckBatches(cfg, Run(cfg, p)[key], b, e.at);
        } else {
          b := FirstCheck(cfg, e.at);
        }
      }
    }
  }

  lemma ChecksAreBounded(cfg: Config, h: seq<Event>, key: string, lo: real)
    requires Monotone(h) && cfg.windowSeconds > 0.0
    requires forall i :: 0 <= i < |h| ==> h[i].Check?
    ensures |Filter(Within(lo, lo + cfg.windowSeconds), Admitted(cfg, h, key))| <= 2 * Max(cfg.maxRequests, 0)
  {
    if cfg.maxRequests >= 1 {
      var b := BatchesOf(cfg, h, key);
      SpacedIsSparse(b.Log(), 2 * cfg.maxRequests, cfg.windowSeconds, lo);
    } else {
      NothingAdmitted(cfg, h, key);
    }
  }

  /** In every closed interval as long as the window, at most twice `maxRequests` requests of
      a key are admitted, whatever the collector does with entries older than two windows. */
  lemma AdmissionsAreBounded(cfg: Config, h: seq<Event>, key: string, lo: real)
    requires Monotone(h) && Spares(cfg, h)
    requires cfg.windowSeconds > 0.0
    ensures |Filter(Within(lo, lo + cfg.windowSeconds), Admitted(cfg, h, key))| <= 2 * Max(cfg.maxRequests, 0)
  {
    ChecksKeepOrder(h);
    OnlyChecks(h);
    ChecksAreBounded(cfg, WithoutCleanup(h), key, lo);
    CollectorIsInvisible(cfg, h);
    assert Admitted(cfg, h, key) == Admitted(cfg, WithoutCleanup(h), key);
  }

  lemma SpacedIsSparse(log: seq<real>, n: nat, w: real, lo: real)
    requires Sorted(log) && Spaced(log, n, w)
    ensures |Filter(Within(lo, lo + w), log)| <= n
  {
    var inside := Within(lo, lo + w);
    forall i, j | 0 <= i <= j < |log| && inside(log[i]) && inside(log[j])
      ensures j - i < n
    {
      if i + n < |log| {
        assert log[i + n] - log[i] > w;
      }
    }
    SparseFilter(inside, log, n);
  }

  lemma MonotoneSnoc(h: seq<Event>, e: Event)
    requires Monotone(h) && Clock(h) <= e.at && 0.0 <= e.at
    ensures Monotone(h + [e])
  {
  }

  lemma ChecksSnoc(h: seq<Event>)
    requires h != []
    ensures var p, e := h[..|h| - 1], h[|h| - 1];
            WithoutCleanup(h) == if e.Check? then WithoutCleanup(p) + [e] else WithoutCleanup(p)
  {
  }

  lemma MonotonePrefix(h: seq<Event>)
    requires h != [] && Monotone(h)
    ensures Monotone(h[..|h| - 1]) && 0.0 <= Clock(h[..|h| - 1]) <= Clock(h)
  {
  }

  lemma {:induction false} ChecksKeepOrder(h: seq<Event>)
    requires Monotone(h)
    ensures Monotone(WithoutCleanup(h)) && Clock(WithoutCleanup(h)) <= Clock(h)
  {
    if h != [] {
      MonotonePrefix(h);
      ChecksSnoc(h);
      ChecksKeepOrder(h[..|h| - 1]);
      if h[|h| - 1].Check? {
        MonotoneSnoc(WithoutCleanup(h[..|h| - 1]), h[|h| - 1]);
      }
    }
  }

  lemma {:induction false} OnlyChecks(h: seq<Event>)
    ensures forall i :: 0 <= i < |WithoutCleanup(h)| ==> WithoutCleanup(h)[i].Check?
  {
    if h != [] {
      OnlyChecks(h[..|h| - 1]);
      ChecksSnoc(h);
    }
  }

  lemma {:induction false} NothingAdmitted(cfg: Config, h: seq<Event>, key: string)
    requires Monotone(h) && cfg.maxRequests <= 0
    ensures Admitted(cfg, h, key) == []
    ensures forall k :: k in Run(cfg, h) ==> Run(cfg, h)[k].count == 0
  {
    if h != [] {
      NothingAdmitted(cfg, h[..|h| - 1], key);
    }
  }

  // ---------------------------------------------------------------------------
  // The penalty block

  /** From the trip on, either the block is in force or the clock has passed its end. */
  ghost predicate BlockedOrOver(t: Table, key: string, end: real, clock: real) {
    clock >= end || (key in t && t[key].blockedUntil == end)
  }

  lemma BlockedStep(cfg: Config, t: Table, key: string, end: real, clock: real, e: Event)
    requires BlockedOrOver(t, key, end, clock) && 0.0 <= clock <= e.at && BlockBounded(cfg, t, clock)
    requires e.Cleanup? ==> e.maxAge >= 2.0 * cfg.windowSeconds
    ensures BlockedOrOver(Apply(cfg, t, e), key, end, e.at)
    ensures e.Check? && e.key == key && e.at < end ==> !CheckTable(cfg, t, key, e.at).1.allowed
  {
  }

  /** A rejection that trips the threshold at `t` keeps `key` out until t + window, in every
      continuation of the run. */
  lemma {:induction false} PenaltyHolds(cfg: Config, h: seq<Event>, key: string, t: real, g: seq<Event>)
    requires Monotone(h + [Check(key, t)] + g) && Spares(cfg, g)
    requires var e := Lookup(Run(cfg, h), key, t);
             e.blockedUntil <= t && !CheckEntry(cfg, e, t).1.allowed
    ensures var before := Admitted(cfg, h, key);
            var log := Admitted(cfg, h + [Check(key, t)] + g, key);
            && before <= log
            && forall i :: |before| <= i < |log| ==> log[i] >= t + cfg.windowSeconds
    ensures var r := h + [Check(key, t)] + g;
            BlockedOrOver(Run(cfg, r), key, t + cfg.windowSeconds, Clock(r))
    decreases |g|
  {
    var r := h + [Check(key, t)];
    if g == [] {
      RunSnoc(cfg, h, Check(key, t));
      AdmittedSnoc(cfg, h, Check(key, t), key);
      assert r + g == r;
    } else {
      var q, e := g[..|g| - 1], g[|g| - 1];
      assert r + g == r + q + [e];
      assert (r + g)[|r + g| - 1] == e;
      assert Monotone(r + q) by {
        assert forall i :: 0 <= i < |r + q| ==> (r + q)[i] == (r + g)[i];
      }
      PenaltyHolds(cfg, h, key, t, q);
      RunSnoc(cfg, r + q, e);
      AdmittedSnoc(cfg, r + q, e, key);
      BlockEndsWithinTwoWindows(cfg, r + q);
      BlockedStep(cfg, Run(cfg, r + q), key, t + cfg.windowSeconds, Clock(r + q), e);
    }
  }

  // ---------------------------------------------------------------------------
  // What an answer says about the block

  /** While a key is blocked its count is zero. */
  ghost predicate BlockedAreCleared(t: Table, clock: real) {
    forall k :: k in t && clock < t[k].blockedUntil ==> t[k].count == 0
  }

  lemma {:induction false} BlockClears(cfg: Config, h: seq<Event>)
    requires Monotone(h)
    ensures BlockedAreCleared(Run(cfg, h), Clock(h))
  {
    if h != [] {
      BlockClears(cfg, h[..|h| - 1]);
    }
  }

  /** The answer to a check of `key` at `t` after the run `h`. */
  function AnswerTo(cfg: Config, h: seq<Event>, key: string, t: real): Decision {
    CheckTable(cfg, Run(cfg, h), key, t).1
  }

  /** An admission has no retry time. A refusal says, rounded down to whole seconds, how long its
      key stays blocked: a check before that is refused, and one a second later is admitted. The
      refusal that starts the block starts it for exactly one window. */
  lemma RetryTellsTheBlock(cfg: Config, h: seq<Event>, key: string, t: real, later: real)
    requires Monotone(h) && Clock(h) <= t <= later && 0.0 <= t && cfg.maxRequests >= 1 && cfg.windowSeconds >= 0.0
    ensures var answer, h' := AnswerTo(cfg, h, key, t), h + [Check(key, t)];
            if answer.allowed then answer.retryAfter == 0
            else && answer.retryAfter >= 0
                 && (later < t + answer.retryAfter as real ==> !AnswerTo(cfg, h', key, later).allowed)
                 && (later >= t + answer.retryAfter as real + 1.0 ==> AnswerTo(cfg, h', key, later).allowed)
                 && (Lookup(Run(cfg, h), key, t).blockedUntil <= t ==>
                       (AnswerTo(cfg, h', key, later).allowed <==> later >= t + cfg.windowSeconds))
  {
    var e := Lookup(Run(cfg, h), key, t);
    BlockClears(cfg, h);
    RunSnoc(cfg, h, Check(key, t));
    if t < e.blockedUntil {
      TruncateIsIntegerPart(e.blockedUntil - t);
    } else {
      TruncateIsIntegerPart(cfg.windowSeconds);
    }
    RetryOfEntry(cfg, e, t, later);
  }

  lemma RetryOfEntry(cfg: Config, e: Entry, t: real, later: real)
    requires t <= later && cfg.maxRequests >= 1 && cfg.windowSeconds >= 0.0 && (t < e.blockedUntil ==> e.count == 0)
    ensures var (e', answer) := CheckEntry(cfg, e, t);
            if answer.allowed then answer.retryAfter == 0
            else && e'.count == 0 && t <= e'.blockedUntil && answer.retryAfter == Truncate(e'.blockedUntil - t)
                 && (CheckEntry(cfg, e', later).1.allowed <==> later >= e'.blockedUntil)
                 && (e.blockedUntil <= t ==> e'.blockedUntil == t + cfg.windowSeconds)
  {
  }
}
