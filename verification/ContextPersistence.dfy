/** Saving session contexts to rows and loading them back
    (src/services/memory/context/persistence.py, manager.py). */
module ContextPersistence {
  import opened Prelude
  import opened SessionContext

  /** What the database keeps of a message: tool calls and results are not stored. */
  datatype Row = Row(sequence: int, role: string, content: string, taskId: Option<string>)

  /** The rows of one session, by sequence. */
  type Database = map<int, Row>

  function RowOf(m: Message): Row {
    Row(m.sequence, m.draft.role, m.draft.content, m.draft.taskId)
  }

  function MessageOf(r: Row): Message {
    Message(r.sequence, Draft(r.role, r.content, r.taskId, None, None))
  }

  function Rows(messages: seq<Message>): seq<Row> {
    seq(|messages|, i requires 0 <= i < |messages| => RowOf(messages[i]))
  }

  /** `persist_to_db`: add the recent messages whose sequence is not there yet. */
  function Persisted(db: Database, recent: seq<Message>): Database {
    if recent == [] then db
    else
      var before, m := Persisted(db, recent[..|recent| - 1]), recent[|recent| - 1];
      if m.sequence in before then before else before[m.sequence := RowOf(m)]
  }

  ghost predicate IsLargest(keys: set<int>, x: int) {
    x in keys && forall y :: y in keys ==> y <= x
  }

  lemma LargerOf(keys: set<int>, x: int, y: int)
    requires x in keys && IsLargest(keys - {x}, y)
    ensures IsLargest(keys, Max(x, y))
  {
    assert forall z :: z in keys ==> z == x || z in keys - {x};
  }

  lemma {:induction false} LargestExists(keys: set<int>)
    requires keys != {}
    ensures exists x :: IsLargest(keys, x)
    decreases |keys|
  {
    assert (forall y :: y !in keys) ==> keys == {};
    var x :| x in keys;
    if keys - {x} == {} {
      assert forall z :: z in keys ==> z == x || z in keys - {x};
      assert IsLargest(keys, x);
    } else {
      LargestExists(keys - {x});
      var y :| IsLargest(keys - {x}, y);
      LargerOf(keys, x, y);
    }
  }

  function Largest(keys: set<int>): (x: int)
    requires keys != {}
    ensures x in keys && forall y :: y in keys ==> y <= x
  {
    LargestExists(keys);
    assert exists x :: x in keys && forall y :: y in keys ==> y <= x by {
      var x :| IsLargest(keys, x);
    }
    var x :| x in keys && forall y :: y in keys ==> y <= x;
    x
  }

  /** The query of `load_from_db`: the rows with the largest sequences, at most `limit` of
      them, put back in chronological order. */
  function Latest(db: Database, limit: nat): seq<Row>
    decreases limit
  {
    if limit == 0 || db == map[] then []
    else
      assert db.Keys != {};
      var last := Largest(db.Keys);
      Latest(db - {last}, limit - 1) + [db[last]]
  }

  function Messages(rows: seq<Row>): seq<Message> {
    seq(|rows|, i requires 0 <= i < |rows| => MessageOf(rows[i]))
  }

  function HighestSequence(rows: seq<Row>): int {
    if rows == [] then 0 else Max(HighestSequence(rows[..|rows| - 1]), rows[|rows| - 1].sequence)
  }

  /** `load_from_db`. */
  function Loaded(db: Database, sessionExists: bool, maxRecent: nat): Option<Context> {
    var rows := Latest(db, 2 * maxRecent);
    if !sessionExists || rows == [] then None
    else
      var last := HighestSequence(rows);
      Some(Context([], Messages(rows), last, last, false))
  }

  /** A session's cached context and its rows. */
  class ContextStore {
    const maxRecent: nat
    var context: Context
    var db: Database

    ghost function Value(): Store
      reads this
    {
      Store(context, db)
    }

    constructor (maxRecent: nat)
      ensures this.maxRecent == maxRecent && Value() == Run(maxRecent, [])
    {
      this.maxRecent := maxRecent;
      context, db := FRESH, map[];
    }

    method AddMessage(d: Draft)
      modifies `context
      ensures Value() == Apply(maxRecent, old(Value()), Op.Add(d))
    {
      var message := Message(context.lastSequence + 1, d);
      context := context.(lastSequence := context.lastSequence + 1);
      context := context.(recent := context.recent + [message]);
      if |context.recent| > maxRecent {
        var oldMessages := SliceTo(context.recent, -(maxRecent as int));
        context := context.(recent := SliceFrom(context.recent, -(maxRecent as int)));
        if oldMessages != [] {
          CreateWindow(oldMessages);
        }
      }
      context := context.(totalMessages := context.totalMessages + 1, dirty := true);
    }

    method CreateWindow(messages: seq<Message>)
      requires messages != []
      modifies `context
      ensures context == old(context).(windows := old(context).windows + [MakeWindow(messages)])
    {
      var window :=
        Window(messages[0].sequence, messages[|messages| - 1].sequence, messages, ContentLength(messages) / 4);
      context := context.(windows := context.windows + [window]);
    }

    /** The end of `summarize_window` and `summarize_session`, as far as saving is concerned. */
    method SummaryArrived()
      modifies `context
      ensures Value() == Apply(maxRecent, old(Value()), Op.Summarize)
    {
      context := context.(dirty := true);
    }

    method PersistToDb(sessionExists: bool)
      modifies `db
      ensures db == if sessionExists then Persisted(old(db), context.recent) else old(db)
    {
      if !sessionExists {
        return;
      }
      for i := 0 to |context.recent|
        invariant db == Persisted(old(db), context.recent[..i])
      {
        assert context.recent[..i + 1][..i] == context.recent[..i];
        var m := context.recent[i];
        if m.sequence in db {
          continue;
        }
        db := db[m.sequence := RowOf(m)];
      }
      assert context.recent[..|context.recent|] == context.recent;
    }

    /** `_flush_all`, for this session: the flag is cleared even if nothing was written. */
    method Flush(sessionExists: bool)
      modifies this
      ensures Value() == Apply(maxRecent, old(Value()), Op.Flush(sessionExists))
    {
      if context.dirty {
        PersistToDb(sessionExists);
        context := context.(dirty := false);
      }
    }

    method LoadFromDb(sessionExists: bool) returns (loaded: Option<Context>)
      ensures loaded == Loaded(db, sessionExists, maxRecent)
    {
      if !sessionExists {
        return None;
      }
      var rows := Latest(db, 2 * maxRecent);
      if rows == [] {
        return None;
      }
      var c := FRESH;
      for i := 0 to |rows|
        invariant c == Context([], Messages(rows[..i]), HighestSequence(rows[..i]), 0, false)
      {
        assert rows[..i + 1][..i] == rows[..i];
        c := c.(lastSequence := Max(c.lastSequence, rows[i].sequence), recent := c.recent + [MessageOf(rows[i])]);
        assert Messages(rows[..i + 1]) == Messages(rows[..i]) + [MessageOf(rows[i])];
      }
      assert rows[..|rows|] == rows;
      return Some(c.(totalMessages := c.lastSequence));
    }

    /** The context leaves the cache, and the next access loads it or starts afresh. */
    method Reload(sessionExists: bool)
      modifies `context
      ensures Value() == Apply(maxRecent, old(Value()), Op.Reload(sessionExists))
    {
      var loaded := LoadFromDb(sessionExists);
      context := if loaded.Some? then loaded.value else FRESH;
    }
  }

  // ---------------------------------------------------------------------------
  // Runs of one session, whose row may be missing at any flush or load

  /** A message is added; a summary arrives; `_flush_all` reaches the context; the context
      leaves the cache and is accessed again. */
  datatype Op = Add(draft: Draft) | Summarize | Flush(sessionExists: bool) | Reload(sessionExists: bool)

  datatype Store = Store(context: Context, db: Database)

  function Apply(maxRecent: nat, s: Store, op: Op): Store {
    match op
    case Add(d) => s.(context := AfterAdd(maxRecent, s.context, d))
    case Summarize => s.(context := s.context.(dirty := true))
    case Flush(sessionExists) =>
      Store(s.context.(dirty := false),
            if sessionExists && s.context.dirty then Persisted(s.db, s.context.recent) else s.db)
    case Reload(sessionExists) =>
      var loaded := Loaded(s.db, sessionExists, maxRecent);
      s.(context := if loaded.Some? then loaded.value else FRESH)
  }

  function Run(maxRecent: nat, ops: seq<Op>): Store {
    if ops == [] then Store(FRESH, map[]) else Apply(maxRecent, Run(maxRecent, ops[..|ops| - 1]), ops[|ops| - 1])
  }

  function Appended(added: seq<Row>, c: Context, op: Op): seq<Row> {
    if op.Add? then added + [RowOf(Message(c.lastSequence + 1, op.draft))] else added
  }

  /** Every message ever added, as it would be stored. */
  function Added(maxRecent: nat, ops: seq<Op>): seq<Row> {
    if ops == [] then []
    else
      var p, op := ops[..|ops| - 1], ops[|ops| - 1];
      Appended(Added(maxRecent, p), Run(maxRecent, p).context, op)
  }

  ghost predicate Kept(s: Store, r: Row) {
    (r.sequence in s.db && s.db[r.sequence] == r) || r in Rows(s.context.recent)
  }

  ghost predicate AllKept(s: Store, added: seq<Row>) {
    forall i :: 0 <= i < |added| ==> Kept(s, added[i])
  }

  /** At every moment of the run each message ever added is in the database or recent. */
  ghost predicate NeverLoses(maxRecent: nat, ops: seq<Op>) {
    && AllKept(Run(maxRecent, ops), Added(maxRecent, ops))
    && (ops != [] ==> NeverLoses(maxRecent, ops[..|ops| - 1]))
  }

  // ---------------------------------------------------------------------------
  // What a caller can count

  /** Messages that a flush wrote, messages added since, whether the next flush would write, and
      whether the context started afresh, numbering from one, while rows were there. */
  datatype Tally = Tally(saved: nat, unsaved: nat, dirty: bool, detached: bool)

  /** A flush saves only if the row is there, the context is dirty, and its numbers are not those
      of other messages. */
  function Advance(t: Tally, op: Op): Tally {
    match op
    case Add(_) => t.(unsaved := t.unsaved + 1, dirty := true)
    case Summarize => t.(dirty := true)
    case Flush(sessionExists) =>
      if sessionExists && t.dirty && !t.detached then Tally(t.saved + t.unsaved, 0, false, false)
        else t.(dirty := false)
    case Reload(sessionExists) => Tally(t.saved, 0, false, !sessionExists && t.saved > 0)
  }

  function TallyOf(ops: seq<Op>): Tally {
    if ops == [] then Tally(0, 0, false, false) else Advance(TallyOf(ops[..|ops| - 1]), ops[|ops| - 1])
  }

  predicate Allowed(maxRecent: nat, t: Tally, op: Op) {
    (op.Add? ==> t.unsaved < maxRecent) && (op.Reload? ==> t.unsaved == 0)
  }

  /** At most `maxRecent` additions since the last flush that saved, and no reload with unsaved
      ones. */
  predicate Disciplined(maxRecent: nat, ops: seq<Op>) {
    ops == [] ||
    (Disciplined(maxRecent, ops[..|ops| - 1]) && Allowed(maxRecent, TallyOf(ops[..|ops| - 1]), ops[|ops| - 1]))
  }

  /** No reload ever finds rows without finding the session. */
  predicate NeverDetached(ops: seq<Op>) {
    !TallyOf(ops).detached && (ops == [] || NeverDetached(ops[..|ops| - 1]))
  }

  /** The state of a disciplined run, as the tally describes it. */
  ghost predicate Consistent(maxRecent: nat, s: Store, added: seq<Row>, t: Tally) {
    && |added| == t.saved + t.unsaved && t.unsaved <= maxRecent
    && s.context.dirty == t.dirty
    && IsEnd(s.context.recent, added)
    && if t.detached then Detached(s, added, t) else Attached(maxRecent, s, added, t)
  }

  /** `added` numbered from one, all but the unsaved ones in the database, and the recent
      messages its end. */
  ghost predicate Attached(maxRecent: nat, s: Store, added: seq<Row>, t: Tally)
    requires |added| == t.saved + t.unsaved
  {
    && Numbered(added)
    && Holds(s.db, added[..t.saved])
    && Min(maxRecent, |added|) <= |s.context.recent|
    && s.context.lastSequence == |added|
  }

  /** The saved messages in the database, and all later ones recent, numbered from one again;
      those whose number was free may be stored as well. */
  ghost predicate Detached(s: Store, added: seq<Row>, t: Tally)
    requires |added| == t.saved + t.unsaved
  {
    && t.saved >= 1 && |s.context.recent| == s.context.lastSequence == t.unsaved
    && Numbered(added[..t.saved]) && Numbered(added[t.saved..])
    && Rooted(s.db, added[..t.saved], Max(t.saved, t.unsaved))
  }

  ghost predicate Numbered(rows: seq<Row>) {
    forall i :: 0 <= i < |rows| ==> rows[i].sequence == i + 1
  }

  ghost predicate Upto(db: Database, m: nat) {
    forall x :: x in db <==> 1 <= x <= m
  }

  /** Numbered from one up to at most `last`, these rows first. */
  ghost predicate Rooted(db: Database, rows: seq<Row>, last: int) {
    && (exists m: nat :: Upto(db, m) && m <= last)
    && (forall x :: x in db ==> db[x].sequence == x)
    && (forall x :: 1 <= x <= |rows| ==> x in db && db[x] == rows[x - 1])
  }

  ghost predicate IsEnd(recent: seq<Message>, added: seq<Row>) {
    && |recent| <= |added|
    && forall i :: 0 <= i < |recent| ==> RowOf(recent[i]) == added[|added| - |recent| + i]
  }

  /** The database is exactly these rows, numbered from one. */
  ghost predicate Holds(db: Database, rows: seq<Row>) {
    && (forall x :: x in db <==> 1 <= x <= |rows|)
    && (forall x :: x in db ==> db[x] == rows[x - 1])
  }

  lemma AddKeepsRecent(maxRecent: nat, c: Context, added: seq<Row>, d: Draft)
    requires maxRecent >= 1 && IsEnd(c.recent, added)
    ensures var row, recent := RowOf(Message(c.lastSequence + 1, d)), AfterAdd(maxRecent, c, d).recent;
            |recent| == Min(maxRecent, |c.recent| + 1) && IsEnd(recent, added + [row])
  {
    var m := Message(c.lastSequence + 1, d);
    AddTrims(maxRecent, c, d);
    EndSnoc(c.recent, added, m);
    if |c.recent| + 1 > maxRecent {
      EndOfEnd(c.recent + [m], added + [RowOf(m)], |c.recent| + 1 - maxRecent);
    }
  }

  lemma EndSnoc(recent: seq<Message>, added: seq<Row>, m: Message)
    requires IsEnd(recent, added)
    ensures IsEnd(recent + [m], added + [RowOf(m)])
  {
  }

  lemma EndOfEnd(recent: seq<Message>, added: seq<Row>, from: nat)
    requires IsEnd(recent, added) && from <= |recent|
    ensures IsEnd(recent[from..], added)
  {
    forall i | 0 <= i < |recent| - from
      ensures RowOf(recent[from..][i]) == added[|added| - (|recent| - from) + i]
    {
      assert recent[from..][i] == recent[from + i];
    }
  }

  lemma AddKeepsConsistent(maxRecent: nat, s: Store, added: seq<Row>, t: Tally, d: Draft)
    requires maxRecent >= 1 && Consistent(maxRecent, s, added, t) && t.unsaved < maxRecent
    ensures Consistent(maxRecent, Apply(maxRecent, s, Add(d)), Appended(added, s.context, Add(d)), Advance(t, Add(d)))
  {
    var row := RowOf(Message(s.context.lastSequence + 1, d));
    var s' := Store(AfterAdd(maxRecent, s.context, d), s.db);
    AddKeepsRecent(maxRecent, s.context, added, d);
    AddAppends(maxRecent, s.context, d);
    if t.detached {
      AddedIsDetached(maxRecent, s, s', added, row, t);
    } else {
      AddedIsAttached(maxRecent, s, s', added, row, t);
    }
    assert Apply(maxRecent, s, Add(d)) == s';
  }

  lemma AddedIsAttached(maxRecent: nat, s: Store, s': Store, added: seq<Row>, row: Row, t: Tally)
    requires |added| == t.saved + t.unsaved && Attached(maxRecent, s, added, t)
    requires s'.db == s.db && row.sequence == |added| + 1 == s'.context.lastSequence
    requires |s'.context.recent| == Min(maxRecent, |s.context.recent| + 1)
    ensures Attached(maxRecent, s', added + [row], t.(unsaved := t.unsaved + 1, dirty := true))
  {
    assert (added + [row])[..t.saved] == added[..t.saved];
  }

  lemma AddedIsDetached(maxRecent: nat, s: Store, s': Store, added: seq<Row>, row: Row, t: Tally)
    requires |added| == t.saved + t.unsaved && Detached(s, added, t) && t.unsaved < maxRecent
    requires s'.db == s.db && row.sequence == t.unsaved + 1 == s'.context.lastSequence
    requires |s'.context.recent| == Min(maxRecent, |s.context.recent| + 1)
    ensures Detached(s', added + [row], t.(unsaved := t.unsaved + 1, dirty := true))
  {
    assert (added + [row])[..t.saved] == added[..t.saved];
    assert (added + [row])[t.saved..] == added[t.saved..] + [row];
  }

  /** An addition keeps the end of recent + [message], all of it or the last `maxRecent`. */
  lemma AddTrims(maxRecent: nat, c: Context, d: Draft)
    requires maxRecent >= 1
    ensures var recent, kept := c.recent + [Message(c.lastSequence + 1, d)], AfterAdd(maxRecent, c, d).recent;
            kept == if |recent| <= maxRecent then recent else recent[|recent| - maxRecent..]
  {
  }

  ghost predicate Numbers(recent: seq<Message>, x: int) {
    exists i :: 0 <= i < |recent| && recent[i].sequence == x
  }

  lemma NumbersSnoc(recent: seq<Message>, m: Message, x: int)
    ensures Numbers(recent + [m], x) <==> Numbers(recent, x) || m.sequence == x
  {
    var all := recent + [m];
    assert all[|recent|] == m && forall i :: 0 <= i < |recent| ==> all[i] == recent[i];
  }

  lemma {:induction false} PersistedRows(db: Database, recent: seq<Message>)
    requires forall i, j :: 0 <= i < j < |recent| ==> recent[i].sequence != recent[j].sequence
    ensures var after := Persisted(db, recent);
            && (forall x :: x in after <==> x in db || Numbers(recent, x))
            && (forall x :: x in db ==> after[x] == db[x])
            && (forall i :: 0 <= i < |recent| && recent[i].sequence !in db ==>
                  after[recent[i].sequence] == RowOf(recent[i]))
  {
    if recent != [] {
      var p, m := recent[..|recent| - 1], recent[|recent| - 1];
      assert recent == p + [m];
      PersistedRows(db, p);
      forall x
        ensures x in Persisted(db, recent) <==> x in db || Numbers(recent, x)
      {
        NumbersSnoc(p, m, x);
      }
    }
  }

  lemma FlushKeepsConsistent(maxRecent: nat, s: Store, added: seq<Row>, t: Tally, sessionExists: bool)
    requires Consistent(maxRecent, s, added, t)
    ensures Consistent(maxRecent, Apply(maxRecent, s, Flush(sessionExists)), added, Advance(t, Flush(sessionExists)))
  {
    if sessionExists && t.dirty {
      if t.detached {
        PersistDetached(s.db, s.context.recent, added, t);
      } else {
        PersistAll(s.db, s.context.recent, added, t.unsaved);
        assert added[..|added|] == added;
      }
    }
  }

  lemma PersistDetached(db: Database, recent: seq<Message>, added: seq<Row>, t: Tally)
    requires |added| == t.saved + t.unsaved && |recent| == t.unsaved && IsEnd(recent, added)
    requires Numbered(added[t.saved..]) && Rooted(db, added[..t.saved], Max(t.saved, t.unsaved))
    ensures Rooted(Persisted(db, recent), added[..t.saved], Max(t.saved, t.unsaved))
  {
    forall i | 0 <= i < |recent|
      ensures recent[i].sequence == i + 1
    {
      assert RowOf(recent[i]) == added[t.saved + i] == added[t.saved..][i];
    }
    PersistedRows(db, recent);
    var after := Persisted(db, recent);
    forall x
      ensures Numbers(recent, x) <==> 1 <= x <= t.unsaved
    {
      assert 1 <= x <= t.unsaved ==> recent[x - 1].sequence == x;
    }
    var m: nat :| Upto(db, m) && m <= Max(t.saved, t.unsaved);
    assert Upto(after, Max(m, t.unsaved));
    forall x | x in after
      ensures after[x].sequence == x
    {
      if x !in db {
        assert after[recent[x - 1].sequence] == RowOf(recent[x - 1]);
      }
    }
  }

  lemma PersistAll(db: Database, recent: seq<Message>, added: seq<Row>, unsaved: nat)
    requires unsaved <= |recent| && IsEnd(recent, added)
    requires forall i :: 0 <= i < |added| ==> added[i].sequence == i + 1
    requires Holds(db, added[..|added| - unsaved])
    ensures Holds(Persisted(db, recent), added)
  {
    var n, k := |added|, |recent|;
    forall i | 0 <= i < k
      ensures recent[i].sequence == n - k + i + 1
    {
      assert RowOf(recent[i]).sequence == added[n - k + i].sequence;
    }
    PersistedRows(db, recent);
    var after := Persisted(db, recent);
    forall x
      ensures x in after <==> 1 <= x <= n
      ensures x in after ==> after[x] == added[x - 1]
    {
      assert Numbers(recent, x) <==> n - k < x <= n by {
        assert n - k < x <= n ==> recent[x - 1 - (n - k)].sequence == x;
      }
    }
  }

  lemma LastOfRows(db: Database, rows: seq<Row>)
    requires Holds(db, rows) && rows != []
    ensures db != map[] && db.Keys != {} && Largest(db.Keys) == |rows| && db[|rows|] == rows[|rows| - 1]
    ensures Holds(db - {|rows|}, rows[..|rows| - 1])
  {
    assert |rows| in db;
  }

  lemma LatestUnfold(db: Database, limit: nat, last: int)
    requires limit > 0 && db != map[] && db.Keys != {} && Largest(db.Keys) == last
    ensures Latest(db, limit) == Latest(db - {last}, limit - 1) + [db[last]]
  {
  }

  lemma NoRows(db: Database)
    requires Holds(db, [])
    ensures db == map[]
  {
    assert forall x :: x !in db.Keys;
    assert db.Keys == {};
  }

  lemma {:induction false} LatestOfRows(db: Database, rows: seq<Row>, limit: nat)
    requires Holds(db, rows)
    ensures Latest(db, limit) == LastN(rows, limit)
    decreases limit
  {
    if rows == [] {
      NoRows(db);
    } else if limit > 0 {
      LastOfRows(db, rows);
      LatestUnfold(db, limit, |rows|);
      LatestOfRows(db - {|rows|}, rows[..|rows| - 1], limit - 1);
      var before := Latest(db - {|rows|}, limit - 1);
      assert Latest(db, limit) == before + [rows[|rows| - 1]];
      LastNSnoc(rows, limit, before);
    }
  }

  lemma LastNSnoc(rows: seq<Row>, limit: nat, before: seq<Row>)
    requires limit > 0 && rows != [] && before == LastN(rows[..|rows| - 1], limit - 1)
    ensures before + [rows[|rows| - 1]] == LastN(rows, limit)
  {
  }

  lemma {:induction false} HighestOfNumbered(rows: seq<Row>, first: int)
    requires first >= 0 && forall i :: 0 <= i < |rows| ==> rows[i].sequence == first + i + 1
    ensures rows != [] ==> HighestSequence(rows) == first + |rows|
  {
    if |rows| > 1 {
      HighestOfNumbered(rows[..|rows| - 1], first);
    }
  }

  /** Loading a database that holds all of `rows` yields the last min(2 * maxRecent, n) of
      them and continues their numbering. */
  lemma LoadedIsTail(maxRecent: nat, db: Database, rows: seq<Row>)
    requires maxRecent >= 1 && Holds(db, rows) && forall i :: 0 <= i < |rows| ==> rows[i].sequence == i + 1
    ensures var loaded := Loaded(db, true, maxRecent);
            if rows == [] then loaded == None
            else && loaded.Some? && loaded.value.windows == [] && !loaded.value.dirty
                 && Rows(loaded.value.recent) == LastN(rows, 2 * maxRecent)
                 && loaded.value.lastSequence == loaded.value.totalMessages == |rows|
  {
    LatestOfRows(db, rows, 2 * maxRecent);
    var tail := LastN(rows, 2 * maxRecent);
    if rows != [] {
      HighestOfNumbered(tail, |rows| - |tail|);
      assert Rows(Messages(tail)) == tail;
    }
  }

  /** Reloading with nothing unsaved: the tail of the saved messages if the session is found,
      and an empty context otherwise. */
  lemma ReloadKeepsConsistent(maxRecent: nat, s: Store, added: seq<Row>, t: Tally, sessionExists: bool)
    requires maxRecent >= 1 && Consistent(maxRecent, s, added, t) && t.unsaved == 0
    ensures Consistent(maxRecent, Apply(maxRecent, s, Reload(sessionExists)), added, Advance(t, Reload(sessionExists)))
  {
    assert added[..t.saved] == added;
    SavedIsHeld(maxRecent, s, added, t);
    assert Upto(s.db, t.saved);
    if sessionExists {
      LoadedIsTail(maxRecent, s.db, added);
      TailIsEnd(Apply(maxRecent, s, Reload(true)).context.recent, added, 2 * maxRecent);
    }
  }

  lemma SavedIsHeld(maxRecent: nat, s: Store, added: seq<Row>, t: Tally)
    requires Consistent(maxRecent, s, added, t) && t.unsaved == 0
    ensures Holds(s.db, added) && Numbered(added)
  {
    assert added[..t.saved] == added;
    if t.detached {
      forall x
        ensures x in s.db <==> 1 <= x <= |added|
        ensures x in s.db ==> s.db[x] == added[x - 1]
      {
        assert 1 <= x <= |added| ==> x in s.db && s.db[x] == added[x - 1];
      }
    }
  }

  lemma TailIsEnd(recent: seq<Message>, added: seq<Row>, n: nat)
    requires Rows(recent) == LastN(added, n)
    ensures IsEnd(recent, added) && |recent| == Min(n, |added|)
  {
    forall i | 0 <= i < |recent|
      ensures RowOf(recent[i]) == added[|added| - |recent| + i]
    {
      assert Rows(recent)[i] == LastN(added, n)[i];
    }
  }

  lemma StepKeepsConsistent(maxRecent: nat, s: Store, added: seq<Row>, t: Tally, op: Op)
    requires maxRecent >= 1 && Consistent(maxRecent, s, added, t) && Allowed(maxRecent, t, op)
    ensures Consistent(maxRecent, Apply(maxRecent, s, op), Appended(added, s.context, op), Advance(t, op))
  {
    match op
    case Add(d) => AddKeepsConsistent(maxRecent, s, added, t, d);
    case Summarize =>
    case Flush(sessionExists) => FlushKeepsConsistent(maxRecent, s, added, t, sessionExists);
    case Reload(sessionExists) => ReloadKeepsConsistent(maxRecent, s, added, t, sessionExists);
  }

  lemma NextIsConsistent(maxRecent: nat, p: seq<Op>, op: Op)
    requires maxRecent >= 1 && Consistent(maxRecent, Run(maxRecent, p), Added(maxRecent, p), TallyOf(p))
    requires Allowed(maxRecent, TallyOf(p), op)
    ensures Consistent(maxRecent, Run(maxRecent, p + [op]), Added(maxRecent, p + [op]), TallyOf(p + [op]))
  {
    RunSnoc(maxRecent, p, op);
    StepKeepsConsistent(maxRecent, Run(maxRecent, p), Added(maxRecent, p), TallyOf(p), op);
  }

  lemma {:induction false} DisciplinedIsConsistent(maxRecent: nat, ops: seq<Op>)
    requires maxRecent >= 1 && Disciplined(maxRecent, ops)
    ensures Consistent(maxRecent, Run(maxRecent, ops), Added(maxRecent, ops), TallyOf(ops))
  {
    if ops != [] {
      var p, op := ops[..|ops| - 1], ops[|ops| - 1];
      assert ops == p + [op];
      DisciplinedIsConsistent(maxRecent, p);
      NextIsConsistent(maxRecent, p, op);
    }
  }

  lemma ConsistentKeepsAll(maxRecent: nat, s: Store, added: seq<Row>, t: Tally)
    requires Consistent(maxRecent, s, added, t)
    ensures AllKept(s, added)
  {
    var n, k := |added|, |s.context.recent|;
    forall i | 0 <= i < n
      ensures Kept(s, added[i])
    {
      if i >= n - k {
        assert Rows(s.context.recent)[i - (n - k)] == RowOf(s.context.recent[i - (n - k)]) == added[i];
      } else {
        assert added[..t.saved][i] == added[i] && added[..t.saved][i].sequence == i + 1;
      }
    }
  }

  /** One addition too many pushes a message out of the recent part that no row holds. */
  lemma OverflowLoses(maxRecent: nat, s: Store, added: seq<Row>, t: Tally, d: Draft)
    requires maxRecent >= 1 && Consistent(maxRecent, s, added, t) && t.unsaved == maxRecent
    requires t.detached ==> added[t.saved].content != added[0].content
    ensures !AllKept(Apply(maxRecent, s, Add(d)), Appended(added, s.context, Add(d)))
  {
    var row, s' := RowOf(Message(s.context.lastSequence + 1, d)), Apply(maxRecent, s, Add(d));
    var all, n, recent := added + [row], |added|, s'.context.recent;
    AddKeepsRecent(maxRecent, s.context, added, d);
    var lost := all[t.saved];
    assert lost.sequence == if t.detached then added[t.saved..][0].sequence else t.saved + 1;
    assert t.detached ==> s'.db[1] == added[..t.saved][0];
    forall i | 0 <= i < |recent|
      ensures Rows(recent)[i] != lost
    {
      assert RowOf(recent[i]) == all[t.saved + 1 + i];
      assert t.detached && i + 1 < t.unsaved ==> added[t.saved..][i + 1].sequence == i + 2;
      assert all[t.saved + 1 + i].sequence == lost.sequence + i + 1;
    }
    assert !Kept(s', lost);
  }

  lemma RowsOf(db: Database, last: nat) returns (rows: seq<Row>)
    requires Rooted(db, [], last)
    ensures Holds(db, rows) && Numbered(rows) && |rows| <= last
  {
    var m: nat :| Upto(db, m) && m <= last;
    rows := seq(m, i requires 0 <= i < m => db[i + 1]);
  }

  /** What a load shows is what the rows hold. */
  lemma LoadedIsStored(maxRecent: nat, db: Database, last: nat, sessionExists: bool)
    requires maxRecent >= 1 && Rooted(db, [], last)
    ensures var loaded := Loaded(db, sessionExists, maxRecent);
            loaded.Some? ==>
              forall i :: 0 <= i < |loaded.value.recent| ==>
                var r := Rows(loaded.value.recent)[i]; r.sequence in db && db[r.sequence] == r
  {
    if sessionExists {
      var rows := RowsOf(db, last);
      LoadedIsTail(maxRecent, db, rows);
    }
  }

  lemma ConsistentIsRooted(maxRecent: nat, s: Store, added: seq<Row>, t: Tally)
    requires Consistent(maxRecent, s, added, t)
    ensures Rooted(s.db, [], |added|)
  {
    assert !t.detached ==> Upto(s.db, t.saved);
  }

  /** A reload forgets what was not saved. */
  lemma EarlyReloadLoses(maxRecent: nat, s: Store, added: seq<Row>, t: Tally, sessionExists: bool)
    requires maxRecent >= 1 && Consistent(maxRecent, s, added, t) && t.unsaved > 0
    requires t.detached ==> added[t.saved].content != added[0].content
    ensures !AllKept(Apply(maxRecent, s, Reload(sessionExists)), added)
  {
    var s', lost := Apply(maxRecent, s, Reload(sessionExists)), added[t.saved];
    ConsistentIsRooted(maxRecent, s, added, t);
    LoadedIsStored(maxRecent, s.db, |added|, sessionExists);
    assert lost.sequence == if t.detached then added[t.saved..][0].sequence else t.saved + 1;
    assert t.detached ==> s.db[1] == added[..t.saved][0];
    assert !(lost.sequence in s.db && s.db[lost.sequence] == lost);
    assert !Kept(s', lost);
  }

  lemma TallySnoc(maxRecent: nat, p: seq<Op>, op: Op)
    ensures TallyOf(p + [op]) == Advance(TallyOf(p), op)
    ensures Disciplined(maxRecent, p + [op]) <==> Disciplined(maxRecent, p) && Allowed(maxRecent, TallyOf(p), op)
  {
    assert (p + [op])[..|p|] == p;
  }

  lemma RunSnoc(maxRecent: nat, p: seq<Op>, op: Op)
    ensures Run(maxRecent, p + [op]) == Apply(maxRecent, Run(maxRecent, p), op)
    ensures Added(maxRecent, p + [op]) == Appended(Added(maxRecent, p), Run(maxRecent, p).context, op)
    ensures TallyOf(p + [op]) == Advance(TallyOf(p), op)
    ensures Disciplined(maxRecent, p + [op]) <==> Disciplined(maxRecent, p) && Allowed(maxRecent, TallyOf(p), op)
    ensures NeverLoses(maxRecent, p + [op]) <==>
            NeverLoses(maxRecent, p) && AllKept(Run(maxRecent, p + [op]), Added(maxRecent, p + [op]))
  {
    assert (p + [op])[..|p|] == p;
  }

  lemma DisciplinedKeepsAll(maxRecent: nat, ops: seq<Op>)
    requires maxRecent >= 1 && Disciplined(maxRecent, ops)
    ensures AllKept(Run(maxRecent, ops), Added(maxRecent, ops))
  {
    DisciplinedIsConsistent(maxRecent, ops);
    ConsistentKeepsAll(maxRecent, Run(maxRecent, ops), Added(maxRecent, ops), TallyOf(ops));
  }

  lemma IndisciplineLoses(maxRecent: nat, s: Store, added: seq<Row>, t: Tally, op: Op)
    requires maxRecent >= 1 && Consistent(maxRecent, s, added, t) && !Allowed(maxRecent, t, op)
    requires t.detached && t.unsaved > 0 ==> added[t.saved].content != added[0].content
    ensures !AllKept(Apply(maxRecent, s, op), Appended(added, s.context, op))
  {
    match op
    case Add(d) => OverflowLoses(maxRecent, s, added, t, d);
    case Reload(sessionExists) => EarlyReloadLoses(maxRecent, s, added, t, sessionExists);
  }

  // ---------------------------------------------------------------------------
  // No loss, exactly

  /** The texts of the additions, in order. */
  function Texts(ops: seq<Op>): seq<string> {
    if ops == [] then []
    else if ops[|ops| - 1].Add? then Texts(ops[..|ops| - 1]) + [ops[|ops| - 1].draft.content]
    else Texts(ops[..|ops| - 1])
  }

  ghost predicate Distinct(texts: seq<string>) {
    forall i, j :: 0 <= i < j < |texts| ==> texts[i] != texts[j]
  }

  lemma {:induction false} AddedTexts(maxRecent: nat, ops: seq<Op>)
    ensures |Added(maxRecent, ops)| == |Texts(ops)|
    ensures forall i :: 0 <= i < |Texts(ops)| ==> Added(maxRecent, ops)[i].content == Texts(ops)[i]
  {
    if ops != [] {
      AddedTexts(maxRecent, ops[..|ops| - 1]);
    }
  }

  lemma UndisciplinedLoses(maxRecent: nat, p: seq<Op>, op: Op)
    requires maxRecent >= 1 && Disciplined(maxRecent, p) && !Disciplined(maxRecent, p + [op])
    requires Distinct(Texts(p)) || !TallyOf(p).detached
    ensures !AllKept(Run(maxRecent, p + [op]), Added(maxRecent, p + [op]))
  {
    var s, added, t := Run(maxRecent, p), Added(maxRecent, p), TallyOf(p);
    DisciplinedIsConsistent(maxRecent, p);
    RunSnoc(maxRecent, p, op);
    AddedTexts(maxRecent, p);
    if t.detached && t.unsaved > 0 {
      assert Texts(p)[0] != Texts(p)[t.saved];
    }
    IndisciplineLoses(maxRecent, s, added, t, op);
  }

  /** On one run: if its texts differ from each other, or the session was never missing at a
      reload while rows were there, nothing is lost exactly when the run is disciplined. */
  lemma {:induction false} NoLossOnRun(maxRecent: nat, ops: seq<Op>)
    requires maxRecent >= 1
    requires Distinct(Texts(ops)) || NeverDetached(ops)
    ensures NeverLoses(maxRecent, ops) <==> Disciplined(maxRecent, ops)
  {
    if ops != [] {
      var p, op := ops[..|ops| - 1], ops[|ops| - 1];
      assert ops == p + [op];
      assert Distinct(Texts(ops)) ==> Distinct(Texts(p)) by {
        assert Texts(p) == Texts(ops)[..|Texts(p)|];
      }
      NoLossOnRun(maxRecent, p);
      RunSnoc(maxRecent, p, op);
      if Disciplined(maxRecent, ops) {
        DisciplinedKeepsAll(maxRecent, ops);
      } else if Disciplined(maxRecent, p) {
        UndisciplinedLoses(maxRecent, p, op);
      }
    }
  }

  lemma {:induction false} DisciplinedLosesNothing(maxRecent: nat, ops: seq<Op>)
    requires maxRecent >= 1 && Disciplined(maxRecent, ops)
    ensures NeverLoses(maxRecent, ops)
  {
    DisciplinedKeepsAll(maxRecent, ops);
    if ops != [] {
      DisciplinedLosesNothing(maxRecent, ops[..|ops| - 1]);
    }
  }

  /** The same steps at the same places, whatever the messages say. */
  ghost predicate SameSchedule(ops: seq<Op>, other: seq<Op>) {
    |ops| == |other| && forall i :: 0 <= i < |ops| ==> ops[i] == other[i] || (ops[i].Add? && other[i].Add?)
  }

  lemma {:induction false} ScheduleDecides(maxRecent: nat, ops: seq<Op>, other: seq<Op>)
    requires SameSchedule(ops, other)
    ensures TallyOf(ops) == TallyOf(other) && (Disciplined(maxRecent, ops) <==> Disciplined(maxRecent, other))
  {
    if ops != [] {
      ScheduleDecides(maxRecent, ops[..|ops| - 1], other[..|other| - 1]);
    }
  }

  /** The same schedule with texts that all differ: the n-th step's text has length n. */
  function Relabelled(ops: seq<Op>): seq<Op> {
    if ops == [] then []
    else
      var n, op := |ops| - 1, ops[|ops| - 1];
      Relabelled(ops[..n]) + [if op.Add? then Add(Draft("user", seq(n, _ => 'x'), None, None, None)) else op]
  }

  lemma {:induction false} RelabelledIsDistinct(ops: seq<Op>)
    ensures SameSchedule(ops, Relabelled(ops))
    ensures forall i :: 0 <= i < |Texts(Relabelled(ops))| ==> |Texts(Relabelled(ops))[i]| < |ops|
    ensures Distinct(Texts(Relabelled(ops)))
  {
    if ops != [] {
      var p := ops[..|ops| - 1];
      RelabelledIsDistinct(p);
      assert Relabelled(ops)[..|p|] == Relabelled(p);
    }
  }

  /** A schedule of additions, summaries, flushes and reloads loses no message, whatever the
      messages say, exactly when no more than `maxRecent` are added after the last flush that
      saved and no context is reloaded with additions unsaved. */
  lemma NoLossExactly(maxRecent: nat, ops: seq<Op>)
    requires maxRecent >= 1
    ensures (forall other :: SameSchedule(ops, other) ==> NeverLoses(maxRecent, other)) <==> Disciplined(maxRecent, ops)
  {
    if Disciplined(maxRecent, ops) {
      forall other | SameSchedule(ops, other)
        ensures NeverLoses(maxRecent, other)
      {
        ScheduleDecides(maxRecent, ops, other);
        DisciplinedLosesNothing(maxRecent, other);
      }
    } else {
      RelabelledIsDistinct(ops);
      ScheduleDecides(maxRecent, ops, Relabelled(ops));
      NoLossOnRun(maxRecent, Relabelled(ops));
    }
  }

  // ---------------------------------------------------------------------------
  // A missing session row

  /** A flush without the row saves nothing and still clears the flag: with room for one recent
      message the next addition loses the first, although a flush came in between. */
  lemma FlushWithoutRowLoses(d: Draft, e: Draft)
    ensures var s := Apply(1, Apply(1, Apply(1, Store(FRESH, map[]), Add(d)), Flush(false)), Add(e));
            s.db == map[] && s.context.recent == [Message(2, e)] && !Kept(s, RowOf(Message(1, d)))
    ensures !Disciplined(1, [Add(d)] + [Flush(false)] + [Add(e)])
  {
    FlushWithoutRowState(d, e);
    FlushWithoutRowIsCounted(d, e);
  }

  lemma FlushWithoutRowIsCounted(d: Draft, e: Draft)
    ensures !Disciplined(1, [Add(d)] + [Flush(false)] + [Add(e)])
  {
    assert [] + [Add(d)] == [Add(d)];
    TallySnoc(1, [], Add(d));
    TallySnoc(1, [Add(d)], Flush(false));
    TallySnoc(1, [Add(d)] + [Flush(false)], Add(e));
  }

  lemma FlushWithoutRowState(d: Draft, e: Draft)
    ensures var s := Apply(1, Apply(1, Apply(1, Store(FRESH, map[]), Add(d)), Flush(false)), Add(e));
            s.db == map[] && s.context.recent == [Message(2, e)] && !Kept(s, RowOf(Message(1, d)))
  {
    var s1 := Apply(1, Store(FRESH, map[]), Add(d));
    assert s1.context.recent == [Message(1, d)] && s1.context.lastSequence == 1;
    var s2 := Apply(1, s1, Flush(false));
    var s3 := Apply(1, s2, Add(e));
    assert [Message(1, d), Message(2, e)][1..] == [Message(2, e)];
    assert s3.context.recent == [Message(2, e)];
  }

  /** Once the flag is cleared, a later flush that does find the row skips the context. */
  lemma ClearedFlagIsSkipped(maxRecent: nat, s: Store)
    ensures Apply(maxRecent, Apply(maxRecent, s, Flush(false)), Flush(true)).db == s.db
  {
  }

  /** After a reload that misses the session while its rows are there, numbering restarts, and
      no flush stores a message whose number is taken. */
  lemma RestartedNumberIsSkipped(maxRecent: nat, s: Store, d: Draft)
    requires maxRecent >= 1 && 1 in s.db
    ensures var t := Apply(maxRecent, Apply(maxRecent, Apply(maxRecent, s, Reload(false)), Add(d)), Flush(true));
            t.db == s.db && t.context.recent == [Message(1, d)]
  {
    FirstAdded(maxRecent, d);
    PersistedOne(s.db, Message(1, d));
  }

  lemma FirstAdded(maxRecent: nat, d: Draft)
    requires maxRecent >= 1
    ensures AfterAdd(maxRecent, FRESH, d).recent == [Message(1, d)] && AfterAdd(maxRecent, FRESH, d).dirty
  {
    assert FRESH.recent + [Message(1, d)] == [Message(1, d)];
  }

  lemma PersistedOne(db: Database, m: Message)
    requires m.sequence in db
    ensures Persisted(db, [m]) == db
  {
    assert [m][..0] == [];
  }

  // ---------------------------------------------------------------------------
  // Saving and loading back

  /** Loading shows the last min(2 * maxRecent, n) messages ever added, as stored, under the
      last sequence they were added with. */
  ghost predicate RoundTrip(maxRecent: nat, before: Context, added: seq<Row>, after: Context) {
    Rows(after.recent) == LastN(added, 2 * maxRecent) && after.lastSequence == before.lastSequence
  }

  /** After a disciplined run, saving and loading back is a round trip exactly when everything is
      saved already or the flush writes, and numbering had not restarted. */
  lemma PersistThenLoad(maxRecent: nat, ops: seq<Op>)
    requires maxRecent >= 1 && Disciplined(maxRecent, ops)
    ensures var t := TallyOf(ops);
            RoundTrip(maxRecent, Run(maxRecent, ops).context, Added(maxRecent, ops),
                      Run(maxRecent, ops + [Flush(true)] + [Reload(true)]).context) <==>
            !t.detached && (t.unsaved == 0 || t.dirty)
  {
    DisciplinedIsConsistent(maxRecent, ops);
    RunSnoc(maxRecent, ops, Flush(true));
    RunSnoc(maxRecent, ops + [Flush(true)], Reload(true));
    SaveThenLoad(maxRecent, Run(maxRecent, ops), Added(maxRecent, ops), TallyOf(ops));
  }

  lemma SaveThenLoad(maxRecent: nat, s: Store, added: seq<Row>, t: Tally)
    requires maxRecent >= 1 && Consistent(maxRecent, s, added, t)
    ensures var after := Apply(maxRecent, Apply(maxRecent, s, Flush(true)), Reload(true)).context;
            RoundTrip(maxRecent, s.context, added, after) <==> !t.detached && (t.unsaved == 0 || t.dirty)
  {
    var flushed := Apply(maxRecent, s, Flush(true));
    FlushKeepsConsistent(maxRecent, s, added, t, true);
    if t.detached {
      DetachedIsNoTrip(maxRecent, s, flushed.db, added, t);
    } else {
      assert added[..|added|] == added;
      if t.dirty || t.unsaved == 0 {
        HeldIsTrip(maxRecent, s.context, flushed, added);
      } else {
        ShorterIsNoTrip(maxRecent, s.context, flushed, added, added[..t.saved]);
      }
    }
  }

  lemma HeldIsTrip(maxRecent: nat, before: Context, s: Store, added: seq<Row>)
    requires maxRecent >= 1 && Holds(s.db, added) && Numbered(added) && before.lastSequence == |added|
    ensures RoundTrip(maxRecent, before, added, Apply(maxRecent, s, Reload(true)).context)
  {
    LoadedIsTail(maxRecent, s.db, added);
  }

  lemma ShorterIsNoTrip(maxRecent: nat, before: Context, s: Store, added: seq<Row>, stored: seq<Row>)
    requires maxRecent >= 1 && Holds(s.db, stored) && Numbered(stored) && |stored| < |added| == before.lastSequence
    ensures !RoundTrip(maxRecent, before, added, Apply(maxRecent, s, Reload(true)).context)
  {
    if stored == [] {
      LoadedIsTail(maxRecent, s.db, stored);
    } else {
      LoadedLengths(maxRecent, s.db, stored);
    }
  }

  lemma DetachedIsNoTrip(maxRecent: nat, s: Store, db: Database, added: seq<Row>, t: Tally)
    requires maxRecent >= 1 && |added| == t.saved + t.unsaved && t.unsaved <= maxRecent
    requires Detached(s, added, t) && Rooted(db, added[..t.saved], Max(t.saved, t.unsaved))
    ensures !RoundTrip(maxRecent, s.context, added, Apply(maxRecent, Store(s.context, db), Reload(true)).context)
  {
    assert Rooted(db, [], Max(t.saved, t.unsaved)) && t.saved in db;
    var rows := RowsOf(db, Max(t.saved, t.unsaved));
    FewRowsIsNoTrip(maxRecent, s.context, db, added, rows, t.saved);
  }

  lemma FewRowsIsNoTrip(maxRecent: nat, before: Context, db: Database, added: seq<Row>, rows: seq<Row>, saved: nat)
    requires maxRecent >= 1 && Holds(db, rows) && Numbered(rows)
    requires 1 <= saved <= |rows| && |added| == saved + before.lastSequence
    requires |rows| <= Max(saved, before.lastSequence) && before.lastSequence <= maxRecent
    ensures !RoundTrip(maxRecent, before, added, Apply(maxRecent, Store(before, db), Reload(true)).context)
  {
    LoadedLengths(maxRecent, db, rows);
    TripLengths(maxRecent, before, added, Apply(maxRecent, Store(before, db), Reload(true)).context);
  }

  lemma LoadedLengths(maxRecent: nat, db: Database, rows: seq<Row>)
    requires maxRecent >= 1 && Holds(db, rows) && Numbered(rows) && rows != []
    ensures var loaded := Loaded(db, true, maxRecent);
            && loaded.Some? && loaded.value.lastSequence == |rows|
            && |loaded.value.recent| == Min(2 * maxRecent, |rows|)
  {
    LoadedIsTail(maxRecent, db, rows);
    TailIsEnd(Loaded(db, true, maxRecent).value.recent, rows, 2 * maxRecent);
  }

  lemma TripLengths(maxRecent: nat, before: Context, added: seq<Row>, after: Context)
    ensures RoundTrip(maxRecent, before, added, after) ==>
              |after.recent| == Min(2 * maxRecent, |added|) && after.lastSequence == before.lastSequence
  {
    if RoundTrip(maxRecent, before, added, after) {
      TailIsEnd(after.recent, added, 2 * maxRecent);
    }
  }

  /** And then the next message is numbered after all the others. */
  lemma NumberingContinues(maxRecent: nat, ops: seq<Op>, next: Draft)
    requires maxRecent >= 1 && Disciplined(maxRecent, ops)
    requires !TallyOf(ops).detached && (TallyOf(ops).unsaved == 0 || TallyOf(ops).dirty)
    ensures Added(maxRecent, ops + [Flush(true)] + [Reload(true)] + [Add(next)]) ==
            Added(maxRecent, ops) + [RowOf(Message(|Added(maxRecent, ops)| + 1, next))]
    ensures Numbered(Added(maxRecent, ops))
  {
    LoadedContinues(maxRecent, ops);
    var loaded := ops + [Flush(true)] + [Reload(true)];
    RunSnoc(maxRecent, loaded, Add(next));
    AppendedRow(Added(maxRecent, ops), Run(maxRecent, loaded).context, next);
  }

  lemma LoadedContinues(maxRecent: nat, ops: seq<Op>)
    requires maxRecent >= 1 && Disciplined(maxRecent, ops)
    requires !TallyOf(ops).detached && (TallyOf(ops).unsaved == 0 || TallyOf(ops).dirty)
    ensures Numbered(Added(maxRecent, ops))
    ensures var loaded := ops + [Flush(true)] + [Reload(true)];
            && Added(maxRecent, loaded) == Added(maxRecent, ops)
            && Run(maxRecent, loaded).context.lastSequence == |Added(maxRecent, ops)|
  {
    RunSnoc(maxRecent, ops, Flush(true));
    RunSnoc(maxRecent, ops + [Flush(true)], Reload(true));
    AddedIsNumbered(maxRecent, ops);
    PersistThenLoad(maxRecent, ops);
  }

  lemma AddedIsNumbered(maxRecent: nat, ops: seq<Op>)
    requires maxRecent >= 1 && Disciplined(maxRecent, ops) && !TallyOf(ops).detached
    ensures Numbered(Added(maxRecent, ops)) && Run(maxRecent, ops).context.lastSequence == |Added(maxRecent, ops)|
  {
    DisciplinedIsConsistent(maxRecent, ops);
  }

  lemma AppendedRow(added: seq<Row>, c: Context, d: Draft)
    requires c.lastSequence == |added|
    ensures Appended(added, c, Add(d)) == added + [RowOf(Message(|added| + 1, d))]
  {
  }

  // ---------------------------------------------------------------------------
  // What is kept of a message

  /** The messages added in a run, in order. */
  function Drafts(ops: seq<Op>): seq<Draft> {
    if ops == [] then []
    else if ops[|ops| - 1].Add? then Drafts(ops[..|ops| - 1]) + [ops[|ops| - 1].draft]
    else Drafts(ops[..|ops| - 1])
  }

  /** What is to be kept of each message: who said what, and for which task. */
  lemma {:induction false} AddedAreDrafts(maxRecent: nat, ops: seq<Op>)
    ensures |Added(maxRecent, ops)| == |Drafts(ops)|
    ensures forall i :: 0 <= i < |Drafts(ops)| ==>
              var r, d := Added(maxRecent, ops)[i], Drafts(ops)[i];
              r.role == d.role && r.content == d.content && r.taskId == d.taskId
  {
    if ops != [] {
      AddedAreDrafts(maxRecent, ops[..|ops| - 1]);
    }
  }

  ghost predicate Shows(m: Message, d: Draft, sequence: int) {
    && m.sequence == sequence
    && m.draft.role == d.role && m.draft.content == d.content && m.draft.taskId == d.taskId
    && m.draft.toolCalls == None && m.draft.toolResults == None
  }

  /** A loaded message is its row, and nothing else of it is known. */
  ghost predicate OnlyItsRow(m: Message) {
    var r := RowOf(m);
    Shows(m, Draft(r.role, r.content, r.taskId, None, None), r.sequence)
  }

  lemma LoadedAreMessages(maxRecent: nat, db: Database, i: nat)
    requires Loaded(db, true, maxRecent).Some? && i < |Loaded(db, true, maxRecent).value.recent|
    ensures OnlyItsRow(Loaded(db, true, maxRecent).value.recent[i])
  {
  }

  lemma ReloadedIsOnlyItsRow(maxRecent: nat, s: Store, i: nat)
    requires i < |Apply(maxRecent, s, Reload(true)).context.recent|
    ensures OnlyItsRow(Apply(maxRecent, s, Reload(true)).context.recent[i])
  {
    if Loaded(s.db, true, maxRecent).Some? {
      LoadedAreMessages(maxRecent, s.db, i);
    }
  }

  /** After a disciplined run whose flush writes, saving and loading back shows the last messages
      ever added with their role, content, task and number, and without their tool calls. */
  lemma LoadShowsDrafts(maxRecent: nat, ops: seq<Op>, i: nat)
    requires maxRecent >= 1 && Disciplined(maxRecent, ops)
    requires !TallyOf(ops).detached && (TallyOf(ops).unsaved == 0 || TallyOf(ops).dirty)
    requires i < |Run(maxRecent, ops + [Flush(true)] + [Reload(true)]).context.recent|
    ensures var drafts, recent := Drafts(ops), Run(maxRecent, ops + [Flush(true)] + [Reload(true)]).context.recent;
            && |recent| == Min(2 * maxRecent, |drafts|)
            && Shows(recent[i], drafts[|drafts| - |recent| + i], |drafts| - |recent| + i + 1)
  {
    var added, recent := Added(maxRecent, ops), Run(maxRecent, ops + [Flush(true)] + [Reload(true)]).context.recent;
    assert Rows(recent) == LastN(added, 2 * maxRecent) by {
      PersistThenLoad(maxRecent, ops);
    }
    assert Numbered(added) by {
      AddedIsNumbered(maxRecent, ops);
    }
    assert OnlyItsRow(recent[i]) by {
      RunSnoc(maxRecent, ops + [Flush(true)], Reload(true));
      ReloadedIsOnlyItsRow(maxRecent, Run(maxRecent, ops + [Flush(true)]), i);
    }
    AddedAreDrafts(maxRecent, ops);
    TailShowsDrafts(recent, added, Drafts(ops), 2 * maxRecent, i);
  }

  lemma TailShowsDrafts(recent: seq<Message>, added: seq<Row>, drafts: seq<Draft>, limit: nat, i: nat)
    requires Rows(recent) == LastN(added, limit) && Numbered(added) && i < |recent| && |added| == |drafts|
    requires forall k :: 0 <= k < |drafts| ==>
               var r, d := added[k], drafts[k];
               r.role == d.role && r.content == d.content && r.taskId == d.taskId
    requires OnlyItsRow(recent[i])
    ensures |recent| == Min(limit, |drafts|)
    ensures Shows(recent[i], drafts[|drafts| - |recent| + i], |drafts| - |recent| + i + 1)
  {
    TailIsEnd(recent, added, limit);
    assert RowOf(recent[i]) == added[|added| - |recent| + i];
  }
}
