/** The archival sweep: rows of prior years move from the hot store to the archive in batches that are
    copied first and deleted second. Sweeps overlap, stop and crash at any step, and live traffic goes on. */
module Archival {
  import opened Common

  datatype TableName =
    AGENT_EARNINGS | PAYMENT_WEBHOOK_EVENTS | PAYMENT_SESSIONS | TRANSACTIONS | ORDER_ITEMS | ORDERS

  /** Children before parents. */
  const ARCHIVAL_TABLES: seq<TableName> :=
    [AGENT_EARNINGS, PAYMENT_WEBHOOK_EVENTS, PAYMENT_SESSIONS, TRANSACTIONS, ORDER_ITEMS, ORDERS]

  function Position(t: TableName): (i: nat)
    ensures i < |ARCHIVAL_TABLES| && ARCHIVAL_TABLES[i] == t
  {
    match t
    case AGENT_EARNINGS => 0
    case PAYMENT_WEBHOOK_EVENTS => 1
    case PAYMENT_SESSIONS => 2
    case TRANSACTIONS => 3
    case ORDER_ITEMS => 4
    case ORDERS => 5
  }

  datatype Key = Key(table: TableName, id: nat)

  /** A row: its creation timestamp, its secondary unique key if its table has one that is set, the row it belongs to,
      the rest. */
  datatype Row = Row(ts: int, unique: Option<string>, parent: Option<Key>, content: string)

  datatype Record = Record(key: Key, row: Row)

  type Store = map<Key, Row>

  // ---------------------------------------------------------------------------
  // Statements
  // ---------------------------------------------------------------------------

  /** Another row of the same table holds the secondary unique key. */
  predicate UniqueTaken(s: Store, key: Key, row: Row) {
    row.unique.Some? && exists k :: k in s && k != key && k.table == key.table && s[k].unique == row.unique
  }

  /** INSERT ... ON CONFLICT DO NOTHING of one row: any unique key may conflict. */
  function InsertOne(s: Store, r: Record): Store {
    if r.key in s || UniqueTaken(s, r.key, r.row) then s else s[r.key := r.row]
  }

  function InsertIgnore(s: Store, rs: seq<Record>): Store
    decreases |rs|
  {
    if rs == [] then s else InsertOne(InsertIgnore(s, rs[..|rs| - 1]), rs[|rs| - 1])
  }

  predicate Due(s: Store, k: Key, yearStart: int) {
    k in s && s[k].ts < yearStart
  }

  function KeysOf(rs: seq<Record>): set<Key> {
    set i | 0 <= i < |rs| :: rs[i].key
  }

  /** SELECT ... WHERE ts < yearStart ORDER BY id LIMIT n. */
  ghost predicate IsBatch(s: Store, t: TableName, yearStart: int, n: nat, rs: seq<Record>) {
    && |rs| <= n
    && (forall i :: 0 <= i < |rs| ==>
          rs[i].key.table == t && Due(s, rs[i].key, yearStart) && s[rs[i].key] == rs[i].row)
    && (forall i, j :: 0 <= i < j < |rs| ==> rs[i].key.id < rs[j].key.id)
    && (forall k :: Due(s, k, yearStart) && k.table == t && k !in KeysOf(rs) ==>
          |rs| == n && forall i :: 0 <= i < |rs| ==> rs[i].key.id < k.id)
  }

  ghost predicate UniqueWithin(s: Store) {
    forall k :: k in s ==> !UniqueTaken(s, k, s[k])
  }

  // ---------------------------------------------------------------------------
  // Overlapping sweeps
  // ---------------------------------------------------------------------------

  type Pid = nat

  datatype Sweep =
    | Selecting(position: nat)
    | Copying(position: nat, batch: seq<Record>)
    | Deleting(position: nat, batch: seq<Record>)
    | Finished
    | Stopped

  /** A row's departure from the hot store: the years under which the sweep that took it had passed the earlier tables, and
      the year by then. */
  datatype Removal = Removal(passed: seq<int>, year: int)

  /** Both stores of a region, the running sweeps, the start of the current year, for every row ever written its latest
      content, and the journals: the year under which each sweep found each table empty, and the departures. */
  datatype Region = Region(
    hot: Store,
    archive: Store,
    sweeps: map<Pid, Sweep>,
    yearStart: int,
    rows: Store,
    passed: map<Pid, seq<int>>,
    removals: map<Key, Removal>)

  datatype Event =
    | Start(pid: Pid)
    | Select(pid: Pid, batchSize: nat, batch: seq<Record>)
    | Copy(pid: Pid)
    | Delete(pid: Pid)
    | Stop(pid: Pid)
    | Write(key: Key, row: Row)
    | NewYear(yearStart: int)

  function Goto(g: Region, pid: Pid, s: Sweep): Region {
    g.(sweeps := g.sweeps[pid := s])
  }

  function PassedBy(g: Region, pid: Pid): seq<int> {
    if pid in g.passed then g.passed[pid] else []
  }

  ghost predicate CanSelect(g: Region, p: Pid, n: nat, batch: seq<Record>) {
    && p in g.sweeps && g.sweeps[p].Selecting? && g.sweeps[p].position < |ARCHIVAL_TABLES| && n > 0
    && IsBatch(g.hot, ARCHIVAL_TABLES[g.sweeps[p].position], g.yearStart, n, batch)
  }

  /** A batch to copy, or the next table when nothing is due. */
  function Selected(g: Region, p: Pid, batch: seq<Record>): Region
    requires p in g.sweeps && g.sweeps[p].Selecting?
  {
    var i := g.sweeps[p].position;
    if batch != [] then Goto(g, p, Copying(i, batch))
    else Goto(g.(passed := g.passed[p := PassedBy(g, p) + [g.yearStart]]), p,
              if i + 1 < |ARCHIVAL_TABLES| then Selecting(i + 1) else Finished)
  }

  function Deleted(g: Region, p: Pid): Region
    requires p in g.sweeps && g.sweeps[p].Deleting?
  {
    var gone := KeysOf(g.sweeps[p].batch) * g.hot.Keys;
    Goto(g.(hot := g.hot - gone, removals := g.removals + map k | k in gone :: Removal(PassedBy(g, p), g.yearStart)), p,
         Selecting(g.sweeps[p].position))
  }

  /** One step; an event that is not possible in a state changes nothing. Live traffic inserts and updates
      rows of the current year only, under fresh ids and with unique keys new to both stores. */
  ghost function Step(g: Region, e: Event): Region {
    match e
    case Start(p) => if p in g.sweeps then g else Goto(g.(passed := g.passed[p := []]), p, Selecting(0))
    case Select(p, n, batch) => if CanSelect(g, p, n, batch) then Selected(g, p, batch) else g
    case Copy(p) =>
      if p in g.sweeps && g.sweeps[p].Copying?
      then Goto(g.(archive := InsertIgnore(g.archive, g.sweeps[p].batch)), p,
                Deleting(g.sweeps[p].position, g.sweeps[p].batch))
      else g
    case Delete(p) => if p in g.sweeps && g.sweeps[p].Deleting? then Deleted(g, p) else g
    case Stop(p) => if p in g.sweeps then Goto(g, p, Stopped) else g
    case Write(k, row) =>
      if && row.ts >= g.yearStart
         && (k in g.rows ==> g.rows[k].ts >= g.yearStart)
         && !UniqueTaken(g.rows, k, row)
      then g.(hot := g.hot[k := row], rows := g.rows[k := row])
      else g
    case NewYear(y) => if y > g.yearStart then g.(yearStart := y) else g
  }

  ghost function Run(g: Region, es: seq<Event>): Region
    decreases |es|
  {
    if es == [] then g else Step(Run(g, es[..|es| - 1]), es[|es| - 1])
  }

  ghost predicate SubStore(s: Store, rows: Store) {
    forall k :: k in s ==> k in rows && s[k] == rows[k]
  }

  ghost predicate InTable(s: Sweep)
    requires s.Copying? || s.Deleting?
  {
    && s.position < |ARCHIVAL_TABLES|
    && forall i :: 0 <= i < |s.batch| ==> s.batch[i].key.table == ARCHIVAL_TABLES[s.position]
  }

  ghost predicate SweepInv(archive: Store, yearStart: int, rows: Store, s: Sweep) {
    && (s.Copying? || s.Deleting? ==> InTable(s))
    && (s.Copying? ==> forall i :: 0 <= i < |s.batch| ==>
          Due(rows, s.batch[i].key, yearStart) && rows[s.batch[i].key] == s.batch[i].row)
    && (s.Deleting? ==> forall i :: 0 <= i < |s.batch| ==> s.batch[i].key in archive)
  }

  /** Nothing lost, nothing altered, nothing invented: every row is in a store, and stores hold rows only. */
  ghost predicate Inv(g: Region) {
    && UniqueWithin(g.rows)
    && SubStore(g.hot, g.rows)
    && SubStore(g.archive, g.rows)
    && (forall k :: k in g.rows ==> k in g.hot || k in g.archive)
    && (forall k :: k in g.archive ==> g.archive[k].ts < g.yearStart)
    && (forall p :: p in g.sweeps ==> SweepInv(g.archive, g.yearStart, g.rows, g.sweeps[p]))
  }

  lemma KeysOfSnoc(init: seq<Record>, last: Record)
    ensures KeysOf(init + [last]) == KeysOf(init) + {last.key}
  {
    var rs := init + [last];
    assert rs[|init|] == last;
    forall k | k in KeysOf(init) ensures k in KeysOf(rs) {
      var i :| 0 <= i < |init| && init[i].key == k;
      assert rs[i].key == k;
    }
  }

  /** Copying rows whose unique keys are free everywhere else brings every one of them into the archive. */
  lemma {:induction false} InsertIgnoreBringsAll(s: Store, rs: seq<Record>, rows: Store)
    requires UniqueWithin(rows) && SubStore(s, rows)
    requires forall i :: 0 <= i < |rs| ==> rs[i].key in rows && rows[rs[i].key] == rs[i].row
    ensures var s' := InsertIgnore(s, rs);
            && SubStore(s', rows)
            && s'.Keys == s.Keys + KeysOf(rs)
            && (forall k :: k in s ==> s'[k] == s[k])
    decreases |rs|
  {
    if rs != [] {
      var init, last := rs[..|rs| - 1], rs[|rs| - 1];
      InsertIgnoreBringsAll(s, init, rows);
      KeysOfSnoc(init, last);
      assert rs == init + [last];
      assert !UniqueTaken(rows, last.key, last.row);
      var s1 := InsertIgnore(s, init);
      assert !UniqueTaken(s1, last.key, last.row);
    } else {
      assert KeysOf(rs) == {};
    }
  }

  lemma BatchIsDue(hot: Store, rows: Store, t: TableName, yearStart: int, n: nat, rs: seq<Record>)
    requires IsBatch(hot, t, yearStart, n, rs) && SubStore(hot, rows)
    ensures forall i :: 0 <= i < |rs| ==>
              rs[i].key.table == t && Due(rows, rs[i].key, yearStart) && rows[rs[i].key] == rs[i].row
  {
  }

  lemma SelectKeepsInv(g: Region, e: Event)
    requires Inv(g) && e.Select?
    ensures Inv(Step(g, e))
  {
    if CanSelect(g, e.pid, e.batchSize, e.batch) {
      BatchIsDue(g.hot, g.rows, ARCHIVAL_TABLES[g.sweeps[e.pid].position], g.yearStart, e.batchSize, e.batch);
      hide UniqueWithin, SubStore, IsBatch, Due;
      var g' := Selected(g, e.pid, e.batch);
      forall p | p in g'.sweeps ensures SweepInv(g'.archive, g'.yearStart, g'.rows, g'.sweeps[p]) {
        assert SweepInv(g.archive, g.yearStart, g.rows, g.sweeps[p]);
      }
    }
  }

  lemma DeleteKeepsInv(g: Region, e: Event)
    requires Inv(g) && e.Delete?
    ensures Inv(Step(g, e))
  {
    hide UniqueWithin, Due;
    var g' := Step(g, e);
    if g' != g {
      assert SweepInv(g.archive, g.yearStart, g.rows, g.sweeps[e.pid]);
      forall k | k in g.rows ensures k in g'.hot || k in g'.archive {
        if k in KeysOf(g.sweeps[e.pid].batch) {
          assert k in g.archive;
        }
      }
      forall p | p in g'.sweeps ensures SweepInv(g'.archive, g'.yearStart, g'.rows, g'.sweeps[p]) {
        assert SweepInv(g.archive, g.yearStart, g.rows, g.sweeps[p]);
      }
    }
  }

  lemma StartsKeepInv(g: Region, e: Event)
    requires Inv(g) && (e.Start? || e.Stop?)
    ensures Inv(Step(g, e))
  {
    hide UniqueWithin, SubStore;
    var g' := Step(g, e);
    forall p | p in g'.sweeps ensures SweepInv(g'.archive, g'.yearStart, g'.rows, g'.sweeps[p]) {
      if p in g.sweeps {
        assert SweepInv(g.archive, g.yearStart, g.rows, g.sweeps[p]);
      }
    }
  }

  lemma CopyKeepsInv(g: Region, e: Event)
    requires Inv(g) && e.Copy?
    ensures Inv(Step(g, e))
  {
    var g' := Step(g, e);
    if g' != g {
      var batch := g.sweeps[e.pid].batch;
      assert SweepInv(g.archive, g.yearStart, g.rows, g.sweeps[e.pid]);
      InsertIgnoreBringsAll(g.archive, batch, g.rows);
      forall i | 0 <= i < |batch| ensures batch[i].key in g'.archive {
        assert batch[i].key in KeysOf(batch);
      }
      forall k | k in g'.archive ensures g'.archive[k].ts < g.yearStart {
        if k !in g.archive {
          var i :| 0 <= i < |batch| && batch[i].key == k;
        }
      }
      forall p | p in g'.sweeps ensures SweepInv(g'.archive, g'.yearStart, g'.rows, g'.sweeps[p]) {
        assert SweepInv(g.archive, g.yearStart, g.rows, g.sweeps[p]);
      }
    }
  }

  lemma WriteKeepsUnique(rows: Store, key: Key, row: Row)
    requires UniqueWithin(rows) && !UniqueTaken(rows, key, row)
    ensures UniqueWithin(rows[key := row])
  {
    var rows' := rows[key := row];
    forall k | k in rows' ensures !UniqueTaken(rows', k, rows'[k]) {
      if k != key {
        assert !UniqueTaken(rows, k, rows[k]);
      }
    }
  }

  /** A write of the current year, and a new year, leave a sweep's batch due. */
  lemma TrafficKeepsSweep(archive: Store, yearStart: int, rows: Store, s: Sweep, yearStart': int, rows': Store)
    requires SweepInv(archive, yearStart, rows, s) && yearStart' >= yearStart
    requires forall k :: Due(rows, k, yearStart) ==> k in rows' && rows'[k] == rows[k]
    ensures SweepInv(archive, yearStart', rows', s)
  {
  }

  lemma WriteKeepsInv(g: Region, e: Event)
    requires Inv(g) && e.Write?
    ensures Inv(Step(g, e))
  {
    var g' := Step(g, e);
    if g' != g {
      WriteKeepsUnique(g.rows, e.key, e.row);
      hide UniqueTaken, UniqueWithin, SweepInv;
      forall p | p in g'.sweeps ensures SweepInv(g'.archive, g'.yearStart, g'.rows, g'.sweeps[p]) {
        TrafficKeepsSweep(g.archive, g.yearStart, g.rows, g.sweeps[p], g'.yearStart, g'.rows);
      }
    }
  }

  lemma NewYearKeepsInv(g: Region, e: Event)
    requires Inv(g) && e.NewYear?
    ensures Inv(Step(g, e))
  {
    hide UniqueWithin, SweepInv, SubStore;
    var g' := Step(g, e);
    forall p | p in g'.sweeps ensures SweepInv(g'.archive, g'.yearStart, g'.rows, g'.sweeps[p]) {
      TrafficKeepsSweep(g.archive, g.yearStart, g.rows, g.sweeps[p], g'.yearStart, g'.rows);
    }
  }

  /** In every interleaving of any number of sweeps with crashes at any step and with live traffic, every row
      is in the hot store or in the archive with its content, and neither store holds anything else. */
  lemma {:induction false} NoRowIsLost(g: Region, es: seq<Event>)
    requires Inv(g)
    ensures Inv(Run(g, es))
    decreases |es|
  {
    if es != [] {
      var init, e := es[..|es| - 1], es[|es| - 1];
      NoRowIsLost(g, init);
      hide Inv, Step;
      if e.Copy? {
        CopyKeepsInv(Run(g, init), e);
      } else if e.Select? {
        SelectKeepsInv(Run(g, init), e);
      } else if e.Delete? {
        DeleteKeepsInv(Run(g, init), e);
      } else if e.Write? {
        WriteKeepsInv(Run(g, init), e);
      } else if e.NewYear? {
        NewYearKeepsInv(Run(g, init), e);
      } else {
        StartsKeepInv(Run(g, init), e);
      }
    }
  }

  // ---------------------------------------------------------------------------
  // Convergence
  // ---------------------------------------------------------------------------

  function Reached(s: Sweep): nat {
    match s
    case Selecting(i) => i
    case Copying(i, _) => i
    case Deleting(i, _) => i
    case Finished => |ARCHIVAL_TABLES|
    case Stopped => 0
  }

  /** Nothing older than the year under which a sweep passed a table is left in that table. */
  ghost predicate DrainedBy(hot: Store, yearStart: int, s: Sweep, passed: seq<int>) {
    && (!s.Stopped? ==> |passed| == Reached(s))
    && (forall i, j :: 0 <= i <= j < |passed| ==> passed[i] <= passed[j] <= yearStart)
    && (forall k :: k in hot && Position(k.table) < |passed| ==> passed[Position(k.table)] <= hot[k].ts)
  }

  ghost predicate Drained(g: Region, p: Pid)
    requires p in g.sweeps
  {
    p in g.passed && DrainedBy(g.hot, g.yearStart, g.sweeps[p], g.passed[p])
  }

  ghost predicate AllDrained(g: Region) {
    forall p :: p in g.sweeps ==> Drained(g, p)
  }

  /** A sweep that does not move on stays behind what it drained. */
  lemma DrainedSurvives(hot: Store, hot': Store, yearStart: int, yearStart': int, s: Sweep, s': Sweep, passed: seq<int>)
    requires DrainedBy(hot, yearStart, s, passed)
    requires s' == s || s'.Stopped? || (!s.Stopped? && Reached(s') == Reached(s))
    requires yearStart' >= yearStart
    requires forall k :: k in hot' ==> (k in hot && hot'[k] == hot[k]) || hot'[k].ts >= yearStart
    ensures DrainedBy(hot', yearStart', s', passed)
  {
  }

  lemma EmptyBatch(s: Store, t: TableName, yearStart: int, n: nat)
    requires IsBatch(s, t, yearStart, n, []) && n > 0
    ensures forall k :: k in s && k.table == t ==> yearStart <= s[k].ts
  {
    assert KeysOf([]) == {};
    assert forall k :: k in s && k.table == t && s[k].ts < yearStart ==> Due(s, k, yearStart);
  }

  lemma PassedIsDrained(g: Region, p: Pid)
    requires p in g.sweeps && Drained(g, p) && g.sweeps[p].Selecting? && g.sweeps[p].position < |ARCHIVAL_TABLES|
    requires forall k :: k in g.hot && k.table == ARCHIVAL_TABLES[g.sweeps[p].position] ==> g.yearStart <= g.hot[k].ts
    ensures Drained(Selected(g, p, []), p)
  {
  }

  lemma SelectKeepsDrained(g: Region, e: Event)
    requires AllDrained(g) && e.Select?
    ensures AllDrained(Step(g, e))
  {
    if CanSelect(g, e.pid, e.batchSize, e.batch) {
      var g' := Selected(g, e.pid, e.batch);
      assert forall p :: p in g.sweeps ==> Drained(g, p) && p in g.passed;
      if e.batch == [] {
        EmptyBatch(g.hot, ARCHIVAL_TABLES[g.sweeps[e.pid].position], g.yearStart, e.batchSize);
        PassedIsDrained(g, e.pid);
      }
      hide IsBatch, DrainedBy;
      forall p | p in g'.sweeps ensures Drained(g', p) {
        if p != e.pid || e.batch != [] {
          DrainedSurvives(g.hot, g'.hot, g.yearStart, g'.yearStart, g.sweeps[p], g'.sweeps[p], g.passed[p]);
        }
      }
    }
  }

  lemma StartKeepsDrained(g: Region, e: Event)
    requires AllDrained(g) && e.Start?
    ensures AllDrained(Step(g, e))
  {
    assert DrainedBy(g.hot, g.yearStart, Selecting(0), []);
    hide DrainedBy;
    var g' := Step(g, e);
    forall p | p in g'.sweeps ensures Drained(g', p) {
      if p in g.sweeps {
        assert Drained(g, p);
      }
    }
  }

  lemma SweepingKeepsDrained(g: Region, e: Event)
    requires AllDrained(g) && (e.Copy? || e.Delete? || e.Stop?)
    ensures AllDrained(Step(g, e))
  {
    var g' := Step(g, e);
    hide InsertIgnore, KeysOf, DrainedBy;
    forall p | p in g'.sweeps ensures Drained(g', p) {
      assert Drained(g, p);
      if g' != g {
        DrainedSurvives(g.hot, g'.hot, g.yearStart, g'.yearStart, g.sweeps[p], g'.sweeps[p], g.passed[p]);
      }
    }
  }

  lemma TrafficKeepsDrained(g: Region, e: Event)
    requires AllDrained(g) && (e.Write? || e.NewYear?)
    ensures AllDrained(Step(g, e))
  {
    var g' := Step(g, e);
    hide UniqueTaken, DrainedBy;
    forall p | p in g'.sweeps ensures Drained(g', p) {
      assert Drained(g, p);
      DrainedSurvives(g.hot, g'.hot, g.yearStart, g'.yearStart, g.sweeps[p], g'.sweeps[p], g.passed[p]);
    }
  }

  lemma StepKeepsDrained(g: Region, e: Event)
    requires AllDrained(g)
    ensures AllDrained(Step(g, e))
  {
    hide AllDrained, Step;
    match e
    case Start(_) => StartKeepsDrained(g, e);
    case Select(_, _, _) => SelectKeepsDrained(g, e);
    case Write(_, _) => TrafficKeepsDrained(g, e);
    case NewYear(_) => TrafficKeepsDrained(g, e);
    case _ => SweepingKeepsDrained(g, e);
  }

  function CurrentRows(rows: Store, yearStart: int): Store {
    map k | k in rows && rows[k].ts >= yearStart :: rows[k]
  }

  function PriorRows(rows: Store, yearStart: int): Store {
    map k | k in rows && rows[k].ts < yearStart :: rows[k]
  }

  lemma {:induction false} RunKeepsDrained(g: Region, es: seq<Event>)
    requires g.sweeps == map[]
    ensures AllDrained(Run(g, es))
    decreases |es|
  {
    if es != [] {
      RunKeepsDrained(g, es[..|es| - 1]);
      StepKeepsDrained(Run(g, es[..|es| - 1]), es[|es| - 1]);
    }
  }

  /** No year has begun since the sweep passed its first table. */
  predicate WithinItsYear(g: Region, p: Pid) {
    PassedBy(g, p) == [] || PassedBy(g, p)[0] == g.yearStart
  }

  lemma NothingDue(g: Region, p: Pid)
    requires Inv(g) && p in g.sweeps && g.sweeps[p].Finished? && Drained(g, p) && WithinItsYear(g, p)
    ensures g.hot == CurrentRows(g.rows, g.yearStart) && g.archive == PriorRows(g.rows, g.yearStart)
  {
    forall k | k in g.hot ensures !Due(g.hot, k, g.yearStart) {
      var j := Position(k.table);
      assert g.passed[p][0] <= g.passed[p][j] <= g.yearStart;
    }
    assert g.hot.Keys == CurrentRows(g.rows, g.yearStart).Keys;
    assert g.archive.Keys == PriorRows(g.rows, g.yearStart).Keys;
  }

  lemma OnlyWritesChangeRows(g: Region, e: Event)
    requires !e.Write?
    ensures Step(g, e).rows == g.rows
  {
    hide CanSelect, InsertIgnore;
  }

  lemma {:induction false} SweepsLeaveRows(g: Region, es: seq<Event>)
    requires forall i :: 0 <= i < |es| ==> !es[i].Write?
    ensures Run(g, es).rows == g.rows
    decreases |es|
  {
    if es != [] {
      SweepsLeaveRows(g, es[..|es| - 1]);
      OnlyWritesChangeRows(Run(g, es[..|es| - 1]), es[|es| - 1]);
      hide Step;
    }
  }

  /** Whatever crashed, timed-out or overlapping sweeps and new years went before: once a sweep has finished, nothing older
      than the year under which it passed a table is left there; and if no year has begun since it passed the first, the hot
      store is exactly the rows of the current year and the archive exactly the others, as after one uninterrupted sweep. */
  lemma FinishedSweepConverges(g: Region, es: seq<Event>, p: Pid)
    requires Inv(g) && g.sweeps == map[]
    requires p in Run(g, es).sweeps && Run(g, es).sweeps[p].Finished?
    ensures var g' := Run(g, es);
            && p in g'.passed && |g'.passed[p]| == |ARCHIVAL_TABLES|
            && (forall k :: k in g'.hot ==> g'.passed[p][Position(k.table)] <= g'.hot[k].ts)
            && (WithinItsYear(g', p) ==>
                  g'.hot == CurrentRows(g'.rows, g'.yearStart) && g'.archive == PriorRows(g'.rows, g'.yearStart))
            && ((forall i :: 0 <= i < |es| ==> !es[i].Write?) ==> g'.rows == g.rows)
  {
    NoRowIsLost(g, es);
    RunKeepsDrained(g, es);
    var g' := Run(g, es);
    assert Drained(g', p);
    if WithinItsYear(g', p) {
      NothingDue(g', p);
    }
    if forall i :: 0 <= i < |es| ==> !es[i].Write? {
      SweepsLeaveRows(g, es);
    }
  }

  lemma SamePosition(i: nat, t: TableName)
    requires i < |ARCHIVAL_TABLES| && ARCHIVAL_TABLES[i] == t
    ensures Position(t) == i
  {
  }

  /** What left the hot store is of a year that had ended, and whatever an earlier table still holds is no older than the
      year under which the sweep that took it had passed that table. */
  ghost predicate LeftInOrder(g: Region, k: Key) {
    k in g.removals ==>
      && k in g.rows && k !in g.hot && g.rows[k].ts < g.removals[k].year <= g.yearStart
      && |g.removals[k].passed| == Position(k.table)
      && (forall j :: 0 <= j < Position(k.table) ==> g.removals[k].passed[j] <= g.yearStart)
      && (forall k' :: k' in g.hot && Position(k'.table) < Position(k.table) ==>
            g.removals[k].passed[Position(k'.table)] <= g.hot[k'].ts)
  }

  /** ... and every departure since is noted. */
  ghost predicate RemovalsInv(g: Region, absent: set<Key>) {
    && (forall k :: LeftInOrder(g, k))
    && (forall k :: k in g.rows && k !in g.hot ==> k in g.removals || k in absent)
  }

  lemma TakenInOrder(g: Region, p: Pid, k: Key)
    requires Inv(g) && p in g.sweeps && Drained(g, p) && g.sweeps[p].Deleting?
    requires k in KeysOf(g.sweeps[p].batch) * g.hot.Keys
    ensures LeftInOrder(Deleted(g, p), k)
  {
    var s := g.sweeps[p];
    assert SweepInv(g.archive, g.yearStart, g.rows, s);
    var i :| 0 <= i < |s.batch| && s.batch[i].key == k;
    SamePosition(s.position, k.table);
    assert k in g.archive;
    hide UniqueWithin, SweepInv;
  }

  lemma OthersStayInOrder(g: Region, p: Pid, k: Key)
    requires LeftInOrder(g, k) && p in g.sweeps && g.sweeps[p].Deleting? && k !in KeysOf(g.sweeps[p].batch) * g.hot.Keys
    ensures LeftInOrder(Deleted(g, p), k)
  {
    hide KeysOf;
  }

  lemma DeleteKeepsRemovals(g: Region, e: Event, absent: set<Key>)
    requires Inv(g) && AllDrained(g) && RemovalsInv(g, absent) && e.Delete?
    ensures RemovalsInv(Step(g, e), absent)
  {
    if e.pid in g.sweeps && g.sweeps[e.pid].Deleting? {
      var g' := Deleted(g, e.pid);
      forall k ensures LeftInOrder(g', k) {
        assert LeftInOrder(g, k);
        if k in KeysOf(g.sweeps[e.pid].batch) * g.hot.Keys {
          TakenInOrder(g, e.pid, k);
        } else {
          OthersStayInOrder(g, e.pid, k);
        }
      }
      hide Inv, LeftInOrder, KeysOf;
    }
  }

  lemma WriteKeepsRemovals(g: Region, e: Event, absent: set<Key>)
    requires Inv(g) && RemovalsInv(g, absent) && e.Write?
    ensures RemovalsInv(Step(g, e), absent)
  {
    hide UniqueTaken, UniqueWithin, SweepInv;
    var g' := Step(g, e);
    forall k ensures LeftInOrder(g', k) {
      assert LeftInOrder(g, k);
    }
  }

  lemma StepKeepsRemovals(g: Region, e: Event, absent: set<Key>)
    requires Inv(g) && AllDrained(g) && RemovalsInv(g, absent)
    ensures RemovalsInv(Step(g, e), absent)
  {
    if e.Delete? {
      DeleteKeepsRemovals(g, e, absent);
    } else if e.Write? {
      WriteKeepsRemovals(g, e, absent);
    } else {
      var g' := Step(g, e);
      hide IsBatch, InsertIgnore, UniqueTaken, Inv, AllDrained;
      forall k ensures LeftInOrder(g', k) {
        assert LeftInOrder(g, k);
      }
    }
  }

  /** In every interleaving of sweeps, crashes and new years the tables empty children first: whenever a row has left the hot
      store, whatever an earlier table still holds is no older than the year under which the sweep that took the row had
      passed that table. */
  lemma {:induction false} ChildrenLeaveFirst(g: Region, es: seq<Event>)
    requires Inv(g) && g.sweeps == map[] && g.removals == map[]
    ensures RemovalsInv(Run(g, es), g.rows.Keys - g.hot.Keys)
    decreases |es|
  {
    if es != [] {
      ChildrenLeaveFirst(g, es[..|es| - 1]);
      NoRowIsLost(g, es[..|es| - 1]);
      RunKeepsDrained(g, es[..|es| - 1]);
      hide RemovalsInv, AllDrained, Inv, Step;
      StepKeepsRemovals(Run(g, es[..|es| - 1]), es[|es| - 1], g.rows.Keys - g.hot.Keys);
    }
  }

  /** Rows belong to rows of a table that is swept later. */
  ghost predicate ParentsLater(rows: Store) {
    forall k :: k in rows && rows[k].parent.Some? && rows[k].parent.value in rows ==>
      Position(k.table) < Position(rows[k].parent.value.table)
  }

  /** Rows that name an order belong to a row of the table swept last. */
  lemma OrdersAreSweptLast(rows: Store)
    requires forall k :: k in rows && rows[k].parent.Some? ==>
               k.table in {AGENT_EARNINGS, PAYMENT_SESSIONS, TRANSACTIONS, ORDER_ITEMS} && rows[k].parent.value.table == ORDERS
    ensures ParentsLater(rows)
    ensures |ARCHIVAL_TABLES| == 6 && forall t: TableName :: t in ARCHIVAL_TABLES
  {
    forall t: TableName ensures t in ARCHIVAL_TABLES {
      assert ARCHIVAL_TABLES[Position(t)] == t;
    }
  }

  /** The row is still in the hot store, and the row it belongs to has left it. */
  predicate Stranded(g: Region, k: Key) {
    k in g.hot && g.hot[k].parent.Some? && g.hot[k].parent.value in g.rows && g.hot[k].parent.value !in g.hot
  }

  /** In every run, new years included, a child whose parent has left since is stranded only if a year began between their
      creations, or while the sweep that took the parent was past the child's table. */
  lemma OnlyLaterChildrenAreStranded(g: Region, es: seq<Event>, k: Key)
    requires Inv(g) && g.sweeps == map[] && g.removals == map[]
    requires ParentsLater(Run(g, es).rows) && Stranded(Run(g, es), k)
    requires Run(g, es).hot[k].parent.value !in g.rows.Keys - g.hot.Keys
    ensures var g' := Run(g, es);
            && k in g'.rows && g'.rows[k].parent.Some? && g'.rows[k].parent.value in g'.rows
            && var parent := g'.rows[k].parent.value;
               (&& parent in g'.removals && Position(k.table) < |g'.removals[parent].passed|
                && var passed := g'.removals[parent].passed[Position(k.table)];
                   (|| g'.rows[parent].ts < passed <= g'.rows[k].ts
                    || passed <= g'.rows[parent].ts < g'.removals[parent].year))
  {
    ChildrenLeaveFirst(g, es);
    NoRowIsLost(g, es);
    var g' := Run(g, es);
    hide Run;
    assert LeftInOrder(g', g'.hot[k].parent.value);
  }

  /** After a sweep has finished, and before a year has begun since it passed its first table, a child is stranded if and
      only if the year began between its parent's creation and its own. */
  lemma StrandedIffYearBeganBetween(g: Region, es: seq<Event>, p: Pid, k: Key)
    requires Inv(g) && g.sweeps == map[]
    requires p in Run(g, es).sweeps && Run(g, es).sweeps[p].Finished? && WithinItsYear(Run(g, es), p)
    requires k in Run(g, es).rows && Run(g, es).rows[k].parent.Some? && Run(g, es).rows[k].parent.value in Run(g, es).rows
    ensures var g' := Run(g, es);
            Stranded(g', k) <==> g'.rows[g'.rows[k].parent.value].ts < g'.yearStart <= g'.rows[k].ts
  {
    FinishedSweepConverges(g, es, p);
    hide Run;
  }

  // ---------------------------------------------------------------------------
  // A sweep across the turn of the year
  // ---------------------------------------------------------------------------

  /** Only `p` sweeps. */
  predicate LoneSweep(es: seq<Event>, p: Pid) {
    forall i :: 0 <= i < |es| && es[i].Start? ==> es[i].pid == p
  }

  /** What a lone sweep has taken: rows older than the year under which it passed their table, or that is at hand. */
  ghost predicate LoneInv(g: Region, p: Pid) {
    && (forall q :: q in g.sweeps ==> q == p)
    && (forall k :: k in g.rows && k !in g.hot ==>
          g.rows[k].ts < if Position(k.table) < |PassedBy(g, p)| then PassedBy(g, p)[Position(k.table)] else g.yearStart)
    && (p in g.sweeps && (g.sweeps[p].Copying? || g.sweeps[p].Deleting?) ==>
          forall i :: 0 <= i < |g.sweeps[p].batch| ==>
            Due(g.rows, g.sweeps[p].batch[i].key, g.yearStart) && Position(g.sweeps[p].batch[i].key.table) >= |PassedBy(g, p)|)
  }

  lemma BatchKeepsLone(g: Region, p: Pid, batch: seq<Record>)
    requires LoneInv(g, p) && p in g.sweeps && g.sweeps[p].Selecting?
    requires forall i :: 0 <= i < |batch| ==>
               Due(g.rows, batch[i].key, g.yearStart) && Position(batch[i].key.table) >= |PassedBy(g, p)|
    requires batch == [] ==> |PassedBy(g, p)| == g.sweeps[p].position
    ensures LoneInv(Selected(g, p, batch), p)
  {
    hide Due;
  }

  lemma SelectKeepsLone(g: Region, e: Event, p: Pid)
    requires Inv(g) && AllDrained(g) && LoneInv(g, p) && e.Select?
    ensures LoneInv(Step(g, e), p)
  {
    if CanSelect(g, e.pid, e.batchSize, e.batch) {
      var i := g.sweeps[p].position;
      assert e.pid == p;
      assert |PassedBy(g, p)| == i by {
        assert Drained(g, p);
      }
      BatchIsDue(g.hot, g.rows, ARCHIVAL_TABLES[i], g.yearStart, e.batchSize, e.batch);
      hide Inv, AllDrained, IsBatch, Due, LoneInv;
      forall j | 0 <= j < |e.batch| ensures Position(e.batch[j].key.table) == i {
        SamePosition(i, e.batch[j].key.table);
      }
      BatchKeepsLone(g, p, e.batch);
    }
  }

  lemma DeleteKeepsLone(g: Region, e: Event, p: Pid)
    requires Inv(g) && LoneInv(g, p) && (e.Delete? || e.Copy? || e.Stop?)
    ensures LoneInv(Step(g, e), p)
  {
    hide IsBatch, InsertIgnore, UniqueTaken, UniqueWithin, SweepInv, SubStore;
  }

  lemma AbsentAreArchived(g: Region)
    requires Inv(g)
    ensures forall k :: k in g.rows && k !in g.hot ==> g.rows[k].ts < g.yearStart
  {
    hide SweepInv, UniqueWithin;
    assert forall k :: k in g.rows && k !in g.hot ==> k in g.archive;
  }

  lemma StartKeepsLone(g: Region, p: Pid)
    requires Inv(g) && LoneInv(g, p)
    ensures LoneInv(Step(g, Start(p)), p)
  {
    AbsentAreArchived(g);
    hide Inv, Due;
  }

  lemma WriteKeepsLone(g: Region, e: Event, p: Pid)
    requires Inv(g) && LoneInv(g, p) && e.Write?
    ensures LoneInv(Step(g, e), p)
  {
    hide Inv, UniqueTaken;
  }

  lemma NewYearKeepsLone(g: Region, e: Event, p: Pid)
    requires LoneInv(g, p) && e.NewYear?
    ensures LoneInv(Step(g, e), p)
  {
  }

  lemma {:induction false} RunKeepsLone(g: Region, es: seq<Event>, p: Pid)
    requires Inv(g) && g.sweeps == map[] && LoneSweep(es, p) && p !in g.passed
    ensures LoneInv(Run(g, es), p)
    decreases |es|
  {
    if es == [] {
      AbsentAreArchived(g);
    } else {
      var init, e := es[..|es| - 1], es[|es| - 1];
      assert forall i :: 0 <= i < |init| ==> init[i] == es[i];
      RunKeepsLone(g, init, p);
      NoRowIsLost(g, init);
      RunKeepsDrained(g, init);
      hide LoneInv, Inv, AllDrained, Step;
      if e.Select? {
        SelectKeepsLone(Run(g, init), e, p);
      } else if e.Delete? || e.Copy? || e.Stop? {
        DeleteKeepsLone(Run(g, init), e, p);
      } else if e.Start? {
        StartKeepsLone(Run(g, init), p);
      } else if e.Write? {
        WriteKeepsLone(Run(g, init), e, p);
      } else {
        NewYearKeepsLone(Run(g, init), e, p);
      }
    }
  }

  /** When the only sweep of a run has finished, whatever years began meanwhile, a row is left if and only if it is no older
      than the year under which the sweep passed its table; so a child is stranded if and only if it is no older than the
      year under which its table was passed, and its parent is older than the year under which the parent's was. */
  lemma StrandedByLoneSweepIff(g: Region, es: seq<Event>, p: Pid, k: Key)
    requires Inv(g) && g.sweeps == map[] && LoneSweep(es, p) && p !in g.passed
    requires p in Run(g, es).sweeps && Run(g, es).sweeps[p].Finished? && k in Run(g, es).rows
    ensures var g' := Run(g, es);
            var parent := g'.rows[k].parent;
            && |PassedBy(g', p)| == |ARCHIVAL_TABLES|
            && (k in g'.hot <==> PassedBy(g', p)[Position(k.table)] <= g'.rows[k].ts)
            && (parent.Some? && parent.value in g'.rows ==>
                  (Stranded(g', k) <==>
                     && PassedBy(g', p)[Position(k.table)] <= g'.rows[k].ts
                     && g'.rows[parent.value].ts < PassedBy(g', p)[Position(parent.value.table)]))
  {
    RunKeepsLone(g, es, p);
    NoRowIsLost(g, es);
    FinishedSweepConverges(g, es, p);
    hide Run, CurrentRows, PriorRows, SweepInv, UniqueWithin;
  }

  lemma RunSnoc(g: Region, es: seq<Event>, e: Event)
    ensures Run(g, es + [e]) == Step(Run(g, es), e)
  {
    assert (es + [e])[..|es|] == es;
  }

  /** An order and its earning, both of the year that began at 100. */
  const LAST_ORDER := Row(150, None, None, "order")

  function ItsEarning(): Row {
    Row(150, None, Some(Key(ORDERS, 1)), "earning")
  }

  function December(): Region {
    var rows := map[Key(ORDERS, 1) := LAST_ORDER, Key(AGENT_EARNINGS, 1) := ItsEarning()];
    Region(rows, map[], map[], 100, rows, map[], map[])
  }

  /** The first `i` tables are passed while nothing is due. */
  function PassTables(i: nat): seq<Event> {
    if i == 0 then [Start(1)] else PassTables(i - 1) + [Select(1, 10, [])]
  }

  lemma TablePasses(g: Region, i: nat)
    requires i < 5 && g.hot == December().hot && g.yearStart == 100
    requires g.sweeps == map[1 := Selecting(i)] && g.passed == map[1 := seq(i, _ => 100)]
    ensures Step(g, Select(1, 10, []))
            == g.(sweeps := map[1 := Selecting(i + 1)], passed := map[1 := seq(i + 1, _ => 100)])
  {
    assert forall k :: !Due(g.hot, k, 100);
    assert KeysOf([]) == {};
    assert IsBatch(g.hot, ARCHIVAL_TABLES[i], 100, 10, []);
    hide IsBatch;
    assert seq(i, _ => 100) + [100] == seq(i + 1, _ => 100);
  }

  lemma SweepStarts()
    ensures Run(December(), PassTables(0)) == December().(sweeps := map[1 := Selecting(0)], passed := map[1 := []])
  {
    assert [Start(1)] == [] + [Start(1)] && Run(December(), []) == December();
    RunSnoc(December(), [], Start(1));
  }

  lemma {:induction false} TablesPass(i: nat)
    requires i <= 5
    ensures Run(December(), PassTables(i))
            == December().(sweeps := map[1 := Selecting(i)], passed := map[1 := seq(i, _ => 100)])
  {
    if i == 0 {
      SweepStarts();
      hide Run;
      assert seq(0, _ => 100) == [];
    } else {
      hide Run, Step;
      TablesPass(i - 1);
      RunSnoc(December(), PassTables(i - 1), Select(1, 10, []));
      TablePasses(Run(December(), PassTables(i - 1)), i - 1);
    }
  }

  lemma OrderIsSelected(g: Region)
    requires g.hot == December().hot && g.yearStart == 200 && g.sweeps == map[1 := Selecting(5)]
    ensures Step(g, Select(1, 10, [Record(Key(ORDERS, 1), LAST_ORDER)]))
            == g.(sweeps := map[1 := Copying(5, [Record(Key(ORDERS, 1), LAST_ORDER)])])
  {
    var rs := [Record(Key(ORDERS, 1), LAST_ORDER)];
    assert KeysOf(rs) == {Key(ORDERS, 1)} by {
      assert rs[0].key == Key(ORDERS, 1);
    }
    assert IsBatch(g.hot, ORDERS, 200, 10, rs);
  }

  lemma OrderKeys()
    ensures KeysOf([Record(Key(ORDERS, 1), LAST_ORDER)]) == {Key(ORDERS, 1)}
  {
    assert [Record(Key(ORDERS, 1), LAST_ORDER)][0].key == Key(ORDERS, 1);
  }

  lemma OrderIsDeleted(g: Region)
    requires g.hot == December().hot && g.sweeps == map[1 := Deleting(5, [Record(Key(ORDERS, 1), LAST_ORDER)])]
    ensures var g' := Step(g, Delete(1));
            && g'.hot == map[Key(AGENT_EARNINGS, 1) := ItsEarning()] && g'.rows == g.rows && g'.yearStart == g.yearStart
  {
    OrderKeys();
    hide KeysOf;
  }

  lemma OrderLeaves(g: Region)
    requires g.hot == December().hot && g.sweeps == map[1 := Copying(5, [Record(Key(ORDERS, 1), LAST_ORDER)])]
    ensures var g' := Step(Step(g, Copy(1)), Delete(1));
            && g'.hot == map[Key(AGENT_EARNINGS, 1) := ItsEarning()] && g'.rows == g.rows && g'.yearStart == g.yearStart
  {
    hide InsertIgnore, ItsEarning;
    var g1 := Step(g, Copy(1));
    assert g1.hot == g.hot && g1.rows == g.rows && g1.yearStart == g.yearStart;
    assert g1.sweeps == map[1 := Deleting(5, [Record(Key(ORDERS, 1), LAST_ORDER)])];
    hide Step;
    OrderIsDeleted(g1);
  }

  lemma DecemberInv()
    ensures Inv(December())
  {
    var rows := December().rows;
    forall k | k in rows ensures !UniqueTaken(rows, k, rows[k]) {
      assert rows[k].unique.None?;
    }
  }

  lemma OrderIsTaken(g: Region)
    requires g == December().(sweeps := map[1 := Selecting(5)], passed := map[1 := seq(5, _ => 100)])
    ensures var g' := Step(Step(Step(Step(g, NewYear(200)), Select(1, 10, [Record(Key(ORDERS, 1), LAST_ORDER)])), Copy(1)),
                           Delete(1));
            Stranded(g', Key(AGENT_EARNINGS, 1)) && Due(g'.hot, Key(AGENT_EARNINGS, 1), g'.yearStart)
  {
    var g1 := g.(yearStart := 200);
    assert Step(g, NewYear(200)) == g1;
    hide Step;
    OrderIsSelected(g1);
    OrderLeaves(Step(g1, Select(1, 10, [Record(Key(ORDERS, 1), LAST_ORDER)])));
  }

  /** A year begins while a sweep is past the earnings and before the orders: it archives an order of the year that has just
      ended and leaves the order's earning of the same year behind. */
  lemma SweepAcrossNewYearStrands()
    ensures var es := PassTables(5) + [NewYear(200)] + [Select(1, 10, [Record(Key(ORDERS, 1), LAST_ORDER)])]
                      + [Copy(1)] + [Delete(1)];
            var g := Run(December(), es);
            Inv(December()) && Stranded(g, Key(AGENT_EARNINGS, 1)) && Due(g.hot, Key(AGENT_EARNINGS, 1), g.yearStart)
  {
    DecemberInv();
    var e1, e2, e3, e4 := NewYear(200), Select(1, 10, [Record(Key(ORDERS, 1), LAST_ORDER)]), Copy(1), Delete(1);
    hide Run, PassTables, Step, Inv, ItsEarning, December;
    RunSnoc(December(), PassTables(5), e1);
    RunSnoc(December(), PassTables(5) + [e1], e2);
    RunSnoc(December(), PassTables(5) + [e1] + [e2], e3);
    RunSnoc(December(), PassTables(5) + [e1] + [e2] + [e3], e4);
    TablesPass(5);
    OrderIsTaken(Run(December(), PassTables(5)));
  }

  // ---------------------------------------------------------------------------
  // One sweep
  // ---------------------------------------------------------------------------

  /** What the archive holds after the rows `gone` of the hot store were copied to it: a row that meets any
      unique key of the archive is ignored. */
  function Merged(archive: Store, hot: Store, gone: set<Key>): Store
    requires gone <= hot.Keys
  {
    map k | k in archive.Keys + gone && (k in archive || !UniqueTaken(archive, k, hot[k]))
      :: if k in archive then archive[k] else hot[k]
  }

  lemma MergeOne(archive: Store, hot: Store, gone: set<Key>, k: Key)
    requires UniqueWithin(hot) && gone <= hot.Keys && k in hot && k !in gone
    ensures InsertOne(Merged(archive, hot, gone), Record(k, hot[k])) == Merged(archive, hot, gone + {k})
  {
    var m := Merged(archive, hot, gone);
    if k !in archive {
      assert !UniqueTaken(hot, k, hot[k]);
      if UniqueTaken(archive, k, hot[k]) {
        var j :| j in archive && j != k && j.table == k.table && archive[j].unique == hot[k].unique;
        assert j in m;
      }
    }
  }

  lemma {:induction false} MergeAll(archive: Store, hot: Store, gone: set<Key>, rs: seq<Record>)
    requires UniqueWithin(hot) && gone <= hot.Keys
    requires forall i :: 0 <= i < |rs| ==> rs[i].key in hot && rs[i].key !in gone && hot[rs[i].key] == rs[i].row
    requires forall i, j :: 0 <= i < j < |rs| ==> rs[i].key != rs[j].key
    ensures gone + KeysOf(rs) <= hot.Keys
    ensures InsertIgnore(Merged(archive, hot, gone), rs) == Merged(archive, hot, gone + KeysOf(rs))
    decreases |rs|
  {
    hide Merged, InsertOne;
    if rs == [] {
      assert gone + KeysOf(rs) == gone;
    } else {
      var n := |rs| - 1;
      var init, last := rs[..n], rs[n];
      MergeAll(archive, hot, gone, init);
      assert rs == init + [last];
      KeysOfSnoc(init, last);
      MergeOne(archive, hot, gone + KeysOf(init), last.key);
      assert last == Record(last.key, hot[last.key]);
      assert gone + KeysOf(init) + {last.key} == gone + KeysOf(rs);
    }
  }

  /** The keys of `from` that `to` has no longer. */
  function Gone(from: Store, to: Store): set<Key> {
    from.Keys - to.Keys
  }

  function DueKeys(s: Store, yearStart: int): set<Key> {
    set k | k in s && s[k].ts < yearStart
  }

  /** The rows of the hot store a sweep can take away without losing one: archived already as they are, or
      free of unique keys the archive holds. */
  ghost predicate Compatible(hot: Store, archive: Store, yearStart: int) {
    forall k :: k in hot && hot[k].ts < yearStart ==>
      if k in archive then archive[k] == hot[k]
      else hot[k].unique.Some? ==> forall j :: j in archive && j.table == k.table ==> archive[j].unique != hot[k].unique
  }

  /** The archive after the rows of these keys were copied to it: what it held stays; of the copied rows exactly those arrive
      whose unique key no other archived row of their table holds. */
  ghost predicate CopiedInto(archive: Store, archive': Store, hot: Store, gone: set<Key>)
    requires gone <= hot.Keys
  {
    forall k ::
      if k in archive then k in archive' && archive'[k] == archive[k]
      else
        && (k in archive' <==>
              && k in gone
              && (hot[k].unique.Some? ==> forall j :: j in archive && j.table == k.table ==> archive[j].unique != hot[k].unique))
        && (k in archive' ==> archive'[k] == hot[k])
  }

  lemma MergedIsCopied(archive: Store, hot: Store, gone: set<Key>)
    requires gone <= hot.Keys
    ensures CopiedInto(archive, Merged(archive, hot, gone), hot, gone)
  {
    forall k | k in gone && k !in archive
      ensures UniqueTaken(archive, k, hot[k]) <==>
              hot[k].unique.Some? && exists j :: j in archive && j.table == k.table && archive[j].unique == hot[k].unique
    {
    }
  }

  ghost predicate Keeps(row: Row, k: Key, hot: Store, archive: Store) {
    (k in hot && hot[k] == row) || (k in archive && archive[k] == row)
  }

  /** A completed sweep keeps every row of the hot store if and only if no row it moves meets a unique key of
      a different row in the archive. */
  lemma SweepKeepsRowsIffCompatible(hot: Store, archive: Store, yearStart: int)
    ensures var archive' := Merged(archive, hot, DueKeys(hot, yearStart));
            (forall k :: k in hot ==> Keeps(hot[k], k, CurrentRows(hot, yearStart), archive'))
            <==> Compatible(hot, archive, yearStart)
  {
    var archive' := Merged(archive, hot, DueKeys(hot, yearStart));
    forall k | Due(hot, k, yearStart)
      ensures Keeps(hot[k], k, CurrentRows(hot, yearStart), archive')
              <==> if k in archive then archive[k] == hot[k] else !UniqueTaken(archive, k, hot[k])
    {
      assert k in DueKeys(hot, yearStart);
    }
  }

  /** A webhook event stored anew in the hot store under an event id that the archive already holds: the sweep
      ignores the copy and deletes the original. */
  lemma ClashLosesARow()
    ensures var key := Key(PAYMENT_WEBHOOK_EVENTS, 2);
            var hot := map[key := Row(5, Some("evt-1"), None, "second")];
            var archive := map[Key(PAYMENT_WEBHOOK_EVENTS, 1) := Row(4, Some("evt-1"), None, "first")];
            key !in CurrentRows(hot, 10) && key !in Merged(archive, hot, DueKeys(hot, 10))
  {
    var key := Key(PAYMENT_WEBHOOK_EVENTS, 2);
    var archive := map[Key(PAYMENT_WEBHOOK_EVENTS, 1) := Row(4, Some("evt-1"), None, "first")];
    assert Key(PAYMENT_WEBHOOK_EVENTS, 1) in archive;
    assert UniqueTaken(archive, key, Row(5, Some("evt-1"), None, "second"));
  }

  function OfTable(keys: set<Key>, t: TableName): set<Key> {
    set k | k in keys && k.table == t
  }

  /** `rs` holds the rows of `all` with the smallest ids, in order; `due` is the rest. */
  ghost predicate Smallest(s: Store, t: TableName, all: set<Key>, due: set<Key>, rs: seq<Record>) {
    && all <= s.Keys
    && (forall k :: k in all ==> k.table == t)
    && due <= all && KeysOf(rs) == all - due
    && (forall i :: 0 <= i < |rs| ==> rs[i].key in all && s[rs[i].key] == rs[i].row)
    && (forall i, j :: 0 <= i < j < |rs| ==> rs[i].key.id < rs[j].key.id)
    && (forall i, k :: 0 <= i < |rs| && k in due ==> rs[i].key.id < k.id)
  }

  lemma NoneSelected(s: Store, all: set<Key>, due: set<Key>)
    ensures due == all ==> forall t :: all <= s.Keys && (forall k :: k in all ==> k.table == t) ==> Smallest(s, t, all, due, [])
  {
    assert KeysOf([]) == {};
  }

  lemma SelectOneMore(s: Store, t: TableName, all: set<Key>, due: set<Key>, rs: seq<Record>, k: Key)
    requires Smallest(s, t, all, due, rs) && k in due && forall j :: j in due ==> k.id <= j.id
    ensures k in s && Smallest(s, t, all, due - {k}, rs + [Record(k, s[k])])
  {
    KeysOfSnoc(rs, Record(k, s[k]));
    forall j | j in due - {k} ensures k.id < j.id {
      assert j.table == k.table;
    }
  }

  lemma SmallestIsBatch(s: Store, t: TableName, yearStart: int, n: nat, all: set<Key>, due: set<Key>, rs: seq<Record>)
    requires Smallest(s, t, all, due, rs) && all == OfTable(DueKeys(s, yearStart), t)
    requires |rs| <= n && (due == {} || |rs| == n)
    ensures IsBatch(s, t, yearStart, n, rs)
  {
    forall k | Due(s, k, yearStart) && k.table == t && k !in KeysOf(rs)
      ensures |rs| == n && forall i :: 0 <= i < |rs| ==> rs[i].key.id < k.id
    {
      assert k in due;
    }
  }

  /** The rows gone from the hot store since `hot0`, and what they made of the archive. */
  ghost predicate SweepSoFar(hot: Store, archive: Store, hot0: Store, archive0: Store, yearStart: int) {
    && UniqueWithin(hot0)
    && SubStore(hot, hot0)
    && (forall k :: k in hot0 && k !in hot ==> Due(hot0, k, yearStart))
    && archive == Merged(archive0, hot0, Gone(hot0, hot))
  }

  /** Reading `r` of the clock, the first being reading 0, is past the runtime cap. */
  predicate CapReached(clock: nat -> int, r: nat, maxRuntime: int) {
    clock(r) - clock(0) >= maxRuntime
  }

  /** A sweep that has treated the first `i` tables: what left the hot store ... */
  ghost predicate RowsSoFar(hot0: Store, hot: Store, yearStart: int, batchSize: nat, i: nat, timedOut: bool) {
    && SubStore(hot, hot0)
    && Gone(hot0, hot) <= DueKeys(hot0, yearStart)
    && (forall k :: k in Gone(hot0, hot) ==> Position(k.table) < i)
    && (batchSize > 0 ==> forall k :: Due(hot, k, yearStart) ==> Position(k.table) >= if timedOut then i - 1 else i)
    && (batchSize == 0 ==> hot == hot0)
  }

  /** ... and the counts of it. */
  ghost predicate CountsSoFar(gone: set<Key>, i: nat, moved: map<TableName, nat>, totalMoved: nat) {
    && (forall k :: k in gone ==> Position(k.table) < i)
    && (forall t :: t in moved <==> Position(t) < i)
    && (forall t :: t in moved ==> moved[t] == |OfTable(gone, t)|)
    && totalMoved == |gone|
  }

  ghost predicate Progress(hot0: Store, hot: Store, yearStart: int, batchSize: nat, i: nat, timedOut: bool,
                           moved: map<TableName, nat>, totalMoved: nat)
  {
    && RowsSoFar(hot0, hot, yearStart, batchSize, i, timedOut)
    && CountsSoFar(Gone(hot0, hot), i, moved, totalMoved)
  }

  lemma SweepBegins(hot: Store, archive: Store, yearStart: int, batchSize: nat)
    requires UniqueWithin(hot)
    ensures SweepSoFar(hot, archive, hot, archive, yearStart)
    ensures Progress(hot, hot, yearStart, batchSize, 0, false, map[], 0)
  {
    assert Gone(hot, hot) == {};
  }

  lemma MovedByTable(gone: set<Key>, left: set<Key>, name: TableName)
    requires forall k :: k in left ==> k.table == name
    requires forall k :: k in gone ==> k.table != name
    ensures OfTable(gone + left, name) == left
    ensures forall t :: t != name ==> OfTable(gone + left, t) == OfTable(gone, t)
    ensures |gone + left| == |gone| + |left|
  {
  }

  lemma TablesStep(moved: map<TableName, nat>, i: nat, n: nat)
    requires i < |ARCHIVAL_TABLES| && forall t :: t in moved <==> Position(t) < i
    ensures forall t :: t in moved[ARCHIVAL_TABLES[i] := n] <==> Position(t) < i + 1
    ensures ARCHIVAL_TABLES[i] !in moved && Position(ARCHIVAL_TABLES[i]) == i
  {
    SamePosition(i, ARCHIVAL_TABLES[i]);
    forall t ensures t in moved[ARCHIVAL_TABLES[i] := n] <==> Position(t) < i + 1 {
      SamePosition(Position(t), t);
    }
  }

  lemma CountsStep(gone: set<Key>, left: set<Key>, i: nat, moved: map<TableName, nat>, totalMoved: nat)
    requires i < |ARCHIVAL_TABLES| && CountsSoFar(gone, i, moved, totalMoved)
    requires forall k :: k in left ==> k.table == ARCHIVAL_TABLES[i]
    ensures CountsSoFar(gone + left, i + 1, moved[ARCHIVAL_TABLES[i] := |left|], totalMoved + |left|)
  {
    var name := ARCHIVAL_TABLES[i];
    TablesStep(moved, i, |left|);
    hide OfTable, Position;
    MovedByTable(gone, left, name);
  }

  lemma RowsStep(hot0: Store, before: Store, hot: Store, yearStart: int, batchSize: nat, i: nat, timedOut: bool)
    requires i < |ARCHIVAL_TABLES| && RowsSoFar(hot0, before, yearStart, batchSize, i, false)
    requires SubStore(hot, before)
    requires Gone(before, hot) <= OfTable(DueKeys(before, yearStart), ARCHIVAL_TABLES[i])
    requires !timedOut && batchSize > 0 ==> OfTable(DueKeys(hot, yearStart), ARCHIVAL_TABLES[i]) == {}
    requires batchSize == 0 ==> hot == before
    ensures RowsSoFar(hot0, hot, yearStart, batchSize, i + 1, timedOut)
  {
    var name := ARCHIVAL_TABLES[i];
    SamePosition(i, name);
    forall k | k in Gone(hot0, hot) ensures k in DueKeys(hot0, yearStart) && Position(k.table) < i + 1 {
      if k in before {
        assert k in Gone(before, hot);
      } else {
        assert k in Gone(hot0, before);
      }
    }
    forall k | Due(hot, k, yearStart) && batchSize > 0
      ensures Position(k.table) >= if timedOut then i else i + 1
    {
      assert Due(before, k, yearStart);
      assert k.table == name ==> k in OfTable(DueKeys(hot, yearStart), name);
      SamePosition(Position(k.table), k.table);
    }
  }

  lemma InOneTable(keys: set<Key>, due: set<Key>, name: TableName)
    requires keys <= OfTable(due, name)
    ensures forall k :: k in keys ==> k.table == name
  {
  }

  lemma GoneAdds(hot0: Store, before: Store, hot: Store, yearStart: int, batchSize: nat, i: nat)
    requires RowsSoFar(hot0, before, yearStart, batchSize, i, false) && SubStore(hot, before)
    ensures Gone(hot0, hot) == (Gone(hot0, before)) + (Gone(before, hot))
  {
  }

  lemma ProgressStep(hot0: Store, before: Store, hot: Store, yearStart: int, batchSize: nat, i: nat, timedOut: bool,
                     moved: map<TableName, nat>, totalMoved: nat, n: nat)
    requires i < |ARCHIVAL_TABLES| && Progress(hot0, before, yearStart, batchSize, i, false, moved, totalMoved)
    requires SubStore(hot, before)
    requires Gone(before, hot) <= OfTable(DueKeys(before, yearStart), ARCHIVAL_TABLES[i])
    requires n == |Gone(before, hot)|
    requires !timedOut && batchSize > 0 ==> OfTable(DueKeys(hot, yearStart), ARCHIVAL_TABLES[i]) == {}
    requires batchSize == 0 ==> hot == before
    ensures Progress(hot0, hot, yearStart, batchSize, i + 1, timedOut, moved[ARCHIVAL_TABLES[i] := n], totalMoved + n)
  {
    hide RowsSoFar, CountsSoFar, SubStore, Gone, OfTable, DueKeys, Position;
    RowsStep(hot0, before, hot, yearStart, batchSize, i, timedOut);
    GoneAdds(hot0, before, hot, yearStart, batchSize, i);
    InOneTable(Gone(before, hot), DueKeys(before, yearStart), ARCHIVAL_TABLES[i]);
    CountsStep(Gone(hot0, before), Gone(before, hot), i, moved, totalMoved);
  }

  lemma ArchiveEnds(hot: Store, archive: Store, hot0: Store, archive0: Store, yearStart: int)
    requires SweepSoFar(hot, archive, hot0, archive0, yearStart)
    ensures SubStore(hot, hot0) && Gone(hot0, hot) <= DueKeys(hot0, yearStart)
    ensures archive == Merged(archive0, hot0, Gone(hot0, hot))
    ensures CopiedInto(archive0, archive, hot0, hot0.Keys - hot.Keys)
  {
    MergedIsCopied(archive0, hot0, Gone(hot0, hot));
    hide Merged, CopiedInto, UniqueTaken;
  }

  lemma SweepEnds(hot0: Store, hot: Store, yearStart: int, batchSize: nat, i: nat, timedOut: bool,
                  moved: map<TableName, nat>, totalMoved: nat)
    requires Progress(hot0, hot, yearStart, batchSize, i, timedOut, moved, totalMoved)
    requires timedOut || i == |ARCHIVAL_TABLES|
    ensures forall t :: |OfTable(Gone(hot0, hot), t)| == if t in moved then moved[t] else 0
    ensures batchSize > 0 ==>
              forall k, j :: k in hot0 && k !in hot && Due(hot, j, yearStart) ==> Position(k.table) <= Position(j.table)
    ensures !timedOut && batchSize > 0 ==>
              hot == CurrentRows(hot0, yearStart) && Gone(hot0, hot) == DueKeys(hot0, yearStart)
    ensures totalMoved == |Gone(hot0, hot)|
    ensures batchSize == 0 ==> hot == hot0
  {
    forall t ensures |OfTable(Gone(hot0, hot), t)| == if t in moved then moved[t] else 0 {
      if t !in moved {
        assert OfTable(Gone(hot0, hot), t) == {};
      }
    }
    forall k, j | k in hot0 && k !in hot && Due(hot, j, yearStart) && batchSize > 0
      ensures Position(k.table) <= Position(j.table)
    {
      assert k in Gone(hot0, hot);
    }
    if !timedOut && batchSize > 0 {
      forall k | k in hot0 ensures k in hot <==> hot0[k].ts >= yearStart {
        if k in hot {
          assert !Due(hot, k, yearStart);
        } else {
          assert k in DueKeys(hot0, yearStart);
        }
      }
    }
  }

  /** `n` rows of `from` are gone in `to`, all of them among `allowed`; nothing else changed. */
  ghost predicate Leaves(from: Store, to: Store, allowed: set<Key>, n: nat) {
    SubStore(to, from) && Gone(from, to) <= allowed && n == |Gone(from, to)|
  }

  lemma NothingLeaves(s: Store, due: set<Key>, name: TableName)
    ensures Leaves(s, s, OfTable(due, name), 0)
  {
    assert s.Keys - s.Keys == {};
  }

  lemma LeavesMeans(from: Store, to: Store, allowed: set<Key>, n: nat)
    requires Leaves(from, to, allowed, n)
    ensures SubStore(to, from) && Gone(from, to) <= allowed && n == |Gone(from, to)|
  {
  }

  lemma DueInPart(from: Store, to: Store, yearStart: int, name: TableName)
    requires SubStore(to, from)
    ensures OfTable(DueKeys(to, yearStart), name) <= OfTable(DueKeys(from, yearStart), name)
    ensures OfTable(DueKeys(to, yearStart), name) <= to.Keys
  {
  }

  lemma Apart(a: set<Key>, b: set<Key>, c: set<Key>, keys: set<Key>)
    requires b <= a && keys <= b && c == b - keys
    ensures a - c == (a - b) + keys && |a - c| == |a - b| + |keys|
  {
    assert a - c == (a - b) + keys;
    assert (a - b) !! keys;
  }

  lemma GoneGrows(from: Store, before: Store, after: Store, keys: set<Key>)
    requires before.Keys <= from.Keys && after.Keys == before.Keys - keys && keys <= before.Keys
    ensures Gone(from, after) == Gone(from, before) + keys
    ensures |Gone(from, after)| == |Gone(from, before)| + |keys|
  {
    Apart(from.Keys, before.Keys, after.Keys, keys);
  }

  lemma MoreLeaves(from: Store, before: Store, after: Store, yearStart: int, name: TableName, n: nat, keys: set<Key>)
    requires Leaves(from, before, OfTable(DueKeys(from, yearStart), name), n)
    requires SubStore(after, before) && after.Keys == before.Keys - keys
    requires keys <= OfTable(DueKeys(before, yearStart), name)
    ensures Leaves(from, after, OfTable(DueKeys(from, yearStart), name), n + |keys|)
  {
    DueInPart(from, before, yearStart, name);
    GoneGrows(from, before, after, keys);
    hide DueKeys, OfTable, Gone;
  }

  lemma {:induction false} KeysOfCount(rs: seq<Record>)
    requires forall i, j :: 0 <= i < j < |rs| ==> rs[i].key != rs[j].key
    ensures |KeysOf(rs)| == |rs|
  {
    if rs == [] {
      assert KeysOf(rs) == {};
    } else {
      var init, last := rs[..|rs| - 1], rs[|rs| - 1];
      KeysOfCount(init);
      KeysOfSnoc(init, last);
      assert rs == init + [last];
    }
  }

  /** What a batch says: without rows nothing is due in its table, unless the batch size is zero. */
  lemma BatchFacts(s: Store, t: TableName, yearStart: int, n: nat, rs: seq<Record>)
    requires IsBatch(s, t, yearStart, n, rs)
    ensures KeysOf(rs) <= OfTable(DueKeys(s, yearStart), t)
    ensures KeysOf(rs) <= s.Keys && |KeysOf(rs)| == |rs| <= n
    ensures rs == [] && n > 0 ==> OfTable(DueKeys(s, yearStart), t) == {}
    ensures |rs| < n ==> OfTable(DueKeys(s, yearStart), t) == KeysOf(rs)
    ensures rs != [] ==> KeysOf(rs) != {}
  {
    KeysOfCount(rs);
    assert forall k :: k in OfTable(DueKeys(s, yearStart), t) ==> Due(s, k, yearStart);
    if rs == [] {
      assert KeysOf(rs) == {};
    }
  }

  /** Batches are full until the table has nothing due. */
  lemma FullOrLast(before: Store, after: Store, yearStart: int, name: TableName, keys: set<Key>)
    requires SubStore(after, before) && after.Keys == before.Keys - keys
    requires OfTable(DueKeys(before, yearStart), name) == keys
    ensures OfTable(DueKeys(after, yearStart), name) == {}
  {
  }

  class RegionStores {
    var hot: Store
    var archive: Store

    constructor (hot: Store, archive: Store)
      ensures this.hot == hot && this.archive == archive
    {
      this.hot, this.archive := hot, archive;
    }

    method SmallestId(keys: set<Key>) returns (k: Key)
      requires keys != {}
      ensures k in keys && forall j :: j in keys ==> k.id <= j.id
    {
      k :| k in keys;
      var rest := keys - {k};
      while rest != {}
        invariant k in keys && rest <= keys
        invariant forall j :: j in keys - rest ==> k.id <= j.id
      {
        var j :| j in rest;
        rest := rest - {j};
        if j.id < k.id { k := j; }
      }
    }

    method SelectBatch(t: TableName, yearStart: int, n: nat) returns (rs: seq<Record>)
      ensures IsBatch(hot, t, yearStart, n, rs)
    {
      hide Smallest;
      var due := set k | k in hot && hot[k].ts < yearStart && k.table == t;
      ghost var all := due;
      rs := [];
      NoneSelected(hot, all, due);
      while due != {} && |rs| < n
        invariant |rs| <= n
        invariant Smallest(hot, t, all, due, rs)
        decreases |due|
      {
        var k := SmallestId(due);
        SelectOneMore(hot, t, all, due, rs, k);
        rs := rs + [Record(k, hot[k])];
        due := due - {k};
      }
      SmallestIsBatch(hot, t, yearStart, n, all, due, rs);
    }

    method InsertIntoArchive(rs: seq<Record>)
      modifies `archive
      ensures archive == InsertIgnore(old(archive), rs)
    {
      for i := 0 to |rs|
        invariant archive == InsertIgnore(old(archive), rs[..i])
      {
        assert rs[..i + 1][..i] == rs[..i];
        if !(rs[i].key in archive || UniqueTaken(archive, rs[i].key, rs[i].row)) {
          archive := archive[rs[i].key := rs[i].row];
        }
      }
      assert rs[..|rs|] == rs;
    }

    /** Copy a batch, then delete it. */
    method MoveBatch(rows: seq<Record>, ghost hot0: Store, ghost archive0: Store, yearStart: int, name: TableName)
      requires SweepSoFar(hot, archive, hot0, archive0, yearStart)
      requires exists n :: IsBatch(hot, name, yearStart, n, rows)
      modifies this
      ensures SweepSoFar(hot, archive, hot0, archive0, yearStart)
      ensures hot.Keys == old(hot).Keys - KeysOf(rows)
      ensures SubStore(hot, old(hot))
    {
      ghost var gone := Gone(hot0, hot);
      hide Merged, UniqueTaken, UniqueWithin, InsertIgnore;
      MergeAll(archive0, hot0, gone, rows);
      InsertIntoArchive(rows);
      hot := hot - (set i | 0 <= i < |rows| :: rows[i].key);
      assert Gone(hot0, hot) == gone + KeysOf(rows);
    }

    /** The batch loop of one table. It ends when a batch comes back empty, or at the runtime cap. */
    method DrainTable(name: TableName, yearStart: int, batchSize: nat, maxRuntime: int, clock: nat -> int, start: nat,
                      ghost hot0: Store, ghost archive0: Store)
      returns (moved: nat, timedOut: bool, readings: nat)
      requires SweepSoFar(hot, archive, hot0, archive0, yearStart)
      modifies this
      ensures SweepSoFar(hot, archive, hot0, archive0, yearStart)
      ensures SubStore(hot, old(hot))
      ensures Gone(old(hot), hot) <= OfTable(DueKeys(old(hot), yearStart), name)
      ensures moved == |Gone(old(hot), hot)|
      ensures !timedOut && batchSize > 0 ==> OfTable(DueKeys(hot, yearStart), name) == {}
      ensures batchSize == 0 ==> hot == old(hot)
      ensures readings > start
      ensures forall r :: start < r <= readings ==> (clock(r) - clock(0) >= maxRuntime <==> timedOut && r == readings)
      ensures moved == Times(readings - start - 1, batchSize) || OfTable(DueKeys(hot, yearStart), name) == {}
    {
      hide SweepSoFar, Merged, UniqueTaken, IsBatch, Leaves, Gone, OfTable, DueKeys, Times;
      readings := start;
      moved, timedOut := 0, false;
      ghost var batches := 0;
      TimesNext(0, batchSize);
      NothingLeaves(hot, DueKeys(hot, yearStart), name);
      while true
        invariant SweepSoFar(hot, archive, hot0, archive0, yearStart)
        invariant Leaves(old(hot), hot, OfTable(DueKeys(old(hot), yearStart), name), moved)
        invariant batchSize == 0 ==> hot == old(hot)
        invariant readings == start + batches
        invariant forall r :: start < r <= readings ==> clock(r) - clock(0) < maxRuntime
        invariant moved == Times(batches, batchSize) || OfTable(DueKeys(hot, yearStart), name) == {}
        decreases hot.Keys
      {
        readings := readings + 1;
        if CapReached(clock, readings, maxRuntime) {
          timedOut := true;
          break;
        }
        var rows := SelectBatch(name, yearStart, batchSize);
        BatchFacts(hot, name, yearStart, batchSize, rows);
        if |rows| == 0 {
          break;
        }
        ghost var before := hot;
        MoveBatch(rows, hot0, archive0, yearStart, name);
        MoreLeaves(old(hot), before, hot, yearStart, name, moved, KeysOf(rows));
        if |rows| < batchSize {
          FullOrLast(before, hot, yearStart, name, KeysOf(rows));
        }
        moved := moved + |rows|;
        TimesNext(batches, batchSize);
        batches := batches + 1;
      }
      LeavesMeans(old(hot), hot, OfTable(DueKeys(old(hot), yearStart), name), moved);
    }

    /** One sweep of the region. Whether it finishes or hits the runtime cap, exactly the rows missing from the
        hot store were copied; no table is touched before all earlier ones are drained; the counts are the rows
        removed. A sweep that finishes leaves the current year only. */
    method ArchiveRegion(yearStart: int, batchSize: nat, maxRuntime: int, clock: nat -> int)
      returns (moved: map<TableName, nat>, totalMoved: nat, timedOut: bool, readings: nat)
      requires UniqueWithin(hot)
      modifies this
      ensures SubStore(hot, old(hot))
      ensures Gone(old(hot), hot) <= DueKeys(old(hot), yearStart)
      ensures archive == Merged(old(archive), old(hot), Gone(old(hot), hot))
      ensures forall t :: |OfTable(Gone(old(hot), hot), t)| == if t in moved then moved[t] else 0
      ensures totalMoved == |Gone(old(hot), hot)|
      ensures batchSize > 0 ==>
                forall k, j :: k in old(hot) && k !in hot && Due(hot, j, yearStart) ==> Position(k.table) <= Position(j.table)
      ensures !timedOut && batchSize > 0 ==>
                && hot == CurrentRows(old(hot), yearStart)
                && archive == Merged(old(archive), old(hot), DueKeys(old(hot), yearStart))
      ensures batchSize == 0 ==> hot == old(hot)
      ensures CopiedInto(old(archive), archive, old(hot), old(hot).Keys - hot.Keys)
      ensures forall r :: 0 < r <= readings ==> (clock(r) - clock(0) >= maxRuntime <==> timedOut && r == readings)
      ensures timedOut ==> readings > 0
    {
      hide SweepSoFar, Progress, Merged, UniqueTaken, UniqueWithin, SubStore, Gone, OfTable, DueKeys, Position, CopiedInto;
      ghost var hot0, archive0 := hot, archive;
      SweepBegins(hot, archive, yearStart, batchSize);
      moved, totalMoved, timedOut := map[], 0, false;
      readings := 0;
      var i := 0;
      while i < |ARCHIVAL_TABLES| && !timedOut
        invariant 0 <= i <= |ARCHIVAL_TABLES|
        invariant SweepSoFar(hot, archive, hot0, archive0, yearStart)
        invariant Progress(hot0, hot, yearStart, batchSize, i, timedOut, moved, totalMoved)
        invariant forall r :: 0 < r <= readings ==> (clock(r) - clock(0) >= maxRuntime <==> timedOut && r == readings)
        invariant timedOut ==> readings > 0
        decreases |ARCHIVAL_TABLES| - i
      {
        var name := ARCHIVAL_TABLES[i];
        ghost var before := hot;
        var n;
        n, timedOut, readings := DrainTable(name, yearStart, batchSize, maxRuntime, clock, readings, hot0, archive0);
        ProgressStep(hot0, before, hot, yearStart, batchSize, i, timedOut, moved, totalMoved, n);
        moved := moved[name := n];
        totalMoved := totalMoved + n;
        i := i + 1;
      }
      SweepEnds(hot0, hot, yearStart, batchSize, i, timedOut, moved, totalMoved);
      ArchiveEnds(hot, archive, hot0, archive0, yearStart);
    }
  }
}
