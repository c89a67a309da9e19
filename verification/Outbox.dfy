/** The transactional outbox. Producers insert events in their own transactions; any number of drainers claim
    rows with FOR UPDATE SKIP LOCKED, publish inside their transaction and mark; transactions roll back and
    processes crash at any step. */
module Outbox {
  import opened Common

  type Id = nat

  type Pid = nat

  datatype Row = Row(event: string, dispatched: bool, attempts: nat)

  datatype Message = Message(id: Id, event: string)

  /** A drainer's open transaction: the rows it locked, how many of them it has treated, and whether the last
      one treated was marked failed, which ends the pass. */
  datatype Drainer = Idle | Draining(held: seq<Id>, treated: nat, failed: bool)

  /** Committed rows, uncommitted inserts, drainers, what reached the broker, and for every row the passes
      holding it that rolled back. */
  datatype System = System(
    rows: map<Id, Row>,
    pending: map<Pid, map<Id, string>>,
    drainers: map<Pid, Drainer>,
    log: seq<Message>,
    rollbacks: map<Id, nat>)

  /** How publishing and marking one row ends. A refused publish may still have reached the broker. */
  datatype Outcome = Delivered | Refused(reached: bool) | MarkFails(reached: bool)

  datatype Event =
    | Insert(producer: Pid, id: Id, event: string)
    | CommitInserts(producer: Pid)
    | AbortInserts(producer: Pid)
    | Claim(drainer: Pid, limit: nat, ids: seq<Id>)
    | Treat(drainer: Pid, outcome: Outcome)
    | Commit(drainer: Pid)
    | Rollback(drainer: Pid)

  const EMPTY := System(map[], map[], map[], [], map[])

  predicate Reaches(o: Outcome) {
    o.Delivered? || o.reached
  }

  /** The last treated row is the failed one. */
  predicate IsDispatchMark(d: Drainer, i: nat)
    requires d.Draining?
  {
    i < d.treated && !(d.failed && i == d.treated - 1)
  }

  ghost predicate Locked(drainers: map<Pid, Drainer>, id: Id) {
    exists p :: p in drainers && drainers[p].Draining? && id in drainers[p].held
  }

  ghost predicate Available(s: System, id: Id) {
    id in s.rows && !s.rows[id].dispatched && !Locked(s.drainers, id)
  }

  predicate Ascending(ids: seq<Id>) {
    forall i, j :: 0 <= i < j < |ids| ==> ids[i] < ids[j]
  }

  /** SELECT ... WHERE dispatched_at IS NULL ORDER BY id LIMIT n FOR UPDATE SKIP LOCKED. */
  ghost predicate IsClaim(s: System, limit: nat, ids: seq<Id>) {
    && |ids| <= limit
    && Ascending(ids)
    && (forall i :: 0 <= i < |ids| ==> Available(s, ids[i]))
    && (forall id :: Available(s, id) && id !in ids ==> |ids| == limit && forall i :: 0 <= i < |ids| ==> ids[i] < id)
  }

  predicate Taken(s: System, id: Id) {
    id in s.rows || exists p :: p in s.pending && id in s.pending[p]
  }

  /** What committing a drainer's marks makes of a row. */
  function Marked(r: Row, id: Id, d: Drainer): Row
    requires d.Draining? && d.treated <= |d.held|
  {
    if d.failed && d.treated > 0 && d.held[d.treated - 1] == id then r.(attempts := r.attempts + 1)
    else if id in d.held[..d.treated] then r.(dispatched := true)
    else r
  }

  function MarkAll(rows: map<Id, Row>, d: Drainer): map<Id, Row>
    requires d.Draining? && d.treated <= |d.held|
  {
    map id | id in rows :: Marked(rows[id], id, d)
  }

  function Rollbacks(s: System, id: Id): nat {
    if id in s.rollbacks then s.rollbacks[id] else 0
  }

  function CountRollback(rollbacks: map<Id, nat>, held: seq<Id>): map<Id, nat> {
    map id | id in rollbacks.Keys + SetOf(held) ::
      (if id in rollbacks then rollbacks[id] else 0) + if id in held then 1 else 0
  }

  function EndPass(s: System, p: Pid): System {
    s.(drainers := s.drainers[p := Idle])
  }

  function RollBack(s: System, p: Pid, held: seq<Id>): System {
    EndPass(s, p).(rollbacks := CountRollback(s.rollbacks, held))
  }

  function TreatRow(s: System, p: Pid, d: Drainer, o: Outcome): System
    requires d.Draining? && d.treated < |d.held| && d.held[d.treated] in s.rows
  {
    var id := d.held[d.treated];
    var s' := s.(log := s.log + if Reaches(o) then [Message(id, s.rows[id].event)] else []);
    if o.MarkFails? then RollBack(s', p, d.held)
    else s'.(drainers := s.drainers[p := Draining(d.held, d.treated + 1, o.Refused?)])
  }

  ghost function Step(s: System, e: Event): System {
    match e
    case Insert(p, id, event) =>
      if Taken(s, id) then s
      else s.(pending := s.pending[p := (if p in s.pending then s.pending[p] else map[])[id := event]])
    case CommitInserts(p) =>
      if p !in s.pending then s
      else s.(rows := s.rows + map id | id in s.pending[p] :: Row(s.pending[p][id], false, 0), pending := s.pending - {p})
    case AbortInserts(p) => s.(pending := s.pending - {p})
    case Claim(p, limit, ids) =>
      if (p in s.drainers ==> s.drainers[p].Idle?) && IsClaim(s, limit, ids)
      then s.(drainers := s.drainers[p := Draining(ids, 0, false)]) else s
    case Treat(p, o) =>
      if p in s.drainers && s.drainers[p].Draining? && !s.drainers[p].failed
         && s.drainers[p].treated < |s.drainers[p].held| && s.drainers[p].held[s.drainers[p].treated] in s.rows
      then TreatRow(s, p, s.drainers[p], o) else s
    case Commit(p) =>
      if p in s.drainers && s.drainers[p].Draining?
         && (s.drainers[p].failed || s.drainers[p].treated == |s.drainers[p].held|)
         && s.drainers[p].treated <= |s.drainers[p].held|
      then EndPass(s.(rows := MarkAll(s.rows, s.drainers[p])), p) else s
    case Rollback(p) =>
      if p in s.drainers && s.drainers[p].Draining? then RollBack(s, p, s.drainers[p].held) else s
  }

  ghost function Run(s: System, es: seq<Event>): System
    decreases |es|
  {
    if es == [] then s else Step(Run(s, es[..|es| - 1]), es[|es| - 1])
  }

  // ---------------------------------------------------------------------------
  // Invariants
  // ---------------------------------------------------------------------------

  ghost function Published(s: System, id: Id): nat {
    if id in s.rows then multiset(s.log)[Message(id, s.rows[id].event)] else 0
  }

  /** Some open pass has treated the row. */
  ghost predicate InTreatment(drainers: map<Pid, Drainer>, id: Id) {
    exists p, i :: p in drainers && drainers[p].Draining? && 0 <= i < drainers[p].treated <= |drainers[p].held|
                   && drainers[p].held[i] == id
  }

  ghost predicate DrainerInv(s: System, d: Drainer) {
    d.Draining? ==>
      && d.treated <= |d.held|
      && (d.failed ==> d.treated > 0)
      && Ascending(d.held)
      && (forall i :: 0 <= i < |d.held| ==> d.held[i] in s.rows && !s.rows[d.held[i]].dispatched)
      && (forall i :: 0 <= i < |d.held| && IsDispatchMark(d, i) ==> Published(s, d.held[i]) > 0)
  }

  /** No row is held by two drainers. */
  ghost predicate HeldApart(drainers: map<Pid, Drainer>) {
    forall p, q, id ::
      (p in drainers && q in drainers && drainers[p].Draining? && drainers[q].Draining?
       && id in drainers[p].held && id in drainers[q].held) ==> p == q
  }

  /** A dispatched row was published, and no row was published more often than it was dispatched, failed,
      rolled back and treated in an open pass. */
  ghost predicate RowInv(s: System, id: Id)
    requires id in s.rows
  {
    && (s.rows[id].dispatched ==> Published(s, id) > 0)
    && Published(s, id) <= (if s.rows[id].dispatched then 1 else 0) + s.rows[id].attempts + Rollbacks(s, id)
                          + (if InTreatment(s.drainers, id) then 1 else 0)
  }

  /** Only committed rows are published, with their own content. */
  ghost predicate LogInv(s: System) {
    forall i :: 0 <= i < |s.log| ==> s.log[i].id in s.rows && s.log[i].event == s.rows[s.log[i].id].event
  }

  ghost predicate PendingInv(s: System) {
    && (forall p, id :: p in s.pending && id in s.pending[p] ==> id !in s.rows)
    && (forall p, q, id :: p in s.pending && q in s.pending && id in s.pending[p] && id in s.pending[q] ==> p == q)
  }

  ghost predicate Inv(s: System) {
    && PendingInv(s)
    && LogInv(s)
    && HeldApart(s.drainers)
    && (forall p :: p in s.drainers ==> DrainerInv(s, s.drainers[p]))
    && (forall id :: id in s.rows ==> RowInv(s, id))
  }

  lemma NeverPublished(s: System, id: Id)
    requires LogInv(s) && id !in s.rows
    ensures forall event :: multiset(s.log)[Message(id, event)] == 0
  {
    forall event ensures Message(id, event) !in multiset(s.log) {
      assert Message(id, event) !in s.log;
    }
  }

  lemma PendingDoesNotMatter(s: System, s': System)
    requires s' == s.(pending := s'.pending)
    ensures LogInv(s) ==> LogInv(s')
    ensures forall d :: DrainerInv(s, d) ==> DrainerInv(s', d)
    ensures forall id :: id in s.rows && RowInv(s, id) ==> RowInv(s', id)
  {
    hide InTreatment, IsDispatchMark, Ascending;
    assert forall id :: Published(s', id) == Published(s, id);
  }

  lemma InsertsKeepInv(s: System, e: Event)
    requires Inv(s) && (e.Insert? || e.AbortInserts?)
    ensures Inv(Step(s, e))
  {
    hide LogInv, HeldApart, DrainerInv, RowInv;
    PendingDoesNotMatter(s, Step(s, e));
  }

  lemma CommitInsertsKeepsInv(s: System, e: Event)
    requires Inv(s) && e.CommitInserts?
    ensures Inv(Step(s, e))
  {
    var s' := Step(s, e);
    if s' != s {
      forall id | id in s'.rows
        ensures RowInv(s', id)
        ensures Published(s', id) == Published(s, id)
      {
        if id in s.rows {
          assert RowInv(s, id);
          assert id !in s.pending[e.producer];
        } else {
          NeverPublished(s, id);
        }
      }
      forall p | p in s'.drainers ensures DrainerInv(s', s'.drainers[p]) {
        assert DrainerInv(s, s.drainers[p]);
      }
    }
  }

  lemma ClaimKeepsInv(s: System, e: Event)
    requires Inv(s) && e.Claim?
    ensures Inv(Step(s, e))
  {
    var s' := Step(s, e);
    if s' != s {
      forall p, id | p in s.drainers && s.drainers[p].Draining? && id in s.drainers[p].held
        ensures id !in e.ids
      {
        assert Locked(s.drainers, id);
        assert !Available(s, id);
      }
      forall id ensures InTreatment(s'.drainers, id) <==> InTreatment(s.drainers, id) {
        if InTreatment(s.drainers, id) {
          var p, i :| p in s.drainers && s.drainers[p].Draining? && 0 <= i < s.drainers[p].treated <= |s.drainers[p].held|
                      && s.drainers[p].held[i] == id;
          assert p in s'.drainers && s'.drainers[p] == s.drainers[p];
        }
      }
      forall id | id in s'.rows ensures RowInv(s', id) {
        assert RowInv(s, id);
        assert Published(s', id) == Published(s, id);
      }
      forall p | p in s'.drainers ensures DrainerInv(s', s'.drainers[p]) {
        if p == e.drainer {
          forall i | 0 <= i < |e.ids| ensures e.ids[i] in s.rows && !s.rows[e.ids[i]].dispatched {
            assert Available(s, e.ids[i]);
          }
        } else {
          assert DrainerInv(s, s.drainers[p]);
          forall id ensures Published(s', id) == Published(s, id) {
          }
        }
      }
    }
  }

  /** Leaving a pass whose treated rows are accounted for elsewhere. */
  lemma TreatmentEnds(drainers: map<Pid, Drainer>, p: Pid, id: Id)
    requires p in drainers && drainers[p].Draining? && HeldApart(drainers)
    ensures InTreatment(drainers[p := Idle], id) ==> InTreatment(drainers, id)
    ensures InTreatment(drainers, id) && id !in drainers[p].held ==> InTreatment(drainers[p := Idle], id)
    ensures id in drainers[p].held ==> !InTreatment(drainers[p := Idle], id)
    ensures drainers[p].treated <= |drainers[p].held| && InTreatment(drainers, id) && id in drainers[p].held ==>
              id in drainers[p].held[..drainers[p].treated]
  {
    var after := drainers[p := Idle];
    if InTreatment(after, id) {
      var q, i :| q in after && after[q].Draining? && 0 <= i < after[q].treated <= |after[q].held| && after[q].held[i] == id;
      assert drainers[q] == after[q];
      assert id in drainers[q].held;
    }
    if InTreatment(drainers, id) {
      var q, i :| q in drainers && drainers[q].Draining? && 0 <= i < drainers[q].treated <= |drainers[q].held|
                  && drainers[q].held[i] == id;
      assert id in drainers[q].held;
      if q != p {
        assert after[q] == drainers[q];
      } else {
        assert drainers[p].held[..drainers[p].treated][i] == id;
      }
    }
  }

  lemma RollBackKeepsInv(s: System, p: Pid)
    requires Inv(s) && p in s.drainers && s.drainers[p].Draining?
    ensures Inv(RollBack(s, p, s.drainers[p].held))
  {
    var d := s.drainers[p];
    var s' := RollBack(s, p, d.held);
    forall id | id in s'.rows ensures RowInv(s', id) {
      assert RowInv(s, id);
      TreatmentEnds(s.drainers, p, id);
      assert Published(s', id) == Published(s, id);
      assert Rollbacks(s', id) == Rollbacks(s, id) + if id in d.held then 1 else 0;
    }
    forall q | q in s'.drainers ensures DrainerInv(s', s'.drainers[q]) {
      assert DrainerInv(s, s.drainers[q]);
      forall id ensures Published(s', id) == Published(s, id) {
      }
    }
  }

  lemma MarkedMeans(s: System, d: Drainer, id: Id)
    requires DrainerInv(s, d) && d.Draining? && id in s.rows
    ensures var r, r' := s.rows[id], Marked(s.rows[id], id, d);
            && r'.event == r.event
            && (id !in d.held[..d.treated] ==> r' == r)
            && (id in d.held[..d.treated] ==>
                  || (r' == r.(dispatched := true) && !r.dispatched && Published(s, id) > 0)
                  || r' == r.(attempts := r.attempts + 1))
  {
    if id in d.held[..d.treated] {
      var i :| 0 <= i < d.treated && d.held[..d.treated][i] == id;
      assert IsDispatchMark(d, i) || d.failed;
    } else if d.treated > 0 {
      assert d.held[..d.treated][d.treated - 1] == d.held[d.treated - 1];
    }
  }

  lemma CommittedRows(s: System, s': System, p: Pid, id: Id)
    requires p in s.drainers && s.drainers[p].Draining? && HeldApart(s.drainers)
    requires DrainerInv(s, s.drainers[p]) && id in s.rows && RowInv(s, id)
    requires s'.drainers == s.drainers[p := Idle] && s'.rows == MarkAll(s.rows, s.drainers[p])
    requires s'.log == s.log && s'.rollbacks == s.rollbacks
    ensures RowInv(s', id) && Published(s', id) == Published(s, id)
  {
    MarkedMeans(s, s.drainers[p], id);
    TreatmentEnds(s.drainers, p, id);
    assert s'.rows[id] == Marked(s.rows[id], id, s.drainers[p]);
    hide DrainerInv, Marked, InTreatment;
  }

  lemma KeepsLog(s: System, s': System, d: Drainer)
    requires LogInv(s) && PendingInv(s) && DrainerInv(s, d) && d.Draining?
    requires s'.rows == MarkAll(s.rows, d) && s'.log == s.log && s'.pending == s.pending
    ensures LogInv(s') && PendingInv(s')
  {
    forall id | id in s.rows ensures s'.rows[id].event == s.rows[id].event {
      MarkedMeans(s, d, id);
    }
  }

  lemma OtherPassesStay(s: System, s': System, p: Pid, q: Pid)
    requires p in s.drainers && q in s.drainers && s.drainers[p].Draining? && HeldApart(s.drainers)
    requires DrainerInv(s, s.drainers[p]) && DrainerInv(s, s.drainers[q])
    requires s'.drainers == s.drainers[p := Idle] && s'.rows == MarkAll(s.rows, s.drainers[p])
    requires forall id :: id in s.rows ==> Published(s', id) == Published(s, id)
    ensures DrainerInv(s', s'.drainers[q])
  {
    if q != p && s.drainers[q].Draining? {
      var d, held := s.drainers[p], s.drainers[q].held;
      forall i | 0 <= i < |held| ensures s'.rows[held[i]] == s.rows[held[i]] {
        assert held[i] in held;
        assert held[i] !in d.held;
        MarkedMeans(s, d, held[i]);
      }
    }
  }

  lemma CommitKeepsInv(s: System, e: Event)
    requires Inv(s) && e.Commit?
    ensures Inv(Step(s, e))
  {
    var s' := Step(s, e);
    if s' != s {
      hide RowInv, Marked, DrainerInv;
      forall id | id in s'.rows ensures RowInv(s', id) && Published(s', id) == Published(s, id) {
        CommittedRows(s, s', e.drainer, id);
      }
      forall p | p in s'.drainers ensures DrainerInv(s', s'.drainers[p]) {
        OtherPassesStay(s, s', e.drainer, p);
      }
      KeepsLog(s, s', s.drainers[e.drainer]);
    }
  }

  lemma NotYetTreated(drainers: map<Pid, Drainer>, p: Pid)
    requires HeldApart(drainers) && p in drainers && drainers[p].Draining? && Ascending(drainers[p].held)
    requires drainers[p].treated < |drainers[p].held|
    ensures !InTreatment(drainers, drainers[p].held[drainers[p].treated])
  {
    var id := drainers[p].held[drainers[p].treated];
    assert id in drainers[p].held;
    forall q, i | q in drainers && drainers[q].Draining? && 0 <= i < drainers[q].treated <= |drainers[q].held|
      ensures drainers[q].held[i] != id
    {
      assert drainers[q].held[i] in drainers[q].held;
    }
  }

  lemma TreatmentGoesOn(drainers: map<Pid, Drainer>, p: Pid, d': Drainer, id: Id)
    requires p in drainers && drainers[p].Draining? && d'.Draining? && d'.held == drainers[p].held
    requires d'.treated >= drainers[p].treated && d'.treated <= |d'.held|
    ensures InTreatment(drainers, id) ==> InTreatment(drainers[p := d'], id)
  {
    if InTreatment(drainers, id) {
      var q, i :| q in drainers && drainers[q].Draining? && 0 <= i < drainers[q].treated <= |drainers[q].held|
                  && drainers[q].held[i] == id;
      assert drainers[p := d'][q].held[i] == id;
    }
  }

  lemma TreatedRow(s: System, p: Pid, o: Outcome, id: Id)
    requires Inv(s) && p in s.drainers && s.drainers[p].Draining? && !s.drainers[p].failed
    requires s.drainers[p].treated < |s.drainers[p].held| && s.drainers[p].held[s.drainers[p].treated] in s.rows
    requires !o.MarkFails? && id in s.rows
    ensures var s' := TreatRow(s, p, s.drainers[p], o);
            && RowInv(s', id)
            && Published(s', id)
               == Published(s, id) + if id == s.drainers[p].held[s.drainers[p].treated] && Reaches(o) then 1 else 0
  {
    var d := s.drainers[p];
    var s' := TreatRow(s, p, d, o);
    assert DrainerInv(s, d) && RowInv(s, id);
    NotYetTreated(s.drainers, p);
    TreatmentGoesOn(s.drainers, p, s'.drainers[p], id);
    if id == d.held[d.treated] {
      assert s'.drainers[p].held[d.treated] == id;
      assert InTreatment(s'.drainers, id);
    }
    hide InTreatment, DrainerInv;
  }

  lemma TreatKeepsInv(s: System, p: Pid, o: Outcome)
    requires Inv(s) && p in s.drainers && s.drainers[p].Draining? && !s.drainers[p].failed
    requires s.drainers[p].treated < |s.drainers[p].held| && s.drainers[p].held[s.drainers[p].treated] in s.rows
    requires !o.MarkFails?
    ensures Inv(TreatRow(s, p, s.drainers[p], o))
  {
    hide RowInv, Published;
    var d := s.drainers[p];
    var s' := TreatRow(s, p, d, o);
    forall id | id in s'.rows ensures RowInv(s', id) && Published(s', id) >= Published(s, id) {
      TreatedRow(s, p, o, id);
    }
    forall q | q in s'.drainers ensures DrainerInv(s', s'.drainers[q]) {
      assert DrainerInv(s, s.drainers[q]);
      if q == p {
        TreatedRow(s, p, o, d.held[d.treated]);
        forall i | 0 <= i < |d.held| && IsDispatchMark(s'.drainers[p], i) ensures Published(s', d.held[i]) > 0 {
          assert i < d.treated ==> IsDispatchMark(d, i);
        }
      }
    }
  }

  lemma FailedMarkIsRolledBackRefusal(s: System, p: Pid, reached: bool)
    requires p in s.drainers && s.drainers[p].Draining?
    requires s.drainers[p].treated < |s.drainers[p].held| && s.drainers[p].held[s.drainers[p].treated] in s.rows
    ensures TreatRow(s, p, s.drainers[p], MarkFails(reached))
            == RollBack(TreatRow(s, p, s.drainers[p], Refused(reached)), p, s.drainers[p].held)
  {
    var s1 := TreatRow(s, p, s.drainers[p], Refused(reached));
    assert s1.drainers[p := Idle] == s.drainers[p := Idle];
  }

  lemma TreatStepKeepsInv(s: System, p: Pid, o: Outcome)
    requires Inv(s)
    ensures Inv(Step(s, Treat(p, o)))
  {
    if p in s.drainers && s.drainers[p].Draining? && !s.drainers[p].failed
       && s.drainers[p].treated < |s.drainers[p].held| && s.drainers[p].held[s.drainers[p].treated] in s.rows {
      hide Inv, RollBack;
      if o.MarkFails? {
        FailedMarkIsRolledBackRefusal(s, p, o.reached);
        TreatKeepsInv(s, p, Refused(o.reached));
        RollBackKeepsInv(TreatRow(s, p, s.drainers[p], Refused(o.reached)), p);
      } else {
        TreatKeepsInv(s, p, o);
      }
    }
  }

  /** A pass whose mark fails rolls back like one that had treated the row. */
  lemma StepKeepsInv(s: System, e: Event)
    requires Inv(s)
    ensures Inv(Step(s, e))
  {
    match e
    case Insert(_, _, _) => InsertsKeepInv(s, e);
    case AbortInserts(_) => InsertsKeepInv(s, e);
    case CommitInserts(_) => CommitInsertsKeepsInv(s, e);
    case Claim(_, _, _) => ClaimKeepsInv(s, e);
    case Commit(_) => CommitKeepsInv(s, e);
    case Rollback(p) => if p in s.drainers && s.drainers[p].Draining? { RollBackKeepsInv(s, p); }
    case Treat(p, o) => TreatStepKeepsInv(s, p, o);
  }

  lemma {:induction false} RunKeepsInv(s: System, es: seq<Event>)
    requires Inv(s)
    ensures Inv(Run(s, es))
    decreases |es|
  {
    if es != [] {
      RunKeepsInv(s, es[..|es| - 1]);
      StepKeepsInv(Run(s, es[..|es| - 1]), es[|es| - 1]);
    }
  }

  lemma DispatchedIsNotInTreatment(s: System, id: Id)
    requires Inv(s) && id in s.rows && s.rows[id].dispatched
    ensures !InTreatment(s.drainers, id)
  {
    forall p | p in s.drainers && s.drainers[p].Draining? ensures id !in s.drainers[p].held {
      assert DrainerInv(s, s.drainers[p]);
    }
  }

  /** For every interleaving of producers and drainers, with refusals, rollbacks and crashes anywhere: no row
      is held by two drainers; a committed dispatched row reached the broker; only committed rows did, with
      their own content; and a row reached it at most once more than its failed attempts and the passes
      holding it that rolled back. */
  lemma AtLeastOnceWithBoundedDuplicates(es: seq<Event>, id: Id)
    ensures var s := Run(EMPTY, es);
            && HeldApart(s.drainers)
            && LogInv(s)
            && (id in s.rows && s.rows[id].dispatched ==> Published(s, id) >= 1)
            && (id in s.rows ==> Published(s, id) <= 1 + s.rows[id].attempts + Rollbacks(s, id))
  {
    RunKeepsInv(EMPTY, es);
    var s := Run(EMPTY, es);
    if id in s.rows {
      assert RowInv(s, id);
      if s.rows[id].dispatched {
        DispatchedIsNotInTreatment(s, id);
      }
    }
  }

  lemma StepKeepsRow(s: System, e: Event, id: Id)
    requires PendingInv(s) && id in s.rows
    ensures id in Step(s, e).rows && Step(s, e).rows[id].event == s.rows[id].event
    ensures s.rows[id].dispatched ==> Step(s, e).rows[id].dispatched
  {
    hide IsClaim;
    if e.CommitInserts? && e.producer in s.pending {
      assert id !in s.pending[e.producer];
    }
  }

  /** A committed event is never lost: its row stays with its content, and stays claimable until it was
      published and marked. */
  lemma {:induction false} CommittedRowsStay(s: System, es: seq<Event>, id: Id)
    requires Inv(s) && id in s.rows
    ensures id in Run(s, es).rows && Run(s, es).rows[id].event == s.rows[id].event
    ensures s.rows[id].dispatched ==> Run(s, es).rows[id].dispatched
    decreases |es|
  {
    if es != [] {
      var s1, e := Run(s, es[..|es| - 1]), es[|es| - 1];
      CommittedRowsStay(s, es[..|es| - 1], id);
      RunKeepsInv(s, es[..|es| - 1]);
      StepKeepsRow(s1, e, id);
    }
  }

  // ---------------------------------------------------------------------------
  // Draining a backlog
  // ---------------------------------------------------------------------------

  /** All undispatched rows, in id order. */
  ghost predicate IsBacklog(rows: map<Id, Row>, ids: seq<Id>) {
    && Ascending(ids)
    && forall id :: id in ids <==> id in rows && !rows[id].dispatched
  }

  ghost predicate NobodyDrains(s: System) {
    forall p :: p in s.drainers ==> s.drainers[p].Idle?
  }

  function Messages(rows: map<Id, Row>, ids: seq<Id>): seq<Message>
    requires forall i :: 0 <= i < |ids| ==> ids[i] in rows
  {
    seq(|ids|, i requires 0 <= i < |ids| => Message(ids[i], rows[ids[i]].event))
  }

  function Dispatched(rows: map<Id, Row>, ids: seq<Id>): map<Id, Row> {
    map id | id in rows :: if id in ids then rows[id].(dispatched := true) else rows[id]
  }

  /** Position of the first row whose publish or mark does not go through. */
  function Halt(batch: seq<Id>, fate: Id -> Outcome): (h: nat)
    ensures h <= |batch|
    ensures forall i :: 0 <= i < h ==> fate(batch[i]).Delivered?
    ensures h < |batch| ==> !fate(batch[h]).Delivered?
  {
    if batch == [] || !fate(batch[0]).Delivered? then 0 else 1 + Halt(batch[1..], fate)
  }

  /** The events of a pass over `batch`. */
  function PassEvents(p: Pid, limit: nat, batch: seq<Id>, fate: Id -> Outcome): seq<Event> {
    var h := Halt(batch, fate);
    var treated := [Claim(p, limit, batch)] + seq(h, _ => Treat(p, Delivered));
    if h == |batch| then treated + [Commit(p)]
    else if fate(batch[h]).MarkFails? then treated + [Treat(p, fate(batch[h]))]
    else treated + [Treat(p, fate(batch[h])), Commit(p)]
  }

  /** A pass that locks `batch` and in which every row is published and marked. */
  function HealthyPass(p: Pid, limit: nat, batch: seq<Id>): seq<Event> {
    PassEvents(p, limit, batch, _ => Delivered)
  }

  lemma {:induction false} AscendingUnique(a: seq<Id>, b: seq<Id>)
    requires Ascending(a) && Ascending(b) && forall id :: id in a <==> id in b
    ensures a == b
  {
    if a != [] && b != [] {
      assert a[0] in b && b[0] in a;
      assert a[0] == b[0];
      forall id ensures id in a[1..] <==> id in b[1..] {
        assert id in a <==> id == a[0] || id in a[1..];
        assert id in b <==> id == b[0] || id in b[1..];
      }
      AscendingUnique(a[1..], b[1..]);
      assert a == [a[0]] + a[1..] && b == [b[0]] + b[1..];
    }
    var x, y := if a != [] then a[0] else 0, if b != [] then b[0] else 0;
    assert (x in a <==> x in b) && (y in a <==> y in b);
  }

  lemma {:induction false} FilterKeepsOrder(ids: seq<Id>, keep: Id -> bool)
    requires Ascending(ids)
    ensures Ascending(Filter(ids, keep))
  {
    if ids != [] {
      FilterKeepsOrder(ids[1..], keep);
      var f, r := Filter(ids, keep), Filter(ids[1..], keep);
      forall i, j | 0 <= i < j < |f| ensures f[i] < f[j] {
        if keep(ids[0]) {
          assert r[j - 1] in r;
          assert r[j - 1] in ids[1..];
          assert i > 0 ==> r[i - 1] < r[j - 1];
        }
      }
    }
  }

  lemma ClaimTakesTheOldest(s: System, limit: nat, batch: seq<Id>, ids: seq<Id>)
    requires NobodyDrains(s) && IsBacklog(s.rows, ids) && IsClaim(s, limit, batch)
    ensures batch == Take(ids, limit)
  {
    forall id ensures Available(s, id) <==> id in ids {
      assert !Locked(s.drainers, id);
    }
    var n := |batch|;
    var isLeft := (id: Id) => id !in batch;
    var rest := Filter(ids, isLeft);
    FilterKeepsOrder(ids, isLeft);
    var all := batch + rest;
    forall id ensures id in all <==> id in ids {
      if id in batch {
        var i :| 0 <= i < |batch| && batch[i] == id;
        assert Available(s, batch[i]);
      }
    }
    forall i, j | 0 <= i < j < |all| ensures all[i] < all[j] {
      if j < n {
        assert batch[i] < batch[j];
      } else if i < n {
        assert rest[j - n] in rest;
        assert Available(s, rest[j - n]);
      } else {
        assert rest[i - n] < rest[j - n];
      }
    }
    AscendingUnique(all, ids);
    if rest != [] {
      assert rest[0] in rest;
      assert Available(s, rest[0]);
    }
  }

  lemma TheOldestAreAClaim(s: System, limit: nat, ids: seq<Id>)
    requires NobodyDrains(s) && IsBacklog(s.rows, ids)
    ensures IsClaim(s, limit, Take(ids, limit))
  {
    var batch := Take(ids, limit);
    forall id ensures Available(s, id) <==> id in ids {
      assert !Locked(s.drainers, id);
    }
    forall i | 0 <= i < |batch| ensures Available(s, batch[i]) {
      assert batch[i] == ids[i] && ids[i] in ids;
    }
    forall id | id in ids && id !in batch ensures |batch| == limit && forall i :: 0 <= i < |batch| ==> batch[i] < id {
      assert ids == batch + ids[|batch|..];
      var j :| 0 <= j < |ids| - |batch| && ids[|batch|..][j] == id;
      assert ids[|batch| + j] == id;
    }
  }

  lemma {:induction false} RunConcat(s: System, a: seq<Event>, b: seq<Event>)
    ensures Run(s, a + b) == Run(Run(s, a), b)
    decreases |b|
  {
    if b == [] {
      assert a + b == a;
    } else {
      RunConcat(s, a, b[..|b| - 1]);
      assert (a + b)[..|a + b| - 1] == a + b[..|b| - 1];
    }
  }

  lemma RunSnoc(s: System, a: seq<Event>, e: Event)
    ensures Run(s, a + [e]) == Step(Run(s, a), e)
  {
    assert (a + [e])[..|a|] == a;
  }

  /** What a pass has published and holds after treating `k` rows without a refusal. */
  function Midway(s: System, p: Pid, batch: seq<Id>, k: nat): System
    requires k <= |batch| && forall i :: 0 <= i < |batch| ==> batch[i] in s.rows
  {
    s.(drainers := s.drainers[p := Draining(batch, k, false)], log := s.log + Messages(s.rows, batch[..k]))
  }

  lemma MidwayStep(s: System, p: Pid, batch: seq<Id>, k: nat)
    requires k < |batch| && forall i :: 0 <= i < |batch| ==> batch[i] in s.rows
    ensures Step(Midway(s, p, batch, k), Treat(p, Delivered)) == Midway(s, p, batch, k + 1)
  {
    assert Messages(s.rows, batch[..k + 1]) == Messages(s.rows, batch[..k]) + [Message(batch[k], s.rows[batch[k]].event)];
    assert s.drainers[p := Draining(batch, k, false)][p := Draining(batch, k + 1, false)]
        == s.drainers[p := Draining(batch, k + 1, false)];
  }

  lemma {:induction false} TreatsPublish(s: System, p: Pid, batch: seq<Id>, k: nat)
    requires k <= |batch| && forall i :: 0 <= i < |batch| ==> batch[i] in s.rows
    ensures Run(Midway(s, p, batch, 0), seq(k, _ => Treat(p, Delivered))) == Midway(s, p, batch, k)
  {
    if k > 0 {
      TreatsPublish(s, p, batch, k - 1);
      RunSnoc(Midway(s, p, batch, 0), seq(k - 1, _ => Treat(p, Delivered)), Treat(p, Delivered));
      assert seq(k, _ => Treat(p, Delivered)) == seq(k - 1, _ => Treat(p, Delivered)) + [Treat(p, Delivered)];
      MidwayStep(s, p, batch, k - 1);
    }
  }

  /** What the broker has seen after a pass over `batch`. */
  function PassLog(rows: map<Id, Row>, log: seq<Message>, batch: seq<Id>, fate: Id -> Outcome): seq<Message>
    requires forall i :: 0 <= i < |batch| ==> batch[i] in rows
  {
    var h := Halt(batch, fate);
    log + Messages(rows, batch[..h])
        + if h < |batch| && Reaches(fate(batch[h])) then [Message(batch[h], rows[batch[h]].event)] else []
  }

  /** The rows a pass over `batch` commits. */
  function PassRows(rows: map<Id, Row>, batch: seq<Id>, fate: Id -> Outcome): map<Id, Row> {
    var h := Halt(batch, fate);
    var marked := Dispatched(rows, batch[..h]);
    if h == |batch| || batch[h] !in marked then marked
    else if fate(batch[h]).MarkFails? then rows
    else marked[batch[h] := marked[batch[h]].(attempts := marked[batch[h]].attempts + 1)]
  }

  /** The state a pass over `batch` leaves. */
  function AfterPass(s: System, p: Pid, batch: seq<Id>, fate: Id -> Outcome): System
    requires forall i :: 0 <= i < |batch| ==> batch[i] in s.rows
  {
    var h := Halt(batch, fate);
    System(PassRows(s.rows, batch, fate), s.pending, s.drainers[p := Idle], PassLog(s.rows, s.log, batch, fate),
           if h < |batch| && fate(batch[h]).MarkFails? then CountRollback(s.rollbacks, batch) else s.rollbacks)
  }

  lemma DispatchedNext(rows: map<Id, Row>, batch: seq<Id>, k: nat)
    requires k < |batch| && batch[k] in rows
    requires Ascending(batch)
    ensures batch[k] in Dispatched(rows, batch[..k]) && Dispatched(rows, batch[..k])[batch[k]] == rows[batch[k]]
    ensures Dispatched(rows, batch[..k + 1]) == Dispatched(rows, batch[..k])[batch[k] := rows[batch[k]].(dispatched := true)]
  {
    assert batch[k] !in batch[..k];
    assert batch[..k + 1] == batch[..k] + [batch[k]];
  }

  /** `AfterPass` in the three cases, with the last row's outcome spelled out. */
  lemma PassCases(s: System, p: Pid, batch: seq<Id>, fate: Id -> Outcome)
    requires Ascending(batch) && forall i :: 0 <= i < |batch| ==> batch[i] in s.rows
    ensures var h := Halt(batch, fate);
            var marked, log := Dispatched(s.rows, batch[..h]), s.log + Messages(s.rows, batch[..h]);
            var s' := AfterPass(s, p, batch, fate);
            && s'.pending == s.pending && s'.drainers == s.drainers[p := Idle]
            && (h < |batch| ==> batch[h] in marked && marked[batch[h]] == s.rows[batch[h]])
            && (h == |batch| ==> s'.rows == marked && s'.log == log && s'.rollbacks == s.rollbacks)
            && (h < |batch| ==>
                  && s'.log == log + (if Reaches(fate(batch[h])) then [Message(batch[h], s.rows[batch[h]].event)] else [])
                  && (fate(batch[h]).Refused? ==>
                        && s'.rows == marked[batch[h] := s.rows[batch[h]].(attempts := s.rows[batch[h]].attempts + 1)]
                        && s'.rollbacks == s.rollbacks)
                  && (fate(batch[h]).MarkFails? ==> s'.rows == s.rows && s'.rollbacks == CountRollback(s.rollbacks, batch)))
  {
    hide Messages, Dispatched, CountRollback, Ascending, Halt;
    var h := Halt(batch, fate);
    if h < |batch| {
      DispatchedNext(s.rows, batch, h);
    }
  }

  /** The pass stopped at the row at `h`, or treated all. */
  ghost predicate StopsAt(batch: seq<Id>, fate: Id -> Outcome, h: nat) {
    h <= |batch| && (forall i :: 0 <= i < h ==> fate(batch[i]).Delivered?) && (h < |batch| ==> !fate(batch[h]).Delivered?)
  }

  /** What a pass that stops at `h` publishes: the rows before it in order, and the one at `h` if it reached the broker. */
  ghost predicate PublishedTo(rows: map<Id, Row>, log: seq<Message>, log': seq<Message>, batch: seq<Id>,
                              fate: Id -> Outcome, h: nat)
    requires h <= |batch| && forall i :: 0 <= i < |batch| ==> batch[i] in rows
  {
    && |log'| == |log| + h + (if h < |batch| && !fate(batch[h]).Delivered? && fate(batch[h]).reached then 1 else 0)
    && log'[..|log|] == log
    && forall i :: 0 <= i < |log'| - |log| ==>
         i < |batch| && log'[|log| + i] == Message(batch[i], rows[batch[i]].event)
  }

  /** What it makes of the rows: those before `h` are dispatched, the one at `h` keeps a failed attempt; when its mark fails no
      row changes. */
  ghost predicate MarkedTo(rows: map<Id, Row>, rows': map<Id, Row>, batch: seq<Id>, fate: Id -> Outcome, h: nat)
    requires h <= |batch|
  {
    && rows'.Keys == rows.Keys
    && forall id :: id in rows ==>
         rows'[id] == if h < |batch| && fate(batch[h]).MarkFails? then rows[id]
                      else if id in batch[..h] then rows[id].(dispatched := true)
                      else if h < |batch| && id == batch[h] then rows[id].(attempts := rows[id].attempts + 1)
                      else rows[id]
  }

  lemma AfterPassIs(s: System, p: Pid, batch: seq<Id>, fate: Id -> Outcome)
    requires forall i :: 0 <= i < |batch| ==> batch[i] in s.rows
    ensures AfterPass(s, p, batch, fate).rows == PassRows(s.rows, batch, fate)
    ensures AfterPass(s, p, batch, fate).log == PassLog(s.rows, s.log, batch, fate)
  {
    hide PassRows, PassLog, CountRollback, Halt;
  }

  lemma HaltStops(batch: seq<Id>, fate: Id -> Outcome)
    ensures StopsAt(batch, fate, Halt(batch, fate))
  {
  }

  lemma ListsBatch(rows: map<Id, Row>, log: seq<Message>, batch: seq<Id>, fate: Id -> Outcome, h: nat, last: seq<Message>)
    requires h <= |batch| && forall i :: 0 <= i < |batch| ==> batch[i] in rows
    requires last == if h < |batch| && Reaches(fate(batch[h])) then [Message(batch[h], rows[batch[h]].event)] else []
    requires StopsAt(batch, fate, h)
    ensures PublishedTo(rows, log, log + Messages(rows, batch[..h]) + last, batch, fate, h)
  {
  }

  lemma PassIsPublished(rows: map<Id, Row>, log: seq<Message>, batch: seq<Id>, fate: Id -> Outcome)
    requires forall i :: 0 <= i < |batch| ==> batch[i] in rows
    ensures var h := Halt(batch, fate);
            StopsAt(batch, fate, h) && PublishedTo(rows, log, PassLog(rows, log, batch, fate), batch, fate, h)
  {
    HaltStops(batch, fate);
    var h := Halt(batch, fate);
    hide Halt, Messages, StopsAt, PublishedTo, Reaches;
    ListsBatch(rows, log, batch, fate, h,
               if h < |batch| && Reaches(fate(batch[h])) then [Message(batch[h], rows[batch[h]].event)] else []);
  }

  lemma AllMarked(rows: map<Id, Row>, batch: seq<Id>, fate: Id -> Outcome, h: nat)
    requires h == |batch|
    ensures MarkedTo(rows, Dispatched(rows, batch[..h]), batch, fate, h)
  {
  }

  lemma MarkedButOne(rows: map<Id, Row>, batch: seq<Id>, fate: Id -> Outcome, h: nat)
    requires h < |batch| && Ascending(batch) && batch[h] in rows && fate(batch[h]).Refused?
    ensures batch[h] in Dispatched(rows, batch[..h])
    ensures var marked := Dispatched(rows, batch[..h]);
            var last := marked[batch[h]];
            MarkedTo(rows, marked[batch[h] := last.(attempts := last.attempts + 1)], batch, fate, h)
  {
    DispatchedNext(rows, batch, h);
    assert batch[h] !in batch[..h];
    hide Ascending;
  }

  lemma NoneMarked(rows: map<Id, Row>, batch: seq<Id>, fate: Id -> Outcome, h: nat)
    requires h < |batch| && fate(batch[h]).MarkFails?
    ensures MarkedTo(rows, rows, batch, fate, h)
  {
  }

  lemma PassIsMarked(rows: map<Id, Row>, batch: seq<Id>, fate: Id -> Outcome)
    requires Ascending(batch) && forall i :: 0 <= i < |batch| ==> batch[i] in rows
    ensures MarkedTo(rows, PassRows(rows, batch, fate), batch, fate, Halt(batch, fate))
  {
    HaltStops(batch, fate);
    var h := Halt(batch, fate);
    hide Halt, Ascending, MarkedTo, Dispatched;
    if h == |batch| {
      AllMarked(rows, batch, fate, h);
    } else if fate(batch[h]).MarkFails? {
      NoneMarked(rows, batch, fate, h);
      DispatchedNext(rows, batch, h);
    } else {
      MarkedButOne(rows, batch, fate, h);
    }
  }

  lemma HaltIs(batch: seq<Id>, fate: Id -> Outcome, k: nat)
    requires k <= Halt(batch, fate)
    ensures k < |batch| ==> (fate(batch[k]).Delivered? <==> k < Halt(batch, fate))
  {
  }

  lemma ClaimedRows(s: System, limit: nat, batch: seq<Id>)
    requires IsClaim(s, limit, batch)
    ensures forall i :: 0 <= i < |batch| ==> batch[i] in s.rows
    ensures Ascending(batch)
  {
    hide Ascending, Locked;
    forall i | 0 <= i < |batch| ensures batch[i] in s.rows {
      assert Available(s, batch[i]);
    }
  }

  lemma NothingTreated(rows: map<Id, Row>, batch: seq<Id>)
    requires forall i :: 0 <= i < |batch| ==> batch[i] in rows
    ensures Dispatched(rows, batch[..0]) == rows && Messages(rows, batch[..0]) == []
  {
  }

  lemma BatchIsThere(s: System, p: Pid, limit: nat, batch: seq<Id>)
    requires IsClaim(s, limit, batch) && (p in s.drainers ==> s.drainers[p].Idle?)
    ensures forall i :: 0 <= i < |batch| ==> batch[i] in s.rows
    ensures Ascending(batch)
    ensures s.(drainers := s.drainers[p := Draining(batch, 0, false)]) == Midway(s, p, batch, 0)
    ensures Run(s, [Claim(p, limit, batch)]) == Midway(s, p, batch, 0)
  {
    hide IsClaim, Ascending, Messages;
    ClaimedRows(s, limit, batch);
    NothingTreated(s.rows, batch);
    RunSnoc(s, [], Claim(p, limit, batch));
    assert [] + [Claim(p, limit, batch)] == [Claim(p, limit, batch)];
    assert s.log + [] == s.log;
  }

  lemma MidwayCommits(s: System, p: Pid, batch: seq<Id>)
    requires forall i :: 0 <= i < |batch| ==> batch[i] in s.rows
    ensures Step(Midway(s, p, batch, |batch|), Commit(p))
            == s.(drainers := s.drainers[p := Idle],
                  rows := Dispatched(s.rows, batch),
                  log := s.log + Messages(s.rows, batch))
  {
    hide Messages;
    assert batch[..|batch|] == batch;
    assert MarkAll(s.rows, Draining(batch, |batch|, false)) == Dispatched(s.rows, batch);
    assert s.drainers[p := Draining(batch, |batch|, false)][p := Idle] == s.drainers[p := Idle];
  }

  lemma CleanPassEnds(s: System, p: Pid, batch: seq<Id>, fate: Id -> Outcome)
    requires Ascending(batch) && forall i :: 0 <= i < |batch| ==> batch[i] in s.rows
    requires Halt(batch, fate) == |batch|
    ensures Step(Midway(s, p, batch, |batch|), Commit(p)) == AfterPass(s, p, batch, fate)
  {
    hide Step, Messages, Dispatched, AfterPass, CountRollback, Midway;
    MidwayCommits(s, p, batch);
    assert batch[..|batch|] == batch;
    PassCases(s, p, batch, fate);
  }

  lemma RefusedMarks(rows: map<Id, Row>, batch: seq<Id>, h: nat)
    requires Ascending(batch) && h < |batch| && batch[h] in rows
    ensures MarkAll(rows, Draining(batch, h + 1, true))
            == Dispatched(rows, batch[..h])[batch[h] := rows[batch[h]].(attempts := rows[batch[h]].attempts + 1)]
  {
    assert batch[..h + 1] == batch[..h] + [batch[h]];
    assert batch[h] !in batch[..h];
  }

  lemma RefusedPassEnds(s: System, p: Pid, batch: seq<Id>, fate: Id -> Outcome)
    requires Ascending(batch) && forall i :: 0 <= i < |batch| ==> batch[i] in s.rows
    requires var h := Halt(batch, fate); h < |batch| && fate(batch[h]).Refused?
    ensures var h := Halt(batch, fate);
            Step(Step(Midway(s, p, batch, h), Treat(p, fate(batch[h]))), Commit(p)) == AfterPass(s, p, batch, fate)
  {
    hide Messages, Halt, AfterPass, IsClaim, Dispatched, MarkAll, CountRollback, Ascending;
    var h := Halt(batch, fate);
    var s1 := Step(Midway(s, p, batch, h), Treat(p, fate(batch[h])));
    var d := Draining(batch, h + 1, true);
    assert s.drainers[p := Draining(batch, h, false)][p := d] == s.drainers[p := d];
    assert s1.drainers == s.drainers[p := d];
    RefusedMarks(s.rows, batch, h);
    PassCases(s, p, batch, fate);
    assert s.drainers[p := d][p := Idle] == s.drainers[p := Idle];
  }

  lemma FailedPassEnds(s: System, p: Pid, batch: seq<Id>, fate: Id -> Outcome)
    requires Ascending(batch) && forall i :: 0 <= i < |batch| ==> batch[i] in s.rows
    requires var h := Halt(batch, fate); h < |batch| && fate(batch[h]).MarkFails?
    ensures var h := Halt(batch, fate);
            Step(Midway(s, p, batch, h), Treat(p, fate(batch[h]))) == AfterPass(s, p, batch, fate)
  {
    hide Messages, Halt, AfterPass, IsClaim, Dispatched, Ascending, CountRollback;
    var h := Halt(batch, fate);
    PassCases(s, p, batch, fate);
    assert s.drainers[p := Draining(batch, h, false)][p := Idle] == s.drainers[p := Idle];
  }

  /** What one uninterrupted pass leaves is what the machine of interleaved steps leaves, so the guarantees over
      all runs hold of every pass. */
  lemma PassIsARun(s: System, p: Pid, limit: nat, batch: seq<Id>, fate: Id -> Outcome)
    requires IsClaim(s, limit, batch) && (p in s.drainers ==> s.drainers[p].Idle?)
    ensures Ascending(batch) && forall i :: 0 <= i < |batch| ==> batch[i] in s.rows
    ensures Run(s, PassEvents(p, limit, batch, fate)) == AfterPass(s, p, batch, fate)
  {
    hide Step, AfterPass, Dispatched, Messages, CountRollback, IsClaim, Ascending, Halt, Run, Midway;
    var h := Halt(batch, fate);
    var claim, treats := [Claim(p, limit, batch)], seq(h, _ => Treat(p, Delivered));
    BatchIsThere(s, p, limit, batch);
    TreatsPublish(s, p, batch, h);
    RunConcat(s, claim, treats);
    HaltIs(batch, fate, h);
    if h == |batch| {
      RunSnoc(s, claim + treats, Commit(p));
      CleanPassEnds(s, p, batch, fate);
    } else {
      var e := Treat(p, fate(batch[h]));
      RunSnoc(s, claim + treats, e);
      if fate(batch[h]).MarkFails? {
        FailedPassEnds(s, p, batch, fate);
      } else {
        RunSnoc(s, claim + treats + [e], Commit(p));
        assert claim + treats + [e] + [Commit(p)] == claim + treats + [e, Commit(p)];
        RefusedPassEnds(s, p, batch, fate);
      }
    }
  }

  lemma HealthyPassEffect(s: System, p: Pid, limit: nat, batch: seq<Id>)
    requires NobodyDrains(s) && IsClaim(s, limit, batch)
    ensures forall i :: 0 <= i < |batch| ==> batch[i] in s.rows
    ensures Run(s, HealthyPass(p, limit, batch))
            == s.(drainers := s.drainers[p := Idle],
                  rows := Dispatched(s.rows, batch),
                  log := s.log + Messages(s.rows, batch))
  {
    hide IsClaim, Run, PassEvents, AfterPass, Dispatched, Messages;
    var fate: Id -> Outcome := _ => Delivered;
    PassIsARun(s, p, limit, batch, fate);
    PassCases(s, p, batch, fate);
    assert Halt(batch, fate) == |batch| && batch[..|batch|] == batch;
  }

  /** `k` healthy passes one after the other over a backlog. */
  ghost function Passes(p: Pid, limit: nat, ids: seq<Id>, k: nat): seq<Event> {
    if k == 0 then []
    else HealthyPass(p, limit, Take(ids, limit)) + Passes(p, limit, ids[|Take(ids, limit)|..], k - 1)
  }

  lemma PrefixAndRestApart(ids: seq<Id>, n: nat)
    requires Ascending(ids) && n <= |ids|
    ensures forall id :: id in ids[n..] ==> id !in ids[..n]
  {
    forall i | 0 <= i < n ensures ids[i] !in ids[n..] {
      assert forall j :: n <= j < |ids| ==> ids[i] < ids[j];
    }
  }

  lemma DispatchedShrinksTheBacklog(s: System, ids: seq<Id>, n: nat)
    requires IsBacklog(s.rows, ids) && n <= |ids|
    ensures IsBacklog(Dispatched(s.rows, ids[..n]), ids[n..])
  {
    var rows := Dispatched(s.rows, ids[..n]);
    PrefixAndRestApart(ids, n);
    forall id ensures id in ids[n..] <==> id in rows && !rows[id].dispatched {
      assert ids == ids[..n] + ids[n..];
    }
  }

  lemma FirstPass(s: System, p: Pid, limit: nat, ids: seq<Id>)
    requires NobodyDrains(s) && IsBacklog(s.rows, ids)
    ensures forall i :: 0 <= i < |ids| ==> ids[i] in s.rows
    ensures var n := Min(limit, |ids|);
            var s1 := Run(s, HealthyPass(p, limit, ids[..n]));
            && NobodyDrains(s1)
            && IsBacklog(s1.rows, ids[n..])
            && s1.rows == Dispatched(s.rows, ids[..n])
            && s1.log == s.log + Messages(s.rows, ids[..n])
  {
    forall i | 0 <= i < |ids| ensures ids[i] in s.rows {
      assert ids[i] in ids;
    }
    var n := Min(limit, |ids|);
    TheOldestAreAClaim(s, limit, ids);
    HealthyPassEffect(s, p, limit, ids[..n]);
    DispatchedShrinksTheBacklog(s, ids, n);
    hide IsClaim, Run, Dispatched, Messages, HealthyPass, IsBacklog;
  }

  /** How far `k` passes reach into `m` rows. */
  function Reach(limit: nat, m: nat, k: nat): (n: nat)
    ensures n <= m
    decreases k
  {
    if k == 0 then 0 else Min(limit, m) + Reach(limit, m - Min(limit, m), k - 1)
  }

  lemma {:induction false} ReachIsProportional(limit: nat, m: nat, k: nat)
    ensures Reach(limit, m, k) == Min(k * limit, m)
    decreases k
  {
    if k > 0 {
      ReachIsProportional(limit, m - Min(limit, m), k - 1);
      assert k * limit == (k - 1) * limit + limit;
    }
  }

  ghost predicate DrainedTo(s: System, s': System, ids: seq<Id>, n: nat)
    requires n <= |ids| && forall i :: 0 <= i < |ids| ==> ids[i] in s.rows
  {
    && s'.log == s.log + Messages(s.rows, ids[..n])
    && s'.rows == Dispatched(s.rows, ids[..n])
    && IsBacklog(s'.rows, ids[n..])
    && NobodyDrains(s')
  }

  lemma NoPassYet(s: System, p: Pid, limit: nat, ids: seq<Id>)
    requires NobodyDrains(s) && IsBacklog(s.rows, ids)
    requires forall i :: 0 <= i < |ids| ==> ids[i] in s.rows
    ensures DrainedTo(s, Run(s, Passes(p, limit, ids, 0)), ids, Reach(limit, |ids|, 0))
  {
    assert Messages(s.rows, ids[..0]) == [] && Dispatched(s.rows, ids[..0]) == s.rows && ids[0..] == ids;
  }

  lemma PassesUnfold(p: Pid, limit: nat, ids: seq<Id>, k: nat)
    requires k > 0
    ensures var n := Min(limit, |ids|);
            && Passes(p, limit, ids, k) == HealthyPass(p, limit, ids[..n]) + Passes(p, limit, ids[n..], k - 1)
            && Reach(limit, |ids|, k) == n + Reach(limit, |ids| - n, k - 1)
  {
    hide HealthyPass;
  }

  lemma JoinedBatches(s: System, ids: seq<Id>, m: nat, n: nat)
    requires m <= n <= |ids| && forall i :: 0 <= i < |ids| ==> ids[i] in s.rows
    ensures var rows := Dispatched(s.rows, ids[..m]);
            && Messages(s.rows, ids[..m]) + Messages(rows, ids[m..][..n - m]) == Messages(s.rows, ids[..n])
            && Dispatched(rows, ids[m..][..n - m]) == Dispatched(s.rows, ids[..n])
            && ids[m..][n - m..] == ids[n..]
  {
    assert ids[m..][..n - m] == ids[m..n];
    assert ids[..n] == ids[..m] + ids[m..n];
  }

  lemma DrainedFurther(s: System, s1: System, s2: System, ids: seq<Id>, m: nat, n: nat)
    requires m <= n <= |ids| && forall i :: 0 <= i < |ids| ==> ids[i] in s.rows
    requires s1.rows == Dispatched(s.rows, ids[..m]) && s1.log == s.log + Messages(s.rows, ids[..m])
    requires forall i :: 0 <= i < |ids[m..]| ==> ids[m..][i] in s1.rows
    requires DrainedTo(s1, s2, ids[m..], n - m)
    ensures DrainedTo(s, s2, ids, n)
  {
    JoinedBatches(s, ids, m, n);
    hide Messages, Dispatched, IsBacklog, NobodyDrains;
  }

  lemma OneMorePass(s: System, s1: System, p: Pid, limit: nat, ids: seq<Id>, k: nat)
    requires k > 0 && forall i :: 0 <= i < |ids| ==> ids[i] in s.rows
    requires var n := Min(limit, |ids|);
             && s1 == Run(s, HealthyPass(p, limit, ids[..n]))
             && s1.rows == Dispatched(s.rows, ids[..n])
             && s1.log == s.log + Messages(s.rows, ids[..n])
             && (forall i :: 0 <= i < |ids[n..]| ==> ids[n..][i] in s1.rows)
             && DrainedTo(s1, Run(s1, Passes(p, limit, ids[n..], k - 1)), ids[n..], Reach(limit, |ids| - n, k - 1))
    ensures DrainedTo(s, Run(s, Passes(p, limit, ids, k)), ids, Reach(limit, |ids|, k))
  {
    var n := Min(limit, |ids|);
    PassesUnfold(p, limit, ids, k);
    hide IsClaim, HealthyPass, Dispatched, Messages, Run, DrainedTo, Passes, Ascending, Reach;
    RunConcat(s, HealthyPass(p, limit, ids[..n]), Passes(p, limit, ids[n..], k - 1));
    DrainedFurther(s, s1, Run(s, Passes(p, limit, ids, k)), ids, n, Reach(limit, |ids|, k));
  }

  lemma {:induction false} PassesReach(s: System, p: Pid, limit: nat, ids: seq<Id>, k: nat)
    requires NobodyDrains(s) && IsBacklog(s.rows, ids)
    ensures forall i :: 0 <= i < |ids| ==> ids[i] in s.rows
    ensures DrainedTo(s, Run(s, Passes(p, limit, ids, k)), ids, Reach(limit, |ids|, k))
    decreases k
  {
    hide IsClaim, HealthyPass, Dispatched, Messages, Run, IsBacklog, Step, NobodyDrains, DrainedTo, Reach;
    FirstPass(s, p, limit, ids);
    if k == 0 {
      NoPassYet(s, p, limit, ids);
    } else {
      var n := Min(limit, |ids|);
      var s1 := Run(s, HealthyPass(p, limit, ids[..n]));
      PassesReach(s1, p, limit, ids[n..], k - 1);
      OneMorePass(s, s1, p, limit, ids, k);
    }
  }

  /** Healthy passes publish the backlog in id order and each row once: after `k` of them exactly the first
      `k * limit` rows were published and marked, so enough passes leave nothing behind. */
  lemma HealthyPassesDrainTheBacklog(s: System, p: Pid, limit: nat, ids: seq<Id>, k: nat)
    requires NobodyDrains(s) && IsBacklog(s.rows, ids)
    ensures forall i :: 0 <= i < |ids| ==> ids[i] in s.rows
    ensures var s' := Run(s, Passes(p, limit, ids, k));
            var n := Min(k * limit, |ids|);
            && s'.log == s.log + Messages(s.rows, ids[..n])
            && s'.rows == Dispatched(s.rows, ids[..n])
            && IsBacklog(s'.rows, ids[n..])
  {
    PassesReach(s, p, limit, ids, k);
    ReachIsProportional(limit, |ids|, k);
    hide Messages, Dispatched, IsBacklog, NobodyDrains, Run, Passes;
  }

  // ---------------------------------------------------------------------------
  // A row that is never published
  // ---------------------------------------------------------------------------

  /** One pass after another, with producers in between. */
  datatype Turn = Drain(limit: nat, batch: seq<Id>, fate: Id -> Outcome) | Produce(event: Event)

  function TurnEvents(p: Pid, t: Turn): seq<Event> {
    match t
    case Drain(limit, batch, fate) => PassEvents(p, limit, batch, fate)
    case Produce(e) => [e]
  }

  ghost function Turns(s: System, p: Pid, ts: seq<Turn>): System
    decreases |ts|
  {
    if ts == [] then s else Run(Turns(s, p, ts[..|ts| - 1]), TurnEvents(p, ts[|ts| - 1]))
  }

  /** `head` is the oldest row to dispatch, and rows to come are younger. */
  ghost predicate IsHead(s: System, head: Id) {
    && NobodyDrains(s)
    && head in s.rows && !s.rows[head].dispatched
    && (forall id :: id in s.rows && !s.rows[id].dispatched ==> head <= id)
    && (forall p, id :: p in s.pending && id in s.pending[p] ==> head < id)
  }

  /** Every pass claims in order and is refused at the head; producers insert younger rows. */
  ghost predicate HeadIsRefused(s: System, p: Pid, ts: seq<Turn>, head: Id)
    decreases |ts|
  {
    ts != [] ==>
      var init, t := ts[..|ts| - 1], ts[|ts| - 1];
      && HeadIsRefused(s, p, init, head)
      && (match t
          case Drain(limit, batch, fate) => IsClaim(Turns(s, p, init), limit, batch) && !fate(head).Delivered?
          case Produce(e) => (e.Insert? && head < e.id) || e.CommitInserts? || e.AbortInserts?)
  }

  /** No row but `head` has changed, been dispatched or been published in between. */
  ghost predicate OnlyHeadTried(s: System, s': System, head: Id) {
    && s.rows.Keys <= s'.rows.Keys
    && (forall id :: id in s'.rows && id != head ==>
          if id in s.rows then s'.rows[id] == s.rows[id] else !s'.rows[id].dispatched)
    && (forall m: Message :: m.id != head ==> multiset(s'.log)[m] == multiset(s.log)[m])
  }

  lemma HeadIsFirst(s: System, limit: nat, batch: seq<Id>, head: Id)
    requires IsHead(s, head) && IsClaim(s, limit, batch)
    ensures batch != [] ==> batch[0] == head
  {
    assert Available(s, head) by {
      assert !Locked(s.drainers, head);
    }
    if batch != [] {
      assert Available(s, batch[0]);
      assert forall i :: 0 < i < |batch| ==> batch[0] < batch[i];
    }
  }

  lemma RefusedFirst(s: System, p: Pid, batch: seq<Id>, fate: Id -> Outcome, head: Id)
    requires Ascending(batch) && forall i :: 0 <= i < |batch| ==> batch[i] in s.rows
    requires head in s.rows && (batch != [] ==> batch[0] == head) && !fate(head).Delivered?
    ensures var s' := AfterPass(s, p, batch, fate);
            && s'.pending == s.pending && s'.drainers == s.drainers[p := Idle]
            && (s'.rows == s.rows || s'.rows == s.rows[head := s.rows[head].(attempts := s.rows[head].attempts + 1)])
            && (s'.log == s.log || s'.log == s.log + [Message(head, s.rows[head].event)])
  {
    PassCases(s, p, batch, fate);
    NothingTreated(s.rows, batch);
    assert Halt(batch, fate) == 0;
    assert s.log + [] == s.log && batch[..0] == [];
    hide AfterPass, Messages, Dispatched, CountRollback, Halt, Ascending;
  }

  lemma RefusedAtOnce(s: System, p: Pid, limit: nat, batch: seq<Id>, fate: Id -> Outcome, head: Id)
    requires IsHead(s, head) && IsClaim(s, limit, batch) && !fate(head).Delivered?
    ensures var s' := Run(s, PassEvents(p, limit, batch, fate));
            && s'.pending == s.pending && NobodyDrains(s')
            && (s'.rows == s.rows || s'.rows == s.rows[head := s.rows[head].(attempts := s.rows[head].attempts + 1)])
            && (s'.log == s.log || s'.log == s.log + [Message(head, s.rows[head].event)])
  {
    HeadIsFirst(s, limit, batch, head);
    PassIsARun(s, p, limit, batch, fate);
    hide IsClaim, Run, PassEvents, AfterPass, Ascending, Locked;
    RefusedFirst(s, p, batch, fate, head);
  }

  lemma DrainTriesTheHead(s: System, p: Pid, limit: nat, batch: seq<Id>, fate: Id -> Outcome, head: Id)
    requires IsHead(s, head) && IsClaim(s, limit, batch) && !fate(head).Delivered?
    ensures var s' := Run(s, PassEvents(p, limit, batch, fate)); IsHead(s', head) && OnlyHeadTried(s, s', head)
  {
    RefusedAtOnce(s, p, limit, batch, fate, head);
    hide IsClaim, Run, PassEvents, NobodyDrains;
  }

  lemma ProduceLeavesTheHead(s: System, e: Event, head: Id)
    requires IsHead(s, head) && ((e.Insert? && head < e.id) || e.CommitInserts? || e.AbortInserts?)
    ensures IsHead(Step(s, e), head) && (PendingInv(s) ==> OnlyHeadTried(s, Step(s, e), head))
  {
  }

  lemma TriedTwice(s: System, s1: System, s2: System, head: Id)
    requires OnlyHeadTried(s, s1, head) && OnlyHeadTried(s1, s2, head)
    ensures OnlyHeadTried(s, s2, head)
  {
  }

  lemma RunNothing(s: System)
    ensures Run(s, []) == s
  {
  }

  lemma NothingTried(s: System, head: Id)
    ensures OnlyHeadTried(s, s, head)
  {
  }

  lemma PendingApart(s: System)
    requires Inv(s)
    ensures PendingInv(s)
  {
  }

  /** While one drainer at a time is at work: a row that is refused in every pass blocks all younger ones for ever, those to
      come included. However many passes run, none of them is published or dispatched. */
  lemma {:induction false} RefusedHeadBlocksTheRest(s: System, p: Pid, ts: seq<Turn>, head: Id)
    requires Inv(s) && IsHead(s, head) && HeadIsRefused(s, p, ts, head)
    ensures var s' := Turns(s, p, ts); Inv(s') && IsHead(s', head) && OnlyHeadTried(s, s', head)
    decreases |ts|
  {
    hide Inv, IsHead, OnlyHeadTried, PassEvents, Step, IsClaim, Run;
    if ts == [] {
      NothingTried(s, head);
    } else {
      var init, t := ts[..|ts| - 1], ts[|ts| - 1];
      RefusedHeadBlocksTheRest(s, p, init, head);
      var s1 := Turns(s, p, init);
      RunKeepsInv(s1, TurnEvents(p, t));
      match t {
        case Drain(limit, batch, fate) => DrainTriesTheHead(s1, p, limit, batch, fate, head);
        case Produce(e) =>
          RunSnoc(s1, [], e);
          RunNothing(s1);
          assert [] + [e] == [e];
          PendingApart(s1);
          ProduceLeavesTheHead(s1, e, head);
      }
      TriedTwice(s, s1, Turns(s, p, ts), head);
    }
  }

  // ---------------------------------------------------------------------------
  // The drainer itself
  // ---------------------------------------------------------------------------

  lemma LocksDoNotMatter(s: System, p: Pid, d: Drainer, batch: seq<Id>, fate: Id -> Outcome)
    requires forall i :: 0 <= i < |batch| ==> batch[i] in s.rows
    ensures AfterPass(s.(drainers := s.drainers[p := d]), p, batch, fate) == AfterPass(s, p, batch, fate)
  {
    hide PassRows, PassLog, Halt;
    assert s.drainers[p := d][p := Idle] == s.drainers[p := Idle];
  }

  lemma MessagesNext(rows: map<Id, Row>, batch: seq<Id>, k: nat)
    requires k < |batch| && forall i :: 0 <= i < |batch| ==> batch[i] in rows
    ensures Messages(rows, batch[..k + 1]) == Messages(rows, batch[..k]) + [Message(batch[k], rows[batch[k]].event)]
  {
  }

  /** The outbox of one region, with the rows its drainers have locked. */
  class OutboxTable {
    var rows: map<Id, Row>
    var drainers: map<Pid, Drainer>
    var log: seq<Message>
    ghost var pending: map<Pid, map<Id, string>>
    ghost var rollbacks: map<Id, nat>

    ghost function Snapshot(): System
      reads this
    {
      System(rows, pending, drainers, log, rollbacks)
    }

    constructor ()
      ensures Snapshot() == EMPTY
    {
      rows, drainers, log, pending, rollbacks := map[], map[], [], map[], map[];
    }

    method Smallest(ids: set<Id>) returns (m: Id)
      requires ids != {}
      ensures m in ids && forall id :: id in ids ==> m <= id
    {
      m :| m in ids;
      var rest := ids - {m};
      while rest != {}
        invariant m in ids && m !in rest && rest <= ids
        invariant forall id :: id in ids && id !in rest ==> m <= id
      {
        var id :| id in rest;
        rest := rest - {id};
        if id < m {
          m := id;
        }
      }
    }

    method ClaimBatch(limit: nat) returns (ids: seq<Id>)
      ensures IsClaim(Snapshot(), limit, ids)
    {
      var locked := set p, id | p in drainers && drainers[p].Draining? && id in drainers[p].held :: id;
      var free := set id | id in rows && !rows[id].dispatched && id !in locked;
      assert forall id :: id in free <==> Available(Snapshot(), id);
      ids := [];
      var rest := free;
      while |ids| < limit && rest != {}
        invariant |ids| <= limit && Ascending(ids) && rest <= free
        invariant forall id :: id in free <==> id in rest || id in ids
        invariant forall i, id :: 0 <= i < |ids| && id in rest ==> ids[i] < id
        decreases limit - |ids|
      {
        var next := Smallest(rest);
        rest := rest - {next};
        ids := ids + [next];
      }
    }

    method Publish(id: Id, outcome: Outcome)
      requires id in rows
      modifies `log
      ensures log == old(log) + if Reaches(outcome) then [Message(id, rows[id].event)] else []
    {
      if Reaches(outcome) {
        log := log + [Message(id, rows[id].event)];
      }
    }

    /** Publishes and marks the claimed rows one by one, up to the first that does not go through. `marked` holds
        the marks of the open transaction. */
    method TreatBatch(me: Pid, batch: seq<Id>, fate: Id -> Outcome) returns (marked: map<Id, Row>, h: nat)
      requires Ascending(batch) && forall i :: 0 <= i < |batch| ==> batch[i] in rows
      requires me in drainers && drainers[me] == Draining(batch, 0, false)
      modifies `log, `drainers
      ensures h == Halt(batch, fate)
      ensures marked == Dispatched(rows, batch[..h])
      ensures log == old(log) + Messages(rows, batch[..h])
      ensures drainers == old(drainers)[me := Draining(batch, h, false)]
    {
      hide Dispatched, Halt, Messages, Ascending;
      marked, h := rows, 0;
      NothingTreated(rows, batch);
      while h < |batch| && fate(batch[h]).Delivered?
        invariant 0 <= h <= Halt(batch, fate)
        invariant marked == Dispatched(rows, batch[..h])
        invariant log == old(log) + Messages(rows, batch[..h])
        invariant drainers == old(drainers)[me := Draining(batch, h, false)]
      {
        HaltIs(batch, fate, h);
        DispatchedNext(rows, batch, h);
        MessagesNext(rows, batch, h);
        Publish(batch[h], Delivered);
        marked := marked[batch[h] := marked[batch[h]].(dispatched := true)];
        h := h + 1;
        drainers := drainers[me := Draining(batch, h, false)];
      }
      HaltIs(batch, fate, h);
    }

    /** The rest of the pass after the row at `h` did not go through: its failed attempt is marked, or the whole
        transaction is given up when that mark fails. */
    method Refuse(batch: seq<Id>, fate: Id -> Outcome, h: nat, marked: map<Id, Row>)
      returns (afterwards: map<Id, Row>, ok: bool)
      requires h < |batch| && batch[h] in rows && batch[h] in marked && !fate(batch[h]).Delivered?
      modifies `log
      ensures log == old(log) + if Reaches(fate(batch[h])) then [Message(batch[h], rows[batch[h]].event)] else []
      ensures ok <==> fate(batch[h]).Refused?
      ensures afterwards == if ok then marked[batch[h] := marked[batch[h]].(attempts := marked[batch[h]].attempts + 1)]
                            else rows
    {
      Publish(batch[h], fate(batch[h]));
      if fate(batch[h]).MarkFails? {
        return rows, false;
      }
      afterwards := marked[batch[h] := marked[batch[h]].(attempts := marked[batch[h]].attempts + 1)];
      ok := true;
    }

    /** The pass from the claim to its commit or rollback. */
    method TreatAndEnd(me: Pid, batch: seq<Id>, fate: Id -> Outcome) returns (ok: bool)
      requires Ascending(batch) && forall i :: 0 <= i < |batch| ==> batch[i] in rows
      requires me in drainers && drainers[me] == Draining(batch, 0, false)
      modifies this
      ensures ok <==> (Halt(batch, fate) < |batch| ==> !fate(batch[Halt(batch, fate)]).MarkFails?)
      ensures Snapshot() == AfterPass(old(Snapshot()), me, batch, fate)
    {
      hide Dispatched, Messages, CountRollback, Ascending, Halt, AfterPass, Reaches;
      PassCases(Snapshot(), me, batch, fate);
      var marked, h := TreatBatch(me, batch, fate);
      ok := true;
      if h < |batch| {
        HaltIs(batch, fate, h);
        marked, ok := Refuse(batch, fate, h, marked);
        if !ok {
          rollbacks := CountRollback(rollbacks, batch);
        }
      }
      rows := marked;
      drainers := drainers[me := Idle];
    }

    /** One pass: claim, publish and mark row by row, stop at the first refusal and keep its failed attempt, and
        undo every mark when a mark itself fails. `fate` says how each publish ends. */
    method DrainOutboxForRegion(me: Pid, limit: nat, fate: Id -> Outcome) returns (batch: seq<Id>, ok: bool)
      requires me in drainers ==> drainers[me].Idle?
      modifies this
      ensures IsClaim(old(Snapshot()), limit, batch)
      ensures forall i :: 0 <= i < |batch| ==> batch[i] in old(rows)
      ensures ok <==> (Halt(batch, fate) < |batch| ==> !fate(batch[Halt(batch, fate)]).MarkFails?)
      ensures Snapshot() == AfterPass(old(Snapshot()), me, batch, fate)
      ensures var h := Halt(batch, fate);
              && StopsAt(batch, fate, h) && PublishedTo(old(rows), old(log), log, batch, fate, h)
              && MarkedTo(old(rows), rows, batch, fate, h)
    {
      batch := ClaimBatch(limit);
      ClaimedRows(Snapshot(), limit, batch);
      PassIsPublished(rows, log, batch, fate);
      PassIsMarked(rows, batch, fate);
      AfterPassIs(Snapshot(), me, batch, fate);
      hide StopsAt, PublishedTo, MarkedTo, Dispatched, Messages, CountRollback, IsClaim, Ascending, Halt, Midway, Run, AfterPass;
      BatchIsThere(Snapshot(), me, limit, batch);
      drainers := drainers[me := Draining(batch, 0, false)];
      LocksDoNotMatter(old(Snapshot()), me, drainers[me], batch, fate);
      ok := TreatAndEnd(me, batch, fate);
    }
  }
}

