/** The finance writers themselves: `settleDeliveredOrder`, `deliver` and `recordPayout`. */
module FinanceService {
  import opened Common
  import opened Money
  import opened Ledger
  import opened OrderStatus
  import opened Settlement
  import opened Finance
  import Lifecycle

  datatype DeliverError = OrderNotFound | NotYourOrder | MustBePicked | SettlementRefused | DatabaseError

  datatype PayoutError = OwnerNotFound | InsufficientBalance | InsertRefused | LockTimeout | CommitFailed

  /** Steps of other calls. */
  predicate Foreign(es: seq<Event>, pid: Pid) {
    forall i :: 0 <= i < |es| ==>
      match es[i]
      case CheckPicked(q, _, _) => q != pid
      case Settles(q, _, _) => q != pid
      case Begin(q, _) => q != pid
      case Advance(q) => q != pid
      case Abort(q) => q != pid
      case _ => true
  }

  /** What others leave alone: the calls of `pid` and what orders are. */
  ghost predicate Spares(s: State, s': State, pid: Pid) {
    && s'.share == s.share
    && (pid in s'.calls <==> pid in s.calls) && (pid in s.calls ==> s'.calls[pid] == s.calls[pid])
    && (pid in s'.delivering <==> pid in s.delivering) && (pid in s.delivering ==> s'.delivering[pid] == s.delivering[pid])
    && multiset(s'.payers)[pid] == multiset(s.payers)[pid]
    && (forall id :: id in s.rows ==> id in s'.rows && s'.rows[id].order == s.rows[id].order)
  }

  lemma SettlesSpares(s: State, other: Pid, bps: Rate, aborts: bool, pid: Pid)
    requires other != pid
    ensures Spares(s, Step(s, Settles(other, bps, aborts)), pid)
  {
    hide Settle, MustWait;
  }

  lemma AdvanceSpares(s: State, other: Pid, pid: Pid)
    requires other != pid
    ensures Spares(s, Step(s, Advance(other)), pid)
  {
    hide NextPhase;
  }

  lemma RowStepSpares(s: State, e: Event, pid: Pid)
    requires e.Place? || e.Claim? || e.CheckMove? || e.WriteMove?
    ensures Spares(s, Step(s, e), pid)
  {
    hide WellFormed, Transition, Settle, MustWait, NextPhase, AfterSettles, AfterAdvance;
  }

  lemma ForeignStepSpares(s: State, e: Event, pid: Pid)
    requires Foreign([e], pid)
    ensures Spares(s, Step(s, e), pid)
  {
    assert [e][0] == e;
    if e.Settles? {
      SettlesSpares(s, e.pid, e.bps, e.aborts, pid);
    } else if e.Advance? {
      AdvanceSpares(s, e.pid, pid);
    } else if e.Place? || e.Claim? || e.CheckMove? || e.WriteMove? {
      RowStepSpares(s, e, pid);
    } else {
      hide AfterSettles, AfterAdvance, AfterMove, WellFormed, CanDeliver, Foreign, Transition;
    }
  }

  lemma {:induction false} ForeignRunSpares(s: State, es: seq<Event>, pid: Pid)
    requires Foreign(es, pid)
    ensures Spares(s, Run(s, es), pid)
    decreases |es|
  {
    if es != [] {
      ForeignRunSpares(s, es[..|es| - 1], pid);
      ForeignStepSpares(Run(s, es[..|es| - 1]), es[|es| - 1], pid);
      hide Step;
    }
  }

  lemma RunNothing(s: State)
    ensures Run(s, []) == s
  {
  }

  lemma AbortedStep(s: State, pid: Pid, bps: Rate)
    ensures Step(s, Settles(pid, bps, true)) == s.(delivering := s.delivering - {pid})
  {
  }

  lemma BeginStep(s: State, pid: Pid, p: Payout)
    requires pid !in s.calls
    ensures Step(s, Begin(pid, p)) == s.(calls := s.calls[pid := Begun(p)])
  {
  }

  predicate SameTables(a: State, b: State) {
    a.share == b.share && a.rows == b.rows && a.books == b.books && a.calls == b.calls
    && a.delivering == b.delivering && a.moving == b.moving
  }

  lemma SettlesIs(s: State, pid: Pid, bps: Rate, aborts: bool)
    ensures Step(s, Settles(pid, bps, aborts)) == AfterSettles(s, pid, bps, aborts)
  {
    hide AfterSettles;
  }

  lemma SettlesReadsTables(a: State, b: State, pid: Pid, bps: Rate, aborts: bool)
    requires SameTables(a, b)
    ensures SameTables(Step(a, Settles(pid, bps, aborts)), Step(b, Settles(pid, bps, aborts)))
  {
    hide Settle, MustWait, Step;
    SettlesIs(a, pid, bps, aborts);
    SettlesIs(b, pid, bps, aborts);
    if pid in a.delivering && !aborts && a.delivering[pid].id in a.rows {
      var (id, agent) := (a.delivering[pid].id, a.delivering[pid].agent);
      var books := Settle(a.books, a.rows[id].order, agent, bps, a.share);
      if !MustWait(a.calls, a.rows[id].order) && books.Some? {
        assert SameTables(CommitDelivery(a, pid, id, agent, bps, books.value), CommitDelivery(b, pid, id, agent, bps, books.value));
        hide CommitDelivery;
      }
    }
  }

  lemma AdvanceReadsTables(a: State, b: State, pid: Pid)
    requires SameTables(a, b)
    ensures SameTables(Step(a, Advance(pid)), Step(b, Advance(pid)))
  {
    hide NextPhase;
  }

  lemma StepReadsTables(a: State, b: State, e: Event)
    requires SameTables(a, b)
    ensures SameTables(Step(a, e), Step(b, e))
  {
    if e.Settles? {
      SettlesReadsTables(a, b, e.pid, e.bps, e.aborts);
    } else if e.Advance? {
      AdvanceReadsTables(a, b, e.pid);
    } else {
      hide AfterSettles, AfterAdvance, WellFormed, CanDeliver, Transition;
    }
  }

  lemma {:induction false} JournalsDoNotMatter(s: State, t: State, es: seq<Event>)
    requires SameTables(s, t)
    ensures SameTables(Run(s, es), Run(t, es))
    decreases |es|
  {
    if es != [] {
      JournalsDoNotMatter(s, t, es[..|es| - 1]);
      StepReadsTables(Run(s, es[..|es| - 1]), Run(t, es[..|es| - 1]), es[|es| - 1]);
      hide SameTables, Step;
    }
  }

  lemma CollectedKeepsKinds(txs: seq<Tx>, o: Order, kind: Kind)
    ensures HasKind(Collected(txs, o), o.id, kind) <==> HasKind(txs, o.id, kind)
  {
    var collected := Collected(txs, o);
    assert |collected| == |txs|;
    assert forall i :: 0 <= i < |txs| ==> collected[i].order == txs[i].order && collected[i].kind == txs[i].kind;
    var i, j := FindByOrderAndKind(txs, o.id, kind), FindByOrderAndKind(collected, o.id, kind);
    if i.Some? {
      assert collected[i.value].kind == kind;
    }
    if j.Some? {
      assert txs[j.value].kind == kind;
    }
  }

  /** A row of another kind, or none, appended. */
  lemma AppendKeepsKind(txs: seq<Tx>, rows: seq<Tx>, order: OrderId, kind: Kind)
    requires |rows| <= 1 && (rows != [] ==> rows[0].kind != kind)
    ensures HasKind(txs + rows, order, kind) <==> HasKind(txs, order, kind)
  {
    if rows == [] {
      assert txs + rows == txs;
    } else {
      assert rows == [rows[0]];
      HasKindSnoc(txs, rows[0], order, kind);
    }
  }

  /** The earlier parts of a settlement do not affect the guards of the later ones. */
  lemma OtherKindsStay(txs: seq<Tx>, o: Order, commission: int)
    ensures var afterCollection := CreateAll(Collected(txs, o), CollectionPart(txs, o));
            afterCollection.Some? ==>
              && CommissionPart(afterCollection.value, o, commission) == CommissionPart(txs, o, commission)
              && var afterCommission := CreateAll(afterCollection.value, CommissionPart(txs, o, commission));
                 afterCommission.Some? ==> FeePart(afterCommission.value, o) == FeePart(txs, o)
  {
    var t0 := Collected(txs, o);
    CollectedKeepsKinds(txs, o, COMMISSION);
    CollectedKeepsKinds(txs, o, ADJUSTMENT);
    AppendKeepsKind(t0, CollectionPart(txs, o), o.id, COMMISSION);
    AppendKeepsKind(t0, CollectionPart(txs, o), o.id, ADJUSTMENT);
    CreateAllAppends(t0, CollectionPart(txs, o));
    var t1 := t0 + CollectionPart(txs, o);
    AppendKeepsKind(t1, CommissionPart(txs, o, commission), o.id, ADJUSTMENT);
    CreateAllAppends(t1, CommissionPart(txs, o, commission));
    hide CreateAll, Collected, FindByOrderAndKind;
  }

  predicate Still(env: seq<seq<Event>>) {
    forall i :: 0 <= i < |env| ==> env[i] == []
  }

  /** Nothing happens while a call waits, and nobody else holds a lock. */
  predicate Undisturbed(calls: map<Pid, Phase>, env: seq<seq<Event>>) {
    Still(env) && forall q :: q in calls ==> calls[q] == Closed
  }

  /** A payout that reaches its COMMIT: unless it rolls back, the amount is gone from the restaurant's balance in the currency
      and from no other, and the row is there. */
  ghost predicate PaysNow(before: Books, after: Books, p: Payout, ending: Ending, r: Result<Tx, PayoutError>) {
    && (ending == Commits <==> r.Ok?) && (r.Ok? ==> Records(r.value, p)) && (r.Err? ==> r.error == CommitFailed)
    && (if ending == RollsBack then after == before
        else && |after.txs| == |before.txs| + 1 && after.txs[..|before.txs|] == before.txs
             && Records(after.txs[|before.txs|], p)
             && TakesFrom(before.balances, after.balances, p)
             && after.earnings == before.earnings && after.events == before.events)
  }

  /** What an undisturbed payout answers and leaves. */
  ghost predicate PaysOnce(before: Books, after: Books, p: Payout, ending: Ending, r: Result<Tx, PayoutError>) {
    var covered := BalanceOf(before.balances, (p.restaurant, p.currency)) >= p.amount;
    && (KeyTaken(before.txs, p.key) ==> r.Ok? && after == before)
    && (r == Err(InsufficientBalance) <==> !KeyTaken(before.txs, p.key) && !covered)
    && (r == Err(InsufficientBalance) ==> after == before)
    && (!KeyTaken(before.txs, p.key) && covered ==> PaysNow(before, after, p, ending, r))
  }

  /** Only `pid` is under way. */
  predicate Alone(calls: map<Pid, Phase>, pid: Pid) {
    forall q :: q in calls && q != pid ==> calls[q] == Closed
  }

  lemma NobodyHolds(calls: map<Pid, Phase>, pid: Pid, k: BalanceKey, key: Key)
    requires Alone(calls, pid) && pid in calls && (calls[pid].Unseen? || calls[pid].Locked?)
    ensures calls[pid].Unseen? ==> !IsLocked(calls, k)
    ensures !IsInserted(calls, key)
  {
  }

  /** A commit that took effect and is reported as an error. */
  predicate Unanswered(ending: Ending, r: Result<Tx, PayoutError>) {
    ending == CommitsWithoutReply && r == Err(CommitFailed)
  }

  /** The finance tables and order rows of one region, with the payout calls in flight. */
  class Service {
    const share: Rate
    var rows: map<OrderId, OrderRow>
    var txs: seq<Tx>
    var balances: map<BalanceKey, int>
    var earnings: map<OrderId, Earning>
    var events: seq<DeliveredEvent>
    var calls: map<Pid, Phase>
    var delivering: map<Pid, Passed>
    var moving: map<Pid, Moving>
    ghost var deliveries: seq<Delivery>
    ghost var paid: seq<Payout>
    ghost var payers: seq<Pid>

    function Tables(): Books
      reads this
    {
      Books(txs, balances, earnings, events)
    }

    ghost function Snapshot(): State
      reads this
    {
      State(share, rows, Tables(), calls, delivering, moving, deliveries, paid, payers)
    }

    constructor (share: Rate)
      ensures Snapshot() == Initial(share)
    {
      this.share := share;
      rows, txs, balances, earnings, events := map[], [], map[], map[], [];
      calls, delivering, moving, deliveries, paid, payers := map[], map[], map[], [], [], [];
    }

    // ----- settlement -----

    method InsertTransaction(t: Tx) returns (ok: bool)
      modifies `txs
      ensures ok <==> CreateTransaction(old(txs), t).Some?
      ensures txs == if ok then CreateTransaction(old(txs), t).value else old(txs)
    {
      ok := !KeyTaken(txs, t.key) && FitsInt(t.amount);
      if ok {
        txs := txs + [t];
      }
    }

    method UpsertBalance(k: BalanceKey, delta: int) returns (ok: bool)
      modifies `balances
      ensures ok <==> Upsert(old(balances), k, delta).Some?
      ensures balances == if ok then Upsert(old(balances), k, delta).value else old(balances)
    {
      var balance := if k in balances then balances[k] + delta else delta;
      ok := FitsInt(delta) && FitsInt(balance);
      if ok {
        balances := balances[k := balance];
      }
    }

    method InsertUnless(skip: bool, t: Tx) returns (ok: bool)
      modifies `txs
      ensures var inserted := CreateAll(old(txs), if skip then [] else [t]);
              && (ok <==> inserted.Some?)
              && (ok ==> txs == inserted.value)
    {
      ok := true;
      if !skip {
        ok := InsertTransaction(t);
        assert [t][1..] == [];
      }
    }

    /** The cash collection: inserted, or an earlier row completed. */
    method BookCollection(o: Order) returns (ok: bool)
      modifies `txs
      ensures var collected := CreateAll(Collected(old(txs), o), CollectionPart(old(txs), o));
              && (ok <==> collected.Some?)
              && (ok ==> txs == collected.value)
    {
      ok := true;
      if o.payment == Lifecycle.COD {
        var existing := FindByOrderAndKind(txs, o.id, COD_COLLECTION);
        if existing.None? {
          ok := InsertUnless(false, CollectionRow(o));
        } else if txs[existing.value].status != SUCCEEDED {
          txs := txs[existing.value := txs[existing.value].(status := SUCCEEDED)];
        }
      }
    }

    /** Both fees look for an adjustment of the order, so the second finds the first. */
    method BookFees(o: Order) returns (ok: bool)
      modifies `txs
      ensures var booked := CreateAll(old(txs), FeePart(old(txs), o));
              && (ok <==> booked.Some?)
              && (ok ==> txs == booked.value)
    {
      ghost var before := txs;
      var skip := o.serviceFee <= 0 || HasKind(txs, o.id, ADJUSTMENT);
      ok := InsertUnless(skip, ServiceFeeRow(o));
      if ok {
        if !skip {
          assert [ServiceFeeRow(o)][1..] == [];
          HasKindSnoc(before, ServiceFeeRow(o), o.id, ADJUSTMENT);
        }
        ok := InsertUnless(o.deliveryFee <= 0 || HasKind(txs, o.id, ADJUSTMENT), DeliveryFeeRow(o));
      }
    }

    /** The ledger part of a settlement, row by row under its guards. A refused row ends it; the caller rolls back. */
    method BookRows(o: Order, commission: int) returns (ok: bool)
      modifies `txs
      ensures var booked := CreateAll(Collected(old(txs), o), NewRows(old(txs), o, commission));
              && (ok <==> booked.Some?)
              && (ok ==> txs == booked.value)
      ensures ok && RowsOf(old(txs), o.id) == [] ==> txs == old(txs) + FirstRows(o, commission)
    {
      ghost var before := txs;
      if RowsOf(txs, o.id) == [] {
        FirstRowsAfter(o, commission);
        GuardsFind(txs, o, [], commission);
        CreateAllAppends(txs, FirstRows(o, commission));
      }
      ghost var a, b, c := CollectionPart(txs, o), CommissionPart(txs, o, commission), FeePart(txs, o);
      CreateAllConcat(Collected(txs, o), a + b, c);
      CreateAllConcat(Collected(txs, o), a, b);
      OtherKindsStay(txs, o, commission);
      hide CreateAll, Collected, FindByOrderAndKind, HasKind, FirstRows, RowsOf;
      ok := BookCollection(o);
      if ok {
        ok := InsertUnless(commission <= 0 || HasKind(txs, o.id, COMMISSION), CommissionRow(o, commission));
        if ok {
          ok := BookFees(o);
        }
      }
    }

    /** UNIQUE(order_id): a second earning for an order is ignored. */
    method RecordEarning(id: OrderId, e: Earning) returns (ok: bool)
      modifies `earnings
      ensures ok <==> InsertEarning(old(earnings), id, e).Some?
      ensures ok ==> earnings == InsertEarning(old(earnings), id, e).value
    {
      ok := true;
      if e.amount > 0 && id !in earnings {
        ok := FitsInt(e.amount);
        if ok {
          earnings := earnings[id := e];
        }
      }
    }

    /** All writes of a settlement; a refused one ends it half done, for the caller to roll back. `branch` is the
        commission rate of the branch, unless fetching it failed. */
    method SettleDeliveredOrder(o: Order, agent: int, branch: Option<Rate>) returns (r: Option<int>)
      modifies `txs, `balances, `earnings, `events
      ensures var bps := if branch.Some? then branch.value else 0;
              var settled := Settle(old(Tables()), o, agent, bps, share);
              && (r.Some? <==> settled.Some?)
              && (r.Some? ==> Tables() == settled.value && r.value == Share(o.deliveryFee, share)
                              && PaysOut(old(Tables()), Tables(), o, agent, bps, share)
                              && KeepsRows(old(txs), txs, o))
    {
      ghost var before := Tables();
      hide CreateAll, Collected, NewRows, FitsInt, PaysOut, KeepsRows;
      var bps := if branch.Some? then branch.value else 0;
      var commission := Share(o.subtotal, bps);
      var earning := Share(o.deliveryFee, share);
      r := None;
      var ok := BookRows(o, commission);
      if !ok {
        return;
      }
      var net := o.subtotal - commission;
      if net != 0 {
        ok := UpsertBalance(KeyOf(o), net);
        if !ok {
          return;
        }
      }
      ok := RecordEarning(o.id, Earning(agent, earning, o.currency));
      if !ok {
        return;
      }
      events := events + [DeliveredEvent(o.id, agent, commission)];
      SettlementPaysOut(before, o, agent, bps, share);
      SettlementKeepsRows(before, o, agent, bps, share);
      r := Some(earning);
    }

    // ----- waiting -----

    method Load(t: State, ghost s: State)
      requires SameTables(t, s) && t.share == share
      modifies this
      ensures Snapshot() == s
    {
      rows, calls, delivering, moving := t.rows, t.calls, t.delivering, t.moving;
      txs, balances, earnings, events := t.books.txs, t.books.balances, t.books.earnings, t.books.events;
      deliveries, paid, payers := s.deliveries, s.paid, s.payers;
    }

    /** What other calls do while `pid` waits. */
    method Others(pid: Pid, es: seq<Event>)
      requires Foreign(es, pid)
      modifies this
      ensures Snapshot() == Run(old(Snapshot()), es)
      ensures Spares(old(Snapshot()), Snapshot(), pid)
      ensures es == [] ==> Snapshot() == old(Snapshot())
    {
      ForeignRunSpares(Snapshot(), es, pid);
      RunNothing(Snapshot());
      var now := State(share, rows, Tables(), calls, delivering, moving, [], [], []);
      JournalsDoNotMatter(Snapshot(), now, es);
      hide Run, Foreign;
      Load(Run(now, es), Run(Snapshot(), es));
    }

    // ----- deliver -----

    /** The checks on the row as it was read. */
    method Check(pid: Pid, id: OrderId, agent: int) returns (refused: Option<DeliverError>)
      requires pid !in delivering
      modifies `delivering
      ensures Snapshot() == Step(old(Snapshot()), CheckPicked(pid, id, agent))
      ensures refused.None? <==> CanDeliver(rows, id, agent)
      ensures delivering == if refused.None? then old(delivering)[pid := Passed(id, agent)] else old(delivering)
      ensures refused == Some(OrderNotFound) <==> id !in rows
      ensures refused == Some(NotYourOrder) <==> id in rows && rows[id].agent != Some(agent)
      ensures refused == Some(MustBePicked) <==> id in rows && rows[id].agent == Some(agent) && rows[id].status != PICKED
    {
      refused := None;
      if id !in rows {
        refused := Some(OrderNotFound);
      } else if rows[id].agent != Some(agent) {
        refused := Some(NotYourOrder);
      } else if rows[id].status != PICKED {
        refused := Some(MustBePicked);
      } else {
        delivering := delivering[pid := Passed(id, agent)];
      }
    }

    /** The writes of a delivery; when one is refused all are undone. */
    method WriteDelivery(id: OrderId, agent: int, branch: Option<Rate>) returns (ok: bool)
      requires id in rows
      modifies `rows, `txs, `balances, `earnings, `events
      ensures var bps := if branch.Some? then branch.value else 0;
              var settled := Settle(old(Tables()), old(rows)[id].order, agent, bps, share);
              && (ok <==> settled.Some?)
              && (if ok then rows == old(rows)[id := old(rows)[id].(status := DELIVERED)] && Tables() == settled.value
                             && PaysOut(old(Tables()), Tables(), old(rows)[id].order, agent, bps, share)
                  else rows == old(rows) && Tables() == old(Tables()))
    {
      hide Settle, PaysOut;
      var row := rows[id];
      var rowsBefore, txsBefore, balancesBefore, earningsBefore, eventsBefore := rows, txs, balances, earnings, events;
      rows := rows[id := row.(status := DELIVERED)];
      var earning := SettleDeliveredOrder(row.order, agent, branch);
      ok := earning.Some?;
      if !ok {
        rows, txs, balances, earnings, events := rowsBefore, txsBefore, balancesBefore, earningsBefore, eventsBefore;
      }
    }

    /** Status and settlement in one transaction: all of it is there afterwards, or none; without a reply the caller cannot
        tell which. */
    method CommitSettlement(pid: Pid, branch: Option<Rate>, ending: Ending) returns (r: Result<OrderRow, DeliverError>)
      requires pid in delivering && delivering[pid].id in rows
      requires !MustWait(calls, rows[delivering[pid].id].order)
      modifies this
      ensures var bps := if branch.Some? then branch.value else 0;
              Snapshot() == Step(old(Snapshot()), Settles(pid, bps, ending == RollsBack))
      ensures delivering == old(delivering) - {pid}
      ensures var bps := if branch.Some? then branch.value else 0;
              var (id, agent) := (old(delivering)[pid].id, old(delivering)[pid].agent);
              var settled := Settle(old(Tables()), old(rows)[id].order, agent, bps, share);
              && (r.Ok? <==> ending == Commits && settled.Some?)
              && (r == Err(SettlementRefused) <==> ending != RollsBack && settled.None?)
              && (r.Err? ==> r.error in {SettlementRefused, DatabaseError})
              && (if ending != RollsBack && settled.Some?
                  then && rows == old(rows)[id := old(rows)[id].(status := DELIVERED)] && (r.Ok? ==> r.value == rows[id])
                       && Tables() == settled.value
                       && PaysOut(old(Tables()), Tables(), old(rows)[id].order, agent, bps, share)
                       && deliveries == old(deliveries) + [Delivery(old(rows)[id].order, agent, bps)]
                  else Snapshot() == old(Snapshot()).(delivering := old(delivering) - {pid}))
    {
      hide Settle, MustWait, PaysOut;
      var id, agent := delivering[pid].id, delivering[pid].agent;
      delivering := delivering - {pid};
      if ending == RollsBack {
        return Err(DatabaseError);
      }
      var order := rows[id].order;
      var written := WriteDelivery(id, agent, branch);
      if !written {
        return Err(SettlementRefused);
      }
      deliveries := deliveries + [Delivery(order, agent, if branch.Some? then branch.value else 0)];
      r := if ending == Commits then Ok(rows[id]) else Err(DatabaseError);
    }

    /** From the passed check to the end of a delivery. */
    method WaitAndSettle(pid: Pid, branch: Option<Rate>, ending: Ending, env: seq<Event>)
      returns (r: Result<OrderRow, DeliverError>, ghost trace: seq<Event>)
      requires pid in delivering && delivering[pid].id in rows && Foreign(env, pid)
      modifies this
      ensures Snapshot() == Run(old(Snapshot()), trace)
      ensures pid !in delivering
      ensures r.Err? ==> r.error in {SettlementRefused, DatabaseError}
      ensures var (id, agent) := (old(delivering)[pid].id, old(delivering)[pid].agent);
              var order, bps := old(rows)[id].order, if branch.Some? then branch.value else 0;
              && (r.Ok? ==>
                    && id in rows && r.value == rows[id] && r.value.status == DELIVERED && deliveries != []
                    && deliveries[|deliveries| - 1] == Delivery(order, agent, bps))
              && (env == [] ==>
                    var settles := !MustWait(old(calls), order) && Settle(old(Tables()), order, agent, bps, share).Some?;
                    (&& (r.Ok? <==> settles && ending == Commits)
                     && (if settles && ending != RollsBack
                         then && rows == old(rows)[id := old(rows)[id].(status := DELIVERED)]
                              && Some(Tables()) == Settle(old(Tables()), order, agent, bps, share)
                              && PaysOut(old(Tables()), Tables(), order, agent, bps, share)
                              && deliveries == old(deliveries) + [Delivery(order, agent, bps)]
                         else Snapshot() == old(Snapshot()).(delivering := old(delivering) - {pid}))))
    {
      hide Step, Run, Settle, MustWait, Foreign, PaysOut;
      ghost var start := Snapshot();
      var bps := if branch.Some? then branch.value else 0;
      Others(pid, env);
      if MustWait(calls, rows[delivering[pid].id].order) {
        ghost var before := Snapshot();
        delivering := delivering - {pid};
        AbortedStep(before, pid, bps);
        RunSnoc(start, env, Settles(pid, bps, true));
        return Err(DatabaseError), env + [Settles(pid, bps, true)];
      }
      r := CommitSettlement(pid, branch, ending);
      RunSnoc(start, env, Settles(pid, bps, ending == RollsBack));
      trace := env + [Settles(pid, bps, ending == RollsBack)];
    }

    /** `deliver`: the check, then whatever others do, then the transaction, other deliveries of the order included. A
        wait for locks that does not end counts as a rollback. Undisturbed, it delivers exactly when the row passes the
        check and the settlement goes through and commits, and it says so exactly when the reply arrives. */
    method Deliver(pid: Pid, id: OrderId, agent: int, branch: Option<Rate>, ending: Ending, env: seq<Event>)
      returns (r: Result<OrderRow, DeliverError>, ghost trace: seq<Event>)
      requires pid !in delivering && Foreign(env, pid)
      modifies this
      ensures Snapshot() == Run(old(Snapshot()), trace)
      ensures pid !in delivering
      ensures r == Err(OrderNotFound) <==> id !in old(rows)
      ensures r == Err(NotYourOrder) <==> id in old(rows) && old(rows)[id].agent != Some(agent)
      ensures r == Err(MustBePicked) <==>
                id in old(rows) && old(rows)[id].agent == Some(agent) && old(rows)[id].status != PICKED
      ensures r.Ok? ==>
                && id in rows && r.value == rows[id] && r.value.status == DELIVERED && deliveries != []
                && deliveries[|deliveries| - 1]
                   == Delivery(old(rows)[id].order, agent, if branch.Some? then branch.value else 0)
      ensures var bps := if branch.Some? then branch.value else 0;
              env == [] ==>
                var settles := CanDeliver(old(rows), id, agent) && !MustWait(old(calls), old(rows)[id].order)
                               && Settle(old(Tables()), old(rows)[id].order, agent, bps, share).Some?;
                (&& (r.Ok? <==> settles && ending == Commits)
                 && (if settles && ending != RollsBack
                     then && rows == old(rows)[id := old(rows)[id].(status := DELIVERED)]
                          && Some(Tables()) == Settle(old(Tables()), old(rows)[id].order, agent, bps, share)
                          && PaysOut(old(Tables()), Tables(), old(rows)[id].order, agent, bps, share)
                          && deliveries == old(deliveries) + [Delivery(old(rows)[id].order, agent, bps)]
                     else Snapshot() == old(Snapshot())))
    {
      hide Step, Run, Settle, MustWait, Foreign, PaysOut;
      ghost var start := Snapshot();
      var refused := Check(pid, id, agent);
      RunOne(start, CheckPicked(pid, id, agent));
      trace := [CheckPicked(pid, id, agent)];
      if refused.Some? {
        r := Err(refused.value);
        return;
      }
      assert delivering - {pid} == start.delivering;
      ghost var rest;
      r, rest := WaitAndSettle(pid, branch, ending, env);
      RunConcat(start, trace, rest);
      trace := trace + rest;
    }

    // ----- payouts -----

    /** SELECT by idempotency key: a committed row ends the call with that row. */
    method FindExisting(pid: Pid, p: Payout) returns (existing: Option<Tx>)
      requires pid in calls && calls[pid] == Begun(p)
      modifies `calls
      ensures Snapshot() == Step(old(Snapshot()), Advance(pid))
      ensures calls == old(calls)[pid := if existing.Some? then Closed else Unseen(p)]
      ensures existing.Some? <==> KeyTaken(txs, p.key)
      ensures existing.Some? ==> existing.value in txs && existing.value.key == p.key
    {
      if i :| 0 <= i < |txs| && txs[i].key == p.key {
        existing := Some(txs[i]);
        calls := calls[pid := Closed];
      } else {
        existing := None;
        calls := calls[pid := Unseen(p)];
      }
    }

    /** SELECT ... FOR UPDATE of the balance, which must cover the amount. */
    method LockBalance(pid: Pid, p: Payout) returns (ok: bool)
      requires pid in calls && calls[pid] == Unseen(p) && !IsLocked(calls, PayoutKey(p))
      modifies `calls
      ensures Snapshot() == Step(old(Snapshot()), Advance(pid))
      ensures calls == old(calls)[pid := if ok then Locked(p) else Closed]
      ensures ok <==> BalanceOf(balances, (p.restaurant, p.currency)) >= p.amount
    {
      ok := PayoutKey(p) in balances && balances[PayoutKey(p)] >= p.amount;
      calls := calls[pid := if ok then Locked(p) else Closed];
    }

    /** The deduction, visible to this call only. */
    method Deduct(pid: Pid, p: Payout)
      requires pid in calls && calls[pid] == Locked(p)
      modifies `calls
      ensures Snapshot() == Step(old(Snapshot()), Advance(pid))
      ensures forall key :: IsInserted(calls, key) ==> IsInserted(old(calls), key)
      ensures pid in calls && calls[pid] == Deducted(p, BalanceOf(balances, PayoutKey(p)) - p.amount)
    {
      calls := calls[pid := Deducted(p, BalanceOf(balances, PayoutKey(p)) - p.amount)];
    }

    /** INSERT of the payout row, visible to this call only; a conflict aborts the call, and with it the deduction. */
    method InsertPayout(pid: Pid, p: Payout, balance: int) returns (ok: bool)
      requires pid in calls && calls[pid] == Deducted(p, balance) && !IsInserted(calls, p.key)
      modifies `calls
      ensures Snapshot() == Step(old(Snapshot()), Advance(pid))
      ensures pid in calls && calls[pid] == if ok then Inserted(p, balance) else Closed
      ensures ok <==> !KeyTaken(txs, p.key)
    {
      ok := !KeyTaken(txs, p.key);
      calls := calls[pid := if ok then Inserted(p, balance) else Closed];
    }

    method Commit(pid: Pid, p: Payout, balance: int)
      requires pid in calls && calls[pid] == Inserted(p, balance)
      modifies `txs, `balances, `calls, `paid, `payers
      ensures Snapshot() == Step(old(Snapshot()), Advance(pid))
      ensures pid in calls && calls[pid] == Closed
      ensures txs == old(txs) + [PayoutRow(p)] && balances == old(balances)[PayoutKey(p) := balance]
      ensures payers == old(payers) + [pid]
    {
      txs := txs + [PayoutRow(p)];
      balances := balances[PayoutKey(p) := balance];
      paid, payers := paid + [p], payers + [pid];
      calls := calls[pid := Closed];
    }

    method GiveUp(pid: Pid)
      requires pid in calls
      modifies `calls
      ensures Snapshot() == Step(old(Snapshot()), Abort(pid))
      ensures pid in calls && calls[pid] == Closed
    {
      calls := calls[pid := Closed];
    }

    /** COMMIT, however it ends. */
    method EndPayout(pid: Pid, p: Payout, balance: int, ending: Ending) returns (r: Result<Tx, PayoutError>)
      requires pid in calls && calls[pid] == Inserted(p, balance)
      modifies `txs, `balances, `calls, `paid, `payers
      ensures Snapshot() == Step(old(Snapshot()), if ending == RollsBack then Abort(pid) else Advance(pid))
      ensures pid in calls && calls[pid] == Closed
      ensures r == if ending == Commits then Ok(PayoutRow(p)) else Err(CommitFailed)
      ensures if ending == RollsBack then txs == old(txs) && balances == old(balances) && payers == old(payers)
              else txs == old(txs) + [PayoutRow(p)] && balances == old(balances)[PayoutKey(p) := balance]
                   && payers == old(payers) + [pid]
    {
      hide Step;
      if ending == RollsBack {
        GiveUp(pid);
      } else {
        Commit(pid, p, balance);
      }
      r := if ending == Commits then Ok(PayoutRow(p)) else Err(CommitFailed);
    }

    /** From the insert to the commit. */
    method WaitAndCommit(pid: Pid, p: Payout, balance: int, env: seq<Event>, ending: Ending)
      returns (r: Result<Tx, PayoutError>, ghost trace: seq<Event>)
      requires pid in calls && calls[pid] == Inserted(p, balance) && Foreign(env, pid)
      modifies this
      ensures Snapshot() == Run(old(Snapshot()), trace)
      ensures pid in calls && calls[pid] == Closed
      ensures r == if ending == Commits then Ok(PayoutRow(p)) else Err(CommitFailed)
      ensures multiset(payers)[pid] == old(multiset(payers)[pid]) + if ending == RollsBack then 0 else 1
      ensures ending != RollsBack ==> PayoutRow(p) in txs
      ensures env == [] ==>
                && txs == (if ending == RollsBack then old(txs) else old(txs) + [PayoutRow(p)])
                && balances == (if ending == RollsBack then old(balances) else old(balances)[PayoutKey(p) := balance])
                && earnings == old(earnings) && events == old(events)
    {
      hide Step, Run, Foreign, IsInserted, KeyTaken;
      ghost var start := Snapshot();
      Others(pid, env);
      r := EndPayout(pid, p, balance, ending);
      var e := if ending == RollsBack then Abort(pid) else Advance(pid);
      RunSnoc(start, env, e);
      trace := env + [e];
    }

    /** From the deduction to the commit. */
    method InsertAndCommit(pid: Pid, p: Payout, balance: int, env: seq<seq<Event>>, ending: Ending)
      returns (r: Result<Tx, PayoutError>, ghost trace: seq<Event>)
      requires pid in calls && calls[pid] == Deducted(p, balance)
      requires |env| == 2 && forall i :: 0 <= i < |env| ==> Foreign(env[i], pid)
      modifies this
      ensures Snapshot() == Run(old(Snapshot()), trace)
      ensures pid in calls && calls[pid] == Closed
      ensures multiset(payers)[pid] == old(multiset(payers)[pid]) + if r.Ok? || Unanswered(ending, r) then 1 else 0
      ensures Unanswered(ending, r) ==> PayoutRow(p) in txs
      ensures r.Ok? ==> r.value == PayoutRow(p) && PayoutRow(p) in txs
      ensures r.Err? ==> r.error in {InsertRefused, LockTimeout, CommitFailed}
      ensures Still(env) && !KeyTaken(old(txs), p.key) && !IsInserted(old(calls), p.key) ==>
                && r == (if ending == Commits then Ok(PayoutRow(p)) else Err(CommitFailed))
                && txs == (if ending == RollsBack then old(txs) else old(txs) + [PayoutRow(p)])
                && balances == (if ending == RollsBack then old(balances) else old(balances)[PayoutKey(p) := balance])
                && earnings == old(earnings) && events == old(events)
    {
      hide Step, Run, Foreign, IsInserted, KeyTaken;
      ghost var start := Snapshot();
      Others(pid, env[0]);
      trace := env[0];
      if IsInserted(calls, p.key) {
        GiveUp(pid);
        RunSnoc(start, trace, Abort(pid));
        return Err(LockTimeout), trace + [Abort(pid)];
      }
      var inserted := InsertPayout(pid, p, balance);
      RunSnoc(start, trace, Advance(pid));
      trace := trace + [Advance(pid)];
      if !inserted {
        return Err(InsertRefused), trace;
      }
      ghost var rest;
      r, rest := WaitAndCommit(pid, p, balance, env[1], ending);
      RunConcat(start, trace, rest);
      trace := trace + rest;
    }

    /** From the lock to the commit. */
    method DeductAndInsert(pid: Pid, p: Payout, env: seq<seq<Event>>, ending: Ending)
      returns (r: Result<Tx, PayoutError>, ghost trace: seq<Event>)
      requires pid in calls && calls[pid] == Locked(p)
      requires |env| == 3 && forall i :: 0 <= i < |env| ==> Foreign(env[i], pid)
      modifies this
      ensures Snapshot() == Run(old(Snapshot()), trace)
      ensures pid in calls && calls[pid] == Closed
      ensures multiset(payers)[pid] == old(multiset(payers)[pid]) + if r.Ok? || Unanswered(ending, r) then 1 else 0
      ensures Unanswered(ending, r) ==> PayoutRow(p) in txs
      ensures r.Ok? ==> r.value == PayoutRow(p) && PayoutRow(p) in txs
      ensures r.Err? ==> r.error in {InsertRefused, LockTimeout, CommitFailed}
      ensures Still(env) && !KeyTaken(old(txs), p.key) && !IsInserted(old(calls), p.key) ==>
                PaysNow(old(Tables()), Tables(), p, ending, r)
    {
      hide Step, Run, Foreign, IsInserted, KeyTaken;
      ghost var start := Snapshot();
      Others(pid, env[0]);
      trace := env[0];
      Deduct(pid, p);
      RunSnoc(start, trace, Advance(pid));
      trace := trace + [Advance(pid)];
      ghost var rest;
      r, rest := InsertAndCommit(pid, p, calls[pid].balance, env[1..], ending);
      RunConcat(start, trace, rest);
      trace := trace + rest;
    }

    /** From the missing row to the end of the call. */
    method LockAndPay(pid: Pid, p: Payout, env: seq<seq<Event>>, ending: Ending)
      returns (r: Result<Tx, PayoutError>, ghost trace: seq<Event>)
      requires pid in calls && calls[pid] == Unseen(p)
      requires |env| == 4 && forall i :: 0 <= i < |env| ==> Foreign(env[i], pid)
      modifies this
      ensures Snapshot() == Run(old(Snapshot()), trace)
      ensures pid in calls && calls[pid] == Closed
      ensures multiset(payers)[pid] == old(multiset(payers)[pid]) + if r.Ok? || Unanswered(ending, r) then 1 else 0
      ensures Unanswered(ending, r) ==> PayoutRow(p) in txs
      ensures r.Ok? ==> r.value == PayoutRow(p) && PayoutRow(p) in txs
      ensures r.Err? ==> r.error != OwnerNotFound
      ensures Still(env) && Alone(old(calls), pid) && !KeyTaken(old(txs), p.key) ==> PaysOnce(old(Tables()), Tables(), p, ending, r)
    {
      hide Step, Run, Foreign, IsLocked, IsInserted, KeyTaken, PaysNow, BalanceOf;
      ghost var start := Snapshot();
      Others(pid, env[0]);
      trace := env[0];
      if Alone(calls, pid) {
        NobodyHolds(calls, pid, PayoutKey(p), p.key);
      }
      if IsLocked(calls, PayoutKey(p)) {
        GiveUp(pid);
        RunSnoc(start, trace, Abort(pid));
        return Err(LockTimeout), trace + [Abort(pid)];
      }
      var locked := LockBalance(pid, p);
      RunSnoc(start, trace, Advance(pid));
      trace := trace + [Advance(pid)];
      if !locked {
        return Err(InsufficientBalance), trace;
      }
      if Alone(calls, pid) {
        NobodyHolds(calls, pid, PayoutKey(p), p.key);
      }
      ghost var rest;
      r, rest := DeductAndInsert(pid, p, env[1..], ending);
      RunConcat(start, trace, rest);
      trace := trace + rest;
    }

    /** `recordPayout`: whatever other calls do in between, it is one call of the machine above. It answers with the
        row under its key; an error means that it paid nothing, unless the reply of its commit was lost, and then it paid;
        paying twice is impossible. */
    method RecordPayout(pid: Pid, p: Payout, ownerKnown: bool, env: seq<seq<Event>>, ending: Ending)
      returns (r: Result<Tx, PayoutError>, ghost trace: seq<Event>)
      requires pid !in calls
      requires |env| == 5 && forall i :: 0 <= i < |env| ==> Foreign(env[i], pid)
      modifies this
      ensures Snapshot() == Run(old(Snapshot()), trace)
      ensures Inv(old(Snapshot())) ==> Inv(Snapshot())
      ensures pid in calls ==> calls[pid] == Closed
      ensures r.Ok? ==> r.value in txs && r.value.key == p.key
      ensures r.Err? && !Unanswered(ending, r) ==> multiset(payers)[pid] == old(multiset(payers)[pid])
      ensures Unanswered(ending, r) ==>
                multiset(payers)[pid] == old(multiset(payers)[pid]) + 1 && exists t :: t in txs && Records(t, p)
      ensures multiset(payers)[pid] <= old(multiset(payers)[pid]) + 1
      ensures r.Ok? && multiset(payers)[pid] > old(multiset(payers)[pid]) ==> Records(r.value, p)
      ensures r == Err(OwnerNotFound) <==> !ownerKnown
      ensures ownerKnown && Undisturbed(old(calls), env) ==> PaysOnce(old(Tables()), Tables(), p, ending, r)
    {
      hide Step, Run, Foreign, Inv;
      ghost var start := Snapshot();
      trace := [];
      RunNothing(start);
      if !ownerKnown {
        return Err(OwnerNotFound), trace;
      }
      calls := calls[pid := Begun(p)];
      BeginStep(start, pid, p);
      RunSnoc(start, trace, Begin(pid, p));
      trace := trace + [Begin(pid, p)];

      Others(pid, env[0]);
      RunConcat(start, trace, env[0]);
      trace := trace + env[0];
      var existing := FindExisting(pid, p);
      RunSnoc(start, trace, Advance(pid));
      trace := trace + [Advance(pid)];
      if existing.Some? {
        r := Ok(existing.value);
      } else {
        ghost var rest;
        r, rest := LockAndPay(pid, p, env[1..], ending);
        RunConcat(start, trace, rest);
        trace := trace + rest;
      }
      if Inv(start) {
        RunKeepsInv(start, trace);
      }
    }
  }
}
