/** How often an order is settled. A settled order is settled again by a second call that passed its check, or after a
    stale write has made it PICKED once more. */
module Deliveries {
  import opened Common
  import opened Money
  import opened Ledger
  import opened OrderStatus
  import opened Settlement
  import opened Finance

  // ---------------------------------------------------------------------------
  // When an order is settled more than once
  // ---------------------------------------------------------------------------

  /** Some delivery call has found the order PICKED and not settled yet. */
  ghost predicate IsPassed(s: State, id: OrderId) {
    exists p :: p in s.delivering && s.delivering[p].id == id
  }

  ghost function Settlements(s: State, id: OrderId): nat {
    |DeliveriesOf(s.deliveries, id)|
  }

  /** Some writer of a status will set the order to PICKED. */
  ghost predicate PickedPending(s: State, id: OrderId) {
    exists p :: p in s.moving && s.moving[p] == Moving(id, PICKED)
  }

  /** The order can come to a transaction that settles it. */
  ghost predicate CanSettle(s: State, id: OrderId) {
    IsPassed(s, id) || PickedPending(s, id) || (id in s.rows && s.rows[id].status == PICKED)
  }

  /** Only a call that passed its check settles, and settling ends it and leaves the order DELIVERED. */
  lemma StepSettles(s: State, e: Event, id: OrderId)
    requires RowsInv(s.rows)
    ensures var s' := Step(s, e);
            && Settlements(s, id) <= Settlements(s', id) <= Settlements(s, id) + 1
            && (Settlements(s', id) > Settlements(s, id) ==>
                  && e.Settles? && e.pid in s.delivering && s.delivering[e.pid].id == id
                  && s'.delivering == s.delivering - {e.pid} && s'.moving == s.moving
                  && id in s'.rows && s'.rows[id].status == DELIVERED)
  {
    hide Settle, MustWait, NextPhase, DeliveriesOf, WellFormed, Transition;
    if e.Settles? && e.pid in s.delivering && s.delivering[e.pid].id in s.rows {
      DeliveriesOfSnoc(s.deliveries, Delivery(s.rows[s.delivering[e.pid].id].order, s.delivering[e.pid].agent, e.bps));
    }
  }

  lemma {:induction false} SettlementsGrow(s: State, es: seq<Event>, id: OrderId)
    requires Inv(s)
    ensures Settlements(Run(s, es), id) >= Settlements(s, id)
    decreases |es|
  {
    if es != [] {
      SettlementsGrow(s, es[..|es| - 1], id);
      RunKeepsInv(s, es[..|es| - 1]);
      StepSettles(Run(s, es[..|es| - 1]), es[|es| - 1], id);
      hide Inv, Step;
    }
  }

  lemma OnlyChecksPass(s: State, e: Event)
    requires !e.CheckPicked?
    ensures forall p :: p in Step(s, e).delivering ==> p in s.delivering && Step(s, e).delivering[p] == s.delivering[p]
  {
    hide Settle, MustWait, NextPhase, Transition;
  }

  lemma OnlyChecksMove(s: State, e: Event)
    requires !e.CheckMove?
    ensures forall p :: p in Step(s, e).moving ==> p in s.moving && Step(s, e).moving[p] == s.moving[p]
  {
    hide Settle, MustWait, NextPhase, CanDeliver;
  }

  /** A taken order gets PICKED from a write that is pending. */
  lemma OnlyWritesPick(s: State, e: Event, id: OrderId)
    requires id in s.rows && Taken(s.rows[id]) && s.rows[id].status != PICKED && !PickedPending(s, id)
    ensures id in Step(s, e).rows && Step(s, e).rows[id].status != PICKED
  {
    hide Settle, MustWait, NextPhase, Transition, CanDeliver;
  }

  lemma PickedComesFromAssigned(status: Status)
    ensures Transition(status, PICKED).Some? <==> status == ASSIGNED
  {
  }

  lemma NoneBecomesPassed(s: State, e: Event, id: OrderId)
    requires id in s.rows && s.rows[id].status != PICKED && !IsPassed(s, id)
    ensures !IsPassed(Step(s, e), id)
  {
    if e.CheckPicked? {
    } else {
      OnlyChecksPass(s, e);
      hide Step;
    }
  }

  lemma NoneWillPick(s: State, e: Event, id: OrderId)
    requires id in s.rows && Taken(s.rows[id]) && !PickedPending(s, id)
    ensures !PickedPending(Step(s, e), id)
  {
    if e.CheckMove? {
      PickedComesFromAssigned(s.rows[id].status);
      hide Transition;
    } else {
      OnlyChecksMove(s, e);
      hide Step;
    }
  }

  /** A settled order without a rival settles no more. */
  lemma NobodyPassesLater(s: State, e: Event, id: OrderId)
    requires Inv(s) && Settlements(s, id) > 0 && !CanSettle(s, id)
    ensures !CanSettle(Step(s, e), id) && Settlements(Step(s, e), id) == Settlements(s, id)
  {
    assert OrderInv(s.rows, s.deliveries, s.books, s.share, id);
    StepSettles(s, e, id);
    hide Inv, Settlements;
    assert id in s.rows && Taken(s.rows[id]);
    hide OrderInv;
    NoneBecomesPassed(s, e, id);
    NoneWillPick(s, e, id);
    OnlyWritesPick(s, e, id);
    hide Step, PickedPending;
  }

  lemma {:induction false} NobodyPassesEver(s: State, es: seq<Event>, id: OrderId)
    requires Inv(s) && Settlements(s, id) > 0 && !CanSettle(s, id)
    ensures !CanSettle(Run(s, es), id) && Settlements(Run(s, es), id) == Settlements(s, id)
    decreases |es|
  {
    if es != [] {
      NobodyPassesEver(s, es[..|es| - 1], id);
      RunKeepsInv(s, es[..|es| - 1]);
      NobodyPassesLater(Run(s, es[..|es| - 1]), es[|es| - 1], id);
      hide Inv, Step, CanSettle;
    }
  }

  lemma StepSettlesOnce(s: State, e: Event, id: OrderId)
    requires Inv(s) && Settlements(s, id) == 0
    ensures Settlements(Step(s, e), id) <= 1
  {
    StepSettles(s, e, id);
  }

  /** The moment of the first settlement. */
  lemma {:induction false} FirstSettles(s: State, es: seq<Event>, id: OrderId)
    returns (before: seq<Event>, e: Event, after: seq<Event>)
    requires Inv(s) && Settlements(s, id) == 0 && Settlements(Run(s, es), id) > 0
    ensures es == before + [e] + after
    ensures Settlements(Run(s, before), id) == 0 && Settlements(Step(Run(s, before), e), id) == 1
    decreases |es|
  {
    hide Inv, Step, Settlements;
    assert es != [];
    var init, last := es[..|es| - 1], es[|es| - 1];
    assert es == init + [last];
    if Settlements(Run(s, init), id) > 0 {
      before, e, after := FirstSettles(s, init, id);
      after := after + [last];
    } else {
      before, e, after := init, last, [];
      RunKeepsInv(s, init);
      StepSettlesOnce(Run(s, init), last, id);
    }
  }

  lemma NothingSettledYet(share: Rate, id: OrderId)
    ensures Settlements(Initial(share), id) == 0
  {
  }

  /** Beside the call that settles, another call has passed its check, or a write of PICKED is pending. */
  ghost predicate Rival(s: State, id: OrderId, pid: Pid) {
    (exists q :: q != pid && q in s.delivering && s.delivering[q].id == id) || PickedPending(s, id)
  }

  /** The order is settled for the first time, beside a rival. */
  ghost predicate SettlesBesideRival(s: State, e: Event, id: OrderId) {
    e.Settles? && Settlements(s, id) == 0 && Settlements(Step(s, e), id) == 1 && Rival(s, id, e.pid)
  }

  lemma RivalsRemain(s: State, e: Event, id: OrderId)
    requires Inv(s) && Settlements(s, id) == 0 && Settlements(Step(s, e), id) == 1
    ensures e.Settles? && (CanSettle(Step(s, e), id) <==> Rival(s, id, e.pid))
  {
    StepSettles(s, e, id);
    hide Inv, Settlements;
    var s' := Step(s, e);
    assert s'.delivering == s.delivering - {e.pid} && s'.moving == s.moving;
    hide Step;
    if IsPassed(s', id) {
      var q :| q in s'.delivering && s'.delivering[q].id == id;
      assert q != e.pid && q in s.delivering;
    }
    if q :| q != e.pid && q in s.delivering && s.delivering[q].id == id {
      assert q in s'.delivering;
    }
    assert PickedPending(s', id) <==> PickedPending(s, id);
  }

  /** In every run that settles an order more than once, another call had passed its check or a write of PICKED was pending
      when it was first settled. */
  lemma SecondSettlementHadARival(share: Rate, es: seq<Event>, id: OrderId)
    requires Settlements(Run(Initial(share), es), id) >= 2
    ensures exists i :: 0 <= i < |es| && SettlesBesideRival(Run(Initial(share), es[..i]), es[i], id)
  {
    var s := Initial(share);
    InitialInv(share);
    hide Inv, Step, Run, Settlements, CanSettle, Rival;
    NothingSettledYet(share, id);
    var before, e, after := FirstSettles(s, es, id);
    var s0 := Run(s, before);
    RunKeepsInv(s, before);
    StepKeepsInv(s0, e);
    RunConcat(s, before + [e], after);
    RunSnoc(s, before, e);
    if !CanSettle(Step(s0, e), id) {
      NobodyPassesEver(Step(s0, e), after, id);
    }
    RivalsRemain(s0, e, id);
    assert es[..|before|] == before && es[|before|] == e;
  }

  lemma OneDelivery(d: Delivery)
    ensures RowsAfter(d.order, Commissions([d])) == FirstRows(d.order, Commission(d.order, d.bps))
    ensures EventsFor([d]) == [EventOf(d)]
  {
    DeliveriesNext([], d);
    assert [] + [d] == [d];
    FirstRowsAfter(d.order, Commission(d.order, d.bps));
    hide FirstRows, Commission;
  }

  lemma OneSettlement(b: Books, o: Order, d: Delivery, share: Rate)
    requires SettledBy(b, o, [d], share) && d.order == o
    ensures RowsOf(b.txs, o.id) == FirstRows(o, Commission(o, d.bps))
    ensures EventsOf(b.events, o.id) == [EventOf(d)]
    ensures if EarningOf(d, share).amount > 0 then o.id in b.earnings && b.earnings[o.id] == EarningOf(d, share)
            else o.id !in b.earnings
  {
    OneDelivery(d);
    hide RowsOf, FirstRows, RowsAfter, EventsOf, EventsFor, Commission;
  }

  /** If no other call has passed its check and no write of PICKED is pending when an order is first settled, failed and
      repeated calls included: it is delivered through `deliver` at most once, exactly then its settlement is in the books,
      complete and once, and otherwise nothing of it is. */
  lemma SettledExactlyOnce(share: Rate, es: seq<Event>, id: OrderId)
    requires forall i :: 0 <= i < |es| ==> !SettlesBesideRival(Run(Initial(share), es[..i]), es[i], id)
    ensures var s := Run(Initial(share), es);
            var mine := DeliveriesOf(s.deliveries, id);
            && |mine| <= 1
            && (mine == [] ==> NotSettled(s.books, id))
            && (mine != [] ==>
                  && id in s.rows && s.rows[id].order == mine[0].order
                  && RowsOf(s.books.txs, id) == FirstRows(mine[0].order, Commission(mine[0].order, mine[0].bps))
                  && EventsOf(s.books.events, id) == [EventOf(mine[0])]
                  && (if EarningOf(mine[0], share).amount > 0
                      then id in s.books.earnings && s.books.earnings[id] == EarningOf(mine[0], share)
                      else id !in s.books.earnings))
  {
    var s := Run(Initial(share), es);
    var mine := DeliveriesOf(s.deliveries, id);
    if |mine| >= 2 {
      SecondSettlementHadARival(share, es, id);
    }
    BooksHoldTheDeliveries(share, es, id);
    InitialInv(share);
    RunKeepsInv(Initial(share), es);
    DeliveriesOfMembers(s.deliveries, id);
    hide Run, Inv, RowsOf, FirstRows, RowsAfter, SettledBy, EventsOf, NotSettled, SettlesBesideRival, DeliveriesOf;
    if mine != [] {
      assert mine == [mine[0]];
      OneSettlement(s.books, s.rows[id].order, mine[0], share);
    }
  }

  // ---------------------------------------------------------------------------
  // A passed call can always settle
  // ---------------------------------------------------------------------------

  predicate AllClosed(calls: map<Pid, Phase>) {
    forall p :: p in calls ==> calls[p] == Closed
  }

  lemma NobodyWaits(calls: map<Pid, Phase>, o: Order)
    requires AllClosed(calls)
    ensures !MustWait(calls, o)
  {
  }

  /** All payout calls can be aborted. */
  lemma {:induction false} CloseCalls(s: State, open: set<Pid>) returns (es: seq<Event>)
    requires forall p :: p in s.calls && s.calls[p] != Closed ==> p in open
    ensures var s' := Run(s, es); s' == s.(calls := s'.calls) && AllClosed(s'.calls)
    decreases |open|
  {
    es := [];
    if p :| p in open {
      var s1 := Step(s, Abort(p));
      var rest := CloseCalls(s1, open - {p});
      RunConcat(s, [Abort(p)], rest);
      RunOne(s, Abort(p));
      es := [Abort(p)] + rest;
    }
  }

  /** The next phase of call 0, from `calls` on. */
  lemma AdvancesTo(s: State, calls: map<Pid, Phase>, c: Phase, c': Phase)
    requires !c.Inserted? && NextPhase(s.books, calls[0 := c], c) == c'
    ensures Step(s.(calls := calls[0 := c]), Advance(0)) == s.(calls := calls[0 := c'])
  {
    hide NextPhase;
    assert calls[0 := c][0 := c'] == calls[0 := c'];
  }

  lemma PayoutOpens(s: State, p: Payout)
    requires AllClosed(s.calls) && !KeyTaken(s.books.txs, p.key)
    ensures Run(s, [Begin(0, p), Advance(0)]) == s.(calls := s.calls[0 := Unseen(p)])
  {
    RunTwo(s, Begin(0, p), Advance(0));
    assert Step(s, Begin(0, p)) == s.(calls := s.calls[0 := Begun(p)]);
    AdvancesTo(s, s.calls, Begun(p), Unseen(p));
    hide KeyTaken, Step, Run;
  }

  lemma PayoutDeducts(s: State, p: Payout)
    requires !IsLocked(s.calls[0 := Unseen(p)], PayoutKey(p)) && BalanceOf(s.books.balances, PayoutKey(p)) == p.amount
    ensures Run(s.(calls := s.calls[0 := Unseen(p)]), [Advance(0), Advance(0)]) == s.(calls := s.calls[0 := Deducted(p, 0)])
  {
    hide IsLocked, Step, Run;
    RunTwo(s.(calls := s.calls[0 := Unseen(p)]), Advance(0), Advance(0));
    AdvancesTo(s, s.calls, Unseen(p), Locked(p));
    AdvancesTo(s, s.calls, Locked(p), Deducted(p, 0));
  }

  lemma PayoutCommits(s: State, p: Payout)
    requires AllClosed(s.calls) && !KeyTaken(s.books.txs, p.key) && !IsInserted(s.calls[0 := Deducted(p, 0)], p.key)
    ensures var s' := Run(s.(calls := s.calls[0 := Deducted(p, 0)]), [Advance(0), Advance(0)]);
            && s'.rows == s.rows && s'.delivering == s.delivering && s'.moving == s.moving && s'.deliveries == s.deliveries
            && AllClosed(s'.calls) && BalanceOf(s'.books.balances, PayoutKey(p)) == 0
  {
    hide KeyTaken, IsInserted, Run;
    RunTwo(s.(calls := s.calls[0 := Deducted(p, 0)]), Advance(0), Advance(0));
    AdvancesTo(s, s.calls, Deducted(p, 0), Inserted(p, 0));
  }

  lemma NoLocks(calls: map<Pid, Phase>, pid: Pid, p: Payout)
    requires AllClosed(calls)
    ensures !IsLocked(calls[pid := Unseen(p)], PayoutKey(p))
    ensures forall balance :: !IsInserted(calls[pid := Deducted(p, balance)], p.key)
  {
  }

  /** A balance can be paid out to the last unit. */
  lemma PayOutAll(s: State, k: BalanceKey) returns (es: seq<Event>)
    requires Inv(s) && AllClosed(s.calls) && BalanceOf(s.books.balances, k) > 0
    ensures var s' := Run(s, es);
            && s'.rows == s.rows && s'.delivering == s.delivering && s'.moving == s.moving && s'.deliveries == s.deliveries
            && AllClosed(s'.calls) && BalanceOf(s'.books.balances, k) == 0
  {
    var n := FreshKey(s.books.txs);
    var p := Payout(k.0, 0, BalanceOf(s.books.balances, k), k.1, "", Absent(n));
    assert PayoutKey(p) == k;
    NoLocks(s.calls, 0, p);
    hide Inv, KeyTaken, IsLocked, IsInserted, Step, Run, BalanceOf;
    PayoutOpens(s, p);
    PayoutDeducts(s, p);
    PayoutCommits(s, p);
    es := [Begin(0, p), Advance(0)] + [Advance(0), Advance(0)] + [Advance(0), Advance(0)];
    RunConcat(s, [Begin(0, p), Advance(0)] + [Advance(0), Advance(0)], [Advance(0), Advance(0)]);
    RunConcat(s, [Begin(0, p), Advance(0)], [Advance(0), Advance(0)]);
  }

  lemma NetIs(o: Order, bps: Rate)
    requires o.subtotal >= 0
    ensures 0 <= Commission(o, bps) <= o.subtotal && Net(o, bps) == o.subtotal - Commission(o, bps)
    ensures bps == 0 ==> Commission(o, bps) == 0
  {
    ShareIsWithin(o.subtotal, bps);
  }

  lemma CreditFits(balances: map<BalanceKey, int>, k: BalanceKey, net: int)
    requires 0 <= BalanceOf(balances, k) && 0 <= net && BalanceOf(balances, k) + net <= MAX_INT32
    ensures Credit(balances, k, net).Some?
  {
  }

  lemma SettledBefore(s: State, id: OrderId)
    requires Inv(s) && Settlements(s, id) > 0 && id in s.rows
    ensures var o := s.rows[id].order;
            var commissions := Commissions(DeliveriesOf(s.deliveries, id));
            && commissions != [] && KeysDistinct(s.books.txs)
            && RowsOf(s.books.txs, o.id) == RowsAfter(o, commissions)
            && (Share(o.deliveryFee, s.share) > 0 ==> o.id in s.books.earnings)
  {
    assert OrderInv(s.rows, s.deliveries, s.books, s.share, id);
    assert KeysDistinct(s.books.txs);
    hide Inv, RowsOf, RowsAfter, KeysDistinct, EventsOf, EventsFor;
  }

  lemma BalancesAreNotNegative(s: State, k: BalanceKey)
    requires Inv(s)
    ensures BalanceOf(s.books.balances, k) >= 0
  {
    hide LedgerInv, CallsInv, OrdersInv, RowsInv, PassedInv, MovesInv, Credits, Payouts;
    var (restaurant, currency) := k;
    assert MoneyInv(s) && k == (restaurant, currency);
    assert 0 <= BalanceOf(s.books.balances, (restaurant, currency))
             == Credits(s.deliveries, restaurant, currency) - Payouts(s.paid, restaurant, currency);
  }

  lemma SettleableAgain(s: State, id: OrderId, agent: int)
    requires Inv(s) && Settlements(s, id) > 0 && id in s.rows
    requires BalanceOf(s.books.balances, KeyOf(s.rows[id].order)) + s.rows[id].order.subtotal <= MAX_INT32
    ensures Settle(s.books, s.rows[id].order, agent, 0, s.share).Some?
  {
    var o := s.rows[id].order;
    BalancesAreNotNegative(s, KeyOf(o));
    SettledBefore(s, id);
    SettledSoFar(s, id);
    NetIs(o, 0);
    CreditFits(s.books.balances, KeyOf(o), Net(o, 0));
    hide Inv, Share, Commission, Net, Credit, BalanceOf, Settle, SettledBy, RowsOf, RowsAfter, DeliveriesOf,
         Commissions, KeyTaken, AnyPositive, KeysDistinct, Settlements;
    SettlingAgainCreditsAgain(s.books, o, agent, 0, s.share, Commissions(DeliveriesOf(s.deliveries, id)));
  }

  lemma SettlesStep(s: State, pid: Pid, bps: Rate)
    requires pid in s.delivering && s.delivering[pid].id in s.rows && !MustWait(s.calls, s.rows[s.delivering[pid].id].order)
    requires Settle(s.books, s.rows[s.delivering[pid].id].order, s.delivering[pid].agent, bps, s.share).Some?
    ensures var (id, agent) := (s.delivering[pid].id, s.delivering[pid].agent);
            Step(s, Settles(pid, bps, false))
            == CommitDelivery(s, pid, id, agent, bps, Settle(s.books, s.rows[id].order, agent, bps, s.share).value)
  {
    hide Settle, MustWait;
  }

  /** With no payout under way and room in the balance, a passed call of a settled order settles it again. */
  lemma PassedSettlesAgain(s: State, p: Pid, id: OrderId)
    requires Inv(s) && p in s.delivering && s.delivering[p].id == id && Settlements(s, id) > 0
    requires AllClosed(s.calls)
    requires id in s.rows && BalanceOf(s.books.balances, KeyOf(s.rows[id].order)) + s.rows[id].order.subtotal <= MAX_INT32
    ensures Settlements(Step(s, Settles(p, 0, false)), id) == Settlements(s, id) + 1
  {
    var o, agent := s.rows[id].order, s.delivering[p].agent;
    NobodyWaits(s.calls, o);
    SettleableAgain(s, id, agent);
    DeliveriesOfSnoc(s.deliveries, Delivery(o, agent, 0));
    assert o.id == id by {
      SettledSoFar(s, id);
    }
    hide Inv, OrderInv, Settle, MustWait, DeliveriesOf, Step;
    SettlesStep(s, p, 0);
  }

  lemma PassedCanSettle(s: State, id: OrderId) returns (more: seq<Event>)
    requires Inv(s) && IsPassed(s, id) && Settlements(s, id) > 0
    ensures Settlements(Run(s, more), id) > Settlements(s, id)
  {
    assert OrderInv(s.rows, s.deliveries, s.books, s.share, id);
    var p :| p in s.delivering && s.delivering[p].id == id;
    var k := KeyOf(s.rows[id].order);
    assert WellFormed(s.rows[id].order);
    hide Inv, OrderInv, Step, Run, AllClosed, WellFormed;
    more := CloseCalls(s, s.calls.Keys);
    var s1 := Run(s, more);
    RunKeepsInv(s, more);
    if BalanceOf(s1.books.balances, k) > 0 {
      var payout := PayOutAll(s1, k);
      RunConcat(s, more, payout);
      more := more + payout;
      RunKeepsInv(s, more);
    } else {
      BalancesAreNotNegative(s1, k);
    }
    var s2 := Run(s, more);
    PassedSettlesAgain(s2, p, id);
    RunSnoc(s, more, Settles(p, 0, false));
    more := more + [Settles(p, 0, false)];
  }

  lemma {:induction false} Above(pids: set<Pid>) returns (top: Pid)
    ensures forall p :: p in pids ==> p < top
  {
    top := 0;
    if p :| p in pids {
      var rest := Above(pids - {p});
      top := if p < rest then rest else p + 1;
      assert forall q :: q in pids ==> q == p || q in pids - {p};
    }
  }

  lemma CheckPasses(s: State, pid: Pid, id: OrderId, agent: int)
    requires pid !in s.delivering && CanDeliver(s.rows, id, agent)
    ensures var t := Step(s, CheckPicked(pid, id, agent));
            t.deliveries == s.deliveries && IsPassed(t, id)
  {
    assert Step(s, CheckPicked(pid, id, agent)).delivering[pid] == Passed(id, agent);
  }

  lemma PickedCanSettle(s: State, id: OrderId) returns (more: seq<Event>)
    requires Inv(s) && Settlements(s, id) > 0 && id in s.rows && s.rows[id].status == PICKED
    ensures Settlements(Run(s, more), id) > Settlements(s, id)
  {
    assert OrderInv(s.rows, s.deliveries, s.books, s.share, id);
    var agent := s.rows[id].agent.value;
    hide Inv, OrderInv, Step, Run, IsPassed;
    var pid := Above(s.delivering.Keys);
    var e := CheckPicked(pid, id, agent);
    CheckPasses(s, pid, id, agent);
    StepKeepsInv(s, e);
    more := PassedCanSettle(Step(s, e), id);
    RunConcat(s, [e], more);
    RunOne(s, e);
    more := [e] + more;
  }

  lemma WritePicks(s: State, pid: Pid, id: OrderId)
    requires pid in s.moving && s.moving[pid] == Moving(id, PICKED) && id in s.rows
    ensures var t := Step(s, WriteMove(pid, true));
            t.deliveries == s.deliveries && id in t.rows && t.rows[id].status == PICKED
  {
  }

  lemma RivalCanSettle(s: State, id: OrderId) returns (more: seq<Event>)
    requires Inv(s) && CanSettle(s, id) && Settlements(s, id) > 0
    ensures Settlements(Run(s, more), id) > Settlements(s, id)
  {
    assert OrderInv(s.rows, s.deliveries, s.books, s.share, id);
    assert id in s.rows;
    hide Inv, OrderInv, Step, Run, IsPassed;
    if IsPassed(s, id) {
      more := PassedCanSettle(s, id);
    } else if s.rows[id].status == PICKED {
      more := PickedCanSettle(s, id);
    } else {
      var p :| p in s.moving && s.moving[p] == Moving(id, PICKED);
      var e := WriteMove(p, true);
      WritePicks(s, p, id);
      StepKeepsInv(s, e);
      more := PickedCanSettle(Step(s, e), id);
      RunConcat(s, [e], more);
      RunOne(s, e);
      more := [e] + more;
    }
  }

  /** In every reachable state a settled order can be settled again if and only if some call has passed its check and not
      ended, or some writer is about to set it to PICKED, or it is PICKED again. */
  lemma SettledAgainIffRivalRemains(share: Rate, es: seq<Event>, id: OrderId)
    requires Settlements(Run(Initial(share), es), id) > 0
    ensures var s := Run(Initial(share), es);
            (exists more :: Settlements(Run(s, more), id) > Settlements(s, id)) <==> CanSettle(s, id)
  {
    var s := Run(Initial(share), es);
    InitialInv(share);
    RunKeepsInv(Initial(share), es);
    hide Inv, Run, Settlements, CanSettle;
    if CanSettle(s, id) {
      var more := RivalCanSettle(s, id);
    } else {
      forall more ensures Settlements(Run(s, more), id) == Settlements(s, id) {
        NobodyPassesEver(s, more, id);
      }
    }
  }

  /** An order stays settled once for good if and only if, when it was first settled, no other call had passed its check and
      no write of PICKED was pending. */
  lemma SettledOnceForGoodIffNoRival(share: Rate, es: seq<Event>, p: Pid, bps: Rate, id: OrderId)
    requires Settlements(Run(Initial(share), es), id) == 0
    requires Settlements(Step(Run(Initial(share), es), Settles(p, bps, false)), id) == 1
    ensures var s := Run(Initial(share), es);
            var s' := Step(s, Settles(p, bps, false));
            (forall more :: Settlements(Run(s', more), id) == 1) <==> !Rival(s, id, p)
  {
    var s, e := Run(Initial(share), es), Settles(p, bps, false);
    var s' := Step(s, e);
    InitialInv(share);
    RunKeepsInv(Initial(share), es);
    RunSnoc(Initial(share), es, e);
    SettledAgainIffRivalRemains(share, es + [e], id);
    RunKeepsInv(Initial(share), es + [e]);
    RivalsRemain(s, e, id);
    hide Inv, Run, Settlements, CanSettle, Step, Rival;
    forall more ensures Settlements(Run(s', more), id) >= 1 {
      SettlementsGrow(s', more, id);
    }
  }

  /** Every write of the order's status that is pending writes DELIVERED. */
  ghost predicate OnlyDeliveredPending(s: State, id: OrderId) {
    forall p :: p in s.moving && s.moving[p].id == id ==> s.moving[p].next == DELIVERED
  }

  lemma DeliveredStep(s: State, e: Event, id: OrderId)
    requires id in s.rows && s.rows[id].status == DELIVERED && OnlyDeliveredPending(s, id)
    ensures var t := Step(s, e);
            id in t.rows && t.rows[id].status == DELIVERED && OnlyDeliveredPending(t, id)
  {
    hide Settle, MustWait, NextPhase, CanDeliver;
  }

  lemma {:induction false} DeliveredRun(s: State, more: seq<Event>, id: OrderId)
    requires id in s.rows && s.rows[id].status == DELIVERED && OnlyDeliveredPending(s, id)
    ensures var t := Run(s, more);
            id in t.rows && t.rows[id].status == DELIVERED && OnlyDeliveredPending(t, id)
    decreases |more|
  {
    if more != [] {
      DeliveredRun(s, more[..|more| - 1], id);
      DeliveredStep(Run(s, more[..|more| - 1]), more[|more| - 1], id);
      hide Step, OnlyDeliveredPending;
    }
  }

  /** In any state, reachable or not, a delivered order stays DELIVERED in all continuations if and only if no writer that
      passed its check is about to set it to another status. */
  lemma DeliveredStaysIffNoOtherWrite(s: State, id: OrderId)
    requires id in s.rows && s.rows[id].status == DELIVERED
    ensures (forall more :: id in Run(s, more).rows && Run(s, more).rows[id].status == DELIVERED) <==> OnlyDeliveredPending(s, id)
  {
    if OnlyDeliveredPending(s, id) {
      forall more ensures id in Run(s, more).rows && Run(s, more).rows[id].status == DELIVERED {
        DeliveredRun(s, more, id);
      }
    } else {
      var p :| p in s.moving && s.moving[p].id == id && s.moving[p].next != DELIVERED;
      RunOne(s, WriteMove(p, true));
      assert Run(s, [WriteMove(p, true)]).rows[id].status == s.moving[p].next;
    }
  }

  lemma CommitsWhenGrown(s: State, e: Event, id: OrderId)
    requires Settlements(Step(s, e), id) > Settlements(s, id)
    requires e.Settles? && e.pid in s.delivering && s.delivering[e.pid].id == id
    ensures id in s.rows
    ensures Settle(s.books, s.rows[id].order, s.delivering[e.pid].agent, e.bps, s.share) == Some(Step(s, e).books)
  {
    hide Settle, MustWait, DeliveriesOf;
  }

  lemma SettlesAgain(s: State, e: Event, id: OrderId)
    requires Inv(s) && Settlements(s, id) > 0 && Settlements(Step(s, e), id) > Settlements(s, id)
    requires e.Settles? && e.pid in s.delivering && s.delivering[e.pid].id == id
    ensures id in s.rows && s.rows[id].order.id == id
    ensures var o := s.rows[id].order;
            var again := Settle(s.books, o, s.delivering[e.pid].agent, e.bps, s.share);
            var c := Share(o.subtotal, e.bps);
            && again.Some? && Step(s, e).books == again.value
            && again.value.earnings == s.books.earnings
            && PaysOut(s.books, again.value, o, s.delivering[e.pid].agent, e.bps, s.share)
            && again.value.txs == s.books.txs
               + (if c > 0 && !AnyPositive(Commissions(DeliveriesOf(s.deliveries, id)))
                  then [Tx(Some(id), COMMISSION, SUCCEEDED, c, o.currency, Some(o.owner), None, None, CommissionOf(id))] else [])
  {
    hide Inv, Share, PaysOut, Settle, SettledBy, RowsOf, RowsAfter, Commissions, KeysDistinct, MustWait, AnyPositive,
         BalanceOf, Credit, KeyTaken, WellFormed, Step, Settlements, DeliveriesOf;
    CommitsWhenGrown(s, e, id);
    SettledSoFar(s, id);
    SettledBefore(s, id);
    SettlingAgainCreditsAgain(s.books, s.rows[id].order, s.delivering[e.pid].agent, e.bps, s.share,
                              Commissions(DeliveriesOf(s.deliveries, id)));
  }

  /** Whatever the run, each further settlement of an order credits its net and inserts its event again; the earning
      stays, and the ledger too unless this is the first settlement with a positive commission. */
  lemma EachFurtherSettlement(share: Rate, es: seq<Event>, e: Event, id: OrderId)
    requires var s := Run(Initial(share), es);
             Settlements(s, id) > 0 && Settlements(Step(s, e), id) > Settlements(s, id)
    ensures var s := Run(Initial(share), es);
            var s' := Step(s, e);
            && e.Settles? && e.pid in s.delivering && id in s.rows
            && var o := s.rows[id].order;
               var c := Share(o.subtotal, e.bps);
               var due := c > 0 && !AnyPositive(Commissions(DeliveriesOf(s.deliveries, id)));
               (&& PaysOut(s.books, s'.books, o, s.delivering[e.pid].agent, e.bps, share)
                && s'.books.earnings == s.books.earnings
                && s'.books.txs
                   == s.books.txs
                      + if due then [Tx(Some(id), COMMISSION, SUCCEEDED, c, o.currency, Some(o.owner), None, None, CommissionOf(id))]
                        else [])
  {
    var s := Run(Initial(share), es);
    InitialInv(share);
    RunKeepsInv(Initial(share), es);
    ShareStays(Initial(share), es);
    StepSettles(s, e, id);
    SettlesAgain(s, e, id);
    hide Run, Inv, Step, PaysOut;
  }

  // ---------------------------------------------------------------------------
  // Two overlapping deliveries
  // ---------------------------------------------------------------------------

  lemma OrderIsAssigned(share: Rate, o: Order, agent: int)
    requires WellFormed(o)
    ensures Run(Initial(share), [Place(o, READY), Claim(o.id, agent)])
            == Initial(share).(rows := map[o.id := OrderRow(o, ASSIGNED, Some(agent))])
  {
    RunTwo(Initial(share), Place(o, READY), Claim(o.id, agent));
    hide Run, WellFormed;
    assert Step(Initial(share), Place(o, READY)) == Initial(share).(rows := map[o.id := OrderRow(o, READY, None)]);
  }

  lemma FirstWrites(s: State, o: Order, agent: int)
    requires s.rows == map[o.id := OrderRow(o, ASSIGNED, Some(agent))]
    requires s.moving == map[1 := Moving(o.id, PICKED), 2 := Moving(o.id, PICKED)]
    ensures Step(s, WriteMove(1, true))
            == s.(rows := map[o.id := OrderRow(o, PICKED, Some(agent))], moving := map[2 := Moving(o.id, PICKED)])
  {
  }

  /** Two pickups pass their check, one writes. */
  lemma OnePickupWrites(s: State, o: Order, agent: int)
    requires s.rows == map[o.id := OrderRow(o, ASSIGNED, Some(agent))] && s.moving == map[]
    ensures Run(s, [CheckMove(1, o.id, PICKED), CheckMove(2, o.id, PICKED), WriteMove(1, true)])
            == s.(rows := map[o.id := OrderRow(o, PICKED, Some(agent))], moving := map[2 := Moving(o.id, PICKED)])
  {
    var e1, e2, e3 := CheckMove(1, o.id, PICKED), CheckMove(2, o.id, PICKED), WriteMove(1, true);
    assert [e1, e2, e3] == [e1, e2] + [e3];
    RunTwo(s, e1, e2);
    RunSnoc(s, [e1, e2], e3);
    hide Run;
    var s1 := s.(moving := map[1 := Moving(o.id, PICKED)]);
    var s2 := s.(moving := map[1 := Moving(o.id, PICKED), 2 := Moving(o.id, PICKED)]);
    assert Step(s, e1) == s1;
    assert Step(s1, e2) == s2;
    hide Step;
    FirstWrites(s2, o, agent);
  }

  lemma BothPass(s: State, o: Order, agent: int)
    requires s.rows == map[o.id := OrderRow(o, PICKED, Some(agent))] && s.delivering == map[]
    ensures Run(s, [CheckPicked(1, o.id, agent), CheckPicked(2, o.id, agent)])
            == s.(delivering := map[1 := Passed(o.id, agent), 2 := Passed(o.id, agent)])
  {
    RunTwo(s, CheckPicked(1, o.id, agent), CheckPicked(2, o.id, agent));
    hide Run;
    var s1 := s.(delivering := map[1 := Passed(o.id, agent)]);
    assert Step(s, CheckPicked(1, o.id, agent)) == s1;
    assert Step(s1, CheckPicked(2, o.id, agent)) == s1.(delivering := s1.delivering[2 := Passed(o.id, agent)]);
  }

  lemma NoneDue(c: int)
    ensures AnyPositive([c]) <==> c > 0
  {
    assert [c][0] == c;
  }

  /** The books after `n` settlements of a fresh order. */
  ghost predicate CreditedTimes(b: Books, o: Order, agent: int, bps: Rate, n: nat) {
    && BalanceOf(b.balances, (o.restaurant, o.currency)) == Times(n, o.subtotal - Share(o.subtotal, bps))
    && b.txs == FirstRows(o, Share(o.subtotal, bps))
    && b.events == seq(n, _ => DeliveredEvent(o.id, agent, Share(o.subtotal, bps)))
  }

  lemma CreditedOnceMore(b: Books, b': Books, o: Order, agent: int, bps: Rate, share: Rate, n: nat)
    requires CreditedTimes(b, o, agent, bps, n) && PaysOut(b, b', o, agent, bps, share) && b'.txs == b.txs
    ensures CreditedTimes(b', o, agent, bps, n + 1)
  {
    TimesNext(n, o.subtotal - Share(o.subtotal, bps));
    hide Share, FirstRows, Times, BalanceOf;
  }

  lemma FreshOrderGoesThrough(o: Order, agent: int, bps: Rate, share: Rate)
    requires WellFormed(o)
    ensures Settle(Books([], map[], map[], []), o, agent, bps, share).Some?
  {
    NetIs(o, bps);
    ShareIsWithin(o.deliveryFee, share);
    FirstSettlementGoesThroughIff(Books([], map[], map[], []), o, agent, bps, share);
    hide Settle, Share;
  }

  lemma CreditedOnce(b: Books, o: Order, agent: int, bps: Rate, share: Rate)
    requires b.txs == FirstRows(o, Share(o.subtotal, bps)) && PaysOut(Books([], map[], map[], []), b, o, agent, bps, share)
    ensures CreditedTimes(b, o, agent, bps, 1)
  {
    var net := o.subtotal - Share(o.subtotal, bps);
    TimesNext(0, net);
    hide Share, FirstRows, Times;
    assert BalanceOf(b.balances, (o.restaurant, o.currency)) == BalanceOf(map[], (o.restaurant, o.currency)) + net;
  }

  lemma EarnedOnce(b: Books, o: Order, agent: int, bps: Rate, share: Rate)
    requires PaysOut(Books([], map[], map[], []), b, o, agent, bps, share)
    ensures Share(o.deliveryFee, share) > 0 ==> o.id in b.earnings
  {
    hide Share, BalanceOf;
  }

  /** A delivery of a fresh order into empty books. */
  lemma FreshOrderSettles(o: Order, agent: int, bps: Rate, share: Rate)
    requires WellFormed(o)
    ensures var b := Settle(Books([], map[], map[], []), o, agent, bps, share);
            && b.Some? && CreditedTimes(b.value, o, agent, bps, 1)
            && KeysDistinct(b.value.txs) && RowsOf(b.value.txs, o.id) == RowsAfter(o, [Share(o.subtotal, bps)])
            && (Share(o.deliveryFee, share) > 0 ==> o.id in b.value.earnings)
  {
    var empty := Books([], map[], map[], []);
    assert KeysDistinct(empty.txs) && RowsOf(empty.txs, o.id) == [];
    hide Share, FirstRows, RowsAfter, RowsAdded, CreditedTimes, Settle, WellFormed, BalanceOf, KeysDistinct, RowsOf, PayoutsOf,
         PaysOut;
    FreshOrderGoesThrough(o, agent, bps, share);
    var c, b := Share(o.subtotal, bps), Settle(empty, o, agent, bps, share).value;
    FirstRowsAfter(o, c);
    FirstSettlement(empty, o, agent, bps, share);
    assert [] + [c] == [c] && [] + FirstRows(o, c) == FirstRows(o, c);
    EarnedOnce(b, o, agent, bps, share);
    CreditedOnce(b, o, agent, bps, share);
  }

  lemma SettlesFresh(s: State, o: Order, agent: int, bps: Rate, pid: Pid)
    requires WellFormed(o) && s.books == Books([], map[], map[], []) && s.calls == map[]
    requires pid in s.delivering && s.delivering[pid] == Passed(o.id, agent)
    requires o.id in s.rows && s.rows[o.id].order == o
    ensures var t := Step(s, Settles(pid, bps, false));
            var b := Settle(s.books, o, agent, bps, s.share);
            && b.Some? && t == CommitDelivery(s, pid, o.id, agent, bps, b.value) && CreditedTimes(b.value, o, agent, bps, 1)
  {
    hide Settle, RowsOf, RowsAfter, KeysDistinct, MustWait, Step, CreditedTimes, Share;
    FreshOrderSettles(o, agent, bps, s.share);
    NobodyWaits(s.calls, o);
    SettlesStep(s, pid, bps);
  }

  lemma SettleableOnceMore(b: Books, o: Order, agent: int, bps: Rate, share: Rate)
    requires WellFormed(o) && 2 * Net(o, bps) <= MAX_INT32
    requires Settle(Books([], map[], map[], []), o, agent, bps, share) == Some(b)
    ensures var again := Settle(b, o, agent, bps, share); again.Some? && CreditedTimes(again.value, o, agent, bps, 2)
  {
    var c := Share(o.subtotal, bps);
    FreshOrderSettles(o, agent, bps, share);
    NetIs(o, bps);
    NoneDue(c);
    TimesNext(0, o.subtotal - c);
    hide Settle, FirstRows, RowsOf, RowsAfter, KeysDistinct, Share, KeyTaken, AnyPositive, PaysOut, Times;
    SettlingAgainCreditsAgain(b, o, agent, bps, share, [c]);
    assert b.txs + [] == b.txs;
    CreditedOnceMore(b, Settle(b, o, agent, bps, share).value, o, agent, bps, share, 1);
  }

  lemma SettlesOnceMore(s: State, o: Order, agent: int, bps: Rate, pid: Pid)
    requires WellFormed(o) && 2 * Net(o, bps) <= MAX_INT32 && s.calls == map[]
    requires Settle(Books([], map[], map[], []), o, agent, bps, s.share) == Some(s.books)
    requires pid in s.delivering && s.delivering[pid] == Passed(o.id, agent)
    requires o.id in s.rows && s.rows[o.id].order == o
    ensures CreditedTimes(Step(s, Settles(pid, bps, false)).books, o, agent, bps, 2)
  {
    hide Net, Settle, MustWait, Step, CreditedTimes;
    SettleableOnceMore(s.books, o, agent, bps, s.share);
    NobodyWaits(s.calls, o);
    SettlesStep(s, pid, bps);
  }

  lemma OverlappedTail(s: State, o: Order, agent: int, bps: Rate)
    requires WellFormed(o) && 2 * Net(o, bps) <= MAX_INT32
    requires s.rows == map[o.id := OrderRow(o, PICKED, Some(agent))] && s.calls == map[]
    requires s.delivering == map[] && s.books == Books([], map[], map[], [])
    ensures CreditedTimes(Run(s, [CheckPicked(1, o.id, agent), CheckPicked(2, o.id, agent)]
                                 + [Settles(1, bps, false), Settles(2, bps, false)]).books, o, agent, bps, 2)
  {
    var check, settle := [CheckPicked(1, o.id, agent), CheckPicked(2, o.id, agent)], [Settles(1, bps, false), Settles(2, bps, false)];
    RunConcat(s, check, settle);
    BothPass(s, o, agent);
    var t := s.(delivering := map[1 := Passed(o.id, agent), 2 := Passed(o.id, agent)]);
    hide Run, Step, CreditedTimes, Settle, Net;
    RunTwo(t, Settles(1, bps, false), Settles(2, bps, false));
    SettlesFresh(t, o, agent, bps, 1);
    SettlesOnceMore(Step(t, Settles(1, bps, false)), o, agent, bps, 2);
  }

  /** Two calls that both found the order PICKED settle it twice: the restaurant is credited twice and order.delivered
      is inserted twice, over a single set of ledger rows. */
  lemma OverlappingDeliveriesCreditTwice(share: Rate, o: Order, agent: int, bps: Rate)
    requires WellFormed(o) && 2 * Net(o, bps) <= MAX_INT32
    ensures var es := [Place(o, READY), Claim(o.id, agent)]
                      + [CheckMove(1, o.id, PICKED), CheckMove(2, o.id, PICKED), WriteMove(1, true)]
                      + ([CheckPicked(1, o.id, agent), CheckPicked(2, o.id, agent)]
                         + [Settles(1, bps, false), Settles(2, bps, false)]);
            CreditedTimes(Run(Initial(share), es).books, o, agent, bps, 2)
  {
    var claim := [Place(o, READY), Claim(o.id, agent)];
    var pick := [CheckMove(1, o.id, PICKED), CheckMove(2, o.id, PICKED), WriteMove(1, true)];
    var rest := [CheckPicked(1, o.id, agent), CheckPicked(2, o.id, agent)] + [Settles(1, bps, false), Settles(2, bps, false)];
    OrderIsAssigned(share, o, agent);
    hide Run, Step, CreditedTimes, Net, WellFormed;
    RunConcat(Initial(share), claim, pick);
    OnePickupWrites(Run(Initial(share), claim), o, agent);
    RunConcat(Initial(share), claim + pick, rest);
    OverlappedTail(Run(Initial(share), claim + pick), o, agent, bps);
  }

  /** A stale pickup lets a further delivery pass. */
  lemma PicksAgain(s: State, o: Order, agent: int)
    requires s.rows == map[o.id := OrderRow(o, DELIVERED, Some(agent))] && s.delivering == map[]
    requires s.moving == map[2 := Moving(o.id, PICKED)]
    ensures var t := Step(Step(s, WriteMove(2, true)), CheckPicked(4, o.id, agent));
            && t.rows == map[o.id := OrderRow(o, PICKED, Some(agent))]
            && t.delivering == map[4 := Passed(o.id, agent)] && t.books == s.books && t.calls == s.calls && t.share == s.share
  {
  }

  lemma DeliveredAndStale(s: State, o: Order, agent: int, bps: Rate)
    requires WellFormed(o) && s.rows == map[o.id := OrderRow(o, PICKED, Some(agent))] && s.calls == map[]
    requires s.delivering == map[] && s.books == Books([], map[], map[], [])
    ensures var t := Run(s, [CheckPicked(3, o.id, agent), Settles(3, bps, false)]);
            && t.rows == map[o.id := OrderRow(o, DELIVERED, Some(agent))] && t.calls == map[] && t.delivering == map[]
            && t.moving == s.moving && t.share == s.share
            && Settle(Books([], map[], map[], []), o, agent, bps, s.share) == Some(t.books)
  {
    RunTwo(s, CheckPicked(3, o.id, agent), Settles(3, bps, false));
    hide Run, CreditedTimes, Settle, Net;
    var s1 := s.(delivering := map[3 := Passed(o.id, agent)]);
    assert Step(s, CheckPicked(3, o.id, agent)) == s1;
    hide Step;
    SettlesFresh(s1, o, agent, bps, 3);
  }

  lemma StaleTail(s: State, o: Order, agent: int, bps: Rate)
    requires WellFormed(o) && 2 * Net(o, bps) <= MAX_INT32
    requires s.rows == map[o.id := OrderRow(o, PICKED, Some(agent))] && s.calls == map[]
    requires s.delivering == map[] && s.moving == map[2 := Moving(o.id, PICKED)] && s.books == Books([], map[], map[], [])
    ensures CreditedTimes(Run(s, [CheckPicked(3, o.id, agent), Settles(3, bps, false)] + [WriteMove(2, true)]
                                 + [CheckPicked(4, o.id, agent), Settles(4, bps, false)]).books, o, agent, bps, 2)
  {
    var first, again := [CheckPicked(3, o.id, agent), Settles(3, bps, false)], [CheckPicked(4, o.id, agent), Settles(4, bps, false)];
    RunConcat(s, first + [WriteMove(2, true)], again);
    RunSnoc(s, first, WriteMove(2, true));
    hide Run, CreditedTimes, Settle, Net, WellFormed, Step;
    DeliveredAndStale(s, o, agent, bps);
    var s2 := Run(s, first);
    PicksAgain(s2, o, agent);
    var s3 := Step(s2, WriteMove(2, true));
    RunTwo(s3, CheckPicked(4, o.id, agent), Settles(4, bps, false));
    SettlesOnceMore(Step(s3, CheckPicked(4, o.id, agent)), o, agent, bps, 4);
  }

  /** Deliveries that do not overlap settle twice as well: of two pickups that passed their check one writes, the order is
      delivered and settled, the other one writes PICKED over DELIVERED, and the order is delivered and settled again. */
  lemma StalePickupSettlesTwice(share: Rate, o: Order, agent: int, bps: Rate)
    requires WellFormed(o) && 2 * Net(o, bps) <= MAX_INT32
    ensures var es := [Place(o, READY), Claim(o.id, agent)]
                      + [CheckMove(1, o.id, PICKED), CheckMove(2, o.id, PICKED), WriteMove(1, true)]
                      + ([CheckPicked(3, o.id, agent), Settles(3, bps, false)] + [WriteMove(2, true)]
                         + [CheckPicked(4, o.id, agent), Settles(4, bps, false)]);
            CreditedTimes(Run(Initial(share), es).books, o, agent, bps, 2)
  {
    var claim := [Place(o, READY), Claim(o.id, agent)];
    var pick := [CheckMove(1, o.id, PICKED), CheckMove(2, o.id, PICKED), WriteMove(1, true)];
    var rest := [CheckPicked(3, o.id, agent), Settles(3, bps, false)] + [WriteMove(2, true)]
                + [CheckPicked(4, o.id, agent), Settles(4, bps, false)];
    OrderIsAssigned(share, o, agent);
    hide Run, Step, CreditedTimes, Net, WellFormed;
    RunConcat(Initial(share), claim, pick);
    OnePickupWrites(Run(Initial(share), claim), o, agent);
    RunConcat(Initial(share), claim + pick, rest);
    StaleTail(Run(Initial(share), claim + pick), o, agent, bps);
  }
}
