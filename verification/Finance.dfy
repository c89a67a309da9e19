/** Deliveries and payouts over the same books. A delivery call checks the row's status before it opens the transaction
    that settles, and pickups and status updates check it before they write. A payout is taken step by step, since its
    idempotency rests on what happens between the key check, the row lock, the deduction and the insert. */
module Finance {
  import opened Common
  import opened Money
  import opened Ledger
  import opened OrderStatus
  import opened Settlement

  type Pid = nat

  type Rate = r: int | 0 <= r <= 10000

  type Amount = n: int | n >= 1 witness 1

  datatype OrderRow = OrderRow(order: Order, status: Status, agent: Option<int>)

  datatype Payout = Payout(restaurant: int, owner: int, amount: Amount, currency: string, reference: string, key: Key)

  /** How far a payout call has come. From `Locked` on it holds the balance row; `Deducted` and `Inserted` carry its
      uncommitted balance. */
  datatype Phase =
    | Closed
    | Begun(payout: Payout)
    | Unseen(payout: Payout)
    | Locked(payout: Payout)
    | Deducted(payout: Payout, balance: int)
    | Inserted(payout: Payout, balance: int)

  /** A delivery whose transaction committed. */
  datatype Delivery = Delivery(order: Order, agent: int, bps: Rate)

  /** A delivery call that found its order PICKED and has not settled yet. */
  datatype Passed = Passed(id: OrderId, agent: int)

  /** A pickup or another update of the status that passed its check and has not written yet. */
  datatype Moving = Moving(id: OrderId, next: Status)

  /** Order rows, committed books, open calls (payouts, deliveries, other writers of a status), and what committed so far:
      deliveries, payouts and the calls that made the payouts. */
  datatype State = State(
    share: Rate,
    rows: map<OrderId, OrderRow>,
    books: Books,
    calls: map<Pid, Phase>,
    delivering: map<Pid, Passed>,
    moving: map<Pid, Moving>,
    deliveries: seq<Delivery>,
    paid: seq<Payout>,
    payers: seq<Pid>)

  datatype Event =
    | Place(order: Order, status: Status)
    | Claim(id: OrderId, taker: int)
    | CheckMove(pid: Pid, id: OrderId, next: Status)
    | WriteMove(pid: Pid, commits: bool)
    | CheckPicked(pid: Pid, id: OrderId, agent: int)
    | Settles(pid: Pid, bps: Rate, aborts: bool)
    | Begin(pid: Pid, payout: Payout)
    | Advance(pid: Pid)
    | Abort(pid: Pid)

  function Initial(share: Rate): State {
    State(share, map[], Books([], map[], map[], []), map[], map[], map[], [], [], [])
  }

  predicate WellFormed(o: Order) {
    && 0 <= o.subtotal <= MAX_INT32 && 0 <= o.deliveryFee && 0 <= o.serviceFee
    && o.total == o.subtotal + o.deliveryFee + o.serviceFee <= MAX_INT32
  }

  function PayoutKey(p: Payout): BalanceKey {
    (p.restaurant, p.currency)
  }

  function PayoutRow(p: Payout): Tx {
    Tx(None, PAYOUT, SUCCEEDED, p.amount, p.currency, None, Some(p.owner), Some(p.reference), p.key)
  }

  predicate Holds(c: Phase, k: BalanceKey) {
    (c.Locked? || c.Deducted? || c.Inserted?) && PayoutKey(c.payout) == k
  }

  predicate Inserts(c: Phase, key: Key) {
    c.Inserted? && c.payout.key == key
  }

  predicate IsLocked(calls: map<Pid, Phase>, k: BalanceKey) {
    exists p :: p in calls && Holds(calls[p], k)
  }

  predicate IsInserted(calls: map<Pid, Phase>, key: Key) {
    exists p :: p in calls && Inserts(calls[p], key)
  }

  /** A settlement waits for the balance row and for uncommitted rows under its own keys. */
  predicate MustWait(calls: map<Pid, Phase>, o: Order) {
    || IsLocked(calls, KeyOf(o))
    || IsInserted(calls, CodCollect(o.id)) || IsInserted(calls, CommissionOf(o.id))
    || IsInserted(calls, ServiceFeeOf(o.id)) || IsInserted(calls, DeliveryFeeOf(o.id))
  }

  predicate CanDeliver(rows: map<OrderId, OrderRow>, id: OrderId, agent: int) {
    id in rows && rows[id].agent == Some(agent) && rows[id].status == PICKED
  }

  /** The next step of a payout call: its new phase. */
  function NextPhase(books: Books, calls: map<Pid, Phase>, c: Phase): Phase {
    match c
    case Closed => Closed
    case Begun(p) => if KeyTaken(books.txs, p.key) then Closed else Unseen(p)
    case Unseen(p) =>
      if IsLocked(calls, PayoutKey(p)) then c
      else if PayoutKey(p) !in books.balances || books.balances[PayoutKey(p)] < p.amount then Closed
      else Locked(p)
    case Locked(p) => Deducted(p, BalanceOf(books.balances, PayoutKey(p)) - p.amount)
    case Deducted(p, balance) =>
      if IsInserted(calls, p.key) then c
      else if KeyTaken(books.txs, p.key) then Closed
      else Inserted(p, balance)
    case Inserted(_, _) => Closed
  }

  function CommitPayout(s: State, pid: Pid, p: Payout, balance: int): State {
    s.(books := s.books.(txs := s.books.txs + [PayoutRow(p)], balances := s.books.balances[PayoutKey(p) := balance]),
       paid := s.paid + [p],
       payers := s.payers + [pid],
       calls := s.calls[pid := Closed])
  }

  function CommitDelivery(s: State, pid: Pid, id: OrderId, agent: int, bps: Rate, books: Books): State
    requires id in s.rows
  {
    s.(rows := s.rows[id := s.rows[id].(status := DELIVERED)],
       books := books,
       delivering := s.delivering - {pid},
       deliveries := s.deliveries + [Delivery(s.rows[id].order, agent, bps)])
  }

  /** The transaction of a delivery call that passed its check. It writes DELIVERED whatever the status is by now; it
      waits for locks, and when it aborts or a write is refused the call ends without effect. */
  function AfterSettles(s: State, pid: Pid, bps: Rate, aborts: bool): State {
    if pid !in s.delivering then s
    else
      var (id, agent) := (s.delivering[pid].id, s.delivering[pid].agent);
      if aborts || id !in s.rows then s.(delivering := s.delivering - {pid})
      else if MustWait(s.calls, s.rows[id].order) then s
      else
        var books := Settle(s.books, s.rows[id].order, agent, bps, s.share);
        if books.None? then s.(delivering := s.delivering - {pid})
        else CommitDelivery(s, pid, id, agent, bps, books.value)
  }

  function AfterAdvance(s: State, pid: Pid): State {
    if pid !in s.calls then s
    else if s.calls[pid].Inserted? then CommitPayout(s, pid, s.calls[pid].payout, s.calls[pid].balance)
    else s.(calls := s.calls[pid := NextPhase(s.books, s.calls, s.calls[pid])])
  }

  /** UPDATE by public id: the status is written over whatever status the row has by now. */
  function AfterMove(s: State, pid: Pid, commits: bool): State {
    if pid !in s.moving then s
    else
      var (id, next) := (s.moving[pid].id, s.moving[pid].next);
      if !commits || id !in s.rows then s.(moving := s.moving - {pid})
      else s.(rows := s.rows[id := s.rows[id].(status := next)], moving := s.moving - {pid})
  }

  /** One step. A claim is one conditional update; any other writer of a status checks the row against the table first and
      writes it later. */
  function Step(s: State, e: Event): State {
    match e
    case Place(o, status) =>
      if o.id in s.rows || !WellFormed(o) then s else s.(rows := s.rows[o.id := OrderRow(o, status, None)])
    case Claim(id, taker) =>
      if id in s.rows && s.rows[id].status == READY && s.rows[id].agent.None?
      then s.(rows := s.rows[id := s.rows[id].(status := ASSIGNED, agent := Some(taker))])
      else s
    case CheckMove(pid, id, next) =>
      if pid in s.moving || id !in s.rows || next == ASSIGNED || Transition(s.rows[id].status, next).None? then s
      else s.(moving := s.moving[pid := Moving(id, next)])
    case WriteMove(pid, commits) => AfterMove(s, pid, commits)
    case CheckPicked(pid, id, agent) =>
      if pid in s.delivering || !CanDeliver(s.rows, id, agent) then s
      else s.(delivering := s.delivering[pid := Passed(id, agent)])
    case Settles(pid, bps, aborts) => AfterSettles(s, pid, bps, aborts)
    case Begin(pid, p) =>
      if pid in s.calls && s.calls[pid] != Closed then s else s.(calls := s.calls[pid := Begun(p)])
    case Advance(pid) => AfterAdvance(s, pid)
    case Abort(pid) => if pid in s.calls then s.(calls := s.calls[pid := Closed]) else s
  }

  function Run(s: State, es: seq<Event>): State
    decreases |es|
  {
    if es == [] then s else Step(Run(s, es[..|es| - 1]), es[|es| - 1])
  }

  // ---------------------------------------------------------------------------
  // Conservation
  // ---------------------------------------------------------------------------

  /** Subtotals less commission of a restaurant's delivered orders in a currency. */
  ghost function Credits(ds: seq<Delivery>, restaurant: int, currency: string): int {
    if ds == [] then 0
    else
      var d := ds[|ds| - 1];
      Credits(ds[..|ds| - 1], restaurant, currency)
      + if d.order.restaurant == restaurant && d.order.currency == currency
        then d.order.subtotal - Share(d.order.subtotal, d.bps) else 0
  }

  /** Amounts paid out to a restaurant in a currency. */
  ghost function Payouts(paid: seq<Payout>, restaurant: int, currency: string): int {
    if paid == [] then 0
    else
      var p := paid[|paid| - 1];
      Payouts(paid[..|paid| - 1], restaurant, currency)
      + if p.restaurant == restaurant && p.currency == currency then p.amount else 0
  }

  function PayoutRows(paid: seq<Payout>): seq<Tx> {
    if paid == [] then [] else PayoutRows(paid[..|paid| - 1]) + [PayoutRow(paid[|paid| - 1])]
  }

  ghost predicate CallInv(books: Books, c: Phase) {
    && (c.Locked? ==> BalanceOf(books.balances, PayoutKey(c.payout)) >= c.payout.amount)
    && (c.Deducted? || c.Inserted? ==>
          c.balance == BalanceOf(books.balances, PayoutKey(c.payout)) - c.payout.amount >= 0)
    && (c.Inserted? ==> !KeyTaken(books.txs, c.payout.key))
  }

  ghost predicate LocksApart(calls: map<Pid, Phase>) {
    forall p, q, k :: p in calls && q in calls && Holds(calls[p], k) && Holds(calls[q], k) ==> p == q
  }

  ghost predicate InsertsApart(calls: map<Pid, Phase>) {
    forall p, q, key :: p in calls && q in calls && Inserts(calls[p], key) && Inserts(calls[q], key) ==> p == q
  }

  ghost predicate BalancesInv(balances: map<BalanceKey, int>, ds: seq<Delivery>, paid: seq<Payout>) {
    forall restaurant: int, currency: string ::
      0 <= BalanceOf(balances, (restaurant, currency))
        == Credits(ds, restaurant, currency) - Payouts(paid, restaurant, currency) <= MAX_INT32
  }

  ghost predicate LedgerInv(txs: seq<Tx>, paid: seq<Payout>) {
    KeysDistinct(txs) && PayoutsOf(txs) == PayoutRows(paid)
  }

  ghost predicate MoneyInv(s: State) {
    LedgerInv(s.books.txs, s.paid) && BalancesInv(s.books.balances, s.deliveries, s.paid)
  }

  ghost predicate CallsInv(s: State) {
    && (forall p :: p in s.calls ==> CallInv(s.books, s.calls[p]))
    && LocksApart(s.calls)
    && InsertsApart(s.calls)
  }

  // ---------------------------------------------------------------------------
  // What deliveries leave in the books
  // ---------------------------------------------------------------------------

  function DeliveriesOf(ds: seq<Delivery>, id: OrderId): seq<Delivery> {
    if ds == [] then []
    else DeliveriesOf(ds[..|ds| - 1], id) + if ds[|ds| - 1].order.id == id then [ds[|ds| - 1]] else []
  }

  function EventsOf(es: seq<DeliveredEvent>, id: OrderId): seq<DeliveredEvent> {
    if es == [] then []
    else EventsOf(es[..|es| - 1], id) + if es[|es| - 1].order == id then [es[|es| - 1]] else []
  }

  function EventOf(d: Delivery): DeliveredEvent {
    DeliveredEvent(d.order.id, d.agent, Share(d.order.subtotal, d.bps))
  }

  function Commissions(ds: seq<Delivery>): seq<int> {
    if ds == [] then [] else Commissions(ds[..|ds| - 1]) + [Share(ds[|ds| - 1].order.subtotal, ds[|ds| - 1].bps)]
  }

  function EventsFor(ds: seq<Delivery>): seq<DeliveredEvent> {
    if ds == [] then [] else EventsFor(ds[..|ds| - 1]) + [EventOf(ds[|ds| - 1])]
  }

  function EarningOf(d: Delivery, share: Rate): Earning {
    Earning(d.agent, Share(d.order.deliveryFee, share), d.order.currency)
  }

  /** The books hold exactly these deliveries of an order: the ledger rows of the first, and later at most a commission
      row that none had before; the first one's earning; an event for each. */
  predicate SettledBy(b: Books, o: Order, mine: seq<Delivery>, share: Rate) {
    && RowsOf(b.txs, o.id) == RowsAfter(o, Commissions(mine))
    && (if mine != [] && EarningOf(mine[0], share).amount > 0
        then o.id in b.earnings && b.earnings[o.id] == EarningOf(mine[0], share)
        else o.id !in b.earnings)
    && EventsOf(b.events, o.id) == EventsFor(mine)
  }

  /** Nothing of a settlement is in the books. */
  predicate NotSettled(b: Books, id: OrderId) {
    RowsOf(b.txs, id) == [] && id !in b.earnings && EventsOf(b.events, id) == []
  }

  /** The row has an agent and is past the claim: since a claim wants a row without one, it is never ASSIGNED again. */
  predicate Taken(row: OrderRow) {
    row.agent.Some? && row.status != ASSIGNED
  }

  ghost predicate OrderInv(rows: map<OrderId, OrderRow>, ds: seq<Delivery>, b: Books, share: Rate, id: OrderId) {
    var mine := DeliveriesOf(ds, id);
    if id !in rows then mine == [] && NotSettled(b, id)
    else
      && rows[id].order.id == id
      && (forall i :: 0 <= i < |mine| ==> mine[i].order == rows[id].order)
      && (mine != [] ==> Taken(rows[id]))
      && SettledBy(b, rows[id].order, mine, share)
  }

  ghost predicate OrdersInv(s: State) {
    forall id :: OrderInv(s.rows, s.deliveries, s.books, s.share, id)
  }

  /** A call's order stays taken after the check. */
  ghost predicate PassedInv(rows: map<OrderId, OrderRow>, delivering: map<Pid, Passed>) {
    forall p :: p in delivering ==> delivering[p].id in rows && Taken(rows[delivering[p].id])
  }

  /** What a writer of a status that is not a claim leaves unwritten: no ASSIGNED. */
  ghost predicate MovesInv(moving: map<Pid, Moving>) {
    forall p :: p in moving ==> moving[p].next != ASSIGNED
  }

  ghost predicate RowsInv(rows: map<OrderId, OrderRow>) {
    forall id :: id in rows ==> WellFormed(rows[id].order) && rows[id].order.id == id
  }

  ghost predicate Inv(s: State) {
    RowsInv(s.rows) && PassedInv(s.rows, s.delivering) && MovesInv(s.moving) && MoneyInv(s) && CallsInv(s) && OrdersInv(s)
  }

  lemma NothingFor(rows: map<OrderId, OrderRow>, id: OrderId)
    ensures forall o :: RowsAfter(o, Commissions([])) == []
    ensures EventsFor([]) == []
  {
  }

  lemma CallsDependOn(s: State, s': State)
    requires CallsInv(s) && s'.books == s.books && s'.calls == s.calls
    ensures CallsInv(s')
  {
  }

  /** A row written over: of the same order, by an agent if it had one, and past the claim if it was. */
  lemma RowWritten(s: State, id: OrderId, row: OrderRow, rows: map<OrderId, OrderRow>)
    requires OrdersInv(s) && RowsInv(s.rows) && PassedInv(s.rows, s.delivering) && id in s.rows && rows == s.rows[id := row]
    requires row.order == s.rows[id].order && (Taken(s.rows[id]) ==> Taken(row))
    ensures RowsInv(rows) && PassedInv(rows, s.delivering)
    ensures forall jd :: OrderInv(rows, s.deliveries, s.books, s.share, jd)
  {
    hide WellFormed, SettledBy, NotSettled, Taken;
    forall jd ensures OrderInv(rows, s.deliveries, s.books, s.share, jd) {
      assert OrderInv(s.rows, s.deliveries, s.books, s.share, jd);
    }
  }

  lemma PlacedOrderInv(s: State, o: Order, status: Status)
    requires OrderInv(s.rows, s.deliveries, s.books, s.share, o.id) && o.id !in s.rows
    ensures OrderInv(s.rows[o.id := OrderRow(o, status, None)], s.deliveries, s.books, s.share, o.id)
  {
    NothingFor(s.rows, o.id);
    hide EventsFor, EventsOf, RowsOf, RowsAfter, Taken;
  }

  lemma RowsMayChange(s: State, rows: map<OrderId, OrderRow>, moving: map<Pid, Moving>)
    requires Inv(s) && RowsInv(rows) && PassedInv(rows, s.delivering) && MovesInv(moving)
    requires forall id :: OrderInv(rows, s.deliveries, s.books, s.share, id)
    ensures Inv(s.(rows := rows, moving := moving))
  {
    CallsDependOn(s, s.(rows := rows, moving := moving));
    hide MoneyInv, OrderInv, CallsInv, RowsInv, PassedInv, MovesInv;
  }

  lemma PlacedRows(s: State, o: Order, status: Status, rows: map<OrderId, OrderRow>)
    requires Inv(s) && WellFormed(o) && o.id !in s.rows && rows == s.rows[o.id := OrderRow(o, status, None)]
    ensures RowsInv(rows) && PassedInv(rows, s.delivering)
    ensures forall id :: OrderInv(rows, s.deliveries, s.books, s.share, id)
  {
    hide MoneyInv, WellFormed, NotSettled, SettledBy, CallsInv, Taken, MovesInv;
    forall id ensures OrderInv(rows, s.deliveries, s.books, s.share, id) {
      assert OrderInv(s.rows, s.deliveries, s.books, s.share, id);
      if id == o.id {
        PlacedOrderInv(s, o, status);
      }
    }
  }

  lemma PlaceKeepsInv(s: State, e: Event)
    requires Inv(s) && e.Place?
    ensures Inv(Step(s, e))
  {
    if e.order.id !in s.rows && WellFormed(e.order) {
      var rows := s.rows[e.order.id := OrderRow(e.order, e.status, None)];
      PlacedRows(s, e.order, e.status, rows);
      assert MovesInv(s.moving);
      hide Inv, OrderInv, RowsInv, PassedInv, MovesInv, WellFormed;
      RowsMayChange(s, rows, s.moving);
    }
  }

  lemma ClaimKeepsInv(s: State, id: OrderId, taker: int)
    requires Inv(s)
    ensures Inv(Step(s, Claim(id, taker)))
  {
    var s' := Step(s, Claim(id, taker));
    CallsDependOn(s, s');
    hide MoneyInv, OrderInv, CallsInv, RowsInv, PassedInv;
    if s' != s {
      RowWritten(s, id, s.rows[id].(status := ASSIGNED, agent := Some(taker)), s'.rows);
    }
  }

  lemma CheckKeepsInv(s: State, e: Event)
    requires Inv(s) && (e.CheckPicked? || e.CheckMove?)
    ensures Inv(Step(s, e))
  {
    var s' := Step(s, e);
    CallsDependOn(s, s');
    hide MoneyInv, OrderInv, CallsInv, RowsInv, Transition;
  }

  lemma WriteKeepsInv(s: State, pid: Pid, commits: bool)
    requires Inv(s)
    ensures Inv(Step(s, WriteMove(pid, commits)))
  {
    if pid in s.moving {
      var moving := s.moving - {pid};
      assert OrdersInv(s) && MovesInv(moving) && RowsInv(s.rows) && PassedInv(s.rows, s.delivering);
      hide OrderInv, Inv, RowsInv, PassedInv;
      if commits && s.moving[pid].id in s.rows {
        var row := s.rows[s.moving[pid].id].(status := s.moving[pid].next);
        var rows := s.rows[s.moving[pid].id := row];
        RowWritten(s, s.moving[pid].id, row, rows);
        RowsMayChange(s, rows, moving);
      } else {
        RowsMayChange(s, s.rows, moving);
      }
    }
  }

  /** A call's phase changes and nothing else. */
  lemma PhaseKeepsInv(s: State, pid: Pid, c: Phase)
    requires Inv(s) && CallInv(s.books, c)
    requires forall k :: Holds(c, k) ==> !IsLocked(s.calls, k) || (pid in s.calls && Holds(s.calls[pid], k))
    requires forall key :: Inserts(c, key) ==> !IsInserted(s.calls, key) || (pid in s.calls && Inserts(s.calls[pid], key))
    ensures Inv(s.(calls := s.calls[pid := c]))
  {
    var s' := s.(calls := s.calls[pid := c]);
    forall k, p | p in s.calls && p != pid && Holds(s.calls[p], k) ensures !Holds(c, k) {
      assert IsLocked(s.calls, k);
    }
    forall key, p | p in s.calls && p != pid && Inserts(s.calls[p], key) ensures !Inserts(c, key) {
      assert IsInserted(s.calls, key);
    }
    hide LedgerInv, BalancesInv, OrderInv, CallInv, Holds, Inserts;
  }

  lemma NextPhaseIsSafe(s: State, pid: Pid)
    requires Inv(s) && pid in s.calls && !s.calls[pid].Inserted?
    ensures var c := NextPhase(s.books, s.calls, s.calls[pid]);
            && CallInv(s.books, c)
            && (forall k :: Holds(c, k) ==> !IsLocked(s.calls, k) || Holds(s.calls[pid], k))
            && (forall key :: Inserts(c, key) ==> !IsInserted(s.calls, key))
  {
    assert CallInv(s.books, s.calls[pid]);
    hide Inv, KeyTaken;
  }

  lemma PayoutRowsOnly(p: Payout, id: OrderId)
    ensures RowsOf([PayoutRow(p)], id) == [] && PayoutsOf([PayoutRow(p)]) == [PayoutRow(p)]
  {
    var r := [PayoutRow(p)];
    assert r[..0] == [];
    assert RowsOf(r[..0], id) == [] && PayoutsOf(r[..0]) == [];
  }

  lemma LedgerAfterPayout(txs: seq<Tx>, paid: seq<Payout>, p: Payout)
    requires LedgerInv(txs, paid) && !KeyTaken(txs, p.key) && FitsInt(p.amount)
    ensures LedgerInv(txs + [PayoutRow(p)], paid + [p])
  {
    CreateKeepsKeysDistinct(txs, PayoutRow(p));
    PayoutsOfConcat(txs, [PayoutRow(p)]);
    PayoutRowsOnly(p, 0);
    assert (paid + [p])[..|paid|] == paid;
    hide KeyTaken, KeysDistinct, PayoutsOf;
  }

  lemma PayoutsSnoc(paid: seq<Payout>, p: Payout)
    ensures forall restaurant, currency ::
              Payouts(paid + [p], restaurant, currency)
              == Payouts(paid, restaurant, currency)
                 + if p.restaurant == restaurant && p.currency == currency then p.amount else 0
  {
    assert (paid + [p])[..|paid|] == paid;
  }

  lemma BalancesAfterPayout(balances: map<BalanceKey, int>, ds: seq<Delivery>, paid: seq<Payout>, p: Payout)
    requires BalancesInv(balances, ds, paid) && BalanceOf(balances, PayoutKey(p)) >= p.amount
    ensures BalancesInv(balances[PayoutKey(p) := BalanceOf(balances, PayoutKey(p)) - p.amount], ds, paid + [p])
  {
    PayoutsSnoc(paid, p);
    hide Payouts, Credits;
    var balances' := balances[PayoutKey(p) := BalanceOf(balances, PayoutKey(p)) - p.amount];
    forall restaurant: int, currency: string
      ensures 0 <= BalanceOf(balances', (restaurant, currency))
                == Credits(ds, restaurant, currency) - Payouts(paid + [p], restaurant, currency) <= MAX_INT32
    {
      assert 0 <= BalanceOf(balances, (restaurant, currency))
               == Credits(ds, restaurant, currency) - Payouts(paid, restaurant, currency) <= MAX_INT32;
    }
  }

  lemma CommitPayoutKeepsMoney(s: State, pid: Pid)
    requires Inv(s) && pid in s.calls && s.calls[pid].Inserted?
    ensures MoneyInv(CommitPayout(s, pid, s.calls[pid].payout, s.calls[pid].balance))
  {
    var p := s.calls[pid].payout;
    assert CallInv(s.books, s.calls[pid]);
    assert BalanceOf(s.books.balances, PayoutKey(p)) <= MAX_INT32;
    hide LedgerInv, BalancesInv, OrdersInv, KeyTaken;
    LedgerAfterPayout(s.books.txs, s.paid, p);
    BalancesAfterPayout(s.books.balances, s.deliveries, s.paid, p);
  }

  lemma CommitPayoutKeepsCalls(s: State, pid: Pid)
    requires CallsInv(s) && pid in s.calls && s.calls[pid].Inserted?
    ensures CallsInv(CommitPayout(s, pid, s.calls[pid].payout, s.calls[pid].balance))
  {
    var p := s.calls[pid].payout;
    var s' := CommitPayout(s, pid, p, s.calls[pid].balance);
    assert Holds(s.calls[pid], PayoutKey(p)) && Inserts(s.calls[pid], p.key);
    forall q | q in s'.calls ensures CallInv(s'.books, s'.calls[q]) {
      if q != pid {
        assert CallInv(s.books, s.calls[q]);
        assert !Holds(s.calls[q], PayoutKey(p)) && !Inserts(s.calls[q], p.key);
        assert forall i :: 0 <= i < |s.books.txs| ==> s'.books.txs[i] == s.books.txs[i];
      }
    }
  }

  lemma CommitPayoutKeepsOrders(s: State, p: Payout, books: Books)
    requires OrdersInv(s)
    requires books == s.books.(txs := s.books.txs + [PayoutRow(p)], balances := books.balances)
    ensures forall id :: OrderInv(s.rows, s.deliveries, books, s.share, id)
  {
    forall id ensures OrderInv(s.rows, s.deliveries, books, s.share, id) {
      assert OrderInv(s.rows, s.deliveries, s.books, s.share, id);
      RowsOfConcat(s.books.txs, [PayoutRow(p)], id);
      PayoutRowsOnly(p, id);
      hide RowsOf, EventsOf, DeliveriesOf, FirstRows;
    }
  }

  lemma CommitPayoutKeepsInv(s: State, pid: Pid)
    requires Inv(s) && pid in s.calls && s.calls[pid].Inserted?
    ensures Inv(CommitPayout(s, pid, s.calls[pid].payout, s.calls[pid].balance))
  {
    var s' := CommitPayout(s, pid, s.calls[pid].payout, s.calls[pid].balance);
    CommitPayoutKeepsMoney(s, pid);
    CommitPayoutKeepsCalls(s, pid);
    hide MoneyInv, CallsInv, OrderInv, RowsInv, PassedInv, MovesInv;
    CommitPayoutKeepsOrders(s, s.calls[pid].payout, s'.books);
  }

  lemma AdvanceKeepsInv(s: State, pid: Pid)
    requires Inv(s)
    ensures Inv(Step(s, Advance(pid)))
  {
    if pid in s.calls {
      if s.calls[pid].Inserted? {
        CommitPayoutKeepsInv(s, pid);
        hide Inv, CommitPayout, NextPhase;
      } else {
        NextPhaseIsSafe(s, pid);
        PhaseKeepsInv(s, pid, NextPhase(s.books, s.calls, s.calls[pid]));
        hide Inv, NextPhase;
      }
    }
  }

  lemma {:induction false} DeliveriesOfMembers(ds: seq<Delivery>, id: OrderId)
    ensures forall i :: 0 <= i < |DeliveriesOf(ds, id)| ==> DeliveriesOf(ds, id)[i].order.id == id
  {
    if ds != [] {
      DeliveriesOfMembers(ds[..|ds| - 1], id);
    }
  }

  lemma SettledSoFar(s: State, id: OrderId)
    requires Inv(s) && id in s.rows
    ensures WellFormed(s.rows[id].order) && s.rows[id].order.id == id
    ensures SettledBy(s.books, s.rows[id].order, DeliveriesOf(s.deliveries, id), s.share)
  {
    assert OrderInv(s.rows, s.deliveries, s.books, s.share, id);
  }

  lemma BalancesAfterDelivery(balances: map<BalanceKey, int>, balances': map<BalanceKey, int>, ds: seq<Delivery>,
                              paid: seq<Payout>, d: Delivery)
    requires BalancesInv(balances, ds, paid) && Net(d.order, d.bps) >= 0
    requires Credit(balances, KeyOf(d.order), Net(d.order, d.bps)) == Some(balances')
    ensures BalancesInv(balances', ds + [d], paid)
  {
    assert (ds + [d])[..|ds|] == ds;
    hide Payouts, Net;
  }

  lemma CommitDeliveryKeepsMoney(s: State, pid: Pid, id: OrderId, agent: int, bps: Rate, books: Books)
    requires Inv(s) && id in s.rows && Settle(s.books, s.rows[id].order, agent, bps, s.share) == Some(books)
    ensures MoneyInv(CommitDelivery(s, pid, id, agent, bps, books))
  {
    var o := s.rows[id].order;
    SettledSoFar(s, id);
    SettlementAdds(s.books, o, agent, bps, s.share, Commissions(DeliveriesOf(s.deliveries, id)));
    ShareIsWithin(o.subtotal, bps);
    SettleParts(s.books, o, agent, bps, s.share);
    hide RowsOf, RowsAdded, RowsAfter, CallsInv, OrdersInv, KeysDistinct, BalancesInv, CreateAll, NewRows, Credit, PayoutRows,
         PayoutsOf, Settle, SettledBy, BalanceOf;
    BalancesAfterDelivery(s.books.balances, books.balances, s.deliveries, s.paid, Delivery(o, agent, bps));
  }

  lemma NewKeys(o: Order, earlier: seq<int>, commission: int, txs: seq<Tx>, key: Key)
    requires !KeyTaken(txs, key) && key !in {CodCollect(o.id), CommissionOf(o.id), ServiceFeeOf(o.id), DeliveryFeeOf(o.id)}
    ensures !KeyTaken(txs + RowsAdded(o, earlier, commission), key)
  {
    var rows := RowsAdded(o, earlier, commission);
    forall i | 0 <= i < |rows| ensures rows[i].key != key {
    }
    forall i | 0 <= i < |txs + rows| ensures (txs + rows)[i].key != key {
      assert i >= |txs| ==> (txs + rows)[i] == rows[i - |txs|];
    }
  }

  lemma OtherBalancesStay(b: Books, b': Books, o: Order, agent: int, bps: Rate, share: Rate, k: BalanceKey)
    requires PaysOut(b, b', o, agent, bps, share) && k != KeyOf(o)
    ensures BalanceOf(b'.balances, k) == BalanceOf(b.balances, k)
  {
    hide BalanceOf, Share;
    assert k == (k.0, k.1);
    assert !(k.0 == o.restaurant && k.1 == o.currency);
    assert BalanceOf(b'.balances, (k.0, k.1)) == BalanceOf(b.balances, (k.0, k.1));
  }

  /** A call that holds no lock of the order's balance and inserts none of its keys. */
  lemma DeliveryKeepsCall(b: Books, b': Books, c: Phase, o: Order, agent: int, bps: Rate, share: Rate, earlier: seq<int>,
                          commission: int)
    requires CallInv(b, c) && PaysOut(b, b', o, agent, bps, share) && b'.txs == b.txs + RowsAdded(o, earlier, commission)
    requires !Holds(c, KeyOf(o))
    requires forall key :: key in {CodCollect(o.id), CommissionOf(o.id), ServiceFeeOf(o.id), DeliveryFeeOf(o.id)} ==> !Inserts(c, key)
    ensures CallInv(b', c)
  {
    hide PaysOut, KeyTaken, RowsAdded, BalanceOf;
    if c.Locked? || c.Deducted? || c.Inserted? {
      OtherBalancesStay(b, b', o, agent, bps, share, PayoutKey(c.payout));
    }
    if c.Inserted? {
      assert Inserts(c, c.payout.key);
      NewKeys(o, earlier, commission, b.txs, c.payout.key);
    }
  }

  lemma CommitDeliveryKeepsCalls(s: State, pid: Pid, id: OrderId, agent: int, bps: Rate, books: Books)
    requires Inv(s) && id in s.rows && !MustWait(s.calls, s.rows[id].order)
    requires Settle(s.books, s.rows[id].order, agent, bps, s.share) == Some(books)
    ensures CallsInv(CommitDelivery(s, pid, id, agent, bps, books))
  {
    var o := s.rows[id].order;
    var s' := CommitDelivery(s, pid, id, agent, bps, books);
    var earlier := Commissions(DeliveriesOf(s.deliveries, id));
    SettledSoFar(s, id);
    SettlementAdds(s.books, o, agent, bps, s.share, earlier);
    hide Settle, RowsOf, RowsAdded, RowsAfter, OrderInv, MoneyInv, KeysDistinct, KeyTaken, SettledBy, PayoutsOf, PaysOut, Share,
         CallInv, BalanceOf, RowsInv, PassedInv, Holds, Inserts;
    forall q | q in s'.calls ensures CallInv(s'.books, s'.calls[q]) {
      assert CallInv(s.books, s.calls[q]);
      DeliveryKeepsCall(s.books, books, s.calls[q], o, agent, bps, s.share, earlier, Share(o.subtotal, bps));
    }
  }

  lemma RowsAfterDelivery(rows: map<OrderId, OrderRow>, delivering: map<Pid, Passed>, pid: Pid, id: OrderId)
    requires RowsInv(rows) && PassedInv(rows, delivering) && id in rows && Taken(rows[id])
    ensures RowsInv(rows[id := rows[id].(status := DELIVERED)])
    ensures PassedInv(rows[id := rows[id].(status := DELIVERED)], delivering - {pid})
  {
    hide WellFormed;
  }

  /** The books before and after a delivery, as far as orders are concerned. */
  ghost predicate Booked(b: Books, b': Books, d: Delivery, earlier: seq<int>, share: Rate) {
    && (forall id :: RowsOf(b'.txs, id)
                     == if id == d.order.id then RowsAfter(d.order, earlier + [Share(d.order.subtotal, d.bps)]) else RowsOf(b.txs, id))
    && b'.earnings == (if EarningOf(d, share).amount > 0 && d.order.id !in b.earnings
                       then b.earnings[d.order.id := EarningOf(d, share)] else b.earnings)
    && b'.events == b.events + [EventOf(d)]
  }

  lemma BooksAfterDelivery(b: Books, d: Delivery, share: Rate, earlier: seq<int>, b': Books)
    requires KeysDistinct(b.txs) && RowsOf(b.txs, d.order.id) == RowsAfter(d.order, earlier)
    requires Settle(b, d.order, d.agent, d.bps, share) == Some(b')
    ensures Booked(b, b', d, earlier, share)
  {
    hide KeysDistinct, RowsAdded, RowsAfter, RowsOf, PayoutsOf, BalanceOf, Settle, Share;
    SettlementAdds(b, d.order, d.agent, d.bps, share, earlier);
  }

  lemma DeliveriesNext(ds: seq<Delivery>, d: Delivery)
    ensures Commissions(ds + [d]) == Commissions(ds) + [Share(d.order.subtotal, d.bps)]
    ensures EventsFor(ds + [d]) == EventsFor(ds) + [EventOf(d)]
  {
    assert (ds + [d])[..|ds|] == ds;
  }

  lemma EventsOfSnoc(es: seq<DeliveredEvent>, e: DeliveredEvent)
    ensures forall id :: EventsOf(es + [e], id) == EventsOf(es, id) + if e.order == id then [e] else []
  {
    assert (es + [e])[..|es|] == es;
  }

  lemma DeliveriesOfSnoc(ds: seq<Delivery>, d: Delivery)
    ensures forall id :: DeliveriesOf(ds + [d], id) == DeliveriesOf(ds, id) + if d.order.id == id then [d] else []
  {
    assert (ds + [d])[..|ds|] == ds;
  }

  lemma OwnDelivery(s: State, rows: map<OrderId, OrderRow>, d: Delivery, books: Books)
    requires d.order.id in s.rows && s.rows[d.order.id].order == d.order
    requires OrderInv(s.rows, s.deliveries, s.books, s.share, d.order.id)
    requires rows == s.rows[d.order.id := s.rows[d.order.id].(status := DELIVERED)] && Taken(s.rows[d.order.id])
    requires Booked(s.books, books, d, Commissions(DeliveriesOf(s.deliveries, d.order.id)), s.share)
    ensures OrderInv(rows, s.deliveries + [d], books, s.share, d.order.id)
  {
    var mine := DeliveriesOf(s.deliveries, d.order.id);
    EventsOfSnoc(s.books.events, EventOf(d));
    DeliveriesOfSnoc(s.deliveries, d);
    DeliveriesNext(mine, d);
    hide RowsOf, RowsAfter, EventsOf, DeliveriesOf, Share, Commissions, EventsFor;
  }

  lemma OtherDelivery(s: State, rows: map<OrderId, OrderRow>, d: Delivery, books: Books, id: OrderId)
    requires OrderInv(s.rows, s.deliveries, s.books, s.share, id) && id != d.order.id
    requires (id in rows <==> id in s.rows) && (id in rows ==> rows[id] == s.rows[id])
    requires Booked(s.books, books, d, Commissions(DeliveriesOf(s.deliveries, d.order.id)), s.share)
    ensures OrderInv(rows, s.deliveries + [d], books, s.share, id)
  {
    EventsOfSnoc(s.books.events, EventOf(d));
    DeliveriesOfSnoc(s.deliveries, d);
    var mine := DeliveriesOf(s.deliveries, id);
    assert mine + [] == mine && DeliveriesOf(s.deliveries + [d], id) == mine;
    assert EventsOf(s.books.events, id) + [] == EventsOf(s.books.events, id);
    assert EventsOf(books.events, id) == EventsOf(s.books.events, id);
    assert RowsOf(books.txs, id) == RowsOf(s.books.txs, id);
    assert id in books.earnings <==> id in s.books.earnings;
    hide RowsOf, RowsAfter, EventsOf, DeliveriesOf, Commissions, EventsFor;
  }

  lemma OrdersAfterDelivery(s: State, rows: map<OrderId, OrderRow>, d: Delivery, books: Books)
    requires OrdersInv(s) && d.order.id in s.rows && s.rows[d.order.id].order == d.order
    requires rows == s.rows[d.order.id := s.rows[d.order.id].(status := DELIVERED)] && Taken(s.rows[d.order.id])
    requires Booked(s.books, books, d, Commissions(DeliveriesOf(s.deliveries, d.order.id)), s.share)
    ensures forall id :: OrderInv(rows, s.deliveries + [d], books, s.share, id)
  {
    hide RowsAfter, RowsOf, OrderInv, DeliveriesOf, Booked;
    forall id ensures OrderInv(rows, s.deliveries + [d], books, s.share, id) {
      assert OrderInv(s.rows, s.deliveries, s.books, s.share, id);
      if id == d.order.id {
        OwnDelivery(s, rows, d, books);
      } else {
        OtherDelivery(s, rows, d, books, id);
      }
    }
  }

  lemma CommitDeliveryKeepsOrders(s: State, pid: Pid, id: OrderId, agent: int, bps: Rate, books: Books)
    requires Inv(s) && id in s.rows && Taken(s.rows[id]) && Settle(s.books, s.rows[id].order, agent, bps, s.share) == Some(books)
    ensures var s' := CommitDelivery(s, pid, id, agent, bps, books);
            RowsInv(s'.rows) && PassedInv(s'.rows, s'.delivering) && OrdersInv(s')
  {
    var o := s.rows[id].order;
    var s' := CommitDelivery(s, pid, id, agent, bps, books);
    SettledSoFar(s, id);
    BooksAfterDelivery(s.books, Delivery(o, agent, bps), s.share, Commissions(DeliveriesOf(s.deliveries, id)), books);
    RowsAfterDelivery(s.rows, s.delivering, pid, id);
    assert OrdersInv(s);
    hide Inv, Settle, RowsAfter, RowsOf, OrderInv, SettledBy, DeliveriesOf, Commissions, Booked;
    OrdersAfterDelivery(s, s'.rows, Delivery(o, agent, bps), books);
  }

  lemma CallEndsKeepInv(s: State, pid: Pid)
    requires Inv(s)
    ensures Inv(s.(delivering := s.delivering - {pid}))
  {
    hide LedgerInv, BalancesInv, OrderInv, Taken;
    CallsDependOn(s, s.(delivering := s.delivering - {pid}));
  }

  lemma SettlesKeepsInv(s: State, pid: Pid, bps: Rate, aborts: bool)
    requires Inv(s)
    ensures Inv(Step(s, Settles(pid, bps, aborts)))
  {
    CallEndsKeepInv(s, pid);
    hide MoneyInv, CallsInv, OrderInv, RowsInv, Settle, Taken;
    if pid in s.delivering && !aborts && s.delivering[pid].id in s.rows {
      var (id, agent) := (s.delivering[pid].id, s.delivering[pid].agent);
      if !MustWait(s.calls, s.rows[id].order) {
        var books := Settle(s.books, s.rows[id].order, agent, bps, s.share);
        if books.Some? {
          CommitDeliveryKeepsMoney(s, pid, id, agent, bps, books.value);
          CommitDeliveryKeepsCalls(s, pid, id, agent, bps, books.value);
          CommitDeliveryKeepsOrders(s, pid, id, agent, bps, books.value);
        }
      }
    }
  }

  lemma StepKeepsInv(s: State, e: Event)
    requires Inv(s)
    ensures Inv(Step(s, e))
  {
    hide Inv, AfterSettles, AfterAdvance;
    match e
    case Place(_, _) => PlaceKeepsInv(s, e);
    case Claim(id, taker) => ClaimKeepsInv(s, id, taker);
    case CheckMove(_, _, _) => CheckKeepsInv(s, e);
    case WriteMove(pid, commits) => WriteKeepsInv(s, pid, commits);
    case CheckPicked(_, _, _) => CheckKeepsInv(s, e);
    case Settles(pid, bps, aborts) => SettlesKeepsInv(s, pid, bps, aborts);
    case Begin(pid, p) => PhaseKeepsInv(s, pid, Begun(p));
    case Advance(pid) => AdvanceKeepsInv(s, pid);
    case Abort(pid) => PhaseKeepsInv(s, pid, Closed);
  }

  lemma {:induction false} RunKeepsInv(s: State, es: seq<Event>)
    requires Inv(s)
    ensures Inv(Run(s, es))
    decreases |es|
  {
    if es != [] {
      RunKeepsInv(s, es[..|es| - 1]);
      StepKeepsInv(Run(s, es[..|es| - 1]), es[|es| - 1]);
    }
  }

  lemma InitialInv(share: Rate)
    ensures Inv(Initial(share))
  {
    var s := Initial(share);
    forall id ensures OrderInv(s.rows, s.deliveries, s.books, share, id) {
    }
  }

  // ---------------------------------------------------------------------------
  // Over all runs
  // ---------------------------------------------------------------------------

  /** In every reachable state the balance of a restaurant in a currency is the subtotals less commission of its delivered
      orders in that currency, less the succeeded payouts to it; neither it nor an uncommitted deduction from it is
      negative. */
  lemma BalancesAreConserved(share: Rate, es: seq<Event>, restaurant: int, currency: string)
    ensures var s := Run(Initial(share), es);
            var balance := BalanceOf(s.books.balances, (restaurant, currency));
            && balance == Credits(s.deliveries, restaurant, currency) - Payouts(s.paid, restaurant, currency)
            && 0 <= balance <= MAX_INT32
            && (forall p :: p in s.calls && (s.calls[p].Deducted? || s.calls[p].Inserted?)
                            && s.calls[p].payout.restaurant == restaurant && s.calls[p].payout.currency == currency ==>
                  0 <= s.calls[p].balance == balance - s.calls[p].payout.amount)
  {
    InitialInv(share);
    RunKeepsInv(Initial(share), es);
    var s := Run(Initial(share), es);
    hide Run, LedgerInv, OrdersInv, RowsInv, Credits, Payouts;
    forall p | p in s.calls && (s.calls[p].Deducted? || s.calls[p].Inserted?)
      ensures s.calls[p].balance
              == BalanceOf(s.books.balances, (s.calls[p].payout.restaurant, s.calls[p].payout.currency)) - s.calls[p].payout.amount
              >= 0
    {
      assert CallInv(s.books, s.calls[p]);
    }
  }

  lemma {:induction false} PayoutsOfMembers(txs: seq<Tx>, t: Tx)
    ensures t in PayoutsOf(txs) <==> t in txs && t.kind == PAYOUT
  {
    if txs != [] {
      PayoutsOfMembers(txs[..|txs| - 1], t);
      assert txs == txs[..|txs| - 1] + [txs[|txs| - 1]];
    }
  }

  lemma {:induction false} PayoutKeysDistinct(txs: seq<Tx>)
    requires KeysDistinct(txs)
    ensures KeysDistinct(PayoutsOf(txs))
  {
    if txs != [] {
      var init, last := txs[..|txs| - 1], txs[|txs| - 1];
      PayoutKeysDistinct(init);
      var ps := PayoutsOf(init);
      forall i | 0 <= i < |ps| ensures ps[i].key != last.key {
        assert ps[i] in ps;
        PayoutsOfMembers(init, ps[i]);
      }
    }
  }

  lemma {:induction false} PayoutRowAt(paid: seq<Payout>, i: nat)
    requires i < |paid|
    ensures |PayoutRows(paid)| == |paid| && PayoutRows(paid)[i] == PayoutRow(paid[i])
  {
    if |paid| > 1 {
      PayoutRowAt(paid[..|paid| - 1], if i < |paid| - 1 then i else 0);
    }
  }

  /** The row of a payout: its amount in its currency, under its key and reference, to the owner. */
  ghost predicate Records(t: Tx, p: Payout) {
    t == Tx(None, PAYOUT, SUCCEEDED, p.amount, p.currency, None, Some(p.owner), Some(p.reference), p.key)
  }

  lemma OneRowPerKey(txs: seq<Tx>, a: Tx, b: Tx)
    requires KeysDistinct(txs) && a in txs && b in txs && a.key == b.key
    ensures a == b
  {
    var i :| 0 <= i < |txs| && txs[i] == a;
    var j :| 0 <= j < |txs| && txs[j] == b;
    assert !(i < j) && !(j < i);
  }

  /** However payout calls interleave, a key is paid at most once, and its row, from no account to the owner's, is the only
      one under the key; there are no other payout rows. */
  lemma OnePayoutPerKey(share: Rate, es: seq<Event>)
    ensures var s := Run(Initial(share), es);
            && (forall i, j :: 0 <= i < j < |s.paid| ==> s.paid[i].key != s.paid[j].key)
            && |PayoutsOf(s.books.txs)| == |s.paid|
            && (forall i :: 0 <= i < |s.paid| ==>
                  var p := s.paid[i];
                  && Records(PayoutsOf(s.books.txs)[i], p)
                  && PayoutsOf(s.books.txs)[i] in s.books.txs
                  && forall t :: t in s.books.txs && t.key == p.key ==> t == PayoutsOf(s.books.txs)[i])
  {
    InitialInv(share);
    RunKeepsInv(Initial(share), es);
    var s := Run(Initial(share), es);
    hide Run, CallsInv, OrdersInv, RowsInv, BalancesInv;
    var rows := PayoutsOf(s.books.txs);
    PayoutKeysDistinct(s.books.txs);
    forall i | 0 <= i < |s.paid|
      ensures |rows| == |s.paid| && rows[i] == PayoutRow(s.paid[i]) && rows[i] in s.books.txs
      ensures forall t :: t in s.books.txs && t.key == s.paid[i].key ==> t == rows[i]
    {
      PayoutRowAt(s.paid, i);
      assert rows[i] in rows;
      PayoutsOfMembers(s.books.txs, rows[i]);
      forall t | t in s.books.txs && t.key == s.paid[i].key ensures t == rows[i] {
        OneRowPerKey(s.books.txs, t, rows[i]);
      }
    }
    assert s.paid == [] ==> rows == [];
    forall i, j | 0 <= i < j < |s.paid| ensures s.paid[i].key != s.paid[j].key {
      assert rows[i].key != rows[j].key;
    }
  }

  /** The deduction of a payout, on its own fields: its restaurant's balance in its currency and no other. */
  ghost predicate TakesFrom(balances: map<BalanceKey, int>, balances': map<BalanceKey, int>, p: Payout) {
    forall restaurant: int, currency: string ::
      BalanceOf(balances', (restaurant, currency))
      == BalanceOf(balances, (restaurant, currency))
         - if restaurant == p.restaurant && currency == p.currency then p.amount else 0
  }

  /** In every run a payout call goes past the lock if and only if the balance of its restaurant in its currency covers the
      amount, and its commit takes the amount from that balance, whatever was committed since. */
  lemma PayoutsTakeFromTheirRestaurant(share: Rate, es: seq<Event>, pid: Pid)
    requires pid in Run(Initial(share), es).calls
    ensures var s := Run(Initial(share), es);
            var c, s' := s.calls[pid], Step(s, Advance(pid));
            && pid in s'.calls
            && (c.Unseen? && s'.calls[pid] != c ==>
                  && s'.books == s.books
                  && s'.calls[pid] == if BalanceOf(s.books.balances, (c.payout.restaurant, c.payout.currency)) >= c.payout.amount
                                      then Locked(c.payout) else Closed)
            && (if c.Inserted? then s'.calls[pid] == Closed && TakesFrom(s.books.balances, s'.books.balances, c.payout)
                else s'.books == s.books)
  {
    InitialInv(share);
    RunKeepsInv(Initial(share), es);
    var s := Run(Initial(share), es);
    assert CallInv(s.books, s.calls[pid]);
    hide Run, Inv, KeyTaken, IsLocked, IsInserted;
  }

  lemma StepKeepsShare(s: State, e: Event)
    ensures Step(s, e).share == s.share
  {
    hide Settle, MustWait, NextPhase;
  }

  lemma {:induction false} ShareStays(s: State, es: seq<Event>)
    ensures Run(s, es).share == s.share
    decreases |es|
  {
    if es != [] {
      ShareStays(s, es[..|es| - 1]);
      StepKeepsShare(Run(s, es[..|es| - 1]), es[|es| - 1]);
      hide Step;
    }
  }

  lemma RunSnoc(s: State, es: seq<Event>, e: Event)
    ensures Run(s, es + [e]) == Step(Run(s, es), e)
  {
    assert (es + [e])[..|es + [e]| - 1] == es;
  }

  lemma RunOne(s: State, e: Event)
    ensures Run(s, [e]) == Step(s, e)
  {
    RunSnoc(s, [], e);
    assert [] + [e] == [e];
  }

  lemma RunTwo(s: State, e1: Event, e2: Event)
    ensures Run(s, [e1, e2]) == Step(Step(s, e1), e2)
  {
    RunOne(s, e1);
    RunSnoc(s, [e1], e2);
    assert [e1] + [e2] == [e1, e2];
    hide Run, Step;
  }

  lemma {:induction false} RunConcat(s: State, a: seq<Event>, b: seq<Event>)
    ensures Run(s, a + b) == Run(Run(s, a), b)
    decreases |b|
  {
    if b == [] {
      assert a + b == a;
    } else {
      assert (a + b)[..|a + b| - 1] == a + b[..|b| - 1];
      RunConcat(s, a, b[..|b| - 1]);
    }
  }

  /** Calls and deliveries are those of the order's agent. */
  ghost predicate AgentsInv(s: State) {
    && (forall p :: p in s.delivering ==>
          s.delivering[p].id in s.rows && s.rows[s.delivering[p].id].agent == Some(s.delivering[p].agent))
    && (forall i :: 0 <= i < |s.deliveries| ==>
          && s.deliveries[i].order.id in s.rows
          && s.rows[s.deliveries[i].order.id].agent == Some(s.deliveries[i].agent))
  }

  lemma StepKeepsAgents(s: State, e: Event)
    requires AgentsInv(s) && RowsInv(s.rows)
    ensures AgentsInv(Step(s, e))
  {
    hide Settle, MustWait, NextPhase, WellFormed, Transition;
  }

  lemma {:induction false} RunKeepsAgents(share: Rate, es: seq<Event>)
    ensures AgentsInv(Run(Initial(share), es))
    decreases |es|
  {
    if es != [] {
      var init := es[..|es| - 1];
      RunKeepsAgents(share, init);
      InitialInv(share);
      RunKeepsInv(Initial(share), init);
      StepKeepsAgents(Run(Initial(share), init), es[|es| - 1]);
      hide AgentsInv, Step;
    }
  }

  lemma {:induction false} DeliveriesOfAre(ds: seq<Delivery>, id: OrderId)
    ensures forall i :: 0 <= i < |DeliveriesOf(ds, id)| ==> DeliveriesOf(ds, id)[i] in ds
  {
    if ds != [] {
      DeliveriesOfAre(ds[..|ds| - 1], id);
    }
  }

  /** Over every run, overlapping deliveries of one order included: the books hold exactly the committed deliveries of
      the order, all by its agent, each of them with its net, its event, and the ledger rows and earning it adds. */
  lemma BooksHoldTheDeliveries(share: Rate, es: seq<Event>, id: OrderId)
    ensures var s := Run(Initial(share), es);
            var mine := DeliveriesOf(s.deliveries, id);
            && (mine == [] ==> NotSettled(s.books, id))
            && (mine != [] ==>
                  && id in s.rows
                  && (forall i :: 0 <= i < |mine| ==> mine[i].order == s.rows[id].order && s.rows[id].agent == Some(mine[i].agent))
                  && SettledBy(s.books, s.rows[id].order, mine, share))
  {
    InitialInv(share);
    RunKeepsInv(Initial(share), es);
    ShareStays(Initial(share), es);
    var s := Run(Initial(share), es);
    assert OrderInv(s.rows, s.deliveries, s.books, s.share, id);
    NothingFor(s.rows, id);
    RunKeepsAgents(share, es);
    DeliveriesOfMembers(s.deliveries, id);
    DeliveriesOfAre(s.deliveries, id);
    hide Run, Inv, RowsOf, RowsAfter, EventsOf, EventsFor, DeliveriesOf, Commissions;
  }
}
