/** Payment webhooks: the event row that removes duplicates is committed on its own, then one transaction finds the order
    and its latest active session, captures the session, books the charge and places the order, or rolls back. Its reads
    are separate steps, since they lock nothing. */
module Webhook {
  import opened Common
  import opened Ledger
  import opened OrderStatus

  type SessionId = nat

  datatype SessionStatus = INITIALIZED | PENDING | AUTHORIZED | CAPTURED | SESSION_FAILED | EXPIRED | SESSION_CANCELLED

  datatype Session = Session(order: OrderId, amount: int, currency: string, status: SessionStatus)

  datatype OrderRow = OrderRow(customer: int, restaurant: int, total: int, currency: string, cash: bool, status: Status)

  /** A row of the webhook event table: whether processing ended, and whether in error. */
  datatype Receipt = Receipt(processed: bool, failed: bool)

  /** How far the processing of an event has come: its order found, unpaid or not, and its session chosen. */
  datatype Phase =
    | Received(order: OrderId)
    | Found(order: OrderId, unpaid: bool)
    | Chosen(order: OrderId, unpaid: bool, session: SessionId)

  /** A capture that committed, with the charge it stands for; `booked` says whether that row was inserted, `places` whether
      the order was placed with it. */
  datatype Capture = Capture(session: SessionId, charge: Tx, booked: bool, places: bool)

  /** Tables of one region, the events between receipt and commit, and the captures so far. */
  datatype State = State(
    orders: map<OrderId, OrderRow>,
    sessions: map<SessionId, Session>,
    txs: seq<Tx>,
    receipts: map<string, Receipt>,
    running: map<string, Phase>,
    outbox: seq<(OrderId, EventType)>,
    captures: seq<Capture>)

  datatype Event =
    | PlaceOrder(id: OrderId, row: OrderRow)
    | OpenSession(session: SessionId, order: OrderId)
    | Write(id: OrderId, next: Status)
    | OtherRow(tx: Tx)
    | Receive(txn: string, order: OrderId)
    | FindOrder(txn: string)
    | Choose(txn: string)
    | Commit(txn: string, owner: Option<int>, ending: Ending)
    | Crash(txn: string)

  const EMPTY := State(map[], map[], [], map[], map[], [], [])

  predicate IsActive(s: Session, order: OrderId) {
    s.order == order && s.status in {INITIALIZED, PENDING}
  }

  predicate IsLatestActive(sessions: map<SessionId, Session>, order: OrderId, id: SessionId) {
    && id in sessions && IsActive(sessions[id], order)
    && forall other :: other in sessions && IsActive(sessions[other], order) ==> other <= id
  }

  lemma {:induction false} MaxExists(ids: set<nat>)
    requires ids != {}
    ensures exists m :: m in ids && forall id :: id in ids ==> id <= m
  {
    var some :| some in ids;
    if ids - {some} != {} {
      MaxExists(ids - {some});
      var m :| m in ids - {some} && forall id :: id in ids - {some} ==> id <= m;
      var top := if m <= some then some else m;
      assert forall id :: id in ids ==> id == some || id in ids - {some};
      assert top in ids && forall id :: id in ids ==> id <= top;
    } else {
      assert ids == {some};
    }
  }

  function Max(ids: set<nat>): (m: nat)
    requires ids != {}
    ensures m in ids && forall id :: id in ids ==> id <= m
  {
    MaxExists(ids);
    var m :| m in ids && forall id :: id in ids ==> id <= m;
    m
  }

  function LatestActive(sessions: map<SessionId, Session>, order: OrderId): (r: Option<SessionId>)
    ensures r.Some? ==> IsLatestActive(sessions, order, r.value)
    ensures r.None? ==> forall id :: !IsLatestActive(sessions, order, id)
  {
    var ids := set id | id in sessions && IsActive(sessions[id], order);
    assert forall id :: id in sessions && IsActive(sessions[id], order) ==> id in ids;
    if ids == {} then None else Some(Max(ids))
  }

  predicate ReferenceUsed(txs: seq<Tx>, reference: string) {
    exists i :: 0 <= i < |txs| && txs[i].providerReference == Some(reference)
  }

  /** The payee is the branch's owner, or the restaurant when the branch could not be fetched. */
  function ChargeRow(id: OrderId, o: OrderRow, session: Session, txn: string, owner: Option<int>): Tx {
    Tx(Some(id), CHARGE, SUCCEEDED, session.amount, session.currency, Some(o.customer),
       Some(if owner.Some? then owner.value else o.restaurant), Some(txn), Kashier(txn))
  }

  /** The ledger after a capture: the charge, unless some row carries its reference already. */
  function Charged(txs: seq<Tx>, charge: Tx, txn: string): Option<seq<Tx>> {
    if ReferenceUsed(txs, txn) then Some(txs) else CreateTransaction(txs, charge)
  }

  function CaptureEvents(id: OrderId, unpaid: bool): seq<(OrderId, EventType)> {
    [(id, PAYMENT_COMPLETED)] + if unpaid then [(id, ORDER_PLACED)] else []
  }

  /** Both the session and, if it was found unpaid, the order are written whatever their status is by now. */
  function CommitCapture(s: State, txn: string, c: Phase, charge: Tx, txs: seq<Tx>): State
    requires c.Chosen? && c.order in s.orders && c.session in s.sessions
  {
    s.(sessions := s.sessions[c.session := s.sessions[c.session].(status := CAPTURED)],
       txs := txs,
       outbox := s.outbox + CaptureEvents(c.order, c.unpaid),
       orders := if c.unpaid then s.orders[c.order := s.orders[c.order].(status := PLACED)] else s.orders,
       receipts := s.receipts[txn := Receipt(true, false)],
       running := s.running - {txn},
       captures := s.captures + [Capture(c.session, charge, !ReferenceUsed(s.txs, txn), c.unpaid)])
  }

  /** The error noted on the event row, after the rollback or in place of the reply. */
  function RecordFailure(s: State, txn: string): State {
    s.(receipts := s.receipts[txn := Receipt(true, true)], running := s.running - {txn})
  }

  function AfterFindOrder(s: State, txn: string): State {
    if txn !in s.running || !s.running[txn].Received? then s
    else
      var id := s.running[txn].order;
      if id !in s.orders then RecordFailure(s, txn)
      else s.(running := s.running[txn := Found(id, s.orders[id].status == PENDING_PAYMENT)])
  }

  function AfterChoose(s: State, txn: string): State {
    if txn !in s.running || !s.running[txn].Found? then s
    else
      var session := LatestActive(s.sessions, s.running[txn].order);
      if session.None? then RecordFailure(s, txn)
      else s.(running := s.running[txn := Chosen(s.running[txn].order, s.running[txn].unpaid, session.value)])
  }

  /** The charge an event with a chosen session stands for. */
  function ChargeOf(s: State, c: Phase, txn: string, owner: Option<int>): Tx
    requires c.Chosen? && c.order in s.orders && c.session in s.sessions
  {
    ChargeRow(c.order, s.orders[c.order], s.sessions[c.session], txn, owner)
  }

  /** The writes of an event that passed the "pay" filter: always those of the success branch. */
  function AfterCommit(s: State, txn: string, owner: Option<int>, ending: Ending): State {
    if txn !in s.running || !s.running[txn].Chosen? then s
    else
      var c := s.running[txn];
      if ending == RollsBack || c.order !in s.orders || c.session !in s.sessions then RecordFailure(s, txn)
      else
        var charge := ChargeOf(s, c, txn, owner);
        var txs := Charged(s.txs, charge, txn);
        if txs.None? then RecordFailure(s, txn)
        else if ending == CommitsWithoutReply then RecordFailure(CommitCapture(s, txn, c, charge, txs.value), txn)
        else CommitCapture(s, txn, c, charge, txs.value)
  }

  /** One step. Other writers may set an order to any status, by a stale write too, but for PENDING_PAYMENT and PLACED, which
      no HTTP actor may set. */
  function Step(s: State, e: Event): State {
    match e
    case PlaceOrder(id, row) =>
      if id in s.orders || row.status != (if row.cash then PLACED else PENDING_PAYMENT) then s
      else s.(orders := s.orders[id := row], outbox := s.outbox + if row.cash then [(id, ORDER_PLACED)] else [])
    case OpenSession(session, id) =>
      if session in s.sessions || id !in s.orders || LatestActive(s.sessions, id).Some? then s
      else s.(sessions := s.sessions[session := Session(id, s.orders[id].total, s.orders[id].currency, INITIALIZED)])
    case Write(id, next) =>
      if id !in s.orders || next in {PENDING_PAYMENT, PLACED} then s
      else s.(orders := s.orders[id := s.orders[id].(status := next)])
    case OtherRow(tx) =>
      if tx.kind == CHARGE || CreateTransaction(s.txs, tx).None? then s else s.(txs := s.txs + [tx])
    case Receive(txn, id) =>
      if txn in s.receipts then s
      else s.(receipts := s.receipts[txn := Receipt(false, false)], running := s.running[txn := Received(id)])
    case FindOrder(txn) => AfterFindOrder(s, txn)
    case Choose(txn) => AfterChoose(s, txn)
    case Commit(txn, owner, ending) => AfterCommit(s, txn, owner, ending)
    case Crash(txn) => s.(running := s.running - {txn})
  }

  function Run(s: State, es: seq<Event>): State
    decreases |es|
  {
    if es == [] then s else Step(Run(s, es[..|es| - 1]), es[|es| - 1])
  }

  // ---------------------------------------------------------------------------
  // Captures and charges
  // ---------------------------------------------------------------------------

  function ChargesOf(txs: seq<Tx>): seq<Tx> {
    if txs == [] then []
    else ChargesOf(txs[..|txs| - 1]) + if txs[|txs| - 1].kind == CHARGE then [txs[|txs| - 1]] else []
  }

  function BookedCharges(captures: seq<Capture>): seq<Tx> {
    if captures == [] then []
    else
      var c := captures[|captures| - 1];
      BookedCharges(captures[..|captures| - 1]) + if c.booked then [c.charge] else []
  }

  predicate OtherRowHas(txs: seq<Tx>, reference: Option<string>) {
    exists i :: 0 <= i < |txs| && txs[i].kind != CHARGE && txs[i].providerReference == reference
  }

  function Txn(c: Capture): string
    requires c.charge.providerReference.Some?
  {
    c.charge.providerReference.value
  }

  /** A capture stands for a captured session and an event whose processing ended. */
  ghost predicate CaptureInv(sessions: map<SessionId, Session>, txs: seq<Tx>, receipts: map<string, Receipt>,
                             running: map<string, Phase>, c: Capture)
  {
    && c.session in sessions && sessions[c.session].status == CAPTURED
    && c.charge.kind == CHARGE && c.charge.status == SUCCEEDED
    && c.charge.order == Some(sessions[c.session].order) && c.charge.amount == sessions[c.session].amount
    && c.charge.providerReference.Some?
    && Txn(c) in receipts && receipts[Txn(c)].processed && Txn(c) !in running
    && (!c.booked ==> OtherRowHas(txs, c.charge.providerReference))
  }

  /** No event is captured twice. */
  ghost predicate EventsApart(captures: seq<Capture>) {
    forall i, j :: 0 <= i < j < |captures| ==> captures[i].charge.providerReference != captures[j].charge.providerReference
  }

  /** No session is captured twice. */
  ghost predicate SessionsApart(captures: seq<Capture>) {
    forall i, j :: 0 <= i < j < |captures| ==> captures[i].session != captures[j].session
  }

  ghost predicate IsCaptured(captures: seq<Capture>, id: SessionId) {
    exists i :: 0 <= i < |captures| && captures[i].session == id
  }

  /** Every captured session comes from a capture. */
  ghost predicate SessionsInv(sessions: map<SessionId, Session>, captures: seq<Capture>) {
    forall id :: id in sessions && sessions[id].status == CAPTURED ==> IsCaptured(captures, id)
  }

  /** A running event's row is not processed; its session is one of its order, active when it was chosen and captured at
      most since. */
  ghost predicate RunningInv(s: State) {
    forall txn :: txn in s.running ==>
      && txn in s.receipts && !s.receipts[txn].processed
      && (!s.running[txn].Received? ==> s.running[txn].order in s.orders)
      && (s.running[txn].Chosen? ==>
            var id := s.running[txn].session;
            id in s.sessions && s.sessions[id].order == s.running[txn].order
            && s.sessions[id].status in {INITIALIZED, PENDING, CAPTURED})
  }

  function CapturesOf(captures: seq<Capture>, id: OrderId): nat {
    if captures == [] then 0
    else CapturesOf(captures[..|captures| - 1], id) + if captures[|captures| - 1].charge.order == Some(id) then 1 else 0
  }

  /** The captures that placed the order. */
  function Placings(captures: seq<Capture>, id: OrderId): nat {
    if captures == [] then 0
    else
      var c := captures[|captures| - 1];
      Placings(captures[..|captures| - 1], id) + if c.charge.order == Some(id) && c.places then 1 else 0
  }

  /** Orders paid in cash are placed at once. */
  function PlacedAtOnce(orders: map<OrderId, OrderRow>, id: OrderId): nat {
    if id in orders && orders[id].cash then 1 else 0
  }

  ghost predicate EventsInv(orders: map<OrderId, OrderRow>, outbox: seq<(OrderId, EventType)>, captures: seq<Capture>) {
    forall id ::
      && multiset(outbox)[(id, PAYMENT_COMPLETED)] == CapturesOf(captures, id)
      && multiset(outbox)[(id, ORDER_PLACED)] == PlacedAtOnce(orders, id) + Placings(captures, id)
  }

  ghost predicate CapturesInv(s: State) {
    && (forall i :: 0 <= i < |s.captures| ==> CaptureInv(s.sessions, s.txs, s.receipts, s.running, s.captures[i]))
    && EventsApart(s.captures)
    && SessionsInv(s.sessions, s.captures)
    && ChargesOf(s.txs) == BookedCharges(s.captures)
  }

  ghost predicate Inv(s: State) {
    CapturesInv(s) && RunningInv(s) && EventsInv(s.orders, s.outbox, s.captures)
  }

  lemma {:induction false} ChargesOfMembers(txs: seq<Tx>, t: Tx)
    ensures t in ChargesOf(txs) <==> t in txs && t.kind == CHARGE
  {
    if txs != [] {
      ChargesOfMembers(txs[..|txs| - 1], t);
      assert txs == txs[..|txs| - 1] + [txs[|txs| - 1]];
    }
  }

  lemma {:induction false} BookedChargesMembers(captures: seq<Capture>, t: Tx)
    ensures t in BookedCharges(captures) <==> exists i :: 0 <= i < |captures| && captures[i].booked && captures[i].charge == t
  {
    if captures != [] {
      var n := |captures| - 1;
      BookedChargesMembers(captures[..n], t);
      if t in BookedCharges(captures[..n]) {
        var i :| 0 <= i < n && captures[..n][i].booked && captures[..n][i].charge == t;
        assert captures[i].booked && captures[i].charge == t;
      }
      if i :| 0 <= i < |captures| && captures[i].booked && captures[i].charge == t {
        assert i < n ==> captures[..n][i].booked && captures[..n][i].charge == t;
      }
    }
  }

  // ---------------------------------------------------------------------------
  // Steps that capture nothing
  // ---------------------------------------------------------------------------

  /** Rows, receipts and running events may change as long as no capture's do. */
  lemma CapturesStay(s: State, s': State)
    requires CapturesInv(s) && s'.captures == s.captures && s'.txs == s.txs
    requires forall id :: id in s.sessions ==> id in s'.sessions && s'.sessions[id] == s.sessions[id]
    requires forall id :: id in s'.sessions && id !in s.sessions ==> s'.sessions[id].status != CAPTURED
    requires forall txn :: txn in s.receipts ==> txn in s'.receipts && (s.receipts[txn].processed ==> s'.receipts[txn].processed)
    requires forall txn :: txn in s'.running ==> txn in s.running || txn !in s.receipts
    ensures CapturesInv(s')
  {
    hide EventsApart, ChargesOf, BookedCharges, OtherRowHas, IsCaptured;
    forall i | 0 <= i < |s.captures| ensures CaptureInv(s'.sessions, s'.txs, s'.receipts, s'.running, s.captures[i]) {
      assert CaptureInv(s.sessions, s.txs, s.receipts, s.running, s.captures[i]);
    }
  }

  lemma PlaceOrderKeepsEvents(s: State, id: OrderId, row: OrderRow)
    requires EventsInv(s.orders, s.outbox, s.captures) && id !in s.orders
    ensures EventsInv(s.orders[id := row], s.outbox + (if row.cash then [(id, ORDER_PLACED)] else []), s.captures)
  {
    hide CapturesOf, Placings;
    assert s.outbox + [] == s.outbox;
  }

  lemma PlaceOrderKeepsInv(s: State, id: OrderId, row: OrderRow)
    requires Inv(s)
    ensures Inv(Step(s, PlaceOrder(id, row)))
  {
    var s' := Step(s, PlaceOrder(id, row));
    CapturesStay(s, s');
    if s' != s {
      PlaceOrderKeepsEvents(s, id, row);
    }
    hide CapturesInv, EventsInv;
  }

  lemma SameCash(orders: map<OrderId, OrderRow>, orders': map<OrderId, OrderRow>, outbox: seq<(OrderId, EventType)>,
                 captures: seq<Capture>)
    requires EventsInv(orders, outbox, captures) && orders'.Keys == orders.Keys
    requires forall id :: id in orders ==> orders'[id].cash == orders[id].cash
    ensures EventsInv(orders', outbox, captures)
  {
    hide CapturesOf, Placings;
  }

  lemma WriteKeepsInv(s: State, id: OrderId, next: Status)
    requires Inv(s)
    ensures Inv(Step(s, Write(id, next)))
  {
    var s' := Step(s, Write(id, next));
    CapturesStay(s, s');
    SameCash(s.orders, s'.orders, s.outbox, s.captures);
    hide CapturesInv, EventsInv;
  }

  lemma FailureKeepsInv(s: State, txn: string)
    requires Inv(s)
    ensures Inv(RecordFailure(s, txn))
  {
    var s' := RecordFailure(s, txn);
    CapturesStay(s, s');
    hide CapturesInv, EventsInv;
  }

  lemma OpenSessionKeepsInv(s: State, e: Event)
    requires Inv(s) && e.OpenSession?
    ensures Inv(Step(s, e))
  {
    var s' := Step(s, e);
    hide LatestActive;
    CapturesStay(s, s');
    hide CapturesInv, EventsInv;
  }

  lemma ReceiveKeepsInv(s: State, txn: string, id: OrderId)
    requires Inv(s) && txn !in s.receipts
    ensures Inv(s.(receipts := s.receipts[txn := Receipt(false, false)], running := s.running[txn := Received(id)]))
  {
    var s' := s.(receipts := s.receipts[txn := Receipt(false, false)], running := s.running[txn := Received(id)]);
    assert forall t :: t in s'.running ==> t in s.running || t !in s.receipts;
    CapturesStay(s, s');
    hide CapturesInv, EventsInv;
  }

  lemma CrashKeepsInv(s: State, txn: string)
    requires Inv(s)
    ensures Inv(s.(running := s.running - {txn}))
  {
    CapturesStay(s, s.(running := s.running - {txn}));
    hide CapturesInv, EventsInv;
  }

  lemma ReceiptKeepsInv(s: State, e: Event)
    requires Inv(s) && (e.Receive? || e.Crash?)
    ensures Inv(Step(s, e))
  {
    if e.Crash? {
      CrashKeepsInv(s, e.txn);
    } else if e.txn !in s.receipts {
      ReceiveKeepsInv(s, e.txn, e.order);
    }
    hide Inv;
  }

  lemma FindOrderKeepsInv(s: State, txn: string)
    requires Inv(s)
    ensures Inv(Step(s, FindOrder(txn)))
  {
    FailureKeepsInv(s, txn);
    var s' := Step(s, FindOrder(txn));
    if s' != RecordFailure(s, txn) {
      CapturesStay(s, s');
      hide CapturesInv, EventsInv;
    }
  }

  lemma ChooseKeepsInv(s: State, txn: string)
    requires Inv(s)
    ensures Inv(Step(s, Choose(txn)))
  {
    FailureKeepsInv(s, txn);
    var s' := Step(s, Choose(txn));
    if s' != RecordFailure(s, txn) {
      CapturesStay(s, s');
      hide CapturesInv, EventsInv, LatestActive;
    }
  }

  lemma OtherRowsGrow(txs: seq<Tx>, more: seq<Tx>, reference: Option<string>)
    ensures OtherRowHas(txs, reference) ==> OtherRowHas(txs + more, reference)
  {
    if i :| 0 <= i < |txs| && txs[i].kind != CHARGE && txs[i].providerReference == reference {
      assert (txs + more)[i] == txs[i];
    }
  }

  lemma OtherRowKeepsInv(s: State, t: Tx)
    requires Inv(s) && t.kind != CHARGE
    ensures Inv(s.(txs := s.txs + [t]))
  {
    hide EventsApart, BookedCharges, EventsInv, SessionsInv;
    var s' := s.(txs := s.txs + [t]);
    assert s'.txs[..|s.txs|] == s.txs;
    forall i | 0 <= i < |s.captures| ensures CaptureInv(s'.sessions, s'.txs, s'.receipts, s'.running, s.captures[i]) {
      assert CaptureInv(s.sessions, s.txs, s.receipts, s.running, s.captures[i]);
      OtherRowsGrow(s.txs, [t], s.captures[i].charge.providerReference);
    }
  }

  // ---------------------------------------------------------------------------
  // A capture
  // ---------------------------------------------------------------------------

  lemma ChargesAreNotRunning(s: State, t: Tx)
    requires Inv(s) && t in s.txs && t.kind == CHARGE
    ensures t.providerReference.Some? && t.providerReference.value !in s.running
  {
    ChargesOfMembers(s.txs, t);
    BookedChargesMembers(s.captures, t);
    var i :| 0 <= i < |s.captures| && s.captures[i].charge == t;
    assert CaptureInv(s.sessions, s.txs, s.receipts, s.running, s.captures[i]);
  }

  /** A reference of a running event is on no charge: a row that carries it is of another kind. */
  lemma UsedByAnother(s: State, txn: string)
    requires Inv(s) && txn in s.running && ReferenceUsed(s.txs, txn)
    ensures OtherRowHas(s.txs, Some(txn))
  {
    var k :| 0 <= k < |s.txs| && s.txs[k].providerReference == Some(txn);
    assert s.txs[k] in s.txs;
    hide Inv;
    assert s.txs[k].kind != CHARGE by {
      if s.txs[k].kind == CHARGE {
        ChargesAreNotRunning(s, s.txs[k]);
      }
    }
  }

  lemma CaptureIsNew(s: State, txn: string)
    requires Inv(s) && txn in s.running
    ensures forall i :: 0 <= i < |s.captures| ==> s.captures[i].charge.providerReference != Some(txn)
  {
    forall i | 0 <= i < |s.captures| ensures s.captures[i].charge.providerReference != Some(txn) {
      assert CaptureInv(s.sessions, s.txs, s.receipts, s.running, s.captures[i]);
    }
  }

  lemma CapturesSnoc(captures: seq<Capture>, c: Capture)
    ensures BookedCharges(captures + [c]) == BookedCharges(captures) + if c.booked then [c.charge] else []
    ensures forall id: OrderId :: CapturesOf(captures + [c], id) == CapturesOf(captures, id) + if c.charge.order == Some(id) then 1 else 0
    ensures forall id: OrderId ::
              Placings(captures + [c], id) == Placings(captures, id) + if c.charge.order == Some(id) && c.places then 1 else 0
  {
    assert (captures + [c])[..|captures|] == captures;
  }

  lemma EventsAfter(orders: map<OrderId, OrderRow>, outbox: seq<(OrderId, EventType)>, captures: seq<Capture>, id: OrderId,
                    c: Capture)
    requires EventsInv(orders, outbox, captures) && c.charge.order == Some(id)
    ensures EventsInv(orders, outbox + CaptureEvents(id, c.places), captures + [c])
  {
    CapturesSnoc(captures, c);
    var more := CaptureEvents(id, c.places);
    hide CapturesOf, Placings, BookedCharges, PlacedAtOnce;
    assert multiset(outbox + more) == multiset(outbox) + multiset(more);
    assert multiset(more) == multiset{(id, PAYMENT_COMPLETED)} + if c.places then multiset{(id, ORDER_PLACED)} else multiset{};
  }

  /** The ledger gains exactly the booked charge, and loses no row of another kind. */
  lemma CaptureBooks(s: State, txn: string, charge: Tx, txs: seq<Tx>)
    requires Inv(s) && txn in s.running && charge.kind == CHARGE && Charged(s.txs, charge, txn) == Some(txs)
    ensures ChargesOf(txs) == ChargesOf(s.txs) + if ReferenceUsed(s.txs, txn) then [] else [charge]
    ensures forall reference :: OtherRowHas(s.txs, reference) ==> OtherRowHas(txs, reference)
    ensures ReferenceUsed(s.txs, txn) ==> OtherRowHas(txs, Some(txn))
  {
    if ReferenceUsed(s.txs, txn) {
      UsedByAnother(s, txn);
    } else {
      assert txs == s.txs + [charge] && txs[..|s.txs|] == s.txs;
      hide OtherRowHas, Inv;
      forall reference ensures OtherRowHas(s.txs, reference) ==> OtherRowHas(txs, reference) {
        OtherRowsGrow(s.txs, [charge], reference);
      }
    }
  }

  lemma SessionsAfter(sessions: map<SessionId, Session>, captures: seq<Capture>, session: SessionId, c: Capture)
    requires SessionsInv(sessions, captures) && session in sessions && c.session == session
    ensures SessionsInv(sessions[session := sessions[session].(status := CAPTURED)], captures + [c])
  {
    var sessions' := sessions[session := sessions[session].(status := CAPTURED)];
    forall id | id in sessions' && sessions'[id].status == CAPTURED ensures IsCaptured(captures + [c], id) {
      if id == session {
        assert (captures + [c])[|captures|].session == id;
      } else {
        assert IsCaptured(captures, id);
        var i :| 0 <= i < |captures| && captures[i].session == id;
        assert (captures + [c])[i].session == id;
      }
    }
  }

  /** The event of `txn` is to be committed with this charge and ledger. */
  ghost predicate Ready(s: State, txn: string, c: Phase, charge: Tx, txs: seq<Tx>) {
    && txn in s.running && s.running[txn] == c && c.Chosen? && c.order in s.orders && c.session in s.sessions
    && charge.kind == CHARGE && charge.status == SUCCEEDED && charge.providerReference == Some(txn)
    && charge.order == Some(c.order) && charge.amount == s.sessions[c.session].amount
    && Charged(s.txs, charge, txn) == Some(txs)
  }

  lemma CaptureKeepsEvents(s: State, txn: string, c: Phase, charge: Tx, txs: seq<Tx>)
    requires Inv(s) && Ready(s, txn, c, charge, txs)
    ensures var s' := CommitCapture(s, txn, c, charge, txs); EventsInv(s'.orders, s'.outbox, s'.captures)
  {
    var s' := CommitCapture(s, txn, c, charge, txs);
    var capture := Capture(c.session, charge, !ReferenceUsed(s.txs, txn), c.unpaid);
    EventsAfter(s.orders, s.outbox, s.captures, c.order, capture);
    hide EventsInv, CapturesInv, RunningInv, ReferenceUsed, Charged;
    SameCash(s.orders, s'.orders, s'.outbox, s'.captures);
  }

  lemma CaptureKeepsRunning(s: State, txn: string, c: Phase, charge: Tx, txs: seq<Tx>)
    requires Inv(s) && Ready(s, txn, c, charge, txs)
    ensures RunningInv(CommitCapture(s, txn, c, charge, txs))
  {
    hide EventsInv, CapturesInv, ReferenceUsed, Charged;
  }

  lemma OldCaptures(s: State, s': State, txn: string, session: SessionId, c: Capture)
    requires CaptureInv(s.sessions, s.txs, s.receipts, s.running, c)
    requires c.charge.providerReference != Some(txn) && session in s.sessions
    requires s'.sessions == s.sessions[session := s.sessions[session].(status := CAPTURED)]
    requires s'.receipts == s.receipts[txn := Receipt(true, false)] && s'.running == s.running - {txn}
    requires OtherRowHas(s.txs, c.charge.providerReference) ==> OtherRowHas(s'.txs, c.charge.providerReference)
    ensures CaptureInv(s'.sessions, s'.txs, s'.receipts, s'.running, c)
  {
    hide OtherRowHas;
  }

  lemma NewCapture(s: State, txn: string, c: Phase, charge: Tx, txs: seq<Tx>)
    requires Inv(s) && Ready(s, txn, c, charge, txs)
    requires ReferenceUsed(s.txs, txn) ==> OtherRowHas(txs, Some(txn))
    ensures var s' := CommitCapture(s, txn, c, charge, txs);
            CaptureInv(s'.sessions, s'.txs, s'.receipts, s'.running,
                       Capture(c.session, charge, !ReferenceUsed(s.txs, txn), c.unpaid))
  {
    hide OtherRowHas, ReferenceUsed, Charged, CapturesInv, EventsInv;
  }

  lemma ApartSnoc(captures: seq<Capture>, c: Capture)
    requires EventsApart(captures)
    requires forall i :: 0 <= i < |captures| ==> captures[i].charge.providerReference != c.charge.providerReference
    ensures EventsApart(captures + [c])
  {
  }

  lemma CaptureKeepsJournals(s: State, txn: string, c: Phase, charge: Tx, txs: seq<Tx>)
    requires Inv(s) && Ready(s, txn, c, charge, txs)
    ensures var s' := CommitCapture(s, txn, c, charge, txs);
            EventsApart(s'.captures) && SessionsInv(s'.sessions, s'.captures) && ChargesOf(s'.txs) == BookedCharges(s'.captures)
  {
    var capture := Capture(c.session, charge, !ReferenceUsed(s.txs, txn), c.unpaid);
    CaptureIsNew(s, txn);
    CaptureBooks(s, txn, charge, txs);
    CapturesSnoc(s.captures, capture);
    SessionsAfter(s.sessions, s.captures, c.session, capture);
    ApartSnoc(s.captures, capture);
    hide CaptureInv, Charged, ChargesOf, BookedCharges, OtherRowHas, CaptureEvents, EventsInv, RunningInv, ReferenceUsed,
         SessionsInv, EventsApart, CapturesOf, Placings;
  }

  lemma CaptureKeepsCaptures(s: State, txn: string, c: Phase, charge: Tx, txs: seq<Tx>)
    requires Inv(s) && Ready(s, txn, c, charge, txs)
    ensures var s' := CommitCapture(s, txn, c, charge, txs);
            forall i :: 0 <= i < |s'.captures| ==> CaptureInv(s'.sessions, s'.txs, s'.receipts, s'.running, s'.captures[i])
  {
    var s' := CommitCapture(s, txn, c, charge, txs);
    CaptureIsNew(s, txn);
    CaptureBooks(s, txn, charge, txs);
    NewCapture(s, txn, c, charge, txs);
    assert forall i :: 0 <= i < |s.captures| ==> CaptureInv(s.sessions, s.txs, s.receipts, s.running, s.captures[i]);
    hide Inv, CaptureInv, Charged, ChargesOf, OtherRowHas, CaptureEvents, ReferenceUsed;
    forall i | 0 <= i < |s'.captures| ensures CaptureInv(s'.sessions, txs, s'.receipts, s'.running, s'.captures[i]) {
      if i < |s.captures| {
        OldCaptures(s, s', txn, c.session, s.captures[i]);
      }
    }
  }

  lemma CaptureKeepsInv(s: State, txn: string, c: Phase, charge: Tx, txs: seq<Tx>)
    requires Inv(s) && Ready(s, txn, c, charge, txs)
    ensures Inv(CommitCapture(s, txn, c, charge, txs))
  {
    CaptureKeepsCaptures(s, txn, c, charge, txs);
    CaptureKeepsJournals(s, txn, c, charge, txs);
    CaptureKeepsRunning(s, txn, c, charge, txs);
    CaptureKeepsEvents(s, txn, c, charge, txs);
    hide RunningInv, EventsInv, Ready, CaptureInv, EventsApart, SessionsInv, ChargesOf, BookedCharges, CommitCapture;
  }

  /** What a commit does, by case. */
  lemma CommitIs(s: State, txn: string, owner: Option<int>, ending: Ending)
    requires RunningInv(s)
    ensures var s' := Step(s, Commit(txn, owner, ending));
            if txn !in s.running || !s.running[txn].Chosen? then s' == s
            else
              var c := s.running[txn];
              && c.order in s.orders && c.session in s.sessions
              && var charge := ChargeOf(s, c, txn, owner);
                 var txs := Charged(s.txs, charge, txn);
                 if ending == RollsBack || txs.None? then s' == RecordFailure(s, txn)
                 else && Ready(s, txn, c, charge, txs.value)
                      && s' == (if ending == CommitsWithoutReply
                                then RecordFailure(CommitCapture(s, txn, c, charge, txs.value), txn)
                                else CommitCapture(s, txn, c, charge, txs.value))
  {
    hide CommitCapture, RecordFailure, Charged;
  }

  lemma CommitKeepsInv(s: State, txn: string, owner: Option<int>, ending: Ending)
    requires Inv(s)
    ensures Inv(Step(s, Commit(txn, owner, ending)))
  {
    FailureKeepsInv(s, txn);
    CommitIs(s, txn, owner, ending);
    hide Inv, CommitCapture, RecordFailure, Charged, Step, ChargeOf;
    if txn in s.running && s.running[txn].Chosen? {
      var c := s.running[txn];
      var charge := ChargeOf(s, c, txn, owner);
      var txs := Charged(s.txs, charge, txn);
      if ending != RollsBack && txs.Some? {
        CaptureKeepsInv(s, txn, c, charge, txs.value);
        FailureKeepsInv(CommitCapture(s, txn, c, charge, txs.value), txn);
      }
    }
  }

  lemma StepKeepsInv(s: State, e: Event)
    requires Inv(s)
    ensures Inv(Step(s, e))
  {
    hide Inv, AfterFindOrder, AfterChoose, AfterCommit, LatestActive;
    match e
    case PlaceOrder(id, row) => PlaceOrderKeepsInv(s, id, row);
    case Write(id, next) => WriteKeepsInv(s, id, next);
    case OtherRow(t) => if t.kind != CHARGE { OtherRowKeepsInv(s, t); }
    case FindOrder(txn) => FindOrderKeepsInv(s, txn);
    case Choose(txn) => ChooseKeepsInv(s, txn);
    case Commit(txn, owner, ending) => CommitKeepsInv(s, txn, owner, ending);
    case OpenSession(_, _) => OpenSessionKeepsInv(s, e);
    case _ => ReceiptKeepsInv(s, e);
  }

  lemma {:induction false} RunKeepsInv(s: State, es: seq<Event>)
    requires Inv(s)
    ensures Inv(Run(s, es))
    decreases |es|
  {
    if es != [] {
      RunKeepsInv(s, es[..|es| - 1]);
      StepKeepsInv(Run(s, es[..|es| - 1]), es[|es| - 1]);
    }
  }

  // ---------------------------------------------------------------------------
  // Over all runs
  // ---------------------------------------------------------------------------

  function CapturedSessions(sessions: map<SessionId, Session>): set<SessionId> {
    set id | id in sessions && sessions[id].status == CAPTURED
  }

  function SessionsOf(captures: seq<Capture>): seq<SessionId> {
    seq(|captures|, i requires 0 <= i < |captures| => captures[i].session)
  }

  predicate AllBooked(captures: seq<Capture>) {
    forall i :: 0 <= i < |captures| ==> captures[i].booked
  }

  /** Payout and refund rows carry no reference that a webhook used. */
  predicate ReferencesDisjoint(s: State) {
    forall i :: 0 <= i < |s.txs| && s.txs[i].kind != CHARGE && s.txs[i].providerReference.Some? ==>
      s.txs[i].providerReference.value !in s.receipts
  }

  lemma {:induction false} BookedChargesAre(captures: seq<Capture>)
    ensures |BookedCharges(captures)| <= |captures|
    ensures |BookedCharges(captures)| == |captures| <==> AllBooked(captures)
    ensures AllBooked(captures) ==> forall i :: 0 <= i < |captures| ==> BookedCharges(captures)[i] == captures[i].charge
  {
    if captures != [] {
      var n := |captures| - 1;
      BookedChargesAre(captures[..n]);
      assert forall i :: 0 <= i < n ==> captures[..n][i] == captures[i];
      assert AllBooked(captures) <==> AllBooked(captures[..n]) && captures[n].booked;
    }
  }

  lemma ApartMeansDistinct(captures: seq<Capture>)
    ensures Distinct(SessionsOf(captures)) <==> SessionsApart(captures)
  {
    var ids := SessionsOf(captures);
    assert forall i :: 0 <= i < |ids| ==> ids[i] == captures[i].session;
  }

  lemma CapturedSessionsAreCaptures(s: State)
    requires Inv(s)
    ensures |CapturedSessions(s.sessions)| <= |s.captures|
    ensures |CapturedSessions(s.sessions)| == |s.captures| <==> SessionsApart(s.captures)
  {
    var ids := SessionsOf(s.captures);
    forall id ensures id in CapturedSessions(s.sessions) <==> id in ids {
      if id in CapturedSessions(s.sessions) {
        assert IsCaptured(s.captures, id);
        var i :| 0 <= i < |s.captures| && s.captures[i].session == id;
        assert ids[i] == id;
      }
      if id in ids {
        var i :| 0 <= i < |ids| && ids[i] == id;
        assert CaptureInv(s.sessions, s.txs, s.receipts, s.running, s.captures[i]);
      }
    }
    assert CapturedSessions(s.sessions) == SetOf(ids);
    ElementsFit(ids);
    ApartMeansDistinct(s.captures);
    hide Inv, CapturedSessions, SessionsApart, Distinct;
  }

  /** Over every run with duplicates, crashes, rollbacks and overlapping transactions: no event is captured twice, each
      capture is a captured session's, with its order and amount, and every captured session has one; sessions and captures
      are equally many exactly when no session was captured twice; charges and captures exactly when every charge was
      booked, which fails only for an event whose reference a payout or refund row already carries. */
  lemma ChargesMatchCapturedSessions(es: seq<Event>)
    ensures var s := Run(EMPTY, es);
            && EventsApart(s.captures)
            && ChargesOf(s.txs) == BookedCharges(s.captures)
            && (forall i :: 0 <= i < |s.captures| ==> CaptureInv(s.sessions, s.txs, s.receipts, s.running, s.captures[i]))
            && SessionsInv(s.sessions, s.captures)
            && |CapturedSessions(s.sessions)| <= |s.captures|
            && (|CapturedSessions(s.sessions)| == |s.captures| <==> SessionsApart(s.captures))
            && (|ChargesOf(s.txs)| == |s.captures| <==> AllBooked(s.captures))
            && (ReferencesDisjoint(s) ==> AllBooked(s.captures))
            && (AllBooked(s.captures) ==> forall i :: 0 <= i < |s.captures| ==> ChargesOf(s.txs)[i] == s.captures[i].charge)
  {
    RunKeepsInv(EMPTY, es);
    var s := Run(EMPTY, es);
    CapturedSessionsAreCaptures(s);
    BookedChargesAre(s.captures);
    hide Run, EventsApart, SessionsApart, ChargesOf, BookedCharges, SessionsInv, RunningInv, EventsInv, CapturedSessions;
    if ReferencesDisjoint(s) {
      forall i | 0 <= i < |s.captures| ensures s.captures[i].booked {
        assert CaptureInv(s.sessions, s.txs, s.receipts, s.running, s.captures[i]);
      }
    }
  }

  // ---------------------------------------------------------------------------
  // When a session is captured twice
  // ---------------------------------------------------------------------------

  /** A commit captures a session that another one has captured since it was chosen. */
  ghost predicate Doubles(s: State, e: Event) {
    && e.Commit? && e.txn in s.running && s.running[e.txn].Chosen? && s.running[e.txn].session in s.sessions
    && s.sessions[s.running[e.txn].session].status == CAPTURED
    && Step(s, e).captures != s.captures
  }

  ghost predicate NoneDoubles(s: State, es: seq<Event>)
    decreases |es|
  {
    es != [] ==>
      var n := |es| - 1;
      NoneDoubles(s, es[..n]) && !Doubles(Run(s, es[..n]), es[n])
  }

  /** Captures grow by commits alone. */
  lemma OnlyCommitsCapture(s: State, e: Event)
    requires !e.Commit?
    ensures Step(s, e).captures == s.captures
  {
    hide LatestActive;
  }

  lemma CommitCaptures(s: State, txn: string, owner: Option<int>, ending: Ending)
    requires RunningInv(s)
    ensures var s' := Step(s, Commit(txn, owner, ending));
            s'.captures == s.captures
            || (&& txn in s.running && s.running[txn].Chosen? && s.running[txn].session in s.sessions
                && |s'.captures| == |s.captures| + 1 && s'.captures[..|s.captures|] == s.captures
                && s'.captures[|s.captures|].session == s.running[txn].session
                && s'.captures[|s.captures|].places == s.running[txn].unpaid
                && s'.captures[|s.captures|].charge.order == Some(s.running[txn].order))
  {
    CommitIs(s, txn, owner, ending);
    hide Step, RunningInv, Charged, ReferenceUsed, CaptureEvents;
  }

  lemma SessionsApartSnoc(captures: seq<Capture>, captures': seq<Capture>)
    requires |captures'| == |captures| + 1 && captures'[..|captures|] == captures
    ensures SessionsApart(captures') <==> SessionsApart(captures) && !IsCaptured(captures, captures'[|captures|].session)
  {
    var n := |captures|;
    assert forall i :: 0 <= i < n ==> captures'[i] == captures[i];
  }

  lemma CapturedIffNoted(s: State, session: SessionId)
    requires Inv(s) && session in s.sessions
    ensures s.sessions[session].status == CAPTURED <==> IsCaptured(s.captures, session)
  {
    if IsCaptured(s.captures, session) {
      var i :| 0 <= i < |s.captures| && s.captures[i].session == session;
      assert CaptureInv(s.sessions, s.txs, s.receipts, s.running, s.captures[i]);
    }
  }

  lemma StepDoubles(s: State, e: Event)
    requires Inv(s)
    ensures SessionsApart(Step(s, e).captures) <==> SessionsApart(s.captures) && !Doubles(s, e)
  {
    if e.Commit? {
      CommitCaptures(s, e.txn, e.owner, e.ending);
      if Step(s, e).captures != s.captures {
        CapturedIffNoted(s, s.running[e.txn].session);
        SessionsApartSnoc(s.captures, Step(s, e).captures);
      }
    } else {
      OnlyCommitsCapture(s, e);
    }
    hide Inv, Step, SessionsApart, IsCaptured;
  }

  /** In every run no session is captured twice if and only if no commit found the session it had chosen captured already. */
  lemma {:induction false} SessionsCapturedOnceIffNoneDoubles(es: seq<Event>)
    ensures SessionsApart(Run(EMPTY, es).captures) <==> NoneDoubles(EMPTY, es)
    decreases |es|
  {
    if es != [] {
      SessionsCapturedOnceIffNoneDoubles(es[..|es| - 1]);
      RunKeepsInv(EMPTY, es[..|es| - 1]);
      StepDoubles(Run(EMPTY, es[..|es| - 1]), es[|es| - 1]);
      hide Inv, Step, SessionsApart, Doubles;
    }
  }

  /** Two transactions under way have chosen one session. */
  ghost predicate Shared(s: State) {
    exists t, u :: t in s.running && u in s.running && t != u && s.running[t].Chosen? && s.running[u].Chosen?
                   && s.running[t].session == s.running[u].session
  }

  ghost predicate NeverShared(s: State, es: seq<Event>)
    decreases |es|
  {
    !Shared(Run(s, es)) && (es != [] ==> NeverShared(s, es[..|es| - 1]))
  }

  /** What running events have chosen is not captured. */
  ghost predicate ChosenAreOpen(s: State) {
    forall t :: t in s.running && s.running[t].Chosen? && s.running[t].session in s.sessions ==>
      s.sessions[s.running[t].session].status != CAPTURED
  }

  lemma OpenSurvivesCommit(s: State, txn: string, owner: Option<int>, ending: Ending)
    requires RunningInv(s) && ChosenAreOpen(s) && !Shared(s)
    ensures ChosenAreOpen(Step(s, Commit(txn, owner, ending)))
  {
    CommitIs(s, txn, owner, ending);
    hide Step, Charged, ReferenceUsed, CaptureEvents;
  }

  lemma OpenSurvives(s: State, e: Event)
    requires RunningInv(s) && ChosenAreOpen(s) && !e.Commit?
    ensures ChosenAreOpen(Step(s, e))
  {
    if e.Choose? && e.txn in s.running {
      var session := LatestActive(s.sessions, s.running[e.txn].order);
      assert session.Some? ==> s.sessions[session.value].status != CAPTURED;
    }
    hide LatestActive, IsLatestActive;
  }

  /** In every run in which no two transactions under way have chosen the same session, no session is captured twice. */
  lemma {:induction false} UnsharedSessionsAreCapturedOnce(es: seq<Event>)
    requires NeverShared(EMPTY, es)
    ensures SessionsApart(Run(EMPTY, es).captures) && ChosenAreOpen(Run(EMPTY, es))
    decreases |es|
  {
    if es != [] {
      var s, e := Run(EMPTY, es[..|es| - 1]), es[|es| - 1];
      assert NeverShared(EMPTY, es[..|es| - 1]);
      UnsharedSessionsAreCapturedOnce(es[..|es| - 1]);
      RunKeepsInv(EMPTY, es[..|es| - 1]);
      StepDoubles(s, e);
      assert !Shared(s);
      hide SessionsApart, Step, CapturesInv, EventsInv, Shared;
      if e.Commit? {
        assert !Doubles(s, e);
        hide RunningInv, ChosenAreOpen;
        OpenSurvivesCommit(s, e.txn, e.owner, e.ending);
      } else {
        hide RunningInv, ChosenAreOpen;
        OpenSurvives(s, e);
      }
    }
  }

  lemma HiddenMeansUsed(txs: seq<Tx>, txn: string)
    ensures OtherRowHas(txs, Some(txn)) ==> ReferenceUsed(txs, txn)
  {
  }

  lemma ChargesSnoc(txs: seq<Tx>, charge: Tx)
    requires charge.kind == CHARGE
    ensures ChargesOf(txs + [charge]) == ChargesOf(txs) + [charge]
  {
    assert (txs + [charge])[..|txs|] == txs;
  }

  lemma CommitBooks(s: State, txn: string, owner: Option<int>)
    requires Inv(s) && txn in s.running && s.running[txn].Chosen?
    ensures var s' := Step(s, Commit(txn, owner, Commits));
            var c := s.running[txn];
            var hidden := OtherRowHas(s.txs, Some(txn));
            && c.order in s.orders && c.session in s.sessions
            && (s'.captures != s.captures <==>
                  hidden || (!KeyTaken(s.txs, Kashier(txn)) && FitsInt(s.sessions[c.session].amount)))
            && (s'.captures != s.captures ==>
                  && s'.captures == s.captures + [Capture(c.session, ChargeOf(s, c, txn, owner), !hidden, c.unpaid)]
                  && ChargesOf(s'.txs) == ChargesOf(s.txs) + (if hidden then [] else [ChargeOf(s, c, txn, owner)]))
  {
    HiddenMeansUsed(s.txs, txn);
    if ReferenceUsed(s.txs, txn) {
      UsedByAnother(s, txn);
    }
    CommitIs(s, txn, owner, Commits);
    var charge := ChargeOf(s, s.running[txn], txn, owner);
    ChargesSnoc(s.txs, charge);
    assert ChargesOf(s.txs) + [] == ChargesOf(s.txs);
    hide Inv, ReferenceUsed, OtherRowHas, ChargesOf, KeyTaken, FitsInt, Step, CaptureEvents;
  }

  /** In every reachable state the transaction of an event that has chosen its session commits exactly when its charge can be
      booked or needs not be; and then the charge is booked if and only if no payout or refund row already carries its
      reference. */
  lemma BookedIffReferenceFree(es: seq<Event>, txn: string, owner: Option<int>)
    requires txn in Run(EMPTY, es).running && Run(EMPTY, es).running[txn].Chosen?
    ensures var s := Run(EMPTY, es);
            var s' := Step(s, Commit(txn, owner, Commits));
            var c := s.running[txn];
            var hidden := OtherRowHas(s.txs, Some(txn));
            && c.order in s.orders && c.session in s.sessions
            && (s'.captures != s.captures <==>
                  hidden || (!KeyTaken(s.txs, Kashier(txn)) && FitsInt(s.sessions[c.session].amount)))
            && (s'.captures != s.captures ==>
                  && s'.captures == s.captures + [Capture(c.session, ChargeOf(s, c, txn, owner), !hidden, c.unpaid)]
                  && ChargesOf(s'.txs) == ChargesOf(s.txs) + (if hidden then [] else [ChargeOf(s, c, txn, owner)]))
  {
    RunKeepsInv(EMPTY, es);
    hide Run;
    CommitBooks(Run(EMPTY, es), txn, owner);
  }

  ghost predicate IsProcessed(captures: seq<Capture>, txn: string) {
    exists i :: 0 <= i < |captures| && captures[i].charge.providerReference == Some(txn)
  }

  lemma FailedEventStays(s: State, e: Event, txn: string)
    requires txn in s.receipts && txn !in s.running
    ensures var s' := Step(s, e);
            && txn in s'.receipts && txn !in s'.running
            && (IsProcessed(s'.captures, txn) <==> IsProcessed(s.captures, txn))
  {
    hide LatestActive, IsLatestActive, Charged, ReferenceUsed, CaptureEvents;
    var s' := Step(s, e);
    if s'.captures != s.captures {
      var n := |s.captures|;
      assert s'.captures[n].charge.providerReference != Some(txn);
      assert forall i :: 0 <= i < n ==> s'.captures[i] == s.captures[i];
    }
  }

  /** An event whose processing crashed or failed after its row was committed is lost: a later delivery is taken for a
      duplicate, so no run ever captures it, unless it was captured before and only the reply of its commit was lost. */
  lemma {:induction false} FailedEventsAreNeverCaptured(s: State, more: seq<Event>, txn: string)
    requires txn in s.receipts && txn !in s.running
    ensures var s' := Run(s, more);
            && txn in s'.receipts && txn !in s'.running
            && (IsProcessed(s'.captures, txn) <==> IsProcessed(s.captures, txn))
    decreases |more|
  {
    if more != [] {
      FailedEventsAreNeverCaptured(s, more[..|more| - 1], txn);
      FailedEventStays(Run(s, more[..|more| - 1]), more[|more| - 1], txn);
      hide Step, IsProcessed;
    }
  }

  // ---------------------------------------------------------------------------
  // Who pays whom
  // ---------------------------------------------------------------------------

  /** The charge of a capture, on the rows it belongs to: the customer of the session's order pays the session's amount, which
      is the order's total, in its currency, to the branch's owner, or to the restaurant when no owner is given. */
  ghost predicate PaidTo(s: State, c: Capture, owner: Option<int>) {
    && c.session in s.sessions && s.sessions[c.session].order in s.orders && c.charge.providerReference.Some?
    && var (session, order) := (s.sessions[c.session], s.orders[s.sessions[c.session].order]);
       (&& session.amount == order.total && session.currency == order.currency
        && c.charge == Tx(Some(session.order), CHARGE, SUCCEEDED, session.amount, session.currency,
                          Some(order.customer), Some(if owner.Some? then owner.value else order.restaurant),
                          c.charge.providerReference, Kashier(c.charge.providerReference.value)))
  }

  /** Sessions are for the total of an order. */
  ghost predicate SessionsFitOrders(s: State) {
    forall id :: id in s.sessions ==>
      && s.sessions[id].order in s.orders
      && s.sessions[id].amount == s.orders[s.sessions[id].order].total
      && s.sessions[id].currency == s.orders[s.sessions[id].order].currency
  }

  /** Orders and sessions stay what they are, but for their status. */
  ghost predicate OnlyStatusesChange(s: State, s': State) {
    && (forall id :: id in s.orders ==> id in s'.orders && s'.orders[id].(status := s.orders[id].status) == s.orders[id])
    && (forall id :: id in s.sessions ==> id in s'.sessions && s'.sessions[id].(status := s.sessions[id].status) == s.sessions[id])
  }

  lemma CommitChangesStatuses(s: State, txn: string, owner: Option<int>, ending: Ending)
    requires RunningInv(s)
    ensures var s' := Step(s, Commit(txn, owner, ending));
            OnlyStatusesChange(s, s') && (SessionsFitOrders(s) ==> SessionsFitOrders(s'))
  {
    CommitIs(s, txn, owner, ending);
    hide Step, RunningInv, Charged, ReferenceUsed, CaptureEvents;
  }

  lemma SameRowsFit(s: State, s': State)
    ensures s'.orders == s.orders && s'.sessions == s.sessions ==>
              OnlyStatusesChange(s, s') && (SessionsFitOrders(s) ==> SessionsFitOrders(s'))
  {
  }

  lemma OthersChangeStatuses(s: State, e: Event)
    requires !e.Commit? && !e.PlaceOrder? && !e.OpenSession? && !e.Write?
    ensures Step(s, e).orders == s.orders && Step(s, e).sessions == s.sessions
  {
    hide AfterCommit, LatestActive, CreateTransaction;
  }

  lemma RowsChangeStatuses(s: State, e: Event)
    requires e.PlaceOrder? || e.OpenSession? || e.Write?
    ensures OnlyStatusesChange(s, Step(s, e)) && (SessionsFitOrders(s) ==> SessionsFitOrders(Step(s, e)))
  {
    hide AfterCommit, AfterFindOrder, AfterChoose, LatestActive;
  }

  lemma StepChangesStatuses(s: State, e: Event)
    requires RunningInv(s)
    ensures OnlyStatusesChange(s, Step(s, e)) && (SessionsFitOrders(s) ==> SessionsFitOrders(Step(s, e)))
  {
    hide Step, SessionsFitOrders, OnlyStatusesChange, RunningInv;
    if e.Commit? {
      CommitChangesStatuses(s, e.txn, e.owner, e.ending);
    } else if e.PlaceOrder? || e.OpenSession? || e.Write? {
      RowsChangeStatuses(s, e);
    } else {
      OthersChangeStatuses(s, e);
      SameRowsFit(s, Step(s, e));
    }
  }

  lemma PaidStays(s: State, s': State, c: Capture, owner: Option<int>)
    requires PaidTo(s, c, owner) && OnlyStatusesChange(s, s')
    ensures PaidTo(s', c, owner)
  {
  }

  /** A commit that captures appends one capture, of its own event, paid to the owner given to it. */
  lemma CommitPays(s: State, txn: string, owner: Option<int>, ending: Ending)
    requires RunningInv(s) && SessionsFitOrders(s)
    ensures var s' := Step(s, Commit(txn, owner, ending));
            s'.captures == s.captures
            || (&& |s'.captures| == |s.captures| + 1 && s'.captures[..|s.captures|] == s.captures
                && s'.captures[|s.captures|].charge.providerReference == Some(txn)
                && PaidTo(s', s'.captures[|s.captures|], owner))
  {
    CommitIs(s, txn, owner, ending);
    hide Step, Charged, ReferenceUsed, CaptureEvents;
  }

  /** Some commit of the run is of the capture's event, and it is paid to the owner that commit was given. */
  ghost predicate PaidInRun(s: State, es: seq<Event>, c: Capture) {
    exists j :: 0 <= j < |es| && es[j].Commit? && c.charge.providerReference == Some(es[j].txn) && PaidTo(s, c, es[j].owner)
  }

  lemma PaidInLongerRun(s: State, s': State, es: seq<Event>, e: Event, c: Capture)
    requires PaidInRun(s, es, c) && OnlyStatusesChange(s, s')
    ensures PaidInRun(s', es + [e], c)
  {
    var j :| 0 <= j < |es| && es[j].Commit? && c.charge.providerReference == Some(es[j].txn) && PaidTo(s, c, es[j].owner);
    PaidStays(s, s', c, es[j].owner);
    assert (es + [e])[j] == es[j];
    hide PaidTo, OnlyStatusesChange;
  }

  lemma PaidLast(s: State, es: seq<Event>, e: Event, c: Capture)
    requires e.Commit? && c.charge.providerReference == Some(e.txn) && PaidTo(s, c, e.owner)
    ensures PaidInRun(s, es + [e], c)
  {
    assert (es + [e])[|es|] == e;
    hide PaidTo;
  }

  ghost predicate AllPaid(s: State, es: seq<Event>) {
    forall i :: 0 <= i < |s.captures| ==> PaidInRun(s, es, s.captures[i])
  }

  lemma StepPays(s: State, es: seq<Event>, e: Event)
    requires RunningInv(s) && SessionsFitOrders(s) && AllPaid(s, es)
    ensures SessionsFitOrders(Step(s, e)) && AllPaid(Step(s, e), es + [e])
  {
    var s' := Step(s, e);
    StepChangesStatuses(s, e);
    if e.Commit? {
      CommitPays(s, e.txn, e.owner, e.ending);
    } else {
      OnlyCommitsCapture(s, e);
    }
    hide Step, RunningInv, PaidTo, OnlyStatusesChange, SessionsFitOrders, PaidInRun;
    forall i | 0 <= i < |s'.captures| ensures PaidInRun(s', es + [e], s'.captures[i]) {
      if i < |s.captures| {
        assert s'.captures[i] == s.captures[i];
        PaidInLongerRun(s, s', es, e, s.captures[i]);
      } else {
        PaidLast(s', es, e, s'.captures[i]);
      }
    }
  }

  lemma {:induction false} RunPays(es: seq<Event>)
    ensures SessionsFitOrders(Run(EMPTY, es)) && AllPaid(Run(EMPTY, es), es)
    decreases |es|
  {
    if es != [] {
      var n := |es| - 1;
      RunPays(es[..n]);
      RunKeepsInv(EMPTY, es[..n]);
      assert es == es[..n] + [es[n]];
      hide Step, RunningInv, SessionsFitOrders, AllPaid;
      StepPays(Run(EMPTY, es[..n]), es[..n], es[n]);
    }
  }

  /** In every run every charge of the ledger is that of a capture, by which the order's customer pays the order's total in its
      currency to the owner its commit was given, or to the restaurant when none was. */
  lemma ChargesGoFromCustomerToPayee(es: seq<Event>, t: Tx)
    ensures var s := Run(EMPTY, es);
            && AllPaid(s, es)
            && (t in s.txs && t.kind == CHARGE ==>
                  exists i :: 0 <= i < |s.captures| && s.captures[i].booked && s.captures[i].charge == t)
  {
    RunPays(es);
    RunKeepsInv(EMPTY, es);
    var s := Run(EMPTY, es);
    ChargesOfMembers(s.txs, t);
    BookedChargesMembers(s.captures, t);
    hide Run, AllPaid, ChargesOf, BookedCharges;
  }

  // ---------------------------------------------------------------------------
  // When an order is placed
  // ---------------------------------------------------------------------------

  /** In every run payment.completed is emitted once for each capture of an order, and order.placed once for each capture by
      a transaction that had found it unpaid, and once at the start if it is paid in cash. */
  lemma OneEventPerCapture(es: seq<Event>, id: OrderId)
    ensures var s := Run(EMPTY, es);
            && multiset(s.outbox)[(id, PAYMENT_COMPLETED)] == CapturesOf(s.captures, id)
            && multiset(s.outbox)[(id, ORDER_PLACED)] == PlacedAtOnce(s.orders, id) + Placings(s.captures, id)
  {
    RunKeepsInv(EMPTY, es);
    hide Run, CapturesInv, RunningInv;
  }

  lemma OnlyUnpaidIsPlaced(status: Status)
    ensures Transition(status, PLACED).Some? <==> status == PENDING_PAYMENT
  {
  }

  /** In every state: a capture whose transaction found the order unpaid sets it to PLACED, along an edge of the table if and
      only if the order is still unpaid by then; any other leaves the status. */
  lemma PlacesAlongTheTableIffStillUnpaid(es: seq<Event>, txn: string, owner: Option<int>, ending: Ending)
    requires var s := Run(EMPTY, es); Step(s, Commit(txn, owner, ending)).captures != s.captures
    ensures var s := Run(EMPTY, es);
            var s' := Step(s, Commit(txn, owner, ending));
            && txn in s.running && s.running[txn].Chosen? && s.running[txn].order in s.orders
            && var id := s.running[txn].order;
               (&& id in s'.orders
                && (if s.running[txn].unpaid
                    then s'.orders[id].status == PLACED
                         && (Transition(s.orders[id].status, s'.orders[id].status).Some? <==> s.orders[id].status == PENDING_PAYMENT)
                    else s'.orders[id] == s.orders[id]))
  {
    var s := Run(EMPTY, es);
    RunKeepsInv(EMPTY, es);
    CommitIs(s, txn, owner, ending);
    if txn in s.running && s.running[txn].Chosen? {
      OnlyUnpaidIsPlaced(s.orders[s.running[txn].order].status);
    }
    hide Run, Inv, Step, Transition, Charged, ReferenceUsed;
  }

  /** A transaction under way has found the order unpaid. */
  predicate HasFoundUnpaid(s: State, txn: string, id: OrderId) {
    txn in s.running && !s.running[txn].Received? && s.running[txn].order == id && s.running[txn].unpaid
  }

  /** Two transactions under way have. */
  ghost predicate BothFoundUnpaid(s: State, id: OrderId) {
    exists t, u :: t != u && HasFoundUnpaid(s, t, id) && HasFoundUnpaid(s, u, id)
  }

  ghost predicate NeverBothFoundUnpaid(s: State, es: seq<Event>, id: OrderId)
    decreases |es|
  {
    !BothFoundUnpaid(Run(s, es), id) && (es != [] ==> NeverBothFoundUnpaid(s, es[..|es| - 1], id))
  }

  function TimesPlaced(s: State, id: OrderId): nat {
    PlacedAtOnce(s.orders, id) + Placings(s.captures, id)
  }

  /** An order that is unpaid, or that some transaction under way has found so, has not been placed. */
  ghost predicate PlacedOnceInv(s: State, id: OrderId) {
    && TimesPlaced(s, id) <= 1
    && (id !in s.orders || s.orders[id].status == PENDING_PAYMENT ==> TimesPlaced(s, id) == 0)
    && (forall t :: HasFoundUnpaid(s, t, id) ==> TimesPlaced(s, id) == 0 && id in s.orders)
  }

  lemma QuietKeepsPlacedOnce(s: State, e: Event, id: OrderId)
    requires PlacedOnceInv(s, id) && !e.Commit? && !e.PlaceOrder? && !e.FindOrder?
    ensures PlacedOnceInv(Step(s, e), id)
  {
    hide LatestActive, Placings;
    var s' := Step(s, e);
    assert forall t :: HasFoundUnpaid(s', t, id) ==> HasFoundUnpaid(s, t, id);
  }

  lemma FindKeepsPlacedOnce(s: State, e: Event, id: OrderId)
    requires PlacedOnceInv(s, id) && (e.PlaceOrder? || e.FindOrder?)
    ensures PlacedOnceInv(Step(s, e), id)
  {
    hide Placings;
    var s' := Step(s, e);
    assert e.PlaceOrder? ==> forall t :: HasFoundUnpaid(s', t, id) <==> HasFoundUnpaid(s, t, id);
    assert e.FindOrder? ==> forall t :: t != e.txn && HasFoundUnpaid(s', t, id) ==> HasFoundUnpaid(s, t, id);
  }

  lemma FailureKeepsPlacedOnce(s: State, txn: string, id: OrderId)
    requires PlacedOnceInv(s, id)
    ensures PlacedOnceInv(RecordFailure(s, txn), id)
  {
    hide Placings;
    assert forall t :: HasFoundUnpaid(RecordFailure(s, txn), t, id) ==> HasFoundUnpaid(s, t, id);
  }

  lemma CaptureKeepsPlacedOnce(s: State, txn: string, c: Phase, charge: Tx, txs: seq<Tx>, id: OrderId)
    requires Ready(s, txn, c, charge, txs) && PlacedOnceInv(s, id) && !BothFoundUnpaid(s, id)
    ensures PlacedOnceInv(CommitCapture(s, txn, c, charge, txs), id)
  {
    hide Charged, ReferenceUsed, CaptureEvents, Placings, CapturesOf, BookedCharges;
    var s' := CommitCapture(s, txn, c, charge, txs);
    CapturesSnoc(s.captures, Capture(c.session, charge, !ReferenceUsed(s.txs, txn), c.unpaid));
    assert c.unpaid && c.order == id ==> HasFoundUnpaid(s, txn, id);
    forall t | HasFoundUnpaid(s', t, id) ensures TimesPlaced(s', id) == 0 && id in s'.orders {
      assert t != txn && HasFoundUnpaid(s, t, id);
    }
  }

  lemma CommitKeepsPlacedOnce(s: State, txn: string, owner: Option<int>, ending: Ending, id: OrderId)
    requires RunningInv(s) && PlacedOnceInv(s, id) && !BothFoundUnpaid(s, id)
    ensures PlacedOnceInv(Step(s, Commit(txn, owner, ending)), id)
  {
    CommitIs(s, txn, owner, ending);
    FailureKeepsPlacedOnce(s, txn, id);
    hide Step, RunningInv, Charged, PlacedOnceInv, BothFoundUnpaid, CommitCapture, RecordFailure, Ready, ChargeOf;
    if txn in s.running && s.running[txn].Chosen? {
      var c := s.running[txn];
      var charge := ChargeOf(s, c, txn, owner);
      var txs := Charged(s.txs, charge, txn);
      if ending != RollsBack && txs.Some? {
        CaptureKeepsPlacedOnce(s, txn, c, charge, txs.value, id);
        FailureKeepsPlacedOnce(CommitCapture(s, txn, c, charge, txs.value), txn, id);
      }
    }
  }

  lemma {:induction false} PlacedOnce(es: seq<Event>, id: OrderId)
    requires NeverBothFoundUnpaid(EMPTY, es, id)
    ensures PlacedOnceInv(Run(EMPTY, es), id)
    decreases |es|
  {
    if es != [] {
      var s, e := Run(EMPTY, es[..|es| - 1]), es[|es| - 1];
      PlacedOnce(es[..|es| - 1], id);
      RunKeepsInv(EMPTY, es[..|es| - 1]);
      hide Step, PlacedOnceInv, BothFoundUnpaid, CapturesInv, RunningInv, EventsInv;
      if e.Commit? {
        CommitKeepsPlacedOnce(s, e.txn, e.owner, e.ending, id);
      } else if e.PlaceOrder? || e.FindOrder? {
        FindKeepsPlacedOnce(s, e, id);
      } else {
        QuietKeepsPlacedOnce(s, e, id);
      }
    }
  }

  /** In every run in which no two transactions under way have found the order unpaid, order.placed is emitted at most once
      for it, and never while it waits for payment. */
  lemma PlacedAtMostOnce(es: seq<Event>, id: OrderId)
    requires NeverBothFoundUnpaid(EMPTY, es, id)
    ensures var s := Run(EMPTY, es);
            && multiset(s.outbox)[(id, ORDER_PLACED)] <= 1
            && (id !in s.orders || s.orders[id].status == PENDING_PAYMENT ==> multiset(s.outbox)[(id, ORDER_PLACED)] == 0)
  {
    OneEventPerCapture(es, id);
    PlacedOnce(es, id);
    hide Run, NeverBothFoundUnpaid, Placings, PlacedAtOnce;
  }

  // ---------------------------------------------------------------------------
  // Runs that go wrong
  // ---------------------------------------------------------------------------

  lemma OneActiveIsLatest(sessions: map<SessionId, Session>, order: OrderId, id: SessionId)
    requires IsLatestActive(sessions, order, id)
    ensures LatestActive(sessions, order) == Some(id)
  {
  }

  lemma RunSnoc(s: State, es: seq<Event>, e: Event)
    ensures Run(s, es + [e]) == Step(Run(s, es), e)
  {
    assert (es + [e])[..|es|] == es;
  }

  lemma RunOne(s: State, e: Event)
    ensures Run(s, [e]) == Step(s, e)
  {
    assert [e] == [] + [e] && Run(s, []) == s;
    RunSnoc(s, [], e);
  }

  lemma {:induction false} RunConcat(s: State, a: seq<Event>, b: seq<Event>)
    ensures Run(s, a + b) == Run(Run(s, a), b)
    decreases |b|
  {
    if b == [] {
      assert a + b == a;
    } else {
      assert (a + b)[..|a + b| - 1] == a + b[..|b| - 1];
      RunConcat(s, a, b[..|b| - 1]);
    }
  }

  lemma RunThree(s: State, e1: Event, e2: Event, e3: Event)
    ensures Run(s, [e1, e2, e3]) == Step(Step(Step(s, e1), e2), e3)
  {
    RunOne(s, e1);
    RunSnoc(s, [e1], e2);
    RunSnoc(s, [e1] + [e2], e3);
    assert [e1] + [e2] + [e3] == [e1, e2, e3];
    hide Run, Step;
  }

  /** Order 1 is placed and its session 1 open. */
  lemma SessionOpens(o: OrderRow)
    requires !o.cash && o.status == PENDING_PAYMENT
    ensures Run(EMPTY, [PlaceOrder(1, o)] + [OpenSession(1, 1)])
            == EMPTY.(orders := map[1 := o], sessions := map[1 := Session(1, o.total, o.currency, INITIALIZED)])
  {
    RunOne(EMPTY, PlaceOrder(1, o));
    RunSnoc(EMPTY, [PlaceOrder(1, o)], OpenSession(1, 1));
    hide Run;
    var s1 := EMPTY.(orders := map[1 := o]);
    assert EMPTY.outbox + [] == EMPTY.outbox;
    assert Step(EMPTY, PlaceOrder(1, o)) == s1;
  }

  /** An event of order 1 is received and chooses session 1 while that is active. */
  lemma Chooses(s: State, txn: string, o: OrderRow)
    requires s.orders == map[1 := o] && o.status == PENDING_PAYMENT && txn !in s.receipts
    requires s.sessions == map[1 := Session(1, o.total, o.currency, INITIALIZED)]
    ensures Run(s, [Receive(txn, 1), FindOrder(txn), Choose(txn)])
            == s.(receipts := s.receipts[txn := Receipt(false, false)], running := s.running[txn := Chosen(1, true, 1)])
  {
    var s1 := s.(receipts := s.receipts[txn := Receipt(false, false)], running := s.running[txn := Received(1)]);
    var s2 := s1.(running := s1.running[txn := Found(1, true)]);
    OneActiveIsLatest(s.sessions, 1, 1);
    RunThree(s, Receive(txn, 1), FindOrder(txn), Choose(txn));
    hide Run, LatestActive;
    assert Step(s, Receive(txn, 1)) == s1;
    assert Step(s1, FindOrder(txn)) == s2;
    assert s2.running[txn := Chosen(1, true, 1)] == s.running[txn := Chosen(1, true, 1)];
  }

  lemma ReusedReference(s: State, row: Tx, txn: string)
    requires s.txs == [row] && row.providerReference == Some(txn) && 1 in s.orders && s.sessions.Keys == {1}
    requires txn in s.running && s.running[txn] == Chosen(1, true, 1)
    ensures var s' := Step(s, Commit(txn, None, Commits)); s'.txs == [row] && CapturedSessions(s'.sessions) == {1}
  {
    assert s.txs[0] == row;
  }

  /** A payout row with reference `txn` makes the capture of event `txn` leave no charge at all. */
  lemma ReusedReferenceHidesTheCharge(o: OrderRow, payout: Tx, txn: string)
    requires payout.kind == PAYOUT && payout.providerReference == Some(txn) && FitsInt(payout.amount)
    requires !o.cash && o.status == PENDING_PAYMENT
    ensures var es := [PlaceOrder(1, o)] + [OpenSession(1, 1)] + [OtherRow(payout)]
                      + [Receive(txn, 1), FindOrder(txn), Choose(txn)] + [Commit(txn, None, Commits)];
            var s := Run(EMPTY, es);
            CapturedSessions(s.sessions) == {1} && ChargesOf(s.txs) == []
  {
    var open := [PlaceOrder(1, o)] + [OpenSession(1, 1)];
    var choose := [Receive(txn, 1), FindOrder(txn), Choose(txn)];
    SessionOpens(o);
    RunSnoc(EMPTY, open, OtherRow(payout));
    RunConcat(EMPTY, open + [OtherRow(payout)], choose);
    RunSnoc(EMPTY, open + [OtherRow(payout)] + choose, Commit(txn, None, Commits));
    var s := Run(EMPTY, open);
    assert s.txs + [payout] == [payout];
    assert Step(s, OtherRow(payout)) == s.(txs := [payout]);
    assert [payout][..0] == [] && ChargesOf([]) == [] && ChargesOf([payout]) == [];
    hide Run, Step, ChargesOf;
    Chooses(s.(txs := [payout]), txn, o);
    ReusedReference(Run(EMPTY, open + [OtherRow(payout)] + choose), payout, txn);
  }

  lemma CommitsOnce(s: State, txn: string, txs: seq<Tx>)
    requires 1 in s.orders && 1 in s.sessions && FitsInt(s.sessions[1].amount) && s.txs == txs
    requires txn in s.running && s.running[txn] == Chosen(1, true, 1)
    requires !ReferenceUsed(txs, txn) && !KeyTaken(txs, Kashier(txn))
    ensures var s' := Step(s, Commit(txn, None, Commits));
            var charge := ChargeOf(s, Chosen(1, true, 1), txn, None);
            && s'.txs == txs + [charge] && charge.kind == CHARGE
            && charge.providerReference == Some(txn) && charge.key == Kashier(txn)
            && s'.running == s.running - {txn} && 1 in s'.orders
            && s'.sessions == s.sessions[1 := s.sessions[1].(status := CAPTURED)]
            && s'.outbox == s.outbox + [(1, PAYMENT_COMPLETED), (1, ORDER_PLACED)]
  {
    assert [(1, PAYMENT_COMPLETED)] + [(1, ORDER_PLACED)] == [(1, PAYMENT_COMPLETED), (1, ORDER_PLACED)];
    hide ReferenceUsed, KeyTaken;
  }

  lemma NotUsedByOther(charge: Tx, a: string, b: string)
    requires a != b && charge.providerReference == Some(a) && charge.key == Kashier(a)
    ensures !ReferenceUsed([charge], b) && !KeyTaken([charge], Kashier(b))
  {
  }

  lemma TwoCharges(first: Tx, second: Tx)
    requires first.kind == CHARGE && second.kind == CHARGE
    ensures |ChargesOf([first] + [second])| == 2
  {
    ChargesSnoc([], first);
    ChargesSnoc([first], second);
    assert [] + [first] == [first];
  }

  lemma NothingUsed(a: string)
    ensures !ReferenceUsed([], a) && !KeyTaken([], Kashier(a))
  {
  }

  lemma BothCommit(s: State, a: string, b: string)
    requires a != b && s.txs == [] && s.outbox == [] && 1 in s.orders
    requires s.sessions.Keys == {1} && FitsInt(s.sessions[1].amount)
    requires s.running == map[a := Chosen(1, true, 1), b := Chosen(1, true, 1)]
    ensures var s' := Step(Step(s, Commit(a, None, Commits)), Commit(b, None, Commits));
            && CapturedSessions(s'.sessions) == {1} && |ChargesOf(s'.txs)| == 2
            && s'.outbox == [(1, PAYMENT_COMPLETED), (1, ORDER_PLACED)] + [(1, PAYMENT_COMPLETED), (1, ORDER_PLACED)]
  {
    hide Step, ChargeOf, ReferenceUsed, KeyTaken, ChargesOf;
    assert !ReferenceUsed([], a) && !KeyTaken([], Kashier(a)) by {
      NothingUsed(a);
    }
    CommitsOnce(s, a, []);
    var s1 := Step(s, Commit(a, None, Commits));
    var first := ChargeOf(s, Chosen(1, true, 1), a, None);
    assert s1.txs == [first];
    NotUsedByOther(first, a, b);
    CommitsOnce(s1, b, [first]);
    TwoCharges(first, ChargeOf(s1, Chosen(1, true, 1), b, None));
  }

  /** Two events of one order whose transactions overlap capture one session twice: two charges, two payment.completed and
      two order.placed for a single session. */
  lemma TwoEventsCaptureOneSession(o: OrderRow, a: string, b: string)
    requires !o.cash && o.status == PENDING_PAYMENT && a != b && FitsInt(o.total)
    ensures var es := [PlaceOrder(1, o)] + [OpenSession(1, 1)] + [Receive(a, 1), FindOrder(a), Choose(a)]
                      + [Receive(b, 1), FindOrder(b), Choose(b)] + [Commit(a, None, Commits)] + [Commit(b, None, Commits)];
            var s := Run(EMPTY, es);
            && CapturedSessions(s.sessions) == {1} && |ChargesOf(s.txs)| == 2
            && s.outbox == [(1, PAYMENT_COMPLETED), (1, ORDER_PLACED)] + [(1, PAYMENT_COMPLETED), (1, ORDER_PLACED)]
  {
    var open := [PlaceOrder(1, o)] + [OpenSession(1, 1)];
    var first, second := [Receive(a, 1), FindOrder(a), Choose(a)], [Receive(b, 1), FindOrder(b), Choose(b)];
    SessionOpens(o);
    RunConcat(EMPTY, open, first);
    RunConcat(EMPTY, open + first, second);
    RunSnoc(EMPTY, open + first + second, Commit(a, None, Commits));
    RunSnoc(EMPTY, open + first + second + [Commit(a, None, Commits)], Commit(b, None, Commits));
    hide Run, Step;
    Chooses(Run(EMPTY, open), a, o);
    Chooses(Run(EMPTY, open + first), b, o);
    var s := Run(EMPTY, open + first + second);
    assert s.running == map[a := Chosen(1, true, 1), b := Chosen(1, true, 1)];
    BothCommit(s, a, b);
  }
}
