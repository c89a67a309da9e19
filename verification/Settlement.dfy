/** Settlement of a delivered order: ledger rows guarded by order and kind, the restaurant's balance, the agent's
    earning and the order.delivered event. */
module Settlement {
  import opened Common
  import opened Money
  import opened Ledger
  import Lifecycle

  /** The columns of an order row that settlement reads. */
  datatype Order = Order(
    id: OrderId,
    restaurant: int,
    owner: int,
    customer: int,
    currency: string,
    payment: Lifecycle.PaymentMethod,
    subtotal: int,
    deliveryFee: int,
    serviceFee: int,
    total: int)

  type BalanceKey = (int, string)

  datatype Earning = Earning(agent: int, amount: int, currency: string)

  /** Payload of order.delivered, as far as it is computed here. */
  datatype DeliveredEvent = DeliveredEvent(order: OrderId, agent: int, commission: int)

  /** What a committed transaction leaves of the finance tables. */
  datatype Books = Books(
    txs: seq<Tx>,
    balances: map<BalanceKey, int>,
    earnings: map<OrderId, Earning>,
    events: seq<DeliveredEvent>)

  function KeyOf(o: Order): BalanceKey {
    (o.restaurant, o.currency)
  }

  function Commission(o: Order, bps: int): int {
    Share(o.subtotal, bps)
  }

  function Net(o: Order, bps: int): int {
    o.subtotal - Commission(o, bps)
  }

  function CollectionRow(o: Order): Tx {
    Tx(Some(o.id), COD_COLLECTION, SUCCEEDED, o.total, o.currency, Some(o.customer), Some(o.owner), None, CodCollect(o.id))
  }

  /** A transfer from the restaurant owner to the platform. */
  function PlatformRow(o: Order, kind: Kind, amount: int, key: Key): Tx {
    Tx(Some(o.id), kind, SUCCEEDED, amount, o.currency, Some(o.owner), None, None, key)
  }

  function CommissionRow(o: Order, commission: int): Tx {
    PlatformRow(o, COMMISSION, commission, CommissionOf(o.id))
  }

  function ServiceFeeRow(o: Order): Tx {
    PlatformRow(o, ADJUSTMENT, o.serviceFee, ServiceFeeOf(o.id))
  }

  function DeliveryFeeRow(o: Order): Tx {
    PlatformRow(o, ADJUSTMENT, o.deliveryFee, DeliveryFeeOf(o.id))
  }

  function CollectionPart(txs: seq<Tx>, o: Order): seq<Tx> {
    if o.payment == Lifecycle.COD && !HasKind(txs, o.id, COD_COLLECTION) then [CollectionRow(o)] else []
  }

  function CommissionPart(txs: seq<Tx>, o: Order, commission: int): seq<Tx> {
    if commission > 0 && !HasKind(txs, o.id, COMMISSION) then [CommissionRow(o, commission)] else []
  }

  /** Both fees are booked as adjustments and guarded by the same lookup, so at most one of them is, the service fee
      first. */
  function FeePart(txs: seq<Tx>, o: Order): seq<Tx> {
    if HasKind(txs, o.id, ADJUSTMENT) then []
    else if o.serviceFee > 0 then [ServiceFeeRow(o)]
    else if o.deliveryFee > 0 then [DeliveryFeeRow(o)]
    else []
  }

  /** The rows a settlement inserts. */
  function NewRows(txs: seq<Tx>, o: Order, commission: int): seq<Tx> {
    CollectionPart(txs, o) + CommissionPart(txs, o, commission) + FeePart(txs, o)
  }

  /** A collection row that is not yet succeeded becomes so. */
  function Collected(txs: seq<Tx>, o: Order): seq<Tx> {
    var i := FindByOrderAndKind(txs, o.id, COD_COLLECTION);
    if o.payment == Lifecycle.COD && i.Some? then txs[i.value := txs[i.value].(status := SUCCEEDED)] else txs
  }

  function BalanceOf(balances: map<BalanceKey, int>, k: BalanceKey): int {
    if k in balances then balances[k] else 0
  }

  /** INSERT ... ON CONFLICT DO UPDATE SET balance = balance + delta, within the width of the column. */
  function Upsert(balances: map<BalanceKey, int>, k: BalanceKey, delta: int): Option<map<BalanceKey, int>> {
    var balance := BalanceOf(balances, k) + delta;
    if FitsInt(delta) && FitsInt(balance) then Some(balances[k := balance]) else None
  }

  function Credit(balances: map<BalanceKey, int>, k: BalanceKey, net: int): Option<map<BalanceKey, int>> {
    if net == 0 then Some(balances) else Upsert(balances, k, net)
  }

  /** INSERT ... ON CONFLICT (order_id) DO NOTHING. */
  function InsertEarning(earnings: map<OrderId, Earning>, id: OrderId, e: Earning): Option<map<OrderId, Earning>> {
    if e.amount <= 0 || id in earnings then Some(earnings)
    else if !FitsInt(e.amount) then None
    else Some(earnings[id := e])
  }

  /** The books after a settlement, or none when one of its writes is refused and the transaction rolls back. */
  function Settle(b: Books, o: Order, agent: int, bps: int, share: int): Option<Books> {
    var commission := Commission(o, bps);
    var txs := CreateAll(Collected(b.txs, o), NewRows(b.txs, o, commission));
    var balances := Credit(b.balances, KeyOf(o), Net(o, bps));
    var earnings := InsertEarning(b.earnings, o.id, Earning(agent, Share(o.deliveryFee, share), o.currency));
    if txs.None? || balances.None? || earnings.None? then None
    else Some(Books(txs.value, balances.value, earnings.value, b.events + [DeliveredEvent(o.id, agent, commission)]))
  }

  // ---------------------------------------------------------------------------
  // What one settlement books
  // ---------------------------------------------------------------------------

  predicate OfOrder(rows: seq<Tx>, id: OrderId) {
    forall i :: 0 <= i < |rows| ==> rows[i].order == Some(id) && IsSettlementKind(rows[i].kind)
  }

  /** The rows of an order settled for the first time. */
  function FirstRows(o: Order, commission: int): (rows: seq<Tx>)
    ensures OfOrder(rows, o.id) && KeysDistinct(rows)
  {
    (if o.payment == Lifecycle.COD then [CollectionRow(o)] else [])
    + (if commission > 0 then [CommissionRow(o, commission)] else [])
    + (if o.serviceFee > 0 then [ServiceFeeRow(o)] else if o.deliveryFee > 0 then [DeliveryFeeRow(o)] else [])
  }

  lemma {:induction false} RowsOfOneOrder(rows: seq<Tx>, id: OrderId, other: OrderId)
    requires OfOrder(rows, id)
    ensures RowsOf(rows, other) == if other == id then rows else []
    ensures PayoutsOf(rows) == []
  {
    if rows != [] {
      var n := |rows| - 1;
      RowsOfOneOrder(rows[..n], id, other);
      assert rows == rows[..n] + [rows[n]];
    }
  }

  predicate AnyPositive(commissions: seq<int>) {
    exists i :: 0 <= i < |commissions| && commissions[i] > 0
  }

  /** The rows a settlement adds for an order settled before at `earlier` commissions: all of them the first time,
      later only a commission row, when none was due before. */
  function RowsAdded(o: Order, earlier: seq<int>, commission: int): seq<Tx> {
    if earlier == [] then FirstRows(o, commission)
    else if commission > 0 && !AnyPositive(earlier) then [CommissionRow(o, commission)]
    else []
  }

  /** The rows of an order settled at these commissions, one settlement after the other. */
  function RowsAfter(o: Order, commissions: seq<int>): seq<Tx> {
    if commissions == [] then []
    else
      var n := |commissions| - 1;
      RowsAfter(o, commissions[..n]) + RowsAdded(o, commissions[..n], commissions[n])
  }

  /** Which kinds a list of an order's rows holds; its collection, if any, succeeded. */
  predicate HoldsKinds(rows: seq<Tx>, collection: bool, commission: bool, fee: bool) {
    && (Lists(rows, COD_COLLECTION) <==> collection)
    && (Lists(rows, COMMISSION) <==> commission)
    && (Lists(rows, ADJUSTMENT) <==> fee)
    && (forall i :: 0 <= i < |rows| && rows[i].kind == COD_COLLECTION ==> rows[i].status == SUCCEEDED)
  }

  lemma KindsOfOne(t: Tx)
    requires t.status == SUCCEEDED
    ensures HoldsKinds([t], t.kind == COD_COLLECTION, t.kind == COMMISSION, t.kind == ADJUSTMENT)
  {
    assert [t][0] == t;
  }

  lemma KindsConcat(a: seq<Tx>, b: seq<Tx>, x: bool, y: bool, z: bool, x': bool, y': bool, z': bool)
    requires HoldsKinds(a, x, y, z) && HoldsKinds(b, x', y', z')
    ensures HoldsKinds(a + b, x || x', y || y', z || z')
  {
    ListsConcat(a, b, COD_COLLECTION);
    ListsConcat(a, b, COMMISSION);
    ListsConcat(a, b, ADJUSTMENT);
    hide Lists;
    forall i | 0 <= i < |a + b| && (a + b)[i].kind == COD_COLLECTION ensures (a + b)[i].status == SUCCEEDED {
      assert i >= |a| ==> (a + b)[i] == b[i - |a|];
    }
  }

  lemma KindsOfFirstRows(o: Order, commission: int)
    ensures HoldsKinds(FirstRows(o, commission), o.payment == Lifecycle.COD, commission > 0, o.serviceFee > 0 || o.deliveryFee > 0)
  {
    var a := if o.payment == Lifecycle.COD then [CollectionRow(o)] else [];
    var b := if commission > 0 then [CommissionRow(o, commission)] else [];
    var c := if o.serviceFee > 0 then [ServiceFeeRow(o)] else if o.deliveryFee > 0 then [DeliveryFeeRow(o)] else [];
    KindsOfOne(CollectionRow(o));
    KindsOfOne(CommissionRow(o, commission));
    KindsOfOne(ServiceFeeRow(o));
    KindsOfOne(DeliveryFeeRow(o));
    KindsConcat(a, b, o.payment == Lifecycle.COD, false, false, false, commission > 0, false);
    KindsConcat(a + b, c, o.payment == Lifecycle.COD, commission > 0, false, false, false, o.serviceFee > 0 || o.deliveryFee > 0);
  }

  lemma AnyPositiveNext(commissions: seq<int>, c: int)
    ensures AnyPositive(commissions + [c]) <==> AnyPositive(commissions) || c > 0
  {
    var longer := commissions + [c];
    assert longer[|commissions|] == c;
    assert forall i :: 0 <= i < |commissions| ==> longer[i] == commissions[i];
  }

  lemma {:induction false} KindsAfter(o: Order, commissions: seq<int>)
    requires commissions != []
    ensures HoldsKinds(RowsAfter(o, commissions), o.payment == Lifecycle.COD, AnyPositive(commissions),
                       o.serviceFee > 0 || o.deliveryFee > 0)
  {
    var n := |commissions| - 1;
    var init, c := commissions[..n], commissions[n];
    assert commissions == init + [c];
    AnyPositiveNext(init, c);
    if n == 0 {
      KindsOfFirstRows(o, c);
      assert RowsAfter(o, init) == [] && !AnyPositive(init);
      assert RowsAfter(o, commissions) == FirstRows(o, c);
    } else {
      KindsAfter(o, init);
      var due := c > 0 && !AnyPositive(init);
      var added := RowsAdded(o, init, c);
      KindsOfOne(CommissionRow(o, c));
      assert HoldsKinds(added, false, due, false);
      KindsConcat(RowsAfter(o, init), added, o.payment == Lifecycle.COD, AnyPositive(init),
                  o.serviceFee > 0 || o.deliveryFee > 0, false, due, false);
      assert RowsAfter(o, commissions) == RowsAfter(o, init) + added;
    }
    hide HoldsKinds, FirstRows, AnyPositive;
  }

  lemma CollectedAlready(txs: seq<Tx>, o: Order)
    requires forall i :: 0 <= i < |RowsOf(txs, o.id)| && RowsOf(txs, o.id)[i].kind == COD_COLLECTION ==>
               RowsOf(txs, o.id)[i].status == SUCCEEDED
    ensures Collected(txs, o) == txs
  {
    var i := FindByOrderAndKind(txs, o.id, COD_COLLECTION);
    if i.Some? {
      assert txs[i.value] in txs;
      RowsOfMembers(txs, o.id, txs[i.value]);
      var rows := RowsOf(txs, o.id);
      var j :| 0 <= j < |rows| && rows[j] == txs[i.value];
    }
    hide RowsOf;
  }

  /** What the guards find, and so what is inserted. */
  lemma GuardsFind(txs: seq<Tx>, o: Order, earlier: seq<int>, commission: int)
    requires RowsOf(txs, o.id) == RowsAfter(o, earlier)
    ensures NewRows(txs, o, commission) == RowsAdded(o, earlier, commission) && Collected(txs, o) == txs
  {
    HasKindMeans(txs, o.id, COD_COLLECTION);
    HasKindMeans(txs, o.id, COMMISSION);
    HasKindMeans(txs, o.id, ADJUSTMENT);
    if earlier != [] {
      KindsAfter(o, earlier);
    }
    CollectedAlready(txs, o);
    hide RowsAfter, RowsOf, HasKind, Collected, AnyPositive;
  }

  lemma RowsAddedAreOfOrder(o: Order, earlier: seq<int>, commission: int)
    ensures OfOrder(RowsAdded(o, earlier, commission), o.id)
  {
  }

  lemma RowsAfterNext(o: Order, earlier: seq<int>, commission: int)
    ensures RowsAfter(o, earlier + [commission]) == RowsAfter(o, earlier) + RowsAdded(o, earlier, commission)
  {
    assert (earlier + [commission])[..|earlier|] == earlier;
    hide RowsAdded;
  }

  /** What a settlement does beside the ledger, on the order's columns: the balance of its restaurant in its currency moves
      by the subtotal less commission and no other does, the agent earns a share of the delivery fee unless an earning is
      there, and the event is inserted. */
  ghost predicate PaysOut(b: Books, b': Books, o: Order, agent: int, bps: int, share: int) {
    && (forall restaurant: int, currency: string ::
          BalanceOf(b'.balances, (restaurant, currency))
          == BalanceOf(b.balances, (restaurant, currency))
             + if restaurant == o.restaurant && currency == o.currency then o.subtotal - Share(o.subtotal, bps) else 0)
    && b'.earnings == (if Share(o.deliveryFee, share) > 0 && o.id !in b.earnings
                       then b.earnings[o.id := Earning(agent, Share(o.deliveryFee, share), o.currency)] else b.earnings)
    && b'.events == b.events + [DeliveredEvent(o.id, agent, Share(o.subtotal, bps))]
  }

  lemma SettleParts(b: Books, o: Order, agent: int, bps: int, share: int)
    requires Settle(b, o, agent, bps, share).Some?
    ensures var b' := Settle(b, o, agent, bps, share).value;
            && CreateAll(Collected(b.txs, o), NewRows(b.txs, o, Commission(o, bps))) == Some(b'.txs)
            && Credit(b.balances, KeyOf(o), Net(o, bps)) == Some(b'.balances)
  {
    hide CreateAll, Collected, NewRows, Credit;
  }

  lemma CreditMoves(balances: map<BalanceKey, int>, key: BalanceKey, net: int)
    requires Credit(balances, key, net).Some?
    ensures forall k :: BalanceOf(Credit(balances, key, net).value, k) == BalanceOf(balances, k) + if k == key then net else 0
    ensures net != 0 ==> FitsInt(BalanceOf(Credit(balances, key, net).value, key))
  {
  }

  /** Whatever was settled before. */
  lemma SettlementPaysOut(b: Books, o: Order, agent: int, bps: int, share: int)
    requires Settle(b, o, agent, bps, share).Some?
    ensures PaysOut(b, Settle(b, o, agent, bps, share).value, o, agent, bps, share)
  {
    SettleParts(b, o, agent, bps, share);
    CreditMoves(b.balances, KeyOf(o), Net(o, bps));
    hide CreateAll, Collected, NewRows, Credit, Share, BalanceOf;
  }

  /** The oldest collection row of an order. */
  ghost predicate IsCollection(txs: seq<Tx>, id: OrderId, i: nat)
    requires i < |txs|
  {
    && txs[i].order == Some(id) && txs[i].kind == COD_COLLECTION
    && forall j :: 0 <= j < i ==> !(txs[j].order == Some(id) && txs[j].kind == COD_COLLECTION)
  }

  /** Rows are added behind those there; of these only the collection of a cash order changes, which is succeeded afterwards
      and always there. */
  ghost predicate KeepsRows(txs: seq<Tx>, txs': seq<Tx>, o: Order) {
    && |txs| <= |txs'|
    && (forall i :: 0 <= i < |txs| ==>
          txs'[i] == if o.payment == Lifecycle.COD && IsCollection(txs, o.id, i) then txs[i].(status := SUCCEEDED) else txs[i])
    && (o.payment == Lifecycle.COD ==>
          exists i :: 0 <= i < |txs'| && IsCollection(txs', o.id, i) && txs'[i].status == SUCCEEDED)
  }

  lemma CollectedKeepsRows(txs: seq<Tx>, o: Order, more: seq<Tx>)
    ensures KeepsRows(txs, Collected(txs, o) + CollectionPart(txs, o) + more, o)
  {
    var i := FindByOrderAndKind(txs, o.id, COD_COLLECTION);
    var txs' := Collected(txs, o) + CollectionPart(txs, o) + more;
    hide FindByOrderAndKind;
    forall j | 0 <= j < |txs| ensures IsCollection(txs, o.id, j) <==> i == Some(j) {
    }
    if o.payment == Lifecycle.COD {
      var k := if i.Some? then i.value else |txs|;
      assert txs'[k].kind == COD_COLLECTION && txs'[k].order == Some(o.id) && txs'[k].status == SUCCEEDED;
      assert forall j :: 0 <= j < k ==> txs'[j] == txs[j];
      assert IsCollection(txs', o.id, k);
    }
  }

  lemma Regrouped(txs: seq<Tx>, a: seq<Tx>, b: seq<Tx>, c: seq<Tx>)
    ensures txs + (a + b + c) == txs + a + (b + c)
  {
  }

  /** Whatever was settled before. */
  lemma SettlementKeepsRows(b: Books, o: Order, agent: int, bps: int, share: int)
    requires Settle(b, o, agent, bps, share).Some?
    ensures KeepsRows(b.txs, Settle(b, o, agent, bps, share).value.txs, o)
  {
    var c := Share(o.subtotal, bps);
    var more := CommissionPart(b.txs, o, c) + FeePart(b.txs, o);
    SettleParts(b, o, agent, bps, share);
    hide CreateAll, Collected, CollectionPart, CommissionPart, FeePart, Settle, Credit, KeepsRows, Share;
    CreateAllAppends(Collected(b.txs, o), NewRows(b.txs, o, c));
    CollectedKeepsRows(b.txs, o, more);
    Regrouped(Collected(b.txs, o), CollectionPart(b.txs, o), CommissionPart(b.txs, o, c), FeePart(b.txs, o));
  }

  lemma AppendedRows(txs: seq<Tx>, rows: seq<Tx>, id: OrderId)
    requires KeysDistinct(txs) && OfOrder(rows, id) && CreateAll(txs, rows).Some?
    ensures CreateAll(txs, rows).value == txs + rows && KeysDistinct(txs + rows)
    ensures forall other :: RowsOf(txs + rows, other) == RowsOf(txs, other) + if other == id then rows else []
    ensures PayoutsOf(txs + rows) == PayoutsOf(txs)
  {
    CreateAllAppends(txs, rows);
    hide CreateAll, KeysDistinct, OfOrder;
    forall other ensures RowsOf(txs + rows, other) == RowsOf(txs, other) + if other == id then rows else [] {
      RowsOfConcat(txs, rows, other);
      RowsOfOneOrder(rows, id, other);
      hide RowsOf;
    }
    PayoutsOfConcat(txs, rows);
    RowsOfOneOrder(rows, id, id);
    hide RowsOf, PayoutsOf;
  }

  /** Any settlement of an order, first or repeated: the ledger gains exactly the rows added, no other order's rows and
      no payout are touched, and the restaurant, the agent and the event get their due. */
  lemma SettlementAdds(b: Books, o: Order, agent: int, bps: int, share: int, earlier: seq<int>)
    requires KeysDistinct(b.txs) && RowsOf(b.txs, o.id) == RowsAfter(o, earlier)
    requires Settle(b, o, agent, bps, share).Some?
    ensures var b' := Settle(b, o, agent, bps, share).value;
            var c := Share(o.subtotal, bps);
            && b'.txs == b.txs + RowsAdded(o, earlier, c)
            && KeysDistinct(b'.txs)
            && (forall id :: RowsOf(b'.txs, id) == if id == o.id then RowsAfter(o, earlier + [c]) else RowsOf(b.txs, id))
            && PayoutsOf(b'.txs) == PayoutsOf(b.txs)
            && PaysOut(b, b', o, agent, bps, share)
            && (c != o.subtotal ==> FitsInt(BalanceOf(b'.balances, (o.restaurant, o.currency))))
  {
    var c := Commission(o, bps);
    GuardsFind(b.txs, o, earlier, c);
    SettleParts(b, o, agent, bps, share);
    RowsAddedAreOfOrder(o, earlier, c);
    RowsAfterNext(o, earlier, c);
    hide RowsAdded, RowsAfter, RowsOf, NewRows, Collected, PayoutsOf, CreateAll, KeysDistinct, Settle, Credit, OfOrder;
    AppendedRows(b.txs, RowsAdded(o, earlier, c), o.id);
    CreditMoves(b.balances, KeyOf(o), Net(o, bps));
    SettlementPaysOut(b, o, agent, bps, share);
    hide PaysOut, Share;
  }

  lemma FirstRowsAfter(o: Order, commission: int)
    ensures RowsAfter(o, []) == [] && RowsAdded(o, [], commission) == FirstRows(o, commission)
    ensures RowsAfter(o, [] + [commission]) == FirstRows(o, commission)
  {
    RowsAfterNext(o, [], commission);
    assert [] + FirstRows(o, commission) == FirstRows(o, commission);
    hide FirstRows;
  }

  /** A settlement of an order without settlement rows books exactly its rows, touches no other order's rows and no
      payout, and gives the restaurant, the agent and the event their due. */
  lemma FirstSettlement(b: Books, o: Order, agent: int, bps: int, share: int)
    requires KeysDistinct(b.txs) && RowsOf(b.txs, o.id) == []
    requires Settle(b, o, agent, bps, share).Some?
    ensures var b' := Settle(b, o, agent, bps, share).value;
            var c := Share(o.subtotal, bps);
            && b'.txs == b.txs + FirstRows(o, c)
            && KeysDistinct(b'.txs)
            && (forall id :: RowsOf(b'.txs, id) == if id == o.id then FirstRows(o, c) else RowsOf(b.txs, id))
            && PayoutsOf(b'.txs) == PayoutsOf(b.txs)
            && PaysOut(b, b', o, agent, bps, share)
  {
    FirstRowsAfter(o, Share(o.subtotal, bps));
    hide FirstRows, RowsOf, RowsAfter, RowsAdded, PayoutsOf, KeysDistinct, Settle, Share, PaysOut;
    SettlementAdds(b, o, agent, bps, share, []);
  }

  /** Rows of a settlement of the order, on their columns. */
  ghost predicate InOrderOf(o: Order, rows: seq<Tx>) {
    forall i :: 0 <= i < |rows| ==>
      && rows[i].order == Some(o.id) && rows[i].status == SUCCEEDED && rows[i].currency == o.currency
      && rows[i].providerReference == None
      && match rows[i].kind
         case COD_COLLECTION => rows[i].key == CodCollect(o.id)
         case COMMISSION => rows[i].key == CommissionOf(o.id)
         case ADJUSTMENT => rows[i].key == if o.serviceFee > 0 then ServiceFeeOf(o.id) else DeliveryFeeOf(o.id)
         case _ => false
  }

  lemma FreeConcat(txs: seq<Tx>, a: seq<Tx>, b: seq<Tx>)
    ensures AllFree(txs, a + b) <==> AllFree(txs, a) && AllFree(txs, b)
  {
    hide KeyTaken;
    assert forall i :: 0 <= i < |a| ==> a[i] == (a + b)[i];
    assert forall i :: 0 <= i < |b| ==> b[i] == (a + b)[|a| + i];
  }

  lemma FreeOne(txs: seq<Tx>, t: Tx)
    ensures AllFree(txs, [t]) <==> !KeyTaken(txs, t.key) && -MAX_INT32 - 1 <= t.amount <= MAX_INT32
    ensures AllFree(txs, [])
  {
    hide KeyTaken;
    assert [t][0] == t;
  }

  lemma FirstRowsAreFreeIff(txs: seq<Tx>, o: Order, commission: int)
    ensures AllFree(txs, FirstRows(o, commission)) <==>
              && (o.payment == Lifecycle.COD ==> !KeyTaken(txs, CodCollect(o.id)) && -MAX_INT32 - 1 <= o.total <= MAX_INT32)
              && (commission > 0 ==> !KeyTaken(txs, CommissionOf(o.id)) && commission <= MAX_INT32)
              && (o.serviceFee > 0 ==> !KeyTaken(txs, ServiceFeeOf(o.id)) && o.serviceFee <= MAX_INT32)
              && (o.serviceFee <= 0 < o.deliveryFee ==> !KeyTaken(txs, DeliveryFeeOf(o.id)) && o.deliveryFee <= MAX_INT32)
  {
    hide KeyTaken;
    var a := if o.payment == Lifecycle.COD then [CollectionRow(o)] else [];
    var b := if commission > 0 then [CommissionRow(o, commission)] else [];
    var c := if o.serviceFee > 0 then [ServiceFeeRow(o)] else if o.deliveryFee > 0 then [DeliveryFeeRow(o)] else [];
    var rows := a + b + c;
    assert rows == FirstRows(o, commission);
    FreeConcat(txs, a + b, c);
    FreeConcat(txs, a, b);
    FreeOne(txs, CollectionRow(o));
    FreeOne(txs, CommissionRow(o, commission));
    FreeOne(txs, ServiceFeeRow(o));
    FreeOne(txs, DeliveryFeeRow(o));
    hide AllFree, FirstRows;
  }

  lemma SettlesIffAllParts(b: Books, o: Order, agent: int, bps: int, share: int)
    ensures Settle(b, o, agent, bps, share).Some? <==>
              && CreateAll(Collected(b.txs, o), NewRows(b.txs, o, Share(o.subtotal, bps))).Some?
              && Credit(b.balances, KeyOf(o), o.subtotal - Share(o.subtotal, bps)).Some?
              && InsertEarning(b.earnings, o.id, Earning(agent, Share(o.deliveryFee, share), o.currency)).Some?
  {
    hide Share, CreateAll, Collected, NewRows, Credit, InsertEarning;
  }

  lemma CreditFitsIff(balances: map<BalanceKey, int>, k: BalanceKey, net: int)
    ensures Credit(balances, k, net).Some? <==>
            (net != 0 ==> -MAX_INT32 - 1 <= net <= MAX_INT32 && -MAX_INT32 - 1 <= BalanceOf(balances, k) + net <= MAX_INT32)
  {
  }

  /** A first settlement goes through if and only if the keys of its rows are free and every number it writes fits its
      column; otherwise it is rolled back. */
  lemma FirstSettlementGoesThroughIff(b: Books, o: Order, agent: int, bps: int, share: int)
    requires RowsOf(b.txs, o.id) == []
    ensures var c, earned := Share(o.subtotal, bps), Share(o.deliveryFee, share);
            var balance := BalanceOf(b.balances, (o.restaurant, o.currency));
            Settle(b, o, agent, bps, share).Some? <==>
              && (o.payment == Lifecycle.COD ==> !KeyTaken(b.txs, CodCollect(o.id)) && -MAX_INT32 - 1 <= o.total <= MAX_INT32)
              && (c > 0 ==> !KeyTaken(b.txs, CommissionOf(o.id)) && c <= MAX_INT32)
              && (o.serviceFee > 0 ==> !KeyTaken(b.txs, ServiceFeeOf(o.id)) && o.serviceFee <= MAX_INT32)
              && (o.serviceFee <= 0 < o.deliveryFee ==> !KeyTaken(b.txs, DeliveryFeeOf(o.id)) && o.deliveryFee <= MAX_INT32)
              && (c != o.subtotal ==>
                    && -MAX_INT32 - 1 <= o.subtotal - c <= MAX_INT32
                    && -MAX_INT32 - 1 <= balance + o.subtotal - c <= MAX_INT32)
              && (earned > 0 && o.id !in b.earnings ==> earned <= MAX_INT32)
  {
    var c := Share(o.subtotal, bps);
    FirstRowsAfter(o, c);
    GuardsFind(b.txs, o, [], c);
    CreateAllSucceedsIff(b.txs, FirstRows(o, c));
    FirstRowsAreFreeIff(b.txs, o, c);
    SettlesIffAllParts(b, o, agent, bps, share);
    CreditFitsIff(b.balances, KeyOf(o), o.subtotal - c);
    hide Share, FirstRows, RowsOf, RowsAfter, RowsAdded, NewRows, Collected, KeyTaken, CreateAll, BalanceOf, AllFree,
         KeysDistinct, Settle, Credit;
  }

  lemma RowsByKind(o: Order, rows: seq<Tx>, more: seq<Tx>)
    requires InOrderOf(o, rows) && InOrderOf(o, more)
    ensures InOrderOf(o, rows + more)
  {
    assert forall i :: 0 <= i < |rows| ==> (rows + more)[i] == rows[i];
    assert forall i :: 0 <= i < |more| ==> (rows + more)[|rows| + i] == more[i];
    assert forall i :: |rows| <= i < |rows + more| ==> (rows + more)[i] == more[i - |rows|];
  }

  /** What a first settlement's rows are: succeeded, in the order's currency, under the key of their kind, and of which
      kinds. */
  lemma FirstRowsAre(o: Order, commission: int)
    ensures var rows := FirstRows(o, commission);
            && InOrderOf(o, rows)
            && HoldsKinds(rows, o.payment == Lifecycle.COD, commission > 0, o.serviceFee > 0 || o.deliveryFee > 0)
  {
    KindsOfFirstRows(o, commission);
    hide HoldsKinds;
    var a := if o.payment == Lifecycle.COD then [CollectionRow(o)] else [];
    var b := if commission > 0 then [CommissionRow(o, commission)] else [];
    var c := if o.serviceFee > 0 then [ServiceFeeRow(o)] else if o.deliveryFee > 0 then [DeliveryFeeRow(o)] else [];
    assert InOrderOf(o, a) && InOrderOf(o, b) && InOrderOf(o, c);
    assert FirstRows(o, commission) == a + b + c;
    hide InOrderOf, FirstRows;
    RowsByKind(o, a, b);
    RowsByKind(o, a + b, c);
  }

  lemma GainIf(booked: bool, t: Tx, account: int)
    requires t.status == SUCCEEDED
    ensures Gain(if booked then [t] else [], account)
            == if !booked then 0
               else (if t.dst == Some(account) then t.amount else 0) - (if t.src == Some(account) then t.amount else 0)
  {
    GainOne(t, account);
  }

  /** What a first settlement's rows move for every account. The customer pays the total in cash to the owner, who owes the
      platform the commission and one fee, the service fee before the delivery fee. */
  lemma FirstRowsMoveMoney(o: Order, commission: int, account: int)
    requires commission >= 0
    ensures Gain(FirstRows(o, commission), account)
            == (if o.payment == Lifecycle.COD && account == o.owner then o.total else 0)
               - (if o.payment == Lifecycle.COD && account == o.customer then o.total else 0)
               - (if account != o.owner then 0
                  else commission + if o.serviceFee > 0 then o.serviceFee else if o.deliveryFee > 0 then o.deliveryFee else 0)
  {
    var a := if o.payment == Lifecycle.COD then [CollectionRow(o)] else [];
    var b := if commission > 0 then [CommissionRow(o, commission)] else [];
    var c := if o.serviceFee > 0 then [ServiceFeeRow(o)] else if o.deliveryFee > 0 then [DeliveryFeeRow(o)] else [];
    GainConcat(a + b, c, account);
    GainConcat(a, b, account);
    GainIf(o.payment == Lifecycle.COD, CollectionRow(o), account);
    GainIf(commission > 0, CommissionRow(o, commission), account);
    GainIf(o.serviceFee > 0, ServiceFeeRow(o), account);
    GainIf(o.deliveryFee > 0, DeliveryFeeRow(o), account);
    assert FirstRows(o, commission) == a + b + c;
    hide Gain, FirstRows;
  }

  /** For a settled cash order the ledger leaves the owner the balance credit, plus the delivery fee exactly when both
      fees are positive: its transfer to the platform is then never booked. */
  lemma OwnerKeepsTheCredit(o: Order, bps: int)
    requires o.payment == Lifecycle.COD && o.customer != o.owner
    requires 0 <= o.subtotal && 0 <= o.deliveryFee && 0 <= o.serviceFee && 0 <= bps <= 10000
    requires o.total == o.subtotal + o.deliveryFee + o.serviceFee
    ensures var gain := Gain(FirstRows(o, Share(o.subtotal, bps)), o.owner);
            var net := o.subtotal - Share(o.subtotal, bps);
            && gain == net + (if o.serviceFee > 0 && o.deliveryFee > 0 then o.deliveryFee else 0)
            && (gain == net <==> !(o.serviceFee > 0 && o.deliveryFee > 0))
  {
    ShareIsWithin(o.subtotal, bps);
    FirstRowsMoveMoney(o, Share(o.subtotal, bps), o.owner);
  }

  lemma CreateOne(txs: seq<Tx>, t: Tx)
    ensures CreateAll(txs, [t]) == CreateTransaction(txs, t) && CreateAll(txs, []) == Some(txs)
  {
    assert [t][1..] == [];
  }

  /** The guards do not cover the credit and the event. Every further settlement of an order, at whatever rate,
      leaves the earning as it is and the ledger too, but for a commission row when no earlier settlement had one; it
      credits its net and inserts the event again. */
  lemma SettlingAgainCreditsAgain(b: Books, o: Order, agent: int, bps: int, share: int, earlier: seq<int>)
    requires earlier != [] && KeysDistinct(b.txs) && RowsOf(b.txs, o.id) == RowsAfter(o, earlier)
    requires Share(o.deliveryFee, share) > 0 ==> o.id in b.earnings
    ensures var again := Settle(b, o, agent, bps, share);
            var c := Share(o.subtotal, bps);
            var due := c > 0 && !AnyPositive(earlier);
            var balance := BalanceOf(b.balances, (o.restaurant, o.currency));
            && (again.Some? <==>
                  && (c != o.subtotal ==> FitsInt(o.subtotal - c) && FitsInt(balance + o.subtotal - c))
                  && (due ==> !KeyTaken(b.txs, CommissionOf(o.id)) && FitsInt(c)))
            && (again.Some? ==>
                  && again.value.txs
                     == b.txs + (if due then [Tx(Some(o.id), COMMISSION, SUCCEEDED, c, o.currency, Some(o.owner), None, None,
                                                 CommissionOf(o.id))]
                                 else [])
                  && again.value.earnings == b.earnings
                  && PaysOut(b, again.value, o, agent, bps, share))
  {
    hide Share, FirstRows, RowsOf, RowsAfter, NewRows, Collected, KeysDistinct, AnyPositive, KeyTaken, CreateAll, BalanceOf,
         PaysOut, FitsInt;
    var c := Share(o.subtotal, bps);
    GuardsFind(b.txs, o, earlier, c);
    assert b.txs + [] == b.txs;
    CreateOne(b.txs, CommissionRow(o, c));
    if Settle(b, o, agent, bps, share).Some? {
      SettlementPaysOut(b, o, agent, bps, share);
    }
  }
}
