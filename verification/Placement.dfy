/** Order placement: the validation loop, the stock reservation in core, and the transaction that stores the order or
    gives the stock back. */
module Placement {
  import opened Common
  import opened OrderStatus
  import opened ProductCache
  import Lifecycle

  type OrderId = nat

  const SERVICE_FEE := 1000

  datatype Item = Item(product: ProductId, quantity: nat)

  datatype Branch = Branch(id: BranchId, active: bool, acceptsOrders: bool, restaurantActive: bool, deliveryFee: nat)

  datatype Line = Line(product: ProductId, quantity: nat, unitPrice: int, lineTotal: int)

  datatype Unavailable = Unavailable(product: ProductId, requested: nat, available: int)

  datatype StoredOrder = StoredOrder(
    branch: BranchId,
    payment: Lifecycle.PaymentMethod,
    status: Status,
    lines: seq<Line>,
    subtotal: int,
    deliveryFee: int,
    serviceFee: int,
    total: int)

  /** How one attempt of a request to core ends: with an answer, with a refusal, or with a failure that is retried, after
      core may have applied the request. */
  datatype Attempt = Answered | Rejected | Failed(applied: bool)

  /** What a reservation comes to; a lost reply reads as a failure although the stock is taken. */
  datatype Reply = Applied | Refused | AppliedThenLost

  /** A placement and how its surroundings answer: `answer` is what the product lookup returned, `reserving` and `undoing`
      how the attempts of the two requests end, `ending` how the transaction in between does. */
  datatype Request = Request(
    branch: Branch,
    rejecting: bool,
    onlineAllowed: bool,
    ownAddress: bool,
    payment: Lifecycle.PaymentMethod,
    items: seq<Item>,
    answer: seq<(ProductId, Entry)>,
    reserving: seq<Attempt>,
    ending: Ending,
    undoing: seq<Attempt>)

  datatype PlacementError =
    | BranchNotAcceptingOrders
    | OnlinePaymentNotAvailable
    | UnAuthorised
    | ProductsNotFound
    | OutOfStock(unavailable: seq<Unavailable>)
    | ReservationFailed
    | DatabaseFailed

  /** Core's free stock, the stored orders and the outbox. */
  datatype State = State(stock: map<Key, int>, orders: seq<StoredOrder>, outbox: seq<(OrderId, EventType)>)

  // ---------------------------------------------------------------------------
  // Requests to core are retried
  // ---------------------------------------------------------------------------

  /** Attempts of one request. */
  const ATTEMPTS := 3

  function At(attempts: seq<Attempt>, i: nat): Attempt {
    if i < |attempts| then attempts[i] else Failed(false)
  }

  /** One more than the position of the last attempt made, from the `i`-th on: only failures are retried. */
  function End(attempts: seq<Attempt>, i: nat): (n: nat)
    requires i < ATTEMPTS
    ensures i < n <= ATTEMPTS
    ensures forall j :: i <= j < n - 1 ==> At(attempts, j).Failed?
    ensures n < ATTEMPTS ==> !At(attempts, n - 1).Failed?
    decreases ATTEMPTS - i
  {
    if At(attempts, i).Failed? && i + 1 < ATTEMPTS then End(attempts, i + 1) else i + 1
  }

  function Made(attempts: seq<Attempt>): nat {
    End(attempts, 0)
  }

  predicate Succeeds(attempts: seq<Attempt>) {
    At(attempts, Made(attempts) - 1).Answered?
  }

  predicate Applies(a: Attempt) {
    a.Answered? || (a.Failed? && a.applied)
  }

  function AppliedIn(attempts: seq<Attempt>, n: nat): (k: nat)
    ensures k <= n
  {
    if n == 0 then 0 else AppliedIn(attempts, n - 1) + if Applies(At(attempts, n - 1)) then 1 else 0
  }

  /** How often core applies a request that carries no idempotency key, as the undo does. */
  function TimesApplied(attempts: seq<Attempt>): nat {
    AppliedIn(attempts, Made(attempts))
  }

  /** A reservation carries the order's id as idempotency key, so core applies it once at most. */
  function ReplyOf(attempts: seq<Attempt>): Reply {
    if Succeeds(attempts) then Applied else if TimesApplied(attempts) > 0 then AppliedThenLost else Refused
  }

  function LostIn(attempts: seq<Attempt>, n: nat): nat {
    if n == 0 then 0 else LostIn(attempts, n - 1) + if At(attempts, n - 1) == Failed(true) then 1 else 0
  }

  lemma {:induction false} AppliedAreLostOrLast(attempts: seq<Attempt>, n: nat)
    requires n < Made(attempts)
    ensures AppliedIn(attempts, n) == LostIn(attempts, n)
  {
    if n > 0 {
      AppliedAreLostOrLast(attempts, n - 1);
    }
  }

  /** The undo is applied once for every attempt whose reply was lost, and once more if the last one was answered: so up
      to three times, and exactly once if and only if it was answered and no reply lost, or failed with one lost. */
  lemma UndoIsAppliedOncePerLostReply(attempts: seq<Attempt>)
    ensures var lost := LostIn(attempts, Made(attempts));
            && TimesApplied(attempts) == lost + (if Succeeds(attempts) then 1 else 0) <= 3
            && (TimesApplied(attempts) == 1 <==> lost == if Succeeds(attempts) then 0 else 1)
  {
    AppliedAreLostOrLast(attempts, Made(attempts) - 1);
  }

  /** A first reply lost and a second attempt answered give the stock back twice. */
  lemma LostReplyUndoesTwice()
    ensures TimesApplied([Failed(true), Answered]) == 2 && TimesApplied([Failed(true), Failed(true), Answered]) == 3
  {
    var two, three := [Failed(true), Answered], [Failed(true), Failed(true), Answered];
    assert Made(two) == 2 && Made(three) == 3;
    assert AppliedIn(two, 1) == 1 && AppliedIn(three, 1) == 1 && AppliedIn(three, 2) == 2;
  }

  function ProductIds(items: seq<Item>): seq<ProductId> {
    seq(|items|, i requires 0 <= i < |items| => items[i].product)
  }

  /** The entry a map built from the answer holds for a product: the last one. */
  function Find(answer: seq<(ProductId, Entry)>, id: ProductId): Option<Entry> {
    if answer == [] then None
    else if answer[|answer| - 1].0 == id then Some(answer[|answer| - 1].1)
    else Find(answer[..|answer| - 1], id)
  }

  function StockOf(e: Entry): int {
    if e.stock.Some? then e.stock.value else 0
  }

  function PriceOf(e: Entry): int {
    if e.price.Some? then e.price.value else 0
  }

  /** An entry of unknown stock, which no lookup gives, is not compared. */
  predicate FitsEntry(item: Item, e: Option<Entry>) {
    e.Some? && e.value.available == Some(true) && !(e.value.stock.Some? && e.value.stock.value < item.quantity)
  }

  function LineOf(item: Item, e: Entry): Line {
    Line(item.product, item.quantity, PriceOf(e), PriceOf(e) * item.quantity)
  }

  /** The lines of the items that fit. */
  function LinesOf(items: seq<Item>, answer: seq<(ProductId, Entry)>): seq<Line> {
    if items == [] then []
    else
      var item := items[|items| - 1];
      var e := Find(answer, item.product);
      LinesOf(items[..|items| - 1], answer) + if FitsEntry(item, e) then [LineOf(item, e.value)] else []
  }

  function MissingOf(items: seq<Item>, answer: seq<(ProductId, Entry)>): seq<Unavailable> {
    if items == [] then []
    else
      var item := items[|items| - 1];
      var e := Find(answer, item.product);
      MissingOf(items[..|items| - 1], answer)
      + if FitsEntry(item, e) then []
        else [Unavailable(item.product, item.quantity, if e.Some? then StockOf(e.value) else 0)]
  }

  function Subtotal(lines: seq<Line>): int {
    if lines == [] then 0 else Subtotal(lines[..|lines| - 1]) + lines[|lines| - 1].lineTotal
  }

  function OrderOf(r: Request): StoredOrder {
    var lines := LinesOf(r.items, r.answer);
    var subtotal := Subtotal(lines);
    StoredOrder(r.branch.id, r.payment, if r.payment == Lifecycle.COD then PLACED else PENDING_PAYMENT,
                lines, subtotal, r.branch.deliveryFee, SERVICE_FEE, subtotal + r.branch.deliveryFee + SERVICE_FEE)
  }

  predicate StorableLine(l: Line) {
    l.quantity > 0 && FitsInt(l.quantity) && FitsInt(l.unitPrice) && FitsInt(l.lineTotal)
  }

  /** Every number of an order fits its column, and its quantities are positive. */
  predicate Storable(o: StoredOrder) {
    && FitsInt(o.subtotal) && FitsInt(o.deliveryFee) && FitsInt(o.total)
    && forall i :: 0 <= i < |o.lines| ==> StorableLine(o.lines[i])
  }

  /** What stops a placement before the reservation. */
  function Refusal(r: Request): Option<PlacementError> {
    if !r.branch.active || !r.branch.acceptsOrders || !r.branch.restaurantActive || r.rejecting
    then Some(BranchNotAcceptingOrders)
    else if r.payment == Lifecycle.ONLINE && !r.onlineAllowed then Some(OnlinePaymentNotAvailable)
    else if !r.ownAddress then Some(UnAuthorised)
    else if |r.answer| != |r.items| then Some(ProductsNotFound)
    else if MissingOf(r.items, r.answer) != [] then Some(OutOfStock(MissingOf(r.items, r.answer)))
    else None
  }

  function Free(stock: map<Key, int>, k: Key): int {
    if k in stock then stock[k] else 0
  }

  /** Stock moved by `sign` times the quantities; core knows every product or refuses. */
  function Moved(stock: map<Key, int>, b: BranchId, items: seq<Item>, sign: int): map<Key, int> {
    if items == [] then stock
    else
      var item := items[|items| - 1];
      var before := Moved(stock, b, items[..|items| - 1], sign);
      before[(b, item.product) := Free(before, (b, item.product)) + Times(sign, item.quantity)]
  }

  function PlacedEvents(id: OrderId, o: StoredOrder): seq<(OrderId, EventType)> {
    if o.status == PLACED then [(id, ORDER_PLACED)] else []
  }

  /** The transaction commits; a number that fits no column makes an insert fail before. */
  predicate Stores(r: Request) {
    Storable(OrderOf(r)) && r.ending != RollsBack
  }

  /** The transaction that stores the order. Whenever it fails, or its commit goes unanswered, the stock is given back. */
  function Store(s: State, r: Request): (State, Result<StoredOrder, PlacementError>) {
    var stored := if Stores(r)
                  then s.(orders := s.orders + [OrderOf(r)], outbox := s.outbox + PlacedEvents(|s.orders|, OrderOf(r)))
                  else s;
    if Stores(r) && r.ending == Commits then (stored, Ok(OrderOf(r)))
    else (stored.(stock := Moved(s.stock, r.branch.id, r.items, TimesApplied(r.undoing))), Err(DatabaseFailed))
  }

  /** State and outcome of one placement. */
  function Place(s: State, r: Request): (State, Result<StoredOrder, PlacementError>) {
    if Refusal(r).Some? then (s, Err(Refusal(r).value))
    else if ReplyOf(r.reserving) == Refused then (s, Err(ReservationFailed))
    else
      var reserved := s.(stock := Moved(s.stock, r.branch.id, r.items, -1));
      if ReplyOf(r.reserving) == AppliedThenLost then (reserved, Err(ReservationFailed)) else Store(reserved, r)
  }

  // ---------------------------------------------------------------------------
  // Soundness of a stored order
  // ---------------------------------------------------------------------------

  lemma {:induction false} NothingMissing(items: seq<Item>, answer: seq<(ProductId, Entry)>)
    ensures MissingOf(items, answer) == [] <==> forall i :: 0 <= i < |items| ==> FitsEntry(items[i], Find(answer, items[i].product))
    ensures MissingOf(items, answer) == [] ==> |LinesOf(items, answer)| == |items|
    ensures MissingOf(items, answer) == [] ==>
              forall i :: 0 <= i < |items| ==> LinesOf(items, answer)[i] == LineOf(items[i], Find(answer, items[i].product).value)
  {
    if items != [] {
      var n := |items| - 1;
      NothingMissing(items[..n], answer);
      assert forall i :: 0 <= i < n ==> items[..n][i] == items[i];
      assert MissingOf(items, answer) == [] <==>
             MissingOf(items[..n], answer) == [] && FitsEntry(items[n], Find(answer, items[n].product));
    }
  }

  /** The item cannot be sold as the entry says: it is missing, unavailable or short. */
  predicate Lacks(item: Item, e: Option<Entry>) {
    e.None? || e.value.available != Some(true) || (e.value.stock.Some? && e.value.stock.value < item.quantity)
  }

  /** What is reported of it: the quantity requested and the stock, 0 if unknown. */
  predicate Reports(u: Unavailable, item: Item, e: Option<Entry>) {
    && u.product == item.product && u.requested == item.quantity
    && u.available == if e.Some? && e.value.stock.Some? then e.value.stock.value else 0
  }

  /** An item of the list that lacks is reported so. */
  ghost predicate IsReported(u: Unavailable, items: seq<Item>, answer: seq<(ProductId, Entry)>) {
    exists i :: 0 <= i < |items| && Lacks(items[i], Find(answer, items[i].product))
                && Reports(u, items[i], Find(answer, items[i].product))
  }

  lemma ReportedNext(u: Unavailable, items: seq<Item>, item: Item, answer: seq<(ProductId, Entry)>)
    ensures IsReported(u, items + [item], answer) <==>
              || IsReported(u, items, answer)
              || (Lacks(item, Find(answer, item.product)) && Reports(u, item, Find(answer, item.product)))
  {
    hide Find, Lacks, Reports;
    var longer := items + [item];
    assert longer[|items|] == item;
    assert forall i :: 0 <= i < |items| ==> longer[i] == items[i];
  }

  /** Exactly the items that lack are reported, each once. */
  lemma {:induction false} MissingAreReported(items: seq<Item>, answer: seq<(ProductId, Entry)>)
    ensures forall u :: u in MissingOf(items, answer) <==> IsReported(u, items, answer)
    ensures |MissingOf(items, answer)| + |LinesOf(items, answer)| == |items|
  {
    if items != [] {
      var n := |items| - 1;
      MissingAreReported(items[..n], answer);
      assert items == items[..n] + [items[n]];
      forall u ensures u in MissingOf(items, answer) <==> IsReported(u, items, answer) {
        ReportedNext(u, items[..n], items[n], answer);
        hide IsReported, Find;
      }
    }
  }

  /** The branch takes orders. */
  ghost predicate IsOpen(r: Request) {
    r.branch.active && r.branch.acceptsOrders && r.branch.restaurantActive && !r.rejecting
  }

  /** All the guards before the reservation but the last hold. */
  ghost predicate MayOrder(r: Request) {
    IsOpen(r) && (r.payment == Lifecycle.COD || r.onlineAllowed) && r.ownAddress && |r.answer| == |r.items|
  }

  ghost predicate SomeLacks(r: Request) {
    exists i :: 0 <= i < |r.items| && Lacks(r.items[i], Find(r.answer, r.items[i].product))
  }

  /** The answer on the request's fields: each refusal is given exactly if its own guard fails and the earlier ones hold. */
  ghost predicate AnsweredByGuards(r: Request, outcome: Result<StoredOrder, PlacementError>) {
    && (outcome == Err(BranchNotAcceptingOrders) <==> !IsOpen(r))
    && (outcome == Err(OnlinePaymentNotAvailable) <==> IsOpen(r) && r.payment == Lifecycle.ONLINE && !r.onlineAllowed)
    && (outcome == Err(UnAuthorised) <==>
          IsOpen(r) && (r.payment == Lifecycle.COD || r.onlineAllowed) && !r.ownAddress)
    && (outcome == Err(ProductsNotFound) <==>
          IsOpen(r) && (r.payment == Lifecycle.COD || r.onlineAllowed) && r.ownAddress && |r.answer| != |r.items|)
    && (outcome.Err? && outcome.error.OutOfStock? <==> MayOrder(r) && SomeLacks(r))
    && (outcome.Err? && outcome.error.OutOfStock? ==>
          forall u :: u in outcome.error.unavailable <==> IsReported(u, r.items, r.answer))
    && (outcome == Err(ReservationFailed) <==> MayOrder(r) && !SomeLacks(r) && !Succeeds(r.reserving))
  }

  lemma MissingIffLacks(r: Request)
    ensures MissingOf(r.items, r.answer) != [] <==> SomeLacks(r)
  {
    NothingMissing(r.items, r.answer);
    hide Find, MissingOf, LinesOf;
  }

  lemma {:induction false} FindAnswers(answer: seq<(ProductId, Entry)>, x: (ProductId, Entry))
    requires Distinct(IdsOf(answer)) && x in answer
    ensures Find(answer, x.0) == Some(x.1)
  {
    var n := |answer| - 1;
    var init := answer[..n];
    assert answer == init + [answer[n]];
    if answer[n] != x {
      assert x in init;
      var i :| 0 <= i < n && init[i] == x;
      assert IdsOf(answer)[i] == x.0 && IdsOf(answer)[n] == answer[n].0;
      assert forall j :: 0 <= j < n ==> IdsOf(init)[j] == IdsOf(answer)[j];
      FindAnswers(init, x);
    }
  }

  /** Exact sum over the ordered quantities. */
  function Price(items: seq<Item>, cache: map<Key, Entry>, core: map<Key, Product>, b: BranchId): int {
    if items == [] then 0
    else
      var item := items[|items| - 1];
      var e := Lookup(cache, core, (b, item.product));
      Price(items[..|items| - 1], cache, core, b) + if e.Some? then PriceOf(e.value) * item.quantity else 0
  }

  lemma {:induction false} FindOnlyListed(answer: seq<(ProductId, Entry)>, id: ProductId)
    ensures Find(answer, id).Some? ==> (id, Find(answer, id).value) in answer
  {
    if answer != [] {
      var n := |answer| - 1;
      assert answer == answer[..n] + [answer[n]];
      FindOnlyListed(answer[..n], id);
    }
  }

  /** The lookup gave one observed entry per requested product. */
  lemma ObservedEntries(cache: map<Key, Entry>, core: map<Key, Product>, b: BranchId, items: seq<Item>)
    ensures var answer := Products(cache, core, b, ProductIds(items));
            forall i :: 0 <= i < |items| ==>
              Find(answer, items[i].product) == Lookup(cache, core, (b, items[i].product))
  {
    var ids := ProductIds(items);
    var answer := Products(cache, core, b, ids);
    ProductsMean(cache, core, b, ids);
    hide Products, Lookup;
    forall i | 0 <= i < |items|
      ensures Find(answer, items[i].product) == Lookup(cache, core, (b, items[i].product))
    {
      var id := items[i].product;
      assert ids[i] == id;
      if Lookup(cache, core, (b, id)).Some? {
        FindAnswers(answer, (id, Lookup(cache, core, (b, id)).value));
      } else {
        FindOnlyListed(answer, id);
      }
    }
  }

  lemma {:induction false} SubtotalIsPrice(items: seq<Item>, lines: seq<Line>,
                                           cache: map<Key, Entry>, core: map<Key, Product>, b: BranchId)
    requires |lines| == |items|
    requires forall i :: 0 <= i < |items| ==>
               var e := Lookup(cache, core, (b, items[i].product)); e.Some? && lines[i] == LineOf(items[i], e.value)
    ensures Subtotal(lines) == Price(items, cache, core, b)
  {
    if items != [] {
      var n := |items| - 1;
      SubtotalIsPrice(items[..n], lines[..n], cache, core, b);
    }
  }

  lemma ObservedLines(items: seq<Item>, answer: seq<(ProductId, Entry)>,
                      cache: map<Key, Entry>, core: map<Key, Product>, b: BranchId)
    requires answer == Products(cache, core, b, ProductIds(items)) && MissingOf(items, answer) == []
    ensures |LinesOf(items, answer)| == |items|
    ensures forall i :: 0 <= i < |items| ==>
              var e := Lookup(cache, core, (b, items[i].product));
              && e.Some? && e.value.available == Some(true)
              && (e.value.stock.Some? ==> e.value.stock.value >= items[i].quantity)
              && LinesOf(items, answer)[i] == LineOf(items[i], e.value)
              && (NamedIsWhole(cache) ==> Whole(e.value))
  {
    ObservedEntries(cache, core, b, items);
    NothingMissing(items, answer);
    hide Products, LinesOf, MissingOf, Find;
    forall i | 0 <= i < |items|
      ensures var e := Lookup(cache, core, (b, items[i].product));
              && e.Some? && e.value.available == Some(true)
              && (e.value.stock.Some? ==> e.value.stock.value >= items[i].quantity)
              && LinesOf(items, answer)[i] == LineOf(items[i], e.value)
              && (NamedIsWhole(cache) ==> Whole(e.value))
    {
      assert FitsEntry(items[i], Find(answer, items[i].product));
    }
  }

  /** Orders, outbox and stock change only past all guards, and each refusal has its exact case. */
  lemma RefusalsFollowTheGuards(s: State, r: Request)
    ensures var (s', outcome) := Place(s, r);
            && AnsweredByGuards(r, outcome)
            && (s' != s ==> MayOrder(r) && !SomeLacks(r))
  {
    MissingIffLacks(r);
    MissingAreReported(r.items, r.answer);
    hide MissingOf, LinesOf, SomeLacks, IsReported, Stores, OrderOf, Moved, Succeeds, TimesApplied;
  }

  /** One line for each item, at the price its product was observed with, available and with enough stock. */
  ghost predicate LinedAs(lines: seq<Line>, b: BranchId, items: seq<Item>, cache: map<Key, Entry>, core: map<Key, Product>) {
    && |lines| == |items|
    && forall i :: 0 <= i < |items| ==>
         var e := Lookup(cache, core, (b, items[i].product));
         && e.Some? && e.value.available == Some(true)
         && (e.value.stock.Some? ==> e.value.stock.value >= items[i].quantity)
         && (NamedIsWhole(cache) ==> Whole(e.value))
         && var price := if e.value.price.Some? then e.value.price.value else 0;
            lines[i] == Line(items[i].product, items[i].quantity, price, price * items[i].quantity)
  }

  lemma LinesAreObserved(items: seq<Item>, answer: seq<(ProductId, Entry)>, cache: map<Key, Entry>, core: map<Key, Product>,
                         b: BranchId)
    requires answer == Products(cache, core, b, ProductIds(items)) && MissingOf(items, answer) == []
    ensures LinedAs(LinesOf(items, answer), b, items, cache, core)
  {
    ObservedLines(items, answer, cache, core, b);
    hide Products, Lookup, LinesOf, Whole, NamedIsWhole, MissingOf, Find, FitsEntry, StockOf;
  }

  /** The stored order on the request's fields and the entries its products were observed with. */
  ghost predicate OrderedAs(o: StoredOrder, r: Request, cache: map<Key, Entry>, core: map<Key, Product>) {
    && o.branch == r.branch.id && o.payment == r.payment
    && o.status == (if r.payment == Lifecycle.COD then PLACED else PENDING_PAYMENT)
    && LinedAs(o.lines, r.branch.id, r.items, cache, core)
    && o.subtotal == Price(r.items, cache, core, r.branch.id)
    && o.deliveryFee == r.branch.deliveryFee && o.serviceFee == 1000
    && o.total == o.subtotal + r.branch.deliveryFee + 1000
  }

  lemma LinesAddUp(items: seq<Item>, answer: seq<(ProductId, Entry)>, cache: map<Key, Entry>, core: map<Key, Product>,
                   b: BranchId)
    requires answer == Products(cache, core, b, ProductIds(items)) && MissingOf(items, answer) == []
    ensures Subtotal(LinesOf(items, answer)) == Price(items, cache, core, b)
  {
    ObservedLines(items, answer, cache, core, b);
    hide Products, Lookup, LinesOf, Whole, NamedIsWhole, MissingOf, Find, FitsEntry, StockOf, Subtotal, Price, LineOf;
    SubtotalIsPrice(items, LinesOf(items, answer), cache, core, b);
  }

  lemma StoredAsOrdered(r: Request, cache: map<Key, Entry>, core: map<Key, Product>)
    requires r.answer == Products(cache, core, r.branch.id, ProductIds(r.items)) && MissingOf(r.items, r.answer) == []
    ensures OrderedAs(OrderOf(r), r, cache, core)
  {
    LinesAreObserved(r.items, r.answer, cache, core, r.branch.id);
    LinesAddUp(r.items, r.answer, cache, core, r.branch.id);
    hide Products, LinesOf, LinedAs, MissingOf, Find, Subtotal, Price;
  }

  /** An order is stored only past all guards, its products pairwise distinct, each observed available with enough stock;
      every column is that of the request, lines have the observed prices, amounts are the exact sums; whoever paid in cash
      has it placed, with one order.placed. It is answered with exactly when the commit is. */
  lemma StoredOrdersAreSound(s: State, r: Request, cache: map<Key, Entry>, core: map<Key, Product>)
    requires r.answer == Products(cache, core, r.branch.id, ProductIds(r.items))
    ensures var (s', outcome) := Place(s, r);
            if s'.orders == s.orders then outcome.Err? && s'.outbox == s.outbox
            else
              && |s'.orders| == |s.orders| + 1 && s'.orders[..|s.orders|] == s.orders
              && var o := s'.orders[|s.orders|];
                 (&& MayOrder(r) && OrderedAs(o, r, cache, core) && Distinct(ProductIds(r.items))
                  && outcome == (if r.ending == Commits then Ok(o) else Err(DatabaseFailed))
                  && (s'.outbox == s.outbox + [(|s.orders|, ORDER_PLACED)] <==> r.payment == Lifecycle.COD)
                  && (s'.outbox == s.outbox <==> r.payment == Lifecycle.ONLINE))
  {
    hide Products, Moved, LinesOf, MissingOf, Storable, Distinct, Subtotal, OrderedAs;
    assert s.outbox + [] == s.outbox;
    if Place(s, r).0.orders != s.orders {
      AllFoundMeansDistinct(cache, core, r.branch.id, ProductIds(r.items));
      StoredAsOrdered(r, cache, core);
    }
  }

  /** What the columns of an order and its lines take. */
  ghost predicate Fits(o: StoredOrder) {
    && -MAX_INT32 - 1 <= o.subtotal <= MAX_INT32 && -MAX_INT32 - 1 <= o.deliveryFee <= MAX_INT32
    && -MAX_INT32 - 1 <= o.total <= MAX_INT32
    && forall i :: 0 <= i < |o.lines| ==>
         && 1 <= o.lines[i].quantity <= MAX_INT32
         && -MAX_INT32 - 1 <= o.lines[i].unitPrice <= MAX_INT32
         && -MAX_INT32 - 1 <= o.lines[i].lineTotal <= MAX_INT32
  }

  lemma StorableIsFits(o: StoredOrder)
    ensures Storable(o) <==> Fits(o)
  {
  }

  lemma OneOrderAsked(o: StoredOrder, p: StoredOrder, r: Request, cache: map<Key, Entry>, core: map<Key, Product>)
    requires OrderedAs(o, r, cache, core) && OrderedAs(p, r, cache, core)
    ensures o == p
  {
    hide Lookup, Price, Whole, NamedIsWhole;
    assert forall i :: 0 <= i < |r.items| ==> o.lines[i] == p.lines[i];
  }

  /** An order is stored if and only if all guards hold, the reservation is answered, the numbers of the order asked for fit
      their columns, and the transaction commits; and it is answered exactly if the commit is. */
  lemma StoredIffItFits(s: State, r: Request, cache: map<Key, Entry>, core: map<Key, Product>)
    requires r.answer == Products(cache, core, r.branch.id, ProductIds(r.items))
    ensures var (s', outcome) := Place(s, r);
            && (s'.orders != s.orders <==>
                  && MayOrder(r) && !SomeLacks(r) && Succeeds(r.reserving) && r.ending != RollsBack
                  && exists o :: OrderedAs(o, r, cache, core) && Fits(o))
            && (outcome.Ok? <==> s'.orders != s.orders && r.ending == Commits)
  {
    MissingIffLacks(r);
    hide Products, Moved, LinesOf, MissingOf, Subtotal, OrderedAs, LinedAs, SomeLacks, Succeeds, TimesApplied, Lookup, Price;
    if MayOrder(r) && !SomeLacks(r) {
      StoredAsOrdered(r, cache, core);
      StorableIsFits(OrderOf(r));
      hide Storable, Fits, OrderOf;
      forall o | OrderedAs(o, r, cache, core) ensures o == OrderOf(r) {
        OneOrderAsked(o, OrderOf(r), r, cache, core);
      }
      assert |s.orders + [OrderOf(r)]| == |s.orders| + 1;
    }
  }

  // ---------------------------------------------------------------------------
  // Conservation of stock
  // ---------------------------------------------------------------------------

  function Quantity(items: seq<Item>, b: BranchId, k: Key): nat {
    if items == [] then 0
    else
      Quantity(items[..|items| - 1], b, k)
      + if (b, items[|items| - 1].product) == k then items[|items| - 1].quantity else 0
  }

  function HeldByLines(lines: seq<Line>, b: BranchId, k: Key): nat {
    if lines == [] then 0
    else
      HeldByLines(lines[..|lines| - 1], b, k)
      + if (b, lines[|lines| - 1].product) == k then lines[|lines| - 1].quantity else 0
  }

  /** Quantities of a product on stored orders. */
  function Held(orders: seq<StoredOrder>, k: Key): nat {
    if orders == [] then 0
    else Held(orders[..|orders| - 1], k) + HeldByLines(orders[|orders| - 1].lines, orders[|orders| - 1].branch, k)
  }

  function Total(s: State, k: Key): int {
    Free(s.stock, k) + Held(s.orders, k)
  }

  ghost predicate SameTotals(s: State, s': State) {
    forall k :: Total(s', k) == Total(s, k)
  }

  lemma {:induction false} MovedBy(stock: map<Key, int>, b: BranchId, items: seq<Item>, sign: int, k: Key)
    ensures Free(Moved(stock, b, items, sign), k) == Free(stock, k) + Times(sign, Quantity(items, b, k))
  {
    if items != [] {
      var n := |items| - 1;
      MovedBy(stock, b, items[..n], sign, k);
      TimesAdds(sign, Quantity(items[..n], b, k), items[n].quantity);
    } else {
      assert Times(sign, 0) == 0;
    }
    hide Times;
  }

  lemma {:induction false} LinesHoldTheItems(items: seq<Item>, lines: seq<Line>, b: BranchId, k: Key)
    requires |lines| == |items|
    requires forall i :: 0 <= i < |items| ==> lines[i].product == items[i].product && lines[i].quantity == items[i].quantity
    ensures HeldByLines(lines, b, k) == Quantity(items, b, k)
  {
    if items != [] {
      LinesHoldTheItems(items[..|items| - 1], lines[..|items| - 1], b, k);
    }
  }

  /** The three outcomes that leave stock unaccounted for: a reservation whose reply was lost; a failed transaction whose
      undo was not applied exactly once; a committed one whose reply was lost and whose undo was applied all the same. */
  predicate Leaks(r: Request) {
    && Refusal(r).None?
    && match ReplyOf(r.reserving)
       case Refused => false
       case AppliedThenLost => true
       case Applied => TimesApplied(r.undoing) != (if Stores(r) then 0 else 1) && (Stores(r) ==> r.ending != Commits)
  }

  /** What a leak adds to or takes from a product. */
  function Drift(r: Request, k: Key): int {
    var q: int := Quantity(r.items, r.branch.id, k);
    if !Leaks(r) then 0
    else if ReplyOf(r.reserving) == AppliedThenLost then -q
    else Times(TimesApplied(r.undoing), q) - if Stores(r) then 0 else q
  }

  lemma TimesUnits(q: int)
    ensures Times(-1, q) == -q && Times(1, q) == q && Times(0, q) == 0
  {
  }

  lemma HeldWith(orders: seq<StoredOrder>, o: StoredOrder, k: Key)
    ensures Held(orders + [o], k) == Held(orders, k) + HeldByLines(o.lines, o.branch, k)
  {
    assert (orders + [o])[..|orders|] == orders;
  }

  lemma StoredOrderHolds(orders: seq<StoredOrder>, r: Request, k: Key)
    requires Refusal(r).None?
    ensures Held(orders + [OrderOf(r)], k) == Held(orders, k) + Quantity(r.items, r.branch.id, k)
  {
    NothingMissing(r.items, r.answer);
    hide LinesOf, MissingOf, Find, Subtotal, Held;
    LinesHoldTheItems(r.items, OrderOf(r).lines, r.branch.id, k);
    HeldWith(orders, OrderOf(r), k);
  }

  lemma PlacementMoves(s: State, r: Request, k: Key)
    ensures Total(Place(s, r).0, k) == Total(s, k) + Drift(r, k)
  {
    hide Moved, LinesOf, MissingOf, Storable, Quantity, Held, Subtotal, Times;
    var reserved, q := Moved(s.stock, r.branch.id, r.items, -1), Quantity(r.items, r.branch.id, k);
    MovedBy(s.stock, r.branch.id, r.items, -1, k);
    MovedBy(reserved, r.branch.id, r.items, TimesApplied(r.undoing), k);
    TimesUnits(q);
    if Refusal(r).None? {
      StoredOrderHolds(s.orders, r, k);
    }
  }

  lemma TimesIsUnit(n: int, q: int)
    requires q > 0
    ensures Times(n, q) == q ==> n == 1
    ensures Times(n, q) == 0 ==> n == 0
  {
    assert (n - 1) * q == n * q - q;
  }

  lemma LeaksDrift(r: Request, k: Key)
    requires Leaks(r) && Quantity(r.items, r.branch.id, k) > 0
    ensures Drift(r, k) != 0
  {
    TimesIsUnit(TimesApplied(r.undoing), Quantity(r.items, r.branch.id, k));
    hide Times, Quantity, TimesApplied, Storable, Refusal, ReplyOf;
  }

  /** Free stock plus what stored orders hold is unchanged for every product, whatever the outcome, if and only if the
      placement is not one of the three leaks. */
  lemma StockIsConservedIffNoLeak(s: State, r: Request)
    requires r.items != [] && forall i :: 0 <= i < |r.items| ==> r.items[i].quantity >= 1
    ensures SameTotals(s, Place(s, r).0) <==> !Leaks(r)
  {
    forall k ensures !Leaks(r) ==> Total(Place(s, r).0, k) == Total(s, k) {
      PlacementMoves(s, r, k);
    }
    if Leaks(r) {
      var n := |r.items| - 1;
      var k := (r.branch.id, r.items[n].product);
      PlacementMoves(s, r, k);
      assert Quantity(r.items, r.branch.id, k) > 0;
      hide Quantity, Place, Total, Leaks;
      LeaksDrift(r, k);
    }
  }

  lemma NoLeakNoDrift(s: State, r: Request)
    ensures !Leaks(r) ==> SameTotals(s, Place(s, r).0)
  {
    forall k ensures Total(Place(s, r).0, k) == Total(s, k) + Drift(r, k) {
      PlacementMoves(s, r, k);
    }
  }

  function Run(s: State, rs: seq<Request>): State
    decreases |rs|
  {
    if rs == [] then s else Place(Run(s, rs[..|rs| - 1]), rs[|rs| - 1]).0
  }

  /** Over any run of placements without a leak no stock appears or disappears. */
  lemma {:induction false} StockIsConserved(s: State, rs: seq<Request>, k: Key)
    requires forall i :: 0 <= i < |rs| ==> !Leaks(rs[i])
    ensures Total(Run(s, rs), k) == Total(s, k)
    decreases |rs|
  {
    if rs != [] {
      StockIsConserved(s, rs[..|rs| - 1], k);
      PlacementMoves(Run(s, rs[..|rs| - 1]), rs[|rs| - 1], k);
    }
  }

  // ---------------------------------------------------------------------------
  // The service itself
  // ---------------------------------------------------------------------------

  class OrderPlacement {
    var stock: map<Key, int>
    var orders: seq<StoredOrder>
    var outbox: seq<(OrderId, EventType)>

    ghost function Snapshot(): State
      reads this
    {
      State.State(stock, orders, outbox)
    }

    constructor (stock: map<Key, int>)
      ensures Snapshot() == State.State(stock, [], [])
    {
      this.stock := stock;
      orders, outbox := [], [];
    }

    /** The product map built from the answer. */
    method ProductMap(answer: seq<(ProductId, Entry)>) returns (m: map<ProductId, Entry>)
      ensures forall id :: Find(answer, id) == if id in m then Some(m[id]) else None
    {
      m := map[];
      for i := 0 to |answer|
        invariant forall id :: Find(answer[..i], id) == if id in m then Some(m[id]) else None
      {
        assert answer[..i + 1][..i] == answer[..i];
        m := m[answer[i].0 := answer[i].1];
      }
      assert answer[..|answer|] == answer;
    }

    /** The validation loop: the lines of the items that fit, and the items that do not. */
    method CheckItems(items: seq<Item>, answer: seq<(ProductId, Entry)>)
      returns (lines: seq<Line>, unavailable: seq<Unavailable>)
      ensures lines == LinesOf(items, answer) && unavailable == MissingOf(items, answer)
    {
      var products := ProductMap(answer);
      lines, unavailable := [], [];
      for i := 0 to |items|
        invariant lines == LinesOf(items[..i], answer) && unavailable == MissingOf(items[..i], answer)
      {
        assert items[..i + 1][..i] == items[..i];
        var item := items[i];
        assert Find(answer, item.product) == if item.product in products then Some(products[item.product]) else None;
        if item.product !in products || products[item.product].available != Some(true)
           || (products[item.product].stock.Some? && products[item.product].stock.value < item.quantity) {
          var available := if item.product in products then StockOf(products[item.product]) else 0;
          unavailable := unavailable + [Unavailable(item.product, item.quantity, available)];
          continue;
        }
        lines := lines + [LineOf(item, products[item.product])];
      }
      assert items[..|items|] == items;
    }

    method SumMinor(lines: seq<Line>) returns (total: int)
      ensures total == Subtotal(lines)
    {
      total := 0;
      for i := 0 to |lines|
        invariant total == Subtotal(lines[..i])
      {
        assert lines[..i + 1][..i] == lines[..i];
        total := total + lines[i].lineTotal;
      }
      assert lines[..|lines|] == lines;
    }

    /** Core moves the free stock of every line. */
    method MoveStock(b: BranchId, items: seq<Item>, sign: int)
      modifies `stock
      ensures stock == Moved(old(stock), b, items, sign)
    {
      for i := 0 to |items|
        invariant stock == Moved(old(stock), b, items[..i], sign)
      {
        assert items[..i + 1][..i] == items[..i];
        var k := (b, items[i].product);
        stock := stock[k := Free(stock, k) + Times(sign, items[i].quantity)];
      }
      assert items[..|items|] == items;
    }

    /** The retry loop around a request: it stops at an answer or a refusal, and after the last attempt. */
    method Retry(attempts: seq<Attempt>) returns (ok: bool, applied: nat)
      ensures ok <==> Succeeds(attempts)
      ensures applied == TimesApplied(attempts)
      ensures ok ==> applied > 0
    {
      ok, applied := false, 0;
      var i := 0;
      while i < ATTEMPTS
        invariant 0 <= i < Made(attempts) || i == Made(attempts) == ATTEMPTS
        invariant !ok && applied == AppliedIn(attempts, i)
        invariant i > 0 ==> At(attempts, i - 1).Failed?
        invariant i < ATTEMPTS ==> Made(attempts) == End(attempts, i)
      {
        var outcome := At(attempts, i);
        if Applies(outcome) {
          applied := applied + 1;
        }
        i := i + 1;
        if !outcome.Failed? {
          ok := outcome.Answered?;
          return;
        }
      }
    }

    /** The transaction, and the undo when it fails or is not answered. */
    method StoreOrder(r: Request, order: StoredOrder) returns (outcome: Result<StoredOrder, PlacementError>)
      requires order == OrderOf(r)
      modifies this
      ensures (Snapshot(), outcome) == Store(old(Snapshot()), r)
      ensures outcome.Ok? ==> r.ending == Commits && Storable(outcome.value)
    {
      if Storable(order) && r.ending != RollsBack {
        outbox := outbox + PlacedEvents(|orders|, order);
        orders := orders + [order];
        if r.ending == Commits {
          return Ok(order);
        }
      }
      var _, undone := Retry(r.undoing);
      MoveStock(r.branch.id, r.items, undone);
      outcome := Err(DatabaseFailed);
    }

    /** `placeOrder`, up to the payment session of an online order. */
    method PlaceOrder(r: Request) returns (outcome: Result<StoredOrder, PlacementError>)
      modifies this
      ensures (Snapshot(), outcome) == Place(old(Snapshot()), r)
      ensures AnsweredByGuards(r, outcome)
      ensures Snapshot() != old(Snapshot()) ==> MayOrder(r) && !SomeLacks(r)
      ensures outcome.Ok? ==> Succeeds(r.reserving) && r.ending == Commits && Storable(outcome.value)
      ensures !Leaks(r) ==> SameTotals(old(Snapshot()), Snapshot())
    {
      NoLeakNoDrift(Snapshot(), r);
      RefusalsFollowTheGuards(Snapshot(), r);
      hide AnsweredByGuards, MayOrder, SomeLacks, Succeeds, Leaks, SameTotals, Store, Moved, LinesOf, MissingOf, Subtotal, Storable;
      if !r.branch.active || !r.branch.acceptsOrders || !r.branch.restaurantActive || r.rejecting {
        return Err(BranchNotAcceptingOrders);
      }
      if r.payment == Lifecycle.ONLINE && !r.onlineAllowed {
        return Err(OnlinePaymentNotAvailable);
      }
      if !r.ownAddress {
        return Err(UnAuthorised);
      }
      if |r.answer| != |r.items| {
        return Err(ProductsNotFound);
      }
      var lines, unavailable := CheckItems(r.items, r.answer);
      if unavailable != [] {
        return Err(OutOfStock(unavailable));
      }
      var subtotal := SumMinor(lines);
      var reserved, applied := Retry(r.reserving);
      if applied > 0 {
        MoveStock(r.branch.id, r.items, -1);
      }
      if !reserved {
        return Err(ReservationFailed);
      }
      var total := subtotal + r.branch.deliveryFee + SERVICE_FEE;
      var status := if r.payment == Lifecycle.COD then PLACED else PENDING_PAYMENT;
      var order := StoredOrder(r.branch.id, r.payment, status, lines, subtotal, r.branch.deliveryFee, SERVICE_FEE, total);
      outcome := StoreOrder(r, order);
    }
  }
}
