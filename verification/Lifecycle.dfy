/** The order life cycle: order rows, what each writer of a status checks and writes, and what a row's stamps say of the
    statuses it took. */
module Lifecycle {
  import opened Common
  import opened OrderStatus

  type OrderId = nat

  datatype PaymentMethod = ONLINE | COD

  datatype Role = SYSTEM_ADMIN | DELIVERY_AGENT | RESTAURANT_USER | OTHER_ROLE

  datatype ActorContext = ActorContext(
    userId: int,
    role: Role,
    restaurantId: Option<int>,
    isOwner: bool,
    branchIds: set<int>)

  datatype Order = Order(
    paymentMethod: PaymentMethod,
    restaurantId: int,
    branchId: int,
    customerId: int,
    status: Status,
    deliveryAgentId: Option<int>,
    createdAt: int,
    acceptedAt: Option<int>,
    rejectedAt: Option<int>,
    readyAt: Option<int>,
    assignedAt: Option<int>,
    pickedAt: Option<int>,
    deliveredAt: Option<int>,
    cancelledAt: Option<int>)

  function NewOrder(payBy: PaymentMethod, restaurantId: int, branchId: int, customerId: int, now: int): Order {
    Order(payBy, restaurantId, branchId, customerId,
          if payBy == COD then PLACED else PENDING_PAYMENT,
          None, now, None, None, None, None, None, None, None)
  }

  /** The row after a status update that writes at most one stamp column. */
  function Updated(o: Order, status: Status, stamp: Option<Stamp>, now: int): Order {
    var o := o.(status := status);
    match stamp
    case None => o
    case Some(ACCEPTED_AT) => o.(acceptedAt := Some(now))
    case Some(REJECTED_AT) => o.(rejectedAt := Some(now))
    case Some(READY_AT) => o.(readyAt := Some(now))
    case Some(ASSIGNED_AT) => o.(assignedAt := Some(now))
    case Some(PICKED_AT) => o.(pickedAt := Some(now))
    case Some(DELIVERED_AT) => o.(deliveredAt := Some(now))
    case Some(CANCELLED_AT) => o.(cancelledAt := Some(now))
  }

  /** Which table actor an HTTP caller acts as; `None` is the authorisation error.
      An unset agent column reads as the number 0, as in the original comparison. */
  function ResolveStatusActor(actor: ActorContext, o: Order): Option<StatusActor> {
    if actor.role == SYSTEM_ADMIN then Some(ADMIN)
    else if actor.role == DELIVERY_AGENT
            && actor.userId == (if o.deliveryAgentId.Some? then o.deliveryAgentId.value else 0) then Some(AGENT)
    else if actor.role == RESTAURANT_USER then
      if actor.restaurantId != Some(o.restaurantId) then None
      else if !actor.isOwner && o.branchId !in actor.branchIds then None
      else Some(RESTAURANT_MEMBER)
    else if actor.userId == o.customerId then Some(CUSTOMER)
    else None
  }

  /** The groups of callers: administrators; the order's agent; the users of its restaurant who own it or have its branch; and
      its customer, unless that is a restaurant user. No caller acts as the system. */
  ghost predicate ActsAs(actor: ActorContext, o: Order, who: StatusActor) {
    var isAgent := actor.role == DELIVERY_AGENT
                   && actor.userId == (if o.deliveryAgentId.Some? then o.deliveryAgentId.value else 0);
    match who
    case ADMIN => actor.role == SYSTEM_ADMIN
    case AGENT => isAgent
    case RESTAURANT_MEMBER =>
      && actor.role == RESTAURANT_USER && actor.restaurantId == Some(o.restaurantId)
      && (actor.isOwner || o.branchId in actor.branchIds)
    case CUSTOMER => actor.role !in {SYSTEM_ADMIN, RESTAURANT_USER} && !isAgent && actor.userId == o.customerId
    case SYSTEM => false
  }

  lemma CallersActAsTheirGroup(actor: ActorContext, o: Order)
    ensures forall who :: ResolveStatusActor(actor, o) == Some(who) <==> ActsAs(actor, o, who)
  {
  }

  /** The row after a status was written: the status, the current time in the column of its own, if it has one, and all
      else as before. */
  ghost predicate WrittenAs(o: Order, o': Order, status: Status, now: int) {
    match status
    case ACCEPTED => o' == o.(status := ACCEPTED, acceptedAt := Some(now))
    case REJECTED => o' == o.(status := REJECTED, rejectedAt := Some(now))
    case READY => o' == o.(status := READY, readyAt := Some(now))
    case ASSIGNED => o' == o.(status := ASSIGNED, assignedAt := Some(now))
    case PICKED => o' == o.(status := PICKED, pickedAt := Some(now))
    case DELIVERED => o' == o.(status := DELIVERED, deliveredAt := Some(now))
    case CANCELLED => o' == o.(status := CANCELLED, cancelledAt := Some(now))
    case PENDING_PAYMENT | PLACED | PREPARING => o' == o.(status := status)
  }

  lemma UpdatedIsWritten(o: Order, status: Status, now: int)
    ensures WrittenAs(o, Updated(o, status, ColumnOf(status), now), status, now)
  {
  }

  /** The event an HTTP status update writes to the outbox. */
  function OutboxEventForStatus(s: Status): Option<EventType> {
    match s
    case ACCEPTED => Some(ORDER_ACCEPTED)
    case REJECTED => Some(ORDER_REJECTED)
    case CANCELLED => Some(ORDER_CANCELLED)
    case _ => None
  }

  // ---------------------------------------------------------------------------
  // Worlds and commands
  // ---------------------------------------------------------------------------

  datatype Visit = Visit(status: Status, at: int)

  /** Order rows and outbox, together with the history of statuses each order took. */
  datatype World = World(
    orders: map<OrderId, Order>,
    outbox: seq<(OrderId, EventType)>,
    trail: map<OrderId, seq<Visit>>,
    now: int)

  const EMPTY_WORLD := World(map[], [], map[], 0)

  datatype Command =
    | Tick(elapsed: nat)
    | Place(id: OrderId, paymentMethod: PaymentMethod, restaurantId: int, branchId: int, customerId: int)
    | Capture(id: OrderId)
    | ClaimReady(id: OrderId, agentId: int)
    | Pickup(id: OrderId, agentId: int)
    | Deliver(id: OrderId, agentId: int)
    | HttpUpdate(id: OrderId, actor: ActorContext, next: Status, reason: Option<string>)

  function Write(w: World, id: OrderId, o: Order, event: Option<EventType>): World
    requires id in w.trail
  {
    w.(orders := w.orders[id := o],
       outbox := w.outbox + (if event.Some? then [(id, event.value)] else []),
       trail := w.trail[id := w.trail[id] + [Visit(o.status, w.now)]])
  }

  /** The check of a command on the row as it reads it: status, stamp and event to write, or `None` when it is refused. */
  function Change(c: Command, o: Order): Option<(Status, Option<Stamp>, Option<EventType>)> {
    match c
    case Tick(_) => None
    case Place(_, _, _, _, _) => None
    case Capture(_) =>
      if o.status == PENDING_PAYMENT then Some((PLACED, None, Some(ORDER_PLACED))) else None
    case ClaimReady(_, _) =>
      if o.status == READY && o.deliveryAgentId.None? then Some((ASSIGNED, Some(ASSIGNED_AT), None)) else None
    case Pickup(_, agentId) =>
      if o.deliveryAgentId == Some(agentId) && o.status == ASSIGNED then Some((PICKED, Some(PICKED_AT), None)) else None
    case Deliver(_, agentId) =>
      if o.deliveryAgentId == Some(agentId) && o.status == PICKED
      then Some((DELIVERED, Some(DELIVERED_AT), Some(ORDER_DELIVERED))) else None
    case HttpUpdate(_, actor, next, reason) =>
      var who := ResolveStatusActor(actor, o);
      if who.None? then None
      else
        match AssertTransition(o.status, next, who.value, reason)
        case Err(_) => None
        case Ok(stamp) => Some((next, stamp, OutboxEventForStatus(next)))
  }

  // ---------------------------------------------------------------------------
  // Writes the table allows
  // ---------------------------------------------------------------------------

  /** Row `o` became `o'` by an entry of the table, by one of its actors, with its stamp and nothing else. */
  ghost predicate TableEdge(o: Order, o': Order, who: StatusActor, now: int) {
    var rule := Transition(o.status, o'.status);
    && rule.Some?
    && who in rule.value.actors
    && o'.(deliveryAgentId := o.deliveryAgentId) == Updated(o, o'.status, rule.value.stamp, now)
    && (o'.deliveryAgentId == o.deliveryAgentId
        || (o.deliveryAgentId.None? && o.status == READY && o'.status == ASSIGNED))
  }

  /** ... and with a reason where the table asks for one. */
  ghost predicate Lawful(o: Order, o': Order, who: StatusActor, reason: Option<string>, now: int) {
    TableEdge(o, o', who, now) && (Transition(o.status, o'.status).value.requiresReason ==> HasReason(reason))
  }

  // ---------------------------------------------------------------------------
  // Trails along the table
  // ---------------------------------------------------------------------------

  ghost predicate Visited(trail: seq<Visit>, s: Status) {
    exists i :: 0 <= i < |trail| && trail[i].status == s
  }

  /** The trail is a path of the table that starts where orders start and ends at the row's status. */
  ghost predicate TrailInv(o: Order, trail: seq<Visit>, now: int) {
    && trail != []
    && trail[0] == Visit(if o.paymentMethod == COD then PLACED else PENDING_PAYMENT, o.createdAt)
    && trail[|trail| - 1].status == o.status
    && trail[|trail| - 1].at <= now
    && (forall i :: 1 <= i < |trail| ==>
          && Transition(trail[i - 1].status, trail[i].status).Some?
          && trail[i - 1].at <= trail[i].at)
    && (forall i, j :: 0 <= i < j < |trail| ==> Rank(trail[i].status) < Rank(trail[j].status))
    && (forall i, j :: 0 <= i < j < |trail| ==> trail[i].at <= trail[j].at)
    && |trail| <= 1 + Rank(o.status)
  }

  function StatusOf(e: EventType): Status {
    match e
    case ORDER_PLACED => PLACED
    case ORDER_ACCEPTED => ACCEPTED
    case ORDER_REJECTED => REJECTED
    case ORDER_DELIVERED => DELIVERED
    case ORDER_CANCELLED => CANCELLED
    case PAYMENT_COMPLETED | PAYMENT_FAILED => PENDING_PAYMENT
  }

  /** Events the status writers emit on every visit (order.delivered is emitted by `Deliver` alone). */
  const STATUS_EVENTS := {ORDER_PLACED, ORDER_ACCEPTED, ORDER_REJECTED, ORDER_CANCELLED}

  /** The stamp columns in the order in which a history lists them, with their statuses. */
  function Stamps(o: Order): seq<Option<int>> {
    [o.acceptedAt, o.rejectedAt, o.readyAt, o.assignedAt, o.pickedAt, o.deliveredAt, o.cancelledAt]
  }

  /** The position of a status among the stamp columns. */
  function Slot(s: Status): int {
    match s
    case PENDING_PAYMENT | PLACED => -1
    case ACCEPTED | PREPARING => 0
    case REJECTED => 1
    case READY => 2
    case ASSIGNED => 3
    case PICKED => 4
    case DELIVERED => 5
    case CANCELLED => 6
  }

  /** No column beyond the current status is set. */
  ghost predicate LaterStampsUnset(o: Order) {
    forall k :: Slot(o.status) < k < 7 ==> Stamps(o)[k].None?
  }

  function Entry(status: Status, ts: Option<int>): seq<Visit> {
    if ts.Some? then [Visit(status, ts.value)] else []
  }

  /** Where a history starts. */
  function FirstEntries(o: Order): seq<Visit> {
    if o.paymentMethod == ONLINE then [Visit(PENDING_PAYMENT, o.createdAt), Visit(PLACED, o.createdAt)]
    else [Visit(PLACED, o.createdAt)]
  }

  const STAMPED: seq<Status> := [ACCEPTED, REJECTED, READY, ASSIGNED, PICKED, DELIVERED, CANCELLED]

  function HistoryUpTo(o: Order, k: nat): seq<Visit>
    requires k <= 7
  {
    if k == 0 then FirstEntries(o) else HistoryUpTo(o, k - 1) + Entry(STAMPED[k - 1], Stamps(o)[k - 1])
  }

  /** The history shown for a row. */
  function History(o: Order): seq<Visit> {
    HistoryUpTo(o, 7)
  }

  /** What a visit looks like in a history: PREPARING leaves no stamp, PLACED is dated by the row's creation. */
  function Shown(v: Visit, createdAt: int): seq<Visit> {
    if v.status == PREPARING then []
    else if v.status == PLACED then [Visit(PLACED, createdAt)]
    else [v]
  }

  function ShownTrail(trail: seq<Visit>, createdAt: int): seq<Visit>
    decreases |trail|
  {
    if trail == [] then []
    else ShownTrail(trail[..|trail| - 1], createdAt) + Shown(trail[|trail| - 1], createdAt)
  }

  /** The history agrees with the trail. A PLACED entry is shown for an unpaid online order
      although the order never was PLACED. */
  ghost predicate HistoryMatches(o: Order, trail: seq<Visit>) {
    if o.paymentMethod == COD || Visited(trail, PLACED)
    then History(o) == ShownTrail(trail, o.createdAt)
    else
      && |History(o)| >= 2
      && History(o)[1] == Visit(PLACED, o.createdAt)
      && History(o)[..1] + History(o)[2..] == ShownTrail(trail, o.createdAt)
      && o.status in {PENDING_PAYMENT, CANCELLED}
  }

  ghost predicate StampInv(o: Order, trail: seq<Visit>) {
    LaterStampsUnset(o) && HistoryMatches(o, trail)
  }

  lemma VisitedAppend(trail: seq<Visit>, v: Visit, s: Status)
    ensures Visited(trail + [v], s) <==> Visited(trail, s) || v.status == s
  {
    var t := trail + [v];
    if v.status == s {
      assert t[|trail|].status == s;
    }
    if Visited(trail, s) {
      var i :| 0 <= i < |trail| && trail[i].status == s;
      assert t[i].status == s;
    }
  }

  lemma RankGrows(from: Status, to: Status)
    requires Transition(from, to).Some?
    ensures Rank(from) < Rank(to)
  {
  }

  lemma TrailStep(o: Order, o': Order, trail: seq<Visit>, now: int)
    requires TrailInv(o, trail, now)
    requires Transition(o.status, o'.status).Some?
    requires o'.paymentMethod == o.paymentMethod && o'.createdAt == o.createdAt
    ensures TrailInv(o', trail + [Visit(o'.status, now)], now)
    ensures !Visited(trail, o'.status)
  {
    RankGrows(o.status, o'.status);
    hide Transition, Rank;
    var longer := trail + [Visit(o'.status, now)];
    forall i | 1 <= i < |longer| ensures Transition(longer[i - 1].status, longer[i].status).Some? {
      assert i < |trail| ==> longer[i] == trail[i];
    }
  }

  lemma {:induction false} HistorySkips(o: Order, j: nat, k: nat)
    requires j <= k <= 7
    requires forall i :: j <= i < k ==> Stamps(o)[i].None?
    ensures HistoryUpTo(o, k) == HistoryUpTo(o, j)
  {
    if j < k {
      HistorySkips(o, j, k - 1);
    }
  }

  lemma NewOrderInv(o: Order, now: int)
    requires o == NewOrder(o.paymentMethod, o.restaurantId, o.branchId, o.customerId, now)
    ensures TrailInv(o, [Visit(o.status, now)], now)
    ensures StampInv(o, [Visit(o.status, now)])
  {
    hide Transition, Rank;
    var t := [Visit(o.status, now)];
    assert t[..0] == [];
    assert ShownTrail(t, o.createdAt) == ShownTrail(t[..0], o.createdAt) + Shown(t[0], o.createdAt);
    HistorySkips(o, 0, 7);
    assert t[0].status == o.status;
    if o.paymentMethod == ONLINE {
      assert History(o)[..1] + History(o)[2..] == t;
    }
  }

  lemma ChangeFollowsTable(c: Command, o: Order)
    requires Change(c, o).Some?
    ensures var (next, stamp, event) := Change(c, o).value;
            && Transition(o.status, next).Some?
            && Transition(o.status, next).value.stamp == stamp
            && (event.Some? ==> event.value in STATUS_EVENTS + {ORDER_DELIVERED} && StatusOf(event.value) == next)
            && (event.None? ==> forall e :: e in STATUS_EVENTS ==> StatusOf(e) != next)
  {
  }

  lemma LaterNow(o: Order, trail: seq<Visit>, now: int, later: int)
    requires TrailInv(o, trail, now) && now <= later
    ensures TrailInv(o, trail, later)
  {
  }

  lemma StampsAfter(o: Order, next: Status, now: int, k: nat)
    requires Transition(o.status, next).Some? && k < 7
    ensures Stamps(Updated(o, next, Transition(o.status, next).value.stamp, now))[k]
            == if k == Slot(next) && next !in {PLACED, PREPARING} then Some(now) else Stamps(o)[k]
  {
  }

  lemma {:induction false} HistoryAgrees(o: Order, o': Order, k: nat)
    requires k <= 7 && FirstEntries(o) == FirstEntries(o')
    requires forall i :: 0 <= i < k ==> Stamps(o)[i] == Stamps(o')[i]
    ensures HistoryUpTo(o, k) == HistoryUpTo(o', k)
  {
    if k > 0 {
      HistoryAgrees(o, o', k - 1);
    }
  }

  lemma MatchStep(o: Order, o': Order, trail: seq<Visit>, now: int)
    requires HistoryMatches(o, trail)
    requires Transition(o.status, o'.status).Some?
    requires o'.createdAt == o.createdAt && o'.paymentMethod == o.paymentMethod
    requires History(o') == if o'.status in {PLACED, PREPARING} then History(o) else History(o) + [Visit(o'.status, now)]
    requires o.status == PENDING_PAYMENT ==>
               && o.paymentMethod == ONLINE
               && History(o) == [Visit(PENDING_PAYMENT, o.createdAt), Visit(PLACED, o.createdAt)]
               && trail == [Visit(PENDING_PAYMENT, o.createdAt)]
    ensures HistoryMatches(o', trail + [Visit(o'.status, now)])
  {
    hide History;
    var v := Visit(o'.status, now);
    var trail' := trail + [v];
    assert trail'[..|trail'| - 1] == trail;
    assert ShownTrail(trail', o.createdAt) == ShownTrail(trail, o.createdAt) + Shown(v, o.createdAt);
    VisitedAppend(trail, v, PLACED);
    if o.status == PENDING_PAYMENT {
      assert ShownTrail(trail, o.createdAt) == trail;
    }
  }

  /** A stamp beyond the ones already set adds its visit at the end of the history. */
  lemma HistoryAfter(o: Order, next: Status, now: int)
    requires Transition(o.status, next).Some? && next !in {PLACED, PREPARING}
    requires forall k :: Slot(next) <= k < 7 ==> Stamps(o)[k].None?
    ensures History(Updated(o, next, Transition(o.status, next).value.stamp, now)) == History(o) + [Visit(next, now)]
  {
    var u := Updated(o, next, Transition(o.status, next).value.stamp, now);
    var j := Slot(next);
    forall k | 0 <= k < 7
      ensures Stamps(u)[k] == if k == j then Some(now) else Stamps(o)[k]
    {
      StampsAfter(o, next, now, k);
    }
    HistoryAgrees(o, u, j);
    HistorySkips(o, j, 7);
    HistorySkips(u, j + 1, 7);
    assert STAMPED[j] == next;
  }

  lemma HistoryStep(o: Order, u: Order, trail: seq<Visit>, now: int)
    requires TrailInv(o, trail, now) && StampInv(o, trail)
    requires Transition(o.status, u.status).Some?
    requires u == Updated(o, u.status, Transition(o.status, u.status).value.stamp, now)
    ensures u.createdAt == o.createdAt && u.paymentMethod == o.paymentMethod
    ensures History(u) == if u.status in {PLACED, PREPARING} then History(o) else History(o) + [Visit(u.status, now)]
    ensures o.status == PENDING_PAYMENT ==>
              && o.paymentMethod == ONLINE
              && History(o) == [Visit(PENDING_PAYMENT, o.createdAt), Visit(PLACED, o.createdAt)]
              && trail == [Visit(PENDING_PAYMENT, o.createdAt)]
  {
    if u.status in {PLACED, PREPARING} {
      HistoryAgrees(o, u, 7);
    } else {
      HistoryAfter(o, u.status, now);
    }
    if o.status == PENDING_PAYMENT {
      HistorySkips(o, 0, 7);
    }
  }

  lemma StampStep(o: Order, o': Order, trail: seq<Visit>, now: int)
    requires TrailInv(o, trail, now) && StampInv(o, trail)
    requires Transition(o.status, o'.status).Some?
    requires o'.(deliveryAgentId := o.deliveryAgentId)
             == Updated(o, o'.status, Transition(o.status, o'.status).value.stamp, now)
    ensures StampInv(o', trail + [Visit(o'.status, now)])
  {
    var u := Updated(o, o'.status, Transition(o.status, o'.status).value.stamp, now);
    forall k | 0 <= k < 7 ensures Stamps(o')[k] == Stamps(u)[k] {
    }
    forall k | Slot(o'.status) < k < 7 ensures Stamps(o')[k].None? {
      StampsAfter(o, o'.status, now, k);
    }
    HistoryAgrees(o', u, 7);
    HistoryStep(o, u, trail, now);
    MatchStep(o, o', trail, now);
  }

  lemma PathIsShort(o: Order, trail: seq<Visit>, now: int)
    requires TrailInv(o, trail, now)
    ensures |trail| - 1 <= 7
  {
  }

  // ---------------------------------------------------------------------------
  // History rebuilt from the stamps
  // ---------------------------------------------------------------------------

  method Push(out: seq<Visit>, status: Status, ts: Option<int>) returns (r: seq<Visit>)
    ensures r == out + Entry(status, ts)
  {
    r := out;
    if ts.Some? {
      r := r + [Visit(status, ts.value)];
    }
  }

  method BuildHistory(o: Order) returns (out: seq<Visit>)
    ensures out == History(o)
  {
    out := [];
    if o.paymentMethod == ONLINE {
      out := Push(out, PENDING_PAYMENT, Some(o.createdAt));
      out := Push(out, PLACED, Some(o.createdAt));
    } else {
      out := Push(out, PLACED, Some(o.createdAt));
    }
    assert out == HistoryUpTo(o, 0);
    out := Push(out, ACCEPTED, o.acceptedAt);
    out := Push(out, REJECTED, o.rejectedAt);
    assert out == HistoryUpTo(o, 2);
    out := Push(out, READY, o.readyAt);
    out := Push(out, ASSIGNED, o.assignedAt);
    assert out == HistoryUpTo(o, 4);
    out := Push(out, PICKED, o.pickedAt);
    out := Push(out, DELIVERED, o.deliveredAt);
    assert out == HistoryUpTo(o, 6);
    out := Push(out, CANCELLED, o.cancelledAt);
  }

  /** A trail whose times rise from the row's creation on. */
  ghost predicate RisesFrom(trail: seq<Visit>, createdAt: int, now: int) {
    && (forall i :: 0 <= i < |trail| ==> createdAt <= trail[i].at <= now)
    && (forall i, j :: 0 <= i < j < |trail| ==> trail[i].at <= trail[j].at)
    && (trail != [] ==> trail[0].at == createdAt && trail[0].status != PREPARING)
    && (forall i :: 2 <= i < |trail| ==> trail[i].status != PLACED)
  }

  lemma {:induction false} ShownTrailIsOrdered(trail: seq<Visit>, createdAt: int, now: int)
    requires RisesFrom(trail, createdAt, now)
    ensures var s := ShownTrail(trail, createdAt);
            && (forall i :: 0 <= i < |s| ==> trail != [] && createdAt <= s[i].at <= trail[|trail| - 1].at)
            && (forall i, j :: 0 <= i < j < |s| ==> s[i].at <= s[j].at)
            && (trail != [] ==> s != [] && s[0].at == createdAt)
    decreases |trail|
  {
    if trail != [] {
      var n := |trail| - 1;
      ShownTrailIsOrdered(trail[..n], createdAt, now);
      assert createdAt <= trail[n].at && trail[0].at == createdAt;
      assert n > 0 ==> trail[n - 1].at <= trail[n].at;
      assert n == 0 || trail[n].status != PLACED || trail[..n] == [trail[0]];
      hide RisesFrom;
    }
  }

  /** An entry inserted second, at the time of the first. */
  lemma InsertedEntry(h: seq<Visit>, s: seq<Visit>, createdAt: int, now: int)
    requires |h| >= 2 && h[1].at == createdAt && h[..1] + h[2..] == s
    requires s[0].at == createdAt
    requires forall i :: 0 <= i < |s| ==> s[i].at <= now && createdAt <= s[i].at
    requires forall i, j :: 0 <= i < j < |s| ==> s[i].at <= s[j].at
    ensures h != s
    ensures forall i, j :: 0 <= i < j < |h| ==> h[i].at <= h[j].at <= now
  {
    assert |h| == |s| + 1 && h[0] == s[0];
    assert forall i :: 2 <= i < |h| ==> h[i] == s[i - 1];
  }

  lemma TrailRises(o: Order, trail: seq<Visit>, now: int)
    requires TrailInv(o, trail, now)
    ensures trail != [] && RisesFrom(trail, o.createdAt, now)
  {
    hide Transition;
    forall i | 2 <= i < |trail| ensures trail[i].status != PLACED {
      assert Rank(trail[0].status) < Rank(trail[1].status) < Rank(trail[i].status);
    }
  }

  lemma HistoryIsExact(o: Order, trail: seq<Visit>, now: int)
    requires TrailInv(o, trail, now) && StampInv(o, trail)
    ensures History(o) == ShownTrail(trail, o.createdAt) <==> o.paymentMethod == COD || Visited(trail, PLACED)
    ensures forall i, j :: 0 <= i < j < |History(o)| ==> History(o)[i].at <= History(o)[j].at <= now
  {
    TrailRises(o, trail, now);
    ShownTrailIsOrdered(trail, o.createdAt, now);
    assert trail[|trail| - 1].at <= now;
    hide RisesFrom, TrailInv, History, ShownTrail, LaterStampsUnset, Visited;
    var h, s := History(o), ShownTrail(trail, o.createdAt);
    assert if o.paymentMethod == COD || Visited(trail, PLACED) then h == s
           else |h| >= 2 && h[1] == Visit(PLACED, o.createdAt) && h[..1] + h[2..] == s;
    hide HistoryMatches, StampInv;
    if !(o.paymentMethod == COD || Visited(trail, PLACED)) {
      InsertedEntry(h, s, o.createdAt, now);
    }
  }
}
