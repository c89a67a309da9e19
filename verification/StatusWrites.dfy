/** The writers of an order's status. All but the conditional claim read and check the row first and write it later by its
    public id alone; an HTTP update then inserts its event in a statement of its own. Anything may happen in between, and
    a write or an insert may never come. */
module StatusWrites {
  import opened Common
  import opened OrderStatus
  import opened Lifecycle

  type Pid = nat

  /** A writer that passed its check: on whose behalf and with what it will write, the status it saw, and how many statuses
      the order had taken by then. */
  datatype Intent = Intent(
    command: Command,
    who: StatusActor,
    next: Status,
    stamp: Option<Stamp>,
    event: Option<EventType>,
    seen: Status,
    at: nat)

  /** Rows, outbox and trails, the writers between check and write, and the committed HTTP updates whose event is not
      inserted: yet, or for good. */
  datatype State = State(world: World, intents: map<Pid, Intent>, owed: map<Pid, (OrderId, EventType)>)

  datatype Event =
    | Direct(command: Command)
    | Check(pid: Pid, command: Command)
    | Finish(pid: Pid, commits: bool)
    | InsertEvent(pid: Pid)

  const START := State(EMPTY_WORLD, map[], map[])

  /** The commands that are one statement or one row's first transaction. */
  predicate IsDirect(c: Command) {
    c.Tick? || c.Place? || c.ClaimReady?
  }

  /** Who acts in a command on a row. */
  function ActorOf(c: Command, o: Order): Option<StatusActor> {
    match c
    case Capture(_) => Some(SYSTEM)
    case ClaimReady(_, _) => Some(SYSTEM)
    case Pickup(_, _) => Some(AGENT)
    case Deliver(_, _) => Some(AGENT)
    case HttpUpdate(_, actor, _, _) => ResolveStatusActor(actor, o)
    case _ => None
  }

  function ReasonOf(c: Command): Option<string> {
    if c.HttpUpdate? then c.reason else None
  }

  function AfterDirect(w: World, c: Command): World {
    match c
    case Tick(d) => w.(now := w.now + d)
    case Place(id, payBy, restaurantId, branchId, customerId) =>
      if id in w.orders || id in w.trail then w
      else
        var o := NewOrder(payBy, restaurantId, branchId, customerId, w.now);
        Write(w.(trail := w.trail[id := []]), id, o, if o.status == PLACED then Some(ORDER_PLACED) else None)
    case ClaimReady(id, agentId) =>
      if id !in w.orders || id !in w.trail || Change(c, w.orders[id]).None? then w
      else Write(w, id, Updated(w.orders[id], ASSIGNED, Some(ASSIGNED_AT), w.now).(deliveryAgentId := Some(agentId)), None)
    case _ => w
  }

  function AfterCheck(s: State, pid: Pid, c: Command): State {
    if IsDirect(c) || pid in s.intents || pid in s.owed || c.id !in s.world.orders || c.id !in s.world.trail then s
    else
      var o := s.world.orders[c.id];
      match Change(c, o)
      case None => s
      case Some((next, stamp, event)) =>
        var who := if ActorOf(c, o).Some? then ActorOf(c, o).value else SYSTEM;
        s.(intents := s.intents[pid := Intent(c, who, next, stamp, event, o.status, |s.world.trail[c.id]|)])
  }

  /** The row a writer leaves. */
  function Written(w: World, i: Intent): Order
    requires !IsDirect(i.command) && i.command.id in w.orders
  {
    Updated(w.orders[i.command.id], i.next, i.stamp, w.now)
  }

  /** UPDATE by public id alone. The other writers insert their event in the same transaction, an HTTP update owes it. */
  function AfterWrite(s: State, pid: Pid, i: Intent): State
    requires !IsDirect(i.command) && i.command.id in s.world.orders && i.command.id in s.world.trail
  {
    var id := i.command.id;
    State(Write(s.world, id, Written(s.world, i), if i.command.HttpUpdate? then None else i.event),
          s.intents - {pid},
          if i.command.HttpUpdate? && i.event.Some? then s.owed[pid := (id, i.event.value)] else s.owed)
  }

  function Step(s: State, e: Event): State {
    match e
    case Direct(c) => s.(world := AfterDirect(s.world, c))
    case Check(pid, c) => AfterCheck(s, pid, c)
    case Finish(pid, commits) =>
      if pid !in s.intents then s
      else if !commits || IsDirect(s.intents[pid].command) then s.(intents := s.intents - {pid})
      else if s.intents[pid].command.id !in s.world.orders || s.intents[pid].command.id !in s.world.trail then s
      else AfterWrite(s, pid, s.intents[pid])
    case InsertEvent(pid) =>
      if pid !in s.owed then s
      else s.(world := s.world.(outbox := s.world.outbox + [s.owed[pid]]), owed := s.owed - {pid})
  }

  function Run(s: State, es: seq<Event>): State
    decreases |es|
  {
    if es == [] then s else Step(Run(s, es[..|es| - 1]), es[|es| - 1])
  }

  lemma RunSnoc(s: State, es: seq<Event>, e: Event)
    ensures Run(s, es + [e]) == Step(Run(s, es), e)
  {
    assert (es + [e])[..|es|] == es;
  }

  // ---------------------------------------------------------------------------
  // What every run keeps
  // ---------------------------------------------------------------------------

  /** What a check leaves behind: a change its actor was allowed to make to the status seen; and if the order has taken no
      status since, that is still its status. */
  ghost predicate IntentInv(w: World, i: Intent) {
    && !IsDirect(i.command)
    && i.command.id in w.orders && i.command.id in w.trail
    && AssertTransition(i.seen, i.next, i.who, ReasonOf(i.command)) == Ok(i.stamp)
    && (i.event.Some? ==> i.event.value in STATUS_EVENTS + {ORDER_DELIVERED} && StatusOf(i.event.value) == i.next)
    && (i.event.None? ==> forall e :: e in STATUS_EVENTS ==> StatusOf(e) != i.next)
    && (i.command.HttpUpdate? ==> i.who != SYSTEM && i.event !in {Some(ORDER_PLACED), Some(ORDER_DELIVERED)})
    && i.at <= |w.trail[i.command.id]|
    && (i.at == |w.trail[i.command.id]| ==> w.orders[i.command.id].status == i.seen)
  }

  ghost predicate Inv(s: State) {
    && s.world.orders.Keys == s.world.trail.Keys
    && (forall id :: id in s.world.orders ==> s.world.trail[id] != [])
    && (forall pid :: pid in s.intents ==> pid !in s.owed && IntentInv(s.world, s.intents[pid]))
  }

  /** A step writes the status of at most one order: its trail grows by the status written, or its row stays. */
  lemma RowsAndTrails(s: State, e: Event, id: OrderId)
    requires s.world.orders.Keys == s.world.trail.Keys && id in s.world.orders
    ensures var w, w' := s.world, Step(s, e).world;
            && id in w'.orders && id in w'.trail && w'.now >= w.now
            && ((w'.orders[id] == w.orders[id] && w'.trail[id] == w.trail[id])
                || w'.trail[id] == w.trail[id] + [Visit(w'.orders[id].status, w.now)])
  {
    hide Change, Updated, NewOrder;
  }

  lemma CheckedIsAllowed(c: Command, o: Order)
    requires !IsDirect(c) && Change(c, o).Some?
    ensures var (next, stamp, event) := Change(c, o).value;
            && ActorOf(c, o).Some?
            && AssertTransition(o.status, next, ActorOf(c, o).value, ReasonOf(c)) == Ok(stamp)
            && (event.Some? ==> event.value in STATUS_EVENTS + {ORDER_DELIVERED} && StatusOf(event.value) == next)
            && (event.None? ==> forall e :: e in STATUS_EVENTS ==> StatusOf(e) != next)
            && (c.HttpUpdate? ==> ActorOf(c, o) != Some(SYSTEM) && event !in {Some(ORDER_PLACED), Some(ORDER_DELIVERED)})
  {
    ChangeFollowsTable(c, o);
  }

  lemma IntentSurvives(s: State, e: Event, i: Intent)
    requires s.world.orders.Keys == s.world.trail.Keys && IntentInv(s.world, i)
    ensures IntentInv(Step(s, e).world, i)
  {
    RowsAndTrails(s, e, i.command.id);
    hide Step, AssertTransition, StatusOf;
  }

  lemma KeysStayEqual(s: State, e: Event)
    requires s.world.orders.Keys == s.world.trail.Keys && forall id :: id in s.world.orders ==> s.world.trail[id] != []
    ensures var w' := Step(s, e).world;
            w'.orders.Keys == w'.trail.Keys && forall id :: id in w'.orders ==> w'.trail[id] != []
  {
    hide Change, Updated, NewOrder;
  }

  lemma NewIntent(s: State, e: Event, pid: Pid)
    requires s.world.orders.Keys == s.world.trail.Keys && pid in Step(s, e).intents
    requires pid !in s.intents || Step(s, e).intents[pid] != s.intents[pid]
    ensures IntentInv(Step(s, e).world, Step(s, e).intents[pid])
  {
    assert e.Check? && e.pid == pid;
    CheckedIsAllowed(e.command, s.world.orders[e.command.id]);
    hide Change, AssertTransition, StatusOf, ActorOf;
  }

  lemma StepKeepsInv(s: State, e: Event)
    requires Inv(s)
    ensures Inv(Step(s, e))
  {
    KeysStayEqual(s, e);
    var s' := Step(s, e);
    forall pid | pid in s'.intents ensures pid !in s'.owed && IntentInv(s'.world, s'.intents[pid]) {
      if pid in s.intents && s'.intents[pid] == s.intents[pid] {
        IntentSurvives(s, e, s.intents[pid]);
      } else {
        NewIntent(s, e, pid);
      }
    }
    hide IntentInv;
  }

  lemma {:induction false} RunKeepsInv(es: seq<Event>)
    ensures Inv(Run(START, es))
    decreases |es|
  {
    if es != [] {
      RunKeepsInv(es[..|es| - 1]);
      StepKeepsInv(Run(START, es[..|es| - 1]), es[|es| - 1]);
      hide Inv, Step;
    }
  }

  // ---------------------------------------------------------------------------
  // Who may write what
  // ---------------------------------------------------------------------------

  /** The table stamps a status the same way from wherever it is reached. */
  lemma StampBelongsToStatus(a: Status, b: Status, next: Status)
    requires Transition(a, next).Some? && Transition(b, next).Some?
    ensures Transition(a, next).value.stamp == Transition(b, next).value.stamp
  {
  }

  lemma WrittenIs(o: Order, next: Status, stamp: Option<Stamp>, now: int)
    ensures var o' := Updated(o, next, stamp, now);
            && o'.status == next && o'.paymentMethod == o.paymentMethod && o'.createdAt == o.createdAt
            && o'.restaurantId == o.restaurantId && o'.branchId == o.branchId && o'.customerId == o.customerId
            && o'.deliveryAgentId == o.deliveryAgentId && o'.(deliveryAgentId := o.deliveryAgentId) == o'
  {
  }

  lemma LawfulIffAllowed(w: World, i: Intent)
    requires IntentInv(w, i)
    ensures var o := w.orders[i.command.id];
            Lawful(o, Written(w, i), i.who, ReasonOf(i.command), w.now)
            <==> AssertTransition(o.status, i.next, i.who, ReasonOf(i.command)).Ok?
  {
    var o := w.orders[i.command.id];
    WrittenIs(o, i.next, i.stamp, w.now);
    if Transition(o.status, i.next).Some? {
      StampBelongsToStatus(i.seen, o.status, i.next);
    }
    hide Transition, Updated, HasReason, StatusOf;
  }

  /** In every run, whatever else was written in between: the row a writer that passed its check writes later is a change
      the table allows its actor, with a reason where one is due, if and only if the check would still pass for that actor
      and reason on the row as it is by then. */
  lemma WriteIsLawfulIffStillAllowed(es: seq<Event>, pid: Pid)
    requires pid in Run(START, es).intents
    ensures var s := Run(START, es);
            var i := s.intents[pid];
            && !IsDirect(i.command) && i.command.id in s.world.orders
            && var o := s.world.orders[i.command.id];
               var s' := Step(s, Finish(pid, true));
               (&& i.command.id in s'.world.orders && s'.world.orders[i.command.id] == Written(s.world, i)
                && (Lawful(o, s'.world.orders[i.command.id], i.who, ReasonOf(i.command), s.world.now)
                    <==> AssertTransition(o.status, i.next, i.who, ReasonOf(i.command)).Ok?))
  {
    RunKeepsInv(es);
    var s := Run(START, es);
    assert IntentInv(s.world, s.intents[pid]);
    LawfulIffAllowed(s.world, s.intents[pid]);
    hide Run, Lawful, AssertTransition, Written;
  }

  /** Nobody wrote the order's status since the check. */
  predicate IsFresh(s: State, pid: Pid) {
    pid in s.intents && !IsDirect(s.intents[pid].command) && s.intents[pid].command.id in s.world.trail ==>
      |s.world.trail[s.intents[pid].command.id]| == s.intents[pid].at
  }

  /** A fresh write is always allowed, and reserved to the system only when the system writes. */
  lemma FreshWritesAreLawful(es: seq<Event>, pid: Pid)
    requires pid in Run(START, es).intents && IsFresh(Run(START, es), pid)
    ensures var s := Run(START, es);
            var i := s.intents[pid];
            && !IsDirect(i.command) && i.command.id in s.world.orders
            && var o := s.world.orders[i.command.id];
               (&& o.status == i.seen
                && Lawful(o, Written(s.world, i), i.who, ReasonOf(i.command), s.world.now)
                && i.who in Transition(o.status, i.next).value.actors)
  {
    WriteIsLawfulIffStillAllowed(es, pid);
    RunKeepsInv(es);
    var s := Run(START, es);
    assert IntentInv(s.world, s.intents[pid]);
    hide Run, Transition, Updated, HasReason;
  }

  lemma NotTheSystems(seen: Status, next: Status, who: StatusActor, reason: Option<string>)
    requires AssertTransition(seen, next, who, reason).Ok? && who != SYSTEM
    ensures next !in {PENDING_PAYMENT, PLACED, ASSIGNED}
    ensures forall from :: Transition(from, next).Some? ==> Transition(from, next).value.actors != {SYSTEM}
  {
    hide HasReason;
  }

  /** No HTTP caller, however late its write, takes a step the table reserves to the system. */
  lemma NoHttpWriteIsTheSystems(es: seq<Event>, pid: Pid)
    requires pid in Run(START, es).intents && Run(START, es).intents[pid].command.HttpUpdate?
    ensures var i := Run(START, es).intents[pid];
            && i.who != SYSTEM
            && i.next !in {PENDING_PAYMENT, PLACED, ASSIGNED}
            && (forall from :: Transition(from, i.next).Some? ==> Transition(from, i.next).value.actors != {SYSTEM})
  {
    RunKeepsInv(es);
    var i := Run(START, es).intents[pid];
    assert IntentInv(Run(START, es).world, i);
    hide Run, AssertTransition, Transition, StatusOf;
    NotTheSystems(i.seen, i.next, i.who, ReasonOf(i.command));
  }

  /** The check of a command on a row, on the row's columns: an HTTP caller is of the group it acts as and may make the change,
      with a reason where one is needed; a pickup or delivery is by the row's agent; a capture is of an unpaid order. */
  ghost predicate CheckedOn(o: Order, i: Intent) {
    && i.seen == o.status
    && match i.command
       case HttpUpdate(_, actor, next, reason) =>
         && i.next == next && ActsAs(actor, o, i.who) && MayMove(i.who, o.status, next)
         && (NeedsReason(o.status, next) ==> SaysSomething(reason))
       case Pickup(_, agentId) =>
         i.next == PICKED && i.who == AGENT && o.status == ASSIGNED && o.deliveryAgentId == Some(agentId)
       case Deliver(_, agentId) =>
         i.next == DELIVERED && i.who == AGENT && o.status == PICKED && o.deliveryAgentId == Some(agentId)
       case Capture(_) => i.next == PLACED && i.who == SYSTEM && o.status == PENDING_PAYMENT
       case _ => false
  }

  lemma ChecksAreOnTheRow(c: Command, o: Order, i: Intent)
    requires !IsDirect(c) && Change(c, o).Some? && ActorOf(c, o) == Some(i.who)
    requires i.command == c && i.seen == o.status && i.next == Change(c, o).value.0
    ensures CheckedOn(o, i)
  {
    if c.HttpUpdate? {
      CallersActAsTheirGroup(c.actor, o);
      TableByActor(o.status, c.next, i.who, c.reason);
      hide Transition, HasReason, SaysSomething, ActsAs, ResolveStatusActor, MayMove, NeedsReason;
    }
  }

  /** The check of the intent was a step of the run, on the row as it was then. */
  ghost predicate CheckedInRun(es: seq<Event>, pid: Pid, i: Intent) {
    !IsDirect(i.command) && exists n :: 0 <= n < |es| && es[n] == Check(pid, i.command)
                                        && i.command.id in Run(START, es[..n]).world.orders
                                        && CheckedOn(Run(START, es[..n]).world.orders[i.command.id], i)
  }

  lemma CheckedInLongerRun(es: seq<Event>, e: Event, pid: Pid, i: Intent)
    requires CheckedInRun(es, pid, i)
    ensures CheckedInRun(es + [e], pid, i)
  {
    hide Run, CheckedOn;
    var n :| 0 <= n < |es| && es[n] == Check(pid, i.command) && i.command.id in Run(START, es[..n]).world.orders
             && CheckedOn(Run(START, es[..n]).world.orders[i.command.id], i);
    assert (es + [e])[n] == es[n] && (es + [e])[..n] == es[..n];
  }

  lemma CheckedAtTheEnd(es: seq<Event>, pid: Pid, i: Intent)
    requires !IsDirect(i.command) && i.command.id in Run(START, es).world.orders
    requires CheckedOn(Run(START, es).world.orders[i.command.id], i)
    ensures CheckedInRun(es + [Check(pid, i.command)], pid, i)
  {
    hide Run, CheckedOn;
    var longer := es + [Check(pid, i.command)];
    assert longer[|es|] == Check(pid, i.command) && longer[..|es|] == es;
  }

  /** Only a passed check leaves an intent. */
  lemma IntentsComeFromChecks(s: State, e: Event, pid: Pid)
    requires pid in Step(s, e).intents && (pid !in s.intents || Step(s, e).intents[pid] != s.intents[pid])
    ensures e.Check? && e.pid == pid && !IsDirect(e.command) && e.command.id in s.world.orders
    ensures Step(s, e).intents[pid].command == e.command
    ensures CheckedOn(s.world.orders[e.command.id], Step(s, e).intents[pid])
  {
    var o := s.world.orders[e.command.id];
    CheckedIsAllowed(e.command, o);
    ChecksAreOnTheRow(e.command, o, Step(s, e).intents[pid]);
    hide Change, AssertTransition, StatusOf, ActorOf, CheckedOn;
  }

  /** In every run every writer between check and write was checked on its order's row as it was read: an HTTP caller as a
      member of exactly the group it acts for, a pickup or delivery as the order's agent. */
  lemma {:induction false} WritersWereCheckedOnTheirRow(es: seq<Event>, pid: Pid)
    requires pid in Run(START, es).intents
    ensures CheckedInRun(es, pid, Run(START, es).intents[pid])
    decreases |es|
  {
    var n := |es| - 1;
    var init, e := es[..n], es[n];
    assert es == init + [e];
    var s, i := Run(START, init), Run(START, es).intents[pid];
    assert Run(START, es) == Step(s, e);
    if pid in s.intents && s.intents[pid] == i {
      WritersWereCheckedOnTheirRow(init, pid);
      hide CheckedInRun, Run, Step;
      CheckedInLongerRun(init, e, pid, i);
    } else {
      IntentsComeFromChecks(s, e, pid);
      hide CheckedInRun, Run, Step, CheckedOn;
      CheckedAtTheEnd(init, pid, i);
    }
  }

  /** An order is of the restaurant, branch, customer and payment method it was placed with. */
  ghost predicate PlacedInRun(es: seq<Event>, id: OrderId, o: Order) {
    exists n :: 0 <= n < |es| && es[n] == Direct(Place(id, o.paymentMethod, o.restaurantId, o.branchId, o.customerId))
  }

  predicate SameParties(o: Order, o': Order) {
    && o'.paymentMethod == o.paymentMethod && o'.restaurantId == o.restaurantId && o'.branchId == o.branchId
    && o'.customerId == o.customerId
  }

  lemma PartiesStay(s: State, e: Event, id: OrderId)
    requires Inv(s) && id in Step(s, e).world.orders
    ensures id in s.world.orders ==> SameParties(s.world.orders[id], Step(s, e).world.orders[id])
    ensures id !in s.world.orders ==>
              var o := Step(s, e).world.orders[id];
              e == Direct(Place(id, o.paymentMethod, o.restaurantId, o.branchId, o.customerId))
  {
    hide IntentInv, Change;
  }

  lemma PlacedInLongerRun(es: seq<Event>, e: Event, id: OrderId, o: Order, o': Order)
    requires PlacedInRun(es, id, o) && SameParties(o, o')
    ensures PlacedInRun(es + [e], id, o')
  {
    var n :| 0 <= n < |es| && es[n] == Direct(Place(id, o.paymentMethod, o.restaurantId, o.branchId, o.customerId));
    assert (es + [e])[n] == es[n];
  }

  /** In every run. */
  lemma {:induction false} OrdersKeepTheirParties(es: seq<Event>, id: OrderId)
    requires id in Run(START, es).world.orders
    ensures PlacedInRun(es, id, Run(START, es).world.orders[id])
    decreases |es|
  {
    var n := |es| - 1;
    var init, e := es[..n], es[n];
    assert es == init + [e];
    var s := Run(START, init);
    RunKeepsInv(init);
    assert Run(START, es) == Step(s, e);
    PartiesStay(s, e, id);
    hide Run, Step, Inv;
    if id in s.world.orders {
      OrdersKeepTheirParties(init, id);
      PlacedInLongerRun(init, e, id, s.world.orders[id], Run(START, es).world.orders[id]);
    } else {
      assert es[n] == e;
    }
  }

  /** The conditional claim is one statement, so it needs no such condition. */
  lemma ClaimsAreLawful(s: State, id: OrderId, agentId: int)
    requires id in s.world.orders
    ensures var o, w' := s.world.orders[id], Step(s, Direct(ClaimReady(id, agentId))).world;
            && id in w'.orders
            && (w'.orders[id] != o ==>
                  o.status == READY && o.deliveryAgentId.None? && Lawful(o, w'.orders[id], SYSTEM, None, s.world.now))
  {
  }

  // ---------------------------------------------------------------------------
  // Events
  // ---------------------------------------------------------------------------

  function TrailOf(w: World, id: OrderId): seq<Visit> {
    if id in w.trail then w.trail[id] else []
  }

  /** How often an order took a status. */
  function Visits(trail: seq<Visit>, status: Status): nat {
    if trail == [] then 0
    else Visits(trail[..|trail| - 1], status) + if trail[|trail| - 1].status == status then 1 else 0
  }

  lemma VisitsNext(trail: seq<Visit>, v: Visit)
    ensures forall status :: Visits(trail + [v], status) == Visits(trail, status) + if v.status == status then 1 else 0
  {
    assert (trail + [v])[..|trail|] == trail;
  }

  /** The updates whose insert of an event has not run. */
  ghost function Owing(owed: map<Pid, (OrderId, EventType)>, id: OrderId, e: EventType): set<Pid> {
    set pid | pid in owed && owed[pid] == (id, e)
  }

  /** The events of an order that are inserted or owed. */
  ghost function Booked(s: State, id: OrderId, e: EventType): nat {
    multiset(s.world.outbox)[(id, e)] + |Owing(s.owed, id, e)|
  }

  /** Every visit has its event: inserted or owed. A delivery written by an HTTP update has none. */
  ghost predicate Accounted(s: State, id: OrderId, e: EventType) {
    if e == ORDER_DELIVERED then Booked(s, id, e) <= Visits(TrailOf(s.world, id), DELIVERED)
    else Booked(s, id, e) == Visits(TrailOf(s.world, id), StatusOf(e))
  }

  /** What an event belongs to: the status written with it. */
  ghost predicate EventFits(event: Option<EventType>, status: Status) {
    && (event.Some? ==> event.value in STATUS_EVENTS + {ORDER_DELIVERED} && StatusOf(event.value) == status)
    && (event.None? ==> forall e :: e in STATUS_EVENTS ==> StatusOf(e) != status)
  }

  lemma VisitsGrow(trail: seq<Visit>, v: Visit, event: Option<EventType>, e: EventType)
    requires e in STATUS_EVENTS + {ORDER_DELIVERED} && EventFits(event, v.status)
    ensures var n, n' := Visits(trail, StatusOf(e)), Visits(trail + [v], StatusOf(e));
            if e == ORDER_DELIVERED then n' >= n + (if event == Some(e) then 1 else 0)
            else n' == n + if event == Some(e) then 1 else 0
  {
    VisitsNext(trail, v);
    hide Visits;
  }

  /** The event of a write went to the outbox or is owed. */
  ghost predicate EventWritten(s: State, s': State, pid: Pid, id: OrderId, event: Option<EventType>, inserted: bool) {
    && s'.world.outbox == s.world.outbox + (if event.Some? && inserted then [(id, event.value)] else [])
    && (if event.Some? && !inserted then pid !in s.owed && s'.owed == s.owed[pid := (id, event.value)] else s'.owed == s.owed)
  }

  lemma OwingGrows(owed: map<Pid, (OrderId, EventType)>, pid: Pid, event: (OrderId, EventType), id: OrderId, e: EventType)
    requires pid !in owed
    ensures |Owing(owed[pid := event], id, e)| == |Owing(owed, id, e)| + if event == (id, e) then 1 else 0
  {
    assert Owing(owed[pid := event], id, e) == Owing(owed, id, e) + if event == (id, e) then {pid} else {};
  }

  lemma BookedGrows(s: State, s': State, pid: Pid, id: OrderId, event: Option<EventType>, inserted: bool, jd: OrderId, e: EventType)
    requires EventWritten(s, s', pid, id, event, inserted)
    ensures Booked(s', jd, e) == Booked(s, jd, e) + if event == Some(e) && id == jd then 1 else 0
  {
    if event.Some? && inserted {
      assert multiset(s.world.outbox + [(id, event.value)]) == multiset(s.world.outbox) + multiset{(id, event.value)};
    } else {
      assert s.world.outbox + [] == s.world.outbox;
      if event.Some? {
        OwingGrows(s.owed, pid, (id, event.value), jd, e);
      }
    }
    hide Owing;
  }

  /** One write of a status with its event, inserted or owed. */
  lemma WriteAccounts(s: State, s': State, pid: Pid, id: OrderId, status: Status, event: Option<EventType>, inserted: bool,
                      jd: OrderId, e: EventType)
    requires e in STATUS_EVENTS + {ORDER_DELIVERED} && Accounted(s, jd, e) && EventFits(event, status)
    requires TrailOf(s'.world, jd) == TrailOf(s.world, jd) + if id == jd then [Visit(status, s.world.now)] else []
    requires EventWritten(s, s', pid, id, event, inserted)
    ensures Accounted(s', jd, e)
  {
    BookedGrows(s, s', pid, id, event, inserted, jd, e);
    hide Booked, EventWritten;
    var t := TrailOf(s.world, jd);
    if id == jd {
      VisitsGrow(t, Visit(status, s.world.now), event, e);
    } else {
      assert t + [] == t;
    }
    hide Visits, EventFits, TrailOf;
  }

  lemma NothingWritten(s: State, s': State, id: OrderId, e: EventType)
    requires Accounted(s, id, e) && s'.owed == s.owed
    requires s'.world.trail == s.world.trail && s'.world.outbox == s.world.outbox
    ensures Accounted(s', id, e)
  {
  }

  lemma DirectAccounts(s: State, c: Command, id: OrderId, e: EventType)
    requires e in STATUS_EVENTS + {ORDER_DELIVERED} && Accounted(s, id, e) && s.world.orders.Keys == s.world.trail.Keys
    ensures Accounted(Step(s, Direct(c)), id, e)
  {
    hide Visits, Accounted;
    var s' := Step(s, Direct(c));
    if c.Place? && c.id !in s.world.orders {
      var o := NewOrder(c.paymentMethod, c.restaurantId, c.branchId, c.customerId, s.world.now);
      WriteAccounts(s, s', 0, c.id, o.status, if o.status == PLACED then Some(ORDER_PLACED) else None, true, id, e);
    } else if c.ClaimReady? && c.id in s.world.orders && Change(c, s.world.orders[c.id]).Some? {
      WrittenIs(s.world.orders[c.id], ASSIGNED, Some(ASSIGNED_AT), s.world.now);
      hide Updated;
      WriteAccounts(s, s', 0, c.id, ASSIGNED, None, true, id, e);
    } else {
      NothingWritten(s, s', id, e);
    }
  }

  lemma FinishAccounts(s: State, pid: Pid, id: OrderId, e: EventType)
    requires e in STATUS_EVENTS + {ORDER_DELIVERED} && Accounted(s, id, e)
    requires pid in s.intents && pid !in s.owed && IntentInv(s.world, s.intents[pid])
    ensures Accounted(AfterWrite(s, pid, s.intents[pid]), id, e)
  {
    var i := s.intents[pid];
    WrittenIs(s.world.orders[i.command.id], i.next, i.stamp, s.world.now);
    hide Visits, Updated, AssertTransition, Accounted;
    WriteAccounts(s, AfterWrite(s, pid, i), pid, i.command.id, i.next, i.event, !i.command.HttpUpdate?, id, e);
  }

  lemma InsertAccounts(s: State, pid: Pid, id: OrderId, e: EventType)
    requires Accounted(s, id, e)
    ensures Accounted(Step(s, InsertEvent(pid)), id, e)
  {
    hide Visits;
    if pid in s.owed {
      assert s.owed == (s.owed - {pid})[pid := s.owed[pid]];
      OwingGrows(s.owed - {pid}, pid, s.owed[pid], id, e);
      assert multiset(s.world.outbox + [s.owed[pid]]) == multiset(s.world.outbox) + multiset{s.owed[pid]};
    }
    hide Owing;
  }

  /** In every run, whatever stale writes and lost inserts: order.placed, order.accepted, order.rejected and order.cancelled
      are in the outbox as often as the order took their status, less the inserts of HTTP updates that have not run;
      order.delivered at most as often. */
  lemma {:induction false} EventsAreVisitsLessLostInserts(es: seq<Event>, id: OrderId, e: EventType)
    requires e in STATUS_EVENTS + {ORDER_DELIVERED}
    ensures Accounted(Run(START, es), id, e)
    decreases |es|
  {
    if es != [] {
      var s, last := Run(START, es[..|es| - 1]), es[|es| - 1];
      EventsAreVisitsLessLostInserts(es[..|es| - 1], id, e);
      RunKeepsInv(es[..|es| - 1]);
      hide Accounted, AfterWrite, IntentInv, AfterDirect;
      match last
      case Direct(c) => DirectAccounts(s, c, id, e);
      case InsertEvent(pid) => InsertAccounts(s, pid, id, e);
      case Check(pid, c) => NothingWritten(s, Step(s, last), id, e);
      case Finish(pid, commits) =>
        if pid in s.intents {
          FinishAccounts(s, pid, id, e);
          NothingWritten(s, s.(intents := s.intents - {pid}), id, e);
        }
    }
  }

  /** order.placed is inserted with the status in one transaction, so it is never owed. */
  lemma {:induction false} PlacedIsNeverOwed(es: seq<Event>)
    ensures forall pid :: pid in Run(START, es).owed ==> Run(START, es).owed[pid].1 != ORDER_PLACED
    decreases |es|
  {
    if es != [] {
      var s, last := Run(START, es[..|es| - 1]), es[|es| - 1];
      PlacedIsNeverOwed(es[..|es| - 1]);
      RunKeepsInv(es[..|es| - 1]);
      assert last.Finish? && last.pid in s.intents ==> IntentInv(s.world, s.intents[last.pid]);
      hide Write, Written, AssertTransition, StatusOf, AfterDirect, Change, ActorOf;
    }
  }

  // ---------------------------------------------------------------------------
  // One order's way through the table
  // ---------------------------------------------------------------------------

  /** The step writes an order's status as an intent says. */
  predicate WritesTo(s: State, e: Event, id: OrderId) {
    && e.Finish? && e.commits && e.pid in s.intents
    && !IsDirect(s.intents[e.pid].command) && s.intents[e.pid].command.id == id
    && id in s.world.orders && id in s.world.trail
  }

  /** A step that writes an order's status along an edge the table has from the row's status, or not at all. */
  predicate TakesEdge(s: State, e: Event, id: OrderId) {
    WritesTo(s, e, id) ==> Transition(s.world.orders[id].status, s.intents[e.pid].next).Some?
  }

  predicate OnEdges(s: State, es: seq<Event>, id: OrderId)
    decreases |es|
  {
    es != [] ==>
      var n := |es| - 1;
      OnEdges(s, es[..n], id) && TakesEdge(Run(s, es[..n]), es[n], id)
  }

  /** Nobody else wrote the order's status between the check and the write of any writer of it. */
  predicate AllFresh(s: State, es: seq<Event>, id: OrderId)
    decreases |es|
  {
    es != [] ==>
      var n := |es| - 1;
      AllFresh(s, es[..n], id) && (WritesTo(Run(s, es[..n]), es[n], id) ==> IsFresh(Run(s, es[..n]), es[n].pid))
  }

  ghost predicate IsPath(trail: seq<Visit>) {
    forall i :: 1 <= i < |trail| ==> Transition(trail[i - 1].status, trail[i].status).Some?
  }

  /** The step leaves the order's row and trail. */
  predicate Leaves(s: State, e: Event, id: OrderId)
    requires id in s.world.orders && id in s.world.trail
  {
    var w' := Step(s, e).world;
    id in w'.orders && id in w'.trail && w'.orders[id] == s.world.orders[id] && w'.trail[id] == s.world.trail[id]
  }

  /** The step writes the order's row and notes the status in its trail. */
  ghost predicate Moves(s: State, e: Event, id: OrderId)
    requires id in s.world.orders && id in s.world.trail
  {
    var w, w' := s.world, Step(s, e).world;
    && id in w'.orders && id in w'.trail && w'.now == w.now
    && var o, o' := w.orders[id], w'.orders[id];
       (&& w'.trail[id] == w.trail[id] + [Visit(o'.status, w.now)]
        && o'.paymentMethod == o.paymentMethod && o'.createdAt == o.createdAt
        && (TakesEdge(s, e, id) <==> Transition(o.status, o'.status).Some?)
        && (TakesEdge(s, e, id) ==>
              o'.(deliveryAgentId := o.deliveryAgentId)
              == Updated(o, o'.status, Transition(o.status, o'.status).value.stamp, w.now)))
  }

  lemma FinishMoves(s: State, e: Event, id: OrderId)
    requires WritesTo(s, e, id) && IntentInv(s.world, s.intents[e.pid])
    ensures Moves(s, e, id)
  {
    var i, o := s.intents[e.pid], s.world.orders[id];
    WrittenIs(o, i.next, i.stamp, s.world.now);
    if Transition(o.status, i.next).Some? {
      StampBelongsToStatus(i.seen, o.status, i.next);
    }
    hide Transition, Updated, HasReason, StatusOf;
  }

  lemma ClaimMoves(s: State, e: Event, id: OrderId)
    requires id in s.world.orders && id in s.world.trail && e.Direct?
    ensures Leaves(s, e, id) || Moves(s, e, id)
  {
  }

  /** An order that was there: its row and trail stay, or both move; they move when a write reaches it. */
  lemma StepOnOrder(s: State, e: Event, id: OrderId)
    requires Inv(s) && id in s.world.orders
    ensures id in s.world.trail && (Leaves(s, e, id) || Moves(s, e, id))
    ensures WritesTo(s, e, id) ==> Moves(s, e, id)
  {
    if e.Direct? {
      ClaimMoves(s, e, id);
    } else if WritesTo(s, e, id) {
      assert IntentInv(s.world, s.intents[e.pid]);
      FinishMoves(s, e, id);
    } else {
      assert id in s.world.trail;
      hide Moves, IntentInv, Change;
    }
  }

  /** An order that was not. */
  lemma StepToOrder(s: State, e: Event, id: OrderId)
    requires Inv(s) && id !in s.world.orders && id in Step(s, e).world.orders
    ensures var w, w' := s.world, Step(s, e).world;
            && id in w'.trail && w'.now == w.now
            && var o := w'.orders[id];
               o == NewOrder(o.paymentMethod, o.restaurantId, o.branchId, o.customerId, w.now)
               && w'.trail[id] == [Visit(o.status, w.now)]
  {
    hide IntentInv, Change, Updated;
  }

  lemma OrdersStay(s: State, e: Event, id: OrderId)
    requires Inv(s) && id in s.world.orders
    ensures id in Step(s, e).world.orders
  {
    StepOnOrder(s, e, id);
    hide Inv, Step;
  }

  lemma PathGrows(trail: seq<Visit>, v: Visit)
    requires trail != []
    ensures IsPath(trail + [v]) <==> IsPath(trail) && Transition(trail[|trail| - 1].status, v.status).Some?
  {
    hide Transition;
    var t := trail + [v];
    if IsPath(t) {
      forall i | 1 <= i < |trail| ensures Transition(trail[i - 1].status, trail[i].status).Some? {
        assert t[i] == trail[i] && t[i - 1] == trail[i - 1];
      }
      assert t[|trail|] == v && t[|trail| - 1] == trail[|trail| - 1];
    }
  }

  /** Rows and trails end at the same status, in every run. */
  ghost predicate EndsAtStatus(w: World, id: OrderId) {
    id in w.orders ==> id in w.trail && w.trail[id] != [] && w.trail[id][|w.trail[id]| - 1].status == w.orders[id].status
  }

  lemma StepEnds(s: State, e: Event, id: OrderId)
    requires Inv(s) && EndsAtStatus(s.world, id)
    ensures EndsAtStatus(Step(s, e).world, id)
  {
    if id in s.world.orders {
      StepOnOrder(s, e, id);
    } else if id in Step(s, e).world.orders {
      StepToOrder(s, e, id);
    }
    hide Inv, Step, Transition, Updated, TakesEdge;
  }

  lemma PathStep(s: State, e: Event, id: OrderId)
    requires Inv(s) && EndsAtStatus(s.world, id) && id in Step(s, e).world.orders
    ensures id in s.world.orders ==> id in s.world.trail
    ensures id in Step(s, e).world.trail
    ensures IsPath(Step(s, e).world.trail[id]) <==>
            id !in s.world.orders || (IsPath(s.world.trail[id]) && TakesEdge(s, e, id))
  {
    if id !in s.world.orders {
      StepToOrder(s, e, id);
      hide Inv, Step;
    } else {
      StepOnOrder(s, e, id);
      hide Inv, Step, Transition, Updated, IsPath;
      var t := s.world.trail[id];
      if Moves(s, e, id) {
        PathGrows(t, Visit(Step(s, e).world.orders[id].status, s.world.now));
      }
    }
  }

  lemma {:induction false} PathIffOnEdges(es: seq<Event>, id: OrderId)
    ensures EndsAtStatus(Run(START, es).world, id)
    ensures if id in Run(START, es).world.orders
            then id in Run(START, es).world.trail && (IsPath(Run(START, es).world.trail[id]) <==> OnEdges(START, es, id))
            else OnEdges(START, es, id)
    decreases |es|
  {
    if es != [] {
      var s, e := Run(START, es[..|es| - 1]), es[|es| - 1];
      PathIffOnEdges(es[..|es| - 1], id);
      RunKeepsInv(es[..|es| - 1]);
      StepEnds(s, e, id);
      assert Run(START, es) == Step(s, e);
      assert OnEdges(START, es, id) <==> OnEdges(START, es[..|es| - 1], id) && TakesEdge(s, e, id);
      if id in Step(s, e).world.orders {
        PathStep(s, e, id);
      } else if id in s.world.orders {
        OrdersStay(s, e, id);
      }
      hide Run, Step, Inv, IsPath, EndsAtStatus;
    }
  }

  /** In every run, stale writes included: an order's statuses form a path of the table if and only if each write of its
      status took an edge the table had from the row's status by then. */
  lemma StatusesArePathIffOnEdges(es: seq<Event>, id: OrderId)
    requires id in Run(START, es).world.orders
    ensures var w := Run(START, es).world;
            && id in w.trail && w.trail[id] != []
            && w.trail[id][|w.trail[id]| - 1].status == w.orders[id].status
            && (IsPath(w.trail[id]) <==> OnEdges(START, es, id))
  {
    PathIffOnEdges(es, id);
  }

  /** The order's row, trail and history are as the table has them. */
  ghost predicate OrderInv(w: World, id: OrderId) {
    id in w.orders ==>
      id in w.trail && TrailInv(w.orders[id], w.trail[id], w.now) && StampInv(w.orders[id], w.trail[id])
  }

  lemma EdgeKeepsOrderInv(s: State, e: Event, id: OrderId)
    requires Inv(s) && OrderInv(s.world, id) && TakesEdge(s, e, id)
    ensures OrderInv(Step(s, e).world, id)
  {
    var w, w' := s.world, Step(s, e).world;
    if id in w.orders {
      StepOnOrder(s, e, id);
      var o := w.orders[id];
      RowsAndTrails(s, e, id);
      if Leaves(s, e, id) {
        hide Step, TrailInv, StampInv;
        LaterNow(o, w.trail[id], w.now, w'.now);
      } else {
        assert Moves(s, e, id);
        hide Step, TrailInv, StampInv, Updated, Transition, TakesEdge, Inv;
        TrailStep(o, w'.orders[id], w.trail[id], w.now);
        StampStep(o, w'.orders[id], w.trail[id], w.now);
      }
    } else if id in w'.orders {
      StepToOrder(s, e, id);
      hide Step, TrailInv, StampInv, Inv;
      NewOrderInv(w'.orders[id], w.now);
    }
  }

  lemma {:induction false} EdgesKeepOrderInv(es: seq<Event>, id: OrderId)
    requires OnEdges(START, es, id)
    ensures OrderInv(Run(START, es).world, id)
    decreases |es|
  {
    if es != [] {
      EdgesKeepOrderInv(es[..|es| - 1], id);
      RunKeepsInv(es[..|es| - 1]);
      EdgeKeepsOrderInv(Run(START, es[..|es| - 1]), es[|es| - 1], id);
      hide Step, Inv, OrderInv, TakesEdge;
    }
  }

  /** An order whose writes took edges: its statuses form a path of the table of at most seven transitions. */
  lemma AtMostSevenTransitions(es: seq<Event>, id: OrderId)
    requires OnEdges(START, es, id) && id in Run(START, es).world.orders
    ensures var w := Run(START, es).world;
            && id in w.trail
            && TrailInv(w.orders[id], w.trail[id], w.now)
            && |w.trail[id]| - 1 <= 7
  {
    EdgesKeepOrderInv(es, id);
    var w := Run(START, es).world;
    hide Run, TrailInv, StampInv, OnEdges;
    PathIsShort(w.orders[id], w.trail[id], w.now);
  }

  /** ... and the history is exactly the statuses taken, in order and without PREPARING, if and only if the order was
      placed: always for cash on delivery, once captured for online payment. */
  lemma HistoryRebuildsTheRun(es: seq<Event>, id: OrderId)
    requires OnEdges(START, es, id) && id in Run(START, es).world.orders
    ensures var w := Run(START, es).world;
            && id in w.trail
            && (History(w.orders[id]) == ShownTrail(w.trail[id], w.orders[id].createdAt)
                <==> w.orders[id].paymentMethod == COD || Visited(w.trail[id], PLACED))
            && (forall i, j :: 0 <= i < j < |History(w.orders[id])| ==>
                  History(w.orders[id])[i].at <= History(w.orders[id])[j].at <= w.now)
  {
    EdgesKeepOrderInv(es, id);
    var w := Run(START, es).world;
    hide TrailInv, StampInv, Run, History, ShownTrail, Visited, OnEdges;
    HistoryIsExact(w.orders[id], w.trail[id], w.now);
  }

  /** A path of the table visits no status twice. */
  lemma {:induction false} VisitedOnce(trail: seq<Visit>, status: Status)
    requires forall i, j :: 0 <= i < j < |trail| ==> trail[i].status != trail[j].status
    ensures Visits(trail, status) == if Visited(trail, status) then 1 else 0
    decreases |trail|
  {
    if trail != [] {
      var n := |trail| - 1;
      VisitedOnce(trail[..n], status);
      assert trail == trail[..n] + [trail[n]];
      VisitedAppend(trail[..n], trail[n], status);
      assert trail[n].status == status ==> forall i :: 0 <= i < n ==> trail[i].status != status;
    }
  }

  lemma PathsDoNotReturn(o: Order, trail: seq<Visit>, now: int)
    requires TrailInv(o, trail, now)
    ensures forall i, j :: 0 <= i < j < |trail| ==> trail[i].status != trail[j].status
  {
    hide Rank, Transition;
  }

  lemma EdgesVisitOnce(es: seq<Event>, id: OrderId, status: Status)
    requires OnEdges(START, es, id)
    ensures var t := TrailOf(Run(START, es).world, id);
            Visits(t, status) == if Visited(t, status) then 1 else 0
  {
    EdgesKeepOrderInv(es, id);
    RunKeepsInv(es);
    var w := Run(START, es).world;
    hide Run, OnEdges, TrailInv, StampInv, IntentInv, Visits, Visited;
    if id in w.orders {
      PathsDoNotReturn(w.orders[id], w.trail[id], w.now);
    }
    VisitedOnce(TrailOf(w, id), status);
  }

  /** ... and order.placed is in the outbox exactly once if the order ever was PLACED and never otherwise; order.accepted,
      order.rejected and order.cancelled likewise exactly if their inserts ran, and not at all if they did not.
      order.delivered appears at most once. */
  lemma OneEventPerStatusVisit(es: seq<Event>, id: OrderId, e: EventType)
    requires OnEdges(START, es, id) && e in STATUS_EVENTS + {ORDER_DELIVERED}
    ensures var s := Run(START, es);
            var n := multiset(s.world.outbox)[(id, e)];
            && (e in STATUS_EVENTS ==>
                  n == if Visited(TrailOf(s.world, id), StatusOf(e)) && Owing(s.owed, id, e) == {} then 1 else 0)
            && (e == ORDER_PLACED ==> n == if Visited(TrailOf(s.world, id), PLACED) then 1 else 0)
            && (e == ORDER_DELIVERED ==> n <= if Visited(TrailOf(s.world, id), DELIVERED) then 1 else 0)
  {
    EventsAreVisitsLessLostInserts(es, id, e);
    PlacedIsNeverOwed(es);
    EdgesVisitOnce(es, id, StatusOf(e));
    hide Run, OnEdges, Visits, Visited, TrailOf;
  }

  /** A writer of the order's status between check and write. */
  ghost predicate Pending(s: State, id: OrderId) {
    exists pid :: pid in s.intents && !s.intents[pid].command.Tick? && s.intents[pid].command.id == id
  }

  lemma NoEdgeFromTerminal(o: Order, c: Command)
    requires Terminal(o.status)
    ensures Change(c, o).None?
  {
  }

  lemma RefusedAtTerminal(s: State, e: Event, id: OrderId)
    requires id in s.world.orders && id in s.world.trail && Terminal(s.world.orders[id].status)
    requires (e.Direct? || e.Check?) && !e.command.Tick? && e.command.id == id
    ensures Step(s, e) == s
  {
    NoEdgeFromTerminal(s.world.orders[id], e.command);
    hide Change;
  }

  lemma NoneBecomesPending(s: State, e: Event, id: OrderId)
    requires !Pending(s, id) && !(e.Check? && !e.command.Tick? && e.command.id == id)
    ensures !Pending(Step(s, e), id)
  {
    var s' := Step(s, e);
    forall pid | pid in s'.intents && !s'.intents[pid].command.Tick? ensures s'.intents[pid].command.id != id {
      assert !(e.Check? && e.pid == pid) ==> pid in s.intents && s'.intents[pid] == s.intents[pid];
    }
    hide Change, Written;
  }

  /** A terminal row that nobody is about to write stays, and so does that. */
  lemma QuietStep(s: State, e: Event, id: OrderId)
    requires Inv(s) && id in s.world.orders && id in s.world.trail && Terminal(s.world.orders[id].status) && !Pending(s, id)
    ensures Leaves(s, e, id) && Inv(Step(s, e)) && !Pending(Step(s, e), id)
  {
    StepKeepsInv(s, e);
    if (e.Direct? || e.Check?) && !e.command.Tick? && e.command.id == id {
      RefusedAtTerminal(s, e, id);
      hide Step;
    } else {
      NoneBecomesPending(s, e, id);
      assert e.Finish? && e.pid in s.intents ==> IntentInv(s.world, s.intents[e.pid]);
      hide Change, IntentInv, Updated, Terminal;
    }
  }

  lemma {:induction false} QuietRun(s: State, more: seq<Event>, id: OrderId)
    requires Inv(s) && id in s.world.orders && id in s.world.trail && Terminal(s.world.orders[id].status) && !Pending(s, id)
    ensures var s' := Run(s, more);
            && Inv(s') && !Pending(s', id) && id in s'.world.orders && id in s'.world.trail
            && s'.world.orders[id] == s.world.orders[id] && s'.world.trail[id] == s.world.trail[id]
    decreases |more|
  {
    if more != [] {
      QuietRun(s, more[..|more| - 1], id);
      QuietStep(Run(s, more[..|more| - 1]), more[|more| - 1], id);
      hide Step, Inv, Pending;
    }
  }

  lemma PendingWrites(s: State, id: OrderId) returns (pid: Pid)
    requires Inv(s) && id in s.world.orders && Pending(s, id)
    ensures TrailOf(Run(s, [Finish(pid, true)]).world, id) != TrailOf(s.world, id)
  {
    pid :| pid in s.intents && !s.intents[pid].command.Tick? && s.intents[pid].command.id == id;
    assert IntentInv(s.world, s.intents[pid]);
    RunSnoc(s, [], Finish(pid, true));
    assert [] + [Finish(pid, true)] == [Finish(pid, true)];
    assert Run(s, []) == s;
    hide Run, Written;
  }

  /** Once an order is rejected, delivered or cancelled no status is written to it again, in any continuation, if and only
      if no writer of it is between check and write. */
  lemma TerminalStaysIffNonePending(es: seq<Event>, id: OrderId)
    requires id in Run(START, es).world.orders && Terminal(Run(START, es).world.orders[id].status)
    ensures var s := Run(START, es);
            && (!Pending(s, id) ==>
                  forall more :: id in Run(s, more).world.orders && Run(s, more).world.orders[id] == s.world.orders[id])
            && ((forall more :: TrailOf(Run(s, more).world, id) == TrailOf(s.world, id)) <==> !Pending(s, id))
  {
    RunKeepsInv(es);
    var s := Run(START, es);
    if Pending(s, id) {
      var pid := PendingWrites(s, id);
    } else {
      forall more
        ensures id in Run(s, more).world.orders && Run(s, more).world.orders[id] == s.world.orders[id]
        ensures TrailOf(Run(s, more).world, id) == TrailOf(s.world, id)
      {
        QuietRun(s, more, id);
      }
    }
    hide Inv, Pending;
  }

  lemma FreshTakesEdge(s: State, e: Event, id: OrderId)
    requires Inv(s) && (WritesTo(s, e, id) ==> IsFresh(s, e.pid))
    ensures TakesEdge(s, e, id)
  {
    if WritesTo(s, e, id) {
      assert IntentInv(s.world, s.intents[e.pid]);
    }
  }

  /** In every run in which nobody else writes an order's status between the check and the write of a writer of it, the
      order takes edges of the table only, so all of the above holds of it. */
  lemma {:induction false} FreshWritesTakeEdges(es: seq<Event>, id: OrderId)
    requires AllFresh(START, es, id)
    ensures OnEdges(START, es, id)
    decreases |es|
  {
    if es != [] {
      FreshWritesTakeEdges(es[..|es| - 1], id);
      RunKeepsInv(es[..|es| - 1]);
      FreshTakesEdge(Run(START, es[..|es| - 1]), es[|es| - 1], id);
      hide Inv, WritesTo, TakesEdge, IsFresh, Run;
    }
  }

  // ---------------------------------------------------------------------------
  // Writes that come too late
  // ---------------------------------------------------------------------------

  /** The intent a passed check leaves. */
  function IntentOf(c: Command, o: Order, taken: nat): Intent
    requires Change(c, o).Some?
  {
    var (next, stamp, event) := Change(c, o).value;
    Intent(c, if ActorOf(c, o).Some? then ActorOf(c, o).value else SYSTEM, next, stamp, event, o.status, taken)
  }

  /** The check of `c` passes on the order's row. */
  predicate Passes(w: World, c: Command) {
    !IsDirect(c) && c.id in w.orders && c.id in w.trail && Change(c, w.orders[c.id]).Some?
  }

  lemma PassedCheck(s: State, pid: Pid, c: Command)
    requires Passes(s.world, c) && pid !in s.intents && pid !in s.owed
    ensures Step(s, Check(pid, c))
            == s.(intents := s.intents[pid := IntentOf(c, s.world.orders[c.id], |s.world.trail[c.id]|)])
  {
    hide Change, ActorOf;
  }

  lemma CommittedWrite(s: State, pid: Pid)
    requires pid in s.intents && !IsDirect(s.intents[pid].command)
    requires s.intents[pid].command.id in s.world.orders && s.intents[pid].command.id in s.world.trail
    ensures Step(s, Finish(pid, true)) == AfterWrite(s, pid, s.intents[pid])
  {
    hide AfterWrite;
  }

  lemma RowWritten(s: State, pid: Pid)
    requires pid in s.intents && !IsDirect(s.intents[pid].command)
    requires s.intents[pid].command.id in s.world.orders && s.intents[pid].command.id in s.world.trail
    ensures var i, s' := s.intents[pid], AfterWrite(s, pid, s.intents[pid]);
            var id := i.command.id;
            && s'.intents == s.intents - {pid} && s'.world.now == s.world.now
            && s'.owed == (if i.event.Some? && i.command.HttpUpdate? then s.owed[pid := (id, i.event.value)] else s.owed)
            && id in s'.world.orders && id in s'.world.trail
            && s'.world.orders[id] == Updated(s.world.orders[id], i.next, i.stamp, s.world.now)
            && s'.world.orders[id].status == i.next
            && s'.world.orders[id].deliveryAgentId == s.world.orders[id].deliveryAgentId
            && s'.world.trail[id] == s.world.trail[id] + [Visit(i.next, s.world.now)]
            && s'.world.outbox == s.world.outbox
                                  + if i.event.Some? && !i.command.HttpUpdate? then [(id, i.event.value)] else []
  {
    WrittenIs(s.world.orders[s.intents[pid].command.id], s.intents[pid].next, s.intents[pid].stamp, s.world.now);
    hide Updated;
  }

  /** Two writers pass their check on the same row: both write, the later one over what the earlier one wrote, whatever
      the table says of that. */
  lemma BothWrite(s: State, p: Pid, c: Command, q: Pid, d: Command)
    requires Passes(s.world, c) && Passes(s.world, d) && c.id == d.id && p != q
    requires p !in s.intents && q !in s.intents && p !in s.owed && q !in s.owed
    ensures var i, j := IntentOf(c, s.world.orders[c.id], |s.world.trail[c.id]|), IntentOf(d, s.world.orders[c.id], |s.world.trail[c.id]|);
            var t := Run(s, [Check(p, c), Check(q, d), Finish(p, true)]);
            var u := Run(s, [Check(p, c), Check(q, d), Finish(p, true), Finish(q, true)]);
            && q in t.intents && t.intents[q] == j
            && c.id in t.world.orders && t.world.orders[c.id].status == i.next
            && c.id in u.world.orders && u.world.orders[c.id].status == j.next
            && u.world.orders[c.id] == Written(t.world, j)
            && c.id in u.world.trail
            && u.world.trail[c.id] == s.world.trail[c.id] + [Visit(i.next, s.world.now)] + [Visit(j.next, s.world.now)]
            && u.world.outbox == s.world.outbox
                                 + (if i.event.Some? && !c.HttpUpdate? then [(c.id, i.event.value)] else [])
                                 + (if j.event.Some? && !d.HttpUpdate? then [(c.id, j.event.value)] else [])
  {
    var e1, e2, e3, e4 := Check(p, c), Check(q, d), Finish(p, true), Finish(q, true);
    assert [e1, e2, e3] == [e1] + [e2] + [e3] && [e1, e2, e3, e4] == [e1, e2, e3] + [e4] && [e1] == [] + [e1];
    RunSnoc(s, [], e1);
    RunSnoc(s, [e1], e2);
    RunSnoc(s, [e1] + [e2], e3);
    RunSnoc(s, [e1, e2, e3], e4);
    assert Run(s, []) == s;
    hide Run;
    PassedCheck(s, p, c);
    var s1 := Step(s, e1);
    PassedCheck(s1, q, d);
    var s2 := Step(s1, e2);
    CommittedWrite(s2, p);
    RowWritten(s2, p);
    var s3 := Step(s2, e3);
    hide Step, AfterWrite, IntentOf, Updated;
    CommittedWrite(s3, q);
    RowWritten(s3, q);
  }

  lemma {:induction false} RunConcat(s: State, es: seq<Event>, more: seq<Event>)
    ensures Run(s, es + more) == Run(Run(s, es), more)
    decreases |more|
  {
    if more == [] {
      assert es + more == es;
    } else {
      var n := |more| - 1;
      assert es + more == (es + more[..n]) + [more[n]] && more == more[..n] + [more[n]];
      RunSnoc(s, es + more[..n], more[n]);
      RunSnoc(Run(s, es), more[..n], more[n]);
      RunConcat(s, es, more[..n]);
    }
  }

  lemma RunOne(s: State, e: Event)
    ensures Run(s, [e]) == Step(s, e)
  {
    assert [e] == [] + [e] && Run(s, []) == s;
    RunSnoc(s, [], e);
  }

  lemma RunThree(s: State, es: seq<Event>, a: Event, b: Event, c: Event)
    ensures Run(s, es + [a] + [b]) == Step(Step(Run(s, es), a), b)
    ensures Run(s, es + [a] + [b] + [c]) == Step(Run(s, es + [a] + [b]), c)
  {
    RunSnoc(s, es, a);
    RunSnoc(s, es + [a], b);
    RunSnoc(s, es + [a] + [b], c);
  }

  lemma Placed(payBy: PaymentMethod, restaurantId: int, branchId: int, customerId: int)
    ensures var s := Run(START, [Direct(Place(1, payBy, restaurantId, branchId, customerId))]);
            && s.intents == map[] && s.owed == map[] && 1 in s.world.orders && 1 in s.world.trail && s.world.now == 0
            && s.world.orders[1] == NewOrder(payBy, restaurantId, branchId, customerId, 0)
            && s.world.outbox == if payBy == COD then [(1, ORDER_PLACED)] else []
  {
    RunOne(START, Direct(Place(1, payBy, restaurantId, branchId, customerId)));
    hide Run;
  }

  /** Both pass their check on an order just placed. */
  lemma BothWriteAfterPlacing(payBy: PaymentMethod, restaurantId: int, branchId: int, customerId: int, c: Command, d: Command)
    requires !IsDirect(c) && !IsDirect(d) && c.id == 1 && d.id == 1
    requires var o := NewOrder(payBy, restaurantId, branchId, customerId, 0); Change(c, o).Some? && Change(d, o).Some?
    ensures var place := Direct(Place(1, payBy, restaurantId, branchId, customerId));
            var o := NewOrder(payBy, restaurantId, branchId, customerId, 0);
            var i, j := Change(c, o).value, Change(d, o).value;
            var w := Run(START, [place] + [Check(1, c), Check(2, d), Finish(1, true)]).world;
            var w' := Run(START, [place] + [Check(1, c), Check(2, d), Finish(1, true), Finish(2, true)]).world;
            && 1 in w.orders && w.orders[1].status == i.0
            && 1 in w'.orders && w'.orders[1].status == j.0
            && w'.outbox == (if payBy == COD then [(1, ORDER_PLACED)] else [])
                            + (if i.2.Some? && !c.HttpUpdate? then [(1, i.2.value)] else [])
                            + (if j.2.Some? && !d.HttpUpdate? then [(1, j.2.value)] else [])
  {
    var place := Direct(Place(1, payBy, restaurantId, branchId, customerId));
    Placed(payBy, restaurantId, branchId, customerId);
    RunConcat(START, [place], [Check(1, c), Check(2, d), Finish(1, true)]);
    RunConcat(START, [place], [Check(1, c), Check(2, d), Finish(1, true), Finish(2, true)]);
    hide Run, Change, Written, NewOrder, ActorOf;
    BothWrite(Run(START, [place]), 1, c, 2, d);
  }

  lemma CustomerMayCancel(customer: ActorContext, o: Order, reason: Option<string>)
    requires customer.role == OTHER_ROLE && customer.userId == o.customerId
    requires o.status == PENDING_PAYMENT || (o.status == PLACED && HasReason(reason))
    ensures Change(HttpUpdate(1, customer, CANCELLED, reason), o) == Some((CANCELLED, Some(CANCELLED_AT), Some(ORDER_CANCELLED)))
  {
    hide HasReason;
  }

  lemma OwnerMayAccept(restaurant: ActorContext, o: Order)
    requires restaurant.role == RESTAURANT_USER && restaurant.isOwner && restaurant.restaurantId == Some(o.restaurantId)
    requires o.status == PLACED
    ensures Change(HttpUpdate(1, restaurant, ACCEPTED, None), o) == Some((ACCEPTED, Some(ACCEPTED_AT), Some(ORDER_ACCEPTED)))
  {
  }

  /** Without freshness a terminal order comes back to life: the customer's cancellation and the restaurant's acceptance
      both pass their check on the PLACED row, and the acceptance is written after the cancellation. */
  lemma StaleAcceptanceRevivesACancelledOrder(customer: ActorContext, restaurant: ActorContext, restaurantId: int, branchId: int)
    requires customer.role == OTHER_ROLE
    requires restaurant.role == RESTAURANT_USER && restaurant.isOwner && restaurant.restaurantId == Some(restaurantId)
    ensures var place := Direct(Place(1, COD, restaurantId, branchId, customer.userId));
            var cancel, accept := HttpUpdate(1, customer, CANCELLED, Some("changed my mind")), HttpUpdate(1, restaurant, ACCEPTED, None);
            var w := Run(START, [place] + [Check(1, cancel), Check(2, accept), Finish(1, true)]).world;
            var w' := Run(START, [place] + [Check(1, cancel), Check(2, accept), Finish(1, true), Finish(2, true)]).world;
            && 1 in w.orders && w.orders[1].status == CANCELLED && Terminal(w.orders[1].status)
            && 1 in w'.orders && w'.orders[1].status == ACCEPTED
  {
    var cancel, accept := HttpUpdate(1, customer, CANCELLED, Some("changed my mind")), HttpUpdate(1, restaurant, ACCEPTED, None);
    assert "changed my mind"[0] == 'c';
    assert HasReason(Some("changed my mind"));
    var o := NewOrder(COD, restaurantId, branchId, customer.userId, 0);
    CustomerMayCancel(customer, o, Some("changed my mind"));
    OwnerMayAccept(restaurant, o);
    hide Run, Change, HasReason;
    BothWriteAfterPlacing(COD, restaurantId, branchId, customer.userId, cancel, accept);
  }

  /** The customer cancels an unpaid order while its payment is being processed: the row goes from CANCELLED to PLACED, and
      order.placed is written for it. */
  lemma CapturePlacesACancelledOrder(customer: ActorContext, restaurantId: int, branchId: int)
    requires customer.role == OTHER_ROLE
    ensures var place := Direct(Place(1, ONLINE, restaurantId, branchId, customer.userId));
            var cancel, capture := HttpUpdate(1, customer, CANCELLED, None), Capture(1);
            var w := Run(START, [place] + [Check(1, cancel), Check(2, capture), Finish(1, true)]).world;
            var w' := Run(START, [place] + [Check(1, cancel), Check(2, capture), Finish(1, true), Finish(2, true)]).world;
            && 1 in w.orders && w.orders[1].status == CANCELLED
            && 1 in w'.orders && w'.orders[1].status == PLACED && w'.outbox == [(1, ORDER_PLACED)]
  {
    var cancel, capture := HttpUpdate(1, customer, CANCELLED, None), Capture(1);
    var o := NewOrder(ONLINE, restaurantId, branchId, customer.userId, 0);
    CustomerMayCancel(customer, o, None);
    assert Change(capture, o) == Some((PLACED, None, Some(ORDER_PLACED)));
    hide Run, Change, NewOrder;
    BothWriteAfterPlacing(ONLINE, restaurantId, branchId, customer.userId, cancel, capture);
  }

  lemma UnlawfulWithoutReason(o: Order, o': Order, who: StatusActor, now: int)
    requires o.status == PLACED && o'.status == CANCELLED
    ensures !Lawful(o, o', who, None, now)
  {
    hide TableEdge;
  }

  /** The other way round, the customer's cancellation without a reason lands on the PLACED row, where one is due. */
  lemma CancellationLandsWithoutItsReason(customer: ActorContext, restaurantId: int, branchId: int)
    requires customer.role == OTHER_ROLE
    ensures var place := Direct(Place(1, ONLINE, restaurantId, branchId, customer.userId));
            var capture, cancel := Capture(1), HttpUpdate(1, customer, CANCELLED, None);
            var w := Run(START, [place] + [Check(1, capture), Check(2, cancel), Finish(1, true)]).world;
            var w' := Run(START, [place] + [Check(1, capture), Check(2, cancel), Finish(1, true), Finish(2, true)]).world;
            && 1 in w.orders && w.orders[1].status == PLACED
            && 1 in w'.orders && w'.orders[1].status == CANCELLED
            && !Lawful(w.orders[1], w'.orders[1], CUSTOMER, cancel.reason, w.now)
  {
    var capture, cancel := Capture(1), HttpUpdate(1, customer, CANCELLED, None);
    var o := NewOrder(ONLINE, restaurantId, branchId, customer.userId, 0);
    CustomerMayCancel(customer, o, None);
    assert Change(capture, o) == Some((PLACED, None, Some(ORDER_PLACED)));
    hide Run, Change, NewOrder, Lawful;
    BothWriteAfterPlacing(ONLINE, restaurantId, branchId, customer.userId, capture, cancel);
    var place := Direct(Place(1, ONLINE, restaurantId, branchId, customer.userId));
    var w := Run(START, [place] + [Check(1, capture), Check(2, cancel), Finish(1, true)]).world;
    var w' := Run(START, [place] + [Check(1, capture), Check(2, cancel), Finish(1, true), Finish(2, true)]).world;
    UnlawfulWithoutReason(w.orders[1], w'.orders[1], CUSTOMER, w.now);
  }

  /** Two payments of one order processed at once place it twice. */
  lemma TwoCapturesPlaceTwice(restaurantId: int, branchId: int, customerId: int)
    ensures var place := Direct(Place(1, ONLINE, restaurantId, branchId, customerId));
            var es := [place] + [Check(1, Capture(1)), Check(2, Capture(1)), Finish(1, true), Finish(2, true)];
            Run(START, es).world.outbox == [(1, ORDER_PLACED), (1, ORDER_PLACED)]
  {
    var o := NewOrder(ONLINE, restaurantId, branchId, customerId, 0);
    assert Change(Capture(1), o) == Some((PLACED, None, Some(ORDER_PLACED)));
    hide Run, Change, NewOrder;
    BothWriteAfterPlacing(ONLINE, restaurantId, branchId, customerId, Capture(1), Capture(1));
  }

  /** One writer undisturbed. */
  lemma Served(s: State, c: Command)
    requires Passes(s.world, c) && s.intents == map[] && s.owed == map[]
    ensures var o, t := s.world.orders[c.id], Run(s, [Check(0, c), Finish(0, true), InsertEvent(0)]);
            && t.intents == map[] && t.owed == map[] && c.id in t.world.orders && c.id in t.world.trail
            && t.world.orders[c.id] == Updated(o, Change(c, o).value.0, Change(c, o).value.1, s.world.now)
            && t.world.now == s.world.now
  {
    assert [Check(0, c), Finish(0, true), InsertEvent(0)] == [] + [Check(0, c)] + [Finish(0, true)] + [InsertEvent(0)];
    assert Run(s, []) == s;
    RunThree(s, [], Check(0, c), Finish(0, true), InsertEvent(0));
    PassedCheck(s, 0, c);
    hide Run, Updated, Change, ActorOf;
    var s1 := Step(s, Check(0, c));
    CommittedWrite(s1, 0);
    RowWritten(s1, 0);
    hide AfterWrite;
  }

  lemma OwnerMay(restaurant: ActorContext, o: Order, next: Status, reason: Option<string>)
    requires restaurant.role == RESTAURANT_USER && restaurant.isOwner && restaurant.restaurantId == Some(o.restaurantId)
    requires AssertTransition(o.status, next, RESTAURANT_MEMBER, reason).Ok?
    ensures var c := HttpUpdate(1, restaurant, next, reason);
            && ActorOf(c, o) == Some(RESTAURANT_MEMBER) && Change(c, o).Some? && Change(c, o).value.0 == next
  {
  }

  /** A restaurant's order of the run of a store with no other order, and nobody between check and write. */
  ghost predicate Waits(s: State, restaurantId: int, status: Status) {
    && s.intents == map[] && s.owed == map[] && 1 in s.world.orders && 1 in s.world.trail
    && s.world.orders[1].restaurantId == restaurantId
    && s.world.orders[1].status == status && s.world.orders[1].deliveryAgentId.None?
  }

  lemma OwnerServes(s: State, restaurant: ActorContext, restaurantId: int, status: Status, next: Status)
    requires restaurant.role == RESTAURANT_USER && restaurant.isOwner && restaurant.restaurantId == Some(restaurantId)
    requires Waits(s, restaurantId, status) && AssertTransition(status, next, RESTAURANT_MEMBER, None).Ok?
    ensures var c := HttpUpdate(1, restaurant, next, None);
            Waits(Run(s, [Check(0, c), Finish(0, true), InsertEvent(0)]), restaurantId, next)
  {
    var o, c := s.world.orders[1], HttpUpdate(1, restaurant, next, None);
    OwnerMay(restaurant, o, next, None);
    hide Change, Run, ActorOf, AssertTransition;
    Served(s, c);
    WrittenIs(o, next, Change(c, o).value.1, s.world.now);
    hide Updated;
  }

  lemma PlacedWaits(restaurantId: int)
    ensures Waits(Run(START, [Direct(Place(1, COD, restaurantId, 0, 0))]), restaurantId, PLACED)
  {
    Placed(COD, restaurantId, 0, 0);
    hide Run;
  }

  /** One more update of order 1 by the restaurant. */
  function ThenServes(es: seq<Event>, restaurant: ActorContext, next: Status): seq<Event> {
    es + [Check(0, HttpUpdate(1, restaurant, next, None)), Finish(0, true), InsertEvent(0)]
  }

  lemma ServesOnce(es: seq<Event>, restaurant: ActorContext, restaurantId: int, status: Status, next: Status)
    requires restaurant.role == RESTAURANT_USER && restaurant.isOwner && restaurant.restaurantId == Some(restaurantId)
    requires Waits(Run(START, es), restaurantId, status) && AssertTransition(status, next, RESTAURANT_MEMBER, None).Ok?
    ensures Waits(Run(START, ThenServes(es, restaurant, next)), restaurantId, next)
  {
    RunConcat(START, es, [Check(0, HttpUpdate(1, restaurant, next, None)), Finish(0, true), InsertEvent(0)]);
    OwnerServes(Run(START, es), restaurant, restaurantId, status, next);
    hide Run, Waits;
  }

  /** Placed for cash, accepted, prepared and ready. */
  function ReadyRun(restaurant: ActorContext, restaurantId: int): seq<Event> {
    var placed := [Direct(Place(1, COD, restaurantId, 0, 0))];
    ThenServes(ThenServes(ThenServes(placed, restaurant, ACCEPTED), restaurant, PREPARING), restaurant, READY)
  }

  lemma ReadyIsReached(restaurant: ActorContext, restaurantId: int)
    requires restaurant.role == RESTAURANT_USER && restaurant.isOwner && restaurant.restaurantId == Some(restaurantId)
    ensures Waits(Run(START, ReadyRun(restaurant, restaurantId)), restaurantId, READY)
  {
    hide Run, Waits, ThenServes;
    var placed := [Direct(Place(1, COD, restaurantId, 0, 0))];
    PlacedWaits(restaurantId);
    var accepted := ThenServes(placed, restaurant, ACCEPTED);
    ServesOnce(placed, restaurant, restaurantId, PLACED, ACCEPTED);
    ServesOnce(accepted, restaurant, restaurantId, ACCEPTED, PREPARING);
    ServesOnce(ThenServes(accepted, restaurant, PREPARING), restaurant, restaurantId, PREPARING, READY);
  }

  lemma ClaimedRow(s: State, agentId: int)
    requires 1 in s.world.orders && 1 in s.world.trail
    requires s.world.orders[1].status == READY && s.world.orders[1].deliveryAgentId.None?
    ensures var t := Step(s, Direct(ClaimReady(1, agentId)));
            && t.intents == s.intents && t.owed == s.owed && t.world.now == s.world.now && 1 in t.world.orders && 1 in t.world.trail
            && t.world.orders[1].status == ASSIGNED && t.world.orders[1].deliveryAgentId == Some(agentId)
            && t.world.orders[1].restaurantId == s.world.orders[1].restaurantId
  {
  }

  lemma CancelledByTheAdminOnly(o: Order, o': Order, who: StatusActor, reason: Option<string>, now: int)
    requires o.status == ASSIGNED && o'.status == CANCELLED && who != ADMIN
    ensures !Lawful(o, o', who, reason, now)
  {
  }

  /** A claim between the check of a restaurant's cancellation and its write. */
  lemma ClaimComesFirst(s: State, cancel: Command, agentId: int)
    requires s.intents == map[] && s.owed == map[] && 1 in s.world.orders && 1 in s.world.trail
    requires s.world.orders[1].status == READY && s.world.orders[1].deliveryAgentId.None?
    requires cancel.HttpUpdate? && cancel.id == 1 && ActorOf(cancel, s.world.orders[1]) == Some(RESTAURANT_MEMBER)
    requires Change(cancel, s.world.orders[1]).Some? && Change(cancel, s.world.orders[1]).value.0 == CANCELLED
    ensures var t := Step(Step(s, Check(1, cancel)), Direct(ClaimReady(1, agentId)));
            var w' := Step(t, Finish(1, true)).world;
            && 1 in t.intents && t.intents[1].who == RESTAURANT_MEMBER
            && 1 in t.world.orders && t.world.orders[1].status == ASSIGNED
            && 1 in w'.orders && w'.orders[1].status == CANCELLED
            && !Lawful(t.world.orders[1], w'.orders[1], RESTAURANT_MEMBER, cancel.reason, t.world.now)
  {
    hide Change, ActorOf;
    PassedCheck(s, 1, cancel);
    var s1 := Step(s, Check(1, cancel));
    ClaimedRow(s1, agentId);
    var t := Step(s1, Direct(ClaimReady(1, agentId)));
    hide Step, Lawful;
    CommittedWrite(t, 1);
    RowWritten(t, 1);
    hide AfterWrite, Updated;
    CancelledByTheAdminOnly(t.world.orders[1], Step(t, Finish(1, true)).world.orders[1], RESTAURANT_MEMBER, cancel.reason,
                            t.world.now);
  }

  /** A restaurant cancels a READY order, an agent claims it before the cancellation is written: the row goes from ASSIGNED
      to CANCELLED, an edge of the table that is the administrator's alone. */
  lemma RestaurantCancelsAnAssignedOrder(restaurant: ActorContext, restaurantId: int, agentId: int)
    requires restaurant.role == RESTAURANT_USER && restaurant.isOwner && restaurant.restaurantId == Some(restaurantId)
    ensures var cancel := HttpUpdate(1, restaurant, CANCELLED, Some("out of stock"));
            var es := ReadyRun(restaurant, restaurantId) + [Check(1, cancel)] + [Direct(ClaimReady(1, agentId))];
            var s, w' := Run(START, es), Run(START, es + [Finish(1, true)]).world;
            && 1 in s.intents && s.intents[1].who == RESTAURANT_MEMBER
            && 1 in s.world.orders && s.world.orders[1].status == ASSIGNED
            && 1 in w'.orders && w'.orders[1].status == CANCELLED
            && !Lawful(s.world.orders[1], w'.orders[1], RESTAURANT_MEMBER, cancel.reason, s.world.now)
  {
    var cancel := HttpUpdate(1, restaurant, CANCELLED, Some("out of stock"));
    ReadyIsReached(restaurant, restaurantId);
    assert cancel.reason.value[0] == 'o';
    var s := Run(START, ReadyRun(restaurant, restaurantId));
    OwnerMay(restaurant, s.world.orders[1], CANCELLED, cancel.reason);
    hide Run, Change, ActorOf, ReadyRun, AssertTransition, Step, Lawful;
    RunThree(START, ReadyRun(restaurant, restaurantId), Check(1, cancel), Direct(ClaimReady(1, agentId)), Finish(1, true));
    ClaimComesFirst(s, cancel, agentId);
  }

  lemma AdminMayCancel(admin: ActorContext, o: Order, reason: Option<string>)
    requires admin.role == SYSTEM_ADMIN && o.status == ASSIGNED && HasReason(reason)
    ensures Change(HttpUpdate(1, admin, CANCELLED, reason), o) == Some((CANCELLED, Some(CANCELLED_AT), Some(ORDER_CANCELLED)))
  {
    hide HasReason;
  }

  lemma AgentMayPickup(agentId: int, o: Order)
    requires o.status == ASSIGNED && o.deliveryAgentId == Some(agentId)
    ensures Change(Pickup(1, agentId), o) == Some((PICKED, Some(PICKED_AT), None))
  {
  }

  lemma AssignedIsReached(restaurant: ActorContext, restaurantId: int, agentId: int)
    requires restaurant.role == RESTAURANT_USER && restaurant.isOwner && restaurant.restaurantId == Some(restaurantId)
    ensures var s := Run(START, ReadyRun(restaurant, restaurantId) + [Direct(ClaimReady(1, agentId))]);
            && s.intents == map[] && s.owed == map[] && 1 in s.world.orders && 1 in s.world.trail
            && s.world.orders[1].status == ASSIGNED && s.world.orders[1].deliveryAgentId == Some(agentId)
  {
    ReadyIsReached(restaurant, restaurantId);
    var ready := ReadyRun(restaurant, restaurantId);
    hide Run, ReadyRun, Step;
    RunSnoc(START, ready, Direct(ClaimReady(1, agentId)));
    ClaimedRow(Run(START, ready), agentId);
  }

  lemma CancelledAndPicked(s: State, admin: ActorContext, agentId: int, reason: Option<string>)
    requires admin.role == SYSTEM_ADMIN && HasReason(reason)
    requires s.intents == map[] && s.owed == map[] && 1 in s.world.orders && 1 in s.world.trail
    requires s.world.orders[1].status == ASSIGNED && s.world.orders[1].deliveryAgentId == Some(agentId)
    ensures var cancel, pickup := HttpUpdate(1, admin, CANCELLED, reason), Pickup(1, agentId);
            var w := Run(s, [Check(1, cancel), Check(2, pickup), Finish(1, true)]).world;
            var w' := Run(s, [Check(1, cancel), Check(2, pickup), Finish(1, true), Finish(2, true)]).world;
            && 1 in w.orders && w.orders[1].status == CANCELLED
            && 1 in w'.orders && w'.orders[1].status == PICKED
  {
    var cancel, pickup := HttpUpdate(1, admin, CANCELLED, reason), Pickup(1, agentId);
    AdminMayCancel(admin, s.world.orders[1], reason);
    AgentMayPickup(agentId, s.world.orders[1]);
    hide Run, Change, ActorOf, HasReason, Written;
    BothWrite(s, 1, cancel, 2, pickup);
  }

  /** An administrator cancels an ASSIGNED order while its agent picks it up: the row goes from CANCELLED to PICKED. */
  lemma PickupOverridesACancellation(restaurant: ActorContext, restaurantId: int, admin: ActorContext, agentId: int)
    requires restaurant.role == RESTAURANT_USER && restaurant.isOwner && restaurant.restaurantId == Some(restaurantId)
    requires admin.role == SYSTEM_ADMIN
    ensures var cancel, pickup := HttpUpdate(1, admin, CANCELLED, Some("agent is ill")), Pickup(1, agentId);
            var es := ReadyRun(restaurant, restaurantId) + [Direct(ClaimReady(1, agentId))];
            var w := Run(START, es + [Check(1, cancel), Check(2, pickup), Finish(1, true)]).world;
            var w' := Run(START, es + [Check(1, cancel), Check(2, pickup), Finish(1, true), Finish(2, true)]).world;
            && 1 in w.orders && w.orders[1].status == CANCELLED
            && 1 in w'.orders && w'.orders[1].status == PICKED
  {
    var cancel, pickup := HttpUpdate(1, admin, CANCELLED, Some("agent is ill")), Pickup(1, agentId);
    var es := ReadyRun(restaurant, restaurantId) + [Direct(ClaimReady(1, agentId))];
    AssignedIsReached(restaurant, restaurantId, agentId);
    assert cancel.reason.value[0] == 'a';
    assert HasReason(cancel.reason);
    hide *;
    RunConcat(START, es, [Check(1, cancel), Check(2, pickup), Finish(1, true)]);
    RunConcat(START, es, [Check(1, cancel), Check(2, pickup), Finish(1, true), Finish(2, true)]);
    CancelledAndPicked(Run(START, es), admin, agentId, cancel.reason);
  }
}
