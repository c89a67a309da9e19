/** The writers of the order status themselves: the HTTP update, the claim and the pickup. Delivery and capture, which
    settle and charge in the same transaction, are in the finance and the payment service. */
module StatusService {
  import opened Common
  import opened OrderStatus
  import opened Lifecycle
  import opened StatusWrites

  datatype UpdateError =
    | OrderNotFound | UnAuthorised | Refused(reason: TransitionError) | NotYourOrder | WrongStatus | DatabaseError

  /** How the statements of an update end: the write or the insert of the event may fail, or take effect with its reply
      lost. */
  datatype UpdateEnding = Completes | WriteFails | WriteReplyLost | InsertFails | InsertReplyLost

  /** Where no event is due nothing is inserted. */
  predicate Succeeds(ending: UpdateEnding, event: Option<EventType>) {
    ending == Completes || (event.None? && ending in {InsertFails, InsertReplyLost})
  }

  /** Steps of other calls. */
  predicate Foreign(es: seq<Event>, pid: Pid) {
    forall i :: 0 <= i < |es| ==>
      match es[i]
      case Direct(_) => true
      case Check(q, _) => q != pid
      case Finish(q, _) => q != pid
      case InsertEvent(q) => q != pid
  }

  /** What others leave alone: the call of `pid`, and that orders exist. */
  ghost predicate Spares(s: State, s': State, pid: Pid) {
    && (pid in s'.intents <==> pid in s.intents) && (pid in s.intents ==> s'.intents[pid] == s.intents[pid])
    && (pid in s'.owed <==> pid in s.owed) && (pid in s.owed ==> s'.owed[pid] == s.owed[pid])
    && s'.world.orders.Keys == s'.world.trail.Keys
    && s.world.orders.Keys <= s'.world.orders.Keys
  }

  lemma ForeignStepSpares(s: State, e: Event, pid: Pid)
    requires Foreign([e], pid) && s.world.orders.Keys == s.world.trail.Keys
    ensures Spares(s, Step(s, e), pid)
  {
    assert [e][0] == e;
    hide Foreign, Change, Updated, NewOrder, ActorOf;
  }

  lemma {:induction false} ForeignRunSpares(s: State, es: seq<Event>, pid: Pid)
    requires Foreign(es, pid) && s.world.orders.Keys == s.world.trail.Keys
    ensures Spares(s, Run(s, es), pid)
    decreases |es|
  {
    if es != [] {
      ForeignRunSpares(s, es[..|es| - 1], pid);
      ForeignStepSpares(Run(s, es[..|es| - 1]), es[|es| - 1], pid);
      hide Step;
    }
  }

  lemma RunNothing(s: State)
    ensures Run(s, []) == s
  {
  }

  lemma FailedWrite(s: State, pid: Pid)
    requires pid in s.intents
    ensures Step(s, Finish(pid, false)) == s.(intents := s.intents - {pid})
  {
  }

  /** The answer of the check to an HTTP update. */
  function Answer(orders: map<OrderId, Order>, actor: ActorContext, id: OrderId, next: Status, reason: Option<string>)
    : Option<UpdateError>
  {
    if id !in orders then Some(OrderNotFound)
    else if ResolveStatusActor(actor, orders[id]).None? then Some(UnAuthorised)
    else
      match AssertTransition(orders[id].status, next, ResolveStatusActor(actor, orders[id]).value, reason)
      case Err(e) => Some(Refused(e))
      case Ok(_) => None
  }

  /** The answer of the check on the row's columns: a caller of no group is not authorised; one of a group is refused exactly
      what the group may not do, and what it may do without the reason it needs. */
  ghost predicate AnsweredOnRow(orders: map<OrderId, Order>, actor: ActorContext, id: OrderId, next: Status,
                                reason: Option<string>, refused: Option<UpdateError>)
  {
    && (refused == Some(OrderNotFound) <==> id !in orders)
    && (refused == Some(UnAuthorised) <==> id in orders && forall who :: !ActsAs(actor, orders[id], who))
    && (refused == Some(Refused(InvalidTransition)) <==>
          id in orders && exists who :: ActsAs(actor, orders[id], who) && !MayMove(who, orders[id].status, next))
    && (refused == Some(Refused(ReasonRequired)) <==>
          && id in orders && NeedsReason(orders[id].status, next) && !SaysSomething(reason)
          && exists who :: ActsAs(actor, orders[id], who) && MayMove(who, orders[id].status, next))
    && (refused.Some? ==> refused.value.OrderNotFound? || refused.value.UnAuthorised? || refused.value.Refused?)
  }

  lemma AnswerIsOnRow(orders: map<OrderId, Order>, actor: ActorContext, id: OrderId, next: Status, reason: Option<string>)
    ensures AnsweredOnRow(orders, actor, id, next, reason, Answer(orders, actor, id, next, reason))
    ensures Answer(orders, actor, id, next, reason).None? ==>
              && id in orders && Transition(orders[id].status, next).Some?
              && Transition(orders[id].status, next).value.stamp == ColumnOf(next)
  {
    if id in orders {
      var o := orders[id];
      CallersActAsTheirGroup(actor, o);
      var who := ResolveStatusActor(actor, o);
      if who.Some? {
        TableByActor(o.status, next, who.value, reason);
        assert ActsAs(actor, o, who.value);
      }
      hide AssertTransition, ActsAs, ResolveStatusActor, Transition, MayMove, NeedsReason, SaysSomething, ColumnOf;
    }
  }

  /** What an answer says of the check: whether the call was refused. */
  function RefusalOf<T>(r: Result<T, UpdateError>): Option<UpdateError> {
    if r.Err? && r.error != DatabaseError then Some(r.error) else None
  }

  /** The answer of the check to a pickup. */
  function PickupAnswer(orders: map<OrderId, Order>, id: OrderId, agentId: int): Option<UpdateError> {
    if id !in orders then Some(OrderNotFound)
    else if orders[id].deliveryAgentId != Some(agentId) then Some(NotYourOrder)
    else if orders[id].status != ASSIGNED then Some(WrongStatus)
    else None
  }

  /** The order rows and the outbox of one region, updated in place by the writers of the order status, with what the
      calls under way remember. */
  class OrderStore {
    var orders: map<OrderId, Order>
    var outbox: seq<(OrderId, EventType)>
    var now: int
    var trail: map<OrderId, seq<Visit>>
    var intents: map<Pid, Intent>
    var owed: map<Pid, (OrderId, EventType)>

    function Snapshot(): State
      reads this
    {
      State(World(orders, outbox, trail, now), intents, owed)
    }

    ghost predicate Valid()
      reads this
    {
      orders.Keys == trail.Keys
    }

    constructor ()
      ensures Valid() && Snapshot() == START
    {
      orders, outbox, now, trail := map[], [], 0, map[];
      intents, owed := map[], map[];
    }

    /** What other calls do while `pid` waits. */
    method Others(pid: Pid, es: seq<Event>)
      requires Valid() && Foreign(es, pid)
      modifies this
      ensures Valid() && Snapshot() == Run(old(Snapshot()), es)
      ensures Spares(old(Snapshot()), Snapshot(), pid)
      ensures es == [] ==> Snapshot() == old(Snapshot())
    {
      ForeignRunSpares(Snapshot(), es, pid);
      var s := Run(Snapshot(), es);
      orders, outbox, trail, now := s.world.orders, s.world.outbox, s.world.trail, s.world.now;
      intents, owed := s.intents, s.owed;
    }

    /** UPDATE ... WHERE public_id: no condition on the status. */
    method UpdateOrderStatus(id: OrderId, status: Status, stamp: Option<Stamp>) returns (updated: Order)
      requires Valid() && id in orders
      modifies `orders, `trail
      ensures Valid()
      ensures updated == Updated(old(orders)[id], status, stamp, now)
      ensures stamp == ColumnOf(status) ==> WrittenAs(old(orders)[id], updated, status, now)
      ensures orders == old(orders)[id := updated]
      ensures trail == old(trail)[id := old(trail)[id] + [Visit(status, now)]]
    {
      var row := orders[id].(status := status);
      if stamp.Some? {
        match stamp.value {
          case ACCEPTED_AT => row := row.(acceptedAt := Some(now));
          case REJECTED_AT => row := row.(rejectedAt := Some(now));
          case READY_AT => row := row.(readyAt := Some(now));
          case ASSIGNED_AT => row := row.(assignedAt := Some(now));
          case PICKED_AT => row := row.(pickedAt := Some(now));
          case DELIVERED_AT => row := row.(deliveredAt := Some(now));
          case CANCELLED_AT => row := row.(cancelledAt := Some(now));
        }
      }
      orders := orders[id := row];
      trail := trail[id := trail[id] + [Visit(status, now)]];
      updated := row;
    }

    /** The conditional update behind `claim` and `adminAssign`: only a READY row without an agent is taken. */
    method ClaimReadyOrderForAgent(id: OrderId, agentId: int) returns (r: Option<Order>)
      requires Valid()
      modifies this
      ensures Valid() && Snapshot() == Step(old(Snapshot()), Direct(ClaimReady(id, agentId)))
      ensures r.Some? <==> id in old(orders) && old(orders)[id].status == READY && old(orders)[id].deliveryAgentId.None?
      ensures r.Some? ==>
                && r.value == old(orders)[id].(status := ASSIGNED, deliveryAgentId := Some(agentId), assignedAt := Some(now))
                && orders == old(orders)[id := r.value]
      ensures r.None? ==> Snapshot() == old(Snapshot())
    {
      if id in orders && orders[id].status == READY && orders[id].deliveryAgentId.None? {
        orders := orders[id := orders[id].(deliveryAgentId := Some(agentId), status := ASSIGNED, assignedAt := Some(now))];
        trail := trail[id := trail[id] + [Visit(ASSIGNED, now)]];
        assert outbox == old(outbox) + [];
        r := Some(orders[id]);
      } else {
        r := None;
      }
    }

    /** The check of an HTTP update on the row as it is read. */
    method CheckUpdate(pid: Pid, actor: ActorContext, id: OrderId, next: Status, reason: Option<string>)
      returns (refused: Option<UpdateError>)
      requires Valid() && pid !in intents && pid !in owed
      modifies `intents
      ensures Valid() && Snapshot() == Step(old(Snapshot()), Check(pid, HttpUpdate(id, actor, next, reason)))
      ensures refused == Answer(orders, actor, id, next, reason)
      ensures refused.Some? ==> intents == old(intents)
      ensures refused.None? ==>
                && id in orders && pid in intents && intents[pid].command == HttpUpdate(id, actor, next, reason)
                && intents[pid].next == next && intents[pid].event == OutboxEventForStatus(next)
                && Transition(orders[id].status, next).Some?
                && intents[pid].stamp == Transition(orders[id].status, next).value.stamp
                && old(intents) == intents - {pid}
    {
      if id !in orders {
        return Some(OrderNotFound);
      }
      var order := orders[id];
      var statusActor := ResolveStatusActor(actor, order);
      if statusActor.None? {
        return Some(UnAuthorised);
      }
      var checked := AssertTransition(order.status, next, statusActor.value, reason);
      if checked.Err? {
        return Some(Refused(checked.error));
      }
      refused := None;
      intents := intents[pid := Intent(HttpUpdate(id, actor, next, reason), statusActor.value, next, checked.value,
                                       OutboxEventForStatus(next), order.status, |trail[id]|)];
    }

    /** The write of a call that passed its check. */
    method WriteStatus(pid: Pid) returns (updated: Order)
      requires Valid() && pid in intents && !IsDirect(intents[pid].command) && intents[pid].command.id in orders
      modifies this
      ensures Valid() && Snapshot() == Step(old(Snapshot()), Finish(pid, true))
      ensures var i := old(intents)[pid];
              && updated == Updated(old(orders)[i.command.id], i.next, i.stamp, now)
              && orders == old(orders)[i.command.id := updated]
              && updated.status == i.next
              && intents == old(intents) - {pid} && now == old(now)
              && owed == (if i.command.HttpUpdate? && i.event.Some? then old(owed)[pid := (i.command.id, i.event.value)]
                          else old(owed))
              && outbox == old(outbox)
                           + if !i.command.HttpUpdate? && i.event.Some? then [(i.command.id, i.event.value)] else []
    {
      CommittedWrite(Snapshot(), pid);
      hide Step;
      var i := intents[pid];
      WrittenIs(orders[i.command.id], i.next, i.stamp, now);
      updated := UpdateOrderStatus(i.command.id, i.next, i.stamp);
      hide Updated;
      if i.event.Some? {
        if i.command.HttpUpdate? {
          owed := owed[pid := (i.command.id, i.event.value)];
        } else {
          outbox := outbox + [(i.command.id, i.event.value)];
        }
      }
      assert outbox == old(outbox) + if !i.command.HttpUpdate? && i.event.Some? then [(i.command.id, i.event.value)] else [];
      intents := intents - {pid};
    }

    /** The write never comes. */
    method GiveUp(pid: Pid)
      requires Valid() && pid in intents
      modifies `intents
      ensures Valid() && Snapshot() == Step(old(Snapshot()), Finish(pid, false))
      ensures intents == old(intents) - {pid}
    {
      FailedWrite(Snapshot(), pid);
      hide Step;
      intents := intents - {pid};
    }

    method InsertOutboxEvent(pid: Pid)
      requires Valid() && pid in owed
      modifies `outbox, `owed
      ensures Valid() && Snapshot() == Step(old(Snapshot()), InsertEvent(pid))
      ensures outbox == old(outbox) + [old(owed)[pid]] && owed == old(owed) - {pid}
    {
      outbox, owed := outbox + [owed[pid]], owed - {pid};
    }

    /** From the passed check to the end of an update: whatever others do, the write, whatever others do, the insert of the
        event where one is due. */
    method WriteAndInsert(pid: Pid, ending: UpdateEnding, env: seq<Event>, env2: seq<Event>)
      returns (r: Result<Order, UpdateError>, ghost trace: seq<Event>)
      requires Valid() && pid in intents && pid !in owed
      requires intents[pid].command.HttpUpdate? && intents[pid].command.id in orders
      requires Foreign(env, pid) && Foreign(env2, pid)
      modifies this
      ensures Valid() && Snapshot() == Run(old(Snapshot()), trace)
      ensures pid !in intents
      ensures r.Ok? <==> Succeeds(ending, old(intents)[pid].event)
      ensures r.Ok? ==> r.value.status == old(intents)[pid].next
      ensures r.Err? ==> r.error == DatabaseError
      ensures pid in owed <==> old(intents)[pid].event.Some? && ending in {WriteReplyLost, InsertFails}
      ensures var i := old(intents)[pid];
              env == [] && env2 == [] ==>
                && intents == old(intents) - {pid} && now == old(now)
                && orders == (if ending == WriteFails then old(orders)
                              else old(orders)[i.command.id := Updated(old(orders)[i.command.id], i.next, i.stamp, now)])
                && (r.Ok? ==> i.command.id in orders && r.value == orders[i.command.id])
                && outbox == old(outbox)
                             + if i.event.Some? && ending in {Completes, InsertReplyLost} then [(i.command.id, i.event.value)]
                               else []
    {
      hide Step, Run, Foreign, Updated;
      ghost var start := Snapshot();
      var i := intents[pid];
      assert outbox + [] == outbox;
      Others(pid, env);
      trace := env;
      if ending == WriteFails {
        GiveUp(pid);
        RunSnoc(start, trace, Finish(pid, false));
        return Err(DatabaseError), trace + [Finish(pid, false)];
      }
      var updated := WriteStatus(pid);
      RunSnoc(start, trace, Finish(pid, true));
      trace := trace + [Finish(pid, true)];
      if ending == WriteReplyLost {
        return Err(DatabaseError), trace;
      }
      if i.event.Some? {
        ghost var written := Snapshot();
        Others(pid, env2);
        RunConcat(start, trace, env2);
        trace := trace + env2;
        if ending == InsertFails {
          return Err(DatabaseError), trace;
        }
        InsertOutboxEvent(pid);
        RunSnoc(start, trace, InsertEvent(pid));
        trace := trace + [InsertEvent(pid)];
        if ending == InsertReplyLost {
          return Err(DatabaseError), trace;
        }
      }
      r := Ok(updated);
    }

    /** The HTTP status update: whatever others do between its check, its write and its insert, it is one call of the
        machine. A refusal has its exact case and changes nothing. Past the check an error says nothing of the row: the
        write may have taken effect, with its event or without. */
    method UpdateStatus(pid: Pid, actor: ActorContext, id: OrderId, next: Status, reason: Option<string>, ending: UpdateEnding,
                        env: seq<Event>, env2: seq<Event>)
      returns (r: Result<Order, UpdateError>, ghost trace: seq<Event>)
      requires Valid() && pid !in intents && pid !in owed && Foreign(env, pid) && Foreign(env2, pid)
      modifies this
      ensures Valid() && Snapshot() == Run(old(Snapshot()), trace)
      ensures pid !in intents
      ensures var refused, event := Answer(old(orders), actor, id, next, reason), OutboxEventForStatus(next);
              && (refused.Some? ==> r == Err(refused.value) && Snapshot() == old(Snapshot()))
              && (refused.None? ==>
                    && (if Succeeds(ending, event) then r.Ok? && r.value.status == next else r == Err(DatabaseError))
                    && (pid in owed <==> event.Some? && ending in {WriteReplyLost, InsertFails})
                    && Transition(old(orders)[id].status, next).Some?
                    && var stamp := Transition(old(orders)[id].status, next).value.stamp;
                       (env == [] && env2 == [] ==>
                          && intents == old(intents) && now == old(now)
                          && orders == (if ending == WriteFails then old(orders)
                                        else old(orders)[id := Updated(old(orders)[id], next, stamp, now)])
                          && (r.Ok? ==> r.value == orders[id])
                          && outbox == old(outbox)
                                       + if event.Some? && ending in {Completes, InsertReplyLost} then [(id, event.value)]
                                         else []))
      ensures AnsweredOnRow(old(orders), actor, id, next, reason, RefusalOf(r))
      ensures RefusalOf(r).None? && env == [] && env2 == [] && ending != WriteFails ==>
                && orders.Keys == old(orders).Keys && (forall other :: other in orders && other != id ==> orders[other] == old(orders)[other])
                && id in orders && WrittenAs(old(orders)[id], orders[id], next, now)
    {
      AnswerIsOnRow(orders, actor, id, next, reason);
      if id in orders {
        UpdatedIsWritten(orders[id], next, now);
      }
      hide Step, Run, Foreign, Updated, AssertTransition, Transition, ResolveStatusActor, AnsweredOnRow, WrittenAs, ColumnOf;
      ghost var start := Snapshot();
      var refused := CheckUpdate(pid, actor, id, next, reason);
      if refused.Some? {
        RunNothing(start);
        return Err(refused.value), [];
      }
      RunOne(start, Check(pid, HttpUpdate(id, actor, next, reason)));
      ghost var rest;
      r, rest := WriteAndInsert(pid, ending, env, env2);
      trace := [Check(pid, HttpUpdate(id, actor, next, reason))] + rest;
      RunConcat(start, [Check(pid, HttpUpdate(id, actor, next, reason))], rest);
    }

    /** The check of a pickup. */
    method CheckPickup(pid: Pid, id: OrderId, agentId: int) returns (refused: Option<UpdateError>)
      requires Valid() && pid !in intents && pid !in owed
      modifies `intents
      ensures Valid() && Snapshot() == Step(old(Snapshot()), Check(pid, Command.Pickup(id, agentId)))
      ensures refused == PickupAnswer(orders, id, agentId)
      ensures refused.Some? ==> intents == old(intents)
      ensures refused.None? ==>
                && id in orders && pid in intents && intents[pid].command == Command.Pickup(id, agentId)
                && intents[pid].next == PICKED && intents[pid].stamp == Some(PICKED_AT) && intents[pid].event.None?
                && old(intents) == intents - {pid}
    {
      if id !in orders {
        return Some(OrderNotFound);
      }
      var order := orders[id];
      if order.deliveryAgentId != Some(agentId) {
        return Some(NotYourOrder);
      }
      if order.status != ASSIGNED {
        return Some(WrongStatus);
      }
      refused := None;
      intents := intents[pid := Intent(Command.Pickup(id, agentId), AGENT, PICKED, Some(PICKED_AT), None, ASSIGNED, |trail[id]|)];
    }

    /** From the passed check to the end of a pickup. */
    method WritePicked(pid: Pid, ending: UpdateEnding, env: seq<Event>)
      returns (r: Result<Order, UpdateError>, ghost trace: seq<Event>)
      requires Valid() && pid in intents && Foreign(env, pid)
      requires intents[pid].command.Pickup? && intents[pid].command.id in orders && intents[pid].event.None?
      modifies this
      ensures Valid() && Snapshot() == Run(old(Snapshot()), trace)
      ensures pid !in intents
      ensures var (id, i) := (old(intents)[pid].command.id, old(intents)[pid]);
              && (if Succeeds(ending, None) then r.Ok? && r.value.status == i.next else r == Err(DatabaseError))
              && (r.Ok? ==> id in orders && r.value == orders[id])
              && (env == [] ==>
                    && outbox == old(outbox) && owed == old(owed) && intents == old(intents) - {pid} && now == old(now)
                    && orders == if ending == WriteFails then old(orders)
                                 else old(orders)[id := Updated(old(orders)[id], i.next, i.stamp, now)])
    {
      hide Step, Run, Foreign, Updated;
      ghost var start := Snapshot();
      assert outbox + [] == outbox;
      Others(pid, env);
      trace := env;
      if ending == WriteFails {
        GiveUp(pid);
        RunSnoc(start, trace, Finish(pid, false));
        return Err(DatabaseError), trace + [Finish(pid, false)];
      }
      var updated := WriteStatus(pid);
      RunSnoc(start, trace, Finish(pid, true));
      trace := trace + [Finish(pid, true)];
      r := if ending == WriteReplyLost then Err(DatabaseError) else Ok(updated);
    }

    /** The pickup: its check, whatever others do, and its write by the public id alone. */
    method Pickup(pid: Pid, id: OrderId, agentId: int, ending: UpdateEnding, env: seq<Event>)
      returns (r: Result<Order, UpdateError>, ghost trace: seq<Event>)
      requires Valid() && pid !in intents && pid !in owed && Foreign(env, pid)
      modifies this
      ensures Valid() && Snapshot() == Run(old(Snapshot()), trace)
      ensures pid !in intents
      ensures var refused := PickupAnswer(old(orders), id, agentId);
              && (refused.Some? ==> r == Err(refused.value) && Snapshot() == old(Snapshot()))
              && (refused.None? ==>
                    && (if Succeeds(ending, None) then r.Ok? && r.value.status == PICKED else r == Err(DatabaseError))
                    && (r.Ok? ==> id in orders && r.value == orders[id])
                    && (env == [] ==>
                          && outbox == old(outbox) && owed == old(owed) && intents == old(intents) && now == old(now)
                          && orders == if ending == WriteFails then old(orders)
                                       else old(orders)[id := Updated(old(orders)[id], PICKED, Some(PICKED_AT), now)]))
      ensures r == Err(OrderNotFound) <==> id !in old(orders)
      ensures r == Err(NotYourOrder) <==> id in old(orders) && old(orders)[id].deliveryAgentId != Some(agentId)
      ensures r == Err(WrongStatus) <==>
                id in old(orders) && old(orders)[id].deliveryAgentId == Some(agentId) && old(orders)[id].status != ASSIGNED
      ensures RefusalOf(r).None? && env == [] && ending != WriteFails ==>
                id in orders && WrittenAs(old(orders)[id], orders[id], PICKED, now)
    {
      if id in orders {
        UpdatedIsWritten(orders[id], PICKED, now);
      }
      hide Step, Run, Foreign, Updated, WrittenAs;
      ghost var start := Snapshot();
      var refused := CheckPickup(pid, id, agentId);
      if refused.Some? {
        RunNothing(start);
        return Err(refused.value), [];
      }
      RunOne(start, Check(pid, Command.Pickup(id, agentId)));
      ghost var rest;
      r, rest := WritePicked(pid, ending, env);
      trace := [Check(pid, Command.Pickup(id, agentId))] + rest;
      RunConcat(start, [Check(pid, Command.Pickup(id, agentId))], rest);
    }
  }
}
