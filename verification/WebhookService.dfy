/** The payment webhook service itself: reading, deduplicating and processing an event, with whatever other calls do in
    between. */
module WebhookService {
  import opened Common
  import opened Ledger
  import opened OrderStatus
  import opened Webhook

  /** The parsed body; an absent transaction id is the empty string. */
  datatype Envelope = Envelope(event: string, transactionId: string, order: OrderId, status: string)

  datatype WebhookError =
    | Malformed | InvalidSignature | ProviderNotActive | OrderNotFound | NoActiveSession | ChargeRefused | DatabaseError

  datatype Reply = Ignored | AlreadyReceived | Captured(session: SessionId)

  predicate IsPayment(e: Envelope) {
    e.event == "pay" && e.transactionId != ""
  }

  /** Steps of other calls. */
  predicate Foreign(es: seq<Event>, txn: string) {
    forall i :: 0 <= i < |es| ==>
      match es[i]
      case FindOrder(t) => t != txn
      case Choose(t) => t != txn
      case Commit(t, _, _) => t != txn
      case Crash(t) => t != txn
      case _ => true
  }

  /** What others leave alone: the event of `txn`, and that orders and sessions exist. */
  ghost predicate Spares(s: State, s': State, txn: string) {
    && (txn in s.receipts ==>
          && txn in s'.receipts && s'.receipts[txn] == s.receipts[txn]
          && (txn in s'.running <==> txn in s.running) && (txn in s.running ==> s'.running[txn] == s.running[txn])
          && (IsProcessed(s'.captures, txn) <==> IsProcessed(s.captures, txn)))
    && s.orders.Keys <= s'.orders.Keys && s.sessions.Keys <= s'.sessions.Keys
  }

  lemma ForeignCommitSpares(s: State, e: Event, txn: string)
    requires e.Commit? && e.txn != txn
    ensures Spares(s, Step(s, e), txn)
  {
    hide Charged, ReferenceUsed, CaptureEvents;
    var s' := Step(s, e);
    if s'.captures != s.captures {
      var n := |s.captures|;
      assert s'.captures[n].charge.providerReference != Some(txn);
      assert forall i :: 0 <= i < n ==> s'.captures[i] == s.captures[i];
    }
  }

  lemma ForeignStepSpares(s: State, e: Event, txn: string)
    requires Foreign([e], txn)
    ensures Spares(s, Step(s, e), txn)
  {
    assert [e][0] == e;
    if e.Commit? {
      ForeignCommitSpares(s, e, txn);
    } else {
      OnlyCommitsCapture(s, e);
      hide LatestActive, Foreign, AfterCommit;
    }
  }

  lemma {:induction false} ForeignRunSpares(s: State, es: seq<Event>, txn: string)
    requires Foreign(es, txn)
    ensures Spares(s, Run(s, es), txn)
    decreases |es|
  {
    if es != [] {
      ForeignRunSpares(s, es[..|es| - 1], txn);
      ForeignStepSpares(Run(s, es[..|es| - 1]), es[|es| - 1], txn);
      hide Step, IsProcessed;
    }
  }

  lemma RunNothing(s: State)
    ensures Run(s, []) == s
  {
  }

  /** The whole processing of an event. */
  function Processing(txn: string, owner: Option<int>, ending: Ending): seq<Event> {
    [FindOrder(txn), Choose(txn), Commit(txn, owner, ending)]
  }

  /** Once a step fails, the later ones find nothing to do. */
  lemma FailedEarly(s: State, txn: string, owner: Option<int>, ending: Ending)
    ensures txn !in Step(s, FindOrder(txn)).running ==> Run(s, Processing(txn, owner, ending)) == Step(s, FindOrder(txn))
    ensures var s1 := Step(s, FindOrder(txn));
            txn !in Step(s1, Choose(txn)).running ==> Run(s, Processing(txn, owner, ending)) == Step(s1, Choose(txn))
    ensures Run(s, Processing(txn, owner, ending))
            == Step(Step(Step(s, FindOrder(txn)), Choose(txn)), Commit(txn, owner, ending))
  {
    RunThree(s, FindOrder(txn), Choose(txn), Commit(txn, owner, ending));
    hide Run, AfterFindOrder, LatestActive, Charged;
  }

  /** The answer to a valid new payment event, undisturbed. */
  function Outcome(s: State, id: OrderId, txn: string, owner: Option<int>, ending: Ending): Result<SessionId, WebhookError> {
    var session := LatestActive(s.sessions, id);
    if id !in s.orders then Err(OrderNotFound)
    else if session.None? then Err(NoActiveSession)
    else if ending == RollsBack then Err(DatabaseError)
    else if Charged(s.txs, ChargeRow(id, s.orders[id], s.sessions[session.value], txn, owner), txn).None?
    then Err(ChargeRefused)
    else if ending == CommitsWithoutReply then Err(DatabaseError)
    else Ok(session.value)
  }

  /** The session is the order's active one with the greatest id. */
  ghost predicate IsChosen(sessions: map<SessionId, Session>, id: OrderId, session: SessionId) {
    && session in sessions && sessions[session].order == id && sessions[session].status in {INITIALIZED, PENDING}
    && forall other :: other in sessions && sessions[other].order == id && sessions[other].status in {INITIALIZED, PENDING} ==>
         other <= session
  }

  /** What the capture of a session by an event leaves: the session captured; a charge from the order's customer to the owner,
      or to the restaurant when none is known, unless some row carries the reference; the order placed if it was unpaid. */
  ghost predicate CapturedFor(s: State, s': State, id: OrderId, txn: string, owner: Option<int>, session: SessionId)
    requires id in s.orders && session in s.sessions
  {
    var (order, paid) := (s.orders[id], s.sessions[session]);
    var charge := Tx(Some(id), CHARGE, SUCCEEDED, paid.amount, paid.currency, Some(order.customer),
                     Some(if owner.Some? then owner.value else order.restaurant), Some(txn), Kashier(txn));
    var unpaid := order.status == PENDING_PAYMENT;
    && s'.sessions == s.sessions[session := paid.(status := CAPTURED)]
    && s'.txs == s.txs + (if exists i :: 0 <= i < |s.txs| && s.txs[i].providerReference == Some(txn) then [] else [charge])
    && s'.orders == (if unpaid then s.orders[id := order.(status := PLACED)] else s.orders)
    && s'.outbox == s.outbox + ([(id, PAYMENT_COMPLETED)] + if unpaid then [(id, ORDER_PLACED)] else [])
  }

  /** An undisturbed event on the rows it finds: which answer it gets, and that it captures the chosen session or changes
      nothing but the event row. */
  ghost predicate ProcessedAlone(s: State, s': State, id: OrderId, txn: string, owner: Option<int>, ending: Ending,
                                 r: Result<SessionId, WebhookError>)
  {
    var used := exists i :: 0 <= i < |s.txs| && s.txs[i].providerReference == Some(txn);
    && (r == Err(OrderNotFound) <==> id !in s.orders)
    && (r == Err(NoActiveSession) <==> id in s.orders && forall session :: !IsChosen(s.sessions, id, session))
    && (r.Ok? <==>
          ending == Commits && id in s.orders
          && exists session :: IsChosen(s.sessions, id, session)
                               && (used || (!KeyTaken(s.txs, Kashier(txn))
                                            && -MAX_INT32 - 1 <= s.sessions[session].amount <= MAX_INT32)))
    && (r.Ok? ==> id in s.orders && IsChosen(s.sessions, id, r.value) && CapturedFor(s, s', id, txn, owner, r.value))
    && (if r.Ok? || (r == Err(DatabaseError) && s'.captures != s.captures)
        then && id in s.orders
             && exists session :: IsChosen(s.sessions, id, session) && CapturedFor(s, s', id, txn, owner, session)
        else s'.sessions == s.sessions && s'.txs == s.txs && s'.orders == s.orders && s'.outbox == s.outbox)
    && (s'.captures != s.captures ==> ending != RollsBack)
  }

  lemma ChosenIsLatest(sessions: map<SessionId, Session>, id: OrderId)
    ensures LatestActive(sessions, id).Some? ==> IsChosen(sessions, id, LatestActive(sessions, id).value)
    ensures forall session: SessionId :: IsChosen(sessions, id, session) ==> LatestActive(sessions, id) == Some(session)
  {
    forall session: SessionId | IsChosen(sessions, id, session) ensures LatestActive(sessions, id) == Some(session) {
      OneActiveIsLatest(sessions, id, session);
    }
  }

  lemma CommitsTheCapture(s: State, s2: State, id: OrderId, txn: string, owner: Option<int>, session: SessionId, ending: Ending)
    requires id in s.orders && IsChosen(s.sessions, id, session) && txn in s2.running
    requires s2.running[txn] == Chosen(id, s.orders[id].status == PENDING_PAYMENT, session)
    requires s2.orders == s.orders && s2.sessions == s.sessions && s2.txs == s.txs && s2.outbox == s.outbox
    requires s2.captures == s.captures
    ensures var s' := Step(s2, Commit(txn, owner, ending));
            var charged := Charged(s.txs, ChargeRow(id, s.orders[id], s.sessions[session], txn, owner), txn);
            if ending == RollsBack || charged.None?
            then s'.sessions == s.sessions && s'.txs == s.txs && s'.orders == s.orders && s'.outbox == s.outbox
                 && s'.captures == s.captures
            else CapturedFor(s, s', id, txn, owner, session) && s'.captures != s.captures
    ensures Charged(s.txs, ChargeRow(id, s.orders[id], s.sessions[session], txn, owner), txn).Some? <==>
              || (exists i :: 0 <= i < |s.txs| && s.txs[i].providerReference == Some(txn))
              || (!KeyTaken(s.txs, Kashier(txn)) && -MAX_INT32 - 1 <= s.sessions[session].amount <= MAX_INT32)
  {
    assert IsActive(s.sessions[session], id);
    hide IsChosen, KeyTaken;
    var s' := Step(s2, Commit(txn, owner, ending));
    assert s.txs + [] == s.txs;
    if ending != RollsBack && Charged(s.txs, ChargeRow(id, s.orders[id], s.sessions[session], txn, owner), txn).Some? {
      assert |s'.captures| == |s.captures| + 1;
      assert s'.sessions == s.sessions[session := s.sessions[session].(status := CAPTURED)];
      assert s'.orders == (if s.orders[id].status == PENDING_PAYMENT then s.orders[id := s.orders[id].(status := PLACED)]
                           else s.orders);
      assert s'.outbox == s.outbox + CaptureEvents(id, s.orders[id].status == PENDING_PAYMENT);
    }
  }

  /** The processing of a new event, undisturbed. */
  lemma ProcessingIs(s: State, id: OrderId, txn: string, owner: Option<int>, ending: Ending)
    requires txn !in s.receipts
    ensures var s' := Run(Step(s, Receive(txn, id)), Processing(txn, owner, ending));
            ProcessedAlone(s, s', id, txn, owner, ending, Outcome(s, id, txn, owner, ending))
  {
    var s0 := Step(s, Receive(txn, id));
    FailedEarly(s0, txn, owner, ending);
    ChosenIsLatest(s.sessions, id);
    hide Run, Processing, LatestActive, Charged, ReferenceUsed, IsChosen, ChargeRow, KeyTaken;
    if id in s.orders && LatestActive(s.sessions, id).Some? {
      var session := LatestActive(s.sessions, id).value;
      var s2 := Step(Step(s0, FindOrder(txn)), Choose(txn));
      assert s2.running[txn] == Chosen(id, s.orders[id].status == PENDING_PAYMENT, session);
      hide Step, CapturedFor;
      CommitsTheCapture(s, s2, id, txn, owner, session, ending);
    } else {
      hide CapturedFor;
    }
  }

  lemma ProcessedSnoc(captures: seq<Capture>, c: Capture, txn: string)
    ensures IsProcessed(captures + [c], txn) <==> IsProcessed(captures, txn) || c.charge.providerReference == Some(txn)
  {
    var longer := captures + [c];
    assert longer[|captures|] == c && forall i :: 0 <= i < |captures| ==> longer[i] == captures[i];
  }

  predicate Still(env: seq<seq<Event>>) {
    forall i :: 0 <= i < |env| ==> env[i] == []
  }

  class PaymentWebhookService {
    var orders: map<OrderId, OrderRow>
    var sessions: map<SessionId, Session>
    var txs: seq<Tx>
    var receipts: map<string, Receipt>
    var running: map<string, Phase>
    var outbox: seq<(OrderId, EventType)>
    var captures: seq<Capture>

    function Snapshot(): State
      reads this
    {
      State(orders, sessions, txs, receipts, running, outbox, captures)
    }

    constructor ()
      ensures Snapshot() == EMPTY
    {
      orders, sessions, txs, receipts, running, outbox, captures := map[], map[], [], map[], map[], [], [];
    }

    /** What other calls do while the event of `txn` waits. */
    method Others(txn: string, es: seq<Event>)
      requires Foreign(es, txn)
      modifies this
      ensures Snapshot() == Run(old(Snapshot()), es)
      ensures Spares(old(Snapshot()), Snapshot(), txn)
      ensures es == [] ==> Snapshot() == old(Snapshot())
    {
      ForeignRunSpares(Snapshot(), es, txn);
      RunNothing(Snapshot());
      hide Run, Foreign, Spares;
      var s := Run(Snapshot(), es);
      orders, sessions, txs, receipts, running, outbox, captures :=
        s.orders, s.sessions, s.txs, s.receipts, s.running, s.outbox, s.captures;
    }

    /** ORDER BY id DESC LIMIT 1 over the order's active sessions. */
    method FindPaymentSessionByOrderId(order: OrderId) returns (r: Option<SessionId>)
      ensures r == LatestActive(sessions, order)
    {
      r := None;
      var rest := sessions.Keys;
      while rest != {}
        invariant rest <= sessions.Keys
        invariant r.Some? ==> r.value in sessions && IsActive(sessions[r.value], order)
        invariant forall id :: id in sessions && id !in rest && IsActive(sessions[id], order) ==> r.Some? && id <= r.value
      {
        var id :| id in rest;
        rest := rest - {id};
        if IsActive(sessions[id], order) && (r.None? || r.value < id) {
          r := Some(id);
        }
      }
      if r.Some? {
        OneActiveIsLatest(sessions, order, r.value);
      }
    }

    /** INSERT ... ON CONFLICT DO NOTHING of the event row, committed on its own. */
    method InsertWebhookEvent(txn: string, order: OrderId) returns (inserted: bool)
      modifies `receipts, `running
      ensures Snapshot() == Step(old(Snapshot()), Receive(txn, order))
      ensures inserted <==> txn !in old(receipts)
      ensures inserted ==> txn in receipts && txn in running && running[txn] == Received(order)
    {
      inserted := txn !in receipts;
      if inserted {
        receipts := receipts[txn := Receipt(false, false)];
        running := running[txn := Received(order)];
      }
    }

    /** The note of an error on the event row. */
    method NoteFailure(txn: string)
      modifies `receipts, `running
      ensures Snapshot() == RecordFailure(old(Snapshot()), txn)
    {
      receipts := receipts[txn := Receipt(true, true)];
      running := running - {txn};
    }

    method FindTheOrder(txn: string) returns (found: bool)
      requires txn in running && running[txn].Received?
      modifies `receipts, `running
      ensures Snapshot() == Step(old(Snapshot()), FindOrder(txn))
      ensures found <==> old(running)[txn].order in orders
      ensures if found then txn in running && running[txn].Found? && running[txn].order == old(running)[txn].order
                            && receipts == old(receipts)
              else Snapshot() == RecordFailure(old(Snapshot()), txn)
    {
      var id := running[txn].order;
      found := id in orders;
      if found {
        running := running[txn := Found(id, orders[id].status == PENDING_PAYMENT)];
      } else {
        NoteFailure(txn);
      }
    }

    method ChooseSession(txn: string) returns (chosen: bool)
      requires txn in running && running[txn].Found?
      modifies `receipts, `running
      ensures Snapshot() == Step(old(Snapshot()), Choose(txn))
      ensures var session := LatestActive(sessions, old(running)[txn].order);
              && (chosen <==> session.Some?)
              && (if chosen
                  then && txn in running
                       && running[txn] == Chosen(old(running)[txn].order, old(running)[txn].unpaid, session.value)
                       && receipts == old(receipts) && session.value in sessions
                  else Snapshot() == RecordFailure(old(Snapshot()), txn))
    {
      hide LatestActive;
      var session := FindPaymentSessionByOrderId(running[txn].order);
      chosen := session.Some?;
      if chosen {
        running := running[txn := Chosen(running[txn].order, running[txn].unpaid, session.value)];
      } else {
        NoteFailure(txn);
      }
    }

    method InsertCharge(charge: Tx, txn: string) returns (ok: bool)
      modifies `txs
      ensures ok <==> Charged(old(txs), charge, txn).Some?
      ensures txs == if ok then Charged(old(txs), charge, txn).value else old(txs)
    {
      ok := true;
      if !ReferenceUsed(txs, txn) {
        ok := !KeyTaken(txs, charge.key) && FitsInt(charge.amount);
        if ok {
          txs := txs + [charge];
        }
      }
    }

    /** The writes of the processing transaction. A refused charge undoes the capture. */
    method CaptureSession(txn: string, c: Phase, charge: Tx) returns (ok: bool)
      requires c.Chosen? && c.order in orders && c.session in sessions
      modifies this
      ensures ok <==> Charged(old(txs), charge, txn).Some?
      ensures if ok then Snapshot() == CommitCapture(old(Snapshot()), txn, c, charge, Charged(old(txs), charge, txn).value)
              else Snapshot() == old(Snapshot())
    {
      hide ReferenceUsed, CreateTransaction;
      var sessionsBefore, capturesBefore := sessions, captures;
      sessions := sessions[c.session := sessions[c.session].(status := CAPTURED)];
      captures := captures + [Capture(c.session, charge, !ReferenceUsed(txs, txn), c.unpaid)];
      ok := InsertCharge(charge, txn);
      if !ok {
        sessions, captures := sessionsBefore, capturesBefore;
        return;
      }
      outbox := outbox + [(c.order, PAYMENT_COMPLETED)];
      if c.unpaid {
        orders := orders[c.order := orders[c.order].(status := PLACED)];
        outbox := outbox + [(c.order, ORDER_PLACED)];
      }
      assert outbox == old(outbox) + CaptureEvents(c.order, c.unpaid);
      receipts := receipts[txn := Receipt(true, false)];
      running := running - {txn};
    }

    /** The rest of the transaction and its end; on any error, and when no reply comes, the note on the event row. */
    method CommitEvent(txn: string, owner: Option<int>, ending: Ending) returns (r: Result<SessionId, WebhookError>)
      requires txn in running && running[txn].Chosen? && running[txn].order in orders && running[txn].session in sessions
      modifies this
      ensures Snapshot() == Step(old(Snapshot()), Commit(txn, owner, ending))
      ensures var c := old(running)[txn];
              var charged := Charged(old(txs), ChargeOf(old(Snapshot()), c, txn, owner), txn);
              && r == (if ending == RollsBack then Err(DatabaseError)
                       else if charged.None? then Err(ChargeRefused)
                       else if ending == CommitsWithoutReply then Err(DatabaseError)
                       else Ok(c.session))
              && (r.Ok? ==> c.session in sessions && sessions[c.session].status == CAPTURED)
              && txn !in running && txn in receipts && receipts[txn] == Receipt(true, r.Err?)
              && (IsProcessed(captures, txn) <==> IsProcessed(old(captures), txn) || (ending != RollsBack && charged.Some?))
    {
      hide Charged, ReferenceUsed, IsProcessed;
      var c := running[txn];
      ProcessedSnoc(captures, Capture(c.session, ChargeOf(Snapshot(), c, txn, owner), !ReferenceUsed(txs, txn), c.unpaid), txn);
      if ending == RollsBack {
        NoteFailure(txn);
        return Err(DatabaseError);
      }
      var ok := CaptureSession(txn, c, ChargeOf(Snapshot(), c, txn, owner));
      if !ok {
        NoteFailure(txn);
        return Err(ChargeRefused);
      }
      if ending == CommitsWithoutReply {
        NoteFailure(txn);
        return Err(DatabaseError);
      }
      r := Ok(c.session);
    }

    /** From the order found to the end of the transaction. */
    method ChooseAndCommit(txn: string, owner: Option<int>, ending: Ending, env: seq<Event>)
      returns (r: Result<SessionId, WebhookError>, ghost trace: seq<Event>)
      requires txn in running && running[txn].Found? && running[txn].order in orders && txn in receipts && Foreign(env, txn)
      modifies this
      ensures Snapshot() == Run(old(Snapshot()), trace)
      ensures txn !in running && txn in receipts && receipts[txn] == Receipt(true, r.Err?)
      ensures r.Ok? ==> r.value in sessions && sessions[r.value].status == CAPTURED
      ensures r.Err? ==> r.error in {NoActiveSession, ChargeRefused, DatabaseError}
      ensures IsProcessed(captures, txn) <==>
                IsProcessed(old(captures), txn) || r.Ok? || (r == Err(DatabaseError) && ending == CommitsWithoutReply)
      ensures env == [] ==>
                && r == Outcome(old(Snapshot()), old(running)[txn].order, txn, owner, ending)
                && var s1 := Step(old(Snapshot()), Choose(txn));
                   Snapshot() == if txn in s1.running then Step(s1, Commit(txn, owner, ending)) else s1
    {
      hide Step, Run, Foreign, LatestActive, Charged, IsProcessed, CommitCapture, ReferenceUsed;
      ghost var start := Snapshot();
      var chosen := ChooseSession(txn);
      RunOne(start, Choose(txn));
      trace := [Choose(txn)];
      if !chosen {
        return Err(NoActiveSession), trace;
      }
      Others(txn, env);
      RunConcat(start, trace, env);
      trace := trace + env;
      r := CommitEvent(txn, owner, ending);
      RunSnoc(start, trace, Commit(txn, owner, ending));
      trace := trace + [Commit(txn, owner, ending)];
    }

    /** The processing of a received event: it finds the order and its session, then captures, with whatever other calls do
        in between. The event is captured exactly when the answer says so or the reply of its commit was lost. */
    method ProcessEvent(txn: string, owner: Option<int>, ending: Ending, env: seq<seq<Event>>)
      returns (r: Result<SessionId, WebhookError>, ghost trace: seq<Event>)
      requires txn in running && running[txn].Received? && txn in receipts
      requires |env| == 3 && forall i :: 0 <= i < |env| ==> Foreign(env[i], txn)
      modifies this
      ensures Snapshot() == Run(old(Snapshot()), trace)
      ensures txn !in running && txn in receipts && receipts[txn] == Receipt(true, r.Err?)
      ensures r.Ok? ==> r.value in sessions && sessions[r.value].status == CAPTURED
      ensures r.Err? ==> r.error in {OrderNotFound, NoActiveSession, ChargeRefused, DatabaseError}
      ensures IsProcessed(captures, txn) <==>
                IsProcessed(old(captures), txn) || r.Ok? || (r == Err(DatabaseError) && ending == CommitsWithoutReply)
      ensures Still(env) ==>
                && Snapshot() == Run(old(Snapshot()), Processing(txn, owner, ending))
                && r == Outcome(old(Snapshot()), old(running)[txn].order, txn, owner, ending)
    {
      hide Step, Run, Foreign, LatestActive, Charged, IsProcessed, Processing, ChargeRow;
      ghost var start := Snapshot();
      FailedEarly(start, txn, owner, ending);
      Others(txn, env[0]);
      trace := env[0];
      var found := FindTheOrder(txn);
      RunSnoc(start, trace, FindOrder(txn));
      trace := trace + [FindOrder(txn)];
      if !found {
        return Err(OrderNotFound), trace;
      }
      Others(txn, env[1]);
      RunConcat(start, trace, env[1]);
      trace := trace + env[1];
      ghost var rest;
      r, rest := ChooseAndCommit(txn, owner, ending, env[2]);
      RunConcat(start, trace, rest);
      trace := trace + rest;
    }

    /** The receipt of an event, committed, and its processing; only a new one is processed. */
    method ReceiveAndProcess(txn: string, order: OrderId, owner: Option<int>, ending: Ending, env: seq<seq<Event>>)
      returns (r: Option<Result<SessionId, WebhookError>>, ghost trace: seq<Event>)
      requires |env| == 3 && forall i :: 0 <= i < |env| ==> Foreign(env[i], txn)
      modifies this
      ensures Snapshot() == Run(old(Snapshot()), trace)
      ensures r.None? <==> txn in old(receipts)
      ensures r.None? ==> trace == [] && Snapshot() == old(Snapshot())
      ensures r.Some? ==> txn in receipts && receipts[txn] == Receipt(true, r.value.Err?)
      ensures r.Some? && r.value.Err? ==> r.value.error in {OrderNotFound, NoActiveSession, ChargeRefused, DatabaseError}
      ensures r.Some? && Still(env) ==>
                && Snapshot() == Run(Step(old(Snapshot()), Receive(txn, order)), Processing(txn, owner, ending))
                && r.value == Outcome(old(Snapshot()), order, txn, owner, ending)
                && ProcessedAlone(old(Snapshot()), Snapshot(), order, txn, owner, ending, r.value)
    {
      ghost var start := Snapshot();
      RunNothing(start);
      if txn !in receipts {
        ProcessingIs(start, order, txn, owner, ending);
      }
      hide Run, Charged, LatestActive, IsLatestActive, IsProcessed, Processing, Foreign, ProcessedAlone;
      var inserted := InsertWebhookEvent(txn, order);
      if !inserted {
        return None, [];
      }
      RunOne(start, Receive(txn, order));
      hide Step;
      var session;
      ghost var rest;
      session, rest := ProcessEvent(txn, owner, ending, env);
      trace := [Receive(txn, order)] + rest;
      RunConcat(start, [Receive(txn, order)], rest);
      r := Some(session);
    }

    /** `verifyAndProcessWebhook`. `signatureValid` and `providerActive` stand for the checks made elsewhere, `owner`
        for the branch lookup. No clause reads the envelope's status: a "pay" event that reports FAILED is captured like any
        other. */
    method VerifyAndProcessWebhook(e: Envelope, signed: bool, providerActive: bool, signatureValid: bool,
                                   owner: Option<int>, ending: Ending, env: seq<seq<Event>>)
      returns (r: Result<Reply, WebhookError>, ghost trace: seq<Event>)
      requires |env| == 3 && forall i :: 0 <= i < |env| ==> Foreign(env[i], e.transactionId)
      modifies this
      ensures Snapshot() == Run(old(Snapshot()), trace)
      ensures e.event == "" || e.transactionId == "" <==> r == Err(Malformed)
      ensures r == Ok(Ignored) <==> e.event !in {"", "pay"} && e.transactionId != ""
      ensures r == Err(ProviderNotActive) <==> IsPayment(e) && signed && !providerActive
      ensures r == Err(InvalidSignature) <==> IsPayment(e) && (!signed || (providerActive && !signatureValid))
      ensures r == Ok(AlreadyReceived) <==>
                IsPayment(e) && signed && providerActive && signatureValid && e.transactionId in old(receipts)
      ensures var valid := IsPayment(e) && signed && providerActive && signatureValid && e.transactionId !in old(receipts);
              && (!valid ==> trace == [] && Snapshot() == old(Snapshot()))
              && (valid ==>
                    && e.transactionId in receipts && receipts[e.transactionId] == Receipt(true, r.Err?)
                    && (Still(env) ==>
                          && Snapshot() == Run(Step(old(Snapshot()), Receive(e.transactionId, e.order)),
                                               Processing(e.transactionId, owner, ending))
                          && var answer := Outcome(old(Snapshot()), e.order, e.transactionId, owner, ending);
                             && r == (if answer.Ok? then Ok(Captured(answer.value)) else Err(answer.error))
                             && ProcessedAlone(old(Snapshot()), Snapshot(), e.order, e.transactionId, owner, ending, answer)))
    {
      RunNothing(Snapshot());
      trace := [];
      if e.event == "" || e.transactionId == "" {
        return Err(Malformed), trace;
      }
      if e.event != "pay" {
        return Ok(Ignored), trace;
      }
      if !signed {
        return Err(InvalidSignature), trace;
      }
      if !providerActive {
        return Err(ProviderNotActive), trace;
      }
      if !signatureValid {
        return Err(InvalidSignature), trace;
      }
      hide Run, Step, Processing, Foreign, ProcessedAlone, Outcome;
      var answer;
      answer, trace := ReceiveAndProcess(e.transactionId, e.order, owner, ending, env);
      if answer.None? {
        return Ok(AlreadyReceived), trace;
      }
      r := if answer.value.Ok? then Ok(Captured(answer.value.value)) else Err(answer.value.error);
    }
  }
}
