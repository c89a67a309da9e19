/** The delivery assignment protocol. Calls of `claim`, `adminAssign` and `reject`, worker ticks, key
    expiry and other writers of an order row interleave; one Redis command or one database transaction
    is one step. A call that crashes is a call that takes no further step. */
module Assignment {
  import opened Common
  import opened OrderStatus

  type OrderId = nat

  type AgentId = int

  type Pid = nat

  /** The columns of an order row the protocol reads and writes. */
  datatype Row = Row(status: Status, agent: Option<AgentId>)

  datatype ClaimError =
    | OfferNotFoundOrExpired
    | NotInCandidateList
    | OrderAlreadyClaimed
    | OrderNotInReadyState
    | TransactionError
    | ErrorAfterCommit

  /** Where a call stands. `offer` is the offer a claim has read; an admin call reads none. */
  datatype Call =
    | Claiming(order: OrderId, agent: AgentId)
    | Offered(order: OrderId, agent: AgentId, offer: Option<seq<AgentId>>)
    | Holding(order: OrderId, agent: AgentId, offer: Option<seq<AgentId>>)
    | Undoing(order: OrderId, agent: AgentId, offer: Option<seq<AgentId>>, deletions: nat, error: ClaimError)
    | Assigned(order: OrderId, agent: AgentId, offer: Option<seq<AgentId>>)
    | Succeeded(order: OrderId, agent: AgentId, offer: Option<seq<AgentId>>)
    | Failed(order: OrderId, agent: AgentId, error: ClaimError)
    | Rejecting(order: OrderId, agent: AgentId)
    | RejectRead(order: OrderId, agent: AgentId, remaining: seq<AgentId>)
    | RejectTtl(order: OrderId, agent: AgentId, remaining: seq<AgentId>)
    | Rejected(order: OrderId, agent: AgentId)

  /** Where a worker stands in `tryAssign`. */
  datatype Tick =
    | Idle
    | Checked(order: OrderId)
    | Passed(order: OrderId)
    | Broadcasting(order: OrderId, candidates: seq<AgentId>)
    | Counting(order: OrderId, candidates: seq<AgentId>)
    | Emitting(order: OrderId, candidates: seq<AgentId>)

  /** The keys of the shared store. */
  datatype Keys = Keys(
    offers: map<OrderId, seq<AgentId>>,
    claims: map<OrderId, AgentId>,
    attempts: map<OrderId, nat>)

  /** The shared rows and keys, the processes, and what happened so far: for each order the calls whose
      conditional update took the row, the resets of the row, and the offers sent since the attempts
      counter last started from zero, with those that were in flight at that moment. */
  datatype System = System(
    maxAttempts: nat,
    rows: map<OrderId, Row>,
    keys: Keys,
    calls: map<Pid, Call>,
    workers: map<Pid, Tick>,
    winners: map<OrderId, seq<Pid>>,
    resets: map<OrderId, nat>,
    sent: map<OrderId, nat>,
    carried: map<OrderId, nat>)

  function Initial(maxAttempts: nat, workers: set<Pid>): System {
    System(maxAttempts, map[], Keys(map[], map[], map[]), map[],
           map w | w in workers :: Idle, map[], map[], map[], map[])
  }

  datatype Event =
    | InsertOrder(order: OrderId, status: Status)
    | WriteStatus(order: OrderId, status: Status)
    | Reset(order: OrderId)
    | ExpireOffer(order: OrderId)
    | ExpireClaim(order: OrderId)
    | ExpireAttempts(order: OrderId)
    | Invoke(pid: Pid, call: Call)
    | Advance(pid: Pid)
    | TransactionFails(pid: Pid)
    | AcknowledgementLost(pid: Pid)
    | FailsAfterCommit(pid: Pid)
    | Try(worker: Pid, order: OrderId)
    | Proceed(worker: Pid, found: seq<AgentId>)
    | Restart(worker: Pid)

  function Count(m: map<OrderId, nat>, o: OrderId): nat {
    if o in m then m[o] else 0
  }

  function Winners(s: System, o: OrderId): seq<Pid> {
    if o in s.winners then s.winners[o] else []
  }

  predicate Claimable(s: System, o: OrderId) {
    o in s.rows && s.rows[o].status == READY && s.rows[o].agent.None?
  }

  function Goto(s: System, pid: Pid, c: Call): System {
    s.(calls := s.calls[pid := c])
  }

  /** The conditional update of the order row, committed. */
  function TakeRow(s: System, pid: Pid, o: OrderId, a: AgentId): System
    requires Claimable(s, o)
  {
    s.(rows := s.rows[o := Row(ASSIGNED, Some(a))],
       winners := s.winners[o := Winners(s, o) + [pid]])
  }

  function Without(ids: seq<AgentId>, a: AgentId): seq<AgentId> {
    Filter(ids, (id: AgentId) => id != a)
  }

  /** The list names the same agents as often, but for `a`, whom it does not name. */
  ghost predicate TakenOff(ids: seq<AgentId>, ids': seq<AgentId>, a: AgentId) {
    forall x :: multiset(ids')[x] == if x == a then 0 else multiset(ids)[x]
  }

  lemma {:induction false} WithoutCounts(ids: seq<AgentId>, a: AgentId, x: AgentId)
    ensures multiset(Without(ids, a))[x] == if x == a then 0 else multiset(ids)[x]
  {
    if ids != [] {
      WithoutCounts(ids[1..], a, x);
      assert ids == [ids[0]] + ids[1..];
    }
  }

  lemma WithoutTakesOff(ids: seq<AgentId>, a: AgentId)
    ensures TakenOff(ids, Without(ids, a), a)
    ensures Without(ids, a) == [] <==> forall i :: 0 <= i < |ids| ==> ids[i] == a
  {
    forall x ensures multiset(Without(ids, a))[x] == if x == a then 0 else multiset(ids)[x] {
      WithoutCounts(ids, a, x);
    }
    var rest := Without(ids, a);
    assert forall x :: x in rest <==> x in ids && x != a;
    hide Without;
    if rest == [] {
      forall i | 0 <= i < |ids| ensures ids[i] == a {
        assert ids[i] in ids;
      }
    } else {
      assert rest[0] in rest;
    }
  }

  /** Where a call stands after its next command; the conditional update is treated apart. */
  function CallAfter(k: Keys, c: Call): Call {
    match c
    case Claiming(o, a) =>
      if o !in k.offers then Failed(o, a, OfferNotFoundOrExpired)
      else if a !in k.offers[o] then Failed(o, a, NotInCandidateList)
      else Offered(o, a, Some(k.offers[o]))
    case Offered(o, a, offer) =>
      if o in k.claims then Failed(o, a, OrderAlreadyClaimed) else Holding(o, a, offer)
    case Holding(o, a, offer) => Undoing(o, a, offer, 2, OrderNotInReadyState)
    case Undoing(o, a, offer, n, e) => if n <= 1 then Failed(o, a, e) else Undoing(o, a, offer, n - 1, e)
    case Assigned(o, a, offer) => Succeeded(o, a, offer)
    case Rejecting(o, a) =>
      if o !in k.offers then Failed(o, a, OfferNotFoundOrExpired)
      else if a !in k.offers[o] then Failed(o, a, NotInCandidateList)
      else RejectRead(o, a, Without(k.offers[o], a))
    case RejectRead(o, a, remaining) => if remaining == [] then Rejected(o, a) else RejectTtl(o, a, remaining)
    case RejectTtl(o, a, _) => Rejected(o, a)
    case _ => c
  }

  /** What the next command of a call does to the keys. */
  function KeysAfter(k: Keys, c: Call): Keys {
    match c
    case Offered(o, a, _) => if o in k.claims then k else k.(claims := k.claims[o := a])
    case Undoing(o, _, _, _, _) => k.(claims := k.claims - {o})
    case Assigned(o, _, _) => k.(offers := k.offers - {o})
    case RejectRead(o, _, remaining) => if remaining == [] then k.(offers := k.offers - {o}) else k
    case RejectTtl(o, _, remaining) => k.(offers := k.offers[o := remaining])
    case _ => k
  }

  /** The next command of a call. */
  function AdvanceCall(s: System, pid: Pid, c: Call): System {
    if c.Holding? && Claimable(s, c.order)
    then Goto(TakeRow(s, pid, c.order, c.agent), pid, Assigned(c.order, c.agent, c.offer))
    else Goto(s.(keys := KeysAfter(s.keys, c)), pid, CallAfter(s.keys, c))
  }

  function Park(s: System, w: Pid, t: Tick): System {
    s.(workers := s.workers[w := t])
  }

  /** Where a worker stands after its next command in `tryAssign`; `found` is what the candidate search returned. */
  function TickAfter(k: Keys, maxAttempts: nat, t: Tick, found: seq<AgentId>): Tick {
    match t
    case Idle => Idle
    case Checked(o) => if Count(k.attempts, o) >= maxAttempts then Idle else Passed(o)
    case Passed(o) => if found == [] then Counting(o, []) else Broadcasting(o, found)
    case Broadcasting(o, cs) => if o in k.offers then Idle else Counting(o, cs)
    case Counting(o, cs) => if cs == [] then Idle else Emitting(o, cs)
    case Emitting(_, _) => Idle
  }

  function KeysAfterTick(k: Keys, t: Tick): Keys {
    match t
    case Broadcasting(o, cs) => if o in k.offers then k else k.(offers := k.offers[o := cs])
    case Counting(o, _) => k.(attempts := k.attempts[o := Count(k.attempts, o) + 1])
    case _ => k
  }

  /** The next command of a worker. */
  function ProceedTick(s: System, w: Pid, t: Tick, found: seq<AgentId>): System {
    Park(s.(keys := KeysAfterTick(s.keys, t),
            sent := if t.Emitting? then s.sent[t.order := Count(s.sent, t.order) + 1] else s.sent),
         w, TickAfter(s.keys, s.maxAttempts, t, found))
  }

  /** The workers between the attempts check and the increment, and those between increment and emit. */
  predicate IsPending(t: Tick, o: OrderId) {
    (t.Passed? || t.Broadcasting? || t.Counting?) && t.order == o
  }

  predicate IsEmitting(t: Tick, o: OrderId) {
    t.Emitting? && t.order == o
  }

  function Pending(workers: map<Pid, Tick>, o: OrderId): set<Pid> {
    set w | w in workers && IsPending(workers[w], o)
  }

  function InFlight(workers: map<Pid, Tick>, o: OrderId): set<Pid> {
    set w | w in workers && IsEmitting(workers[w], o)
  }

  /** One step of the system; an event that is not possible in a state changes nothing. */
  function Step(s: System, e: Event): System {
    match e
    case InsertOrder(o, st) => if o in s.rows then s else s.(rows := s.rows[o := Row(st, None)])
    case WriteStatus(o, st) => if o in s.rows then s.(rows := s.rows[o := s.rows[o].(status := st)]) else s
    case Reset(o) =>
      if o in s.rows && s.rows[o].status == ASSIGNED && s.rows[o].agent.Some?
      then s.(rows := s.rows[o := Row(READY, None)], resets := s.resets[o := Count(s.resets, o) + 1])
      else s
    case ExpireOffer(o) => s.(keys := s.keys.(offers := s.keys.offers - {o}))
    case ExpireClaim(o) => s.(keys := s.keys.(claims := s.keys.claims - {o}))
    case ExpireAttempts(o) =>
      s.(keys := s.keys.(attempts := s.keys.attempts - {o}), sent := s.sent - {o},
         carried := s.carried[o := |InFlight(s.workers, o)|])
    case Invoke(pid, c) =>
      if pid !in s.calls && (c.Claiming? || c.Rejecting? || (c.Offered? && c.offer.None?)) then Goto(s, pid, c) else s
    case Advance(pid) => if pid in s.calls then AdvanceCall(s, pid, s.calls[pid]) else s
    case TransactionFails(pid) =>
      if pid in s.calls && s.calls[pid].Holding?
      then var c := s.calls[pid]; Goto(s, pid, Undoing(c.order, c.agent, c.offer, 1, TransactionError))
      else s
    case AcknowledgementLost(pid) =>
      if pid in s.calls && s.calls[pid].Holding? && Claimable(s, s.calls[pid].order)
      then var c := s.calls[pid];
           Goto(TakeRow(s, pid, c.order, c.agent), pid, Undoing(c.order, c.agent, c.offer, 1, TransactionError))
      else s
    case FailsAfterCommit(pid) =>
      if pid in s.calls && s.calls[pid].Assigned?
      then Goto(s, pid, Failed(s.calls[pid].order, s.calls[pid].agent, ErrorAfterCommit)) else s
    case Try(w, o) =>
      if w in s.workers && s.workers[w].Idle? && o !in s.keys.offers then Park(s, w, Checked(o)) else s
    case Proceed(w, found) => if w in s.workers then ProceedTick(s, w, s.workers[w], found) else s
    case Restart(w) => if w in s.workers then Park(s, w, Idle) else s
  }

  function Run(s: System, es: seq<Event>): System
    decreases |es|
  {
    if es == [] then s else Step(Run(s, es[..|es| - 1]), es[|es| - 1])
  }

  lemma {:induction false} RunConcat(s: System, a: seq<Event>, b: seq<Event>)
    ensures Run(s, a + b) == Run(Run(s, a), b)
    decreases |b|
  {
    if b == [] {
      assert a + b == a;
    } else {
      var c := b[..|b| - 1];
      assert (a + b)[..|a + b| - 1] == a + c;
      RunConcat(s, a, c);
    }
  }

  // ---------------------------------------------------------------------------
  // Safety: who holds an order
  // ---------------------------------------------------------------------------

  /** The call may still reach the conditional update. */
  predicate MayStillTake(c: Call) {
    c.Claiming? || c.Offered? || c.Holding?
  }

  predicate HasOffer(c: Call) {
    c.Offered? || c.Holding? || c.Undoing? || c.Assigned? || c.Succeeded?
  }

  ghost predicate CallInv(s: System, pid: Pid)
    requires pid in s.calls
  {
    var c := s.calls[pid];
    && (c.Assigned? || c.Succeeded? ==> pid in Winners(s, c.order))
    && (HasOffer(c) && c.offer.Some? ==> c.agent in c.offer.value)
  }

  ghost predicate OrderInv(s: System, o: OrderId) {
    var ws := Winners(s, o);
    && |ws| == Count(s.resets, o) + (if o in s.rows && s.rows[o].agent.Some? then 1 else 0)
    && Distinct(ws)
    && (forall pid :: pid in ws ==> pid in s.calls && s.calls[pid].order == o && !MayStillTake(s.calls[pid]))
    && (o in s.rows && s.rows[o].agent.Some? ==>
          ws != [] && ws[|ws| - 1] in s.calls && s.calls[ws[|ws| - 1]].agent == s.rows[o].agent.value)
  }

  ghost predicate Safe(s: System) {
    && (forall pid :: pid in s.calls ==> CallInv(s, pid))
    && (forall o :: OrderInv(s, o))
  }

  /** Moving one call that has not the update before it, with rows and winners as they were. */
  lemma GotoKeepsSafe(s: System, s': System, pid: Pid, c: Call)
    requires Safe(s)
    requires s'.rows == s.rows && s'.winners == s.winners && s'.resets == s.resets
    requires s'.calls == s.calls[pid := c]
    requires pid in s.calls ==>
               && c.order == s.calls[pid].order && c.agent == s.calls[pid].agent
               && (!MayStillTake(s.calls[pid]) ==> !MayStillTake(c))
    requires c.Assigned? || c.Succeeded? ==> pid in s.calls && s.calls[pid].Assigned?
    requires HasOffer(c) && c.offer.Some? ==> c.agent in c.offer.value
    ensures Safe(s')
  {
    forall o ensures OrderInv(s', o) {
      assert OrderInv(s, o);
      assert Winners(s', o) == Winners(s, o);
    }
    forall p | p in s'.calls ensures CallInv(s', p) {
      if p in s.calls {
        assert CallInv(s, p);
      }
    }
  }

  lemma TakeKeepsSafe(s: System, pid: Pid, c: Call)
    requires Safe(s) && pid in s.calls && s.calls[pid].Holding?
    requires Claimable(s, s.calls[pid].order)
    requires c.Assigned? || c.Undoing?
    requires c.order == s.calls[pid].order && c.agent == s.calls[pid].agent && c.offer == s.calls[pid].offer
    ensures Safe(Goto(TakeRow(s, pid, c.order, c.agent), pid, c))
  {
    var s' := Goto(TakeRow(s, pid, c.order, c.agent), pid, c);
    assert CallInv(s, pid);
    forall o ensures OrderInv(s', o) {
      assert OrderInv(s, o);
      if o != c.order {
        assert Winners(s', o) == Winners(s, o);
      }
    }
    forall p | p in s'.calls ensures CallInv(s', p) {
      assert CallInv(s, p);
    }
  }

  /** What a call may become without the conditional update. */
  predicate Follows(c: Call, c': Call) {
    && c'.order == c.order && c'.agent == c.agent
    && (!MayStillTake(c) ==> !MayStillTake(c'))
    && (c'.Assigned? || c'.Succeeded? ==> c.Assigned?)
    && (HasOffer(c') && c'.offer.Some? ==> c'.agent in c'.offer.value)
  }

  lemma CallAfterFollows(k: Keys, c: Call)
    requires HasOffer(c) && c.offer.Some? ==> c.agent in c.offer.value
    ensures CallAfter(k, c) == c || Follows(c, CallAfter(k, c))
  {
  }

  lemma SameRowsKeepSafe(s: System, s': System)
    requires Safe(s)
    requires s'.rows == s.rows && s'.calls == s.calls && s'.winners == s.winners && s'.resets == s.resets
    ensures Safe(s')
  {
    forall p ensures OrderInv(s', p) {
      assert OrderInv(s, p);
    }
    forall p | p in s'.calls ensures CallInv(s', p) {
      assert CallInv(s, p);
    }
  }

  lemma AdvanceKeepsSafe(s: System, pid: Pid)
    requires Safe(s) && pid in s.calls
    ensures Safe(AdvanceCall(s, pid, s.calls[pid]))
  {
    var c := s.calls[pid];
    if c.Holding? && Claimable(s, c.order) {
      TakeKeepsSafe(s, pid, Assigned(c.order, c.agent, c.offer));
    } else {
      assert CallInv(s, pid);
      hide Safe, Winners, CallAfter;
      var s' := AdvanceCall(s, pid, c);
      CallAfterFollows(s.keys, c);
      if s'.calls[pid] == c {
        SameRowsKeepSafe(s, s');
      } else {
        GotoKeepsSafe(s, s', pid, s'.calls[pid]);
      }
    }
  }

  lemma RowsKeepSafe(s: System, s': System, o: OrderId)
    requires Safe(s) && s'.calls == s.calls && s'.winners == s.winners
    requires s'.rows.Keys == s.rows.Keys + {o}
    requires forall p :: p in s.rows && p != o ==> s'.rows[p] == s.rows[p]
    requires forall p :: p != o ==> Count(s'.resets, p) == Count(s.resets, p)
    requires o in s'.rows
    requires if o in s.rows then
               || (s'.rows[o].agent == s.rows[o].agent && Count(s'.resets, o) == Count(s.resets, o))
               || (s'.rows[o].agent.None? && s.rows[o].agent.Some? && Count(s'.resets, o) == Count(s.resets, o) + 1)
             else s'.rows[o].agent.None? && Count(s'.resets, o) == Count(s.resets, o)
    ensures Safe(s')
  {
    forall p ensures OrderInv(s', p) {
      assert OrderInv(s, p);
      assert Winners(s', p) == Winners(s, p);
    }
    forall p | p in s'.calls ensures CallInv(s', p) {
      assert CallInv(s, p);
    }
  }

  lemma OtherWritersKeepSafe(s: System, e: Event)
    requires Safe(s) && (e.InsertOrder? || e.WriteStatus? || e.Reset?)
    ensures Safe(Step(s, e))
  {
    hide Safe;
    if Step(s, e) != s {
      RowsKeepSafe(s, Step(s, e), e.order);
    }
  }

  lemma MoveKeepsSafe(s: System, s': System, pid: Pid)
    requires Safe(s) && pid in s.calls
    requires s'.rows == s.rows && s'.winners == s.winners && s'.resets == s.resets
    requires pid in s'.calls && s'.calls == s.calls[pid := s'.calls[pid]]
    requires var c, c' := s.calls[pid], s'.calls[pid];
             && c'.order == c.order && c'.agent == c.agent
             && ((c.Holding? && c'.Undoing? && c'.offer == c.offer) || (c.Assigned? && c'.Failed?))
    ensures Safe(s')
  {
    assert CallInv(s, pid);
    GotoKeepsSafe(s, s', pid, s'.calls[pid]);
  }

  lemma CallsKeepSafe(s: System, e: Event)
    requires Safe(s)
    requires e.Invoke? || e.TransactionFails? || e.FailsAfterCommit? || e.AcknowledgementLost?
    ensures Safe(Step(s, e))
  {
    hide Safe;
    var s' := Step(s, e);
    if s' != s {
      if e.Invoke? {
        GotoKeepsSafe(s, s', e.pid, e.call);
      } else if e.AcknowledgementLost? {
        TakeKeepsSafe(s, e.pid, s'.calls[e.pid]);
      } else {
        MoveKeepsSafe(s, s', e.pid);
      }
    }
  }

  lemma KeysKeepSafe(s: System, e: Event)
    requires Safe(s)
    requires e.ExpireOffer? || e.ExpireClaim? || e.ExpireAttempts? || e.Try? || e.Proceed? || e.Restart?
    ensures Safe(Step(s, e))
  {
    hide Safe;
    SameRowsKeepSafe(s, Step(s, e));
  }

  lemma StepKeepsSafe(s: System, e: Event)
    requires Safe(s)
    ensures Safe(Step(s, e))
  {
    hide Safe;
    if e.InsertOrder? || e.WriteStatus? || e.Reset? {
      OtherWritersKeepSafe(s, e);
    } else if e.Invoke? || e.TransactionFails? || e.FailsAfterCommit? || e.AcknowledgementLost? {
      CallsKeepSafe(s, e);
    } else if e.Advance? {
      if e.pid in s.calls {
        AdvanceKeepsSafe(s, e.pid);
      }
    } else {
      KeysKeepSafe(s, e);
    }
  }

  lemma {:induction false} RunKeepsSafe(s: System, es: seq<Event>)
    requires Safe(s)
    ensures Safe(Run(s, es))
    decreases |es|
  {
    if es != [] {
      RunKeepsSafe(s, es[..|es| - 1]);
      StepKeepsSafe(Run(s, es[..|es| - 1]), es[|es| - 1]);
    }
  }

  lemma InitialIsSafe(maxAttempts: nat, workers: set<Pid>)
    ensures Safe(Initial(maxAttempts, workers))
  {
  }

  ghost predicate Won(s: System, o: OrderId, pid: Pid) {
    pid in s.calls && s.calls[pid].Succeeded? && s.calls[pid].order == o
  }

  predicate IsResetOf(e: Event, o: OrderId) {
    e.Reset? && e.order == o
  }

  lemma StepKeepsResets(s: System, e: Event, o: OrderId)
    requires !IsResetOf(e, o)
    ensures Count(Step(s, e).resets, o) == Count(s.resets, o)
  {
    hide CallAfter, KeysAfter, TickAfter, KeysAfterTick;
  }

  lemma {:induction false} NoResetsNoCount(s: System, es: seq<Event>, o: OrderId)
    requires forall i :: 0 <= i < |es| ==> !IsResetOf(es[i], o)
    ensures Count(Run(s, es).resets, o) == Count(s.resets, o)
    decreases |es|
  {
    if es != [] {
      NoResetsNoCount(s, es[..|es| - 1], o);
      StepKeepsResets(Run(s, es[..|es| - 1]), es[|es| - 1], o);
    }
  }

  /** For every interleaving: the calls that succeed on an order are at most one more than its resets. */
  lemma SuccessesBoundedByResets(maxAttempts: nat, workers: set<Pid>, es: seq<Event>, o: OrderId, won: set<Pid>)
    requires forall pid :: pid in won ==> Won(Run(Initial(maxAttempts, workers), es), o, pid)
    ensures |won| <= 1 + Count(Run(Initial(maxAttempts, workers), es).resets, o)
  {
    var s := Run(Initial(maxAttempts, workers), es);
    InitialIsSafe(maxAttempts, workers);
    RunKeepsSafe(Initial(maxAttempts, workers), es);
    var ws := Winners(s, o);
    assert OrderInv(s, o);
    forall pid | pid in won ensures pid in SetOf(ws) {
      assert CallInv(s, pid);
    }
    ElementsFit(ws);
    CardinalityMonotone(won, SetOf(ws));
  }

  lemma OnlyWinner(s: System, o: OrderId, p: Pid, q: Pid)
    requires Safe(s) && Count(s.resets, o) == 0 && Won(s, o, p) && Won(s, o, q)
    ensures p == q
    ensures o in s.rows && s.rows[o].agent == Some(s.calls[p].agent)
    ensures s.calls[p].offer.Some? ==> s.calls[p].agent in s.calls[p].offer.value
  {
    assert OrderInv(s, o) && CallInv(s, p) && CallInv(s, q);
  }

  /** For every interleaving without a reset of the order, at most one call succeeds on it, and the row's
      agent is that call's; a claim that succeeds was listed in the offer it read. */
  lemma AtMostOneSuccess(maxAttempts: nat, workers: set<Pid>, es: seq<Event>, o: OrderId, p: Pid, q: Pid)
    requires forall i :: 0 <= i < |es| ==> !IsResetOf(es[i], o)
    requires var s := Run(Initial(maxAttempts, workers), es); Won(s, o, p) && Won(s, o, q)
    ensures p == q
    ensures var s := Run(Initial(maxAttempts, workers), es);
            && o in s.rows && s.rows[o].agent == Some(s.calls[p].agent)
            && (s.calls[p].offer.Some? ==> s.calls[p].agent in s.calls[p].offer.value)
  {
    hide Run, Safe, OrderInv, CallInv, Won;
    InitialIsSafe(maxAttempts, workers);
    RunKeepsSafe(Initial(maxAttempts, workers), es);
    NoResetsNoCount(Initial(maxAttempts, workers), es, o);
    OnlyWinner(Run(Initial(maxAttempts, workers), es), o, p, q);
  }

  lemma AdvanceIs(s: System, pid: Pid)
    ensures Step(s, Advance(pid)) == if pid in s.calls then AdvanceCall(s, pid, s.calls[pid]) else s
  {
    hide AdvanceCall;
  }

  /** Whatever the step: an order that gets an agent was READY without one, is ASSIGNED to the agent of a call that held its
      claim key, and that call is noted as its last winner. */
  lemma OnlyReadyRowsAreTaken(s: System, e: Event, o: OrderId)
    requires var s' := Step(s, e); o in s'.rows && s'.rows[o].agent.Some? && !(o in s.rows && s.rows[o].agent.Some?)
    ensures var s' := Step(s, e);
            && (e.Advance? || e.AcknowledgementLost?) && e.pid in s.calls && s.calls[e.pid].Holding? && s.calls[e.pid].order == o
            && o in s.rows && s.rows[o] == Row(READY, None)
            && s'.rows == s.rows[o := Row(ASSIGNED, Some(s.calls[e.pid].agent))]
            && o in s'.winners && s'.winners[o] != [] && s'.winners[o][|s'.winners[o]| - 1] == e.pid
  {
    hide CallAfter, KeysAfter;
    if e.Advance? {
      AdvanceIs(s, e.pid);
      hide Step;
    } else if e.Proceed? {
      hide TickAfter, KeysAfterTick;
    } else {
      hide AdvanceCall, ProceedTick, InFlight;
    }
  }

  lemma StepKeepsAgent(s: System, e: Event, o: OrderId)
    requires o in s.rows && s.rows[o].agent.Some? && !IsResetOf(e, o)
    ensures o in Step(s, e).rows && Step(s, e).rows[o].agent == s.rows[o].agent
  {
    if e.Advance? {
      hide CallAfter, KeysAfter;
    } else {
      hide AdvanceCall, TickAfter, KeysAfterTick;
    }
  }

  /** Once a row has an agent, no interleaving without a reset of it changes the agent. */
  lemma {:induction false} AgentStays(s: System, es: seq<Event>, o: OrderId)
    requires o in s.rows && s.rows[o].agent.Some?
    requires forall i :: 0 <= i < |es| ==> !IsResetOf(es[i], o)
    ensures o in Run(s, es).rows && Run(s, es).rows[o].agent == s.rows[o].agent
    decreases |es|
  {
    if es != [] {
      AgentStays(s, es[..|es| - 1], o);
      StepKeepsAgent(Run(s, es[..|es| - 1]), es[|es| - 1], o);
    }
  }

  lemma RunOne(s: System, e: Event)
    ensures Run(s, [e]) == Step(s, e)
  {
    assert [e][..0] == [];
  }

  lemma InvokeStep(s: System, pid: Pid, o: OrderId, a: AgentId)
    requires pid !in s.calls
    ensures Step(s, Invoke(pid, Offered(o, a, None))) == s.(calls := s.calls[pid := Offered(o, a, None)])
  {
  }

  lemma SetsKey(s: System, pid: Pid, o: OrderId, a: AgentId)
    requires pid in s.calls && s.calls[pid] == Offered(o, a, None) && o !in s.keys.claims
    ensures Step(s, Advance(pid))
            == s.(calls := s.calls[pid := Holding(o, a, None)], keys := s.keys.(claims := s.keys.claims[o := a]))
  {
  }

  /** A call invoked by an administrator while the claim key is free holds the key after one command. */
  lemma AdminHolds(s: System, pid: Pid, o: OrderId, a: AgentId)
    requires pid !in s.calls && o !in s.keys.claims
    ensures Run(s, [Invoke(pid, Offered(o, a, None)), Advance(pid)])
            == s.(calls := s.calls[pid := Holding(o, a, None)], keys := s.keys.(claims := s.keys.claims[o := a]))
  {
    var e1, e2 := Invoke(pid, Offered(o, a, None)), Advance(pid);
    assert [e1, e2] == [e1] + [e2];
    RunConcat(s, [e1], [e2]);
    hide Run, Step;
    RunOne(s, e1);
    RunOne(Step(s, e1), e2);
    InvokeStep(s, pid, o, a);
    SetsKey(s.(calls := s.calls[pid := Offered(o, a, None)]), pid, o, a);
    assert s.calls[pid := Offered(o, a, None)][pid := Holding(o, a, None)] == s.calls[pid := Holding(o, a, None)];
  }

  lemma CleanUpDeletesTheKey(t: System, p: Pid)
    requires p in t.calls && t.calls[p].Holding?
    ensures t.calls[p].order !in Run(t, [TransactionFails(p), Advance(p)]).keys.claims
  {
    var e1, e2 := TransactionFails(p), Advance(p);
    assert [e1, e2] == [e1] + [e2];
    RunConcat(t, [e1], [e2]);
    RunOne(t, e1);
    RunOne(Step(t, e1), e2);
    hide Run, Claimable, TakeRow, TickAfter, KeysAfterTick;
    assert Step(t, e1).calls[p].Undoing?;
  }

  /** The claim key is no lock. In any state with the key free, once it expires a second call holds it too,
      and the clean-up of the first deletes a key that names the other agent. So safety cannot rest on
      the key; it rests on the conditional update of the row. */
  lemma ClaimKeyIsNotALock(s: System, o: OrderId, a: AgentId, b: AgentId, p: Pid, q: Pid)
    requires p !in s.calls && q !in s.calls && p != q && o !in s.keys.claims
    ensures exists es ::
              var t := Run(s, es);
              && p in t.calls && t.calls[p] == Holding(o, a, None)
              && q in t.calls && t.calls[q] == Holding(o, b, None)
              && o in t.keys.claims && t.keys.claims[o] == b
              && o !in Run(t, [TransactionFails(p), Advance(p)]).keys.claims
  {
    var first := [Invoke(p, Offered(o, a, None)), Advance(p)];
    var second := [Invoke(q, Offered(o, b, None)), Advance(q)];
    var es := first + [ExpireClaim(o)] + second;
    AdminHolds(s, p, o, a);
    var s1 := Run(s, first);
    RunConcat(s, first, [ExpireClaim(o)]);
    RunOne(s1, ExpireClaim(o));
    var s2 := Step(s1, ExpireClaim(o));
    AdminHolds(s2, q, o, b);
    RunConcat(s, first + [ExpireClaim(o)], second);
    CleanUpDeletesTheKey(Run(s, es), p);
  }

  // ---------------------------------------------------------------------------
  // When the claim key does exclude
  // ---------------------------------------------------------------------------

  predicate Holds(s: System, o: OrderId, p: Pid) {
    p in s.calls && s.calls[p].Holding? && s.calls[p].order == o
  }

  ghost predicate TwoHold(s: System, o: OrderId) {
    exists p, q :: p != q && Holds(s, o, p) && Holds(s, o, q)
  }

  /** While some call holds the key of the order it goes away: it expires, or a call that undoes its own deletes it. */
  ghost predicate Removal(s: System, e: Event, o: OrderId) {
    && o in s.keys.claims
    && (exists p :: Holds(s, o, p))
    && (|| e == ExpireClaim(o)
        || (e.Advance? && e.pid in s.calls && s.calls[e.pid].Undoing? && s.calls[e.pid].order == o))
  }

  ghost predicate NoRemoval(s: System, es: seq<Event>, o: OrderId) {
    forall i :: 0 <= i < |es| ==> !Removal(Run(s, es[..i]), es[i], o)
  }

  /** At most one call holds the key of the order, and then the key is set. */
  ghost predicate Excludes(s: System, o: OrderId) {
    forall p :: Holds(s, o, p) ==> o in s.keys.claims && forall q :: Holds(s, o, q) ==> q == p
  }

  lemma CallAfterMoves(k: Keys, c: Call)
    ensures CallAfter(k, c).order == c.order
    ensures CallAfter(k, c).Holding? <==> c.Offered? && c.order !in k.claims
    ensures KeysAfter(k, c).claims == (if CallAfter(k, c).Holding? then k.claims[c.order := c.agent]
                                       else if c.Undoing? then k.claims - {c.order}
                                       else k.claims)
  {
  }

  /** What a call's next command does to its place and to the claim keys. */
  lemma AdvanceMoves(s: System, pid: Pid)
    requires pid in s.calls
    ensures var c, s' := s.calls[pid], Step(s, Advance(pid));
            && pid in s'.calls && s'.calls == s.calls[pid := s'.calls[pid]]
            && s'.calls[pid].order == c.order
            && (s'.calls[pid].Holding? <==> c.Offered? && c.order !in s.keys.claims)
            && s'.keys.claims == (if s'.calls[pid].Holding? then s.keys.claims[c.order := c.agent]
                                  else if c.Undoing? then s.keys.claims - {c.order}
                                  else s.keys.claims)
  {
    var c := s.calls[pid];
    CallAfterMoves(s.keys, c);
    AdvanceIs(s, pid);
    hide Claimable, CallAfter, KeysAfter, Step;
  }

  lemma AdvanceKeepsExcludes(s: System, pid: Pid, o: OrderId)
    requires Excludes(s, o) && !Removal(s, Advance(pid), o)
    ensures Excludes(Step(s, Advance(pid)), o)
  {
    if pid in s.calls {
      AdvanceMoves(s, pid);
      hide Step;
      var s' := Step(s, Advance(pid));
      forall p, q | Holds(s', o, p) && Holds(s', o, q) ensures o in s'.keys.claims && q == p {
        assert p != pid ==> Holds(s, o, p);
        assert q != pid ==> Holds(s, o, q);
      }
    }
  }

  lemma OthersMove(s: System, e: Event, o: OrderId)
    requires !e.Advance?
    ensures forall p :: Holds(Step(s, e), o, p) ==> Holds(s, o, p)
    ensures o in s.keys.claims && e != ExpireClaim(o) ==> o in Step(s, e).keys.claims
  {
    hide Claimable, TickAfter, AdvanceCall;
  }

  lemma OthersKeepExcludes(s: System, e: Event, o: OrderId)
    requires Excludes(s, o) && !Removal(s, e, o) && !e.Advance?
    ensures Excludes(Step(s, e), o)
  {
    OthersMove(s, e, o);
    hide Step;
  }

  lemma {:induction false} RunKeepsExcludes(s: System, es: seq<Event>, o: OrderId)
    requires Excludes(s, o) && NoRemoval(s, es, o)
    ensures Excludes(Run(s, es), o)
    decreases |es|
  {
    if es != [] {
      var init, last := es[..|es| - 1], es[|es| - 1];
      forall i | 0 <= i < |init| ensures !Removal(Run(s, init[..i]), init[i], o) {
        assert init[..i] == es[..i] && init[i] == es[i];
      }
      RunKeepsExcludes(s, init, o);
      assert !Removal(Run(s, es[..|es| - 1]), es[|es| - 1], o);
      hide Step, Removal, Excludes;
      if last.Advance? {
        AdvanceKeepsExcludes(Run(s, init), last.pid, o);
      } else {
        OthersKeepExcludes(Run(s, init), last, o);
      }
    }
  }

  lemma {:induction false} FreshPid(known: set<Pid>) returns (n: Pid)
    ensures forall p :: p in known ==> p < n
    decreases |known|
  {
    n := 0;
    if known != {} {
      var p :| p in known;
      var rest := known - {p};
      n := FreshPid(rest);
      if p >= n {
        n := p + 1;
      }
      forall k | k in known ensures k < n {
        assert k in rest || k == p;
      }
    }
  }

  lemma RemovalLeavesHolder(s: System, e: Event, o: OrderId, p: Pid)
    requires Removal(s, e, o) && Holds(s, o, p)
    ensures o !in Step(s, e).keys.claims && Holds(Step(s, e), o, p)
  {
  }

  lemma CallsDoNotRemove(t: System, q: Pid, o: OrderId)
    requires q !in t.calls && o !in t.keys.claims
    ensures !Removal(t, Invoke(q, Offered(o, 0, None)), o)
    ensures !Removal(Step(t, Invoke(q, Offered(o, 0, None))), Advance(q), o)
  {
  }

  /** Once the key is gone under its holder, the next call holds it too. */
  lemma NextCallJoins(s: System, e: Event, o: OrderId) returns (more: seq<Event>)
    requires Removal(s, e, o)
    ensures NoRemoval(Step(s, e), more, o) && TwoHold(Run(Step(s, e), more), o)
  {
    var p :| Holds(s, o, p);
    var t := Step(s, e);
    RemovalLeavesHolder(s, e, o, p);
    hide Step, Removal;
    var q := FreshPid(t.calls.Keys);
    assert q !in t.calls;
    var e1, e2 := Invoke(q, Offered(o, 0, None)), Advance(q);
    more := [e1, e2];
    AdminHolds(t, q, o, 0);
    assert Holds(Run(t, more), o, p) && Holds(Run(t, more), o, q);
    assert more[..0] == [] && more[..1] == [e1];
    RunOne(t, e1);
    CallsDoNotRemove(t, q, o);
  }

  lemma ExcludesMeans(s: System, o: OrderId)
    requires Excludes(s, o)
    ensures !TwoHold(s, o)
  {
  }

  lemma PrefixHasNoRemoval(s: System, es: seq<Event>, n: nat, o: OrderId)
    requires NoRemoval(s, es, o) && n <= |es|
    ensures NoRemoval(s, es[..n], o)
  {
    forall i | 0 <= i < n ensures !Removal(Run(s, es[..n][..i]), es[..n][i], o) {
      assert es[..n][..i] == es[..i];
    }
    hide Removal;
  }

  /** The claim key excludes exactly as long as it stays. In a run two calls can come to hold the key of an order at
      once, with no removal of their own making, if and only if at some moment of the run the key expired or was
      deleted by a call undoing its own, while some call held it. */
  lemma KeyExcludesIffNeverRemoved(maxAttempts: nat, workers: set<Pid>, es: seq<Event>, o: OrderId)
    ensures var s := Initial(maxAttempts, workers);
            (exists i, more :: 0 <= i <= |es| && NoRemoval(Run(s, es[..i]), more, o) && TwoHold(Run(Run(s, es[..i]), more), o))
            <==> !NoRemoval(s, es, o)
  {
    var s := Initial(maxAttempts, workers);
    assert Excludes(s, o);
    if NoRemoval(s, es, o) {
      forall i, more | 0 <= i <= |es| && NoRemoval(Run(s, es[..i]), more, o)
        ensures !TwoHold(Run(Run(s, es[..i]), more), o)
      {
        PrefixHasNoRemoval(s, es, i, o);
        RunKeepsExcludes(s, es[..i], o);
        RunKeepsExcludes(Run(s, es[..i]), more, o);
        ExcludesMeans(Run(Run(s, es[..i]), more), o);
        hide Run, Excludes, TwoHold, NoRemoval;
      }
    } else {
      var i :| 0 <= i < |es| && Removal(Run(s, es[..i]), es[i], o);
      assert es[..i + 1][..i] == es[..i];
      assert Run(s, es[..i + 1]) == Step(Run(s, es[..i]), es[i]);
      hide Removal, Step, Excludes, Run, NoRemoval, TwoHold;
      var more := NextCallJoins(Run(s, es[..i]), es[i], o);
    }
  }

  /** Two calls that hold the key at once are always preceded by such a removal. */
  lemma TwoHoldersNeedARemoval(maxAttempts: nat, workers: set<Pid>, es: seq<Event>, o: OrderId)
    requires TwoHold(Run(Initial(maxAttempts, workers), es), o)
    ensures exists i :: 0 <= i < |es| && Removal(Run(Initial(maxAttempts, workers), es[..i]), es[i], o)
  {
    var s := Initial(maxAttempts, workers);
    if NoRemoval(s, es, o) {
      RunKeepsExcludes(s, es, o);
      ExcludesMeans(Run(s, es), o);
    }
  }

  lemma DeletesAgain(s: System, p: Pid, o: OrderId, a: AgentId)
    requires p in s.calls && s.calls[p] == Undoing(o, a, None, 1, OrderNotInReadyState)
    ensures Step(s, Advance(p)) == s.(calls := s.calls[p := Failed(o, a, OrderNotInReadyState)],
                                      keys := s.keys.(claims := s.keys.claims - {o}))
  {
  }

  lemma SecondDeletionTakesAnothersKey(s: System, o: OrderId, a: AgentId, b: AgentId, c: AgentId)
    requires s.calls == map[1 := Undoing(o, a, None, 1, OrderNotInReadyState)] && s.keys.claims == map[]
    ensures var t := Run(s, [Invoke(2, Offered(o, b, None)), Advance(2)] + [Advance(1)]
                            + [Invoke(3, Offered(o, c, None)), Advance(3)]);
            Holds(t, o, 2) && Holds(t, o, 3) && t.keys.claims == map[o := c]
  {
    var e3, e4, e5 := [Invoke(2, Offered(o, b, None)), Advance(2)], [Advance(1)], [Invoke(3, Offered(o, c, None)), Advance(3)];
    RunConcat(s, e3 + e4, e5);
    RunConcat(s, e3, e4);
    hide Run, Step;
    AdminHolds(s, 2, o, b);
    var s3 := Run(s, e3);
    RunOne(s3, Advance(1));
    DeletesAgain(s3, 1, o, a);
    AdminHolds(Run(s3, e4), 3, o, c);
  }

  lemma DeletesOnce(s: System, p: Pid, o: OrderId, a: AgentId)
    requires p in s.calls && s.calls[p] == Undoing(o, a, None, 2, OrderNotInReadyState)
    ensures Step(s, Advance(p)) == s.(calls := s.calls[p := Undoing(o, a, None, 1, OrderNotInReadyState)],
                                      keys := s.keys.(claims := s.keys.claims - {o}))
  {
  }

  lemma IsRefused(s: System, p: Pid, o: OrderId, a: AgentId)
    requires p in s.calls && s.calls[p] == Holding(o, a, None) && o !in s.rows
    ensures Step(s, Advance(p)) == s.(calls := s.calls[p := Undoing(o, a, None, 2, OrderNotInReadyState)])
  {
  }

  /** The refusal and the first of its two deletions. */
  lemma RefusedOnce(s: System, p: Pid, o: OrderId, a: AgentId)
    requires p in s.calls && s.calls[p] == Holding(o, a, None) && o !in s.rows
    ensures Run(s, [Advance(p), Advance(p)])
            == s.(calls := s.calls[p := Undoing(o, a, None, 1, OrderNotInReadyState)],
                  keys := s.keys.(claims := s.keys.claims - {o}))
  {
    hide Run, Step;
    assert [Advance(p), Advance(p)] == [Advance(p)] + [Advance(p)];
    RunConcat(s, [Advance(p)], [Advance(p)]);
    RunOne(s, Advance(p));
    IsRefused(s, p, o, a);
    var s1 := s.(calls := s.calls[p := Undoing(o, a, None, 2, OrderNotInReadyState)]);
    RunOne(s1, Advance(p));
    DeletesOnce(s1, p, o, a);
    assert s1.calls[p := Undoing(o, a, None, 1, OrderNotInReadyState)]
        == s.calls[p := Undoing(o, a, None, 1, OrderNotInReadyState)];
  }

  lemma FirstCallDeletesOnce(s: System, o: OrderId, a: AgentId)
    requires s.calls == map[] && s.keys.claims == map[] && s.rows == map[]
    ensures var t := Run(s, [Invoke(1, Offered(o, a, None)), Advance(1)] + [Advance(1), Advance(1)]);
            && t.calls == map[1 := Undoing(o, a, None, 1, OrderNotInReadyState)]
            && t.keys.claims == map[] && t.rows == map[]
  {
    var e1, e2 := [Invoke(1, Offered(o, a, None)), Advance(1)], [Advance(1), Advance(1)];
    RunConcat(s, e1, e2);
    hide Run, Step;
    AdminHolds(s, 1, o, a);
    RefusedOnce(Run(s, e1), 1, o, a);
  }

  /** A refused call, another one between its two deletions, and a third after them. */
  function DoubleDeletion(o: OrderId, a: AgentId, b: AgentId, c: AgentId): seq<Event> {
    ([Invoke(1, Offered(o, a, None)), Advance(1)] + [Advance(1), Advance(1)])
    + (([Invoke(2, Offered(o, b, None)), Advance(2)] + [Advance(1)]) + [Invoke(3, Offered(o, c, None)), Advance(3)])
  }

  lemma NothingExpires(o: OrderId, a: AgentId, b: AgentId, c: AgentId)
    ensures forall i :: 0 <= i < |DoubleDeletion(o, a, b, c)| ==> DoubleDeletion(o, a, b, c)[i] != ExpireClaim(o)
  {
  }

  /** Expiry is not needed: a refused call deletes the key twice, and its second deletion takes the key of the call
      that came in between. Here the order is not even there to be taken. */
  lemma SecondDeletionBreaksExclusion(maxAttempts: nat, workers: set<Pid>, o: OrderId, a: AgentId, b: AgentId, c: AgentId)
    ensures var es := DoubleDeletion(o, a, b, c);
            var s := Run(Initial(maxAttempts, workers), es);
            && (forall i :: 0 <= i < |es| ==> es[i] != ExpireClaim(o))
            && Holds(s, o, 2) && Holds(s, o, 3)
            && s.keys.claims == map[o := c]
  {
    NothingExpires(o, a, b, c);
    var s0 := Initial(maxAttempts, workers);
    var first := [Invoke(1, Offered(o, a, None)), Advance(1)] + [Advance(1), Advance(1)];
    RunConcat(s0, first,
              ([Invoke(2, Offered(o, b, None)), Advance(2)] + [Advance(1)]) + [Invoke(3, Offered(o, c, None)), Advance(3)]);
    assert s0.calls == map[] && s0.keys.claims == map[] && s0.rows == map[];
    hide Run, Step, Initial;
    FirstCallDeletesOnce(s0, o, a);
    SecondDeletionTakesAnothersKey(Run(s0, first), o, a, b, c);
  }

  // ---------------------------------------------------------------------------
  // Offer attempts
  // ---------------------------------------------------------------------------

  /** The highest value the attempts counter can take with `workers` worker processes. */
  function AttemptsCap(maxAttempts: nat, workers: nat): int {
    if maxAttempts == 0 then 0 else maxAttempts + workers - 1
  }

  ghost predicate AttemptsInv(s: System, o: OrderId) {
    && (s.maxAttempts == 0 ==> Pending(s.workers, o) == {})
    && Count(s.keys.attempts, o) + |Pending(s.workers, o)| <= AttemptsCap(s.maxAttempts, |s.workers|)
    && Count(s.sent, o) + |InFlight(s.workers, o)| <= Count(s.keys.attempts, o) + Count(s.carried, o)
    && Count(s.carried, o) <= |s.workers|
  }

  lemma ParkedSets(s: System, w: Pid, t: Tick, o: OrderId)
    requires w in s.workers
    ensures var ws := s.workers[w := t];
            && ws.Keys == s.workers.Keys
            && Pending(ws, o) == (if IsPending(t, o) then Pending(s.workers, o) + {w} else Pending(s.workers, o) - {w})
            && InFlight(ws, o) == (if IsEmitting(t, o) then InFlight(s.workers, o) + {w} else InFlight(s.workers, o) - {w})
  {
  }

  lemma WorkerSetsFit(workers: map<Pid, Tick>, o: OrderId)
    ensures |Pending(workers, o)| <= |workers| && |InFlight(workers, o)| <= |workers|
  {
    CardinalityMonotone(Pending(workers, o), workers.Keys);
    CardinalityMonotone(InFlight(workers, o), workers.Keys);
  }

  function One(b: bool): nat {
    if b then 1 else 0
  }

  lemma ParkedSizes(s: System, w: Pid, t: Tick, o: OrderId)
    requires w in s.workers
    ensures var ws := s.workers[w := t];
            && |ws| == |s.workers|
            && |Pending(ws, o)| == |Pending(s.workers, o)| - One(IsPending(s.workers[w], o)) + One(IsPending(t, o))
            && |InFlight(ws, o)| == |InFlight(s.workers, o)| - One(IsEmitting(s.workers[w], o)) + One(IsEmitting(t, o))
  {
    var ws := s.workers[w := t];
    ParkedSets(s, w, t, o);
    assert ws.Keys == s.workers.Keys && |ws.Keys| == |ws| && |s.workers.Keys| == |s.workers|;
    assert IsPending(s.workers[w], o) <==> w in Pending(s.workers, o);
    assert IsEmitting(s.workers[w], o) <==> w in InFlight(s.workers, o);
    hide Pending, InFlight, IsPending, IsEmitting;
  }

  lemma ProceedKeepsAttempts(s: System, w: Pid, found: seq<AgentId>, o: OrderId)
    requires w in s.workers && AttemptsInv(s, o)
    ensures AttemptsInv(ProceedTick(s, w, s.workers[w], found), o)
  {
    var s' := ProceedTick(s, w, s.workers[w], found);
    ParkedSizes(s, w, s'.workers[w], o);
    WorkerSetsFit(s.workers, o);
    WorkerSetsFit(s'.workers, o);
    assert |Pending(s'.workers, o)| == 0 ==> Pending(s'.workers, o) == {};
    hide Pending, InFlight;
  }

  /** A worker that is parked out of the way. */
  lemma ParkedAside(s: System, w: Pid, t: Tick, o: OrderId)
    requires w in s.workers && !IsPending(t, o) && !IsEmitting(t, o)
    ensures var ws := Park(s, w, t).workers;
            |ws| == |s.workers| && Pending(ws, o) <= Pending(s.workers, o) && InFlight(ws, o) <= InFlight(s.workers, o)
  {
    ParkedSets(s, w, t, o);
    var ws := Park(s, w, t).workers;
    assert ws.Keys == s.workers.Keys && |ws.Keys| == |ws| && |s.workers.Keys| == |s.workers|;
  }

  lemma ParkKeepsAttempts(s: System, e: Event, o: OrderId)
    requires AttemptsInv(s, o) && (e.Try? || e.Restart?)
    ensures AttemptsInv(Step(s, e), o)
  {
    var t := if e.Try? then Checked(e.order) else Idle;
    hide Pending, InFlight;
    assert Step(s, e) == s || (e.worker in s.workers && Step(s, e) == Park(s, e.worker, t));
    hide Step;
    if Step(s, e) != s {
      ParkedAside(s, e.worker, t, o);
      var ws := Park(s, e.worker, t).workers;
      CardinalityMonotone(Pending(ws, o), Pending(s.workers, o));
      CardinalityMonotone(InFlight(ws, o), InFlight(s.workers, o));
    }
  }

  lemma CallsLeaveAttempts(k: Keys, c: Call)
    ensures KeysAfter(k, c).attempts == k.attempts
  {
  }

  lemma AdvanceLeavesAttempts(s: System, pid: Pid)
    ensures var s' := Step(s, Advance(pid));
            && s'.maxAttempts == s.maxAttempts && s'.keys.attempts == s.keys.attempts && s'.workers == s.workers
            && s'.sent == s.sent && s'.carried == s.carried
  {
    hide CallAfter, KeysAfter, Claimable, Step;
    AdvanceIs(s, pid);
    if pid in s.calls {
      CallsLeaveAttempts(s.keys, s.calls[pid]);
    }
  }

  lemma CallsMovedLeaveAttempts(s: System, e: Event)
    requires e.Invoke? || e.TransactionFails? || e.AcknowledgementLost? || e.FailsAfterCommit?
    ensures var s' := Step(s, e);
            && s'.maxAttempts == s.maxAttempts && s'.keys == s.keys && s'.workers == s.workers
            && s'.sent == s.sent && s'.carried == s.carried
  {
    hide Claimable;
  }

  lemma OtherEventsLeaveAttempts(s: System, e: Event)
    requires !e.Proceed? && !e.Try? && !e.Restart? && !e.ExpireAttempts?
    ensures var s' := Step(s, e);
            && s'.maxAttempts == s.maxAttempts && s'.keys.attempts == s.keys.attempts && s'.workers == s.workers
            && s'.sent == s.sent && s'.carried == s.carried
  {
    if e.Advance? {
      AdvanceLeavesAttempts(s, e.pid);
    } else if e.Invoke? || e.TransactionFails? || e.AcknowledgementLost? || e.FailsAfterCommit? {
      hide Step;
      CallsMovedLeaveAttempts(s, e);
    } else {
      hide Goto, TakeRow, AdvanceCall, ProceedTick, Park, InFlight;
    }
  }

  lemma ExpiryIs(s: System, expired: OrderId)
    ensures Step(s, ExpireAttempts(expired))
            == s.(keys := s.keys.(attempts := s.keys.attempts - {expired}),
                  sent := s.sent - {expired},
                  carried := s.carried[expired := |InFlight(s.workers, expired)|])
  {
    hide InFlight;
  }

  lemma ExpiryKeepsAttempts(s: System, expired: OrderId, o: OrderId)
    requires AttemptsInv(s, o)
    ensures AttemptsInv(Step(s, ExpireAttempts(expired)), o)
  {
    WorkerSetsFit(s.workers, o);
    ExpiryIs(s, expired);
    hide InFlight, Pending, Step;
  }

  lemma StepKeepsAttempts(s: System, e: Event, o: OrderId)
    requires AttemptsInv(s, o)
    ensures AttemptsInv(Step(s, e), o)
  {
    if e.Proceed? {
      if e.worker in s.workers {
        ProceedKeepsAttempts(s, e.worker, e.found, o);
      }
    } else if e.Try? || e.Restart? {
      ParkKeepsAttempts(s, e, o);
    } else if e.ExpireAttempts? {
      ExpiryKeepsAttempts(s, e.order, o);
    } else {
      hide Step;
      OtherEventsLeaveAttempts(s, e);
    }
  }

  lemma WorkersStay(s: System, e: Event)
    ensures Step(s, e).maxAttempts == s.maxAttempts && Step(s, e).workers.Keys == s.workers.Keys
  {
    if e.Proceed? || e.Try? || e.Restart? {
    } else if !e.ExpireAttempts? {
      OtherEventsLeaveAttempts(s, e);
    }
  }

  lemma {:induction false} RunKeepsAttempts(s: System, es: seq<Event>, o: OrderId)
    requires AttemptsInv(s, o)
    ensures AttemptsInv(Run(s, es), o)
    ensures Run(s, es).maxAttempts == s.maxAttempts && Run(s, es).workers.Keys == s.workers.Keys
    decreases |es|
  {
    if es != [] {
      RunKeepsAttempts(s, es[..|es| - 1], o);
      StepKeepsAttempts(Run(s, es[..|es| - 1]), es[|es| - 1], o);
      WorkersStay(Run(s, es[..|es| - 1]), es[|es| - 1]);
    }
  }

  /** For every interleaving of `k` worker processes, calls and expiries: the attempts counter of an order
      never exceeds maxAttempts + k - 1, and the offers sent in one lifetime of the counter are at most the
      counter plus the offers that were in flight when that lifetime began, at most one per worker. */
  lemma AttemptsAreBounded(maxAttempts: nat, workers: set<Pid>, es: seq<Event>, o: OrderId)
    requires workers != {}
    ensures var s := Run(Initial(maxAttempts, workers), es);
            && Count(s.keys.attempts, o) <= AttemptsCap(maxAttempts, |workers|)
            && (|workers| == 1 ==> Count(s.keys.attempts, o) <= maxAttempts)
            && Count(s.sent, o) + |InFlight(s.workers, o)| <= Count(s.keys.attempts, o) + Count(s.carried, o)
            && Count(s.carried, o) <= |workers|
  {
    var i := Initial(maxAttempts, workers);
    assert i.workers.Keys == workers;
    assert Pending(i.workers, o) == {} && InFlight(i.workers, o) == {};
    assert |i.workers.Keys| == |workers| >= 1;
    RunKeepsAttempts(i, es, o);
    var s := Run(i, es);
    assert |s.workers.Keys| == |workers|;
  }
}
