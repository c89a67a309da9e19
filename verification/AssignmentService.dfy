/** The assignment service itself, updating keys and rows in place. Between any two of its commands the
    other processes may take any steps: the caller of a method supplies them as a schedule. */
module AssignmentService {
  import opened Common
  import opened OrderStatus
  import opened Assignment

  /** How the database transaction of a call ends, or that what follows its commit fails. */
  datatype Database = Healthy | Aborts | LosesReply | FailsAfterwards

  /** The call's own update took the row: when it succeeds, and when all it gets is an error after or in place of the reply
      of its commit. */
  predicate TookRow(r: Result<AgentId, ClaimError>, database: Database) {
    r.Ok? || r == Err(ErrorAfterCommit) || (r == Err(TransactionError) && database == LosesReply)
  }

  predicate Took(winners: map<OrderId, seq<Pid>>, o: OrderId, pid: Pid) {
    o in winners && pid in winners[o]
  }

  datatype TryResult = OFFERED | SKIPPED | EXHAUSTED | NO_CANDIDATES

  predicate IsCallEvent(e: Event) {
    e.Invoke? || e.Advance? || e.TransactionFails? || e.AcknowledgementLost? || e.FailsAfterCommit?
  }

  predicate Concerns(e: Event, pid: Pid) {
    IsCallEvent(e) && e.pid == pid
  }

  predicate Foreign(es: seq<Event>, pid: Pid) {
    forall e :: e in es ==> !Concerns(e, pid)
  }

  lemma OtherEventsKeepCalls(s: System, e: Event)
    requires !IsCallEvent(e)
    ensures Step(s, e).calls == s.calls
  {
    hide AdvanceCall, TickAfter, KeysAfterTick;
  }

  lemma CallEventsMoveOneCall(s: System, e: Event, pid: Pid)
    requires IsCallEvent(e) && e.pid != pid && pid in s.calls
    ensures pid in Step(s, e).calls && Step(s, e).calls[pid] == s.calls[pid]
  {
    if e.Advance? {
      if e.pid in s.calls {
        AdvanceMoves(s, e.pid);
        hide Step;
      }
    } else {
      hide AdvanceCall, Claimable, Winners, Count;
    }
  }

  lemma ForeignStepKeepsCall(s: System, e: Event, pid: Pid)
    requires pid in s.calls && !Concerns(e, pid)
    ensures pid in Step(s, e).calls && Step(s, e).calls[pid] == s.calls[pid]
  {
    hide Step;
    if IsCallEvent(e) {
      CallEventsMoveOneCall(s, e, pid);
    } else {
      OtherEventsKeepCalls(s, e);
    }
  }

  lemma {:induction false} ForeignRunKeepsCall(s: System, es: seq<Event>, pid: Pid)
    requires pid in s.calls && Foreign(es, pid)
    ensures pid in Run(s, es).calls && Run(s, es).calls[pid] == s.calls[pid]
    ensures Run(s, es).maxAttempts == s.maxAttempts
    decreases |es|
  {
    if es != [] {
      var init, last := es[..|es| - 1], es[|es| - 1];
      ForeignRunKeepsCall(s, init, pid);
      ForeignStepKeepsCall(Run(s, init), last, pid);
      WorkersStay(Run(s, init), last);
    }
  }

  lemma TakeRowKeepsTook(s: System, q: Pid, taken: OrderId, a: AgentId, o: OrderId, pid: Pid)
    requires Claimable(s, taken) && q != pid
    ensures Took(TakeRow(s, q, taken, a).winners, o, pid) <==> Took(s.winners, o, pid)
  {
  }

  lemma TakingStepKeepsTook(s: System, e: Event, o: OrderId, pid: Pid)
    requires (e.Advance? || e.AcknowledgementLost?) && e.pid != pid
    ensures Took(Step(s, e).winners, o, pid) <==> Took(s.winners, o, pid)
  {
    if e.pid in s.calls && s.calls[e.pid].Holding? && Claimable(s, s.calls[e.pid].order) {
      TakeRowKeepsTook(s, e.pid, s.calls[e.pid].order, s.calls[e.pid].agent, o, pid);
    }
    hide Took, TakeRow, CallAfter, KeysAfter, Claimable;
  }

  lemma ForeignStepKeepsTook(s: System, e: Event, o: OrderId, pid: Pid)
    requires !Concerns(e, pid)
    ensures Took(Step(s, e).winners, o, pid) <==> Took(s.winners, o, pid)
  {
    if e.Advance? || e.AcknowledgementLost? {
      TakingStepKeepsTook(s, e, o, pid);
      hide Step, Took;
    } else {
      hide CallAfter, KeysAfter, TickAfter, KeysAfterTick, Claimable, Took;
    }
  }

  lemma {:induction false} ForeignRunKeepsTook(s: System, es: seq<Event>, o: OrderId, pid: Pid)
    requires Foreign(es, pid)
    ensures Took(Run(s, es).winners, o, pid) <==> Took(s.winners, o, pid)
    decreases |es|
  {
    if es != [] {
      var init, last := es[..|es| - 1], es[|es| - 1];
      ForeignRunKeepsTook(s, init, o, pid);
      ForeignStepKeepsTook(Run(s, init), last, o, pid);
      hide Took, Step;
    }
  }

  /** The four ways in which the transaction of a call that holds the key ends. */
  lemma HoldingSteps(s: System, pid: Pid)
    requires pid in s.calls && s.calls[pid].Holding?
    ensures var c := s.calls[pid];
            var undoing := Goto(s, pid, Undoing(c.order, c.agent, c.offer, 1, TransactionError));
            && Step(s, TransactionFails(pid)) == undoing
            && Step(s, Advance(pid))
               == (if Claimable(s, c.order) then Goto(TakeRow(s, pid, c.order, c.agent), pid, Assigned(c.order, c.agent, c.offer))
                   else Goto(s, pid, Undoing(c.order, c.agent, c.offer, 2, OrderNotInReadyState)))
            && (Claimable(s, c.order) ==>
                  Step(s, AcknowledgementLost(pid))
                  == Goto(TakeRow(s, pid, c.order, c.agent), pid, Undoing(c.order, c.agent, c.offer, 1, TransactionError)))
  {
    hide Claimable;
  }

  /** A call that has not begun has taken nothing. */
  lemma NotTookYet(s: System, o: OrderId, pid: Pid)
    requires Safe(s) && pid !in s.calls
    ensures !Took(s.winners, o, pid)
  {
    assert OrderInv(s, o);
  }

  /** Steps of other processes than the worker `w`. */
  predicate ForeignToWorker(es: seq<Event>, w: Pid) {
    forall e :: e in es && (e.Try? || e.Proceed? || e.Restart?) ==> e.worker != w
  }

  lemma ProceedMovesOne(s: System, v: Pid, found: seq<AgentId>, w: Pid)
    requires v != w && w in s.workers
    ensures var s' := Step(s, Proceed(v, found));
            w in s'.workers && s'.workers[w] == s.workers[w] && s'.maxAttempts == s.maxAttempts
  {
    hide TickAfter, KeysAfterTick;
  }

  lemma WorkerStepMovesOne(s: System, e: Event, w: Pid)
    requires (e.Try? || e.Proceed? || e.Restart?) && e.worker != w && w in s.workers
    ensures w in Step(s, e).workers && Step(s, e).workers[w] == s.workers[w] && Step(s, e).maxAttempts == s.maxAttempts
  {
    if e.Proceed? {
      ProceedMovesOne(s, e.worker, e.found, w);
      hide Step;
    } else {
      hide ProceedTick;
    }
  }

  lemma OtherEventsKeepWorkers(s: System, e: Event)
    requires !(e.Try? || e.Proceed? || e.Restart?)
    ensures Step(s, e).workers == s.workers && Step(s, e).maxAttempts == s.maxAttempts
  {
    hide CallAfter, KeysAfter, Claimable;
  }

  lemma {:induction false} ForeignRunKeepsWorker(s: System, es: seq<Event>, w: Pid)
    requires w in s.workers && ForeignToWorker(es, w)
    ensures w in Run(s, es).workers && Run(s, es).workers[w] == s.workers[w]
    ensures Run(s, es).maxAttempts == s.maxAttempts
    decreases |es|
  {
    if es != [] {
      var init, last := es[..|es| - 1], es[|es| - 1];
      ForeignRunKeepsWorker(s, init, w);
      hide Step;
      if last.Try? || last.Proceed? || last.Restart? {
        WorkerStepMovesOne(Run(s, init), last, w);
      } else {
        OtherEventsKeepWorkers(Run(s, init), last);
      }
    }
  }

  lemma RunNothing(s: System)
    ensures Run(s, []) == s
  {
  }

  lemma RunSnoc(s: System, es: seq<Event>, e: Event)
    ensures Run(s, es + [e]) == Step(Run(s, es), e)
  {
    assert (es + [e])[..|es + [e]| - 1] == es;
  }

  // ---------------------------------------------------------------------------
  // Candidate selection
  // ---------------------------------------------------------------------------

  /** Hits of the radius search that name a finite, online and free agent. */
  function Eligible(hits: seq<Option<AgentId>>, online: set<AgentId>, busy: set<AgentId>): (r: seq<AgentId>)
    ensures |r| <= |hits|
    ensures forall a :: a in r <==> Some(a) in hits && a in online && a !in busy
  {
    if hits == [] then []
    else
      var rest := Eligible(hits[1..], online, busy);
      if hits[0].Some? && hits[0].value in online && hits[0].value !in busy then [hits[0].value] + rest else rest
  }

  lemma {:induction false} EligibleAppend(hits: seq<Option<AgentId>>, h: Option<AgentId>, online: set<AgentId>, busy: set<AgentId>)
    ensures Eligible(hits + [h], online, busy) == Eligible(hits, online, busy) + Eligible([h], online, busy)
  {
    if hits == [] {
      assert hits + [h] == [h];
    } else {
      assert (hits + [h])[1..] == hits[1..] + [h];
      EligibleAppend(hits[1..], h, online, busy);
    }
  }

  lemma {:induction false} EligibleConcat(xs: seq<Option<AgentId>>, ys: seq<Option<AgentId>>,
                                          online: set<AgentId>, busy: set<AgentId>)
    ensures Eligible(xs + ys, online, busy) == Eligible(xs, online, busy) + Eligible(ys, online, busy)
  {
    if xs == [] {
      assert xs + ys == ys;
    } else {
      assert (xs + ys)[1..] == xs[1..] + ys;
      EligibleConcat(xs[1..], ys, online, busy);
    }
  }

  lemma EligibleNone(online: set<AgentId>, busy: set<AgentId>)
    ensures Eligible([], online, busy) == []
  {
  }

  lemma EligibleOne(h: Option<AgentId>, online: set<AgentId>, busy: set<AgentId>)
    ensures Eligible([h], online, busy) == if h.Some? && h.value in online && h.value !in busy then [h.value] else []
  {
    assert [h][1..] == [];
  }

  /** What the scan with early exit is to return: the first `wanted` eligible hits among the first 4 x `wanted`, in
      distance order. */
  function Candidates(hits: seq<Option<AgentId>>, wanted: nat, online: set<AgentId>, busy: set<AgentId>): seq<AgentId> {
    Take(Eligible(Take(hits, 4 * wanted), online, busy), wanted)
  }

  /** The hit names a finite agent who is online and free. */
  ghost predicate Suits(h: Option<AgentId>, online: set<AgentId>, busy: set<AgentId>) {
    h.Some? && h.value in online && h.value !in busy
  }

  /** The list names the agents of the hits at these positions, in their order, all of whom suit; of the hits no other suits, or
      the list is as long as wanted and the other comes later. */
  ghost predicate PicksAt(hits: seq<Option<AgentId>>, wanted: nat, online: set<AgentId>, busy: set<AgentId>,
                          picked: seq<AgentId>, positions: seq<nat>)
  {
    && |positions| == |picked| <= wanted
    && (forall i, j :: 0 <= i < j < |positions| ==> positions[i] < positions[j])
    && (forall i :: 0 <= i < |positions| ==>
          && positions[i] < |hits| && hits[positions[i]] == Some(picked[i]) && Suits(hits[positions[i]], online, busy))
    && (forall q :: 0 <= q < |hits| && Suits(hits[q], online, busy) ==>
          q in positions || (|picked| == wanted && forall i :: 0 <= i < |positions| ==> positions[i] < q))
  }

  ghost predicate Picks(hits: seq<Option<AgentId>>, wanted: nat, online: set<AgentId>, busy: set<AgentId>, picked: seq<AgentId>) {
    exists positions :: PicksAt(hits, wanted, online, busy, picked, positions)
  }

  lemma PicksNext(hits: seq<Option<AgentId>>, h: Option<AgentId>, online: set<AgentId>, busy: set<AgentId>,
                  picked: seq<AgentId>, positions: seq<nat>)
    requires PicksAt(hits, |picked|, online, busy, picked, positions)
    requires forall q :: 0 <= q < |hits| && Suits(hits[q], online, busy) ==> q in positions
    ensures var (picked', positions') := if Suits(h, online, busy) then (picked + [h.value], positions + [|hits|])
                                         else (picked, positions);
            && PicksAt(hits + [h], |picked'|, online, busy, picked', positions')
            && (forall q :: 0 <= q < |hits + [h]| && Suits((hits + [h])[q], online, busy) ==> q in positions')
  {
    var more := positions + [|hits|];
    assert more[|positions|] == |hits|;
    assert forall q :: q in positions ==> q in more;
    assert (hits + [h])[|hits|] == h && forall q :: 0 <= q < |hits| ==> (hits + [h])[q] == hits[q];
  }

  lemma {:induction false} EligiblePositions(hits: seq<Option<AgentId>>, online: set<AgentId>, busy: set<AgentId>)
    returns (positions: seq<nat>)
    ensures PicksAt(hits, |Eligible(hits, online, busy)|, online, busy, Eligible(hits, online, busy), positions)
    ensures forall q :: 0 <= q < |hits| && Suits(hits[q], online, busy) ==> q in positions
    decreases |hits|
  {
    positions := [];
    if hits != [] {
      var init, h := hits[..|hits| - 1], hits[|hits| - 1];
      var before := EligiblePositions(init, online, busy);
      EligibleAppend(init, h, online, busy);
      EligibleOne(h, online, busy);
      assert hits == init + [h];
      hide Eligible, PicksAt;
      PicksNext(init, h, online, busy, Eligible(init, online, busy), before);
      positions := if Suits(h, online, busy) then before + [|init|] else before;
      assert Eligible(init, online, busy) + [] == Eligible(init, online, busy);
    }
  }

  lemma PrefixPicks(hits: seq<Option<AgentId>>, wanted: nat, online: set<AgentId>, busy: set<AgentId>,
                    picked: seq<AgentId>, positions: seq<nat>)
    requires PicksAt(hits, |picked|, online, busy, picked, positions)
    requires forall q :: 0 <= q < |hits| && Suits(hits[q], online, busy) ==> q in positions
    ensures Picks(hits, wanted, online, busy, Take(picked, wanted))
  {
    hide Suits;
    var n := Min(wanted, |picked|);
    forall q | 0 <= q < |hits| && Suits(hits[q], online, busy)
      ensures q in positions[..n] || (n == wanted && forall i :: 0 <= i < n ==> positions[i] < q)
    {
      var i :| 0 <= i < |positions| && positions[i] == q;
      assert i < n ==> positions[..n][i] == q;
    }
    assert PicksAt(hits, wanted, online, busy, Take(picked, wanted), positions[..n]);
  }

  /** The first agents that suit, as many as wanted. */
  lemma CandidatesArePicked(hits: seq<Option<AgentId>>, wanted: nat, online: set<AgentId>, busy: set<AgentId>)
    ensures Picks(hits[..if 4 * wanted <= |hits| then 4 * wanted else |hits|], wanted, online, busy,
                  Candidates(hits, wanted, online, busy))
  {
    var scanned := Take(hits, 4 * wanted);
    var positions := EligiblePositions(scanned, online, busy);
    hide Eligible, PicksAt, Picks;
    PrefixPicks(scanned, wanted, online, busy, Eligible(scanned, online, busy), positions);
  }

  method FindCandidates(hits: seq<Option<AgentId>>, wanted: nat, online: set<AgentId>, busy: set<AgentId>)
    returns (result: seq<AgentId>)
    ensures result == Candidates(hits, wanted, online, busy)
    ensures Picks(hits[..if 4 * wanted <= |hits| then 4 * wanted else |hits|], wanted, online, busy, result)
    ensures |result| < wanted ==>
              forall a :: a in result <==> Some(a) in Take(hits, 4 * wanted) && a in online && a !in busy
  {
    CandidatesArePicked(hits, wanted, online, busy);
    hide Eligible, Picks;
    var raw := Take(hits, wanted * 4);
    result := [];
    EligibleNone(online, busy);
    var i := 0;
    while i < |raw|
      invariant 0 <= i <= |raw|
      invariant result == Eligible(raw[..i], online, busy)
      invariant |result| < wanted || i == |raw| == 0
    {
      assert raw[..i + 1] == raw[..i] + [raw[i]];
      EligibleAppend(raw[..i], raw[i], online, busy);
      EligibleOne(raw[i], online, busy);
      i := i + 1;
      if raw[i - 1].None? { continue; }
      var agentId := raw[i - 1].value;
      if agentId !in online { continue; }
      if agentId in busy { continue; }
      result := result + [agentId];
      if |result| >= wanted {
        assert raw == raw[..i] + raw[i..];
        EligibleConcat(raw[..i], raw[i..], online, busy);
        return;
      }
    }
    assert raw[..i] == raw;
  }

  // ---------------------------------------------------------------------------
  // The service
  // ---------------------------------------------------------------------------

  /** Nothing happens while a call waits. */
  predicate Undisturbed(env: seq<seq<Event>>) {
    forall i :: 0 <= i < |env| ==> env[i] == []
  }

  /** What an undisturbed call answers from the attempt to set the claim key on. */
  ghost function TakeOutcome(s: System, o: OrderId, a: AgentId): Result<AgentId, ClaimError> {
    if o in s.keys.claims then Err(OrderAlreadyClaimed)
    else if o in s.rows && s.rows[o] == Row(READY, None) then Ok(a)
    else Err(OrderNotInReadyState)
  }

  ghost function ClaimOutcome(s: System, o: OrderId, a: AgentId): Result<AgentId, ClaimError> {
    if o !in s.keys.offers then Err(OfferNotFoundOrExpired)
    else if a !in s.keys.offers[o] then Err(NotInCandidateList)
    else TakeOutcome(s, o, a)
  }

  /** The rows and keys it leaves: a winner's row, claim key and no offer; a key of a refused row is deleted. */
  predicate Settled(s: System, s': System, o: OrderId, r: Result<AgentId, ClaimError>) {
    && s'.rows == (if r.Ok? then s.rows[o := Row(ASSIGNED, Some(r.value))] else s.rows)
    && s'.keys.attempts == s.keys.attempts
    && s'.keys.offers == (if r.Ok? then s.keys.offers - {o} else s.keys.offers)
    && s'.keys.claims == (if r.Ok? then s.keys.claims[o := r.value] else s.keys.claims)
  }

  /** What an undisturbed pass over an order answers and does to the keys. */
  predicate Tried(maxAttempts: nat, k: Keys, k': Keys, o: OrderId, found: seq<AgentId>, r: TryResult) {
    && r == (if o in k.offers then SKIPPED
             else if Count(k.attempts, o) >= maxAttempts then EXHAUSTED
             else if found == [] then NO_CANDIDATES
             else OFFERED)
    && k' == if r in {SKIPPED, EXHAUSTED} then k
             else k.(offers := if found == [] then k.offers else k.offers[o := found],
                     attempts := k.attempts[o := Count(k.attempts, o) + 1])
  }

  predicate Spends(maxAttempts: nat, k: Keys, o: OrderId) {
    o !in k.offers && Count(k.attempts, o) < maxAttempts
  }

  ghost predicate TickedCounts(maxAttempts: nat, k: Keys, k': Keys, orders: seq<OrderId>) {
    forall o :: Count(k'.attempts, o) == Count(k.attempts, o) + if o in orders && Spends(maxAttempts, k, o) then 1 else 0
  }

  ghost predicate StandingOffersStay(k: Keys, k': Keys, orders: seq<OrderId>) {
    && (forall o :: o in k.offers ==> o in k'.offers && k'.offers[o] == k.offers[o])
    && (forall o :: o in k'.offers && o !in k.offers ==> o in orders)
  }

  /** An order without an offer gets one if it is below the cap and has candidates: all of them. */
  predicate OfferMade(maxAttempts: nat, k: Keys, k': Keys, o: OrderId, found: seq<AgentId>) {
    o !in k.offers ==>
      && (o in k'.offers <==> Spends(maxAttempts, k, o) && found != [])
      && (o in k'.offers ==> k'.offers[o] == found)
  }

  /** What an undisturbed tick over orders does to the keys. */
  ghost predicate Ticked(maxAttempts: nat, k: Keys, k': Keys, orders: seq<OrderId>, hits: seq<seq<Option<AgentId>>>, wanted: nat,
                         online: set<AgentId>, busy: set<AgentId>)
    requires |hits| == |orders|
  {
    && TickedCounts(maxAttempts, k, k', orders)
    && StandingOffersStay(k, k', orders)
    && (forall i :: 0 <= i < |orders| ==> OfferMade(maxAttempts, k, k', orders[i], Candidates(hits[i], wanted, online, busy)))
  }

  lemma NothingTicked(s: System, orders: seq<OrderId>, hits: seq<seq<Option<AgentId>>>, wanted: nat,
                      online: set<AgentId>, busy: set<AgentId>)
    requires |hits| == |orders|
    ensures Run(s, []) == s
    ensures Ticked(s.maxAttempts, s.keys, s.keys, orders[..0], hits[..0], wanted, online, busy)
  {
  }

  lemma NotBefore(orders: seq<OrderId>, i: nat)
    requires Distinct(orders) && i < |orders|
    ensures orders[i] !in orders[..i]
    ensures forall o :: o in orders[..i + 1] <==> o in orders[..i] || o == orders[i]
  {
    assert orders[..i + 1] == orders[..i] + [orders[i]];
  }

  /** One more order, not treated before. */
  lemma OneMoreTried(maxAttempts: nat, k: Keys, k1: Keys, k2: Keys, before: seq<OrderId>, after: seq<OrderId>, o: OrderId,
                     found: seq<AgentId>, r: TryResult)
    requires o !in before && forall p :: p in after <==> p in before || p == o
    requires TickedCounts(maxAttempts, k, k1, before) && StandingOffersStay(k, k1, before)
    requires Tried(maxAttempts, k1, k2, o, found, r)
    ensures TickedCounts(maxAttempts, k, k2, after) && StandingOffersStay(k, k2, after)
    ensures OfferMade(maxAttempts, k, k2, o, found)
    ensures forall p :: p != o ==> (p in k2.offers <==> p in k1.offers) && (p in k1.offers ==> k2.offers[p] == k1.offers[p])
    ensures |k2.offers| == |k1.offers| + if r == OFFERED then 1 else 0
  {
    assert o in k1.offers <==> o in k.offers;
    assert Count(k1.attempts, o) == Count(k.attempts, o);
  }

  lemma TickedNext(maxAttempts: nat, k: Keys, k1: Keys, k2: Keys, orders: seq<OrderId>,
                   hits: seq<seq<Option<AgentId>>>, wanted: nat,
                   online: set<AgentId>, busy: set<AgentId>, i: nat, r: TryResult)
    requires |hits| == |orders| && i < |orders| && Distinct(orders)
    requires Ticked(maxAttempts, k, k1, orders[..i], hits[..i], wanted, online, busy)
    requires Tried(maxAttempts, k1, k2, orders[i], Candidates(hits[i], wanted, online, busy), r)
    ensures Ticked(maxAttempts, k, k2, orders[..i + 1], hits[..i + 1], wanted, online, busy)
    ensures |k2.offers| == |k1.offers| + if r == OFFERED then 1 else 0
  {
    NotBefore(orders, i);
    hide Candidates, Distinct, Tried, TickedCounts, StandingOffersStay, Spends;
    OneMoreTried(maxAttempts, k, k1, k2, orders[..i], orders[..i + 1], orders[i], Candidates(hits[i], wanted, online, busy), r);
    var os, hs := orders[..i + 1], hits[..i + 1];
    forall j | 0 <= j < |os| ensures OfferMade(maxAttempts, k, k2, os[j], Candidates(hs[j], wanted, online, busy)) {
      assert os[j] == orders[j] && hs[j] == hits[j];
      if j < i {
        assert orders[..i][j] == orders[j] && hits[..i][j] == hits[j] && orders[j] in orders[..i];
        assert OfferMade(maxAttempts, k, k1, orders[j], Candidates(hits[j], wanted, online, busy));
      }
    }
  }

  class Service {
    const maxAttempts: nat
    var rows: map<OrderId, Row>
    var keys: Keys
    var calls: map<Pid, Call>
    var workers: map<Pid, Tick>
    var winners: map<OrderId, seq<Pid>>
    var resets: map<OrderId, nat>
    var sent: map<OrderId, nat>
    var carried: map<OrderId, nat>

    ghost function Snapshot(): System
      reads this
    {
      System(maxAttempts, rows, keys, calls, workers, winners, resets, sent, carried)
    }

    constructor (maxAttempts: nat, processes: set<Pid>)
      ensures Snapshot() == Initial(maxAttempts, processes)
    {
      this.maxAttempts := maxAttempts;
      rows, keys := map[], Keys(map[], map[], map[]);
      calls, workers := map[], map w | w in processes :: Idle;
      winners, resets, sent, carried := map[], map[], map[], map[];
    }

    /** The steps other processes take while the call `pid` waits. */
    method Others(pid: Pid, es: seq<Event>)
      requires pid in calls && Foreign(es, pid)
      modifies this
      ensures Snapshot() == Run(old(Snapshot()), es)
      ensures es == [] ==> Snapshot() == old(Snapshot())
      ensures pid in calls && calls[pid] == old(calls)[pid]
      ensures forall o :: Took(winners, o, pid) <==> Took(old(winners), o, pid)
    {
      ForeignRunKeepsCall(Snapshot(), es, pid);
      forall o ensures Took(Run(Snapshot(), es).winners, o, pid) <==> Took(winners, o, pid) {
        ForeignRunKeepsTook(Snapshot(), es, o, pid);
      }
      hide Took, Foreign;
      var s := Run(System(maxAttempts, rows, keys, calls, workers, winners, resets, sent, carried), es);
      rows, keys, calls, workers := s.rows, s.keys, s.calls, s.workers;
      winners, resets, sent, carried := s.winners, s.resets, s.sent, s.carried;
    }

    /** GET of the offer key: the caller must be listed. */
    method ReadOffer(pid: Pid, o: OrderId, a: AgentId) returns (r: Result<seq<AgentId>, ClaimError>)
      requires pid in calls && calls[pid] == Claiming(o, a)
      modifies `calls
      ensures Snapshot() == Step(old(Snapshot()), Advance(pid))
      ensures pid in calls && calls[pid] == if r.Ok? then Offered(o, a, Some(r.value)) else Failed(o, a, r.error)
      ensures r == if o !in keys.offers then Err(OfferNotFoundOrExpired)
                   else if a !in keys.offers[o] then Err(NotInCandidateList)
                   else Ok(keys.offers[o])
    {
      if o !in keys.offers {
        calls := calls[pid := Failed(o, a, OfferNotFoundOrExpired)];
        r := Err(OfferNotFoundOrExpired);
      } else if a !in keys.offers[o] {
        calls := calls[pid := Failed(o, a, NotInCandidateList)];
        r := Err(NotInCandidateList);
      } else {
        calls := calls[pid := Offered(o, a, Some(keys.offers[o]))];
        r := Ok(keys.offers[o]);
      }
    }

    /** SET of the claim key unless it is set. */
    method TrySetClaimKey(pid: Pid, o: OrderId, a: AgentId, offer: Option<seq<AgentId>>) returns (ok: bool)
      requires pid in calls && calls[pid] == Offered(o, a, offer)
      modifies `calls, `keys
      ensures Snapshot() == Step(old(Snapshot()), Advance(pid))
      ensures pid in calls && calls[pid] == if ok then Holding(o, a, offer) else Failed(o, a, OrderAlreadyClaimed)
      ensures ok <==> o !in old(keys).claims
      ensures keys == if ok then old(keys).(claims := old(keys).claims[o := a]) else old(keys)
    {
      ok := o !in keys.claims;
      if ok {
        keys := keys.(claims := keys.claims[o := a]);
        calls := calls[pid := Holding(o, a, offer)];
      } else {
        calls := calls[pid := Failed(o, a, OrderAlreadyClaimed)];
      }
    }

    method IsClaimable(o: OrderId) returns (r: bool)
      ensures r <==> Claimable(Snapshot(), o)
    {
      r := o in rows && rows[o].status == READY && rows[o].agent.None?;
    }

    /** The conditional update, committed; the call moves on. */
    method WriteRow(pid: Pid, o: OrderId, a: AgentId, c: Call)
      requires Claimable(Snapshot(), o)
      modifies `calls, `rows, `winners
      ensures Snapshot() == Goto(TakeRow(old(Snapshot()), pid, o, a), pid, c)
      ensures rows == old(rows)[o := Row(ASSIGNED, Some(a))] && Took(winners, o, pid) && calls == old(calls)[pid := c]
    {
      rows := rows[o := Row(ASSIGNED, Some(a))];
      winners := winners[o := (if o in winners then winners[o] else []) + [pid]];
      calls := calls[pid := c];
    }

    /** The database transaction: conditional update, then commit or rollback. */
    method UpdateRow(pid: Pid, o: OrderId, a: AgentId, offer: Option<seq<AgentId>>, database: Database)
      returns (took: bool, deletions: nat, error: ClaimError, ghost e: Event)
      requires pid in calls && calls[pid] == Holding(o, a, offer)
      modifies `calls, `rows, `winners
      ensures Snapshot() == Step(old(Snapshot()), e)
      ensures pid in calls && calls[pid] == if took then Assigned(o, a, offer) else Undoing(o, a, offer, deletions, error)
      ensures took <==> database in {Healthy, FailsAfterwards} && Claimable(old(Snapshot()), o)
      ensures Took(winners, o, pid) <==>
                Took(old(winners), o, pid) || took || (database == LosesReply && error == TransactionError)
      ensures error in {TransactionError, OrderNotInReadyState}
      ensures took ==> rows == old(rows)[o := Row(ASSIGNED, Some(a))]
      ensures !took && database == Healthy ==> rows == old(rows) && deletions == 2 && error == OrderNotInReadyState
      ensures deletions in {1, 2}
    {
      HoldingSteps(Snapshot(), pid);
      hide Step, Claimable;
      var claimable := IsClaimable(o);
      took := claimable && database in {Healthy, FailsAfterwards};
      if took {
        WriteRow(pid, o, a, Assigned(o, a, offer));
        deletions, error, e := 1, TransactionError, Advance(pid);
      } else if database == Aborts {
        deletions, error, e := 1, TransactionError, TransactionFails(pid);
        calls := calls[pid := Undoing(o, a, offer, 1, TransactionError)];
      } else if claimable {
        deletions, error, e := 1, TransactionError, AcknowledgementLost(pid);
        WriteRow(pid, o, a, Undoing(o, a, offer, 1, TransactionError));
      } else {
        deletions, error, e := 2, OrderNotInReadyState, Advance(pid);
        calls := calls[pid := Undoing(o, a, offer, 2, OrderNotInReadyState)];
      }
    }

    /** DEL of the claim key, whoever it names. */
    method DeleteClaimKey(pid: Pid, o: OrderId, a: AgentId, offer: Option<seq<AgentId>>, deletions: nat, error: ClaimError)
      requires pid in calls && calls[pid] == Undoing(o, a, offer, deletions, error) && deletions in {1, 2}
      modifies `calls, `keys
      ensures Snapshot() == Step(old(Snapshot()), Advance(pid))
      ensures pid in calls
      ensures calls[pid] == if deletions == 1 then Failed(o, a, error) else Undoing(o, a, offer, 1, error)
      ensures keys == old(keys).(claims := old(keys).claims - {o})
    {
      keys := keys.(claims := keys.claims - {o});
      calls := calls[pid := if deletions == 1 then Failed(o, a, error) else Undoing(o, a, offer, 1, error)];
    }

    /** Something after the commit fails: the row stays taken, and so do the keys. */
    method FailAfterCommit(pid: Pid, o: OrderId, a: AgentId, offer: Option<seq<AgentId>>)
      requires pid in calls && calls[pid] == Assigned(o, a, offer)
      modifies `calls
      ensures Snapshot() == Step(old(Snapshot()), FailsAfterCommit(pid))
      ensures pid in calls && calls[pid] == Failed(o, a, ErrorAfterCommit)
    {
      calls := calls[pid := Failed(o, a, ErrorAfterCommit)];
    }

    /** DEL of the offer key; the claim key stays until it expires. */
    method DropOffer(pid: Pid, o: OrderId, a: AgentId, offer: Option<seq<AgentId>>)
      requires pid in calls && calls[pid] == Assigned(o, a, offer)
      modifies `calls, `keys
      ensures Snapshot() == Step(old(Snapshot()), Advance(pid))
      ensures pid in calls && calls[pid] == Succeeded(o, a, offer)
      ensures keys == old(keys).(offers := old(keys).offers - {o})
    {
      keys := keys.(offers := keys.offers - {o});
      calls := calls[pid := Succeeded(o, a, offer)];
    }

    /** The deletions of the claim key: twice after a refused update, once after an error. */
    method GiveUpKey(pid: Pid, o: OrderId, a: AgentId, offer: Option<seq<AgentId>>, deletions: nat, error: ClaimError,
                     env: seq<Event>)
      returns (ghost trace: seq<Event>)
      requires pid in calls && calls[pid] == Undoing(o, a, offer, deletions, error) && deletions in {1, 2}
      requires Foreign(env, pid)
      modifies this
      ensures Snapshot() == Run(old(Snapshot()), trace)
      ensures pid in calls && calls[pid] == Failed(o, a, error)
      ensures Took(winners, o, pid) <==> Took(old(winners), o, pid)
      ensures env == [] ==> rows == old(rows) && keys == old(keys).(claims := old(keys).claims - {o})
    {
      hide Step, Run, Foreign;
      ghost var start := Snapshot();
      trace := [];
      RunNothing(start);
      if deletions == 2 {
        DeleteClaimKey(pid, o, a, offer, 2, error);
        RunSnoc(start, trace, Advance(pid));
        trace := trace + [Advance(pid)];
        Others(pid, env);
        RunConcat(start, trace, env);
        trace := trace + env;
      }
      DeleteClaimKey(pid, o, a, offer, 1, error);
      RunSnoc(start, trace, Advance(pid));
      trace := trace + [Advance(pid)];
    }

    /** From the conditional update to the end of the call. */
    method TakeRowOrUndo(pid: Pid, o: OrderId, a: AgentId, offer: Option<seq<AgentId>>,
                         env: seq<seq<Event>>, database: Database)
      returns (r: Result<AgentId, ClaimError>, ghost trace: seq<Event>)
      requires pid in calls && calls[pid] == Holding(o, a, offer)
      requires |env| == 2 && forall i :: 0 <= i < |env| ==> Foreign(env[i], pid)
      modifies this
      ensures Snapshot() == Run(old(Snapshot()), trace)
      ensures pid in calls
      ensures calls[pid] == if r.Ok? then Succeeded(o, a, offer) else Failed(o, a, r.error)
      ensures Took(winners, o, pid) <==> Took(old(winners), o, pid) || TookRow(r, database)
      ensures Undisturbed(env) && database == Healthy ==>
                && r == (if Claimable(old(Snapshot()), o) then Ok(a) else Err(OrderNotInReadyState))
                && rows == (if r.Ok? then old(rows)[o := Row(ASSIGNED, Some(a))] else old(rows))
                && keys == (if r.Ok? then old(keys).(offers := old(keys).offers - {o})
                            else old(keys).(claims := old(keys).claims - {o}))
    {
      hide Step, Run, Foreign, Claimable;
      ghost var start := Snapshot();
      var took, deletions, error, e := UpdateRow(pid, o, a, offer, database);
      RunOne(start, e);
      trace := [e];

      Others(pid, env[0]);
      RunConcat(start, trace, env[0]);
      trace := trace + env[0];

      if took && database == FailsAfterwards {
        FailAfterCommit(pid, o, a, offer);
        RunSnoc(start, trace, FailsAfterCommit(pid));
        trace := trace + [FailsAfterCommit(pid)];
        return Err(ErrorAfterCommit), trace;
      }
      if took {
        DropOffer(pid, o, a, offer);
        RunSnoc(start, trace, Advance(pid));
        trace := trace + [Advance(pid)];
        return Ok(a), trace;
      }
      ghost var rest := GiveUpKey(pid, o, a, offer, deletions, error, env[1]);
      RunConcat(start, trace, rest);
      trace := trace + rest;
      r := Err(error);
    }

    /** From the attempt to set the claim key to the end of the call: common to `claim` and `adminAssign`. */
    method SetKeyAndTakeRow(pid: Pid, o: OrderId, a: AgentId, offer: Option<seq<AgentId>>,
                            env: seq<seq<Event>>, database: Database)
      returns (r: Result<AgentId, ClaimError>, ghost trace: seq<Event>)
      requires pid in calls && calls[pid] == Offered(o, a, offer)
      requires |env| == 3 && forall i :: 0 <= i < |env| ==> Foreign(env[i], pid)
      modifies this
      ensures Snapshot() == Run(old(Snapshot()), trace)
      ensures pid in calls
      ensures calls[pid] == if r.Ok? then Succeeded(o, a, offer) else Failed(o, a, r.error)
      ensures Took(winners, o, pid) <==> Took(old(winners), o, pid) || TookRow(r, database)
      ensures Undisturbed(env) && database == Healthy ==>
                r == TakeOutcome(old(Snapshot()), o, a) && Settled(old(Snapshot()), Snapshot(), o, r)
    {
      hide Step, Run, Foreign;
      ghost var start := Snapshot();
      var ok := TrySetClaimKey(pid, o, a, offer);
      RunOne(start, Advance(pid));
      trace := [Advance(pid)];
      if !ok {
        return Err(OrderAlreadyClaimed), trace;
      }
      Others(pid, env[0]);
      RunConcat(start, trace, env[0]);
      trace := trace + env[0];
      ghost var rest;
      r, rest := TakeRowOrUndo(pid, o, a, offer, env[1..], database);
      RunConcat(start, trace, rest);
      trace := trace + rest;
    }

    method Begin(pid: Pid, c: Call)
      requires pid !in calls && (c.Claiming? || c.Rejecting? || (c.Offered? && c.offer.None?))
      modifies `calls
      ensures Snapshot() == Run(old(Snapshot()), [Invoke(pid, c)])
      ensures calls == old(calls)[pid := c]
    {
      RunOne(Snapshot(), Invoke(pid, c));
      calls := calls[pid := c];
    }

    /** From the offer key on. */
    method ReadOfferAndTake(pid: Pid, o: OrderId, a: AgentId, env: seq<seq<Event>>, database: Database)
      returns (r: Result<AgentId, ClaimError>, ghost trace: seq<Event>)
      requires pid in calls && calls[pid] == Claiming(o, a)
      requires |env| == 4 && forall i :: 0 <= i < |env| ==> Foreign(env[i], pid)
      modifies this
      ensures Snapshot() == Run(old(Snapshot()), trace)
      ensures pid in calls
      ensures r.Ok? ==> calls[pid].Succeeded? && calls[pid].offer.Some?
      ensures r.Err? ==> calls[pid].Failed?
      ensures calls[pid].order == o && calls[pid].agent == a
      ensures Took(winners, o, pid) <==> Took(old(winners), o, pid) || TookRow(r, database)
      ensures Undisturbed(env) && database == Healthy ==>
                r == ClaimOutcome(old(Snapshot()), o, a) && Settled(old(Snapshot()), Snapshot(), o, r)
    {
      hide Step, Run, Foreign;
      ghost var start := Snapshot();
      var offered := ReadOffer(pid, o, a);
      RunOne(start, Advance(pid));
      trace := [Advance(pid)];
      if offered.Err? {
        return Err(offered.error), trace;
      }
      Others(pid, env[0]);
      RunConcat(start, trace, env[0]);
      trace := trace + env[0];
      ghost var rest;
      r, rest := SetKeyAndTakeRow(pid, o, a, Some(offered.value), env[1..], database);
      RunConcat(start, trace, rest);
      trace := trace + rest;
    }

    /** `claim`: whatever the other processes do in between, it behaves as one call of the protocol, keeps
        the protocol safe, and succeeds only for an agent of the offer it read. Its own update took the row exactly when it
        succeeds or fails after its commit, or the reply of that is lost. */
    method Claim(pid: Pid, o: OrderId, a: AgentId, env: seq<seq<Event>>, database: Database)
      returns (r: Result<AgentId, ClaimError>, ghost trace: seq<Event>)
      requires pid !in calls
      requires |env| == 5 && forall i :: 0 <= i < |env| ==> Foreign(env[i], pid)
      modifies this
      ensures Snapshot() == Run(old(Snapshot()), trace)
      ensures Safe(old(Snapshot())) ==> Safe(Snapshot())
      ensures r.Ok? <==> Won(Snapshot(), o, pid)
      ensures Safe(old(Snapshot())) ==> (Took(winners, o, pid) <==> TookRow(r, database))
      ensures r.Ok? && Safe(old(Snapshot())) ==>
                calls[pid].agent == a && calls[pid].offer.Some? && a in calls[pid].offer.value
      ensures Undisturbed(env) && database == Healthy ==>
                r == ClaimOutcome(old(Snapshot()), o, a) && Settled(old(Snapshot()), Snapshot(), o, r)
    {
      hide Step, Run, Foreign, OrderInv, Took;
      ghost var start := Snapshot();
      if Safe(start) {
        NotTookYet(start, o, pid);
      }
      Begin(pid, Claiming(o, a));
      Others(pid, env[0]);
      RunConcat(start, [Invoke(pid, Claiming(o, a))], env[0]);
      trace := [Invoke(pid, Claiming(o, a))] + env[0];
      ghost var rest;
      r, rest := ReadOfferAndTake(pid, o, a, env[1..], database);
      RunConcat(start, trace, rest);
      trace := trace + rest;
      if Safe(start) {
        RunKeepsSafe(start, trace);
        assert CallInv(Snapshot(), pid);
      }
    }

    /** `adminAssign`: the same without an offer. */
    method AdminAssign(pid: Pid, o: OrderId, a: AgentId, env: seq<seq<Event>>, database: Database)
      returns (r: Result<AgentId, ClaimError>, ghost trace: seq<Event>)
      requires pid !in calls
      requires |env| == 4 && forall i :: 0 <= i < |env| ==> Foreign(env[i], pid)
      modifies this
      ensures Snapshot() == Run(old(Snapshot()), trace)
      ensures Safe(old(Snapshot())) ==> Safe(Snapshot())
      ensures r.Ok? <==> Won(Snapshot(), o, pid)
      ensures Safe(old(Snapshot())) ==> (Took(winners, o, pid) <==> TookRow(r, database))
      ensures r.Ok? ==> calls[pid].agent == a
      ensures Undisturbed(env) && database == Healthy ==>
                r == TakeOutcome(old(Snapshot()), o, a) && Settled(old(Snapshot()), Snapshot(), o, r)
    {
      hide Step, Run, Foreign, OrderInv;
      ghost var start := Snapshot();
      if Safe(start) {
        NotTookYet(start, o, pid);
      }
      Begin(pid, Offered(o, a, None));
      trace := [Invoke(pid, Offered(o, a, None))];
      Others(pid, env[0]);
      RunConcat(start, trace, env[0]);
      trace := trace + env[0];
      ghost var rest;
      r, rest := SetKeyAndTakeRow(pid, o, a, None, env[1..], database);
      RunConcat(start, trace, rest);
      trace := trace + rest;
      if Safe(start) {
        RunKeepsSafe(start, trace);
        assert CallInv(Snapshot(), pid);
      }
    }

    // ----- reject -----

    /** GET of the offer key, and the list without the caller. */
    method ReadRemaining(pid: Pid, o: OrderId, a: AgentId) returns (r: Result<seq<AgentId>, ClaimError>)
      requires pid in calls && calls[pid] == Rejecting(o, a)
      modifies `calls
      ensures Snapshot() == Step(old(Snapshot()), Advance(pid))
      ensures pid in calls && calls[pid] == if r.Ok? then RejectRead(o, a, r.value) else Failed(o, a, r.error)
      ensures r == if o !in keys.offers then Err(OfferNotFoundOrExpired)
                   else if a !in keys.offers[o] then Err(NotInCandidateList)
                   else Ok(Without(keys.offers[o], a))
    {
      if o !in keys.offers {
        r := Err(OfferNotFoundOrExpired);
      } else if a !in keys.offers[o] {
        r := Err(NotInCandidateList);
      } else {
        r := Ok(Without(keys.offers[o], a));
      }
      calls := calls[pid := if r.Ok? then RejectRead(o, a, r.value) else Failed(o, a, r.error)];
    }

    /** DEL of the offer key when nobody is left, otherwise the question how long it lives. */
    method DropOrKeepOffer(pid: Pid, o: OrderId, a: AgentId, remaining: seq<AgentId>)
      requires pid in calls && calls[pid] == RejectRead(o, a, remaining)
      modifies `calls, `keys
      ensures Snapshot() == Step(old(Snapshot()), Advance(pid))
      ensures pid in calls && calls[pid] == if remaining == [] then Rejected(o, a) else RejectTtl(o, a, remaining)
      ensures keys == if remaining == [] then old(keys).(offers := old(keys).offers - {o}) else old(keys)
    {
      if remaining == [] {
        keys := keys.(offers := keys.offers - {o});
        calls := calls[pid := Rejected(o, a)];
      } else {
        calls := calls[pid := RejectTtl(o, a, remaining)];
      }
    }

    /** SET of the shorter list, whether or not the key is still there. */
    method WriteRemaining(pid: Pid, o: OrderId, a: AgentId, remaining: seq<AgentId>)
      requires pid in calls && calls[pid] == RejectTtl(o, a, remaining)
      modifies `calls, `keys
      ensures Snapshot() == Step(old(Snapshot()), Advance(pid))
      ensures pid in calls && calls[pid] == Rejected(o, a)
      ensures keys == old(keys).(offers := old(keys).offers[o := remaining])
    {
      keys := keys.(offers := keys.offers[o := remaining]);
      calls := calls[pid := Rejected(o, a)];
    }

    /** From the list read to the end of the call. */
    method ShortenOffer(pid: Pid, o: OrderId, a: AgentId, remaining: seq<AgentId>, env: seq<seq<Event>>)
      returns (ghost trace: seq<Event>)
      requires pid in calls && calls[pid] == RejectRead(o, a, remaining)
      requires |env| == 2 && forall i :: 0 <= i < |env| ==> Foreign(env[i], pid)
      modifies this
      ensures Snapshot() == Run(old(Snapshot()), trace)
      ensures pid in calls && calls[pid] == Rejected(o, a)
      ensures Undisturbed(env) ==>
                && rows == old(rows)
                && keys == (if remaining == [] then old(keys).(offers := old(keys).offers - {o})
                            else old(keys).(offers := old(keys).offers[o := remaining]))
    {
      hide Step, Run, Foreign;
      ghost var start := Snapshot();
      Others(pid, env[0]);
      trace := env[0];
      DropOrKeepOffer(pid, o, a, remaining);
      RunSnoc(start, trace, Advance(pid));
      trace := trace + [Advance(pid)];
      if remaining != [] {
        Others(pid, env[1]);
        RunConcat(start, trace, env[1]);
        trace := trace + env[1];
        WriteRemaining(pid, o, a, remaining);
        RunSnoc(start, trace, Advance(pid));
        trace := trace + [Advance(pid)];
      }
    }

    /** `reject`: whatever the other processes do in between, it behaves as one call of the protocol and keeps it safe.
        Undisturbed it takes exactly the caller off the offer, and drops an offer that names nobody else. */
    method Reject(pid: Pid, o: OrderId, a: AgentId, env: seq<seq<Event>>)
      returns (r: Result<(), ClaimError>, ghost trace: seq<Event>)
      requires pid !in calls
      requires |env| == 3 && forall i :: 0 <= i < |env| ==> Foreign(env[i], pid)
      modifies this
      ensures Snapshot() == Run(old(Snapshot()), trace)
      ensures Safe(old(Snapshot())) ==> Safe(Snapshot())
      ensures pid in calls && calls[pid] == if r.Ok? then Rejected(o, a) else Failed(o, a, r.error)
      ensures Undisturbed(env) ==>
                && r == (if o !in old(keys).offers then Err(OfferNotFoundOrExpired)
                         else if a !in old(keys).offers[o] then Err(NotInCandidateList)
                         else Ok(()))
                && rows == old(rows)
                && (r.Err? ==> keys == old(keys))
                && (r.Ok? ==>
                      if forall i :: 0 <= i < |old(keys).offers[o]| ==> old(keys).offers[o][i] == a
                      then keys == old(keys).(offers := old(keys).offers - {o})
                      else && o in keys.offers && TakenOff(old(keys).offers[o], keys.offers[o], a)
                           && keys == old(keys).(offers := old(keys).offers[o := keys.offers[o]]))
    {
      if o in keys.offers {
        WithoutTakesOff(keys.offers[o], a);
      }
      hide Step, Run, Foreign, Safe, Without, TakenOff;
      ghost var start := Snapshot();
      Begin(pid, Rejecting(o, a));
      trace := [Invoke(pid, Rejecting(o, a))];
      Others(pid, env[0]);
      RunConcat(start, trace, env[0]);
      trace := trace + env[0];

      var remaining := ReadRemaining(pid, o, a);
      RunSnoc(start, trace, Advance(pid));
      trace := trace + [Advance(pid)];
      if remaining.Err? {
        r := Err(remaining.error);
      } else {
        ghost var rest := ShortenOffer(pid, o, a, remaining.value, env[1..]);
        RunConcat(start, trace, rest);
        trace := trace + rest;
        r := Ok(());
      }
      if Safe(start) {
        RunKeepsSafe(start, trace);
      }
    }

    // ----- tryAssign -----

    /** The steps other processes take while the worker `w` waits. */
    method OthersOfWorker(w: Pid, es: seq<Event>)
      requires w in workers && ForeignToWorker(es, w)
      modifies this
      ensures Snapshot() == Run(old(Snapshot()), es)
      ensures es == [] ==> Snapshot() == old(Snapshot())
      ensures w in workers && workers[w] == old(workers)[w]
    {
      ForeignRunKeepsWorker(Snapshot(), es, w);
      var s := Run(System(maxAttempts, rows, keys, calls, workers, winners, resets, sent, carried), es);
      rows, keys, calls, workers := s.rows, s.keys, s.calls, s.workers;
      winners, resets, sent, carried := s.winners, s.resets, s.sent, s.carried;
    }

    method CheckOffer(w: Pid, o: OrderId) returns (offered: bool)
      requires w in workers && workers[w] == Idle
      modifies `workers
      ensures Snapshot() == Step(old(Snapshot()), Try(w, o))
      ensures offered <==> o in keys.offers
      ensures workers == old(workers)[w := if offered then Idle else Checked(o)]
    {
      offered := o in keys.offers;
      workers := workers[w := if offered then Idle else Checked(o)];
    }

    method ReadAttempts(w: Pid, o: OrderId) returns (exhausted: bool)
      requires w in workers && workers[w] == Checked(o)
      modifies `workers
      ensures Snapshot() == Step(old(Snapshot()), Proceed(w, []))
      ensures exhausted <==> Count(keys.attempts, o) >= maxAttempts
      ensures workers == old(workers)[w := if exhausted then Idle else Passed(o)]
    {
      exhausted := Count(keys.attempts, o) >= maxAttempts;
      workers := workers[w := if exhausted then Idle else Passed(o)];
    }

    method TakeCandidates(w: Pid, o: OrderId, found: seq<AgentId>)
      requires w in workers && workers[w] == Passed(o)
      modifies `workers
      ensures Snapshot() == Step(old(Snapshot()), Proceed(w, found))
      ensures workers == old(workers)[w := if found == [] then Counting(o, []) else Broadcasting(o, found)]
    {
      workers := workers[w := if found == [] then Counting(o, []) else Broadcasting(o, found)];
    }

    /** SET of the offer key unless it is set. */
    method TrySetOffer(w: Pid, o: OrderId, found: seq<AgentId>) returns (ok: bool)
      requires w in workers && workers[w] == Broadcasting(o, found)
      modifies `workers, `keys
      ensures Snapshot() == Step(old(Snapshot()), Proceed(w, []))
      ensures ok <==> o !in old(keys).offers
      ensures keys == if ok then old(keys).(offers := old(keys).offers[o := found]) else old(keys)
      ensures workers == old(workers)[w := if ok then Counting(o, found) else Idle]
    {
      ok := o !in keys.offers;
      if ok {
        keys := keys.(offers := keys.offers[o := found]);
      }
      workers := workers[w := if ok then Counting(o, found) else Idle];
    }

    /** INCR of the attempts key. */
    method CountAttempt(w: Pid, o: OrderId, found: seq<AgentId>)
      requires w in workers && workers[w] == Counting(o, found)
      modifies `workers, `keys
      ensures Snapshot() == Step(old(Snapshot()), Proceed(w, []))
      ensures keys == old(keys).(attempts := old(keys).attempts[o := Count(old(keys).attempts, o) + 1])
      ensures workers == old(workers)[w := if found == [] then Idle else Emitting(o, found)]
    {
      keys := keys.(attempts := keys.attempts[o := Count(keys.attempts, o) + 1]);
      workers := workers[w := if found == [] then Idle else Emitting(o, found)];
    }

    method EmitOffers(w: Pid, o: OrderId, found: seq<AgentId>) returns (emitted: seq<AgentId>)
      requires w in workers && workers[w] == Emitting(o, found)
      modifies `workers, `sent
      ensures Snapshot() == Step(old(Snapshot()), Proceed(w, []))
      ensures emitted == found
      ensures workers == old(workers)[w := Idle]
    {
      emitted := [];
      for i := 0 to |found|
        invariant emitted == found[..i]
      {
        emitted := emitted + [found[i]];
      }
      assert found[..|found|] == found;
      sent := sent[o := Count(sent, o) + 1];
      workers := workers[w := Idle];
    }

    /** From the offer key set to the end. */
    method CountAndEmit(w: Pid, o: OrderId, found: seq<AgentId>, env: seq<seq<Event>>)
      returns (emitted: seq<AgentId>, ghost trace: seq<Event>)
      requires w in workers && workers[w] == Counting(o, found) && found != []
      requires |env| == 2 && forall i :: 0 <= i < |env| ==> ForeignToWorker(env[i], w)
      modifies this
      ensures Snapshot() == Run(old(Snapshot()), trace)
      ensures w in workers && workers[w] == Idle && emitted == found
      ensures Undisturbed(env) ==>
                && workers == old(workers)[w := Idle]
                && keys == old(keys).(attempts := old(keys).attempts[o := Count(old(keys).attempts, o) + 1])
    {
      hide Step, Run, ForeignToWorker;
      ghost var start := Snapshot();
      OthersOfWorker(w, env[0]);
      trace := env[0];
      CountAttempt(w, o, found);
      RunSnoc(start, trace, Proceed(w, []));
      trace := trace + [Proceed(w, [])];
      OthersOfWorker(w, env[1]);
      RunConcat(start, trace, env[1]);
      trace := trace + env[1];
      emitted := EmitOffers(w, o, found);
      RunSnoc(start, trace, Proceed(w, []));
      trace := trace + [Proceed(w, [])];
    }

    /** From the candidate search to the end. */
    method Broadcast(w: Pid, o: OrderId, found: seq<AgentId>, env: seq<seq<Event>>)
      returns (r: TryResult, emitted: seq<AgentId>, ghost trace: seq<Event>)
      requires w in workers && workers[w] == Passed(o)
      requires |env| == 3 && forall i :: 0 <= i < |env| ==> ForeignToWorker(env[i], w)
      modifies this
      ensures Snapshot() == Run(old(Snapshot()), trace)
      ensures w in workers && workers[w] == Idle
      ensures r != EXHAUSTED
      ensures r == NO_CANDIDATES <==> found == []
      ensures emitted == if r == OFFERED then found else []
      ensures Undisturbed(env) ==>
                && workers == old(workers)[w := Idle]
                && (r == SKIPPED <==> found != [] && o in old(keys).offers)
                && keys == (if r == SKIPPED then old(keys)
                            else old(keys).(offers := if found == [] then old(keys).offers else old(keys).offers[o := found],
                                            attempts := old(keys).attempts[o := Count(old(keys).attempts, o) + 1]))
    {
      hide Step, Run, ForeignToWorker;
      ghost var start := Snapshot();
      emitted := [];
      TakeCandidates(w, o, found);
      RunOne(start, Proceed(w, found));
      trace := [Proceed(w, found)];
      OthersOfWorker(w, env[0]);
      RunConcat(start, trace, env[0]);
      trace := trace + env[0];
      if found == [] {
        CountAttempt(w, o, []);
        RunSnoc(start, trace, Proceed(w, []));
        return NO_CANDIDATES, [], trace + [Proceed(w, [])];
      }
      var ok := TrySetOffer(w, o, found);
      RunSnoc(start, trace, Proceed(w, []));
      trace := trace + [Proceed(w, [])];
      if !ok {
        return SKIPPED, [], trace;
      }
      ghost var rest;
      emitted, rest := CountAndEmit(w, o, found, env[1..]);
      RunConcat(start, trace, rest);
      trace := trace + rest;
      r := OFFERED;
    }

    /** From the missing offer to the end. */
    method AttemptOffer(w: Pid, o: OrderId, hits: seq<Option<AgentId>>, wanted: nat, online: set<AgentId>, busy: set<AgentId>,
                        env: seq<seq<Event>>)
      returns (r: TryResult, emitted: seq<AgentId>, ghost trace: seq<Event>)
      requires w in workers && workers[w] == Checked(o)
      requires |env| == 5 && forall i :: 0 <= i < |env| ==> ForeignToWorker(env[i], w)
      modifies this
      ensures Snapshot() == Run(old(Snapshot()), trace)
      ensures w in workers && workers[w] == Idle
      ensures emitted == if r == OFFERED then Candidates(hits, wanted, online, busy) else []
      ensures Undisturbed(env) && o !in old(keys).offers ==>
                Tried(maxAttempts, old(keys), keys, o, Candidates(hits, wanted, online, busy), r)
      ensures Undisturbed(env) ==> workers == old(workers)[w := Idle]
    {
      hide Step, Run, ForeignToWorker, Candidates;
      ghost var start := Snapshot();
      emitted := [];
      OthersOfWorker(w, env[0]);
      trace := env[0];
      var exhausted := ReadAttempts(w, o);
      RunSnoc(start, trace, Proceed(w, []));
      trace := trace + [Proceed(w, [])];
      if exhausted {
        return EXHAUSTED, [], trace;
      }
      OthersOfWorker(w, env[1]);
      RunConcat(start, trace, env[1]);
      trace := trace + env[1];
      var found := FindCandidates(hits, wanted, online, busy);
      ghost var rest;
      r, emitted, rest := Broadcast(w, o, found, env[2..]);
      RunConcat(start, trace, rest);
      trace := trace + rest;
    }

    /** `tryAssign` for one order: whatever the other processes do in between, it is a worker's pass through the protocol.
        Undisturbed, a pass that is neither skipped nor exhausted spends one attempt. */
    method TryAssign(w: Pid, o: OrderId, hits: seq<Option<AgentId>>, wanted: nat, online: set<AgentId>, busy: set<AgentId>,
                     env: seq<seq<Event>>)
      returns (r: TryResult, emitted: seq<AgentId>, ghost trace: seq<Event>)
      requires w in workers && workers[w] == Idle
      requires |env| == 5 && forall i :: 0 <= i < |env| ==> ForeignToWorker(env[i], w)
      modifies this
      ensures Snapshot() == Run(old(Snapshot()), trace)
      ensures w in workers && workers[w] == Idle
      ensures emitted == if r == OFFERED then Candidates(hits, wanted, online, busy) else []
      ensures Undisturbed(env) ==> Tried(maxAttempts, old(keys), keys, o, Candidates(hits, wanted, online, busy), r)
      ensures Undisturbed(env) ==> workers == old(workers)
    {
      hide Step, Run, ForeignToWorker, Candidates;
      ghost var start := Snapshot();
      emitted := [];
      var offered := CheckOffer(w, o);
      RunOne(start, Try(w, o));
      trace := [Try(w, o)];
      if offered {
        return SKIPPED, [], trace;
      }
      ghost var rest;
      r, emitted, rest := AttemptOffer(w, o, hits, wanted, online, busy, env);
      RunConcat(start, trace, rest);
      trace := trace + rest;
    }

    /** One worker tick over the fetched orders: passes one after the other. Undisturbed, an order spends one attempt
        exactly when it has no live offer and attempts are left, and nothing else is spent. */
    method TickRegion(w: Pid, orders: seq<OrderId>, hits: seq<seq<Option<AgentId>>>, wanted: nat,
                      online: set<AgentId>, busy: set<AgentId>, env: seq<seq<seq<Event>>>)
      returns (processed: nat, offered: nat, skipped: nat, ghost trace: seq<Event>)
      requires w in workers && workers[w] == Idle
      requires |hits| == |orders| == |env| && Distinct(orders)
      requires forall i :: 0 <= i < |env| ==> |env[i]| == 5 && forall j :: 0 <= j < 5 ==> ForeignToWorker(env[i][j], w)
      modifies this
      ensures Snapshot() == Run(old(Snapshot()), trace)
      ensures w in workers && workers[w] == Idle
      ensures processed == |orders| == offered + skipped
      ensures (forall i :: 0 <= i < |env| ==> Undisturbed(env[i])) ==>
                && Ticked(maxAttempts, old(keys), keys, orders, hits, wanted, online, busy)
                && |keys.offers| == |old(keys).offers| + offered
    {
      hide Candidates, Run, ForeignToWorker, Undisturbed, Tried, Ticked;
      ghost var start := Snapshot();
      trace := [];
      NothingTicked(start, orders, hits, wanted, online, busy);
      offered, skipped := 0, 0;
      for i := 0 to |orders|
        invariant offered + skipped == i
        invariant w in workers && workers[w] == Idle
        invariant Snapshot() == Run(start, trace)
        invariant (forall j :: 0 <= j < i ==> Undisturbed(env[j])) ==>
                    && Ticked(maxAttempts, start.keys, keys, orders[..i], hits[..i], wanted, online, busy)
                    && |keys.offers| == |start.keys.offers| + offered
      {
        ghost var before := keys;
        var r, _, rest := TryAssign(w, orders[i], hits[i], wanted, online, busy, env[i]);
        RunConcat(start, trace, rest);
        trace := trace + rest;
        if forall j :: 0 <= j <= i ==> Undisturbed(env[j]) {
          TickedNext(maxAttempts, start.keys, before, keys, orders, hits, wanted, online, busy, i, r);
        }
        if r == OFFERED { offered := offered + 1; } else { skipped := skipped + 1; }
      }
      assert orders[..|orders|] == orders && hits[..|hits|] == hits;
      processed := |orders|;
    }

    /** Repeated ticks on one order whose offers expire in between: exactly maxAttempts - attempts of them
        spend an attempt, and every later one is exhausted. */
    method TickUntilExhausted(w: Pid, o: OrderId, hits: seq<Option<AgentId>>, wanted: nat,
                              online: set<AgentId>, busy: set<AgentId>)
      returns (spent: nat)
      requires w in workers && workers[w] == Idle
      modifies this
      ensures spent == if Count(old(keys).attempts, o) < maxAttempts then maxAttempts - Count(old(keys).attempts, o) else 0
      ensures Count(keys.attempts, o) >= maxAttempts && o !in keys.offers
    {
      hide Candidates, Run;
      spent := 0;
      keys := keys.(offers := keys.offers - {o});
      var r, _, _ := TryAssign(w, o, hits, wanted, online, busy, [[], [], [], [], []]);
      while r != EXHAUSTED
        invariant w in workers && workers[w] == Idle
        invariant r == EXHAUSTED ==> o !in keys.offers
        invariant r != SKIPPED
        invariant if r == EXHAUSTED then Count(keys.attempts, o) == Count(old(keys).attempts, o) + spent >= maxAttempts
                  else Count(keys.attempts, o) == Count(old(keys).attempts, o) + spent + 1 <= maxAttempts
        invariant spent > 0 && r == EXHAUSTED ==> Count(keys.attempts, o) == maxAttempts
        invariant spent > 0 ==> Count(old(keys).attempts, o) < maxAttempts
        decreases maxAttempts - Count(keys.attempts, o), r != EXHAUSTED
      {
        spent := spent + 1;
        keys := keys.(offers := keys.offers - {o});
        var next, _, _ := TryAssign(w, o, hits, wanted, online, busy, [[], [], [], [], []]);
        r := next;
      }
    }
  }
}
