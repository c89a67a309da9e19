/** The product cache: entries patched by stock and price events from core, and refilled with full rows read from core
    when an entry is missing or partial. */
module ProductCache {
  import opened Common

  type BranchId = nat

  type ProductId = nat

  type Key = (BranchId, ProductId)

  type Pid = nat

  /** Core's row of a product of a branch. */
  datatype Product = Product(name: string, price: int, stock: int, available: bool)

  /** A cache entry. Events leave entries without the fields they do not carry. */
  datatype Entry = Entry(name: Option<string>, price: Option<int>, stock: Option<int>, available: Option<bool>)

  const BLANK := Entry(None, None, None, None)

  datatype CoreEvent =
    | StockChanged(key: Key, newStock: Option<int>, isAvailable: Option<bool>)
    | PriceChanged(key: Key, newPrice: int)

  /** The fields that events keep up to date. */
  datatype Field = PRICE | STOCK | AVAILABLE

  datatype Value = Number(n: int) | Flag(b: bool)

  function Cached(e: Entry, f: Field): Option<Value> {
    match f
    case PRICE => if e.price.Some? then Some(Number(e.price.value)) else None
    case STOCK => if e.stock.Some? then Some(Number(e.stock.value)) else None
    case AVAILABLE => if e.available.Some? then Some(Flag(e.available.value)) else None
  }

  function Current(p: Product, f: Field): Value {
    match f
    case PRICE => Number(p.price)
    case STOCK => Number(p.stock)
    case AVAILABLE => Flag(p.available)
  }

  function FullEntry(p: Product): Entry {
    Entry(Some(p.name), Some(p.price), Some(p.stock), Some(p.available))
  }

  /** What an event says about a field of a product. */
  function Carries(e: CoreEvent, k: Key, f: Field): Option<Value> {
    if e.key != k then None
    else
      match (e, f)
      case (StockChanged(_, Some(n), _), STOCK) => Some(Number(n))
      case (StockChanged(_, _, Some(b)), AVAILABLE) => Some(Flag(b))
      case (PriceChanged(_, n), PRICE) => Some(Number(n))
      case _ => None
  }

  /** A field after the events in order. */
  function Replay(es: seq<CoreEvent>, k: Key, f: Field, v: Value): Value {
    if es == [] then v
    else
      var said := Carries(es[|es| - 1], k, f);
      if said.Some? then said.value else Replay(es[..|es| - 1], k, f, v)
  }

  /** A row read from core on its way into the cache; `overtaken` once an event of its product was handled since. */
  datatype Refill = Refill(key: Key, product: Product, overtaken: bool)

  datatype State = State(
    core: map<Key, Product>,
    pending: seq<CoreEvent>,
    cache: map<Key, Entry>,
    refills: map<Pid, Refill>)

  datatype Event =
    | Add(key: Key, product: Product)
    | Change(change: CoreEvent)
    | Rename(key: Key, name: string)
    | HandleNext
    | Fetch(pid: Pid, key: Key)
    | Land(pid: Pid)
    | Expire(key: Key)

  const EMPTY := State(map[], [], map[], map[])

  /** Core applies a change to its own row before it publishes it. */
  function Changed(p: Product, e: CoreEvent): Product {
    match e
    case StockChanged(_, newStock, isAvailable) =>
      p.(stock := if newStock.Some? then newStock.value else p.stock,
         available := if isAvailable.Some? then isAvailable.value else p.available)
    case PriceChanged(_, newPrice) => p.(price := newPrice)
  }

  /** The handlers: patch the entry, or start one. Events without both ids are ignored. */
  function Merge(cache: map<Key, Entry>, e: CoreEvent): map<Key, Entry> {
    if e.key.0 == 0 || e.key.1 == 0 then cache
    else
      var entry := if e.key in cache then cache[e.key] else BLANK;
      match e
      case StockChanged(k, newStock, isAvailable) =>
        cache[k := entry.(stock := if newStock.Some? then newStock else entry.stock,
                          available := if isAvailable.Some? then isAvailable else entry.available)]
      case PriceChanged(k, newPrice) => cache[k := entry.(price := Some(newPrice))]
  }

  /** What handling an event does to the cache: one without both ids nothing; any other sets the fields it carries and leaves
      the others of its entry, which it starts if need be, and all other entries. */
  ghost predicate Patches(cache: map<Key, Entry>, cache': map<Key, Entry>, e: CoreEvent) {
    if e.key.0 == 0 || e.key.1 == 0 then cache' == cache
    else
      var entry := if e.key in cache then cache[e.key] else Entry(None, None, None, None);
      match e
      case StockChanged(k, stock, available) =>
        cache' == cache[k := Entry(entry.name, entry.price, if stock.Some? then stock else entry.stock,
                                   if available.Some? then available else entry.available)]
      case PriceChanged(k, price) => cache' == cache[k := Entry(entry.name, Some(price), entry.stock, entry.available)]
  }

  function Overtake(refills: map<Pid, Refill>, k: Key): map<Pid, Refill> {
    map p | p in refills :: refills[p].(overtaken := refills[p].overtaken || refills[p].key == k)
  }

  function Step(s: State, e: Event): State {
    match e
    case Add(k, p) => if k in s.core || k.0 == 0 || k.1 == 0 then s else s.(core := s.core[k := p])
    case Change(c) =>
      if c.key !in s.core then s
      else s.(core := s.core[c.key := Changed(s.core[c.key], c)], pending := s.pending + [c])
    case Rename(k, name) => if k !in s.core then s else s.(core := s.core[k := s.core[k].(name := name)])
    case HandleNext =>
      if s.pending == [] then s
      else s.(pending := s.pending[1..], cache := Merge(s.cache, s.pending[0]), refills := Overtake(s.refills, s.pending[0].key))
    case Fetch(p, k) => if k !in s.core then s else s.(refills := s.refills[p := Refill(k, s.core[k], false)])
    case Land(p) =>
      if p !in s.refills then s
      else s.(cache := s.cache[s.refills[p].key := FullEntry(s.refills[p].product)], refills := s.refills - {p})
    case Expire(k) => s.(cache := s.cache - {k})
  }

  function Run(s: State, es: seq<Event>): State
    decreases |es|
  {
    if es == [] then s else Step(Run(s, es[..|es| - 1]), es[|es| - 1])
  }

  // ---------------------------------------------------------------------------
  // Agreement with core through the backlog
  // ---------------------------------------------------------------------------

  /** Every cached field, after the pending events, is core's. */
  predicate FieldAgrees(s: State, k: Key, f: Field) {
    k in s.cache && Cached(s.cache[k], f).Some? ==>
      k in s.core && Replay(s.pending, k, f, Cached(s.cache[k], f).value) == Current(s.core[k], f)
  }

  ghost predicate Agrees(s: State, k: Key) {
    forall f :: FieldAgrees(s, k, f)
  }

  predicate Pending(es: seq<CoreEvent>, k: Key, f: Field) {
    exists i :: 0 <= i < |es| && Carries(es[i], k, f).Some?
  }

  /** The fetched row is still what the cache should hold: each field is current, or an event about it is still to
      come. */
  ghost predicate Timely(s: State, p: Pid)
    requires p in s.refills && s.refills[p].key in s.core
  {
    var k := s.refills[p].key;
    forall f :: Current(s.refills[p].product, f) == Current(s.core[k], f) || Pending(s.pending, k, f)
  }

  /** Pending events concern known products, and the last one about a field carries its current value. */
  ghost predicate BacklogInv(s: State) {
    && (forall i :: 0 <= i < |s.pending| ==> s.pending[i].key in s.core)
    && (forall k :: k in s.core ==> k.0 > 0 && k.1 > 0)
    && (forall k, f :: k in s.core ==> Replay(s.pending, k, f, Current(s.core[k], f)) == Current(s.core[k], f))
  }

  ghost predicate RefillInv(s: State) {
    forall p :: p in s.refills ==>
      && s.refills[p].key in s.core
      && (!s.refills[p].overtaken ==> Timely(s, p))
  }

  lemma {:induction false} ReplayByLast(es: seq<CoreEvent>, k: Key, f: Field, v: Value, w: Value)
    ensures Pending(es, k, f) ==> Replay(es, k, f, v) == Replay(es, k, f, w)
    ensures !Pending(es, k, f) ==> Replay(es, k, f, v) == v
  {
    if es != [] {
      var n := |es| - 1;
      ReplayByLast(es[..n], k, f, v, w);
      if Carries(es[n], k, f).None? {
        if Pending(es, k, f) {
          var i :| 0 <= i < |es| && Carries(es[i], k, f).Some?;
          assert es[..n][i] == es[i];
        }
        if Pending(es[..n], k, f) {
          var i :| 0 <= i < n && Carries(es[..n][i], k, f).Some?;
          assert es[i] == es[..n][i];
        }
      }
    }
  }

  lemma {:induction false} ReplayFirst(es: seq<CoreEvent>, k: Key, f: Field, v: Value)
    requires es != []
    ensures Replay(es, k, f, v)
            == Replay(es[1..], k, f, if Carries(es[0], k, f).Some? then Carries(es[0], k, f).value else v)
    decreases |es|
  {
    var n := |es| - 1;
    if n > 0 {
      ReplayFirst(es[..n], k, f, v);
      assert es[1..][..n - 1] == es[..n][1..];
      assert es[1..][n - 1] == es[n];
    } else {
      assert es[..n] == [] && es[1..] == [];
    }
  }

  lemma ReplayNext(es: seq<CoreEvent>, e: CoreEvent, k: Key, f: Field, v: Value)
    ensures Replay(es + [e], k, f, v) == if Carries(e, k, f).Some? then Carries(e, k, f).value else Replay(es, k, f, v)
  {
    assert (es + [e])[..|es|] == es;
  }

  lemma PendingNext(es: seq<CoreEvent>, e: CoreEvent, k: Key, f: Field)
    ensures Pending(es + [e], k, f) <==> Pending(es, k, f) || Carries(e, k, f).Some?
  {
    assert (es + [e])[|es|] == e;
    assert forall i :: 0 <= i < |es| ==> (es + [e])[i] == es[i];
  }

  lemma ChangedSays(p: Product, e: CoreEvent, f: Field)
    ensures Current(Changed(p, e), f) == if Carries(e, e.key, f).Some? then Carries(e, e.key, f).value else Current(p, f)
  {
  }

  lemma MergedSays(cache: map<Key, Entry>, e: CoreEvent, k: Key, f: Field)
    requires e.key.0 > 0 && e.key.1 > 0
    ensures var cache' := Merge(cache, e);
            && (k in cache' <==> k in cache || k == e.key)
            && (k in cache' ==> Cached(cache'[k], f) == if Carries(e, k, f).Some? then Carries(e, k, f)
                                                        else if k in cache then Cached(cache[k], f) else None)
  {
  }

  lemma NextIsCurrent(s: State, c: CoreEvent, k: Key, f: Field)
    requires BacklogInv(s) && c.key in s.core && k in s.core
    ensures var s' := Step(s, Change(c));
            && Replay(s'.pending, k, f, Current(s'.core[k], f)) == Current(s'.core[k], f)
            && (Carries(c, k, f).None? ==> Current(s'.core[k], f) == Current(s.core[k], f))
            && (forall v :: Replay(s'.pending, k, f, v)
                            == if Carries(c, k, f).Some? then Current(s'.core[k], f) else Replay(s.pending, k, f, v))
  {
    var s' := Step(s, Change(c));
    ChangedSays(s.core[c.key], c, f);
    assert k != c.key ==> Carries(c, k, f).None?;
    hide Carries, Changed, Current;
    ReplayNext(s.pending, c, k, f, Current(s'.core[k], f));
    forall v ensures Replay(s'.pending, k, f, v)
                     == if Carries(c, k, f).Some? then Current(s'.core[k], f) else Replay(s.pending, k, f, v) {
      ReplayNext(s.pending, c, k, f, v);
    }
  }

  lemma ChangeKeepsInv(s: State, c: CoreEvent)
    requires BacklogInv(s) && RefillInv(s) && c.key in s.core
    ensures var s' := Step(s, Change(c)); BacklogInv(s') && RefillInv(s') && (forall k :: Agrees(s, k) ==> Agrees(s', k))
  {
    var s' := Step(s, Change(c));
    hide Changed, Carries, Replay, Pending, Cached, Current;
    forall k, f | k in s.core
      ensures Replay(s'.pending, k, f, Current(s'.core[k], f)) == Current(s'.core[k], f)
      ensures FieldAgrees(s, k, f) ==> FieldAgrees(s', k, f)
    {
      NextIsCurrent(s, c, k, f);
    }
    forall p | p in s.refills && !s.refills[p].overtaken ensures Timely(s', p) {
      assert Timely(s, p);
      var k := s.refills[p].key;
      forall f ensures Current(s.refills[p].product, f) == Current(s'.core[k], f) || Pending(s'.pending, k, f) {
        PendingNext(s.pending, c, k, f);
        NextIsCurrent(s, c, k, f);
      }
    }
    forall k | Agrees(s, k) ensures Agrees(s', k) {
      forall f ensures FieldAgrees(s', k, f) {
        assert FieldAgrees(s, k, f);
      }
    }
  }

  /** The event about to be handled has no say that the rest of the backlog does not correct. */
  lemma FirstIsCurrent(s: State, k: Key, f: Field, v: Value)
    requires BacklogInv(s) && s.pending != [] && k in s.core
    ensures var said := Carries(s.pending[0], k, f);
            && Replay(s.pending[1..], k, f, if said.Some? then said.value else v) == Replay(s.pending, k, f, v)
            && (said.Some? ==> Replay(s.pending, k, f, v) == Current(s.core[k], f))
            && Replay(s.pending[1..], k, f, Current(s.core[k], f)) == Current(s.core[k], f)
  {
    var c := Current(s.core[k], f);
    ReplayFirst(s.pending, k, f, v);
    ReplayFirst(s.pending, k, f, c);
    ReplayByLast(s.pending, k, f, v, c);
    ReplayByLast(s.pending[1..], k, f, if Carries(s.pending[0], k, f).Some? then Carries(s.pending[0], k, f).value else c, c);
    assert Carries(s.pending[0], k, f).Some? ==> Pending(s.pending, k, f);
    hide Carries, Replay, Pending, Current;
  }

  lemma OthersStillPending(es: seq<CoreEvent>, k: Key, f: Field)
    requires es != [] && es[0].key != k
    ensures Pending(es, k, f) ==> Pending(es[1..], k, f)
  {
    if i :| 0 <= i < |es| && Carries(es[i], k, f).Some? {
      assert es[1..][i - 1] == es[i];
    }
  }

  lemma HandledFieldAgrees(s: State, k: Key, f: Field)
    requires BacklogInv(s) && s.pending != [] && FieldAgrees(s, k, f)
    ensures FieldAgrees(Step(s, HandleNext), k, f)
  {
    var s', e := Step(s, HandleNext), s.pending[0];
    assert e.key in s.core;
    MergedSays(s.cache, e, k, f);
    assert Carries(e, k, f).Some? ==> k == e.key;
    hide Carries, Merge, Cached, Replay, Current;
    if k in s.core {
      var v := if k in s.cache && Cached(s.cache[k], f).Some? then Cached(s.cache[k], f).value else Current(s.core[k], f);
      FirstIsCurrent(s, k, f, v);
    }
    hide BacklogInv;
  }

  lemma HandleKeepsInv(s: State)
    requires BacklogInv(s) && RefillInv(s) && s.pending != []
    ensures var s' := Step(s, HandleNext);
            BacklogInv(s') && RefillInv(s') && (forall k :: Agrees(s, k) ==> Agrees(s', k))
  {
    var s' := Step(s, HandleNext);
    var e := s.pending[0];
    hide Carries, Replay, Pending, Cached, Current, Merge;
    forall k, f | k in s.core ensures Replay(s'.pending, k, f, Current(s.core[k], f)) == Current(s.core[k], f) {
      FirstIsCurrent(s, k, f, Current(s.core[k], f));
    }
    forall p | p in s'.refills && !s'.refills[p].overtaken ensures Timely(s', p) {
      assert Timely(s, p);
      assert s'.refills[p] == s.refills[p] && s.refills[p].key != e.key;
      var k := s.refills[p].key;
      forall f ensures Current(s.refills[p].product, f) == Current(s.core[k], f) || Pending(s'.pending, k, f) {
        OthersStillPending(s.pending, k, f);
      }
    }
    forall k | Agrees(s, k) ensures Agrees(s', k) {
      forall f ensures FieldAgrees(s', k, f) {
        HandledFieldAgrees(s, k, f);
      }
    }
  }

  lemma AgreesIffTimely(s: State, k: Key, f: Field, v: Value)
    requires BacklogInv(s) && k in s.core
    ensures Replay(s.pending, k, f, v) == Current(s.core[k], f) <==> v == Current(s.core[k], f) || Pending(s.pending, k, f)
  {
    ReplayByLast(s.pending, k, f, v, Current(s.core[k], f));
    hide Replay, Pending, Current;
  }

  lemma FullEntrySays(p: Product, f: Field)
    ensures Cached(FullEntry(p), f) == Some(Current(p, f))
  {
  }

  /** A refill leaves its entry in agreement with core if and only if each fetched field is still current or an event
      about it is still pending. */
  lemma RefillAgreesIffTimely(s: State, p: Pid)
    requires BacklogInv(s) && p in s.refills && s.refills[p].key in s.core
    ensures Agrees(Step(s, Land(p)), s.refills[p].key) <==> Timely(s, p)
  {
    var s', k := Step(s, Land(p)), s.refills[p].key;
    forall f
      ensures FieldAgrees(s', k, f) <==>
              Current(s.refills[p].product, f) == Current(s.core[k], f) || Pending(s.pending, k, f)
    {
      FullEntrySays(s.refills[p].product, f);
      AgreesIffTimely(s, k, f, Current(s.refills[p].product, f));
    }
    hide FieldAgrees, Current, Pending, BacklogInv;
  }

  predicate IsLand(s: State, e: Event) {
    e.Land? && e.pid in s.refills
  }

  lemma NothingPending(es: seq<CoreEvent>, known: set<Key>, k: Key, f: Field)
    requires (forall i :: 0 <= i < |es| ==> es[i].key in known) && k !in known
    ensures !Pending(es, k, f)
  {
  }

  lemma AddKeepsBacklog(s: State, k: Key, p: Product)
    requires BacklogInv(s)
    ensures BacklogInv(Step(s, Add(k, p)))
  {
    var s' := Step(s, Add(k, p));
    if s' != s {
      forall j, f | j in s'.core ensures Replay(s'.pending, j, f, Current(s'.core[j], f)) == Current(s'.core[j], f) {
        if j == k {
          NothingPending(s.pending, s.core.Keys, k, f);
          ReplayByLast(s.pending, k, f, Current(p, f), Current(p, f));
        }
      }
    }
  }

  lemma OtherStepsKeepRefills(s: State, e: Event)
    requires RefillInv(s) && !e.Change? && !e.HandleNext?
    ensures RefillInv(Step(s, e))
  {
    hide Replay, Pending, Cached;
    var s' := Step(s, e);
    forall p | p in s'.refills ensures s'.refills[p].key in s'.core && (!s'.refills[p].overtaken ==> Timely(s', p)) {
      if p in s.refills && s'.refills[p] == s.refills[p] && !s.refills[p].overtaken {
        assert Timely(s, p);
      }
    }
  }

  lemma OtherStepsKeepInv(s: State, e: Event)
    requires BacklogInv(s) && RefillInv(s) && !e.Change? && !e.HandleNext?
    ensures BacklogInv(Step(s, e)) && RefillInv(Step(s, e))
    ensures forall k :: Agrees(s, k) && !(IsLand(s, e) && k == s.refills[e.pid].key) ==> Agrees(Step(s, e), k)
  {
    hide Replay, Pending, Cached;
    var s' := Step(s, e);
    if e.Add? {
      AddKeepsBacklog(s, e.key, e.product);
    } else {
      forall k, f | k in s'.core ensures Replay(s'.pending, k, f, Current(s'.core[k], f)) == Current(s'.core[k], f) {
        assert Current(s'.core[k], f) == Current(s.core[k], f);
      }
    }
    OtherStepsKeepRefills(s, e);
    hide Timely, BacklogInv;
    forall k | Agrees(s, k) && !(IsLand(s, e) && k == s.refills[e.pid].key) ensures Agrees(s', k) {
      forall f ensures FieldAgrees(s', k, f) {
        assert FieldAgrees(s, k, f);
      }
    }
  }

  /** Refills land in time throughout the run. */
  ghost predicate LandsInTime(s: State, es: seq<Event>)
    decreases |es|
  {
    es != [] ==>
      var n := |es| - 1;
      && LandsInTime(s, es[..n])
      && var s1 := Run(s, es[..n]);
         (IsLand(s1, es[n]) && s1.refills[es[n].pid].key in s1.core ==> Timely(s1, es[n].pid))
  }

  lemma StepKeepsInv(s: State, e: Event)
    requires BacklogInv(s) && RefillInv(s)
    ensures BacklogInv(Step(s, e)) && RefillInv(Step(s, e))
    ensures forall k :: Agrees(s, k) && !(IsLand(s, e) && k == s.refills[e.pid].key) ==> Agrees(Step(s, e), k)
  {
    hide BacklogInv, RefillInv, Agrees, Merge, Changed, Overtake;
    if e.Change? {
      if e.change.key in s.core {
        ChangeKeepsInv(s, e.change);
      }
    } else if e.HandleNext? {
      if s.pending != [] {
        HandleKeepsInv(s);
      }
    } else {
      OtherStepsKeepInv(s, e);
    }
  }

  lemma {:induction false} RunKeepsInv(es: seq<Event>)
    ensures BacklogInv(Run(EMPTY, es)) && RefillInv(Run(EMPTY, es))
    decreases |es|
  {
    if es != [] {
      RunKeepsInv(es[..|es| - 1]);
      StepKeepsInv(Run(EMPTY, es[..|es| - 1]), es[|es| - 1]);
    }
  }

  lemma EmptyBacklog(s: State, k: Key)
    requires Agrees(s, k) && k in s.cache && s.pending == []
    ensures forall f :: Cached(s.cache[k], f).Some? ==> k in s.core && Cached(s.cache[k], f) == Some(Current(s.core[k], f))
  {
    forall f | Cached(s.cache[k], f).Some?
      ensures k in s.core && Cached(s.cache[k], f) == Some(Current(s.core[k], f))
    {
      assert FieldAgrees(s, k, f);
    }
  }

  /** Through any mix of core changes, handled events, refills that land in time, partial entries and expiries, every
      cached price, stock and availability is core's after the pending events: with an empty backlog the cache is
      right. */
  lemma {:induction false} CacheAgreesThroughItsBacklog(es: seq<Event>, k: Key)
    requires LandsInTime(EMPTY, es)
    ensures var s := Run(EMPTY, es);
            && Agrees(s, k)
            && (s.pending == [] && k in s.cache ==>
                  forall f :: Cached(s.cache[k], f).Some? ==> k in s.core && Cached(s.cache[k], f) == Some(Current(s.core[k], f)))
    decreases |es|
  {
    var s := Run(EMPTY, es);
    if es != [] {
      var n := |es| - 1;
      var s1 := Run(EMPTY, es[..n]);
      CacheAgreesThroughItsBacklog(es[..n], k);
      RunKeepsInv(es[..n]);
      StepKeepsInv(s1, es[n]);
      if IsLand(s1, es[n]) {
        RefillAgreesIffTimely(s1, es[n].pid);
      }
    } else {
      forall f ensures FieldAgrees(s, k, f) {
      }
    }
    if k in s.cache && s.pending == [] {
      EmptyBacklog(s, k);
    }
  }

  predicate Whole(e: Entry) {
    e.name.Some? && e.price.Some? && e.stock.Some? && e.available.Some?
  }

  /** Only whole rows carry a name, so what reads as a hit lacks nothing. */
  predicate NamedIsWhole(cache: map<Key, Entry>) {
    forall k :: k in cache && cache[k].name.Some? ==> Whole(cache[k])
  }

  lemma {:induction false} NamedEntriesAreWhole(es: seq<Event>)
    ensures NamedIsWhole(Run(EMPTY, es).cache)
    decreases |es|
  {
    if es != [] {
      NamedEntriesAreWhole(es[..|es| - 1]);
    }
  }

  /** A refill that no event of its product overtook is in time, in every run. */
  lemma OnlyOvertakenRefillsAreLate(es: seq<Event>, p: Pid)
    requires p in Run(EMPTY, es).refills
    ensures var s := Run(EMPTY, es);
            s.refills[p].key in s.core && (Timely(s, p) || s.refills[p].overtaken)
  {
    RunKeepsInv(es);
  }

  /** No refill of the run lands after an event of its product was handled. */
  predicate NoneOvertaken(s: State, es: seq<Event>)
    decreases |es|
  {
    es != [] ==>
      var n := |es| - 1;
      var s1 := Run(s, es[..n]);
      && NoneOvertaken(s, es[..n])
      && (IsLand(s1, es[n]) ==> !s1.refills[es[n].pid].overtaken)
  }

  lemma {:induction false} NoneOvertakenLandsInTime(es: seq<Event>)
    requires NoneOvertaken(EMPTY, es)
    ensures LandsInTime(EMPTY, es)
    decreases |es|
  {
    if es != [] {
      var n := |es| - 1;
      NoneOvertakenLandsInTime(es[..n]);
      if IsLand(Run(EMPTY, es[..n]), es[n]) {
        OnlyOvertakenRefillsAreLate(es[..n], es[n].pid);
      }
    }
  }

  /** As long as no refill is overtaken, which its worker could notice, the cache agrees with core through its backlog. */
  lemma CacheAgreesUnlessOvertaken(es: seq<Event>, k: Key)
    requires NoneOvertaken(EMPTY, es)
    ensures var s := Run(EMPTY, es);
            && Agrees(s, k)
            && (s.pending == [] && k in s.cache ==>
                  forall f :: Cached(s.cache[k], f).Some? ==> k in s.core && Cached(s.cache[k], f) == Some(Current(s.core[k], f)))
  {
    NoneOvertakenLandsInTime(es);
    CacheAgreesThroughItsBacklog(es, k);
  }

  /** An overtaken refill can leave the cache wrong with nothing pending to correct it: a price change handled between
      the read and the write is lost. */
  lemma OvertakenRefillLosesAPrice(k: Key, p: Product, price: int)
    requires k.0 > 0 && k.1 > 0 && price != p.price
    ensures var s := Run(EMPTY, [Add(k, p), Fetch(1, k), Change(PriceChanged(k, price)), HandleNext, Land(1)]);
            && s.pending == [] && k in s.cache && k in s.core
            && Cached(s.cache[k], PRICE) == Some(Number(p.price)) && s.core[k].price == price
  {
    var e1, e2, e3, e4, e5 := Add(k, p), Fetch(1, k), Change(PriceChanged(k, price)), HandleNext, Land(1);
    assert [e1, e2, e3, e4, e5][..4] == [e1, e2, e3, e4];
    assert [e1, e2, e3, e4][..3] == [e1, e2, e3];
    assert [e1, e2, e3][..2] == [e1, e2];
    assert [e1, e2][..1] == [e1];
    assert Run(EMPTY, [e1][..0]) == EMPTY;
    assert Run(EMPTY, [e1]) == State(map[k := p], [], map[], map[]);
    var s2 := Run(EMPTY, [e1, e2]);
    assert s2 == State(map[k := p], [], map[], map[1 := Refill(k, p, false)]);
    var s3 := Run(EMPTY, [e1, e2, e3]);
    assert s3 == State(map[k := p.(price := price)], [PriceChanged(k, price)], map[], map[1 := Refill(k, p, false)]);
    var s4 := Run(EMPTY, [e1, e2, e3, e4]);
    assert s4.refills == map[1 := Refill(k, p, true)] && s4.pending == [];
  }

  // ---------------------------------------------------------------------------
  // Reading the products of a branch
  // ---------------------------------------------------------------------------

  /** The elements of a list, each once, by first occurrence. */
  function Unique<T(==)>(s: seq<T>): seq<T> {
    if s == [] then []
    else
      var before := Unique(s[..|s| - 1]);
      if s[|s| - 1] in before then before else before + [s[|s| - 1]]
  }

  lemma {:induction false} UniqueMeans<T>(s: seq<T>)
    ensures Distinct(Unique(s)) && |Unique(s)| <= |s|
    ensures forall x :: x in Unique(s) <==> x in s
    ensures |Unique(s)| == |s| ==> Unique(s) == s
  {
    if s != [] {
      var n := |s| - 1;
      UniqueMeans(s[..n]);
      assert s == s[..n] + [s[n]];
    }
  }

  /** An entry without a name was started by an event and is read as a miss. */
  predicate IsHit(cache: map<Key, Entry>, k: Key) {
    k in cache && cache[k].name.Some?
  }

  function Hits(cache: map<Key, Entry>, b: BranchId, ids: seq<ProductId>): seq<(ProductId, Entry)> {
    if ids == [] then []
    else
      var id := ids[|ids| - 1];
      Hits(cache, b, ids[..|ids| - 1]) + if IsHit(cache, (b, id)) then [(id, cache[(b, id)])] else []
  }

  function Misses(cache: map<Key, Entry>, b: BranchId, ids: seq<ProductId>): seq<ProductId> {
    if ids == [] then []
    else
      var id := ids[|ids| - 1];
      Misses(cache, b, ids[..|ids| - 1]) + if IsHit(cache, (b, id)) then [] else [id]
  }

  /** Core's answer: the rows it has. */
  function Found(core: map<Key, Product>, b: BranchId, ids: seq<ProductId>): seq<(ProductId, Entry)> {
    if ids == [] then []
    else
      var id := ids[|ids| - 1];
      Found(core, b, ids[..|ids| - 1]) + if (b, id) in core then [(id, FullEntry(core[(b, id)]))] else []
  }

  function Products(cache: map<Key, Entry>, core: map<Key, Product>, b: BranchId, ids: seq<ProductId>)
    : seq<(ProductId, Entry)>
  {
    Hits(cache, b, Unique(ids)) + Found(core, b, Misses(cache, b, Unique(ids)))
  }

  /** The cache after the rows found were written back, except for the writes that failed. */
  function Refilled(cache: map<Key, Entry>, b: BranchId, rows: seq<(ProductId, Entry)>, lost: set<ProductId>): map<Key, Entry> {
    if rows == [] then cache
    else
      var (id, entry) := rows[|rows| - 1];
      var before := Refilled(cache, b, rows[..|rows| - 1], lost);
      if id in lost then before else before[(b, id) := entry]
  }

  function IdsOf(rows: seq<(ProductId, Entry)>): seq<ProductId> {
    seq(|rows|, i requires 0 <= i < |rows| => rows[i].0)
  }

  /** What a caller finds for a product: the cached entry when it is whole, else core's row. */
  function Lookup(cache: map<Key, Entry>, core: map<Key, Product>, k: Key): Option<Entry> {
    if IsHit(cache, k) then Some(cache[k])
    else if k in core then Some(FullEntry(core[k]))
    else None
  }

  lemma {:induction false} HitsMean(cache: map<Key, Entry>, b: BranchId, ids: seq<ProductId>)
    requires Distinct(ids)
    ensures var hits := Hits(cache, b, ids);
            && (forall x :: x in hits <==> x.0 in ids && IsHit(cache, (b, x.0)) && x.1 == cache[(b, x.0)])
            && Distinct(IdsOf(hits))
  {
    if ids != [] {
      var n := |ids| - 1;
      assert ids == ids[..n] + [ids[n]];
      HitsMean(cache, b, ids[..n]);
      assert ids[n] !in ids[..n];
      var hits := Hits(cache, b, ids[..n]);
      forall i | 0 <= i < |hits| ensures hits[i].0 != ids[n] {
        assert hits[i] in hits;
      }
      assert forall i :: 0 <= i < |hits| ==> IdsOf(hits)[i] == hits[i].0;
    }
  }

  lemma {:induction false} MissesMean(cache: map<Key, Entry>, b: BranchId, ids: seq<ProductId>)
    requires Distinct(ids)
    ensures Distinct(Misses(cache, b, ids))
    ensures forall id :: id in Misses(cache, b, ids) <==> id in ids && !IsHit(cache, (b, id))
  {
    if ids != [] {
      var n := |ids| - 1;
      assert ids == ids[..n] + [ids[n]];
      MissesMean(cache, b, ids[..n]);
      assert ids[n] !in ids[..n];
    }
  }

  lemma {:induction false} FoundMeans(core: map<Key, Product>, b: BranchId, ids: seq<ProductId>)
    requires Distinct(ids)
    ensures var found := Found(core, b, ids);
            && (forall x :: x in found <==> x.0 in ids && (b, x.0) in core && x.1 == FullEntry(core[(b, x.0)]))
            && Distinct(IdsOf(found))
  {
    if ids != [] {
      var n := |ids| - 1;
      assert ids == ids[..n] + [ids[n]];
      FoundMeans(core, b, ids[..n]);
      assert ids[n] !in ids[..n];
      var found := Found(core, b, ids[..n]);
      forall i | 0 <= i < |found| ensures found[i].0 != ids[n] {
        assert found[i] in found;
      }
      assert forall i :: 0 <= i < |found| ==> IdsOf(found)[i] == found[i].0;
    }
  }

  lemma JoinedApart(a: seq<(ProductId, Entry)>, b: seq<(ProductId, Entry)>)
    requires Distinct(IdsOf(a)) && Distinct(IdsOf(b)) && forall x, y :: x in a && y in b ==> x.0 != y.0
    ensures Distinct(IdsOf(a + b))
  {
    forall i, j | 0 <= i < j < |a + b| ensures IdsOf(a + b)[i] != IdsOf(a + b)[j] {
      if i < |a| <= j {
        assert a[i] in a && b[j - |a|] in b;
      } else if j < |a| {
        assert IdsOf(a)[i] != IdsOf(a)[j];
      } else {
        assert IdsOf(b)[i - |a|] != IdsOf(b)[j - |a|];
      }
    }
  }

  /** Each requested product that can be found is answered once, and nothing else is. */
  lemma ProductsMean(cache: map<Key, Entry>, core: map<Key, Product>, b: BranchId, ids: seq<ProductId>)
    ensures var r := Products(cache, core, b, ids);
            && Distinct(IdsOf(r))
            && (forall x :: x in r <==> x.0 in ids && Lookup(cache, core, (b, x.0)) == Some(x.1))
  {
    UniqueMeans(ids);
    var u := Unique(ids);
    HitsMean(cache, b, u);
    MissesMean(cache, b, u);
    FoundMeans(core, b, Misses(cache, b, u));
    var hits, found := Hits(cache, b, u), Found(core, b, Misses(cache, b, u));
    hide Hits, Found, Misses, Unique, FullEntry, Distinct, IdsOf, IsHit;
    JoinedApart(hits, found);
  }

  /** What a caller sees of a product: the cached entry if that carries a name, otherwise all of core's row. */
  ghost predicate Observed(cache: map<Key, Entry>, core: map<Key, Product>, k: Key, e: Entry) {
    if k in cache && cache[k].name.Some? then e == cache[k]
    else k in core && e == Entry(Some(core[k].name), Some(core[k].price), Some(core[k].stock), Some(core[k].available))
  }

  lemma LookupObserves(cache: map<Key, Entry>, core: map<Key, Product>, k: Key)
    ensures forall e :: Lookup(cache, core, k) == Some(e) <==> Observed(cache, core, k, e)
  {
  }

  /** The answer names each requested product that can be seen exactly once, as it is seen, and nothing else. */
  ghost predicate Answers(cache: map<Key, Entry>, core: map<Key, Product>, b: BranchId, ids: seq<ProductId>,
                          r: seq<(ProductId, Entry)>)
  {
    && Distinct(IdsOf(r))
    && forall x :: x in r <==> x.0 in ids && Observed(cache, core, (b, x.0), x.1)
  }

  lemma ProductsAnswer(cache: map<Key, Entry>, core: map<Key, Product>, b: BranchId, ids: seq<ProductId>)
    ensures Answers(cache, core, b, ids, Products(cache, core, b, ids))
  {
    ProductsMean(cache, core, b, ids);
    hide Products, Lookup, Observed, Distinct;
    forall x: (ProductId, Entry) ensures Lookup(cache, core, (b, x.0)) == Some(x.1) <==> Observed(cache, core, (b, x.0), x.1) {
      LookupObserves(cache, core, (b, x.0));
    }
  }

  lemma AnsweredIds(r: seq<(ProductId, Entry)>, id: ProductId)
    ensures id in IdsOf(r) <==> exists x :: x in r && x.0 == id
  {
    if id in IdsOf(r) {
      var i :| 0 <= i < |r| && IdsOf(r)[i] == id;
      assert r[i] in r;
    }
    if x :| x in r && x.0 == id {
      var i :| 0 <= i < |r| && r[i] == x;
      assert IdsOf(r)[i] == id;
    }
  }

  lemma {:induction false} RefilledAt(cache: map<Key, Entry>, b: BranchId, rows: seq<(ProductId, Entry)>, lost: set<ProductId>,
                                      k: Key)
    requires Distinct(IdsOf(rows))
    ensures var cache' := Refilled(cache, b, rows, lost);
            && (forall x :: x in rows && (b, x.0) == k && x.0 !in lost ==> k in cache' && cache'[k] == x.1)
            && (k.0 != b || k.1 in lost || k.1 !in IdsOf(rows) ==>
                  (k in cache' <==> k in cache) && (k in cache ==> cache'[k] == cache[k]))
  {
    if rows != [] {
      var init, last := rows[..|rows| - 1], rows[|rows| - 1];
      assert forall i :: 0 <= i < |init| ==> IdsOf(init)[i] == IdsOf(rows)[i];
      assert IdsOf(rows)[|init|] == last.0;
      RefilledAt(cache, b, init, lost, k);
      assert rows == init + [last];
      assert last.0 !in IdsOf(init);
      hide Distinct;
      AnsweredIds(init, k.1);
    }
  }

  /** The cache after a lookup: rows read for entries missing or nameless are all there, unless their write was lost, and
      nothing else has changed. */
  ghost predicate FilledFrom(cache: map<Key, Entry>, cache': map<Key, Entry>, core: map<Key, Product>, b: BranchId,
                             ids: seq<ProductId>, lost: set<ProductId>)
  {
    forall k: Key ::
      if k.0 == b && k.1 in ids && k.1 !in lost && k in core && !(k in cache && cache[k].name.Some?)
      then k in cache' && cache'[k] == Entry(Some(core[k].name), Some(core[k].price), Some(core[k].stock), Some(core[k].available))
      else (k in cache' <==> k in cache) && (k in cache ==> cache'[k] == cache[k])
  }

  lemma LookupFills(cache: map<Key, Entry>, core: map<Key, Product>, b: BranchId, ids: seq<ProductId>, lost: set<ProductId>)
    ensures FilledFrom(cache, Refilled(cache, b, Found(core, b, Misses(cache, b, Unique(ids))), lost), core, b, ids, lost)
  {
    var unique := Unique(ids);
    var misses := Misses(cache, b, unique);
    var rows := Found(core, b, misses);
    UniqueMeans(ids);
    MissesMean(cache, b, unique);
    FoundMeans(core, b, misses);
    hide Distinct, Misses, Found, Unique, Refilled;
    forall k: Key
      ensures var cache' := Refilled(cache, b, rows, lost);
              if k.0 == b && k.1 in ids && k.1 !in lost && k in core && !(k in cache && cache[k].name.Some?)
              then k in cache' && cache'[k] == FullEntry(core[k])
              else (k in cache' <==> k in cache) && (k in cache ==> cache'[k] == cache[k])
    {
      RefilledAt(cache, b, rows, lost, k);
      AnsweredIds(rows, k.1);
      if k.0 == b && k in core && k.1 in misses {
        assert (k.1, FullEntry(core[k])) in rows;
      }
    }
  }

  lemma SameSizeSubset<T>(a: set<T>, b: set<T>)
    requires a <= b && |a| == |b|
    ensures a == b
  {
    assert b == a + (b - a);
  }

  /** As many answers as requests: then the requests were pairwise distinct and all were found. */
  lemma AllFoundMeansDistinct(cache: map<Key, Entry>, core: map<Key, Product>, b: BranchId, ids: seq<ProductId>)
    ensures |Products(cache, core, b, ids)| == |ids| <==>
            Distinct(ids) && forall i :: 0 <= i < |ids| ==> Lookup(cache, core, (b, ids[i])).Some?
  {
    var r := Products(cache, core, b, ids);
    var got := IdsOf(r);
    ProductsMean(cache, core, b, ids);
    hide Products, Lookup;
    forall id ensures id in got <==> id in ids && Lookup(cache, core, (b, id)).Some? {
      AnsweredIds(r, id);
      if id in ids && Lookup(cache, core, (b, id)).Some? {
        assert (id, Lookup(cache, core, (b, id)).value) in r;
      }
    }
    ElementsFit(got);
    ElementsFit(ids);
    CardinalityMonotone(SetOf(got), SetOf(ids));
    if |r| == |ids| {
      SameSizeSubset(SetOf(got), SetOf(ids));
      forall i | 0 <= i < |ids| ensures Lookup(cache, core, (b, ids[i])).Some? {
        assert ids[i] in SetOf(ids);
      }
    }
    if Distinct(ids) && forall i :: 0 <= i < |ids| ==> Lookup(cache, core, (b, ids[i])).Some? {
      assert SetOf(got) == SetOf(ids);
    }
  }

  /** Writing back rows just read from core keeps the whole cache in agreement, whichever writes fail. */
  lemma {:induction false} WriteBackAgrees(s: State, b: BranchId, rows: seq<(ProductId, Entry)>, lost: set<ProductId>, k: Key)
    requires BacklogInv(s) && Agrees(s, k)
    requires forall x :: x in rows ==> (b, x.0) in s.core && x.1 == FullEntry(s.core[(b, x.0)])
    ensures Agrees(s.(cache := Refilled(s.cache, b, rows, lost)), k)
  {
    if rows != [] {
      var init, last := rows[..|rows| - 1], rows[|rows| - 1];
      WriteBackAgrees(s, b, init, lost, k);
      assert last in rows;
      if last.0 !in lost && k == (b, last.0) {
        forall f ensures FieldAgrees(s.(cache := Refilled(s.cache, b, rows, lost)), k, f) {
          FullEntrySays(s.core[k], f);
        }
      } else {
        forall f ensures FieldAgrees(s.(cache := Refilled(s.cache, b, rows, lost)), k, f) {
          assert FieldAgrees(s.(cache := Refilled(s.cache, b, init, lost)), k, f);
        }
      }
    } else {
      assert s.(cache := Refilled(s.cache, b, rows, lost)) == s;
    }
  }

  /** Cache and core as one region's workers see them. */
  class CoreDataCache {
    var core: map<Key, Product>
    var pending: seq<CoreEvent>
    var cache: map<Key, Entry>
    var refills: map<Pid, Refill>

    ghost function Snapshot(): State
      reads this
    {
      State(core, pending, cache, refills)
    }

    constructor ()
      ensures Snapshot() == EMPTY
    {
      core, pending, cache, refills := map[], [], map[], map[];
    }

    /** `upsertProductStock`: absent fields of the event leave the entry's as they are. */
    method UpsertProductStock(k: Key, newStock: Option<int>, isAvailable: Option<bool>)
      requires k.0 > 0 && k.1 > 0
      modifies `cache
      ensures cache == Merge(old(cache), StockChanged(k, newStock, isAvailable))
      ensures Patches(old(cache), cache, StockChanged(k, newStock, isAvailable))
    {
      var merged := if k in cache then cache[k] else BLANK;
      if newStock.Some? {
        merged := merged.(stock := newStock);
      }
      if isAvailable.Some? {
        merged := merged.(available := isAvailable);
      }
      cache := cache[k := merged];
    }

    method UpsertProductPrice(k: Key, newPrice: int)
      requires k.0 > 0 && k.1 > 0
      modifies `cache
      ensures cache == Merge(old(cache), PriceChanged(k, newPrice))
      ensures Patches(old(cache), cache, PriceChanged(k, newPrice))
    {
      var merged := if k in cache then cache[k] else BLANK;
      merged := merged.(price := Some(newPrice));
      cache := cache[k := merged];
    }

    /** The consumer takes the oldest event; one without both ids is dropped. */
    method HandleEvent() returns (handled: bool)
      modifies this
      ensures Snapshot() == Step(old(Snapshot()), HandleNext)
      ensures handled <==> old(pending) != []
      ensures handled ==> pending == old(pending)[1..] && Patches(old(cache), cache, old(pending)[0])
    {
      handled := pending != [];
      if !handled {
        return;
      }
      var e := pending[0];
      pending := pending[1..];
      refills := Overtake(refills, e.key);
      if e.key.0 == 0 || e.key.1 == 0 {
        return;
      }
      match e {
        case StockChanged(k, newStock, isAvailable) => UpsertProductStock(k, newStock, isAvailable);
        case PriceChanged(k, newPrice) => UpsertProductPrice(k, newPrice);
      }
    }

    /** `getBranchProducts`, undisturbed; `lost` are the products whose write back to the cache fails. */
    method GetBranchProducts(b: BranchId, ids: seq<ProductId>, lost: set<ProductId>) returns (r: seq<(ProductId, Entry)>)
      modifies `cache
      ensures r == Products(old(cache), core, b, ids)
      ensures Answers(old(cache), core, b, ids, r)
      ensures FilledFrom(old(cache), cache, core, b, ids, lost)
      ensures cache == Refilled(old(cache), b, Found(core, b, Misses(old(cache), b, Unique(ids))), lost)
    {
      ProductsAnswer(cache, core, b, ids);
      LookupFills(cache, core, b, ids, lost);
      hide Answers, FilledFrom;
      var unique := Deduplicate(ids);
      var cached, misses := ReadCache(b, unique);
      r := cached;
      if misses != [] {
        var data := FetchRows(b, misses);
        WriteBack(b, data, lost);
        r := cached + data;
      }
    }

    method Deduplicate(ids: seq<ProductId>) returns (unique: seq<ProductId>)
      ensures unique == Unique(ids)
    {
      unique := [];
      for i := 0 to |ids|
        invariant unique == Unique(ids[..i])
      {
        assert ids[..i + 1][..i] == ids[..i];
        if ids[i] !in unique {
          unique := unique + [ids[i]];
        }
      }
      assert ids[..|ids|] == ids;
    }

    /** The cache pass: entries that are missing or partial are misses. */
    method ReadCache(b: BranchId, unique: seq<ProductId>) returns (cached: seq<(ProductId, Entry)>, misses: seq<ProductId>)
      ensures cached == Hits(cache, b, unique) && misses == Misses(cache, b, unique)
    {
      cached, misses := [], [];
      for i := 0 to |unique|
        invariant cached == Hits(cache, b, unique[..i]) && misses == Misses(cache, b, unique[..i])
      {
        assert unique[..i + 1][..i] == unique[..i];
        var k := (b, unique[i]);
        if k !in cache || cache[k].name.None? {
          misses := misses + [unique[i]];
        } else {
          cached := cached + [(unique[i], cache[k])];
        }
      }
      assert unique[..|unique|] == unique;
    }

    method WriteBack(b: BranchId, data: seq<(ProductId, Entry)>, lost: set<ProductId>)
      modifies `cache
      ensures cache == Refilled(old(cache), b, data, lost)
    {
      for i := 0 to |data|
        invariant cache == Refilled(old(cache), b, data[..i], lost)
      {
        assert data[..i + 1][..i] == data[..i];
        if data[i].0 !in lost {
          cache := cache[(b, data[i].0) := data[i].1];
        }
      }
      assert data[..|data|] == data;
    }

    /** The request to core. */
    method FetchRows(b: BranchId, ids: seq<ProductId>) returns (rows: seq<(ProductId, Entry)>)
      ensures rows == Found(core, b, ids)
    {
      rows := [];
      for i := 0 to |ids|
        invariant rows == Found(core, b, ids[..i])
      {
        assert ids[..i + 1][..i] == ids[..i];
        if (b, ids[i]) in core {
          rows := rows + [(ids[i], FullEntry(core[(b, ids[i])]))];
        }
      }
      assert ids[..|ids|] == ids;
    }
  }
}
