/** The ledger shared by payments, settlement and payouts: transaction rows with a unique idempotency key. */
module Ledger {
  import opened Common

  type OrderId = nat

  datatype Kind = CHARGE | REFUND | COMMISSION | PAYOUT | COD_COLLECTION | ADJUSTMENT

  datatype TxStatus = PENDING_TX | SUCCEEDED | FAILED | REVERSED

  /** Idempotency keys by the prefix that builds them. Payout keys come from clients and may be of any form. A NULL
      key conflicts with no other, so `Absent` numbers them apart. */
  datatype Key =
    | CodCollect(order: OrderId)
    | CommissionOf(order: OrderId)
    | ServiceFeeOf(order: OrderId)
    | DeliveryFeeOf(order: OrderId)
    | Kashier(reference: string)
    | Custom(text: string)
    | Absent(row: nat)

  datatype Tx = Tx(
    order: Option<OrderId>,
    kind: Kind,
    status: TxStatus,
    amount: int,
    currency: string,
    src: Option<int>,
    dst: Option<int>,
    providerReference: Option<string>,
    key: Key)

  predicate KeyTaken(txs: seq<Tx>, k: Key) {
    exists i :: 0 <= i < |txs| && txs[i].key == k
  }

  ghost predicate KeysDistinct(txs: seq<Tx>) {
    forall i, j :: 0 <= i < j < |txs| ==> txs[i].key != txs[j].key
  }

  /** INSERT ... ON CONFLICT (idempotency_key) DO NOTHING RETURNING: a conflict yields no row, on which the caller
      throws, and an amount that does not fit the column is refused by the database. */
  function CreateTransaction(txs: seq<Tx>, t: Tx): Option<seq<Tx>> {
    if KeyTaken(txs, t.key) || !FitsInt(t.amount) then None else Some(txs + [t])
  }

  /** The first row of an order and kind. */
  function FindByOrderAndKind(txs: seq<Tx>, order: OrderId, kind: Kind): (i: Option<nat>)
    ensures i.Some? ==> i.value < |txs| && txs[i.value].order == Some(order) && txs[i.value].kind == kind
    ensures i.Some? ==> forall j :: 0 <= j < i.value ==> !(txs[j].order == Some(order) && txs[j].kind == kind)
    ensures i.None? <==> forall j :: 0 <= j < |txs| ==> !(txs[j].order == Some(order) && txs[j].kind == kind)
  {
    if txs == [] then None
    else if txs[0].order == Some(order) && txs[0].kind == kind then Some(0)
    else
      var rest := FindByOrderAndKind(txs[1..], order, kind);
      assert forall j :: 1 <= j < |txs| ==> txs[j] == txs[1..][j - 1];
      if rest.Some? then Some(rest.value + 1) else None
  }

  predicate HasKind(txs: seq<Tx>, order: OrderId, kind: Kind) {
    FindByOrderAndKind(txs, order, kind).Some?
  }

  predicate IsSettlementKind(kind: Kind) {
    kind in {COD_COLLECTION, COMMISSION, ADJUSTMENT}
  }

  /** The settlement rows of one order, oldest first. */
  function RowsOf(txs: seq<Tx>, order: OrderId): seq<Tx> {
    if txs == [] then []
    else
      var t := txs[|txs| - 1];
      RowsOf(txs[..|txs| - 1], order) + if t.order == Some(order) && IsSettlementKind(t.kind) then [t] else []
  }

  lemma {:induction false} RowsOfMembers(txs: seq<Tx>, order: OrderId, t: Tx)
    ensures t in RowsOf(txs, order) <==> t in txs && t.order == Some(order) && IsSettlementKind(t.kind)
  {
    if txs != [] {
      var n := |txs| - 1;
      RowsOfMembers(txs[..n], order, t);
      assert txs == txs[..n] + [txs[n]];
    }
  }

  /** Some row is of a kind. */
  predicate Lists(rows: seq<Tx>, kind: Kind) {
    exists i :: 0 <= i < |rows| && rows[i].kind == kind
  }

  lemma ListsConcat(a: seq<Tx>, b: seq<Tx>, kind: Kind)
    ensures Lists(a + b, kind) <==> Lists(a, kind) || Lists(b, kind)
  {
    if i :| 0 <= i < |a| && a[i].kind == kind {
      assert (a + b)[i] == a[i];
    }
    if i :| 0 <= i < |b| && b[i].kind == kind {
      assert (a + b)[|a| + i] == b[i];
    }
  }

  lemma HasKindMeans(txs: seq<Tx>, order: OrderId, kind: Kind)
    requires IsSettlementKind(kind)
    ensures HasKind(txs, order, kind) <==> Lists(RowsOf(txs, order), kind)
  {
    var i := FindByOrderAndKind(txs, order, kind);
    if i.Some? {
      assert txs[i.value] in txs;
      RowsOfMembers(txs, order, txs[i.value]);
      assert txs[i.value] in RowsOf(txs, order);
    } else {
      var rows := RowsOf(txs, order);
      forall j | 0 <= j < |rows| ensures rows[j].kind != kind {
        assert rows[j] in rows;
        RowsOfMembers(txs, order, rows[j]);
      }
    }
  }

  lemma {:induction false} RowsOfConcat(a: seq<Tx>, b: seq<Tx>, order: OrderId)
    ensures RowsOf(a + b, order) == RowsOf(a, order) + RowsOf(b, order)
  {
    if b == [] {
      assert a + b == a;
    } else {
      assert (a + b)[..|a + b| - 1] == a + b[..|b| - 1];
      RowsOfConcat(a, b[..|b| - 1], order);
    }
  }

  /** The payout rows, oldest first. */
  function PayoutsOf(txs: seq<Tx>): seq<Tx> {
    if txs == [] then []
    else PayoutsOf(txs[..|txs| - 1]) + if txs[|txs| - 1].kind == PAYOUT then [txs[|txs| - 1]] else []
  }

  lemma {:induction false} PayoutsOfConcat(a: seq<Tx>, b: seq<Tx>)
    ensures PayoutsOf(a + b) == PayoutsOf(a) + PayoutsOf(b)
  {
    if b == [] {
      assert a + b == a;
    } else {
      assert (a + b)[..|a + b| - 1] == a + b[..|b| - 1];
      PayoutsOfConcat(a, b[..|b| - 1]);
    }
  }

  /** What an account gains over a list of rows. */
  function Gain(txs: seq<Tx>, account: int): int {
    if txs == [] then 0
    else
      var t := txs[|txs| - 1];
      Gain(txs[..|txs| - 1], account)
      + (if t.status == SUCCEEDED && t.dst == Some(account) then t.amount else 0)
      - (if t.status == SUCCEEDED && t.src == Some(account) then t.amount else 0)
  }

  lemma GainOne(t: Tx, account: int)
    ensures Gain([t], account) == (if t.status == SUCCEEDED && t.dst == Some(account) then t.amount else 0)
                                  - (if t.status == SUCCEEDED && t.src == Some(account) then t.amount else 0)
  {
    assert Gain([t][..0], account) == 0;
  }

  lemma {:induction false} GainConcat(a: seq<Tx>, b: seq<Tx>, account: int)
    ensures Gain(a + b, account) == Gain(a, account) + Gain(b, account)
  {
    if b == [] {
      assert a + b == a;
    } else {
      assert (a + b)[..|a + b| - 1] == a + b[..|b| - 1];
      GainConcat(a, b[..|b| - 1], account);
    }
  }

  lemma CreateKeepsKeysDistinct(txs: seq<Tx>, t: Tx)
    requires KeysDistinct(txs) && CreateTransaction(txs, t).Some?
    ensures KeysDistinct(CreateTransaction(txs, t).value)
  {
    forall i | 0 <= i < |txs| ensures txs[i].key != t.key {
    }
  }

  /** All rows of a list are inserted, or none. */
  function CreateAll(txs: seq<Tx>, rows: seq<Tx>): Option<seq<Tx>>
    decreases |rows|
  {
    if rows == [] then Some(txs)
    else
      var first := CreateTransaction(txs, rows[0]);
      if first.None? then None else CreateAll(first.value, rows[1..])
  }

  lemma {:induction false} CreateAllAppends(txs: seq<Tx>, rows: seq<Tx>)
    ensures CreateAll(txs, rows).Some? ==> CreateAll(txs, rows).value == txs + rows
    ensures CreateAll(txs, rows).Some? && KeysDistinct(txs) ==> KeysDistinct(txs + rows)
    decreases |rows|
  {
    if rows == [] {
      assert txs + rows == txs;
    } else if CreateTransaction(txs, rows[0]).Some? {
      if KeysDistinct(txs) {
        CreateKeepsKeysDistinct(txs, rows[0]);
      }
      CreateAllAppends(txs + [rows[0]], rows[1..]);
      assert txs + [rows[0]] + rows[1..] == txs + rows;
    }
  }

  lemma {:induction false} CreateAllConcat(txs: seq<Tx>, a: seq<Tx>, b: seq<Tx>)
    ensures CreateAll(txs, a + b) == if CreateAll(txs, a).None? then None else CreateAll(CreateAll(txs, a).value, b)
    decreases |a|
  {
    if a == [] {
      assert a + b == b;
    } else {
      assert (a + b)[0] == a[0] && (a + b)[1..] == a[1..] + b;
      if CreateTransaction(txs, a[0]).Some? {
        CreateAllConcat(txs + [a[0]], a[1..], b);
      }
    }
  }

  lemma HasKindSnoc(txs: seq<Tx>, t: Tx, order: OrderId, kind: Kind)
    ensures HasKind(txs + [t], order, kind) <==> HasKind(txs, order, kind) || (t.order == Some(order) && t.kind == kind)
  {
    assert (txs + [t])[|txs|] == t;
    assert forall j :: 0 <= j < |txs| ==> (txs + [t])[j] == txs[j];
    var i := FindByOrderAndKind(txs, order, kind);
    if i.Some? {
      assert (txs + [t])[i.value] == txs[i.value];
    }
  }

  ghost predicate AllFree(txs: seq<Tx>, rows: seq<Tx>) {
    forall i :: 0 <= i < |rows| ==> !KeyTaken(txs, rows[i].key) && -MAX_INT32 - 1 <= rows[i].amount <= MAX_INT32
  }

  lemma KeyTakenSnoc(txs: seq<Tx>, t: Tx, k: Key)
    ensures KeyTaken(txs + [t], k) <==> KeyTaken(txs, k) || t.key == k
  {
    assert (txs + [t])[|txs|] == t;
    assert forall j :: 0 <= j < |txs| ==> (txs + [t])[j] == txs[j];
  }

  lemma FreeOneByOne(txs: seq<Tx>, rows: seq<Tx>)
    requires KeysDistinct(rows) && rows != []
    ensures AllFree(txs, rows) <==>
            !KeyTaken(txs, rows[0].key) && -MAX_INT32 - 1 <= rows[0].amount <= MAX_INT32 && AllFree(txs + [rows[0]], rows[1..])
  {
    var rest := rows[1..];
    assert forall i :: 0 <= i < |rest| ==> rest[i] == rows[i + 1];
    forall i | 0 <= i < |rest| ensures KeyTaken(txs + [rows[0]], rest[i].key) <==> KeyTaken(txs, rows[i + 1].key) {
      KeyTakenSnoc(txs, rows[0], rest[i].key);
    }
    assert forall i :: 1 <= i < |rows| ==> rows[i] == rest[i - 1];
    hide KeyTaken;
  }

  /** A list with pairwise distinct keys is inserted if and only if all of them are free and the amounts fit. */
  lemma {:induction false} CreateAllSucceedsIff(txs: seq<Tx>, rows: seq<Tx>)
    requires KeysDistinct(rows)
    ensures CreateAll(txs, rows).Some? <==> AllFree(txs, rows)
    decreases |rows|
  {
    if rows != [] {
      FreeOneByOne(txs, rows);
      CreateAllSucceedsIff(txs + [rows[0]], rows[1..]);
      hide KeyTaken, AllFree;
    }
  }

  /** Some key is not taken. */
  lemma {:induction false} FreshKey(txs: seq<Tx>) returns (n: nat)
    ensures forall i :: 0 <= i < |txs| && txs[i].key.Absent? ==> txs[i].key.row < n
    ensures !KeyTaken(txs, Absent(n))
  {
    n := 0;
    if txs != [] {
      var init, last := txs[..|txs| - 1], txs[|txs| - 1];
      n := FreshKey(init);
      if last.key.Absent? && last.key.row >= n {
        n := last.key.row + 1;
      }
      forall i | 0 <= i < |txs| && txs[i].key.Absent? ensures txs[i].key.row < n {
        assert i < |init| ==> txs[i] == init[i];
      }
    }
  }
}
