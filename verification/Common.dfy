/** Shared vocabulary: optional values, fallible results, and the few facts about
    sets, filters and sums that several components need. */
module Common {
  datatype Option<+T> = None | Some(value: T)

  datatype Result<+T, +E> = Ok(value: T) | Err(error: E)

  /** Largest value of a PostgreSQL `INT` column. */
  const MAX_INT32 := 0x7FFF_FFFF

  predicate FitsInt(n: int) {
    -MAX_INT32 - 1 <= n <= MAX_INT32
  }

  /** Event types written to the outbox of this service. */
  datatype EventType =
    | ORDER_PLACED | ORDER_ACCEPTED | ORDER_REJECTED | ORDER_DELIVERED | ORDER_CANCELLED
    | PAYMENT_COMPLETED | PAYMENT_FAILED

  /** How a transaction ends that reaches its COMMIT: a caller without a reply takes it for failed. */
  datatype Ending = Commits | RollsBack | CommitsWithoutReply

  function Min(a: nat, b: nat): nat {
    if a <= b then a else b
  }

  /** A product kept out of the solver's sight. */
  function Times(a: int, b: int): int {
    a * b
  }

  lemma TimesAdds(a: int, b: int, c: int)
    ensures Times(a, b + c) == Times(a, b) + Times(a, c)
  {
  }

  lemma TimesNext(a: int, b: int)
    ensures Times(0, b) == 0 && Times(a + 1, b) == Times(a, b) + b
  {
  }

  function Take<T>(s: seq<T>, n: nat): seq<T> {
    s[..Min(n, |s|)]
  }

  lemma CardinalityMonotone<T>(a: set<T>, b: set<T>)
    requires a <= b
    ensures |a| <= |b|
  {
    assert b == a + (b - a);
  }

  /** The members of `s` at which `p` holds, in order. */
  function Filter<T(!new)>(s: seq<T>, p: T -> bool): (r: seq<T>)
    ensures |r| <= |s|
    ensures forall x :: x in r <==> x in s && p(x)
  {
    if s == [] then []
    else if p(s[0]) then [s[0]] + Filter(s[1..], p)
    else Filter(s[1..], p)
  }

  lemma {:induction false} FilterAppend<T(!new)>(s: seq<T>, x: T, p: T -> bool)
    ensures Filter(s + [x], p) == Filter(s, p) + if p(x) then [x] else []
  {
    if s == [] {
      assert s + [x] == [x];
      assert Filter([x][1..], p) == [];
    } else {
      assert (s + [x])[0] == s[0];
      assert (s + [x])[1..] == s[1..] + [x];
      FilterAppend(s[1..], x, p);
    }
  }

  ghost predicate Distinct<T>(s: seq<T>) {
    forall i, j :: 0 <= i < j < |s| ==> s[i] != s[j]
  }

  function SetOf<T>(s: seq<T>): set<T> {
    set x | x in s
  }

  lemma {:induction false} ElementsFit<T>(s: seq<T>)
    ensures |SetOf(s)| <= |s|
    ensures Distinct(s) <==> |SetOf(s)| == |s|
  {
    if s != [] {
      var n := |s| - 1;
      ElementsFit(s[..n]);
      assert s == s[..n] + [s[n]];
      assert SetOf(s) == SetOf(s[..n]) + {s[n]};
      assert s[n] in s[..n] ==> SetOf(s) == SetOf(s[..n]);
      assert forall i :: 0 <= i < n ==> s[i] in s[..n];
    }
  }
}
