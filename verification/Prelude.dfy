/** Option, Result and the sums over rows that every other module uses. */
module Prelude {

  type Id = nat

  /** A quantity the request validators let through: at least one. */
  type Qty = n: int | 1 <= n witness 1

  datatype Option<+T> = None | Some(value: T)

  /** The refusals of the services, named after their error codes. */
  datatype Error =
    | NotFound
    | Conflict
    | Forbidden
    | ValidationFailed
    | ComboLocked
    | LineSent
    | LineNotSent
    | BillHasPayments
    | OrderNotEmpty
    | HasPayments
    | AlreadyFinalized
    | BillNotFinalized
    | PaymentPending
    | SimulatedTender
    | SimulatorDisabled
    | ProviderUnavailable
    | TenderMismatch
    | ManagerPinRequired
    | ShiftNotOpen
    | NothingToRefund
    | ComboRefundWhole
    | OverRefund
    | IntentActive
    | AmountExceedsRemaining
    | AlreadySucceeded
    | UniqueViolation
    | SessionClosed
    | ShareAlreadyPaid
    | PartialPaymentExists
    | BillChanged
    | InvalidTransition
    | ItemUnavailable
    | ComboSelectionInvalid
    | ModifierSelectionInvalid
    | NoPrice
    | EmptyCart
    | LockedOut

  datatype Result<+T> = Ok(value: T) | Err(error: Error) {
    predicate IsFailure() {
      Err?
    }

    function PropagateFailure<U>(): Result<U>
      requires Err?
    {
      Err(error)
    }

    function Extract(): T
      requires Ok?
    {
      value
    }
  }

  /** The sum of f over the rows of s. */
  function SumBy<T>(s: seq<T>, f: T -> int): int {
    if |s| == 0 then 0 else SumBy(s[..|s| - 1], f) + f(s[|s| - 1])
  }

  lemma {:induction false} SumBySnoc<T>(s: seq<T>, x: T, f: T -> int)
    ensures SumBy(s + [x], f) == SumBy(s, f) + f(x)
  {
    assert (s + [x])[..|s|] == s;
  }

  lemma {:induction false} SumByConcat<T>(a: seq<T>, b: seq<T>, f: T -> int)
    ensures SumBy(a + b, f) == SumBy(a, f) + SumBy(b, f)
    decreases |b|
  {
    if |b| == 0 {
      assert a + b == a;
    } else {
      var b' := b[..|b| - 1];
      SumByConcat(a, b', f);
      assert a + b == (a + b') + [b[|b| - 1]];
      SumBySnoc(a + b', b[|b| - 1], f);
    }
  }

  lemma {:induction false} SumByCons<T>(x: T, s: seq<T>, f: T -> int)
    ensures SumBy([x] + s, f) == f(x) + SumBy(s, f)
  {
    SumByConcat([x], s, f);
    assert [x][..0] == [];
    assert SumBy([x], f) == SumBy([], f) + f(x);
  }

  lemma {:induction false} SumByHead<T>(s: seq<T>, f: T -> int)
    requires |s| > 0
    ensures SumBy(s, f) == f(s[0]) + SumBy(s[1..], f)
  {
    assert s == [s[0]] + s[1..];
    SumByCons(s[0], s[1..], f);
  }

  lemma {:induction false} SumByUpdate<T>(s: seq<T>, i: nat, x: T, f: T -> int)
    requires i < |s|
    ensures SumBy(s[i := x], f) == SumBy(s, f) - f(s[i]) + f(x)
  {
    var a, b := s[..i], s[i + 1..];
    assert s == a + ([s[i]] + b);
    assert s[i := x] == a + ([x] + b);
    SumByConcat(a, [s[i]] + b, f);
    SumByConcat(a, [x] + b, f);
    SumByCons(s[i], b, f);
    SumByCons(x, b, f);
  }

  lemma {:induction false} SumByMono<T>(s: seq<T>, f: T -> int, g: T -> int)
    requires forall x :: x in s ==> f(x) <= g(x)
    ensures SumBy(s, f) <= SumBy(s, g)
  {
    if |s| > 0 {
      assert s[|s| - 1] in s;
      SumByMono(s[..|s| - 1], f, g);
    }
  }

  lemma {:induction false} SumByEqual<T>(s: seq<T>, f: T -> int, g: T -> int)
    requires forall x :: x in s ==> f(x) == g(x)
    ensures SumBy(s, f) == SumBy(s, g)
  {
    SumByMono(s, f, g);
    SumByMono(s, g, f);
  }

  lemma {:induction false} SumByNonNegative<T>(s: seq<T>, f: T -> int)
    requires forall x :: x in s ==> 0 <= f(x)
    ensures 0 <= SumBy(s, f)
  {
    if |s| > 0 {
      assert s[|s| - 1] in s;
      SumByNonNegative(s[..|s| - 1], f);
    }
  }

  /** A row never weighs more than the whole. */
  lemma {:induction false} SumByMember<T>(s: seq<T>, f: T -> int, x: T)
    requires forall y :: y in s ==> 0 <= f(y)
    requires x in s
    ensures f(x) <= SumBy(s, f)
  {
    var i :| 0 <= i < |s| && s[i] == x;
    SumByConcat(s[..i], s[i..], f);
    assert s == s[..i] + s[i..];
    SumByHead(s[i..], f);
    SumByNonNegative(s[..i], f);
    SumByNonNegative(s[i..][1..], f);
  }

  /** The rows of s that satisfy p, in order. */
  function Filter<T>(s: seq<T>, p: T -> bool): seq<T> {
    if |s| == 0 then [] else
      var rest := Filter(s[..|s| - 1], p);
      if p(s[|s| - 1]) then rest + [s[|s| - 1]] else rest
  }

  lemma {:induction false} FilterMember<T>(s: seq<T>, p: T -> bool, x: T)
    ensures x in Filter(s, p) <==> x in s && p(x)
  {
    if |s| > 0 {
      FilterMember(s[..|s| - 1], p, x);
      assert s == s[..|s| - 1] + [s[|s| - 1]];
    }
  }

  lemma {:induction false} FilterSnoc<T>(s: seq<T>, x: T, p: T -> bool)
    ensures Filter(s + [x], p) == if p(x) then Filter(s, p) + [x] else Filter(s, p)
  {
    assert (s + [x])[..|s|] == s;
  }

  lemma {:induction false} FilterAll<T>(s: seq<T>, p: T -> bool)
    requires forall x :: x in s ==> p(x)
    ensures Filter(s, p) == s
  {
    if |s| > 0 {
      assert s == s[..|s| - 1] + [s[|s| - 1]];
      assert s[|s| - 1] in s;
      FilterAll(s[..|s| - 1], p);
    }
  }

  /** A filtered sum is the whole sum of the function that is nothing on the rows left out. */
  lemma {:induction false} SumByFilter<T>(s: seq<T>, p: T -> bool, f: T -> int, g: T -> int)
    requires forall x :: x in s ==> g(x) == if p(x) then f(x) else 0
    ensures SumBy(Filter(s, p), f) == SumBy(s, g)
  {
    if |s| > 0 {
      var front, last := s[..|s| - 1], s[|s| - 1];
      assert last in s;
      SumByFilter(front, p, f, g);
      SumBySnoc(Filter(front, p), last, f);
    }
  }

  lemma {:induction false} SumByAdd<T>(s: seq<T>, f: T -> int, g: T -> int, h: T -> int)
    requires forall x :: x in s ==> h(x) == f(x) + g(x)
    ensures SumBy(s, h) == SumBy(s, f) + SumBy(s, g)
  {
    if |s| > 0 {
      assert s[|s| - 1] in s;
      SumByAdd(s[..|s| - 1], f, g, h);
    }
  }

  function Max(a: int, b: int): int {
    if a < b then b else a
  }
}
