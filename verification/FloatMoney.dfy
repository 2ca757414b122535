/**
 * The source keeps money in IEEE 754 doubles between parsing a decimal text and writing one.
 * A double operation is modelled by a rounding `fl` applied to the exact real result (section
 * 4.3.1 of IEEE 754-2019): any function whose relative error is at most 2^-53. `toFixed(2)` is
 * section 21.1.3.3 of ECMA-262: the integer n for which n / 100 is closest to the double, the
 * larger one on a tie.
 */
module FloatMoney {
  import opened Wrappers
  import opened Money
  import opened Domain
  import Dcw

  /** 2^-53 */
  const EPSILON: real := 1.0 / 9007199254740992.0

  /** 2^51 cents, which is 22 517 998 136 852.48 euros. */
  const LIMIT: int := 2_251_799_813_685_248

  function Abs(x: real): real {
    if x < 0.0 then -x else x
  }

  /** `rounded` is an admissible result of an operation whose exact result is `x`. */
  predicate Rounds(rounded: real, x: real) {
    Abs(rounded - x) <= Abs(x) * EPSILON
  }

  ghost predicate IsRounding(fl: real -> real) {
    forall x: real {:trigger Rounds(fl(x), x)} :: Rounds(fl(x), x)
  }

  function Euros(cents: int): real {
    cents as real / 100.0
  }

  function ToFixed2(x: real): int {
    if x < 0.0 then -(-x * 100.0 + 0.5).Floor else (x * 100.0 + 0.5).Floor
  }

  /** `(parseFloat(a) + parseFloat(b)).toFixed(2)` */
  function Add(fl: real -> real, a: int, b: int): int {
    ToFixed2(fl(fl(Euros(a)) + fl(Euros(b))))
  }

  /** `(parseFloat(a) - parseFloat(b)).toFixed(2)` */
  function Subtract(fl: real -> real, a: int, b: int): int {
    ToFixed2(fl(fl(Euros(a)) - fl(Euros(b))))
  }

  /** `parseFloat(a) > parseFloat(b)` */
  predicate Exceeds(fl: real -> real, a: int, b: int) {
    fl(Euros(a)) > fl(Euros(b))
  }

  /** A parsed amount is off by at most EPSILON of what was written. */
  lemma ParseError(parsed: real, cents: nat)
    requires Rounds(parsed, Euros(cents))
    ensures Abs(parsed - Euros(cents)) <= Euros(cents) * EPSILON
    ensures 0.0 <= parsed
  {
    assert Euros(cents) * EPSILON <= Euros(cents);
  }

  /** Rounding a double within 0.005 of a number of cents to two places gives those cents. */
  lemma ToFixed2Near(x: real, cents: int)
    requires 0 <= cents
    requires Abs(x - Euros(cents)) < 0.005
    ensures ToFixed2(x) == cents
  {
    if x < 0.0 {
      assert cents == 0;
    }
  }

  /** An operation whose operands are off by little enough, rounded once more, still writes the exact cents. */
  lemma OperationExact(rounded: real, operand: real, cents: nat, error: real)
    requires Rounds(rounded, operand) && Abs(operand - Euros(cents)) <= error
    requires error + (Euros(cents) + error) * EPSILON < 0.005
    ensures ToFixed2(rounded) == cents
  {
    assert Abs(operand) <= Euros(cents) + error;
    assert Abs(operand) * EPSILON <= (Euros(cents) + error) * EPSILON;
    ToFixed2Near(rounded, cents);
  }

  lemma AddExact(fl: real -> real, a: nat, b: nat)
    requires IsRounding(fl) && a + b < LIMIT
    ensures Add(fl, a, b) == a + b
  {
    var x, y := fl(Euros(a)), fl(Euros(b));
    assert Rounds(x, Euros(a)) && Rounds(y, Euros(b)) && Rounds(fl(x + y), x + y);
    ParseError(x, a);
    ParseError(y, b);
    var sum := Euros(a + b);
    assert sum == Euros(a) + Euros(b) && sum <= Euros(LIMIT - 1);
    OperationExact(fl(x + y), x + y, a + b, sum * EPSILON);
  }

  lemma SubtractExact(fl: real -> real, a: nat, b: nat)
    requires IsRounding(fl) && b <= a < LIMIT
    ensures Subtract(fl, a, b) == a - b
  {
    var x, y := fl(Euros(a)), fl(Euros(b));
    assert Rounds(x, Euros(a)) && Rounds(y, Euros(b)) && Rounds(fl(x - y), x - y);
    ParseError(x, a);
    ParseError(y, b);
    var error := (Euros(a) + Euros(b)) * EPSILON;
    assert Euros(a - b) == Euros(a) - Euros(b) && Euros(b) <= Euros(a) <= Euros(LIMIT - 1);
    OperationExact(fl(x - y), x - y, a - b, error);
  }

  lemma ExceedsExact(fl: real -> real, a: nat, b: nat)
    requires IsRounding(fl) && a < LIMIT && b < LIMIT
    ensures Exceeds(fl, a, b) <==> a > b
  {
    var x, y := fl(Euros(a)), fl(Euros(b));
    assert Rounds(x, Euros(a)) && Rounds(y, Euros(b));
    ParseError(x, a);
    ParseError(y, b);
    assert Euros(a) <= Euros(LIMIT - 1) && Euros(b) <= Euros(LIMIT - 1);
    if a > b { assert Euros(a) >= Euros(b) + 0.01; }
    if a < b { assert Euros(b) >= Euros(a) + 0.01; }
  }

  /** The rounding that always errs upwards, as far as it may. */
  function Upwards(x: real): real {
    x + x * EPSILON
  }

  lemma UpwardsIsRounding()
    ensures IsRounding(Upwards)
  {
    forall x: real ensures Rounds(Upwards(x), x) {
      if x < 0.0 { assert x * EPSILON < 0.0; } else { assert x * EPSILON >= 0.0; }
    }
  }

  lemma UpwardsAddsTooMuch(a: nat, b: nat)
    requires a + b >= LIMIT
    ensures Add(Upwards, a, b) > a + b
  {
    var sum := Euros(a + b);
    assert sum == Euros(a) + Euros(b) && sum >= Euros(LIMIT);
    var twice := Upwards(Upwards(Euros(a)) + Upwards(Euros(b)));
    assert twice == sum + 2.0 * (sum * EPSILON) + (sum * EPSILON) * EPSILON;
    assert sum * EPSILON >= 0.0025 && (sum * EPSILON) * EPSILON >= 0.0;
    assert twice >= sum + 0.005;
    assert twice * 100.0 + 0.5 >= (a + b) as real + 1.0;
  }

  /** A sum of two amounts is the exact cents whatever the rounding if and only if it is below 2^51 cents. */
  lemma AddExactly(a: nat, b: nat)
    ensures (forall fl: real -> real :: IsRounding(fl) ==> Add(fl, a, b) == a + b) <==> a + b < LIMIT
  {
    if a + b < LIMIT {
      forall fl: real -> real | IsRounding(fl) ensures Add(fl, a, b) == a + b { AddExact(fl, a, b); }
    } else {
      UpwardsIsRounding();
      UpwardsAddsTooMuch(a, b);
    }
  }

  /** The wallet operations as the source computes them, on doubles. */
  datatype Operation = Credit | Debit | Lock | Release | SettleLocked

  function Exact(op: Operation, w: Wallet, amount: string): Result<Wallet, DcwError> {
    match op
    case Credit => Dcw.WithCredit(w, amount)
    case Debit => Dcw.WithDebit(w, amount)
    case Lock => Dcw.WithLock(w, amount)
    case Release => Dcw.WithRelease(w, amount)
    case SettleLocked => Dcw.WithSettleLocked(w, amount)
  }

  function OnDoubles(fl: real -> real, op: Operation, w: Wallet, a: nat): Result<Wallet, DcwError> {
    match op
    case Credit => Success(w.(balance := Add(fl, w.balance, a)))
    case Debit =>
      if Exceeds(fl, a, w.balance) then Failure(InsufficientAvailable)
      else Success(w.(balance := Subtract(fl, w.balance, a)))
    case Lock =>
      if Exceeds(fl, a, w.balance) then Failure(InsufficientAvailable)
      else Success(w.(balance := Subtract(fl, w.balance, a), lockedBalance := Add(fl, w.lockedBalance, a)))
    case Release =>
      if Exceeds(fl, a, w.lockedBalance) then Failure(InsufficientLocked)
      else Success(w.(lockedBalance := Subtract(fl, w.lockedBalance, a), balance := Add(fl, w.balance, a)))
    case SettleLocked =>
      if Exceeds(fl, a, w.lockedBalance) then Failure(InsufficientLocked)
      else Success(w.(lockedBalance := Subtract(fl, w.lockedBalance, a)))
  }

  /** What the wallet would hold in all, available or locked, with the amount added stays below `limit` cents. */
  predicate Within(w: Wallet, amount: string, limit: int) {
    && w.balance >= 0 && w.lockedBalance >= 0 && ParseAmount(amount).Cents?
    && w.balance + ParseAmount(amount).n < limit && w.lockedBalance + ParseAmount(amount).n < limit
  }

  /**
   * Below 2^51 cents the doubles give the cents: every operation accepts, refuses and computes exactly
   * what integer arithmetic on cents does, whatever the rounding.
   */
  lemma DoublesAreExact(fl: real -> real, op: Operation, w: Wallet, amount: string)
    requires IsRounding(fl) && Within(w, amount, LIMIT)
    ensures OnDoubles(fl, op, w, ParseAmount(amount).n) == Exact(op, w, amount)
  {
    hide ParseAmount, Add, Subtract, Exceeds, IsRounding;
    var a := ParseAmount(amount).n;
    ExceedsExact(fl, a, w.balance);
    ExceedsExact(fl, a, w.lockedBalance);
    AddExact(fl, w.balance, a);
    AddExact(fl, w.lockedBalance, a);
    if a <= w.balance { SubtractExact(fl, w.balance, a); }
    if a <= w.lockedBalance { SubtractExact(fl, w.lockedBalance, a); }
  }

  /** Every operation is exact for every rounding, wallet and amount that stay below `limit`. */
  ghost predicate AllExactBelow(limit: int) {
    forall fl: real -> real, op, w, amount :: IsRounding(fl) && Within(w, amount, limit) ==>
      OnDoubles(fl, op, w, ParseAmount(amount).n) == Exact(op, w, amount)
  }

  const EMPTY_WALLET := Wallet("W", "BANK", "BANK", "NCB", 0, 0, "EUR", false, false, None, None, [], [], 0)

  /** No more and no less: the five operations are exact below a limit if and only if it is at most 2^51 cents. */
  lemma ExactBelowExactly(limit: int)
    ensures AllExactBelow(limit) <==> limit <= LIMIT
  {
    hide ParseAmount, OnDoubles, Exact, Render;
    if limit <= LIMIT {
      forall fl: real -> real, op, w, amount | IsRounding(fl) && Within(w, amount, limit)
        ensures OnDoubles(fl, op, w, ParseAmount(amount).n) == Exact(op, w, amount)
      {
        DoublesAreExact(fl, op, w, amount);
      }
    } else {
      UpwardsIsRounding();
      RenderThenParse(LIMIT);
      assert Within(EMPTY_WALLET, Render(LIMIT), limit);
      CreditTooMuch();
    }
  }

  lemma CreditTooMuch()
    ensures OnDoubles(Upwards, Credit, EMPTY_WALLET, LIMIT) != Exact(Credit, EMPTY_WALLET, Render(LIMIT))
  {
    hide ParseAmount, Render, ToFixed2;
    RenderThenParse(LIMIT);
    UpwardsAddsTooMuch(0, LIMIT);
  }

  /** Doubles between 2^49 and 2^50 are the multiples of 1/8. */
  function NearestEighth(x: real): real {
    (x * 8.0 + 0.5).Floor as real / 8.0
  }

  /**
   * Fifteen integer digits pass validation, yet crediting 999999999999999.99 to an empty wallet is not
   * exact under a rounding that takes that amount to the nearest double.
   */
  lemma FifteenDigitsAreNotExact()
    ensures exists fl: real -> real ::
      && IsRounding(fl)
      && OnDoubles(fl, Credit, EMPTY_WALLET, 99999999999999999)
         != Exact(Credit, EMPTY_WALLET, Render(99999999999999999))
  {
    hide ParseAmount, Render;
    var x := Euros(99999999999999999);
    assert x * 8.0 + 0.5 == 8000000000000000.42;
    assert NearestEighth(x) == 1000000000000000.0;
    var fl := (y: real) => if y == x then NearestEighth(x) else y;
    assert IsRounding(fl);
    assert fl(Euros(0)) == 0.0;
    assert ToFixed2(1000000000000000.0) == 100000000000000000;
    assert Add(fl, 0, 99999999999999999) == 100000000000000000;
    RenderThenParse(99999999999999999);
  }
}
