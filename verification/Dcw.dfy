/** The dedicated cash wallet: pure operations, each giving the next wallet or the error thrown. */
module Dcw {
  import opened Wrappers
  import opened Money
  import opened Domain

  function OrElse(text: string, default: string): string {
    if text == "" then default else text
  }

  function CreateDcw(alias: string, opts: WalletOptions, now: int): Wallet {
    var owner := OrElse(opts.ownerEntityID, OrElse(opts.ownerBIC, "UNKNOWN"));
    Wallet(
      alias, OrElse(opts.ownerBIC, owner), owner, OrElse(opts.managerNCB, "UNKNOWN"),
      opts.availableBalance, opts.lockedBalance, OrElse(opts.currency, "EUR"), opts.isMainWallet, false,
      if opts.validFrom.None? then Some(now) else opts.validFrom, opts.validTo, [], [], now)
  }

  /** The reason a caller may not debit the wallet, if there is one. */
  function DebitDenial(w: Wallet, caller: Caller, now: int): Option<Denial> {
    if w.isBlocked then Some(WalletBlocked)
    else if w.validFrom.Some? && w.validFrom.value > now then Some(WalletNotYetValid)
    else if w.validTo.Some? && w.validTo.value < now then Some(WalletExpired)
    else if caller.entityBIC != "" && caller.entityBIC == w.ownerEntityID then None
    else if caller.entityBIC != "" && caller.entityBIC in w.poaGrantees then None
    else if caller.marketDLTOperator != "" && caller.marketDLTOperator in w.whitelistedOperators then None
    else Some(NotAuthorisedToDebit)
  }

  function PositiveAmount(amount: string): Result<nat, DcwError> {
    match ParseAmount(amount)
    case Cents(n) => Success(n)
    case Negative => Failure(NegativeAmount)
    case Invalid => Failure(InvalidAmount)
  }

  function WithCredit(w: Wallet, amount: string): Result<Wallet, DcwError> {
    match PositiveAmount(amount)
    case Failure(e) => Failure(e)
    case Success(a) => Success(w.(balance := w.balance + a))
  }

  function WithDebit(w: Wallet, amount: string): Result<Wallet, DcwError> {
    match PositiveAmount(amount)
    case Failure(e) => Failure(e)
    case Success(a) =>
      if a > w.balance then Failure(InsufficientAvailable) else Success(w.(balance := w.balance - a))
  }

  function WithLock(w: Wallet, amount: string): Result<Wallet, DcwError> {
    match PositiveAmount(amount)
    case Failure(e) => Failure(e)
    case Success(a) =>
      if a > w.balance then Failure(InsufficientAvailable)
      else Success(w.(balance := w.balance - a, lockedBalance := w.lockedBalance + a))
  }

  function WithRelease(w: Wallet, amount: string): Result<Wallet, DcwError> {
    match PositiveAmount(amount)
    case Failure(e) => Failure(e)
    case Success(a) =>
      if a > w.lockedBalance then Failure(InsufficientLocked)
      else Success(w.(lockedBalance := w.lockedBalance - a, balance := w.balance + a))
  }

  function WithSettleLocked(w: Wallet, amount: string): Result<Wallet, DcwError> {
    match PositiveAmount(amount)
    case Failure(e) => Failure(e)
    case Success(a) =>
      if a > w.lockedBalance then Failure(InsufficientLocked)
      else Success(w.(lockedBalance := w.lockedBalance - a))
  }

  // ----- what one operation undoes of another -----

  /** Locking reserves, so releasing the same amount gives the wallet back and settling it is a debit. */
  lemma LockIsUndoneOrSpent(w: Wallet, amount: string)
    requires WithLock(w, amount).Success? && w.lockedBalance >= 0
    ensures var locked := WithLock(w, amount).value;
      && locked.balance + locked.lockedBalance == w.balance + w.lockedBalance
      && WithRelease(locked, amount) == Success(w)
      && WithSettleLocked(locked, amount) == WithDebit(w, amount)
  {
    var a := PositiveAmount(amount).value;
    var locked := WithLock(w, amount).value;
    assert locked.(lockedBalance := locked.lockedBalance - a, balance := locked.balance + a) == w;
  }

  /** A wallet can be debited of exactly what can be locked, and crediting it back restores it. */
  lemma DebitIsUndoneByCredit(w: Wallet, amount: string)
    ensures WithDebit(w, amount).Success? <==> WithLock(w, amount).Success?
    ensures WithDebit(w, amount).Success? ==> WithCredit(WithDebit(w, amount).value, amount) == Success(w)
  {
    if WithDebit(w, amount).Success? {
      var a := PositiveAmount(amount).value;
      assert WithDebit(w, amount).value.(balance := w.balance - a + a) == w;
    }
  }
}
