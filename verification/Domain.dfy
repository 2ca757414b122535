/**
 * The entities of the shared store. An absent optional text is the empty string: every test the
 * source makes on one (`!x`, `x && …`, `x || …`) treats the two alike. Instants are epoch
 * milliseconds, balances are cents, and the fields a draft only passes through are one text.
 */
module Domain {
  import opened Wrappers
  import opened OrderedMaps

  datatype Wallet = Wallet(
    alias: string,
    ownerBIC: string,
    ownerEntityID: string,
    managerNCB: string,
    balance: int,
    lockedBalance: int,
    currency: string,
    isMainWallet: bool,
    isBlocked: bool,
    validFrom: Option<int>,
    validTo: Option<int>,
    poaGrantees: seq<string>,
    whitelistedOperators: seq<string>,
    createdAt: int)

  /** Who attempts an operation; the empty text when unknown. */
  datatype Caller = Caller(entityBIC: string, marketDLTOperator: string)

  const Anonymous := Caller("", "")

  datatype WalletOptions = WalletOptions(
    ownerEntityID: string,
    ownerBIC: string,
    managerNCB: string,
    currency: string,
    isMainWallet: bool,
    availableBalance: int,
    lockedBalance: int,
    validFrom: Option<int>,
    validTo: Option<int>)

  datatype Denial = WalletBlocked | WalletNotYetValid | WalletExpired | NotAuthorisedToDebit | NoSuchWallet

  datatype DcwError =
    | WalletNotFound
    | DebitDenied(reason: Denial)
    | InsufficientAvailable
    | InsufficientLocked
    | NegativeAmount
    | InvalidAmount

  /** A `WorkflowRejection`: HTTP status and business error code. */
  datatype Rejection = Rejection(statusCode: int, errorCode: string)

  datatype DraftType = FUNDING | DEFUNDING | TRANSFER | DIRECT_RTGS | PFOD | XVP

  datatype Status =
    | INITIALIZED | PENDING_APPROVAL | PENDING_MATCH | ACCEPTED | CANCELED | SETTLED | EXPIRED | FAILED

  datatype Stamp = Stamp(calendarDate: int, businessDate: string)

  /** What an XvP draft keeps as JSON: everything fixed at init, and the attempted flag. */
  datatype XvpTerms = XvpTerms(
    transactionType: string,
    executionHash: string,
    cancellationHash: string,
    executionKey: string,
    cancellationKey: string,
    paymentId: string,
    sellerBic: string,
    buyerBic: string,
    seller: string,
    buyer: string)

  datatype Supplement = NoData | Text(text: string) | Xvp(terms: XvpTerms, paymentAttempted: bool)

  datatype Draft = Draft(
    id: string,
    kind: DraftType,
    status: Status,
    amount: string,
    currency: string,
    creditedWalletAlias: string,
    debitedWalletAlias: string,
    createdAt: int,
    updatedAt: int,
    initiatorUserUUID: string,
    approverUserUUID: string,
    approverUserName: string,
    expiresAt: Option<int>,
    supplementaryData: Supplement,
    debitedCashWalletManagerID: string,
    creditedCashWalletManagerID: string,
    cbdcRequestType: string,
    historicStatus: Option<seq<Status>>,
    timestamps: map<Status, Stamp>,
    passThrough: string)

  /** A `Partial<Draft>` holding the fields the workflows ever update. */
  datatype DraftUpdate = DraftUpdate(
    status: Option<Status>,
    debitedWalletAlias: Option<string>,
    approver: Option<(string, string)>,
    supplementaryData: Option<Supplement>,
    trail: Option<(seq<Status>, map<Status, Stamp>)>)

  const NoUpdate := DraftUpdate(None, None, None, None, None)

  datatype Transaction = Transaction(
    id: string,
    kind: DraftType,
    amount: string,
    currency: string,
    creditedWalletAlias: string,
    debitedWalletAlias: string,
    createdAt: int,
    settledAt: int,
    supplementaryData: Supplement,
    passThrough: string)

  datatype BusinessDay = BusinessDay(
    businessDate: string,
    sodStart: string,
    ofaStart: string,
    ofaEnd: string,
    eodEnd: string)

}
