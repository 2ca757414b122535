/**
 * Every synchronous thing that happens to the shared store, as one action machine. Beside the
 * ledger a history remembers what the ledger itself does not: which call wrote each log entry,
 * the ids minted, the terms each XvP committed to, and the generations of PFoD legs. A history
 * starts with an empty store, so it covers the time between two resets.
 */
module Histories {
  import opened Wrappers
  import opened Texts
  import opened Domain
  import opened Ids
  import opened Ledgers
  import opened Settlements
  import opened Xvps
  import opened Pfods

  /** The call that wrote a log entry. */
  datatype Origin =
    | FromDraft(id: string)
    | FromXvp(id: string)
    | FromTrade(tradeID: string, deliver: nat, receive: nat) // the two leg generations it consumed
    | OneStep

  datatype Side = Deliver | Receive

  /** One submission of a leg, as stored: a resubmission is a new generation. */
  datatype Generation = Generation(tradeID: string, side: Side, leg: Draft)

  /** What an init published and agreed to. */
  datatype Commitment = Commitment(
    terms: XvpTerms, hash: string -> string, amount: string, currency: string, sellerWalletAlias: string)

  datatype History = History(
    ledger: Ledger,
    origins: seq<Origin>,
    minted: seq<string>,
    commitments: map<string, Commitment>,
    generations: seq<Generation>,
    current: map<string, nat>)

  datatype Action =
    | NewWallet(alias: string, opts: WalletOptions, now: int)
    | SetDay(businessDay: BusinessDay)
    | OpenDraft(wf: Workflow, clientId: string, init: WorkflowInit, actor: Actor, day: string, now: int)
    | ApproveDraft(wf: Workflow, id: string, actor: Actor, random: string, now: int)
    | CancelDraft(wf: Workflow, id: string, now: int)
    | ExecuteNow(wf: Workflow, init: WorkflowInit, actor: Actor, random: string, now: int)
    | SubmitLeg(side: Side, leg: LegRequest, now: int)
    | InitXvp(params: XvpInitParams, secrets: Secrets, hash: string -> string, now: int)
    | ObserveXvp(id: string, now: int)
    | AdmitXvp(id: string, payment: PaymentParams, now: int)
    | SettleXvp(record: XvpRecord, payment: PaymentParams, now: int)

  function Start(day: BusinessDay): History {
    History(EmptyLedger(day), [], [], map[], [], map[])
  }

  predicate IsTwoStep(wf: Workflow) {
    wf.Transfer? || wf.Funding? || wf.Defunding? || wf.DirectRtgs?
  }

  function PrefixOf(wf: Workflow): string {
    match wf
    case Funding => "FRQ"
    case Defunding => "DRQ"
    case DirectRtgs => "DRTGS"
    case _ => "TR"
  }

  /** `resolveDraftId`: a client's id is only checked for a duplicate; the id is always minted. */
  function ResolveDraftId(l: Ledger, prefix: string, clientId: string, day: string): Step<string> {
    if Trim(clientId) != "" && l.HasDraft(Trim(clientId)) then Step(l, Failure(Rejection(409, "HL-GER-004")))
    else Step(l.AdvanceSequence(prefix, day), Success(l.NextId(prefix, day)))
  }

  /** The trail the routes seed a two-step draft with, or none. */
  predicate SeededTrail(init: WorkflowInit) {
    init.historicStatus.Some? ==>
      && init.historicStatus.value == [INITIALIZED, PENDING_APPROVAL]
      && init.timestamps.Keys == {INITIALIZED, PENDING_APPROVAL}
  }

  /**
   * What the callers of the store respect: new wallets start empty, an XvP names its seller's wallet
   * and has a new id of no other shape, and it settles only while its record is still the one the
   * payment was admitted on (the lock's doing, proved in XvpRuns).
   */
  ghost predicate Legal(h: History, a: Action) {
    match a
    case NewWallet(_, opts, _) => opts.availableBalance == 0 && opts.lockedBalance == 0
    case OpenDraft(wf, _, init, _, day, _) => IsTwoStep(wf) && IsDay(day) && SeededTrail(init)
    case InitXvp(p, _, _, _) =>
      && p.sellerWalletAlias != ""
      && !h.ledger.HasDraft(p.xvpTransactionId)
      && !MintedShape(p.xvpTransactionId) && !PfodShape(p.xvpTransactionId)
    case SettleXvp(rec, _, _) =>
      && HasXvp(h.ledger, rec.id)
      && h.ledger.drafts.entries[rec.id].status == INITIALIZED
      && rec == Shape(h.ledger.drafts.entries[rec.id])
    case _ => true
  }

  function LegId(side: Side, tradeID: string): string {
    if side == Deliver then DeliverId(tradeID) else ReceiveId(tradeID)
  }

  /** The draft a submitted leg is stored as: the DELI leg names a debited wallet, the RECE leg a credited one. */
  function NewLeg(side: Side, r: LegRequest, now: int): Draft {
    if side == Deliver then Leg(DeliverId(r.tradeID), r, r.walletRef, "", now)
    else Leg(ReceiveId(r.tradeID), r, "", r.walletRef, now)
  }

  function Submit(l: Ledger, side: Side, r: LegRequest, now: int): (Ledger, Answer) {
    if side == Deliver then SubmitDeliver(l, r, now) else SubmitReceive(l, r, now)
  }

  /** A step whose log entry, if it wrote one, is put down to `origin`. */
  function Record<T>(h: History, s: Step<T>, origin: Origin): History {
    h.(ledger := s.ledger, origins := if s.result.Success? then h.origins + [origin] else h.origins)
  }

  function Open(h: History, wf: Workflow, clientId: string, init: WorkflowInit, actor: Actor, day: string,
        now: int): History
  {
    var resolved := ResolveDraftId(h.ledger, PrefixOf(wf), clientId, day);
    match resolved.result
    case Failure(_) => h.(ledger := resolved.ledger)
    case Success(id) =>
      h.(ledger := Create(resolved.ledger, wf, init.(id := id), actor, now).ledger, minted := h.minted + [id])
  }

  /** The generation standing under a leg id; PfodMatching shows that a stored leg always has one. */
  function GenerationOf(current: map<string, nat>, id: string): nat {
    if id in current then current[id] else 0
  }

  function SubmitGeneration(h: History, side: Side, r: LegRequest, now: int): History {
    var (l, answer) := Submit(h.ledger, side, r, now);
    if answer.Invalid? then h.(ledger := l)
    else
      var current := h.current[LegId(side, r.tradeID) := |h.generations|];
      h.(ledger := l,
         generations := h.generations + [Generation(r.tradeID, side, NewLeg(side, r, now))],
         current := current,
         origins := h.origins + if answer == Matched then [TradeOrigin(current, r.tradeID)] else [])
  }

  function TradeOrigin(current: map<string, nat>, tradeID: string): Origin {
    FromTrade(tradeID, GenerationOf(current, DeliverId(tradeID)), GenerationOf(current, ReceiveId(tradeID)))
  }

  function Act(h: History, a: Action): History {
    match a
    case NewWallet(alias, opts, now) => h.(ledger := h.ledger.EnsureWallet(alias, opts, now))
    case SetDay(day) => h.(ledger := h.ledger.(day := day))
    case OpenDraft(wf, clientId, init, actor, day, now) => Open(h, wf, clientId, init, actor, day, now)
    case ApproveDraft(wf, id, actor, random, now) =>
      Record(h, Approve(h.ledger, wf, id, actor, random, now), FromDraft(id))
    case CancelDraft(wf, id, now) => h.(ledger := Cancel(h.ledger, wf, id, now).ledger)
    case ExecuteNow(wf, init, actor, random, now) =>
      Record(h, Execute(h.ledger, wf, init, actor, random, now), OneStep)
    case SubmitLeg(side, r, now) => SubmitGeneration(h, side, r, now)
    case InitXvp(p, s, hash, now) =>
      var step := Init(h.ledger, p, s, hash, now);
      if step.result.Failure? then h.(ledger := step.ledger)
      else
        var terms := InitDraft(p, s, hash, now).supplementaryData.terms;
        var commitment := Commitment(terms, hash, p.amount, p.currency, p.sellerWalletAlias);
        h.(ledger := step.ledger, commitments := h.commitments[p.xvpTransactionId := commitment])
    case ObserveXvp(id, now) => h.(ledger := Observe(h.ledger, id, now).0)
    case AdmitXvp(id, p, now) => h.(ledger := Admit(h.ledger, id, p, now).ledger)
    case SettleXvp(rec, p, now) => Record(h, Settle(h.ledger, rec, p, now), FromXvp(rec.id))
  }

  /** The histories after 0, 1, …, |actions| actions. */
  ghost predicate IsRun(hs: seq<History>, actions: seq<Action>) {
    && |hs| == |actions| + 1
    && (exists day :: hs[0] == Start(day))
    && (forall i :: 0 <= i < |actions| ==> Legal(hs[i], actions[i]) && hs[i + 1] == Act(hs[i], actions[i]))
  }
}
