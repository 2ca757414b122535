/**
 * Who paid: a settled XvP was paid by exactly one call, from the wallet that call named, in exactly
 * one log entry. No scheduling of calls lets a second payment through.
 */
module XvpPayments {
  import opened Wrappers
  import opened Domain
  import opened Ledgers
  import opened Settlements
  import opened Xvps
  import opened Histories
  import opened Accounts
  import opened DraftTable
  import opened Lifecycle
  import opened XvpRuns
  import opened XvpTheorems
  import L = XvpLocks

  /** Call `n` has paid for XvP `id`. */
  predicate PaidBy(w: World, n: nat, id: string) {
    && n < |w.calls| && n < |w.lock.tickets| && w.lock.tickets[n].id == id
    && w.calls[n].call.PostPayment? && w.calls[n].outcome.Some? && w.calls[n].outcome.value.Paid?
  }

  predicate IsSettled(w: World, id: string) {
    HasXvp(w.h.ledger, id) && w.h.ledger.drafts.entries[id].status == SETTLED
  }

  /** A settled XvP has one payer, and records the wallet that call named. */
  ghost predicate OnePayer(w: World, id: string) {
    && (IsSettled(w, id) ==> exists n: nat :: PaidBy(w, n, id))
    && (forall n: nat :: PaidBy(w, n, id) ==>
          && IsSettled(w, id)
          && w.h.ledger.drafts.entries[id].debitedWalletAlias == w.calls[n].call.payment.buyerWalletAlias)
    && (forall m: nat, n: nat :: PaidBy(w, m, id) && PaidBy(w, n, id) ==> m == n)
  }

  /** The event is a payment of `id` that goes through. */
  predicate PaysNow(w: World, e: Event, id: string) {
    && e.Resume? && e.n < |w.calls| && e.n < |w.lock.tickets| && w.lock.tickets[e.n].id == id
    && w.calls[e.n].call.PostPayment? && w.calls[e.n].admission.Some?
    && var rec := w.calls[e.n].admission.value.record;
    && rec.id == id && Settle(w.h.ledger, rec, w.calls[e.n].call.payment, e.now).result.Success?
  }

  /** Only a payment that goes through settles an XvP. */
  lemma SettledByPayment(w: World, e: Event, id: string)
    requires WorldInv(w) && Possible(w, e) && IsSettled(Happen(w, e), id) && !IsSettled(w, id)
    ensures PaysNow(w, e, id)
  {
    hide Act, Happen, Settle;
    ActionIsLegal(w, e);
    var a := ActionOf(w, e).value;
    if w.h.ledger.HasDraft(id) {
      XvpWasXvp(w.h, a, id);
      ActEvolves(w.h, a, id);
      assert FiledUnder(id, w.h.ledger.drafts.entries[id]);
      OnlyPaymentsSettle(w, e, id);
    } else {
      NewDraftsAreOpen(w.h, a, id);
    }
  }

  lemma OnlyPaymentsSettle(w: World, e: Event, id: string)
    requires WorldInv(w) && Possible(w, e) && ActionOf(w, e).Some?
    requires HasXvp(w.h.ledger, id) && SettlesDraft(w.h, ActionOf(w, e).value, id)
    ensures PaysNow(w, e, id)
  {
    hide Settle;
    if e.Resume? { ResumeIsLegal(w, e.n, e.now); }
    if e.Other? { OthersSettleNoXvp(w.h, e.action, id); }
  }

  lemma OthersSettleNoXvp(h: History, a: Action, id: string)
    requires Sound(h) && Legal(h, a) && !IsXvpBody(a) && HasXvp(h.ledger, id)
    ensures !SettlesDraft(h, a, id)
  {
  }

  /** A new answer `Paid` is a payment that goes through. */
  lemma PaidByPayment(w: World, e: Event, m: nat, id: string)
    requires WorldInv(w) && Possible(w, e) && PaidBy(Happen(w, e), m, id) && !PaidBy(w, m, id)
    ensures PaysNow(w, e, id) && m == e.n
  {
    hide Act, Settle, Admit, Observe, Sound, Committed, L.LockInv;
    match e
    case Begin(n, now) =>
      WaitingHasNoAnswer(w, n);
    case Resume(n, now) =>
      ResumeIsLegal(w, n, now);
    case _ =>
  }

  /** Every other event leaves payers and settled records as they are. */
  lemma OthersKeepPayer(w: World, e: Event, id: string)
    requires WorldInv(w) && Possible(w, e) && OnePayer(w, id) && !PaysNow(w, e, id)
    ensures OnePayer(Happen(w, e), id)
  {
    hide Happen, Possible, WorldInv, PaysNow;
    var v := Happen(w, e);
    HappenKeepsAnswers(w, e);
    HappenGrows(w, e);
    forall m: nat | PaidBy(v, m, id) ensures PaidBy(w, m, id) {
      if !PaidBy(w, m, id) { PaidByPayment(w, e, m, id); }
    }
    forall m: nat | PaidBy(w, m, id)
      ensures PaidBy(v, m, id) && v.calls[m].call == w.calls[m].call {}
    if IsSettled(v, id) && !IsSettled(w, id) { SettledByPayment(w, e, id); }
  }

  /** A payment that goes through is the first, and settles the record with its own wallet. */
  lemma PaymentIsTheOne(w: World, e: Event, id: string)
    requires WorldInv(w) && Possible(w, e) && OnePayer(w, id) && PaysNow(w, e, id)
    ensures OnePayer(Happen(w, e), id)
  {
    hide Possible, WorldInv, Happen;
    var v := Happen(w, e);
    PaymentSettles(w, e, id);
    forall m: nat | PaidBy(v, m, id) ensures m == e.n {
      if !PaidBy(w, m, id) { PaidByPayment(w, e, m, id); }
    }
  }

  lemma PaymentSettles(w: World, e: Event, id: string)
    requires WorldInv(w) && Possible(w, e) && PaysNow(w, e, id)
    ensures !IsSettled(w, id) && IsSettled(Happen(w, e), id) && PaidBy(Happen(w, e), e.n, id)
    ensures var v := Happen(w, e);
      v.h.ledger.drafts.entries[id].debitedWalletAlias == v.calls[e.n].call.payment.buyerWalletAlias
  {
    hide Settle, Sound, Committed, L.LockInv, Act;
    var rec, p := w.calls[e.n].admission.value.record, w.calls[e.n].call.payment;
    ResumeIsLegal(w, e.n, e.now);
    FilesAreSound(w.h);
    SettlingIsSettle(w.h, rec, p, e.now);
    XvpIsSettled(w.h.ledger, rec, p, e.now);
  }

  lemma XvpIsSettled(l: Ledger, rec: XvpRecord, p: PaymentParams, now: int)
    requires l.WellFormed() && Filed(l)
    requires HasXvp(l, rec.id) && rec == Shape(l.drafts.entries[rec.id])
    requires Settle(l, rec, p, now).result.Success?
    ensures var m := Settle(l, rec, p, now).ledger;
      && HasXvp(m, rec.id) && m.drafts.entries[rec.id].status == SETTLED
      && m.drafts.entries[rec.id].debitedWalletAlias == p.buyerWalletAlias
  {
    hide Settle, Posts;
    SettleSettles(l, rec, p, now);
  }

  lemma NobodyHasPaid(day: BusinessDay, id: string)
    ensures OnePayer(NewWorld(day), id)
  {
  }

  lemma {:induction false} EverySettledXvpHasOnePayer(ws: seq<World>, events: seq<Event>, i: nat, id: string)
    requires IsWorldRun(ws, events) && i < |ws|
    ensures OnePayer(ws[i], id)
  {
    hide Happen, Possible, WorldInv, OnePayer, PaysNow;
    if i == 0 {
      var day :| ws[0] == NewWorld(day);
      NobodyHasPaid(day, id);
    } else {
      EverySettledXvpHasOnePayer(ws, events, i - 1, id);
      EveryWorldIsSound(ws, events, i - 1);
      if PaysNow(ws[i - 1], events[i - 1], id) {
        PaymentIsTheOne(ws[i - 1], events[i - 1], id);
      } else {
        OthersKeepPayer(ws[i - 1], events[i - 1], id);
      }
    }
  }

  /** Entry `e` of the log is the cash leg of XvP `id` as agreed, paid from the wallet call `n` named. */
  ghost predicate PaidLeg(w: World, e: nat, n: nat, id: string) {
    && CashLeg(w.h, e, id) && PaidBy(w, n, id)
    && w.h.ledger.log[e].debitedWalletAlias == w.calls[n].call.payment.buyerWalletAlias
  }

  lemma SettledHasOneCashLeg(h: History, id: string)
    requires Sound(h) && Committed(h) && HasXvp(h.ledger, id) && h.ledger.drafts.entries[id].status == SETTLED
    ensures exists e: nat ::
      CashLeg(h, e, id) && h.ledger.log[e].debitedWalletAlias == h.ledger.drafts.entries[id].debitedWalletAlias
    ensures forall e: nat, f: nat :: CashLeg(h, e, id) && CashLeg(h, f, id) ==> e == f
  {
    assert SettledIsTraced(h, id) && KeepsTerms(h, id);
    var e :| 0 <= e < |h.origins| && h.origins[e] == FromXvp(id);
    assert EntryTraced(h, e);
    assert CashLeg(h, e, id);
  }

  /**
   * Behind a revealed execution key stand exactly one log entry and exactly one paying call: the entry
   * is for the amount and to the seller agreed at init, and from the wallet that call named.
   */
  lemma ExecutionIsPaidOnce(ws: seq<World>, events: seq<Event>, i: nat, id: string, n: nat, key: string)
    requires IsWorldRun(ws, events) && i < |ws| && RevealsExecution(ws[i], n, id, key)
    ensures exists e: nat, m: nat :: PaidLeg(ws[i], e, m, id)
    ensures forall e: nat, f: nat :: CashLeg(ws[i].h, e, id) && CashLeg(ws[i].h, f, id) ==> e == f
    ensures forall m: nat, k: nat :: PaidBy(ws[i], m, id) && PaidBy(ws[i], k, id) ==> m == k
  {
    hide Possible, Happen, Sound, Committed, L.LockInv, RevealsExecution;
    var w := ws[i];
    EveryWorldIsSound(ws, events, i);
    EverySettledXvpHasOnePayer(ws, events, i, id);
    ExecutionMeansSettled(w, n, id, key);
    SettledHasOneCashLeg(w.h, id);
    var m: nat :| PaidBy(w, m, id);
    var e: nat :| CashLeg(w.h, e, id)
      && w.h.ledger.log[e].debitedWalletAlias == w.h.ledger.drafts.entries[id].debitedWalletAlias;
    assert PaidLeg(w, e, m, id);
  }
}
