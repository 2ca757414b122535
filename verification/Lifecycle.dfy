/**
 * The life of a draft over whole runs: a two-step draft or an XvP is settled at most once, by
 * exactly one log entry, by two known and distinct people, and never changes afterwards.
 */
module Lifecycle {
  import opened Wrappers
  import opened Domain
  import opened Ids
  import opened Ledgers
  import opened Settlements
  import opened Xvps
  import opened Pfods
  import opened Histories
  import opened Accounts
  import opened DraftTable
  import Dcw

  predicate IsOpen(d: Draft) {
    d.status == PENDING_APPROVAL || d.status == INITIALIZED
  }

  /** What was agreed when a draft was opened; only an XvP learns its debited wallet later. */
  predicate SameAgreement(d: Draft, e: Draft) {
    && e.id == d.id && e.kind == d.kind && e.amount == d.amount && e.currency == d.currency
    && e.creditedWalletAlias == d.creditedWalletAlias && e.createdAt == d.createdAt
    && e.initiatorUserUUID == d.initiatorUserUUID && e.expiresAt == d.expiresAt
    && e.debitedCashWalletManagerID == d.debitedCashWalletManagerID
    && e.creditedCashWalletManagerID == d.creditedCashWalletManagerID && e.cbdcRequestType == d.cbdcRequestType
    && (d.kind != XVP ==> e.debitedWalletAlias == d.debitedWalletAlias)
    && (IsXvp(d) ==> IsXvp(e) && e.supplementaryData.terms == d.supplementaryData.terms)
  }

  /** A draft that is no longer open is never written again. */
  predicate Evolves(d: Draft, e: Draft) {
    e == d || (IsOpen(d) && SameAgreement(d, e))
  }

  /** The origin of the log entry that settles a draft. */
  function OriginOf(d: Draft): Origin {
    if d.kind == XVP then FromXvp(d.id) else FromDraft(d.id)
  }

  /** The action settles draft `id`. */
  predicate SettlesDraft(h: History, a: Action, id: string) {
    match a
    case ApproveDraft(wf, x, actor, random, now) =>
      x == id && Approve(h.ledger, wf, x, actor, random, now).result.Success?
    case SettleXvp(rec, p, now) => rec.id == id && Settle(h.ledger, rec, p, now).result.Success?
    case _ => false
  }

  lemma ApproveEvolves(l: Ledger, wf: Workflow, x: string, actor: Actor, random: string, now: int)
    requires l.WellFormed() && Filed(l) && l.HasDraft(x)
    ensures var s := Approve(l, wf, x, actor, random, now);
      && s.ledger.HasDraft(x) && Evolves(l.drafts.entries[x], s.ledger.drafts.entries[x])
      && (if s.result.Success? then
            IsOpen(l.drafts.entries[x]) && s.ledger.drafts.entries[x].status == SETTLED
          else s.ledger.drafts.entries[x] == l.drafts.entries[x])
  {
    hide Approve, Posts, HalfApproves, Loses;
    ApproveAccounts(l, wf, x, actor, random, now);
    if Approve(l, wf, x, actor, random, now).result.Success? {
      ApproveSettles(l, wf, x, actor, random, now);
      assert FiledUnder(x, l.drafts.entries[x]);
    }
  }

  lemma SettleEvolves(l: Ledger, rec: XvpRecord, p: PaymentParams, now: int)
    requires l.WellFormed() && Filed(l)
    requires HasXvp(l, rec.id) && rec == Shape(l.drafts.entries[rec.id]) && rec.status == INITIALIZED
    ensures var s := Settle(l, rec, p, now);
      && IsOpen(l.drafts.entries[rec.id])
      && s.ledger.HasDraft(rec.id) && Evolves(l.drafts.entries[rec.id], s.ledger.drafts.entries[rec.id])
      && s.ledger.drafts.entries[rec.id].status == if s.result.Success? then SETTLED else INITIALIZED
  {
    if Settle(l, rec, p, now).result.Success? {
      SettleSettles(l, rec, p, now);
    } else {
      SettleRejected(l, rec, p, now);
      MarkAccounts(l, rec.id, now);
    }
  }

  /** One action on one draft that is not a PFoD leg. */
  lemma ActEvolves(h: History, a: Action, x: string)
    requires h.ledger.WellFormed() && Filed(h.ledger) && MintedOnce(h) && Legal(h, a)
    requires h.ledger.HasDraft(x) && h.ledger.drafts.entries[x].kind != PFOD
    ensures Act(h, a).ledger.HasDraft(x)
    ensures var d, e := h.ledger.drafts.entries[x], Act(h, a).ledger.drafts.entries[x];
      && Evolves(d, e)
      && (e.status == SETTLED <==> d.status == SETTLED || SettlesDraft(h, a, x))
      && (SettlesDraft(h, a, x) ==> IsOpen(d))
  {
    hide Act;
    if a.SubmitLeg? {
      LegsAreFiled(h.ledger, a.leg.tradeID);
      ActFrame(h, a, x);
    } else if !WritesDrafts(a) || x != Focus(h, a) {
      ActFrame(h, a, x);
    } else {
      FocusEvolves(h, a, x);
    }
  }

  lemma FocusEvolves(h: History, a: Action, x: string)
    requires h.ledger.WellFormed() && Filed(h.ledger) && MintedOnce(h) && Legal(h, a)
    requires WritesDrafts(a) && !a.SubmitLeg? && x == Focus(h, a)
    requires h.ledger.HasDraft(x) && h.ledger.drafts.entries[x].kind != PFOD
    ensures Act(h, a).ledger.HasDraft(x)
    ensures var d, e := h.ledger.drafts.entries[x], Act(h, a).ledger.drafts.entries[x];
      && Evolves(d, e)
      && (e.status == SETTLED <==> d.status == SETTLED || SettlesDraft(h, a, x))
      && (SettlesDraft(h, a, x) ==> IsOpen(d))
  {
    hide Approve, Cancel, Observe, Settle, Evolves, IsOpen, Create, Init, Filed, MintedOnce;
    var l := h.ledger;
    if a.OpenDraft? { OpenedIdIsFree(h, a.wf, a.day); }
    match a
    case ApproveDraft(wf, _, actor, random, now) => ApproveEvolves(l, wf, x, actor, random, now);
    case CancelDraft(wf, _, now) => CancelEvolves(l, wf, x, now);
    case SettleXvp(rec, p, now) => SettleEvolves(l, rec, p, now);
    case ObserveXvp(_, now) => ObserveEvolves(l, x, now);
    case AdmitXvp(_, _, now) => ObserveEvolves(l, x, now);
    case _ =>
  }

  lemma CancelEvolves(l: Ledger, wf: Workflow, x: string, now: int)
    requires l.WellFormed() && l.HasDraft(x)
    ensures var m := Cancel(l, wf, x, now).ledger;
      && m.HasDraft(x) && Evolves(l.drafts.entries[x], m.drafts.entries[x])
      && (m.drafts.entries[x].status == SETTLED <==> l.drafts.entries[x].status == SETTLED)
  {
  }

  lemma ObserveEvolves(l: Ledger, x: string, now: int)
    requires l.WellFormed() && l.HasDraft(x)
    ensures var m := Observe(l, x, now).0;
      && m.HasDraft(x) && Evolves(l.drafts.entries[x], m.drafts.entries[x])
      && (m.drafts.entries[x].status == SETTLED <==> l.drafts.entries[x].status == SETTLED)
  {
  }

  /** A draft that appears, and is not a PFoD leg, starts open. */
  lemma NewDraftsAreOpen(h: History, a: Action, x: string)
    requires h.ledger.WellFormed() && Filed(h.ledger) && MintedOnce(h) && Legal(h, a)
    requires !h.ledger.HasDraft(x) && Act(h, a).ledger.HasDraft(x) && Act(h, a).ledger.drafts.entries[x].kind != PFOD
    ensures IsOpen(Act(h, a).ledger.drafts.entries[x]) && (a.OpenDraft? || a.InitXvp?)
  {
    hide Act, Accounted;
    if a.SubmitLeg? {
      ActAccounts(h, a);
      LegsAreFiled(Act(h, a).ledger, a.leg.tradeID);
      ActFrame(h, a, x);
    } else if !WritesDrafts(a) || x != Focus(h, a) {
      ActFrame(h, a, x);
    } else {
      FocusOpens(h, a, x);
    }
  }

  lemma FocusOpens(h: History, a: Action, x: string)
    requires WritesDrafts(a) && !a.SubmitLeg? && x == Focus(h, a)
    requires Legal(h, a) && !h.ledger.HasDraft(x) && Act(h, a).ledger.HasDraft(x)
    ensures IsOpen(Act(h, a).ledger.drafts.entries[x]) && (a.OpenDraft? || a.InitXvp?)
  {
    if (a.ApproveDraft? || a.CancelDraft?) && !h.ledger.HasDraft(a.id) { UnknownIsLeftAlone(h, a); }
  }

  lemma UnknownIsLeftAlone(h: History, a: Action)
    requires (a.ApproveDraft? || a.CancelDraft?) && !h.ledger.HasDraft(a.id)
    ensures Act(h, a).ledger == h.ledger
  {
    hide Effect, Refusal;
  }

  // ----- one log entry per settled draft -----

  ghost predicate Records(tx: Transaction, d: Draft) {
    && tx.kind == d.kind && tx.amount == d.amount && tx.currency == d.currency
    && tx.creditedWalletAlias == d.creditedWalletAlias && tx.debitedWalletAlias == d.debitedWalletAlias
  }

  predicate HasId(o: Origin) {
    o.FromDraft? || o.FromXvp?
  }

  /** Entry `i` of the log is the settlement of the draft it is put down to. */
  ghost predicate EntryTraced(h: History, i: nat)
    requires i < |h.origins| == |h.ledger.log|
  {
    HasId(h.origins[i]) ==>
      && h.ledger.HasDraft(h.origins[i].id)
      && h.ledger.drafts.entries[h.origins[i].id].kind != PFOD
      && h.ledger.drafts.entries[h.origins[i].id].status == SETTLED
      && h.origins[i] == OriginOf(h.ledger.drafts.entries[h.origins[i].id])
      && Records(h.ledger.log[i], h.ledger.drafts.entries[h.origins[i].id])
  }

  /** Settled drafts and the log entries put down to them correspond one to one. */
  ghost predicate Traced(h: History) {
    && |h.origins| == |h.ledger.log|
    && (forall i :: 0 <= i < |h.origins| ==> EntryTraced(h, i))
    && (forall i, j :: 0 <= i < j < |h.origins| && HasId(h.origins[i]) ==> h.origins[i] != h.origins[j])
    && (forall id :: id in h.ledger.drafts.entries ==> SettledIsTraced(h, id))
  }

  ghost predicate SettledIsTraced(h: History, id: string)
    requires h.ledger.HasDraft(id)
  {
    var d := h.ledger.drafts.entries[id];
    d.kind != PFOD && d.status == SETTLED ==> OriginOf(d) in h.origins
  }

  /** The origin of the entry an action appends, if it appends one. */
  function NewOrigin(h: History, a: Action): Option<Origin> {
    match a
    case ApproveDraft(wf, id, actor, random, now) =>
      if Approve(h.ledger, wf, id, actor, random, now).result.Success? then Some(FromDraft(id)) else None
    case ExecuteNow(wf, init, actor, random, now) =>
      if Execute(h.ledger, wf, init, actor, random, now).result.Success? then Some(OneStep) else None
    case SubmitLeg(side, r, now) =>
      if Submit(h.ledger, side, r, now).1 == Matched then
        Some(TradeOrigin(h.current[LegId(side, r.tradeID) := |h.generations|], r.tradeID))
      else None
    case SettleXvp(rec, p, now) =>
      if Settle(h.ledger, rec, p, now).result.Success? then Some(FromXvp(rec.id)) else None
    case _ => None
  }

  /** No money moves: the wallets are as they were, or one empty wallet is opened. */
  ghost predicate MovesNothing(l: Ledger, m: Ledger) {
    m.log == l.log && (Quiet(l, m) || exists w :: OpenedWallet(l, m, w))
  }

  /** The calls that can write a log entry. */
  predicate MayPost(a: Action) {
    a.ApproveDraft? || a.ExecuteNow? || a.SubmitLeg? || a.SettleXvp?
  }

  /** What an action that appends no entry does to the money: nothing, unless it half-applies. */
  ghost predicate LeavesTheLog(h: History, a: Action, m: Ledger) {
    if LosesMoney(h, a) then Loses(h.ledger, m, LostFrom(h, a).0, LostFrom(h, a).1) else MovesNothing(h.ledger, m)
  }

  /** What an action does to the money and to the origins: a movement and its origin, or neither. */
  ghost predicate OriginFits(h: History, a: Action) {
    var k := Act(h, a);
    match NewOrigin(h, a)
    case Some(origin) => k.origins == h.origins + [origin] && Posted(h.ledger, k.ledger) && !LosesMoney(h, a)
    case None => k.origins == h.origins && LeavesTheLog(h, a, k.ledger)
  }

  lemma PostingFits(h: History, a: Action)
    requires h.ledger.WellFormed() && Filed(h.ledger) && Legal(h, a) && MayPost(a)
    ensures OriginFits(h, a)
  {
    hide Approve, Execute, Settle, Submit, Posted, Filed, HalfApproves, HalfExecutes, Loses;
    var l := h.ledger;
    match a
    case ApproveDraft(wf, id, actor, random, now) => ApproveAccounts(l, wf, id, actor, random, now);
    case ExecuteNow(wf, init, actor, random, now) => ExecuteAccounts(l, wf, init, actor, random, now);
    case SubmitLeg(side, r, now) => SubmitAccounts(l, side, r, now);
    case SettleXvp(rec, p, now) => SettleAccounts(l, rec, p, now);
  }

  lemma QuietFits(h: History, a: Action)
    requires h.ledger.WellFormed() && Filed(h.ledger) && Legal(h, a) && !MayPost(a)
    ensures OriginFits(h, a)
  {
    hide Observe, Cancel, Filed, Refusal, BuildRecord, InitDraft, HalfApproves, HalfExecutes, Loses;
    var l := h.ledger;
    match a
    case NewWallet(alias, opts, now) => EnsureWalletAccounts(l, alias, opts, now);
    case CancelDraft(wf, id, now) => CancelAccounts(l, wf, id, now);
    case ObserveXvp(id, now) => ObserveAccounts(l, id, now);
    case AdmitXvp(id, p, now) => ObserveAccounts(l, id, now);
    case _ =>
  }

  /** An action posts the movement of the one log entry it appends, or moves nothing, or half-applies. */
  lemma ActOrigins(h: History, a: Action)
    requires h.ledger.WellFormed() && Filed(h.ledger) && Legal(h, a)
    ensures var k := Act(h, a);
      match NewOrigin(h, a)
      case Some(o) => k.origins == h.origins + [o] && Posted(h.ledger, k.ledger) && !LosesMoney(h, a)
      case None => k.origins == h.origins && k.ledger.log == h.ledger.log && LeavesTheLog(h, a, k.ledger)
  {
    hide Act, Legal, NewOrigin, Posted, LosesMoney;
    if MayPost(a) { PostingFits(h, a); } else { QuietFits(h, a); }
  }

  /** The log and the origins grow together, by one entry at most. */
  lemma ActAppends(h: History, a: Action)
    requires h.ledger.WellFormed() && Filed(h.ledger) && Legal(h, a)
    ensures var l, k := h.ledger, Act(h, a);
      match NewOrigin(h, a)
      case Some(o) =>
        k.origins == h.origins + [o] && |k.ledger.log| == |l.log| + 1 && k.ledger.log[..|l.log|] == l.log
      case None => k.origins == h.origins && k.ledger.log == l.log
  {
    hide Act, Legal, NewOrigin, LeavesTheLog;
    ActOrigins(h, a);
  }

  /** Draft `x` has just been settled by the new last entry of the log. */
  ghost predicate JustSettled(l: Ledger, m: Ledger, x: string) {
    && l.HasDraft(x) && IsOpen(l.drafts.entries[x])
    && m.HasDraft(x) && m.drafts.entries[x].kind != PFOD && m.drafts.entries[x].status == SETTLED
    && |m.log| == |l.log| + 1 && Records(m.log[|l.log|], m.drafts.entries[x])
  }

  lemma ApproveRecords(l: Ledger, wf: Workflow, x: string, actor: Actor, random: string, now: int)
    requires l.WellFormed() && Filed(l) && Approve(l, wf, x, actor, random, now).result.Success?
    ensures var m := Approve(l, wf, x, actor, random, now).ledger;
      JustSettled(l, m, x) && OriginOf(m.drafts.entries[x]) == FromDraft(x)
  {
    hide Approve, Posts;
    ApproveSettles(l, wf, x, actor, random, now);
    assert FiledUnder(x, l.drafts.entries[x]);
  }

  lemma SettleRecords(l: Ledger, rec: XvpRecord, p: PaymentParams, now: int)
    requires l.WellFormed() && Filed(l)
    requires HasXvp(l, rec.id) && rec == Shape(l.drafts.entries[rec.id]) && rec.status == INITIALIZED
    requires Settle(l, rec, p, now).result.Success?
    ensures var m := Settle(l, rec, p, now).ledger;
      JustSettled(l, m, rec.id) && OriginOf(m.drafts.entries[rec.id]) == FromXvp(rec.id)
  {
    SettleSettles(l, rec, p, now);
  }

  ghost predicate Appends(h: History, k: History, o: Origin) {
    && |k.ledger.log| == |h.ledger.log| + 1 && k.ledger.log[..|h.ledger.log|] == h.ledger.log
    && k.origins == h.origins + [o]
    && (HasId(o) ==> JustSettled(h.ledger, k.ledger, o.id))
    && (HasId(o) ==> h.ledger.drafts.entries[o.id].kind != PFOD && o == OriginOf(k.ledger.drafts.entries[o.id]))
  }

  /** What one action does to the drafts and to the log, as far as tracing entries is concerned. */
  ghost predicate TracedStep(h: History, k: History, o: Option<Origin>) {
    && (o.Some? ==> Appends(h, k, o.value))
    && (o.None? ==> k.origins == h.origins && k.ledger.log == h.ledger.log)
    && (forall x :: x in h.ledger.drafts.entries && h.ledger.drafts.entries[x].kind != PFOD ==>
          && x in k.ledger.drafts.entries && k.ledger.drafts.entries[x].kind != PFOD
          && Evolves(h.ledger.drafts.entries[x], k.ledger.drafts.entries[x]))
    && (forall x :: x in k.ledger.drafts.entries && k.ledger.drafts.entries[x].kind != PFOD
                    && k.ledger.drafts.entries[x].status == SETTLED ==>
          || o == Some(OriginOf(k.ledger.drafts.entries[x]))
          || (x in h.ledger.drafts.entries && h.ledger.drafts.entries[x] == k.ledger.drafts.entries[x]))
  }

  lemma StepKeepsTraced(h: History, k: History, o: Option<Origin>)
    requires h.ledger.WellFormed() && k.ledger.WellFormed() && Traced(h) && TracedStep(h, k, o)
    ensures Traced(k)
  {
    forall i | 0 <= i < |k.origins| ensures EntryTraced(k, i) {
      if i < |h.origins| {
        assert EntryTraced(h, i);
        assert k.origins[i] == h.origins[i] && k.ledger.log[i] == h.ledger.log[i];
      }
    }
    forall i, j | 0 <= i < j < |k.origins| && HasId(k.origins[i]) ensures k.origins[i] != k.origins[j] {
      if j == |h.origins| {
        assert EntryTraced(h, i);
      }
    }
    forall id | id in k.ledger.drafts.entries ensures SettledIsTraced(k, id) {
      if id in h.ledger.drafts.entries && h.ledger.drafts.entries[id] == k.ledger.drafts.entries[id] {
        assert SettledIsTraced(h, id);
      } else if o.Some? {
        assert k.origins[|h.origins|] == o.value;
      }
    }
  }

  lemma ActJustSettles(h: History, a: Action)
    requires h.ledger.WellFormed() && Filed(h.ledger) && Legal(h, a)
    ensures match NewOrigin(h, a)
      case Some(written) => HasId(written) ==>
        && SettlesDraft(h, a, written.id) && JustSettled(h.ledger, Act(h, a).ledger, written.id)
        && written == OriginOf(Act(h, a).ledger.drafts.entries[written.id])
      case None => forall x :: !SettlesDraft(h, a, x)
  {
    if a.ApproveDraft? && NewOrigin(h, a).Some? {
      ApproveRecords(h.ledger, a.wf, a.id, a.actor, a.random, a.now);
    } else if a.SettleXvp? && NewOrigin(h, a).Some? {
      SettleRecords(h.ledger, a.record, a.payment, a.now);
    }
  }

  lemma ActTraced(h: History, a: Action)
    requires h.ledger.WellFormed() && Filed(h.ledger) && MintedOnce(h) && Legal(h, a) && Traced(h)
    ensures Traced(Act(h, a))
  {
    hide Act;
    var k := Act(h, a);
    ActOrigins(h, a);
    ActAccounts(h, a);
    ActJustSettles(h, a);
    forall x | x in h.ledger.drafts.entries && h.ledger.drafts.entries[x].kind != PFOD
      ensures && x in k.ledger.drafts.entries && k.ledger.drafts.entries[x].kind != PFOD
              && Evolves(h.ledger.drafts.entries[x], k.ledger.drafts.entries[x])
    {
      ActEvolves(h, a, x);
      KindsStay(h, a, x);
    }
    forall x | x in k.ledger.drafts.entries && k.ledger.drafts.entries[x].kind != PFOD
               && k.ledger.drafts.entries[x].status == SETTLED
      ensures || NewOrigin(h, a) == Some(OriginOf(k.ledger.drafts.entries[x]))
              || (x in h.ledger.drafts.entries && h.ledger.drafts.entries[x] == k.ledger.drafts.entries[x])
    {
      SettledNowOrBefore(h, a, x);
    }
    if NewOrigin(h, a).Some? && HasId(NewOrigin(h, a).value) { KindsStay(h, a, NewOrigin(h, a).value.id); }
    StepKeepsTraced(h, k, NewOrigin(h, a));
  }

  lemma SettledNowOrBefore(h: History, a: Action, x: string)
    requires h.ledger.WellFormed() && Filed(h.ledger) && MintedOnce(h) && Legal(h, a)
    requires Act(h, a).ledger.HasDraft(x)
    requires Act(h, a).ledger.drafts.entries[x].kind != PFOD && Act(h, a).ledger.drafts.entries[x].status == SETTLED
    ensures || NewOrigin(h, a) == Some(OriginOf(Act(h, a).ledger.drafts.entries[x]))
            || (h.ledger.HasDraft(x) && h.ledger.drafts.entries[x] == Act(h, a).ledger.drafts.entries[x])
  {
    hide Act;
    if !h.ledger.HasDraft(x) {
      NewDraftsAreOpen(h, a, x);
    } else {
      KindsStay(h, a, x);
      ActEvolves(h, a, x);
      ActJustSettles(h, a);
    }
  }

  /** No draft turns into a PFoD leg or out of one. */
  lemma KindsStay(h: History, a: Action, id: string)
    requires h.ledger.WellFormed() && Filed(h.ledger) && MintedOnce(h) && Legal(h, a)
    requires h.ledger.HasDraft(id) && Act(h, a).ledger.HasDraft(id)
    ensures h.ledger.drafts.entries[id].kind == PFOD <==> Act(h, a).ledger.drafts.entries[id].kind == PFOD
  {
    hide Act, Accounted;
    ActAccounts(h, a);
    LegsHaveTheirShape(id, h.ledger.drafts.entries[id]);
    LegsHaveTheirShape(id, Act(h, a).ledger.drafts.entries[id]);
  }

  /** The id of a draft tells whether it is a PFoD leg. */
  lemma LegsHaveTheirShape(id: string, d: Draft)
    requires FiledUnder(id, d)
    ensures d.kind == PFOD <==> PfodShape(id)
  {
    if d.kind == PFOD {
      LegShapes(d.supplementaryData.text);
    } else if MintedShape(id) {
      forall t ensures id != DeliverId(t) && id != ReceiveId(t) { LegShapes(t); }
    }
  }

  // ----- two people, and the trail -----

  /** The trail lists each status once, ends in the current one, and every status has its stamp. */
  ghost predicate TrailFits(d: Draft) {
    d.historicStatus.Some? ==>
      && d.historicStatus.value
         == [INITIALIZED, PENDING_APPROVAL] + (if d.status == PENDING_APPROVAL then [] else [d.status])
      && d.timestamps.Keys == {INITIALIZED, PENDING_APPROVAL, d.status}
  }

  /** The wallets an approval will look for exist, if they are named; a funding always names one. */
  predicate WalletsExist(l: Ledger, d: Draft) {
    && (d.kind != FUNDING && d.debitedWalletAlias != "" ==> l.HasWallet(d.debitedWalletAlias))
    && (d.kind != DEFUNDING && d.creditedWalletAlias != "" ==> l.HasWallet(d.creditedWalletAlias))
    && (d.kind == FUNDING ==> l.HasWallet(d.creditedWalletAlias))
  }

  ghost predicate TwoStepSound(l: Ledger, d: Draft) {
    IsTwoStepKind(d.kind) ==>
      && TrailFits(d)
      && (d.status == SETTLED ==>
            d.initiatorUserUUID != "" && d.approverUserUUID != "" && d.initiatorUserUUID != d.approverUserUUID)
      && (d.status == PENDING_APPROVAL ==> WalletsExist(l, d))
  }

  ghost predicate AllSound(l: Ledger) {
    forall id :: id in l.drafts.entries ==> TwoStepSound(l, l.drafts.entries[id])
  }

  /** A wallet is never removed, and only its balance ever changes. */
  lemma WalletsStay(h: History, a: Action, alias: string)
    requires h.ledger.WellFormed() && Filed(h.ledger) && Legal(h, a) && h.ledger.HasWallet(alias)
    ensures Act(h, a).ledger.HasWallet(alias)
    ensures Fixed(Act(h, a).ledger.wallets.entries[alias]) == Fixed(h.ledger.wallets.entries[alias])
  {
    ActAccounts(h, a);
  }

  lemma CreatedIsSound(l: Ledger, wf: Workflow, init: WorkflowInit, actor: Actor, now: int)
    requires IsTwoStep(wf) && SeededTrail(init)
    requires Create(l, wf, init, actor, now).result.Success?
    ensures TwoStepSound(l, BuildRecord(wf, init, PENDING_APPROVAL, now))
  {
  }

  lemma SameWalletsSound(l: Ledger, m: Ledger, d: Draft)
    requires m.wallets == l.wallets && TwoStepSound(l, d)
    ensures TwoStepSound(m, d)
  {
  }

  lemma OpenedIsSound(h: History, a: Action, x: string)
    requires h.ledger.WellFormed() && Filed(h.ledger) && MintedOnce(h) && Legal(h, a)
    requires !h.ledger.HasDraft(x) && Act(h, a).ledger.HasDraft(x)
    requires IsTwoStepKind(Act(h, a).ledger.drafts.entries[x].kind)
    ensures TwoStepSound(Act(h, a).ledger, Act(h, a).ledger.drafts.entries[x])
  {
    hide Act, Legal;
    NewDraftsAreOpen(h, a, x);
    if a.OpenDraft? {
      DraftOpenedIsSound(h, a, x);
    } else {
      XvpIsNoTwoStep(h, a, x);
    }
  }

  lemma DraftOpenedIsSound(h: History, a: Action, x: string)
    requires Legal(h, a) && a.OpenDraft? && !h.ledger.HasDraft(x) && Act(h, a).ledger.HasDraft(x)
    ensures TwoStepSound(Act(h, a).ledger, Act(h, a).ledger.drafts.entries[x])
  {
    hide TwoStepSound, Refusal;
    var l := h.ledger.AdvanceSequence(PrefixOf(a.wf), a.day);
    CreatedIsSound(l, a.wf, a.init.(id := h.ledger.NextId(PrefixOf(a.wf), a.day)), a.actor, a.now);
    SameWalletsSound(l, Act(h, a).ledger, Act(h, a).ledger.drafts.entries[x]);
  }

  lemma XvpIsNoTwoStep(h: History, a: Action, x: string)
    requires a.InitXvp? && !h.ledger.HasDraft(x) && Act(h, a).ledger.HasDraft(x)
    ensures Act(h, a).ledger.drafts.entries[x].kind == XVP
    ensures var data := Act(h, a).ledger.drafts.entries[x].supplementaryData; data.Xvp? && !data.paymentAttempted
  {
  }

  lemma ActSound(h: History, a: Action, x: string)
    requires h.ledger.WellFormed() && Filed(h.ledger) && MintedOnce(h) && Legal(h, a) && AllSound(h.ledger)
    requires Act(h, a).ledger.HasDraft(x)
    ensures TwoStepSound(Act(h, a).ledger, Act(h, a).ledger.drafts.entries[x])
  {
    hide Act;
    var l, m := h.ledger, Act(h, a).ledger;
    var e := m.drafts.entries[x];
    if IsTwoStepKind(e.kind) {
      if !l.HasDraft(x) {
        OpenedIsSound(h, a, x);
      } else {
        KindsStay(h, a, x);
        ActEvolves(h, a, x);
        var d := l.drafts.entries[x];
        assert TwoStepSound(l, d) && FiledUnder(x, d);
        if d.kind != FUNDING && l.HasWallet(d.debitedWalletAlias) { WalletsStay(h, a, d.debitedWalletAlias); }
        if d.kind != DEFUNDING && l.HasWallet(d.creditedWalletAlias) { WalletsStay(h, a, d.creditedWalletAlias); }
        if e != d {
          RewrittenIsSound(h, a, x);
        }
      }
    }
  }

  lemma ApprovalIsSound(l: Ledger, m: Ledger, record: Draft, actor: Actor, now: int)
    requires TwoStepSound(l, record) && IsTwoStepKind(record.kind)
    requires record.status == PENDING_APPROVAL && FourEyes(record, actor)
    ensures TwoStepSound(m, Merge(record, Approval(l, record, actor, now), now))
  {
  }

  lemma ApprovedIsSound(l: Ledger, wf: Workflow, x: string, actor: Actor, random: string, now: int)
    requires l.WellFormed() && Filed(l) && l.HasDraft(x) && TwoStepSound(l, l.drafts.entries[x])
    requires IsTwoStepKind(l.drafts.entries[x].kind)
    ensures var m := Approve(l, wf, x, actor, random, now).ledger;
      m.HasDraft(x) && (m.drafts.entries[x] == l.drafts.entries[x] || TwoStepSound(m, m.drafts.entries[x]))
  {
    var s := Approve(l, wf, x, actor, random, now);
    if s.result.Success? {
      ApproveSettles(l, wf, x, actor, random, now);
      ApprovalIsSound(l, s.ledger, l.drafts.entries[x], actor, now);
    } else {
      ApproveAccounts(l, wf, x, actor, random, now);
    }
  }

  lemma CanceledIsSound(l: Ledger, wf: Workflow, x: string, now: int)
    requires l.WellFormed() && Filed(l) && l.HasDraft(x) && TwoStepSound(l, l.drafts.entries[x])
    requires IsTwoStepKind(l.drafts.entries[x].kind)
    ensures var m := Cancel(l, wf, x, now).ledger;
      m.HasDraft(x) && (m.drafts.entries[x] == l.drafts.entries[x] || TwoStepSound(m, m.drafts.entries[x]))
  {
  }

  /** Only an approval and a cancellation rewrite a two-step draft, and both extend its trail. */
  lemma RewrittenIsSound(h: History, a: Action, x: string)
    requires h.ledger.WellFormed() && Filed(h.ledger) && MintedOnce(h) && Legal(h, a) && AllSound(h.ledger)
    requires h.ledger.HasDraft(x) && Act(h, a).ledger.HasDraft(x)
    requires IsTwoStepKind(h.ledger.drafts.entries[x].kind)
    requires Act(h, a).ledger.drafts.entries[x] != h.ledger.drafts.entries[x]
    ensures TwoStepSound(Act(h, a).ledger, Act(h, a).ledger.drafts.entries[x])
    ensures a.ApproveDraft? || a.CancelDraft?
  {
    hide Approve, Cancel, Submit, Settle, Init, MintedOnce, TrailFits;
    var l := h.ledger;
    var d := l.drafts.entries[x];
    assert FiledUnder(x, d) && TwoStepSound(l, d);
    if a.SubmitLeg? {
      LegShapes(a.leg.tradeID);
      ActFrame(h, a, x);
    } else if !WritesDrafts(a) || x != Focus(h, a) {
      ActFrame(h, a, x);
    } else if a.OpenDraft? {
      OpenedIdIsFree(h, a.wf, a.day);
    } else if a.ApproveDraft? {
      ApprovedIsSound(l, a.wf, x, a.actor, a.random, a.now);
    } else if a.CancelDraft? {
      CanceledIsSound(l, a.wf, x, a.now);
    }
  }

  // ----- over runs -----

  ghost predicate Sound(h: History) {
    h.ledger.WellFormed() && Filed(h.ledger) && MintedOnce(h) && Traced(h) && AllSound(h.ledger)
  }

  lemma ActKeepsSound(h: History, a: Action)
    requires Sound(h) && Legal(h, a)
    ensures Sound(Act(h, a))
  {
    ActAccounts(h, a);
    ActKeepsMintedOnce(h, a);
    ActTraced(h, a);
    forall x | x in Act(h, a).ledger.drafts.entries
      ensures TwoStepSound(Act(h, a).ledger, Act(h, a).ledger.drafts.entries[x])
    {
      ActSound(h, a, x);
    }
  }

  /**
   * In every history of every run: settled drafts and their log entries correspond one to one,
   * the initiator and the approver of a settled two-step draft are known and distinct, trails are
   * complete, and the wallets a pending draft names are there.
   */
  lemma {:induction false} EveryRunIsSound(hs: seq<History>, actions: seq<Action>, i: nat)
    requires IsRun(hs, actions) && i < |hs|
    ensures Sound(hs[i])
  {
    if i == 0 {
      var day :| hs[0] == Start(day);
    } else {
      EveryRunIsSound(hs, actions, i - 1);
      ActKeepsSound(hs[i - 1], actions[i - 1]);
    }
  }

  /** A draft keeps its agreement for ever, and once it is no longer open it never changes. */
  lemma {:induction false} TerminalIsFinal(hs: seq<History>, actions: seq<Action>, i: nat, j: nat, x: string)
    requires IsRun(hs, actions) && i <= j < |hs|
    requires hs[i].ledger.HasDraft(x) && hs[i].ledger.drafts.entries[x].kind != PFOD
    ensures hs[j].ledger.HasDraft(x)
    ensures SameAgreement(hs[i].ledger.drafts.entries[x], hs[j].ledger.drafts.entries[x])
    ensures !IsOpen(hs[i].ledger.drafts.entries[x]) ==> hs[j].ledger.drafts.entries[x] == hs[i].ledger.drafts.entries[x]
    decreases j
  {
    hide Act, Legal, Sound;
    if i == j {
    } else {
      TerminalIsFinal(hs, actions, i, j - 1, x);
      EveryRunIsSound(hs, actions, j - 1);
      ActEvolves(hs[j - 1], actions[j - 1], x);
    }
  }

  /** The guards let every approval of a pending draft of a run through. */
  lemma GuardsFindTheirWallets(hs: seq<History>, actions: seq<Action>, i: nat, wf: Workflow, id: string, actor: Actor,
        now: int)
    requires IsRun(hs, actions) && i < |hs|
    requires LoadPending(hs[i].ledger, wf, id).Success?
    ensures Refusal(hs[i].ledger, wf, ApprovePhase, hs[i].ledger.drafts.entries[id], actor.caller, now).None?
  {
    EveryRunIsSound(hs, actions, i);
    var d := hs[i].ledger.drafts.entries[id];
    assert FiledUnder(id, d) && TwoStepSound(hs[i].ledger, d);
  }

  /** The codes that name a wallet as unknown. */
  predicate NamesUnknownWallet(e: Rejection) {
    e.errorCode == "HL-WAL-001" || e.errorCode == "HL-WAL-002" || e.errorCode == "HL-WAL-003"
  }

  lemma DebitNamesUnknownWallet(l: Ledger, alias: string, amount: string, caller: Caller, now: int)
    ensures var r := CheckedDebit(l, alias, amount, caller, now).result;
      (r.Failure? && NamesUnknownWallet(r.error)) <==> !l.HasWallet(alias)
  {
  }

  lemma CreditNamesUnknownWallet(l: Ledger, alias: string, amount: string)
    ensures var r := RawCredit(l, alias, amount).result;
      (r.Failure? && NamesUnknownWallet(r.error)) <==> !l.HasWallet(alias)
  {
  }

  /** The settlement debits or, the debit done, credits the empty alias, and no wallet has it. */
  predicate NeedsTheEmptyAlias(l: Ledger, wf: Workflow, d: Draft, caller: Caller, now: int) {
    && !l.HasWallet("") && wf.DebitsSource()
    && (|| d.debitedWalletAlias == ""
        || (&& wf.CreditsExistingWallet() && d.creditedWalletAlias == ""
            && l.Debit(d.debitedWalletAlias, d.amount, caller, now).Success?))
  }

  /** With its wallets there, a settlement names one as unknown exactly when it uses the empty alias in vain. */
  lemma EffectNamesUnknownWallet(l: Ledger, wf: Workflow, record: Draft, caller: Caller, now: int)
    requires l.WellFormed() && record.kind == wf.Kind() && WalletsExist(l, record)
    ensures var r := Effect(l, wf, record, caller, now).result;
      (r.Failure? && NamesUnknownWallet(r.error)) <==> NeedsTheEmptyAlias(l, wf, record, caller, now)
  {
    hide CheckedDebit, RawCredit, NamesUnknownWallet, Move;
    if wf.Funding? {
      CreditNamesUnknownWallet(l, record.creditedWalletAlias, record.amount);
    } else if wf.Defunding? {
      DebitNamesUnknownWallet(l, record.debitedWalletAlias, record.amount, caller, now);
    } else {
      MoveNamesUnknownWallet(l, record.debitedWalletAlias, record.creditedWalletAlias, record.amount, caller, now);
    }
  }

  lemma MoveNamesUnknownWallet(l: Ledger, debited: string, credited: string, amount: string, caller: Caller, now: int)
    requires l.WellFormed()
    ensures var r := Move(l, debited, credited, amount, caller, now).result;
      (r.Failure? && NamesUnknownWallet(r.error))
      <==> !l.HasWallet(debited) || (!l.HasWallet(credited) && l.Debit(debited, amount, caller, now).Success?)
  {
    hide RawCredit, NamesUnknownWallet, Dcw.DebitDenial, Dcw.WithDebit;
    var debit := CheckedDebit(l, debited, amount, caller, now);
    DebitNamesUnknownWallet(l, debited, amount, caller, now);
    DebitMoves(l, debited, amount, caller, now);
    CreditNamesUnknownWallet(debit.ledger, credited, amount);
  }

  /**
   * A four-eyes approval of a pending draft of a run is rejected over an unknown wallet if and only if
   * no wallet has the empty alias and the draft names no wallet to debit, or names none to credit and
   * its debit goes through.
   */
  lemma ApproveFindsItsWallets(hs: seq<History>, actions: seq<Action>, i: nat, wf: Workflow, id: string, actor: Actor,
        random: string, now: int)
    requires IsRun(hs, actions) && i < |hs|
    requires LoadPending(hs[i].ledger, wf, id).Success? && FourEyes(hs[i].ledger.drafts.entries[id], actor)
    ensures var r := Approve(hs[i].ledger, wf, id, actor, random, now).result;
      (r.Failure? && NamesUnknownWallet(r.error))
      <==> NeedsTheEmptyAlias(hs[i].ledger, wf, hs[i].ledger.drafts.entries[id], actor.caller, now)
  {
    hide Refusal, Effect, NamesUnknownWallet, NeedsTheEmptyAlias, Act, Legal;
    var d := hs[i].ledger.drafts.entries[id];
    EveryRunIsSound(hs, actions, i);
    PendingIsWalleted(hs[i].ledger, wf, id);
    GuardsFindTheirWallets(hs, actions, i, wf, id, actor, now);
    EffectNamesUnknownWallet(hs[i].ledger, wf, d, actor.caller, now);
  }

  lemma PendingIsWalleted(l: Ledger, wf: Workflow, id: string)
    requires Filed(l) && AllSound(l) && LoadPending(l, wf, id).Success?
    ensures WalletsExist(l, l.drafts.entries[id])
  {
    assert FiledUnder(id, l.drafts.entries[id]) && TwoStepSound(l, l.drafts.entries[id]);
  }

  // ----- each transition, and everything after it -----

  /** A draft that is opened stands, pending and as asked for, under an id nobody had. */
  lemma OpenedStands(hs: seq<History>, actions: seq<Action>, i: nat, init: WorkflowInit)
    requires IsRun(hs, actions) && i < |actions| && actions[i].OpenDraft?
    requires var a, l := actions[i], hs[i].ledger;
      && ResolveDraftId(l, PrefixOf(a.wf), a.clientId, a.day).result.Success?
      && init == a.init.(id := l.NextId(PrefixOf(a.wf), a.day))
      && Create(l.AdvanceSequence(PrefixOf(a.wf), a.day), a.wf, init, a.actor, a.now).result.Success?
    ensures !hs[i].ledger.HasDraft(init.id) && hs[i + 1].ledger.HasDraft(init.id)
    ensures hs[i + 1].ledger.drafts.entries[init.id]
      == BuildRecord(actions[i].wf, init, PENDING_APPROVAL, actions[i].now)
  {
    EveryRunIsSound(hs, actions, i);
    OpenedIdIsFree(hs[i], actions[i].wf, actions[i].day);
  }

  /** Entry `e` of the log, and no other, is the settlement of the draft, and says what the draft says. */
  ghost predicate OnlyEntry(h: History, id: string, e: nat)
    requires h.ledger.HasDraft(id)
  {
    && e < |h.origins| == |h.ledger.log| && h.origins[e] == FromDraft(id)
    && Records(h.ledger.log[e], h.ledger.drafts.entries[id])
    && (forall f :: 0 <= f < |h.origins| && h.origins[f] == FromDraft(id) ==> f == e)
  }

  /** An approved draft is settled from then on, by one log entry that says what it says. */
  lemma ApprovedForGood(hs: seq<History>, actions: seq<Action>, i: nat, j: nat)
    requires IsRun(hs, actions) && i < j < |hs| && actions[i].ApproveDraft?
    requires var a := actions[i]; Approve(hs[i].ledger, a.wf, a.id, a.actor, a.random, a.now).result.Success?
    ensures var id := actions[i].id;
      && hs[j].ledger.HasDraft(id) && hs[j].ledger.drafts.entries[id].status == SETTLED
      && exists e :: OnlyEntry(hs[j], id, e)
  {
    hide Approve, Act, Legal;
    var a := actions[i];
    EveryRunIsSound(hs, actions, i);
    EveryRunIsSound(hs, actions, j);
    ApprovalStands(hs[i], a);
    TerminalIsFinal(hs, actions, i + 1, j, a.id);
    SettledHasItsEntry(hs[j], a.id);
  }

  lemma ApprovalStands(h: History, a: Action)
    requires h.ledger.WellFormed() && Filed(h.ledger) && a.ApproveDraft?
    requires Approve(h.ledger, a.wf, a.id, a.actor, a.random, a.now).result.Success?
    ensures var m := Act(h, a).ledger;
      m.HasDraft(a.id) && m.drafts.entries[a.id].status == SETTLED && m.drafts.entries[a.id].kind == a.wf.Kind()
      && m.drafts.entries[a.id].kind != PFOD && m.drafts.entries[a.id].kind != XVP
  {
    hide Approve, Posts;
    ApproveSettles(h.ledger, a.wf, a.id, a.actor, a.random, a.now);
    assert FiledUnder(a.id, h.ledger.drafts.entries[a.id]);
  }

  lemma SettledHasItsEntry(h: History, id: string)
    requires h.ledger.WellFormed() && Traced(h)
    requires h.ledger.HasDraft(id) && h.ledger.drafts.entries[id].status == SETTLED
    requires h.ledger.drafts.entries[id].kind != PFOD && h.ledger.drafts.entries[id].kind != XVP
    ensures exists e :: OnlyEntry(h, id, e)
  {
    assert SettledIsTraced(h, id);
    var e :| 0 <= e < |h.origins| && h.origins[e] == FromDraft(id);
    assert EntryTraced(h, e);
    assert OnlyEntry(h, id, e);
  }

  /** A canceled draft stays canceled, and no money ever moves for it. */
  lemma CanceledForGood(hs: seq<History>, actions: seq<Action>, i: nat, j: nat)
    requires IsRun(hs, actions) && i < j < |hs| && actions[i].CancelDraft?
    requires Cancel(hs[i].ledger, actions[i].wf, actions[i].id, actions[i].now).result.Success?
    ensures var id := actions[i].id;
      && hs[j].ledger.HasDraft(id) && hs[j].ledger.drafts.entries[id].status == CANCELED
      && FromDraft(id) !in hs[j].origins
  {
    hide Act, Legal;
    EveryRunIsSound(hs, actions, i);
    EveryRunIsSound(hs, actions, j);
    CancellationStands(hs[i], actions[i]);
    TerminalIsFinal(hs, actions, i + 1, j, actions[i].id);
    UnsettledHasNoEntry(hs[j], actions[i].id);
  }

  lemma CancellationStands(h: History, a: Action)
    requires Filed(h.ledger) && a.CancelDraft? && Cancel(h.ledger, a.wf, a.id, a.now).result.Success?
    ensures var m := Act(h, a).ledger;
      m.HasDraft(a.id) && m.drafts.entries[a.id].status == CANCELED && m.drafts.entries[a.id].kind != PFOD
  {
    assert FiledUnder(a.id, h.ledger.drafts.entries[a.id]);
  }

  lemma UnsettledHasNoEntry(h: History, id: string)
    requires Traced(h) && h.ledger.HasDraft(id) && h.ledger.drafts.entries[id].status != SETTLED
    ensures FromDraft(id) !in h.origins
  {
    forall e | 0 <= e < |h.origins| ensures h.origins[e] != FromDraft(id) {
      assert EntryTraced(h, e);
    }
  }
}
