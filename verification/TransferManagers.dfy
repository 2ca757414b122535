/**
 * The manager rules of a transfer (src/workflows/transfer.ts) are checked once, at creation, and hold
 * for as long as the draft stands: no later operation moves a wallet to another manager.
 */
module TransferManagers {
  import opened Wrappers
  import opened OrderedMaps
  import opened Domain
  import opened Ledgers
  import opened Settlements
  import opened Histories
  import opened Accounts
  import opened DraftTable
  import opened Lifecycle

  function ManagerOf(l: Ledger, alias: string): string
    requires l.HasWallet(alias)
  {
    l.wallets.entries[alias].managerNCB
  }

  /** The wallet is managed by whom the caller says manages it, if the caller says anything. */
  predicate ManagedAsClaimed(l: Ledger, alias: string, claimed: string)
    requires l.HasWallet(alias)
  {
    claimed != "" ==> claimed == ManagerOf(l, alias)
  }

  /** An operation stays with one manager, and a payment goes from one manager to another. */
  predicate RequestTypeFits(l: Ledger, debited: string, credited: string, requestType: string)
    requires l.HasWallet(debited) && l.HasWallet(credited)
  {
    && (requestType == "OPERATION" ==> ManagerOf(l, debited) == ManagerOf(l, credited))
    && (requestType == "PAYMENT" ==> ManagerOf(l, debited) != ManagerOf(l, credited))
  }

  /** What a transfer between two wallets may say of their managers. */
  predicate ManagersAgree(l: Ledger, d: Draft)
    requires l.HasWallet(d.debitedWalletAlias) && l.HasWallet(d.creditedWalletAlias)
  {
    && ManagedAsClaimed(l, d.debitedWalletAlias, d.debitedCashWalletManagerID)
    && ManagedAsClaimed(l, d.creditedWalletAlias, d.creditedCashWalletManagerID)
    && RequestTypeFits(l, d.debitedWalletAlias, d.creditedWalletAlias, d.cbdcRequestType)
  }

  /** Between wallets that exist, a transfer is let through exactly when its managers agree. */
  lemma ConditionsDecideManagers(l: Ledger, record: Draft)
    requires l.HasWallet(record.debitedWalletAlias) && l.HasWallet(record.creditedWalletAlias)
    ensures TransferConditions(l, record).None? <==> ManagersAgree(l, record)
  {
  }

  /** The wallets a transfer names are there and managed as claimed; one it does not name is never asked for. */
  ghost predicate TransferFits(l: Ledger, d: Draft) {
    d.kind == TRANSFER ==>
      && WalletFits(l, d.debitedWalletAlias, d.debitedCashWalletManagerID)
      && WalletFits(l, d.creditedWalletAlias, d.creditedCashWalletManagerID)
      && (d.debitedWalletAlias != "" && d.creditedWalletAlias != "" ==> ManagersAgree(l, d))
  }

  ghost predicate WalletFits(l: Ledger, alias: string, claimed: string) {
    alias != "" ==> l.HasWallet(alias) && ManagedAsClaimed(l, alias, claimed)
  }

  lemma CreatedTransferFits(l: Ledger, wf: Workflow, init: WorkflowInit, actor: Actor, now: int)
    requires IsTwoStep(wf)
    requires Create(l, wf, init, actor, now).result.Success?
    ensures TransferFits(l, BuildRecord(wf, init, PENDING_APPROVAL, now))
  {
  }

  lemma SameWalletsFit(l: Ledger, m: Ledger, d: Draft, e: Draft)
    requires TransferFits(l, d) && SameAgreement(d, e)
    requires forall alias :: l.HasWallet(alias) ==>
      m.HasWallet(alias) && Fixed(m.wallets.entries[alias]) == Fixed(l.wallets.entries[alias])
    ensures TransferFits(m, e)
  {
    forall alias | l.HasWallet(alias) ensures m.HasWallet(alias) && ManagerOf(m, alias) == ManagerOf(l, alias) {
      assert Fixed(m.wallets.entries[alias]).managerNCB == Fixed(l.wallets.entries[alias]).managerNCB;
    }
  }

  lemma ActKeepsTransferFit(h: History, a: Action, id: string)
    requires Sound(h) && Legal(h, a) && h.ledger.HasDraft(id)
    requires h.ledger.drafts.entries[id].kind == TRANSFER && TransferFits(h.ledger, h.ledger.drafts.entries[id])
    ensures Act(h, a).ledger.HasDraft(id) && TransferFits(Act(h, a).ledger, Act(h, a).ledger.drafts.entries[id])
  {
    hide Act, Legal, TransferFits, Fixed;
    ActEvolves(h, a, id);
    forall alias | h.ledger.HasWallet(alias)
      ensures Act(h, a).ledger.HasWallet(alias)
      ensures Fixed(Act(h, a).ledger.wallets.entries[alias]) == Fixed(h.ledger.wallets.entries[alias])
    {
      WalletsStay(h, a, alias);
    }
    SameWalletsFit(h.ledger, Act(h, a).ledger, h.ledger.drafts.entries[id], Act(h, a).ledger.drafts.entries[id]);
  }

  lemma OpenedTransferFits(h: History, a: Action, id: string)
    requires Sound(h) && Legal(h, a) && !h.ledger.HasDraft(id) && Act(h, a).ledger.HasDraft(id)
    requires Act(h, a).ledger.drafts.entries[id].kind == TRANSFER
    ensures TransferFits(Act(h, a).ledger, Act(h, a).ledger.drafts.entries[id])
  {
    hide Create, BuildRecord, TransferFits;
    NewDraftsAreOpen(h, a, id);
    if a.OpenDraft? {
      OpenedByItsWorkflow(h, a, id);
    } else {
      InitOpensNoTransfer(h, a, id);
    }
  }

  lemma OpenedByItsWorkflow(h: History, a: Action, id: string)
    requires Legal(h, a) && a.OpenDraft? && !h.ledger.HasDraft(id) && Act(h, a).ledger.HasDraft(id)
    ensures TransferFits(Act(h, a).ledger, Act(h, a).ledger.drafts.entries[id])
  {
    hide TransferFits, Refusal, BuildRecord;
    var l, prefix := h.ledger, PrefixOf(a.wf);
    var init := a.init.(id := l.NextId(prefix, a.day));
    RecordIsFiled(a.wf, init, a.now);
    CreatedTransferFits(l.AdvanceSequence(prefix, a.day), a.wf, init, a.actor, a.now);
    FitsAreAboutWallets(l.AdvanceSequence(prefix, a.day), Act(h, a).ledger, Act(h, a).ledger.drafts.entries[id]);
  }

  lemma RecordIsFiled(wf: Workflow, init: WorkflowInit, now: int)
    ensures BuildRecord(wf, init, PENDING_APPROVAL, now).id == init.id
  {
  }

  lemma FitsAreAboutWallets(l: Ledger, m: Ledger, d: Draft)
    requires m.wallets == l.wallets && TransferFits(l, d)
    ensures TransferFits(m, d)
  {
  }

  lemma InitOpensNoTransfer(h: History, a: Action, id: string)
    requires a.InitXvp? && !h.ledger.HasDraft(id) && Act(h, a).ledger.HasDraft(id)
    ensures Act(h, a).ledger.drafts.entries[id].kind == XVP
  {
  }

  /**
   * In every state of every run, a stored transfer, pending, settled or canceled, still has its wallets,
   * managed as its caller claimed and as its request type asks.
   */
  lemma {:induction false} TransfersKeepTheirManagers(hs: seq<History>, actions: seq<Action>, i: nat, id: string)
    requires IsRun(hs, actions) && i < |hs|
    ensures hs[i].ledger.HasDraft(id) ==> TransferFits(hs[i].ledger, hs[i].ledger.drafts.entries[id])
  {
    hide Act, Legal, TransferFits, Sound;
    if i == 0 {
      var day :| hs[0] == Start(day);
      NothingStoredYet(day, id);
    } else if hs[i].ledger.HasDraft(id) {
      EveryRunIsSound(hs, actions, i - 1);
      var l, m := hs[i - 1].ledger, hs[i].ledger;
      if m.drafts.entries[id].kind != TRANSFER {
        OnlyTransfers(m, m.drafts.entries[id]);
      } else if l.HasDraft(id) {
        TransfersKeepTheirManagers(hs, actions, i - 1, id);
        WasTransfer(hs[i - 1], actions[i - 1], id);
        ActKeepsTransferFit(hs[i - 1], actions[i - 1], id);
      } else {
        OpenedTransferFits(hs[i - 1], actions[i - 1], id);
      }
    }
  }

  lemma NothingStoredYet(day: BusinessDay, id: string)
    ensures !Start(day).ledger.HasDraft(id)
  {
  }

  lemma OnlyTransfers(l: Ledger, d: Draft)
    requires d.kind != TRANSFER
    ensures TransferFits(l, d)
  {
  }

  lemma WasTransfer(h: History, a: Action, id: string)
    requires Sound(h) && Legal(h, a) && h.ledger.HasDraft(id) && Act(h, a).ledger.HasDraft(id)
    requires Act(h, a).ledger.drafts.entries[id].kind == TRANSFER
    ensures h.ledger.drafts.entries[id].kind == TRANSFER
  {
    hide Act, Legal;
    KindsStay(h, a, id);
    ActEvolves(h, a, id);
  }
}
