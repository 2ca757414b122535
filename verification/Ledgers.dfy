/**
 * The value of the shared store (src/state/memory-store.ts) and what each of its operations
 * makes of it. MemoryStores ties the mutable class to these functions.
 */
module Ledgers {
  import opened Wrappers
  import opened OrderedMaps
  import opened Domain
  import opened Ids
  import Dcw

  datatype Ledger = Ledger(
    wallets: OrderedMap<Wallet>,
    drafts: OrderedMap<Draft>,
    log: seq<Transaction>,
    sequences: OrderedMap<nat>,
    day: BusinessDay)
  {
    /** Both tables list each key once, and every record is filed under its own name. */
    ghost predicate WellFormed() {
      && wallets.Valid() && drafts.Valid() && sequences.Valid()
      && (forall alias :: alias in wallets.entries ==> wallets.entries[alias].alias == alias)
      && (forall id :: id in drafts.entries ==> drafts.entries[id].id == id)
    }

    predicate HasWallet(alias: string) {
      wallets.Has(alias)
    }

    predicate HasDraft(id: string) {
      drafts.Has(id)
    }

    function UpsertWallet(w: Wallet): Ledger {
      this.(wallets := wallets.Set(w.alias, w))
    }

    function EnsureWallet(alias: string, opts: WalletOptions, now: int): Ledger {
      if HasWallet(alias) then this else UpsertWallet(Dcw.CreateDcw(alias, opts, now))
    }

    function Credit(alias: string, amount: string): Result<Wallet, DcwError> {
      if !HasWallet(alias) then Failure(WalletNotFound) else Dcw.WithCredit(wallets.entries[alias], amount)
    }

    function Debit(alias: string, amount: string, caller: Caller, now: int): Result<Wallet, DcwError> {
      if !HasWallet(alias) then Failure(WalletNotFound)
      else
        var denial := Dcw.DebitDenial(wallets.entries[alias], caller, now);
        if denial.Some? then Failure(DebitDenied(denial.value)) else Dcw.WithDebit(wallets.entries[alias], amount)
    }

    function Lock(alias: string, amount: string): Result<Wallet, DcwError> {
      if !HasWallet(alias) then Failure(WalletNotFound) else Dcw.WithLock(wallets.entries[alias], amount)
    }

    function Release(alias: string, amount: string): Result<Wallet, DcwError> {
      if !HasWallet(alias) then Failure(WalletNotFound) else Dcw.WithRelease(wallets.entries[alias], amount)
    }

    function SettleLocked(alias: string, amount: string): Result<Wallet, DcwError> {
      if !HasWallet(alias) then Failure(WalletNotFound) else Dcw.WithSettleLocked(wallets.entries[alias], amount)
    }

    /** A wallet operation that succeeds is written back; one that throws changes nothing. */
    function Store(next: Result<Wallet, DcwError>): Ledger {
      if next.Success? then UpsertWallet(next.value) else this
    }

    function CanDebit(alias: string, caller: Caller, now: int): Option<Denial> {
      if !HasWallet(alias) then Some(NoSuchWallet) else Dcw.DebitDenial(wallets.entries[alias], caller, now)
    }

    function AddTransaction(tx: Transaction): Ledger {
      this.(log := log + [tx])
    }

    function AddDraft(draft: Draft): Ledger {
      this.(drafts := drafts.Set(draft.id, draft))
    }

    function UpdateDraft(id: string, update: DraftUpdate, now: int): Ledger {
      if !HasDraft(id) then this
      else this.(drafts := drafts.Set(id, Merge(drafts.entries[id], update, now)))
    }

    function NextSequence(prefix: string, day: string): nat {
      var key := SequenceKey(prefix, day);
      if sequences.Has(key) then sequences.entries[key] + 1 else 1
    }

    function AdvanceSequence(prefix: string, day: string): Ledger {
      this.(sequences := sequences.Set(SequenceKey(prefix, day), NextSequence(prefix, day)))
    }

    function NextId(prefix: string, day: string): string {
      MintedId(prefix, day, NextSequence(prefix, day))
    }

    /** Iteration order of the wallets, `getWallets()` without a caller. */
    function GetWallets(): seq<Wallet>
      requires WellFormed()
    {
      wallets.Values()
    }
  }

  function Merge(d: Draft, u: DraftUpdate, now: int): Draft {
    d.(
      status := if u.status.Some? then u.status.value else d.status,
      debitedWalletAlias := if u.debitedWalletAlias.Some? then u.debitedWalletAlias.value else d.debitedWalletAlias,
      approverUserUUID := if u.approver.Some? then u.approver.value.0 else d.approverUserUUID,
      approverUserName := if u.approver.Some? then u.approver.value.1 else d.approverUserName,
      supplementaryData := if u.supplementaryData.Some? then u.supplementaryData.value else d.supplementaryData,
      historicStatus := if u.trail.Some? then Some(u.trail.value.0) else d.historicStatus,
      timestamps := if u.trail.Some? then u.trail.value.1 else d.timestamps,
      updatedAt := now)
  }

  /** A store just created, or just reset. */
  function EmptyLedger(day: BusinessDay): Ledger {
    Ledger(Empty(), Empty(), [], Empty(), day)
  }

  lemma UpsertKeepsWellFormed(l: Ledger, w: Wallet)
    requires l.WellFormed()
    ensures l.UpsertWallet(w).WellFormed()
  {
    SetKeepsValid(l.wallets, w.alias, w);
  }

  lemma AddDraftKeepsWellFormed(l: Ledger, d: Draft)
    requires l.WellFormed()
    ensures l.AddDraft(d).WellFormed()
  {
    SetKeepsValid(l.drafts, d.id, d);
  }

  lemma UpdateDraftKeepsWellFormed(l: Ledger, id: string, update: DraftUpdate, now: int)
    requires l.WellFormed()
    ensures l.UpdateDraft(id, update, now).WellFormed()
  {
    if l.HasDraft(id) {
      SetKeepsValid(l.drafts, id, Merge(l.drafts.entries[id], update, now));
    }
  }

  lemma AdvanceKeepsWellFormed(l: Ledger, prefix: string, day: string)
    requires l.WellFormed()
    ensures l.AdvanceSequence(prefix, day).WellFormed()
  {
    SetKeepsValid(l.sequences, SequenceKey(prefix, day), l.NextSequence(prefix, day));
  }
}
