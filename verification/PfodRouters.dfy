/**
 * The PFoD routes as they run: each handler checks its request, stores its leg and tries to match.
 */
module PfodRouters {
  import opened Wrappers
  import opened OrderedMaps
  import opened Domain
  import opened Ids
  import opened Ledgers
  import opened Settlements
  import opened Pfods
  import opened MemoryStores
  import opened LedgerWorkflows

  class PfodRouter {
    const store: MemoryStore
    const workflow: LedgerWorkflow

    constructor (store: MemoryStore)
      ensures this.store == store && fresh(workflow) && workflow.store == store && workflow.kind == Pfod
    {
      this.store := store;
      workflow := new LedgerWorkflow(store, Pfod);
    }

    ghost predicate Valid()
      reads this, store
    {
      workflow.store == store && workflow.kind == Pfod && store.Valid()
    }

    method StoreLeg(id: string, r: LegRequest, debited: string, credited: string, now: int)
      requires Valid()
      modifies store`drafts, store.cache
      ensures Valid() && store.State() == old(store.State()).AddDraft(Leg(id, r, debited, credited, now))
      ensures old(store.Synced()) ==> store.Synced()
    {
      store.AddDraft(Draft(
        id, PFOD, PENDING_MATCH, r.amount, r.currency, credited, debited, now, now, r.initiatorUserUUID, "", "",
        Some(now + MATCH_WINDOW_SEC * 1000), Text(r.tradeID), "", "", "", None, map[], ""));
    }

    method TryMatchTrade(tradeID: string, now: int) returns (answer: Answer)
      requires Valid()
      modifies store`wallets, store`drafts, store`transactions, store.cache
      ensures Valid() && (store.State(), answer) == TryMatch(old(store.State()), tradeID, now)
      ensures old(store.Synced()) ==> store.Synced()
    {
      LegIdsInjective(tradeID, tradeID);
      answer := MatchStored(DeliverId(tradeID), ReceiveId(tradeID), tradeID, now);
    }

    method MatchStored(deli: string, rece: string, tradeID: string, now: int) returns (answer: Answer)
      requires Valid() && deli != rece
      modifies store`wallets, store`drafts, store`transactions, store.cache
      ensures Valid() && (store.State(), answer) == MatchLegs(old(store.State()), deli, rece, tradeID, now)
      ensures old(store.Synced()) ==> store.Synced()
    {
      var deliver := store.GetDraft(deli);
      var receive := store.GetDraft(rece);
      if deliver.None? || receive.None? { return AwaitingMatch; }
      if Expired(deliver.value, now) || Expired(receive.value, now) {
        if Expired(deliver.value, now) { store.UpdateDraft(deli, NoUpdate.(status := Some(EXPIRED)), now); }
        if Expired(receive.value, now) { store.UpdateDraft(rece, NoUpdate.(status := Some(EXPIRED)), now); }
        return LegExpired;
      }
      if deliver.value.status != PENDING_MATCH || receive.value.status != PENDING_MATCH {
        return LegStatus(deliver.value.status);
      }
      if deliver.value.amount != receive.value.amount || deliver.value.currency != receive.value.currency {
        return Inconsistent;
      }
      answer := SettleLegs(deli, rece, tradeID, now);
    }

    /** The DELI submitter is credited, the RECE submitter debited, on the debited owner's behalf. */
    method SettleLegs(deli: string, rece: string, tradeID: string, now: int) returns (answer: Answer)
      requires Valid() && store.State().HasDraft(deli) && store.State().HasDraft(rece)
      modifies store`wallets, store`drafts, store`transactions, store.cache
      ensures Valid() && (store.State(), answer) == Fire(old(store.State()), deli, rece, tradeID, now)
      ensures old(store.Synced()) ==> store.Synced()
    {
      var deliver, receive := store.drafts.Get(deli), store.drafts.Get(rece);
      var debited := store.GetWallet(receive.creditedWalletAlias);
      var caller := if debited.Some? then Caller(debited.value.ownerEntityID, "") else Anonymous;
      var paid := workflow.ExecuteNow(MatchInit(tradeID, deliver, receive), Actor(caller, "", ""), "", now);
      if paid.Failure? { return SettlementRejected(paid.error); }
      store.UpdateDraft(deli, NoUpdate.(status := Some(SETTLED)), now);
      store.UpdateDraft(rece, NoUpdate.(status := Some(SETTLED)), now);
      answer := Matched;
    }

    method PostDeliver(r: LegRequest, now: int) returns (answer: Answer)
      requires Valid()
      modifies store`wallets, store`drafts, store`transactions, store.cache
      ensures Valid() && (store.State(), answer) == SubmitDeliver(old(store.State()), r, now)
      ensures old(store.Synced()) ==> store.Synced()
    {
      if r.tradeID == "" || r.amount == "" || r.currency == "" || r.walletRef == "" {
        return Invalid(Rejection(400, "HL-VAL-001"));
      }
      var w := store.GetWallet(r.walletRef);
      if w.None? { return Invalid(Rejection(422, "HL-WAL-002")); }
      StoreLeg(DeliverId(r.tradeID), r, r.walletRef, "", now);
      answer := TryMatchTrade(r.tradeID, now);
    }

    method PostReceive(r: LegRequest, now: int) returns (answer: Answer)
      requires Valid()
      modifies store`wallets, store`drafts, store`transactions, store.cache
      ensures Valid() && (store.State(), answer) == SubmitReceive(old(store.State()), r, now)
      ensures old(store.Synced()) ==> store.Synced()
    {
      if r.tradeID == "" || r.amount == "" || r.currency == "" || r.walletRef == "" || r.sellerCAMBIC == "" {
        return Invalid(Rejection(400, "HL-VAL-001"));
      }
      var w := store.GetWallet(r.walletRef);
      if w.None? { return Invalid(Rejection(422, "HL-WAL-003")); }
      var deliver := store.GetDraft(DeliverId(r.tradeID));
      if deliver.None? || deliver.value.status != PENDING_MATCH { return Invalid(Rejection(500, "HL-GER-000")); }
      StoreLeg(ReceiveId(r.tradeID), r, "", r.walletRef, now);
      answer := TryMatchTrade(r.tradeID, now);
    }
  }
}
