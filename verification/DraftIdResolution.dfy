/** `resolveDraftId` as it runs: it reads the drafts and advances the store's counter. */
module DraftIdResolution {
  import opened Wrappers
  import opened Texts
  import opened Domain
  import opened Ledgers
  import opened Settlements
  import opened Histories
  import opened MemoryStores

  method ResolveId(store: MemoryStore, prefix: string, clientId: string, day: string)
      returns (r: Result<string, Rejection>)
    requires store.Valid()
    modifies store`sequences, store.cache
    ensures store.Valid() && Step(store.State(), r) == ResolveDraftId(old(store.State()), prefix, clientId, day)
    ensures old(store.Synced()) ==> store.Synced()
  {
    var id := Trim(clientId);
    if id != "" {
      var existing := store.GetDraft(id);
      if existing.Some? { return Failure(Rejection(409, "HL-GER-004")); }
    }
    var minted := store.NextId(prefix, day);
    r := Success(minted);
  }
}
