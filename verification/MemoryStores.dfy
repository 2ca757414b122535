/**
 * The mutable store (src/state/memory-store.ts): maps and a log updated in place, and after each
 * update a snapshot of what changed put into the cache. Puts take effect in the order they are
 * issued.
 */
module MemoryStores {
  import opened Wrappers
  import opened OrderedMaps
  import opened Domain
  import opened Ids
  import opened Ledgers
  import opened Caches
  import Dcw

  datatype Snapshot =
    | Wallets(wallets: seq<Wallet>)
    | Drafts(drafts: seq<Draft>)
    | Transactions(transactions: seq<Transaction>)
    | Sequences(sequences: seq<(string, nat)>)

  type Memory = map<string, Slot<Snapshot>>

  datatype Part = WalletPart | DraftPart | LogPart | SequencePart {
    function Key(): string {
      match this
      case WalletPart => "wallets"
      case DraftPart => "drafts"
      case LogPart => "transactions"
      case SequencePart => "sequences"
    }

    /** What is persisted of a ledger: the values in iteration order. */
    function Of(l: Ledger): Snapshot
      requires l.WellFormed()
    {
      match this
      case WalletPart => Wallets(l.wallets.Values())
      case DraftPart => Drafts(l.drafts.Values())
      case LogPart => Transactions(l.log)
      case SequencePart => Sequences(l.sequences.Pairs())
    }
  }

  lemma KeysAreDistinct(p: Part, q: Part)
    ensures p != q ==> p.Key() != q.Key()
    ensures MetaKey(q.Key()) != p.Key()
  {
    assert |WalletPart.Key()| == 7 && |DraftPart.Key()| == 6 && |LogPart.Key()| == 12 && |SequencePart.Key()| == 9;
    assert MetaKey(q.Key())[0] == 'X';
    assert WalletPart.Key()[0] == 'w' && DraftPart.Key()[0] == 'd';
    assert LogPart.Key()[0] == 't' && SequencePart.Key()[0] == 's';
  }

  /** The cached part is the ledger's; a part never written is still empty. */
  ghost predicate PartMirrors(l: Ledger, mem: Memory, p: Part)
    requires l.WellFormed()
  {
    Read(mem, p.Key()) == Some(p.Of(l))
    || (Read(mem, p.Key()) == None && p.Of(l) == p.Of(EmptyLedger(l.day)))
  }

  /** The cache agrees with the ledger. */
  ghost predicate Mirrors(l: Ledger, mem: Memory)
    requires l.WellFormed()
  {
    forall p: Part :: PartMirrors(l, mem, p)
  }

  /** Writing one part through keeps the cache in agreement when only that part changed. */
  lemma WriteThroughMirrors(l: Ledger, m: Ledger, mem: Memory, p: Part)
    requires l.WellFormed() && m.WellFormed() && Mirrors(l, mem)
    requires forall q: Part :: q != p ==> q.Of(m) == q.Of(l)
    ensures Mirrors(m, Put(mem, p.Key(), p.Of(m)))
  {
    forall q: Part ensures PartMirrors(m, Put(mem, p.Key(), p.Of(m)), q) {
      KeysAreDistinct(q, p);
      LastPutIsRead(mem, p.Key(), p.Of(m), q.Key());
      assert PartMirrors(l, mem, q);
    }
  }

  // ----- restart -----

  function WalletPairs(ws: seq<Wallet>): seq<(string, Wallet)> {
    seq(|ws|, i requires 0 <= i < |ws| => (ws[i].alias, ws[i]))
  }

  function DraftPairs(ds: seq<Draft>): seq<(string, Draft)> {
    seq(|ds|, i requires 0 <= i < |ds| => (ds[i].id, ds[i]))
  }

  /** What `hydrate` makes of a store, given what the cache holds. */
  function Hydrated(l: Ledger, mem: Memory): Ledger {
    var ws, ds := Read(mem, WalletPart.Key()), Read(mem, DraftPart.Key());
    var log, seqs := Read(mem, LogPart.Key()), Read(mem, SequencePart.Key());
    Ledger(
      if ws.Some? && ws.value.Wallets? then FromPairs(WalletPairs(ws.value.wallets)) else l.wallets,
      if ds.Some? && ds.value.Drafts? then FromPairs(DraftPairs(ds.value.drafts)) else l.drafts,
      if log.Some? && log.value.Transactions? then log.value.transactions else l.log,
      if seqs.Some? && seqs.value.Sequences? then FromPairs(seqs.value.sequences) else l.sequences,
      l.day)
  }

  lemma ReloadedWallets(l: Ledger)
    requires l.WellFormed()
    ensures FromPairs(WalletPairs(l.wallets.Values())) == l.wallets
  {
    assert WalletPairs(l.wallets.Values()) == l.wallets.Pairs();
    FromPairsOfPairs(l.wallets);
  }

  lemma ReloadedDrafts(l: Ledger)
    requires l.WellFormed()
    ensures FromPairs(DraftPairs(l.drafts.Values())) == l.drafts
  {
    assert DraftPairs(l.drafts.Values()) == l.drafts.Pairs();
    FromPairsOfPairs(l.drafts);
  }

  lemma NothingIsEmpty<V>(m: OrderedMap<V>)
    requires m.Valid() && |m.order| == 0
    ensures m == Empty()
  {
    forall k ensures k !in m.entries { assert k in m.order <==> k in m.entries; }
    assert m.entries == map[];
  }

  /**
   * A restart from an agreeing cache brings the very ledger back, iteration order included; only
   * the business day, which is not persisted, starts anew.
   */
  lemma RestartReproduces(l: Ledger, mem: Memory, day: BusinessDay)
    requires l.WellFormed() && Mirrors(l, mem)
    ensures Hydrated(EmptyLedger(day), mem) == l.(day := day)
  {
    hide FromPairs, WalletPairs, DraftPairs;
    ReloadedWallets(l);
    ReloadedDrafts(l);
    FromPairsOfPairs(l.sequences);
    var e := EmptyLedger(l.day);
    assert PartMirrors(l, mem, WalletPart) && PartMirrors(l, mem, DraftPart);
    assert PartMirrors(l, mem, LogPart) && PartMirrors(l, mem, SequencePart);
    if Read(mem, WalletPart.Key()) == None {
      assert |l.wallets.Values()| == |e.wallets.Values()| == 0;
      NothingIsEmpty(l.wallets);
    }
    if Read(mem, DraftPart.Key()) == None {
      assert |l.drafts.Values()| == |e.drafts.Values()| == 0;
      NothingIsEmpty(l.drafts);
    }
    if Read(mem, SequencePart.Key()) == None {
      assert |l.sequences.Pairs()| == |e.sequences.Pairs()| == 0;
      NothingIsEmpty(l.sequences);
    }
  }

  lemma DayIsNotPersisted(l: Ledger, day: BusinessDay, mem: Memory)
    requires l.WellFormed() && Mirrors(l, mem)
    ensures Mirrors(l.(day := day), mem)
  {
    forall p: Part ensures PartMirrors(l.(day := day), mem, p) {
      assert PartMirrors(l, mem, p);
    }
  }

  /** Two caches that read alike mirror alike. */
  lemma ReadsAlike(l: Ledger, mem: Memory, other: Memory)
    requires l.WellFormed() && Mirrors(l, mem) && forall key :: Read(other, key) == Read(mem, key)
    ensures Mirrors(l, other)
  {
    forall p: Part ensures PartMirrors(l, other, p) {
      assert PartMirrors(l, mem, p);
    }
  }

  // ----- the store -----

  class MemoryStore {
    var wallets: OrderedMap<Wallet>
    var transactions: seq<Transaction>
    var drafts: OrderedMap<Draft>
    var sequences: OrderedMap<nat>
    var businessWindow: BusinessDay
    const cache: CacheMemory?<Snapshot>
    const defaultDay: BusinessDay

    function State(): Ledger
      reads this
    {
      Ledger(wallets, drafts, transactions, sequences, businessWindow)
    }

    ghost predicate Valid()
      reads this
    {
      State().WellFormed()
    }

    /** What is persisted agrees with what is in memory. */
    ghost predicate Synced()
      reads this, cache
      requires Valid()
    {
      cache != null ==> Mirrors(State(), cache.mem)
    }

    constructor (cache: CacheMemory?<Snapshot>, day: BusinessDay)
      ensures this.cache == cache && defaultDay == day
      ensures State() == EmptyLedger(day) && Valid()
      ensures cache != null && cache.mem == map[] ==> Synced()
    {
      this.cache, defaultDay := cache, day;
      wallets, transactions, drafts, sequences := Empty(), [], Empty(), Empty();
      businessWindow := day;
    }

    /** Write one part through; nothing happens without a cache. */
    method Persist(p: Part)
      requires Valid()
      modifies cache
      ensures cache != null ==> cache.mem == Put(old(cache.mem), p.Key(), p.Of(State()))
    {
      if cache != null {
        match p
        case WalletPart => cache.PutEntry(p.Key(), Wallets(wallets.Values()));
        case DraftPart => cache.PutEntry(p.Key(), Drafts(drafts.Values()));
        case LogPart => cache.PutEntry(p.Key(), Transactions(transactions));
        case SequencePart => cache.PutEntry(p.Key(), Sequences(sequences.Pairs()));
      }
    }

    /** Load what is persisted, once, at startup. */
    method Hydrate()
      requires Valid()
      modifies this, cache
      ensures State() == if cache == null then old(State()) else Hydrated(old(State()), old(cache.mem))
      ensures cache != null ==> forall key :: Read(cache.mem, key) == Read(old(cache.mem), key)
    {
      hide FromPairs, WalletPairs, DraftPairs;
      if cache == null { return; }
      var ws := Fetch(WalletPart);
      if ws.Some? && ws.value.Wallets? { wallets := FromPairs(WalletPairs(ws.value.wallets)); }
      var ds := Fetch(DraftPart);
      if ds.Some? && ds.value.Drafts? { drafts := FromPairs(DraftPairs(ds.value.drafts)); }
      var log := Fetch(LogPart);
      if log.Some? && log.value.Transactions? { transactions := log.value.transactions; }
      var seqs := Fetch(SequencePart);
      if seqs.Some? && seqs.value.Sequences? { sequences := FromPairs(seqs.value.sequences); }
    }

    method Fetch(p: Part) returns (r: Option<Snapshot>)
      requires cache != null
      modifies cache
      ensures r == Read(old(cache.mem), p.Key())
      ensures forall key :: Read(cache.mem, key) == Read(old(cache.mem), key)
    {
      ghost var mem := cache.mem;
      r := cache.GetEntry(p.Key());
      forall key ensures Read(cache.mem, key) == Read(mem, key) { ReadingIsHarmless(mem, p.Key(), key); }
    }

    method GetWallet(alias: string) returns (w: Option<Wallet>)
      ensures w == if State().HasWallet(alias) then Some(State().wallets.entries[alias]) else None
    {
      w := if wallets.Has(alias) then Some(wallets.Get(alias)) else None;
    }

    method UpsertWallet(w: Wallet)
      requires Valid()
      modifies this`wallets, cache
      ensures Valid() && State() == old(State()).UpsertWallet(w)
      ensures old(Synced()) ==> Synced()
    {
      ghost var before := State();
      UpsertKeepsWellFormed(before, w);
      wallets := wallets.Set(w.alias, w);
      if old(Synced()) && cache != null { WriteThroughMirrors(before, State(), cache.mem, WalletPart); }
      Persist(WalletPart);
    }

    method EnsureWallet(alias: string, opts: WalletOptions, now: int) returns (w: Wallet)
      requires Valid()
      modifies this`wallets, cache
      ensures Valid() && State() == old(State()).EnsureWallet(alias, opts, now)
      ensures State().HasWallet(alias) && w == State().wallets.entries[alias]
      ensures old(Synced()) ==> Synced()
    {
      if wallets.Has(alias) { return wallets.Get(alias); }
      w := Dcw.CreateDcw(alias, opts, now);
      UpsertWallet(w);
    }

    /** Write a wallet operation back if it did not throw. */
    method StoreResult(next: Result<Wallet, DcwError>)
      requires Valid()
      modifies this`wallets, cache
      ensures Valid() && State() == old(State()).Store(next)
      ensures old(Synced()) ==> Synced()
    {
      if next.Success? { UpsertWallet(next.value); }
    }

    method Credit(alias: string, amount: string) returns (r: Result<Wallet, DcwError>)
      requires Valid()
      modifies this`wallets, cache
      ensures Valid() && r == old(State()).Credit(alias, amount) && State() == old(State()).Store(r)
      ensures old(Synced()) ==> Synced()
    {
      if !wallets.Has(alias) { return Failure(WalletNotFound); }
      r := Dcw.WithCredit(wallets.Get(alias), amount);
      StoreResult(r);
    }

    method Debit(alias: string, amount: string, caller: Caller, now: int) returns (r: Result<Wallet, DcwError>)
      requires Valid()
      modifies this`wallets, cache
      ensures Valid() && r == old(State()).Debit(alias, amount, caller, now) && State() == old(State()).Store(r)
      ensures old(Synced()) ==> Synced()
    {
      if !wallets.Has(alias) { return Failure(WalletNotFound); }
      var denial := Dcw.DebitDenial(wallets.Get(alias), caller, now);
      if denial.Some? { return Failure(DebitDenied(denial.value)); }
      r := Dcw.WithDebit(wallets.Get(alias), amount);
      StoreResult(r);
    }

    method Lock(alias: string, amount: string) returns (r: Result<Wallet, DcwError>)
      requires Valid()
      modifies this`wallets, cache
      ensures Valid() && r == old(State()).Lock(alias, amount) && State() == old(State()).Store(r)
      ensures old(Synced()) ==> Synced()
    {
      if !wallets.Has(alias) { return Failure(WalletNotFound); }
      r := Dcw.WithLock(wallets.Get(alias), amount);
      StoreResult(r);
    }

    method Release(alias: string, amount: string) returns (r: Result<Wallet, DcwError>)
      requires Valid()
      modifies this`wallets, cache
      ensures Valid() && r == old(State()).Release(alias, amount) && State() == old(State()).Store(r)
      ensures old(Synced()) ==> Synced()
    {
      if !wallets.Has(alias) { return Failure(WalletNotFound); }
      r := Dcw.WithRelease(wallets.Get(alias), amount);
      StoreResult(r);
    }

    method SettleLocked(alias: string, amount: string) returns (r: Result<Wallet, DcwError>)
      requires Valid()
      modifies this`wallets, cache
      ensures Valid() && r == old(State()).SettleLocked(alias, amount) && State() == old(State()).Store(r)
      ensures old(Synced()) ==> Synced()
    {
      if !wallets.Has(alias) { return Failure(WalletNotFound); }
      r := Dcw.WithSettleLocked(wallets.Get(alias), amount);
      StoreResult(r);
    }

    method CanDebit(alias: string, caller: Caller, now: int) returns (denial: Option<Denial>)
      ensures denial == State().CanDebit(alias, caller, now)
    {
      if !wallets.Has(alias) { return Some(NoSuchWallet); }
      denial := Dcw.DebitDenial(wallets.Get(alias), caller, now);
    }

    method AddTransaction(tx: Transaction)
      requires Valid()
      modifies this`transactions, cache
      ensures Valid() && State() == old(State()).AddTransaction(tx)
      ensures old(Synced()) ==> Synced()
    {
      ghost var before := State();
      transactions := transactions + [tx];
      if old(Synced()) && cache != null { WriteThroughMirrors(before, State(), cache.mem, LogPart); }
      Persist(LogPart);
    }

    method GetDraft(id: string) returns (d: Option<Draft>)
      ensures d == if State().HasDraft(id) then Some(State().drafts.entries[id]) else None
    {
      d := if drafts.Has(id) then Some(drafts.Get(id)) else None;
    }

    method AddDraft(draft: Draft)
      requires Valid()
      modifies this`drafts, cache
      ensures Valid() && State() == old(State()).AddDraft(draft)
      ensures old(Synced()) ==> Synced()
    {
      ghost var before := State();
      AddDraftKeepsWellFormed(before, draft);
      drafts := drafts.Set(draft.id, draft);
      if old(Synced()) && cache != null { WriteThroughMirrors(before, State(), cache.mem, DraftPart); }
      Persist(DraftPart);
    }

    method UpdateDraft(id: string, update: DraftUpdate, now: int)
      requires Valid()
      modifies this`drafts, cache
      ensures Valid() && State() == old(State()).UpdateDraft(id, update, now)
      ensures old(Synced()) ==> Synced()
    {
      if drafts.Has(id) {
        ghost var before := State();
        UpdateDraftKeepsWellFormed(before, id, update, now);
        drafts := drafts.Set(id, Merge(drafts.Get(id), update, now));
        if old(Synced()) && cache != null { WriteThroughMirrors(before, State(), cache.mem, DraftPart); }
        Persist(DraftPart);
      }
    }

    method NextId(prefix: string, day: string) returns (id: string)
      requires Valid()
      modifies this`sequences, cache
      ensures Valid() && State() == old(State()).AdvanceSequence(prefix, day)
      ensures id == old(State()).NextId(prefix, day)
      ensures old(Synced()) ==> Synced()
    {
      ghost var before := State();
      AdvanceKeepsWellFormed(before, prefix, day);
      var key := SequenceKey(prefix, day);
      var next := (if sequences.Has(key) then sequences.Get(key) else 0) + 1;
      sequences := sequences.Set(key, next);
      if old(Synced()) && cache != null { WriteThroughMirrors(before, State(), cache.mem, SequencePart); }
      Persist(SequencePart);
      id := MintedId(prefix, day, next);
    }

    /** The business day is not persisted. */
    method SetBusinessDay(day: BusinessDay)
      requires Valid()
      modifies this`businessWindow
      ensures Valid() && State() == old(State()).(day := day)
      ensures old(Synced()) ==> Synced()
    {
      ghost var before := State();
      businessWindow := day;
      if old(Synced()) && cache != null { DayIsNotPersisted(before, day, cache.mem); }
    }

    /** Everything goes, and the cache is told so whatever it held. */
    method Reset()
      requires Valid()
      modifies this, cache
      ensures Valid() && State() == EmptyLedger(defaultDay) && Synced()
    {
      wallets, transactions, drafts, sequences := Empty(), [], Empty(), Empty();
      businessWindow := defaultDay;
      ghost var l := State();
      Persist(WalletPart);
      ghost var mem1 := if cache != null then cache.mem else map[];
      Persist(DraftPart);
      ghost var mem2 := if cache != null then cache.mem else map[];
      Persist(LogPart);
      ghost var mem3 := if cache != null then cache.mem else map[];
      Persist(SequencePart);
      if cache != null {
        assert cache.mem == Put(mem3, SequencePart.Key(), SequencePart.Of(l));
        FourPutsMirror(l, old(cache.mem));
      }
    }
  }

  function PutPart(l: Ledger, mem: Memory, p: Part): Memory
    requires l.WellFormed()
  {
    Put(mem, p.Key(), p.Of(l))
  }

  lemma FourPutsMirror(l: Ledger, mem: Memory)
    requires l.WellFormed()
    ensures var m := PutPart(l, PutPart(l, mem, WalletPart), DraftPart);
      Mirrors(l, PutPart(l, PutPart(l, m, LogPart), SequencePart))
  {
    var m1 := PutPart(l, mem, WalletPart);
    var m2 := PutPart(l, m1, DraftPart);
    var m3 := PutPart(l, m2, LogPart);
    var m4 := PutPart(l, m3, SequencePart);
    forall p: Part ensures PartMirrors(l, m4, p) {
      PutReadsBack(l, mem, WalletPart, p);
      PutReadsBack(l, m1, DraftPart, p);
      PutReadsBack(l, m2, LogPart, p);
      PutReadsBack(l, m3, SequencePart, p);
    }
  }

  lemma PutReadsBack(l: Ledger, mem: Memory, p: Part, q: Part)
    requires l.WellFormed()
    ensures Read(PutPart(l, mem, p), q.Key()) == if q == p then Some(p.Of(l)) else Read(mem, q.Key())
  {
    KeysAreDistinct(q, p);
    LastPutIsRead(mem, p.Key(), p.Of(l), q.Key());
  }

  /** A new process: a fresh store, hydrated from the cache the old one wrote through to. */
  method Restart(cache: CacheMemory<Snapshot>, day: BusinessDay, ghost l: Ledger) returns (store: MemoryStore)
    requires l.WellFormed() && Mirrors(l, cache.mem)
    modifies cache
    ensures fresh(store) && store.cache == cache
    ensures store.State() == l.(day := day) && store.Valid() && store.Synced()
  {
    ghost var mem := cache.mem;
    store := new MemoryStore(cache, day);
    store.Hydrate();
    RestartReproduces(l, mem, day);
    DayIsNotPersisted(l, day, mem);
    ReadsAlike(l.(day := day), mem, cache.mem);
  }
}
