/** Which wallet a participant uses, and why a default once resolved stays the same. */
module ParticipantWallets {
  import opened Wrappers
  import opened OrderedMaps
  import opened Domain
  import opened Ledgers
  import opened Settlements
  import opened Histories
  import opened Accounts
  import opened Reconciliation
  import opened MemoryStores
  import opened Caches

  datatype Reason = WALLET_NOT_FOUND | NO_PARTICIPANT_WALLET

  function OwnedBy(ws: seq<Wallet>, bic: string): seq<Wallet> {
    if ws == [] then [] else (if ws[0].ownerEntityID == bic then [ws[0]] else []) + OwnedBy(ws[1..], bic)
  }

  function FirstMain(ws: seq<Wallet>): Option<Wallet> {
    if ws == [] then None else if ws[0].isMainWallet then Some(ws[0]) else FirstMain(ws[1..])
  }

  function ResolveParticipantWallet(l: Ledger, bic: string, explicitAlias: string): Result<Wallet, Reason>
    requires l.WellFormed()
  {
    if explicitAlias != "" then
      if !l.HasWallet(explicitAlias) || (bic != "" && l.wallets.entries[explicitAlias].ownerEntityID != bic) then
        Failure(WALLET_NOT_FOUND)
      else Success(l.wallets.entries[explicitAlias])
    else
      var owned := if bic != "" then OwnedBy(l.GetWallets(), bic) else [];
      var main := FirstMain(owned);
      if main.Some? then Success(main.value)
      else if owned != [] then Success(owned[0])
      else Failure(NO_PARTICIPANT_WALLET)
  }

  /** The default choice, by its place in the store: the first main wallet owned, or else the first owned. */
  ghost predicate FirstChoice(ws: seq<Wallet>, bic: string, i: nat)
    requires i < |ws|
  {
    && ws[i].ownerEntityID == bic
    && (if ws[i].isMainWallet then forall j :: 0 <= j < i ==> !(ws[j].ownerEntityID == bic && ws[j].isMainWallet)
        else
          && (forall j :: 0 <= j < |ws| && ws[j].ownerEntityID == bic ==> !ws[j].isMainWallet)
          && (forall j :: 0 <= j < i ==> ws[j].ownerEntityID != bic))
  }

  /** The first main wallet owned is where the filtered list has it. */
  lemma {:induction false} FirstMainPlace(ws: seq<Wallet>, bic: string) returns (i: nat)
    ensures HasMain(ws, bic) ==>
      && i < |ws| && ws[i] == FirstMain(OwnedBy(ws, bic)).value && ws[i].ownerEntityID == bic && ws[i].isMainWallet
      && forall j :: 0 <= j < i ==> !(ws[j].ownerEntityID == bic && ws[j].isMainWallet)
    ensures !HasMain(ws, bic) ==> forall j :: 0 <= j < |ws| && ws[j].ownerEntityID == bic ==> !ws[j].isMainWallet
  {
    i := 0;
    if ws == [] {
    } else {
      i := FirstMainPlace(ws[1..], bic);
      if ws[0].ownerEntityID == bic {
        assert OwnedBy(ws, bic)[0] == ws[0] && OwnedBy(ws, bic)[1..] == OwnedBy(ws[1..], bic);
      } else {
        assert OwnedBy(ws, bic) == OwnedBy(ws[1..], bic);
      }
      if ws[0].ownerEntityID == bic && ws[0].isMainWallet {
        i := 0;
      } else {
        assert HasMain(ws, bic) <==> HasMain(ws[1..], bic);
        forall j | 0 <= j < i + 1 && HasMain(ws, bic) ensures !(ws[j].ownerEntityID == bic && ws[j].isMainWallet) {
          if j > 0 { assert ws[j] == ws[1..][j - 1]; }
        }
        forall j | 0 <= j < |ws| && ws[j].ownerEntityID == bic && !HasMain(ws, bic) ensures !ws[j].isMainWallet {
          if j > 0 { assert ws[j] == ws[1..][j - 1]; }
        }
        i := i + 1;
      }
    }
  }

  lemma {:induction false} FirstOwnedPlace(ws: seq<Wallet>, bic: string) returns (i: nat)
    ensures OwnedBy(ws, bic) != [] ==>
      && i < |ws| && ws[i] == OwnedBy(ws, bic)[0] && ws[i].ownerEntityID == bic
      && forall j :: 0 <= j < i ==> ws[j].ownerEntityID != bic
    ensures OwnedBy(ws, bic) == [] ==> forall j :: 0 <= j < |ws| ==> ws[j].ownerEntityID != bic
  {
    i := 0;
    if ws != [] && ws[0].ownerEntityID != bic {
      assert OwnedBy(ws, bic) == OwnedBy(ws[1..], bic);
      i := FirstOwnedPlace(ws[1..], bic);
      forall j | 1 <= j < |ws| ensures ws[j] == ws[1..][j - 1] {}
      i := i + 1;
    }
  }

  /**
   * Without an alias a participant gets its first choice, and fails exactly when it owns nothing; with
   * one it gets that wallet, and fails exactly when that is not its own. Nobody in particular may name
   * any wallet, and owns none.
   */
  lemma ResolvesToItsOwn(l: Ledger, bic: string, explicitAlias: string)
    requires l.WellFormed()
    ensures var r := ResolveParticipantWallet(l, bic, explicitAlias);
      if explicitAlias != "" then
        if l.HasWallet(explicitAlias) && (bic == "" || l.wallets.entries[explicitAlias].ownerEntityID == bic)
        then r.Success? && r.value.alias == explicitAlias
        else r == Failure(WALLET_NOT_FOUND)
      else if bic == "" then r == Failure(NO_PARTICIPANT_WALLET)
      else if r.Success? then
        exists i :: 0 <= i < |l.GetWallets()| && l.GetWallets()[i] == r.value && FirstChoice(l.GetWallets(), bic, i)
      else
        && r == Failure(NO_PARTICIPANT_WALLET)
        && forall i :: 0 <= i < |l.GetWallets()| ==> l.GetWallets()[i].ownerEntityID != bic
  {
    if explicitAlias == "" && bic != "" {
      var ws := l.GetWallets();
      var i := FirstMainPlace(ws, bic);
      var k := FirstOwnedPlace(ws, bic);
      if HasMain(ws, bic) {
        assert FirstChoice(ws, bic, i);
      } else if OwnedBy(ws, bic) != [] {
        assert FirstChoice(ws, bic, k);
      }
    }
  }

  /** Wallets keep their place, their owner and their main flag; new ones go last. */
  ghost predicate Grows(ws: seq<Wallet>, ws': seq<Wallet>) {
    |ws| <= |ws'| && forall i :: 0 <= i < |ws| ==> Fixed(ws[i]) == Fixed(ws'[i])
  }

  /** The participant owns a main wallet. */
  predicate HasMain(ws: seq<Wallet>, bic: string) {
    FirstMain(OwnedBy(ws, bic)).Some?
  }

  /** The first main wallet, and the first wallet of all, stay first as wallets are added. */
  lemma {:induction false} FirstsStay(ws: seq<Wallet>, ws': seq<Wallet>, bic: string)
    requires Grows(ws, ws')
    ensures HasMain(ws, bic) ==>
      HasMain(ws', bic) && Fixed(FirstMain(OwnedBy(ws', bic)).value) == Fixed(FirstMain(OwnedBy(ws, bic)).value)
    ensures OwnedBy(ws, bic) != [] ==>
      OwnedBy(ws', bic) != [] && Fixed(OwnedBy(ws', bic)[0]) == Fixed(OwnedBy(ws, bic)[0])
  {
    if ws == [] {
    } else {
      assert Grows(ws[1..], ws'[1..]);
      FirstsStay(ws[1..], ws'[1..], bic);
      var f := Fixed(ws[0]);
      assert f.ownerEntityID == ws[0].ownerEntityID == ws'[0].ownerEntityID;
      assert f.isMainWallet == ws[0].isMainWallet == ws'[0].isMainWallet;
      if ws[0].ownerEntityID == bic {
        assert OwnedBy(ws, bic)[1..] == OwnedBy(ws[1..], bic);
        assert OwnedBy(ws', bic)[1..] == OwnedBy(ws'[1..], bic);
      } else {
        assert OwnedBy(ws, bic) == OwnedBy(ws[1..], bic);
        assert OwnedBy(ws', bic) == OwnedBy(ws'[1..], bic);
      }
    }
  }

  lemma {:induction false} FirstMainIsMain(ws: seq<Wallet>)
    ensures FirstMain(ws).Some? ==> FirstMain(ws).value.isMainWallet
    ensures FirstMain(ws).None? ==> forall i :: 0 <= i < |ws| ==> !ws[i].isMainWallet
  {
    if ws != [] { FirstMainIsMain(ws[1..]); }
  }

  /**
   * A default resolved once resolves to the same wallet later, except exactly when it was not a
   * main wallet and the participant has been given a main one since.
   */
  lemma DefaultStays(l: Ledger, m: Ledger, bic: string)
    requires l.WellFormed() && m.WellFormed() && Grows(l.GetWallets(), m.GetWallets())
    requires ResolveParticipantWallet(l, bic, "").Success?
    ensures ResolveParticipantWallet(m, bic, "").Success?
    ensures ResolveParticipantWallet(m, bic, "").value.alias == ResolveParticipantWallet(l, bic, "").value.alias
      <==> HasMain(l.GetWallets(), bic) || !HasMain(m.GetWallets(), bic)
  {
    var ws, ws' := l.GetWallets(), m.GetWallets();
    FirstsStay(ws, ws', bic);
    FirstMainIsMain(OwnedBy(ws, bic));
    FirstMainIsMain(OwnedBy(ws', bic));
    if !HasMain(ws, bic) && HasMain(ws', bic) {
      var first, main := OwnedBy(ws', bic)[0], FirstMain(OwnedBy(ws', bic)).value;
      assert Fixed(first).isMainWallet == Fixed(OwnedBy(ws, bic)[0]).isMainWallet == false;
      assert Fixed(first).alias == Fixed(OwnedBy(ws, bic)[0]).alias;
      OwnedIsIn(ws', bic, first);
      MainIsOwned(OwnedBy(ws', bic));
      OwnedIsIn(ws', bic, main);
      if first.alias == main.alias { SameAliasSameWallet(m, first, main); }
    } else if HasMain(ws, bic) {
      assert Fixed(FirstMain(OwnedBy(ws', bic)).value).alias == Fixed(FirstMain(OwnedBy(ws, bic)).value).alias;
    } else {
      assert Fixed(OwnedBy(ws', bic)[0]).alias == Fixed(OwnedBy(ws, bic)[0]).alias;
    }
  }

  lemma {:induction false} OwnedIsIn(ws: seq<Wallet>, bic: string, w: Wallet)
    requires w in OwnedBy(ws, bic)
    ensures w in ws
  {
    if ws != [] && w != ws[0] {
      assert w in OwnedBy(ws[1..], bic);
      OwnedIsIn(ws[1..], bic, w);
    }
  }

  lemma {:induction false} MainIsOwned(ws: seq<Wallet>)
    requires FirstMain(ws).Some?
    ensures FirstMain(ws).value in ws
  {
    if !ws[0].isMainWallet { MainIsOwned(ws[1..]); }
  }

  lemma SameAliasSameWallet(l: Ledger, v: Wallet, w: Wallet)
    requires l.WellFormed() && v in l.GetWallets() && w in l.GetWallets() && v.alias == w.alias
    ensures v == w
  {
    var i :| 0 <= i < |l.wallets.order| && l.GetWallets()[i] == v;
    var j :| 0 <= j < |l.wallets.order| && l.GetWallets()[j] == w;
    assert l.wallets.order[i] in l.wallets.entries && l.wallets.order[j] in l.wallets.entries;
  }

  lemma AccountedGrows(l: Ledger, m: Ledger)
    requires l.WellFormed() && m.WellFormed() && Accounted(l, m)
    ensures Grows(l.GetWallets(), m.GetWallets())
  {
    forall i | 0 <= i < |l.wallets.order|
      ensures i < |m.wallets.order| && Fixed(l.GetWallets()[i]) == Fixed(m.GetWallets()[i])
    {
      assert l.wallets.order[i] in l.wallets.entries;
    }
  }

  lemma ActGrows(h: History, a: Action)
    requires h.ledger.WellFormed() && Filed(h.ledger) && Legal(h, a)
    ensures Act(h, a).ledger.WellFormed()
    ensures Grows(h.ledger.GetWallets(), Act(h, a).ledger.GetWallets())
  {
    hide Act, Legal, Filed, Accounted, LosesMoney, LostFrom, Loses, Grows;
    ActAccounts(h, a);
    if LosesMoney(h, a) {
      LossGrows(h.ledger, Act(h, a).ledger, LostFrom(h, a).0, LostFrom(h, a).1);
    } else {
      AccountedGrows(h.ledger, Act(h, a).ledger);
    }
  }

  lemma LossGrows(l: Ledger, m: Ledger, alias: string, cents: nat)
    requires l.WellFormed() && m.WellFormed() && Loses(l, m, alias, cents)
    ensures Grows(l.GetWallets(), m.GetWallets())
  {
    forall i | 0 <= i < |l.wallets.order|
      ensures i < |m.wallets.order| && Fixed(l.GetWallets()[i]) == Fixed(m.GetWallets()[i])
    {
      assert l.wallets.order[i] in l.wallets.entries;
    }
  }

  lemma GrowsOn(ws: seq<Wallet>, ws': seq<Wallet>, ws'': seq<Wallet>)
    requires Grows(ws, ws') && Grows(ws', ws'')
    ensures Grows(ws, ws'')
  {
  }

  lemma {:induction false} WalletsGrow(hs: seq<History>, actions: seq<Action>, i: nat, j: nat)
    requires IsRun(hs, actions) && i <= j < |hs|
    ensures hs[i].ledger.WellFormed() && hs[j].ledger.WellFormed()
    ensures Grows(hs[i].ledger.GetWallets(), hs[j].ledger.GetWallets())
    decreases j
  {
    hide Act, Legal, Accounted;
    BooksBalance(hs, actions, i, "");
    if i == j {
    } else {
      WalletsGrow(hs, actions, i, j - 1);
      BooksBalance(hs, actions, j - 1, "");
      ActGrows(hs[j - 1], actions[j - 1]);
      GrowsOn(hs[i].ledger.GetWallets(), hs[j - 1].ledger.GetWallets(), hs[j].ledger.GetWallets());
    }
  }

  /**
   * Once a participant owns a main wallet, default resolution gives the same alias in every later
   * history of the run, and in a store restarted from the cache there.
   */
  lemma ResolutionIsStable(hs: seq<History>, actions: seq<Action>, i: nat, j: nat, bic: string, mem: Memory,
        day: BusinessDay)
    requires IsRun(hs, actions) && i <= j < |hs| && bic != ""
    requires hs[i].ledger.WellFormed() && HasMain(hs[i].ledger.GetWallets(), bic)
    requires hs[j].ledger.WellFormed() && Mirrors(hs[j].ledger, mem)
    ensures var restarted := Hydrated(EmptyLedger(day), mem);
      && restarted.WellFormed()
      && ResolveParticipantWallet(hs[j].ledger, bic, "").Success?
      && ResolveParticipantWallet(hs[i].ledger, bic, "").Success?
      && ResolveParticipantWallet(restarted, bic, "") == ResolveParticipantWallet(hs[j].ledger, bic, "")
      && ResolveParticipantWallet(hs[j].ledger, bic, "").value.alias
         == ResolveParticipantWallet(hs[i].ledger, bic, "").value.alias
  {
    WalletsGrow(hs, actions, i, j);
    DefaultStays(hs[i].ledger, hs[j].ledger, bic);
    RestartReproduces(hs[j].ledger, mem, day);
  }
}
