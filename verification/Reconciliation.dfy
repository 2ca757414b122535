/**
 * The books over whole runs: no balance is ever negative, and every balance is the fold of the log over
 * its wallet, and the money in circulation what was funded less what was defunded, exactly as long as
 * no settlement half-applies; what one loses is accounted for to the cent.
 */
module Reconciliation {
  import opened Wrappers
  import opened OrderedMaps
  import opened Domain
  import opened Ledgers
  import opened Settlements
  import opened Histories
  import opened Accounts

  /** The fold of the log over one wallet. */
  function NetLog(log: seq<Transaction>, alias: string): int {
    if log == [] then 0 else NetLog(log[..|log| - 1], alias) + Net(log[|log| - 1], alias)
  }

  ghost predicate Reconciled(l: Ledger) {
    forall alias :: Balance(l, alias) == NetLog(l.log, alias)
  }

  ghost predicate NoOverdraft(l: Ledger) {
    forall a :: a in l.wallets.entries ==> l.wallets.entries[a].balance >= 0
  }

  function SumOf(ws: OrderedMap<Wallet>, n: nat): int
    requires n <= |ws.order| && forall i :: 0 <= i < |ws.order| ==> ws.order[i] in ws.entries
  {
    if n == 0 then 0 else SumOf(ws, n - 1) + ws.entries[ws.order[n - 1]].balance
  }

  /** All the money in the wallets. */
  function Supply(ws: OrderedMap<Wallet>): int
    requires forall i :: 0 <= i < |ws.order| ==> ws.order[i] in ws.entries
  {
    SumOf(ws, |ws.order|)
  }

  function Minted(tx: Transaction): int {
    if tx.kind == FUNDING then CentsOf(tx.amount) else if tx.kind == DEFUNDING then -(CentsOf(tx.amount) as int) else 0
  }

  /** Funded less defunded. */
  function Issued(log: seq<Transaction>): int {
    if log == [] then 0 else Issued(log[..|log| - 1]) + Minted(log[|log| - 1])
  }

  /** What a posted entry does to balances, whichever wallet one looks at. */
  lemma PostsNet(ws: OrderedMap<Wallet>, ws': OrderedMap<Wallet>, tx: Transaction, alias: string)
    requires Posts(ws, ws', tx)
    ensures (if alias in ws'.entries then ws'.entries[alias].balance else 0)
      == (if alias in ws.entries then ws.entries[alias].balance else 0) + Net(tx, alias)
  {
  }

  lemma PostedReconciles(l: Ledger, m: Ledger, alias: string)
    requires Posted(l, m)
    ensures Balance(m, alias) - Balance(l, alias) == NetLog(m.log, alias) - NetLog(l.log, alias)
  {
    PostsNet(l.wallets, m.wallets, m.log[|l.log|], alias);
    assert m.log[..|m.log| - 1] == l.log;
  }

  lemma AccountedReconciles(l: Ledger, m: Ledger, alias: string)
    requires Accounted(l, m)
    ensures Balance(m, alias) - Balance(l, alias) == NetLog(m.log, alias) - NetLog(l.log, alias)
  {
    hide Posted;
    if Posted(l, m) { PostedReconciles(l, m, alias); }
  }

  lemma AccountedNeverOverdraws(l: Ledger, m: Ledger)
    requires Accounted(l, m) && NoOverdraft(l)
    ensures NoOverdraft(m)
  {
  }

  function Delta(a: string, credited: Option<string>, debited: Option<string>, cents: nat): int {
    (if credited == Some(a) then cents else 0) - (if debited == Some(a) then cents else 0)
  }

  /** Summed over wallets listed once each, a movement adds up to its two sides. */
  lemma {:induction false} MovesAddUp(ws: OrderedMap<Wallet>, ws': OrderedMap<Wallet>, credited: Option<string>,
        debited: Option<string>, cents: nat, n: nat)
    requires ws.Valid() && Moves(ws, ws', credited, debited, cents)
    requires n <= |ws.order|
    ensures SumOf(ws', n) == SumOf(ws, n)
      + (if credited.Some? && credited.value in ws.order[..n] then cents else 0)
      - (if debited.Some? && debited.value in ws.order[..n] then cents else 0)
  {
    hide Moves;
    if n == 0 {
    } else {
      MovesAddUp(ws, ws', credited, debited, cents, n - 1);
      var a := ws.order[n - 1];
      MovedBy(ws, ws', credited, debited, cents, a);
      ListedOnce(ws, n);
    }
  }

  lemma ListedOnce(ws: OrderedMap<Wallet>, n: nat)
    requires ws.Valid() && 0 < n <= |ws.order|
    ensures ws.order[..n] == ws.order[..n - 1] + [ws.order[n - 1]] && ws.order[n - 1] !in ws.order[..n - 1]
  {
  }

  lemma MovedBy(ws: OrderedMap<Wallet>, ws': OrderedMap<Wallet>, credited: Option<string>, debited: Option<string>,
        cents: nat, a: string)
    requires Moves(ws, ws', credited, debited, cents) && a in ws.entries
    ensures ws'.order == ws.order
    ensures a in ws'.entries && ws'.entries[a].balance == ws.entries[a].balance + Delta(a, credited, debited, cents)
  {
  }

  /** A transfer of any kind, a wallet paying itself included, conserves the total. */
  lemma PostsConserve(ws: OrderedMap<Wallet>, ws': OrderedMap<Wallet>, tx: Transaction)
    requires ws.Valid() && ws'.Valid() && Posts(ws, ws', tx)
    ensures Supply(ws') == Supply(ws) + Minted(tx)
  {
    MovesAddUp(ws, ws', CreditSide(tx), DebitSide(tx), CentsOf(tx.amount), |ws.order|);
    assert ws.order[..|ws.order|] == ws.order;
  }

  /** A half-applied settlement takes what it loses out of the supply. */
  lemma LossShrinks(l: Ledger, m: Ledger, alias: string, cents: nat)
    requires l.WellFormed() && Loses(l, m, alias, cents)
    ensures m.WellFormed() && Supply(m.wallets) == Supply(l.wallets) - cents
  {
    hide Moves;
    LossKeepsWallets(l, m, alias, cents);
    MovesKeepWellFormed(l, m.wallets);
    MovesAddUp(l.wallets, m.wallets, None, Some(alias), cents, |l.wallets.order|);
    assert l.wallets.order[..|l.wallets.order|] == l.wallets.order;
  }

  lemma LossKeepsWallets(l: Ledger, m: Ledger, alias: string, cents: nat)
    requires l.WellFormed() && Loses(l, m, alias, cents)
    ensures OnlyBalances(l.wallets, m.wallets) && alias in l.wallets.order
    ensures forall a :: Balance(m, a) == Balance(l, a) - if a == alias then cents else 0
    ensures NoOverdraft(l) ==> NoOverdraft(m)
  {
  }

  /** A one-step settlement that is no funding or defunding conserves the total, unless it half-applies. */
  lemma ExecuteConserves(l: Ledger, wf: Workflow, init: WorkflowInit, actor: Actor, random: string, now: int)
    requires l.WellFormed() && !wf.Funding? && !wf.Defunding?
    ensures var m := Execute(l, wf, init, actor, random, now).ledger;
      && m.WellFormed()
      && (Supply(m.wallets) == Supply(l.wallets) <==> !HalfExecutes(l, wf, init, actor, now))
  {
    hide Loses, Posts, HalfExecutes, Effect, Refusal;
    var s := Execute(l, wf, init, actor, random, now);
    ExecuteAccounts(l, wf, init, actor, random, now);
    if HalfExecutes(l, wf, init, actor, now) {
      LossShrinks(l, s.ledger, init.debitedWalletAlias, CentsOf(init.amount));
      LossIsSome(l, s.ledger, init.debitedWalletAlias, CentsOf(init.amount));
    } else if s.result.Success? {
      PostsConserve(l.wallets, s.ledger.wallets, s.ledger.log[|l.log|]);
    }
  }

  lemma LossIsSome(l: Ledger, m: Ledger, alias: string, cents: nat)
    requires Loses(l, m, alias, cents)
    ensures cents > 0 && m.log == l.log
  {
  }

  /** So does an approval. */
  lemma ApproveConserves(l: Ledger, wf: Workflow, id: string, actor: Actor, random: string, now: int)
    requires l.WellFormed() && Filed(l) && !wf.Funding? && !wf.Defunding?
    ensures var m := Approve(l, wf, id, actor, random, now).ledger;
      && m.WellFormed()
      && (Supply(m.wallets) == Supply(l.wallets) <==> !HalfApproves(l, wf, id, actor, now))
  {
    hide Approve, Loses, Posts, HalfApproves, Filed;
    var s := Approve(l, wf, id, actor, random, now);
    ApproveAccounts(l, wf, id, actor, random, now);
    if HalfApproves(l, wf, id, actor, now) {
      var record := l.drafts.entries[id];
      LossShrinks(l, s.ledger, record.debitedWalletAlias, CentsOf(record.amount));
      LossIsSome(l, s.ledger, record.debitedWalletAlias, CentsOf(record.amount));
    } else if s.result.Success? {
      ApproveSettles(l, wf, id, actor, random, now);
      PostsConserve(l.wallets, s.ledger.wallets, TransactionOf(wf, l.drafts.entries[id], random, now));
    }
  }

  lemma {:induction false} SumOfGrown(ws: OrderedMap<Wallet>, w: Wallet, n: nat)
    requires ws.Valid() && w.alias !in ws.entries && n <= |ws.order|
    ensures ws.Set(w.alias, w).Valid()
    ensures SumOf(ws.Set(w.alias, w), n) == SumOf(ws, n)
  {
    SetKeepsValid(ws, w.alias, w);
    if n == 0 {
    } else {
      SumOfGrown(ws, w, n - 1);
    }
  }

  lemma AccountedSupply(l: Ledger, m: Ledger)
    requires l.WellFormed() && m.WellFormed() && Accounted(l, m)
    ensures Supply(m.wallets) - Supply(l.wallets) == Issued(m.log) - Issued(l.log)
  {
    hide Posts, Posted;
    if Posted(l, m) {
      PostedSupply(l, m);
    } else if !Quiet(l, m) {
      var w :| OpenedWallet(l, m, w);
      OpenedSupply(l, m, w);
    }
  }

  lemma PostedSupply(l: Ledger, m: Ledger)
    requires l.WellFormed() && m.WellFormed() && Posted(l, m)
    ensures Supply(m.wallets) - Supply(l.wallets) == Issued(m.log) - Issued(l.log)
  {
    hide Moves;
    PostsConserve(l.wallets, m.wallets, m.log[|l.log|]);
    assert m.log[..|m.log| - 1] == l.log;
  }

  lemma OpenedSupply(l: Ledger, m: Ledger, w: Wallet)
    requires l.WellFormed() && m.WellFormed() && OpenedWallet(l, m, w)
    ensures Supply(m.wallets) == Supply(l.wallets)
  {
    SumOfGrown(l.wallets, w, |l.wallets.order|);
  }

  /** What an action loses, and what it loses from one wallet: nothing unless it half-applies. */
  function Loss(h: History, a: Action): nat {
    if LosesMoney(h, a) then LostFrom(h, a).1 else 0
  }

  function LossFrom(h: History, a: Action, alias: string): nat {
    if LosesMoney(h, a) && LostFrom(h, a).0 == alias then LostFrom(h, a).1 else 0
  }

  /** One action, to the cent: balances move by its log entry and by what it loses. */
  lemma ActBalances(h: History, a: Action, alias: string)
    requires h.ledger.WellFormed() && Filed(h.ledger) && Legal(h, a)
    ensures var l, m := h.ledger, Act(h, a).ledger;
      && m.WellFormed() && Filed(m) && (NoOverdraft(l) ==> NoOverdraft(m))
      && Balance(m, alias) - Balance(l, alias) == NetLog(m.log, alias) - NetLog(l.log, alias) - LossFrom(h, a, alias)
      && Supply(m.wallets) - Supply(l.wallets) == Issued(m.log) - Issued(l.log) - Loss(h, a)
      && (Loss(h, a) > 0 <==> LosesMoney(h, a))
  {
    hide Act, Legal, Filed, LosesMoney, LostFrom, Loses, Accounted, NoOverdraft, Balance;
    var l, m := h.ledger, Act(h, a).ledger;
    ActAccounts(h, a);
    if LosesMoney(h, a) {
      LossShrinks(l, m, LostFrom(h, a).0, LostFrom(h, a).1);
      LossIsSome(l, m, LostFrom(h, a).0, LostFrom(h, a).1);
      LossKeepsWallets(l, m, LostFrom(h, a).0, LostFrom(h, a).1);
    } else {
      AccountedReconciles(l, m, alias);
      AccountedSupply(l, m);
      if NoOverdraft(l) { AccountedNeverOverdraws(l, m); }
    }
  }

  /** What a run has lost after `n` actions, from one wallet and in all. */
  function LostSoFar(hs: seq<History>, actions: seq<Action>, n: nat, alias: string): nat
    requires n <= |actions| < |hs|
  {
    if n == 0 then 0 else LostSoFar(hs, actions, n - 1, alias) + LossFrom(hs[n - 1], actions[n - 1], alias)
  }

  function TotalLost(hs: seq<History>, actions: seq<Action>, n: nat): nat
    requires n <= |actions| < |hs|
  {
    if n == 0 then 0 else TotalLost(hs, actions, n - 1) + Loss(hs[n - 1], actions[n - 1])
  }

  /**
   * In every history of every run no balance is negative, each wallet holds the fold of the log less
   * what half-applied settlements took from it, and the supply is what was funded less what was
   * defunded and what was lost.
   */
  lemma {:induction false} BooksBalance(hs: seq<History>, actions: seq<Action>, i: nat, alias: string)
    requires IsRun(hs, actions) && i < |hs|
    ensures hs[i].ledger.WellFormed() && Filed(hs[i].ledger) && NoOverdraft(hs[i].ledger)
    ensures Balance(hs[i].ledger, alias) == NetLog(hs[i].ledger.log, alias) - LostSoFar(hs, actions, i, alias)
    ensures Supply(hs[i].ledger.wallets) == Issued(hs[i].ledger.log) - TotalLost(hs, actions, i)
  {
    hide Act, Legal, LosesMoney, LostFrom;
    if i == 0 {
      var day :| hs[0] == Start(day);
    } else {
      BooksBalance(hs, actions, i - 1, alias);
      ActBalances(hs[i - 1], actions[i - 1], alias);
    }
  }

  /** Every balance is the fold of the log, and the supply is what was funded less what was defunded. */
  ghost predicate InOrder(l: Ledger) {
    && l.WellFormed() && Filed(l) && NoOverdraft(l)
    && Reconciled(l) && Supply(l.wallets) == Issued(l.log)
  }

  /** The books may be short, never over. */
  ghost predicate NeverOver(l: Ledger) {
    && l.WellFormed() && Filed(l) && NoOverdraft(l)
    && (forall alias :: Balance(l, alias) <= NetLog(l.log, alias)) && Supply(l.wallets) <= Issued(l.log)
  }

  /** An action keeps the books in order exactly when it loses nothing, and no action mends them. */
  lemma ActKeepsBooks(h: History, a: Action)
    requires NeverOver(h.ledger) && Legal(h, a)
    ensures NeverOver(Act(h, a).ledger)
    ensures InOrder(Act(h, a).ledger) <==> InOrder(h.ledger) && !LosesMoney(h, a)
  {
    hide Act, Legal, Filed, LosesMoney, LostFrom, NoOverdraft, Balance;
    var l, m := h.ledger, Act(h, a).ledger;
    ActBalances(h, a, "");
    forall alias
      ensures Balance(m, alias) - Balance(l, alias)
        == NetLog(m.log, alias) - NetLog(l.log, alias) - LossFrom(h, a, alias)
    {
      ActBalances(h, a, alias);
    }
  }

  /** So the books of a run are in order exactly as long as no settlement of it has half-applied. */
  lemma {:induction false} BooksBalanceExactly(hs: seq<History>, actions: seq<Action>, i: nat)
    requires IsRun(hs, actions) && i < |hs|
    ensures NeverOver(hs[i].ledger)
    ensures InOrder(hs[i].ledger) <==> forall k :: 0 <= k < i ==> !LosesMoney(hs[k], actions[k])
  {
    hide Act, Legal, LosesMoney, InOrder, NeverOver;
    if i == 0 {
      var day :| hs[0] == Start(day);
      NothingToBalance(day);
    } else {
      BooksBalanceExactly(hs, actions, i - 1);
      ActKeepsBooks(hs[i - 1], actions[i - 1]);
    }
  }

  lemma NothingToBalance(day: BusinessDay)
    ensures NeverOver(Start(day).ledger) && InOrder(Start(day).ledger)
  {
  }

  /** No entry of the log is ever rewritten or dropped. */
  lemma {:induction false} LogOnlyGrows(hs: seq<History>, actions: seq<Action>, i: nat, j: nat)
    requires IsRun(hs, actions) && i <= j < |hs|
    ensures hs[i].ledger.log <= hs[j].ledger.log
    decreases j - i
  {
    if i == j {
    } else {
      BooksBalance(hs, actions, i, "");
      ActAccounts(hs[i], actions[i]);
      LogOnlyGrows(hs, actions, i + 1, j);
    }
  }
}
