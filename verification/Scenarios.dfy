/**
 * Concrete runs, each from an empty store and each step allowed, that show what the code does where a
 * stronger promise would fail.
 */
module Scenarios {
  import opened Wrappers
  import opened Money
  import opened Decimals
  import opened Texts
  import opened Domain
  import opened Ids
  import opened Ledgers
  import opened Settlements
  import opened Xvps
  import opened Pfods
  import opened Histories
  import opened Accounts
  import opened DraftTable
  import opened Lifecycle
  import opened XvpTheorems
  import opened PfodMatching
  import opened PfodLegs

  const TODAY := BusinessDay("2026-01-01", "00:00", "00:01", "23:58", "23:59")
  const OWNED := WalletOptions("BANK", "BANK", "NCB", "EUR", false, 0, 0, None, None)
  const MAKER := Actor(Caller("BANK", ""), "", "")
  const CHECKER := Actor(Caller("BANK", ""), "checker", "Checker")
  const AFTER_WINDOW: int := MATCH_WINDOW_SEC * 1000 + 1

  /** A wallet of the bank, unblocked and valid since the start, that holds `cents`. */
  predicate Holds(l: Ledger, alias: string, cents: int) {
    && l.HasWallet(alias)
    && var w := l.wallets.entries[alias];
    && w.balance == cents && w.ownerEntityID == "BANK" && !w.isBlocked && w.validFrom == Some(0) && w.validTo == None
  }

  ghost predicate EndsIn(hs: seq<History>, actions: seq<Action>, h: History) {
    IsRun(hs, actions) && hs[|actions|] == h
  }

  /** One more allowed action makes one more run. */
  lemma Extend(hs: seq<History>, actions: seq<Action>, h: History, a: Action)
    requires EndsIn(hs, actions, h) && Legal(h, a)
    ensures EndsIn(hs + [Act(h, a)], actions + [a], Act(h, a))
  {
    hide Act, Legal;
    var hs', actions' := hs + [Act(h, a)], actions + [a];
    forall i | 0 <= i < |actions'| ensures Legal(hs'[i], actions'[i]) && hs'[i + 1] == Act(hs'[i], actions'[i]) {
      if i < |actions| { assert actions'[i] == actions[i] && hs'[i] == hs[i] && hs'[i + 1] == hs[i + 1]; }
    }
  }

  // ----- two wallets, one of them funded -----

  lemma Parses()
    ensures ParseAmount("10.00") == Cents(1000) && ParseAmount("5.00") == Cents(500)
  {
    hide ParseAmount, DigitsOf, DigitOf;
    RenderThenParse(1000);
    RenderThenParse(500);
    Renders();
  }

  lemma Renders()
    ensures Render(1000) == "10.00" && Render(500) == "5.00"
  {
    assert DigitsOf(10) == "10" && DigitsOf(5) == "5";
  }

  lemma TwoWallets() returns (hs: seq<History>, actions: seq<Action>, h: History)
    ensures EndsIn(hs, actions, h)
    ensures Holds(h.ledger, "A", 0) && Holds(h.ledger, "B", 0) && h.ledger.drafts.entries == map[]
    ensures h.origins == [] && !h.ledger.HasWallet("")
  {
    var h0 := Start(TODAY);
    hs, actions := [h0], [];
    assert EndsIn(hs, actions, h0);
    var a, b := NewWallet("A", OWNED, 0), NewWallet("B", OWNED, 0);
    Extend(hs, actions, h0, a);
    hs, actions := hs + [Act(h0, a)], actions + [a];
    Extend(hs, actions, Act(h0, a), b);
    hs, actions, h := hs + [Act(Act(h0, a), b)], actions + [b], Act(Act(h0, a), b);
  }

  function Request(wf: Workflow, credited: string, debited: string): WorkflowInit {
    WorkflowInit("", "10.00", "EUR", credited, debited, "maker", NoData, "", "", "", None, map[], "")
  }

  /** The only draft is the one of id `id`, open for approval as requested. */
  predicate Pending(l: Ledger, wf: Workflow, id: string, credited: string, debited: string) {
    && l.drafts.entries.Keys == {id}
    && l.drafts.entries[id] == BuildRecord(wf, Request(wf, credited, debited).(id := id), PENDING_APPROVAL, 0)
  }

  lemma OpensFunding(h: History)
    requires Holds(h.ledger, "A", 0) && Holds(h.ledger, "B", 0) && h.ledger.drafts.entries == map[]
    ensures var id, k := h.ledger.NextId("FRQ", "260101"),
                Act(h, OpenDraft(Funding, "", Request(Funding, "B", ""), MAKER, "260101", 0));
      && Pending(k.ledger, Funding, id, "B", "") && k.origins == h.origins && k.ledger.wallets == h.ledger.wallets
    ensures MintedShape(h.ledger.NextId("FRQ", "260101"))
  {
    assert IsPrefix("FRQ") && IsDay("260101");
    assert Trim("") == "";
    var l := h.ledger.AdvanceSequence("FRQ", "260101");
    var init := Request(Funding, "B", "").(id := h.ledger.NextId("FRQ", "260101"));
    assert Create(l, Funding, init, MAKER, 0).result.Success?;
  }

  /** A funding goes through when the credited wallet is there and the amount is one. */
  lemma FundingIsApproved(h: History, id: string)
    requires h.ledger.WellFormed() && Holds(h.ledger, "A", 0) && Holds(h.ledger, "B", 0)
    requires Pending(h.ledger, Funding, id, "B", "")
    ensures var k := Act(h, ApproveDraft(Funding, id, CHECKER, "", 0)).ledger;
      && Holds(k, "A", 0) && Holds(k, "B", 1000) && k.drafts.entries.Keys == {id}
      && (k.HasWallet("") ==> h.ledger.HasWallet(""))
  {
    hide Approve, Holds, Posts;
    FundingSucceeds(h.ledger, id);
    ApproveSettles(h.ledger, Funding, id, CHECKER, "", 0);
    var tx := TransactionOf(Funding, h.ledger.drafts.entries[id], "", 0);
    TenEurosFunded(h.ledger, Approve(h.ledger, Funding, id, CHECKER, "", 0).ledger, tx);
  }

  lemma FundingSucceeds(l: Ledger, id: string)
    requires Holds(l, "B", 0) && Pending(l, Funding, id, "B", "")
    ensures Approve(l, Funding, id, CHECKER, "", 0).result.Success?
  {
    hide ParseAmount;
    Parses();
  }

  lemma TenEurosFunded(l: Ledger, m: Ledger, tx: Transaction)
    requires Holds(l, "A", 0) && Holds(l, "B", 0) && Posts(l.wallets, m.wallets, tx)
    requires tx.kind == FUNDING && tx.amount == "10.00" && tx.creditedWalletAlias == "B"
    ensures Holds(m, "A", 0) && Holds(m, "B", 1000) && (m.HasWallet("") ==> l.HasWallet(""))
  {
    hide ParseAmount;
    Parses();
    assert Fixed(m.wallets.entries["A"]) == Fixed(l.wallets.entries["A"]);
    assert Fixed(m.wallets.entries["B"]) == Fixed(l.wallets.entries["B"]);
  }

  /** One of the two wallets has ten euros, and nothing but the funding has happened. */
  ghost predicate Funded(h: History) {
    && Sound(h) && Holds(h.ledger, "A", 0) && Holds(h.ledger, "B", 1000) && !h.ledger.HasWallet("")
    && (forall id :: id in h.ledger.drafts.entries ==> MintedShape(id))
    && SettlementsOf(h, "T") == {}
  }

  lemma RunIsSound(hs: seq<History>, actions: seq<Action>, h: History)
    requires EndsIn(hs, actions, h)
    ensures Sound(h)
  {
    hide Act, Legal;
    EveryRunIsSound(hs, actions, |actions|);
  }

  lemma FundedRun() returns (hs: seq<History>, actions: seq<Action>, h: History)
    ensures EndsIn(hs, actions, h) && Funded(h)
  {
    hide Act, Legal, Holds;
    hs, actions, h := TwoWallets();
    RunIsSound(hs, actions, h);
    var id := h.ledger.NextId("FRQ", "260101");
    var open, approve := OpenDraft(Funding, "", Request(Funding, "B", ""), MAKER, "260101", 0),
        ApproveDraft(Funding, id, CHECKER, "", 0);
    FundingIsLegal(h);
    OpensFunding(h);
    Extend(hs, actions, h, open);
    var k := Act(h, open);
    hs, actions := hs + [k], actions + [open];
    RunIsSound(hs, actions, k);
    SameWalletsHold(h.ledger, k.ledger);
    FundingIsApproved(k, id);
    ApprovalIsLegal(k, approve);
    Extend(hs, actions, k, approve);
    OnlyTheFunding(k, id);
    hs, actions, h := hs + [Act(k, approve)], actions + [approve], Act(k, approve);
    RunIsSound(hs, actions, h);
  }

  lemma FundingIsLegal(h: History)
    ensures Legal(h, OpenDraft(Funding, "", Request(Funding, "B", ""), MAKER, "260101", 0))
  {
  }

  lemma ApprovalIsLegal(h: History, a: Action)
    requires a.ApproveDraft?
    ensures Legal(h, a)
  {
  }

  lemma SameWalletsHold(l: Ledger, m: Ledger)
    requires m.wallets == l.wallets
    ensures forall alias, cents :: Holds(l, alias, cents) <==> Holds(m, alias, cents)
  {
  }

  lemma OnlyTheFunding(h: History, id: string)
    requires h.origins == []
    ensures SettlementsOf(Act(h, ApproveDraft(Funding, id, CHECKER, "", 0)), "T") == {}
  {
  }

  /** The first ids of a day, one for each kind of draft. */
  lemma FirstIdsOfTheDay()
    ensures var l := Start(TODAY).ledger;
      && l.NextId(PrefixOf(Transfer), "260101") == "TR260101000001"
      && l.NextId(PrefixOf(Funding), "260101") == "FRQ260101000001"
      && l.NextId(PrefixOf(Defunding), "260101") == "DRQ260101000001"
      && l.NextId(PrefixOf(DirectRtgs), "260101") == "DRTGS260101000001"
  {
    assert DigitsOf(1) == "1";
    assert ['0'] + "1" == "01" && ['0'] + "01" == "001" && ['0'] + "001" == "0001";
    assert ['0'] + "0001" == "00001" && ['0'] + "00001" == "000001";
    assert PadStart("0001", 6) == "000001";
    assert PadStart("01", 6) == "000001";
  }

  // ----- a trade -----

  const DELI := LegRequest("T", "5.00", "EUR", "A", "", "u")
  const RECE := LegRequest("T", "5.00", "EUR", "B", "CAM", "u")

  /** The DELI leg of the trade stands, pending until `deadline`. */
  predicate DeliverStands(l: Ledger, deadline: int) {
    && l.HasDraft(DeliverId("T"))
    && var d := l.drafts.entries[DeliverId("T")];
    && d.status == PENDING_MATCH && d.amount == "5.00" && d.currency == "EUR" && d.debitedWalletAlias == "A"
    && d.expiresAt == Some(deadline)
  }

  predicate HasStatus(l: Ledger, id: string, status: Status) {
    l.HasDraft(id) && LegStatusAt(l, id) == status
  }

  /** Without a pending RECE leg a DELI leg is stored and waits; money stays where it is. */
  lemma DeliverWaits(l: Ledger, now: int, a: int, b: int)
    requires l.WellFormed() && Filed(l) && Holds(l, "A", a) && Holds(l, "B", b)
    requires !HasStatus(l, ReceiveId("T"), PENDING_MATCH)
    ensures var s := Submit(l, Deliver, DELI, now);
      && s.1 != Matched && DeliverStands(s.0, now + MATCH_WINDOW_SEC * 1000)
      && Holds(s.0, "A", a) && Holds(s.0, "B", b)
      && (s.0.HasDraft(ReceiveId("T")) ==> l.HasDraft(ReceiveId("T")))
  {
    hide Submit, MatchLegs, Filed, LegIds;
    var stored := l.AddDraft(NewLeg(Deliver, DELI, now));
    var s := Submit(l, Deliver, DELI, now);
    assert IsAccepted(l, Deliver, DELI);
    RefusedExactly(l, Deliver, DELI, now);
    if s.1 == Matched { MatchedWasPending(l, DELI, now); }
    StoreLegAccounts(l, Deliver, DELI, now);
    TradeLegIds(stored, "T");
    SubmittedLegStatus(l, Deliver, DELI, now);
    MatchOnLegs(stored, DeliverId("T"), ReceiveId("T"), "T", now, s, DeliverId("T"));
    MatchKeepsPresence(stored, DeliverId("T"), ReceiveId("T"), "T", now, s, ReceiveId("T"));
    LegIdsInjective("T", "T");
    SubmitAccounts(l, Deliver, DELI, now);
    SameWalletsHold(l, s.0);
  }

  /** A RECE leg in time for the standing DELI leg settles the trade: five euros go from B to A. */
  lemma ReceiveMatches(l: Ledger, now: int, deadline: int, a: int, b: int)
    requires l.WellFormed() && Filed(l) && Holds(l, "A", a) && Holds(l, "B", b) && b >= 500
    requires DeliverStands(l, deadline) && 0 <= now <= deadline
    ensures var s := Submit(l, Receive, RECE, now);
      && s.1 == Matched && Holds(s.0, "A", a + 500) && Holds(s.0, "B", b - 500)
      && HasStatus(s.0, DeliverId("T"), SETTLED) && HasStatus(s.0, ReceiveId("T"), SETTLED)
      && s.0.drafts.entries[ReceiveId("T")].expiresAt == Some(now + MATCH_WINDOW_SEC * 1000)
  {
    hide Submit, MatchLegs, Filed, LegIds, Fire, Holds;
    var deli, rece := DeliverId("T"), ReceiveId("T");
    var stored := l.AddDraft(NewLeg(Receive, RECE, now));
    var s := Submit(l, Receive, RECE, now);
    assert IsAccepted(l, Receive, RECE) by { HeldIsThere(l, "B", b); }
    RefusedExactly(l, Receive, RECE, now);
    StoreLegAccounts(l, Receive, RECE, now);
    TradeLegIds(stored, "T");
    LegIdsInjective("T", "T");
    SameWalletsHold(l, stored);
    StoredLegsMatch(stored, deli, rece, now, a, b);
    SubmittedLegStatus(l, Receive, RECE, now);
    CounterpartStatus(l, Receive, Deliver, RECE, now);
    MatchOnLegs(stored, deli, rece, "T", now, s, rece);
  }

  lemma HeldIsThere(l: Ledger, alias: string, cents: int)
    requires Holds(l, alias, cents)
    ensures l.HasWallet(alias)
  {
  }

  lemma StoredLegsMatch(l: Ledger, deli: string, rece: string, now: int, a: int, b: int)
    requires l.WellFormed() && Filed(l) && LegIds(l, deli, rece) && Ready(l, deli, rece, now)
    requires Holds(l, "A", a) && Holds(l, "B", b) && b >= 500 && now >= 0
    requires l.drafts.entries[deli].amount == "5.00"
    requires l.drafts.entries[deli].debitedWalletAlias == "A" && l.drafts.entries[rece].creditedWalletAlias == "B"
    ensures var s := MatchLegs(l, deli, rece, "T", now);
      s.1 == Matched && Holds(s.0, "A", a + 500) && Holds(s.0, "B", b - 500)
  {
    hide MatchLegs, Filed, LegIds, Fire, Posted, ParseAmount;
    MatchCases(l, deli, rece, "T", now);
    Parses();
    FireSettlesExactly(l, deli, rece, "T", now);
    FireAccounts(l, deli, rece, "T", now);
    FiveEurosMoved(l, Fire(l, deli, rece, "T", now).0, a, b);
  }

  lemma FiveEurosMoved(l: Ledger, m: Ledger, a: int, b: int)
    requires Holds(l, "A", a) && Holds(l, "B", b) && Posted(l, m)
    requires var tx := m.log[|l.log|];
      tx.kind == PFOD && tx.amount == "5.00" && tx.debitedWalletAlias == "B" && tx.creditedWalletAlias == "A"
    ensures Holds(m, "A", a + 500) && Holds(m, "B", b - 500)
  {
    hide ParseAmount;
    Parses();
    assert Fixed(m.wallets.entries["A"]) == Fixed(l.wallets.entries["A"]);
    assert Fixed(m.wallets.entries["B"]) == Fixed(l.wallets.entries["B"]);
  }

  lemma SubmissionIsLegal(h: History, side: Side, r: LegRequest, now: int)
    ensures Legal(h, SubmitLeg(side, r, now))
    ensures Act(h, SubmitLeg(side, r, now)).ledger == Submit(h.ledger, side, r, now).0
  {
    hide Submit;
  }

  /** The trade has settled `n` times so far, last with a RECE leg submitted at `now`; B holds `b` cents. */
  ghost predicate Settled(h: History, n: nat, now: int, a: int, b: int) {
    && Sound(h) && Holds(h.ledger, "A", a) && Holds(h.ledger, "B", b)
    && HasStatus(h.ledger, DeliverId("T"), SETTLED) && HasStatus(h.ledger, ReceiveId("T"), SETTLED)
    && h.ledger.drafts.entries[ReceiveId("T")].expiresAt == Some(now + MATCH_WINDOW_SEC * 1000)
    && |SettlementsOf(h, "T")| == n
  }

  lemma SettlementCounted(h: History, side: Side, r: LegRequest, now: int)
    requires h.ledger.WellFormed() && Filed(h.ledger) && r.tradeID == "T"
    ensures |SettlementsOf(Act(h, SubmitLeg(side, r, now)), "T")|
      == |SettlementsOf(h, "T")| + if Submit(h.ledger, side, r, now).1 == Matched then 1 else 0
  {
    hide Submit, Legal, Posted, MovesNothing;
    var a := SubmitLeg(side, r, now);
    var k := Act(h, a);
    SubmissionIsLegal(h, side, r, now);
    ActOrigins(h, a);
    if NewOrigin(h, a).Some? {
      assert SettlementsOf(k, "T") == SettlementsOf(h, "T") + {|h.origins|};
    } else {
      assert SettlementsOf(k, "T") == SettlementsOf(h, "T");
    }
  }

  /** From a state without a pending RECE leg, a DELI and a RECE leg settle the trade once more. */
  lemma SettleOnce(hs: seq<History>, actions: seq<Action>, h: History, a: int, b: int)
    returns (hs': seq<History>, actions': seq<Action>, h': History)
    requires EndsIn(hs, actions, h) && Holds(h.ledger, "A", a) && Holds(h.ledger, "B", b) && b >= 500
    requires !HasStatus(h.ledger, ReceiveId("T"), PENDING_MATCH)
    ensures EndsIn(hs', actions', h') && Settled(h', |SettlementsOf(h, "T")| + 1, 0, a + 500, b - 500)
  {
    hide Act, Legal, Submit, Holds, DeliverStands, HasStatus, SettlementsOf, IsRun;
    var deliver, receive := SubmitLeg(Deliver, DELI, 0), SubmitLeg(Receive, RECE, 0);
    RunIsSound(hs, actions, h);
    DeliverWaits(h.ledger, 0, a, b);
    SubmissionIsLegal(h, Deliver, DELI, 0);
    SettlementCounted(h, Deliver, DELI, 0);
    Extend(hs, actions, h, deliver);
    var k := Act(h, deliver);
    hs', actions' := hs + [k], actions + [deliver];
    RunIsSound(hs', actions', k);
    ReceiveMatches(k.ledger, 0, MATCH_WINDOW_SEC * 1000, a, b);
    SubmissionIsLegal(k, Receive, RECE, 0);
    SettlementCounted(k, Receive, RECE, 0);
    Extend(hs', actions', k, receive);
    h' := Act(k, receive);
    hs', actions' := hs' + [h'], actions' + [receive];
    RunIsSound(hs', actions', h');
  }

  lemma SettledRun() returns (hs: seq<History>, actions: seq<Action>, h: History)
    ensures EndsIn(hs, actions, h) && Settled(h, 1, 0, 500, 500)
  {
    hide Act, Legal, Holds, IsRun;
    hs, actions, h := FundedRun();
    LegShapes("T");
    hs, actions, h := SettleOnce(hs, actions, h, 0, 1000);
  }

  /** A run in which a settled RECE leg is relabelled EXPIRED: the DELI leg is submitted again after the window. */
  lemma SettledReceiveCanExpire()
    ensures exists hs, actions, h, a ::
      && EndsIn(hs, actions, h) && Legal(h, a)
      && HasStatus(h.ledger, DeliverId("T"), SETTLED) && HasStatus(h.ledger, ReceiveId("T"), SETTLED)
      && HasStatus(Act(h, a).ledger, DeliverId("T"), PENDING_MATCH)
      && HasStatus(Act(h, a).ledger, ReceiveId("T"), EXPIRED)
  {
    hide Act, Legal, Submit, IsRun;
    var hs, actions, h := SettledRun();
    var a := SubmitLeg(Deliver, DELI, AFTER_WINDOW);
    SubmissionIsLegal(h, Deliver, DELI, AFTER_WINDOW);
    DeliverWaits(h.ledger, AFTER_WINDOW, 500, 500);
    SettledReceiveAfterSubmit(h.ledger, Deliver, DELI, AFTER_WINDOW, "T");
    SettledDeliverAfterSubmit(h.ledger, Deliver, DELI, AFTER_WINDOW, "T");
    assert HasStatus(Act(h, a).ledger, ReceiveId("T"), EXPIRED);
  }

  /** A run in which one trade settles twice: both its legs are submitted again. */
  lemma TradeCanSettleTwice()
    ensures exists hs, actions, h :: EndsIn(hs, actions, h) && |SettlementsOf(h, "T")| == 2
  {
    hide Act, Legal, IsRun, SettlementsOf, Holds;
    var hs, actions, h := SettledRun();
    var hs', actions', h' := SettleOnce(hs, actions, h, 500, 500);
  }

  // ----- a defunding that names no wallet -----

  lemma OpensDefunding(h: History)
    requires h.ledger.drafts.entries == map[]
    ensures var id, k := h.ledger.NextId("DRQ", "260101"),
                Act(h, OpenDraft(Defunding, "", Request(Defunding, "", ""), MAKER, "260101", 0));
      Pending(k.ledger, Defunding, id, "", "") && k.ledger.wallets == h.ledger.wallets
  {
    assert Trim("") == "";
    var l := h.ledger.AdvanceSequence("DRQ", "260101");
    var init := Request(Defunding, "", "").(id := h.ledger.NextId("DRQ", "260101"));
    assert Create(l, Defunding, init, MAKER, 0).result.Success?;
  }

  /** A run after which a four-eyes approval of a pending draft is rejected over an unknown wallet. */
  lemma UnnamedDebitIsRefusedLate()
    ensures exists hs, actions, h, id ::
      && EndsIn(hs, actions, h) && LoadPending(h.ledger, Defunding, id).Success?
      && FourEyes(h.ledger.drafts.entries[id], CHECKER)
      && Approve(h.ledger, Defunding, id, CHECKER, "", 0).result == Failure(Rejection(404, "HL-WAL-001"))
  {
    hide Act, Legal;
    var h0 := Start(TODAY);
    var id, a := h0.ledger.NextId("DRQ", "260101"), OpenDraft(Defunding, "", Request(Defunding, "", ""), MAKER,
        "260101", 0);
    var h := Act(h0, a);
    assert EndsIn([h0], [], h0);
    assert Legal(h0, a) by { DefundingIsLegal(h0); }
    Extend([h0], [], h0, a);
    OpensDefunding(h0);
    UnnamedDebitFails(h.ledger, id);
    assert EndsIn([h0] + [h], [] + [a], h);
  }

  lemma DefundingIsLegal(h: History)
    ensures Legal(h, OpenDraft(Defunding, "", Request(Defunding, "", ""), MAKER, "260101", 0))
  {
  }

  lemma UnnamedDebitFails(l: Ledger, id: string)
    requires Pending(l, Defunding, id, "", "") && !l.HasWallet("")
    ensures LoadPending(l, Defunding, id).Success? && FourEyes(l.drafts.entries[id], CHECKER)
    ensures Approve(l, Defunding, id, CHECKER, "", 0).result == Failure(Rejection(404, "HL-WAL-001"))
  {
  }

  // ----- a direct RTGS that names no wallet to credit -----

  const OPENED := Stamp(0, "2026-01-01")

  /** A direct RTGS of ten euros from B to nobody, with the trail its route seeds it with. */
  const TO_NOBODY: WorkflowInit := Request(DirectRtgs, "", "B").(
    historicStatus := Some([INITIALIZED, PENDING_APPROVAL]),
    timestamps := map[INITIALIZED := OPENED, PENDING_APPROVAL := OPENED])

  const UNCREDITED: Action := OpenDraft(DirectRtgs, "", TO_NOBODY, MAKER, "260101", 0)

  /** Ten euros are to be paid from B to nobody. */
  predicate PaysNobody(l: Ledger, id: string) {
    && l.HasDraft(id)
    && l.drafts.entries[id]
       == BuildRecord(DirectRtgs, TO_NOBODY.(id := id), PENDING_APPROVAL, 0)
  }

  lemma OpensUncredited(h: History)
    requires Holds(h.ledger, "B", 1000)
    ensures var id, k := h.ledger.NextId("DRTGS", "260101"), Act(h, UNCREDITED);
      Legal(h, UNCREDITED) && PaysNobody(k.ledger, id) && k.ledger.wallets == h.ledger.wallets
  {
    assert IsPrefix("DRTGS") && IsDay("260101");
    assert Trim("") == "";
    var l := h.ledger.AdvanceSequence("DRTGS", "260101");
    var init := TO_NOBODY.(id := h.ledger.NextId("DRTGS", "260101"));
    assert Create(l, DirectRtgs, init, MAKER, 0).result.Success?;
  }

  lemma PaysTenEuros(l: Ledger)
    requires Holds(l, "B", 1000)
    ensures l.Debit("B", "10.00", CHECKER.caller, 0).Success? && CentsOf("10.00") == 1000
  {
    hide ParseAmount;
    Parses();
  }

  lemma HalfApprovesIt(l: Ledger, id: string)
    requires Holds(l, "B", 1000) && !l.HasWallet("") && PaysNobody(l, id)
    ensures HalfApproves(l, DirectRtgs, id, CHECKER, 0)
  {
    hide Ledger.Debit, Holds, CentsOf, ParseAmount;
    PaysTenEuros(l);
    HeldIsThere(l, "B", 1000);
  }

  lemma TenEurosLost(l: Ledger, m: Ledger)
    requires Holds(l, "A", 0) && Holds(l, "B", 1000) && Loses(l, m, "B", CentsOf("10.00"))
    ensures Holds(m, "A", 0) && Holds(m, "B", 0) && m.log == l.log
  {
    hide ParseAmount;
    Parses();
    assert Fixed(m.wallets.entries["A"]) == Fixed(l.wallets.entries["A"]);
    assert Fixed(m.wallets.entries["B"]) == Fixed(l.wallets.entries["B"]);
  }

  lemma UncreditedRun() returns (hs: seq<History>, actions: seq<Action>, h: History, id: string)
    ensures EndsIn(hs, actions, h) && Sound(h) && PaysNobody(h.ledger, id)
    ensures Holds(h.ledger, "A", 0) && Holds(h.ledger, "B", 1000) && !h.ledger.HasWallet("")
  {
    hide Act, Legal, Holds, PaysNobody, IsRun;
    var h0: History;
    hs, actions, h0 := FundedRun();
    id, h := h0.ledger.NextId("DRTGS", "260101"), Act(h0, UNCREDITED);
    OpensUncredited(h0);
    Extend(hs, actions, h0, UNCREDITED);
    hs, actions := hs + [h], actions + [UNCREDITED];
    RunIsSound(hs, actions, h);
    SameWalletsHold(h0.ledger, h.ledger);
  }

  /**
   * A run after which the four-eyes approval of a direct RTGS, opened without a wallet to credit, is
   * answered 422 and takes ten euros from B that reach no wallet and no log entry.
   */
  lemma EmptyCreditedAliasLosesMoney()
    ensures exists hs, actions, h, id ::
      && EndsIn(hs, actions, h) && PaysNobody(h.ledger, id)
      && Holds(h.ledger, "A", 0) && Holds(h.ledger, "B", 1000)
      && var s := Approve(h.ledger, DirectRtgs, id, CHECKER, "", 0);
      && s.result == Failure(Rejection(422, "HL-WAL-003"))
      && Holds(s.ledger, "A", 0) && Holds(s.ledger, "B", 0) && s.ledger.log == h.ledger.log
  {
    hide Holds, PaysNobody, HalfApproves, Loses, Approve, EndsIn, Filed, MintedOnce, Traced, AllSound;
    var hs, actions, h, id := UncreditedRun();
    HalfApprovesIt(h.ledger, id);
    HalfApprovedLosesTheAmount(h.ledger, DirectRtgs, id, CHECKER, "", 0);
    UncreditedIsForTen(h.ledger, id);
    TenEurosLost(h.ledger, Approve(h.ledger, DirectRtgs, id, CHECKER, "", 0).ledger);
  }

  lemma UncreditedIsForTen(l: Ledger, id: string)
    requires PaysNobody(l, id)
    ensures l.HasDraft(id)
    ensures l.drafts.entries[id].debitedWalletAlias == "B" && l.drafts.entries[id].amount == "10.00"
  {
  }

  // ----- an XvP registered again -----

  const AGREED: XvpInitParams := XvpInitParams("X", "DVP", "5.00", "EUR", "A", "BANK", "BANK", "s", "b", None)
  const PAYMENT := PaymentParams("B", "BANK", "BANK", "5.00", "EUR", Caller("BANK", ""))
  const SECRETS := Secrets("execution", "cancellation", "P")

  function Hash(key: string): string {
    "#" + key
  }

  lemma XvpIdIsOfNoOtherShape()
    ensures !MintedShape("X") && !PfodShape("X")
  {
    forall prefix, day, n | IsPrefix(prefix) && IsDay(day) ensures "X" != MintedId(prefix, day, n) {
      PrefixesHaveNoDigits(prefix);
      assert |MintedId(prefix, day, n)| >= |prefix| + |day|;
    }
    forall t ensures "X" != DeliverId(t) && "X" != ReceiveId(t) {
      assert |DeliverId(t)| > 1 && |ReceiveId(t)| > 1;
    }
  }

  lemma PaymentSettles(l: Ledger)
    requires l.WellFormed() && Filed(l) && Holds(l, "A", 0) && Holds(l, "B", 1000)
    requires HasXvp(l, "X") && l.drafts.entries["X"] == InitDraft(AGREED, SECRETS, Hash, 0)
    ensures Settle(l, Shape(l.drafts.entries["X"]), PAYMENT, 0).result.Success?
  {
    hide ParseAmount;
    Parses();
    MarkAccounts(l, "X", 0);
    var marked := MarkPaymentAttempted(l, "X", 0);
    DebitsExactlyWhenEntitled(marked, "B", "5.00", PAYMENT.caller, 0);
    DebitMoves(marked, "B", "5.00", PAYMENT.caller, 0);
  }

  /** Registered, admitted and settled. */
  lemma XvpSettledRun() returns (hs: seq<History>, actions: seq<Action>, h: History)
    ensures EndsIn(hs, actions, h) && HasXvp(h.ledger, "X") && h.ledger.drafts.entries["X"].status == SETTLED
  {
    hide Act, Legal, Settle, Holds, IsRun, InitDraft, Filed;
    var h0: History;
    hs, actions, h0 := FundedRun();
    var init := InitXvp(AGREED, SECRETS, Hash, 0);
    XvpIdIsOfNoOtherShape();
    InitStores(h0);
    Extend(hs, actions, h0, init);
    var h1 := Act(h0, init);
    hs, actions := hs + [h1], actions + [init];
    RunIsSound(hs, actions, h1);
    var admit, rec := AdmitXvp("X", PAYMENT, 0), Shape(h1.ledger.drafts.entries["X"]);
    AdmitsAndLeaves(h1);
    Extend(hs, actions, h1, admit);
    hs, actions := hs + [h1], actions + [admit];
    SameWalletsHold(h0.ledger, h1.ledger);
    PaymentSettles(h1.ledger);
    var settle := SettleXvp(rec, PAYMENT, 0);
    SettlesXvp(h1, rec);
    Extend(hs, actions, h1, settle);
    h := Act(h1, settle);
    hs, actions := hs + [h], actions + [settle];
  }

  /** A run after which an XvP is reported SETTLED, and PENDING once its id is registered again. */
  lemma ReinitLosesASettlement()
    ensures exists hs, actions, h ::
      && EndsIn(hs, actions, h) && HasXvp(h.ledger, "X")
      && ReportOf(Shape(h.ledger.drafts.entries["X"])) == ReportSettled
      && HasXvp(Init(h.ledger, AGREED, SECRETS, Hash, 0).ledger, "X")
      && ReportOf(Shape(Init(h.ledger, AGREED, SECRETS, Hash, 0).ledger.drafts.entries["X"])) == ReportPending
  {
    hide EndsIn;
    var hs, actions, h := XvpSettledRun();
  }

  lemma InitStores(h: History)
    requires Funded(h) && !MintedShape("X") && !PfodShape("X")
    ensures var a := InitXvp(AGREED, SECRETS, Hash, 0);
      && Legal(h, a) && HasXvp(Act(h, a).ledger, "X") && Act(h, a).ledger.wallets == h.ledger.wallets
      && Act(h, a).ledger.drafts.entries["X"] == InitDraft(AGREED, SECRETS, Hash, 0)
  {
  }

  lemma AdmitsAndLeaves(h: History)
    requires HasXvp(h.ledger, "X") && h.ledger.drafts.entries["X"] == InitDraft(AGREED, SECRETS, Hash, 0)
    ensures Legal(h, AdmitXvp("X", PAYMENT, 0)) && Act(h, AdmitXvp("X", PAYMENT, 0)) == h
  {
    AdmittedExactlyAsAgreed(h.ledger, "X", PAYMENT, 0);
  }

  lemma SettlesXvp(h: History, rec: XvpRecord)
    requires Sound(h) && HasXvp(h.ledger, "X") && h.ledger.drafts.entries["X"] == InitDraft(AGREED, SECRETS, Hash, 0)
    requires rec == Shape(h.ledger.drafts.entries["X"]) && Settle(h.ledger, rec, PAYMENT, 0).result.Success?
    ensures var a := SettleXvp(rec, PAYMENT, 0);
      && Legal(h, a) && HasXvp(Act(h, a).ledger, "X")
      && Act(h, a).ledger.drafts.entries["X"].status == SETTLED
  {
    hide Settle, Posts;
    SettleSettles(h.ledger, rec, PAYMENT, 0);
  }

  // ----- an amount written differently -----

  const ONE_EURO := AGREED.(amount := "1.00")

  lemma RegistersOneEuro(h: History)
    requires !h.ledger.HasDraft("X")
    ensures var a := InitXvp(ONE_EURO, SECRETS, Hash, 0);
      && Legal(h, a) && HasXvp(Act(h, a).ledger, "X")
      && Act(h, a).ledger.drafts.entries["X"] == InitDraft(ONE_EURO, SECRETS, Hash, 0)
  {
    hide MintedShape, PfodShape;
    XvpIdIsOfNoOtherShape();
  }

  lemma AmountsAreTexts(l: Ledger)
    requires HasXvp(l, "X") && l.drafts.entries["X"] == InitDraft(ONE_EURO, SECRETS, Hash, 0)
    ensures Admit(l, "X", PAYMENT.(amount := "1.0"), 0).result == Failure(Rejection(400, "HL-XVP-006"))
    ensures Admit(l, "X", PAYMENT.(amount := "1.00"), 0).result.Success?
    ensures l.drafts.entries["X"].amount == "1.00"
  {
  }

  /** A run after which a payment of the very amount agreed is refused: it is written "1.0", not "1.00". */
  lemma SameAmountOtherTextIsRefused()
    ensures exists hs, actions, h, p: PaymentParams ::
      && EndsIn(hs, actions, h) && HasXvp(h.ledger, "X")
      && ParseAmount(p.amount) == ParseAmount(h.ledger.drafts.entries["X"].amount) == Cents(100)
      && Admit(h.ledger, "X", p, 0).result == Failure(Rejection(400, "HL-XVP-006"))
      && Admit(h.ledger, "X", p.(amount := h.ledger.drafts.entries["X"].amount), 0).result.Success?
  {
    hide ParseAmount, Act, Legal, Admit;
    var h0, a := Start(TODAY), InitXvp(ONE_EURO, SECRETS, Hash, 0);
    DistinctTextsOneAmount();
    RegistersOneEuro(h0);
    AmountsAreTexts(Act(h0, a).ledger);
    assert EndsIn([h0], [], h0);
    Extend([h0], [], h0, a);
    assert PAYMENT.(amount := "1.0").(amount := "1.00") == PAYMENT.(amount := "1.00");
    assert EndsIn([h0] + [Act(h0, a)], [] + [a], Act(h0, a));
  }
}
