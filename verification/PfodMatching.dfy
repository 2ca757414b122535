/**
 * PFoD trades over whole runs, with resubmission, late expiry and failed settlements: what is
 * consumed is a generation of a leg, and each is consumed by at most one settlement.
 */
module PfodMatching {
  import opened Wrappers
  import opened Domain
  import opened Ids
  import opened Ledgers
  import opened Settlements
  import opened Xvps
  import opened Pfods
  import opened Histories
  import opened Accounts
  import opened DraftTable
  import opened Lifecycle

  /** The same leg, whatever became of its status since. */
  predicate SameLeg(d: Draft, leg: Draft) {
    d.(status := leg.status, updatedAt := leg.updatedAt) == leg
  }

  /** Generation `g` was consumed by a settlement. */
  ghost predicate Consumed(origins: seq<Origin>, g: nat) {
    exists e :: 0 <= e < |origins| && Consumes(origins[e], g)
  }

  predicate Consumes(o: Origin, g: nat) {
    o.FromTrade? && (o.deliver == g || o.receive == g)
  }

  /** The stored leg under `id` is the latest generation, and pending only while unconsumed. */
  ghost predicate LegSound(h: History, id: string)
    requires id in h.current
  {
    && h.ledger.HasDraft(id) && h.ledger.drafts.entries[id].kind == PFOD
    && h.current[id] < |h.generations|
    && SameLeg(h.ledger.drafts.entries[id], h.generations[h.current[id]].leg)
    && LegId(h.generations[h.current[id]].side, h.generations[h.current[id]].tradeID) == id
    && (h.ledger.drafts.entries[id].status == PENDING_MATCH ==> !Consumed(h.origins, h.current[id]))
  }

  /** A DELI and a RECE submission of one trade that agree, and the payment made between them. */
  ghost predicate PairsLegs(tx: Transaction, o: Origin, gens: seq<Generation>)
    requires o.FromTrade?
  {
    && o.deliver < |gens| && gens[o.deliver].tradeID == o.tradeID && gens[o.deliver].side == Deliver
    && o.receive < |gens| && gens[o.receive].tradeID == o.tradeID && gens[o.receive].side == Receive
    && var deliver, receive := gens[o.deliver].leg, gens[o.receive].leg;
    && deliver.amount == receive.amount && deliver.currency == receive.currency
    && !Expired(deliver, tx.settledAt) && !Expired(receive, tx.settledAt)
    && PaysDeliver(tx, deliver, receive)
  }

  ghost predicate TradeSound(h: History, e: nat)
    requires e < |h.origins| == |h.ledger.log|
  {
    h.origins[e].FromTrade? ==> PairsLegs(h.ledger.log[e], h.origins[e], h.generations)
  }

  /** No generation is consumed twice, on either side. */
  ghost predicate ConsumedOnce(origins: seq<Origin>) {
    forall e, f :: 0 <= e < f < |origins| && origins[e].FromTrade? && origins[f].FromTrade? ==>
      origins[e].deliver != origins[f].deliver && origins[e].receive != origins[f].receive
  }

  ghost predicate Matching(h: History) {
    && |h.origins| == |h.ledger.log|
    && (forall id :: id in h.current ==> LegSound(h, id))
    && (forall id :: h.ledger.HasDraft(id) && h.ledger.drafts.entries[id].kind == PFOD ==> id in h.current)
    && (forall e :: 0 <= e < |h.origins| ==> TradeSound(h, e))
    && ConsumedOnce(h.origins)
    && (forall t :: h.ledger.HasDraft(ReceiveId(t)) ==> h.ledger.HasDraft(DeliverId(t)))
  }

  // ----- actions that submit no leg -----

  lemma OthersKeepLegs(h: History, a: Action, x: string)
    requires Sound(h) && Legal(h, a) && !a.SubmitLeg?
    requires h.ledger.HasDraft(x) && h.ledger.drafts.entries[x].kind == PFOD
    ensures Untouched(h.ledger, Act(h, a).ledger, x)
  {
    hide Act;
    assert FiledUnder(x, h.ledger.drafts.entries[x]);
    LegShapes(h.ledger.drafts.entries[x].supplementaryData.text);
    if !WritesDrafts(a) || x != Focus(h, a) {
      ActFrame(h, a, x);
    } else if a.OpenDraft? {
      OpenedIdIsFree(h, a.wf, a.day);
    } else {
      OthersRefuseLegs(h, a, x);
    }
  }

  /** Nothing but a submission writes a leg: it is no draft to approve, and no XvP. */
  lemma OthersRefuseLegs(h: History, a: Action, x: string)
    requires WritesDrafts(a) && !a.SubmitLeg? && !a.OpenDraft? && Legal(h, a) && x == Focus(h, a)
    requires h.ledger.HasDraft(x) && FiledUnder(x, h.ledger.drafts.entries[x])
    requires h.ledger.drafts.entries[x].kind == PFOD
    ensures Act(h, a).ledger == h.ledger
  {
    hide Effect, Refusal, Settle, Init;
  }

  lemma OthersAddNoLeg(h: History, a: Action, x: string)
    requires Sound(h) && Legal(h, a) && !a.SubmitLeg?
    requires Act(h, a).ledger.HasDraft(x) && Act(h, a).ledger.drafts.entries[x].kind == PFOD
    ensures h.ledger.HasDraft(x) && h.ledger.drafts.entries[x].kind == PFOD
  {
    hide Act, Legal, Filed;
    if h.ledger.HasDraft(x) {
      KindsStay(h, a, x);
    } else if !WritesDrafts(a) || x != Focus(h, a) {
      ActFrame(h, a, x);
    } else {
      OthersOpenNoLeg(h, a, x);
    }
  }

  lemma OthersOpenNoLeg(h: History, a: Action, x: string)
    requires WritesDrafts(a) && !a.SubmitLeg? && x == Focus(h, a) && Legal(h, a)
    requires !h.ledger.HasDraft(x) && Act(h, a).ledger.HasDraft(x)
    ensures Act(h, a).ledger.drafts.entries[x].kind != PFOD
  {
    hide Effect, Refusal;
    if a.ApproveDraft? || a.CancelDraft? { UnknownIsLeftAlone(h, a); }
  }

  lemma SameConsumption(h: History, k: History, o: Origin, g: nat)
    requires k.origins == h.origins || k.origins == h.origins + [o]
    requires !Consumes(o, g)
    ensures Consumed(k.origins, g) ==> Consumed(h.origins, g)
  {
    if Consumed(k.origins, g) {
      var e :| 0 <= e < |k.origins| && Consumes(k.origins[e], g);
      assert h.origins[e] == k.origins[e];
    }
  }

  /** The legs and their generations are as they were; at most another kind of entry was logged. */
  ghost predicate LegsAsBefore(h: History, k: History, o: Option<Origin>) {
    && k.generations == h.generations && k.current == h.current
    && (o.Some? ==> !o.value.FromTrade?)
    && k.origins == h.origins + (if o.Some? then [o.value] else [])
    && |k.ledger.log| == |k.origins| && h.ledger.log <= k.ledger.log
    && (forall x :: x in h.ledger.drafts.entries && h.ledger.drafts.entries[x].kind == PFOD ==>
          x in k.ledger.drafts.entries && k.ledger.drafts.entries[x] == h.ledger.drafts.entries[x])
    && (forall x :: x in k.ledger.drafts.entries && k.ledger.drafts.entries[x].kind == PFOD ==>
          x in h.ledger.drafts.entries && h.ledger.drafts.entries[x].kind == PFOD)
  }

  lemma AsBeforeKeepsMatching(h: History, k: History, o: Option<Origin>)
    requires Matching(h) && LegsAsBefore(h, k, o) && Filed(h.ledger) && Filed(k.ledger)
    ensures Matching(k)
  {
    forall id | id in k.current ensures LegSound(k, id) {
      assert LegSound(h, id);
      SameConsumption(h, k, if o.Some? then o.value else OneStep, h.current[id]);
    }
    forall e | 0 <= e < |k.origins| ensures TradeSound(k, e) {
      if e < |h.origins| {
        assert TradeSound(h, e);
        assert k.origins[e] == h.origins[e] && k.ledger.log[e] == h.ledger.log[e];
      }
    }
    forall t | k.ledger.HasDraft(ReceiveId(t)) ensures k.ledger.HasDraft(DeliverId(t)) {
      LegsAreFiled(k.ledger, t);
      LegsAreFiled(h.ledger, t);
    }
  }

  lemma OthersLeaveLegs(h: History, a: Action)
    requires Sound(h) && Legal(h, a) && !a.SubmitLeg?
    ensures LegsAsBefore(h, Act(h, a), NewOrigin(h, a))
  {
    hide Act, NewOrigin;
    var l, k, o := h.ledger, Act(h, a), NewOrigin(h, a);
    ActAppends(h, a);
    OthersKeepGenerations(h, a);
    forall x | x in l.drafts.entries && l.drafts.entries[x].kind == PFOD
      ensures x in k.ledger.drafts.entries && k.ledger.drafts.entries[x] == l.drafts.entries[x]
    {
      OthersKeepLegs(h, a, x);
    }
    forall x | x in k.ledger.drafts.entries && k.ledger.drafts.entries[x].kind == PFOD
      ensures x in l.drafts.entries && l.drafts.entries[x].kind == PFOD
    {
      OthersAddNoLeg(h, a, x);
    }
    assert LegsAsBefore(h, k, o);
  }

  lemma OthersKeepGenerations(h: History, a: Action)
    requires !a.SubmitLeg?
    ensures Act(h, a).generations == h.generations && Act(h, a).current == h.current
    ensures NewOrigin(h, a).Some? ==> !NewOrigin(h, a).value.FromTrade?
  {
  }

  lemma OthersKeepMatching(h: History, a: Action)
    requires Sound(h) && Legal(h, a) && !a.SubmitLeg? && Matching(h)
    ensures Matching(Act(h, a))
  {
    hide Act, NewOrigin;
    ActAccounts(h, a);
    OthersLeaveLegs(h, a);
    AsBeforeKeepsMatching(h, Act(h, a), NewOrigin(h, a));
  }

  // ----- submitting a leg -----

  /** What matching does to the two legs, given their ids. */
  lemma MatchOnLegs(l: Ledger, deli: string, rece: string, tradeID: string, now: int, s: (Ledger, Answer), id: string)
    requires l.WellFormed() && Filed(l) && LegIds(l, deli, rece) && (id == deli || id == rece)
    requires s == MatchLegs(l, deli, rece, tradeID, now)
    ensures s.0.HasDraft(id) <==> l.HasDraft(id)
    ensures l.HasDraft(id) ==>
      && SameLeg(s.0.drafts.entries[id], l.drafts.entries[id])
      && s.0.drafts.entries[id].status in {l.drafts.entries[id].status, EXPIRED, SETTLED}
      && (s.1 == Matched ==> s.0.drafts.entries[id].status == SETTLED)
  {
    hide Fire, Posted;
    MatchCases(l, deli, rece, tradeID, now);
    if Ready(l, deli, rece, now) {
      FireAccounts(l, deli, rece, tradeID, now);
    }
  }

  /** A match pairs the two legs standing there: pending, unexpired, and in agreement. */
  lemma MatchPairs(l: Ledger, deli: string, rece: string, tradeID: string, now: int, s: (Ledger, Answer))
    requires l.WellFormed() && Filed(l) && LegIds(l, deli, rece)
    requires s == MatchLegs(l, deli, rece, tradeID, now) && s.1 == Matched
    ensures Ready(l, deli, rece, now)
    ensures |s.0.log| == |l.log| + 1 && s.0.log[|l.log|].settledAt == now
    ensures PaysDeliver(s.0.log[|l.log|], l.drafts.entries[deli], l.drafts.entries[rece])
  {
    MatchCases(l, deli, rece, tradeID, now);
    if Ready(l, deli, rece, now) {
      FireAccounts(l, deli, rece, tradeID, now);
    }
  }

  /** The history once a leg is stored and before matching is tried. */
  function Stored(h: History, side: Side, r: LegRequest, now: int): History {
    h.(ledger := h.ledger.AddDraft(NewLeg(side, r, now)),
       generations := h.generations + [Generation(r.tradeID, side, NewLeg(side, r, now))],
       current := h.current[LegId(side, r.tradeID) := |h.generations|])
  }

  /** A generation not yet stored has been consumed by nobody. */
  lemma FreshIsUnconsumed(h: History, g: nat)
    requires Matching(h) && g >= |h.generations|
    ensures !Consumed(h.origins, g)
  {
    forall e | 0 <= e < |h.origins| ensures !Consumes(h.origins[e], g) {
      assert TradeSound(h, e);
    }
  }

  lemma MoreGenerationsKeepTrades(h: History, k: History, e: nat)
    requires |h.origins| == |h.ledger.log| && e < |h.origins| && TradeSound(h, e)
    requires h.generations <= k.generations && h.origins <= k.origins
    requires |k.origins| == |k.ledger.log| && h.ledger.log <= k.ledger.log
    ensures TradeSound(k, e)
  {
    assert k.origins[e] == h.origins[e] && k.ledger.log[e] == h.ledger.log[e];
    if h.origins[e].FromTrade? {
      var o := h.origins[e];
      assert k.generations[o.deliver] == h.generations[o.deliver];
      assert k.generations[o.receive] == h.generations[o.receive];
    }
  }

  lemma StoreKeepsLeg(h: History, side: Side, r: LegRequest, now: int, id: string)
    requires Matching(h) && id in Stored(h, side, r, now).current
    ensures LegSound(Stored(h, side, r, now), id)
  {
    FreshIsUnconsumed(h, |h.generations|);
    if id != LegId(side, r.tradeID) { assert LegSound(h, id); }
  }

  lemma StoreKeepsPairing(h: History, side: Side, r: LegRequest, now: int, t: string)
    requires Matching(h) && (side == Receive ==> h.ledger.HasDraft(DeliverId(r.tradeID)))
    requires Stored(h, side, r, now).ledger.HasDraft(ReceiveId(t))
    ensures Stored(h, side, r, now).ledger.HasDraft(DeliverId(t))
  {
    LegIdsInjective(t, r.tradeID);
    LegIdsInjective(r.tradeID, t);
  }

  /** Storing a leg, over an old one or not, starts a new generation that nobody has consumed. */
  lemma StoreKeepsMatching(h: History, side: Side, r: LegRequest, now: int)
    requires Matching(h) && (side == Receive ==> h.ledger.HasDraft(DeliverId(r.tradeID)))
    ensures Matching(Stored(h, side, r, now))
  {
    hide LegSound, TradeSound;
    var k := Stored(h, side, r, now);
    forall id | id in k.current ensures LegSound(k, id) { StoreKeepsLeg(h, side, r, now, id); }
    forall e | 0 <= e < |k.origins| ensures TradeSound(k, e) { MoreGenerationsKeepTrades(h, k, e); }
    forall t | k.ledger.HasDraft(ReceiveId(t)) ensures k.ledger.HasDraft(DeliverId(t)) {
      StoreKeepsPairing(h, side, r, now, t);
    }
  }

  /** A match attempt on the two leg ids of a trade, and the history it leaves. */
  ghost predicate Tried(h: History, deli: string, rece: string, tradeID: string, now: int, s: (Ledger, Answer),
        k: History)
  {
    && s == MatchLegs(h.ledger, deli, rece, tradeID, now)
    && deli == DeliverId(tradeID) && rece == ReceiveId(tradeID) && LegIds(h.ledger, deli, rece)
    && k == h.(ledger := s.0, origins := k.origins)
    && (s.1 != Matched ==> k.origins == h.origins)
    && (s.1 == Matched ==>
          k.origins == h.origins + [FromTrade(tradeID, GenerationOf(h.current, deli), GenerationOf(h.current, rece))])
  }

  /** Generations standing under different ids are different. */
  lemma CurrentIsInjective(h: History, x: string, y: string)
    requires Matching(h) && x in h.current && y in h.current && x != y
    ensures h.current[x] != h.current[y]
  {
    assert LegSound(h, x) && LegSound(h, y);
  }

  /** One of the two legs tried: it stays the same submission, and pending only if nothing matched. */
  lemma MatchKeepsTriedLeg(h: History, deli: string, rece: string, tradeID: string, now: int, s: (Ledger, Answer),
        k: History, id: string)
    requires Matching(h) && h.ledger.WellFormed() && Filed(h.ledger) && Tried(h, deli, rece, tradeID, now, s, k)
    requires id in h.current && (id == deli || id == rece)
    ensures LegSound(k, id)
  {
    hide MatchLegs, Consumed, Filed, LegIds, TradeSound, ConsumedOnce;
    assert LegSound(h, id);
    MatchOnLegs(h.ledger, deli, rece, tradeID, now, s, id);
  }

  /** A leg of another trade: untouched, and consumed by nothing new. */
  lemma MatchKeepsOtherLeg(h: History, deli: string, rece: string, tradeID: string, now: int, s: (Ledger, Answer),
        k: History, id: string)
    requires Matching(h) && h.ledger.WellFormed() && Filed(h.ledger) && Tried(h, deli, rece, tradeID, now, s, k)
    requires id in h.current && id != deli && id != rece
    ensures LegSound(k, id)
  {
    hide MatchLegs, Consumed, Filed, LegIds, TradeSound, ConsumedOnce;
    assert LegSound(h, id);
    MatchFrame(h.ledger, deli, rece, tradeID, now, id, s);
    MatchConsumesNoOther(h, deli, rece, tradeID, now, s, k, id);
  }

  lemma MatchConsumesNoOther(h: History, deli: string, rece: string, tradeID: string, now: int, s: (Ledger, Answer),
        k: History, id: string)
    requires Matching(h) && h.ledger.WellFormed() && Filed(h.ledger) && Tried(h, deli, rece, tradeID, now, s, k)
    requires id in h.current && id != deli && id != rece
    ensures Consumed(k.origins, h.current[id]) ==> Consumed(h.origins, h.current[id])
  {
    hide MatchLegs, Filed, TradeSound, ConsumedOnce, LegSound, Consumed;
    if s.1 == Matched {
      MatchPairs(h.ledger, deli, rece, tradeID, now, s);
      CurrentIsInjective(h, id, deli);
      CurrentIsInjective(h, id, rece);
      SameConsumption(h, k, k.origins[|h.origins|], h.current[id]);
    }
  }

  lemma MatchKeepsLeg(h: History, deli: string, rece: string, tradeID: string, now: int, s: (Ledger, Answer),
        k: History, id: string)
    requires Matching(h) && h.ledger.WellFormed() && Filed(h.ledger) && Tried(h, deli, rece, tradeID, now, s, k)
    requires id in h.current
    ensures LegSound(k, id)
  {
    hide Matching, Filed, Tried, LegSound;
    if id == deli || id == rece {
      MatchKeepsTriedLeg(h, deli, rece, tradeID, now, s, k, id);
    } else {
      MatchKeepsOtherLeg(h, deli, rece, tradeID, now, s, k, id);
    }
  }

  /** A settlement pairs the current generations of both legs, neither of them consumed before. */
  lemma MatchedIsSound(h: History, deli: string, rece: string, tradeID: string, now: int, s: (Ledger, Answer),
        k: History)
    requires Matching(h) && h.ledger.WellFormed() && Filed(h.ledger) && Tried(h, deli, rece, tradeID, now, s, k)
    requires s.1 == Matched && |k.ledger.log| == |k.origins|
    ensures TradeSound(k, |h.origins|)
    ensures deli in h.current && rece in h.current
    ensures !Consumed(h.origins, h.current[deli]) && !Consumed(h.origins, h.current[rece])
  {
    hide MatchLegs;
    MatchPairs(h.ledger, deli, rece, tradeID, now, s);
    assert LegSound(h, deli) && LegSound(h, rece);
    var d, r := h.generations[h.current[deli]], h.generations[h.current[rece]];
    LegIdsInjective(tradeID, d.tradeID);
    LegIdsInjective(d.tradeID, tradeID);
    LegIdsInjective(tradeID, r.tradeID);
    LegIdsInjective(r.tradeID, tradeID);
    assert SameLeg(h.ledger.drafts.entries[deli], d.leg) && SameLeg(h.ledger.drafts.entries[rece], r.leg);
  }

  lemma ConsumedOnceMore(origins: seq<Origin>, o: Origin)
    requires ConsumedOnce(origins)
    requires o.FromTrade? ==> !Consumed(origins, o.deliver) && !Consumed(origins, o.receive)
    ensures ConsumedOnce(origins + [o])
  {
    forall e, f | 0 <= e < f < |origins + [o]| && (origins + [o])[e].FromTrade? && (origins + [o])[f].FromTrade?
      ensures (origins + [o])[e].deliver != (origins + [o])[f].deliver
      ensures (origins + [o])[e].receive != (origins + [o])[f].receive
    {
      if f == |origins| {
        assert !Consumes(origins[e], o.deliver) && !Consumes(origins[e], o.receive);
      }
    }
  }

  lemma MatchKeepsPresence(l: Ledger, deli: string, rece: string, tradeID: string, now: int, s: (Ledger, Answer),
        x: string)
    requires l.WellFormed() && Filed(l) && LegIds(l, deli, rece)
    requires s == MatchLegs(l, deli, rece, tradeID, now)
    ensures s.0.HasDraft(x) <==> l.HasDraft(x)
    ensures l.HasDraft(x) ==> (s.0.drafts.entries[x].kind == PFOD <==> l.drafts.entries[x].kind == PFOD)
  {
    hide MatchLegs;
    if x == deli || x == rece {
      MatchOnLegs(l, deli, rece, tradeID, now, s, x);
    } else {
      MatchFrame(l, deli, rece, tradeID, now, x, s);
    }
  }

  lemma MatchKeepsTrades(h: History, deli: string, rece: string, tradeID: string, now: int, s: (Ledger, Answer),
        k: History)
    requires Matching(h) && h.ledger.WellFormed() && Filed(h.ledger) && Tried(h, deli, rece, tradeID, now, s, k)
    ensures |k.origins| == |k.ledger.log| && ConsumedOnce(k.origins)
    ensures forall e :: 0 <= e < |k.origins| ==> TradeSound(k, e)
  {
    hide LegSound, TradeSound, MatchLegs, ConsumedOnce, Consumed, Filed, LegIds;
    MatchExtendsLog(h, deli, rece, tradeID, now, s, k);
    forall e | 0 <= e < |h.origins| ensures TradeSound(k, e) { MoreGenerationsKeepTrades(h, k, e); }
    if s.1 == Matched {
      MatchedIsSound(h, deli, rece, tradeID, now, s, k);
      ConsumedOnceMore(h.origins, k.origins[|h.origins|]);
    }
  }

  lemma MatchExtendsLog(h: History, deli: string, rece: string, tradeID: string, now: int, s: (Ledger, Answer),
        k: History)
    requires |h.origins| == |h.ledger.log|
    requires h.ledger.WellFormed() && Filed(h.ledger) && Tried(h, deli, rece, tradeID, now, s, k)
    ensures |k.origins| == |k.ledger.log| && h.origins <= k.origins && h.ledger.log <= k.ledger.log
    ensures |k.origins| == |h.origins| + if s.1 == Matched then 1 else 0
  {
    hide MatchLegs, Filed;
    MatchAccounts(h.ledger, deli, rece, tradeID, now, s);
  }

  lemma MatchKeepsMatching(h: History, deli: string, rece: string, tradeID: string, now: int, s: (Ledger, Answer),
        k: History)
    requires Matching(h) && h.ledger.WellFormed() && Filed(h.ledger) && Tried(h, deli, rece, tradeID, now, s, k)
    ensures Matching(k)
  {
    hide LegSound, TradeSound, MatchLegs, ConsumedOnce, Filed, LegIds, Posted, Quiet;
    MatchKeepsTrades(h, deli, rece, tradeID, now, s, k);
    forall id | id in k.current ensures LegSound(k, id) {
      MatchKeepsLeg(h, deli, rece, tradeID, now, s, k, id);
    }
    forall id | k.ledger.HasDraft(id) && k.ledger.drafts.entries[id].kind == PFOD ensures id in k.current {
      MatchKeepsPresence(h.ledger, deli, rece, tradeID, now, s, id);
    }
    forall t | k.ledger.HasDraft(ReceiveId(t)) ensures k.ledger.HasDraft(DeliverId(t)) {
      MatchKeepsPresence(h.ledger, deli, rece, tradeID, now, s, ReceiveId(t));
      MatchKeepsPresence(h.ledger, deli, rece, tradeID, now, s, DeliverId(t));
    }
  }

  lemma SubmitKeepsMatching(h: History, side: Side, r: LegRequest, now: int)
    requires h.ledger.WellFormed() && Filed(h.ledger) && Matching(h)
    ensures Matching(SubmitGeneration(h, side, r, now))
  {
    hide Matching, Submit, Filed;
    var l, s := h.ledger, Submit(h.ledger, side, r, now);
    SubmitStores(l, side, r, now);
    if s.1.Invalid? {
      assert SubmitGeneration(h, side, r, now) == h;
    } else {
      var stored, k := Stored(h, side, r, now), SubmitGeneration(h, side, r, now);
      StoreLegAccounts(l, side, r, now);
      StoreKeepsMatching(h, side, r, now);
      TradeLegIds(stored.ledger, r.tradeID);
      if s.1 != Matched { assert k.origins == h.origins; }
      MatchKeepsMatching(stored, DeliverId(r.tradeID), ReceiveId(r.tradeID), r.tradeID, now, s, k);
    }
  }

  // ----- over runs -----

  lemma ActKeepsMatching(h: History, a: Action)
    requires Sound(h) && Legal(h, a) && Matching(h)
    ensures Matching(Act(h, a))
  {
    hide Matching;
    if a.SubmitLeg? {
      SubmitKeepsMatching(h, a.side, a.leg, a.now);
    } else {
      OthersKeepMatching(h, a);
    }
  }

  /**
   * In every history of every run, resubmission, expiry and failed settlements included: each
   * settlement pairs a DELI and a RECE submission of its trade that agree and are in time, no
   * submission is consumed twice, and a RECE leg is stored only where a DELI leg is.
   */
  lemma {:induction false} EveryRunMatches(hs: seq<History>, actions: seq<Action>, i: nat)
    requires IsRun(hs, actions) && i < |hs|
    ensures Matching(hs[i])
  {
    if i == 0 {
      var day :| hs[0] == Start(day);
      StartMatches(day);
    } else {
      hide Matching, Act;
      EveryRunMatches(hs, actions, i - 1);
      EveryRunIsSound(hs, actions, i - 1);
      ActKeepsMatching(hs[i - 1], actions[i - 1]);
    }
  }

  lemma StartMatches(day: BusinessDay)
    ensures Matching(Start(day))
  {
  }

  /** The settlements of a trade, by their place in the log. */
  ghost function SettlementsOf(h: History, tradeID: string): set<nat> {
    set e: nat | e < |h.origins| && h.origins[e].FromTrade? && h.origins[e].tradeID == tradeID
  }

  /** The submissions of one side of a trade that were stored. */
  ghost function Submissions(h: History, tradeID: string, side: Side): set<nat> {
    set g: nat | g < |h.generations| && h.generations[g].tradeID == tradeID && h.generations[g].side == side
  }

  /** Sending each element to one of its own makes the target at least as large. */
  lemma {:induction false} Pigeonhole(source: set<nat>, target: set<nat>, to: map<nat, nat>)
    requires forall e :: e in source ==> e in to && to[e] in target
    requires forall e, f :: e in source && f in source && e != f ==> to[e] != to[f]
    ensures |source| <= |target|
    decreases source
  {
    if source != {} {
      var e :| e in source;
      Pigeonhole(source - {e}, target - {to[e]}, to);
    }
  }

  function ConsumedBy(o: Origin, side: Side): nat
    requires o.FromTrade?
  {
    if side == Deliver then o.deliver else o.receive
  }

  /** A trade settles at most as often as its DELI leg was stored, and as its RECE leg was. */
  lemma SettlementsAreBounded(hs: seq<History>, actions: seq<Action>, i: nat, tradeID: string, side: Side)
    requires IsRun(hs, actions) && i < |hs|
    ensures |SettlementsOf(hs[i], tradeID)| <= |Submissions(hs[i], tradeID, side)|
  {
    var h := hs[i];
    EveryRunMatches(hs, actions, i);
    var source := SettlementsOf(h, tradeID);
    var to := map e: nat | e in source :: ConsumedBy(h.origins[e], side);
    forall e | e in source ensures to[e] in Submissions(h, tradeID, side) {
      assert TradeSound(h, e);
    }
    forall e, f | e in source && f in source && e < f ensures to[e] != to[f] {
      assert h.origins[e].deliver != h.origins[f].deliver && h.origins[e].receive != h.origins[f].receive;
    }
    Pigeonhole(source, Submissions(h, tradeID, side), to);
  }
}
