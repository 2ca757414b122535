/**
 * Which drafts an action can write, and why minted ids are always new: the frame facts the
 * lifecycle, XvP and PFoD results rest on.
 */
module DraftTable {
  import opened Wrappers
  import opened OrderedMaps
  import opened Domain
  import opened Ids
  import opened Ledgers
  import opened Settlements
  import opened Xvps
  import opened Pfods
  import opened Histories
  import opened Accounts
  import opened Decimals

  ghost predicate Untouched(l: Ledger, m: Ledger, id: string) {
    && (m.HasDraft(id) <==> l.HasDraft(id))
    && (l.HasDraft(id) ==> m.drafts.entries[id] == l.drafts.entries[id])
  }

  /** The one draft an action other than a leg submission may write. */
  function Focus(h: History, a: Action): string {
    match a
    case OpenDraft(wf, _, _, _, day, _) => h.ledger.NextId(PrefixOf(wf), day)
    case ApproveDraft(_, id, _, _, _) => id
    case CancelDraft(_, id, _) => id
    case InitXvp(p, _, _, _) => p.xvpTransactionId
    case ObserveXvp(id, _) => id
    case AdmitXvp(id, _, _) => id
    case SettleXvp(rec, _, _) => rec.id
    case _ => ""
  }

  predicate WritesDrafts(a: Action) {
    !a.NewWallet? && !a.SetDay? && !a.ExecuteNow?
  }

  lemma ObserveFrame(l: Ledger, id: string, now: int, x: string)
    requires l.WellFormed() && x != id
    ensures Untouched(l, Observe(l, id, now).0, x)
  {
  }

  lemma SettleFrame(l: Ledger, rec: XvpRecord, p: PaymentParams, now: int, x: string)
    requires l.WellFormed() && Filed(l) && x != rec.id
    requires HasXvp(l, rec.id) && rec == Shape(l.drafts.entries[rec.id])
    ensures Untouched(l, Settle(l, rec, p, now).ledger, x)
    ensures Settle(l, rec, p, now).ledger.sequences == l.sequences
  {
    if Settle(l, rec, p, now).result.Success? {
      SettleSettles(l, rec, p, now);
    } else {
      SettleRejected(l, rec, p, now);
      MarkAccounts(l, rec.id, now);
    }
  }

  lemma ApproveFrame(l: Ledger, wf: Workflow, id: string, actor: Actor, random: string, now: int, x: string)
    requires l.WellFormed() && Filed(l) && x != id
    ensures Untouched(l, Approve(l, wf, id, actor, random, now).ledger, x)
    ensures Approve(l, wf, id, actor, random, now).ledger.sequences == l.sequences
  {
    hide Approve, Posts, Filed, HalfApproves, Loses;
    ApproveAccounts(l, wf, id, actor, random, now);
    if Approve(l, wf, id, actor, random, now).result.Success? {
      ApproveSettles(l, wf, id, actor, random, now);
    }
  }

  lemma MatchFrame(l: Ledger, deli: string, rece: string, tradeID: string, now: int, x: string, s: (Ledger, Answer))
    requires l.WellFormed() && Filed(l) && LegIds(l, deli, rece) && x != deli && x != rece
    requires s == MatchLegs(l, deli, rece, tradeID, now)
    ensures Untouched(l, s.0, x) && s.0.sequences == l.sequences
  {
    hide Fire, MatchLegs;
    MatchCases(l, deli, rece, tradeID, now);
    if Ready(l, deli, rece, now) {
      FireFrame(l, deli, rece, tradeID, now, x);
    }
  }

  lemma FireFrame(l: Ledger, deli: string, rece: string, tradeID: string, now: int, x: string)
    requires l.WellFormed() && Filed(l) && LegIds(l, deli, rece) && x != deli && x != rece
    requires l.HasDraft(deli) && l.HasDraft(rece)
    ensures var m := Fire(l, deli, rece, tradeID, now).0; Untouched(l, m, x) && m.sequences == l.sequences
  {
    hide Fire, Posted;
    FireAccounts(l, deli, rece, tradeID, now);
  }

  /** A leg submission writes only the two legs of its trade. */
  lemma SubmitFrame(l: Ledger, side: Side, r: LegRequest, now: int, x: string)
    requires l.WellFormed() && Filed(l) && x != DeliverId(r.tradeID) && x != ReceiveId(r.tradeID)
    ensures Untouched(l, Submit(l, side, r, now).0, x)
    ensures Submit(l, side, r, now).0.sequences == l.sequences
  {
    SubmitStores(l, side, r, now);
    if !Submit(l, side, r, now).1.Invalid? {
      StoreLegAccounts(l, side, r, now);
      var stored := l.AddDraft(NewLeg(side, r, now));
      TradeLegIds(stored, r.tradeID);
      MatchFrame(stored, DeliverId(r.tradeID), ReceiveId(r.tradeID), r.tradeID, now, x, Submit(l, side, r, now));
    }
  }

  lemma OpenFrame(h: History, wf: Workflow, clientId: string, init: WorkflowInit, actor: Actor, day: string, now: int,
        x: string)
    requires x != h.ledger.NextId(PrefixOf(wf), day)
    ensures Untouched(h.ledger, Open(h, wf, clientId, init, actor, day, now).ledger, x)
  {
    hide Refusal, MintedId, SequenceKey;
    var resolved := ResolveDraftId(h.ledger, PrefixOf(wf), clientId, day);
    if resolved.result.Success? {
      AddFrame(resolved.ledger, BuildRecord(wf, init.(id := resolved.result.value), PENDING_APPROVAL, now), x);
    }
  }

  lemma AddFrame(l: Ledger, d: Draft, x: string)
    requires x != d.id
    ensures Untouched(l, l.AddDraft(d), x)
  {
  }

  lemma CancelFrame(l: Ledger, wf: Workflow, id: string, now: int, x: string)
    requires x != id
    ensures Untouched(l, Cancel(l, wf, id, now).ledger, x)
  {
  }

  /** Every action writes its own draft only. */
  lemma ActFrame(h: History, a: Action, x: string)
    requires h.ledger.WellFormed() && Filed(h.ledger) && Legal(h, a)
    requires if a.SubmitLeg? then x != DeliverId(a.leg.tradeID) && x != ReceiveId(a.leg.tradeID)
             else WritesDrafts(a) ==> x != Focus(h, a)
    ensures Untouched(h.ledger, Act(h, a).ledger, x)
  {
    hide Approve, Cancel, Execute, Settle, Submit, Observe, Open, Posted, Filed, HalfExecutes;
    var l := h.ledger;
    match a
    case NewWallet(_, _, _) =>
    case SetDay(_) =>
    case OpenDraft(wf, clientId, init, actor, day, now) => OpenFrame(h, wf, clientId, init, actor, day, now, x);
    case ApproveDraft(wf, id, actor, random, now) => ApproveFrame(l, wf, id, actor, random, now, x);
    case CancelDraft(wf, id, now) => CancelFrame(l, wf, id, now, x);
    case ExecuteNow(wf, init, actor, random, now) => ExecuteAccounts(l, wf, init, actor, random, now);
    case SubmitLeg(side, r, now) => SubmitFrame(l, side, r, now, x);
    case InitXvp(_, _, _, _) =>
    case ObserveXvp(id, now) => ObserveFrame(l, id, now, x);
    case AdmitXvp(id, p, now) => ObserveFrame(l, id, now, x);
    case SettleXvp(rec, p, now) => SettleFrame(l, rec, p, now, x);
  }

  // ----- minted ids -----

  /** An id a counter has already given out. */
  ghost predicate GivenOut(l: Ledger, id: string) {
    exists prefix, day, n: nat :: IsPrefix(prefix) && IsDay(day) && GivenOutAs(l, id, prefix, day, n)
  }

  ghost predicate GivenOutAs(l: Ledger, id: string, prefix: string, day: string, n: nat) {
    && id == MintedId(prefix, day, n)
    && SequenceKey(prefix, day) in l.sequences.entries && n <= l.sequences.entries[SequenceKey(prefix, day)]
  }

  /** Whatever the clock, the next id has never been given out; and giving one out forgets none. */
  lemma NextIdIsNew(l: Ledger, prefix: string, day: string)
    requires IsPrefix(prefix) && IsDay(day)
    ensures !GivenOut(l, l.NextId(prefix, day))
    ensures GivenOut(l.AdvanceSequence(prefix, day), l.NextId(prefix, day))
    ensures forall id :: GivenOut(l, id) ==> GivenOut(l.AdvanceSequence(prefix, day), id)
  {
    var next := l.NextSequence(prefix, day);
    forall p, d, n: nat | IsPrefix(p) && IsDay(d)
      ensures !GivenOutAs(l, l.NextId(prefix, day), p, d, n)
    {
      if GivenOutAs(l, l.NextId(prefix, day), p, d, n) {
        MintedIdInjective(prefix, day, next, p, d, n);
      }
    }
    var m := l.AdvanceSequence(prefix, day);
    assert GivenOutAs(m, l.NextId(prefix, day), prefix, day, next);
    forall id | GivenOut(l, id) ensures GivenOut(m, id) {
      var p, d, n: nat :| IsPrefix(p) && IsDay(d) && GivenOutAs(l, id, p, d, n);
      if SequenceKey(p, d) == SequenceKey(prefix, day) { SequenceKeyInjective(p, d, prefix, day); }
      assert GivenOutAs(m, id, p, d, n);
    }
  }

  /** The store after `n` more ids of one prefix and day. */
  function AfterIds(l: Ledger, prefix: string, day: string, n: nat): Ledger {
    if n == 0 then l else AfterIds(l, prefix, day, n - 1).AdvanceSequence(prefix, day)
  }

  /** Each prefix counts from one on each day, without gaps. */
  lemma {:induction false} IdsCountFromOne(l: Ledger, prefix: string, day: string, n: nat)
    requires !l.sequences.Has(SequenceKey(prefix, day))
    ensures AfterIds(l, prefix, day, n).NextId(prefix, day) == MintedId(prefix, day, n + 1)
    ensures AfterIds(l, prefix, day, n).NextSequence(prefix, day) == n + 1
  {
    hide MintedId, SequenceKey;
    if n == 0 {
    } else {
      IdsCountFromOne(l, prefix, day, n - 1);
    }
  }

  lemma ActSequences(h: History, a: Action)
    requires h.ledger.WellFormed() && Filed(h.ledger) && Legal(h, a) && !a.OpenDraft?
    ensures Act(h, a).ledger.sequences == h.ledger.sequences && Act(h, a).minted == h.minted
  {
    hide Approve, Execute, Settle, Submit, Posted, Filed, HalfExecutes, InitDraft, Refusal;
    var l := h.ledger;
    match a
    case SubmitLeg(side, r, now) => SubmitFrame(l, side, r, now, "");
    case ApproveDraft(wf, id, actor, random, now) => ApproveFrame(l, wf, id, actor, random, now, id + "x");
    case ExecuteNow(wf, init, actor, random, now) => ExecuteAccounts(l, wf, init, actor, random, now);
    case SettleXvp(rec, p, now) => SettleFrame(l, rec, p, now, rec.id + "x");
    case _ =>
  }

  predicate IsTwoStepKind(kind: DraftType) {
    kind != XVP && kind != PFOD
  }

  ghost predicate MintedOnce(h: History) {
    && NoDuplicates(h.minted)
    && (forall id :: id in h.minted ==> GivenOut(h.ledger, id))
    && (forall id :: h.ledger.HasDraft(id) && IsTwoStepKind(h.ledger.drafts.entries[id].kind) ==> id in h.minted)
  }

  /** The id a new draft is opened under belongs to no stored draft. */
  lemma OpenedIdIsFree(h: History, wf: Workflow, day: string)
    requires Filed(h.ledger) && MintedOnce(h) && IsTwoStep(wf) && IsDay(day)
    ensures !h.ledger.HasDraft(h.ledger.NextId(PrefixOf(wf), day))
  {
    var id := h.ledger.NextId(PrefixOf(wf), day);
    assert IsPrefix(PrefixOf(wf));
    NextIdIsNew(h.ledger, PrefixOf(wf), day);
    assert MintedShape(id);
    if h.ledger.HasDraft(id) {
      var d := h.ledger.drafts.entries[id];
      assert FiledUnder(id, d);
      if d.kind == PFOD { LegShapes(d.supplementaryData.text); }
    }
  }

  lemma OpenMintsOnce(h: History, wf: Workflow, clientId: string, init: WorkflowInit, actor: Actor, day: string,
        now: int)
    requires h.ledger.WellFormed() && Filed(h.ledger) && MintedOnce(h)
    requires IsTwoStep(wf) && IsDay(day)
    ensures MintedOnce(Open(h, wf, clientId, init, actor, day, now))
  {
    var prefix, id := PrefixOf(wf), h.ledger.NextId(PrefixOf(wf), day);
    var k := Open(h, wf, clientId, init, actor, day, now);
    if ResolveDraftId(h.ledger, prefix, clientId, day).result.Success? {
      assert IsPrefix(prefix);
      NextIdIsNew(h.ledger, prefix, day);
      assert k.ledger.sequences == h.ledger.AdvanceSequence(prefix, day).sequences;
      forall x | x in k.minted ensures GivenOut(k.ledger, x) {
        assert GivenOut(h.ledger.AdvanceSequence(prefix, day), x);
        var p, d, n: nat :| IsPrefix(p) && IsDay(d) && GivenOutAs(h.ledger.AdvanceSequence(prefix, day), x, p, d, n);
        assert GivenOutAs(k.ledger, x, p, d, n);
      }
    }
  }

  /** Every draft of a kind an action leaves alone was there before, unchanged in kind. */
  lemma ActKeepsTwoStepIds(h: History, a: Action)
    requires h.ledger.WellFormed() && Filed(h.ledger) && MintedOnce(h) && Legal(h, a) && !a.OpenDraft?
    ensures MintedOnce(Act(h, a))
  {
    hide Act, Legal, FiledUnder, Accounted, LosesMoney, LostFrom, Loses, MintedId, SequenceKey;
    var k := Act(h, a);
    ActAccounts(h, a);
    ActSequences(h, a);
    forall x | x in k.minted ensures GivenOut(k.ledger, x) {
      var p, d, n: nat :| IsPrefix(p) && IsDay(d) && GivenOutAs(h.ledger, x, p, d, n);
      assert GivenOutAs(k.ledger, x, p, d, n);
    }
    forall x | k.ledger.HasDraft(x) && IsTwoStepKind(k.ledger.drafts.entries[x].kind) ensures x in k.minted {
      assert FiledUnder(x, k.ledger.drafts.entries[x]);
      TwoStepIsMinted(x, k.ledger.drafts.entries[x]);
      KeepsTwoStep(h, a, x);
    }
  }

  lemma TwoStepIsMinted(id: string, d: Draft)
    requires FiledUnder(id, d) && IsTwoStepKind(d.kind)
    ensures MintedShape(id)
  {
  }

  /** A two-step draft standing after any action but its own opening stood before it. */
  lemma KeepsTwoStep(h: History, a: Action, x: string)
    requires h.ledger.WellFormed() && Filed(h.ledger) && Legal(h, a) && !a.OpenDraft?
    requires Act(h, a).ledger.HasDraft(x) && IsTwoStepKind(Act(h, a).ledger.drafts.entries[x].kind) && MintedShape(x)
    ensures h.ledger.HasDraft(x) && h.ledger.drafts.entries[x].kind == Act(h, a).ledger.drafts.entries[x].kind
  {
    hide Effect, Refusal, Submit, Settle, Filed, HalfApproves, Loses;
    if a.SettleXvp? { XvpIsNotMinted(h.ledger, a.record.id); }
    if a.SubmitLeg? {
      LegShapes(a.leg.tradeID);
      ActFrame(h, a, x);
    } else if !WritesDrafts(a) || x != Focus(h, a) {
      ActFrame(h, a, x);
    } else if a.ApproveDraft? {
      ApproveAccounts(h.ledger, a.wf, x, a.actor, a.random, a.now);
      if Approve(h.ledger, a.wf, x, a.actor, a.random, a.now).result.Success? {
        ApproveSettles(h.ledger, a.wf, x, a.actor, a.random, a.now);
      }
    }
  }

  lemma XvpIsNotMinted(l: Ledger, id: string)
    requires Filed(l) && HasXvp(l, id)
    ensures !MintedShape(id)
  {
    assert FiledUnder(id, l.drafts.entries[id]);
  }

  lemma ActKeepsMintedOnce(h: History, a: Action)
    requires h.ledger.WellFormed() && Filed(h.ledger) && MintedOnce(h) && Legal(h, a)
    ensures MintedOnce(Act(h, a))
  {
    if a.OpenDraft? {
      OpenMintsOnce(h, a.wf, a.clientId, a.init, a.actor, a.day, a.now);
    } else {
      ActKeepsTwoStepIds(h, a);
    }
  }

  /** Between two resets no id is minted twice. */
  lemma {:induction false} NoIdIsMintedTwice(hs: seq<History>, actions: seq<Action>, i: nat)
    requires IsRun(hs, actions) && i < |hs|
    ensures hs[i].ledger.WellFormed() && Filed(hs[i].ledger) && MintedOnce(hs[i])
  {
    if i == 0 {
      var day :| hs[0] == Start(day);
    } else {
      NoIdIsMintedTwice(hs, actions, i - 1);
      ActAccounts(hs[i - 1], actions[i - 1]);
      ActKeepsMintedOnce(hs[i - 1], actions[i - 1]);
    }
  }

  /** Opening a draft never overwrites a stored one. */
  lemma OpeningNeverOverwrites(hs: seq<History>, actions: seq<Action>, i: nat, id: string)
    requires IsRun(hs, actions) && i < |actions| && actions[i].OpenDraft?
    requires hs[i].ledger.HasDraft(id)
    ensures hs[i + 1].ledger.HasDraft(id) && hs[i + 1].ledger.drafts.entries[id] == hs[i].ledger.drafts.entries[id]
  {
    NoIdIsMintedTwice(hs, actions, i);
    OpenedIdIsFree(hs[i], actions[i].wf, actions[i].day);
    ActFrame(hs[i], actions[i], id);
  }
}
