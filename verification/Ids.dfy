/** The id shapes of the shared draft table: minted sequence ids and the two legs of a PFoD trade. */
module Ids {
  import opened Decimals

  const SEQUENCE_WIDTH: nat := 6

  /** `yyMMdd` */
  predicate IsDay(day: string) {
    |day| == 6 && AllDigits(day)
  }

  /** The prefixes the routes mint under. */
  predicate IsPrefix(prefix: string) {
    prefix in {"TR", "FRQ", "DRQ", "DRTGS"}
  }

  function SequenceKey(prefix: string, day: string): string {
    prefix + ":" + day
  }

  function MintedId(prefix: string, day: string, n: nat): string {
    prefix + day + PadStart(DigitsOf(n), SEQUENCE_WIDTH)
  }

  ghost predicate MintedShape(id: string) {
    exists prefix, day, n :: IsPrefix(prefix) && IsDay(day) && id == MintedId(prefix, day, n)
  }

  function DeliverId(tradeID: string): string {
    "PFOD-" + tradeID + "-DELI"
  }

  function ReceiveId(tradeID: string): string {
    "PFOD-" + tradeID + "-RECE"
  }

  ghost predicate PfodShape(id: string) {
    exists tradeID :: id == DeliverId(tradeID) || id == ReceiveId(tradeID)
  }

  /** Letters, then six digits, then a number of any length can be read back in one way only. */
  lemma MintedIdInjective(p1: string, d1: string, n1: nat, p2: string, d2: string, n2: nat)
    requires NoDigits(p1) && NoDigits(p2) && IsDay(d1) && IsDay(d2)
    requires MintedId(p1, d1, n1) == MintedId(p2, d2, n2)
    ensures p1 == p2 && d1 == d2 && n1 == n2
  {
    NatOfDigitsOf(n1);
    NatOfDigitsOf(n2);
    NatOfPadStart(DigitsOf(n1), SEQUENCE_WIDTH);
    NatOfPadStart(DigitsOf(n2), SEQUENCE_WIDTH);
    var s1, s2 := PadStart(DigitsOf(n1), SEQUENCE_WIDTH), PadStart(DigitsOf(n2), SEQUENCE_WIDTH);
    var id := MintedId(p1, d1, n1);
    assert IsDigit(d1[0]) && IsDigit(d2[0]);
    assert id[|p1|] == d1[0] && id[|p2|] == d2[0];
    assert |p1| == |p2|;
    assert p1 == id[..|p1|] == id[..|p2|] == p2;
    assert d1 == id[|p1|..|p1| + 6] == d2;
    assert s1 == id[|p1| + 6..] == s2;
  }

  lemma SequenceKeyInjective(p1: string, d1: string, p2: string, d2: string)
    requires IsDay(d1) && IsDay(d2) && SequenceKey(p1, d1) == SequenceKey(p2, d2)
    ensures p1 == p2 && d1 == d2
  {
    var key := SequenceKey(p1, d1);
    assert |p1| == |p2|;
    assert p1 == key[..|p1|] == p2;
    assert d1 == key[|p1| + 1..] == d2;
  }

  lemma PrefixesHaveNoDigits(prefix: string)
    requires IsPrefix(prefix)
    ensures NoDigits(prefix) && prefix[0] != 'P'
  {}

  /** The legs of different trades, and the two legs of one trade, never share an id. */
  lemma LegIdsInjective(t1: string, t2: string)
    ensures DeliverId(t1) != ReceiveId(t2)
    ensures DeliverId(t1) == DeliverId(t2) ==> t1 == t2
    ensures ReceiveId(t1) == ReceiveId(t2) ==> t1 == t2
  {
    var d1, d2, r1, r2 := DeliverId(t1), DeliverId(t2), ReceiveId(t1), ReceiveId(t2);
    assert d1[|d1| - 1] == 'I' && r2[|r2| - 1] == 'E';
    assert t1 == d1[5..|d1| - 5] == r1[5..|r1| - 5];
    assert t2 == d2[5..|d2| - 5] == r2[5..|r2| - 5];
  }

  lemma MintedIsNotPfod(prefix: string, day: string, n: nat, tradeID: string)
    requires IsPrefix(prefix)
    ensures MintedId(prefix, day, n) != DeliverId(tradeID)
    ensures MintedId(prefix, day, n) != ReceiveId(tradeID)
  {
    PrefixesHaveNoDigits(prefix);
    assert MintedId(prefix, day, n)[0] == prefix[0];
    assert DeliverId(tradeID)[0] == 'P' && ReceiveId(tradeID)[0] == 'P';
  }
}
