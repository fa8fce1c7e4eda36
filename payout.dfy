/**
  The payout computation of `finishHand`: the split branch, which scores every
  sub-hand the game reports, and the non-split branch, which prefers the game's
  own payout or profit and otherwise pays from the result label.
  Money is exact (`real`).
*/
module Payout {
  import opened Optional

  /** The result label a hand is finished with. `Unknown` stands for any label
      other than the four the code names. */
  datatype Outcome = Ongoing | Win | Loss | Push | Unknown

  /** One sub-hand as the game reports it: its value (0 when missing), its card
      count (0 when the card list is missing) and its action labels. */
  datatype SubHand = SubHand(value: int, cardCount: nat, actions: seq<string>)

  /** The game's authoritative outcome for the hand. `payout` and `profit` are
      the first truthy field of their fallback chains, so 0 means "absent";
      `subHands` is None when the game reports no player hands at all;
      `dealerValue` is 0 when missing. */
  datatype Authoritative = Authoritative(
    payout: real,
    profit: real,
    subHands: Option<seq<SubHand>>,
    dealerValue: int)

  /** A sub-hand's stake: the per-hand split bet, twice over when it doubled. */
  function SubHandBet(h: SubHand, unitBet: real): real {
    if "double" in h.actions then unitBet * 2.0 else unitBet
  }

  /** How much one sub-hand returns against the dealer's value: a busted
      sub-hand nothing, any other between nothing and twice its stake. */
  function SubHandPayout(h: SubHand, unitBet: real, dealerValue: int): (r: real)
    ensures "bust" in h.actions || h.value > 21 ==> r == 0.0
    ensures unitBet >= 0.0 ==> 0.0 <= r <= 2.0 * SubHandBet(h, unitBet)
  {
    var bet := SubHandBet(h, unitBet);
    if "bust" in h.actions || h.value > 21 then 0.0
    else if h.value == 21 && h.cardCount == 2 then bet * 2.0
    else if dealerValue > 21 then bet * 2.0
    else if h.value > dealerValue then bet * 2.0
    else if h.value == dealerValue then bet
    else 0.0
  }

  /** An independent classification of a sub-hand against the dealer, in the
      terms of a game result: bust loses, a two-card 21 or a dealer bust wins,
      otherwise the higher value wins and equal values push. */
  function SubHandVerdict(h: SubHand, dealerValue: int): Outcome {
    if "bust" in h.actions || h.value > 21 then Loss
    else if (h.value == 21 && h.cardCount == 2) || dealerValue > 21 || h.value > dealerValue then Win
    else if h.value == dealerValue then Push
    else Loss
  }

  /** What a result returns on a stake: a win twice the stake, a push the stake, anything else nothing. */
  function ReturnOn(verdict: Outcome, bet: real): real {
    match verdict
    case Win => bet * 2.0
    case Push => bet
    case _ => 0.0
  }

  /** The sum of the sub-hands' payouts, specified over the prefix. */
  function SplitPayoutSum(hands: seq<SubHand>, unitBet: real, dealerValue: int): real {
    if |hands| == 0 then 0.0
    else SplitPayoutSum(hands[..|hands| - 1], unitBet, dealerValue)
         + SubHandPayout(hands[|hands| - 1], unitBet, dealerValue)
  }

  /** The sum of the sub-hands' stakes. */
  function SplitStakeSum(hands: seq<SubHand>, unitBet: real): real {
    if |hands| == 0 then 0.0
    else SplitStakeSum(hands[..|hands| - 1], unitBet) + SubHandBet(hands[|hands| - 1], unitBet)
  }

  /** The split branch's loop: accumulate every sub-hand's payout. */
  method SplitWinAmount(hands: seq<SubHand>, unitBet: real, dealerValue: int) returns (total: real)
    ensures total == SplitPayoutSum(hands, unitBet, dealerValue)
  {
    total := 0.0;
    var i := 0;
    while i < |hands|
      invariant 0 <= i <= |hands|
      invariant total == SplitPayoutSum(hands[..i], unitBet, dealerValue)
    {
      assert hands[..i + 1][..i] == hands[..i];
      total := total + SubHandPayout(hands[i], unitBet, dealerValue);
      i := i + 1;
    }
    assert hands[..|hands|] == hands;
  }

  /** The non-split branch: a win pays the game's payout if there is one, else
      the bet plus the game's profit if there is one, else 2.5 times the bet for
      a 21 from two starting cards and twice the bet otherwise; a push returns
      the bet; every other label pays nothing. */
  function NonSplitWinAmount(result: Outcome, bet: real, startingCards: nat, finalPlayer: int,
                             payout: real, profit: real): (r: real)
    ensures bet >= 0.0 ==> r >= 0.0
    ensures result == Win && bet > 0.0 ==> r > 0.0
  {
    if result == Win then
      if payout > 0.0 then payout
      else if profit > 0.0 then bet + profit
      else if finalPlayer == 21 && startingCards == 2 then bet * 2.5
      else bet * 2.0
    else if result == Push then bet
    else 0.0
  }

  /** The split bet a sub-hand is staked with: the recorded split bet, or half the total bet when it is 0. */
  function UnitBet(splitBetAmount: real, betAmount: real): real {
    if splitBetAmount != 0.0 then splitBetAmount else betAmount / 2.0
  }

  /** `finishHand`'s win amount: the split branch when the hand was split and
      the game reports player hands, the non-split branch otherwise. */
  function WinAmount(isSplit: bool, splitBetAmount: real, betAmount: real, startingCards: nat,
                     result: Outcome, finalPlayer: int, bj: Option<Authoritative>): (r: real)
    ensures splitBetAmount >= 0.0 && betAmount >= 0.0 ==> r >= 0.0
    ensures !(isSplit && bj.Some? && bj.value.subHands.Some?) && result != Win
            ==> r == (if result == Push then betAmount else 0.0)
  {
    if isSplit && bj.Some? && bj.value.subHands.Some? then
      SplitPayoutBounds(bj.value.subHands.value, UnitBet(splitBetAmount, betAmount), bj.value.dealerValue);
      SplitPayoutSum(bj.value.subHands.value, UnitBet(splitBetAmount, betAmount), bj.value.dealerValue)
    else
      var payout := if bj.Some? then bj.value.payout else 0.0;
      var profit := if bj.Some? then bj.value.profit else 0.0;
      NonSplitWinAmount(result, betAmount, startingCards, finalPlayer, payout, profit)
  }

  /** The win amount as `finishHand` computes it: the split loop when the hand
      was split and the game reports player hands, the non-split rule otherwise. */
  method ScoreHand(isSplit: bool, splitBetAmount: real, betAmount: real, startingCards: nat,
                   result: Outcome, finalPlayer: int, bj: Option<Authoritative>)
    returns (winAmount: real)
    ensures winAmount == WinAmount(isSplit, splitBetAmount, betAmount, startingCards, result, finalPlayer, bj)
  {
    if isSplit && bj.Some? && bj.value.subHands.Some? {
      winAmount := SplitWinAmount(bj.value.subHands.value, UnitBet(splitBetAmount, betAmount),
                                  bj.value.dealerValue);
    } else {
      var payout := if bj.Some? then bj.value.payout else 0.0;
      var profit := if bj.Some? then bj.value.profit else 0.0;
      winAmount := NonSplitWinAmount(result, betAmount, startingCards, finalPlayer, payout, profit);
    }
  }

  // ---------------------------------------------------------------------------
  // Properties of the payout

  /** Each sub-hand returns exactly what its verdict returns on its stake. */
  lemma SubHandPayoutIsVerdictReturn(h: SubHand, unitBet: real, dealerValue: int)
    ensures SubHandPayout(h, unitBet, dealerValue)
            == ReturnOn(SubHandVerdict(h, dealerValue), SubHandBet(h, unitBet))
  {
  }

  /** The split total is the sum over sub-hands of each verdict's return, one sub-hand at a time. */
  lemma {:induction false} SplitPayoutAppend(hands: seq<SubHand>, h: SubHand, unitBet: real, dealerValue: int)
    ensures SplitPayoutSum(hands + [h], unitBet, dealerValue)
            == SplitPayoutSum(hands, unitBet, dealerValue)
               + ReturnOn(SubHandVerdict(h, dealerValue), SubHandBet(h, unitBet))
  {
    assert (hands + [h])[..|hands|] == hands;
    SubHandPayoutIsVerdictReturn(h, unitBet, dealerValue);
  }

  /** For a non-negative split bet, a split hand returns between nothing and
      twice everything staked on its sub-hands. */
  lemma {:induction false} SplitPayoutBounds(hands: seq<SubHand>, unitBet: real, dealerValue: int)
    ensures unitBet >= 0.0 ==>
              0.0 <= SplitPayoutSum(hands, unitBet, dealerValue) <= 2.0 * SplitStakeSum(hands, unitBet)
  {
    if |hands| > 0 {
      SplitPayoutBounds(hands[..|hands| - 1], unitBet, dealerValue);
    }
  }

  /** When every sub-hand busts (labelled bust, or over 21) the split hand returns nothing. */
  lemma {:induction false} AllBustPaysNothing(hands: seq<SubHand>, unitBet: real, dealerValue: int)
    requires forall i :: 0 <= i < |hands| ==> "bust" in hands[i].actions || hands[i].value > 21
    ensures SplitPayoutSum(hands, unitBet, dealerValue) == 0.0
  {
    if |hands| > 0 {
      AllBustPaysNothing(hands[..|hands| - 1], unitBet, dealerValue);
    }
  }

  /** When the dealer busts, every sub-hand that did not bust wins twice its stake. */
  lemma {:induction false} DealerBustPaysEveryStandingHand(hands: seq<SubHand>, unitBet: real, dealerValue: int)
    requires dealerValue > 21
    requires forall i :: 0 <= i < |hands| ==> "bust" !in hands[i].actions && hands[i].value <= 21
    ensures SplitPayoutSum(hands, unitBet, dealerValue) == 2.0 * SplitStakeSum(hands, unitBet)
  {
    if |hands| > 0 {
      DealerBustPaysEveryStandingHand(hands[..|hands| - 1], unitBet, dealerValue);
    }
  }

  /** A split hand's win amount depends neither on the result label, nor on the
      final player total, nor on the game's payout or profit: only on the
      reported sub-hands and dealer value. */
  lemma SplitIgnoresLabelAndPayout(splitBetAmount: real, betAmount: real, startingCards: nat,
                                   r1: Outcome, r2: Outcome, finalPlayer1: int, finalPlayer2: int,
                                   bj1: Authoritative, bj2: Authoritative)
    requires bj1.subHands.Some? && bj1.subHands == bj2.subHands && bj1.dealerValue == bj2.dealerValue
    ensures WinAmount(true, splitBetAmount, betAmount, startingCards, r1, finalPlayer1, Some(bj1))
            == WinAmount(true, splitBetAmount, betAmount, startingCards, r2, finalPlayer2, Some(bj2))
  {
  }

  /** A split hand whose sub-hand list is present but empty wins nothing, even when labelled a win. */
  lemma EmptySubHandsPayNothing(splitBetAmount: real, betAmount: real, startingCards: nat,
                                result: Outcome, finalPlayer: int, bj: Authoritative)
    requires bj.subHands == Some([])
    ensures WinAmount(true, splitBetAmount, betAmount, startingCards, result, finalPlayer, Some(bj)) == 0.0
  {
  }

  /** Without authoritative values, a hand that was not scored as split returns
      its result's multiple of the bet: 2.5 for a two-card 21 that wins, 2 for
      any other win, 1 for a push and 0 for every other label. */
  lemma LocalPayoutMultiple(result: Outcome, bet: real, startingCards: nat, finalPlayer: int)
    ensures NonSplitWinAmount(result, bet, startingCards, finalPlayer, 0.0, 0.0)
            == bet * (if result == Win && finalPlayer == 21 && startingCards == 2 then 2.5
                      else if result == Win then 2.0
                      else if result == Push then 1.0
                      else 0.0)
  {
  }

  /** Every label but a win ignores the game's payout and profit: a push
      returns the bet and anything else nothing, a reported loss included. */
  lemma NonWinIgnoresAuthority(result: Outcome, bet: real, startingCards: nat, finalPlayer: int,
                               payout: real, profit: real)
    requires result != Win
    ensures NonSplitWinAmount(result, bet, startingCards, finalPlayer, payout, profit)
            == (if result == Push then bet else 0.0)
  {
  }

  /** The game's profit, when it is the first usable authority, is exactly the net gain on a win. */
  lemma ProfitIsNetGain(bet: real, startingCards: nat, finalPlayer: int, payout: real, profit: real)
    requires payout <= 0.0 && profit > 0.0
    ensures NonSplitWinAmount(Win, bet, startingCards, finalPlayer, payout, profit) - bet == profit
  {
  }

  /** A payout and a profit that are not positive (a reported loss, say) are
      ignored: the hand is paid by the local rule, whatever its label. */
  lemma NoUsableAuthorityPaysLocally(result: Outcome, bet: real, startingCards: nat, finalPlayer: int,
                                     payout: real, profit: real)
    requires payout <= 0.0 && profit <= 0.0
    ensures NonSplitWinAmount(result, bet, startingCards, finalPlayer, payout, profit)
            == NonSplitWinAmount(result, bet, startingCards, finalPlayer, 0.0, 0.0)
  {
  }

  /** The game's payout takes precedence over its profit and over the local rule, on a win only. */
  lemma PayoutTakesPrecedenceOnWin(result: Outcome, bet: real, startingCards: nat, finalPlayer: int,
                                   payout: real, profit: real)
    requires payout > 0.0
    ensures result == Win ==> NonSplitWinAmount(result, bet, startingCards, finalPlayer, payout, profit) == payout
    ensures result != Win ==> NonSplitWinAmount(result, bet, startingCards, finalPlayer, payout, profit)
                              == NonSplitWinAmount(result, bet, startingCards, finalPlayer, 0.0, 0.0)
  {
  }

  /** A hand that reaches 21 after a double from two starting cards is paid as
      a blackjack on its doubled bet: the check looks only at the final total
      and the starting cards, not at the actions taken. */
  lemma BlackjackIgnoresLaterActions(bet: real)
    ensures NonSplitWinAmount(Win, bet * 2.0, 2, 21, 0.0, 0.0) == bet * 5.0
  {
  }

  /** On a positive bet and without authoritative values, a win or push pays
      at least the bet and any other label pays nothing. */
  lemma LocalPayoutReturnsStakeExactlyOnWinOrPush(result: Outcome, bet: real, startingCards: nat,
                                                  finalPlayer: int)
    requires bet > 0.0
    ensures (NonSplitWinAmount(result, bet, startingCards, finalPlayer, 0.0, 0.0) >= bet)
            <==> (result == Win || result == Push)
  {
  }

  /** The split-payout values the tests pin, on a split bet of 1.00. */
  lemma PinnedSplitPayouts()
    // both win against 17
    ensures SplitPayoutSum([SubHand(19, 3, ["stand"]), SubHand(18, 2, ["stand"])], 1.0, 17) == 4.0
    // both lose against 20
    ensures SplitPayoutSum([SubHand(18, 2, ["stand"]), SubHand(17, 2, ["stand"])], 1.0, 20) == 0.0
    // one win, one loss against 17
    ensures SplitPayoutSum([SubHand(19, 3, ["stand"]), SubHand(16, 2, ["stand"])], 1.0, 17) == 2.0
    // one win, one push against 18
    ensures SplitPayoutSum([SubHand(19, 2, ["stand"]), SubHand(18, 2, ["stand"])], 1.0, 18) == 3.0
    // a doubled hand and a plain hand both win against 17
    ensures SplitPayoutSum([SubHand(19, 3, ["double"]), SubHand(19, 2, ["stand"])], 1.0, 17) == 6.0
    // both doubled, both win against 17
    ensures SplitPayoutSum([SubHand(19, 3, ["double"]), SubHand(19, 2, ["double"])], 1.0, 17) == 8.0
    // the doubled hand wins, the plain hand loses against 19
    ensures SplitPayoutSum([SubHand(21, 3, ["double"]), SubHand(17, 2, ["stand"])], 1.0, 19) == 4.0
    // the doubled hand busts, the plain hand wins against 17
    ensures SplitPayoutSum([SubHand(24, 3, ["double", "bust"]), SubHand(18, 2, ["stand"])], 1.0, 17) == 2.0
  {
  }
}
