/**
  Hand tracking: the current hand, the running totals and the capped hand
  history, with the three operations `startNewHand`, `logAction` and
  `finishHand` that move a hand from open, through its actions, to finished.
*/
module Tracking {
  import opened Optional
  import opened Strategy
  import opened Payout

  /** The bet a hand opens with when none (or 0) is given. */
  const DefaultBet: real := 0.25

  /** How many finished hands the history keeps. */
  const HistoryCap: nat := 50

  /** One logged action: the action, the cards after it, the total and softness. */
  datatype ActionRecord = ActionRecord(action: Action, cards: seq<string>, total: int, soft: bool)

  /** A hand record. `splitBetAmount` is only read once `isSplit` is set. */
  datatype Hand = Hand(
    playerStart: seq<string>,
    dealerUp: string,
    actions: seq<ActionRecord>,
    finalPlayer: Option<int>,
    finalDealer: Option<int>,
    result: Outcome,
    betAmount: real,
    winAmount: real,
    isSplit: bool,
    splitBetAmount: real)

  /** The hand `startNewHand` opens. */
  function OpenHand(playerCards: seq<string>, dealerUp: string, bet: Option<real>): (h: Hand)
    ensures h.result == Ongoing && h.actions == [] && h.winAmount == 0.0 && !h.isSplit
    ensures h.betAmount == (if bet == None || bet == Some(0.0) then DefaultBet else bet.value)
    ensures h.playerStart == playerCards && h.dealerUp == dealerUp
  {
    var b := if bet.None? || bet.value == 0.0 then DefaultBet else bet.value;
    Hand(playerCards, dealerUp, [], None, None, Ongoing, b, 0.0, false, 0.0)
  }

  /** The bet after one logged action: a double on a split hand adds one split
      bet, any other double doubles the bet, a split records the bet as the
      split bet and doubles it. The record is appended either way; the bet
      accounting invariant is kept and the bet never goes down. */
  function ApplyAction(h: Hand, r: ActionRecord): (next: Hand)
    ensures next.actions == h.actions + [r]
    ensures next.playerStart == h.playerStart && next.dealerUp == h.dealerUp && next.result == h.result
    ensures BetInvariant(h) ==> BetInvariant(next) && next.betAmount >= h.betAmount
  {
    var afterDouble :=
      if r.action == Double then
        h.(betAmount := if h.isSplit then h.betAmount + h.splitBetAmount else h.betAmount * 2.0)
      else h;
    var afterSplit :=
      if r.action == Split then
        afterDouble.(isSplit := true, splitBetAmount := afterDouble.betAmount,
                     betAmount := afterDouble.betAmount * 2.0)
      else afterDouble;
    afterSplit.(actions := afterSplit.actions + [r])
  }

  /** A hand after a sequence of logged actions, applied in order. */
  function Replay(h: Hand, rs: seq<ActionRecord>): Hand {
    if |rs| == 0 then h else ApplyAction(Replay(h, rs[..|rs| - 1]), rs[|rs| - 1])
  }

  /** The bet accounting invariant of an open hand with a positive bet: the
      split bet, once recorded, is positive and no more than the whole bet. */
  ghost predicate BetInvariant(h: Hand) {
    h.betAmount > 0.0 && (h.isSplit ==> 0.0 < h.splitBetAmount <= h.betAmount)
  }

  /** The hand as `finishHand` records it, win amount included. */
  function FinishedHand(h: Hand, result: Outcome, finalPlayer: int, finalDealer: int,
                        bj: Option<Authoritative>): Hand
  {
    h.(result := result, finalPlayer := Some(finalPlayer), finalDealer := Some(finalDealer),
       winAmount := WinAmount(h.isSplit, h.splitBetAmount, h.betAmount, |h.playerStart|,
                              result, finalPlayer, bj))
  }

  /** `slice(-50)` once the history is longer than 50: the most recent hands.
      A history within the cap is kept whole; a longer one is cut to the cap. */
  function KeepRecent(hist: seq<Hand>): (r: seq<Hand>)
    ensures |r| == if |hist| > HistoryCap then HistoryCap else |hist|
    ensures |hist| <= HistoryCap ==> r == hist
  {
    if |hist| > HistoryCap then hist[|hist| - HistoryCap..] else hist
  }

  function Count(result: Outcome, counted: Outcome): nat {
    if result == counted then 1 else 0
  }

  // ---------------------------------------------------------------------------
  // Properties of the bet accounting and the history

  /** A double on a hand that was not split doubles its bet. */
  lemma DoubleDoublesUnsplitBet(h: Hand, r: ActionRecord)
    requires !h.isSplit && r.action == Double
    ensures ApplyAction(h, r).betAmount == 2.0 * h.betAmount && !ApplyAction(h, r).isSplit
  {
  }

  /** A split marks the hand split, records the old bet as the split bet and doubles the bet. */
  lemma SplitRecordsAndDoubles(h: Hand, r: ActionRecord)
    requires r.action == Split
    ensures var h' := ApplyAction(h, r);
            h'.isSplit && h'.splitBetAmount == h.betAmount && h'.betAmount == 2.0 * h.betAmount
  {
  }

  /** After a split, each double adds exactly one split bet. */
  lemma DoubleAfterSplitAddsSplitBet(h: Hand, r: ActionRecord)
    requires h.isSplit && r.action == Double
    ensures ApplyAction(h, r).betAmount == h.betAmount + h.splitBetAmount
    ensures ApplyAction(h, r).splitBetAmount == h.splitBetAmount
  {
  }

  /** Every logged action is kept, in order, and the opening fields are never touched. */
  lemma {:induction false} ReplayKeepsLog(h: Hand, rs: seq<ActionRecord>)
    ensures Replay(h, rs).actions == h.actions + rs
    ensures Replay(h, rs).playerStart == h.playerStart && Replay(h, rs).result == h.result
  {
    if |rs| > 0 {
      ReplayKeepsLog(h, rs[..|rs| - 1]);
      assert rs[..|rs| - 1] + [rs[|rs| - 1]] == rs;
    }
  }

  /** The accounting invariant holds through any sequence of actions, and the
      bet never decreases along it. */
  lemma {:induction false} ReplayNeverLowersBet(h: Hand, rs: seq<ActionRecord>)
    requires BetInvariant(h)
    ensures BetInvariant(Replay(h, rs)) && Replay(h, rs).betAmount >= h.betAmount
  {
    if |rs| > 0 {
      ReplayNeverLowersBet(h, rs[..|rs| - 1]);
    }
  }

  /** A hand opened with a positive bet (or with the default) satisfies the invariant. */
  lemma OpenHandSatisfiesInvariant(playerCards: seq<string>, dealerUp: string, bet: Option<real>)
    requires bet == None || bet.value >= 0.0
    ensures BetInvariant(OpenHand(playerCards, dealerUp, bet))
  {
  }

  /** After a split, `n` doubles leave the bet at `2 + n` times the opening bet. */
  lemma {:induction false} SplitThenDoubles(h: Hand, split: ActionRecord, doubles: seq<ActionRecord>)
    requires !h.isSplit && split.action == Split
    requires forall i :: 0 <= i < |doubles| ==> doubles[i].action == Double
    ensures Replay(ApplyAction(h, split), doubles).betAmount == (2 + |doubles|) as real * h.betAmount
    ensures Replay(ApplyAction(h, split), doubles).splitBetAmount == h.betAmount
    ensures Replay(ApplyAction(h, split), doubles).isSplit
  {
    if |doubles| > 0 {
      SplitThenDoubles(h, split, doubles[..|doubles| - 1]);
    }
  }

  /** Without a split, `n` doubles leave the bet at 2^n times the opening bet. */
  lemma {:induction false} DoublesWithoutSplit(h: Hand, doubles: seq<ActionRecord>)
    requires !h.isSplit
    requires forall i :: 0 <= i < |doubles| ==> doubles[i].action == Double
    ensures Replay(h, doubles).betAmount == Pow2(|doubles|) as real * h.betAmount
    ensures !Replay(h, doubles).isSplit
  {
    if |doubles| > 0 {
      DoublesWithoutSplit(h, doubles[..|doubles| - 1]);
    }
  }

  function Pow2(n: nat): nat {
    if n == 0 then 1 else 2 * Pow2(n - 1)
  }

  /** The capped history is the most recent stretch of the full one: as many
      hands as fit under the cap, in their original order. */
  lemma KeepRecentIsLatestStretch(hist: seq<Hand>)
    ensures |KeepRecent(hist)| == if |hist| > HistoryCap then HistoryCap else |hist|
    ensures forall i :: 0 <= i < |KeepRecent(hist)| ==>
              KeepRecent(hist)[i] == hist[|hist| - |KeepRecent(hist)| + i]
  {
    if |hist| > HistoryCap {
      var r := hist[|hist| - HistoryCap..];
      assert KeepRecent(hist) == r;
      forall i | 0 <= i < |r| ensures r[i] == hist[|hist| - HistoryCap + i] {
      }
    }
  }

  /** Appending a finished hand and capping keeps the history within its cap,
      ends it with that hand, and drops at most the single oldest hand. */
  lemma KeepRecentEndsWithLatest(hist: seq<Hand>, h: Hand)
    requires |hist| <= HistoryCap
    ensures |KeepRecent(hist + [h])| <= HistoryCap
    ensures KeepRecent(hist + [h])[|KeepRecent(hist + [h])| - 1] == h
    ensures KeepRecent(hist + [h]) == if |hist| < HistoryCap then hist + [h] else hist[1..] + [h]
  {
  }

  // ---------------------------------------------------------------------------
  // The tracking session

  /** The module-level tracking state: the hand in play, the running totals and the history. */
  class Session {
    var current: Option<Hand>
    var history: seq<Hand>
    var totalWins: nat
    var totalLosses: nat
    var totalPushes: nat
    var totalHands: nat
    var totalBet: real
    var totalWon: real

    /** The ledger counts only wins, losses and pushes; the history never exceeds its cap;
        a hand in play is still ongoing. */
    ghost predicate Valid()
      reads this
    {
      && totalHands == totalWins + totalLosses + totalPushes
      && |history| <= HistoryCap
      && (current.Some? ==> current.value.result == Ongoing)
    }

    constructor ()
      ensures Valid()
      ensures current == None && history == []
      ensures totalWins == 0 && totalLosses == 0 && totalPushes == 0 && totalHands == 0
      ensures totalBet == 0.0 && totalWon == 0.0
    {
      current := None;
      history := [];
      totalWins, totalLosses, totalPushes, totalHands := 0, 0, 0, 0;
      totalBet, totalWon := 0.0, 0.0;
    }

    /** `startNewHand`: open a hand, replacing any hand already in play. */
    method StartNewHand(playerCards: seq<string>, dealerUp: string, bet: Option<real>)
      requires Valid()
      modifies this`current
      ensures Valid()
      ensures current == Some(OpenHand(playerCards, dealerUp, bet))
    {
      current := Some(OpenHand(playerCards, dealerUp, bet));
    }

    /** `logAction`: record an action on the hand in play and adjust its bet; without a hand, nothing. */
    method LogAction(action: Action, playerCards: seq<string>, playerTotal: int, soft: bool)
      requires Valid()
      modifies this`current
      ensures Valid()
      ensures current == (if old(current).None? then None
                          else Some(ApplyAction(old(current).value,
                                                ActionRecord(action, playerCards, playerTotal, soft))))
    {
      if current.Some? {
        var h := current.value;
        if action == Double {
          if h.isSplit {
            h := h.(betAmount := h.betAmount + h.splitBetAmount);
          } else {
            h := h.(betAmount := h.betAmount * 2.0);
          }
        }
        if action == Split {
          h := h.(isSplit := true, splitBetAmount := h.betAmount, betAmount := h.betAmount * 2.0);
        }
        h := h.(actions := h.actions + [ActionRecord(action, playerCards, playerTotal, soft)]);
        current := Some(h);
      }
    }

    /** `finishHand`: score the hand in play against the game's outcome `bj`, add
        it to the totals and the history, and clear it; without a hand, nothing. */
    method FinishHand(result: Outcome, finalPlayer: int, finalDealer: int, bj: Option<Authoritative>)
      requires Valid()
      modifies this
      ensures Valid()
      ensures old(current).None? ==> unchanged(this)
      ensures old(current).Some? ==> current == None
      ensures old(current).Some? ==>
        history == KeepRecent(old(history) + [FinishedHand(old(current).value, result, finalPlayer, finalDealer, bj)])
      ensures old(current).Some? ==> totalBet == old(totalBet) + old(current).value.betAmount
      ensures old(current).Some? ==>
        totalWon == old(totalWon) + FinishedHand(old(current).value, result, finalPlayer, finalDealer, bj).winAmount
      ensures old(current).Some? ==> totalWins == old(totalWins) + Count(result, Win)
      ensures old(current).Some? ==> totalLosses == old(totalLosses) + Count(result, Loss)
      ensures old(current).Some? ==> totalPushes == old(totalPushes) + Count(result, Push)
    {
      if current.Some? {
        var h := current.value;
        h := h.(result := result, finalPlayer := Some(finalPlayer), finalDealer := Some(finalDealer));

        var winAmount := ScoreHand(h.isSplit, h.splitBetAmount, h.betAmount, |h.playerStart|,
                                   result, finalPlayer, bj);
        h := h.(winAmount := winAmount);
        assert h == FinishedHand(current.value, result, finalPlayer, finalDealer, bj);

        history := history + [h];
        totalBet := totalBet + h.betAmount;
        totalWon := totalWon + winAmount;
        if result == Win {
          totalWins := totalWins + 1;
        } else if result == Loss {
          totalLosses := totalLosses + 1;
        } else if result == Push {
          totalPushes := totalPushes + 1;
        }
        totalHands := totalWins + totalLosses + totalPushes;
        if |history| > HistoryCap {
          history := history[|history| - HistoryCap..];
        }
        current := None;
      }
    }
  }

  // ---------------------------------------------------------------------------
  // Sessions the tests play, checked against the contracts above alone

  /** Start [K,9] vs 7 at 1.00, stand, win 19 to 18: the ledger shows 1.00 bet and 2.00 won. */
  method BasicWinSession() {
    var s := new Session();
    s.StartNewHand(["K", "9"], "7", Some(1.0));
    s.LogAction(Stand, ["K", "9"], 19, false);
    var bj := Authoritative(0.0, 0.0, Some([SubHand(19, 2, ["stand"])]), 18);
    s.FinishHand(Win, 19, 18, Some(bj));
    assert s.totalHands == 1 && s.totalWins == 1;
    assert s.totalBet == 1.0 && s.totalWon == 2.0;
    // A second finish without a new hand changes nothing.
    s.FinishHand(Win, 19, 18, Some(bj));
    assert s.totalHands == 1 && s.totalBet == 1.0 && s.totalWon == 2.0 && |s.history| == 1;
  }

  /** Split 9s at 1.00 vs 6, double both sub-hands, both win against 17: 4.00 bet, 8.00 won. */
  method SplitDoubleBothSession() {
    var s := new Session();
    s.StartNewHand(["9", "9"], "6", Some(1.0));
    s.LogAction(Split, ["9", "9"], 9, false);
    s.LogAction(Double, ["9", "A", "9"], 19, false);
    s.LogAction(Double, ["9", "10"], 19, false);
    assert s.current.value.betAmount == 4.0 && s.current.value.splitBetAmount == 1.0 && s.current.value.isSplit;
    var hands := [SubHand(19, 3, ["double"]), SubHand(19, 2, ["double"])];
    assert SplitPayoutSum(hands, 1.0, 17) == 8.0 by { PinnedSplitPayouts(); }
    var bj := Authoritative(0.0, 0.0, Some(hands), 17);
    s.FinishHand(Win, 19, 17, Some(bj));
    assert s.totalBet == 4.0 && s.totalWon == 8.0 && s.totalHands == 1;
  }

  /** [A,K] at 1.00 wins with 21: paid 3:2, 2.50 won. */
  method BlackjackSession() {
    var s := new Session();
    s.StartNewHand(["A", "K"], "7", Some(1.0));
    var bj := Authoritative(0.0, 0.0, Some([SubHand(21, 2, [])]), 19);
    s.FinishHand(Win, 21, 19, Some(bj));
    assert s.totalBet == 1.0 && s.totalWon == 2.5;
  }

  /** A win, a loss and a push at 1.00 each: three hands, 3.00 bet, 3.00 won. */
  method MultipleHandsSession() {
    var s := new Session();
    s.StartNewHand(["K", "9"], "7", Some(1.0));
    s.LogAction(Stand, ["K", "9"], 19, false);
    s.FinishHand(Win, 19, 18, None);
    s.StartNewHand(["10", "6"], "10", Some(1.0));
    s.LogAction(Hit, ["10", "6", "9"], 25, false);
    s.FinishHand(Loss, 25, 20, None);
    s.StartNewHand(["K", "7"], "10", Some(1.0));
    s.LogAction(Stand, ["K", "7"], 17, false);
    s.FinishHand(Push, 17, 17, None);
    assert s.totalHands == 3 && s.totalWins == 1 && s.totalLosses == 1 && s.totalPushes == 1;
    assert s.totalBet == 3.0 && s.totalWon == 3.0;
  }

  /** A hand started with no bet is staked at the default. */
  method DefaultBetSession() {
    var s := new Session();
    s.StartNewHand(["5", "6"], "5", None);
    s.LogAction(Double, ["5", "6", "K"], 21, false);
    s.FinishHand(Loss, 21, 20, None);
    assert s.totalBet == 0.5 && s.totalWon == 0.0 && s.totalLosses == 1;
  }
}
