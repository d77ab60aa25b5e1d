/**
 * What the betting decision promises, rule by rule, stated over a whole game
 * snapshot, and the scenarios of the service's unit tests.
 */
module ActionProperties {
  import opened Wrappers
  import opened Game
  import opened Rounding
  import opened Service

  // ---------------------------------------------------------------------------
  // Pre-flop

  /** Pre-flop the bot raises 20 exactly on a pocket pair, and otherwise calls or checks. */
  lemma PreFlopPocketPair(g: Game)
    requires |g.communityCards| == 0 && |SelfPlayer(g.pokerPlayers).holeCards| >= 2
    ensures Decision(g) == Success(Raise(20)) <==> SelfPlayer(g.pokerPlayers).holeCards[0].rank == SelfPlayer(g.pokerPlayers).holeCards[1].rank
    ensures SelfPlayer(g.pokerPlayers).holeCards[0].rank != SelfPlayer(g.pokerPlayers).holeCards[1].rank ==>
      Decision(g) == Success(CallOrCheck(LastCallOrCheck(g.availableActions)))
  {
  }

  /** With no seat holding cards, pre-flop reads a hole card that is not there. */
  lemma PreFlopWithoutSeatFails(g: Game)
    requires |g.communityCards| == 0
    requires forall i :: 0 <= i < |g.pokerPlayers| ==> |g.pokerPlayers[i].holeCards| == 0
    ensures Decision(g) == Failure(IndexOutOfRange)
  {
  }

  // ---------------------------------------------------------------------------
  // Post-flop, rule by rule

  /** An unranked hand (rank 0 or below) calls or checks whatever the bet. */
  lemma PostFlopUnrankedCalls(g: Game)
    requires |g.communityCards| > 0 && SelfPlayer(g.pokerPlayers).handRankInt <= 0
    ensures Decision(g) == Success(CallOrCheck(LastCallOrCheck(g.availableActions)))
  {
  }

  /** With no seat holding cards, the zero-value player is unranked, so the bot calls or checks. */
  lemma PostFlopWithoutSeatCalls(g: Game)
    requires |g.communityCards| > 0
    requires forall i :: 0 <= i < |g.pokerPlayers| ==> |g.pokerPlayers[i].holeCards| == 0
    ensures Decision(g) == Success(CallOrCheck(LastCallOrCheck(g.availableActions)))
  {
  }

  /** A ranked hand at 6186 or worse folds. */
  lemma PostFlopWeakHandFolds(g: Game)
    requires |g.communityCards| > 0 && SelfPlayer(g.pokerPlayers).handRankInt >= 6186
    ensures Decision(g) == Success(Fold())
  {
  }

  /**
   * A hand ranked 1 to 1600 goes all in: it raises by the stack less the
   * current bet, unclamped, so by nothing or a negative amount when the bet
   * has reached the stack.
   */
  lemma PostFlopStrongHandAllIn(g: Game)
    requires |g.communityCards| > 0 && 1 <= SelfPlayer(g.pokerPlayers).handRankInt <= 1600
    ensures Decision(g) == Success(Raise(SelfPlayer(g.pokerPlayers).chips - g.currentBet))
    ensures g.currentBet >= SelfPlayer(g.pokerPlayers).chips ==> Decision(g).value.value <= 0
  {
  }

  /** Between the all-in and fold bands, a bet of 35% of the stack or more folds. */
  lemma PostFlopLargeBetFolds(g: Game)
    requires |g.communityCards| > 0 && 1600 < SelfPlayer(g.pokerPlayers).handRankInt < 6186
    requires BetTooLarge(SelfPlayer(g.pokerPlayers).chips, g.currentBet)
    ensures Decision(g) == Success(Fold())
  {
  }

  /** A hand ranked 4000 to 6185 facing a bet under 35% of the stack calls or checks. */
  lemma PostFlopMediumHandCalls(g: Game)
    requires |g.communityCards| > 0 && 4000 <= SelfPlayer(g.pokerPlayers).handRankInt <= 6185
    requires !BetTooLarge(SelfPlayer(g.pokerPlayers).chips, g.currentBet)
    ensures Decision(g) == Success(CallOrCheck(LastCallOrCheck(g.availableActions)))
  {
  }

  /**
   * A hand ranked 1601 to 3999 facing a bet under 35% of the stack raises by
   * its proportional stake less the bet when that is positive, and otherwise
   * calls or checks. With a non-negative stack and bet the raise is at least
   * one chip and at most the stack, and below the stack once it holds two
   * chips or more.
   */
  lemma PostFlopMidBand(g: Game)
    requires |g.communityCards| > 0 && 1600 < SelfPlayer(g.pokerPlayers).handRankInt < 4000
    requires !BetTooLarge(SelfPlayer(g.pokerPlayers).chips, g.currentBet)
    ensures var b := MidBandBet(SelfPlayer(g.pokerPlayers).chips, SelfPlayer(g.pokerPlayers).handRankInt);
      Decision(g) == if b > g.currentBet then Success(Raise(b - g.currentBet))
                     else Success(CallOrCheck(LastCallOrCheck(g.availableActions)))
    ensures SelfPlayer(g.pokerPlayers).chips >= 0 && g.currentBet >= 0 && Decision(g).value.selectedAction == "raise" ==>
      1 <= Decision(g).value.value <= SelfPlayer(g.pokerPlayers).chips &&
      (SelfPlayer(g.pokerPlayers).chips >= 2 ==> Decision(g).value.value < SelfPlayer(g.pokerPlayers).chips)
  {
  }

  // ---------------------------------------------------------------------------
  // Post-flop, summarised

  /** Post-flop the bot folds exactly on a weak hand, or on a middling one facing a large bet. */
  lemma PostFlopFoldsIff(g: Game)
    requires |g.communityCards| > 0
    ensures Decision(g) == Success(Fold()) <==>
      SelfPlayer(g.pokerPlayers).handRankInt >= 6186 ||
      (1600 < SelfPlayer(g.pokerPlayers).handRankInt < 6186 && BetTooLarge(SelfPlayer(g.pokerPlayers).chips, g.currentBet))
  {
  }

  /** Post-flop the bot raises exactly on a strong hand, or on a mid-band one whose stake tops the bet. */
  lemma PostFlopRaisesIff(g: Game)
    requires |g.communityCards| > 0
    ensures Decision(g).value.selectedAction == "raise" <==>
      (1 <= SelfPlayer(g.pokerPlayers).handRankInt <= 1600) ||
      (1600 < SelfPlayer(g.pokerPlayers).handRankInt < 4000 && !BetTooLarge(SelfPlayer(g.pokerPlayers).chips, g.currentBet) &&
       MidBandBet(SelfPlayer(g.pokerPlayers).chips, SelfPlayer(g.pokerPlayers).handRankInt) > g.currentBet)
  {
  }

  /** In the mid band a stronger hand (lower rank) never stakes less. */
  lemma {:induction false} MidBandBetMonotone(chips: int, rank1: int, rank2: int)
    requires chips >= 0 && 1600 < rank1 <= rank2 < 4000
    ensures MidBandBet(chips, rank1) >= MidBandBet(chips, rank2)
  {
    MulMonotone(chips, 5000 - rank2, 5000 - rank1);
    RoundHalfAwayMonotone(chips * (5000 - rank2), chips * (5000 - rank1), 5000);
  }

  // ---------------------------------------------------------------------------
  // The unit tests' scenarios: the bot "Vinnie" with 100 chips in the first
  // seat, two opponents without hole cards, and a list of legal actions whose
  // call/check token is "call".

  function Table(holeCards: seq<Card>, rank: int): seq<PokerPlayer> {
    [PokerPlayer("Vinnie", 100, holeCards, rank, 0),
     PokerPlayer("Jimmy", 99, [], -1, 0),
     PokerPlayer("Guido", 98, [], -1, 0)]
  }

  /** Pre-flop with ten and deuce offsuit, the bot calls. */
  lemma PreFlopCheckScenario(actions: seq<string>)
    requires LastCallOrCheck(actions) == "call"
    ensures Decision(Game("CheckPreFlop", Table([Card('T', 's'), Card('2', 'd')], 0), actions, [], 0))
      == Success(CallOrCheck("call"))
  {
  }

  /**
   * Pre-flop with ace-deuce, and with suited queen-deuce, the service calls:
   * it has no ace or suited-queen rule, so the tests that expect a raise of
   * 20 for these hands do not hold of it.
   */
  lemma AceAndSuitedQueenScenarios(actions: seq<string>)
    requires LastCallOrCheck(actions) == "call"
    ensures Decision(Game("RaiseAce", Table([Card('A', 's'), Card('2', 'd')], 0), actions, [], 0))
      == Success(CallOrCheck("call"))
    ensures Decision(Game("Suited", Table([Card('Q', 'd'), Card('2', 'd')], 0), actions, [], 0))
      == Success(CallOrCheck("call"))
  {
  }

  /** On the flop with an unranked hand and no bet, the bot calls. */
  lemma FlopCallScenario(actions: seq<string>)
    requires LastCallOrCheck(actions) == "call"
    ensures Decision(Game("FlopCall", Table([Card('Q', 's'), Card('2', 'd')], 0), actions,
                          [Card('T', 's'), Card('3', 'h'), Card('7', 'c')], 0))
      == Success(CallOrCheck("call"))
  {
  }

  /**
   * On the flop with a pair of deuces (the evaluator ranks every one-pair
   * hand between 3326 and 6185, deuces last) facing a bet of 5, the bot calls.
   */
  lemma FlopMatchCallScenario(actions: seq<string>, rank: int)
    requires LastCallOrCheck(actions) == "call" && 4000 <= rank <= 6185
    ensures Decision(Game("FlopMatchCall", Table([Card('Q', 's'), Card('2', 'd')], rank), actions,
                          [Card('T', 's'), Card('2', 'h'), Card('7', 'c')], 5))
      == Success(CallOrCheck("call"))
  {
  }
}
