/**
 * The betting service of the bot: given a snapshot of the hand it answers
 * with one action (fold, call or check, or raise by some chips).
 *
 * The service value has no fields, so nothing here changes state: the scans
 * are methods without a `modifies` clause and the decision is a function.
 */
module Service {
  import opened Wrappers
  import opened Game
  import opened Rounding

  /** A Go runtime failure the decision can run into. */
  datatype Fault =
    | IndexOutOfRange   // a hole card read past the end of the list

  /** Rank at or above which a ranked post-flop hand folds. */
  const FoldRank := 6186
  /** Rank at or below which a ranked post-flop hand goes all in. */
  const AllInRank := 1600
  /** Rank from which a post-flop hand that survives the bet test calls. */
  const CallRank := 4000
  /** Pre-flop raise on a pocket pair. */
  const PairRaise := 20

  predicate IsCallOrCheck(token: string) {
    token == "call" || token == "check"
  }

  /**
   * The call/check token offered to the bot: the last entry of the list of
   * legal actions that reads "call" or "check", or "" when there is none.
   */
  function LastCallOrCheck(actions: seq<string>): (token: string)
    ensures token == "" || IsCallOrCheck(token)
    ensures token == "" <==> forall i :: 0 <= i < |actions| ==> !IsCallOrCheck(actions[i])
    ensures token != "" ==>
      exists k :: 0 <= k < |actions| && actions[k] == token &&
        forall j :: k < j < |actions| ==> !IsCallOrCheck(actions[j])
  {
    if |actions| == 0 then ""
    else if IsCallOrCheck(actions[|actions| - 1]) then actions[|actions| - 1]
    else LastCallOrCheck(actions[..|actions| - 1])
  }

  /** The scan over the legal actions, overwriting the token at each match. */
  method ScanCallOrCheck(actions: seq<string>) returns (callOrCheck: string)
    ensures callOrCheck == LastCallOrCheck(actions)
  {
    callOrCheck := "";
    for i := 0 to |actions|
      invariant callOrCheck == LastCallOrCheck(actions[..i])
    {
      assert actions[..i + 1][..i] == actions[..i];
      if actions[i] == "call" || actions[i] == "check" {
        callOrCheck := actions[i];
      }
    }
    assert actions[..|actions|] == actions;
  }

  /**
   * The bot's own seat: the first player holding any hole cards, or the
   * zero-value player when nobody does.
   */
  function SelfPlayer(players: seq<PokerPlayer>): (me: PokerPlayer)
    ensures (forall i :: 0 <= i < |players| ==> |players[i].holeCards| == 0) ==> me == ZeroPlayer
    ensures (exists i :: 0 <= i < |players| && |players[i].holeCards| > 0) ==>
      exists k :: 0 <= k < |players| && me == players[k] && |me.holeCards| > 0 &&
        forall j :: 0 <= j < k ==> |players[j].holeCards| == 0
  {
    if |players| == 0 then ZeroPlayer
    else if |players[0].holeCards| > 0 then players[0]
    else SelfPlayer(players[1..])
  }

  /** The scan over the seats, stopping at the first one with hole cards. */
  method FindSelf(players: seq<PokerPlayer>) returns (myPlayer: PokerPlayer)
    ensures myPlayer == SelfPlayer(players)
  {
    myPlayer := ZeroPlayer;
    for i := 0 to |players|
      invariant SelfPlayer(players[i..]) == SelfPlayer(players)
      invariant myPlayer == ZeroPlayer
    {
      if |players[i].holeCards| > 0 {
        myPlayer := players[i];
        break;
      }
      assert players[i..][1..] == players[i + 1..];
    }
  }

  /**
   * True when the current bet is at least 35% of the stack. The service
   * compares single-precision floats; this is the exact comparison
   * 20 * bet >= 7 * chips.
   */
  predicate BetTooLarge(chips: int, currentBet: int) {
    20 * currentBet >= 7 * chips
  }

  /**
   * The proportional stake of a mid-strength hand,
   * round(chips * (1 - 2 * rank / 10000)), computed exactly and rounded half
   * away from zero. For a stack of chips >= 0 and a rank strictly between
   * the all-in and call bands it lies within the stack.
   */
  function MidBandBet(chips: int, rank: int): (b: int)
    ensures chips >= 0 && AllInRank < rank < CallRank ==> 0 <= b <= chips
    ensures chips >= 2 && AllInRank < rank < CallRank ==> b < chips
  {
    var n := chips * (5000 - rank);
    assert chips >= 0 && AllInRank < rank < CallRank ==> 0 <= n <= chips * 3399 by {
      if chips >= 0 && AllInRank < rank < CallRank {
        MulMonotone(chips, 5000 - rank, 3399);
        MulMonotone(chips, 0, 5000 - rank);
      }
    }
    RoundHalfAway(n, 5000)
  }

  /**
   * The post-flop cascade on the hand rank (lower is stronger); the first
   * rule that applies decides. `callOrCheck` is the token from the scan.
   */
  function PostFlop(callOrCheck: string, rank: int, chips: int, currentBet: int): (a: Action)
    requires callOrCheck == "" || IsCallOrCheck(callOrCheck)
    ensures a.selectedAction in {"fold", "raise", callOrCheck}
    ensures a.selectedAction != "raise" ==> a.value == 0
    ensures rank <= 0 ==> a == CallOrCheck(callOrCheck)
    ensures a.selectedAction == "raise" ==> 1 <= rank < CallRank
    ensures a.selectedAction == "raise" && AllInRank < rank ==>
      1 <= a.value && (chips >= 0 && currentBet >= 0 ==> a.value <= chips)
  {
    if rank > 0 then
      if rank >= FoldRank then Fold()
      else if rank <= AllInRank then Raise(chips - currentBet)
      else if BetTooLarge(chips, currentBet) then Fold()
      // the two guards below hold whenever they are reached
      else if !BetTooLarge(chips, currentBet) && rank <= FoldRank - 1 then
        if rank >= CallRank then CallOrCheck(callOrCheck)
        else if MidBandBet(chips, rank) > currentBet then
          Raise(MidBandBet(chips, rank) - currentBet)
        else CallOrCheck(callOrCheck)
      else CallOrCheck(callOrCheck)
    else CallOrCheck(callOrCheck)
  }

  /**
   * The whole decision for one snapshot. The only failure is the pre-flop
   * read of two hole cards when the bot's seat holds fewer.
   */
  function Decision(g: Game): (r: Result<Action, Fault>)
    ensures r.Failure? <==> |g.communityCards| == 0 && |SelfPlayer(g.pokerPlayers).holeCards| < 2
    ensures r.Success? ==> r.value.selectedAction in {"fold", "raise", "call", "check", ""}
    ensures r.Success? && r.value.selectedAction != "raise" ==> r.value.value == 0
  {
    var callOrCheck := LastCallOrCheck(g.availableActions);
    var myPlayer := SelfPlayer(g.pokerPlayers);
    if |g.communityCards| == 0 then
      if |myPlayer.holeCards| < 2 then Failure(IndexOutOfRange)
      else if CardString(myPlayer.holeCards[0])[0] == CardString(myPlayer.holeCards[1])[0] then
        Success(Raise(PairRaise))
      else Success(CallOrCheck(callOrCheck))
    else Success(PostFlop(callOrCheck, myPlayer.handRankInt, myPlayer.chips, g.currentBet))
  }

  /** The service's Action operation: the two scans, then the decision. */
  method Action(g: Game) returns (r: Result<Action, Fault>)
    ensures r == Decision(g)
  {
    var callOrCheck := ScanCallOrCheck(g.availableActions);
    var myPlayer := FindSelf(g.pokerPlayers);
    if |g.communityCards| == 0 {
      if |myPlayer.holeCards| < 2 {
        return Failure(IndexOutOfRange);
      }
      if CardString(myPlayer.holeCards[0])[0] == CardString(myPlayer.holeCards[1])[0] {
        return Success(Raise(PairRaise));
      }
      return Success(CallOrCheck(callOrCheck));
    }
    r := Success(PostFlop(callOrCheck, myPlayer.handRankInt, myPlayer.chips, g.currentBet));
  }

  /** The service's health probe: it has nothing to check and never fails. */
  function Health(): (err: Outcome<Fault>)
    ensures err.Pass?
  {
    Pass
  }
}
