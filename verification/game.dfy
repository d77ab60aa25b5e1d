/**
 * The value types the betting service receives and returns. They belong to
 * the game server's `game` package (and, for cards, to the poker card
 * library); only the fields the decision reads are kept.
 */
module Game {

  /** A playing card, seen as its two-character text: rank then suit ('T', 's' for "Ts"). */
  datatype Card = Card(rank: char, suit: char)

  /** The card's text form, as the card library prints it: rank character first. */
  function CardString(c: Card): string {
    [c.rank, c.suit]
  }

  /** One seat at the table. Only the bot's own seat carries hole cards. */
  datatype PokerPlayer = PokerPlayer(
    name: string,
    chips: int,
    holeCards: seq<Card>,
    handRankInt: int,   // evaluator rank, lower is stronger; 0 when unranked
    chipsCommittedThisAction: int)

  /** The zero value of a player record: no name, no chips, no cards, rank 0. */
  const ZeroPlayer := PokerPlayer("", 0, [], 0, 0)

  /** The snapshot of a hand that the game server sends with each request. */
  datatype Game = Game(
    gameID: string,
    pokerPlayers: seq<PokerPlayer>,
    availableActions: seq<string>,
    communityCards: seq<Card>,
    currentBet: int)

  /** The reply: an action token and, for a raise, the chips to add. */
  datatype Action = Action(selectedAction: string, value: int)

  /** Give up the hand. */
  function Fold(): Action
  {
    Action("fold", 0)
  }

  /** Raise by `value` chips. */
  function Raise(value: int): Action
  {
    Action("raise", value)
  }

  /** Match the current bet with the given token ("call", "check" or none). */
  function CallOrCheck(token: string): Action
  {
    Action(token, 0)
  }
}
