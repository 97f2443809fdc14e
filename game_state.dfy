/** One snapshot of the game (blackjack/src/game_state.rs). */
module GameStates {
  import opened Cards
  import opened Players
  import opened Shoes

  /** The lifecycle phase; Starting is the default. */
  datatype Progress = Starting | Playing | Done

  /** Display for Progress: the variant's name. */
  function Display(p: Progress): (name: string)
    ensures |name| > 0
  {
    match p
    case Starting => "Starting"
    case Playing => "Playing"
    case Done => "Done"
  }

  /** The displayed names tell the phases apart. */
  lemma DisplayIsInjective(p: Progress, q: Progress)
    ensures Display(p) == Display(q) <==> p == q
  {
  }

  /** A snapshot: the phase, the dealer's hand, the players in seating order and
      the cards left in the shoe. Clone and equality are those of the value. */
  datatype GameState = GameState(progress: Progress, house: House, players: seq<Player>, shoe: seq<Card>)

  /** GameState::default: Starting, an empty house hand, no players and a default
      (unshuffled, seven-deck) shoe. */
  function DefaultGameState(): (s: GameState)
    ensures s.progress == Starting && s.players == [] && s.house.hand == []
    ensures |s.shoe| == 364
  {
    GameState(Starting, House([]), [], DefaultShoeCards())
  }
}
