/** The rule engine: the guarded Starting -> Playing -> Done -> Starting lifecycle
    over the history tree (blackjack/src/rules.rs). */
module GameRules {
  import opened Wrappers
  import opened GameStates
  import opened Players
  import opened Generations

  /** The one error a transition reports: the phase the game was in (blackjack/src/error.rs). */
  datatype RuleError = InvalidState(progress: Progress)

  /** The four guarded transitions. */
  datatype Action = AddPlayer | StartPlaying | DonePlaying | NewGame

  /** The phase in which an action is allowed. */
  function Guard(a: Action): Progress {
    match a
    case AddPlayer => Starting
    case StartPlaying => Starting
    case DonePlaying => Playing
    case NewGame => Done
  }

  /** The phase an accepted action leaves the game in. */
  function Target(a: Action): Progress {
    match a
    case AddPlayer => Starting
    case StartPlaying => Playing
    case DonePlaying => Done
    case NewGame => Starting
  }

  /** The transition table on snapshots: outside its guard an action reports the
      current phase; otherwise add_player seats one more (empty-handed) player
      and every other action only moves the phase. */
  function Apply(s: GameState, a: Action): (r: Result<GameState, RuleError>)
    ensures r.Ok? <==> s.progress == Guard(a)
    ensures r.Err? ==> r.error == InvalidState(s.progress)
    ensures r.Ok? ==> r.value.progress == Target(a) && r.value.house == s.house && r.value.shoe == s.shoe
    ensures r.Ok? && a == AddPlayer ==> r.value.players == s.players + [Player([])]
    ensures r.Ok? && a != AddPlayer ==> r.value.players == s.players
  {
    if s.progress != Guard(a) then Err(InvalidState(s.progress))
    else if a == AddPlayer then Ok(s.(players := s.players + [Player([])]))
    else Ok(s.(progress := Target(a)))
  }

  /** Exactly one of start_playing, done_playing and new_game is allowed in each phase. */
  lemma LifecycleIsACycle(p: Progress)
    ensures |set a | a in {StartPlaying, DonePlaying, NewGame} && Guard(a) == p| == 1
  {
    var allowed := set a | a in {StartPlaying, DonePlaying, NewGame} && Guard(a) == p;
    match p
    case Starting => assert allowed == {StartPlaying};
    case Playing => assert allowed == {DonePlaying};
    case Done => assert allowed == {NewGame};
  }

  /** A caller running actions one after another and stopping at the first error. */
  function Run(s: GameState, actions: seq<Action>): Result<GameState, RuleError>
    decreases |actions|
  {
    if actions == [] then Ok(s)
    else match Apply(s, actions[0])
      case Err(e) => Err(e)
      case Ok(t) => Run(t, actions[1..])
  }

  /** How many of the actions seat a player. */
  function Joins(actions: seq<Action>): nat {
    if actions == [] then 0 else (if actions[0] == AddPlayer then 1 else 0) + Joins(actions[1..])
  }

  /** Whatever a run of accepted actions does, the players already seated stay
      seated in order, one more is seated per add_player, and the phase is the
      target of the last action. */
  lemma {:induction false} RunKeepsSeats(s: GameState, actions: seq<Action>)
    requires Run(s, actions).Ok?
    ensures |Run(s, actions).value.players| == |s.players| + Joins(actions)
    ensures s.players <= Run(s, actions).value.players
    ensures actions != [] ==> Run(s, actions).value.progress == Target(actions[|actions| - 1])
    ensures Run(s, actions).value.house == s.house && Run(s, actions).value.shoe == s.shoe
    decreases |actions|
  {
    if actions != [] {
      var t := Apply(s, actions[0]).value;
      RunKeepsSeats(t, actions[1..]);
      if |actions| > 1 {
        assert actions[1..][|actions[1..]| - 1] == actions[|actions| - 1];
      }
    }
  }

  class Rules {
    /** The root of the history. */
    var generation: Generation
    /** The next timestamp to issue; it replaces SystemTime::now(). */
    var clock: nat

    /** Every branch of the root is a leaf stamped before the clock, and the
        stamps increase in the order the branches were added. */
    ghost predicate Valid()
      reads this
    {
      && (forall i :: 0 <= i < |generation.children| ==>
            generation.children[i].children == [] && generation.children[i].timestamp < clock)
      && (forall i, j :: 0 <= i < j < |generation.children| ==>
            generation.children[i].timestamp < generation.children[j].timestamp)
    }

    /** Default: a root holding the default game state and no branches. */
    constructor ()
      ensures Valid()
      ensures NumberOfBranches(generation) == 0
      ensures CurrentState() == DefaultGameState()
      ensures CurrentProgress() == Starting && CurrentState().players == []
    {
      generation := NewGeneration(DefaultGameState(), 0);
      clock := 1;
    }

    /** current_state: the state at the end of the current branch of the root. */
    function CurrentState(): (s: GameState)
      reads this
      ensures StateInTree(generation, s)
    {
      Generations.CurrentState(generation)
    }

    /** current_progress: the phase of the current state. */
    function CurrentProgress(): Progress
      reads this
    {
      CurrentState().progress
    }

    function IsStarting(): bool
      reads this
    {
      CurrentProgress() == Starting
    }

    function IsPlaying(): bool
      reads this
    {
      CurrentProgress() == Playing
    }

    function IsDone(): bool
      reads this
    {
      CurrentProgress() == Done
    }

    /** Exactly one of is_starting, is_playing and is_done holds, the one naming
        the current progress. */
    lemma ExactlyOnePhase()
      ensures IsStarting() <==> CurrentProgress() == Starting
      ensures IsPlaying() <==> CurrentProgress() == Playing
      ensures IsDone() <==> CurrentProgress() == Done
      ensures (if IsStarting() then 1 else 0) + (if IsPlaying() then 1 else 0) + (if IsDone() then 1 else 0) == 1
    {
    }

    /** In a valid engine the current state is that of the newest root branch,
        or the root's own while there is none. */
    lemma CurrentIsNewest()
      requires Valid()
      ensures generation.children == [] ==> CurrentState() == generation.state
      ensures generation.children != [] ==> CurrentState() == generation.children[|generation.children| - 1].state
    {
    }

    /** The outcome of running action a on an engine whose root was g0 and whose
        clock was c0: on rejection nothing changed; on acceptance the new state
        is pushed as the newest root branch and becomes current. */
    ghost predicate Committed(g0: Generation, c0: nat, a: Action, r: Result<(), RuleError>)
      reads this
    {
      match Apply(Generations.CurrentState(g0), a)
      case Err(e) => r == Err(e) && generation == g0 && clock == c0
      case Ok(s) =>
        && r == Ok(())
        && generation == AddGeneration(g0, s, c0)
        && clock == c0 + 1
        && CurrentState() == s
    }

    /** Pushes s as a new root branch stamped with the clock, and advances the clock. */
    method Commit(s: GameState)
      requires Valid()
      modifies this
      ensures Valid()
      ensures generation == AddGeneration(old(generation), s, old(clock))
      ensures clock == old(clock) + 1
      ensures CurrentState() == s
    {
      AddedBecomesCurrent(generation, s, clock);
      generation := AddGeneration(generation, s, clock);
      clock := clock + 1;
    }

    /** add_player: only while Starting; seats one more player. */
    method AddPlayer() returns (r: Result<(), RuleError>)
      requires Valid()
      modifies this
      ensures Valid()
      ensures r.Ok? <==> old(IsStarting())
      ensures r.Err? ==> r.error == InvalidState(old(CurrentProgress()))
      ensures r.Ok? ==> (&& |CurrentState().players| == |old(CurrentState()).players| + 1
                         && CurrentProgress() == Starting
                         && NumberOfBranches(generation) == NumberOfBranches(old(generation)) + 1)
      ensures Committed(old(generation), old(clock), Action.AddPlayer, r)
    {
      if !IsStarting() {
        return Err(InvalidState(CurrentProgress()));
      }
      var gs := CurrentState();
      ghost var before := gs;
      gs := gs.(players := gs.players + [Player([])]);
      assert Apply(before, Action.AddPlayer) == Ok(gs);
      Commit(gs);
      r := Ok(());
    }

    /** start_playing: only while Starting; moves to Playing. */
    method StartPlaying() returns (r: Result<(), RuleError>)
      requires Valid()
      modifies this
      ensures Valid()
      ensures r.Ok? <==> old(IsStarting())
      ensures r.Err? ==> r.error == InvalidState(old(CurrentProgress()))
      ensures r.Ok? ==> CurrentProgress() == Playing && CurrentState().players == old(CurrentState()).players
      ensures Committed(old(generation), old(clock), Action.StartPlaying, r)
    {
      if !IsStarting() {
        return Err(InvalidState(CurrentProgress()));
      }
      var gs := CurrentState();
      ghost var before := gs;
      gs := gs.(progress := Playing);
      assert Apply(before, Action.StartPlaying) == Ok(gs);
      Commit(gs);
      r := Ok(());
    }

    /** done_playing: only while Playing; moves to Done. */
    method DonePlaying() returns (r: Result<(), RuleError>)
      requires Valid()
      modifies this
      ensures Valid()
      ensures r.Ok? <==> old(IsPlaying())
      ensures r.Err? ==> r.error == InvalidState(old(CurrentProgress()))
      ensures r.Ok? ==> CurrentProgress() == Done && CurrentState().players == old(CurrentState()).players
      ensures Committed(old(generation), old(clock), Action.DonePlaying, r)
    {
      if !IsPlaying() {
        return Err(InvalidState(CurrentProgress()));
      }
      var gs := CurrentState();
      ghost var before := gs;
      gs := gs.(progress := Done);
      assert Apply(before, Action.DonePlaying) == Ok(gs);
      Commit(gs);
      r := Ok(());
    }

    /** new_game: only when Done; moves back to Starting, keeping the players. */
    method NewGame() returns (r: Result<(), RuleError>)
      requires Valid()
      modifies this
      ensures Valid()
      ensures r.Ok? <==> old(IsDone())
      ensures r.Err? ==> r.error == InvalidState(old(CurrentProgress()))
      ensures r.Ok? ==> CurrentProgress() == Starting && CurrentState().players == old(CurrentState()).players
      ensures Committed(old(generation), old(clock), Action.NewGame, r)
    {
      if !IsDone() {
        return Err(InvalidState(CurrentProgress()));
      }
      var gs := CurrentState();
      ghost var before := gs;
      gs := gs.(progress := Starting);
      assert Apply(before, Action.NewGame) == Ok(gs);
      Commit(gs);
      r := Ok(());
    }
  }

  /** The unit tests default_rules and default_games_are_in_the_starting_state. */
  method DefaultRulesExample() {
    var rules := new Rules();
    assert |Branches(rules.generation)| == 0;
    assert rules.IsStarting() && !rules.IsPlaying() && !rules.IsDone();
  }

  /** The documented example of add_player and the unit test adding_player_to_rules,
      as a client sees them. */
  method SeatingExample() {
    var rules := new Rules();
    var r := rules.AddPlayer();
    assert r.Ok? && NumberOfBranches(rules.generation) == 1;
    assert |rules.CurrentState().players| == 1;
    r := rules.AddPlayer();
    assert |rules.CurrentState().players| == 2;
  }

  /** The unit test games_should_move_to_playing_state, and seating refused once
      playing. */
  method PlayingExample() {
    var rules := new Rules();
    var r := rules.StartPlaying();
    assert r.Ok? && rules.CurrentProgress() == Playing;
    r := rules.AddPlayer();
    assert r == Err(InvalidState(Playing));
  }

  /** The unit test games_should_move_to_done_state, then new_game and a
      done_playing refused once done. */
  method LifecycleExample() {
    var rules := new Rules();
    var r := rules.DonePlaying();
    assert r == Err(InvalidState(Starting));
    r := rules.StartPlaying();
    r := rules.DonePlaying();
    assert r.Ok? && rules.IsDone();
    r := rules.DonePlaying();
    assert r == Err(InvalidState(Done));
    r := rules.NewGame();
    assert r.Ok? && rules.CurrentProgress() == Starting;
  }

  /** The opening of the documented examples: a default engine with two players
      seated. */
  method SeatTwoPlayers() returns (rules: Rules)
    ensures fresh(rules) && rules.Valid()
    ensures rules.IsStarting() && |rules.CurrentState().players| == 2
  {
    rules := new Rules();
    var r := rules.AddPlayer();
    r := rules.AddPlayer();
  }

  /** The documented examples of start_playing, done_playing and new_game: two
      players are seated first, and they stay seated through the whole round. */
  method DocumentedRoundExample() {
    var rules := SeatTwoPlayers();
    var r := rules.StartPlaying();
    assert r.Ok? && rules.CurrentProgress() == Playing;
    r := rules.DonePlaying();
    assert r.Ok? && rules.CurrentProgress() == Done;
    r := rules.NewGame();
    assert r.Ok? && rules.CurrentProgress() == Starting;
    assert |rules.CurrentState().players| == 2;
  }
}
