/** A single game (src/game/engine.py): the round transition guarded by the
    completion check and the payoff lookup, and the read-only views. */
module Engine {
  import opened Wrappers
  import opened Text
  import opened Json
  import opened Payoffs
  import opened State

  datatype EngineError =
    | AlreadyComplete             // "Game is already complete"
    | Payoff(cause: PayoffError)  // raised by the payoff lookup

  /** The dictionary `get_round_result` returns. */
  datatype RoundRecord = RoundRecord(round: int, action1: PyStr, action2: PyStr, payoff1: int, payoff2: int)

  /** The dictionary `get_game_summary` returns. */
  datatype GameSummary = GameSummary(
    gameLength: int,
    roundsPlayed: int,
    complete: bool,
    finalScores: (int, int),
    cooperationRates: (Rate, Rate),
    rounds: seq<Json>)

  /** The summary of a game of `gameLength` rounds whose ledger holds
      `rounds`: scores are payoff sums, rates count cooperations, and the
      rounds are listed as JSON. */
  function SummaryOf(gameLength: int, rounds: seq<RoundResult>): (s: GameSummary)
    ensures s.gameLength == gameLength && s.roundsPlayed == |rounds| && (s.complete <==> |rounds| >= gameLength)
    ensures s.finalScores == (SumPayoff1(rounds), SumPayoff2(rounds))
    ensures s.cooperationRates.0.total == |rounds| && s.cooperationRates.1.total == |rounds|
    ensures 0.0 <= s.cooperationRates.0.Value() <= 1.0 && 0.0 <= s.cooperationRates.1.Value() <= 1.0
    ensures RoundsFromJson(s.rounds) == Some(rounds)
  {
    CooperationRateBounds(rounds, 1);
    CooperationRateBounds(rounds, 2);
    RoundsJsonRoundTrip(rounds);
    GameSummary(
      gameLength,
      |rounds|,
      |rounds| >= gameLength,
      (SumPayoff1(rounds), SumPayoff2(rounds)),
      (CooperationRate(rounds, 1).value, CooperationRate(rounds, 2).value),
      RoundsToJson(rounds))
  }

  /** The ledger of a game of `gameLength` rounds after `rounds`. */
  function SnapshotOf(gameLength: int, rounds: seq<RoundResult>): Snapshot {
    Snapshot(gameLength, |rounds|, SumPayoff1(rounds), SumPayoff2(rounds), rounds)
  }

  class GameEngine {
    const gameLength: int
    const matrix: PayoffMatrix
    var state: GameState

    ghost predicate Valid()
      reads this, state
    {
      state.Valid() && state.gameLength == gameLength
    }

    /** `GameEngine(game_length, payoff_matrix)`; without a matrix the
        default one is used. */
    constructor (gameLength: int, matrix: Option<PayoffMatrix>)
      ensures Valid() && fresh(state)
      ensures this.gameLength == gameLength
      ensures this.matrix == (if matrix.Some? then matrix.value else NewPayoffMatrix(None))
      ensures state.rounds == []
    {
      this.gameLength := gameLength;
      this.matrix := if matrix.Some? then matrix.value else NewPayoffMatrix(None);
      state := new GameState(gameLength);
    }

    /** `play_round(action1, action2)`. A complete game is refused, then the
        payoffs are looked up, and only then is the state changed, in one
        append. */
    method PlayRound(action1: PyStr, action2: PyStr) returns (r: Result<(int, int), EngineError>)
      requires Valid()
      modifies state
      ensures Valid()
      ensures old(state.IsComplete()) ==> r == Failure(AlreadyComplete)
      ensures !old(state.IsComplete()) && GetPayoffs(matrix, action1, action2).Failure? ==>
                r == Failure(Payoff(GetPayoffs(matrix, action1, action2).error))
      ensures r.Success? <==> !old(state.IsComplete()) && GetPayoffs(matrix, action1, action2).Success?
      ensures r.Failure? ==> unchanged(state)
      ensures r.Success? ==> r.value == matrix.payoffs[(action1, action2)]
      ensures r.Success? ==>
                && state.rounds == old(state.rounds) + [RoundResult(|old(state.rounds)| + 1, action1, action2, r.value.0, r.value.1)]
                && state.score1 == old(state.score1) + r.value.0
                && state.score2 == old(state.score2) + r.value.1
    {
      if state.IsComplete() {
        return Failure(AlreadyComplete);
      }
      var lookup := GetPayoffs(matrix, action1, action2);
      if lookup.Failure? {
        return Failure(Payoff(lookup.error));
      }
      var (payoff1, payoff2) := lookup.value;
      state.AddRound(action1, action2, payoff1, payoff2);
      r := Success((payoff1, payoff2));
    }

    /** `is_complete()`. */
    function IsComplete(): (b: bool)
      reads this, state
      ensures Valid() ==> (b <==> |state.rounds| >= gameLength)
    {
      state.IsComplete()
    }

    /** `get_current_round()`: the number of rounds played so far. */
    function GetCurrentRound(): (n: int)
      reads this, state
      ensures Valid() ==> n == |state.rounds|
    {
      state.currentRound
    }

    /** `get_scores()`. */
    function GetScores(): (s: (int, int))
      reads this, state
      ensures Valid() ==> s == (SumPayoff1(state.rounds), SumPayoff2(state.rounds))
    {
      (state.score1, state.score2)
    }

    /** `get_actions_history(player)`. */
    function GetActionsHistory(player: int): (r: Result<seq<PyStr>, StateError>)
      reads this, state
      ensures r.Success? <==> player == 1 || player == 2
      ensures r.Success? ==> |r.value| == |state.rounds|
      ensures r.Success? ==> forall i :: 0 <= i < |state.rounds| ==> r.value[i] == ActionOf(state.rounds[i], player)
    {
      state.ActionsForPlayer(player)
    }

    /** `get_cooperation_rate(player)`: the state's rate, a share of the
        rounds played that is 1 exactly when the player always cooperated. */
    function GetCooperationRate(player: int): (r: Result<Rate, StateError>)
      reads this, state
      ensures r.Success? <==> player == 1 || player == 2
      ensures r.Failure? ==> r.error == InvalidPlayer(player)
      ensures r.Success? ==> r.value.total == |state.rounds| && 0.0 <= r.value.Value() <= 1.0
      ensures r.Success? ==>
        (r.value.Value() == 1.0 <==>
           state.rounds != [] && forall i :: 0 <= i < |state.rounds| ==> ActionOf(state.rounds[i], player) == Cooperate)
    {
      state.GetCooperationRate(player)
    }

    /** `get_round_result(round_number)`: rounds are numbered from 1. */
    function GetRoundResult(roundNumber: int): (r: Option<RoundRecord>)
      reads this, state
      ensures r.None? <==> roundNumber < 1 || roundNumber > |state.rounds|
      ensures r.Some? ==>
                var rr := state.rounds[roundNumber - 1];
                r.value == RoundRecord(rr.roundNumber, rr.action1, rr.action2, rr.payoff1, rr.payoff2)
      ensures r.Some? && Valid() ==> r.value.round == roundNumber
    {
      if roundNumber < 1 || roundNumber > |state.rounds| then None
      else
        var rr := state.rounds[roundNumber - 1];
        Some(RoundRecord(rr.roundNumber, rr.action1, rr.action2, rr.payoff1, rr.payoff2))
    }

    /** `get_game_summary()`. */
    function GetGameSummary(): (s: GameSummary)
      reads this, state
      ensures Valid() ==> s == SummaryOf(gameLength, state.rounds)
      ensures s.complete == state.IsComplete() && s.gameLength == gameLength
      ensures s.cooperationRates.0.total == |state.rounds| && s.cooperationRates.1.total == |state.rounds|
      ensures 0.0 <= s.cooperationRates.0.Value() <= 1.0 && 0.0 <= s.cooperationRates.1.Value() <= 1.0
      ensures RoundsFromJson(s.rounds) == Some(state.rounds)
    {
      CooperationRateBounds(state.rounds, 1);
      CooperationRateBounds(state.rounds, 2);
      RoundsJsonRoundTrip(state.rounds);
      GameSummary(
        gameLength,
        state.currentRound,
        state.IsComplete(),
        (state.score1, state.score2),
        (CooperationRate(state.rounds, 1).value, CooperationRate(state.rounds, 2).value),
        RoundsToJson(state.rounds))
    }

    /** `reset()`: a fresh ledger of the same length. */
    method Reset()
      modifies this
      ensures Valid() && fresh(state)
      ensures state.rounds == [] && state.score1 == 0 && state.score2 == 0
    {
      state := new GameState(gameLength);
    }
  }

  /** A game of length n accepts exactly n rounds: n plays succeed and the
      next one is refused as already complete. */
  method AcceptedRounds(n: nat, action1: PyStr, action2: PyStr) returns (accepted: nat, refusal: Result<(int, int), EngineError>)
    requires IsAction(action1) && IsAction(action2)
    ensures accepted == n
    ensures refusal == Failure(AlreadyComplete)
  {
    var game := new GameEngine(n, None);
    accepted := 0;
    refusal := game.PlayRound(action1, action2);
    while refusal.Success?
      invariant game.Valid() && fresh(game.state) && game.gameLength == n && Total(game.matrix.payoffs)
      invariant refusal.Success? ==> |game.state.rounds| == accepted + 1 <= n
      invariant refusal.Failure? ==> |game.state.rounds| == accepted == n && refusal == Failure(AlreadyComplete)
      decreases n - accepted
    {
      accepted := accepted + 1;
      refusal := game.PlayRound(action1, action2);
    }
  }

  /** The five-round game of the engine's tests under the default payoffs:
      (C,C), (C,D), (D,C), (D,D), (C,C). */
  method MixedScenario() returns (summary: GameSummary)
    ensures summary.finalScores == (12, 12)
    ensures summary.cooperationRates.0.Value() == 0.6 && summary.cooperationRates.1.Value() == 0.6
    ensures summary.complete && summary.roundsPlayed == 5
  {
    DefaultLookups();
    var game := new GameEngine(5, None);
    var p := game.PlayRound(Cooperate, Cooperate);
    assert game.state.score1 == 3 && game.state.score2 == 3;
    p := game.PlayRound(Cooperate, Defect);
    assert game.state.score1 == 3 && game.state.score2 == 8;
    p := game.PlayRound(Defect, Cooperate);
    assert game.state.score1 == 8 && game.state.score2 == 8;
    p := game.PlayRound(Defect, Defect);
    assert game.state.score1 == 9 && game.state.score2 == 9;
    p := game.PlayRound(Cooperate, Cooperate);
    assert game.state.score1 == 12 && game.state.score2 == 12;
    assert game.state.rounds == MixedRounds;
    MixedSummary();
    summary := game.GetGameSummary();
  }

  /** The ledger of the mixed game. */
  const MixedRounds: seq<RoundResult> :=
    [RoundResult(1, Cooperate, Cooperate, 3, 3), RoundResult(2, Cooperate, Defect, 0, 5),
     RoundResult(3, Defect, Cooperate, 5, 0), RoundResult(4, Defect, Defect, 1, 1),
     RoundResult(5, Cooperate, Cooperate, 3, 3)]

  /** The summary of the mixed game: 12 points each, and both players
      cooperated in three rounds of five. */
  lemma MixedSummary()
    ensures var s := SummaryOf(5, MixedRounds);
      && s.finalScores == (12, 12) && s.complete && s.roundsPlayed == 5
      && s.cooperationRates.0.Value() == 0.6 && s.cooperationRates.1.Value() == 0.6
  {
    var r := MixedRounds;
    assert SumPayoff1(r[..1]) == 3 && SumPayoff2(r[..1]) == 3;
    assert r[..2][..1] == r[..1];
    assert SumPayoff1(r[..2]) == 3 && SumPayoff2(r[..2]) == 8;
    assert r[..3][..2] == r[..2];
    assert SumPayoff1(r[..3]) == 8 && SumPayoff2(r[..3]) == 8;
    assert r[..4][..3] == r[..3];
    assert SumPayoff1(r[..4]) == 9 && SumPayoff2(r[..4]) == 9;
    assert r[..4] == r[..|r| - 1];
    CooperationCount(MixedRounds, 1, [Cooperate, Cooperate, Defect, Defect, Cooperate]);
    CooperationCount(MixedRounds, 2, [Cooperate, Defect, Cooperate, Defect, Cooperate]);
  }

  /** Each of the two action histories of the mixed game holds three
      cooperations among five actions. */
  lemma CooperationCount(rounds: seq<RoundResult>, player: int, actions: seq<PyStr>)
    requires player == 1 || player == 2
    requires Actions(rounds, player).value == actions
    requires actions == [Cooperate, Cooperate, Defect, Defect, Cooperate] || actions == [Cooperate, Defect, Cooperate, Defect, Cooperate]
    ensures CooperationRate(rounds, player).value == Rate(3, 5)
  {
    assert actions[..1] == [Cooperate];
    assert CountCooperate(actions[..1]) == 1;
    assert actions[..2][..1] == actions[..1];
    assert CountCooperate(actions[..2]) == (if actions[1] == Cooperate then 2 else 1);
    assert actions[..3][..2] == actions[..2];
    assert CountCooperate(actions[..3]) == 2;
    assert actions[..4][..3] == actions[..3];
    assert CountCooperate(actions[..4]) == 2;
    assert actions[..4] == actions[..|actions| - 1];
    assert CountCooperate(actions) == 3;
  }

  /** Five rounds of mutual cooperation score (15, 15); five of mutual
      defection score (5, 5). */
  method UniformScenarios() returns (cooperate: (int, int), defect: (int, int))
    ensures cooperate == (15, 15) && defect == (5, 5)
  {
    var game := new GameEngine(5, None);
    var i := 0;
    while i < 5
      invariant 0 <= i <= 5
      invariant game.Valid() && fresh(game.state) && game.gameLength == 5 && game.matrix == NewPayoffMatrix(None)
      invariant |game.state.rounds| == i && game.state.score1 == 3 * i && game.state.score2 == 3 * i
    {
      var p := game.PlayRound(Cooperate, Cooperate);
      i := i + 1;
    }
    cooperate := game.GetScores();
    game.Reset();
    i := 0;
    while i < 5
      invariant 0 <= i <= 5
      invariant game.Valid() && fresh(game.state) && game.gameLength == 5 && game.matrix == NewPayoffMatrix(None)
      invariant |game.state.rounds| == i && game.state.score1 == i && game.state.score2 == i
    {
      var p := game.PlayRound(Defect, Defect);
      i := i + 1;
    }
    defect := game.GetScores();
  }

  /** The custom table CC=(4,4), CD=(0,6), DC=(6,0), DD=(2,2) over
      (C,C), (C,D), (D,D) scores (6, 12). */
  method CustomTableScenario() returns (scores: (int, int))
    ensures scores == (6, 12)
  {
    LitInjective("cooperate_defect", "defect_cooperate");
    var config := map[KeyCC := (4, 4), KeyCD := (0, 6), KeyDC := (6, 0), KeyDD := (2, 2)];
    var built := FromConfig(config);
    var game := new GameEngine(3, Some(built.value));
    var p := game.PlayRound(Cooperate, Cooperate);
    p := game.PlayRound(Cooperate, Defect);
    p := game.PlayRound(Defect, Defect);
    scores := game.GetScores();
  }

  /** The error-handling test: a two-round game refuses a third round, and
      after a reset an invalid action is refused before anything changes. */
  method ErrorScenario() returns (third: Result<(int, int), EngineError>, invalid: Result<(int, int), EngineError>, roundsAfter: nat)
    ensures third == Failure(AlreadyComplete)
    ensures invalid == Failure(Payoff(InvalidAction(1, Lit("Invalid"))))
    ensures roundsAfter == 0
  {
    var game := new GameEngine(2, None);
    var p := game.PlayRound(Cooperate, Cooperate);
    p := game.PlayRound(Defect, Defect);
    third := game.PlayRound(Cooperate, Cooperate);
    game.Reset();
    LitInjective("Invalid", "Cooperate");
    LitInjective("Invalid", "Defect");
    invalid := game.PlayRound(Lit("Invalid"), Cooperate);
    roundsAfter := |game.state.rounds|;
  }
}
