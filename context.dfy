/** The view of a game one player is shown before deciding
    (src/experiment/context.py). */
module Context {
  import opened Wrappers
  import opened Text
  import opened Json
  import opened State
  import opened Manager
  import opened Config

  /** `game_rules`: the game section of the configuration. */
  datatype GameRules = GameRules(payoffMatrix: map<PyStr, (int, int)>, gameLength: int, terminationProbability: Json)

  /** A `ContextBuilder`: it holds nothing but the game rules. */
  datatype ContextBuilder = ContextBuilder(gameRules: GameRules)

  /** `ContextBuilder(config)` on a loaded configuration. */
  function NewContextBuilder(config: ExperimentConfig): (b: ContextBuilder)
    ensures b.gameRules.payoffMatrix == config.payoffMatrix && b.gameRules.gameLength == config.gameLength
    ensures b.gameRules.terminationProbability == config.terminationProbability
  {
    ContextBuilder(GameRules(config.payoffMatrix, config.gameLength, config.terminationProbability))
  }

  /** One entry of a player's reasoning log. */
  datatype ReasoningEntry = ReasoningEntry(round: int, reasoning: PyStr, action: PyStr)

  /** The `game_state` part of a decision context. */
  datatype DecisionView = DecisionView(currentRound: int, myScore: int, opponentScore: int, roundsPlayed: int)

  /** The dictionary `build_decision_context` returns. */
  datatype DecisionContext = DecisionContext(
    gameRules: GameRules,
    role: PyStr,
    firstSpeaker: bool,
    communicationHistory: seq<MessageEntry>,
    myReasoningHistory: seq<ReasoningEntry>,
    opponentActions: seq<PyStr>,
    gameState: DecisionView)

  datatype ContextError = AttributeError(name: PyStr) | KeyError(key: PyStr)

  /** The methods a `GameState` defines. */
  const GameStateMethods: set<PyStr> :=
    {Lit("add_round"), Lit("is_complete"), Lit("get_actions_for_player"), Lit("get_cooperation_rate"),
     Lit("get_score"), Lit("to_dict")}

  /** `build_decision_context` as written: it asks the game state for
      `get_scores`, a method the state does not define (only the engine
      does), so the call raises before a context is built. */
  function BuildDecisionContextAsWritten(b: ContextBuilder, state: Snapshot, role: PyStr, isFirstSpeaker: bool,
                                         history: seq<MessageEntry>, reasoning: seq<ReasoningEntry>,
                                         opponentActions: seq<PyStr>): Result<DecisionContext, ContextError>
  {
    if Lit("get_scores") !in GameStateMethods then Failure(AttributeError(Lit("get_scores")))
    else Success(BuildDecisionContext(b, state, role, isFirstSpeaker, history, reasoning, opponentActions))
  }

  /** As written, no decision context is ever built. */
  lemma AsWrittenAlwaysRaises(b: ContextBuilder, state: Snapshot, role: PyStr, isFirstSpeaker: bool,
                              history: seq<MessageEntry>, reasoning: seq<ReasoningEntry>, opponentActions: seq<PyStr>)
    ensures BuildDecisionContextAsWritten(b, state, role, isFirstSpeaker, history, reasoning, opponentActions)
            == Failure(AttributeError(Lit("get_scores")))
  {
    LitInjective("get_scores", "add_round");
    LitInjective("get_scores", "is_complete");
    LitInjective("get_scores", "get_actions_for_player");
    LitInjective("get_scores", "get_cooperation_rate");
    LitInjective("get_scores", "get_score");
    LitInjective("get_scores", "to_dict");
  }

  /** The top-level keys of the dictionary `build_decision_context` returns. */
  const DecisionContextKeys: set<PyStr> :=
    {Lit("game_rules"), Lit("role"), Lit("first_speaker"), Lit("communication_history"), Lit("my_reasoning_history"),
     Lit("opponent_actions"), Lit("game_state")}

  /** The orchestrator's `_format_decision_prompt` as written, given the
      template filling it would do: its first lookup is
      `context['current_round']`, a key the context does not hold (the
      round sits under `game_state`), so it raises before any text is
      formatted. */
  function FormatDecisionPromptAsWritten(context: DecisionContext, fill: DecisionContext -> PyStr)
    : Result<PyStr, ContextError>
  {
    if Lit("current_round") !in DecisionContextKeys then Failure(KeyError(Lit("current_round")))
    else Success(fill(context))
  }

  /** Even a context built as intended is never formatted by the source's
      own formatter. */
  lemma FormatterAlwaysRaises(context: DecisionContext, fill: DecisionContext -> PyStr)
    ensures FormatDecisionPromptAsWritten(context, fill) == Failure(KeyError(Lit("current_round")))
  {
    LitInjective("current_round", "first_speaker");
  }

  /** `build_decision_context` as intended: the scores are the state's
      `(score1, score2)`, swapped for "Player 2"; the round shown is the
      next one, counted from 1. */
  function BuildDecisionContext(b: ContextBuilder, state: Snapshot, role: PyStr, isFirstSpeaker: bool,
                                history: seq<MessageEntry>, reasoning: seq<ReasoningEntry>,
                                opponentActions: seq<PyStr>): (c: DecisionContext)
    ensures c.gameRules == b.gameRules && c.role == role && c.firstSpeaker == isFirstSpeaker
    ensures c.communicationHistory == history && c.myReasoningHistory == reasoning
    ensures c.opponentActions == opponentActions
    ensures c.gameState.roundsPlayed == state.currentRound && c.gameState.currentRound == state.currentRound + 1
    ensures role == Player2 ==> c.gameState.myScore == state.score2 && c.gameState.opponentScore == state.score1
    ensures role != Player2 ==> c.gameState.myScore == state.score1 && c.gameState.opponentScore == state.score2
  {
    var (myScore, opponentScore) := if role == Player2 then (state.score2, state.score1) else (state.score1, state.score2);
    DecisionContext(b.gameRules, role, isFirstSpeaker, history, reasoning, opponentActions,
                    DecisionView(state.currentRound + 1, myScore, opponentScore, state.currentRound))
  }

  /** The two players see the same scores from opposite sides. */
  lemma ScoresSymmetric(b: ContextBuilder, state: Snapshot, first1: bool, first2: bool,
                        history: seq<MessageEntry>, reasoning1: seq<ReasoningEntry>, reasoning2: seq<ReasoningEntry>,
                        actions1: seq<PyStr>, actions2: seq<PyStr>)
    ensures var c1 := BuildDecisionContext(b, state, Player1, first1, history, reasoning1, actions2);
      var c2 := BuildDecisionContext(b, state, Player2, first2, history, reasoning2, actions1);
      && c2.gameState.myScore == c1.gameState.opponentScore
      && c2.gameState.opponentScore == c1.gameState.myScore
      && c1.gameState.currentRound == c2.gameState.currentRound
  {
    LitInjective("Player 1", "Player 2");
  }

  /** Taken from a consistent ledger, each player's score is the sum of its
      own payoffs, and the round shown is one past the rounds recorded. */
  lemma ContextOfLedger(b: ContextBuilder, state: Snapshot, role: PyStr, isFirstSpeaker: bool,
                        history: seq<MessageEntry>, reasoning: seq<ReasoningEntry>, opponentActions: seq<PyStr>)
    requires state.currentRound == |state.rounds|
    requires state.score1 == SumPayoff1(state.rounds) && state.score2 == SumPayoff2(state.rounds)
    requires role == Player1 || role == Player2
    ensures var v := BuildDecisionContext(b, state, role, isFirstSpeaker, history, reasoning, opponentActions).gameState;
      && v.currentRound == |state.rounds| + 1
      && v.myScore == (if role == Player1 then SumPayoff1(state.rounds) else SumPayoff2(state.rounds))
      && v.opponentScore == (if role == Player1 then SumPayoff2(state.rounds) else SumPayoff1(state.rounds))
  {
    LitInjective("Player 1", "Player 2");
  }

  /** The context of the tests: after (Cooperate, Defect) paying 0 and 5 and
      (Defect, Defect) paying 1 and 1, Player 1 is entering round 3 with 1
      point against 6, and Player 2 sees 6 against 1. */
  method ContextScenario(b: ContextBuilder, history: seq<MessageEntry>, reasoning: seq<ReasoningEntry>,
                         opponentActions: seq<PyStr>)
    returns (p1: DecisionContext, p2: DecisionContext)
    ensures p1.gameState == DecisionView(3, 1, 6, 2) && p2.gameState == DecisionView(3, 6, 1, 2)
    ensures p1.role == Player1 && p1.firstSpeaker && p1.communicationHistory == history
    ensures p1.myReasoningHistory == reasoning && p1.opponentActions == opponentActions
    ensures p2.role == Player2 && !p2.firstSpeaker && p2.communicationHistory == []
  {
    var state := new GameState(5);
    state.AddRound(Payoffs.Cooperate, Payoffs.Defect, 0, 5);
    state.AddRound(Payoffs.Defect, Payoffs.Defect, 1, 1);
    LitInjective("Player 1", "Player 2");
    p1 := BuildDecisionContext(b, state.Snap(), Player1, true, history, reasoning, opponentActions);
    p2 := BuildDecisionContext(b, state.Snap(), Player2, false, [], [], []);
  }
}
