/** The experiment runner (src/experiment/orchestrator.py): the decision
    retry loop, the round loop of one game, the failure counters of a
    series and the loop over conditions, pairs and repetitions. */
module Orchestrator {
  import opened Wrappers
  import opened Text
  import opened Json
  import opened Payoffs
  import opened State
  import opened Engine
  import opened Validator
  import opened Agents
  import opened Manager
  import opened Config
  import opened Context

  // ---------------------------------------------------------------------
  // Asking a player for a decision
  // ---------------------------------------------------------------------

  /** What the orchestrator asks of a decision reply: `validate` is its
      validator's `validate_decision`, `maxRetries` the number of retries. */
  datatype DecisionPolicy = DecisionPolicy(validate: PyStr -> ValidationResult, maxRetries: int)

  /** The policy of an orchestrator built on a `ResponseValidator`. */
  function DecisionPolicyOf(cfg: ValidatorConfig, parse: Parser, maxRetries: int): DecisionPolicy {
    DecisionPolicy(response => ValidateDecision(cfg, parse, response), maxRetries)
  }

  /** The decision a reply carries: the parsed data of a reply that
      validates; nothing for one that fails validation or raises. */
  function Accepted(policy: DecisionPolicy, reply: Reply): (d: Option<map<PyStr, Json>>)
    ensures d.Some? <==> reply.Response? && policy.validate(reply.body).Accepted?
    ensures d.Some? ==> d.value == policy.validate(reply.body).parsedData
  {
    match reply
    case Raises => None
    case Response(body) =>
      var result := policy.validate(body);
      if result.Accepted? then Some(result.parsedData) else None
  }

  /** What the retry loop of `_get_player_decision` yields: the decision,
      if any, and the number of calls made. */
  datatype Decision = Decision(decision: Option<map<PyStr, Json>>, calls: nat)

  /** The retry loop from attempt `attempt` on: the same prompt is sent on
      every attempt, and the first accepted reply ends the loop. */
  function DecisionRetry(policy: DecisionPolicy, agent: Agent, attempt: nat): Decision
    decreases Budget(policy.maxRetries) - attempt
  {
    if attempt >= Budget(policy.maxRetries) then Decision(None, attempt)
    else
      match Accepted(policy, ReplyAt(agent, attempt))
      case Some(decision) => Decision(Some(decision), attempt + 1)
      case None => DecisionRetry(policy, agent, attempt + 1)
  }

  /** At most `max_retries + 1` calls are made, exceptions counting as
      attempts; the decision is the first accepted reply's, every earlier
      reply having been refused; with no decision, every attempt was made
      and refused. */
  lemma {:induction false} DecisionRetryTrace(policy: DecisionPolicy, agent: Agent, attempt: nat)
    requires attempt <= Budget(policy.maxRetries)
    ensures var d := DecisionRetry(policy, agent, attempt);
      && attempt <= d.calls <= Budget(policy.maxRetries)
      && (d.decision.Some? ==>
            && attempt < d.calls
            && d.decision == Accepted(policy, ReplyAt(agent, d.calls - 1))
            && forall i :: attempt <= i < d.calls - 1 ==> Accepted(policy, ReplyAt(agent, i)).None?)
      && (d.decision.None? ==>
            && d.calls == Budget(policy.maxRetries)
            && forall i :: attempt <= i < d.calls ==> Accepted(policy, ReplyAt(agent, i)).None?)
    decreases Budget(policy.maxRetries) - attempt
  {
    if attempt < Budget(policy.maxRetries) && Accepted(policy, ReplyAt(agent, attempt)).None? {
      DecisionRetryTrace(policy, agent, attempt + 1);
    }
  }

  /** A refused reply followed by an accepted one: two calls, and the
      second reply's decision. */
  lemma RefusedThenAccepted(policy: DecisionPolicy, bad: Reply, good: PyStr)
    requires policy.maxRetries >= 1
    requires Accepted(policy, bad).None? && policy.validate(good).Accepted?
    ensures DecisionRetry(policy, Agent([bad, Response(good)], 0), 0)
            == Decision(Some(policy.validate(good).parsedData), 2)
  {
  }

  /** The two fields the round loop reads from a decision, with an action
      the payoff lookup accepts. */
  predicate DecisionFields(d: map<PyStr, Json>) {
    && KeyReasoning in d && d[KeyReasoning].JString?
    && KeyAction in d && d[KeyAction].JString? && IsAction(d[KeyAction].s)
  }

  /** Every decision the policy accepts has the fields the round loop reads. */
  ghost predicate SoundPolicy(policy: DecisionPolicy) {
    forall reply :: Accepted(policy, reply).Some? ==> DecisionFields(Accepted(policy, reply).value)
  }

  /** A validator that requires (or checks) the reasoning and the action,
      and whose valid actions are game actions, accepts only decisions the
      round loop can play. */
  lemma SoundDecisionPolicy(cfg: ValidatorConfig, parse: Parser, maxRetries: int)
    requires DecisionFieldsGuaranteed(cfg)
    requires forall a :: a in cfg.validActions ==> IsAction(a)
    ensures SoundPolicy(DecisionPolicyOf(cfg, parse, maxRetries))
  {
    var policy := DecisionPolicyOf(cfg, parse, maxRetries);
    forall reply | Accepted(policy, reply).Some?
      ensures DecisionFields(Accepted(policy, reply).value)
    {
      AcceptedDecisionFields(cfg, parse, reply.body);
    }
  }

  /** Under a sound policy the retry loop's decision has both fields. */
  lemma DecisionRetryFields(policy: DecisionPolicy, agent: Agent)
    requires SoundPolicy(policy)
    ensures var d := DecisionRetry(policy, agent, 0);
      d.decision.Some? ==> DecisionFields(d.decision.value)
  {
    DecisionRetryTrace(policy, agent, 0);
  }

  /** The reasoning-log entry of a decision made for round `round`. */
  function Reasoned(round: int, d: map<PyStr, Json>): ReasoningEntry
    requires DecisionFields(d)
  {
    ReasoningEntry(round, d[KeyReasoning].s, d[KeyAction].s)
  }

  // ---------------------------------------------------------------------
  // What a run is made of
  // ---------------------------------------------------------------------

  /** How a decision prompt is written from a decision context: the
      template file and its fields are not modelled. */
  type DecisionFormatter = DecisionContext -> PyStr

  /** The agent the `n`-th `_create_llm` call builds from a model entry:
      the providers and their clients are not modelled. */
  type Spawner = (nat, Json) -> Agent

  /** The parts of an orchestrator that stay fixed while it runs. */
  datatype Plan = Plan(
    decisions: DecisionPolicy,
    payoffs: PayoffConfig,
    gameLength: int,
    ask: Asker,
    format: HistoryFormatter,
    settings: DialogueSettings,
    render: PromptRenderer,
    maxConsecutiveFailures: int,
    conditions: seq<Json>,
    modelPairs: seq<seq<int>>,
    availableModels: seq<Json>,
    repetitions: int,
    spawn: Spawner)

  const KeyCommunicationEnabled: PyStr := Lit("communication_enabled")

  /** A condition the loops can read: a dictionary with a "name". */
  predicate Named(condition: Json) {
    condition.JObject? && KeyName in condition.fields
  }

  /** What the loops rely on: accepted decisions can be played, the
      payoff table is complete, every pair names two models and every
      condition has a name. */
  ghost predicate Coherent(plan: Plan) {
    && SoundPolicy(plan.decisions)
    && HasAllKeys(plan.payoffs)
    && ValidPairs(plan.modelPairs, |plan.availableModels|)
    && forall i :: 0 <= i < |plan.conditions| ==> Named(plan.conditions[i])
  }

  /** The matrix `PayoffMatrix.from_config` builds for every game. */
  function MatrixOf(plan: Plan): (m: PayoffMatrix)
    requires HasAllKeys(plan.payoffs)
    ensures Total(m.payoffs)
  {
    FromConfig(plan.payoffs).value
  }

  /** A configuration the orchestrator runs without an uncaught exception:
      the four payoff keys, pairs of valid model indices (what
      `validate_model_pairs` checks before a run), named conditions, and a
      decision validator whose accepted decisions hold a reasoning text and
      a game action. */
  predicate WellFormed(c: ExperimentConfig) {
    && HasAllKeys(c.payoffMatrix)
    && ValidPairs(c.modelPairs, |c.availableModels|)
    && (forall i :: 0 <= i < |c.conditions| ==> Named(c.conditions[i]))
    && DecisionFieldsGuaranteed(NewValidator(ValidationSettingsOf(c)))
    && (forall a :: a in NewValidator(ValidationSettingsOf(c)).validActions ==> IsAction(a))
  }

  /** The dialogue settings a manager reads from the `communication` section. */
  function DialogueSettingsOf(c: ExperimentConfig): DialogueSettings {
    DialogueSettings(c.initialDialogueRounds, c.initialDialogueMaxChars,
                     c.interGameDialogueRounds, c.interGameDialogueMaxChars)
  }

  /** Python truthiness of a configuration value. */
  function Truthy(v: Json): bool {
    match v
    case JNull => false
    case JBool(b) => b
    case JInt(n) => n != 0
    case JFloat(x) => x != 0.0
    case JString(s) => s != []
    case JArray(items) => items != []
    case JObject(fields) => fields != map[]
  }

  // ---------------------------------------------------------------------
  // One game
  // ---------------------------------------------------------------------

  /** Where the round loop stops: whether every round was played, the
      ledger, both reasoning logs and the agents after their calls. */
  datatype RoundsOutcome = RoundsOutcome(complete: bool, rounds: seq<RoundResult>,
                                         reasoning1: seq<ReasoningEntry>, reasoning2: seq<ReasoningEntry>,
                                         agent1: Agent, agent2: Agent)

  /** The round loop of `run_single_game` from the ledger `rounds` on:
      both players are asked, and only then are both answers checked; two
      decisions play the round and extend both logs. */
  function PlayRounds(plan: Plan, agent1: Agent, agent2: Agent, rounds: seq<RoundResult>,
                      reasoning1: seq<ReasoningEntry>, reasoning2: seq<ReasoningEntry>): RoundsOutcome
    requires Coherent(plan)
    decreases plan.gameLength - |rounds|
  {
    if |rounds| >= plan.gameLength then RoundsOutcome(true, rounds, reasoning1, reasoning2, agent1, agent2)
    else
      var d1 := DecisionRetry(plan.decisions, agent1, 0);
      var d2 := DecisionRetry(plan.decisions, agent2, 0);
      var next1, next2 := Advance(agent1, d1.calls), Advance(agent2, d2.calls);
      if d1.decision.None? || d2.decision.None? then RoundsOutcome(false, rounds, reasoning1, reasoning2, next1, next2)
      else
        DecisionRetryFields(plan.decisions, agent1);
        DecisionRetryFields(plan.decisions, agent2);
        var e1 := Reasoned(|rounds| + 1, d1.decision.value);
        var e2 := Reasoned(|rounds| + 1, d2.decision.value);
        var (payoff1, payoff2) := MatrixOf(plan).payoffs[(e1.action, e2.action)];
        PlayRounds(plan, next1, next2, rounds + [RoundResult(|rounds| + 1, e1.action, e2.action, payoff1, payoff2)],
                   reasoning1 + [e1], reasoning2 + [e2])
  }

  /** Round `i` of a ledger and its two log entries agree: the round is
      numbered i + 1 in all three, the logged actions are the actions
      played, both are game actions, and the payoffs are the matrix's. */
  predicate RoundLogged(m: PayoffMatrix, i: int, r: RoundResult, e1: ReasoningEntry, e2: ReasoningEntry) {
    && IsAction(e1.action) && IsAction(e2.action)
    && r.roundNumber == i + 1 && e1.round == i + 1 && e2.round == i + 1
    && r.action1 == e1.action && r.action2 == e2.action
    && (e1.action, e2.action) in m.payoffs && (r.payoff1, r.payoff2) == m.payoffs[(e1.action, e2.action)]
  }

  /** A ledger and two logs that agree round by round. */
  predicate Logged(m: PayoffMatrix, rounds: seq<RoundResult>, log1: seq<ReasoningEntry>, log2: seq<ReasoningEntry>) {
    && |log1| == |rounds| && |log2| == |rounds|
    && forall i :: 0 <= i < |rounds| ==> RoundLogged(m, i, rounds[i], log1[i], log2[i])
  }

  function Max(a: int, b: int): int {
    if a < b then b else a
  }

  /** The round loop keeps the ledger and the logs in step and only
      appends; it completes exactly when the game's length is reached, and
      it stops early only when a decision is missing. */
  lemma {:induction false} PlayRoundsLogged(plan: Plan, agent1: Agent, agent2: Agent, rounds: seq<RoundResult>,
                                            log1: seq<ReasoningEntry>, log2: seq<ReasoningEntry>)
    requires Coherent(plan) && Logged(MatrixOf(plan), rounds, log1, log2)
    ensures var o := PlayRounds(plan, agent1, agent2, rounds, log1, log2);
      && Logged(MatrixOf(plan), o.rounds, o.reasoning1, o.reasoning2)
      && |rounds| <= |o.rounds| && o.rounds[..|rounds|] == rounds
      && o.reasoning1[..|rounds|] == log1 && o.reasoning2[..|rounds|] == log2
      && (o.complete ==> |o.rounds| == Max(|rounds|, plan.gameLength))
      && (!o.complete ==> |o.rounds| < plan.gameLength)
    decreases plan.gameLength - |rounds|
  {
    if |rounds| < plan.gameLength {
      var d1 := DecisionRetry(plan.decisions, agent1, 0);
      var d2 := DecisionRetry(plan.decisions, agent2, 0);
      if d1.decision.Some? && d2.decision.Some? {
        DecisionRetryFields(plan.decisions, agent1);
        DecisionRetryFields(plan.decisions, agent2);
        var m := MatrixOf(plan);
        var e1 := Reasoned(|rounds| + 1, d1.decision.value);
        var e2 := Reasoned(|rounds| + 1, d2.decision.value);
        var (payoff1, payoff2) := m.payoffs[(e1.action, e2.action)];
        var r := RoundResult(|rounds| + 1, e1.action, e2.action, payoff1, payoff2);
        LoggedExtend(m, rounds, log1, log2, r, e1, e2);
        var next1, next2 := Advance(agent1, d1.calls), Advance(agent2, d2.calls);
        PlayRoundsLogged(plan, next1, next2, rounds + [r], log1 + [e1], log2 + [e2]);
        var o := PlayRounds(plan, next1, next2, rounds + [r], log1 + [e1], log2 + [e2]);
        PrefixOfExtension(o.rounds, rounds, r);
        PrefixOfExtension(o.reasoning1, log1, e1);
        PrefixOfExtension(o.reasoning2, log2, e2);
      }
    }
  }

  /** A round logged after a consistent ledger keeps it consistent. */
  lemma LoggedExtend(m: PayoffMatrix, rounds: seq<RoundResult>, log1: seq<ReasoningEntry>, log2: seq<ReasoningEntry>,
                     r: RoundResult, e1: ReasoningEntry, e2: ReasoningEntry)
    requires Logged(m, rounds, log1, log2) && RoundLogged(m, |rounds|, r, e1, e2)
    ensures Logged(m, rounds + [r], log1 + [e1], log2 + [e2])
  {
    forall i | 0 <= i < |rounds| + 1
      ensures RoundLogged(m, i, (rounds + [r])[i], (log1 + [e1])[i], (log2 + [e2])[i])
    {
      if i < |rounds| {
        assert (rounds + [r])[i] == rounds[i] && (log1 + [e1])[i] == log1[i] && (log2 + [e2])[i] == log2[i];
      }
    }
  }

  /** A sequence that starts with `b + [x]` starts with `b`. */
  lemma PrefixOfExtension<T>(a: seq<T>, b: seq<T>, x: T)
    requires |b| + 1 <= |a| && a[..|b| + 1] == b + [x]
    ensures a[..|b|] == b
  {
    assert a[..|b|] == a[..|b| + 1][..|b|];
  }

  /** A round with a missing decision ends the game before the round is
      played, and both players have been asked in it. */
  lemma MissingDecisionStops(plan: Plan, agent1: Agent, agent2: Agent, rounds: seq<RoundResult>,
                             log1: seq<ReasoningEntry>, log2: seq<ReasoningEntry>)
    requires Coherent(plan) && |rounds| < plan.gameLength
    requires DecisionRetry(plan.decisions, agent1, 0).decision.None?
             || DecisionRetry(plan.decisions, agent2, 0).decision.None?
    ensures PlayRounds(plan, agent1, agent2, rounds, log1, log2)
            == RoundsOutcome(false, rounds, log1, log2,
                             Advance(agent1, DecisionRetry(plan.decisions, agent1, 0).calls),
                             Advance(agent2, DecisionRetry(plan.decisions, agent2, 0).calls))
  {
  }

  /** What `run_single_game` returns on success. */
  datatype GameRecord = GameRecord(gameNumber: int, summary: GameSummary, reasoning1: seq<ReasoningEntry>,
                                   reasoning2: seq<ReasoningEntry>, state: Snapshot)

  /** A game's record (None for a failed game), the agents after it, and
      the shared communication history. */
  datatype GameOutcome = GameOutcome(record: Option<GameRecord>, agent1: Agent, agent2: Agent,
                                     history: seq<MessageEntry>)

  /** The inter-game dialogue before game `gameNumber`. */
  function InterGameSetup(plan: Plan, firstSpeaker: int, gameNumber: int, previous: Snapshot,
                          before: seq<MessageEntry>): Setup {
    Setup(plan.ask, InterGamePhase(gameNumber, previous), plan.settings.interGameRounds,
          plan.settings.interGameMaxChars, firstSpeaker, plan.render, plan.format, before)
  }

  /** The initial dialogue of a series. */
  function InitialSetup(plan: Plan, before: seq<MessageEntry>): Setup {
    Setup(plan.ask, InitialPhase, plan.settings.initialRounds, plan.settings.initialMaxChars, 1,
          plan.render, plan.format, before)
  }

  /** `run_single_game`: the inter-game dialogue when communication is on,
      this is not the first game and a previous game exists (its failure
      fails the game), then the rounds. */
  function PlayGame(plan: Plan, agent1: Agent, agent2: Agent, firstSpeaker: int, communicationEnabled: bool,
                    gameNumber: int, previous: Option<Snapshot>, history: seq<MessageEntry>): GameOutcome
    requires Coherent(plan)
  {
    if communicationEnabled && gameNumber > 1 && previous.Some? then
      var d := Dialogue(InterGameSetup(plan, firstSpeaker, gameNumber, previous.value, history), agent1, agent2, 0, []);
      if d.success then GameRounds(plan, gameNumber, d.agent1, d.agent2, history + d.messages)
      else GameOutcome(None, d.agent1, d.agent2, history + d.messages)
    else GameRounds(plan, gameNumber, agent1, agent2, history)
  }

  /** The rounds of game `gameNumber` and, if all were played, its record. */
  function GameRounds(plan: Plan, gameNumber: int, agent1: Agent, agent2: Agent, history: seq<MessageEntry>): GameOutcome
    requires Coherent(plan)
  {
    var o := PlayRounds(plan, agent1, agent2, [], [], []);
    if o.complete then
      GameOutcome(Some(GameRecord(gameNumber, SummaryOf(plan.gameLength, o.rounds), o.reasoning1, o.reasoning2,
                                  SnapshotOf(plan.gameLength, o.rounds))),
                  o.agent1, o.agent2, history)
    else GameOutcome(None, o.agent1, o.agent2, history)
  }

  /** A recorded game played exactly `game_length` rounds (none for a
      length below one); both logs hold one entry per round, numbered from
      1, with the actions played; the summary and the ledger are those of
      the rounds. Without an inter-game dialogue the history is untouched. */
  lemma GameRecordShape(plan: Plan, agent1: Agent, agent2: Agent, firstSpeaker: int, communicationEnabled: bool,
                        gameNumber: int, previous: Option<Snapshot>, history: seq<MessageEntry>)
    requires Coherent(plan)
    ensures var g := PlayGame(plan, agent1, agent2, firstSpeaker, communicationEnabled, gameNumber, previous, history);
      && (g.record.Some? ==>
            var r := g.record.value;
            && r.gameNumber == gameNumber
            && |r.state.rounds| == Max(0, plan.gameLength)
            && Logged(MatrixOf(plan), r.state.rounds, r.reasoning1, r.reasoning2)
            && r.summary.complete && r.summary.roundsPlayed == |r.state.rounds|
            && r.summary.finalScores == (r.state.score1, r.state.score2)
            && r.state.score1 == SumPayoff1(r.state.rounds) && r.state.score2 == SumPayoff2(r.state.rounds))
      && (!(communicationEnabled && gameNumber > 1 && previous.Some?) ==> g.history == history)
      && |history| <= |g.history| && g.history[..|history|] == history
  {
    var a1, a2 := agent1, agent2;
    if communicationEnabled && gameNumber > 1 && previous.Some? {
      var d := Dialogue(InterGameSetup(plan, firstSpeaker, gameNumber, previous.value, history), agent1, agent2, 0, []);
      a1, a2 := d.agent1, d.agent2;
    }
    PlayRoundsLogged(plan, a1, a2, [], [], []);
  }

  // ---------------------------------------------------------------------
  // One series
  // ---------------------------------------------------------------------

  /** How one game is played: (agent1, agent2, first speaker,
      communication enabled, game number, previous game, history) to the
      game's outcome. */
  type GameRun = (Agent, Agent, int, bool, int, Option<Snapshot>, seq<MessageEntry>) -> GameOutcome

  /** `game` plays the games of `run_single_game`. */
  ghost predicate RunsGames(plan: Plan, game: GameRun)
    requires Coherent(plan)
  {
    forall agent1, agent2, firstSpeaker, enabled, gameNumber, previous, history
      {:trigger PlayGame(plan, agent1, agent2, firstSpeaker, enabled, gameNumber, previous, history)} ::
      game(agent1, agent2, firstSpeaker, enabled, gameNumber, previous, history)
      == PlayGame(plan, agent1, agent2, firstSpeaker, enabled, gameNumber, previous, history)
  }

  /** `num_games`: one game per series. */
  const NumGames: int := 1

  /** The failure counters of an orchestrator. */
  datatype Counters = Counters(consecutive: int, total: int)

  /** What `run_series` returns on success. */
  datatype SeriesResult = SeriesResult(modelPair: seq<int>, condition: Json, repetition: int,
                                       games: seq<GameRecord>, communicationHistory: seq<MessageEntry>)

  /** A series' result (None for a failed one), the counters and the
      history after it. */
  datatype SeriesOutcome = SeriesOutcome(result: Option<SeriesResult>, counters: Counters, history: seq<MessageEntry>)

  /** `run_series` on a pair and a condition, with the agents built by the
      `ordinal`-th and next `_create_llm` calls: the history is reset, the
      initial dialogue runs when the condition enables communication (its
      failure counts as a consecutive failure only), then the games, each
      with Player 1 speaking first. */
  function Series(plan: Plan, game: GameRun, pair: seq<int>, condition: Json, repetition: int, ordinal: nat,
                  counters: Counters): SeriesOutcome
    requires Named(condition)
    requires |pair| == 2 && 0 <= pair[0] < |plan.availableModels| && 0 <= pair[1] < |plan.availableModels|
  {
    var agent1 := plan.spawn(ordinal, plan.availableModels[pair[0]]);
    var agent2 := plan.spawn(ordinal + 1, plan.availableModels[pair[1]]);
    var enabled := Truthy(Get(condition.fields, KeyCommunicationEnabled, JBool(false)));
    if enabled then
      var d := Dialogue(InitialSetup(plan, []), agent1, agent2, 0, []);
      if d.success then SeriesGames(game, pair, condition, repetition, enabled, 1, d.agent1, d.agent2, None, [], counters, d.messages)
      else SeriesOutcome(None, Counters(counters.consecutive + 1, counters.total), d.messages)
    else SeriesGames(game, pair, condition, repetition, enabled, 1, agent1, agent2, None, [], counters, [])
  }

  /** The game loop of `run_series` from game `gameNumber` on: a failed
      game counts as a consecutive and a total failure and ends the series;
      a played game resets the consecutive count. */
  function SeriesGames(game: GameRun, pair: seq<int>, condition: Json, repetition: int, enabled: bool, gameNumber: int,
                       agent1: Agent, agent2: Agent, previous: Option<Snapshot>, games: seq<GameRecord>,
                       counters: Counters, history: seq<MessageEntry>): SeriesOutcome
    requires Named(condition)
    decreases NumGames + 1 - gameNumber
  {
    if gameNumber > NumGames then
      SeriesOutcome(Some(SeriesResult(pair, condition.fields[KeyName], repetition, games, history)), counters, history)
    else
      var g := game(agent1, agent2, 1, enabled, gameNumber, previous, history);
      match g.record
      case None => SeriesOutcome(None, Counters(counters.consecutive + 1, counters.total + 1), g.history)
      case Some(r) =>
        SeriesGames(game, pair, condition, repetition, enabled, gameNumber + 1, g.agent1, g.agent2, Some(r.state),
                    games + [r], Counters(0, counters.total), g.history)
  }

  /** A game numbered 1 or less has no inter-game dialogue before it. */
  ghost predicate FirstGameQuiet(game: GameRun) {
    forall agent1, agent2, firstSpeaker, enabled, gameNumber, previous, history ::
      gameNumber <= 1 ==> game(agent1, agent2, firstSpeaker, enabled, gameNumber, previous, history).history == history
  }

  /** The games of `run_single_game` leave the history alone before the
      second game. */
  lemma PlayedGamesQuiet(plan: Plan, game: GameRun)
    requires Coherent(plan) && RunsGames(plan, game)
    ensures FirstGameQuiet(game)
  {
    forall agent1, agent2, firstSpeaker, enabled, gameNumber, previous, history | gameNumber <= 1
      ensures game(agent1, agent2, firstSpeaker, enabled, gameNumber, previous, history).history == history
    {
      GameRecordShape(plan, agent1, agent2, firstSpeaker, enabled, gameNumber, previous, history);
    }
  }

  /** The counters of a series: a failed initial dialogue adds one to the
      consecutive count only; a failed game adds one to both; a played
      series resets the consecutive count and keeps the total. A played
      series holds its one game, its pair, repetition and condition name,
      and the history since the reset: the initial dialogue or nothing. */
  lemma SeriesCounters(plan: Plan, game: GameRun, pair: seq<int>, condition: Json, repetition: int, ordinal: nat,
                       counters: Counters)
    requires Named(condition) && FirstGameQuiet(game)
    requires |pair| == 2 && 0 <= pair[0] < |plan.availableModels| && 0 <= pair[1] < |plan.availableModels|
    ensures var o := Series(plan, game, pair, condition, repetition, ordinal, counters);
      var agent1 := plan.spawn(ordinal, plan.availableModels[pair[0]]);
      var agent2 := plan.spawn(ordinal + 1, plan.availableModels[pair[1]]);
      var enabled := Truthy(Get(condition.fields, KeyCommunicationEnabled, JBool(false)));
      var initial := Dialogue(InitialSetup(plan, []), agent1, agent2, 0, []);
      && (enabled && !initial.success ==>
            o == SeriesOutcome(None, Counters(counters.consecutive + 1, counters.total), initial.messages))
      && (o.result.None? && !(enabled && !initial.success) ==>
            o.counters == Counters(counters.consecutive + 1, counters.total + 1))
      && (o.result.Some? ==>
            && o.counters == Counters(0, counters.total)
            && o.result.value.modelPair == pair && o.result.value.repetition == repetition
            && o.result.value.condition == condition.fields[KeyName]
            && |o.result.value.games| == NumGames
            && o.result.value.communicationHistory == o.history
            && o.history == (if enabled then initial.messages else []))
  {
    var agent1 := plan.spawn(ordinal, plan.availableModels[pair[0]]);
    var agent2 := plan.spawn(ordinal + 1, plan.availableModels[pair[1]]);
    var enabled := Truthy(Get(condition.fields, KeyCommunicationEnabled, JBool(false)));
    var initial := Dialogue(InitialSetup(plan, []), agent1, agent2, 0, []);
    var a1, a2, h := agent1, agent2, [];
    if enabled {
      a1, a2, h := initial.agent1, initial.agent2, initial.messages;
    }
    assert game(a1, a2, 1, enabled, 1, None, h).history == h;
  }

  // ---------------------------------------------------------------------
  // The experiment
  // ---------------------------------------------------------------------

  /** How the experiment runs one series: (condition index, pair index,
      repetition, ordinal of the next `_create_llm` call, counters) to the
      series' outcome. */
  type SeriesRun = (nat, nat, int, nat, Counters) -> SeriesOutcome

  /** What the loops of `run_experiment` iterate over, and the failure limit. */
  datatype Schedule = Schedule(run: SeriesRun, limit: int, conditions: nat, pairs: nat, repetitions: int)

  /** The series of condition `ci` and pair `pi`. */
  function SeriesAt(plan: Plan, game: GameRun, ci: nat, pi: nat, repetition: int, ordinal: nat,
                    counters: Counters): SeriesOutcome
    requires Coherent(plan) && ci < |plan.conditions| && pi < |plan.modelPairs|
  {
    Series(plan, game, plan.modelPairs[pi], plan.conditions[ci], repetition, ordinal, counters)
  }

  /** `sched` runs the series of `run_series` over the conditions, pairs
      and repetitions of the configuration, with its failure limit. */
  ghost predicate RunsSeries(plan: Plan, game: GameRun, sched: Schedule)
    requires Coherent(plan)
  {
    && sched.limit == plan.maxConsecutiveFailures && sched.repetitions == plan.repetitions
    && sched.conditions == |plan.conditions| && sched.pairs == |plan.modelPairs|
    && forall ci: nat, pi: nat, repetition, ordinal, counters
         {:trigger SeriesAt(plan, game, ci, pi, repetition, ordinal, counters)} ::
         ci < |plan.conditions| && pi < |plan.modelPairs| ==>
           sched.run(ci, pi, repetition, ordinal, counters) == SeriesAt(plan, game, ci, pi, repetition, ordinal, counters)
  }

  /** The state the experiment loop carries: the results kept, the
      counters, the history, the number of `_create_llm` calls made, and
      whether the run has stopped. */
  datatype Progress = Progress(results: seq<SeriesResult>, counters: Counters, history: seq<MessageEntry>,
                               created: nat, aborted: bool)

  /** One series of the schedule: condition, pair and repetition indices. */
  datatype Slot = Slot(ci: nat, pi: nat, rep: nat)

  /** The series of `slot` (its repetition numbered from 1): a result is
      kept only when the series succeeded, and the run stops once the
      consecutive failures reach the limit. */
  function Step(sched: Schedule, slot: Slot, p: Progress): Progress {
    var s := sched.run(slot.ci, slot.pi, slot.rep + 1, p.created, p.counters);
    Progress(if s.result.Some? then p.results + [s.result.value] else p.results,
             s.counters, s.history, p.created + 2, s.counters.consecutive >= sched.limit)
  }

  /** The repetition loop from `rep` on. */
  function Reps(sched: Schedule, ci: nat, pi: nat, rep: nat, p: Progress): Progress
    decreases sched.repetitions - rep
  {
    if rep >= sched.repetitions || p.aborted then p
    else Reps(sched, ci, pi, rep + 1, Step(sched, Slot(ci, pi, rep), p))
  }

  /** The pair loop from `pi` on. */
  function Pairs(sched: Schedule, ci: nat, pi: nat, p: Progress): Progress
    decreases sched.pairs - pi
  {
    if pi >= sched.pairs || p.aborted then p
    else Pairs(sched, ci, pi + 1, Reps(sched, ci, pi, 0, p))
  }

  /** The condition loop from `ci` on. */
  function Conds(sched: Schedule, ci: nat, p: Progress): Progress
    decreases sched.conditions - ci
  {
    if ci >= sched.conditions || p.aborted then p
    else Conds(sched, ci + 1, Pairs(sched, ci, 0, p))
  }

  /** A list of series run one after another, stopping once the run is
      aborted. */
  function Fold(sched: Schedule, slots: seq<Slot>, p: Progress): Progress
    decreases |slots|
  {
    if slots == [] || p.aborted then p
    else Fold(sched, slots[1..], Step(sched, slots[0], p))
  }

  /** Repetitions `rep`.. of one pair, in order. */
  function RepSlots(sched: Schedule, ci: nat, pi: nat, rep: nat): (s: seq<Slot>)
    ensures |s| == Max(0, sched.repetitions - rep)
    ensures forall k :: 0 <= k < |s| ==> s[k] == Slot(ci, pi, rep + k)
    decreases sched.repetitions - rep
  {
    if rep >= sched.repetitions then [] else [Slot(ci, pi, rep)] + RepSlots(sched, ci, pi, rep + 1)
  }

  /** Pairs `pi`.. of one condition, each with all its repetitions. */
  function PairSlots(sched: Schedule, ci: nat, pi: nat): (s: seq<Slot>)
    ensures forall k :: 0 <= k < |s| ==> s[k].ci == ci && pi <= s[k].pi < sched.pairs && s[k].rep < sched.repetitions
    decreases sched.pairs - pi
  {
    if pi >= sched.pairs then [] else RepSlots(sched, ci, pi, 0) + PairSlots(sched, ci, pi + 1)
  }

  /** Conditions `ci`.., each with all its pairs: the order of `run_experiment`. */
  function CondSlots(sched: Schedule, ci: nat): (s: seq<Slot>)
    ensures forall k :: 0 <= k < |s| ==> ci <= s[k].ci < sched.conditions && s[k].pi < sched.pairs
    decreases sched.conditions - ci
  {
    if ci >= sched.conditions then [] else PairSlots(sched, ci, 0) + CondSlots(sched, ci + 1)
  }

  /** Running two lists in turn is running their concatenation. */
  lemma {:induction false} FoldAppend(sched: Schedule, a: seq<Slot>, b: seq<Slot>, p: Progress)
    ensures Fold(sched, a + b, p) == Fold(sched, b, Fold(sched, a, p))
    decreases |a|
  {
    if a == [] {
      assert a + b == b;
    } else if p.aborted {
      FoldAborted(sched, b, p);
    } else {
      assert (a + b)[1..] == a[1..] + b;
      FoldAppend(sched, a[1..], b, Step(sched, a[0], p));
    }
  }

  /** An aborted run takes no further step. */
  lemma FoldAborted(sched: Schedule, slots: seq<Slot>, p: Progress)
    requires p.aborted
    ensures Fold(sched, slots, p) == p
  {
  }

  lemma {:induction false} RepsFold(sched: Schedule, ci: nat, pi: nat, rep: nat, p: Progress)
    ensures Reps(sched, ci, pi, rep, p) == Fold(sched, RepSlots(sched, ci, pi, rep), p)
    decreases sched.repetitions - rep
  {
    if rep < sched.repetitions && !p.aborted {
      RepsFold(sched, ci, pi, rep + 1, Step(sched, Slot(ci, pi, rep), p));
      assert RepSlots(sched, ci, pi, rep)[1..] == RepSlots(sched, ci, pi, rep + 1);
    }
  }

  lemma {:induction false} PairsFold(sched: Schedule, ci: nat, pi: nat, p: Progress)
    ensures Pairs(sched, ci, pi, p) == Fold(sched, PairSlots(sched, ci, pi), p)
    decreases sched.pairs - pi
  {
    if pi < sched.pairs && !p.aborted {
      RepsFold(sched, ci, pi, 0, p);
      PairsFold(sched, ci, pi + 1, Reps(sched, ci, pi, 0, p));
      FoldAppend(sched, RepSlots(sched, ci, pi, 0), PairSlots(sched, ci, pi + 1), p);
    }
  }

  /** The nested loops over conditions, pairs and repetitions run the flat
      schedule (conditions outermost, repetitions innermost) one series
      after another, stopping at the first abort. */
  lemma {:induction false} CondsFold(sched: Schedule, ci: nat, p: Progress)
    ensures Conds(sched, ci, p) == Fold(sched, CondSlots(sched, ci), p)
    decreases sched.conditions - ci
  {
    if ci < sched.conditions && !p.aborted {
      PairsFold(sched, ci, 0, p);
      CondsFold(sched, ci + 1, Pairs(sched, ci, 0, p));
      FoldAppend(sched, PairSlots(sched, ci, 0), CondSlots(sched, ci + 1), p);
    }
  }

  /** A run only appends results, at most one per series: an unaborted run
      ran every series of its list, and an aborted one stopped with the
      consecutive failures at the limit. */
  lemma {:induction false} FoldOutcome(sched: Schedule, slots: seq<Slot>, p: Progress)
    requires !p.aborted
    ensures var q := Fold(sched, slots, p);
      && |p.results| <= |q.results| <= |p.results| + |slots| && q.results[..|p.results|] == p.results
      && (!q.aborted ==> q.created == p.created + 2 * |slots|)
      && (q.aborted ==> q.counters.consecutive >= sched.limit && q.created <= p.created + 2 * |slots|)
    decreases |slots|
  {
    if slots != [] {
      var p' := Step(sched, slots[0], p);
      if !p'.aborted {
        FoldOutcome(sched, slots[1..], p');
        var q := Fold(sched, slots[1..], p');
        assert q.results[..|p.results|] == q.results[..|p'.results|][..|p.results|];
      }
    }
  }

  // ---------------------------------------------------------------------
  // The orchestrator
  // ---------------------------------------------------------------------

  /** `ExperimentOrchestrator`: the configuration, the validator, the
      context builder, the communication manager and the failure counters.
      `games` and `schedule` are the games and series it plays, as
      functions of their inputs. */
  class ExperimentOrchestrator {
    const config: ExperimentConfig
    const validator: ValidatorConfig
    const contextBuilder: ContextBuilder
    const commManager: CommunicationManager
    const decisions: DecisionPolicy
    const formatDecision: DecisionFormatter
    const render: PromptRenderer
    const spawn: Spawner
    ghost const games: GameRun
    ghost const schedule: Schedule
    var consecutiveFailures: int
    var totalFailures: int

    /** The fixed parts of this orchestrator. */
    function AsPlan(): Plan {
      Plan(decisions, config.payoffMatrix, config.gameLength, commManager.ask, commManager.formatHistory,
           commManager.settings, render, config.maxConsecutiveFailures, config.conditions, config.modelPairs,
           config.availableModels, config.repetitions, spawn)
    }

    ghost predicate Valid() {
      && commManager.Asks() && Coherent(AsPlan())
      && RunsGames(AsPlan(), games) && RunsSeries(AsPlan(), games, schedule)
    }

    /** `ExperimentOrchestrator(config)`: a validator built from the four
        validation entries, a context builder and a manager on the same
        configuration, and both counters at zero. */
    constructor (config: ExperimentConfig, parse: Parser, formatDecision: DecisionFormatter,
                 render: PromptRenderer, spawn: Spawner)
      ensures this.config == config && validator == NewValidator(ValidationSettingsOf(config))
      ensures contextBuilder == NewContextBuilder(config)
      ensures decisions == DecisionPolicyOf(validator, parse, config.maxRetries)
      ensures fresh(commManager) && commManager.history == []
      ensures commManager.policy == MessagePolicy(validator, parse, config.maxRetries)
      ensures commManager.settings == DialogueSettingsOf(config)
      ensures consecutiveFailures == 0 && totalFailures == 0
      ensures WellFormed(config) ==> Valid()
    {
      this.config := config;
      validator := NewValidator(ValidationSettingsOf(config));
      contextBuilder := NewContextBuilder(config);
      var manager := new CommunicationManager(NewValidator(ValidationSettingsOf(config)), parse, config.maxRetries,
                                              DialogueSettingsOf(config));
      commManager := manager;
      decisions := DecisionPolicyOf(NewValidator(ValidationSettingsOf(config)), parse, config.maxRetries);
      this.formatDecision := formatDecision;
      this.render := render;
      this.spawn := spawn;
      ghost var plan := Plan(DecisionPolicyOf(NewValidator(ValidationSettingsOf(config)), parse, config.maxRetries),
                             config.payoffMatrix, config.gameLength, manager.ask, manager.formatHistory,
                             manager.settings, render, config.maxConsecutiveFailures, config.conditions,
                             config.modelPairs, config.availableModels, config.repetitions, spawn);
      ghost var game: GameRun :=
        (a1: Agent, a2: Agent, first: int, enabled: bool, n: int, previous: Option<Snapshot>, h: seq<MessageEntry>) =>
          if Coherent(plan) then PlayGame(plan, a1, a2, first, enabled, n, previous, h) else GameOutcome(None, a1, a2, h);
      games := game;
      schedule := Schedule(
        (ci: nat, pi: nat, repetition: int, ordinal: nat, counters: Counters) =>
          if Coherent(plan) && ci < |plan.conditions| && pi < |plan.modelPairs|
          then SeriesAt(plan, game, ci, pi, repetition, ordinal, counters)
          else SeriesOutcome(None, counters, []),
        config.maxConsecutiveFailures, |config.conditions|, |config.modelPairs|, config.repetitions);
      consecutiveFailures := 0;
      totalFailures := 0;
      new;
      if WellFormed(config) {
        SoundDecisionPolicy(validator, parse, config.maxRetries);
        assert AsPlan() == plan;
      }
    }

    /** `_get_player_decision`: the decision context is built once and the
        same prompt is sent on every attempt; the result is the retry
        loop's, and `prompts` lists the prompt of each call. */
    method GetPlayerDecision(agent: Agent, state: GameState, role: PyStr, isFirstSpeaker: bool,
                             reasoning: seq<ReasoningEntry>, opponentActions: seq<PyStr>)
      returns (decision: Option<map<PyStr, Json>>, prompts: seq<PyStr>)
      ensures Decision(decision, |prompts|) == DecisionRetry(decisions, agent, 0)
      ensures forall i :: 0 <= i < |prompts| ==>
                prompts[i] == formatDecision(BuildDecisionContext(contextBuilder, state.Snap(), role, isFirstSpeaker,
                                                                  commManager.history, reasoning, opponentActions))
    {
      var context := BuildDecisionContext(contextBuilder, state.Snap(), role, isFirstSpeaker, commManager.GetHistory(),
                                          reasoning, opponentActions);
      var prompt := formatDecision(context);
      prompts := [];
      var attempt := 0;
      while attempt < decisions.maxRetries + 1
        invariant 0 <= attempt <= Budget(decisions.maxRetries) && |prompts| == attempt
        invariant forall i :: 0 <= i < attempt ==> prompts[i] == prompt
        invariant DecisionRetry(decisions, agent, attempt) == DecisionRetry(decisions, agent, 0)
      {
        prompts := prompts + [prompt];
        match ReplyAt(agent, attempt) {
          case Raises =>
          case Response(body) =>
            var result := decisions.validate(body);
            if result.Accepted? {
              return Some(result.parsedData), prompts;
            }
        }
        attempt := attempt + 1;
      }
      decision := None;
    }

    /** One iteration of the round loop of `run_single_game`: each player
        is asked with the other's actions so far, both before either answer
        is checked; two decisions are logged and played. */
    method PlayNextRound(game: GameEngine, roundNum: int, firstSpeaker: int, agent1: Agent, agent2: Agent,
                         reasoning1: seq<ReasoningEntry>, reasoning2: seq<ReasoningEntry>, ghost here: RoundsOutcome)
      returns (ok: bool, next1: Agent, next2: Agent, log1: seq<ReasoningEntry>, log2: seq<ReasoningEntry>,
               prompts1: seq<PyStr>, prompts2: seq<PyStr>)
      requires Valid() && game.Valid() && game.matrix == MatrixOf(AsPlan()) && game.gameLength == config.gameLength
      requires roundNum == |game.state.rounds| < config.gameLength
      requires here == PlayRounds(AsPlan(), agent1, agent2, game.state.rounds, reasoning1, reasoning2)
      modifies game.state
      ensures game.Valid()
      ensures ok ==> |game.state.rounds| == roundNum + 1
                     && here == PlayRounds(AsPlan(), next1, next2, game.state.rounds, log1, log2)
      ensures !ok ==> here == RoundsOutcome(false, game.state.rounds, log1, log2, next1, next2)
      ensures forall i :: 0 <= i < |prompts1| ==>
                prompts1[i] == formatDecision(BuildDecisionContext(contextBuilder, old(game.state.Snap()), Player1,
                                                                   firstSpeaker == 1, commManager.history, reasoning1,
                                                                   Actions(old(game.state.rounds), 2).value))
      ensures forall i :: 0 <= i < |prompts2| ==>
                prompts2[i] == formatDecision(BuildDecisionContext(contextBuilder, old(game.state.Snap()), Player2,
                                                                   firstSpeaker == 2, commManager.history, reasoning2,
                                                                   Actions(old(game.state.rounds), 1).value))
    {
      var decision1, decision2;
      decision1, prompts1 := GetPlayerDecision(agent1, game.state, Player1, firstSpeaker == 1, reasoning1,
                                               game.GetActionsHistory(2).value);
      decision2, prompts2 := GetPlayerDecision(agent2, game.state, Player2, firstSpeaker == 2, reasoning2,
                                               game.GetActionsHistory(1).value);
      next1, next2 := Advance(agent1, |prompts1|), Advance(agent2, |prompts2|);
      log1, log2 := reasoning1, reasoning2;
      if decision1.None? || decision2.None? {
        return false, next1, next2, log1, log2, prompts1, prompts2;
      }
      DecisionRetryFields(decisions, agent1);
      DecisionRetryFields(decisions, agent2);
      var entry1 := Reasoned(roundNum + 1, decision1.value);
      var entry2 := Reasoned(roundNum + 1, decision2.value);
      log1, log2 := reasoning1 + [entry1], reasoning2 + [entry2];
      var played := game.PlayRound(entry1.action, entry2.action);
      ok := true;
    }

    /** The round loop of `run_single_game` on a fresh engine: rounds are
        played until the game's length is reached or a decision is missing. */
    method PlayAllRounds(game: GameEngine, firstSpeaker: int, agent1: Agent, agent2: Agent)
      returns (complete: bool, next1: Agent, next2: Agent, reasoning1: seq<ReasoningEntry>,
               reasoning2: seq<ReasoningEntry>)
      requires Valid() && game.Valid() && game.matrix == MatrixOf(AsPlan()) && game.gameLength == config.gameLength
      requires game.state.rounds == []
      modifies game.state
      ensures game.Valid()
      ensures RoundsOutcome(complete, game.state.rounds, reasoning1, reasoning2, next1, next2)
              == PlayRounds(AsPlan(), agent1, agent2, [], [], [])
    {
      ghost var here := PlayRounds(AsPlan(), agent1, agent2, [], [], []);
      next1, next2 := agent1, agent2;
      reasoning1, reasoning2 := [], [];
      var roundNum := 0;
      while roundNum < config.gameLength
        invariant game.Valid() && game.matrix == MatrixOf(AsPlan()) && game.gameLength == config.gameLength
        invariant 0 <= roundNum == |game.state.rounds|
        invariant here == PlayRounds(AsPlan(), next1, next2, game.state.rounds, reasoning1, reasoning2)
      {
        var ok, prompts1, prompts2;
        ok, next1, next2, reasoning1, reasoning2, prompts1, prompts2 :=
          PlayNextRound(game, roundNum, firstSpeaker, next1, next2, reasoning1, reasoning2, here);
        if !ok {
          return false, next1, next2, reasoning1, reasoning2;
        }
        roundNum := roundNum + 1;
      }
      complete := true;
    }

    /** `run_single_game`: a fresh engine on the configured payoffs, the
        inter-game dialogue when it applies, then `game_length` rounds. */
    method RunSingleGame(agent1: Agent, agent2: Agent, firstSpeaker: int, communicationEnabled: bool,
                         gameNumber: int, previous: Option<Snapshot>)
      returns (record: Option<GameRecord>, next1: Agent, next2: Agent)
      requires Valid()
      modifies commManager
      ensures GameOutcome(record, next1, next2, commManager.history)
              == PlayGame(AsPlan(), agent1, agent2, firstSpeaker, communicationEnabled, gameNumber, previous,
                          old(commManager.history))
    {
      var matrix := FromConfig(config.payoffMatrix);
      var game := new GameEngine(config.gameLength, Some(matrix.value));
      next1, next2 := agent1, agent2;
      if communicationEnabled && gameNumber > 1 && previous.Some? {
        var success, messages;
        success, messages, next1, next2 :=
          commManager.ConductInterGameDialogue(agent1, agent2, firstSpeaker, previous.value, gameNumber, render);
        if !success {
          return None, next1, next2;
        }
      }
      var complete, reasoning1, reasoning2;
      complete, next1, next2, reasoning1, reasoning2 := PlayAllRounds(game, firstSpeaker, next1, next2);
      if !complete {
        return None, next1, next2;
      }
      var summary := game.GetGameSummary();
      record := Some(GameRecord(gameNumber, summary, reasoning1, reasoning2, game.state.Snap()));
    }

    /** A game of a series, as `games` plays it. */
    method PlaySeriesGame(agent1: Agent, agent2: Agent, enabled: bool, gameNumber: int, previous: Option<Snapshot>)
      returns (record: Option<GameRecord>, next1: Agent, next2: Agent)
      requires Valid()
      modifies commManager
      ensures GameOutcome(record, next1, next2, commManager.history)
              == games(agent1, agent2, 1, enabled, gameNumber, previous, old(commManager.history))
    {
      record, next1, next2 := RunSingleGame(agent1, agent2, 1, enabled, gameNumber, previous);
    }

    /** The game loop of `run_series`: a failed game counts as a consecutive
        and a total failure and ends the series; a played game resets the
        consecutive count. */
    method PlaySeriesGames(pair: seq<int>, condition: Json, repetition: int, enabled: bool, agent1: Agent, agent2: Agent)
      returns (result: Option<SeriesResult>)
      requires Valid() && Named(condition)
      modifies this, commManager
      ensures SeriesOutcome(result, Counters(consecutiveFailures, totalFailures), commManager.history)
              == SeriesGames(games, pair, condition, repetition, enabled, 1, agent1, agent2, None, [],
                             Counters(old(consecutiveFailures), old(totalFailures)), old(commManager.history))
    {
      ghost var here := SeriesGames(games, pair, condition, repetition, enabled, 1, agent1, agent2, None, [],
                                    Counters(consecutiveFailures, totalFailures), commManager.history);
      var next1, next2 := agent1, agent2;
      var played := [];
      var previous := None;
      for gameNumber := 1 to NumGames + 1
        invariant here == SeriesGames(games, pair, condition, repetition, enabled, gameNumber, next1, next2,
                                      previous, played, Counters(consecutiveFailures, totalFailures),
                                      commManager.history)
      {
        var record;
        record, next1, next2 := PlaySeriesGame(next1, next2, enabled, gameNumber, previous);
        if record.None? {
          consecutiveFailures := consecutiveFailures + 1;
          totalFailures := totalFailures + 1;
          return None;
        }
        played := played + [record.value];
        previous := Some(record.value.state);
        consecutiveFailures := 0;
      }
      result := Some(SeriesResult(pair, condition.fields[KeyName], repetition, played, commManager.GetHistory()));
    }

    /** The initial dialogue of `run_series`, on the history just reset,
        with Player 1 speaking first. */
    method OpenSeries(agent1: Agent, agent2: Agent) returns (success: bool, next1: Agent, next2: Agent)
      requires Valid() && commManager.history == []
      modifies commManager
      ensures DialogueOutcome(success, commManager.history, next1, next2)
              == Dialogue(InitialSetup(AsPlan(), []), agent1, agent2, 0, [])
    {
      assert commManager.SetupOf(InitialPhase, commManager.settings.initialRounds,
                                 commManager.settings.initialMaxChars, 1, render, [])
             == InitialSetup(AsPlan(), []);
      var messages;
      success, messages, next1, next2 := commManager.ConductInitialDialogue(agent1, agent2, 1, render);
    }

    /** `run_series`: the agents of the pair are created, the history is
        reset, the initial dialogue runs if the condition enables
        communication, then the games; the counters record the failures. */
    method RunSeries(pair: seq<int>, condition: Json, repetition: int, ordinal: nat)
      returns (result: Option<SeriesResult>)
      requires Valid() && Named(condition)
      requires |pair| == 2 && 0 <= pair[0] < |config.availableModels| && 0 <= pair[1] < |config.availableModels|
      modifies this, commManager
      ensures SeriesOutcome(result, Counters(consecutiveFailures, totalFailures), commManager.history)
              == Series(AsPlan(), games, pair, condition, repetition, ordinal,
                        Counters(old(consecutiveFailures), old(totalFailures)))
    {
      var agent1 := spawn(ordinal, config.availableModels[pair[0]]);
      var agent2 := spawn(ordinal + 1, config.availableModels[pair[1]]);
      commManager.ResetHistory();
      var enabled := Truthy(Get(condition.fields, KeyCommunicationEnabled, JBool(false)));
      var next1, next2 := agent1, agent2;
      if enabled {
        var success;
        success, next1, next2 := OpenSeries(agent1, agent2);
        if !success {
          consecutiveFailures := consecutiveFailures + 1;
          return None;
        }
      }
      result := PlaySeriesGames(pair, condition, repetition, enabled, next1, next2);
    }

    /** The series of slot (`ci`, `pi`, `repetition`), as `schedule` runs it. */
    method RunScheduledSeries(ci: nat, pi: nat, repetition: int, ordinal: nat) returns (result: Option<SeriesResult>)
      requires Valid() && ci < |config.conditions| && pi < |config.modelPairs|
      modifies this, commManager
      ensures SeriesOutcome(result, Counters(consecutiveFailures, totalFailures), commManager.history)
              == schedule.run(ci, pi, repetition, ordinal, Counters(old(consecutiveFailures), old(totalFailures)))
    {
      ghost var counters := Counters(consecutiveFailures, totalFailures);
      result := RunSeries(config.modelPairs[pi], config.conditions[ci], repetition, ordinal);
      assert SeriesAt(AsPlan(), games, ci, pi, repetition, ordinal, counters)
             == Series(AsPlan(), games, config.modelPairs[pi], config.conditions[ci], repetition, ordinal, counters);
    }

    /** The repetition loop of `run_experiment` for one condition and one
        pair: `stop` reports that the consecutive failures reached the limit,
        at which point the run returns. */
    method RunRepetitions(ci: nat, pi: nat, results: seq<SeriesResult>, created: nat)
      returns (results': seq<SeriesResult>, created': nat, stop: bool)
      requires Valid() && ci < |config.conditions| && pi < |config.modelPairs|
      modifies this, commManager
      ensures Progress(results', Counters(consecutiveFailures, totalFailures), commManager.history, created', stop)
              == Reps(schedule, ci, pi, 0, Progress(results, Counters(old(consecutiveFailures), old(totalFailures)),
                                                    old(commManager.history), created, false))
    {
      ghost var goal := Reps(schedule, ci, pi, 0, Progress(results, Counters(consecutiveFailures, totalFailures),
                                                           commManager.history, created, false));
      results', created' := results, created;
      var rep := 0;
      while rep < config.repetitions
        invariant 0 <= rep
        invariant goal == Reps(schedule, ci, pi, rep, Progress(results', Counters(consecutiveFailures, totalFailures),
                                                               commManager.history, created', false))
      {
        var result := RunScheduledSeries(ci, pi, rep + 1, created');
        if result.Some? {
          results' := results' + [result.value];
        }
        created' := created' + 2;
        if consecutiveFailures >= config.maxConsecutiveFailures {
          return results', created', true;
        }
        rep := rep + 1;
      }
      stop := false;
    }

    /** `run_experiment`: conditions, then pairs, then repetitions 1..R;
        a series' result is kept when it succeeded, and the run returns
        what it has as soon as the consecutive failures reach the limit. */
    method RunExperiment() returns (results: seq<SeriesResult>)
      requires Valid()
      modifies this, commManager
      ensures var q := Conds(schedule, 0, Progress([], Counters(old(consecutiveFailures), old(totalFailures)),
                                                   old(commManager.history), 0, false));
        && results == q.results
        && Counters(consecutiveFailures, totalFailures) == q.counters
        && commManager.history == q.history
    {
      ghost var goal := Conds(schedule, 0, Progress([], Counters(consecutiveFailures, totalFailures),
                                                    commManager.history, 0, false));
      results := [];
      var created := 0;
      for ci := 0 to |config.conditions|
        invariant goal == Conds(schedule, ci, Progress(results, Counters(consecutiveFailures, totalFailures),
                                                       commManager.history, created, false))
      {
        for pi := 0 to |config.modelPairs|
          invariant goal == Conds(schedule, ci + 1,
                                  Pairs(schedule, ci, pi, Progress(results, Counters(consecutiveFailures, totalFailures),
                                                                   commManager.history, created, false)))
        {
          var stop;
          results, created, stop := RunRepetitions(ci, pi, results, created);
          if stop {
            return results;
          }
        }
      }
    }
  }
}
