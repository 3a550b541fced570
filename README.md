# Repeated Prisoner's Dilemma between language models — a Dafny model

The system runs experiments in which two language-model agents play the
iterated Prisoner's Dilemma, with or without talking to each other first.
This project models its deterministic core:

- **Payoff table** (`Payoffs`): the lookup from two actions in
  {"Cooperate", "Defect"} to two integer payoffs, the default table and the
  table built from a configuration's four keys.
- **Game ledger** (`State`): a `GameState` object whose `AddRound` bumps
  the round counter, adds both payoffs and records the round in one step.
  It keeps three invariants: the counter equals the number of rounds,
  each score is the sum of that player's payoffs, and rounds are numbered
  from 1. Cooperation rates are exact count pairs. The dictionary form
  round-trips through JSON.
- **Game engine** (`Engine`): a `GameEngine` object that refuses a
  complete game, then refuses invalid actions, and only then appends a
  round. It also has the read-only views (scores, histories, round
  results, summary) and `Reset`.
- **Response validator** (`Validator`): the two check pipelines for
  messages and decisions. Each check fails with its own error, in a fixed
  order. Limits, required keys, allowed actions and blank checks come
  from configuration, with the defaults of `ResponseValidator`.
- **Context builder** (`Context`): the game as one player sees it. Scores
  are swapped for "Player 2", and the round shown counts from 1.
- **Communication manager** (`Manager`): a `CommunicationManager` object.
  It holds the bounded message-retry loop, which appends corrective
  feedback to the prompt; the initial and inter-game dialogues, two turns
  per exchange, in the order set by the first speaker; the append-only
  shared history with its reset; and the history formatter.
- **Orchestrator** (`Orchestrator`): an `ExperimentOrchestrator` object.
  It holds the decision retry loop (no feedback), the round loop that
  builds both reasoning logs, one game, one series with its failure
  counters, and the loops over conditions, pairs and repetitions, which
  stop early but keep the results gathered so far.
- **Configuration** (`Config`): the required-section check, the run-mode
  check, the optional sections' defaults and the lookups over a loaded
  configuration: model by index, condition by name, validation of the
  model pairs and the validation settings.

The agents are scripts (`Agents`): a sequence of replies, each a text or
an exception, consumed one per call; a call past the end of the script
raises. The JSON parser, the prompt templates and the construction of an
agent from a model entry are function parameters (`Parser`,
`PromptRenderer`, `DecisionFormatter`, `Spawner`). Python strings are
sequences of code points (`Text.PyStr`), so lone surrogates, which the
encodability checks look for, can occur.

Each method that changes state is proved against a function of its
inputs and the old state: `Manager.Dialogue` for the dialogues,
`Orchestrator.PlayRounds`/`PlayGame`/`Series` for a game and a series,
and `Orchestrator.Conds` for the experiment. The properties the source
promises are then proved about those functions as lemmas.

## Model

| member | source | states |
|---|---|---|
| Payoffs.NewPayoffMatrix | src/game/payoffs.py:7-31 | without a table, the default one: CC (3,3), CD (0,5), DC (5,0), DD (1,1), defined for all four pairs; a supplied table is used as is |
| Payoffs.GetPayoffs | src/game/payoffs.py:33-52 | an invalid first action is refused first, then an invalid second one; the lookup succeeds exactly for two valid actions present in the table, and returns that table entry |
| Payoffs.TotalNeverFailsOnValidActions | src/game/payoffs.py:33-52 | on a table defined for all four pairs, the lookup succeeds exactly when both actions are valid |
| Payoffs.DefaultLookups | src/game/payoffs.py:12-17 | the four lookups in the default table give (3,3), (0,5), (5,0) and (1,1) |
| Payoffs.LowerCaseRejected | src/game/payoffs.py:47-48 | "cooperate" is refused as an invalid first action: the match is case-sensitive |
| Payoffs.FromConfig | src/game/payoffs.py:54-71 | succeeds exactly when all four keys are present, building a four-entry table with each key on its ordered pair; otherwise fails naming the first missing key in the order CC, CD, DC, DD |
| Payoffs.FromConfigLookups | src/game/payoffs.py:54-71 | every lookup of two valid actions in a table built from a configuration gives that configuration's entry for the pair |
| State.Actions | src/game/state.py:56-71 | defined exactly for player 1 or 2 (otherwise an invalid-player error); one action per round, in order, the player's own |
| State.ActionsAppend | src/game/state.py:56-71 | adding a round appends exactly that round's action to a player's history |
| State.CountCooperateBounds | src/game/state.py:73-88 | the cooperation count is at most the number of actions, and equals it exactly when every action is "Cooperate" |
| State.RateValueBounds | src/game/state.py:83-88 | a rate lies in [0, 1], and is 1 exactly when there are actions and all are cooperations |
| State.CooperationRate | src/game/state.py:73-88 | defined exactly for player 1 or 2; counts over all rounds played |
| State.CooperationRateBounds | src/game/state.py:73-88 | the rate is in [0, 1], 0 with no rounds, and 1 exactly when the player cooperated in every round |
| State.RoundsToJson | src/game/state.py:94-111 | one dictionary per round |
| State.RoundJsonRoundTrip | src/game/state.py:94-111 | a round's dictionary reads back as the same round |
| State.RoundsJsonRoundTrip | src/game/state.py:94-111 | the list of round dictionaries reads back as the same rounds, in order |
| State.SnapshotJsonRoundTrip | src/game/state.py:94-111 | the state's dictionary reads back as the same length, counter, scores and rounds |
| State.GameState.constructor | src/game/state.py:19-27 | a fresh state: counter 0, both scores 0, no rounds, the invariants established |
| State.GameState.AddRound | src/game/state.py:29-50 | counter up by one, each score up by its payoff, one round appended with the new counter as its number, earlier rounds unchanged; the invariants are preserved |
| State.GameState.IsComplete | src/game/state.py:52-54 | complete exactly when the counter has reached the game length |
| State.GameState.ActionsForPlayer | src/game/state.py:56-71 | defined exactly for player 1 or 2; one action per round, in order |
| State.GameState.GetCooperationRate | src/game/state.py:73-88 | defined exactly for player 1 or 2; the rate is in [0, 1] and is 1 exactly when the player always cooperated |
| State.GameState.Score | src/game/state.py:90-92 | player 1's payoff sum for 1, player 2's for any other argument |
| State.GameState.ToDict | src/game/state.py:94-111 | the dictionary reads back as the state's length, counter, scores and rounds |
| Engine.SummaryOf | src/game/engine.py:113-133 | rounds played is the ledger's length; complete exactly when the length is reached; final scores are the payoff sums; rates are over every round and lie in [0, 1]; the round list reads back as the ledger |
| Engine.GameEngine.constructor | src/game/engine.py:13-23 | a fresh ledger of the given length; the supplied matrix or else the default |
| Engine.GameEngine.PlayRound | src/game/engine.py:25-48 | a complete game is refused and nothing changes; then invalid actions are refused and nothing changes; otherwise it returns the table payoffs and appends exactly one round with those actions and payoffs, adding them to the scores |
| Engine.GameEngine.IsComplete | src/game/engine.py:50-52 | complete exactly when as many rounds as the length were played |
| Engine.GameEngine.GetCurrentRound | src/game/engine.py:54-56 | the number of rounds played |
| Engine.GameEngine.GetScores | src/game/engine.py:58-65 | the two payoff sums over the ledger |
| Engine.GameEngine.GetActionsHistory | src/game/engine.py:67-77 | defined exactly for player 1 or 2; that player's actions in round order |
| Engine.GameEngine.GetCooperationRate | src/game/engine.py:79-89 | defined exactly for player 1 or 2; a share of the rounds played, in [0, 1], 1 exactly when the player always cooperated |
| Engine.GameEngine.GetRoundResult | src/game/engine.py:91-111 | nothing for a number below 1 or past the rounds played; otherwise that round's fields, numbered as asked |
| Engine.GameEngine.GetGameSummary | src/game/engine.py:113-133 | the summary of the ledger: complete as the state says, rates in [0, 1], rounds that read back as the ledger |
| Engine.GameEngine.Reset | src/game/engine.py:135-137 | a fresh empty ledger with the same length |
| Engine.AcceptedRounds | src/game/engine.py:39-40 | a game of length n accepts exactly n rounds of valid actions, then refuses the next as already complete |
| Engine.MixedScenario | src/test_game_engine.py:13-58 | (C,C), (C,D), (D,C), (D,D), (C,C) give scores (12, 12), rates 3/5 each, five rounds, complete |
| Engine.MixedSummary | src/test_game_engine.py:13-58 | the summary of those five rounds has scores (12, 12) and rates 0.6 |
| Engine.CooperationCount | src/game/state.py:73-88 | three cooperations among five actions give the rate 3 of 5 |
| Engine.UniformScenarios | src/test_game_engine.py:60-102 | five rounds of cooperation give (15, 15); five of defection give (5, 5) |
| Engine.CustomTableScenario | src/test_game_engine.py:104-133 | the custom table over (C,C), (C,D), (D,D) gives (6, 12) |
| Engine.ErrorScenario | src/test_game_engine.py:136-163 | a third round in a two-round game is refused as complete; "Invalid" is refused as an invalid first action and leaves the ledger empty |
| Json.Get | src/experiment/config.py:147-149 | `dict.get`: the entry when the key is present, the default otherwise |
| Validator.NewValidator | src/communication/validator.py:21-34 | each setting is the configuration's entry, or the default: 200, 500, ["Cooperate", "Defect"], ["message"], ["reasoning", "action"], both blank checks on |
| Validator.DefaultValidatorValues | src/communication/validator.py:28-34 | an empty configuration gives exactly those defaults |
| Validator.ValidationResult.ErrorMessage | src/communication/validator.py:10-15 | an error text exactly when the result is invalid |
| Validator.ValidationResult.ParsedData | src/communication/validator.py:10-15 | parsed data exactly when the result is valid |
| Validator.FirstMissingIndex | src/communication/validator.py:63-68 | every key before the index is present, and the key at it (if any) is missing |
| Validator.FirstMissing | src/communication/validator.py:63-68 | nothing exactly when all required keys are present; otherwise a required key that is missing |
| Validator.ValidateMessage | src/communication/validator.py:36-105 | valid exactly when the text parses to an object with every required key and a string message that is non-blank (when checked), within the limit and encodable; the parsed data is that object |
| Validator.MessageCheckOrder | src/communication/validator.py:47-100 | the first failing check decides the error: parse, object, first missing key in list order, string, blank, length, encoding |
| Validator.MessageLengthBoundary | src/communication/validator.py:87-91 | a message is accepted exactly when its length is at most the limit; one past it is refused with the length error |
| Validator.BlankMessage | src/communication/validator.py:80-84 | a whitespace-only message is refused when the blank check is on; with it off, acceptance depends only on the length |
| Validator.ValidateDecision | src/communication/validator.py:107-188 | valid exactly when every required key is present, the reasoning passes its type, blank and length checks, the action is a string in the allowed list, and the reasoning is encodable; the parsed data is that object |
| Validator.DecisionCheckOrder | src/communication/validator.py:107-183 | the first failing check decides the error: parse, object, first missing key in list order, then the reasoning (string, blank, length) before the action (string, allow-list), and the reasoning's encoding last |
| Validator.LowerCaseActionRejected | src/communication/validator.py:164-174 | with the defaults, "cooperate" is refused as an action not in the allowed list |
| Validator.AcceptedDecisionFields | src/communication/validator.py:134-174 | when the configuration requires reasoning and action, an accepted decision has a string reasoning and an allowed string action |
| Validator.ValidateWithRetry | src/communication/validator.py:190-210 | "message" and "decision" run their pipeline and report one attempt; any other kind is an error |
| Manager.FormatEntryEndsWithMessage | src/communication/manager.py:317-329 | every line ends with the speaker, ": " and the message |
| Manager.Lines | src/communication/manager.py:317-329 | one formatted line per entry, in order |
| Manager.FormatHistoryIsJoin | src/communication/manager.py:303-331 | a non-empty history renders as its lines joined by newlines |
| Manager.FormatHistoryAppend | src/communication/manager.py:303-331 | appending an entry appends a newline and its line (or gives just its line for an empty history) |
| Manager.Delivered | src/communication/manager.py:286-290 | a message is delivered only from a reply the validator accepted |
| Manager.ValidatorDeliversText | src/communication/manager.py:286-290 | with the message validator, a reply delivers exactly when it is accepted and holds the "message" key |
| Manager.MessageRetry | src/communication/manager.py:266-301 | the prompts already sent are kept as a prefix |
| Manager.MessageRetryTrace | src/communication/manager.py:281-301 | at most max_retries + 1 calls; the first prompt is the one given; each later prompt follows from the previous reply (feedback after a refusal, unchanged after an exception); the first delivered message is returned, otherwise every attempt was made and nothing is returned |
| Manager.FailOnceThenSucceed | src/communication/manager.py:293-296 | a refused reply then a good one: two calls, the second prompt carrying the validator's error, and the good message returned |
| Manager.RaiseThenSucceed | src/communication/manager.py:297-298 | an exception then a good reply: two calls with the same prompt |
| Manager.SpeakerIndex | src/communication/manager.py:140-143 | the speaker of a turn is player index 0 or 1 |
| Manager.Dialogue | src/communication/manager.py:137-183 | the entries already recorded stay a prefix of the outcome |
| Manager.DialogueStops | src/communication/manager.py:164-171 | a turn without a message ends the dialogue as failed, keeping the entries so far; only the speaker's calls are spent |
| Manager.DialogueAdvances | src/communication/manager.py:164-181 | a turn with a message appends one entry for its speaker and moves to the next turn |
| Manager.DialogueEnds | src/communication/manager.py:137-183 | after the last turn the dialogue has succeeded |
| Manager.WellShapedAppend | src/communication/manager.py:174-181 | appending the next turn's entry keeps the entries well shaped |
| Manager.DialogueShape | src/communication/manager.py:137-183 | a dialogue succeeds exactly when it records two entries per exchange; entry k is spoken by the alternating speaker and labelled with its exchange and phase |
| Manager.SpeakersAlternate | src/communication/manager.py:140-143 | even turns belong to the first speaker, odd turns to the other player |
| Manager.CommunicationManager.constructor | src/communication/manager.py:17-40 | the validator's message policy, the dialogue settings, max_retries, an empty history |
| Manager.CommunicationManager.GetValidatedMessage | src/communication/manager.py:266-301 | the message and the prompts sent are those of the retry specification |
| Manager.CommunicationManager.SetupOf | src/communication/manager.py:110-143 | the dialogue's settings, with this manager's retry loop and formatter and the history before it |
| Manager.CommunicationManager.TakeTurn | src/communication/manager.py:140-181 | one turn: the history grows by the turn's entry, if any, and the dialogue specification is advanced by one turn |
| Manager.CommunicationManager.Exchange | src/communication/manager.py:137-181 | one exchange: two turns in speaker order, stopping at the first turn without a message |
| Manager.CommunicationManager.Converse | src/communication/manager.py:137-183 | the outcome is the dialogue specification's, and every entry is appended to the history in the same order |
| Manager.CommunicationManager.ConductInitialDialogue | src/communication/manager.py:110-183 | success exactly when two entries per exchange were recorded; the entries are well shaped with phase "initial"; the history grows by exactly those entries, also on failure |
| Manager.CommunicationManager.ConductInterGameDialogue | src/communication/manager.py:185-264 | the same, with phase "inter_game" and the game number |
| Manager.CommunicationManager.ResetHistory | src/communication/manager.py:333-335 | the history is empty |
| Manager.CommunicationManager.GetHistory | src/communication/manager.py:337-339 | the entries of the history, in order (a copy) |
| Context.NewContextBuilder | src/experiment/context.py:14-25 | the game rules are the configuration's payoff matrix, length and termination probability |
| Context.FormatterAlwaysRaises | src/experiment/orchestrator.py:204-213 | the formatter as written looks up `current_round` at the top of the decision context, which does not hold it, so every call raises a KeyError |
| Context.AsWrittenAlwaysRaises | src/experiment/context.py:50 | the decision context as written is never built: the state has no `get_scores` |
| Context.BuildDecisionContext | src/experiment/context.py:27-69 | rules, role, first speaker, history, reasoning and opponent actions pass through; "Player 2" sees (score2, score1), others (score1, score2); the round shown is the rounds played plus one |
| Context.ScoresSymmetric | src/experiment/context.py:50-52 | for the same state, each player's own score is the other's opponent score, and both see the same round |
| Context.ContextOfLedger | src/experiment/context.py:50-66 | from a consistent ledger, each player's score is its payoff sum, and the round shown is the rounds recorded plus one |
| Context.ContextScenario | src/test_context_builder.py:46-122 | after (C,D) and (D,D), Player 1 enters round 3 with 1 point against 6, and Player 2 sees 6 against 1 |
| Config.MissingOf | src/experiment/config.py:130-133 | no more missing sections than required ones |
| Config.MissingOfMembers | src/experiment/config.py:130-133 | a section is reported missing exactly when it is required and absent |
| Config.MissingOfEmpty | src/experiment/config.py:135-136 | nothing is missing exactly when every required section is present |
| Config.StructureCheckSpec | src/experiment/config.py:125-136 | the check passes exactly for a dictionary holding all seven sections; a non-dictionary fails with its own error; otherwise the error lists the missing sections |
| Config.OnlyExperimentSection | src/test_config.py:227-255 | a configuration with only "experiment" is refused, naming the six other sections |
| Config.Entry | src/experiment/config.py:140-146 | `d[key]`: succeeds exactly when the key is present, with its value |
| Config.SelectRepetitions | src/experiment/config.py:152-155 | an invalid run mode exactly when the mode is not a key of the table; otherwise that mode's count |
| Config.RunModeSelection | src/experiment/config.py:151-155 | the run mode selects its entry of the repetitions table, and an unknown mode is refused before other fields |
| Config.ParseConfig | src/experiment/config.py:138-146 | a configuration parses only when it holds all seven required sections (binding a missing one raises a KeyError); the order of the checks is stated by the lemmas below |
| Config.ExperimentFirst | src/experiment/config.py:138-162 | an experiment section that fails its own checks (run mode first) fails the whole parse with that error, before any other section is read |
| Config.ExperimentPartOf | src/experiment/config.py:152-162 | a loaded configuration holds an experiment section that parses on its own, and carries its run mode and repetitions |
| Config.OptionalPartOf | src/experiment/config.py:147-212 | a loaded configuration carries the parsed logging, API and budget entries and the raw configuration's `random_seed` (None when absent) |
| Config.LoadedRunMode | src/experiment/config.py:151-162 | on the raw configuration: a loaded one's run mode is the experiment's `run_mode` string, and its repetitions are that mode's integer entry of the `repetitions` table; a mode missing from the table fails the whole parse with an invalid run mode |
| Config.OptionalDefaults | src/experiment/config.py:147-212 | per key: where the section or the key is left out, level "INFO", console and file output on, 3 API retries, timeout 30, budget 10.0, no seed; where given, the level, timeout, budget and seed are the given values |
| Config.FindConditionSpec | src/experiment/config.py:249-253 | nothing is found exactly when no entry carries the name; otherwise the first entry that does |
| Config.PairProblem | src/experiment/config.py:271-276 | a pair passes exactly when it has two indices, each a model index |
| Config.PairsProblemSpec | src/experiment/config.py:270-278 | the pairs pass exactly when every pair does; otherwise the first offending pair's error |
| Config.ValidPairsSpec | src/experiment/config.py:268-278 | the check from the first pair passes exactly when all pairs are valid |
| Config.ValidationSettingsOf | src/experiment/config.py:280-295 | a validator built from these settings has the configuration's limits, keys, actions and blank checks (or the defaults) |
| Config.ConfigLoader.constructor | src/experiment/config.py:88-97 | nothing loaded yet |
| Config.ConfigLoader.Load | src/experiment/config.py:99-123 | the raw configuration is kept; the result is the structure check then the parse; a parsed configuration becomes the loaded one |
| Config.ConfigLoader.ValidateStructure | src/experiment/config.py:125-136 | the loop's result is the structure check's |
| Config.ConfigLoader.GetModelByIndex | src/experiment/config.py:218-234 | not loaded is an error; otherwise succeeds exactly for an index within the models, with that model, and an invalid-index error otherwise |
| Config.ConfigLoader.GetConditionByName | src/experiment/config.py:236-253 | not loaded is an error; otherwise the first condition carrying the name, or nothing |
| Config.ConfigLoader.ValidateModelPairs | src/experiment/config.py:255-278 | not loaded is an error; otherwise True or the first offending pair's error |
| Config.ConfigLoader.GetValidationConfig | src/experiment/config.py:280-295 | defined exactly when loaded; the settings are those built from the loaded configuration: both limits, and the required keys and allowed actions from the validation sections or their defaults |
| Config.PairScenarios | src/test_config.py:168-207 | with two models, [0, 999] names index 999, [0] is a bad format, and [[0,1],[1,0]] passes |
| Config.ConditionScenarios | src/test_config.py:116-140 | a present name gives its condition, an absent one nothing |
| Orchestrator.Accepted | src/experiment/orchestrator.py:183-196 | a decision exactly when the reply is a text the decision validator accepts, and it is the parsed object |
| Orchestrator.DecisionRetryTrace | src/experiment/orchestrator.py:183-196 | at most max_retries + 1 calls, exceptions counting; the decision is the first accepted reply's, every earlier one refused; with none, every attempt was made and refused |
| Orchestrator.RefusedThenAccepted | src/experiment/orchestrator.py:183-196 | a refused reply then an accepted one: two calls and the second reply's decision |
| Orchestrator.SoundDecisionPolicy | src/communication/validator.py:134-174 | a validator that requires reasoning and action and allows only game actions yields decisions the round loop can use |
| Orchestrator.DecisionRetryFields | src/experiment/orchestrator.py:141-150 | under such a validator, a decision has a string reasoning and a game action |
| Orchestrator.MatrixOf | src/experiment/orchestrator.py:90-91 | the table built from the configuration is defined for all four pairs |
| Orchestrator.PlayRoundsLogged | src/experiment/orchestrator.py:120-153 | the round loop only appends, keeps the ledger and both logs in step (numbered from 1, the actions played, the table payoffs), completes exactly at the game's length and stops early only short of it |
| Orchestrator.LoggedExtend | src/experiment/orchestrator.py:141-153 | one more round logged in step keeps the ledger and logs in step |
| Orchestrator.PrefixOfExtension | src/experiment/orchestrator.py:141-153 | an extended log keeps the old one as a prefix |
| Orchestrator.MissingDecisionStops | src/experiment/orchestrator.py:124-138 | a missing decision ends the game without playing the round, after both players were asked |
| Orchestrator.GameRecordShape | src/experiment/orchestrator.py:74-165 | a recorded game played exactly game_length rounds with both logs in step and the summary of its ledger; without an inter-game dialogue the history is untouched; the history only grows |
| Orchestrator.PlayedGamesQuiet | src/experiment/orchestrator.py:106 | the first game of a series has no inter-game dialogue |
| Orchestrator.SeriesCounters | src/experiment/orchestrator.py:216-278 | a failed initial dialogue adds one to the consecutive count only; a failed game adds one to both; a played series resets the consecutive count and holds its pair, repetition, condition name, one game and the history since the reset |
| Orchestrator.RepSlots | src/experiment/orchestrator.py:297 | the repetitions still to run, in order |
| Orchestrator.PairSlots | src/experiment/orchestrator.py:293-297 | the pairs and repetitions still to run for a condition |
| Orchestrator.CondSlots | src/experiment/orchestrator.py:289-297 | the conditions, pairs and repetitions still to run |
| Orchestrator.FoldAppend | src/experiment/orchestrator.py:289-308 | running two lists of series one after the other is running their concatenation |
| Orchestrator.FoldAborted | src/experiment/orchestrator.py:306-308 | once aborted, nothing more runs |
| Orchestrator.RepsFold | src/experiment/orchestrator.py:297-308 | the repetition loop runs its slots in order |
| Orchestrator.PairsFold | src/experiment/orchestrator.py:293-308 | the pair loop runs its slots in order |
| Orchestrator.CondsFold | src/experiment/orchestrator.py:289-308 | the whole experiment runs its slots in order: conditions, then pairs, then repetitions |
| Orchestrator.FoldOutcome | src/experiment/orchestrator.py:289-311 | results are only appended, at most one per series; an unaborted run ran every series, an aborted one stopped with the consecutive failures at the limit |
| Orchestrator.ExperimentOrchestrator.constructor | src/experiment/orchestrator.py:25-44 | validator from the validation settings, context builder and manager on the same configuration, an empty history, both counters zero |
| Orchestrator.ExperimentOrchestrator.GetPlayerDecision | src/experiment/orchestrator.py:167-196 | the decision and number of calls are the retry specification's; every call sends the same prompt, formatted from the player's decision context |
| Orchestrator.ExperimentOrchestrator.PlayNextRound | src/experiment/orchestrator.py:120-153 | one round of the round loop: each player is shown the other's actions; a missing decision stops the loop, otherwise the round is logged and played |
| Orchestrator.ExperimentOrchestrator.PlayAllRounds | src/experiment/orchestrator.py:120-153 | the loop's outcome is the round-loop specification's from an empty ledger |
| Orchestrator.ExperimentOrchestrator.RunSingleGame | src/experiment/orchestrator.py:74-165 | the game's outcome, agents and history are the game specification's |
| Orchestrator.ExperimentOrchestrator.PlaySeriesGame | src/experiment/orchestrator.py:252-255 | a game of a series, with Player 1 speaking first |
| Orchestrator.ExperimentOrchestrator.PlaySeriesGames | src/experiment/orchestrator.py:247-278 | the game loop of a series, with its counters, is the specification's |
| Orchestrator.ExperimentOrchestrator.OpenSeries | src/experiment/orchestrator.py:236-240 | the initial dialogue from an empty history, Player 1 first |
| Orchestrator.ExperimentOrchestrator.RunSeries | src/experiment/orchestrator.py:216-278 | result, counters and history are the series specification's: history reset, initial dialogue when enabled, then the games |
| Orchestrator.ExperimentOrchestrator.RunScheduledSeries | src/experiment/orchestrator.py:297-299 | the series of a condition, pair and repetition |
| Orchestrator.ExperimentOrchestrator.RunRepetitions | src/experiment/orchestrator.py:297-308 | the repetition loop's results, counters and history are the specification's, stopping at the failure limit |
| Orchestrator.ExperimentOrchestrator.RunExperiment | src/experiment/orchestrator.py:280-311 | the results, counters and history are those of running every condition, pair and repetition in order, keeping successful series and returning early at the failure limit |

## Left out

- `_load_prompts`, `get_system_prompt` and the prompt templates: template files and text formatting are I/O; prompts are built by the `PromptRenderer` and `DecisionFormatter` parameters.
- `_format_decision_prompt`: as written it reads `current_round`, `total_rounds`, `opponent_actions_formatted`, `communication_section`, `my_reasoning_formatted` and `max_reasoning_chars` at the top of the context (orchestrator.py 205-213), keys `build_decision_context` never produces (context.py 54-67), so `_get_player_decision` raises a KeyError at orchestrator.py 180, before the retry loop and its exception handler; `Context.FormatterAlwaysRaises` shows it. The `DecisionFormatter` parameter stands for a formatter that works; the template text itself is I/O.
- Config.SelectRepetitions: a repetitions count that is not an integer (`2.0`, `"2"`) is refused at load with a type error, where the source stores it and fails later, in `range`.
- Config.ConfigLoader.Load: the entries the model computes with are typed at load, so a configuration the source loads and stores is refused when one of them has another type: `run_mode` not a string, `repetitions` not a dictionary or its count not an integer, `game.length` not an integer, a payoff entry not a pair of integers, `models.available` or `conditions` not a list, a model pair not a list of integers, dialogue rounds and character limits not integers, validation limits not integers, `message_validation` or `decision_validation` not a dictionary, `required_keys` (in either section) or `valid_actions` present but not a list of strings, `check_empty` or `check_empty_reasoning` present but not a boolean, an optional section not a dictionary when a key is looked up in it. Booleans are not integers in the model, while in Python they are, so `length: true` is refused where the source plays one round. A non-boolean blank-check flag (`check_empty: 0`, which the source's validator treats as off), a string `required_keys` (which the source iterates character by character) and a mixed `valid_actions` (`["Cooperate", 1]`) are all refused. The source raises for these only where the entry is later used, if at all; among the entries the model does check, the error reported is the first in the order the code reads them.
- `build_message_context`, and the dialogue-context builders the manager calls but `context.py` does not define: folded into the `PromptRenderer` parameter.
- `_create_llm` and the model backends (`src/models/`): an agent is a script of replies built by the `Spawner` parameter; the error for an unknown provider is not modelled.
- YAML reading, the file-existence check and `Path`: `ConfigLoader.Load` starts from the parsed JSON value.
- Floats: cooperation rates are exact count pairs; termination probability and budget are kept as JSON values.
- Logging, `print`, timing and `random.seed`: no effect on the outcomes modelled.
- `json.loads` is the `Parser` parameter; its error text is not modelled.
- Agents' replies do not depend on the prompts they are sent; the prompts each method sends are returned or stated separately.
- Orchestrator.ExperimentOrchestrator.RunExperiment: requires a well-formed configuration (complete payoff keys, allowed actions within the game actions, decision keys required); the model does not run other configurations at all. On them the source may still run normally, and raises only when a game reaches the flaw. The triggers are a game started with a missing payoff key (`from_config` at orchestrator.py 90 reads all four keys before any round, so even a game of length 0 raises), an agent choosing an allowed action that is not a game action ("Abstain" fails in `get_payoffs`), and an accepted decision without a reasoning or an action. With no conditions, pairs or repetitions, the source returns an empty list even when payoff keys are missing.
- Config.ParseConfig: it is the member that refuses the ill-typed entries listed for `Config.ConfigLoader.Load` above, including the nested `message_validation` and `decision_validation` entries (`required_keys`, `valid_actions`, `check_empty`, `check_empty_reasoning`) and booleans given where integers are read; the source stores all of these as given.
- Orchestrator.ExperimentOrchestrator.RunSeries: requires a condition with a "name" and a pair that `validate_model_pairs` accepts (exactly two indices, each in range). `main.py` runs that check and exits on failure before any run (main.py 150-155), so the requirement holds there. Called directly, the source raises a KeyError for an unnamed condition (orchestrator.py 220) and an IndexError for an index past the model list (orchestrator.py 223-224). It raises nothing for a negative index still within range, which Python wraps, or for a pair with more than two entries, where the extra ones are ignored. None of these direct calls is modelled.
- `if not decision1 or not decision2` (orchestrator.py 136): a decision is "missing" when it is None. Under a well-formed configuration an accepted decision is never an empty dictionary, so Python's falsy-dictionary case does not arise. (`Orchestrator.Truthy` is the truthiness of a `communication_enabled` value and is modelled in full.)
- The repeated `return None` after the failure-limit check in `run_series` (orchestrator.py 262-266) behaves like one return and is modelled as one.
- Manager.CommunicationManager.Exchange: the inner two-turn loop is written out as two turns.
- The orchestrator's ghost `games` and `schedule` are the game and series specifications as function values; `Valid()` ties them to `PlayGame` and `Series`.

## Findings

| source | as written | input that shows it | evidently intended | confidence | as-written member | corrected member |
|---|---|---|---|---|---|---|
| src/experiment/context.py:50 | `build_decision_context` calls `get_scores()` on the game state, which only defines `get_score(player)`, so it raises AttributeError; `_get_player_decision` (orchestrator.py:173) inherits the failure. Past this call, its formatter (orchestrator.py:205-213) reads keys the context never holds, such as `current_round`, and raises a KeyError at orchestrator.py:180, before the retry loop (`Context.FormatterAlwaysRaises`) | any call, e.g. a fresh five-round state and role "Player 1" | the state's `(score1, score2)`, as the tests expect (src/test_context_builder.py:85-86) | not executed | Context.AsWrittenAlwaysRaises | Context.BuildDecisionContext |
