/** Configuration loading and the lookups over a loaded configuration
    (src/experiment/config.py). Reading the YAML file is outside the model:
    `ConfigLoader.Load` receives the value `yaml.safe_load` produced. */
module Config {
  import opened Wrappers
  import opened Text
  import opened Json
  import opened Validator

  const RequiredSections: seq<PyStr> :=
    [Lit("experiment"), Lit("game"), Lit("models"), Lit("communication"), Lit("validation"), Lit("storage"),
     Lit("conditions")]

  const KeyName: PyStr := Lit("name")

  datatype ConfigError =
    | NotADictionary                              // "Config must be a dictionary"
    | MissingSections(sections: seq<PyStr>)       // "Missing required sections: ..."
    | KeyNotFound(key: PyStr)                      // a KeyError on a lookup
    | WrongType(key: PyStr)                       // a value of another type than the one used
    | InvalidRunMode(runMode: PyStr)              // "Invalid run_mode: ..."
    | NotLoaded                                   // "Config not loaded. Call load() first."
    | InvalidModelIndex(index: int)               // "Invalid model index: ..."
    | InvalidPairFormat(pair: seq<int>)           // "Invalid pair format: ..."
    | InvalidPairIndex(index: int, pair: seq<int>) // "Invalid model index ... in pair ..."

  /** The fields of `ExperimentConfig`. Entries the model computes with have
      their types; entries it only passes along stay YAML values. */
  datatype ExperimentConfig = ExperimentConfig(
    name: Json, description: Json, runMode: PyStr, repetitions: int,
    gameLength: int, terminationProbability: Json, payoffMatrix: map<PyStr, (int, int)>,
    availableModels: seq<Json>, modelPairs: seq<seq<int>>,
    communicationEnabled: Json, initialDialogueRounds: int, initialDialogueMaxChars: int,
    interGameDialogueRounds: int, interGameDialogueMaxChars: int,
    maxRetries: int, maxConsecutiveFailures: int, maxReasoningChars: int, maxMessageChars: int,
    messageValidation: MessageSection, decisionValidation: DecisionSection,
    outputDir: Json, logDir: Json, saveGameLogs: Json, saveCommunicationLogs: Json, saveReasoningLogs: Json,
    storageFormat: Json,
    conditions: seq<Json>,
    logLevel: Json, consoleOutput: Json, fileOutput: Json,
    maxApiRetries: Json, apiTimeout: Json,
    randomSeed: Json,
    maxBudgetUsd: Json)

  /** The required sections absent from `fields`, in list order. */
  function MissingOf(fields: map<PyStr, Json>, sections: seq<PyStr>): (missing: seq<PyStr>)
    ensures |missing| <= |sections|
    decreases |sections|
  {
    if sections == [] then []
    else
      var last := sections[|sections| - 1];
      MissingOf(fields, sections[..|sections| - 1]) + (if last in fields then [] else [last])
  }

  /** The missing list holds exactly the listed sections that are absent. */
  lemma {:induction false} MissingOfMembers(fields: map<PyStr, Json>, sections: seq<PyStr>)
    ensures forall s :: s in MissingOf(fields, sections) <==> s in sections && s !in fields
    decreases |sections|
  {
    if sections != [] {
      var init := sections[..|sections| - 1];
      MissingOfMembers(fields, init);
      assert sections == init + [sections[|sections| - 1]];
    }
  }

  /** `_validate_structure`: None when the configuration passes. */
  function StructureCheck(raw: Option<Json>): Option<ConfigError> {
    if raw.None? || !raw.value.JObject? then Some(NotADictionary)
    else
      var missing := MissingOf(raw.value.fields, RequiredSections);
      if missing != [] then Some(MissingSections(missing)) else None
  }

  /** Nothing is missing exactly when every listed section is present. */
  lemma {:induction false} MissingOfEmpty(fields: map<PyStr, Json>, sections: seq<PyStr>)
    ensures MissingOf(fields, sections) == [] <==> forall s :: s in sections ==> s in fields
    decreases |sections|
  {
    if sections != [] {
      var init := sections[..|sections| - 1];
      MissingOfEmpty(fields, init);
      assert sections == init + [sections[|sections| - 1]];
    }
  }

  /** The structure check passes exactly for a dictionary holding all seven
      sections; a dictionary that fails is told exactly which are absent. */
  lemma StructureCheckSpec(raw: Option<Json>)
    ensures StructureCheck(raw).None?
            <==> raw.Some? && raw.value.JObject? && forall s :: s in RequiredSections ==> s in raw.value.fields
    ensures StructureCheck(raw) == Some(NotADictionary) <==> raw.None? || !raw.value.JObject?
    ensures StructureCheck(raw).Some? && raw.Some? && raw.value.JObject? ==>
              && StructureCheck(raw).value.MissingSections?
              && forall s :: s in StructureCheck(raw).value.sections <==> s in RequiredSections && s !in raw.value.fields
  {
    if raw.Some? && raw.value.JObject? {
      MissingOfMembers(raw.value.fields, RequiredSections);
      MissingOfEmpty(raw.value.fields, RequiredSections);
    }
  }

  /** A configuration with only an experiment section is refused with the
      six other sections, in list order. */
  lemma OnlyExperimentSection(experiment: Json)
    ensures StructureCheck(Some(JObject(map[Lit("experiment") := experiment])))
            == Some(MissingSections([Lit("game"), Lit("models"), Lit("communication"), Lit("validation"),
                                     Lit("storage"), Lit("conditions")]))
  {
    var fields := map[Lit("experiment") := experiment];
    var rs := RequiredSections;
    LitInjective("experiment", "game");
    LitInjective("experiment", "models");
    LitInjective("experiment", "communication");
    LitInjective("experiment", "validation");
    LitInjective("experiment", "storage");
    LitInjective("experiment", "conditions");
    assert MissingOf(fields, rs[..0]) == [];
    assert rs[..1][..0] == rs[..0];
    assert MissingOf(fields, rs[..1]) == [];
    assert rs[..2][..1] == rs[..1];
    assert MissingOf(fields, rs[..2]) == [rs[1]];
    assert rs[..3][..2] == rs[..2];
    assert MissingOf(fields, rs[..3]) == [rs[1], rs[2]];
    assert rs[..4][..3] == rs[..3];
    assert MissingOf(fields, rs[..4]) == [rs[1], rs[2], rs[3]];
    assert rs[..5][..4] == rs[..4];
    assert MissingOf(fields, rs[..5]) == [rs[1], rs[2], rs[3], rs[4]];
    assert rs[..6][..5] == rs[..5];
    assert MissingOf(fields, rs[..6]) == [rs[1], rs[2], rs[3], rs[4], rs[5]];
    assert rs[..6] == rs[..|rs| - 1];
    assert MissingOf(fields, rs) == [rs[1], rs[2], rs[3], rs[4], rs[5], rs[6]];
  }

  /** `d[key]`: a missing key is a KeyError. */
  function Entry(fields: map<PyStr, Json>, key: PyStr): (r: Result<Json, ConfigError>)
    ensures r.Success? <==> key in fields
    ensures r.Success? ==> r.value == fields[key]
  {
    if key in fields then Success(fields[key]) else Failure(KeyNotFound(key))
  }

  function Section(fields: map<PyStr, Json>, key: PyStr): Result<map<PyStr, Json>, ConfigError> {
    var v :- Entry(fields, key);
    if v.JObject? then Success(v.fields) else Failure(WrongType(key))
  }

  function IntEntry(fields: map<PyStr, Json>, key: PyStr): Result<int, ConfigError> {
    var v :- Entry(fields, key);
    if v.JInt? then Success(v.n) else Failure(WrongType(key))
  }

  function ListEntry(fields: map<PyStr, Json>, key: PyStr): Result<seq<Json>, ConfigError> {
    var v :- Entry(fields, key);
    if v.JArray? then Success(v.items) else Failure(WrongType(key))
  }

  /** `section.get(key, default)` on an optional section, which must be a
      dictionary when present. */
  function GetIn(section: Json, sectionKey: PyStr, key: PyStr, default: Json): Result<Json, ConfigError> {
    if section.JObject? then Success(Get(section.fields, key, default)) else Failure(WrongType(sectionKey))
  }

  predicate IsIntPair(j: Json) {
    j.JArray? && |j.items| == 2 && j.items[0].JInt? && j.items[1].JInt?
  }

  predicate IsIntList(j: Json) {
    j.JArray? && forall i :: 0 <= i < |j.items| ==> j.items[i].JInt?
  }

  predicate IsStrList(j: Json) {
    j.JArray? && forall i :: 0 <= i < |j.items| ==> j.items[i].JString?
  }

  /** `game.payoff_matrix`: each entry a pair of integers. */
  function PayoffEntry(fields: map<PyStr, Json>, key: PyStr): Result<map<PyStr, (int, int)>, ConfigError> {
    var table :- Section(fields, key);
    if forall k :: k in table ==> IsIntPair(table[k]) then
      Success(map k | k in table :: (table[k].items[0].n, table[k].items[1].n))
    else Failure(WrongType(key))
  }

  /** `models.pairs`: lists of indices. */
  function PairsEntry(fields: map<PyStr, Json>, key: PyStr): Result<seq<seq<int>>, ConfigError> {
    var pairs :- ListEntry(fields, key);
    if forall i :: 0 <= i < |pairs| ==> IsIntList(pairs[i]) then
      Success(seq(|pairs|, i requires 0 <= i < |pairs| && IsIntList(pairs[i]) =>
                    seq(|pairs[i].items|, j requires 0 <= j < |pairs[i].items| => pairs[i].items[j].n)))
    else Failure(WrongType(key))
  }

  function OptionalStrList(fields: map<PyStr, Json>, key: PyStr): Result<Option<seq<PyStr>>, ConfigError> {
    if key !in fields then Success(None)
    else if IsStrList(fields[key]) then
      var items := fields[key].items;
      Success(Some(seq(|items|, i requires 0 <= i < |items| => items[i].s)))
    else Failure(WrongType(key))
  }

  function OptionalBool(fields: map<PyStr, Json>, key: PyStr): Result<Option<bool>, ConfigError> {
    if key !in fields then Success(None)
    else if fields[key].JBool? then Success(Some(fields[key].b))
    else Failure(WrongType(key))
  }

  function MessageSectionEntry(fields: map<PyStr, Json>, key: PyStr): Result<MessageSection, ConfigError> {
    var section :- Section(fields, key);
    var requiredKeys :- OptionalStrList(section, Lit("required_keys"));
    var checkEmpty :- OptionalBool(section, Lit("check_empty"));
    Success(MessageSection(requiredKeys, checkEmpty))
  }

  function DecisionSectionEntry(fields: map<PyStr, Json>, key: PyStr): Result<DecisionSection, ConfigError> {
    var section :- Section(fields, key);
    var validActions :- OptionalStrList(section, Lit("valid_actions"));
    var requiredKeys :- OptionalStrList(section, Lit("required_keys"));
    var checkEmptyReasoning :- OptionalBool(section, Lit("check_empty_reasoning"));
    Success(DecisionSection(validActions, requiredKeys, checkEmptyReasoning))
  }

  /** The run-mode check of `_parse_config`: the mode must be a key of the
      `repetitions` table, and selects its entry. */
  function SelectRepetitions(runMode: PyStr, byMode: map<PyStr, Json>): (r: Result<int, ConfigError>)
    ensures r == Failure(InvalidRunMode(runMode)) <==> runMode !in byMode
    ensures r.Success? ==> runMode in byMode && byMode[runMode] == JInt(r.value)
    ensures runMode in byMode && byMode[runMode].JInt? ==> r == Success(byMode[runMode].n)
  {
    if runMode !in byMode then Failure(InvalidRunMode(runMode))
    else if byMode[runMode].JInt? then Success(byMode[runMode].n)
    else Failure(WrongType(Lit("repetitions")))
  }

  /** The `experiment` entries: the run-mode check comes first. */
  datatype ExperimentPart = ExperimentPart(runMode: PyStr, repetitions: int, name: Json, description: Json)

  function ParseExperiment(exp: map<PyStr, Json>): Result<ExperimentPart, ConfigError> {
    var runMode :- Entry(exp, Lit("run_mode"));
    var byMode :- Section(exp, Lit("repetitions"));
    var mode :- if runMode.JString? then Success(runMode.s) else Failure(WrongType(Lit("run_mode")));
    var repetitions :- SelectRepetitions(mode, byMode);
    var name :- Entry(exp, Lit("name"));
    var description :- Entry(exp, Lit("description"));
    Success(ExperimentPart(mode, repetitions, name, description))
  }

  datatype GamePart = GamePart(length: int, terminationProbability: Json, payoffMatrix: map<PyStr, (int, int)>)

  function ParseGame(game: map<PyStr, Json>): Result<GamePart, ConfigError> {
    var length :- IntEntry(game, Lit("length"));
    var termination :- Entry(game, Lit("termination_probability"));
    var payoffMatrix :- PayoffEntry(game, Lit("payoff_matrix"));
    Success(GamePart(length, termination, payoffMatrix))
  }

  datatype CommunicationPart = CommunicationPart(enabled: Json, initialRounds: int, initialMaxChars: int,
                                                 interGameRounds: int, interGameMaxChars: int)

  function ParseCommunication(comm: map<PyStr, Json>): Result<CommunicationPart, ConfigError> {
    var enabled :- Entry(comm, Lit("enabled"));
    var initial :- Section(comm, Lit("initial_dialogue"));
    var initialRounds :- IntEntry(initial, Lit("rounds"));
    var initialMax :- IntEntry(initial, Lit("max_chars_per_message"));
    var interGame :- Section(comm, Lit("inter_game_dialogue"));
    var interGameRounds :- IntEntry(interGame, Lit("rounds"));
    var interGameMax :- IntEntry(interGame, Lit("max_chars_per_message"));
    Success(CommunicationPart(enabled, initialRounds, initialMax, interGameRounds, interGameMax))
  }

  datatype ValidationPart = ValidationPart(maxRetries: int, maxConsecutiveFailures: int, maxReasoningChars: int,
                                           maxMessageChars: int, message: MessageSection, decision: DecisionSection)

  function ParseValidation(val: map<PyStr, Json>): Result<ValidationPart, ConfigError> {
    var maxRetries :- IntEntry(val, Lit("max_retries"));
    var maxConsecutive :- IntEntry(val, Lit("max_consecutive_failures"));
    var maxReasoning :- IntEntry(val, Lit("max_reasoning_chars"));
    var maxMessage :- IntEntry(val, Lit("max_message_chars"));
    var message :- MessageSectionEntry(val, Lit("message_validation"));
    var decision :- DecisionSectionEntry(val, Lit("decision_validation"));
    Success(ValidationPart(maxRetries, maxConsecutive, maxReasoning, maxMessage, message, decision))
  }

  datatype StoragePart = StoragePart(outputDir: Json, logDir: Json, saveGameLogs: Json, saveCommunicationLogs: Json,
                                     saveReasoningLogs: Json, format: Json)

  function ParseStorage(storage: map<PyStr, Json>): Result<StoragePart, ConfigError> {
    var outputDir :- Entry(storage, Lit("output_dir"));
    var logDir :- Entry(storage, Lit("log_dir"));
    var saveGame :- Entry(storage, Lit("save_game_logs"));
    var saveCommunication :- Entry(storage, Lit("save_communication_logs"));
    var saveReasoning :- Entry(storage, Lit("save_reasoning_logs"));
    var format :- Entry(storage, Lit("format"));
    Success(StoragePart(outputDir, logDir, saveGame, saveCommunication, saveReasoning, format))
  }

  /** The optional sections, each entry with its default. */
  datatype OptionalPart = OptionalPart(logLevel: Json, consoleOutput: Json, fileOutput: Json,
                                       maxApiRetries: Json, apiTimeout: Json, maxBudgetUsd: Json)

  function ParseOptional(logging: Json, api: Json, budget: Json): Result<OptionalPart, ConfigError> {
    var logLevel :- GetIn(logging, Lit("logging"), Lit("level"), JString(Lit("INFO")));
    var consoleOutput :- GetIn(logging, Lit("logging"), Lit("console_output"), JBool(true));
    var fileOutput :- GetIn(logging, Lit("logging"), Lit("file_output"), JBool(true));
    var maxApiRetries :- GetIn(api, Lit("api"), Lit("max_api_retries"), JInt(3));
    var apiTimeout :- GetIn(api, Lit("api"), Lit("timeout"), JInt(30));
    var maxBudget :- GetIn(budget, Lit("budget"), Lit("max_budget_usd"), JFloat(10.0));
    Success(OptionalPart(logLevel, consoleOutput, fileOutput, maxApiRetries, apiTimeout, maxBudget))
  }

  /** `_parse_config` on a configuration that passed the structure check.
      The sections are only bound at first; the run mode is checked, then
      the entries are read in the order the `ExperimentConfig` arguments
      list them, and the first missing key or ill-typed entry is the error.
      Only a configuration holding every required section parses. */
  function ParseConfig(raw: map<PyStr, Json>): (r: Result<ExperimentConfig, ConfigError>)
    ensures r.Success? ==> forall s :: s in RequiredSections ==> s in raw
  {
    var exp :- Section(raw, Lit("experiment"));
    var e :- ParseExperiment(exp);
    var q :- ParseRequired(raw);
    var o :- ParseOptional(Get(raw, Lit("logging"), JObject(map[])), Get(raw, Lit("api"), JObject(map[])),
                           Get(raw, Lit("budget"), JObject(map[])));
    Success(ExperimentConfig(
      e.name, e.description, e.runMode, e.repetitions,
      q.game.length, q.game.terminationProbability, q.game.payoffMatrix,
      q.available, q.pairs,
      q.comm.enabled, q.comm.initialRounds, q.comm.initialMaxChars, q.comm.interGameRounds, q.comm.interGameMaxChars,
      q.validation.maxRetries, q.validation.maxConsecutiveFailures, q.validation.maxReasoningChars,
      q.validation.maxMessageChars, q.validation.message, q.validation.decision,
      q.storage.outputDir, q.storage.logDir, q.storage.saveGameLogs, q.storage.saveCommunicationLogs,
      q.storage.saveReasoningLogs, q.storage.format,
      q.conditions,
      o.logLevel, o.consoleOutput, o.fileOutput, o.maxApiRetries, o.apiTimeout,
      Get(raw, Lit("random_seed"), JNull),
      o.maxBudgetUsd))
  }

  /** The entries of the other required sections, after the experiment's. */
  datatype RequiredPart = RequiredPart(game: GamePart, available: seq<Json>, pairs: seq<seq<int>>,
                                       comm: CommunicationPart, validation: ValidationPart, storage: StoragePart,
                                       conditions: seq<Json>)

  function ParseRequired(raw: map<PyStr, Json>): (r: Result<RequiredPart, ConfigError>)
    ensures r.Success? ==> forall s :: s in RequiredSections[1..] ==> s in raw
  {
    var game :- Section(raw, Lit("game"));
    var g :- ParseGame(game);
    var models :- Section(raw, Lit("models"));
    var available :- ListEntry(models, Lit("available"));
    var pairs :- PairsEntry(models, Lit("pairs"));
    var comm :- Section(raw, Lit("communication"));
    var c :- ParseCommunication(comm);
    var val :- Section(raw, Lit("validation"));
    var v :- ParseValidation(val);
    var storage :- Section(raw, Lit("storage"));
    var st :- ParseStorage(storage);
    var conditions :- ListEntry(raw, Lit("conditions"));
    Success(RequiredPart(g, available, pairs, c, v, st, conditions))
  }

  /** The run mode selects its entry of the `repetitions` table, and a mode
      missing from the table is refused before any other experiment entry
      is read. */
  lemma RunModeSelection(exp: map<PyStr, Json>)
    ensures var r := ParseExperiment(exp);
      && (r.Success? ==>
            && Lit("run_mode") in exp && exp[Lit("run_mode")] == JString(r.value.runMode)
            && Lit("repetitions") in exp && exp[Lit("repetitions")].JObject?
            && r.value.runMode in exp[Lit("repetitions")].fields
            && exp[Lit("repetitions")].fields[r.value.runMode] == JInt(r.value.repetitions))
      && (Lit("run_mode") in exp && exp[Lit("run_mode")].JString?
          && Lit("repetitions") in exp && exp[Lit("repetitions")].JObject?
          && exp[Lit("run_mode")].s !in exp[Lit("repetitions")].fields
          ==> r == Failure(InvalidRunMode(exp[Lit("run_mode")].s)))
  {
  }

  /** An experiment section that fails its own checks fails the parse with
      the same error, before any other section is read. */
  lemma ExperimentFirst(raw: map<PyStr, Json>)
    ensures Lit("experiment") in raw && raw[Lit("experiment")].JObject?
            && ParseExperiment(raw[Lit("experiment")].fields).Failure? ==>
              ParseConfig(raw) == Failure(ParseExperiment(raw[Lit("experiment")].fields).error)
  {
  }

  /** A loaded configuration carries its experiment part. */
  lemma ExperimentPartOf(raw: map<PyStr, Json>)
    ensures ParseConfig(raw).Success? ==>
      && Lit("experiment") in raw && raw[Lit("experiment")].JObject?
      && ParseExperiment(raw[Lit("experiment")].fields).Success?
      && ParseConfig(raw).value.runMode == ParseExperiment(raw[Lit("experiment")].fields).value.runMode
      && ParseConfig(raw).value.repetitions == ParseExperiment(raw[Lit("experiment")].fields).value.repetitions
  {
  }

  /** A loaded configuration carries its optional part. */
  lemma OptionalPartOf(raw: map<PyStr, Json>)
    ensures ParseConfig(raw).Success? ==>
      var o := ParseOptional(Get(raw, Lit("logging"), JObject(map[])), Get(raw, Lit("api"), JObject(map[])),
                             Get(raw, Lit("budget"), JObject(map[])));
      var c := ParseConfig(raw).value;
      && o.Success? && c.logLevel == o.value.logLevel && c.consoleOutput == o.value.consoleOutput
      && c.fileOutput == o.value.fileOutput && c.maxApiRetries == o.value.maxApiRetries
      && c.apiTimeout == o.value.apiTimeout && c.maxBudgetUsd == o.value.maxBudgetUsd
      && c.randomSeed == Get(raw, Lit("random_seed"), JNull)
  {
  }

  /** A loaded configuration carries the mode its experiment section names
      and that mode's entry of the `repetitions` table; a mode missing from
      the table is refused before any other section is read. */
  lemma LoadedRunMode(raw: map<PyStr, Json>)
    ensures ParseConfig(raw).Success? ==>
      && Lit("experiment") in raw && raw[Lit("experiment")].JObject?
      && Lit("run_mode") in raw[Lit("experiment")].fields
      && raw[Lit("experiment")].fields[Lit("run_mode")] == JString(ParseConfig(raw).value.runMode)
      && Lit("repetitions") in raw[Lit("experiment")].fields
      && raw[Lit("experiment")].fields[Lit("repetitions")].JObject?
      && ParseConfig(raw).value.runMode in raw[Lit("experiment")].fields[Lit("repetitions")].fields
      && raw[Lit("experiment")].fields[Lit("repetitions")].fields[ParseConfig(raw).value.runMode]
         == JInt(ParseConfig(raw).value.repetitions)
    ensures Lit("experiment") in raw && raw[Lit("experiment")].JObject? ==>
      var exp := raw[Lit("experiment")].fields;
      Lit("run_mode") in exp && exp[Lit("run_mode")].JString?
      && Lit("repetitions") in exp && exp[Lit("repetitions")].JObject?
      && exp[Lit("run_mode")].s !in exp[Lit("repetitions")].fields
      ==> ParseConfig(raw) == Failure(InvalidRunMode(exp[Lit("run_mode")].s))
  {
    ExperimentFirst(raw);
    ExperimentPartOf(raw);
    if Lit("experiment") in raw && raw[Lit("experiment")].JObject? {
      RunModeSelection(raw[Lit("experiment")].fields);
    }
  }

  /** `raw.get(section, {}).get(key, ...)` finds the key. */
  predicate Given(raw: map<PyStr, Json>, section: PyStr, key: PyStr) {
    section in raw && raw[section].JObject? && key in raw[section].fields
  }

  /** Each optional entry of a loaded configuration is the one given, or
      its default when its section or the key itself is left out: log level
      "INFO", console and file output on, 3 API retries, a 30 second
      timeout, a budget of 10.0 and no random seed. */
  lemma OptionalDefaults(raw: map<PyStr, Json>)
    ensures var r := ParseConfig(raw);
      && (r.Success? && !Given(raw, Lit("logging"), Lit("level")) ==> r.value.logLevel == JString(Lit("INFO")))
      && (r.Success? && !Given(raw, Lit("logging"), Lit("console_output")) ==> r.value.consoleOutput == JBool(true))
      && (r.Success? && !Given(raw, Lit("logging"), Lit("file_output")) ==> r.value.fileOutput == JBool(true))
      && (r.Success? && !Given(raw, Lit("api"), Lit("max_api_retries")) ==> r.value.maxApiRetries == JInt(3))
      && (r.Success? && !Given(raw, Lit("api"), Lit("timeout")) ==> r.value.apiTimeout == JInt(30))
      && (r.Success? && !Given(raw, Lit("budget"), Lit("max_budget_usd")) ==> r.value.maxBudgetUsd == JFloat(10.0))
      && (r.Success? && Lit("random_seed") !in raw ==> r.value.randomSeed == JNull)
    ensures var r := ParseConfig(raw);
      && (r.Success? && Given(raw, Lit("logging"), Lit("level")) ==>
            r.value.logLevel == raw[Lit("logging")].fields[Lit("level")])
      && (r.Success? && Given(raw, Lit("api"), Lit("timeout")) ==>
            r.value.apiTimeout == raw[Lit("api")].fields[Lit("timeout")])
      && (r.Success? && Given(raw, Lit("budget"), Lit("max_budget_usd")) ==>
            r.value.maxBudgetUsd == raw[Lit("budget")].fields[Lit("max_budget_usd")])
      && (r.Success? && Lit("random_seed") in raw ==> r.value.randomSeed == raw[Lit("random_seed")])
  {
    OptionalPartOf(raw);
  }

  /** `load()` after the file was read: the structure check, then the parse. */
  function LoadResult(raw: Json): Result<ExperimentConfig, ConfigError> {
    match StructureCheck(Some(raw))
    case Some(e) => Failure(e)
    case None => ParseConfig(raw.fields)
  }

  /** `condition['name'] == name` on one entry of `conditions`: an entry
      that is not a dictionary raises a TypeError, one without a name a
      KeyError. */
  function NameMatches(condition: Json, name: PyStr): Result<bool, ConfigError> {
    if !condition.JObject? then Failure(WrongType(KeyName))
    else if KeyName !in condition.fields then Failure(KeyNotFound(KeyName))
    else Success(condition.fields[KeyName] == JString(name))
  }

  /** The search of `get_condition_by_name` from entry `from` on. */
  function FindCondition(conditions: seq<Json>, name: PyStr, from: nat): Result<Option<Json>, ConfigError>
    decreases |conditions| - from
  {
    if from >= |conditions| then Success(None)
    else
      match NameMatches(conditions[from], name)
      case Failure(e) => Failure(e)
      case Success(found) => if found then Success(Some(conditions[from])) else FindCondition(conditions, name, from + 1)
  }

  /** The search finds nothing exactly when no entry carries the name, and
      it returns the first entry that does. */
  lemma {:induction false} FindConditionSpec(conditions: seq<Json>, name: PyStr, from: nat)
    ensures FindCondition(conditions, name, from) == Success(None)
            <==> forall j :: from <= j < |conditions| ==> NameMatches(conditions[j], name) == Success(false)
    ensures forall j :: from <= j < |conditions| && NameMatches(conditions[j], name) == Success(true)
                        && (forall k :: from <= k < j ==> NameMatches(conditions[k], name) == Success(false))
                        ==> FindCondition(conditions, name, from) == Success(Some(conditions[j]))
    decreases |conditions| - from
  {
    if from < |conditions| {
      FindConditionSpec(conditions, name, from + 1);
    }
  }

  /** One pair of `validate_model_pairs`: exactly two indices, each an index
      of `available_models`. */
  function PairProblem(pair: seq<int>, numModels: int): (p: Option<ConfigError>)
    ensures p.None? <==> |pair| == 2 && forall i :: 0 <= i < |pair| ==> 0 <= pair[i] < numModels
  {
    if |pair| != 2 then Some(InvalidPairFormat(pair))
    else if !(0 <= pair[0] < numModels) then Some(InvalidPairIndex(pair[0], pair))
    else if !(0 <= pair[1] < numModels) then Some(InvalidPairIndex(pair[1], pair))
    else None
  }

  /** The check of `validate_model_pairs` from pair `from` on: the first
      offending pair raises. */
  function PairsProblem(pairs: seq<seq<int>>, numModels: int, from: nat): Option<ConfigError>
    decreases |pairs| - from
  {
    if from >= |pairs| then None
    else if PairProblem(pairs[from], numModels).Some? then PairProblem(pairs[from], numModels)
    else PairsProblem(pairs, numModels, from + 1)
  }

  predicate ValidPairs(pairs: seq<seq<int>>, numModels: int) {
    forall i :: 0 <= i < |pairs| ==> |pairs[i]| == 2 && 0 <= pairs[i][0] < numModels && 0 <= pairs[i][1] < numModels
  }

  /** The pairs pass exactly when every pair has two valid indices. */
  lemma {:induction false} PairsProblemSpec(pairs: seq<seq<int>>, numModels: int, from: nat)
    ensures PairsProblem(pairs, numModels, from).None?
            <==> forall i :: from <= i < |pairs| ==> PairProblem(pairs[i], numModels).None?
    decreases |pairs| - from
  {
    if from < |pairs| {
      PairsProblemSpec(pairs, numModels, from + 1);
    }
  }

  lemma ValidPairsSpec(pairs: seq<seq<int>>, numModels: int)
    ensures PairsProblem(pairs, numModels, 0).None? <==> ValidPairs(pairs, numModels)
  {
    PairsProblemSpec(pairs, numModels, 0);
    if ValidPairs(pairs, numModels) {
      forall i | 0 <= i < |pairs| ensures PairProblem(pairs[i], numModels).None? {
        assert |pairs[i]| == 2;
      }
    }
  }

  /** `get_validation_config()`, and `_get_validation_config` of the
      orchestrator: the four entries the validator reads. */
  function ValidationSettingsOf(c: ExperimentConfig): (v: ValidationSettings)
    ensures NewValidator(v).maxMessageChars == c.maxMessageChars
    ensures NewValidator(v).maxReasoningChars == c.maxReasoningChars
    ensures NewValidator(v).validActions == GetOr(c.decisionValidation.validActions, [Lit("Cooperate"), Lit("Defect")])
    ensures NewValidator(v).messageRequiredKeys == GetOr(c.messageValidation.requiredKeys, [KeyMessage])
    ensures NewValidator(v).decisionRequiredKeys == GetOr(c.decisionValidation.requiredKeys, [KeyReasoning, KeyAction])
    ensures NewValidator(v).checkEmpty == GetOr(c.messageValidation.checkEmpty, true)
    ensures NewValidator(v).checkEmptyReasoning == GetOr(c.decisionValidation.checkEmptyReasoning, true)
  {
    ValidationSettings(Some(c.maxMessageChars), Some(c.maxReasoningChars), Some(c.messageValidation),
                       Some(c.decisionValidation))
  }

  class ConfigLoader {
    var rawConfig: Option<Json>
    var config: Option<ExperimentConfig>

    constructor ()
      ensures rawConfig == None && config == None
    {
      rawConfig := None;
      config := None;
    }

    /** `load()` once the file has been read into `raw`: the raw value is
        kept even when it is refused; the parsed configuration replaces
        the previous one only on success. */
    method Load(raw: Json) returns (r: Result<ExperimentConfig, ConfigError>)
      modifies this
      ensures rawConfig == Some(raw) && r == LoadResult(raw)
      ensures config == if r.Success? then Some(r.value) else old(config)
    {
      rawConfig := Some(raw);
      var problem := ValidateStructure();
      if problem.Some? {
        return Failure(problem.value);
      }
      r := ParseConfig(raw.fields);
      if r.Success? {
        config := Some(r.value);
      }
    }

    /** `_validate_structure()`: collects the missing sections in a loop. */
    method ValidateStructure() returns (problem: Option<ConfigError>)
      ensures problem == StructureCheck(rawConfig)
    {
      if rawConfig.None? || !rawConfig.value.JObject? {
        return Some(NotADictionary);
      }
      var fields := rawConfig.value.fields;
      var missing := [];
      for i := 0 to |RequiredSections|
        invariant missing == MissingOf(fields, RequiredSections[..i])
      {
        assert RequiredSections[..i + 1][..i] == RequiredSections[..i];
        if RequiredSections[i] !in fields {
          missing := missing + [RequiredSections[i]];
        }
      }
      assert RequiredSections[..|RequiredSections|] == RequiredSections;
      problem := if missing != [] then Some(MissingSections(missing)) else None;
    }

    /** `get_model_by_index(index)`. */
    function GetModelByIndex(index: int): (r: Result<Json, ConfigError>)
      reads this
      ensures config.None? ==> r == Failure(NotLoaded)
      ensures config.Some? ==> (r.Success? <==> 0 <= index < |config.value.availableModels|)
      ensures config.Some? && r.Failure? ==> r.error == InvalidModelIndex(index)
      ensures r.Success? ==> r.value == config.value.availableModels[index]
    {
      if config.None? then Failure(NotLoaded)
      else if index < 0 || index >= |config.value.availableModels| then Failure(InvalidModelIndex(index))
      else Success(config.value.availableModels[index])
    }

    /** `get_condition_by_name(name)`: the first condition with that name, or None. */
    method GetConditionByName(name: PyStr) returns (r: Result<Option<Json>, ConfigError>)
      ensures config.None? ==> r == Failure(NotLoaded)
      ensures config.Some? ==> r == FindCondition(config.value.conditions, name, 0)
    {
      if config.None? {
        return Failure(NotLoaded);
      }
      var conditions := config.value.conditions;
      for i := 0 to |conditions|
        invariant FindCondition(conditions, name, i) == FindCondition(conditions, name, 0)
      {
        var condition := conditions[i];
        if !condition.JObject? {
          return Failure(WrongType(KeyName));
        }
        if KeyName !in condition.fields {
          return Failure(KeyNotFound(KeyName));
        }
        if condition.fields[KeyName] == JString(name) {
          return Success(Some(condition));
        }
      }
      r := Success(None);
    }

    /** `validate_model_pairs()`: True, or the error of the first offending pair. */
    method ValidateModelPairs() returns (r: Result<bool, ConfigError>)
      ensures config.None? ==> r == Failure(NotLoaded)
      ensures config.Some? ==>
                var problem := PairsProblem(config.value.modelPairs, |config.value.availableModels|, 0);
                r == if problem.Some? then Failure(problem.value) else Success(true)
    {
      if config.None? {
        return Failure(NotLoaded);
      }
      var numModels := |config.value.availableModels|;
      var pairs := config.value.modelPairs;
      for i := 0 to |pairs|
        invariant PairsProblem(pairs, numModels, i) == PairsProblem(pairs, numModels, 0)
      {
        var pair := pairs[i];
        if |pair| != 2 {
          return Failure(InvalidPairFormat(pair));
        }
        for j := 0 to |pair|
          invariant forall k :: 0 <= k < j ==> 0 <= pair[k] < numModels
        {
          if pair[j] < 0 || pair[j] >= numModels {
            return Failure(InvalidPairIndex(pair[j], pair));
          }
        }
      }
      r := Success(true);
    }

    /** `get_validation_config()`. */
    function GetValidationConfig(): (r: Result<ValidationSettings, ConfigError>)
      reads this
      ensures r.Success? <==> config.Some?
      ensures r.Success? ==> r.value == ValidationSettingsOf(config.value)
      ensures r.Success? ==> NewValidator(r.value).maxMessageChars == config.value.maxMessageChars
                             && NewValidator(r.value).maxReasoningChars == config.value.maxReasoningChars
                             && NewValidator(r.value).messageRequiredKeys
                                == GetOr(config.value.messageValidation.requiredKeys, [KeyMessage])
                             && NewValidator(r.value).decisionRequiredKeys
                                == GetOr(config.value.decisionValidation.requiredKeys, [KeyReasoning, KeyAction])
                             && NewValidator(r.value).validActions
                                == GetOr(config.value.decisionValidation.validActions, [Lit("Cooperate"), Lit("Defect")])
    {
      if config.None? then Failure(NotLoaded) else Success(ValidationSettingsOf(config.value))
    }
  }

  /** The pair checks of the tests: with two models, [0, 999] names a
      missing model and [0] is not a pair. */
  lemma PairScenarios()
    ensures PairsProblem([[0, 999]], 2, 0) == Some(InvalidPairIndex(999, [0, 999]))
    ensures PairsProblem([[0]], 2, 0) == Some(InvalidPairFormat([0]))
    ensures PairsProblem([[0, 1], [1, 0]], 2, 0) == None
  {
  }

  /** The condition lookups of the tests: a name that is present returns its
      entry and an absent name returns None. */
  lemma ConditionScenarios(baseline: map<PyStr, Json>, communication: map<PyStr, Json>)
    requires KeyName in baseline && baseline[KeyName] == JString(Lit("baseline"))
    requires KeyName in communication && communication[KeyName] == JString(Lit("communication"))
    ensures var conditions := [JObject(baseline), JObject(communication)];
      && FindCondition(conditions, Lit("baseline"), 0) == Success(Some(JObject(baseline)))
      && FindCondition(conditions, Lit("communication"), 0) == Success(Some(JObject(communication)))
      && FindCondition(conditions, Lit("nonexistent"), 0) == Success(None)
  {
    var conditions := [JObject(baseline), JObject(communication)];
    LitInjective("baseline", "communication");
    LitInjective("baseline", "nonexistent");
    LitInjective("communication", "nonexistent");
    assert NameMatches(conditions[0], Lit("nonexistent")) == Success(false);
    assert NameMatches(conditions[1], Lit("nonexistent")) == Success(false);
    assert FindCondition(conditions, Lit("nonexistent"), 2) == Success(None);
  }
}
