/** The response validator (src/communication/validator.py): two
    short-circuiting pipelines that decide whether an agent's raw text is an
    acceptable message or decision. */
module Validator {
  import opened Wrappers
  import opened Text
  import opened Json

  /** The limits and lists a `ResponseValidator` holds after `__init__`. */
  datatype ValidatorConfig = ValidatorConfig(
    maxMessageChars: int,
    maxReasoningChars: int,
    validActions: seq<PyStr>,
    messageRequiredKeys: seq<PyStr>,
    decisionRequiredKeys: seq<PyStr>,
    checkEmpty: bool,
    checkEmptyReasoning: bool)

  /** The `message_validation` section of the configuration; a missing key is None. */
  datatype MessageSection = MessageSection(requiredKeys: Option<seq<PyStr>>, checkEmpty: Option<bool>)

  /** The `decision_validation` section of the configuration. */
  datatype DecisionSection = DecisionSection(
    validActions: Option<seq<PyStr>>,
    requiredKeys: Option<seq<PyStr>>,
    checkEmptyReasoning: Option<bool>)

  /** The configuration dictionary handed to `ResponseValidator(config)`. */
  datatype ValidationSettings = ValidationSettings(
    maxMessageChars: Option<int>,
    maxReasoningChars: Option<int>,
    messageValidation: Option<MessageSection>,
    decisionValidation: Option<DecisionSection>)

  const KeyMessage: PyStr := Lit("message")
  const KeyReasoning: PyStr := Lit("reasoning")
  const KeyAction: PyStr := Lit("action")

  /** `d.get(key, default)` on an optional configuration entry. */
  function GetOr<T>(o: Option<T>, default: T): T {
    if o.Some? then o.value else default
  }

  const EmptyMessageSection := MessageSection(None, None)
  const EmptyDecisionSection := DecisionSection(None, None, None)

  /** `ResponseValidator.__init__`: every entry the configuration leaves out
      takes its default. */
  function NewValidator(settings: ValidationSettings): (v: ValidatorConfig)
    ensures v.maxMessageChars == GetOr(settings.maxMessageChars, 200)
    ensures v.maxReasoningChars == GetOr(settings.maxReasoningChars, 500)
    ensures v.validActions == GetOr(GetOr(settings.decisionValidation, EmptyDecisionSection).validActions, [Lit("Cooperate"), Lit("Defect")])
    ensures v.messageRequiredKeys == GetOr(GetOr(settings.messageValidation, EmptyMessageSection).requiredKeys, [KeyMessage])
    ensures v.decisionRequiredKeys == GetOr(GetOr(settings.decisionValidation, EmptyDecisionSection).requiredKeys, [KeyReasoning, KeyAction])
    ensures v.checkEmpty == GetOr(GetOr(settings.messageValidation, EmptyMessageSection).checkEmpty, true)
    ensures v.checkEmptyReasoning == GetOr(GetOr(settings.decisionValidation, EmptyDecisionSection).checkEmptyReasoning, true)
  {
    var message := GetOr(settings.messageValidation, EmptyMessageSection);
    var decision := GetOr(settings.decisionValidation, EmptyDecisionSection);
    ValidatorConfig(
      GetOr(settings.maxMessageChars, 200),
      GetOr(settings.maxReasoningChars, 500),
      GetOr(decision.validActions, [Lit("Cooperate"), Lit("Defect")]),
      GetOr(message.requiredKeys, [KeyMessage]),
      GetOr(decision.requiredKeys, [KeyReasoning, KeyAction]),
      GetOr(message.checkEmpty, true),
      GetOr(decision.checkEmptyReasoning, true))
  }

  const DefaultValidator: ValidatorConfig := NewValidator(ValidationSettings(None, None, None, None))

  /** With an empty configuration the validator allows 200-character
      messages, 500-character reasoning, the actions Cooperate and Defect,
      requires "message" and "reasoning", "action", and checks for empty text. */
  lemma DefaultValidatorValues()
    ensures DefaultValidator == ValidatorConfig(200, 500, [Lit("Cooperate"), Lit("Defect")],
                                                [KeyMessage], [KeyReasoning, KeyAction], true, true)
  {
  }

  datatype ValidationError =
    | InvalidJson(diagnostic: PyStr)
    | NotAnObject
    | MissingKey(key: PyStr)
    | MessageNotString
    | MessageEmpty
    | MessageTooLong(limit: int, length: nat)
    | MessageNotEncodable
    | ReasoningNotString
    | ReasoningEmpty
    | ReasoningTooLong(limit: int, length: nat)
    | ActionNotString
    | ActionNotAllowed(action: PyStr, allowed: seq<PyStr>)
    | ReasoningNotEncodable

  /** The repr of a list of strings, as f-strings print it (quote escaping
      inside the items is not modelled). */
  function ListRepr(items: seq<PyStr>): PyStr {
    Lit("[") + Join(Lit(", "), seq(|items|, i requires 0 <= i < |items| => Lit("'") + items[i] + Lit("'"))) + Lit("]")
  }

  /** The `error_message` text of each failure. */
  function ErrorText(e: ValidationError): PyStr {
    match e
    case InvalidJson(d) => Lit("Invalid JSON format: ") + d
    case NotAnObject => Lit("Response must be a JSON object")
    case MissingKey(k) => Lit("Missing required key: '") + k + Lit("'")
    case MessageNotString => Lit("Message must be a string")
    case MessageEmpty => Lit("Message cannot be empty")
    case MessageTooLong(limit, length) =>
      Lit("Message exceeds maximum length of ") + IntToStr(limit) + Lit(" characters (got ") + NatToStr(length) + Lit(")")
    case MessageNotEncodable => Lit("Message contains invalid UTF-8 characters")
    case ReasoningNotString => Lit("Reasoning must be a string")
    case ReasoningEmpty => Lit("Reasoning cannot be empty")
    case ReasoningTooLong(limit, length) =>
      Lit("Reasoning exceeds maximum length of ") + IntToStr(limit) + Lit(" characters (got ") + NatToStr(length) + Lit(")")
    case ActionNotString => Lit("Action must be a string")
    case ActionNotAllowed(a, allowed) => Lit("Invalid action: '") + a + Lit("'. Must be one of ") + ListRepr(allowed)
    case ReasoningNotEncodable => Lit("Reasoning contains invalid UTF-8 characters")
  }

  /** `ValidationResult`: an error message only on failure, the parsed
      object only on success. */
  datatype ValidationResult = Accepted(parsedData: map<PyStr, Json>) | Rejected(error: ValidationError) {
    predicate IsValid() { Accepted? }

    function ErrorMessage(): (m: Option<PyStr>)
      ensures m.Some? <==> !IsValid()
    {
      if Rejected? then Some(ErrorText(error)) else None
    }

    function ParsedData(): (d: Option<map<PyStr, Json>>)
      ensures d.Some? <==> IsValid()
    {
      if Accepted? then Some(parsedData) else None
    }
  }

  /** The position of the first required key, in list order, that the
      object lacks; `|keys|` when none is missing. */
  function FirstMissingIndex(keys: seq<PyStr>, fields: map<PyStr, Json>): (i: nat)
    ensures i <= |keys|
    ensures forall j :: 0 <= j < i ==> keys[j] in fields
    ensures i < |keys| ==> keys[i] !in fields
    decreases |keys|
  {
    if keys == [] || keys[0] !in fields then 0
    else 1 + FirstMissingIndex(keys[1..], fields)
  }

  /** The first required key, in list order, that the object lacks. */
  function FirstMissing(keys: seq<PyStr>, fields: map<PyStr, Json>): (r: Option<PyStr>)
    ensures r.None? <==> forall i :: 0 <= i < |keys| ==> keys[i] in fields
    ensures r.Some? ==> exists i :: 0 <= i < |keys| && keys[i] == r.value && r.value !in fields
                                    && forall j :: 0 <= j < i ==> keys[j] in fields
  {
    var i := FirstMissingIndex(keys, fields);
    if i == |keys| then None else Some(keys[i])
  }

  /** The value checked as the message: `data.get('message', '')`. */
  function MessageValue(fields: map<PyStr, Json>): Json {
    Get(fields, KeyMessage, JString([]))
  }

  function ReasoningValue(fields: map<PyStr, Json>): Json {
    Get(fields, KeyReasoning, JString([]))
  }

  function ActionValue(fields: map<PyStr, Json>): Json {
    Get(fields, KeyAction, JString([]))
  }

  /** What makes a text an acceptable message, stated as one conjunction. */
  predicate MessageAcceptable(cfg: ValidatorConfig, parsed: Result<Json, PyStr>) {
    && parsed.Success?
    && parsed.value.JObject?
    && (forall i :: 0 <= i < |cfg.messageRequiredKeys| ==> cfg.messageRequiredKeys[i] in parsed.value.fields)
    && MessageValue(parsed.value.fields).JString?
    && (cfg.checkEmpty ==> !IsBlank(MessageValue(parsed.value.fields).s))
    && |MessageValue(parsed.value.fields).s| <= cfg.maxMessageChars
    && Encodable(MessageValue(parsed.value.fields).s)
  }

  /** `validate_message(response)`. */
  function ValidateMessage(cfg: ValidatorConfig, parse: Parser, response: PyStr): (r: ValidationResult)
    ensures r.Accepted? <==> MessageAcceptable(cfg, parse(response))
    ensures r.Accepted? ==> r.parsedData == parse(response).value.fields
  {
    match parse(response)
    case Failure(diagnostic) => Rejected(InvalidJson(diagnostic))
    case Success(data) =>
      if !data.JObject? then Rejected(NotAnObject)
      else match FirstMissing(cfg.messageRequiredKeys, data.fields)
        case Some(key) => Rejected(MissingKey(key))
        case None =>
          var message := MessageValue(data.fields);
          if !message.JString? then Rejected(MessageNotString)
          else if cfg.checkEmpty && IsBlank(message.s) then Rejected(MessageEmpty)
          else if |message.s| > cfg.maxMessageChars then Rejected(MessageTooLong(cfg.maxMessageChars, |message.s|))
          else if !Encodable(message.s) then Rejected(MessageNotEncodable)
          else Accepted(data.fields)
  }

  /** The checks run in a fixed order and the first failing one names the
      error: parse, object, required keys in list order, string, empty,
      length, encoding. */
  lemma MessageCheckOrder(cfg: ValidatorConfig, parse: Parser, response: PyStr)
    ensures parse(response).Failure? ==> ValidateMessage(cfg, parse, response) == Rejected(InvalidJson(parse(response).error))
    ensures parse(response).Success? && !parse(response).value.JObject? ==>
              ValidateMessage(cfg, parse, response) == Rejected(NotAnObject)
    ensures parse(response).Success? && parse(response).value.JObject? ==>
              var fields := parse(response).value.fields;
              var message := MessageValue(fields);
              && (FirstMissing(cfg.messageRequiredKeys, fields).Some? ==>
                    ValidateMessage(cfg, parse, response) == Rejected(MissingKey(FirstMissing(cfg.messageRequiredKeys, fields).value)))
              && (FirstMissing(cfg.messageRequiredKeys, fields).None? && !message.JString? ==>
                    ValidateMessage(cfg, parse, response) == Rejected(MessageNotString))
              && (FirstMissing(cfg.messageRequiredKeys, fields).None? && message.JString? && cfg.checkEmpty && IsBlank(message.s) ==>
                    ValidateMessage(cfg, parse, response) == Rejected(MessageEmpty))
              && (FirstMissing(cfg.messageRequiredKeys, fields).None? && message.JString? && !(cfg.checkEmpty && IsBlank(message.s))
                  && |message.s| > cfg.maxMessageChars ==>
                    ValidateMessage(cfg, parse, response) == Rejected(MessageTooLong(cfg.maxMessageChars, |message.s|)))
              && (FirstMissing(cfg.messageRequiredKeys, fields).None? && message.JString? && !(cfg.checkEmpty && IsBlank(message.s))
                  && |message.s| <= cfg.maxMessageChars && !Encodable(message.s) ==>
                    ValidateMessage(cfg, parse, response) == Rejected(MessageNotEncodable))
  {
  }

  /** A non-blank, encodable message is accepted exactly when its length is
      at most the limit: the limit itself is accepted, one more is not. */
  lemma MessageLengthBoundary(cfg: ValidatorConfig, parse: Parser, response: PyStr, text: PyStr)
    requires parse(response) == Success(JObject(map[KeyMessage := JString(text)]))
    requires forall i :: 0 <= i < |cfg.messageRequiredKeys| ==> cfg.messageRequiredKeys[i] == KeyMessage
    requires !IsBlank(text) && Encodable(text)
    ensures ValidateMessage(cfg, parse, response).Accepted? <==> |text| <= cfg.maxMessageChars
    ensures |text| == cfg.maxMessageChars + 1 ==>
              ValidateMessage(cfg, parse, response) == Rejected(MessageTooLong(cfg.maxMessageChars, |text|))
  {
  }

  /** Blank text (empty or whitespace only) is rejected as empty when the
      check is on, and passes that check when it is off. */
  lemma BlankMessage(cfg: ValidatorConfig, parse: Parser, response: PyStr, text: PyStr)
    requires parse(response) == Success(JObject(map[KeyMessage := JString(text)]))
    requires forall i :: 0 <= i < |cfg.messageRequiredKeys| ==> cfg.messageRequiredKeys[i] == KeyMessage
    requires IsBlank(text)
    ensures cfg.checkEmpty ==> ValidateMessage(cfg, parse, response) == Rejected(MessageEmpty)
    ensures !cfg.checkEmpty ==> (ValidateMessage(cfg, parse, response).Accepted? <==> |text| <= cfg.maxMessageChars)
  {
    assert Encodable(text) by {
      forall i | 0 <= i < |text| ensures !IsSurrogate(text[i]) {
        assert IsSpace(text[i]);
      }
    }
  }

  /** What makes a text an acceptable decision, stated as one conjunction. */
  predicate DecisionAcceptable(cfg: ValidatorConfig, parsed: Result<Json, PyStr>) {
    && parsed.Success?
    && parsed.value.JObject?
    && (forall i :: 0 <= i < |cfg.decisionRequiredKeys| ==> cfg.decisionRequiredKeys[i] in parsed.value.fields)
    && ReasoningValue(parsed.value.fields).JString?
    && (cfg.checkEmptyReasoning ==> !IsBlank(ReasoningValue(parsed.value.fields).s))
    && |ReasoningValue(parsed.value.fields).s| <= cfg.maxReasoningChars
    && ActionValue(parsed.value.fields).JString?
    && ActionValue(parsed.value.fields).s in cfg.validActions
    && Encodable(ReasoningValue(parsed.value.fields).s)
  }

  /** `validate_decision(response)`. */
  function ValidateDecision(cfg: ValidatorConfig, parse: Parser, response: PyStr): (r: ValidationResult)
    ensures r.Accepted? <==> DecisionAcceptable(cfg, parse(response))
    ensures r.Accepted? ==> r.parsedData == parse(response).value.fields
  {
    match parse(response)
    case Failure(diagnostic) => Rejected(InvalidJson(diagnostic))
    case Success(data) =>
      if !data.JObject? then Rejected(NotAnObject)
      else match FirstMissing(cfg.decisionRequiredKeys, data.fields)
        case Some(key) => Rejected(MissingKey(key))
        case None =>
          var reasoning := ReasoningValue(data.fields);
          var action := ActionValue(data.fields);
          if !reasoning.JString? then Rejected(ReasoningNotString)
          else if cfg.checkEmptyReasoning && IsBlank(reasoning.s) then Rejected(ReasoningEmpty)
          else if |reasoning.s| > cfg.maxReasoningChars then Rejected(ReasoningTooLong(cfg.maxReasoningChars, |reasoning.s|))
          else if !action.JString? then Rejected(ActionNotString)
          else if action.s !in cfg.validActions then Rejected(ActionNotAllowed(action.s, cfg.validActions))
          else if !Encodable(reasoning.s) then Rejected(ReasoningNotEncodable)
          else Accepted(data.fields)
  }

  /** The checks run in a fixed order and the first failing one names the
      error: parse, object, required keys in list order, then the
      reasoning (type, empty, length) before the action (type, allow-list),
      and the encoding of the reasoning last. */
  lemma DecisionCheckOrder(cfg: ValidatorConfig, parse: Parser, response: PyStr)
    ensures parse(response).Failure? ==> ValidateDecision(cfg, parse, response) == Rejected(InvalidJson(parse(response).error))
    ensures parse(response).Success? && !parse(response).value.JObject? ==>
              ValidateDecision(cfg, parse, response) == Rejected(NotAnObject)
    ensures parse(response).Success? && parse(response).value.JObject? &&
            FirstMissing(cfg.decisionRequiredKeys, parse(response).value.fields).Some? ==>
              ValidateDecision(cfg, parse, response)
              == Rejected(MissingKey(FirstMissing(cfg.decisionRequiredKeys, parse(response).value.fields).value))
    ensures parse(response).Success? && parse(response).value.JObject? &&
            FirstMissing(cfg.decisionRequiredKeys, parse(response).value.fields).None? ==>
      var fields := parse(response).value.fields;
      var reasoning := ReasoningValue(fields);
      var action := ActionValue(fields);
      var r := ValidateDecision(cfg, parse, response);
      && (!reasoning.JString? ==> r == Rejected(ReasoningNotString))
      && (reasoning.JString? && cfg.checkEmptyReasoning && IsBlank(reasoning.s) ==> r == Rejected(ReasoningEmpty))
      && (reasoning.JString? && !(cfg.checkEmptyReasoning && IsBlank(reasoning.s)) && |reasoning.s| > cfg.maxReasoningChars ==>
            r == Rejected(ReasoningTooLong(cfg.maxReasoningChars, |reasoning.s|)))
      && (reasoning.JString? && !(cfg.checkEmptyReasoning && IsBlank(reasoning.s)) && |reasoning.s| <= cfg.maxReasoningChars ==>
            && (!action.JString? ==> r == Rejected(ActionNotString))
            && (action.JString? && action.s !in cfg.validActions ==> r == Rejected(ActionNotAllowed(action.s, cfg.validActions)))
            && (action.JString? && action.s in cfg.validActions && !Encodable(reasoning.s) ==> r == Rejected(ReasoningNotEncodable)))
  {
  }

  /** The allow-list match is exact: with the default actions, "cooperate"
      is rejected even with acceptable reasoning. */
  lemma LowerCaseActionRejected(parse: Parser, response: PyStr, reasoning: PyStr)
    requires parse(response) == Success(JObject(map[KeyReasoning := JString(reasoning), KeyAction := JString(Lit("cooperate"))]))
    requires !IsBlank(reasoning) && |reasoning| <= 500 && Encodable(reasoning)
    ensures ValidateDecision(DefaultValidator, parse, response) ==
              Rejected(ActionNotAllowed(Lit("cooperate"), [Lit("Cooperate"), Lit("Defect")]))
  {
    LitInjective("reasoning", "action");
    LitInjective("cooperate", "Cooperate");
    var fields := map[KeyReasoning := JString(reasoning), KeyAction := JString(Lit("cooperate"))];
    assert FirstMissing([KeyReasoning, KeyAction], fields) == None;
  }

  /** When the configuration guarantees that an accepted decision names its
      reasoning and action (they are required, or their defaults cannot
      pass), an accepted decision carries a reasoning string and an allowed
      action string. */
  predicate DecisionFieldsGuaranteed(cfg: ValidatorConfig) {
    && (KeyReasoning in cfg.decisionRequiredKeys || cfg.checkEmptyReasoning)
    && (KeyAction in cfg.decisionRequiredKeys || [] !in cfg.validActions)
  }

  lemma AcceptedDecisionFields(cfg: ValidatorConfig, parse: Parser, response: PyStr)
    requires DecisionFieldsGuaranteed(cfg)
    requires ValidateDecision(cfg, parse, response).Accepted?
    ensures var fields := ValidateDecision(cfg, parse, response).parsedData;
      && KeyReasoning in fields && fields[KeyReasoning].JString?
      && KeyAction in fields && fields[KeyAction].JString? && fields[KeyAction].s in cfg.validActions
  {
  }

  datatype RetryError = InvalidValidationType(kind: PyStr)

  /** `validate_with_retry(response, validation_type, max_retries)`: a
      single validation reported as one attempt; other types are refused. */
  function ValidateWithRetry(cfg: ValidatorConfig, parse: Parser, response: PyStr, kind: PyStr, maxRetries: int)
    : (r: Result<(ValidationResult, nat), RetryError>)
    ensures r.Success? <==> kind == Lit("message") || kind == Lit("decision")
    ensures r.Success? ==> r.value.1 == 1
    ensures kind == Lit("message") ==> r == Success((ValidateMessage(cfg, parse, response), 1))
    ensures kind == Lit("decision") ==> r == Success((ValidateDecision(cfg, parse, response), 1))
  {
    LitInjective("message", "decision");
    if kind == Lit("message") then Success((ValidateMessage(cfg, parse, response), 1))
    else if kind == Lit("decision") then Success((ValidateDecision(cfg, parse, response), 1))
    else Failure(InvalidValidationType(kind))
  }
}
