/** The communication manager (src/communication/manager.py): validated
    message exchanges between the two players, and the shared dialogue
    history. */
module Manager {
  import opened Wrappers
  import opened Text
  import opened Json
  import opened Validator
  import opened State
  import opened Agents

  /** One entry of the communication history. Entries the manager appends
      are tagged with their phase; `UnlabelledEntry` stands for an entry
      with any other phase, which is rendered without a tag. */
  datatype MessageEntry =
    | InitialEntry(exchange: nat, speaker: PyStr, message: PyStr)
    | InterGameEntry(gameNumber: int, exchange: nat, speaker: PyStr, message: PyStr)
    | UnlabelledEntry(speaker: PyStr, message: PyStr)

  const Placeholder: PyStr := Lit("(No messages yet)")

  /** One line of `_format_comm_history`. */
  function FormatEntry(e: MessageEntry): PyStr {
    var said := e.speaker + Lit(": ") + e.message;
    match e
    case InitialEntry(exchange, _, _) => Lit("[Initial Exchange ") + NatToStr(exchange) + Lit("] ") + said
    case InterGameEntry(game, _, _, _) => Lit("[After Game ") + IntToStr(game) + Lit("] ") + said
    case UnlabelledEntry(_, _) => said
  }

  /** Every line ends with the speaker, ": " and the message text. */
  lemma FormatEntryEndsWithMessage(e: MessageEntry)
    ensures var line := FormatEntry(e);
      |line| >= |e.speaker| + 2 + |e.message|
      && line[|line| - |e.message| - |e.speaker| - 2..] == e.speaker + Lit(": ") + e.message
  {
  }

  /** `_format_comm_history`: a placeholder for no messages, otherwise one
      line per entry, in order, separated by newlines. */
  function FormatHistory(entries: seq<MessageEntry>): (text: PyStr)
    decreases |entries|
  {
    if entries == [] then Placeholder
    else if |entries| == 1 then FormatEntry(entries[0])
    else FormatHistory(entries[..|entries| - 1]) + Lit("\n") + FormatEntry(entries[|entries| - 1])
  }

  function Lines(entries: seq<MessageEntry>): (lines: seq<PyStr>)
    ensures |lines| == |entries|
    ensures forall i :: 0 <= i < |entries| ==> lines[i] == FormatEntry(entries[i])
  {
    seq(|entries|, i requires 0 <= i < |entries| => FormatEntry(entries[i]))
  }

  /** A non-empty history renders as `"\n".join` of its lines. */
  lemma {:induction false} FormatHistoryIsJoin(entries: seq<MessageEntry>)
    requires entries != []
    ensures FormatHistory(entries) == Join(Lit("\n"), Lines(entries))
    decreases |entries|
  {
    if |entries| > 1 {
      var init := entries[..|entries| - 1];
      FormatHistoryIsJoin(init);
      assert Lines(entries)[..|entries| - 1] == Lines(init);
    }
  }

  /** Rendering grows line by line: appending an entry appends a newline
      and its line. */
  lemma FormatHistoryAppend(entries: seq<MessageEntry>, e: MessageEntry)
    ensures entries == [] ==> FormatHistory(entries + [e]) == FormatEntry(e)
    ensures entries != [] ==> FormatHistory(entries + [e]) == FormatHistory(entries) + Lit("\n") + FormatEntry(e)
  {
    assert (entries + [e])[..|entries|] == entries;
  }

  /** The suffix added to the prompt after an invalid reply. */
  function Feedback(error: PyStr): PyStr {
    Lit("\n\nPREVIOUS ATTEMPT FAILED: ") + error + Lit("\nPlease try again with valid JSON format.")
  }

  /** `range(max_retries + 1)`: the number of attempts allowed. */
  function Budget(maxRetries: int): nat {
    if maxRetries + 1 > 0 then maxRetries + 1 else 0
  }

  /** What a manager asks of each reply: `validate` is its validator's
      `validate_message`, `describe` gives a failure's `error_message`, and
      `maxRetries` is the number of retries. */
  datatype Policy = Policy(validate: PyStr -> ValidationResult, describe: ValidationError -> PyStr, maxRetries: int)

  /** The policy of a manager built on a `ResponseValidator`. */
  function MessagePolicy(cfg: ValidatorConfig, parse: Parser, maxRetries: int): Policy {
    Policy(body => ValidateMessage(cfg, parse, body), ErrorText, maxRetries)
  }

  /** The message a reply delivers: its "message" value when the reply
      validates and carries that key. A reply that validates without it
      fails on the key lookup, like an exception. */
  function Delivered(policy: Policy, reply: Reply): (m: Option<PyStr>)
    ensures m.Some? ==> reply.Response? && policy.validate(reply.body).Accepted?
  {
    match reply
    case Raises => None
    case Response(body) =>
      var result := policy.validate(body);
      if result.Accepted? && KeyMessage in result.parsedData && result.parsedData[KeyMessage].JString? then
        Some(result.parsedData[KeyMessage].s)
      else None
  }

  /** The message validator never accepts a non-string "message", so a
      reply it accepts delivers exactly when it carries that key. */
  lemma ValidatorDeliversText(cfg: ValidatorConfig, parse: Parser, maxRetries: int, body: PyStr)
    ensures var result := ValidateMessage(cfg, parse, body);
      Delivered(MessagePolicy(cfg, parse, maxRetries), Response(body)).Some?
      <==> result.Accepted? && KeyMessage in result.parsedData
  {
    var result := ValidateMessage(cfg, parse, body);
    if result.Accepted? && KeyMessage in result.parsedData {
      assert MessageValue(result.parsedData) == result.parsedData[KeyMessage];
    }
  }

  /** The prompt for the next attempt: extended with feedback after an
      invalid reply on a non-final attempt, unchanged otherwise. */
  function NextPrompt(policy: Policy, reply: Reply, attempt: nat, prompt: PyStr): PyStr {
    match reply
    case Raises => prompt
    case Response(body) =>
      var result := policy.validate(body);
      if result.Rejected? && attempt < policy.maxRetries then prompt + Feedback(policy.describe(result.error)) else prompt
  }

  /** The outcome of a retry loop: the message obtained, if any, and the
      prompt sent on each call. */
  datatype Attempts = Attempts(message: Option<PyStr>, prompts: seq<PyStr>)

  /** `_get_validated_message` from attempt `attempt` on, with the prompts
      already sent in `sent`. */
  function MessageRetry(policy: Policy, agent: Agent,
                        prompt: PyStr, attempt: nat, sent: seq<PyStr>): (a: Attempts)
    ensures |sent| <= |a.prompts| && a.prompts[..|sent|] == sent
    decreases if attempt < Budget(policy.maxRetries) then Budget(policy.maxRetries) - attempt else 0
  {
    if attempt >= Budget(policy.maxRetries) then Attempts(None, sent)
    else
      var reply := ReplyAt(agent, attempt);
      var delivered := Delivered(policy, reply);
      if delivered.Some? then Attempts(delivered, sent + [prompt])
      else
        var a := MessageRetry(policy, agent, NextPrompt(policy, reply, attempt, prompt),
                              attempt + 1, sent + [prompt]);
        assert a.prompts[..|sent|] == (sent + [prompt])[..|sent|];
        a
  }

  /** The retry loop, call by call: at most `max_retries + 1` calls; the
      first prompt is the one given; each later prompt follows from the
      previous reply by `NextPrompt`; the loop stops at the first reply
      that delivers a message and returns it, and otherwise uses every
      attempt and returns nothing. */
  lemma {:induction false} MessageRetryTrace(policy: Policy, agent: Agent,
                                             prompt: PyStr, attempt: nat, sent: seq<PyStr>)
    requires |sent| == attempt <= Budget(policy.maxRetries)
    ensures var a := MessageRetry(policy, agent, prompt, attempt, sent);
      var n := |a.prompts|;
      && attempt <= n <= Budget(policy.maxRetries)
      && (n > attempt ==> a.prompts[attempt] == prompt)
      && (forall i :: attempt <= i < n - 1 ==>
            Delivered(policy, ReplyAt(agent, i)).None?
            && a.prompts[i + 1] == NextPrompt(policy, ReplyAt(agent, i), i, a.prompts[i]))
      && (a.message.Some? ==> n > attempt && a.message == Delivered(policy, ReplyAt(agent, n - 1)))
      && (a.message.None? ==> n == Budget(policy.maxRetries)
                              && forall i :: attempt <= i < n ==> Delivered(policy, ReplyAt(agent, i)).None?)
    decreases Budget(policy.maxRetries) - attempt
  {
    if attempt < Budget(policy.maxRetries) {
      var reply := ReplyAt(agent, attempt);
      if Delivered(policy, reply).None? {
        var next := NextPrompt(policy, reply, attempt, prompt);
        var sent' := sent + [prompt];
        MessageRetryTrace(policy, agent, next, attempt + 1, sent');
        var a := MessageRetry(policy, agent, next, attempt + 1, sent');
        assert a == MessageRetry(policy, agent, prompt, attempt, sent);
        var n := |a.prompts|;
        assert a.prompts[attempt] == prompt by {
          assert a.prompts[..attempt + 1] == sent';
        }
        forall i | attempt <= i < n - 1
          ensures Delivered(policy, ReplyAt(agent, i)).None?
          ensures a.prompts[i + 1] == NextPrompt(policy, ReplyAt(agent, i), i, a.prompts[i])
        {
        }
      }
    }
  }

  /** An invalid reply followed by a valid one costs exactly one extra call,
      and the second prompt carries the validator's error. */
  lemma FailOnceThenSucceed(policy: Policy, prompt: PyStr, bad: PyStr, good: PyStr)
    requires policy.maxRetries >= 1
    requires policy.validate(bad).Rejected?
    requires Delivered(policy, Response(good)).Some?
    ensures MessageRetry(policy, Agent([Response(bad), Response(good)], 0), prompt, 0, [])
            == Attempts(Delivered(policy, Response(good)),
                        [prompt, prompt + Feedback(policy.describe(policy.validate(bad).error))])
  {
  }

  /** An exception leaves the prompt of the next attempt unchanged. */
  lemma RaiseThenSucceed(policy: Policy, prompt: PyStr, good: PyStr)
    requires policy.maxRetries >= 1
    requires Delivered(policy, Response(good)).Some?
    ensures MessageRetry(policy, Agent([Raises, Response(good)], 0), prompt, 0, [])
            == Attempts(Delivered(policy, Response(good)), [prompt, prompt])
  {
  }

  /** The settings `conduct_*` read from the `communication` section. */
  datatype DialogueSettings = DialogueSettings(initialRounds: int, initialMaxChars: int,
                                               interGameRounds: int, interGameMaxChars: int)

  /** Which dialogue is running. */
  datatype DialoguePhase = InitialPhase | InterGamePhase(gameNumber: int, previousGame: Snapshot)

  /** What the prompt of one turn is built from. The dialogue templates
      and the context they are filled from are not modelled: a
      `PromptRenderer` turns a request into the prompt text. */
  datatype PromptRequest =
    | InitialDialoguePrompt(role: PyStr, isFirstSpeaker: bool, instruction: PyStr, exchange: nat,
                            totalExchanges: int, maxChars: int, history: PyStr)
    | InterGameDialoguePrompt(previousGame: Snapshot, role: PyStr, isFirstSpeaker: bool, instruction: PyStr,
                              maxChars: int, history: PyStr)

  type PromptRenderer = PromptRequest -> PyStr

  /** How a speaker is asked for a validated message: the manager uses
      its retry loop, `MessageRetry` from the first attempt. */
  type Asker = (Agent, PyStr) -> Attempts

  /** How a list of entries is shown in a prompt; the manager uses
      `FormatHistory`. */
  type HistoryFormatter = seq<MessageEntry> -> PyStr

  const Player1: PyStr := Lit("Player 1")
  const Player2: PyStr := Lit("Player 2")

  /** `roles[(first_idx + turn) % 2]`, with Python's floor modulo. */
  function SpeakerIndex(firstSpeaker: int, turn: nat): (idx: int)
    ensures idx == 0 || idx == 1
  {
    (firstSpeaker - 1 + turn % 2) % 2
  }

  function RoleOf(idx: int): PyStr {
    if idx == 0 then Player1 else Player2
  }

  function Instruction(turn: nat): PyStr {
    if turn % 2 == 0 then Lit("You are speaking first.") else Lit("You are responding.")
  }

  /** The number of turns of a dialogue: two per exchange. */
  function Turns(rounds: int): nat {
    if rounds > 0 then 2 * rounds else 0
  }

  /** The prompt of turn `k`: `messages` are this dialogue's entries so
      far, which the initial dialogue shows, and `history` the whole
      history, which the inter-game dialogue shows. */
  function TurnPrompt(phase: DialoguePhase, rounds: int, maxChars: int, firstSpeaker: int, render: PromptRenderer,
                      format: HistoryFormatter, k: nat, messages: seq<MessageEntry>, history: seq<MessageEntry>): PyStr {
    var idx := SpeakerIndex(firstSpeaker, k);
    match phase
    case InitialPhase =>
      render(InitialDialoguePrompt(RoleOf(idx), idx == firstSpeaker - 1, Instruction(k), k / 2 + 1, rounds, maxChars,
                                   format(messages)))
    case InterGamePhase(_, previous) =>
      render(InterGameDialoguePrompt(previous, RoleOf(idx), idx == firstSpeaker - 1, Instruction(k), maxChars,
                                     format(history)))
  }

  /** The entry recorded for turn `k`. */
  function TurnEntry(phase: DialoguePhase, k: nat, speaker: PyStr, text: PyStr): MessageEntry {
    match phase
    case InitialPhase => InitialEntry(k / 2 + 1, speaker, text)
    case InterGamePhase(game, _) => InterGameEntry(game, k / 2 + 1, speaker, text)
  }

  /** What stays fixed while one dialogue runs: how a speaker is asked,
      the phase, the number of exchanges, the length limit, who speaks
      first, the prompt renderer and history formatter, and the history
      as it was when the dialogue began. */
  datatype Setup = Setup(ask: Asker, phase: DialoguePhase, rounds: int, maxChars: int, firstSpeaker: int,
                         render: PromptRenderer, format: HistoryFormatter, before: seq<MessageEntry>)

  /** The outcome of a dialogue: whether every turn produced a message, the
      entries produced, and each player after its calls. */
  datatype DialogueOutcome = DialogueOutcome(success: bool, messages: seq<MessageEntry>, agent1: Agent, agent2: Agent)

  /** The prompt of turn `k` of a dialogue that has produced `messages`. */
  function SetupPrompt(s: Setup, k: nat, messages: seq<MessageEntry>): PyStr {
    TurnPrompt(s.phase, s.rounds, s.maxChars, s.firstSpeaker, s.render, s.format, k, messages, s.before + messages)
  }

  /** A dialogue from turn `k` on: each turn asks the speaker for a
      validated message and stops the dialogue at the first failure. */
  function Dialogue(s: Setup, agent1: Agent, agent2: Agent, k: nat, messages: seq<MessageEntry>): (o: DialogueOutcome)
    ensures |messages| <= |o.messages| && o.messages[..|messages|] == messages
    decreases Turns(s.rounds) - k
  {
    if k >= Turns(s.rounds) then DialogueOutcome(true, messages, agent1, agent2)
    else
      var idx := SpeakerIndex(s.firstSpeaker, k);
      var a := s.ask(if idx == 0 then agent1 else agent2, SetupPrompt(s, k, messages));
      var rest1 := if idx == 0 then Advance(agent1, |a.prompts|) else agent1;
      var rest2 := if idx == 1 then Advance(agent2, |a.prompts|) else agent2;
      if a.message.None? then DialogueOutcome(false, messages, rest1, rest2)
      else
        var entry := TurnEntry(s.phase, k, RoleOf(idx), a.message.value);
        var o := Dialogue(s, rest1, rest2, k + 1, messages + [entry]);
        assert o.messages[..|messages|] == (messages + [entry])[..|messages|];
        o
  }

  /** A turn whose speaker gives no message ends the dialogue. */
  lemma DialogueStops(s: Setup, agent1: Agent, agent2: Agent, k: nat, messages: seq<MessageEntry>, prompts: seq<PyStr>)
    requires k < Turns(s.rounds)
    requires Attempts(None, prompts)
             == s.ask(if SpeakerIndex(s.firstSpeaker, k) == 0 then agent1 else agent2, SetupPrompt(s, k, messages))
    ensures var idx := SpeakerIndex(s.firstSpeaker, k);
      Dialogue(s, agent1, agent2, k, messages)
      == DialogueOutcome(false, messages, if idx == 0 then Advance(agent1, |prompts|) else agent1,
                         if idx == 1 then Advance(agent2, |prompts|) else agent2)
  {
  }

  /** A turn whose speaker gives a message records it and moves on. */
  lemma DialogueAdvances(s: Setup, agent1: Agent, agent2: Agent, k: nat, messages: seq<MessageEntry>,
                         text: PyStr, prompts: seq<PyStr>)
    requires k < Turns(s.rounds)
    requires Attempts(Some(text), prompts)
             == s.ask(if SpeakerIndex(s.firstSpeaker, k) == 0 then agent1 else agent2, SetupPrompt(s, k, messages))
    ensures var idx := SpeakerIndex(s.firstSpeaker, k);
      Dialogue(s, agent1, agent2, k, messages)
      == Dialogue(s, if idx == 0 then Advance(agent1, |prompts|) else agent1,
                  if idx == 1 then Advance(agent2, |prompts|) else agent2,
                  k + 1, messages + [TurnEntry(s.phase, k, RoleOf(idx), text)])
  {
  }

  /** After the last turn the dialogue has succeeded. */
  lemma DialogueEnds(s: Setup, agent1: Agent, agent2: Agent, k: nat, messages: seq<MessageEntry>)
    requires k >= Turns(s.rounds)
    ensures Dialogue(s, agent1, agent2, k, messages) == DialogueOutcome(true, messages, agent1, agent2)
  {
  }

  /** The shape of a dialogue's entries: it succeeds exactly when all
      `2 * rounds` turns produced a message; entry `j` belongs to exchange
      `j / 2 + 1`, carries the phase's tag, and is spoken by
      `roles[(first_idx + j) % 2]`. */
  predicate WellShaped(phase: DialoguePhase, firstSpeaker: int, messages: seq<MessageEntry>) {
    forall j :: 0 <= j < |messages| ==>
      messages[j] == TurnEntry(phase, j, RoleOf(SpeakerIndex(firstSpeaker, j)), messages[j].message)
  }

  lemma WellShapedAppend(phase: DialoguePhase, firstSpeaker: int, messages: seq<MessageEntry>, text: PyStr)
    requires WellShaped(phase, firstSpeaker, messages)
    ensures WellShaped(phase, firstSpeaker,
                       messages + [TurnEntry(phase, |messages|, RoleOf(SpeakerIndex(firstSpeaker, |messages|)), text)])
  {
    var next := messages + [TurnEntry(phase, |messages|, RoleOf(SpeakerIndex(firstSpeaker, |messages|)), text)];
    forall j | 0 <= j < |next|
      ensures next[j] == TurnEntry(phase, j, RoleOf(SpeakerIndex(firstSpeaker, j)), next[j].message)
    {
      if j < |messages| {
        assert next[j] == messages[j];
      }
    }
  }

  lemma {:induction false} DialogueShape(s: Setup, agent1: Agent, agent2: Agent, k: nat, messages: seq<MessageEntry>)
    requires |messages| == k <= Turns(s.rounds)
    requires WellShaped(s.phase, s.firstSpeaker, messages)
    ensures var o := Dialogue(s, agent1, agent2, k, messages);
      && |o.messages| <= Turns(s.rounds)
      && (o.success <==> |o.messages| == Turns(s.rounds))
      && WellShaped(s.phase, s.firstSpeaker, o.messages)
    decreases Turns(s.rounds) - k
  {
    var o := Dialogue(s, agent1, agent2, k, messages);
    if k >= Turns(s.rounds) {
      assert o == DialogueOutcome(true, messages, agent1, agent2);
    } else {
      var idx := SpeakerIndex(s.firstSpeaker, k);
      var a := s.ask(if idx == 0 then agent1 else agent2, SetupPrompt(s, k, messages));
      var rest1 := if idx == 0 then Advance(agent1, |a.prompts|) else agent1;
      var rest2 := if idx == 1 then Advance(agent2, |a.prompts|) else agent2;
      if a.message.None? {
        assert o == DialogueOutcome(false, messages, rest1, rest2);
      } else {
        var entry := TurnEntry(s.phase, k, RoleOf(idx), a.message.value);
        var next := messages + [entry];
        assert o == Dialogue(s, rest1, rest2, k + 1, next);
        assert entry.message == a.message.value;
        WellShapedAppend(s.phase, s.firstSpeaker, messages, a.message.value);
        DialogueShape(s, rest1, rest2, k + 1, next);
      }
    }
  }

  /** With Player 1 or Player 2 speaking first, the even entries are the
      first speaker's and the odd entries the other player's. */
  lemma SpeakersAlternate(firstSpeaker: int, j: nat)
    requires firstSpeaker == 1 || firstSpeaker == 2
    ensures j % 2 == 0 ==> RoleOf(SpeakerIndex(firstSpeaker, j)) == (if firstSpeaker == 1 then Player1 else Player2)
    ensures j % 2 == 1 ==> RoleOf(SpeakerIndex(firstSpeaker, j)) == (if firstSpeaker == 1 then Player2 else Player1)
  {
  }

  /** `CommunicationManager`: the validator, the retry policy, the dialogue
      settings and the shared history. */
  class CommunicationManager {
    const policy: Policy
    const settings: DialogueSettings
    const formatHistory: HistoryFormatter
    const ask: Asker
    var history: seq<MessageEntry>

    /** `ask` is the retry loop of `_get_validated_message`. */
    ghost predicate Asks() {
      forall agent, prompt {:trigger MessageRetry(policy, agent, prompt, 0, [])} ::
        ask(agent, prompt) == MessageRetry(policy, agent, prompt, 0, [])
    }

    /** `__init__`, with `max_retries` from the `validation` section. */
    constructor (cfg: ValidatorConfig, parse: Parser, maxRetries: int, settings: DialogueSettings)
      ensures policy == MessagePolicy(cfg, parse, maxRetries) && this.settings == settings
      ensures formatHistory == FormatHistory && Asks() && history == []
    {
      policy := MessagePolicy(cfg, parse, maxRetries);
      this.settings := settings;
      formatHistory := FormatHistory;
      ask := (agent, prompt) => MessageRetry(MessagePolicy(cfg, parse, maxRetries), agent, prompt, 0, []);
      history := [];
    }

    /** `_get_validated_message`: the retry loop, returning the message and
      the prompt sent on each call. */
    method GetValidatedMessage(agent: Agent, prompt: PyStr) returns (message: Option<PyStr>, prompts: seq<PyStr>)
      ensures Attempts(message, prompts) == MessageRetry(policy, agent, prompt, 0, [])
    {
      var current := prompt;
      var attempt := 0;
      prompts := [];
      while attempt < policy.maxRetries + 1
        invariant 0 <= attempt <= Budget(policy.maxRetries) && |prompts| == attempt
        invariant MessageRetry(policy, agent, current, attempt, prompts)
                  == MessageRetry(policy, agent, prompt, 0, [])
        decreases policy.maxRetries + 1 - attempt
      {
        var reply := ReplyAt(agent, attempt);
        prompts := prompts + [current];
        match reply {
          case Response(body) =>
            var result := policy.validate(body);
            if result.Accepted? && KeyMessage in result.parsedData && result.parsedData[KeyMessage].JString? {
              return Some(result.parsedData[KeyMessage].s), prompts;
            }
            if result.Rejected? && attempt < policy.maxRetries {
              current := current + Feedback(policy.describe(result.error));
            }
          case Raises =>
        }
        attempt := attempt + 1;
      }
      message := None;
    }

    /** The setup of a dialogue run by this manager. */
    function SetupOf(phase: DialoguePhase, rounds: int, maxChars: int, firstSpeaker: int, render: PromptRenderer,
                     before: seq<MessageEntry>): (s: Setup)
      ensures s.ask == ask && s.format == formatHistory && s.before == before
    {
      Setup(ask, phase, rounds, maxChars, firstSpeaker, render, formatHistory, before)
    }

    /** One turn of the loop of both `conduct_*` methods: the speaker of
      turn `k` is asked for a validated message, with a prompt showing
      `messages` (this dialogue so far) or the whole history; a message
      is appended to the list and to the history. */
    method TakeTurn(phase: DialoguePhase, rounds: int, maxChars: int, firstSpeaker: int, render: PromptRenderer,
                    ghost s: Setup, k: nat, messages: seq<MessageEntry>, agent1: Agent, agent2: Agent,
                    ghost here: DialogueOutcome)
      returns (ok: bool, entries: seq<MessageEntry>, next1: Agent, next2: Agent)
      requires Asks() && s == SetupOf(phase, rounds, maxChars, firstSpeaker, render, s.before)
      requires k < Turns(rounds) && |messages| == k && history == s.before + messages
      requires here == Dialogue(s, agent1, agent2, k, messages)
      modifies this
      ensures history == s.before + entries
      ensures if ok then |entries| == k + 1 && here == Dialogue(s, next1, next2, k + 1, entries)
        else here == DialogueOutcome(false, entries, next1, next2)
    {
      var idx := SpeakerIndex(firstSpeaker, k);
      var prompt := TurnPrompt(phase, rounds, maxChars, firstSpeaker, render, formatHistory, k, messages, history);
      var text, prompts := GetValidatedMessage(if idx == 0 then agent1 else agent2, prompt);
      next1 := if idx == 0 then Advance(agent1, |prompts|) else agent1;
      next2 := if idx == 1 then Advance(agent2, |prompts|) else agent2;
      if text.None? {
        DialogueStops(s, agent1, agent2, k, messages, prompts);
        return false, messages, next1, next2;
      }
      DialogueAdvances(s, agent1, agent2, k, messages, text.value, prompts);
      var entry := TurnEntry(phase, k, RoleOf(idx), text.value);
      entries := messages + [entry];
      history := history + [entry];
      ok := true;
    }

    /** One exchange of the loop of both `conduct_*` methods: its two
      turns (the inner `for turn in range(2)`, written out), stopping at
      the first turn without a message. */
    method Exchange(phase: DialoguePhase, rounds: int, maxChars: int, firstSpeaker: int, render: PromptRenderer,
                    ghost s: Setup, exchange: nat, messages: seq<MessageEntry>, agent1: Agent, agent2: Agent,
                    ghost here: DialogueOutcome)
      returns (ok: bool, entries: seq<MessageEntry>, next1: Agent, next2: Agent)
      requires Asks() && s == SetupOf(phase, rounds, maxChars, firstSpeaker, render, s.before)
      requires 2 * exchange + 2 <= Turns(rounds) && |messages| == 2 * exchange && history == s.before + messages
      requires here == Dialogue(s, agent1, agent2, 2 * exchange, messages)
      modifies this
      ensures history == s.before + entries
      ensures if ok then |entries| == 2 * exchange + 2 && here == Dialogue(s, next1, next2, 2 * exchange + 2, entries)
        else here == DialogueOutcome(false, entries, next1, next2)
    {
      var delivered;
      delivered, entries, next1, next2 :=
        TakeTurn(phase, rounds, maxChars, firstSpeaker, render, s, 2 * exchange, messages, agent1, agent2, here);
      if !delivered {
        return false, entries, next1, next2;
      }
      delivered, entries, next1, next2 :=
        TakeTurn(phase, rounds, maxChars, firstSpeaker, render, s, 2 * exchange + 1, entries, next1, next2, here);
      if !delivered {
        return false, entries, next1, next2;
      }
      ok := true;
    }

    /** The loop of both `conduct_*` methods: `rounds` exchanges, stopping
      at the first turn without a message. */
    method Converse(phase: DialoguePhase, rounds: int, maxChars: int, agent1: Agent, agent2: Agent,
                    firstSpeaker: int, render: PromptRenderer)
      returns (success: bool, messages: seq<MessageEntry>, next1: Agent, next2: Agent)
      requires Asks()
      modifies this
      ensures DialogueOutcome(success, messages, next1, next2)
              == Dialogue(SetupOf(phase, rounds, maxChars, firstSpeaker, render, old(history)), agent1, agent2, 0, [])
      ensures history == old(history) + messages
    {
      ghost var before := history;
      ghost var s := SetupOf(phase, rounds, maxChars, firstSpeaker, render, before);
      ghost var spec := Dialogue(s, agent1, agent2, 0, []);
      messages, next1, next2 := [], agent1, agent2;
      var exchange := 0;
      while exchange < rounds
        invariant 0 <= exchange && 2 * exchange <= Turns(rounds)
        invariant |messages| == 2 * exchange && history == before + messages
        invariant Dialogue(s, next1, next2, 2 * exchange, messages) == spec
      {
        var ok;
        ok, messages, next1, next2 := Exchange(phase, rounds, maxChars, firstSpeaker, render, s, exchange,
                                               messages, next1, next2, spec);
        if !ok {
          return false, messages, next1, next2;
        }
        exchange := exchange + 1;
      }
      DialogueEnds(s, next1, next2, 2 * exchange, messages);
      success := true;
    }

    /** `conduct_initial_dialogue`: entries tagged "initial". */
    method ConductInitialDialogue(agent1: Agent, agent2: Agent, firstSpeaker: int, render: PromptRenderer)
      returns (success: bool, messages: seq<MessageEntry>, next1: Agent, next2: Agent)
      requires Asks()
      modifies this
      ensures DialogueOutcome(success, messages, next1, next2)
              == Dialogue(SetupOf(InitialPhase, settings.initialRounds, settings.initialMaxChars, firstSpeaker, render,
                                  old(history)), agent1, agent2, 0, [])
      ensures history == old(history) + messages
      ensures success <==> |messages| == Turns(settings.initialRounds)
      ensures WellShaped(InitialPhase, firstSpeaker, messages)
    {
      DialogueShape(SetupOf(InitialPhase, settings.initialRounds, settings.initialMaxChars, firstSpeaker, render, history),
                    agent1, agent2, 0, []);
      success, messages, next1, next2 :=
        Converse(InitialPhase, settings.initialRounds, settings.initialMaxChars, agent1, agent2, firstSpeaker, render);
    }

    /** `conduct_inter_game_dialogue`: entries tagged "inter_game" with the
      game number; the prompts see the whole history. */
    method ConductInterGameDialogue(agent1: Agent, agent2: Agent, firstSpeaker: int, previous: Snapshot,
                                    gameNumber: int, render: PromptRenderer)
      returns (success: bool, messages: seq<MessageEntry>, next1: Agent, next2: Agent)
      requires Asks()
      modifies this
      ensures DialogueOutcome(success, messages, next1, next2)
              == Dialogue(SetupOf(InterGamePhase(gameNumber, previous), settings.interGameRounds,
                                  settings.interGameMaxChars, firstSpeaker, render, old(history)), agent1, agent2, 0, [])
      ensures history == old(history) + messages
      ensures success <==> |messages| == Turns(settings.interGameRounds)
      ensures WellShaped(InterGamePhase(gameNumber, previous), firstSpeaker, messages)
    {
      var phase := InterGamePhase(gameNumber, previous);
      DialogueShape(SetupOf(phase, settings.interGameRounds, settings.interGameMaxChars, firstSpeaker, render, history),
                    agent1, agent2, 0, []);
      success, messages, next1, next2 :=
        Converse(phase, settings.interGameRounds, settings.interGameMaxChars, agent1, agent2, firstSpeaker, render);
    }

    /** `reset_history`. */
    method ResetHistory()
      modifies this
      ensures history == []
    {
      history := [];
    }

    /** `get_history`: a copy of the history. */
    function GetHistory(): (h: seq<MessageEntry>)
      reads this
      ensures h == history
    {
      history
    }
  }
}
