/** One game's ledger (src/game/state.py): the rounds played so far, the
    running scores and the derived per-player views. */
module State {
  import opened Wrappers
  import opened Text
  import opened Json
  import Payoffs

  datatype RoundResult = RoundResult(roundNumber: int, action1: PyStr, action2: PyStr, payoff1: int, payoff2: int)

  datatype StateError = InvalidPlayer(player: int)

  /** Sum of player 1's payoffs over the rounds. */
  function SumPayoff1(rounds: seq<RoundResult>): int
    decreases |rounds|
  {
    if rounds == [] then 0 else SumPayoff1(rounds[..|rounds| - 1]) + rounds[|rounds| - 1].payoff1
  }

  /** Sum of player 2's payoffs over the rounds. */
  function SumPayoff2(rounds: seq<RoundResult>): int
    decreases |rounds|
  {
    if rounds == [] then 0 else SumPayoff2(rounds[..|rounds| - 1]) + rounds[|rounds| - 1].payoff2
  }

  /** Round numbers run 1, 2, ..., n without gaps. */
  ghost predicate NumberedFromOne(rounds: seq<RoundResult>) {
    forall i :: 0 <= i < |rounds| ==> rounds[i].roundNumber == i + 1
  }

  /** The action a player took in a round (player 1 or 2). */
  function ActionOf(r: RoundResult, player: int): PyStr {
    if player == 1 then r.action1 else r.action2
  }

  /** `get_actions_for_player(player)`. */
  function Actions(rounds: seq<RoundResult>, player: int): (r: Result<seq<PyStr>, StateError>)
    ensures r.Success? <==> player == 1 || player == 2
    ensures r.Failure? ==> r.error == InvalidPlayer(player)
    ensures r.Success? ==> |r.value| == |rounds|
    ensures r.Success? ==> forall i :: 0 <= i < |rounds| ==> r.value[i] == ActionOf(rounds[i], player)
  {
    if player == 1 || player == 2 then Success(seq(|rounds|, i requires 0 <= i < |rounds| => ActionOf(rounds[i], player)))
    else Failure(InvalidPlayer(player))
  }

  /** Appending a round appends that round's action to the player's history
      and leaves the earlier history unchanged. */
  lemma ActionsAppend(rounds: seq<RoundResult>, r: RoundResult, player: int)
    requires player == 1 || player == 2
    ensures Actions(rounds + [r], player).value == Actions(rounds, player).value + [ActionOf(r, player)]
  {
    assert Actions(rounds + [r], player).value == Actions(rounds, player).value + [ActionOf(r, player)];
  }

  /** Number of "Cooperate" entries. */
  function CountCooperate(actions: seq<PyStr>): nat
    decreases |actions|
  {
    if actions == [] then 0
    else CountCooperate(actions[..|actions| - 1]) + (if actions[|actions| - 1] == Payoffs.Cooperate then 1 else 0)
  }

  lemma {:induction false} CountCooperateBounds(actions: seq<PyStr>)
    ensures CountCooperate(actions) <= |actions|
    ensures CountCooperate(actions) == |actions| <==> forall i :: 0 <= i < |actions| ==> actions[i] == Payoffs.Cooperate
    decreases |actions|
  {
    if actions != [] {
      var init := actions[..|actions| - 1];
      CountCooperateBounds(init);
      if CountCooperate(actions) == |actions| {
        forall i | 0 <= i < |actions| ensures actions[i] == Payoffs.Cooperate {
          if i < |actions| - 1 { assert actions[i] == init[i]; }
        }
      }
      if forall i :: 0 <= i < |actions| ==> actions[i] == Payoffs.Cooperate {
        assert forall i :: 0 <= i < |init| ==> init[i] == actions[i];
      }
    }
  }

  /** A cooperation rate kept exact: `cooperations` out of `total` actions.
      The policy for no actions is a rate of 0. */
  datatype Rate = Rate(cooperations: nat, total: nat) {
    function Value(): real {
      if total == 0 then 0.0 else cooperations as real / total as real
    }
  }

  /** A rate of at most all actions lies in [0, 1] and is 1 exactly when
      there were actions and every one of them was a cooperation. */
  lemma RateValueBounds(rate: Rate)
    requires rate.cooperations <= rate.total
    ensures 0.0 <= rate.Value() <= 1.0
    ensures rate.Value() == 1.0 <==> 0 < rate.total && rate.cooperations == rate.total
  {
    if 0 < rate.total {
      var c, t := rate.cooperations as real, rate.total as real;
      assert rate.Value() * t == c;
    }
  }

  /** `get_cooperation_rate(player)`. */
  function CooperationRate(rounds: seq<RoundResult>, player: int): (r: Result<Rate, StateError>)
    ensures r.Success? <==> player == 1 || player == 2
    ensures r.Success? ==> r.value.total == |rounds|
  {
    match Actions(rounds, player)
    case Failure(e) => Failure(e)
    case Success(actions) => Success(Rate(CountCooperate(actions), |actions|))
  }

  /** The cooperation rate lies in [0, 1], is 0 without actions, and is 1
      exactly when the player cooperated in every round. */
  lemma CooperationRateBounds(rounds: seq<RoundResult>, player: int)
    requires player == 1 || player == 2
    ensures var rate := CooperationRate(rounds, player).value;
      && 0.0 <= rate.Value() <= 1.0
      && (rounds == [] ==> rate.Value() == 0.0)
      && (rate.Value() == 1.0 <==> rounds != [] && forall i :: 0 <= i < |rounds| ==> ActionOf(rounds[i], player) == Payoffs.Cooperate)
  {
    var actions := Actions(rounds, player).value;
    CountCooperateBounds(actions);
    RateValueBounds(CooperationRate(rounds, player).value);
    if forall i :: 0 <= i < |actions| ==> actions[i] == Payoffs.Cooperate {
      assert forall i :: 0 <= i < |rounds| ==> ActionOf(rounds[i], player) == Payoffs.Cooperate;
    }
  }

  const KeyRoundNumber: PyStr := Lit("round_number")
  const KeyAction1: PyStr := Lit("action1")
  const KeyAction2: PyStr := Lit("action2")
  const KeyPayoff1: PyStr := Lit("payoff1")
  const KeyPayoff2: PyStr := Lit("payoff2")
  const KeyGameLength: PyStr := Lit("game_length")
  const KeyCurrentRound: PyStr := Lit("current_round")
  const KeyScore1: PyStr := Lit("score1")
  const KeyScore2: PyStr := Lit("score2")
  const KeyRounds: PyStr := Lit("rounds")

  lemma KeysDistinct()
    ensures KeyAction1 != KeyAction2 && KeyAction1 != KeyPayoff1 && KeyAction1 != KeyPayoff2
    ensures KeyAction2 != KeyPayoff1 && KeyAction2 != KeyPayoff2 && KeyPayoff1 != KeyPayoff2
    ensures KeyScore1 != KeyScore2 && KeyRounds != KeyScore1 && KeyRounds != KeyScore2
    ensures KeyGameLength != KeyCurrentRound
  {
    LitInjective("action1", "action2");
    LitInjective("action1", "payoff1");
    LitInjective("action1", "payoff2");
    LitInjective("action2", "payoff1");
    LitInjective("action2", "payoff2");
    LitInjective("payoff1", "payoff2");
    LitInjective("score1", "score2");
    LitInjective("rounds", "score1");
    LitInjective("rounds", "score2");
    LitInjective("game_length", "current_round");
  }

  /** One entry of the `rounds` list of `to_dict()`. */
  function RoundToJson(r: RoundResult): Json {
    JObject(map[
      KeyRoundNumber := JInt(r.roundNumber),
      KeyAction1 := JString(r.action1),
      KeyAction2 := JString(r.action2),
      KeyPayoff1 := JInt(r.payoff1),
      KeyPayoff2 := JInt(r.payoff2)])
  }

  function RoundsToJson(rounds: seq<RoundResult>): (items: seq<Json>)
    ensures |items| == |rounds|
  {
    seq(|rounds|, i requires 0 <= i < |rounds| => RoundToJson(rounds[i]))
  }

  /** Reads a round back from its dictionary form. */
  function RoundFromJson(j: Json): Option<RoundResult> {
    if !j.JObject? then None
    else
      var f := j.fields;
      if KeyRoundNumber in f && KeyAction1 in f && KeyAction2 in f && KeyPayoff1 in f && KeyPayoff2 in f
         && f[KeyRoundNumber].JInt? && f[KeyAction1].JString? && f[KeyAction2].JString?
         && f[KeyPayoff1].JInt? && f[KeyPayoff2].JInt?
      then Some(RoundResult(f[KeyRoundNumber].n, f[KeyAction1].s, f[KeyAction2].s, f[KeyPayoff1].n, f[KeyPayoff2].n))
      else None
  }

  function RoundsFromJson(items: seq<Json>): Option<seq<RoundResult>>
    decreases |items|
  {
    if items == [] then Some([])
    else
      match (RoundsFromJson(items[..|items| - 1]), RoundFromJson(items[|items| - 1]))
      case (Some(init), Some(last)) => Some(init + [last])
      case _ => None
  }

  lemma RoundJsonRoundTrip(r: RoundResult)
    ensures RoundFromJson(RoundToJson(r)) == Some(r)
  {
    KeysDistinct();
  }

  /** The serialised round list reproduces every round's fields, in order. */
  lemma {:induction false} RoundsJsonRoundTrip(rounds: seq<RoundResult>)
    ensures RoundsFromJson(RoundsToJson(rounds)) == Some(rounds)
    decreases |rounds|
  {
    if rounds != [] {
      var init := rounds[..|rounds| - 1];
      assert RoundsToJson(rounds)[..|rounds| - 1] == RoundsToJson(init);
      RoundsJsonRoundTrip(init);
      RoundJsonRoundTrip(rounds[|rounds| - 1]);
      assert rounds == init + [rounds[|rounds| - 1]];
    }
  }

  /** The plain values `to_dict()` serialises. */
  datatype Snapshot = Snapshot(gameLength: int, currentRound: int, score1: int, score2: int, rounds: seq<RoundResult>)

  function SnapshotToJson(s: Snapshot): Json {
    JObject(map[
      KeyGameLength := JInt(s.gameLength),
      KeyCurrentRound := JInt(s.currentRound),
      KeyScore1 := JInt(s.score1),
      KeyScore2 := JInt(s.score2),
      KeyRounds := JArray(RoundsToJson(s.rounds))])
  }

  function SnapshotFromJson(j: Json): Option<Snapshot> {
    if !j.JObject? then None
    else
      var f := j.fields;
      if KeyGameLength in f && KeyCurrentRound in f && KeyScore1 in f && KeyScore2 in f && KeyRounds in f
         && f[KeyGameLength].JInt? && f[KeyCurrentRound].JInt? && f[KeyScore1].JInt? && f[KeyScore2].JInt?
         && f[KeyRounds].JArray? && RoundsFromJson(f[KeyRounds].items).Some?
      then Some(Snapshot(f[KeyGameLength].n, f[KeyCurrentRound].n, f[KeyScore1].n, f[KeyScore2].n,
                         RoundsFromJson(f[KeyRounds].items).value))
      else None
  }

  /** `to_dict()` loses nothing: game length, round counter, both scores and
      every round's fields in order can be read back from it. */
  lemma SnapshotJsonRoundTrip(s: Snapshot)
    ensures SnapshotFromJson(SnapshotToJson(s)) == Some(s)
  {
    KeysDistinct();
    RoundsJsonRoundTrip(s.rounds);
  }

  class GameState {
    const gameLength: int
    var currentRound: int
    var score1: int
    var score2: int
    var rounds: seq<RoundResult>

    /** The ledger's invariant: the counter matches the rounds recorded, each
        score is the sum of that player's payoffs, and rounds are numbered 1..n. */
    ghost predicate Valid()
      reads this
    {
      && currentRound == |rounds|
      && score1 == SumPayoff1(rounds)
      && score2 == SumPayoff2(rounds)
      && NumberedFromOne(rounds)
    }

    constructor (gameLength: int)
      ensures this.gameLength == gameLength
      ensures currentRound == 0 && score1 == 0 && score2 == 0 && rounds == []
      ensures Valid()
    {
      this.gameLength := gameLength;
      currentRound, score1, score2, rounds := 0, 0, 0, [];
    }

    /** `add_round`: one atomic step that bumps the counter, adds both
        payoffs and records the round under the new counter value. */
    method AddRound(action1: PyStr, action2: PyStr, payoff1: int, payoff2: int)
      modifies this
      ensures currentRound == old(currentRound) + 1
      ensures score1 == old(score1) + payoff1 && score2 == old(score2) + payoff2
      ensures rounds == old(rounds) + [RoundResult(currentRound, action1, action2, payoff1, payoff2)]
      ensures old(Valid()) ==> Valid()
    {
      currentRound := currentRound + 1;
      score1 := score1 + payoff1;
      score2 := score2 + payoff2;
      var r := RoundResult(currentRound, action1, action2, payoff1, payoff2);
      ghost var before := rounds;
      rounds := rounds + [r];
      assert rounds[..|rounds| - 1] == before;
    }

    /** `is_complete()`. */
    function IsComplete(): (b: bool)
      reads this
      ensures b <==> currentRound >= gameLength
    {
      currentRound >= gameLength
    }

    /** `get_actions_for_player(player)`. */
    function ActionsForPlayer(player: int): (r: Result<seq<PyStr>, StateError>)
      reads this
      ensures r.Success? <==> player == 1 || player == 2
      ensures r.Success? ==> |r.value| == |rounds|
      ensures r.Success? ==> forall i :: 0 <= i < |rounds| ==> r.value[i] == ActionOf(rounds[i], player)
    {
      Actions(rounds, player)
    }

    /** `get_cooperation_rate(player)`, as an exact count pair. */
    function GetCooperationRate(player: int): (r: Result<Rate, StateError>)
      reads this
      ensures r.Success? <==> player == 1 || player == 2
      ensures r.Success? ==> 0.0 <= r.value.Value() <= 1.0
      ensures r.Success? ==> (r.value.Value() == 1.0 <==> rounds != [] && forall i :: 0 <= i < |rounds| ==> ActionOf(rounds[i], player) == Payoffs.Cooperate)
    {
      if player == 1 || player == 2 then CooperationRateBounds(rounds, player); CooperationRate(rounds, player)
      else CooperationRate(rounds, player)
    }

    /** `get_score(player)`: player 1's score for 1, player 2's for anything else. */
    function Score(player: int): (s: int)
      reads this
      ensures Valid() ==> s == (if player == 1 then SumPayoff1(rounds) else SumPayoff2(rounds))
    {
      if player == 1 then score1 else score2
    }

    function Snap(): Snapshot
      reads this
    {
      Snapshot(gameLength, currentRound, score1, score2, rounds)
    }

    /** `to_dict()`. */
    function ToDict(): (j: Json)
      reads this
      ensures SnapshotFromJson(j) == Some(Snap())
    {
      SnapshotJsonRoundTrip(Snap());
      SnapshotToJson(Snap())
    }
  }
}
