/** The payoff matrix of the Prisoner's Dilemma (src/game/payoffs.py). */
module Payoffs {
  import opened Wrappers
  import opened Text

  const Cooperate: PyStr := Lit("Cooperate")
  const Defect: PyStr := Lit("Defect")

  /** Membership in `[COOPERATE, DEFECT]`: exact, case-sensitive. */
  predicate IsAction(a: PyStr) {
    a == Cooperate || a == Defect
  }

  /** A payoff dictionary: ordered action pair to (payoff1, payoff2). */
  type Table = map<(PyStr, PyStr), (int, int)>

  const DefaultPayoffs: Table := map[
    (Cooperate, Cooperate) := (3, 3),
    (Cooperate, Defect) := (0, 5),
    (Defect, Cooperate) := (5, 0),
    (Defect, Defect) := (1, 1)]

  datatype PayoffError =
    | InvalidAction(player: nat, action: PyStr)   // the ValueError of get_payoffs
    | MissingEntry(action1: PyStr, action2: PyStr) // KeyError: a hand-built table without that pair
    | MissingConfigKey(key: PyStr)                 // KeyError raised by from_config

  datatype PayoffMatrix = PayoffMatrix(payoffs: Table)

  /** Every one of the four ordered action pairs has an entry. */
  predicate Total(t: Table) {
    && (Cooperate, Cooperate) in t && (Cooperate, Defect) in t
    && (Defect, Cooperate) in t && (Defect, Defect) in t
  }

  /** `PayoffMatrix(payoffs)`: the given table, or a copy of the default one. */
  function NewPayoffMatrix(payoffs: Option<Table>): (m: PayoffMatrix)
    ensures payoffs.None? ==> Total(m.payoffs)
    ensures payoffs.None? ==> m.payoffs[(Cooperate, Cooperate)] == (3, 3) && m.payoffs[(Cooperate, Defect)] == (0, 5)
    ensures payoffs.None? ==> m.payoffs[(Defect, Cooperate)] == (5, 0) && m.payoffs[(Defect, Defect)] == (1, 1)
    ensures payoffs.Some? ==> m.payoffs == payoffs.value
  {
    match payoffs
    case Some(t) => PayoffMatrix(t)
    case None => PayoffMatrix(DefaultPayoffs)
  }

  /** `get_payoffs(action1, action2)`: player 1's action is checked first,
      then player 2's, then the table is consulted. */
  function GetPayoffs(m: PayoffMatrix, action1: PyStr, action2: PyStr): (r: Result<(int, int), PayoffError>)
    ensures !IsAction(action1) ==> r == Failure(InvalidAction(1, action1))
    ensures IsAction(action1) && !IsAction(action2) ==> r == Failure(InvalidAction(2, action2))
    ensures r.Success? <==> IsAction(action1) && IsAction(action2) && (action1, action2) in m.payoffs
    ensures r.Success? ==> r.value == m.payoffs[(action1, action2)]
  {
    if !IsAction(action1) then Failure(InvalidAction(1, action1))
    else if !IsAction(action2) then Failure(InvalidAction(2, action2))
    else if (action1, action2) !in m.payoffs then Failure(MissingEntry(action1, action2))
    else Success(m.payoffs[(action1, action2)])
  }

  /** A table built with all four entries answers every valid lookup: a
      complete matrix never fails at lookup time. */
  lemma TotalNeverFailsOnValidActions(m: PayoffMatrix, action1: PyStr, action2: PyStr)
    requires Total(m.payoffs)
    ensures GetPayoffs(m, action1, action2).Success? <==> IsAction(action1) && IsAction(action2)
  {
  }

  /** The default matrix, entry by entry. */
  lemma DefaultLookups()
    ensures GetPayoffs(NewPayoffMatrix(None), Cooperate, Cooperate) == Success((3, 3))
    ensures GetPayoffs(NewPayoffMatrix(None), Cooperate, Defect) == Success((0, 5))
    ensures GetPayoffs(NewPayoffMatrix(None), Defect, Cooperate) == Success((5, 0))
    ensures GetPayoffs(NewPayoffMatrix(None), Defect, Defect) == Success((1, 1))
  {
  }

  /** The match is case-sensitive: "cooperate" is not an action. */
  lemma LowerCaseRejected(m: PayoffMatrix, other: PyStr)
    ensures GetPayoffs(m, Lit("cooperate"), other) == Failure(InvalidAction(1, Lit("cooperate")))
  {
    LitInjective("cooperate", "Cooperate");
    LitInjective("cooperate", "Defect");
  }

  const KeyCC: PyStr := Lit("cooperate_cooperate")
  const KeyCD: PyStr := Lit("cooperate_defect")
  const KeyDC: PyStr := Lit("defect_cooperate")
  const KeyDD: PyStr := Lit("defect_defect")

  /** The configuration key that `from_config` reads for an ordered pair. */
  function ConfigKey(action1: PyStr, action2: PyStr): PyStr
    requires IsAction(action1) && IsAction(action2)
  {
    if action1 == Cooperate then (if action2 == Cooperate then KeyCC else KeyCD)
    else (if action2 == Cooperate then KeyDC else KeyDD)
  }

  /** The payoff section of the configuration: key to payoff pair. */
  type PayoffConfig = map<PyStr, (int, int)>

  predicate HasAllKeys(config: PayoffConfig) {
    KeyCC in config && KeyCD in config && KeyDC in config && KeyDD in config
  }

  /** `PayoffMatrix.from_config(config)`: the four keys are read in order,
      and the first missing one aborts construction. */
  function FromConfig(config: PayoffConfig): (r: Result<PayoffMatrix, PayoffError>)
    ensures r.Success? <==> HasAllKeys(config)
    ensures r.Success? ==> Total(r.value.payoffs) && |r.value.payoffs| == 4
    ensures r.Success? ==>
              && r.value.payoffs[(Cooperate, Cooperate)] == config[KeyCC]
              && r.value.payoffs[(Cooperate, Defect)] == config[KeyCD]
              && r.value.payoffs[(Defect, Cooperate)] == config[KeyDC]
              && r.value.payoffs[(Defect, Defect)] == config[KeyDD]
    ensures KeyCC !in config ==> r == Failure(MissingConfigKey(KeyCC))
    ensures KeyCC in config && KeyCD !in config ==> r == Failure(MissingConfigKey(KeyCD))
    ensures KeyCC in config && KeyCD in config && KeyDC !in config ==> r == Failure(MissingConfigKey(KeyDC))
    ensures KeyCC in config && KeyCD in config && KeyDC in config && KeyDD !in config ==> r == Failure(MissingConfigKey(KeyDD))
  {
    if KeyCC !in config then Failure(MissingConfigKey(KeyCC))
    else if KeyCD !in config then Failure(MissingConfigKey(KeyCD))
    else if KeyDC !in config then Failure(MissingConfigKey(KeyDC))
    else if KeyDD !in config then Failure(MissingConfigKey(KeyDD))
    else
      var t := map[
        (Cooperate, Cooperate) := config[KeyCC],
        (Cooperate, Defect) := config[KeyCD],
        (Defect, Cooperate) := config[KeyDC],
        (Defect, Defect) := config[KeyDD]];
      assert t.Keys == {(Cooperate, Cooperate), (Cooperate, Defect), (Defect, Cooperate), (Defect, Defect)};
      Success(PayoffMatrix(t))
  }

  /** A matrix built from a configuration has no missing entry, so every
      lookup with two valid actions succeeds and yields the configured pair. */
  lemma FromConfigLookups(config: PayoffConfig, action1: PyStr, action2: PyStr)
    requires FromConfig(config).Success?
    requires IsAction(action1) && IsAction(action2)
    ensures GetPayoffs(FromConfig(config).value, action1, action2).Success?
    ensures GetPayoffs(FromConfig(config).value, action1, action2).value == config[ConfigKey(action1, action2)]
  {
    TotalNeverFailsOnValidActions(FromConfig(config).value, action1, action2);
  }
}
