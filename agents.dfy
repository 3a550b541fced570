/** The language-model backends (src/models/base.py `generate_response`),
    seen from the experiment: a script of replies, one per call. */
module Agents {
  import opened Text

  /** What one `generate_response` call produces: the model's text, or an
      exception (network failure, refusal, quota). */
  datatype Reply = Response(body: PyStr) | Raises

  /** The replies an agent will give, in call order; calls beyond the end
      of the script raise. */
  type Script = seq<Reply>

  /** An agent: its script and the number of calls it has answered. */
  datatype Agent = Agent(script: Script, calls: nat)

  /** The reply to the `n`-th call from now (counting from 0). */
  function ReplyAt(agent: Agent, n: nat): Reply {
    if agent.calls + n < |agent.script| then agent.script[agent.calls + n] else Raises
  }

  /** The agent after `n` more calls. */
  function Advance(agent: Agent, n: nat): Agent {
    Agent(agent.script, agent.calls + n)
  }
}
