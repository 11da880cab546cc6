/** Who makes a request. A caller names itself; only the one name of an agent is limited. */
module Callers {
  import opened Options

  type Caller = Option<string>

  const AGENT_CALLER := "mcp"

  /** Anything but the agent's own name, a missing name included, is a person. */
  predicate IsAgent(caller: Caller) {
    caller == Some(AGENT_CALLER)
  }

  /** An agent may act only on what an agent submitted; a person is never limited. */
  predicate EntryPermitted(submittedBy: Caller, caller: Caller) {
    IsAgent(caller) ==> IsAgent(submittedBy)
  }
}
