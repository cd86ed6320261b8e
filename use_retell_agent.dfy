/** The agent deployment hook of src/hooks/useRetellAgent.ts: the `config` and `loading` state
    that `deployAgent` and `stopAgent` move through while awaiting the Retell service. Each
    service call is a parameter giving the outcome it settles with. */
module UseRetellAgent {
  import opened Wrappers
  import Types

  datatype AgentStatus = AgentInactive | AgentDeploying | AgentActive | AgentError

  /** A thrown value: an `Error` carries its message; anything else is reported with a fixed
      fallback text. */
  datatype Thrown = ErrorValue(message: string) | OtherValue

  /** How an awaited service call settles. */
  datatype Step<T> = Ok(value: T) | Throws(err: Thrown)

  /** The service calls, in the order issued. */
  datatype Request = CreateAgent(prompt: string) | GetAgent(agentId: string)
                   | CreatePhoneNumber(agentId: string) | DeleteAgent(agentId: string)

  const PromptRequired := "Agent prompt is required. Please configure the prompt first."
  const FailedToInitialize := "Agent failed to initialize"
  const DeployFallback := "Failed to deploy agent"
  const StopFallback := "Failed to stop agent"

  /** `err instanceof Error ? err.message : fallback`. */
  function MessageOf(err: Thrown, fallback: string): string {
    match err
    case ErrorValue(m) => m
    case OtherValue => fallback
  }

  /** What the `try` block of `deployAgent` throws, if anything: the first failing call, or the
      initialization error when the created agent is not `active`. Later calls are not made. */
  function DeployFailure(create: Step<string>, agent: Step<string>, phone: Step<string>)
    : (r: Option<Thrown>)
    ensures r.None? <==> create.Ok? && agent == Ok("active") && phone.Ok?
    ensures create.Throws? ==> r == Some(create.err)
    ensures create.Ok? && agent.Throws? ==> r == Some(agent.err)
    ensures create.Ok? && agent.Ok? && agent.value != "active" ==> r == Some(ErrorValue(FailedToInitialize))
    ensures create.Ok? && agent == Ok("active") && phone.Throws? ==> r == Some(phone.err)
  {
    if create.Throws? then Some(create.err)
    else if agent.Throws? then Some(agent.err)
    else if agent.value != "active" then Some(ErrorValue(FailedToInitialize))
    else if phone.Throws? then Some(phone.err)
    else None
  }

  /** The requests `deployAgent` issues: it stops at the first call that throws, and after a
      status other than `active`. */
  function DeployRequests(prompt: string, create: Step<string>, agent: Step<string>)
    : (r: seq<Request>)
    ensures 1 <= |r| <= 3 && r[0] == CreateAgent(prompt)
    ensures |r| == 1 <==> create.Throws?
    ensures |r| >= 2 ==> create.Ok? && r[1] == GetAgent(create.value)
    ensures |r| == 3 <==> create.Ok? && agent == Ok("active")
    ensures |r| == 3 ==> r[2] == CreatePhoneNumber(create.value)
  {
    if create.Throws? then [CreateAgent(prompt)]
    else if agent.Throws? || agent.value != "active" then [CreateAgent(prompt), GetAgent(create.value)]
    else [CreateAgent(prompt), GetAgent(create.value), CreatePhoneNumber(create.value)]
  }

  class RetellAgent {
    var status: AgentStatus
    var errorMessage: Option<string>
    var phoneNumber: Option<string>
    var agentId: Option<string>
    var loading: bool
    var requests: seq<Request>

    /** The initial state: inactive, with nothing set and nothing loading. */
    constructor ()
      ensures status == AgentInactive && errorMessage == None && phoneNumber == None && agentId == None
      ensures !loading && requests == []
    {
      status := AgentInactive;
      errorMessage := None;
      phoneNumber := None;
      agentId := None;
      loading := false;
      requests := [];
    }

    /** `deployAgent`. Without a prompt it records the error and returns without throwing;
        otherwise it creates the agent, checks its status and creates a phone number, ending
        active on success and in the error state, rethrowing, on failure. */
    method DeployAgent(prompt: Option<string>, create: Step<string>, agent: Step<string>,
                       phone: Step<string>)
      returns (thrown: Option<Thrown>)
      modifies this
      ensures !Types.TruthyString(prompt) ==>
                status == AgentError && errorMessage == Some(PromptRequired) && thrown == None &&
                phoneNumber == old(phoneNumber) && agentId == old(agentId) &&
                loading == old(loading) && requests == old(requests)
      ensures Types.TruthyString(prompt) ==>
                !loading && thrown == DeployFailure(create, agent, phone) &&
                requests == old(requests) + DeployRequests(prompt.value, create, agent)
      ensures Types.TruthyString(prompt) && thrown.None? ==>
                status == AgentActive && errorMessage == None &&
                phoneNumber == Some(phone.value) && agentId == Some(create.value)
      ensures Types.TruthyString(prompt) && thrown.Some? ==>
                status == AgentError && errorMessage == Some(MessageOf(thrown.value, DeployFallback)) &&
                phoneNumber == old(phoneNumber) && agentId == old(agentId)
    {
      if !Types.TruthyString(prompt) {
        status := AgentError;
        errorMessage := Some(PromptRequired);
        thrown := None;
        return;
      }
      loading := true;
      status := AgentDeploying;
      errorMessage := None;
      thrown := None;
      requests := requests + [CreateAgent(prompt.value)];
      if create.Throws? {
        thrown := Some(create.err);
      } else {
        var newId := create.value;
        requests := requests + [GetAgent(newId)];
        if agent.Throws? {
          thrown := Some(agent.err);
        } else if agent.value != "active" {
          thrown := Some(ErrorValue(FailedToInitialize));
        } else {
          requests := requests + [CreatePhoneNumber(newId)];
          if phone.Throws? {
            thrown := Some(phone.err);
          } else {
            status := AgentActive;
            errorMessage := None;
            phoneNumber := Some(phone.value);
            agentId := Some(newId);
          }
        }
      }
      if thrown.Some? {
        status := AgentError;
        errorMessage := Some(MessageOf(thrown.value, DeployFallback));
      }
      loading := false;
    }

    /** `stopAgent`. Without an agent id nothing happens; otherwise the agent is deleted and the
        state returns to the initial one, or, on failure, the error is recorded and rethrown. */
    method StopAgent(delete: Step<()>) returns (thrown: Option<Thrown>)
      modifies this
      ensures !Types.TruthyString(old(agentId)) ==>
                thrown == None && status == old(status) && errorMessage == old(errorMessage) &&
                phoneNumber == old(phoneNumber) && agentId == old(agentId) &&
                loading == old(loading) && requests == old(requests)
      ensures Types.TruthyString(old(agentId)) ==>
                !loading && requests == old(requests) + [DeleteAgent(old(agentId).value)] &&
                (thrown.Some? <==> delete.Throws?)
      ensures Types.TruthyString(old(agentId)) && delete.Ok? ==>
                status == AgentInactive && errorMessage == None && phoneNumber == None && agentId == None
      ensures Types.TruthyString(old(agentId)) && delete.Throws? ==>
                thrown == Some(delete.err) &&
                status == AgentError && errorMessage == Some(MessageOf(delete.err, StopFallback)) &&
                phoneNumber == old(phoneNumber) && agentId == old(agentId)
    {
      thrown := None;
      if !Types.TruthyString(agentId) {
        return;
      }
      loading := true;
      requests := requests + [DeleteAgent(agentId.value)];
      if delete.Ok? {
        status := AgentInactive;
        errorMessage := None;
        phoneNumber := None;
        agentId := None;
      } else {
        status := AgentError;
        errorMessage := Some(MessageOf(delete.err, StopFallback));
        thrown := Some(delete.err);
      }
      loading := false;
    }
  }

  /** A failed redeploy keeps the earlier agent, so a following stop deletes that agent. */
  method RedeployFailureThenStop() returns (requests: seq<Request>)
    ensures requests == [CreateAgent("p"), GetAgent("a1"), CreatePhoneNumber("a1"),
                         CreateAgent("p"), GetAgent("a2"), DeleteAgent("a1")]
  {
    var hook := new RetellAgent();
    var t1 := hook.DeployAgent(Some("p"), Ok("a1"), Ok("active"), Ok("+61 2 0000 0000"));
    var t2 := hook.DeployAgent(Some("p"), Ok("a2"), Ok("registering"), Ok("unused"));
    assert hook.agentId == Some("a1");
    var t3 := hook.StopAgent(Ok(()));
    requests := hook.requests;
  }
}
