/**
 The ordered teardown of a tenant's deployment: the policy engine, then the gateway stack, then the
 agent stack.  Whether a stack is gone is asked under the last segment of its id, which of a stack's
 whole id is not the stack's name.
 */
module TenantDeprovision {
  import opened Calls
  import opened Strings
  import opened StackStatuses
  import opened StackIds
  import opened PolicyTeardown

  datatype Kind = McpGateway | Agent

  /** What a kind's teardown ended with, when it did not work. */
  datatype Problem = RequestFailed(kind: Kind) | StackDeleteFailed(kind: Kind) | WaitTimedOut(kind: Kind)

  datatype Phase = Started | Finished | FailedWith(errors: seq<Problem>)

  datatype Wait = Deleted | DeletionFailed | TimedOut

  datatype Stack = Stack(name: string, id: string)

  /** A stack is described under its name or under its whole id. */
  predicate Called(stack: Stack, name: string) {
    stack.name == name || stack.id == name
  }

  ghost predicate NoneCalled(stacks: set<Stack>, name: string) {
    forall stack <- stacks :: !Called(stack, name)
  }

  /** What a run did, and what it was answered; a delete request with the stacks that stood when it was made. */
  datatype Action =
    | Sent(phase: Phase)
    | LookedUp(kind: Kind, useCaseId: string, stackId: Call<Option<string>>)
    | AskedDelete(kind: Kind, useCaseId: string, standing: set<Stack>, accepted: Call<bool>)
    | Awaited(id: string, outcome: Call<Wait>)

  /** The worker describes a stack under the last segment of its id. */
  function StackName(id: string): string {
    LastSegment(id)
  }

  /** The deployment API and the stacks.  A stack that is gone stays gone. */
  class Deployments {
    var stacks: set<Stack>
    var now: nat
    ghost var trace: seq<Action>
    // How many calls threw.
    ghost var faults: nat

    constructor (stacks: set<Stack>)
      ensures this.stacks == stacks && trace == [] && faults == 0
    {
      this.stacks, now, trace, faults := stacks, 0, [], 0;
    }

    method Pass(ms: nat)
      modifies this`now, this`stacks
      ensures now >= old(now) + ms && stacks <= old(stacks)
    {
      now := now + ms;
      var gone: set<Stack> := *;
      stacks := stacks - gone;
    }

    method Call() returns (throws: bool)
      modifies this`now, this`stacks, this`faults
      ensures now >= old(now) && stacks <= old(stacks)
      ensures faults == old(faults) + if throws then 1 else 0
    {
      Pass(0);
      throws := *;
      faults := faults + if throws then 1 else 0;
    }

    /** None when no such stack exists.  Nothing but a stack that is gone reads as deleted, or is not found. */
    method Describe(name: string) returns (r: Call<Option<StackStatus>>)
      modifies this`now, this`stacks, this`faults
      ensures now >= old(now) && stacks <= old(stacks)
      ensures SaysGone(r) ==> NoneCalled(stacks, name)
      ensures NoneCalled(old(stacks), name) ==> r.Thrown? || SaysGone(r)
      ensures faults == old(faults) + if r.Thrown? then 1 else 0
    {
      var throws := Call();
      if throws { return Thrown("describe failed"); }
      var status: StackStatus, found: bool := *, *;
      if exists stack <- stacks :: Called(stack, name) {
        r := Answer(Some(if status.DeleteComplete? then DeleteInProgress else status));
      } else {
        r := Answer(if found then Some(DeleteComplete) else None);
      }
    }

    method Emit(phase: Phase) returns (throws: bool)
      modifies this`now, this`stacks, this`trace, this`faults
      ensures now >= old(now) && stacks <= old(stacks)
      ensures trace == if throws then old(trace) else old(trace) + [Sent(phase)]
      ensures faults == old(faults) + if throws then 1 else 0
    {
      throws := Call();
      if !throws { trace := trace + [Sent(phase)]; }
    }

    /** The stack id of the use case, when the API knows it. */
    method GetStackId(kind: Kind, useCaseId: string) returns (r: Call<Option<string>>)
      modifies this`now, this`stacks, this`trace, this`faults
      ensures now >= old(now) && stacks <= old(stacks)
      ensures r.Answer? && r.value.Some? ==> r.value.value != ""
      ensures trace == old(trace) + [LookedUp(kind, useCaseId, r)]
      ensures faults == old(faults) + if r.Thrown? then 1 else 0
    {
      var throws := Call();
      var id: string := *;
      r := if throws then Thrown("get failed") else Answer(if id == "" then None else Some(id));
      trace := trace + [LookedUp(kind, useCaseId, r)];
    }

    /** Whether the delete request was accepted. */
    method PermanentDelete(kind: Kind, useCaseId: string) returns (r: Call<bool>)
      modifies this`now, this`stacks, this`trace, this`faults
      ensures now >= old(now) && stacks <= old(stacks)
      ensures trace == old(trace) + [AskedDelete(kind, useCaseId, old(stacks), r)]
      ensures faults == old(faults) + if r.Thrown? then 1 else 0
    {
      ghost var standing := stacks;
      var throws := Call();
      var ok: bool := *;
      r := if throws then Thrown("delete failed") else Answer(ok);
      trace := trace + [AskedDelete(kind, useCaseId, standing, r)];
    }
  }

  // ---------- Waiting for a stack to be gone ----------

  /** The stack does not exist, or is described as deleted. */
  ghost predicate SaysGone(described: Call<Option<StackStatus>>) {
    described == Answer(None) || described == Answer(Some(DeleteComplete))
  }

  /** The description ends the wait. */
  ghost predicate Decides(described: Call<Option<StackStatus>>) {
    described.Thrown? || SaysGone(described) || described == Answer(Some(DeleteFailed))
  }

  /** No stack is called by the last segment of the id, if that is not blank. */
  ghost predicate Confirmed(stackId: string, stacks: set<Stack>) {
    StackName(stackId) == "" || NoneCalled(stacks, StackName(stackId))
  }

  /**
   The first description that throws, says the stack is gone or names DELETE_FAILED decides; without one
   the wait uses up its budget.  When no stack is called by the last segment of the id, the wait is over
   with the first description, whether the stack of that id is gone or not.
   */
  method WaitForStackDeletion(s: Deployments, stackId: string, maxWait: nat, interval: nat)
    returns (r: Call<Wait>, ghost seen: seq<Call<Option<StackStatus>>>)
    requires interval > 0
    modifies s`now, s`stacks, s`faults
    ensures s.now >= old(s.now) && s.stacks <= old(s.stacks)
    ensures forall k :: 0 <= k < |seen| - 1 ==> !Decides(seen[k])
    ensures StackName(stackId) == "" ==> seen == [] && r == Answer(Deleted)
    ensures StackName(stackId) != "" ==>
              if seen != [] && Decides(seen[|seen|-1]) then
                match seen[|seen|-1]
                case Thrown(message) => r == Thrown(message)
                case Answer(status) => r == Answer(if status == Some(DeleteFailed) then DeletionFailed else Deleted)
              else r == Answer(TimedOut) && s.now >= old(s.now) + maxWait
    ensures r == Answer(Deleted) ==> Confirmed(stackId, s.stacks)
    ensures Confirmed(stackId, old(s.stacks)) && maxWait > 0 ==> |seen| <= 1 && (r.Thrown? || r == Answer(Deleted))
    ensures s.faults == old(s.faults) + if r.Thrown? then 1 else 0
  {
    seen := [];
    var name := StackName(stackId);
    if name == "" { return Answer(Deleted), seen; }
    var deadline := s.now + maxWait;
    while s.now < deadline
      invariant s.now >= old(s.now) && s.stacks <= old(s.stacks) && s.faults == old(s.faults)
      invariant forall k :: 0 <= k < |seen| ==> !Decides(seen[k])
      invariant Confirmed(stackId, old(s.stacks)) ==> seen == [] && (maxWait > 0 ==> s.now < deadline)
      decreases deadline - s.now
    {
      var described := s.Describe(name);
      seen := seen + [described];
      if described.Thrown? { return Thrown(described.message), seen; }
      if described.value.None? || described.value.value.DeleteComplete? { return Answer(Deleted), seen; }
      if described.value.value.DeleteFailed? { return Answer(DeletionFailed), seen; }
      s.Pass(interval);
    }
    r := Answer(TimedOut);
  }

  /**
   A wait that answered `Deleted` says of a stack that it is gone if and only if the last segment of its
   id is its name, or all of its id.
   */
  lemma ConfirmedIsGone(stack: Stack)
    ensures (forall stacks: set<Stack> :: Confirmed(stack.id, stacks) ==> stack !in stacks)
            <==> StackName(stack.id) != "" && Called(stack, StackName(stack.id))
  {
    hide StackName;
    if StackName(stack.id) == "" || !Called(stack, StackName(stack.id)) {
      assert Confirmed(stack.id, {stack});
    }
  }

  /** So a stack is awaited under its whole id only if the service gave it its own name for a uuid. */
  lemma WholeIdIsNotAwaited(prefix: string, name: string, uuid: string)
    requires '/' !in uuid
    ensures var stack := Stack(name, WholeId(prefix, name, uuid));
            && StackName(stack.id) == uuid
            && ((forall stacks: set<Stack> :: Confirmed(stack.id, stacks) ==> stack !in stacks) <==> uuid != "" && name == uuid)
  {
    var stack := Stack(name, WholeId(prefix, name, uuid));
    SegmentReads(prefix, name, uuid);
    ConfirmedIsGone(stack);
    assert |stack.id| > |uuid|;
  }

  /** A gateway's stack that stands, and that the wait takes for gone. */
  lemma StandingIsConfirmed()
    ensures var gateway := Stack("gw-1", "arn:aws:cloudformation:eu-west-1:1:stack/gw-1/0a1b");
            StackName(gateway.id) == "0a1b" && Confirmed(gateway.id, {gateway})
  {
    var prefix := "arn:aws:cloudformation:eu-west-1:1";
    assert WholeId(prefix, "gw-1", "0a1b") == "arn:aws:cloudformation:eu-west-1:1:stack/gw-1/0a1b";
    assert "0a1b" == ['0', 'a', '1', 'b'];
    SegmentReads(prefix, "gw-1", "0a1b");
  }

  // ---------- One kind ----------

  /** The actions of one kind's teardown: its stack id asked for, its use case deleted, the deletion awaited when the id is known. */
  ghost predicate InTurn(did: seq<Action>, kind: Kind, useCaseId: string, threw: bool) {
    && 1 <= |did| <= 3
    && did[0].LookedUp? && did[0].kind == kind && did[0].useCaseId == useCaseId
    && (|did| > 1 ==> did[0].stackId.Answer? && did[1].AskedDelete? && did[1].kind == kind && did[1].useCaseId == useCaseId)
    && (|did| > 2 ==> Awaits(did) && did[2].Awaited? && did[2].id == did[0].stackId.value.value)
    && (threw <==> Threw(did[|did|-1]))
    && (!threw ==> |did| == if Awaits(did) then 3 else 2)
  }

  ghost predicate Threw(a: Action) {
    match a
    case Sent(_) => false
    case LookedUp(_, _, stackId) => stackId.Thrown?
    case AskedDelete(_, _, _, accepted) => accepted.Thrown?
    case Awaited(_, outcome) => outcome.Thrown?
  }

  /** The request was accepted and the stack's id is known. */
  ghost predicate Awaits(did: seq<Action>) {
    |did| >= 2 && did[0].LookedUp? && did[1].AskedDelete? && did[1].accepted == Answer(true) && did[0].stackId.Answer? && did[0].stackId.value.Some?
  }

  /** The request was accepted, or was for a gateway whose stack id is not known, and the wait, if it was made, answered `Deleted`. */
  ghost predicate Worked(did: seq<Action>) {
    && |did| >= 2 && did[0].LookedUp? && did[1].AskedDelete?
    && (did[1].accepted == Answer(true) || (did[1].kind == McpGateway && did[0].stackId == Answer(None)))
    && (|did| == 3 ==> did[2].Awaited? && did[2].outcome == Answer(Deleted))
  }

  /** The error pushed is that of the last action: the refused request, or the wait that did not answer `Deleted`. */
  ghost predicate IsFrom(problem: Problem, kind: Kind, did: seq<Action>) {
    && did != [] && problem.kind == kind
    && (problem.RequestFailed? <==> did[|did|-1].AskedDelete? && did[|did|-1].accepted == Answer(false))
    && (problem.StackDeleteFailed? <==> did[|did|-1].Awaited? && did[|did|-1].outcome == Answer(DeletionFailed))
    && (problem.WaitTimedOut? <==> did[|did|-1].Awaited? && did[|did|-1].outcome == Answer(TimedOut))
  }

  /**
   One kind's stack: its id is asked for, its use case deleted, and the deletion awaited when the id
   is known.  An error is pushed exactly when that did not work.
   */
  method TearDownStack(s: Deployments, kind: Kind, useCaseId: string, errors: seq<Problem>)
    returns (threw: bool, errors': seq<Problem>, ghost did: seq<Action>)
    modifies s
    ensures s.now >= old(s.now) && s.stacks <= old(s.stacks)
    ensures s.trace == old(s.trace) + did && InTurn(did, kind, useCaseId, threw)
    ensures s.faults == old(s.faults) + if threw then 1 else 0
    ensures threw ==> errors' == errors
    ensures !threw ==> if Worked(did) then errors' == errors
                       else |errors'| == |errors| + 1 && errors <= errors' && IsFrom(errors'[|errors|], kind, did)
    ensures |did| == 3 && did[2].outcome == Answer(Deleted) ==> Confirmed(did[2].id, s.stacks)
    ensures |did| > 1 ==> did[1].standing <= old(s.stacks)
    ensures |did| == 3 && did[2].outcome == Answer(TimedOut) ==> s.now >= old(s.now) + 720_000
  {
    hide Confirmed;
    threw, errors' := true, errors;
    ghost var trace := s.trace;
    var stackId := s.GetStackId(kind, useCaseId);
    did := [LookedUp(kind, useCaseId, stackId)];
    if stackId.Thrown? { return; }
    ghost var standing := s.stacks;
    var deleted := s.PermanentDelete(kind, useCaseId);
    did := did + [AskedDelete(kind, useCaseId, standing, deleted)];
    if deleted.Thrown? { return; }
    if !deleted.value {
      // A gateway without a known stack counts as already deleted.
      if kind == Agent || stackId.value.Some? { errors' := errors' + [RequestFailed(kind)]; }
    } else if stackId.value.Some? {
      var wait;
      ghost var seen;
      wait, seen := WaitForStackDeletion(s, stackId.value.value, 720_000, 15_000);
      did := did + [Awaited(stackId.value.value, wait)];
      s.trace := s.trace + [Awaited(stackId.value.value, wait)];
      if wait.Thrown? { return; }
      if wait.value.DeletionFailed? {
        errors' := errors' + [StackDeleteFailed(kind)];
      } else if wait.value.TimedOut? {
        errors' := errors' + [WaitTimedOut(kind)];
      }
    }
    threw := false;
  }

  // ---------- Both kinds ----------

  /**
   The gateway's teardown if there is one, then the agent's if there is one and the gateway's worked.  The
   run throws exactly when an action of theirs does.
   */
  ghost predicate Ordered(gateway: seq<Action>, agent: seq<Action>, agentId: string, mcpId: string, threw: bool) {
    && (if mcpId == "" then gateway == [] else exists t: bool :: InTurn(gateway, McpGateway, mcpId, t))
    && (if agentId != "" && (mcpId == "" || (!Threw(gateway[|gateway|-1]) && Worked(gateway)))
        then exists t: bool :: InTurn(agent, Agent, agentId, t) else agent == [])
    && (threw <==> (gateway != [] && Threw(gateway[|gateway|-1])) || (agent != [] && Threw(agent[|agent|-1])))
  }

  /** No error was recorded exactly when all worked; otherwise it is the one of the last action. */
  ghost predicate RightErrors(errors: seq<Problem>, gateway: seq<Action>, agent: seq<Action>) {
    if (gateway != [] ==> Worked(gateway)) && (agent != [] ==> Worked(agent)) then errors == []
    else |errors| == 1 && (if agent != [] then IsFrom(errors[0], Agent, agent) else IsFrom(errors[0], McpGateway, gateway))
  }

  /** The agent's delete is asked for only once the gateway's stack, where it was awaited, is confirmed gone. */
  ghost predicate GatewayFirst(gateway: seq<Action>, agent: seq<Action>) {
    |agent| > 1 && agent[1].AskedDelete? && |gateway| == 3 && gateway[2].Awaited? ==>
      gateway[2].outcome == Answer(Deleted) && Confirmed(gateway[2].id, agent[1].standing)
  }

  /**
   So the gateway's stack is gone when the agent's delete is asked for, as the worker means it to be, where
   the stack is called by the last segment of its id, and for no other stack does this follow.
   */
  lemma AgentAskedBehindGateway(stack: Stack)
    ensures (forall gateway: seq<Action>, agent: seq<Action> ::
               && GatewayFirst(gateway, agent) && |agent| > 1 && agent[1].AskedDelete?
               && |gateway| == 3 && gateway[2].Awaited? && gateway[2].id == stack.id
               ==> stack !in agent[1].standing)
            <==> StackName(stack.id) != "" && Called(stack, StackName(stack.id))
  {
    hide StackName, Called;
    ConfirmedIsGone(stack);
    if StackName(stack.id) == "" || !Called(stack, StackName(stack.id)) {
      var stacks: set<Stack> :| Confirmed(stack.id, stacks) && stack in stacks;
      var looked := LookedUp(McpGateway, "gw", Answer(Some(stack.id)));
      var gateway := [looked, AskedDelete(McpGateway, "gw", stacks, Answer(true)), Awaited(stack.id, Answer(Deleted))];
      var agent := [LookedUp(Agent, "ag", Answer(None)), AskedDelete(Agent, "ag", stacks, Answer(true))];
      assert GatewayFirst(gateway, agent);
      assert agent[1].standing == stacks;
    }
  }

  ghost predicate StackConfirmed(did: seq<Action>, stacks: set<Stack>) {
    |did| == 3 && did[2].Awaited? ==> Confirmed(did[2].id, stacks)
  }

  lemma StillConfirmed(stackId: string, stacks: set<Stack>, later: set<Stack>)
    requires Confirmed(stackId, stacks) && later <= stacks
    ensures Confirmed(stackId, later)
  {
  }

  /** Both stacks, in order; the agent's only when no error was recorded before. */
  method TearDownStacks(s: Deployments, agentId: string, mcpId: string)
    returns (threw: bool, errors: seq<Problem>, ghost gateway: seq<Action>, ghost agent: seq<Action>)
    modifies s
    ensures s.stacks <= old(s.stacks)
    ensures s.trace == old(s.trace) + gateway + agent && Ordered(gateway, agent, agentId, mcpId, threw)
    ensures s.faults == old(s.faults) + if threw then 1 else 0
    ensures !threw ==> RightErrors(errors, gateway, agent)
    ensures GatewayFirst(gateway, agent)
    ensures !threw && |errors| == 0 ==> StackConfirmed(gateway, s.stacks) && StackConfirmed(agent, s.stacks)
  {
    hide InTurn, Worked, IsFrom, Threw, Confirmed;
    threw, errors, gateway, agent := false, [], [], [];
    if mcpId != "" {
      threw, errors, gateway := TearDownStack(s, McpGateway, mcpId, errors);
      StackAwaited(gateway, McpGateway, mcpId, threw);
      if threw { return; }
    }
    if agentId != "" && |errors| == 0 {
      ghost var between := s.stacks;
      threw, errors, agent := TearDownStack(s, Agent, agentId, errors);
      StackAwaited(agent, Agent, agentId, threw);
      if |gateway| == 3 {
        if |agent| > 1 { StillConfirmed(gateway[2].id, between, agent[1].standing); }
        StillConfirmed(gateway[2].id, between, s.stacks);
      }
    }
  }

  lemma StackAwaited(did: seq<Action>, kind: Kind, useCaseId: string, threw: bool)
    requires InTurn(did, kind, useCaseId, threw)
    ensures did != [] && (threw <==> Threw(did[|did|-1]))
    ensures |did| > 1 ==> did[1].AskedDelete?
    ensures |did| == 3 ==> did[2].Awaited? && (Worked(did) ==> did[2].outcome == Answer(Deleted))
  {
  }

  // ---------- The run ----------

  /** What a run did of the events and the stacks. */
  ghost predicate Ran(before: seq<Action>, after: seq<Action>, agentId: string, mcpId: string, threw: bool, errors: seq<Problem>,
                      gateway: seq<Action>, agent: seq<Action>, stacks: set<Stack>) {
    && (after != before ==>
          exists stopped: bool :: Ordered(gateway, agent, agentId, mcpId, stopped) && GatewayFirst(gateway, agent) && (stopped ==> threw))
    && (threw ==> after == before || after == before + [Sent(Started)] + gateway + agent)
    && (!threw ==>
          && after == before + [Sent(Started)] + gateway + agent + [Sent(if |errors| > 0 then FailedWith(errors) else Finished)]
          && RightErrors(errors, gateway, agent)
          && (|errors| == 0 ==> StackConfirmed(gateway, stacks) && StackConfirmed(agent, stacks)))
  }

  /**
   The agent's delete is never asked for when the gateway's stack is awaited and not confirmed gone, at
   most one error is recorded, and a normal return has sent `started` and then exactly one of `finished`
   and `failed`: `finished` exactly when each delete request was accepted, or was for a gateway whose stack
   id is not known, and each wait answered `Deleted`.  A failed teardown of the policy engine does not stop
   the run.
   */
  method RunTenantDeprovision(s: Deployments, c: Control, instanceId: string, agentId: string, mcpId: string)
    returns (threw: bool, errors: seq<Problem>, ghost gateway: seq<Action>, ghost agent: seq<Action>,
             ghost policy: Result<()>, ghost target: Option<EngineId>, ghost named: Option<GatewayId>)
    requires instanceId != "" && c.Valid()
    modifies s, c
    ensures c.Valid()
    ensures Ran(old(s.trace), s.trace, agentId, mcpId, threw, errors, gateway, agent, s.stacks)
    ensures s.faults == old(s.faults) + if threw then 1 else 0
    ensures if s.trace == old(s.trace) then c.gateways == old(c.gateways) && c.engines == old(c.engines) && c.policies == old(c.policies)
            else EngineTornDown(old(c.gateways), old(c.engines), old(c.policies), c.gateways, c.engines, c.policies,
                                c.honest, instanceId, mcpId, policy, target, named)
  {
    hide Control.Valid, EngineTornDown, Ordered, RightErrors, GatewayFirst, StackConfirmed;
    errors, gateway, agent, policy, target, named := [], [], [], Err(OtherError), None, None;
    threw := s.Emit(Started);
    if threw { return; }
    // After a success the policy metadata of the agent's use case is cleared, best-effort; a failure is logged only.
    policy, target, named := TeardownWorkspacePolicyEngine(c, instanceId, mcpId);
    ghost var stopped;
    threw, errors, gateway, agent := TearDownStacks(s, agentId, mcpId);
    stopped := threw;
    assert Ordered(gateway, agent, agentId, mcpId, stopped);
    assert |s.trace| > |old(s.trace)|;
    if threw { return; }
    ghost var stacks := s.stacks;
    threw := s.Emit(if |errors| > 0 then FailedWith(errors) else Finished);
    StacksStillConfirmed(gateway, stacks, s.stacks);
    StacksStillConfirmed(agent, stacks, s.stacks);
  }

  lemma StacksStillConfirmed(did: seq<Action>, stacks: set<Stack>, later: set<Stack>)
    requires later <= stacks
    ensures StackConfirmed(did, stacks) ==> StackConfirmed(did, later)
  {
  }

  /** When a run sends `finished`, everything asked for was accepted and every wait answered `Deleted`. */
  lemma FinishedMeansWorked(before: seq<Action>, after: seq<Action>, agentId: string, mcpId: string, errors: seq<Problem>,
                            gateway: seq<Action>, agent: seq<Action>, stacks: set<Stack>)
    requires Ran(before, after, agentId, mcpId, false, errors, gateway, agent, stacks)
    ensures var finished := after[|after|-1] == Sent(Finished);
            && (finished <==> (mcpId != "" ==> Worked(gateway)) && (agentId != "" ==> Worked(agent)))
            && (finished && agentId != "" ==> agent[1].AskedDelete? && agent[1].useCaseId == agentId && agent[1].accepted == Answer(true))
            && (finished && mcpId != "" ==> && gateway[1].AskedDelete? && gateway[1].useCaseId == mcpId
                                            && (gateway[1].accepted == Answer(true) || gateway[0] == LookedUp(McpGateway, mcpId, Answer(None))))
  {
    hide Threw, IsFrom, GatewayFirst, StackConfirmed;
    assert after[|after|-1] == Sent(if |errors| > 0 then FailedWith(errors) else Finished);
  }

  /** The event's handler: a request without a use case or an instance does nothing. */
  method HandleDeprovisionRequested(s: Deployments, c: Control, version: string, instanceId: string, agentId: string, mcpId: string)
    returns (threw: bool, ghost errors: seq<Problem>, ghost gateway: seq<Action>, ghost agent: seq<Action>,
             ghost policy: Result<()>, ghost target: Option<EngineId>, ghost named: Option<GatewayId>)
    requires c.Valid()
    modifies s, c
    ensures c.Valid()
    ensures s.faults == old(s.faults) + if threw then 1 else 0
    ensures version != "1" || instanceId == "" || (agentId == "" && mcpId == "") ==>
              !threw && s.trace == old(s.trace) && c.gateways == old(c.gateways) && c.engines == old(c.engines) && c.policies == old(c.policies)
    ensures version == "1" && instanceId != "" && (agentId != "" || mcpId != "") ==>
              && Ran(old(s.trace), s.trace, agentId, mcpId, threw, errors, gateway, agent, s.stacks)
              && (s.trace != old(s.trace) ==>
                    EngineTornDown(old(c.gateways), old(c.engines), old(c.policies), c.gateways, c.engines, c.policies,
                                   c.honest, instanceId, mcpId, policy, target, named))
  {
    hide Control.Valid, EngineTornDown, Ran;
    errors, gateway, agent, policy, target, named := [], [], [], Err(OtherError), None, None;
    if version != "1" || (agentId == "" && mcpId == "") || instanceId == "" { return false, errors, gateway, agent, policy, target, named; }
    threw, errors, gateway, agent, policy, target, named := RunTenantDeprovision(s, c, instanceId, agentId, mcpId);
  }
}
