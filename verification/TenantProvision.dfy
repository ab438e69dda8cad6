/** One run of the tenant provisioning worker, for any answers of the services it calls. */
module TenantProvision {
  import opened Calls
  import opened StackStatuses
  import opened UseCaseLookup
  import opened ProvisionPolling

  /** The event's fields, trimmed; no agent name when the template lacks a deploy body. */
  datatype Detail = Detail(version: string, tenantId: string, instanceId: string, agentName: Option<string>,
                           hasProviders: bool, gatewayName: string)

  /** The gateway deploy body built from the providers; `Shell` has no targets yet. */
  datatype Built = NotBuilt | WithTargets | Shell

  function AgentQuery(d: Detail): Query
    requires d.agentName.Some?
  {
    Query(d.agentName.value, d.tenantId, "AgentBuilder")
  }

  function GatewayQuery(d: Detail): Query {
    Query(d.gatewayName, d.tenantId, "MCPServer")
  }

  /** Without an instance id nothing is sent. */
  ghost function Sent(d: Detail, es: seq<Event>): seq<Event> {
    if d.instanceId == "" then [] else es
  }

  method NotifyProvisionStatus(p: Platform, d: Detail, e: Event)
    modifies p`events
    ensures p.events == old(p.events) + Sent(d, [e])
  {
    // A failure to emit is logged only.
    if d.instanceId != "" { p.events := p.events + [e]; }
  }

  // ---------- The gateway ----------

  datatype GatewayStep =
    | Gateway(id: Option<string>, server: Option<string>)   // the agent is told of `id`, and given `server`
    | ShellFailed(gateway: string)
    | GatewayThrew

  /** A gateway body with targets or as a shell was built. */
  predicate Deployable(built: Call<Built>) {
    built.Answer? && !built.value.NotBuilt?
  }

  ghost predicate OfKind(rows: seq<Row>, kind: string) {
    forall row <- rows :: row.kind == Some(kind)
  }

  lemma WrittenByGateway(written: seq<Row>, d: Detail)
    requires written == [] || WritesOne(written, DeployGateway(d.gatewayName), d.tenantId)
    ensures OfKind(written, "MCPServer")
  {
  }

  lemma FindingIsNamed(f: Finding, t: Table, t': Table, q: Query)
    requires AnswersSince(f, t, t', q)
    ensures f.Found? ==> f.useCaseId != ""
  {
    hide Grew, FirstId;
  }

  /**
   The gateway id, when one is taken up again or deployed and found.  With a body built, a gateway is
   deployed exactly when the lookup finds nothing to take up.
   */
  method FindOrDeployGateway(p: Platform, d: Detail, built: Call<Built>)
    returns (r: Call<Option<string>>, ghost f: Finding, ghost ds: seq<Deployment>)
    modifies p`now, p`table, p`probed, p`asked, p`lookups, p`deploys, p`searched, p`faults
    ensures p.now >= old(p.now) && old(p.probed) <= p.probed && old(p.searched) <= p.searched && p.faults >= old(p.faults)
    ensures p.lookups == old(p.lookups) + [Lookup(GatewayQuery(d), f)] && AnswersSince(f, old(p.table), p.table, GatewayQuery(d))
    ensures p.deploys == old(p.deploys) + ds
    ensures ds == if CallsForDeploy(f) && Deployable(built) then [DeployGateway(d.gatewayName)] else []
    ensures TakesUp(f) && Deployable(built) ==> r == Answer(Some(f.useCaseId))
    ensures built.Answer? && !Deployable(built) ==> r == Answer(None) || r.Thrown?
    ensures r.Thrown? ==> built.Thrown? || p.faults > old(p.faults)
    ensures CallsForDeploy(f) && Deployable(built) && r == Answer(None) ==>
              p.faults > old(p.faults) || InVain(p.searched, |old(p.searched)|)
    ensures r == Answer(None) || r.Thrown? || built.Answer?
    ensures r.Answer? && r.value.Some? ==>
              r.value.value != "" && NamedSince(old(p.table), p.table, GatewayQuery(d), r.value.value, ds != [])
    ensures Grew(old(p.table), p.table) && OfKind(New(old(p.table), p.table), "MCPServer")
  {
    hide Grew, Arrived, New, FirstId, FirstMatch, UnderNewKeys, AnswersSince, NamesDeployed, NamedSince, OfKind, WritesOne, Resumes;
    ds := [];
    var existing;
    existing, f := FindResumableUseCase(p, GatewayQuery(d));
    ArrivedIsGrown(old(p.table), p.table);
    WrittenByGateway([], d);
    FindingIsNamed(f, old(p.table), p.table, GatewayQuery(d));
    if existing.Thrown? { return Thrown(existing.message), f, ds; }
    match built
    case Thrown(m) => return Thrown(m), f, ds;
    case Answer(NotBuilt) => return Answer(None), f, ds;
    case _ =>
    if existing.value.Resume? { return Answer(Some(existing.value.useCaseId)), f, ds; }
    ds := [DeployGateway(d.gatewayName)];
    ghost var looked := p.table;
    var invoked := p.InvokeDeployApi(DeployGateway(d.gatewayName), d.tenantId);
    NewKeysSince(old(p.table), looked, p.table);
    AnswersStill(f, old(p.table), looked, p.table, GatewayQuery(d));
    WrittenByGateway(New(looked, p.table), d);
    if invoked.Thrown? { return Thrown(invoked.message), f, ds; }
    if invoked.value.Some? { return Answer(None), f, ds; }
    ghost var called := p.table;
    var found, attempts;
    ghost var resolved;
    found, attempts, resolved := ResolveUseCaseIdByName(p, GatewayQuery(d));
    ArrivedLater(called, resolved, p.table);
    ThenArrived(old(p.table), called, p.table);
    ArrivedIsGrown(called, p.table);
    AnswersStill(f, old(p.table), called, p.table, GatewayQuery(d));
    if found.Some? { DeployedIsNamed(old(p.table), called, resolved, p.table, GatewayQuery(d), found.value); }
    if found.None? { TwelveInVain(p.searched, |old(p.searched)|, |p.searched| - 12); }
    r := Answer(found);
  }

  /**
   The wait for a gateway: an empty shell has to be up first.  `shell` is what its poll came to, and `urls`
   what was read of the gateway's URL: the agent is given the gateway as a server exactly when one was read.
   */
  method WaitForGateway(p: Platform, d: Detail, id: string, isShell: bool, startedAt: nat)
    returns (r: GatewayStep, ghost shell: Option<Poll>, ghost urls: seq<string>)
    requires startedAt <= p.now
    modifies p`now, p`table, p`probed, p`asked, p`faults
    ensures p.now >= old(p.now) && old(p.probed) <= p.probed && p.faults >= old(p.faults)
    ensures r == ShellFailed(id) || (r.Gateway? && r.id == Some(id))
    ensures r.ShellFailed? <==> shell.Some? && !shell.value.Ready?
    ensures shell.Some? <==> isShell
    ensures shell.Some? && shell.value.TimedOut? ==> p.now >= old(p.now) + 45_000
    ensures r.ShellFailed? && p.faults == old(p.faults) ==> |p.probed| > |old(p.probed)|
    ensures isShell ==> (r.Gateway? <==> LastShownActive(p.probed, |old(p.probed)|, id))
    ensures r.Gateway? ==> r.server == if urls != [] && urls[|urls|-1] != "" then Some(id) else None
    ensures r.Gateway? && r.server.None? ==> p.now >= old(p.now) + 45_000
    ensures p.now <= old(p.now) + (if isShell then 315_000 + 3 * p.callMs else 0) + 135_000 + 2 * p.callMs
    ensures AllOf(p.probed, |old(p.probed)|, id, d.gatewayName)
    ensures Arrived(old(p.table), p.table)
  {
    hide Arrived, LastShownActive, Span;
    shell, urls := None, [];
    ArrivedAtOnce(p.table);
    if isShell {
      var remaining := RemainingMs(p.now, startedAt);
      var ready;
      ghost var probes;
      ready, probes := WaitForUseCaseReady(p, id, d.gatewayName, if remaining < 300_000 then remaining else 300_000, 15_000);
      shell := Some(ready);
      if !ready.Ready? { return ShellFailed(id), shell, urls; }
    }
    var remaining := RemainingMs(p.now, startedAt);
    var url;
    ghost var before := p.table;
    url, urls := WaitForGatewayUrl(p, if remaining < 120_000 then remaining else 120_000, 15_000);
    ArrivedLater(old(p.table), before, p.table);
    r := Gateway(Some(id), if url.Some? then Some(id) else None);
  }

  /** Finds or deploys the gateway, and waits for it before the agent is deployed with it. */
  method PrepareGateway(p: Platform, d: Detail, built: Call<Built>, startedAt: nat)
    returns (r: GatewayStep, ghost f: Option<Finding>, ghost ds: seq<Deployment>, ghost shell: Option<Poll>, ghost urls: seq<string>)
    requires startedAt <= p.now
    modifies p`now, p`table, p`probed, p`asked, p`lookups, p`deploys, p`searched, p`faults
    ensures p.now >= old(p.now) && old(p.probed) <= p.probed && old(p.searched) <= p.searched && p.faults >= old(p.faults)
    ensures p.lookups == old(p.lookups) + Looked(GatewayQuery(d), f)
    ensures f.Some? <==> d.hasProviders
    ensures f.Some? ==> AnswersSince(f.value, old(p.table), p.table, GatewayQuery(d))
    ensures p.deploys == old(p.deploys) + ds
    ensures ds == if f.Some? && CallsForDeploy(f.value) && Deployable(built) then [DeployGateway(d.gatewayName)] else []
    ensures !d.hasProviders ==> r == Gateway(None, None)
    ensures r.GatewayThrew? ==> built.Thrown? || p.faults > old(p.faults)
    ensures r.ShellFailed? <==> shell.Some? && !shell.value.Ready?
    ensures shell.Some? ==> built == Answer(Shell)
    ensures shell.Some? && shell.value.TimedOut? ==> p.now >= old(p.now) + 45_000
    ensures r.ShellFailed? && p.faults == old(p.faults) ==> !LastShownActive(p.probed, |old(p.probed)|, r.gateway)
    ensures r.Gateway? && r.id.Some? && built == Answer(Shell) ==> LastShownActive(p.probed, |old(p.probed)|, r.id.value)
    ensures r.Gateway? ==> r.server == if r.id.Some? && urls != [] && urls[|urls|-1] != "" then r.id else None
    ensures r.Gateway? && r.id.Some? && r.server.None? ==> p.now >= old(p.now) + 45_000
    ensures !r.GatewayThrew? ==> GatewayAsFound(f, built, GatewayOf(r), p.searched, |old(p.searched)|, p.faults > old(p.faults))
    ensures GatewayOf(r).Some? && d.tenantId != "" ==>
              OwnRow(old(p.table), p.table, GatewayOf(r).value, d.gatewayName, d.tenantId, "MCPServer")
    ensures Grew(old(p.table), p.table) && OfKind(New(old(p.table), p.table), "MCPServer")
  {
    hide Grew, Arrived, AnswersSince, CallsForDeploy, NamedSince, LastShownActive, OwnRow, TakesUp, InVain;
    ds, f, shell, urls := [], None, None, [];
    GrewNothing(p.table);
    if !d.hasProviders { return Gateway(None, None), f, ds, shell, urls; }
    var found;
    ghost var finding;
    found, finding, ds := FindOrDeployGateway(p, d, built);
    f := Some(finding);
    if found.Thrown? { return GatewayThrew, f, ds, shell, urls; }
    if found.value.None? { return Gateway(None, None), f, ds, shell, urls; }
    var id := found.value.value;
    ghost var called, from := p.table, |p.probed|;
    r, shell, urls := WaitForGateway(p, d, id, built.value.Shell?, startedAt);
    ShownLater(p.probed, |old(p.probed)|, from, id);
    ThenArrived(old(p.table), called, p.table);
    ArrivedIsGrown(called, p.table);
    AnswersStill(finding, old(p.table), called, p.table, GatewayQuery(d));
    if d.tenantId != "" {
      NamedHasOwnRow(old(p.table), called, GatewayQuery(d), id, ds != []);
      OwnRowStill(old(p.table), called, p.table, id, d.gatewayName, d.tenantId, "MCPServer");
    }
  }

  /** The gateway the step came to. */
  function GatewayOf(r: GatewayStep): Option<string> {
    match r
    case Gateway(id, _) => id
    case ShellFailed(id) => Some(id)
    case GatewayThrew => None
  }

  /**
   The gateway is the one the lookup took up; it is none without a body; and where the lookup called for a
   deployment, it is none only after a fault or twelve searches in vain.
   */
  ghost predicate GatewayAsFound(f: Option<Finding>, built: Call<Built>, gateway: Option<string>,
                                 searched: seq<Call<Option<string>>>, from: nat, faulty: bool) {
    && (f.None? || !Deployable(built) ==> gateway.None?)
    && (f.Some? && TakesUp(f.value) && Deployable(built) ==> gateway == Some(f.value.useCaseId))
    && (f.Some? && CallsForDeploy(f.value) && Deployable(built) && gateway.None? ==> faulty || InVain(searched, from))
  }

  /** The record of one lookup, if it was made. */
  ghost function Looked(q: Query, f: Option<Finding>): seq<Lookup> {
    match f
    case None => []
    case Some(finding) => [Lookup(q, finding)]
  }

  // ---------- The agent ----------

  datatype AgentStep = Agent(id: string) | AgentFailed | AgentThrew

  /**
   The agent is deployed exactly when the lookup finds nothing to take up: no row matches, or the stack
   of the first matching row does not resume.  An agent named is the first match of the table as it is
   then; after a deploy call it is the one just deployed exactly when no older row stands in front.
   */
  method DeployOrResumeAgent(p: Platform, d: Detail, gateway: Option<string>, server: Option<string>)
    returns (r: AgentStep, ghost f: Finding, ghost ds: seq<Deployment>)
    requires d.agentName.Some?
    modifies p`now, p`table, p`probed, p`asked, p`lookups, p`deploys, p`searched, p`faults
    ensures p.now >= old(p.now) && old(p.probed) <= p.probed && old(p.searched) <= p.searched && p.faults >= old(p.faults)
    ensures p.lookups == old(p.lookups) + [Lookup(AgentQuery(d), f)] && AnswersSince(f, old(p.table), p.table, AgentQuery(d))
    ensures p.deploys == old(p.deploys) + ds
    ensures ds == if CallsForDeploy(f) then [DeployAgent(d.agentName.value, gateway, server)] else []
    ensures f.NoRow? || f.Found? ==> (ds == [] <==> f.Found? && Resumes(f.status))
    ensures TakesUp(f) ==> r == Agent(f.useCaseId)
    ensures r.Agent? ==> r.id != "" && (TakesUp(f) || CallsForDeploy(f))
    ensures r.AgentThrew? ==> p.faults > old(p.faults)
    ensures r.AgentFailed? ==> CallsForDeploy(f) && (p.faults > old(p.faults) || InVain(p.searched, |old(p.searched)|))
    ensures Grew(old(p.table), p.table) && WritesAgent(New(old(p.table), p.table), ds, d.tenantId)
    ensures r.Agent? ==> NamedSince(old(p.table), p.table, AgentQuery(d), r.id, ds != [])
  {
    hide AnswersSince, FirstId, Resumes, Grew, Arrived, UnderNewKeys, FirstMatch, NamesDeployed, NamedSince;
    ds := [];
    var existing;
    existing, f := FindResumableUseCase(p, AgentQuery(d));
    ArrivedIsGrown(old(p.table), p.table);
    if existing.Thrown? { return AgentThrew, f, ds; }
    if existing.value.Resume? {
      FindingIsNamed(f, old(p.table), p.table, AgentQuery(d));
      return Agent(existing.value.useCaseId), f, ds;
    }
    var agent := DeployAgent(d.agentName.value, gateway, server);
    ds := [agent];
    ghost var looked := p.table;
    var invoked := p.InvokeDeployApi(agent, d.tenantId);
    NewKeysSince(old(p.table), looked, p.table);
    AnswersStill(f, old(p.table), looked, p.table, AgentQuery(d));
    if invoked.Thrown? { return AgentThrew, f, ds; }
    if invoked.value.Some? { return AgentFailed, f, ds; }
    ghost var called := p.table;
    var found, attempts;
    ghost var resolved;
    found, attempts, resolved := ResolveUseCaseIdByName(p, AgentQuery(d));
    ArrivedLater(called, resolved, p.table);
    ThenArrived(old(p.table), called, p.table);
    ArrivedIsGrown(called, p.table);
    AnswersStill(f, old(p.table), called, p.table, AgentQuery(d));
    if found.Some? { DeployedIsNamed(old(p.table), called, resolved, p.table, AgentQuery(d), found.value); }
    if found.None? { TwelveInVain(p.searched, |old(p.searched)|, |p.searched| - 12); }
    r := if found.Some? then Agent(found.value) else AgentFailed;
  }

  /** What the agent's deploy call, if it was made, writes: its row, or nothing. */
  ghost predicate WritesAgent(written: seq<Row>, ds: seq<Deployment>, tenant: string) {
    if ds == [] then written == [] else WritesOne(written, ds[0], tenant)
  }

  /**
   The row of a removed deployment is the first match, whatever stands behind it.  The lookup comes to it,
   or to a row that turned up in front; when the stack found does not resume, the agent is deployed again.
   If the stale row is first in the table in which the new name is resolved, the run goes on to name and
   poll the removed use case, although it deployed another; only a row that has turned up in front of it
   makes a difference, for this run and for later ones.
   */
  method DeployBehindStaleRow(p: Platform, d: Detail, gateway: Option<string>, server: Option<string>, ghost stale: Row)
    returns (r: AgentStep, ghost f: Finding, ghost found: Table)
    requires d.agentName.Some? && stale.id != "" && FirstMatch(p.table.rows, AgentQuery(d)) == Some(stale)
    modifies p`now, p`table, p`probed, p`asked, p`lookups, p`deploys, p`searched, p`faults
    ensures IsAboutOneOf(f, {stale.id} + Ids(old(p.table).pending, AgentQuery(d)))
    ensures f.Found? && !Resumes(f.status) ==> p.deploys == old(p.deploys) + [DeployAgent(d.agentName.value, gateway, server)]
    ensures r.Agent? ==> r.id in {stale.id} + Ids(old(p.table).pending + New(old(p.table), p.table), AgentQuery(d))
    ensures r.Agent? ==> Grew(old(p.table), found) && Arrived(found, p.table)
    ensures r.Agent? && FirstMatch(found.rows, AgentQuery(d)) == Some(stale) ==>
              r.id == stale.id && !HasId(New(old(p.table), p.table), r.id)
  {
    hide Grew, FirstMatch, Ids, AnswersSince, IsAboutOneOf;
    ghost var start, ds := p.table, [];
    found := start;
    FoundIsMatch(start.rows, AgentQuery(d));
    r, f, ds := DeployOrResumeAgent(p, d, gateway, server);
    LookedBehindStaleRow(f, start, p.table, d, stale);
    if r.Agent? {
      found :| Grew(start, found) && Arrived(found, p.table) && FirstId(found.rows, AgentQuery(d)) == Some(r.id)
               && (ds != [] ==> NamesDeployed(start, found, AgentQuery(d), r.id));
      ThenArrived(start, found, p.table);
      FoundLeads(start, found, AgentQuery(d), stale.id);
    }
  }

  lemma LookedBehindStaleRow(f: Finding, t: Table, t': Table, d: Detail, stale: Row)
    requires d.agentName.Some? && FirstMatch(t.rows, AgentQuery(d)) == Some(stale) && AnswersSince(f, t, t', AgentQuery(d))
    ensures IsAboutOneOf(f, {stale.id} + Ids(t.pending, AgentQuery(d)))
  {
    hide FirstMatch, AnswersSince, IsAboutOneOf;
    FindingIsLed(f, t, t', AgentQuery(d), {stale.id} + Ids(t.pending, AgentQuery(d)));
  }

  // ---------- The run ----------

  /** What a run attempts to send after `started`, before it returns or throws. */
  ghost predicate Follows(es: seq<Event>, threw: bool) {
    if threw then es == [] || (|es| == 1 && es[0].StackComplete?)
    else
      || (|es| == 1 && es[0].Failed?)
      || (|es| == 2 && es[0].StackComplete? && es[1].Failed?)
      || (|es| == 2 && es[0].StackComplete? && es[1] == RuntimeReady(es[0].useCaseId, es[0].gateway))
  }

  /** At most one deploy call per kind, the gateway's first. */
  ghost predicate OneOfEachKind(ds: seq<Deployment>) {
    || ds == []
    || (|ds| == 1 && !ds[0].DeployWorkflow?)
    || (|ds| == 2 && ds[0].DeployGateway? && ds[1].DeployAgent?)
  }

  /** The deployed agent is told of the gateway that the events name, and given that one or none. */
  ghost predicate SameGateway(es: seq<Event>, ds: seq<Deployment>) {
    forall e <- es, a <- ds :: e.StackComplete? && a.DeployAgent? ==> a.gateway == e.gateway && (a.server.None? || a.server == a.gateway)
  }

  /**
   What a run deploys and names is what its lookups found: the agent is deployed exactly when its
   lookup calls for it, the gateway exactly when its lookup does and a body is built; an agent taken up
   is the one the events name, and no event names an agent before its lookup answered.
   */
  ghost predicate AsFound(d: Detail, built: Call<Built>, es: seq<Event>, ds: seq<Deployment>, gateway: Option<Finding>, agent: Option<Finding>) {
    && ((exists a <- ds :: a.DeployGateway?) <==> gateway.Some? && CallsForDeploy(gateway.value) && Deployable(built))
    && ((exists a <- ds :: a.DeployAgent?) <==> agent.Some? && CallsForDeploy(agent.value))
    && (forall e <- es :: e.StackComplete? ==>
          && agent.Some? && (TakesUp(agent.value) || CallsForDeploy(agent.value))
          && (TakesUp(agent.value) ==> e.useCaseId == agent.value.useCaseId))
  }

  /** Where the search for the agent's name leads at the start of a run. */
  ghost predicate AgentLeadsInto(t: Table, d: Detail, ids: set<string>) {
    d.agentName.Some? && LeadsInto(t, AgentQuery(d), ids)
  }

  /** The lookup, if it was made, came to one of those use cases. */
  ghost predicate Concerns(f: Option<Finding>, ids: set<string>) {
    f.Some? ==> IsAboutOneOf(f.value, ids)
  }

  /**
   The use case that stack_complete names has a row, and from then on the search for the agent's name
   leads to it or to one whose row was on its way or has been written since.
   */
  ghost predicate NamesLead(es: seq<Event>, t: Table, t': Table, d: Detail) {
    forall e <- es :: e.StackComplete? ==>
      && d.agentName.Some? && e.useCaseId != ""
      && e.useCaseId in Ids(t.rows + t.pending + New(t, t'), AgentQuery(d))
      && LeadsInto(t', AgentQuery(d), {e.useCaseId} + Ids(t.pending + New(t, t'), AgentQuery(d)))
  }

  /** A row of the agent's name is written only by the agent's deploy call, and at most one. */
  ghost predicate WritesOneAgent(written: seq<Row>, ds: seq<Deployment>, d: Detail) {
    d.agentName.Some? ==>
      var ids := Ids(written, AgentQuery(d));
      (ids != {} ==> exists a <- ds :: a.DeployAgent?) && forall x, y :: x in ids && y in ids ==> x == y
  }

  lemma OtherKindIsNone(rows: seq<Row>, q: Query, kind: string)
    requires OfKind(rows, kind) && q.kind != "" && q.kind != kind
    ensures Ids(rows, q) == {}
  {
  }

  lemma IdsOfConcat(a: seq<Row>, b: seq<Row>, q: Query)
    ensures Ids(a + b, q) == Ids(a, q) + Ids(b, q)
  {
  }

  lemma IdsSince(t: Table, t': Table, q: Query)
    requires Grew(t, t')
    ensures Ids(t'.pending, q) <= Ids(t.pending + New(t, t'), q)
    ensures Ids(t'.rows + t'.pending, q) == Ids(t.rows + t.pending + New(t, t'), q)
  {
    hide Grew, Matches;
    forall row: Row { RowsOf(t, t', row); }
  }

  /**
   From the poll of the agent stack on: one more event, unless it throws.  Without a fault it is
   runtime_ready if and only if the last probe showed the stack active.
   */
  method FinishAgent(p: Platform, d: Detail, id: string, gateway: Option<string>, startedAt: nat) returns (threw: bool, last: Event)
    requires startedAt <= p.now && d.agentName.Some?
    modifies p`now, p`table, p`probed, p`asked, p`events, p`faults, p`synced
    ensures old(p.probed) <= p.probed && p.faults >= old(p.faults)
    ensures p.events == old(p.events) + Sent(d, if threw then [] else [last])
    ensures p.synced == old(p.synced) + if threw then [] else Synced([last])
    ensures last == Failed(Some(id), gateway) || last == RuntimeReady(id, gateway)
    ensures last.RuntimeReady? ==> LastShownActive(p.probed, |old(p.probed)|, id)
    ensures last.Failed? && LastShownActive(p.probed, |old(p.probed)|, id) ==> p.faults > old(p.faults)
    ensures threw ==> p.faults > old(p.faults)
    ensures p.faults == old(p.faults) ==> |p.probed| > |old(p.probed)|
    ensures AllOf(p.probed, |old(p.probed)|, id, d.agentName.value)
    ensures Arrived(old(p.table), p.table)
  {
    hide Arrived;
    last := Failed(Some(id), gateway);
    var ready := PollAgent(p, id, d.agentName.value, startedAt);
    ghost var polled := p.table;
    if !ready.Ready? {
      var final;
      ghost var linked, expected;
      final, linked, expected := p.GetDeploymentProbe(id, d.agentName.value);
      ArrivedLater(old(p.table), polled, p.table);
      polled := p.table;
      if final.Thrown? { return true, last; }
      assert p.probed[|p.probed|-1] == Probed(id, d.agentName.value, final.value.status);
      if !IsActive(final.value.status) {
        NotifyProvisionStatus(p, d, last);
        return false, last;
      }
    }
    var syncThrew := p.SyncRuntime(id);
    ArrivedLater(old(p.table), polled, p.table);
    if !syncThrew { last := RuntimeReady(id, gateway); }
    NotifyProvisionStatus(p, d, last);
    threw := false;
  }

  /**
   Without a fault, a run beyond its first lookup of the agent ends in one of three ways: the new use case
   was searched for twelve times in vain; or, after stack_complete, with runtime_ready if and only if the
   last probe showed the stack active.
   */
  ghost predicate Explained(es: seq<Event>, f: Finding, probed: seq<Probed>, from: nat, searched: seq<Call<Option<string>>>, since: nat) {
    || (|es| == 1 && es[0].Failed? && CallsForDeploy(f) && InVain(searched, since))
    || (|es| == 2 && es[0].StackComplete? && from < |probed| && (es[1].RuntimeReady? <==> LastShownActive(probed, from, es[0].useCaseId)))
  }

  /** From the agent's deployment on. */
  method ProvisionWithGateway(p: Platform, d: Detail, gateway: Option<string>, server: Option<string>, startedAt: nat, ghost agentIds: set<string>)
    returns (threw: bool, ghost es: seq<Event>, ghost ds: seq<Deployment>, ghost f: Finding)
    requires d.agentName.Some? && startedAt <= p.now
    modifies p
    ensures p.events == old(p.events) + Sent(d, es) && Follows(es, threw)
    ensures p.synced == old(p.synced) + Synced(es)
    ensures p.registered == old(p.registered)
    ensures p.deploys == old(p.deploys) + ds
    ensures ds == if CallsForDeploy(f) then [DeployAgent(d.agentName.value, gateway, server)] else []
    ensures p.lookups == old(p.lookups) + [Lookup(AgentQuery(d), f)]
    ensures old(p.probed) <= p.probed && old(p.searched) <= p.searched && p.faults >= old(p.faults)
    ensures p.faults == old(p.faults) ==> !threw && Explained(es, f, p.probed, |old(p.probed)|, p.searched, |old(p.searched)|)
    ensures forall e <- es :: e.StackComplete? ==> e.gateway == gateway && (TakesUp(f) || CallsForDeploy(f)) && (TakesUp(f) ==> e.useCaseId == f.useCaseId)
    ensures forall e <- es :: e.RuntimeReady? ==> ShownActive(p.probed, |old(p.probed)|, e.useCaseId)
    ensures AgentLeadsInto(old(p.table), d, agentIds) ==> IsAboutOneOf(f, agentIds)
    ensures Grew(old(p.table), p.table) && WritesAgent(New(old(p.table), p.table), ds, d.tenantId)
    ensures NamesLead(es, old(p.table), p.table, d)
  {
    hide LeadsInto, AnswersSince, FirstId, FirstMatch, Grew, Arrived, TakesUp;
    hide CallsForDeploy, IsAboutOneOf, NamedSince, Ids, WritesAgent, NamesLead, New, ShownActive, Sent, LastShownActive, InVain, Explained, Synced;
    es := [];
    NothingSent(d);
    ghost var before := p.table;
    var agent;
    agent, f, ds := DeployOrResumeAgent(p, d, gateway, server);
    AgentConcerns(f, before, p.table, d, agentIds);
    NoneNamed(es, before, p.table, d);
    NoneNamed([Failed(None, gateway)], before, p.table, d);
    SyncedBehind(StackComplete("", gateway), Failed(None, gateway));
    if agent.AgentThrew? { return true, es, ds, f; }
    if agent.AgentFailed? {
      SearchExplains([Failed(None, gateway)], f, p.probed, |old(p.probed)|, p.searched, |old(p.searched)|);
      NotifyProvisionStatus(p, d, Failed(None, gateway));
      return false, [Failed(None, gateway)], ds, f;
    }
    NotifyProvisionStatus(p, d, StackComplete(agent.id, gateway));
    ghost var named, probes := p.table, |p.probed|;
    var last;
    threw, last := FinishAgent(p, d, agent.id, gateway, startedAt);
    ThenArrived(before, named, p.table);
    es := [StackComplete(agent.id, gateway)] + if threw then [] else [last];
    SentInTurn(d, [StackComplete(agent.id, gateway)], if threw then [] else [last]);
    SyncedBehind(StackComplete(agent.id, gateway), last);
    ShownLater(p.probed, |old(p.probed)|, probes, agent.id);
    LastExplains(es, f, p.probed, |old(p.probed)|, p.searched, |old(p.searched)|);
    LastIsShown(p.probed, |old(p.probed)|, agent.id);
    NamedLeads(before, named, p.table, d, agent.id, ds != [], es);
  }

  lemma SearchExplains(es: seq<Event>, f: Finding, probed: seq<Probed>, from: nat, searched: seq<Call<Option<string>>>, since: nat)
    requires |es| == 1 && es[0].Failed? && CallsForDeploy(f)
    ensures InVain(searched, since) ==> Explained(es, f, probed, from, searched, since)
  {
  }

  lemma LastExplains(es: seq<Event>, f: Finding, probed: seq<Probed>, from: nat, searched: seq<Call<Option<string>>>, since: nat)
    ensures && |es| == 2 && es[0].StackComplete? && from < |probed|
            && (es[1].RuntimeReady? <==> LastShownActive(probed, from, es[0].useCaseId))
            ==> Explained(es, f, probed, from, searched, since)
  {
  }

  lemma AgentConcerns(f: Finding, t: Table, t': Table, d: Detail, ids: set<string>)
    requires d.agentName.Some? && AnswersSince(f, t, t', AgentQuery(d))
    ensures AgentLeadsInto(t, d, ids) ==> IsAboutOneOf(f, ids)
  {
    hide LeadsInto, AnswersSince, IsAboutOneOf;
    if AgentLeadsInto(t, d, ids) { FindingIsLed(f, t, t', AgentQuery(d), ids); }
  }

  lemma NoneNamed(es: seq<Event>, t: Table, t': Table, d: Detail)
    requires forall e <- es :: !e.StackComplete?
    ensures NamesLead(es, t, t', d)
  {
  }

  lemma NamedLeads(t: Table, named: Table, t': Table, d: Detail, id: string, deployed: bool, es: seq<Event>)
    requires d.agentName.Some? && id != "" && NamedSince(t, named, AgentQuery(d), id, deployed) && Arrived(named, t')
    requires forall e <- es :: e.StackComplete? ==> e.useCaseId == id
    ensures NamesLead(es, t, t', d)
  {
    hide Grew, Arrived, FirstId, Ids, NamesDeployed;
    var q := AgentQuery(d);
    var found: Table :| Grew(t, found) && Arrived(found, named) && FirstId(found.rows, q) == Some(id);
    ArrivedLater(found, named, t');
    ThenArrived(t, found, t');
    ArrivedIsGrown(found, t');
    FoundIsMatch(found.rows, q);
    IdsSince(t, found, q);
    IdsOfConcat(found.rows, found.pending, q);
    FoundLeads(found, t', q, id);
    IdsOfConcat(found.pending, [], q);
    NoIds(q);
    LeadsIntoMore(t', q, {id} + Ids(found.pending + New(found, t'), q), {id} + Ids(t.pending + New(t, t'), q));
  }

  lemma LeadsIntoMore(t: Table, q: Query, ids: set<string>, more: set<string>)
    requires LeadsInto(t, q, ids) && ids <= more
    ensures LeadsInto(t, q, more)
  {
  }

  /** What was named after the gateway's part is so named since the start. */
  lemma NamesLeadSinceStart(es: seq<Event>, start: Table, t: Table, t': Table, d: Detail)
    requires NamesLead(es, t, t', d) && Grew(start, t) && Grew(t, t')
    ensures NamesLead(es, start, t', d)
  {
    hide Grew, Ids, LeadsInto;
    if d.agentName.Some? {
      var q := AgentQuery(d);
      GrewTransitive(start, t, t');
      IdsSince(start, t, q);
      IdsSince(t, t', q);
      IdsSince(start, t', q);
      IdsOfConcat(t.pending, New(t, t'), q);
      IdsOfConcat(start.pending, New(start, t), q);
      IdsOfConcat(start.pending, New(start, t'), q);
      IdsOfConcat(New(start, t), New(t, t'), q);
      forall e | e in es && e.StackComplete?
        ensures LeadsInto(t', q, {e.useCaseId} + Ids(start.pending + New(start, t'), q))
      {
        LeadsIntoMore(t', q, {e.useCaseId} + Ids(t.pending + New(t, t'), q), {e.useCaseId} + Ids(start.pending + New(start, t'), q));
      }
    }
  }

  /** What one deploy call writes has at most one id. */
  lemma OneRowOneId(written: seq<Row>, q: Query)
    requires |written| <= 1
    ensures forall x, y :: x in Ids(written, q) && y in Ids(written, q) ==> x == y
  {
  }

  /** The gateway's rows are none of the agent's. */
  lemma OneAgentWritten(start: Table, t: Table, t': Table, d: Detail, gs: seq<Deployment>, as': seq<Deployment>)
    requires Grew(start, t) && Grew(t, t') && OfKind(New(start, t), "MCPServer") && WritesAgent(New(t, t'), as', d.tenantId)
    requires forall a <- as' :: a.DeployAgent?
    ensures WritesOneAgent(New(start, t'), gs + as', d)
  {
    hide Grew, New, Ids, OfKind;
    GrewTransitive(start, t, t');
    if d.agentName.Some? {
      IdsOfConcat(New(start, t), New(t, t'), AgentQuery(d));
      OtherKindIsNone(New(start, t), AgentQuery(d), "MCPServer");
      OneRowOneId(New(t, t'), AgentQuery(d));
      NoIds(AgentQuery(d));
      if as' != [] { assert as'[0] in gs + as'; }
    }
  }

  /** Rows that only turn up keep the search where it led. */
  lemma ArrivalKeepsLead(t: Table, t': Table, q: Query, ids: set<string>)
    requires Arrived(t, t') && LeadsInto(t, q, ids)
    ensures LeadsInto(t', q, ids)
  {
    hide Grew, LeadsInto, Ids;
    ArrivedIsGrown(t, t');
    NoIds(q);
    LeadStaysInside(t, t', q, ids);
  }

  lemma RunIsAsFound(d: Detail, built: Call<Built>, es: seq<Event>, gs: seq<Deployment>, as': seq<Deployment>,
                     gateway: Option<Finding>, agent: Option<Finding>, id: Option<string>, server: Option<string>)
    requires d.agentName.Some? && (server.None? || server == id)
    requires gs == if gateway.Some? && CallsForDeploy(gateway.value) && Deployable(built) then [DeployGateway(d.gatewayName)] else []
    requires as' == if agent.Some? && CallsForDeploy(agent.value) then [DeployAgent(d.agentName.value, id, server)] else []
    requires forall e <- es :: e.StackComplete? ==>
               && e.gateway == id && agent.Some? && (TakesUp(agent.value) || CallsForDeploy(agent.value))
               && (TakesUp(agent.value) ==> e.useCaseId == agent.value.useCaseId)
    ensures OneOfEachKind(gs + as') && SameGateway(es, gs + as') && AsFound(d, built, es, gs + as', gateway, agent)
  {
    hide TakesUp, CallsForDeploy;
    if agent.Some? && CallsForDeploy(agent.value) { assert (gs + as')[|gs|] == as'[0]; }
    if gateway.Some? && CallsForDeploy(gateway.value) && Deployable(built) { assert (gs + as')[0] == gs[0]; }
  }

  /** Why a run that had started the agent's part ended as it did, where there was no fault. */
  ghost predicate RunExplained(es: seq<Event>, built: Call<Built>, agent: Option<Finding>, probed: seq<Probed>, from: nat,
                               searched: seq<Call<Option<string>>>, since: nat) {
    match agent
    case Some(f) => Explained(es, f, probed, from, searched, since)
    case None =>
      // The shell of the gateway did not get up.
      |es| == 1 && es[0].Failed? && built == Answer(Shell) && es[0].gateway.Some? && !LastShownActive(probed, from, es[0].gateway.value)
  }

  /** The gateway that stack_complete names is the one found. */
  ghost predicate NamesGateway(es: seq<Event>, f: Option<Finding>, built: Call<Built>,
                               searched: seq<Call<Option<string>>>, from: nat, faulty: bool) {
    forall e <- es :: e.StackComplete? ==> GatewayAsFound(f, built, e.gateway, searched, from, faulty)
  }

  /** The gateway that stack_complete names has a row of the tenant. */
  ghost predicate OwnGateway(es: seq<Event>, t: Table, t': Table, d: Detail) {
    forall e <- es :: e.StackComplete? && e.gateway.Some? ==> OwnRow(t, t', e.gateway.value, d.gatewayName, d.tenantId, "MCPServer")
  }

  /** The use case that stack_complete names has a row of the tenant. */
  ghost predicate OwnAgent(es: seq<Event>, t: Table, t': Table, d: Detail) {
    forall e <- es :: e.StackComplete? ==>
      d.agentName.Some? && OwnRow(t, t', e.useCaseId, d.agentName.value, d.tenantId, "AgentBuilder")
  }

  lemma NamedIsOwn(es: seq<Event>, t: Table, t': Table, d: Detail)
    requires NamesLead(es, t, t', d) && d.tenantId != ""
    ensures OwnAgent(es, t, t', d)
  {
    hide LeadsInto, Ids, New;
    forall e | e in es && e.StackComplete? ensures d.agentName.Some? && OwnRow(t, t', e.useCaseId, d.agentName.value, d.tenantId, "AgentBuilder") {
      IdHasFields(t.rows + t.pending + New(t, t'), AgentQuery(d), e.useCaseId);
    }
  }

  /** A run is sound when its two parts are: the gateway's and the agent's. */
  lemma PartsAreSound(d: Detail, built: Call<Built>, es: seq<Event>, gs: seq<Deployment>, as': seq<Deployment>,
                      gateway: Option<Finding>, agent: Option<Finding>, id: Option<string>, server: Option<string>,
                      start: Table, prepared: Table, t': Table, searched: seq<Call<Option<string>>>, from: nat, faulty: bool)
    requires d.agentName.Some? && d.tenantId != "" && (server.None? || server == id)
    requires gs == if gateway.Some? && CallsForDeploy(gateway.value) && Deployable(built) then [DeployGateway(d.gatewayName)] else []
    requires as' == if agent.Some? && CallsForDeploy(agent.value) then [DeployAgent(d.agentName.value, id, server)] else []
    requires forall e <- es :: e.StackComplete? ==>
               && e.gateway == id && agent.Some? && (TakesUp(agent.value) || CallsForDeploy(agent.value))
               && (TakesUp(agent.value) ==> e.useCaseId == agent.value.useCaseId)
    requires Grew(start, prepared) && Grew(prepared, t') && NamesLead(es, prepared, t', d)
    requires GatewayAsFound(gateway, built, id, searched, from, faulty)
    requires id.Some? ==> OwnRow(start, t', id.value, d.gatewayName, d.tenantId, "MCPServer")
    ensures OneOfEachKind(gs + as')
    ensures SoundNames(es, d, built, gs + as', gateway, agent, start, t', searched, from, faulty)
  {
    hide *;
    RunIsAsFound(d, built, es, gs, as', gateway, agent, id, server);
    NamesLeadSinceStart(es, start, prepared, t', d);
    GatewayIsNamed(es, gateway, built, id, searched, from, faulty, start, t', d);
    NamedIsOwn(es, start, t', d);
    AllSound(es, d, built, gs + as', gateway, agent, start, t', searched, from, faulty);
  }

  lemma AllSound(es: seq<Event>, d: Detail, built: Call<Built>, ds: seq<Deployment>, gateway: Option<Finding>, agent: Option<Finding>,
                 t: Table, t': Table, searched: seq<Call<Option<string>>>, from: nat, faulty: bool)
    requires SameGateway(es, ds) && AsFound(d, built, es, ds, gateway, agent) && NamesLead(es, t, t', d)
    requires NamesGateway(es, gateway, built, searched, from, faulty) && OwnAgent(es, t, t', d) && OwnGateway(es, t, t', d)
    ensures SoundNames(es, d, built, ds, gateway, agent, t, t', searched, from, faulty)
  {
    hide SameGateway, AsFound, NamesLead, NamesGateway, OwnAgent, OwnGateway;
  }

  /** The part of the run after `started`. */
  method ProvisionAgent(p: Platform, d: Detail, built: Call<Built>, ghost agentIds: set<string>, ghost gatewayIds: set<string>)
    returns (threw: bool, ghost es: seq<Event>, ghost ds: seq<Deployment>, ghost gateway: Option<Finding>, ghost agent: Option<Finding>)
    requires d.agentName.Some? && d.tenantId != ""
    modifies p
    ensures p.events == old(p.events) + Sent(d, es) && Follows(es, threw)
    ensures p.synced == old(p.synced) + Synced(es)
    ensures p.registered == old(p.registered)
    ensures p.deploys == old(p.deploys) + ds && OneOfEachKind(ds)
    ensures p.lookups == old(p.lookups) + Looked(GatewayQuery(d), gateway) + Looked(AgentQuery(d), agent)
    ensures SoundNames(es, d, built, ds, gateway, agent, old(p.table), p.table, p.searched, |old(p.searched)|, p.faults > old(p.faults))
    ensures p.faults >= old(p.faults) && old(p.probed) <= p.probed && old(p.searched) <= p.searched
    ensures p.faults == old(p.faults) && built.Answer? ==>
              !threw && RunExplained(es, built, agent, p.probed, |old(p.probed)|, p.searched, |old(p.searched)|)
    ensures gateway.Some? <==> d.hasProviders
    ensures forall e <- es :: e.RuntimeReady? ==> ShownActive(p.probed, |old(p.probed)|, e.useCaseId)
    ensures AgentLeadsInto(old(p.table), d, agentIds) ==> Concerns(agent, agentIds)
    ensures LeadsInto(old(p.table), GatewayQuery(d), gatewayIds) ==> Concerns(gateway, gatewayIds)
    ensures Grew(old(p.table), p.table) && WritesOneAgent(New(old(p.table), p.table), ds, d)
  {
    hide *;
    var startedAt := p.now;
    ghost var start := p.table;
    agent := None;
    var step;
    ghost var shell, urls;
    step, gateway, ds, shell, urls := PrepareGateway(p, d, built, startedAt);
    ghost var prepared := p.table;
    GatewayConcerns(gateway, start, prepared, GatewayQuery(d), gatewayIds);
    if !step.Gateway? {
      es := if step.ShellFailed? then [Failed(None, Some(step.gateway))] else [];
      NothingSent(d);
      NotLookedUp(agentIds);
      BeforeAgent(d, built, es, ds, gateway, start, prepared, p.searched, |old(p.searched)|, p.faults > old(p.faults));
      if step.ShellFailed? {
        ShellExplains(es, built, step.gateway, p.probed, |old(p.probed)|, p.searched, |old(p.searched)|);
        NotifyProvisionStatus(p, d, Failed(None, Some(step.gateway)));
      }
      return step.GatewayThrew?, es, ds, gateway, agent;
    }
    StepIsNamed(step);
    ghost var tried, faults, probes := p.searched, p.faults, |p.probed|;
    GatewayLeavesAgentLead(start, prepared, d, agentIds);
    ghost var more;
    threw, es, more, agent := ProvisionBehindGateway(p, d, step.id, step.server, startedAt, agentIds);
    ShownSince(es, p.probed, |old(p.probed)|, probes);
    OneAgentWritten(start, prepared, p.table, d, ds, more);
    GrewTransitive(start, prepared, p.table);
    ExplainedSinceStart(es, built, agent, p.probed, |old(p.probed)|, probes, p.searched, |old(p.searched)|, |tried|);
    GatewayStillOwn(start, prepared, p.table, step.id, d);
    GatewayStillAsFound(gateway, built, step.id, tried, |old(p.searched)|, faults > old(p.faults), p.searched, p.faults > old(p.faults));
    PartsAreSound(d, built, es, ds, more, gateway, agent, step.id, step.server, start, prepared, p.table,
                  p.searched, |old(p.searched)|, p.faults > old(p.faults));
    ds := ds + more;
  }

  /** The part of the run behind the gateway's. */
  method ProvisionBehindGateway(p: Platform, d: Detail, gateway: Option<string>, server: Option<string>, startedAt: nat, ghost agentIds: set<string>)
    returns (threw: bool, ghost es: seq<Event>, ghost ds: seq<Deployment>, ghost agent: Option<Finding>)
    requires d.agentName.Some? && startedAt <= p.now
    modifies p
    ensures p.events == old(p.events) + Sent(d, es) && Follows(es, threw)
    ensures p.synced == old(p.synced) + Synced(es)
    ensures p.registered == old(p.registered)
    ensures p.deploys == old(p.deploys) + ds
    ensures ds == if agent.Some? && CallsForDeploy(agent.value) then [DeployAgent(d.agentName.value, gateway, server)] else []
    ensures p.lookups == old(p.lookups) + Looked(AgentQuery(d), agent)
    ensures old(p.probed) <= p.probed && old(p.searched) <= p.searched && p.faults >= old(p.faults)
    ensures p.faults == old(p.faults) ==>
              !threw && agent.Some? && Explained(es, agent.value, p.probed, |old(p.probed)|, p.searched, |old(p.searched)|)
    ensures forall e <- es :: e.StackComplete? ==>
              && e.gateway == gateway && agent.Some? && (TakesUp(agent.value) || CallsForDeploy(agent.value))
              && (TakesUp(agent.value) ==> e.useCaseId == agent.value.useCaseId)
    ensures forall e <- es :: e.RuntimeReady? ==> ShownActive(p.probed, |old(p.probed)|, e.useCaseId)
    ensures AgentLeadsInto(old(p.table), d, agentIds) ==> Concerns(agent, agentIds)
    ensures Grew(old(p.table), p.table) && WritesAgent(New(old(p.table), p.table), ds, d.tenantId)
    ensures NamesLead(es, old(p.table), p.table, d)
  {
    hide *;
    es, ds, agent := [], [], None;
    ghost var start := p.table;
    threw := p.Call();                       // the runtime environment is put together
    ghost var called := p.table;
    NothingSent(d);
    NotLookedUp(agentIds);
    NothingFollows();
    NothingWritten(start, called, d);
    NoneNamed(es, start, called, d);
    if threw { return; }
    if AgentLeadsInto(start, d, agentIds) { ArrivalKeepsAgentLead(start, called, d, agentIds); }
    ghost var f;
    threw, es, ds, f := ProvisionWithGateway(p, d, gateway, server, startedAt, agentIds);
    agent := Some(f);
    LookupConcerns(f, agentIds);
    LookedOnce(AgentQuery(d), f);
    NamesLeadSinceStart(es, start, called, p.table, d);
    SinceArrival(start, called, p.table);
  }

  lemma NothingFollows()
    ensures Follows([], true) && Synced([]) == [] && Synced([Failed(None, None)]) == [] && Complete([Started] + [Failed(None, None)])
  {
  }

  lemma FollowsStarted(more: seq<Event>, threw: bool)
    requires Follows(more, threw)
    ensures Complete([Started] + more + if threw then [Failed(None, None)] else [])
    ensures Synced([Started] + more) == Synced(more) && (threw ==> Synced(more) == [])
  {
  }

  lemma SyncedBehind(completed: Event, last: Event)
    requires completed.StackComplete?
    ensures Synced([completed] + [last]) == Synced([last]) && Synced([completed] + []) == [] && Synced([]) == []
    ensures last.Failed? ==> Synced([last]) == []
  {
  }

  lemma FailedSyncsNothing(es: seq<Event>)
    ensures Synced(es + [Failed(None, None)]) == []
  {
  }

  lemma NothingWritten(t: Table, t': Table, d: Detail)
    requires Arrived(t, t')
    ensures Grew(t, t') && WritesAgent(New(t, t'), [], d.tenantId)
  {
    hide Grew;
    ArrivedIsGrown(t, t');
  }

  lemma ArrivalKeepsAgentLead(t: Table, t': Table, d: Detail, ids: set<string>)
    requires Arrived(t, t') && AgentLeadsInto(t, d, ids)
    ensures AgentLeadsInto(t', d, ids)
  {
    ArrivalKeepsLead(t, t', AgentQuery(d), ids);
  }

  lemma StepIsNamed(step: GatewayStep)
    requires step.Gateway?
    ensures GatewayOf(step) == step.id
  {
  }

  lemma ShellExplains(es: seq<Event>, built: Call<Built>, gateway: string, probed: seq<Probed>, from: nat,
                      searched: seq<Call<Option<string>>>, since: nat)
    requires es == [Failed(None, Some(gateway))] && built == Answer(Shell)
    ensures !LastShownActive(probed, from, gateway) ==> RunExplained(es, built, None, probed, from, searched, since)
  {
  }

  lemma GatewayIsNamed(es: seq<Event>, f: Option<Finding>, built: Call<Built>, id: Option<string>, searched: seq<Call<Option<string>>>,
                       from: nat, faulty: bool, t: Table, t': Table, d: Detail)
    requires GatewayAsFound(f, built, id, searched, from, faulty)
    requires id.Some? ==> OwnRow(t, t', id.value, d.gatewayName, d.tenantId, "MCPServer")
    requires forall e <- es :: e.StackComplete? ==> e.gateway == id
    ensures NamesGateway(es, f, built, searched, from, faulty) && OwnGateway(es, t, t', d)
  {
    hide GatewayAsFound, OwnRow;
  }

  lemma ExplainedSinceStart(es: seq<Event>, built: Call<Built>, f: Option<Finding>, probed: seq<Probed>, from: nat, later: nat,
                            searched: seq<Call<Option<string>>>, since: nat, then': nat)
    requires from <= later <= |probed| && since <= then'
    ensures f.Some? && Explained(es, f.value, probed, later, searched, then') ==> RunExplained(es, built, f, probed, from, searched, since)
  {
    hide LastShownActive, InVain;
    if InVain(searched, then') { InVainStill(searched, then', searched, since); }
    if |es| == 2 && es[0].StackComplete? { ShownLater(probed, from, later, es[0].useCaseId); }
  }

  lemma GatewayStillAsFound(f: Option<Finding>, built: Call<Built>, gateway: Option<string>,
                            searched: seq<Call<Option<string>>>, from: nat, faulty: bool, later: seq<Call<Option<string>>>, faulty': bool)
    requires GatewayAsFound(f, built, gateway, searched, from, faulty) && searched <= later && (faulty ==> faulty')
    ensures GatewayAsFound(f, built, gateway, later, from, faulty')
  {
    if InVain(searched, from) { InVainStill(searched, from, later, from); }
  }

  lemma ShownSince(es: seq<Event>, probed: seq<Probed>, from: nat, later: nat)
    requires from <= later && forall e <- es :: e.RuntimeReady? ==> ShownActive(probed, later, e.useCaseId)
    ensures forall e <- es :: e.RuntimeReady? ==> ShownActive(probed, from, e.useCaseId)
  {
  }

  lemma LookupConcerns(f: Finding, ids: set<string>)
    ensures Concerns(Some(f), ids) <==> IsAboutOneOf(f, ids)
  {
    hide IsAboutOneOf;
  }

  lemma LookedOnce(q: Query, f: Finding)
    ensures Looked(q, Some(f)) == [Lookup(q, f)]
  {
  }

  lemma NotLookedUp(ids: set<string>)
    ensures Concerns(None, ids) && forall q :: Looked(q, None) == []
  {
  }

  lemma SentInTurn(d: Detail, es: seq<Event>, more: seq<Event>)
    ensures Sent(d, es) + Sent(d, more) == Sent(d, es + more)
  {
  }

  lemma NothingSent(d: Detail)
    ensures Sent(d, []) == []
  {
  }

  /** As long as no agent was looked for. */
  lemma BeforeAgent(d: Detail, built: Call<Built>, es: seq<Event>, ds: seq<Deployment>, gateway: Option<Finding>, start: Table, t: Table,
                    searched: seq<Call<Option<string>>>, from: nat, faulty: bool)
    requires d.agentName.Some? && (es == [] || (|es| == 1 && es[0].Failed?))
    requires ds == if gateway.Some? && CallsForDeploy(gateway.value) && Deployable(built) then [DeployGateway(d.gatewayName)] else []
    requires Grew(start, t) && OfKind(New(start, t), "MCPServer")
    ensures Follows(es, es == []) && Synced(es) == [] && (forall e <- es :: !e.RuntimeReady?)
    ensures OneOfEachKind(ds) && SoundNames(es, d, built, ds, gateway, None, start, t, searched, from, faulty)
    ensures WritesOneAgent(New(start, t), ds, d)
  {
    hide CallsForDeploy, Deployable, Grew, OfKind, New, NamesLead, WritesOneAgent, GatewayAsFound, OwnRow;
    RunIsAsFound(d, built, es, ds, [], gateway, None, None, None);
    assert ds + [] == ds;
    NoneNamed(es, start, t, d);
    NoAgentWritten(start, t, d, ds);
  }

  lemma NoAgentWritten(start: Table, t: Table, d: Detail, ds: seq<Deployment>)
    requires Grew(start, t) && OfKind(New(start, t), "MCPServer")
    ensures WritesOneAgent(New(start, t), ds, d)
  {
    if d.agentName.Some? { OtherKindIsNone(New(start, t), AgentQuery(d), "MCPServer"); }
  }

  lemma GatewayLeavesAgentLead(start: Table, t: Table, d: Detail, ids: set<string>)
    requires Grew(start, t) && OfKind(New(start, t), "MCPServer")
    ensures AgentLeadsInto(start, d, ids) ==> AgentLeadsInto(t, d, ids)
  {
    hide Grew, LeadsInto, OfKind;
    if AgentLeadsInto(start, d, ids) {
      OtherKindIsNone(New(start, t), AgentQuery(d), "MCPServer");
      LeadStaysInside(start, t, AgentQuery(d), ids);
    }
  }

  lemma GatewayConcerns(f: Option<Finding>, t: Table, t': Table, q: Query, ids: set<string>)
    requires f.Some? ==> AnswersSince(f.value, t, t', q)
    ensures LeadsInto(t, q, ids) ==> Concerns(f, ids)
  {
    hide LeadsInto, AnswersSince, IsAboutOneOf;
    if f.Some? && LeadsInto(t, q, ids) { FindingIsLed(f.value, t, t', q, ids); }
  }

  lemma GatewayStillOwn(t: Table, t': Table, later: Table, id: Option<string>, d: Detail)
    requires id.Some? ==> OwnRow(t, t', id.value, d.gatewayName, d.tenantId, "MCPServer")
    requires Grew(t, t') && Grew(t', later)
    ensures id.Some? ==> OwnRow(t, later, id.value, d.gatewayName, d.tenantId, "MCPServer")
  {
    hide Grew, OwnRow;
    if id.Some? { OwnRowStill(t, t', later, id.value, d.gatewayName, d.tenantId, "MCPServer"); }
  }

  /** A request of version 2 for a tenant, with deploy bodies. */
  predicate Smooth(d: Detail, built: Call<Built>) {
    d.version == "2" && d.tenantId != "" && d.agentName.Some? && built.Answer?
  }

  method RunTenantProvision(p: Platform, d: Detail, built: Call<Built>, ghost agentIds: set<string>, ghost gatewayIds: set<string>)
    returns (threw: bool, ghost es: seq<Event>, ghost ds: seq<Deployment>, ghost gateway: Option<Finding>, ghost agent: Option<Finding>)
    modifies p
    ensures p.events == old(p.events) + Sent(d, es)
    ensures p.synced == old(p.synced) + Synced(es) && (threw ==> Synced(es) == [])
    ensures d.version != "2" || d.tenantId == "" ==> p.registered == old(p.registered)
    ensures d.version == "2" && d.tenantId != "" ==>
              p.registered == old(p.registered) + [d.tenantId] || (p.registered == old(p.registered) && p.faults > old(p.faults))
    ensures d.version != "2" ==> es == [] && !threw
    ensures d.version == "2" ==> Complete(if threw then es + [Failed(None, None)] else es)
    ensures p.deploys == old(p.deploys) + ds && OneOfEachKind(ds)
    ensures agent.Some? ==> d.agentName.Some?
    ensures p.lookups == old(p.lookups) + Looked(GatewayQuery(d), gateway) + if agent.Some? then Looked(AgentQuery(d), agent) else []
    ensures SoundNames(es, d, built, ds, gateway, agent, old(p.table), p.table, p.searched, |old(p.searched)|, p.faults > old(p.faults))
    ensures forall e <- es :: e.RuntimeReady? ==> ShownActive(p.probed, |old(p.probed)|, e.useCaseId)
    ensures AgentLeadsInto(old(p.table), d, agentIds) ==> Concerns(agent, agentIds)
    ensures LeadsInto(old(p.table), GatewayQuery(d), gatewayIds) ==> Concerns(gateway, gatewayIds)
    ensures Grew(old(p.table), p.table) && WritesOneAgent(New(old(p.table), p.table), ds, d)
    ensures p.faults >= old(p.faults)
    ensures d.version == "2" && (d.tenantId == "" || (d.agentName.None? && p.faults == old(p.faults))) ==> es == [Failed(None, None)] && !threw
    ensures Smooth(d, built) && p.faults == old(p.faults) ==>
              && !threw && es != [] && es[0].Started? && (d.hasProviders <==> gateway.Some?)
              && RunExplained(es[1..], built, agent, p.probed, |old(p.probed)|, p.searched, |old(p.searched)|)
  {
    hide LeadsInto, OneOfEachKind, TakesUp, CallsForDeploy, IsAboutOneOf, SameGateway, AsFound, Deployable, SoundNames;
    hide Grew, Arrived, New, WritesOneAgent, NamesLead, ShownActive, Concerns, Sent, Looked;
    hide RunExplained, NamesGateway, OwnAgent, OwnGateway, Synced, Follows;
    threw, es, ds, gateway, agent := false, [], [], None, None;
    ghost var start := p.table;
    ArrivedAtOnce(start);
    NoDeploys(start, start, d);
    NothingSent(d);
    NothingFollows();
    NotLookedUp(agentIds);
    NotLookedUp(gatewayIds);
    NothingNamed(d, built, [], start, start, p.searched, false);
    NothingNamed(d, built, [Failed(None, None)], start, start, p.searched, false);
    if d.version != "2" { return; }
    if d.tenantId == "" {
      NotifyProvisionStatus(p, d, Failed(None, None));
      return false, [Failed(None, None)], ds, gateway, agent;
    }
    threw := p.WriteTenant(d.tenantId);
    ghost var called := p.table;
    NoDeploys(start, called, d);
    NothingNamed(d, built, [], start, called, p.searched, threw);
    NothingNamed(d, built, [Failed(None, None)], start, called, p.searched, threw);
    if threw { return; }
    if d.agentName.None? {
      NotifyProvisionStatus(p, d, Failed(None, None));
      return false, [Failed(None, None)], ds, gateway, agent;
    }
    NotifyProvisionStatus(p, d, Started);
    if AgentLeadsInto(start, d, agentIds) { ArrivalKeepsLead(start, called, AgentQuery(d), agentIds); }
    if LeadsInto(start, GatewayQuery(d), gatewayIds) { ArrivalKeepsLead(start, called, GatewayQuery(d), gatewayIds); }
    ghost var more;
    threw, more, ds, gateway, agent := ProvisionAgent(p, d, built, agentIds, gatewayIds);
    es := [Started] + more;
    SentInTurn(d, [Started], more);
    FollowsStarted(more, threw);
    SinceArrival(start, called, p.table);
    SoundSinceStart(more, d, built, ds, gateway, agent, start, called, p.table, p.searched, |old(p.searched)|, p.faults > old(p.faults));
    SameNamed(more, es, d, built, ds, gateway, agent, start, p.table, p.searched, |old(p.searched)|, p.faults > old(p.faults));
    assert es[1..] == more;
  }

  lemma OwnGatewaySinceStart(es: seq<Event>, start: Table, t: Table, t': Table, d: Detail)
    requires OwnGateway(es, t, t', d) && Grew(start, t) && Grew(t, t')
    ensures OwnGateway(es, start, t', d)
  {
    hide Grew, OwnRow;
    forall e | e in es && e.StackComplete? && e.gateway.Some? ensures OwnRow(start, t', e.gateway.value, d.gatewayName, d.tenantId, "MCPServer") {
      OwnRowSinceStart(start, t, t', e.gateway.value, d.gatewayName, d.tenantId, "MCPServer");
    }
  }

  lemma SoundSinceStart(es: seq<Event>, d: Detail, built: Call<Built>, ds: seq<Deployment>, gateway: Option<Finding>, agent: Option<Finding>,
                        start: Table, t: Table, t': Table, searched: seq<Call<Option<string>>>, from: nat, faulty: bool)
    requires SoundNames(es, d, built, ds, gateway, agent, t, t', searched, from, faulty) && d.tenantId != ""
    requires Arrived(start, t) && Grew(t, t')
    ensures SoundNames(es, d, built, ds, gateway, agent, start, t', searched, from, faulty)
  {
    hide Grew, Arrived, SameGateway, AsFound, NamesLead, NamesGateway, OwnAgent, OwnGateway;
    ArrivedIsGrown(start, t);
    GrewTransitive(start, t, t');
    NamesLeadSinceStart(es, start, t, t', d);
    NamedIsOwn(es, start, t', d);
    OwnGatewaySinceStart(es, start, t, t', d);
  }

  /** What is stated of the use case and the gateway that stack_complete names. */
  ghost predicate SoundNames(es: seq<Event>, d: Detail, built: Call<Built>, ds: seq<Deployment>, gateway: Option<Finding>, agent: Option<Finding>,
                             t: Table, t': Table, searched: seq<Call<Option<string>>>, from: nat, faulty: bool) {
    && SameGateway(es, ds) && AsFound(d, built, es, ds, gateway, agent) && NamesLead(es, t, t', d)
    && NamesGateway(es, gateway, built, searched, from, faulty) && OwnAgent(es, t, t', d) && OwnGateway(es, t, t', d)
  }

  /** Other events make no difference to that. */
  lemma SameNamed(es: seq<Event>, es': seq<Event>, d: Detail, built: Call<Built>, ds: seq<Deployment>, gateway: Option<Finding>,
                  agent: Option<Finding>, t: Table, t': Table, searched: seq<Call<Option<string>>>, from: nat, faulty: bool)
    requires SoundNames(es, d, built, ds, gateway, agent, t, t', searched, from, faulty)
    requires forall e <- es' :: e.StackComplete? ==> e in es
    ensures SoundNames(es', d, built, ds, gateway, agent, t, t', searched, from, faulty)
  {
    hide TakesUp, CallsForDeploy, Deployable, LeadsInto, Ids, GatewayAsFound, OwnRow, New;
  }

  lemma NothingNamed(d: Detail, built: Call<Built>, es: seq<Event>, t: Table, t': Table, searched: seq<Call<Option<string>>>, faulty: bool)
    requires forall e <- es :: !e.StackComplete?
    ensures SoundNames(es, d, built, [], None, None, t, t', searched, |searched|, faulty)
  {
    hide LeadsInto, Ids, GatewayAsFound, OwnRow, New;
  }

  lemma NoDeploys(t: Table, t': Table, d: Detail)
    requires Arrived(t, t')
    ensures OneOfEachKind([]) && Grew(t, t') && WritesOneAgent(New(t, t'), [], d)
  {
    hide Grew;
    ArrivedIsGrown(t, t');
  }

  /**
   A run of the worker with a valid version attempts exactly one of the sequences
   failed; started, failed; started, stack_complete, failed; started, stack_complete, runtime_ready,
   and sends it unless the instance id is blank.  It makes at most one deploy call per kind, exactly
   when the lookup of that kind finds nothing to take up.  Wherever new rows turn up in the table: if at
   the start the search for a name leads into a set of use cases, to which also the rows on their way
   belong, the lookup is about one of that set.
   */
  method LambdaHandler(p: Platform, d: Detail, built: Call<Built>, ghost agentIds: set<string>, ghost gatewayIds: set<string>)
    returns (ghost es: seq<Event>, ghost ds: seq<Deployment>, ghost gateway: Option<Finding>, ghost agent: Option<Finding>)
    modifies p
    ensures p.events == old(p.events) + Sent(d, es)
    ensures p.synced == old(p.synced) + Synced(es)
    ensures d.version != "2" || d.tenantId == "" ==> p.registered == old(p.registered)
    ensures d.version == "2" && d.tenantId != "" ==>
              p.registered == old(p.registered) + [d.tenantId] || (p.registered == old(p.registered) && p.faults > old(p.faults))
    ensures if d.version == "2" then Complete(es) else es == []
    ensures p.deploys == old(p.deploys) + ds && OneOfEachKind(ds) && SameGateway(es, ds)
    ensures agent.Some? ==> d.agentName.Some?
    ensures p.lookups == old(p.lookups) + Looked(GatewayQuery(d), gateway) + if agent.Some? then Looked(AgentQuery(d), agent) else []
    ensures AsFound(d, built, es, ds, gateway, agent)
    ensures forall e <- es :: e.RuntimeReady? ==> ShownActive(p.probed, |old(p.probed)|, e.useCaseId)
    ensures AgentLeadsInto(old(p.table), d, agentIds) ==> Concerns(agent, agentIds)
    ensures LeadsInto(old(p.table), GatewayQuery(d), gatewayIds) ==> Concerns(gateway, gatewayIds)
    ensures Grew(old(p.table), p.table) && WritesOneAgent(New(old(p.table), p.table), ds, d)
    ensures NamesLead(es, old(p.table), p.table, d)
    ensures p.faults >= old(p.faults)
    ensures d.version == "2" && (d.tenantId == "" || (d.agentName.None? && p.faults == old(p.faults))) ==> es == [Failed(None, None)]
    ensures Smooth(d, built) && p.faults == old(p.faults) ==>
              && es != [] && es[0].Started? && (d.hasProviders <==> gateway.Some?)
              && RunExplained(es[1..], built, agent, p.probed, |old(p.probed)|, p.searched, |old(p.searched)|)
    ensures NamesGateway(es, gateway, built, p.searched, |old(p.searched)|, p.faults > old(p.faults))
    ensures OwnAgent(es, old(p.table), p.table, d) && OwnGateway(es, old(p.table), p.table, d)
  {
    hide Complete, AgentLeadsInto, LeadsInto, OneOfEachKind, TakesUp, CallsForDeploy;
    hide IsAboutOneOf, Grew, New, WritesOneAgent, NamesLead, SameGateway, AsFound, NamesGateway, OwnAgent, OwnGateway, RunExplained;
    hide ShownActive, Looked, Concerns, Synced;
    var threw;
    threw, es, ds, gateway, agent := RunTenantProvision(p, d, built, agentIds, gatewayIds);
    if threw {
      NotifyProvisionStatus(p, d, Failed(None, None));
      FailedSyncsNothing(es);
      es := es + [Failed(None, None)];
      SameNamed(es[..|es|-1], es, d, built, ds, gateway, agent, old(p.table), p.table, p.searched, |old(p.searched)|, p.faults > old(p.faults));
    }
  }

  ghost predicate Names(es: seq<Event>, id: string) {
    exists e <- es :: e.StackComplete? && e.useCaseId == id
  }

  /** Where the agent's name was new, stack_complete names the use case that this run deployed. */
  lemma NewNameIsDeployed(es: seq<Event>, id: string, t: Table, t': Table, d: Detail, ds: seq<Deployment>)
    requires Names(es, id) && NamesLead(es, t, t', d) && WritesOneAgent(New(t, t'), ds, d)
    requires d.agentName.Some? ==> !HasMatch(t.rows + t.pending, AgentQuery(d))
    ensures HasId(New(t, t'), id) && exists a <- ds :: a.DeployAgent?
  {
    hide LeadsInto, New;
    var q := AgentQuery(d);
    IdsOfConcat(t.rows + t.pending, New(t, t'), q);
    assert Ids(t.rows + t.pending, q) == {};
    assert id in Ids(New(t, t'), q);
  }

  /**
   Nothing but the use case has a row of the agent's name on its way: either the run deployed the agent
   and there was no row of the name before, present or on its way, or it deployed none and the rows on
   their way are of that use case.
   */
  ghost predicate NoOtherAgent(t: Table, d: Detail, ds: seq<Deployment>, id: string) {
    d.agentName.Some? ==>
      if exists a <- ds :: a.DeployAgent? then !HasMatch(t.rows + t.pending, AgentQuery(d))
      else Ids(t.pending, AgentQuery(d)) <= {id}
  }

  /** Then the search leads to that one use case for good. */
  lemma NamedIsOnly(es: seq<Event>, id: string, t: Table, t': Table, d: Detail, ds: seq<Deployment>)
    requires Names(es, id) && NamesLead(es, t, t', d) && WritesOneAgent(New(t, t'), ds, d) && NoOtherAgent(t, d, ds, id)
    ensures d.agentName.Some? && Ids(t.pending + New(t, t'), AgentQuery(d)) <= {id}
    ensures AgentLeadsInto(t', d, {id})
  {
    hide LeadsInto, New;
    var q := AgentQuery(d);
    IdsOfConcat(t.pending, New(t, t'), q);
    IdsOfConcat(t.rows + t.pending, New(t, t'), q);
    if exists a <- ds :: a.DeployAgent? {
      assert Ids(t.rows + t.pending, q) == {};
      IdsOfConcat(t.rows, t.pending, q);
    }
    LeadsIntoMore(t', q, {id} + Ids(t.pending + New(t, t'), q), {id});
  }

  lemma NamedLeadsInto(es: seq<Event>, id: string, t: Table, t': Table, d: Detail)
    requires Names(es, id) && NamesLead(es, t, t', d)
    ensures d.agentName.Some? && id != "" && AgentLeadsInto(t', d, {id} + Ids(t.pending + New(t, t'), AgentQuery(d)))
  {
    hide LeadsInto, New, Ids;
  }

  lemma AboutOnly(f: Finding, id: string)
    requires IsAboutOneOf(f, {id}) && id != ""
    ensures !f.NoRow? && (f.Found? ==> f.useCaseId == id)
  {
  }

  /**
   The same request handled twice, as when its event is delivered again after any time, with any table and
   rows turning up anywhere and at any time.  Once the first run got as far as stack_complete for a use case, the second one's lookup
   is about it, or about one whose row was on its way when the first run began or was written by it.
   Where there is no such other use case, as when the name was new, the second run deploys the agent if
   and only if the lookup finds the first one's stack not resuming; a stack_complete without a deploy
   names it again.
   */
  method HandleTwice(p: Platform, d: Detail, built: Call<Built>, builtAgain: Call<Built>, gap: nat, ghost agentId: string)
    returns (ghost first: seq<Event>, ghost second: seq<Event>, ghost between: Table, ghost firstDs: seq<Deployment>, ghost ds: seq<Deployment>,
             ghost gateway: Option<Finding>, ghost agent: Option<Finding>)
    modifies p
    ensures p.events == old(p.events) + Sent(d, first) + Sent(d, second)
    ensures p.deploys == old(p.deploys) + firstDs + ds
    ensures Grew(old(p.table), between) && Grew(between, p.table)
    ensures AsFound(d, builtAgain, second, ds, gateway, agent)
    ensures Names(first, agentId) ==>
              && d.agentName.Some?
              && Concerns(agent, {agentId} + Ids(old(p.table).pending + New(old(p.table), between), AgentQuery(d)))
    ensures Names(first, agentId) && NoOtherAgent(old(p.table), d, firstDs, agentId) ==>
              Ids(old(p.table).pending + New(old(p.table), between), AgentQuery(d)) <= {agentId}
    ensures Names(first, agentId) && Ids(old(p.table).pending + New(old(p.table), between), AgentQuery(d)) <= {agentId} ==>
              && Concerns(agent, {agentId})
              && ((exists a <- ds :: a.DeployAgent?) <==> agent.Some? && agent.value.Found? && !Resumes(agent.value.status))
              && (forall e <- second :: e.StackComplete? && (forall a <- ds :: !a.DeployAgent?) ==> e.useCaseId == agentId)
  {
    hide Complete, OneOfEachKind, SameGateway, NamesLead, LeadsInto, Grew, Arrived;
    hide New, WritesOneAgent, NoOtherAgent, Ids, IsAboutOneOf, Resumes;
    ghost var start := p.table;
    first, firstDs, gateway, agent := LambdaHandler(p, d, built, {}, {});
    between := p.table;
    ghost var ids := {agentId};
    if Names(first, agentId) {
      NamedLeadsInto(first, agentId, start, between, d);
      ids := {agentId} + Ids(start.pending + New(start, between), AgentQuery(d));
      if NoOtherAgent(start, d, firstDs, agentId) { NamedIsOnly(first, agentId, start, between, d, firstDs); }
    }
    p.Sleep(gap);
    if AgentLeadsInto(between, d, ids) { ArrivalKeepsLead(between, p.table, AgentQuery(d), ids); }
    ghost var redelivered := p.table;
    second, ds, gateway, agent := LambdaHandler(p, d, builtAgain, ids, {});
    SinceArrival(between, redelivered, p.table);
    if Names(first, agentId) && agent.Some? && ids == {agentId} { AboutOnly(agent.value, agentId); }
  }
}
