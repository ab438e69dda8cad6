/**
 One run of the orchestrator provisioning worker, for any answers of the services it calls.  Unlike
 the tenant worker it never takes up an earlier deployment, and a search or a probe that throws
 ends the run.
 */
module OrchestratorProvision {
  import opened Calls
  import opened StackStatuses
  import opened UseCaseLookup
  import opened ProvisionPolling

  /**
   The event's fields, trimmed, and the number of members that could be read.  The name is the one the
   deploy body is built under, which is not blank.
   */
  datatype Detail = Detail(version: string, orchestratorId: string, tenantId: string, name: string, members: nat)

  const MAX_AGENTS := 10

  /** The status names FAILED, or is ROLLBACK_COMPLETE. */
  predicate FailsWorkflow(s: StackStatus) {
    || s.CreateFailed? || s.RollbackFailed? || s.DeleteFailed? || s.UpdateFailed?
    || s.UpdateRollbackFailed? || s.ImportRollbackFailed? || s.RollbackComplete?
  }

  lemma FailsByWords(s: StackStatus)
    ensures FailsWorkflow(s) <==> FAILED in Words(s) || Words(s) == [ROLLBACK, COMPLETE]
  {
  }

  predicate Decides(probe: Call<Probe>) {
    probe.Thrown? || IsActive(probe.value.status) || FailsWorkflow(probe.value.status)
  }

  /** The first probe that is active, failed or throws decides; without one the poll uses up its budget. */
  method WaitForWorkflowReady(p: Platform, useCaseId: string, name: string, maxWait: nat, interval: nat)
    returns (r: Call<Poll>, ghost probes: seq<Call<Probe>>)
    requires interval > 0
    modifies p`now, p`table, p`probed, p`asked, p`faults
    ensures forall i :: 0 <= i < |probes| - 1 ==> !Decides(probes[i])
    ensures if probes != [] && Decides(probes[|probes|-1])
            then var last := probes[|probes|-1];
                 if last.Thrown? then r == Thrown(last.message)
                 else r == Answer(if IsActive(last.value.status) then Ready(last.value) else StackFailed(last.value.status))
            else r.Answer? && r.value.TimedOut? && p.now >= old(p.now) + maxWait && Span(|probes|, interval + 3 * p.callMs) >= maxWait
    ensures |probes| <= (maxWait + interval - 1) / interval
    ensures old(p.now) <= p.now <= old(p.now) + maxWait + interval + 3 * p.callMs
    ensures old(p.probed) <= p.probed && p.faults >= old(p.faults) && (r.Thrown? ==> p.faults > old(p.faults))
    ensures |p.probed| == |old(p.probed)| + |probes| - if r.Thrown? then 1 else 0
    ensures forall k :: |old(p.probed)| <= k < |p.probed| ==>
              p.probed[k] == Probed(useCaseId, name, p.probed[k].status) && probes[k - |old(p.probed)|].Answer?
              && p.probed[k].status == probes[k - |old(p.probed)|].value.status
    ensures r.Answer? ==> (r.value.Ready? <==> LastShownActive(p.probed, |old(p.probed)|, useCaseId))
    ensures maxWait > 0 ==> probes != []
    ensures Arrived(old(p.table), p.table)
  {
    hide Arrived, IsActive, FailsWorkflow, Span;
    probes := [];
    ArrivedAtOnce(p.table);
    OneMoreSleep(0, interval);
    OneMoreSleep(0, interval + 3 * p.callMs);
    var deadline := p.now + maxWait;
    var last: Option<StackStatus> := None;
    while p.now < deadline
      invariant forall i :: 0 <= i < |probes| ==> !Decides(probes[i])
      invariant probes != [] ==> Span(|probes| - 1, interval) < maxWait
      invariant old(p.probed) <= p.probed && |p.probed| == |old(p.probed)| + |probes| && p.faults >= old(p.faults)
      invariant forall k :: |old(p.probed)| <= k < |p.probed| ==>
                  p.probed[k] == Probed(useCaseId, name, p.probed[k].status) && probes[k - |old(p.probed)|].Answer?
                  && p.probed[k].status == probes[k - |old(p.probed)|].value.status
      invariant !LastShownActive(p.probed, |old(p.probed)|, useCaseId)
      invariant old(p.now) + Span(|probes|, interval) <= p.now <= deadline + interval + 3 * p.callMs
      invariant p.now <= old(p.now) + Span(|probes|, interval + 3 * p.callMs)
      invariant probes == [] ==> p.now == old(p.now)
      invariant Arrived(old(p.table), p.table)
      decreases deadline - p.now
    {
      ghost var start := p.table;
      var probe;
      ghost var linked, expected;
      probe, linked, expected := p.GetDeploymentProbe(useCaseId, name);
      ArrivedLater(old(p.table), start, p.table);
      OneMoreSleep(|probes|, interval);
      OneMoreSleep(|probes|, interval + 3 * p.callMs);
      probes := probes + [probe];
      ProbesFit(|probes|, maxWait, interval);
      if probe.Thrown? { return Thrown(probe.message), probes; }
      last := Some(probe.value.status);
      assert p.probed[|p.probed|-1] == Probed(useCaseId, name, probe.value.status);
      if IsActive(probe.value.status) { return Answer(Ready(probe.value)), probes; }
      if FailsWorkflow(probe.value.status) { return Answer(StackFailed(probe.value.status)), probes; }
      ghost var before := p.table;
      p.Sleep(interval);
      ArrivedLater(old(p.table), before, p.table);
    }
    ProbesFit(|probes|, maxWait, interval);
    r := Answer(TimedOut(last));
  }

  /** Up to twelve searches, five seconds apart, until one comes to a use case or throws. */
  method ResolveWorkflowUseCaseIdByName(p: Platform, q: Query)
    returns (r: Call<Option<string>>, attempts: nat, ghost found: Table)
    modifies p`now, p`table, p`searched, p`faults
    ensures 1 <= attempts <= 12 && (r == Answer(None) ==> attempts == 12)
    ensures p.now >= old(p.now) + 5000 * (attempts - 1)
    ensures old(p.searched) <= p.searched && |p.searched| == |old(p.searched)| + attempts
    ensures TriedInVain(p.searched, |old(p.searched)|, |p.searched| - 1)
    ensures forall k :: |old(p.searched)| <= k < |p.searched| - 1 ==> p.searched[k].Answer?
    ensures r.Thrown? <==> p.searched[|p.searched|-1].Thrown?
    ensures r.Answer? && r.value.Some? <==> LastUsable(p.searched)
    ensures r.Answer? && r.value.Some? ==> p.searched[|p.searched|-1] == r
    ensures p.faults == old(p.faults) + if r.Thrown? then 1 else 0
    ensures Arrived(old(p.table), found) && Arrived(found, p.table)
    ensures r.Answer? && r.value.Some? ==> r.value.value != "" && FirstId(found.rows, q) == r.value
  {
    hide Arrived, FirstId;
    attempts, found := 0, p.table;
    ArrivedAtOnce(p.table);
    while attempts < 12
      invariant attempts <= 12 && p.now >= old(p.now) + if attempts == 0 then 0 else 5000 * (attempts - 1)
      invariant old(p.searched) <= p.searched && |p.searched| == |old(p.searched)| + attempts
      invariant TriedInVain(p.searched, |old(p.searched)|, |p.searched|) && p.faults == old(p.faults)
      invariant forall k :: |old(p.searched)| <= k < |p.searched| ==> p.searched[k].Answer?
      invariant Arrived(old(p.table), p.table)
    {
      if attempts > 0 {
        ghost var before := p.table;
        p.Sleep(5000);
        ArrivedLater(old(p.table), before, p.table);
      }
      attempts := attempts + 1;
      ghost var before := p.table;
      r, found := p.Scan(q);
      ArrivedLater(old(p.table), before, found);
      ArrivedLater(old(p.table), found, p.table);
      if r.Thrown? || (r.value.Some? && r.value.value != "") { return; }
    }
    ArrivedAtOnce(p.table);
    r, found := Answer(None), p.table;
  }

  // ---------- The run ----------

  /** What a run has sent when it throws, or when it returns. */
  ghost predicate Sends(es: seq<Event>, threw: bool) {
    if threw then es == [Started] || (|es| == 2 && es[0] == Started && es[1].StackComplete?)
    else Complete(es)
  }

  method Notify(p: Platform, e: Event)
    modifies p`events
    ensures p.events == old(p.events) + [e]
  {
    p.events := p.events + [e];
  }

  /**
   From the poll of the workflow stack on: one more event, unless it throws.  Without a fault it is
   runtime_ready if and only if the last probe showed the stack active.
   */
  method FinishWorkflow(p: Platform, d: Detail, id: string, startedAt: nat) returns (threw: bool, last: Event)
    requires startedAt <= p.now
    modifies p`now, p`table, p`probed, p`asked, p`events, p`faults, p`synced
    ensures p.events == if threw then old(p.events) else old(p.events) + [last]
    ensures p.synced == old(p.synced) + if threw then [] else Synced([last])
    ensures old(p.probed) <= p.probed && p.faults >= old(p.faults) && (threw ==> p.faults > old(p.faults))
    ensures last == Failed(Some(id), None) || last == RuntimeReady(id, None)
    ensures last.RuntimeReady? ==> LastShownActive(p.probed, |old(p.probed)|, id)
    ensures last.Failed? && LastShownActive(p.probed, |old(p.probed)|, id) ==> p.faults > old(p.faults)
    ensures p.faults == old(p.faults) ==> |p.probed| > |old(p.probed)|
    ensures AllOf(p.probed, |old(p.probed)|, id, d.name)
    ensures Arrived(old(p.table), p.table)
  {
    hide Arrived, Decides, IsActive, Span;
    last := Failed(Some(id), None);
    ghost var probes;
    var ready;
    ready, probes := WaitForWorkflowReady(p, id, d.name, RemainingMs(p.now, startedAt), 20_000);
    ghost var polled := p.table;
    if ready.Thrown? { return true, last; }
    if !ready.value.Ready? {
      var final;
      ghost var linked, expected;
      final, linked, expected := p.GetDeploymentProbe(id, d.name);
      ArrivedLater(old(p.table), polled, p.table);
      polled := p.table;
      if final.Thrown? { return true, last; }
      assert p.probed[|p.probed|-1] == Probed(id, d.name, final.value.status);
      if !IsActive(final.value.status) {
        Notify(p, last);
        return false, last;
      }
    }
    var syncThrew := p.SyncRuntime(id);
    ArrivedLater(old(p.table), polled, p.table);
    if !syncThrew { last := RuntimeReady(id, None); }
    Notify(p, last);
    threw := false;
  }

  function WorkflowQuery(d: Detail): Query {
    Query(d.name, d.tenantId, "Workflow")
  }

  /** Where the name was new, stack_complete names the use case that this run deployed. */
  ghost predicate NamesNew(es: seq<Event>, t: Table, t': Table, d: Detail) {
    !HasMatch(t.rows + t.pending, WorkflowQuery(d)) ==> forall e <- es :: e.StackComplete? ==> HasId(New(t, t'), e.useCaseId)
  }

  /** The use case that stack_complete names has a row of the tenant. */
  ghost predicate OwnWorkflow(es: seq<Event>, t: Table, t': Table, d: Detail) {
    forall e <- es :: e.StackComplete? ==> OwnRow(t, t', e.useCaseId, d.name, d.tenantId, "Workflow")
  }

  /**
   Without a fault, a run beyond its deploy call ends in one of three ways: the new use case was searched
   for twelve times in vain; or, after stack_complete, with runtime_ready if and only if the last probe
   showed the stack active.
   */
  ghost predicate WorkflowExplained(es: seq<Event>, probed: seq<Probed>, from: nat, searched: seq<Call<Option<string>>>, since: nat) {
    || (|es| == 1 && es[0].Failed? && InVain(searched, since))
    || (|es| == 2 && es[0].StackComplete? && from < |probed| && (es[1].RuntimeReady? <==> LastShownActive(probed, from, es[0].useCaseId)))
  }

  /** The run from the deploy call on. */
  method DeployWorkflowRun(p: Platform, d: Detail) returns (threw: bool, ghost es: seq<Event>)
    requires d.tenantId != ""
    modifies p
    ensures p.events == old(p.events) + es
    ensures p.synced == old(p.synced) + Synced(es)
    ensures if threw then es == [] || (|es| == 1 && es[0].StackComplete?) else Complete([Started] + es)
    ensures p.deploys == old(p.deploys) + [DeployWorkflow(d.name)]
    ensures old(p.probed) <= p.probed && p.faults >= old(p.faults)
    ensures forall e <- es :: e.RuntimeReady? ==> ShownActive(p.probed, |old(p.probed)|, e.useCaseId)
    ensures p.faults == old(p.faults) ==>
              !threw && WorkflowExplained(es, p.probed, |old(p.probed)|, p.searched, |old(p.searched)|)
    ensures Grew(old(p.table), p.table) && NamesNew(es, old(p.table), p.table, d) && OwnWorkflow(es, old(p.table), p.table, d)
  {
    hide *;
    es := [];
    ghost var start, before := p.table, p.searched;
    var startedAt := p.now;
    var invoked := p.InvokeDeployApi(DeployWorkflow(d.name), d.tenantId);
    ghost var called := p.table;
    NoneNew([], start, called, d);
    NoneNew([Failed(None, None)], start, called, d);
    FailedIsComplete();
    if invoked.Thrown? { return true, es; }
    if invoked.value.Some? {
      Notify(p, Failed(None, None));
      return false, [Failed(None, None)];
    }
    var id;
    var attempts;
    ghost var found;
    id, attempts, found := ResolveWorkflowUseCaseIdByName(p, WorkflowQuery(d));
    ArrivedLater(called, found, p.table);
    ThenArrived(start, called, p.table);
    NoneNew([], start, p.table, d);
    NoneNew([Failed(None, None)], start, p.table, d);
    if id.Thrown? { return true, es; }
    if id.value.None? {
      TwelveInVain(p.searched, |before|, |p.searched| - 12);
      SearchExplains([Failed(None, None)], p.probed, |p.probed|, p.searched, |before|);
      Notify(p, Failed(None, None));
      return false, [Failed(None, None)];
    }
    DeployedIsNamed(start, called, found, p.table, WorkflowQuery(d), id.value.value);
    Notify(p, StackComplete(id.value.value, None));
    ghost var resolved, probes := p.table, |p.probed|;
    var last;
    threw, last := FinishWorkflow(p, d, id.value.value, startedAt);
    ArrivedLater(found, resolved, p.table);
    ThenArrived(start, found, p.table);
    ThenArrived(start, resolved, p.table);
    es := [StackComplete(id.value.value, None)] + if threw then [] else [last];
    NamedAsNew(es, start, found, p.table, d, id.value.value);
    NamedAsOwn(es, start, resolved, p.table, d, id.value.value);
    LastIsShown(p.probed, probes, id.value.value);
    LastExplains(es, p.probed, probes, p.searched, |before|);
    FinishedIsComplete(id.value.value, last);
  }

  lemma FailedIsComplete()
    ensures Complete([Started] + [Failed(None, None)])
    ensures Synced([]) == [] && Synced([Failed(None, None)]) == []
  {
  }

  lemma FinishedIsComplete(id: string, last: Event)
    requires last == RuntimeReady(id, None) || last.Failed?
    ensures Complete([Started] + [StackComplete(id, None), last])
    ensures [StackComplete(id, None)] + [last] == [StackComplete(id, None), last]
    ensures Synced([StackComplete(id, None), last]) == Synced([last]) && Synced([StackComplete(id, None)] + []) == []
  {
  }

  lemma SearchExplains(es: seq<Event>, probed: seq<Probed>, from: nat, searched: seq<Call<Option<string>>>, since: nat)
    requires |es| == 1 && es[0].Failed? && InVain(searched, since)
    ensures WorkflowExplained(es, probed, from, searched, since)
  {
  }

  lemma LastExplains(es: seq<Event>, probed: seq<Probed>, from: nat, searched: seq<Call<Option<string>>>, since: nat)
    ensures && |es| == 2 && es[0].StackComplete? && from < |probed|
            && (es[1].RuntimeReady? <==> LastShownActive(probed, from, es[0].useCaseId))
            ==> WorkflowExplained(es, probed, from, searched, since)
  {
  }

  lemma NamedAsOwn(es: seq<Event>, t: Table, named: Table, t': Table, d: Detail, id: string)
    requires NamedSince(t, named, WorkflowQuery(d), id, true) && Arrived(named, t') && Grew(t, named) && d.tenantId != ""
    requires forall e <- es :: e.StackComplete? ==> e.useCaseId == id
    ensures OwnWorkflow(es, t, t', d)
  {
    hide Grew, Arrived, NamedSince, OwnRow;
    NamedHasOwnRow(t, named, WorkflowQuery(d), id, true);
    ArrivedIsGrown(named, t');
    OwnRowStill(t, named, t', id, d.name, d.tenantId, "Workflow");
  }

  lemma NamedAsNew(es: seq<Event>, t: Table, found: Table, t': Table, d: Detail, id: string)
    requires NamesDeployed(t, found, WorkflowQuery(d), id) && New(t, found) == New(t, t')
    requires forall e <- es :: e.StackComplete? ==> e.useCaseId == id
    ensures NamesNew(es, t, t', d)
  {
    hide HasMatch, HasId, New;
  }

  /** A request of version 1 for an orchestrator of a tenant with at most ten members, whose deploy body is built. */
  predicate Smooth(d: Detail, built: bool) {
    d.version == "1" && d.orchestratorId != "" && d.tenantId != "" && d.members <= 10 && built
  }

  method RunOrchestratorProvision(p: Platform, d: Detail, built: bool) returns (threw: bool, ghost es: seq<Event>)
    modifies p
    ensures p.events == old(p.events) + es
    ensures p.synced == old(p.synced) + Synced(es)
    ensures d.version != "1" || d.orchestratorId == "" ==> es == [] && !threw
    ensures d.version == "1" && d.orchestratorId != "" ==> Sends(es, threw)
    ensures d.version == "1" && d.orchestratorId != "" ==> (d.tenantId == "" || d.members > 10 <==> es == [Failed(None, None)])
    ensures p.faults >= old(p.faults)
    ensures es != [] && es[0].Started? && !built && p.faults == old(p.faults) ==> es == [Started, Failed(None, None)] && !threw
    ensures p.deploys == old(p.deploys) || p.deploys == old(p.deploys) + [DeployWorkflow(d.name)]
    ensures forall e <- es :: e.StackComplete? ==> p.deploys == old(p.deploys) + [DeployWorkflow(d.name)]
    ensures forall e <- es :: e.RuntimeReady? ==> ShownActive(p.probed, |old(p.probed)|, e.useCaseId)
    ensures Smooth(d, built) && p.faults == old(p.faults) ==>
              && !threw && es != [] && es[0].Started? && p.deploys == old(p.deploys) + [DeployWorkflow(d.name)]
              && WorkflowExplained(es[1..], p.probed, |old(p.probed)|, p.searched, |old(p.searched)|)
    ensures Grew(old(p.table), p.table) && NamesNew(es, old(p.table), p.table, d) && OwnWorkflow(es, old(p.table), p.table, d)
  {
    hide Grew, Arrived, New, NamesNew, ShownActive, Kind, OwnWorkflow, WorkflowExplained;
    threw, es := false, [];
    GrewNothing(p.table);
    NoneNew(es, p.table, p.table, d);
    NoneNew([Failed(None, None)], p.table, p.table, d);
    if d.version != "1" || d.orchestratorId == "" { return; }
    if d.tenantId == "" || d.members > MAX_AGENTS {
      Notify(p, Failed(None, None));
      return false, [Failed(None, None)];
    }
    Notify(p, Started);
    ghost var start := p.table;
    threw := p.Call();                       // the deploy body is built from the members
    ArrivedAtOnce(p.table);
    SinceArrival(start, p.table, p.table);
    NoneNew([Started], start, p.table, d);
    NoneNew([Started, Failed(None, None)], start, p.table, d);
    if threw { return threw, [Started]; }
    if !built {
      Notify(p, Failed(None, None));
      return false, [Started, Failed(None, None)];
    }
    ghost var called := p.table;
    ghost var more;
    threw, more := DeployWorkflowRun(p, d);
    es := [Started] + more;
    assert es[1..] == more;
    SinceArrival(start, called, p.table);
    NewSinceStart(more, es, start, called, p.table, d);
  }

  lemma NoneNew(es: seq<Event>, t: Table, t': Table, d: Detail)
    requires forall e <- es :: !e.StackComplete?
    ensures NamesNew(es, t, t', d) && OwnWorkflow(es, t, t', d)
  {
  }

  /** Rows that only turned up were on their way at the start. */
  lemma NewSinceStart(es: seq<Event>, es': seq<Event>, t: Table, called: Table, t': Table, d: Detail)
    requires Arrived(t, called) && Grew(called, t') && NamesNew(es, called, t', d) && OwnWorkflow(es, called, t', d) && es' == [Started] + es
    ensures NamesNew(es', t, t', d) && OwnWorkflow(es', t, t', d)
  {
    hide Grew, HasId, Matches, OwnRow;
    SinceArrival(t, called, t');
    ArrivedIsGrown(t, called);
    assert New(t, called) == [];
    if !HasMatch(t.rows + t.pending, WorkflowQuery(d)) {
      forall row | row in called.rows + called.pending ensures !Matches(row, WorkflowQuery(d)) {
        RowsOf(t, called, row);
      }
    }
    forall e | e in es' && e.StackComplete? ensures OwnRow(t, t', e.useCaseId, d.name, d.tenantId, "Workflow") {
      OwnRowSinceStart(t, called, t', e.useCaseId, d.name, d.tenantId, "Workflow");
    }
  }

  /**
   A provision request that names an orchestrator attempts exactly one of the four sequences, and deploys at
   most once.  It fails at once exactly for a request without a tenant or with too many members; and without
   a fault the way it ends follows from the searches and the last probe.
   */
  method HandleProvisionRequested(p: Platform, d: Detail, built: bool) returns (ghost es: seq<Event>)
    modifies p
    ensures p.events == old(p.events) + es
    ensures p.synced == old(p.synced) + Synced(es)
    ensures if d.version == "1" && d.orchestratorId != "" then Complete(es) else es == []
    ensures d.version == "1" && d.orchestratorId != "" ==> (d.tenantId == "" || d.members > 10 <==> es == [Failed(None, None)])
    ensures p.faults >= old(p.faults)
    ensures es != [] && es[0].Started? && !built && p.faults == old(p.faults) ==> es == [Started, Failed(None, None)]
    ensures p.deploys == old(p.deploys) || p.deploys == old(p.deploys) + [DeployWorkflow(d.name)]
    ensures forall e <- es :: e.StackComplete? ==> p.deploys == old(p.deploys) + [DeployWorkflow(d.name)]
    ensures forall e <- es :: e.RuntimeReady? ==> ShownActive(p.probed, |old(p.probed)|, e.useCaseId)
    ensures Smooth(d, built) && p.faults == old(p.faults) ==>
              && es != [] && es[0].Started? && p.deploys == old(p.deploys) + [DeployWorkflow(d.name)]
              && WorkflowExplained(es[1..], p.probed, |old(p.probed)|, p.searched, |old(p.searched)|)
    ensures Grew(old(p.table), p.table) && NamesNew(es, old(p.table), p.table, d) && OwnWorkflow(es, old(p.table), p.table, d)
  {
    hide Grew, New, HasMatch, HasId, OwnRow, WorkflowExplained;
    var threw;
    threw, es := RunOrchestratorProvision(p, d, built);
    if threw && d.orchestratorId != "" {
      Notify(p, Failed(None, None));
      es := es + [Failed(None, None)];
    }
  }
}
