/**
 The platform the provisioning workers deploy to, and the polls they run under a shared
 wall-clock budget.  Sleeps are exact, a call takes at most `callMs`, and a row of a new
 deployment turns up at any time, if at all: during a sleep, a call, a search or the deploy call
 itself, and anywhere in the table.
 */
module ProvisionPolling {
  import opened Calls
  import opened Strings
  import opened StackStatuses
  import opened UseCaseLookup

  datatype Probe = Probe(status: StackStatus, url: Option<string>)

  datatype Event =
    | Started
    | StackComplete(useCaseId: string, gateway: Option<string>)
    | RuntimeReady(useCaseId: string, gateway: Option<string>)
    | Failed(about: Option<string>, gateway: Option<string>)

  /** One terminal event, and it is last; runtime_ready names the use case and gateway of stack_complete. */
  ghost predicate Complete(es: seq<Event>) {
    || (|es| == 1 && es[0].Failed?)
    || (|es| == 2 && es[0].Started? && es[1].Failed?)
    || (|es| == 3 && es[0].Started? && es[1].StackComplete? && es[2].Failed?)
    || (|es| == 3 && es[0].Started? && es[1].StackComplete? && es[2] == RuntimeReady(es[1].useCaseId, es[1].gateway))
  }

  /** What a run that sent these events has synchronised: the use case of runtime_ready. */
  ghost function Synced(es: seq<Event>): seq<string> {
    if es != [] && es[|es|-1].RuntimeReady? then [es[|es|-1].useCaseId] else []
  }

  /** A call of the deploy API.  An agent carries the gateway it is told of and the MCP server it is given. */
  datatype Deployment =
    | DeployGateway(name: string)
    | DeployAgent(name: string, gateway: Option<string>, server: Option<string>)
    | DeployWorkflow(name: string)

  function Kind(d: Deployment): string {
    match d
    case DeployGateway(_) => "MCPServer"
    case DeployAgent(_, _, _) => "AgentBuilder"
    case DeployWorkflow(_) => "Workflow"
  }

  /** Statuses with which an earlier deployment is taken up again. */
  predicate Resumes(s: StackStatus) {
    IsActive(s) || IsInProgress(s) || s.NoStatus?
  }

  /** What a probe asked for: a row of the table, or a stack by its expected name. */
  datatype Asked = RowOf(useCaseId: string) | StackCalled(name: string)

  /** A use case's stack is expected under its name and the first eight characters of its id. */
  function ExpectedStackName(name: string, useCaseId: string): string {
    name + "-" + Take(useCaseId, 8)
  }

  /** Use cases of one name have different expected stacks exactly when their ids differ in the first eight characters. */
  lemma ExpectedNamesDiffer(name: string, one: string, other: string, more: string, rest: string)
    requires |one| == |other| == 8
    ensures ExpectedStackName(name, one + more) == ExpectedStackName(name, other + rest) <==> one == other
    ensures ExpectedStackName(name, one + more) == name + "-" + one
  {
    CutKeepsStart(one, more);
    CutKeepsStart(other, rest);
    var a, b := ExpectedStackName(name, one + more), ExpectedStackName(name, other + rest);
    assert a[|name| + 1..] == one && b[|name| + 1..] == other;
  }

  /** A probe that was answered: of which use case, under which name, and its status. */
  datatype Probed = Probed(useCaseId: string, name: string, status: StackStatus)

  /** The probes made since `from` are all of that use case and under that name. */
  ghost predicate AllOf(probed: seq<Probed>, from: nat, useCaseId: string, name: string) {
    forall k :: from <= k < |probed| ==> probed[k].useCaseId == useCaseId && probed[k].name == name
  }

  /** A probe made since `from` showed the stack active. */
  ghost predicate ShownActive(probed: seq<Probed>, from: nat, useCaseId: string) {
    exists k :: from <= k < |probed| && probed[k].useCaseId == useCaseId && IsActive(probed[k].status)
  }

  /** The last probe made since `from` showed the stack active. */
  ghost predicate LastShownActive(probed: seq<Probed>, from: nat, useCaseId: string) {
    from < |probed| && probed[|probed|-1].useCaseId == useCaseId && IsActive(probed[|probed|-1].status)
  }

  lemma LastIsShown(probed: seq<Probed>, from: nat, id: string)
    ensures LastShownActive(probed, from, id) ==> ShownActive(probed, from, id)
  {
  }

  lemma ShownLater(probed: seq<Probed>, from: nat, later: nat, id: string)
    requires from <= later <= |probed|
    ensures LastShownActive(probed, later, id) ==> LastShownActive(probed, from, id)
    ensures later < |probed| ==> (LastShownActive(probed, later, id) <==> LastShownActive(probed, from, id))
  {
  }

  /** A search that came to a use case. */
  predicate Usable(searched: Call<Option<string>>) {
    searched.Answer? && searched.value.Some? && searched.value.value != ""
  }

  ghost predicate LastUsable(searched: seq<Call<Option<string>>>) {
    searched != [] && Usable(searched[|searched|-1])
  }

  /** What the lookup of an earlier deployment came to. */
  datatype Finding = SearchThrew | ProbeThrew(useCaseId: string) | NoRow | Found(useCaseId: string, status: StackStatus)

  datatype Lookup = Lookup(q: Query, finding: Finding)

  predicate TakesUp(f: Finding) {
    f.Found? && Resumes(f.status)
  }

  /** Nothing to take up: a deployment is called for. */
  predicate CallsForDeploy(f: Finding) {
    f.NoRow? || (f.Found? && !Resumes(f.status))
  }

  /** The finding is an answer of the search: it comes to the first matching row, whatever the paging. */
  ghost predicate Answers(f: Finding, rows: seq<Row>, q: Query) {
    match f
    case SearchThrew => true
    case NoRow => FirstId(rows, q) in {None, Some("")}
    case ProbeThrew(id) => id != "" && FirstId(rows, q) == Some(id)
    case Found(id, _) => id != "" && FirstId(rows, q) == Some(id)
  }

  /** The search threw, or it came to one of those use cases. */
  ghost predicate IsAboutOneOf(f: Finding, ids: set<string>) {
    match f
    case SearchThrew => true
    case NoRow => "" in ids
    case ProbeThrew(id) => id in ids
    case Found(id, _) => id in ids
  }

  /** The finding is an answer of a search made before anything was written. */
  ghost predicate AnswersSince(f: Finding, t: Table, t': Table, q: Query) {
    exists shown: Table :: Arrived(t, shown) && Grew(shown, t') && Answers(f, shown.rows, q)
  }

  lemma AnswersStill(f: Finding, t: Table, t': Table, later: Table, q: Query)
    requires AnswersSince(f, t, t', q) && Grew(t', later)
    ensures AnswersSince(f, t, later, q)
  {
    hide Answers, Grew;
    var shown: Table :| Arrived(t, shown) && Grew(shown, t') && Answers(f, shown.rows, q);
    GrewTransitive(shown, t', later);
  }

  lemma FindingIsLed(f: Finding, t: Table, t': Table, q: Query, ids: set<string>)
    requires AnswersSince(f, t, t', q) && LeadsInto(t, q, ids)
    ensures IsAboutOneOf(f, ids)
  {
    hide Grew, FirstId, Ids;
    var shown: Table :| Arrived(t, shown) && Grew(shown, t') && Answers(f, shown.rows, q);
    assert New(t, shown) == [];
    NoIds(q);
    LeadStaysInside(t, shown, q, ids);
  }

  /** What one deploy call writes: its row, or nothing. */
  ghost predicate WritesOne(written: seq<Row>, d: Deployment, tenant: string) {
    written == [] || (|written| == 1 && written[0] == Row(written[0].id, Some(d.name), Some(tenant), Some(Kind(d))))
  }

  /** Ids of use cases are not used again. */
  ghost predicate UnderNewKeys(t: Table, t': Table) {
    forall w <- New(t, t'), row <- t.rows + t.pending :: w.id != row.id
  }

  class Platform {
    const callMs: nat
    var table: Table
    var now: nat
    // What the probes answered, and what the lookups of earlier deployments came to.
    ghost var probed: seq<Probed>
    ghost var asked: seq<Asked>
    ghost var lookups: seq<Lookup>
    ghost var events: seq<Event>
    ghost var deploys: seq<Deployment>
    // What the searches answered, and how many calls threw or were refused.
    ghost var searched: seq<Call<Option<string>>>
    ghost var faults: nat
    // The tenants whose row was written, and the use cases whose runtime environment was synchronised.
    ghost var registered: seq<string>
    ghost var synced: seq<string>

    constructor (callMs: nat, rows: seq<Row>, pending: seq<Row>, now: nat)
      ensures this.callMs == callMs && this.table == Table(rows, pending, []) && this.now == now
      ensures probed == [] && lookups == [] && events == [] && deploys == [] && searched == [] && faults == 0
      ensures registered == [] && synced == [] && asked == []
    {
      this.callMs, this.table, this.now := callMs, Table(rows, pending, []), now;
      probed, lookups, events, deploys, searched, faults := [], [], [], [], [], 0;
      registered, synced, asked := [], [], [];
    }

    method Sleep(ms: nat)
      modifies this`now, this`table
      ensures now == old(now) + ms
      ensures Arrived(old(table), table)
    {
      now := now + ms;
      table := Arrive(table);
    }

    method Call() returns (throws: bool)
      modifies this`now, this`table, this`faults
      ensures old(now) <= now <= old(now) + callMs
      ensures Arrived(old(table), table)
      ensures faults == old(faults) + if throws then 1 else 0
    {
      var took: int := *;
      if 0 < took <= callMs { now := now + took; }
      table := Arrive(table);
      throws := *;
      faults := faults + if throws then 1 else 0;
    }

    method WriteTenant(tenantId: string) returns (throws: bool)
      modifies this`now, this`table, this`faults, this`registered
      ensures old(now) <= now <= old(now) + callMs
      ensures Arrived(old(table), table)
      ensures faults == old(faults) + if throws then 1 else 0
      ensures registered == old(registered) + if throws then [] else [tenantId]
    {
      throws := Call();
      if !throws { registered := registered + [tenantId]; }
    }

    method SyncRuntime(useCaseId: string) returns (throws: bool)
      modifies this`now, this`table, this`faults, this`synced
      ensures old(now) <= now <= old(now) + callMs
      ensures Arrived(old(table), table)
      ensures faults == old(faults) + if throws then 1 else 0
      ensures synced == old(synced) + if throws then [] else [useCaseId]
    {
      throws := Call();
      if !throws { synced := synced + [useCaseId]; }
    }

    /** The search, and the table as it was shown to it. */
    method Scan(q: Query) returns (r: Call<Option<string>>, ghost shown: Table)
      modifies this`now, this`table, this`searched, this`faults
      ensures now >= old(now)
      ensures Arrived(old(table), shown) && Arrived(shown, table)
      ensures r.Answer? ==> r.value == FirstId(shown.rows, q)
      ensures searched == old(searched) + [r] && faults == old(faults) + if r.Thrown? then 1 else 0
    {
      var took: int := *;
      if 0 < took { now := now + took; }
      var fails: nat -> bool := *;
      r, table, shown := FindUseCaseIdByName(table, q, fails);
      searched := searched + [r];
      faults := faults + if r.Thrown? then 1 else 0;
    }

    /** The deploy API: None when it accepts the deployment, whose row, under a new key, may turn up before it answers. */
    method InvokeDeployApi(d: Deployment, tenant: string) returns (r: Call<Option<string>>)
      modifies this`now, this`table, this`deploys, this`faults
      ensures now >= old(now)
      ensures deploys == old(deploys) + [d]
      ensures Grew(old(table), table)
      ensures WritesOne(New(old(table), table), d, tenant) && UnderNewKeys(old(table), table)
      ensures faults >= old(faults) && (faults == old(faults) <==> r == Answer(None))
    {
      hide Grew;
      var throws := Call();
      deploys := deploys + [d];
      var id: string := *;
      var written: bool := *;
      var row := Row(id, Some(d.name), Some(tenant), Some(Kind(d)));
      ghost var called := table;
      GrewNothing(called);
      if written && forall other <- table.rows + table.pending :: other.id != id {
        WritingGrows(table, row);
        table := Written(table, row);
      }
      NewKeysSince(old(table), called, table);
      ghost var wrote := table;
      table := Arrive(table);
      ThenArrived(old(table), wrote, table);
      if throws { return Thrown("invoke failed"); }
      var refused: bool := *;
      var message: string := *;
      faults := faults + if refused then 1 else 0;
      r := Answer(if refused then Some(message) else None);
    }

    /** Describing a stack never throws: a failed call reads as no status. */
    method DescribeStack() returns (probe: Probe)
      modifies this`now, this`table, this`faults
      ensures old(now) <= now <= old(now) + callMs
      ensures Arrived(old(table), table)
      ensures faults == old(faults) || (faults == old(faults) + 1 && probe.status.NoStatus?)
    {
      var throws := Call();
      probe := *;
      if throws { probe := Probe(NoStatus, None); }
    }

    /** The stack of the use case's row, if one is linked yet. */
    method GetUseCaseProbe(useCaseId: string) returns (r: Call<Probe>)
      modifies this`now, this`table, this`faults, this`asked
      ensures asked == old(asked) + [RowOf(useCaseId)]
      ensures old(now) <= now <= old(now) + 2 * callMs
      ensures Arrived(old(table), table)
      ensures faults >= old(faults) && (r.Thrown? ==> faults > old(faults))
    {
      hide Arrived;
      asked := asked + [RowOf(useCaseId)];
      var throws := Call();
      if throws { return Thrown("get failed"); }
      var linked: bool := *;
      if !linked { return Answer(Probe(NoStatus, None)); }
      ghost var before := table;
      var probe := DescribeStack();
      ArrivedLater(old(table), before, table);
      r := Answer(probe);
    }

    /** The stack of that name. */
    method GetProbeByStackName(name: string) returns (probe: Probe)
      modifies this`now, this`table, this`faults, this`asked
      ensures asked == old(asked) + [StackCalled(name)]
      ensures old(now) <= now <= old(now) + callMs
      ensures Arrived(old(table), table)
      ensures faults == old(faults) || (faults == old(faults) + 1 && probe.status.NoStatus?)
    {
      asked := asked + [StackCalled(name)];
      probe := DescribeStack();
    }

    /** The linked stack when it has a status, or else the stack expected by name, if that has one. */
    method GetDeploymentProbe(useCaseId: string, name: string)
      returns (r: Call<Probe>, ghost linked: Call<Probe>, ghost expected: Option<Probe>)
      modifies this`now, this`table, this`probed, this`asked, this`faults
      ensures asked == old(asked) + [RowOf(useCaseId)] + if expected.Some? then [StackCalled(ExpectedStackName(name, useCaseId))] else []
      ensures old(now) <= now <= old(now) + 3 * callMs
      ensures Arrived(old(table), table)
      ensures probed == old(probed) + if r.Answer? then [Probed(useCaseId, name, r.value.status)] else []
      ensures expected.Some? <==> linked.Answer? && linked.value.status.NoStatus? && name != ""
      ensures r == if expected.Some? && !expected.value.status.NoStatus? then Answer(expected.value) else linked
      ensures faults >= old(faults) && (r.Thrown? ==> faults > old(faults))
    {
      hide Arrived;
      r := GetUseCaseProbe(useCaseId);
      linked, expected := r, None;
      if r.Thrown? { return; }
      if r.value.status.NoStatus? && name != "" {
        ghost var before := table;
        var byStackName := GetProbeByStackName(ExpectedStackName(name, useCaseId));
        ArrivedLater(old(table), before, table);
        expected := Some(byStackName);
        if !byStackName.status.NoStatus? { r := Answer(byStackName); }
      }
      probed := probed + [Probed(useCaseId, name, r.value.status)];
    }
  }

  function Written(t: Table, row: Row): Table {
    t.(pending := t.pending + [row], written := t.written + [row])
  }

  lemma WritingGrows(t: Table, row: Row)
    ensures Grew(t, Written(t, row)) && New(t, Written(t, row)) == [row]
  {
    hide Within;
    WithinSelf(t.rows);
  }

  lemma NewKeysSince(t: Table, called: Table, t': Table)
    requires Arrived(t, called) && Grew(called, t') && UnderNewKeys(called, t')
    ensures Grew(t, t') && New(t, t') == New(called, t') && UnderNewKeys(t, t')
  {
    hide Grew;
    GrewTransitive(t, called, t');
    assert New(t, called) == [];
    forall w, row | w in New(t, t') && row in t.rows + t.pending ensures w.id != row.id {
      RowsOf(t, called, row);
      assert row in called.rows + called.pending;
    }
  }

  // ---------- Polling a stack ----------

  datatype Poll = Ready(probe: Probe) | StackFailed(status: StackStatus) | TimedOut(last: Option<StackStatus>)

  /** What a poll returns for the probes it made: the first active or failed one decides. */
  function Verdict(probes: seq<Call<Probe>>, last: Option<StackStatus>): Poll {
    if probes == [] then TimedOut(last)
    else
      match probes[0]
      case Thrown(_) => Verdict(probes[1..], last)
      case Answer(probe) =>
        if IsActive(probe.status) then Ready(probe)
        else if IsFailedDeploy(probe.status) then StackFailed(probe.status)
        else Verdict(probes[1..], Some(probe.status))
  }

  lemma {:induction false} VerdictOfOneMore(probes: seq<Call<Probe>>, last: Option<StackStatus>, probe: Call<Probe>)
    ensures var before := Verdict(probes, last);
            Verdict(probes + [probe], last) == if before.TimedOut? then Verdict([probe], before.last) else before
  {
    if probes == [] {
      assert probes + [probe] == [probe];
    } else {
      assert (probes + [probe])[1..] == probes[1..] + [probe];
      VerdictOfOneMore(probes[1..], last, probe);
      if probes[0].Answer? { VerdictOfOneMore(probes[1..], Some(probes[0].value.status), probe); }
    }
  }

  lemma NoProbes()
    ensures Verdict([], None) == TimedOut(None)
  {
  }

  lemma FirstDecisiveProbe(probes: seq<Call<Probe>>, last: Option<StackStatus>, probe: Call<Probe>)
    requires Verdict(probes, None) == TimedOut(last)
    ensures Verdict(probes + [probe], None) ==
            if probe.Thrown? then TimedOut(last)
            else if IsActive(probe.value.status) then Ready(probe.value)
            else if IsFailedDeploy(probe.value.status) then StackFailed(probe.value.status)
            else TimedOut(Some(probe.value.status))
  {
    VerdictOfOneMore(probes, None, probe);
  }

  /** The time n sleeps of i ms take. */
  function Span(n: nat, i: nat): nat {
    n * i
  }

  lemma OneMoreSleep(n: nat, i: nat)
    ensures Span(0, i) == 0 && Span(n + 1, i) == Span(n, i) + i
  {
  }

  lemma MultipleAbove(a: nat, i: nat)
    requires i > 0
    ensures a < (a / i + 1) * i
  {
  }

  lemma MultiplesInOrder(n: nat, q: nat, i: nat)
    requires n * i < (q + 1) * i
    ensures n <= q
  {
  }

  /** A poll with budget m and interval i makes at most m / i probes, rounded up. */
  lemma ProbesFit(n: nat, m: nat, i: nat)
    requires i > 0 && (n > 0 ==> Span(n - 1, i) < m)
    ensures n <= (m + i - 1) / i
  {
    if n > 0 {
      var q := (m + i - 1) / i;
      MultipleAbove(m + i - 1, i);
      OneMoreSleep(n - 1, i);
      MultiplesInOrder(n, q, i);
    }
  }

  /**
   The verdict of the probes made, the last of which is the first decisive one; at most
   ceil(maxWait / interval) probes; over one interval and one probe past the budget at the latest.  A poll
   that times out has used up its budget, with at least maxWait / (interval + 3 callMs) probes.
   */
  method WaitForUseCaseReady(p: Platform, useCaseId: string, name: string, maxWait: nat, interval: nat)
    returns (r: Poll, ghost probes: seq<Call<Probe>>)
    requires interval > 0
    modifies p`now, p`table, p`probed, p`asked, p`faults
    ensures r == Verdict(probes, None)
    ensures probes != [] ==> Verdict(probes[..|probes|-1], None).TimedOut?
    ensures r.TimedOut? ==> p.now >= old(p.now) + maxWait && Span(|probes|, interval + 3 * p.callMs) >= maxWait
    ensures |probes| <= (maxWait + interval - 1) / interval
    ensures old(p.now) <= p.now <= old(p.now) + maxWait + interval + 3 * p.callMs
    ensures old(p.probed) <= p.probed && p.faults >= old(p.faults)
    ensures AllOf(p.probed, |old(p.probed)|, useCaseId, name)
    ensures r.Ready? <==> LastShownActive(p.probed, |old(p.probed)|, useCaseId)
    ensures maxWait > 0 && p.faults == old(p.faults) ==> |p.probed| > |old(p.probed)|
    ensures Arrived(old(p.table), p.table)
  {
    hide Arrived, Verdict, IsActive, IsFailedDeploy, Span;
    probes := [];
    OneMoreSleep(0, interval);
    OneMoreSleep(0, interval + 3 * p.callMs);
    ArrivedAtOnce(p.table);
    var deadline := p.now + maxWait;
    var last: Option<StackStatus> := None;
    NoProbes();
    while p.now < deadline
      invariant Verdict(probes, None) == TimedOut(last)
      invariant probes != [] ==> Verdict(probes[..|probes|-1], None).TimedOut?
      invariant |probes| > 0 ==> Span(|probes| - 1, interval) < maxWait
      invariant old(p.now) + Span(|probes|, interval) <= p.now <= deadline + interval + 3 * p.callMs
      invariant p.now <= old(p.now) + Span(|probes|, interval + 3 * p.callMs)
      invariant old(p.probed) <= p.probed && p.faults >= old(p.faults)
      invariant AllOf(p.probed, |old(p.probed)|, useCaseId, name)
      invariant !LastShownActive(p.probed, |old(p.probed)|, useCaseId)
      invariant p.now > old(p.now) || probes == []
      invariant p.faults == old(p.faults) ==> |p.probed| == |old(p.probed)| + |probes|
      invariant probes == [] ==> p.now == old(p.now)
      invariant Arrived(old(p.table), p.table)
      decreases deadline - p.now
    {
      ghost var start := p.table;
      var probe;
      ghost var linked, expected;
      probe, linked, expected := p.GetDeploymentProbe(useCaseId, name);
      ArrivedLater(old(p.table), start, p.table);
      FirstDecisiveProbe(probes, last, probe);
      OneMoreSleep(|probes|, interval);
      OneMoreSleep(|probes|, interval + 3 * p.callMs);
      assert (probes + [probe])[..|probes|] == probes;
      probes := probes + [probe];
      ProbesFit(|probes|, maxWait, interval);
      if probe.Answer? {
        last := Some(probe.value.status);
        assert p.probed[|p.probed|-1] == Probed(useCaseId, name, probe.value.status);
        if IsActive(probe.value.status) { return Ready(probe.value), probes; }
        if IsFailedDeploy(probe.value.status) { return StackFailed(probe.value.status), probes; }
      }
      ghost var before := p.table;
      p.Sleep(interval);
      ArrivedLater(old(p.table), before, p.table);
    }
    ProbesFit(|probes|, maxWait, interval);
    r := TimedOut(last);
  }

  /**
   The gateway's URL, polled; a failed read is tried again.  `urls` are the URLs read, blank where the
   read failed: the first that is not blank is the answer, and there is none only when the time is up.
   */
  method WaitForGatewayUrl(p: Platform, maxWait: nat, interval: nat) returns (r: Option<string>, ghost urls: seq<string>)
    requires interval > 0
    modifies p`now, p`table, p`faults
    ensures forall k :: 0 <= k < |urls| - (if r.Some? then 1 else 0) ==> urls[k] == ""
    ensures r.Some? ==> urls != [] && r.value == urls[|urls|-1] != ""
    ensures r.None? ==> p.now >= old(p.now) + maxWait && Span(|urls|, interval + 2 * p.callMs) >= maxWait
    ensures old(p.now) <= p.now <= old(p.now) + maxWait + interval + 2 * p.callMs
    ensures p.faults >= old(p.faults)
    ensures Arrived(old(p.table), p.table)
  {
    hide Arrived, Span;
    var deadline := p.now + maxWait;
    urls := [];
    OneMoreSleep(0, interval + 2 * p.callMs);
    ArrivedAtOnce(p.table);
    while p.now < deadline
      invariant old(p.now) <= p.now <= deadline + interval + 2 * p.callMs && p.faults >= old(p.faults)
      invariant forall k :: 0 <= k < |urls| ==> urls[k] == ""
      invariant p.now <= old(p.now) + Span(|urls|, interval + 2 * p.callMs)
      invariant Arrived(old(p.table), p.table)
      decreases deadline - p.now
    {
      ghost var start := p.table;
      OneMoreSleep(|urls|, interval + 2 * p.callMs);
      var throws := p.Call();
      ArrivedLater(old(p.table), start, p.table);
      var read := "";
      if !throws {
        start := p.table;
        throws := p.Call();
        ArrivedLater(old(p.table), start, p.table);
        var url: string := *;
        if !throws { read := url; }
      }
      urls := urls + [read];
      if read != "" { return Some(read), urls; }
      ghost var before := p.table;
      p.Sleep(interval);
      ArrivedLater(old(p.table), before, p.table);
    }
    r := None;
  }

  // ---------- Finding a use case ----------

  /** Searches made since `from`: the last one, or none, came to a use case, all others before it did not. */
  ghost predicate TriedInVain(searched: seq<Call<Option<string>>>, from: nat, to: nat) {
    to <= |searched| && forall k :: from <= k < to ==> !Usable(searched[k])
  }

  /** Twelve searches in a row since `from` came to no use case. */
  ghost predicate InVain(searched: seq<Call<Option<string>>>, from: nat) {
    exists k: nat :: from <= k && TwelveFrom(searched, k)
  }

  ghost predicate TwelveFrom(searched: seq<Call<Option<string>>>, k: nat) {
    TriedInVain(searched, k, k + 12)
  }

  lemma TwelveInVain(searched: seq<Call<Option<string>>>, from: nat, k: int)
    requires from <= k == |searched| - 12 && TriedInVain(searched, k, |searched| - 1) && !LastUsable(searched)
    ensures InVain(searched, from)
  {
    var first: nat := k;
    assert TwelveFrom(searched, first);
  }

  lemma InVainStill(searched: seq<Call<Option<string>>>, from: nat, later: seq<Call<Option<string>>>, before: nat)
    requires InVain(searched, from) && searched <= later && before <= from
    ensures InVain(later, before)
  {
    var k: nat :| from <= k && TwelveFrom(searched, k);
    assert TwelveFrom(later, k);
  }

  /** Twelve attempts, five seconds apart; a failed search counts as one that found nothing. */
  method ResolveUseCaseIdByName(p: Platform, q: Query) returns (r: Option<string>, attempts: nat, ghost found: Table)
    modifies p`now, p`table, p`searched, p`faults
    ensures 1 <= attempts <= 12 && (r.None? ==> attempts == 12)
    ensures p.now >= old(p.now) + 5000 * (attempts - 1)
    ensures old(p.searched) <= p.searched && |p.searched| == |old(p.searched)| + attempts
    ensures TriedInVain(p.searched, |old(p.searched)|, |p.searched| - 1)
    ensures r.Some? <==> LastUsable(p.searched)
    ensures r.Some? ==> p.searched[|p.searched|-1] == Answer(r)
    ensures p.faults >= old(p.faults)
    ensures Arrived(old(p.table), found) && Arrived(found, p.table)
    ensures r.Some? ==> r.value != "" && FirstId(found.rows, q) == r
  {
    hide Arrived;
    attempts, found := 0, p.table;
    ArrivedAtOnce(p.table);
    while attempts < 12
      invariant attempts <= 12 && p.now >= old(p.now) + if attempts == 0 then 0 else 5000 * (attempts - 1)
      invariant old(p.searched) <= p.searched && |p.searched| == |old(p.searched)| + attempts
      invariant TriedInVain(p.searched, |old(p.searched)|, |p.searched|)
      invariant p.faults >= old(p.faults)
      invariant Arrived(old(p.table), p.table)
    {
      if attempts > 0 {
        ghost var before := p.table;
        p.Sleep(5000);
        ArrivedLater(old(p.table), before, p.table);
      }
      attempts := attempts + 1;
      ghost var before := p.table;
      var id;
      id, found := p.Scan(q);
      ArrivedLater(old(p.table), before, found);
      ArrivedLater(old(p.table), found, p.table);
      if id.Answer? && id.value.Some? && id.value.value != "" {
        return id.value, attempts, found;
      }
    }
    ArrivedAtOnce(p.table);
    r, found := None, p.table;
  }

  /**
   The use case named is one written since if and only if the first match is no older row; so it is
   where no row of the name was there or on its way.
   */
  ghost predicate NamesDeployed(t: Table, t': Table, q: Query, id: string) {
    && (HasId(New(t, t'), id) <==> FirstMatch(t'.rows, q).Some? && FirstMatch(t'.rows, q).value !in t.rows + t.pending)
    && (!HasMatch(t.rows + t.pending, q) ==> HasId(New(t, t'), id))
  }

  ghost predicate HasId(rows: seq<Row>, id: string) {
    exists row <- rows :: row.id == id
  }

  /** The use case was the first match of some table since; after a deploy call, that tells whether it is the one deployed. */
  ghost predicate NamedSince(t: Table, t': Table, q: Query, id: string, deployed: bool) {
    exists found: Table :: Grew(t, found) && Arrived(found, t') && FirstId(found.rows, q) == Some(id) && (deployed ==> NamesDeployed(t, found, q, id))
  }

  lemma DeployedIsNamed(t: Table, called: Table, found: Table, t': Table, q: Query, id: string)
    requires Grew(t, called) && UnderNewKeys(t, called) && Arrived(called, found) && Arrived(found, t') && FirstId(found.rows, q) == Some(id)
    ensures Grew(t, found) && NamesDeployed(t, found, q, id) && NamedSince(t, t', q, id, true)
  {
    hide Grew, HasMatch;
    ThenArrived(t, called, found);
    FoundIsDeployed(t, found, q, id);
    assert NamesDeployed(t, found, q, id);
  }

  /** A row of the tenant, of that type and name, has the id. */
  ghost predicate OwnRow(t: Table, t': Table, id: string, name: string, tenant: string, kind: string) {
    exists row <- t.rows + t.pending + New(t, t') ::
      row.id == id && row.tenant == Some(tenant) && row.kind == Some(kind) && (name != "" ==> row.name == Some(name))
  }

  lemma NamedHasOwnRow(t: Table, t': Table, q: Query, id: string, deployed: bool)
    requires NamedSince(t, t', q, id, deployed) && q.tenant != "" && q.kind != ""
    ensures OwnRow(t, t', id, q.name, q.tenant, q.kind)
  {
    hide Grew, Arrived, FirstId, Ids, NamesDeployed, Matches, New;
    var found: Table :| Grew(t, found) && Arrived(found, t') && FirstId(found.rows, q) == Some(id);
    ThenArrived(t, found, t');
    FoundIsMatch(found.rows, q);
    IdHasFields(found.rows, q, id);
    var row :| row in found.rows && row.id == id && HasFields(row, q.name, q.tenant, q.kind);
    RowsOf(t, found, row);
  }

  lemma OwnRowStill(t: Table, t': Table, later: Table, id: string, name: string, tenant: string, kind: string)
    requires OwnRow(t, t', id, name, tenant, kind) && Grew(t, t') && Grew(t', later)
    ensures OwnRow(t, later, id, name, tenant, kind)
  {
    hide Grew, New;
    GrewTransitive(t, t', later);
  }

  lemma OwnRowSinceStart(start: Table, t: Table, t': Table, id: string, name: string, tenant: string, kind: string)
    requires OwnRow(t, t', id, name, tenant, kind) && Grew(start, t) && Grew(t, t')
    ensures OwnRow(start, t', id, name, tenant, kind)
  {
    hide Grew, New;
    GrewTransitive(start, t, t');
    var row :| row in t.rows + t.pending + New(t, t') && row.id == id && row.tenant == Some(tenant) && row.kind == Some(kind)
               && (name != "" ==> row.name == Some(name));
    RowsOf(start, t, row);
  }

  datatype Resumable = NothingToResume | Resume(useCaseId: string, probe: Probe)

  /**
   An earlier deployment of that name whose stack is active, in progress, or not linked yet: taken up
   exactly when the lookup finds such a stack, whatever becomes of it later.
   */
  method FindResumableUseCase(p: Platform, q: Query) returns (r: Call<Resumable>, ghost f: Finding)
    modifies p`now, p`table, p`probed, p`asked, p`lookups, p`searched, p`faults
    ensures p.now >= old(p.now) && p.faults >= old(p.faults) && (r.Thrown? ==> p.faults > old(p.faults))
    ensures Arrived(old(p.table), p.table)
    ensures p.lookups == old(p.lookups) + [Lookup(q, f)] && AnswersSince(f, old(p.table), p.table, q)
    ensures TakesUp(f) ==> NamedSince(old(p.table), p.table, q, f.useCaseId, false)
    ensures p.probed == old(p.probed) + if f.Found? then [Probed(f.useCaseId, q.name, f.status)] else []
    ensures |p.searched| == |old(p.searched)| + 1 && old(p.searched) <= p.searched
    ensures r.Thrown? <==> f.SearchThrew? || f.ProbeThrew?
    ensures r.Answer? ==> (r.value.Resume? <==> TakesUp(f))
    ensures r.Answer? && r.value.Resume? ==> r.value.useCaseId == f.useCaseId && r.value.probe.status == f.status
  {
    hide Arrived, FirstId, Grew;
    f := SearchThrew;
    var found;
    ghost var shown;
    found, shown := p.Scan(q);
    ArrivedLater(old(p.table), shown, p.table);
    r := if found.Thrown? then Thrown(found.message) else Answer(NothingToResume);
    if found.Answer? {
      f := NoRow;
      if found.value.Some? && found.value.value != "" {
        var id := found.value.value;
        ghost var before := p.table;
        var probe;
        ghost var linked, expected;
        probe, linked, expected := p.GetDeploymentProbe(id, q.name);
        ArrivedLater(shown, before, p.table);
        ArrivedLater(old(p.table), shown, p.table);
        f := if probe.Thrown? then ProbeThrew(id) else Found(id, probe.value.status);
        if probe.Thrown? {
          r := Thrown(probe.message);
        } else if !IsDeleted(probe.value.status)
               && (IsActive(probe.value.status) || IsInProgress(probe.value.status) || probe.value.status.NoStatus?) {
          r := Answer(Resume(id, probe.value));
        }
      }
    }
    p.lookups := p.lookups + [Lookup(q, f)];
    ScanAnswers(f, old(p.table), shown, p.table, q);
  }

  lemma ScanAnswers(f: Finding, t: Table, shown: Table, t': Table, q: Query)
    requires Arrived(t, shown) && Arrived(shown, t') && Answers(f, shown.rows, q)
    ensures AnswersSince(f, t, t', q)
    ensures f.Found? ==> NamedSince(t, t', q, f.useCaseId, false)
  {
    hide Grew, FirstId;
  }

  // ---------- The shared budget ----------

  const BUDGET_MS := 840_000

  function RemainingMs(now: nat, startedAt: nat): nat {
    var left: int := BUDGET_MS - (now - startedAt);
    if left > 45_000 then left else 45_000
  }

  function Max(a: int, b: int): int {
    if a > b then a else b
  }

  /**
   The poll of the agent stack, begun t ms into the run, ends by max(840000, t + 45000) + 20000 plus
   one probe, and times out no earlier than max(840000, t + 45000).
   */
  method PollAgent(p: Platform, useCaseId: string, name: string, startedAt: nat) returns (r: Poll)
    requires startedAt <= p.now
    modifies p`now, p`table, p`probed, p`asked, p`faults
    ensures p.now - startedAt <= Max(840_000, old(p.now) - startedAt + 45_000) + 20_000 + 3 * p.callMs
    ensures r.TimedOut? ==> p.now - startedAt >= Max(840_000, old(p.now) - startedAt + 45_000)
    ensures p.now >= old(p.now)
    ensures AllOf(p.probed, |old(p.probed)|, useCaseId, name)
    ensures old(p.probed) <= p.probed && p.faults >= old(p.faults)
    ensures r.Ready? <==> LastShownActive(p.probed, |old(p.probed)|, useCaseId)
    ensures Arrived(old(p.table), p.table)
  {
    ghost var probes;
    r, probes := WaitForUseCaseReady(p, useCaseId, name, RemainingMs(p.now, startedAt), 20_000);
  }
}
