/**
 Teardown of a workspace's policy engine before its gateway stack is deleted.

 `Control` is the gateway service.  An association it holds need not be visible on the gateway,
 and it rejects the deletion of an engine as long as any association, visible or not, exists.
 Every call may throw, also after it took effect, unless the service is `honest`.
 */
module PolicyTeardown {
  import opened Calls
  import opened Strings

  type GatewayId = string
  type EngineId = string
  type PolicyId = string
  type Arn = string

  datatype Gateway = Gateway(name: string, updatable: bool, visible: Option<Arn>, attached: set<Arn>)

  datatype Engine = Engine(name: string, arn: Arn, deleting: bool)

  /** Thrown: the association conflict, a missing resource, the final error of the teardown, any other error. */
  datatype Failure = StillAssociated | Missing | DeleteBlocked(id: EngineId) | OtherError

  datatype Result<+T> = Ok(value: T) | Err(failure: Failure) {
    predicate IsFailure() { Err? }
    function PropagateFailure<U>(): Result<U>
      requires Err?
    {
      Err(failure)
    }
    function Extract(): T
      requires Ok?
    {
      value
    }
  }

  datatype Page<T> = Page(items: seq<T>, next: Option<nat>)

  // ---------- Names and arns ----------

  function VisibleArn(g: Gateway): string {
    match g.visible
    case Some(a) => a
    case None => ""
  }

  predicate Mentions(g: Gateway, id: EngineId) {
    Includes(VisibleArn(g), id)
  }

  function GatewayName(useCaseId: string): string {
    "gaab-mcp-" + Take(useCaseId, 8)
  }

  function EngineName(instanceId: string): string {
    "aiw_pe_" + Take(WithoutHyphens(instanceId), 8)
  }

  /** Instances have different engines if they differ in their first eight characters other than hyphens. */
  lemma EngineNamesDiffer(one: string, other: string, more: string, rest: string)
    requires |one| == |other| == 8 && '-' !in one && '-' !in other
    ensures EngineName(one + more) == EngineName(other + rest) <==> one == other
  {
    HyphensAreDropped(one, more);
    HyphensAreDropped(other, rest);
    CutKeepsStart(one, WithoutHyphens(more));
    CutKeepsStart(other, WithoutHyphens(rest));
    var a, b := EngineName(one + more), EngineName(other + rest);
    assert a[|"aiw_pe_"|..] == one && b[|"aiw_pe_"|..] == other;
  }

  /** Gateways have different names if their use cases differ in their first eight characters. */
  lemma GatewayNamesDiffer(one: string, other: string, more: string, rest: string)
    requires |one| == |other| == 8
    ensures GatewayName(one + more) == GatewayName(other + rest) <==> one == other
  {
    CutKeepsStart(one, more);
    CutKeepsStart(other, rest);
    var a, b := GatewayName(one + more), GatewayName(other + rest);
    assert a[|"gaab-mcp-"|..] == one && b[|"gaab-mcp-"|..] == other;
  }

  // ---------- What an update does to a gateway ----------

  /** Without an engine configuration the service drops the association it shows, and only that one. */
  function Detached(g: Gateway): Gateway {
    match g.visible
    case None => g
    case Some(a) => g.(visible := None, attached := g.attached - {a})
  }

  function Attached(g: Gateway, arn: Arn): Gateway {
    Detached(g).(visible := Some(arn), attached := Detached(g).attached + {arn})
  }

  /** Associate unless the engine already shows, then disassociate. */
  function Healed(g: Gateway, arn: Arn): Gateway {
    if Includes(VisibleArn(g), LastSegment(arn)) then Detached(g) else Detached(Attached(g, arn))
  }

  /** The gateway shows another engine whose arn contains this engine's last segment. */
  predicate Clash(g: Gateway, arn: Arn) {
    Includes(VisibleArn(g), LastSegment(arn)) && g.visible != Some(arn)
  }

  type Gateways = map<GatewayId, Gateway>

  /** Only the named gateway, and those showing the engine, changed; the latter were detached. */
  ghost predicate Touched(before: Gateways, after: Gateways, id: EngineId, named: Option<GatewayId>) {
    && after.Keys == before.Keys
    && (forall g <- before :: after[g].updatable == before[g].updatable)
    && forall g <- before :: named != Some(g) ==> after[g] == before[g] || (Mentions(before[g], id) && after[g] == Detached(before[g]))
  }

  /** Without the containment test: the gateway shows an arn with the id somewhere in it. */
  ghost predicate ShowsIdWithin(g: Gateway, id: EngineId) {
    g.visible.Some? && Contains(g.visible.value, id)
  }

  /** A gateway is looked up as one of the engine exactly when its arn is pre + id + post. */
  lemma MentionedIsWithin(g: Gateway, id: EngineId)
    requires id != ""
    ensures Mentions(g, id) <==> ShowsIdWithin(g, id)
  {
    IncludesIsContains(VisibleArn(g), id);
    EmptyContains(id);
  }

  /** Every gateway but the named one that shows no arn with the id in it is as it was. */
  ghost predicate OthersKept(before: Gateways, after: Gateways, id: EngineId, named: Option<GatewayId>) {
    after.Keys == before.Keys && forall g <- before :: named != Some(g) && !ShowsIdWithin(before[g], id) ==> after[g] == before[g]
  }

  lemma TouchedKeepsOthers(before: Gateways, after: Gateways, id: EngineId, named: Option<GatewayId>)
    requires id != "" && Touched(before, after, id, named)
    ensures OthersKept(before, after, id, named)
  {
    hide Mentions, ShowsIdWithin;
    forall g <- before { MentionedIsWithin(before[g], id); }
  }

  lemma TouchedTransitive(a: Gateways, b: Gateways, c: Gateways, id: EngineId, named: Option<GatewayId>)
    requires id != "" && Touched(a, b, id, named) && Touched(b, c, id, named)
    ensures Touched(a, c, id, named)
  {
  }

  /** Only the named gateway holds an association with the engine. */
  ghost predicate OnlyNamedHolds(gateways: Gateways, arn: Arn, named: GatewayId) {
    forall g <- gateways :: g != named ==> arn !in gateways[g].attached
  }

  ghost predicate Exists(engines: map<EngineId, Engine>, arn: Arn) {
    exists e <- engines :: engines[e].arn == arn
  }

  ghost predicate OneArnEach(engines: map<EngineId, Engine>) {
    forall e, f :: e in engines && f in engines && engines[e].arn == engines[f].arn ==> e == f
  }

  /** An association is with an engine that exists. */
  ghost predicate Sound(gateways: Gateways, engines: map<EngineId, Engine>) {
    forall g, a :: g in gateways && a in gateways[g].attached ==> Exists(engines, a)
  }

  lemma MarkingIsSound(gateways: Gateways, engines: map<EngineId, Engine>, id: EngineId)
    requires id in engines && OneArnEach(engines) && Sound(gateways, engines)
    ensures var marked := engines[id := engines[id].(deleting := true)]; OneArnEach(marked) && Sound(gateways, marked)
  {
    var marked := engines[id := engines[id].(deleting := true)];
    forall g, a | g in gateways && a in gateways[g].attached ensures Exists(marked, a) {
      assert Exists(engines, a);
      var e :| e in engines && engines[e].arn == a;
      assert e in marked && marked[e].arn == a;
    }
  }

  lemma RemovingIsSound(gateways: Gateways, engines: map<EngineId, Engine>, id: EngineId)
    requires id in engines && OneArnEach(engines) && Sound(gateways, engines)
    requires !Blocked(gateways, engines[id].arn)
    ensures OneArnEach(engines - {id}) && Sound(gateways, engines - {id})
  {
    forall g, a | g in gateways && a in gateways[g].attached ensures Exists(engines - {id}, a) {
      assert Exists(engines, a);
      var e :| e in engines && engines[e].arn == a;
      assert e in engines - {id};
    }
  }

  /** Some gateway, perhaps one that does not show it, holds an association with the engine. */
  predicate Blocked(gateways: Gateways, arn: Arn) {
    exists g <- gateways :: arn in gateways[g].attached
  }

  // ---------- The service ----------

  class Control {
    const honest: bool
    // The listing orders.  A token is a position in them.
    const gatewayOrder: seq<GatewayId>
    const engineOrder: seq<EngineId>
    const policyOrder: seq<PolicyId>
    var gateways: Gateways
    var engines: map<EngineId, Engine>
    var policies: set<(EngineId, PolicyId)>
    var now: nat

    ghost predicate Valid()
      reads this`gateways, this`engines, this`policies
    {
      && gateways.Keys == (set g <- gatewayOrder)
      && (forall e <- engines :: e in engineOrder && e != "")
      && (forall p <- policies :: p.1 in policyOrder)
      && OneArnEach(engines) && Sound(gateways, engines)
    }

    constructor (honest: bool, gateways: Gateways, gatewayOrder: seq<GatewayId>, engines: map<EngineId, Engine>,
                 engineOrder: seq<EngineId>, policies: set<(EngineId, PolicyId)>, policyOrder: seq<PolicyId>)
      ensures this.honest == honest && this.gateways == gateways && this.engines == engines && this.policies == policies
      ensures this.gatewayOrder == gatewayOrder && this.engineOrder == engineOrder && this.policyOrder == policyOrder
    {
      this.honest := honest;
      this.gateways, this.gatewayOrder := gateways, gatewayOrder;
      this.engines, this.engineOrder := engines, engineOrder;
      this.policies, this.policyOrder := policies, policyOrder;
      now := 0;
    }

    method Sleep(ms: nat)
      modifies this`now
      ensures now == old(now) + ms
    {
      now := now + ms;
    }

    /** Time passes in a call, which may throw. */
    method Call() returns (throws: bool)
      modifies this`now
      ensures now >= old(now)
      ensures honest ==> !throws
    {
      var took: int := *;
      if took > 0 { now := now + took; }
      throws := *;
      throws := throws && !honest;
    }

    /** Everything the listing order has between the token and the next one, and that still exists. */
    method ListGateways(from: nat) returns (r: Result<Page<GatewayId>>)
      requires from <= |gatewayOrder|
      modifies this`now
      ensures now >= old(now)
      ensures r.Ok? ==> PageOf(r.value, gatewayOrder, from, gateways.Keys)
      ensures honest ==> r.Ok?
    {
      var throws := Call();
      if throws { return Err(OtherError); }
      var page := PageFrom(gatewayOrder, from, gateways.Keys);
      r := Ok(page);
    }

    method ListEngines(from: nat) returns (r: Result<Page<EngineId>>)
      requires from <= |engineOrder|
      modifies this`now
      ensures now >= old(now)
      ensures r.Ok? ==> PageOf(r.value, engineOrder, from, engines.Keys)
      ensures honest ==> r.Ok?
    {
      var throws := Call();
      if throws { return Err(OtherError); }
      var page := PageFrom(engineOrder, from, engines.Keys);
      r := Ok(page);
    }

    method ListPolicies(id: EngineId, from: nat) returns (r: Result<Page<PolicyId>>)
      requires from <= |policyOrder|
      modifies this`now
      ensures now >= old(now)
      ensures r.Ok? ==> PageOf(r.value, policyOrder, from, set p <- policies | p.0 == id :: p.1)
      ensures honest ==> r.Ok?
    {
      var throws := Call();
      if throws { return Err(OtherError); }
      var page := PageFrom(policyOrder, from, set p <- policies | p.0 == id :: p.1);
      r := Ok(page);
    }

    method DeletePolicy(id: EngineId, policy: PolicyId) returns (r: Result<()>)
      modifies this`now, this`policies
      ensures now >= old(now)
      ensures r.Ok? ==> policies == old(policies) - {(id, policy)}
      ensures policies == old(policies) || policies == old(policies) - {(id, policy)}
      ensures honest ==> r.Ok?
    {
      var throws := Call();
      var applied: bool := *;
      if !throws || applied { policies := policies - {(id, policy)}; }
      r := if throws then Err(OtherError) else Ok(());
    }

    /** The gateway, and whether its status is READY. */
    method GetGateway(g: GatewayId) returns (r: Result<(bool, Gateway)>)
      modifies this`now
      ensures now >= old(now)
      ensures r.Ok? ==> g in gateways && r.value.1 == gateways[g]
      ensures honest && g in gateways ==> r.Ok? && r.value.0
    {
      var throws := Call();
      if g !in gateways { return Err(Missing); }
      if throws { return Err(OtherError); }
      var ready: bool := *;
      r := Ok((ready || honest, gateways[g]));
    }

    method UpdateGateway(g: GatewayId, arn: Option<Arn>) returns (r: Result<()>)
      requires Valid()
      modifies this`now, this`gateways
      ensures Valid()
      ensures now >= old(now)
      ensures g !in gateways ==> r.Err? && gateways == old(gateways)
      ensures g in gateways ==>
                var updated := if arn.Some? then Attached(old(gateways)[g], arn.value) else Detached(old(gateways)[g]);
                && (r.Ok? ==> gateways == old(gateways)[g := updated])
                && (gateways == old(gateways) || gateways == old(gateways)[g := updated])
      ensures gateways.Keys == old(gateways).Keys
      ensures honest && g in gateways && (arn.None? || Exists(engines, arn.value)) ==> r.Ok?
    {
      var throws := Call();
      if g !in gateways || (arn.Some? && forall e <- engines :: engines[e].arn != arn.value) { return Err(OtherError); }
      var applied: bool := *;
      if !throws || applied {
        gateways := gateways[g := if arn.Some? then Attached(gateways[g], arn.value) else Detached(gateways[g])];
      }
      r := if throws then Err(OtherError) else Ok(());
    }

    /** Rejected as long as an association exists; otherwise the engine starts to go away. */
    method DeletePolicyEngine(id: EngineId) returns (r: Result<()>)
      requires Valid()
      modifies this`now, this`engines
      ensures Valid()
      ensures now >= old(now)
      ensures engines == old(engines) || (id in old(engines) && engines == old(engines)[id := old(engines)[id].(deleting := true)])
      ensures r.Ok? ==> id in engines && engines[id].deleting && !Blocked(gateways, engines[id].arn)
      ensures honest && id in engines ==>
                if Blocked(gateways, engines[id].arn) then r == Err(StillAssociated) else r.Ok?
    {
      var throws := Call();
      if throws { var f: Failure := *; return Err(f); }
      if id !in engines { return Err(Missing); }
      if Blocked(gateways, engines[id].arn) { return Err(StillAssociated); }
      MarkingIsSound(gateways, engines, id);
      engines := engines[id := engines[id].(deleting := true)];
      r := Ok(());
    }

    /** The engine, and whether its deletion failed.  Only an engine that is gone answers Missing. */
    method GetPolicyEngine(id: EngineId) returns (r: Result<(bool, Engine)>)
      requires Valid()
      modifies this`now, this`engines
      ensures Valid()
      ensures now >= old(now)
      ensures engines == old(engines) || engines == old(engines) - {id}
      ensures r == Err(Missing) ==> id !in engines
      ensures r.Ok? ==> id in engines && engines == old(engines) && r.value.1 == engines[id]
      ensures honest && id in old(engines) ==>
                if old(engines)[id].deleting && !Blocked(gateways, old(engines)[id].arn)
                then r == Err(Missing) else r.Ok?
    {
      var throws := Call();
      var finished: bool := *;
      if && (finished || honest) && id in engines && engines[id].deleting && !Blocked(gateways, engines[id].arn) {
        RemovingIsSound(gateways, engines, id);
        engines := engines - {id};
      }
      if id !in engines {
        var other: bool := *;
        return Err(if other && throws then OtherError else Missing);
      }
      if throws { var conflict: bool := *; return Err(if conflict then StillAssociated else OtherError); }
      var failed: bool := *;
      r := Ok((failed, engines[id]));
    }
  }

  ghost predicate PageOf<T(!new)>(page: Page<T>, order: seq<T>, from: nat, existing: set<T>)
    requires from <= |order|
  {
    var end := if page.next.Some? then page.next.value else |order|;
    && (page.next.Some? ==> from < end)
    && end <= |order|
    && forall x :: x in page.items <==> x in order[from..end] && x in existing
  }

  method PageFrom<T(==,!new)>(order: seq<T>, from: nat, existing: set<T>) returns (page: Page<T>)
    requires from <= |order|
    ensures PageOf(page, order, from, existing)
  {
    var end: nat := *;
    var more := from < end <= |order|;
    if !more { end := |order|; }
    var items: seq<T> := [];
    for i := from to end
      invariant forall x :: x in items <==> x in order[from..i] && x in existing
    {
      assert order[from..i+1] == order[from..i] + [order[i]];
      if order[i] in existing { items := items + [order[i]]; }
    }
    page := Page(items, if more then Some(end) else None);
  }

  // ---------- The worker ----------

  /**
   The first gateway read that is READY and shows an engine, or none, as expected, ends the wait, or the
   first read that throws; without one the two minutes are used up.
   */
  method WaitForGatewayReady(c: Control, g: GatewayId, expectEngine: bool)
    returns (r: Result<()>, ghost seen: seq<Result<(bool, Gateway)>>)
    modifies c`now
    ensures c.now >= old(c.now)
    ensures forall k :: 0 <= k < |seen| - 1 ==> Unready(seen[k], expectEngine)
    ensures seen != []
    ensures match seen[|seen|-1]
            case Err(failure) => r == Err(failure)
            case Ok(_) => if Unready(seen[|seen|-1], expectEngine) then r == Err(OtherError) && c.now >= old(c.now) + 120_000 else r.Ok?
    ensures r.Ok? ==> g in c.gateways && c.gateways[g].visible.Some? == expectEngine
    ensures c.honest && g in c.gateways && c.gateways[g].visible.Some? == expectEngine ==> r.Ok?
  {
    seen := [];
    var deadline := c.now + 120_000;
    while c.now < deadline
      invariant c.now >= old(c.now)
      invariant c.honest && g in c.gateways && c.gateways[g].visible.Some? == expectEngine ==> c.now < deadline
      invariant forall k :: 0 <= k < |seen| ==> Unready(seen[k], expectEngine)
      invariant seen == [] ==> c.now < deadline
      decreases deadline - c.now
    {
      var current := c.GetGateway(g);
      seen := seen + [current];
      if current.Err? { return Err(current.failure), seen; }
      if current.value.0 && current.value.1.visible.Some? == expectEngine { return Ok(()), seen; }
      c.Sleep(2000);
    }
    r := Err(OtherError);
  }

  /** The gateway was read, and was not yet READY with an engine, or none, as expected. */
  ghost predicate Unready(seen: Result<(bool, Gateway)>, expectEngine: bool) {
    seen.Ok? && !(seen.value.0 && seen.value.1.visible.Some? == expectEngine)
  }

  /** The update request repeats fields the gateway may lack. */
  method Update(c: Control, g: GatewayId, current: Gateway, arn: Option<Arn>) returns (r: Result<()>)
    requires c.Valid() && g in c.gateways && current == c.gateways[g]
    modifies c`now, c`gateways
    ensures c.Valid() && c.now >= old(c.now)
    ensures var updated := if arn.Some? then Attached(current, arn.value) else Detached(current);
            && (r.Ok? ==> c.gateways == old(c.gateways)[g := updated])
            && (c.gateways == old(c.gateways) || c.gateways == old(c.gateways)[g := updated])
    ensures c.honest && current.updatable && (arn.None? || Exists(c.engines, arn.value)) ==> r.Ok?
  {
    if !current.updatable { return Err(OtherError); }
    r := c.UpdateGateway(g, arn);
  }

  method Associate(c: Control, g: GatewayId, arn: Arn) returns (r: Result<()>)
    requires c.Valid()
    modifies c`now, c`gateways
    ensures c.Valid() && c.now >= old(c.now)
    ensures r.Ok? ==> g in old(c.gateways) && c.gateways == old(c.gateways)[g := Attached(old(c.gateways)[g], arn)]
    ensures c.gateways == old(c.gateways) || (g in old(c.gateways) && c.gateways == old(c.gateways)[g := Attached(old(c.gateways)[g], arn)])
    ensures c.honest && g in c.gateways && old(c.gateways)[g].updatable && Exists(c.engines, arn) ==> r.Ok?
  {
    var seen :- c.GetGateway(g);
    var updated :- Update(c, g, seen.1, Some(arn));
    ghost var seenSince;
    r, seenSince := WaitForGatewayReady(c, g, true);
  }

  method Disassociate(c: Control, g: GatewayId) returns (r: Result<()>)
    requires c.Valid()
    modifies c`now, c`gateways
    ensures c.Valid() && c.now >= old(c.now)
    ensures r.Ok? ==> g in old(c.gateways) && c.gateways == old(c.gateways)[g := Detached(old(c.gateways)[g])]
    ensures c.gateways == old(c.gateways) || (g in old(c.gateways) && c.gateways == old(c.gateways)[g := Detached(old(c.gateways)[g])])
    ensures c.honest && g in c.gateways && old(c.gateways)[g].updatable ==> r.Ok?
  {
    var seen :- c.GetGateway(g);
    if seen.1.visible.None? {
      assert c.gateways == c.gateways[g := Detached(c.gateways[g])];
      return Ok(());
    }
    var updated :- Update(c, g, seen.1, None);
    ghost var seenSince;
    r, seenSince := WaitForGatewayReady(c, g, false);
  }

  method Heal(c: Control, g: GatewayId, arn: Arn) returns (r: Result<()>)
    requires c.Valid()
    modifies c`now, c`gateways
    ensures c.Valid() && c.now >= old(c.now)
    ensures r.Ok? ==> g in old(c.gateways) && c.gateways == old(c.gateways)[g := Healed(old(c.gateways)[g], arn)]
    ensures c.gateways.Keys == old(c.gateways).Keys
    ensures forall h <- c.gateways :: c.gateways[h].updatable == old(c.gateways)[h].updatable && (h != g ==> c.gateways[h] == old(c.gateways)[h])
    ensures c.honest && g in c.gateways && old(c.gateways)[g].updatable && Exists(c.engines, arn) ==> r.Ok?
  {
    var seen :- c.GetGateway(g);
    if !Includes(VisibleArn(seen.1), LastSegment(arn)) {
      var associated :- Associate(c, g, arn);
    }
    r := Disassociate(c, g);
  }

  ghost function ClearedGateway(g: Gateway, id: EngineId): Gateway {
    if Mentions(g, id) then Detached(g) else g
  }

  /**
   The engine is looked for by containment, so a gateway showing only an engine whose arn contains this
   id, as with pe-1 and pe-10, loses that one.
   */
  lemma LongerIdIsDetached(g: Gateway, pre: string, id: EngineId, post: string)
    requires g.visible == Some(pre + id + post)
    ensures Mentions(g, id) && ClearedGateway(g, id) == g.(visible := None, attached := g.attached - {pre + id + post})
  {
    ContainedIsIncluded(pre, id, post);
  }

  /** The gateways in `done` that showed the engine were detached; nothing else changed. */
  ghost predicate Cleared(before: Gateways, after: Gateways, id: EngineId, done: set<GatewayId>) {
    && after.Keys == before.Keys
    && forall g <- before :: after[g] == if g in done then ClearedGateway(before[g], id) else before[g]
  }

  /**
   After a completed walk, the gateways that did not show this engine are as they were if and only if
   no gateway showing another engine has an arn that contains this id.
   */
  lemma OthersUntouchedUnlessContained(before: Gateways, after: Gateways, id: EngineId, arn: Arn, done: set<GatewayId>)
    requires Cleared(before, after, id, done) && before.Keys <= done && id != ""
    ensures (forall g <- before :: before[g].visible != Some(arn) ==> after[g] == before[g])
            <==> (forall g <- before :: Mentions(before[g], id) ==> before[g].visible == Some(arn))
  {
    forall g | g in before ensures after[g] != before[g] <==> Mentions(before[g], id) {
      NothingMentions(id);
    }
  }

  lemma NothingMentions(id: EngineId)
    requires id != ""
    ensures !Includes("", id)
  {
  }

  lemma ClearingTwice(g: Gateway, id: EngineId)
    requires id != ""
    ensures ClearedGateway(ClearedGateway(g, id), id) == ClearedGateway(g, id)
  {
  }

  method DisassociateIfShown(c: Control, id: EngineId, g: GatewayId) returns (r: Result<()>)
    requires c.Valid() && id != ""
    modifies c`now, c`gateways
    ensures c.Valid() && c.now >= old(c.now)
    ensures r.Ok? ==> g in old(c.gateways) && c.gateways == old(c.gateways)[g := ClearedGateway(old(c.gateways)[g], id)]
    ensures c.gateways == old(c.gateways) || (g in old(c.gateways) && c.gateways == old(c.gateways)[g := ClearedGateway(old(c.gateways)[g], id)])
    ensures c.honest && g in c.gateways && old(c.gateways)[g].updatable ==> r.Ok?
  {
    var seen :- c.GetGateway(g);
    if Mentions(seen.1, id) {
      r := Disassociate(c, g);
    } else {
      assert c.gateways == c.gateways[g := c.gateways[g]];
      r := Ok(());
    }
  }

  lemma ClearingComposes(a: Gateways, b: Gateways, c: Gateways, id: EngineId, done: set<GatewayId>, more: set<GatewayId>)
    requires id != "" && Cleared(a, b, id, done) && Cleared(b, c, id, more)
    ensures Cleared(a, c, id, done + more)
  {
    hide ClearedGateway;
    forall g <- a { ClearingTwice(a[g], id); }
  }

  lemma ClearedFrame(before: Gateways, after: Gateways, id: EngineId, done: set<GatewayId>)
    requires Cleared(before, after, id, done)
    ensures after.Keys == before.Keys
    ensures forall g <- before :: after[g].updatable == before[g].updatable
  {
  }

  lemma NothingCleared(gateways: Gateways, id: EngineId)
    ensures Cleared(gateways, gateways, id, {})
  {
  }

  method DisassociatePage(c: Control, id: EngineId, items: seq<GatewayId>) returns (r: Result<()>, ghost done: set<GatewayId>)
    requires c.Valid() && id != ""
    modifies c`now, c`gateways
    ensures c.Valid() && c.now >= old(c.now)
    ensures r.Ok? ==> done == (set g <- items)
    ensures Cleared(old(c.gateways), c.gateways, id, done)
    ensures c.honest && (forall g <- items :: g in c.gateways && old(c.gateways)[g].updatable) ==> r.Ok?
  {
    hide ClearedGateway;
    done := {};
    for i := 0 to |items|
      invariant c.Valid() && c.now >= old(c.now)
      invariant done == set g <- items[..i]
      invariant Cleared(old(c.gateways), c.gateways, id, done)
    {
      var g := items[i];
      assert items[..i+1] == items[..i] + [g];
      ghost var before := c.gateways;
      if g in before { ClearedFrame(old(c.gateways), before, id, done); ClearingTwice(old(c.gateways)[g], id); }
      r := DisassociateIfShown(c, id, g);
      if c.gateways != before || r.Ok? { done := done + {g}; }
      if r.Err? { return; }
    }
    assert items[..|items|] == items;
    r := Ok(());
  }

  /** Every gateway that showed the engine is detached, across any paging of the list. */
  method DisassociateFromAll(c: Control, id: EngineId) returns (r: Result<()>, ghost done: set<GatewayId>)
    requires c.Valid() && id != ""
    modifies c`now, c`gateways
    ensures c.Valid() && c.now >= old(c.now)
    ensures r.Ok? ==> done >= c.gateways.Keys
    ensures Cleared(old(c.gateways), c.gateways, id, done)
    ensures r.Ok? ==> OnlyShownDetached(old(c.gateways), c.gateways, id)
    ensures c.honest && (forall g <- c.gateways :: old(c.gateways)[g].updatable) ==> r.Ok?
  {
    hide Cleared, OneArnEach, Sound, OnlyShownDetached;
    done := {};
    NothingCleared(c.gateways, id);
    var from: Option<nat> := Some(0);
    while from.Some?
      invariant c.Valid() && c.now >= old(c.now)
      invariant from.Some? ==> from.value <= |c.gatewayOrder| && forall i :: 0 <= i < from.value ==> c.gatewayOrder[i] in c.gateways ==> c.gatewayOrder[i] in done
      invariant from.None? ==> c.gateways.Keys <= done
      invariant Cleared(old(c.gateways), c.gateways, id, done)
      invariant c.gateways.Keys == old(c.gateways).Keys && forall g <- c.gateways :: c.gateways[g].updatable == old(c.gateways)[g].updatable
      decreases if from.Some? then |c.gatewayOrder| - from.value + 1 else 0
    {
      var page :- c.ListGateways(from.value);
      ghost var before := c.gateways;
      ghost var more;
      r, more := DisassociatePage(c, id, page.items);
      ClearingComposes(old(c.gateways), before, c.gateways, id, done, more);
      ClearedFrame(old(c.gateways), c.gateways, id, done + more);
      done := done + more;
      if r.Err? { return; }
      from := page.next;
    }
    WalkIsExact(old(c.gateways), c.gateways, id, done);
    r := Ok(());
  }

  /** The gateways that show an arn with the id in it lose that association, and all others are as they were. */
  ghost predicate OnlyShownDetached(before: Gateways, after: Gateways, id: EngineId) {
    && after.Keys == before.Keys
    && forall g <- before ::
         if ShowsIdWithin(before[g], id)
         then after[g] == before[g].(visible := None, attached := before[g].attached - {before[g].visible.value})
         else after[g] == before[g]
  }

  lemma WalkIsExact(before: Gateways, after: Gateways, id: EngineId, done: set<GatewayId>)
    requires id != "" && Cleared(before, after, id, done) && after.Keys <= done
    ensures OnlyShownDetached(before, after, id)
  {
    hide Mentions, Contains;
    forall g <- before { MentionedIsWithin(before[g], id); }
  }

  /** The walk for an engine takes another one, whose arn contains the id, from the gateway that shows it. */
  method DisassociateTakesLongerId(c: Control, id: EngineId, g: GatewayId, pre: string, post: string) returns (r: Result<()>)
    requires c.Valid() && id != "" && g in c.gateways && c.gateways[g].visible == Some(pre + id + post)
    modifies c`now, c`gateways
    ensures c.Valid() && c.now >= old(c.now)
    ensures r.Ok? ==> g in c.gateways && c.gateways[g].visible.None? && c.gateways[g].attached == old(c.gateways)[g].attached - {pre + id + post}
    ensures c.honest && (forall h <- c.gateways :: old(c.gateways)[h].updatable) ==> r.Ok?
  {
    ghost var done;
    LongerIdIsDetached(c.gateways[g], pre, id, post);
    r, done := DisassociateFromAll(c, id);
  }

  // ---------- Deleting the policies and the engine ----------

  /** Normal return: no policy of the engine is left, across any paging.  Policies of other engines stay. */
  method DeletePoliciesOnEngine(c: Control, id: EngineId) returns (r: Result<()>)
    requires c.Valid()
    modifies c`now, c`policies
    ensures c.Valid() && c.now >= old(c.now)
    ensures r.Ok? ==> forall p <- c.policies :: p.0 != id
    ensures c.policies <= old(c.policies) && forall p <- old(c.policies) :: p.0 != id ==> p in c.policies
    ensures c.honest ==> r.Ok?
  {
    var from: Option<nat> := Some(0);
    while from.Some?
      invariant c.Valid() && c.now >= old(c.now)
      invariant c.policies <= old(c.policies) && forall p <- old(c.policies) :: p.0 != id ==> p in c.policies
      invariant from.Some? ==> from.value <= |c.policyOrder| && forall i :: 0 <= i < from.value ==> (id, c.policyOrder[i]) !in c.policies
      invariant from.None? ==> forall p <- c.policies :: p.0 != id
      decreases if from.Some? then |c.policyOrder| - from.value + 1 else 0
    {
      var page :- c.ListPolicies(id, from.value);
      ghost var listed := c.policies;
      for i := 0 to |page.items|
        invariant c.Valid() && c.now >= old(c.now)
        invariant c.policies <= listed && forall p <- old(c.policies) :: p.0 != id ==> p in c.policies
        invariant forall k :: 0 <= k < i ==> (id, page.items[k]) !in c.policies
      {
        var deleted :- c.DeletePolicy(id, page.items[i]);
      }
      ghost var end := if page.next.Some? then page.next.value else |c.policyOrder|;
      forall i | from.value <= i < end ensures (id, c.policyOrder[i]) !in c.policies {
        var p := c.policyOrder[i];
        assert p in c.policyOrder[from.value..end];
        if (id, p) in listed { assert p in page.items; }
      }
      if page.next.None? {
        assert forall p <- c.policies :: p == (p.0, p.1) && p.1 in c.policyOrder;
      }
      from := page.next;
    }
    r := Ok(());
  }

  /**
   The engine is gone when reading it finds nothing; a failed deletion, any other failure and the end of
   the two minutes are errors.
   */
  method WaitForPolicyEngineDeleted(c: Control, id: EngineId) returns (r: Result<()>, ghost seen: seq<Result<(bool, Engine)>>)
    requires c.Valid()
    modifies c`now, c`engines
    ensures c.Valid() && c.now >= old(c.now)
    ensures forall k :: 0 <= k < |seen| - 1 ==> seen[k].Ok? && !seen[k].value.0
    ensures seen != []
    ensures match seen[|seen|-1]
            case Err(Missing) => r.Ok?
            case Err(failure) => r == Err(failure)
            case Ok((failed, _)) => r == Err(OtherError) && (failed || c.now >= old(c.now) + 120_000)
    ensures r.Ok? ==> id !in c.engines
    ensures c.engines == old(c.engines) || c.engines == old(c.engines) - {id}
    ensures c.honest && id in old(c.engines) && old(c.engines)[id].deleting && !Blocked(c.gateways, old(c.engines)[id].arn) ==> r.Ok?
  {
    seen := [];
    var deadline := c.now + 120_000;
    while c.now < deadline
      invariant c.Valid() && c.now >= old(c.now)
      invariant forall k :: 0 <= k < |seen| ==> seen[k].Ok? && !seen[k].value.0
      invariant seen == [] ==> c.now < deadline
      invariant c.engines == old(c.engines) || c.engines == old(c.engines) - {id}
      invariant c.honest && id in old(c.engines) && old(c.engines)[id].deleting && !Blocked(c.gateways, old(c.engines)[id].arn) ==>
                  c.now < deadline && c.engines == old(c.engines)
      decreases deadline - c.now
    {
      var current := c.GetPolicyEngine(id);
      seen := seen + [current];
      if current.Err? { return if current.failure == Missing then Ok(()) else Err(current.failure), seen; }
      if current.value.0 { return Err(OtherError), seen; }
      c.Sleep(2000);
    }
    r := Err(OtherError);
  }

  /** The gateways an unblocking step may update have the fields an update repeats. */
  ghost predicate Updatable(gateways: Gateways, named: Option<GatewayId>) {
    match named
    case Some(g) => g in gateways && gateways[g].updatable
    case None => forall g <- gateways :: gateways[g].updatable
  }

  /** What a step that goes through does: it heals the named gateway, or else detaches every gateway showing the engine. */
  ghost predicate Unblocks(before: Gateways, after: Gateways, id: EngineId, arn: Arn, named: Option<GatewayId>) {
    match named
    case Some(g) => g in before && after == before[g := Healed(before[g], arn)]
    case None => after.Keys == before.Keys && forall g <- before :: after[g] == ClearedGateway(before[g], id)
  }

  /** One unblocking step of the retry. */
  method Unblock(c: Control, id: EngineId, arn: Arn, named: Option<GatewayId>) returns (r: Result<()>)
    requires c.Valid() && id != ""
    modifies c`now, c`gateways
    ensures c.Valid() && c.now >= old(c.now)
    ensures Touched(old(c.gateways), c.gateways, id, named)
    ensures r.Ok? ==> Unblocks(old(c.gateways), c.gateways, id, arn, named)
    ensures c.honest && Exists(c.engines, arn) && Updatable(old(c.gateways), named) ==> r.Ok?
  {
    hide Healed, ClearedGateway, Mentions;
    if named.Some? {
      r := Heal(c, named.value, arn);
    } else {
      ghost var done;
      r, done := DisassociateFromAll(c, id);
      ClearedIsTouched(old(c.gateways), c.gateways, id, done, named);
    }
  }

  lemma ClearedIsTouched(before: Gateways, after: Gateways, id: EngineId, done: set<GatewayId>, named: Option<GatewayId>)
    requires Cleared(before, after, id, done)
    ensures Touched(before, after, id, named)
  {
  }

  /**
   Some gateway other than the named one holds the engine and does not show it: it shows nothing, an
   engine whose arn does not contain the id, or another engine whose arn does.
   */
  ghost predicate Unseen(gateways: Gateways, id: EngineId, arn: Arn, named: Option<GatewayId>) {
    exists g <- gateways :: named != Some(g) && arn in gateways[g].attached && !(gateways[g].visible == Some(arn) && Mentions(gateways[g], id))
  }

  /** Whatever a teardown may touch, such an association stays. */
  lemma UnseenStays(before: Gateways, after: Gateways, id: EngineId, arn: Arn, named: Option<GatewayId>)
    requires id != "" && Touched(before, after, id, named) && Unseen(before, id, arn, named)
    ensures Unseen(after, id, arn, named) && Blocked(after, arn)
  {
    var g :| g in before && named != Some(g) && arn in before[g].attached && !(before[g].visible == Some(arn) && Mentions(before[g], id));
    assert arn in after[g].attached && !(after[g].visible == Some(arn) && Mentions(after[g], id));
  }

  /** A gateway that shows pe-10 and holds pe-1 is one: the walk for pe-1 takes pe-10 from it and leaves pe-1. */
  lemma UnseenBehindLongerId(gateways: Gateways, g: GatewayId, named: Option<GatewayId>)
    requires g in gateways && named != Some(g) && gateways[g].visible == Some("a/pe-10") && "a/pe-1" in gateways[g].attached
    ensures Mentions(gateways[g], "pe-1") && Unseen(gateways, "pe-1", "a/pe-1", named)
    ensures ClearedGateway(gateways[g], "pe-1").visible.None? && "a/pe-1" in ClearedGateway(gateways[g], "pe-1").attached
  {
    assert "a/" + "pe-1" + "0" == "a/pe-10";
    LongerIdIsDetached(gateways[g], "a/", "pe-1", "0");
  }

  /** Delete the engine and wait until it is gone. */
  method TryDelete(c: Control, id: EngineId, arn: Arn) returns (r: Result<()>)
    requires c.Valid() && (id in c.engines ==> c.engines[id].arn == arn)
    modifies c`now, c`engines
    ensures c.Valid() && c.now >= old(c.now)
    ensures c.engines - {id} == old(c.engines) - {id} && (id in c.engines ==> id in old(c.engines) && c.engines[id].arn == arn)
    ensures r.Ok? ==> id !in c.engines
    ensures Blocked(c.gateways, arn) && id in old(c.engines) ==> r.Err? && id in c.engines
    ensures c.honest && id in old(c.engines) ==> if Blocked(c.gateways, arn) then r == Err(StillAssociated) else r.Ok?
  {
    var d := c.DeletePolicyEngine(id);
    if d.Err? { return d; }
    ghost var seen;
    r, seen := WaitForPolicyEngineDeleted(c, id);
  }

  /** The backoff, in ms, that precedes an attempt: 5 s after the first, 5 s more after each. */
  function Backoff(attempt: nat): nat {
    if attempt <= 1 then 0 else Backoff(attempt - 1) + (attempt - 1) * 5000
  }

  lemma BackoffOfSix(attempt: nat)
    requires 1 <= attempt <= 6
    ensures Backoff(1) == 0 && Backoff(attempt + 1) == Backoff(attempt) + attempt * 5000
    ensures Backoff(attempt) <= 75_000
  {
    assert Backoff(3) == 15_000;
  }

  // ---------- When the retries succeed ----------

  /**
   The unblocking steps get rid of every association: with a named gateway, when no other one holds any;
   without, when every gateway that holds one shows it.
   */
  ghost predicate Deletable(gateways: Gateways, id: EngineId, arn: Arn, named: Option<GatewayId>) {
    match named
    case Some(n) => OnlyNamedHolds(gateways, arn, n) && !(LastSegment(arn) == "" && TwoHeals(gateways, arn, n))
    case None => forall g <- gateways :: arn in gateways[g].attached ==> gateways[g].visible == Some(arn) && Mentions(gateways[g], id)
  }

  /** The named gateway holds the engine and shows another one that it is taken for. */
  ghost predicate TwoHeals(gateways: Gateways, arn: Arn, n: GatewayId) {
    n in gateways && arn in gateways[n].attached && Clash(gateways[n], arn)
  }

  ghost function Attempts(gateways: Gateways, arn: Arn, named: Option<GatewayId>): nat {
    if !Blocked(gateways, arn) then 1
    else if named.Some? && TwoHeals(gateways, arn, named.value) then 3
    else 2
  }

  lemma HealOfClash(g: Gateway, arn: Arn)
    ensures arn in Healed(g, arn).attached <==> arn in g.attached && Clash(g, arn)
    ensures Clash(Healed(g, arn), arn) <==> LastSegment(arn) == ""
  {
    hide Includes, LastSegment;
    NothingContains(LastSegment(arn));
  }

  /** Healing a gateway leaves no association if and only if no other one holds any and it shows no clashing engine. */
  lemma HealingUnblocks(gateways: Gateways, arn: Arn, named: GatewayId)
    requires named in gateways
    ensures !Blocked(gateways[named := Healed(gateways[named], arn)], arn) <==> OnlyNamedHolds(gateways, arn, named) && !TwoHeals(gateways, arn, named)
  {
    hide Includes, LastSegment, Healed, Clash;
    HealOfClash(gateways[named], arn);
    var healed := gateways[named := Healed(gateways[named], arn)];
    forall g | g in healed && g != named ensures healed[g] == gateways[g] {
    }
    assert healed[named] == Healed(gateways[named], arn);
  }

  /** The first heal only drops the engine shown; it takes a second one to drop the hidden one. */
  lemma ClashTakesTwoHeals(g: Gateway, arn: Arn)
    requires Clash(g, arn) && arn in g.attached
    ensures arn in Healed(g, arn).attached
    ensures arn !in Healed(Healed(g, arn), arn).attached <==> LastSegment(arn) != ""
  {
    hide Includes, LastSegment, Healed, Clash;
    HealOfClash(g, arn);
    HealOfClash(Healed(g, arn), arn);
  }

  lemma NothingContains(part: string)
    ensures Includes("", part) <==> part == ""
  {
  }

  /** A gateway that shows pe-10 and holds pe-1 hidden is of that kind. */
  lemma HiddenBehindLongerId(g: Gateway)
    requires g.visible == Some("a/pe-10") && "a/pe-1" in g.attached
    ensures Clash(g, "a/pe-1") && LastSegment("a/pe-1") == "pe-1"
    ensures "a/pe-1" in Healed(g, "a/pe-1").attached && "a/pe-1" !in Healed(Healed(g, "a/pe-1"), "a/pe-1").attached
  {
    var arn := "a/pe-1";
    SegmentBehindSlash("a/", "pe-1");
    ContainedIsIncluded("a/", "pe-1", "0");
    assert "a/" + "pe-1" == arn && "a/" + "pe-1" + "0" == "a/pe-10";
    ClashTakesTwoHeals(g, arn);
  }

  /** How far the retries have come when the given attempt begins. */
  ghost predicate Progress(before: Gateways, now: Gateways, id: EngineId, arn: Arn, named: Option<GatewayId>, attempt: nat) {
    if attempt == 1 then now == before
    else
      && Blocked(before, arn)
      && if !Deletable(before, id, arn, named) then !Deletable(now, id, arn, named)
         else if attempt < Attempts(before, arn, named) then
           named.Some? && !TwoHeals(now, arn, named.value) && Blocked(now, arn) && Deletable(now, id, arn, named)
         else attempt == Attempts(before, arn, named) && !Blocked(now, arn)
  }

  lemma UndeletableIsBlocked(gateways: Gateways, id: EngineId, arn: Arn, named: Option<GatewayId>)
    requires !Deletable(gateways, id, arn, named)
    ensures Blocked(gateways, arn)
  {
    hide Mentions, Clash, LastSegment;
  }

  lemma StaysUndeletable(a: Gateways, b: Gateways, id: EngineId, arn: Arn, named: Option<GatewayId>)
    requires id != "" && Unblocks(a, b, id, arn, named) && !Deletable(a, id, arn, named)
    ensures !Deletable(b, id, arn, named)
  {
    hide Includes, LastSegment;
    NothingContains(id);
    match named
    case None =>
      var g :| g in a && arn in a[g].attached && !(a[g].visible == Some(arn) && Mentions(a[g], id));
      assert arn in b[g].attached && !(b[g].visible == Some(arn) && Mentions(b[g], id));
    case Some(n) =>
      if !OnlyNamedHolds(a, arn, n) {
        var g :| g in a && g != n && arn in a[g].attached;
        assert arn in b[g].attached;
      } else {
        NothingContains(LastSegment(arn));
      }
  }

  /** A step heals the one holder, in one go unless it shows a clashing engine. */
  lemma NamedStep(a: Gateways, b: Gateways, id: EngineId, arn: Arn, n: GatewayId)
    requires Unblocks(a, b, id, arn, Some(n)) && Blocked(a, arn) && Deletable(a, id, arn, Some(n))
    ensures Blocked(b, arn) <==> TwoHeals(a, arn, n)
    ensures OnlyNamedHolds(b, arn, n)
    ensures TwoHeals(a, arn, n) ==> !TwoHeals(b, arn, n) && Deletable(b, id, arn, Some(n))
  {
    hide Includes, LastSegment, Healed, Clash;
    HealOfClash(a[n], arn);
    assert arn in a[n].attached && b[n] == Healed(a[n], arn);
  }

  lemma OpenStep(a: Gateways, b: Gateways, id: EngineId, arn: Arn)
    requires Unblocks(a, b, id, arn, None) && Deletable(a, id, arn, None)
    ensures !Blocked(b, arn)
  {
    hide Includes;
  }

  /** Another step, after an attempt that was rejected. */
  lemma StepMakesProgress(before: Gateways, a: Gateways, b: Gateways, id: EngineId, arn: Arn, named: Option<GatewayId>, attempt: nat)
    requires id != "" && attempt >= 1 && Progress(before, a, id, arn, named, attempt) && Blocked(a, arn) && Unblocks(a, b, id, arn, named)
    ensures Progress(before, b, id, arn, named, attempt + 1)
  {
    hide Unblocks, Deletable, TwoHeals, Blocked;
    if !Deletable(a, id, arn, named) {
      StaysUndeletable(a, b, id, arn, named);
    } else if named.None? {
      OpenStep(a, b, id, arn);
    } else {
      NamedStep(a, b, id, arn, named.value);
    }
  }

  /** The attempt is rejected as long as there is no progress to the last one. */
  lemma ProgressDecides(before: Gateways, now: Gateways, id: EngineId, arn: Arn, named: Option<GatewayId>, attempt: nat)
    requires attempt >= 1 && Progress(before, now, id, arn, named, attempt)
    ensures !Blocked(now, arn) <==> Deletable(before, id, arn, named) && attempt == Attempts(before, arn, named)
    ensures Deletable(before, id, arn, named) ==> attempt <= Attempts(before, arn, named) <= 3
  {
    hide Deletable, TwoHeals, Blocked;
    if !Deletable(now, id, arn, named) { UndeletableIsBlocked(now, id, arn, named); }
    if !Deletable(before, id, arn, named) { UndeletableIsBlocked(before, id, arn, named); }
  }

  /**
   At most six delete attempts, five unblocking steps and 75 s of backoff.  An association that
   a gateway other than the named one holds without showing it always blocks the deletion.  An honest service lets it succeed
   if and only if the unblocking steps can reach every association, and then with the first attempt
   when there is none, with the third when the named gateway shows another engine that it is taken
   for, and otherwise with the second.
   */
  method DeletePolicyEngineWithRetry(c: Control, id: EngineId, arn: Arn, named: Option<GatewayId>)
    returns (r: Result<()>, attempt: nat, ghost unblocked: nat, ghost backoff: nat)
    requires c.Valid() && id in c.engines && c.engines[id].arn == arn
    modifies c`now, c`gateways, c`engines
    ensures c.Valid() && c.now >= old(c.now)
    ensures 1 <= attempt <= 6 && backoff == Backoff(attempt) <= 75_000 && c.now >= old(c.now) + backoff
    ensures unblocked <= 5 && (unblocked == attempt - 1 || (r.Err? && unblocked == attempt))
    ensures r.Ok? ==> id !in c.engines
    ensures c.engines - {id} == old(c.engines) - {id}
    ensures Touched(old(c.gateways), c.gateways, id, named)
    ensures Unseen(old(c.gateways), id, arn, named) ==> r.Err? && id in c.engines
    ensures c.honest && Updatable(old(c.gateways), named) ==>
              if Deletable(old(c.gateways), id, arn, named) then r.Ok? && attempt == Attempts(old(c.gateways), arn, named)
              else r == Err(StillAssociated) && attempt == 6
    ensures c.honest && !Blocked(old(c.gateways), arn) ==> r.Ok? && attempt == 1
  {
    hide *;
    attempt, unblocked, backoff := 1, 0, 0;
    BackoffOfSix(1);
    EngineExists(c, id);
    TouchedNothing(c.gateways, id, named);
    NoProgress(c.gateways, id, arn, named);
    ghost var before := c.gateways;
    while true
      invariant c.Valid() && c.now >= old(c.now) + backoff
      invariant 1 <= attempt <= 6 && backoff == Backoff(attempt) && unblocked == attempt - 1
      invariant c.engines - {id} == old(c.engines) - {id} && (id in c.engines ==> c.engines[id].arn == arn)
      invariant Touched(old(c.gateways), c.gateways, id, named)
      invariant Unseen(old(c.gateways), id, arn, named) || c.honest ==> id in c.engines
      invariant c.honest ==> Progress(old(c.gateways), c.gateways, id, arn, named, attempt)
      invariant c.honest && !Blocked(old(c.gateways), arn) ==> attempt == 1 && c.gateways == old(c.gateways)
      decreases 6 - attempt
    {
      BackoffOfSix(attempt);
      if Unseen(old(c.gateways), id, arn, named) { UnseenStays(old(c.gateways), c.gateways, id, arn, named); }
      if c.honest { ProgressDecides(old(c.gateways), c.gateways, id, arn, named, attempt); }
      var d := TryDelete(c, id, arn);
      if d.Ok? || d.failure != StillAssociated || attempt == 6 { return d, attempt, unblocked, backoff; }
      before := c.gateways;
      if Updatable(old(c.gateways), named) { UpdatableStays(old(c.gateways), before, id, named); }
      if id in c.engines { EngineExists(c, id); }
      r := Unblock(c, id, arn, named);
      unblocked := unblocked + 1;
      TouchedTransitive(old(c.gateways), before, c.gateways, id, named);
      if r.Err? { return; }
      if c.honest { StepMakesProgress(old(c.gateways), before, c.gateways, id, arn, named, attempt); }
      c.Sleep(attempt * 5000);
      backoff := backoff + attempt * 5000;
      attempt := attempt + 1;
    }
  }

  lemma NoProgress(gateways: Gateways, id: EngineId, arn: Arn, named: Option<GatewayId>)
    ensures Progress(gateways, gateways, id, arn, named, 1)
  {
  }

  lemma EngineExists(c: Control, id: EngineId)
    requires c.Valid() && id in c.engines
    ensures id != "" && Exists(c.engines, c.engines[id].arn)
  {
  }

  lemma TouchedNothing(gateways: Gateways, id: EngineId, named: Option<GatewayId>)
    ensures Touched(gateways, gateways, id, named)
  {
  }

  lemma UpdatableStays(before: Gateways, after: Gateways, id: EngineId, named: Option<GatewayId>)
    requires Touched(before, after, id, named) && Updatable(before, named)
    ensures Updatable(after, named)
  {
  }

  // ---------- The whole teardown ----------

  lemma PrefixGrows<T>(s: seq<T>, i: nat, j: nat)
    requires i <= j <= |s|
    ensures s[..j] == s[..i] + s[i..j] && s[..|s|] == s
  {
  }

  method FindPolicyEngineByName(c: Control, name: string) returns (r: Result<Option<EngineId>>)
    requires c.Valid()
    modifies c`now
    ensures c.now >= old(c.now)
    ensures r.Ok? && r.value.Some? ==> r.value.value in c.engines && c.engines[r.value.value].name == name
    ensures r == Ok(None) ==> forall e <- c.engines :: c.engines[e].name != name
    ensures c.honest ==> r.Ok?
  {
    var from: Option<nat> := Some(0);
    while from.Some?
      invariant c.now >= old(c.now)
      invariant from.Some? ==> from.value <= |c.engineOrder|
      invariant forall e <- c.engines :: (from.Some? ==> e in c.engineOrder[..from.value]) ==> c.engines[e].name != name
      decreases if from.Some? then |c.engineOrder| - from.value + 1 else 0
    {
      var page :- c.ListEngines(from.value);
      for i := 0 to |page.items|
        invariant c.now >= old(c.now)
        invariant forall k :: 0 <= k < i ==> c.engines[page.items[k]].name != name
      {
        if c.engines[page.items[i]].name == name { return Ok(Some(page.items[i])); }
      }
      ghost var end := if page.next.Some? then page.next.value else |c.engineOrder|;
      PrefixGrows(c.engineOrder, from.value, end);
      from := page.next;
    }
    r := Ok(None);
  }

  method ResolveGatewayId(c: Control, useCaseId: string) returns (r: Result<Option<GatewayId>>)
    requires c.Valid()
    modifies c`now
    ensures c.now >= old(c.now)
    ensures r.Ok? && r.value.Some? ==> r.value.value in c.gateways && c.gateways[r.value.value].name == GatewayName(useCaseId)
    ensures r == Ok(None) ==> useCaseId == "" || NoneNamed(c.gateways, GatewayName(useCaseId))
    ensures c.honest ==> r.Ok?
  {
    if useCaseId == "" { return Ok(None); }
    var from: Option<nat> := Some(0);
    while from.Some?
      invariant c.now >= old(c.now)
      invariant from.Some? ==> from.value <= |c.gatewayOrder|
      invariant forall g <- c.gateways :: (from.Some? ==> g in c.gatewayOrder[..from.value]) ==> c.gateways[g].name != GatewayName(useCaseId)
      decreases if from.Some? then |c.gatewayOrder| - from.value + 1 else 0
    {
      var page :- c.ListGateways(from.value);
      for i := 0 to |page.items|
        invariant c.now >= old(c.now)
        invariant forall k :: 0 <= k < i ==> c.gateways[page.items[k]].name != GatewayName(useCaseId)
      {
        if c.gateways[page.items[i]].name == GatewayName(useCaseId) { return Ok(Some(page.items[i])); }
      }
      ghost var end := if page.next.Some? then page.next.value else |c.gatewayOrder|;
      PrefixGrows(c.gatewayOrder, from.value, end);
      from := page.next;
    }
    r := Ok(None);
  }

  /**
   The teardown can get rid of every association: no gateway but the named one holds one it does not show,
   and the heals of the named one do not come to nothing (they do when no segment follows the arn's last slash).
   */
  ghost predicate Removable(gateways: Gateways, id: EngineId, arn: Arn, named: Option<GatewayId>) {
    !Unseen(gateways, id, arn, named) && !(named.Some? && LastSegment(arn) == "" && TwoHeals(gateways, arn, named.value))
  }

  /** The walk leaves associations with the unnamed gateways exactly when they had one unseen. */
  lemma WalkLeaves(before: Gateways, after: Gateways, id: EngineId, arn: Arn, named: Option<GatewayId>, done: set<GatewayId>)
    requires id != "" && Cleared(before, after, id, done) && before.Keys <= done
    ensures Unseen(before, id, arn, named) <==> exists g <- after :: named != Some(g) && arn in after[g].attached
    ensures named.Some? && LastSegment(arn) == "" ==> (TwoHeals(after, arn, named.value) <==> TwoHeals(before, arn, named.value))
  {
    hide Mentions, Includes, LastSegment;
    NothingContains(LastSegment(arn));
    if Unseen(before, id, arn, named) {
      var g :| g in before && named != Some(g) && arn in before[g].attached && !(before[g].visible == Some(arn) && Mentions(before[g], id));
      assert arn in after[g].attached;
    }
    if named.Some? && LastSegment(arn) == "" && named.value in before { AnythingContainsNothing(VisibleArn(before[named.value])); }
  }

  lemma AnythingContainsNothing(text: string)
    ensures Includes(text, "")
  {
    ContainedIsIncluded("", "", text);
    assert "" + "" + text == text;
  }

  /** What the walk leaves can be deleted, after a heal of the named gateway, exactly when it was removable. */
  lemma WalkAndHealLeave(before: Gateways, between: Gateways, after: Gateways, id: EngineId, arn: Arn, named: Option<GatewayId>, done: set<GatewayId>)
    requires id != "" && Cleared(before, between, id, done) && before.Keys <= done
    requires match named case None => after == between case Some(n) => n in between && after == between[n := Healed(between[n], arn)]
    ensures Deletable(after, id, arn, named) <==> Removable(before, id, arn, named)
  {
    hide Mentions, Includes, LastSegment, Cleared, TwoHeals;
    WalkLeaves(before, between, id, arn, named, done);
    if named.Some? {
      HealKeepsHolders(between, after, arn, named.value);
    } else {
      NoneShownAfterWalk(before, between, id, arn, done);
    }
  }

  lemma HealKeepsHolders(a: Gateways, b: Gateways, arn: Arn, n: GatewayId)
    requires n in a && b == a[n := Healed(a[n], arn)]
    ensures OnlyNamedHolds(b, arn, n) <==> !exists g <- a :: Some(n) != Some(g) && arn in a[g].attached
    ensures LastSegment(arn) == "" ==> (TwoHeals(b, arn, n) <==> TwoHeals(a, arn, n))
  {
    hide Includes, LastSegment, Healed, Clash;
    HealOfClash(a[n], arn);
    if !OnlyNamedHolds(b, arn, n) {
      var g :| g in b && g != n && arn in b[g].attached;
      assert g in a && arn in a[g].attached;
    }
    if g :| g in a && Some(n) != Some(g) && arn in a[g].attached {
      assert g in b && arn in b[g].attached;
    }
  }

  /** A gateway that still holds the engine after the walk does not show it. */
  lemma NoneShownAfterWalk(before: Gateways, after: Gateways, id: EngineId, arn: Arn, done: set<GatewayId>)
    requires id != "" && Cleared(before, after, id, done) && before.Keys <= done
    ensures forall g <- after :: !Mentions(after[g], id)
  {
    hide Includes;
    NothingContains(id);
  }

  /** Detaching from every gateway and healing the named one; failures are swallowed. */
  method DisassociateAndHeal(c: Control, id: EngineId, arn: Arn, named: Option<GatewayId>)
    requires c.Valid() && id in c.engines && c.engines[id].arn == arn
    modifies c`now, c`gateways
    ensures c.Valid() && c.now >= old(c.now)
    ensures Touched(old(c.gateways), c.gateways, id, named)
    ensures c.honest && (forall g <- old(c.gateways) :: old(c.gateways)[g].updatable) && (named.Some? ==> named.value in old(c.gateways)) ==>
              (Deletable(c.gateways, id, arn, named) <==> Removable(old(c.gateways), id, arn, named))
  {
    hide *;
    EngineExists(c, id);
    ghost var done;
    var r;
    r, done := DisassociateFromAll(c, id);
    ghost var between := c.gateways;
    ClearedIsTouched(old(c.gateways), between, id, done, named);
    ClearedFrame(old(c.gateways), between, id, done);
    if r.Ok? && named.Some? {
      r := Heal(c, named.value, arn);
      NamedIsTouched(between, c.gateways, id, named.value);
      TouchedTransitive(old(c.gateways), between, c.gateways, id, named);
    }
    if r.Ok? { WalkAndHealLeave(old(c.gateways), between, c.gateways, id, arn, named, done); }
  }

  lemma NamedIsTouched(before: Gateways, after: Gateways, id: EngineId, named: GatewayId)
    requires after.Keys == before.Keys
    requires forall g <- after :: after[g].updatable == before[g].updatable && (g != named ==> after[g] == before[g])
    ensures Touched(before, after, id, Some(named))
  {
  }

  lemma UniqueArn(c: Control, id: EngineId)
    requires c.Valid() && id in c.engines
    ensures OneArnEach(c.engines)
  {
  }

  lemma GoneIsUnblocked(c: Control, engines: map<EngineId, Engine>, id: EngineId)
    requires c.Valid() && OneArnEach(engines) && id in engines && id !in c.engines && c.engines - {id} == engines - {id}
    ensures !Blocked(c.gateways, engines[id].arn)
  {
    assert !Exists(c.engines, engines[id].arn) by {
      forall e | e in c.engines ensures c.engines[e].arn != engines[id].arn {
        assert e in c.engines - {id} && e in engines && c.engines[e] == engines[e];
      }
    }
  }

  lemma StaysUpdatable(before: Gateways, after: Gateways, id: EngineId, named: Option<GatewayId>)
    requires Touched(before, after, id, named) && (forall g <- before :: before[g].updatable) && (named.Some? ==> named.value in before)
    ensures Updatable(after, named)
  {
  }

  /** What the teardown of one engine leaves, whether it returns or throws. */
  ghost predicate OnlyThisEngine(engines: map<EngineId, Engine>, engines': map<EngineId, Engine>,
                                 policies: set<(EngineId, PolicyId)>, policies': set<(EngineId, PolicyId)>, id: EngineId) {
    && engines' - {id} == engines - {id}
    && policies' <= policies && (forall p <- policies :: p.0 != id ==> p in policies')
  }

  /** The result of a teardown by an honest service, where all gateways can be updated. */
  ghost predicate HonestResult(gateways: Gateways, id: EngineId, engine: Engine, named: Option<GatewayId>, r: Result<()>) {
    if engine.deleting && !Blocked(gateways, engine.arn) then r == Err(Missing)
    else if Removable(gateways, id, engine.arn, named) then r.Ok?
    else r == Err(DeleteBlocked(id))
  }

  ghost predicate NoneNamed(gateways: Gateways, name: string) {
    forall g <- gateways :: gateways[g].name != name
  }

  ghost predicate AllUpdatable(gateways: Gateways) {
    forall g <- gateways :: gateways[g].updatable
  }

  /**
   On normal return that engine and all its policies are gone, no gateway is associated with it, and
   every gateway other than the named one and those showing its id is untouched.  An association that
   another gateway holds without showing it makes every teardown fail.  With an honest service and
   gateways that can be updated it fails exactly when the associations are not removable, with the
   blocked error, or when the engine was on its way out already and nothing held it.
   */
  method TeardownEngine(c: Control, id: EngineId, useCaseId: string)
    returns (r: Result<()>, ghost named: Option<GatewayId>)
    requires c.Valid() && id in c.engines
    modifies c`now, c`gateways, c`engines, c`policies
    ensures c.Valid() && c.now >= old(c.now)
    ensures named.Some? ==> named.value in old(c.gateways) && old(c.gateways)[named.value].name == GatewayName(useCaseId)
    ensures named.None? && (r.Ok? || (c.honest && r != Err(Missing))) ==> useCaseId == "" || NoneNamed(old(c.gateways), GatewayName(useCaseId))
    ensures OnlyThisEngine(old(c.engines), c.engines, old(c.policies), c.policies, id)
    ensures Touched(old(c.gateways), c.gateways, id, named)
    ensures r.Ok? ==> id !in c.engines && (forall p <- c.policies :: p.0 != id) && !Blocked(c.gateways, old(c.engines)[id].arn)
    ensures Unseen(old(c.gateways), id, old(c.engines)[id].arn, named) ==> r.Err?
    ensures c.honest && AllUpdatable(old(c.gateways)) ==> HonestResult(old(c.gateways), id, old(c.engines)[id], named, r)
    ensures OthersKept(old(c.gateways), c.gateways, id, named)
  {
    hide OthersKept, NoneNamed, Control.Valid, Touched, Unseen, Removable, Deletable, Blocked, Updatable;
    hide OneArnEach, Exists, Sound, GatewayName;
    named := None;
    ghost var gateways, engines, policies := c.gateways, c.engines, c.policies;
    EngineExists(c, id);
    UniqueArn(c, id);
    TouchedNothing(gateways, id, named);
    TouchedKeepsOthers(gateways, c.gateways, id, named);
    var engine := c.GetPolicyEngine(id);
    if engine.Err? { return Err(engine.failure), named; }
    var arn := engine.value.1.arn;
    var gateway: Option<GatewayId> := None;
    if useCaseId != "" {
      var resolved := ResolveGatewayId(c, useCaseId);
      if resolved.Err? { return Err(resolved.failure), named; }
      gateway := resolved.value;
      named := gateway;
      TouchedNothing(gateways, id, named);
    }
    DisassociateAndHeal(c, id, arn, gateway);
    ghost var between := c.gateways;
    TouchedKeepsOthers(gateways, between, id, named);
    r := DeletePoliciesOnEngine(c, id);
    if Unseen(gateways, id, arn, gateway) { UnseenStays(gateways, between, id, arn, gateway); }
    if r.Err? { return; }
    if AllUpdatable(gateways) { StaysUpdatable(gateways, between, id, gateway); }
    var attempts;
    ghost var unblocked, backoff;
    r, attempts, unblocked, backoff := DeletePolicyEngineWithRetry(c, id, arn, gateway);
    TouchedTransitive(gateways, between, c.gateways, id, named);
    TouchedKeepsOthers(gateways, c.gateways, id, named);
    if r.Ok? { GoneIsUnblocked(c, engines, id); }
    if r == Err(StillAssociated) { r := Err(DeleteBlocked(id)); }
  }

  /** What the teardown for an instance leaves of the service, its engine being `target` and the gateway found `named`. */
  ghost predicate EngineTornDown(gateways: Gateways, engines: map<EngineId, Engine>, policies: set<(EngineId, PolicyId)>,
                                 gateways': Gateways, engines': map<EngineId, Engine>, policies': set<(EngineId, PolicyId)>,
                                 honest: bool, instanceId: string, useCaseId: string,
                                 r: Result<()>, target: Option<EngineId>, named: Option<GatewayId>) {
    && (target.None? ==> gateways' == gateways && engines' == engines && policies' == policies)
    && (r.Ok? && target.None? ==> instanceId == "" || forall e <- engines' :: engines'[e].name != EngineName(instanceId))
    && (named.Some? ==> named.value in gateways && gateways[named.value].name == GatewayName(useCaseId))
    && (target.Some? ==>
          var id := target.value;
          && id in engines && engines[id].name == EngineName(instanceId)
          && OnlyThisEngine(engines, engines', policies, policies', id)
          && Touched(gateways, gateways', id, named)
          && (r.Ok? ==> id !in engines' && (forall p <- policies' :: p.0 != id) && !Blocked(gateways', engines[id].arn))
          && (Unseen(gateways, id, engines[id].arn, named) ==> r.Err?)
          && OthersKept(gateways, gateways', id, named)
          && (named.None? && (r.Ok? || (honest && r != Err(Missing))) ==> useCaseId == "" || NoneNamed(gateways, GatewayName(useCaseId)))
          && (honest && AllUpdatable(gateways) ==> HonestResult(gateways, id, engines[id], named, r)))
    && (honest && target.None? ==> r.Ok?)
  }

  /** An instance with no engine is left as it is. */
  method TeardownWorkspacePolicyEngine(c: Control, instanceId: string, useCaseId: string)
    returns (r: Result<()>, ghost target: Option<EngineId>, ghost named: Option<GatewayId>)
    requires c.Valid()
    modifies c`now, c`gateways, c`engines, c`policies
    ensures c.Valid() && c.now >= old(c.now)
    ensures EngineTornDown(old(c.gateways), old(c.engines), old(c.policies), c.gateways, c.engines, c.policies,
                           c.honest, instanceId, useCaseId, r, target, named)
  {
    hide Control.Valid, Touched, Blocked, GatewayName, EngineName, OnlyThisEngine, Unseen, HonestResult, OthersKept, NoneNamed;
    target, named := None, None;
    if instanceId == "" { return Ok(()), target, named; }
    var found :- FindPolicyEngineByName(c, EngineName(instanceId));
    if found.None? { return Ok(()), target, named; }
    target := found;
    r, named := TeardownEngine(c, found.value, useCaseId);
  }
}
