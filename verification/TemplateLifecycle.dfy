/**
 The life of a template: draft, in_testing, published, archived.

 `TemplateStore` is the templates table with the operations of the templates API.  An operation
 is one or more separate writes, and any write or any call in between can fail, so the safety
 properties are stated of `history`, the table after every single write.
 */
module TemplateLifecycle {
  import opened Calls
  import opened Strings
  import opened UpdateExpressions
  import opened TemplateUpdates
  import opened StackStatuses

  type Id = string

  type Store = map<Id, Item>

  const TESTING_ATTRS: set<Attr> := {
    TestingUseCaseId, TestingUseCaseName, TestingDeployStatus, TestingValidatedAt,
    TestingRuntimeUrl, TestingStartedAt, TestingError
  }

  // ---------- What every stored item and every write must satisfy ----------

  ghost predicate Typed(item: Item) {
    && Status in item && item[Status].Stage?
    && Slug in item && item[Slug].Text?
    && Devops in item && item[Devops].Config?
  }

  predicate At(item: Item, stage: Lifecycle) {
    Status in item && item[Status] == Stage(stage)
  }

  predicate DeployIs(item: Item, deploy: Deploy) {
    TestingDeployStatus in item && item[TestingDeployStatus] == Test(deploy)
  }

  predicate IsOrchestrator(item: Item) {
    Devops in item && item[Devops].Config? && item[Devops].devops.orchestrator
  }

  /** No Testing* attribute outside testing; in testing a test name and a deploy status. */
  ghost predicate Good(item: Item) {
    && Typed(item)
    && (!At(item, InTesting) ==> item.Keys !! TESTING_ATTRS)
    && (At(item, InTesting) ==>
          TestingUseCaseName in item && TestingDeployStatus in item && item[TestingDeployStatus].Test?)
  }

  ghost predicate Edge(from: Lifecycle, to: Lifecycle) {
    match from
    case Draft => to != Archived
    case InTesting => to != Archived
    case Published => to == Published || to == Archived
    case Archived => to == Archived
  }

  /** What publishing asks of the item being published. */
  predicate ReadyToPublish(item: Item) {
    if IsOrchestrator(item) then At(item, Draft) || At(item, InTesting)
    else At(item, InTesting) && DeployIs(item, Active) && TestingValidatedAt in item
  }

  ghost predicate ItemStep(before: Item, after: Item) {
    && Good(before) && Good(after)
    && Edge(before[Status].stage, after[Status].stage)
    && (At(before, Published) || At(before, Archived) || At(after, Published) ==>
          after[Slug] == before[Slug] && after[Devops] == before[Devops])
    // The validation stamp appears only on an active deployment, and stays only while testing
    // goes on and devops is not edited.
    && (TestingValidatedAt in after ==>
          && At(before, InTesting) && At(after, InTesting)
          && after[Devops] == before[Devops]
          && (TestingValidatedAt in before || DeployIs(before, Active)))
    && (At(after, Published) && !At(before, Published) ==> ReadyToPublish(before))
  }

  predicate SlugTaken(s: Store, id: Id, slug: Value) {
    exists other <- s :: other != id && At(s[other], Published) && Slug in s[other] && s[other][Slug] == slug
  }

  /** One write: one item is created or changed. */
  ghost predicate StoreStep(s: Store, s': Store, id: Id) {
    && id in s' && s' == s[id := s'[id]]
    && Good(s'[id])
    && (id !in s ==> At(s'[id], Draft))
    && (id in s ==> ItemStep(s[id], s'[id]))
    && (id in s && At(s'[id], Published) && !At(s[id], Published) ==> !SlugTaken(s, id, s[id][Slug]))
  }

  ghost predicate WriteStep(s: Store, s': Store) {
    exists id: Id :: StoreStep(s, s', id)
  }

  /** The table after every write since it was empty. */
  ghost predicate Run(h: seq<Store>) {
    && |h| > 0 && h[0] == map[]
    && forall i :: 0 < i < |h| ==> WriteStep(h[i-1], h[i])
  }

  // ---------- What the test deployment calls answer ----------

  datatype Stack = Stack(status: StackStatus, reason: string, url: Option<string>)

  datatype Probe = Probe(status: StackStatus, url: Option<string>)

  /** The use case found by name, the stack of its record, and the deployment probe. */
  datatype SyncAnswers = SyncAnswers(found: Call<Option<string>>, stack: Call<Stack>, probe: Call<Probe>)

  /** `linkError` is the message of the write of the use case id, should that fail. */
  datatype StartAnswers = StartAnswers(
    existing: Call<Option<string>>,
    deploy: Call<()>,
    resolved: Call<string>,
    linkError: string,
    afterError: Call<Option<string>>,
    sync: SyncAnswers)

  function Waiting(): TestingFields {
    TestingFields(deploy := To(Deploying), error := To("Waiting for test deployment record"))
  }

  function Linked(useCaseId: string): TestingFields {
    TestingFields(useCaseId := To(useCaseId))
  }

  function UrlField(url: Option<string>): Field<string> {
    match url
    case None => Null
    case Some(u) => To(u)
  }

  /** The changes a status refresh writes for a stack and a probe (a failed probe reads as no status). */
  function Verdict(stack: Stack, probe: Probe): TestingFields {
    if stack.status.StackDeleted? then LeaveTesting(Draft)
    else if IsRollbackOrDelete(stack.status) then
      TestingFields(deploy := To(Failed), url := Null, error := To(stack.reason))
    else
      var url := UrlField(if probe.url.Some? then probe.url else stack.url);
      if IsActive(probe.status) || IsActive(stack.status) then
        TestingFields(deploy := To(Active), url := url, error := Null)
      else if !(IsInProgress(probe.status) || IsInProgress(stack.status)) && (IsFailedTest(probe.status) || IsFailedTest(stack.status)) then
        TestingFields(deploy := To(Failed), url := url, error := To("Test stack is kept"))
      else
        TestingFields(deploy := To(Deploying), url := url, error := Null)
  }

  function ProbeOrNothing(c: Call<Probe>): Probe {
    match c
    case Answer(p) => p
    case Thrown(_) => Probe(NoStatus, None)
  }

  /** The id the refresh works with: the stored one, or else the one found under the test name. */
  function KnownId(useCaseId: Option<string>, testName: Option<string>, found: Call<Option<string>>): Option<string> {
    if useCaseId.Some? || testName.None? || found.Thrown? then useCaseId else found.value
  }

  ghost function LinkedItem(item: Item, useCaseId: Option<string>, known: Option<string>, now: string): Item {
    if useCaseId.None? && known.Some? then WithTesting(item, Linked(known.value), now) else item
  }

  ghost function Refreshed(item: Item, useCaseId: Option<string>, testName: Option<string>, a: SyncAnswers, now: string): Item {
    var known := KnownId(useCaseId, testName, a.found);
    var linked := LinkedItem(item, useCaseId, known, now);
    WithTesting(linked, SyncFields(known, a), now)
  }

  function SyncFields(known: Option<string>, a: SyncAnswers): TestingFields {
    if known.None? || a.stack.Thrown? then Waiting() else Verdict(a.stack.value, ProbeOrNothing(a.probe))
  }

  /** 'tpl-test-<slug>-<first eight of the id without hyphens>', cut to 200. */
  function TestName(slug: string, id: Id): string {
    Take("tpl-test-" + slug + "-" + Take(WithoutHyphens(id), 8), 200)
  }

  /** A stored attribute, when it is there. */
  function TextOf(item: Item, a: Attr): Option<string> {
    if a in item && item[a].Text? then Some(item[a].text) else None
  }

  ghost function RefreshedItem(item: Item, a: SyncAnswers, now: string): Item {
    Refreshed(item, TextOf(item, TestingUseCaseId), TextOf(item, TestingUseCaseName), a, now)
  }

  predicate CanStart(item: Item)
    requires Typed(item)
  {
    At(item, InTesting) || (At(item, Draft) && item[Devops].devops.valid)
  }

  function Redeployed(useCaseId: string): TestingFields {
    TestingFields(useCaseId := To(useCaseId), deploy := To(Deploying), error := Null)
  }

  function Recovered(name: string, useCaseId: string, error: string, now: string): TestingFields {
    TestingFields(Some(InTesting), To(name), To(useCaseId), To(Deploying), Absent, To(error), Absent, true)
  }

  function DeployError(a: StartAnswers): string {
    var message := if a.deploy.Thrown? then a.deploy.message else if a.resolved.Thrown? then a.resolved.message else a.linkError;
    if message == "" then "Deploy in progress or recoverable" else message
  }

  /** The stack or the probe was seen active, and the stack in no rollback, deletion or failed creation. */
  ghost predicate SeenUp(a: SyncAnswers) {
    && a.stack.Answer?
    && (IsActive(a.stack.value.status) || (a.probe.Answer? && IsActive(a.probe.value.status)))
    && ROLLBACK !in Words(a.stack.value.status) && DELETE !in Words(a.stack.value.status)
    && a.stack.value.status != StackDeleted && a.stack.value.status != CreateFailed
  }

  /** A test session of that use case that began at `now`, neither seen up nor validated yet. */
  ghost predicate StartedAnew(item: Item, name: string, useCaseId: string, now: string) {
    && At(item, InTesting) && DeployIs(item, Deploying) && TestingValidatedAt !in item && TestingRuntimeUrl !in item
    && TextOf(item, TestingUseCaseName) == Some(name) && TextOf(item, TestingUseCaseId) == Some(useCaseId)
    && TextOf(item, TestingStartedAt) == Some(now)
  }

  /** What a deployment leaves without an error; a recovery leaves one. */
  ghost predicate DeployedAnew(item: Item, name: string, a: StartAnswers, now: string) {
    if TestingError !in item then a.resolved.Answer? && StartedAnew(item, name, a.resolved.value, now)
    else
      && a.afterError.Answer? && a.afterError.value.Some? && StartedAnew(item, name, a.afterError.value.value, now)
      && TextOf(item, TestingError).Some? && TextOf(item, TestingError) != Some("")
      && (a.deploy.Thrown? && a.deploy.message != "" ==> TextOf(item, TestingError) == Some(a.deploy.message))
      && (a.deploy.Answer? && a.resolved.Thrown? && a.resolved.message != "" ==> TextOf(item, TestingError) == Some(a.resolved.message))
  }

  ghost predicate DeployedOrRecovered(before: Item, after: Item, name: string, a: StartAnswers, now: string) {
    || (a.deploy.Answer? && a.resolved.Answer? && after == WithTesting(before, Redeployed(a.resolved.value), now))
    || (a.afterError.Answer? && a.afterError.value.Some? &&
        after == WithTesting(before, Recovered(name, a.afterError.value.value, DeployError(a), now), now))
  }

  /** What a start that reports success made of a draft: adopted, deployed or recovered. */
  ghost predicate StartedFromDraft(before: Item, after: Item, id: Id, a: StartAnswers, now: string)
    requires Typed(before)
  {
    var name := TestName(before[Slug].text, id);
    a.existing.Answer? &&
    match a.existing.value
    case Some(x) => after == Refreshed(WithTesting(before, Begin(name, To(x), Null, now), now), Some(x), Some(name), a.sync, now)
    case None => DeployedOrRecovered(WithTesting(before, Begin(name, Absent, Null, now), now), after, name, a, now)
  }

  ghost function Patched(item: Item, marketing: Option<string>, now: string): Item {
    match marketing
    case None => item
    case Some(m) => item[UpdatedAt := Text(now)][Marketing := Text(m)]
  }

  ghost function PublishedItem(item: Item, actor: string, now: string): Item {
    WithTesting(item, LeaveTesting(Published), now)[PublishedAt := Text(now)][PublishedBy := Text(actor)]
  }

  /** Entering testing: the test name, an optional use case id, and no validation stamp. */
  function Begin(name: string, useCaseId: Field<string>, rest: Field<string>, now: string): TestingFields {
    TestingFields(Some(InTesting), To(name), useCaseId, To(Deploying), rest, rest, To(now), true)
  }

  datatype Outcome = Done | Refused | NotFound | CallFailed | WriteFailed | DeployFailed

  /** The marketing text to store first, if any, whether the document passes, and what the slug query answers. */
  datatype PublishChecks = PublishChecks(patchedMarketing: Option<string>, marketingValid: bool, slugQuery: Call<()>)

  /** What publishing asks of the template's status, attribute by attribute. */
  ghost predicate StatusAllows(item: Item)
    requires Typed(item)
  {
    if item[Devops].devops.orchestrator then item[Status] == Stage(Draft) || item[Status] == Stage(InTesting)
    else && item[Status] == Stage(InTesting) && TestingDeployStatus in item && item[TestingDeployStatus] == Test(Active)
         && TestingValidatedAt in item
  }

  /** What it asks of a template, but for its marketing document. */
  ghost predicate MayPublish(s: Store, id: Id)
    requires id in s && Typed(s[id])
  {
    && StatusAllows(s[id]) && s[id][Devops].devops.valid
    && forall other <- s :: other != id && Status in s[other] && s[other][Status] == Stage(Published) && Slug in s[other] ==>
         s[other][Slug] != s[id][Slug]
  }

  lemma MayPublishByChecks(s: Store, id: Id)
    requires id in s && Typed(s[id])
    ensures StatusAllows(s[id]) <==> ReadyToPublish(s[id])
    ensures MayPublish(s, id) <==> ReadyToPublish(s[id]) && !SlugTaken(s, id, s[id][Slug]) && s[id][Devops].devops.valid
  {
  }

  /** The item a template starts as. */
  function NewTemplate(id: Id, slug: string, useCaseType: string, marketing: string, devops: DevopsDoc,
                       wizard: Option<string>, ratings: Option<string>, now: string): (item: Item)
    ensures Good(item) && At(item, Draft)
  {
    var item: Item := map[TemplateId := Text(id), Slug := Text(slug), Status := Stage(Draft), UseCaseType := Text(useCaseType),
        Marketing := Text(marketing), Devops := Config(devops), CreatedAt := Text(now), UpdatedAt := Text(now)];
    var item := if wizard.Some? then item[WizardPayload := Text(wizard.value)] else item;
    if ratings.Some? then item[Ratings := Text(ratings.value)] else item
  }

  /** Good items stay good and the history stays a run through one step. */
  lemma RunIsGood(h: seq<Store>, i: nat)
    requires Run(h) && i < |h|
    ensures forall id <- h[i] :: Good(h[i][id])
  {
    if i > 0 {
      RunIsGood(h, i - 1);
      var id :| StoreStep(h[i-1], h[i], id);
    }
  }

  lemma RunExtends(h: seq<Store>, s: Store, id: Id)
    requires Run(h) && StoreStep(h[|h|-1], s, id)
    ensures Run(h + [s])
  {
    assert WriteStep(h[|h|-1], s);
    var h' := h + [s];
    forall i | 0 < i < |h'| ensures WriteStep(h'[i-1], h'[i]) {
      if i < |h| { assert h'[i-1] == h[i-1] && h'[i] == h[i]; }
    }
  }

  /** How attributes read after a partial update. */
  lemma UpdateReads(item: Item, f: TestingFields, now: string)
    requires Typed(item)
    ensures var after := WithTesting(item, f, now);
            && Typed(after)
            && after[Status] == (if f.status.Some? then Stage(f.status.value) else item[Status])
            && (TestingValidatedAt in after <==> TestingValidatedAt in item && !f.clearValidation)
            && (forall d :: DeployIs(after, d) <==> f.deploy == To(d) || (f.deploy.Absent? && DeployIs(item, d)))
  {
    TestingUpdateStage(item, f, now);
  }

  /** How the texts of a test session read after a partial update. */
  lemma TextsRead(item: Item, f: TestingFields, now: string)
    ensures var after := WithTesting(item, f, now);
            && TextOf(after, TestingUseCaseName) == TextAfter(item, TestingUseCaseName, f.name)
            && TextOf(after, TestingUseCaseId) == TextAfter(item, TestingUseCaseId, f.useCaseId)
            && TextOf(after, TestingStartedAt) == TextAfter(item, TestingStartedAt, f.startedAt)
            && TextOf(after, TestingRuntimeUrl) == TextAfter(item, TestingRuntimeUrl, f.url)
            && TextOf(after, TestingError) == TextAfter(item, TestingError, f.error)
  {
  }

  lemma ErrorAndUrlRead(item: Item, f: TestingFields, now: string)
    ensures var after := WithTesting(item, f, now);
            && (TestingError in after <==> f.error.To? || (f.error.Absent? && TestingError in item))
            && (TestingRuntimeUrl in after <==> f.url.To? || (f.url.Absent? && TestingRuntimeUrl in item))
  {
  }

  ghost function TextAfter(item: Item, a: Attr, f: Field<string>): Option<string> {
    match f
    case Absent => TextOf(item, a)
    case Null => None
    case To(v) => Some(v)
  }

  lemma SyncSees(known: Option<string>, a: SyncAnswers)
    ensures !SyncFields(known, a).deploy.Absent? && (SyncFields(known, a).deploy == To(Active) ==> SeenUp(a))
  {
  }

  /** A refresh shows an active deployment only when it saw one. */
  lemma RefreshedIsSeen(item: Item, useCaseId: Option<string>, testName: Option<string>, a: SyncAnswers, now: string)
    requires Typed(item)
    ensures DeployIs(Refreshed(item, useCaseId, testName, a, now), Active) ==> SeenUp(a)
  {
    hide WithTesting, SyncFields, SeenUp;
    var known := KnownId(useCaseId, testName, a.found);
    if useCaseId.None? && known.Some? { UpdateReads(item, Linked(known.value), now); }
    UpdateReads(LinkedItem(item, useCaseId, known, now), SyncFields(known, a), now);
    SyncSees(known, a);
  }

  lemma BegunReads(draft: Item, name: string, useCaseId: Field<string>, rest: Field<string>, now: string)
    requires Good(draft) && At(draft, Draft)
    requires !rest.To?
    ensures var begun := WithTesting(draft, Begin(name, useCaseId, rest, now), now);
            && Typed(begun) && At(begun, InTesting) && DeployIs(begun, Deploying) && TestingValidatedAt !in begun && TestingRuntimeUrl !in begun
            && TextOf(begun, TestingUseCaseName) == Some(name) && TextOf(begun, TestingStartedAt) == Some(now)
            && (useCaseId.To? ==> TextOf(begun, TestingUseCaseId) == Some(useCaseId.value))
  {
    hide WithTesting;
    assert TestingRuntimeUrl in TESTING_ATTRS;
    UpdateReads(draft, Begin(name, useCaseId, rest, now), now);
    TextsRead(draft, Begin(name, useCaseId, rest, now), now);
    ErrorAndUrlRead(draft, Begin(name, useCaseId, rest, now), now);
  }

  /** What a deployment after a fresh start left is a session just begun, under its test name. */
  lemma DeployedIsAnew(draft: Item, after: Item, name: string, a: StartAnswers, now: string)
    requires Good(draft) && At(draft, Draft)
    requires DeployedOrRecovered(WithTesting(draft, Begin(name, Absent, Null, now), now), after, name, a, now)
    ensures DeployedAnew(after, name, a, now) && !DeployIs(after, Active)
  {
    hide WithTesting, Begin;
    var begun := WithTesting(draft, Begin(name, Absent, Null, now), now);
    BegunReads(draft, name, Absent, Null, now);
    if a.deploy.Answer? && a.resolved.Answer? && after == WithTesting(begun, Redeployed(a.resolved.value), now) {
      UpdateReads(begun, Redeployed(a.resolved.value), now);
      TextsRead(begun, Redeployed(a.resolved.value), now);
      ErrorAndUrlRead(begun, Redeployed(a.resolved.value), now);
    } else {
      var f := Recovered(name, a.afterError.value.value, DeployError(a), now);
      UpdateReads(begun, f, now);
      TextsRead(begun, f, now);
      ErrorAndUrlRead(begun, f, now);
    }
  }

  lemma DraftIsInactive(draft: Item)
    requires Good(draft) && At(draft, Draft)
    ensures !DeployIs(draft, Active)
  {
    assert TestingDeployStatus in TESTING_ATTRS;
  }

  /** The item was written, or the write failed and it was written or not. */
  ghost predicate Wrote(before: Store, after: Store, id: Id, item: Item, done: bool) {
    after == before[id := item] || (!done && after == before)
  }

  class TemplateStore {
    var items: Store
    ghost var history: seq<Store>
    // How many writes threw.
    ghost var failed: nat

    ghost predicate Valid() reads this {
      Run(history) && items == history[|history|-1] && forall id <- items :: Good(items[id])
    }

    constructor ()
      ensures Valid() && items == map[] && history == [map[]] && failed == 0
    {
      items := map[];
      history := [map[]];
      failed := 0;
    }

    /** One update call.  It may throw, before or after it took effect. */
    method Write(id: Id, u: Update) returns (done: bool)
      requires Valid() && id in items && Accepted(u)
      requires StoreStep(items, items[id := Evaluate(u, items[id])], id)
      modifies this
      ensures Valid()
      ensures Wrote(old(items), items, id, Evaluate(u, old(items)[id]), done) && old(history) <= history
      ensures failed == old(failed) + if done then 0 else 1
    {
      done := *;
      failed := failed + if done then 0 else 1;
      var applied: bool := *;
      if done || applied {
        RunExtends(history, items[id := Evaluate(u, items[id])], id);
        items := items[id := Evaluate(u, items[id])];
        history := history + [items];
      }
    }

    method CreateTemplate(id: Id, slug: Option<string>, useCaseType: string, marketing: string, devops: DevopsDoc,
                          wizard: Option<string>, ratings: Option<string>, now: string) returns (r: Outcome)
      requires Valid() && id !in items
      modifies this
      ensures Valid() && old(history) <= history
      ensures failed >= old(failed) && (r == WriteFailed <==> failed > old(failed))
      ensures r == Refused <==> slug.None?
      ensures r in {Done, Refused, WriteFailed}
      ensures r == Refused ==> items == old(items)
      ensures r != Refused ==>
                Wrote(old(items), items, id, NewTemplate(id, slug.value, useCaseType, marketing, devops, wizard, ratings, now), r == Done)
    {
      if slug.None? { return Refused; }
      var done: bool, applied: bool := *, *;
      failed := failed + if done then 0 else 1;
      if !done && !applied { return WriteFailed; }
      var item := NewTemplate(id, slug.value, useCaseType, marketing, devops, wizard, ratings, now);
      NewIsStep(items, item, id);
      RunExtends(history, items[id := item], id);
      items := items[id := item];
      history := history + [items];
      r := if done then Done else WriteFailed;
    }

    method UpdateTemplate(id: Id, e: Edit, slugOk: bool, now: string) returns (r: Outcome)
      requires Valid()
      modifies this
      ensures Valid() && old(history) <= history
      ensures failed >= old(failed) && (r == WriteFailed <==> failed > old(failed))
      ensures r == NotFound <==> id !in old(items)
      ensures r == Refused <==>
              id in old(items) && (At(old(items)[id], Published) || At(old(items)[id], Archived) || !slugOk)
      ensures r in {NotFound, Refused, Done, WriteFailed}
      ensures r in {NotFound, Refused} ==> items == old(items)
      ensures r in {Done, WriteFailed} ==>
                Wrote(old(items), items, id, Edited(old(items)[id], e, At(old(items)[id], InTesting) && e.devops.Some?, now), r == Done)
    {
      if id !in items { return NotFound; }
      var cur := items[id];
      if At(cur, Published) || At(cur, Archived) || !slugOk { return Refused; }
      AtSomeStage(cur);
      var u := BuildEditUpdate(e, At(cur, InTesting), now);
      EditIsStep(cur, e, At(cur, InTesting) && e.devops.Some?, now);
      ChangeIsStep(items, Evaluate(u, cur), id);
      var done := Write(id, u);
      r := if done then Done else WriteFailed;
    }

    method PersistTestingState(id: Id, f: TestingFields, now: string) returns (done: bool)
      requires Valid() && id in items && TestingUpdateAllowed(items[id], f)
      modifies this
      ensures Valid() && old(history) <= history
      ensures failed == old(failed) + if done then 0 else 1
      ensures Wrote(old(items), items, id, WithTesting(old(items)[id], f, now), done)
    {
      var u := BuildTestingUpdate(f, now);
      TestingUpdateIsStep(items[id], f, now);
      ChangeIsStep(items, Evaluate(u, items[id]), id);
      done := Write(id, u);
    }

    /** The first half of a status refresh: link the use case found under the test name. */
    method LinkTestUseCase(id: Id, useCaseId: Option<string>, testName: Option<string>, found: Call<Option<string>>, now: string)
      returns (r: Outcome, known: Option<string>)
      requires Valid() && id in items && At(items[id], InTesting)
      modifies this
      ensures Valid() && old(history) <= history
      ensures failed >= old(failed) && (r == WriteFailed ==> failed > old(failed))
      ensures r in {Done, CallFailed, WriteFailed}
      ensures r == CallFailed ==> useCaseId.None? && testName.Some? && found.Thrown?
      ensures known == if r == Done then KnownId(useCaseId, testName, found) else useCaseId
      ensures id in items && At(items[id], InTesting) && (DeployIs(items[id], Active) ==> DeployIs(old(items)[id], Active))
      ensures if r == CallFailed then items == old(items)
              else Wrote(old(items), items, id, LinkedItem(old(items)[id], useCaseId, KnownId(useCaseId, testName, found), now), r == Done)
    {
      known := useCaseId;
      r := Done;
      if known.None? && testName.Some? {
        if found.Thrown? { return CallFailed, known; }
        if found.value.Some? {
          UpdateReads(items[id], Linked(found.value.value), now);
          var linked := PersistTestingState(id, Linked(found.value.value), now);
          if !linked { return WriteFailed, known; }
        }
        known := found.value;
      }
      assert items == old(items)[id := items[id]];
    }

    method SyncTestingDeployStatus(id: Id, useCaseId: Option<string>, testName: Option<string>, a: SyncAnswers, now: string)
      returns (r: Outcome)
      requires Valid() && id in items && At(items[id], InTesting)
      modifies this
      ensures Valid() && old(history) <= history
      ensures failed >= old(failed) && (r == WriteFailed ==> failed > old(failed))
      ensures id in items && items == old(items)[id := items[id]]
      ensures r in {Done, CallFailed, WriteFailed}
      ensures r == Done ==> items[id] == Refreshed(old(items)[id], useCaseId, testName, a, now)
      ensures r == CallFailed ==>
                && At(items[id], InTesting)
                && ((useCaseId.None? && testName.Some? && a.found.Thrown?) || (KnownId(useCaseId, testName, a.found).Some? && a.stack.Thrown?))
      ensures DeployIs(items[id], Active) ==> DeployIs(old(items)[id], Active) || SeenUp(a)
      ensures r == WriteFailed ==> At(items[id], InTesting) || items[id] == Refreshed(old(items)[id], useCaseId, testName, a, now)
    {
      hide WithTesting, Verdict, Good, Run, SeenUp, SyncFields;
      var known;
      r, known := LinkTestUseCase(id, useCaseId, testName, a.found, now);
      if r != Done { return; }
      if known.Some? && a.stack.Thrown? { return CallFailed; }
      var f := SyncFields(known, a);
      SyncFieldsAllowed(items[id], known, a);
      SyncSees(known, a);
      GoodIsTyped(items[id]);
      UpdateReads(items[id], f, now);
      var done := PersistTestingState(id, f, now);
      r := if done then Done else WriteFailed;
    }

    /** The rest of starting a test, from a draft with a valid devops document. */
    method StartDraft(id: Id, a: StartAnswers, now: string) returns (r: Outcome)
      requires Valid() && id in items && At(items[id], Draft)
      modifies this
      ensures Valid() && old(history) <= history
      ensures failed >= old(failed) && (r == WriteFailed ==> failed > old(failed))
      ensures id in items && items == old(items)[id := items[id]]
      ensures r in {Done, CallFailed, WriteFailed, DeployFailed}
      ensures r == Done ==> StartedFromDraft(old(items)[id], items[id], id, a, now)
      ensures r == DeployFailed ==> items[id] == old(items)[id][UpdatedAt := Text(now)]
      ensures r == CallFailed ==> At(items[id], InTesting) || items == old(items)
      ensures r in {CallFailed, DeployFailed} ==> StartFailed(a, r, failed > old(failed))
      ensures DeployIs(items[id], Active) ==> SeenUp(a.sync)
      ensures r == Done && a.existing == Answer(None) ==>
                && DeployedAnew(items[id], TestName(old(items)[id][Slug].text, id), a, now)
                && (TestingError in items[id] ==> a.deploy.Thrown? || a.resolved.Thrown? || failed > old(failed))
      ensures r == WriteFailed ==>
                || At(items[id], InTesting) || items == old(items) || items[id] == old(items)[id][UpdatedAt := Text(now)]
                || StartedFromDraft(old(items)[id], items[id], id, a, now)
    {
      hide WithTesting, Verdict, Run, Refreshed, SeenUp, StartedAnew, DeployedAnew, Begin;
      var cur := items[id];
      var name := TestName(cur[Slug].text, id);
      DraftIsInactive(cur);
      if a.existing.Thrown? { return CallFailed; }
      var useCaseId := match a.existing.value case None => Absent case Some(x) => To(x);
      BegunIsTesting(cur, name, useCaseId, Null, now);
      BegunReads(cur, name, useCaseId, Null, now);
      BeginAllowed(cur, name, useCaseId, Null, now);
      var begun := PersistTestingState(id, Begin(name, useCaseId, Null, now), now);
      if !begun { return WriteFailed; }
      if a.existing.value.Some? {
        r := SyncTestingDeployStatus(id, a.existing.value, Some(name), a.sync, now);
      } else {
        r := DeployAndLink(id, cur, name, a, now);
        if r == Done { DeployedIsAnew(cur, items[id], name, a, now); }
      }
    }

    /** Deploy the test stack and link its use case, or recover from a failure of either or of the link. */
    method DeployAndLink(id: Id, ghost before: Item, name: string, a: StartAnswers, now: string) returns (r: Outcome)
      requires Valid() && id in items && At(items[id], InTesting)
      requires Good(before) && At(before, Draft) && items[id] == WithTesting(before, Begin(name, Absent, Null, now), now)
      modifies this
      ensures Valid() && old(history) <= history
      ensures failed >= old(failed) && (r == WriteFailed ==> failed > old(failed))
      ensures id in items && items == old(items)[id := items[id]]
      ensures r in {Done, CallFailed, WriteFailed, DeployFailed}
      ensures r == Done ==> DeployedOrRecovered(old(items)[id], items[id], name, a, now)
      ensures r in {CallFailed, DeployFailed} ==> a.deploy.Thrown? || a.resolved.Thrown? || failed > old(failed)
      ensures r == CallFailed ==> a.afterError.Thrown?
      ensures r == DeployFailed ==> a.afterError == Answer(None)
      ensures !DeployIs(items[id], Active)
      ensures r == Done && TestingError in items[id] ==> a.deploy.Thrown? || a.resolved.Thrown? || failed > old(failed)
      ensures r == DeployFailed ==> items[id] == before[UpdatedAt := Text(now)]
      ensures r == CallFailed ==> At(items[id], InTesting)
      ensures r == WriteFailed ==> At(items[id], InTesting) || items[id] == before[UpdatedAt := Text(now)]
    {
      hide WithTesting, Run, Good, SameOutsideTesting, TestingUpdateAllowed, Begin, Redeployed;
      ghost var begun := items[id];
      TestingKeepsRest(before, Begin(name, Absent, Null, now), now);
      BegunReads(before, name, Absent, Null, now);
      if a.resolved.Answer? { RedeployedReads(begun, a.resolved.value, now); }
      if a.deploy.Answer? && a.resolved.Answer? {
        LinkAllowed(before, begun, a.resolved.value, now);
        var linked := PersistTestingState(id, Redeployed(a.resolved.value), now);
        if linked { return Done; }
      }
      r := RecoverStart(id, before, begun, name, a, now);
    }

    /** After a failed deploy or link, whose write may have taken effect: recover, or go back to the draft. */
    method RecoverStart(id: Id, ghost before: Item, ghost begun: Item, name: string, a: StartAnswers, now: string) returns (r: Outcome)
      requires Valid() && id in items && At(items[id], InTesting)
      requires Good(before) && At(before, Draft) && SameOutsideTesting(before, items[id])
      requires items[id] == begun || (a.resolved.Answer? && items[id] == WithTesting(begun, Redeployed(a.resolved.value), now))
      requires !DeployIs(items[id], Active)
      modifies this
      ensures Valid() && old(history) <= history
      ensures failed >= old(failed) && (r == WriteFailed ==> failed > old(failed))
      ensures id in items && items == old(items)[id := items[id]]
      ensures r in {Done, CallFailed, WriteFailed, DeployFailed}
      ensures r == Done ==> a.afterError.Answer? && a.afterError.value.Some?
                            && items[id] == WithTesting(begun, Recovered(name, a.afterError.value.value, DeployError(a), now), now)
      ensures r == DeployFailed ==> items[id] == before[UpdatedAt := Text(now)]
      ensures r == CallFailed ==> items == old(items) && a.afterError.Thrown?
      ensures r == DeployFailed ==> a.afterError == Answer(None)
      ensures !DeployIs(items[id], Active)
      ensures r == WriteFailed ==> At(items[id], InTesting) || items[id] == before[UpdatedAt := Text(now)]
    {
      hide WithTesting, Run, SameOutsideTesting;
      if a.afterError.Thrown? { return CallFailed; }
      if a.afterError.value.Some? {
        var f := Recovered(name, a.afterError.value.value, DeployError(a), now);
        if a.resolved.Answer? { RecoveryOverwrites(begun, a.resolved.value, f, now); }
        TestingUpdateStage(items[id], f, now);
        UpdateReads(items[id], f, now);
        var done := PersistTestingState(id, f, now);
        r := if done then Done else WriteFailed;
      } else {
        LeavingForgets(before, items[id], now);
        DraftIsInactive(before);
        var done := PersistTestingState(id, LeaveTesting(Draft), now);
        r := if done then DeployFailed else WriteFailed;
      }
    }

    /**
     Enter testing and deploy.  A template already in testing is only refreshed.  When the deploy
     fails and no use case can be found for it, the template is the draft it was.
     */
    method StartTesting(id: Id, a: StartAnswers, now: string) returns (r: Outcome)
      requires Valid()
      modifies this
      ensures Valid() && old(history) <= history
      ensures failed >= old(failed) && (r == WriteFailed ==> failed > old(failed))
      ensures r == NotFound <==> id !in old(items)
      ensures r == Refused <==> id in old(items) && !CanStart(old(items)[id])
      ensures r in {NotFound, Refused} ==> items == old(items)
      ensures id in old(items) ==> id in items && items == old(items)[id := items[id]]
      ensures r == Done && At(old(items)[id], Draft) ==> StartedFromDraft(old(items)[id], items[id], id, a, now)
      ensures r == Done && At(old(items)[id], InTesting) ==>
                items[id] == if DeployIs(old(items)[id], Active) || DeployIs(old(items)[id], Failed) then old(items)[id]
                             else RefreshedItem(old(items)[id], a.sync, now)
      ensures r == DeployFailed ==> items[id] == old(items)[id][UpdatedAt := Text(now)]
      ensures r == CallFailed && At(old(items)[id], InTesting) ==> a.sync.found.Thrown? || a.sync.stack.Thrown?
      ensures r in {CallFailed, DeployFailed} && At(old(items)[id], Draft) ==> StartFailed(a, r, failed > old(failed))
      ensures id in old(items) && DeployIs(items[id], Active) ==> DeployIs(old(items)[id], Active) || SeenUp(a.sync)
      ensures r == Done && At(old(items)[id], Draft) && a.existing == Answer(None) ==>
                && DeployedAnew(items[id], TestName(old(items)[id][Slug].text, id), a, now)
                && (TestingError in items[id] ==> a.deploy.Thrown? || a.resolved.Thrown? || failed > old(failed))
    {
      hide WithTesting, Verdict, Run, Refreshed, StartedFromDraft, SeenUp, DeployedAnew, StartFailed;
      if id !in items { return NotFound; }
      var cur := items[id];
      AtSomeStage(cur);
      if At(cur, InTesting) {
        if DeployIs(cur, Active) || DeployIs(cur, Failed) { return Done; }
        r := SyncTestingDeployStatus(id, TextOf(cur, TestingUseCaseId), TextOf(cur, TestingUseCaseName), a.sync, now);
        return;
      }
      if !At(cur, Draft) || !cur[Devops].devops.valid { return Refused; }
      r := StartDraft(id, a, now);
    }

    /** Back to draft; deleting the test stack afterwards is best effort and changes no item. */
    method CancelTesting(id: Id, now: string) returns (r: Outcome)
      requires Valid()
      modifies this
      ensures Valid() && old(history) <= history
      ensures failed >= old(failed) && (r == WriteFailed <==> failed > old(failed))
      ensures r == NotFound <==> id !in old(items)
      ensures r == Refused <==> id in old(items) && !At(old(items)[id], InTesting)
      ensures r in {NotFound, Refused, Done, WriteFailed}
      ensures r in {NotFound, Refused} ==> items == old(items)
      ensures r in {Done, WriteFailed} ==>
                Wrote(old(items), items, id, WithTesting(old(items)[id], LeaveTesting(Draft), now), r == Done)
    {
      hide WithTesting, Run;
      if id !in items { return NotFound; }
      if !At(items[id], InTesting) { return Refused; }
      var done := PersistTestingState(id, LeaveTesting(Draft), now);
      r := if done then Done else WriteFailed;
    }

    /** Cancel, then start again from the draft. */
    method RestartTesting(id: Id, a: StartAnswers, now: string) returns (r: Outcome)
      requires Valid()
      modifies this
      ensures Valid() && old(history) <= history
      ensures failed >= old(failed) && (r == WriteFailed ==> failed > old(failed))
      ensures id !in old(items) ==> r == NotFound && items == old(items)
      ensures id in old(items) && !At(old(items)[id], InTesting) ==> r == Refused && items == old(items)
      ensures id in old(items) ==> id in items && items == old(items)[id := items[id]]
      ensures r == Done ==>
                StartedFromDraft(WithTesting(old(items)[id], LeaveTesting(Draft), now), items[id], id, a, now)
      ensures r in {CallFailed, DeployFailed} ==> StartFailed(a, r, failed > old(failed))
      ensures id in old(items) && DeployIs(items[id], Active) ==>
                SeenUp(a.sync) || (r != Done && failed > old(failed) && items == old(items)) || !At(old(items)[id], InTesting)
      ensures r == Done && a.existing == Answer(None) ==>
                && DeployedAnew(items[id], TestName(old(items)[id][Slug].text, id), a, now)
                && (TestingError in items[id] ==> a.deploy.Thrown? || a.resolved.Thrown? || failed > old(failed))
    {
      hide WithTesting, Verdict, Run, StartedFromDraft, SeenUp, DeployedAnew, StartFailed;
      r := CancelTesting(id, now);
      if id in old(items) && At(old(items)[id], InTesting) {
        UpdateReads(old(items)[id], LeaveTesting(Draft), now);
      }
      if r == Done {
        TestingUpdateStage(old(items)[id], LeaveTesting(Draft), now);
        r := StartTesting(id, a, now);
      }
    }

    /** The operator's confirmation, possible only while the test deployment is active. */
    method MarkTestingValidated(id: Id, now: string) returns (r: Outcome)
      requires Valid()
      modifies this
      ensures Valid() && old(history) <= history
      ensures failed >= old(failed) && (r == WriteFailed <==> failed > old(failed))
      ensures r == NotFound <==> id !in old(items)
      ensures r == Refused <==> id in old(items) && !(At(old(items)[id], InTesting) && DeployIs(old(items)[id], Active))
      ensures r in {NotFound, Refused, Done, WriteFailed}
      ensures r in {NotFound, Refused} ==> items == old(items)
      ensures r in {Done, WriteFailed} ==>
                Wrote(old(items), items, id, old(items)[id][UpdatedAt := Text(now)][TestingValidatedAt := Text(now)], r == Done)
    {
      hide Run;
      if id !in items { return NotFound; }
      var cur := items[id];
      if !At(cur, InTesting) || !DeployIs(cur, Active) { return Refused; }
      var u := BuildStampUpdate(now);
      StampIsStep(cur, now);
      ChangeIsStep(items, Evaluate(u, cur), id);
      var done := Write(id, u);
      r := if done then Done else WriteFailed;
    }

    /** Refresh a template in testing, or adopt the orphaned test deployment of a draft. */
    method RefreshTestingStatus(id: Id, orphan: Call<Option<string>>, a: SyncAnswers, now: string) returns (r: Outcome)
      requires Valid()
      modifies this
      ensures Valid() && old(history) <= history
      ensures failed >= old(failed) && (r == WriteFailed ==> failed > old(failed))
      ensures r == NotFound <==> id !in old(items)
      ensures r == Refused <==>
                && id in old(items) && !At(old(items)[id], InTesting) && orphan.Answer?
                && !(orphan.value.Some? && At(old(items)[id], Draft))
      ensures r in {NotFound, Refused} ==> items == old(items)
      ensures id in old(items) ==> id in items && items == old(items)[id := items[id]]
      ensures r == Done && At(old(items)[id], InTesting) ==> items[id] == RefreshedItem(old(items)[id], a, now)
      ensures r == CallFailed ==> (id in old(items) && !At(old(items)[id], InTesting) && orphan.Thrown?) || a.found.Thrown? || a.stack.Thrown?
      ensures id in old(items) && DeployIs(items[id], Active) ==> DeployIs(old(items)[id], Active) || SeenUp(a)
      ensures r == Done && !At(old(items)[id], InTesting) ==>
                var name := TestName(old(items)[id][Slug].text, id);
                && orphan.Answer? && orphan.value.Some?
                && items[id] == Refreshed(WithTesting(old(items)[id], Begin(name, To(orphan.value.value), Absent, now), now),
                                          orphan.value, Some(name), a, now)
    {
      hide WithTesting, Verdict, Run, Refreshed, SeenUp;
      if id !in items { return NotFound; }
      var cur := items[id];
      if At(cur, InTesting) {
        r := SyncTestingDeployStatus(id, TextOf(cur, TestingUseCaseId), TextOf(cur, TestingUseCaseName), a, now);
        return;
      }
      if orphan.Thrown? { return CallFailed; }
      if orphan.value.None? || !At(cur, Draft) { return Refused; }
      var name := TestName(cur[Slug].text, id);
      BegunReads(cur, name, To(orphan.value.value), Absent, now);
      var begun := PersistTestingState(id, Begin(name, To(orphan.value.value), Absent, now), now);
      if !begun { return WriteFailed; }
      BegunIsTesting(cur, name, To(orphan.value.value), Absent, now);
      r := SyncTestingDeployStatus(id, orphan.value, Some(name), a, now);
    }

    /**
     Publish: the status check, the slug query, the document checks, the optional write of the
     derived price line, and the write of the published status.  The event and the removal of the
     test stack come after the last write and change no item.
     */
    method PublishTemplate(id: Id, p: PublishChecks, actor: string, now: string) returns (r: Outcome)
      requires Valid()
      modifies this
      ensures Valid() && old(history) <= history
      ensures failed >= old(failed) && (r == WriteFailed <==> failed > old(failed))
      ensures r != DeployFailed
      ensures r == NotFound <==> id !in old(items)
      ensures r == Refused ==> !MayPublish(old(items), id) || !p.marketingValid
      ensures r in {Done, WriteFailed} ==> MayPublish(old(items), id) && p.marketingValid && p.slugQuery.Answer?
      ensures r == CallFailed <==> id in old(items) && StatusAllows(old(items)[id]) && p.slugQuery.Thrown?
      ensures r in {NotFound, Refused, CallFailed} ==> items == old(items)
      ensures r == Done ==>
                items == old(items)[id := PublishedItem(Patched(old(items)[id], p.patchedMarketing, now), actor, now)]
      ensures r == WriteFailed ==>
                || items == old(items) || items == old(items)[id := Patched(old(items)[id], p.patchedMarketing, now)]
                || items == old(items)[id := PublishedItem(Patched(old(items)[id], p.patchedMarketing, now), actor, now)]
    {
      hide WithTesting, Run, PublishedItem, Good, SlugTaken, ReadyToPublish, ItemStep, MayPublish, StatusAllows;
      if id !in items { return NotFound; }
      var cur := items[id];
      GoodIsTyped(cur);
      MayPublishByChecks(items, id);
      if !ReadyToPublish(cur) { return Refused; }
      if p.slugQuery.Thrown? { return CallFailed; }
      if SlugTaken(items, id, cur[Slug]) { return Refused; }
      if !p.marketingValid || !cur[Devops].devops.valid { return Refused; }
      if p.patchedMarketing.Some? {
        var u := BuildMarketingUpdate(p.patchedMarketing.value, now);
        PatchIsStep(cur, p.patchedMarketing, now);
        ChangeIsStep(items, Evaluate(u, cur), id);
        var patched := Write(id, u);
        if !patched { return WriteFailed; }
        PatchKeepsSlugs(old(items), id, p.patchedMarketing, now);
      }
      r := WritePublished(id, actor, now);
    }

    method WritePublished(id: Id, actor: string, now: string) returns (r: Outcome)
      requires Valid() && id in items && ReadyToPublish(items[id]) && !SlugTaken(items, id, items[id][Slug])
      modifies this
      ensures Valid() && old(history) <= history
      ensures failed >= old(failed) && (r == WriteFailed <==> failed > old(failed))
      ensures r in {Done, WriteFailed}
      ensures Wrote(old(items), items, id, PublishedItem(old(items)[id], actor, now), r == Done)
    {
      hide Run;
      var u := BuildPublishUpdate(actor, now);
      PublishIsStep(items[id], actor, now);
      ChangeIsStep(items, Evaluate(u, items[id]), id);
      var done := Write(id, u);
      r := if done then Done else WriteFailed;
    }

    /** Decommission: announce it, then write the archived status. */
    method UnpublishTemplate(id: Id, announced: Call<()>, actor: string, now: string) returns (r: Outcome)
      requires Valid()
      modifies this
      ensures Valid() && old(history) <= history
      ensures failed >= old(failed) && (r == WriteFailed <==> failed > old(failed))
      ensures r == NotFound <==> id !in old(items)
      ensures r == Refused <==> id in old(items) && !At(old(items)[id], Published)
      ensures r in {NotFound, Refused, CallFailed, Done, WriteFailed}
      ensures r == CallFailed <==> id in old(items) && At(old(items)[id], Published) && announced.Thrown?
      ensures r in {NotFound, Refused, CallFailed} ==> items == old(items)
      ensures r in {Done, WriteFailed} ==>
                Wrote(old(items), items, id, old(items)[id][UpdatedAt := Text(now)][Status := Stage(Archived)]
                                               [UnpublishedAt := Text(now)][UnpublishedBy := Text(actor)], r == Done)
    {
      hide Run;
      if id !in items { return NotFound; }
      if !At(items[id], Published) { return Refused; }
      if announced.Thrown? { return CallFailed; }
      var u := BuildUnpublishUpdate(actor, now);
      ArchiveIsStep(items[id], actor, now);
      ChangeIsStep(items, Evaluate(u, items[id]), id);
      var done := Write(id, u);
      r := if done then Done else WriteFailed;
    }
  }

  /** Why a start from a draft reports a failed call or a failed deployment. */
  ghost predicate StartFailed(a: StartAnswers, r: Outcome, writeFailed: bool) {
    match a.existing
    case Thrown(_) => r == CallFailed
    case Answer(Some(_)) => r == CallFailed && a.sync.stack.Thrown?
    case Answer(None) =>
      && (a.deploy.Thrown? || a.resolved.Thrown? || writeFailed)
      && if r == CallFailed then a.afterError.Thrown? else a.afterError == Answer(None)
  }

  lemma BeginAllowed(item: Item, name: string, useCaseId: Field<string>, rest: Field<string>, now: string)
    requires Good(item) && At(item, Draft)
    ensures TestingUpdateAllowed(item, Begin(name, useCaseId, rest, now))
  {
  }

  lemma RedeployedReads(begun: Item, useCaseId: string, now: string)
    requires Typed(begun)
    ensures var linked := WithTesting(begun, Redeployed(useCaseId), now); !DeployIs(linked, Active) && TestingError !in linked
  {
    UpdateReads(begun, Redeployed(useCaseId), now);
    ErrorAndUrlRead(begun, Redeployed(useCaseId), now);
  }

  lemma AtSomeStage(item: Item)
    requires Typed(item)
    ensures At(item, Draft) || At(item, InTesting) || At(item, Published) || At(item, Archived)
  {
    match item[Status].stage
    case Draft => assert At(item, Draft);
    case InTesting => assert At(item, InTesting);
    case Published => assert At(item, Published);
    case Archived => assert At(item, Archived);
  }

  lemma NewIsStep(s: Store, item: Item, id: Id)
    requires id !in s && Good(item) && At(item, Draft)
    ensures StoreStep(s, s[id := item], id)
  {
  }

  lemma ChangeIsStep(s: Store, after: Item, id: Id)
    requires id in s && ItemStep(s[id], after)
    requires At(after, Published) && !At(s[id], Published) ==> !SlugTaken(s, id, s[id][Slug])
    ensures StoreStep(s, s[id := after], id)
  {
  }

  lemma EditIsStep(item: Item, e: Edit, retest: bool, now: string)
    requires Good(item) && (At(item, Draft) || At(item, InTesting))
    requires retest == (At(item, InTesting) && e.devops.Some?)
    ensures ItemStep(item, Edited(item, e, retest, now)) && !At(Edited(item, e, retest, now), Published)
  {
    var after := Edited(item, e, retest, now);
    assert Status in after && after[Status] == item[Status];
    assert Typed(after);
    if At(item, Draft) {
      assert after.Keys !! TESTING_ATTRS;
    } else {
      assert TestingUseCaseName in after && TestingDeployStatus in after;
    }
  }

  /** The partial updates the testing operations make keep an item that is not yet published good. */
  ghost predicate TestingUpdateAllowed(item: Item, f: TestingFields) {
    && Good(item) && (At(item, Draft) || At(item, InTesting))
    && match f.status
       case None => At(item, InTesting) && !f.name.Null? && !f.deploy.Null?
       case Some(Draft) => f == LeaveTesting(Draft)
       case Some(InTesting) => f.name.To? && f.deploy.To? && f.clearValidation
       case _ => false
  }

  lemma SyncFieldsAllowed(item: Item, known: Option<string>, a: SyncAnswers)
    requires Good(item) && At(item, InTesting)
    ensures TestingUpdateAllowed(item, SyncFields(known, a))
  {
  }

  lemma TestingUpdateIsStep(item: Item, f: TestingFields, now: string)
    requires TestingUpdateAllowed(item, f)
    ensures ItemStep(item, WithTesting(item, f, now)) && !At(WithTesting(item, f, now), Published)
  {
    var after := WithTesting(item, f, now);
    assert Slug in after && after[Slug] == item[Slug] && Devops in after && after[Devops] == item[Devops];
    match f.status {
      case None => assert Status in after && after[Status] == item[Status];
      case Some(stage) => assert Status in after && after[Status] == Stage(stage);
    }
    if f.status == Some(Draft) {
      assert after.Keys !! TESTING_ATTRS;
    } else {
      assert TestingUseCaseName in after && TestingDeployStatus in after && after[TestingDeployStatus].Test?;
      assert TestingValidatedAt in after ==> TestingValidatedAt in item;
    }
  }

  lemma TestingUpdateStage(item: Item, f: TestingFields, now: string)
    requires Typed(item)
    ensures Typed(WithTesting(item, f, now))
    ensures WithTesting(item, f, now)[Status] == if f.status.Some? then Stage(f.status.value) else item[Status]
    ensures WithTesting(item, f, now)[Slug] == item[Slug] && WithTesting(item, f, now)[Devops] == item[Devops]
  {
  }

  lemma BegunIsTesting(item: Item, name: string, useCaseId: Field<string>, rest: Field<string>, now: string)
    requires Good(item)
    ensures At(WithTesting(item, Begin(name, useCaseId, rest, now), now), InTesting)
  {
    TestingUpdateStage(item, Begin(name, useCaseId, rest, now), now);
  }

  /** The two items differ at most in status, time stamp and testing attributes. */
  ghost predicate SameOutsideTesting(x: Item, y: Item) {
    forall a: Attr :: a !in TESTING_ATTRS && a != Status && a != UpdatedAt ==> (a in x <==> a in y) && (a in x ==> x[a] == y[a])
  }

  lemma TestingKeepsRest(item: Item, f: TestingFields, now: string)
    ensures SameOutsideTesting(item, WithTesting(item, f, now))
  {
  }

  lemma LinkAllowed(before: Item, begun: Item, useCaseId: string, now: string)
    requires Good(begun) && At(begun, InTesting) && SameOutsideTesting(before, begun)
    ensures TestingUpdateAllowed(begun, Redeployed(useCaseId))
    ensures var linked := WithTesting(begun, Redeployed(useCaseId), now); At(linked, InTesting) && SameOutsideTesting(before, linked)
  {
    hide WithTesting;
    TestingUpdateStage(begun, Redeployed(useCaseId), now);
    TestingKeepsRest(begun, Redeployed(useCaseId), now);
  }

  /** A recovery writes over a link whose write failed, whether that took effect or not. */
  lemma RecoveryOverwrites(item: Item, useCaseId: string, f: TestingFields, now: string)
    requires f.status.Some? && !f.useCaseId.Absent? && !f.deploy.Absent? && !f.error.Absent?
    ensures WithTesting(WithTesting(item, Redeployed(useCaseId), now), f, now) == WithTesting(item, f, now)
  {
    var l, r := WithTesting(WithTesting(item, Redeployed(useCaseId), now), f, now), WithTesting(item, f, now);
    forall a: Attr ensures (a in l <==> a in r) && (a in l ==> l[a] == r[a]) {
    }
  }

  /** Going back to draft forgets everything testing wrote. */
  lemma LeavingForgets(draft: Item, item: Item, now: string)
    requires Good(draft) && At(draft, Draft) && SameOutsideTesting(draft, item)
    ensures WithTesting(item, LeaveTesting(Draft), now) == draft[UpdatedAt := Text(now)]
  {
    var l, r := WithTesting(item, LeaveTesting(Draft), now), draft[UpdatedAt := Text(now)];
    forall a: Attr ensures (a in l <==> a in r) && (a in l ==> l[a] == r[a]) {
    }
  }

  lemma StampIsStep(item: Item, now: string)
    requires Good(item) && At(item, InTesting) && DeployIs(item, Active)
    ensures var after := item[UpdatedAt := Text(now)][TestingValidatedAt := Text(now)];
            ItemStep(item, after) && !At(after, Published)
  {
    assert DeployIs(item[UpdatedAt := Text(now)][TestingValidatedAt := Text(now)], Active);
  }

  lemma GoodIsTyped(item: Item)
    requires Good(item)
    ensures Typed(item)
  {
  }

  lemma PatchIsStep(item: Item, marketing: Option<string>, now: string)
    requires Good(item) && ReadyToPublish(item)
    ensures ItemStep(item, Patched(item, marketing, now)) && !At(Patched(item, marketing, now), Published)
  {
    var after := Patched(item, marketing, now);
    assert forall a <- TESTING_ATTRS :: a in after ==> a in item;
  }

  lemma PatchKeepsSlugs(s: Store, id: Id, marketing: Option<string>, now: string)
    requires id in s && Good(s[id]) && ReadyToPublish(s[id])
    ensures var s' := s[id := Patched(s[id], marketing, now)];
            && Slug in s'[id] && s'[id][Slug] == s[id][Slug] && ReadyToPublish(s'[id])
            && (SlugTaken(s', id, s'[id][Slug]) ==> SlugTaken(s, id, s[id][Slug]))
  {
  }

  lemma PublishedIsGood(item: Item, actor: string, now: string)
    requires Good(item)
    ensures var after := PublishedItem(item, actor, now);
            && Good(after) && At(after, Published) && TestingValidatedAt !in after
            && after[Slug] == item[Slug] && after[Devops] == item[Devops]
  {
    hide WithTesting;
    var left := WithTesting(item, LeaveTesting(Published), now);
    TestingUpdateStage(item, LeaveTesting(Published), now);
    LeavingDropsTesting(item, Published, now);
    assert PublishedItem(item, actor, now).Keys == left.Keys + {PublishedAt, PublishedBy};
  }

  lemma LeavingDropsTesting(item: Item, stage: Lifecycle, now: string)
    ensures WithTesting(item, LeaveTesting(stage), now).Keys !! TESTING_ATTRS
  {
  }

  lemma PublishIsStep(item: Item, actor: string, now: string)
    requires Good(item) && ReadyToPublish(item)
    ensures ItemStep(item, PublishedItem(item, actor, now))
  {
    hide PublishedItem;
    PublishedIsGood(item, actor, now);
  }

  lemma ArchiveIsStep(item: Item, actor: string, now: string)
    requires Good(item) && At(item, Published)
    ensures var after := item[UpdatedAt := Text(now)][Status := Stage(Archived)][UnpublishedAt := Text(now)][UnpublishedBy := Text(actor)];
            ItemStep(item, after) && !At(after, Published)
  {
    var after := item[UpdatedAt := Text(now)][Status := Stage(Archived)][UnpublishedAt := Text(now)][UnpublishedBy := Text(actor)];
    assert after.Keys !! TESTING_ATTRS;
  }
}
