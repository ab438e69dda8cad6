/**
 Safety of the template lifecycle over whole runs: theorems about any sequence of tables that
 the writes of the operations produce from an empty table, under arbitrary answers of the
 deployment services and with a crash possible after every write.
 */
module TemplateRuns {
  import opened Calls
  import opened Strings
  import opened UpdateExpressions
  import opened StackStatuses
  import opened TemplateUpdates
  import opened TemplateLifecycle

  /** An item once stored stays, and changes by one legal step at most. */
  lemma StepOf(h: seq<Store>, i: nat, id: Id)
    requires Run(h) && 0 < i < |h| && id in h[i-1]
    ensures id in h[i] && (h[i][id] == h[i-1][id] || ItemStep(h[i-1][id], h[i][id]))
    ensures At(h[i][id], Published) && !At(h[i-1][id], Published) ==> !SlugTaken(h[i-1], id, h[i-1][id][Slug])
  {
    assert WriteStep(h[i-1], h[i]);
    var w :| StoreStep(h[i-1], h[i], w);
  }

  /** Outside testing an item carries no Testing* attribute; in testing it has a name and a deploy status. */
  lemma TestingAttributesOnlyInTesting(h: seq<Store>, i: nat, id: Id)
    requires Run(h) && i < |h| && id in h[i]
    ensures !At(h[i][id], InTesting) ==> h[i][id].Keys !! TESTING_ATTRS
    ensures At(h[i][id], InTesting) ==> TestingUseCaseName in h[i][id] && TestingDeployStatus in h[i][id]
  {
    RunIsGood(h, i);
  }

  lemma StatusMovesAlongEdges(h: seq<Store>, i: nat, id: Id)
    requires Run(h) && 0 < i < |h| && id in h[i]
    ensures if id in h[i-1]
            then Typed(h[i-1][id]) && Typed(h[i][id]) && Edge(h[i-1][id][Status].stage, h[i][id][Status].stage)
            else At(h[i][id], Draft)
  {
    RunIsGood(h, i - 1);
    RunIsGood(h, i);
    assert WriteStep(h[i-1], h[i]);
    var w :| StoreStep(h[i-1], h[i], w);
    if id in h[i-1] { StepOf(h, i, id); }
  }

  /** Once published, a template is published or archived for good, under the same slug and devops. */
  lemma {:induction false} PublishedStaysPut(h: seq<Store>, i: nat, j: nat, id: Id)
    requires Run(h) && i <= j < |h| && id in h[i] && (At(h[i][id], Published) || At(h[i][id], Archived))
    ensures id in h[j] && (At(h[j][id], Published) || At(h[j][id], Archived))
    ensures At(h[i][id], Archived) ==> At(h[j][id], Archived)
    ensures Typed(h[i][id]) && Typed(h[j][id]) && h[j][id][Slug] == h[i][id][Slug] && h[j][id][Devops] == h[i][id][Devops]
  {
    RunIsGood(h, j);
    if i < j {
      PublishedStaysPut(h, i, j - 1, id);
      StepOf(h, j, id);
      AtSomeStage(h[j][id]);
    }
  }

  /** At no point of any run do two published templates share a slug. */
  lemma {:induction false} PublishedSlugsAreUnique(h: seq<Store>, i: nat, x: Id, y: Id)
    requires Run(h) && i < |h| && x in h[i] && y in h[i] && x != y
    requires At(h[i][x], Published) && At(h[i][y], Published)
    ensures Slug in h[i][x] && Slug in h[i][y] && h[i][x][Slug] != h[i][y][Slug]
  {
    assert i > 0;
    RunIsGood(h, i);
    assert WriteStep(h[i-1], h[i]);
    var w :| StoreStep(h[i-1], h[i], w);
    if w != x && w != y {
      PublishedSlugsAreUnique(h, i - 1, x, y);
    } else {
      var other := if w == x then y else x;
      if At(h[i-1][w], Published) {
        PublishedSlugsAreUnique(h, i - 1, x, y);
      } else {
        assert other in h[i-1] && At(h[i-1][other], Published);
      }
    }
  }

  /** The write at `k` stamps a template whose deployment is active. */
  ghost predicate StampedAt(h: seq<Store>, k: nat, id: Id) {
    && 0 < k < |h| && id in h[k-1] && id in h[k]
    && At(h[k-1][id], InTesting) && DeployIs(h[k-1][id], Active)
    && TestingValidatedAt !in h[k-1][id] && TestingValidatedAt in h[k][id]
  }

  /** From `k` to `j` testing goes on, the stamp stands, and devops is what it was at the stamp. */
  ghost predicate StampStands(h: seq<Store>, k: nat, j: nat, id: Id) {
    forall m :: 0 < k <= m <= j < |h| ==>
      && id in h[k-1] && id in h[m] && At(h[m][id], InTesting) && TestingValidatedAt in h[m][id]
      && Devops in h[k-1][id] && Devops in h[m][id] && h[m][id][Devops] == h[k-1][id][Devops]
  }

  /** Every validation stamp goes back to a stamping write of the same session and devops. */
  lemma {:induction false} StampHasOrigin(h: seq<Store>, j: nat, id: Id) returns (k: nat)
    requires Run(h) && j < |h| && id in h[j] && TestingValidatedAt in h[j][id]
    ensures k <= j && StampedAt(h, k, id) && StampStands(h, k, j, id)
  {
    RunIsGood(h, j);
    assert j > 0;
    RunIsGood(h, j - 1);
    assert WriteStep(h[j-1], h[j]);
    var w :| StoreStep(h[j-1], h[j], w);
    StepOf(h, j, id);
    if TestingValidatedAt in h[j-1][id] {
      k := StampHasOrigin(h, j - 1, id);
    } else {
      k := j;
    }
  }

  /**
   A template that is not an orchestrator becomes published only when its deployment is active and
   an operator validated it while the deployment was active, in the same testing session and
   after the last edit of devops.
   */
  lemma PublishedOnlyWhenValidated(h: seq<Store>, j: nat, id: Id) returns (k: nat)
    requires Run(h) && 0 < j < |h| && id in h[j] && At(h[j][id], Published)
    requires id in h[j-1] && !At(h[j-1][id], Published) && !IsOrchestrator(h[j-1][id])
    ensures DeployIs(h[j-1][id], Active)
    ensures k < j && StampedAt(h, k, id) && StampStands(h, k, j - 1, id)
    ensures Devops in h[j][id] && h[j][id][Devops] == h[k-1][id][Devops]
  {
    StepOf(h, j, id);
    k := StampHasOrigin(h, j - 1, id);
    assert At(h[j-1][id], InTesting);
  }

  // ---------- The store ----------

  /** Whatever operations a store went through: the attributes after every write, and the step it made. */
  lemma StoreIsSafe(t: TemplateStore, i: nat, id: Id)
    requires t.Valid() && i < |t.history| && id in t.history[i]
    ensures var item := t.history[i][id];
            && (!At(item, InTesting) ==> item.Keys !! TESTING_ATTRS)
            && (At(item, InTesting) ==> TestingUseCaseName in item && TestingDeployStatus in item)
    ensures i > 0 ==>
              if id in t.history[i-1]
              then Typed(t.history[i-1][id]) && Typed(t.history[i][id]) && Edge(t.history[i-1][id][Status].stage, t.history[i][id][Status].stage)
              else At(t.history[i][id], Draft)
    ensures forall j: nat :: i <= j < |t.history| && At(t.history[i][id], Archived) ==> id in t.history[j] && At(t.history[j][id], Archived)
  {
    TestingAttributesOnlyInTesting(t.history, i, id);
    if i > 0 { StatusMovesAlongEdges(t.history, i, id); }
    if At(t.history[i][id], Archived) {
      forall j: nat | i <= j < |t.history| ensures id in t.history[j] && At(t.history[j][id], Archived) {
        PublishedStaysPut(t.history, i, j, id);
      }
    }
  }

  /** No two templates a store holds as published share a slug. */
  lemma StoreSlugsAreUnique(t: TemplateStore, x: Id, y: Id)
    requires t.Valid() && x in t.items && y in t.items && x != y && At(t.items[x], Published) && At(t.items[y], Published)
    ensures Slug in t.items[x] && Slug in t.items[y] && t.items[x][Slug] != t.items[y][Slug]
  {
    PublishedSlugsAreUnique(t.history, |t.history| - 1, x, y);
  }

  /** The write by which an item came to be published. */
  lemma {:induction false} PublishedAtSomeWrite(h: seq<Store>, i: nat, id: Id) returns (j: nat)
    requires Run(h) && i < |h| && id in h[i] && At(h[i][id], Published)
    ensures 0 < j <= i && id in h[j-1] && !At(h[j-1][id], Published) && id in h[j] && At(h[j][id], Published)
  {
    assert i > 0;
    assert WriteStep(h[i-1], h[i]);
    if id in h[i-1] && At(h[i-1][id], Published) {
      j := PublishedAtSomeWrite(h, i - 1, id);
    } else {
      StatusMovesAlongEdges(h, i, id);
      j := i;
    }
  }

  /**
   Whatever operations a store went through, a published template that was no orchestrator had been
   validated, at write k, on an active deployment, in the session and with the devops it was published
   with at write j, and has these still.
   */
  lemma StorePublishesValidated(t: TemplateStore, id: Id) returns (j: nat, k: nat)
    requires t.Valid() && id in t.items && At(t.items[id], Published) && !IsOrchestrator(t.items[id])
    ensures 0 < k < j < |t.history| && id in t.history[j-1] && id in t.history[j] && id in t.history[k-1]
    ensures !At(t.history[j-1][id], Published) && At(t.history[j][id], Published) && DeployIs(t.history[j-1][id], Active)
    ensures StampedAt(t.history, k, id) && StampStands(t.history, k, j - 1, id)
    ensures Devops in t.items[id] && Devops in t.history[k-1][id] && t.items[id][Devops] == t.history[k-1][id][Devops]
  {
    var h := t.history;
    j := PublishedAtSomeWrite(h, |h| - 1, id);
    PublishedStaysPut(h, j, |h| - 1, id);
    StepOf(h, j, id);
    k := PublishedOnlyWhenValidated(h, j, id);
  }

  // ---------- What single operations mean ----------

  /** A refresh reports an active deployment exactly when no rollback is on record and one of the two sources is active. */
  lemma RefreshSeesActive(item: Item, useCaseId: Option<string>, testName: Option<string>, a: SyncAnswers, now: string)
    requires Good(item) && At(item, InTesting) && a.found.Answer? && a.stack.Answer?
    ensures DeployIs(Refreshed(item, useCaseId, testName, a, now), Active) <==>
            && KnownId(useCaseId, testName, a.found).Some?
            && !IsRollbackOrDelete(a.stack.value.status)
            && (IsActive(a.stack.value.status) || IsActive(ProbeOrNothing(a.probe).status))
    ensures At(Refreshed(item, useCaseId, testName, a, now), Draft) <==>
            KnownId(useCaseId, testName, a.found).Some? && a.stack.value.status.StackDeleted?
    ensures TestingValidatedAt in Refreshed(item, useCaseId, testName, a, now) <==>
            TestingValidatedAt in item && !At(Refreshed(item, useCaseId, testName, a, now), Draft)
  {
    hide WithTesting;
    var known := KnownId(useCaseId, testName, a.found);
    var linked := LinkedItem(item, useCaseId, known, now);
    if useCaseId.None? && known.Some? { UpdateReads(item, Linked(known.value), now); }
    UpdateReads(linked, SyncFields(known, a), now);
  }

  /** The stack has a rollback, a deletion or a failed creation on record, in flight or not. */
  ghost predicate Undone(status: StackStatus) {
    ROLLBACK in Words(status) || DELETE in Words(status) || status == StackDeleted || status == CreateFailed
  }

  ghost predicate SomeActive(a: SyncAnswers)
    requires a.stack.Answer?
  {
    IsActive(a.stack.value.status) || (a.probe.Answer? && IsActive(a.probe.value.status))
  }

  /** One of the two sources failed, and neither is active or in progress. */
  ghost predicate OnlyFailed(a: SyncAnswers)
    requires a.stack.Answer?
  {
    && !SomeActive(a) && !IsInProgress(a.stack.value.status) && !(a.probe.Answer? && IsInProgress(a.probe.value.status))
    && (IsFailedTest(a.stack.value.status) || (a.probe.Answer? && IsFailedTest(a.probe.value.status)))
  }

  lemma SyncByCases(known: string, a: SyncAnswers)
    requires a.stack.Answer?
    ensures var f, status := SyncFields(Some(known), a), a.stack.value.status;
            && (f.deploy == To(Failed) <==> status != StackDeleted && (Undone(status) || OnlyFailed(a)))
            && (f.deploy == To(Deploying) <==> !Undone(status) && !SomeActive(a) && !OnlyFailed(a))
            && f.error == (if status == StackDeleted then Null else if Undone(status) then To(a.stack.value.reason)
                           else if OnlyFailed(a) then To("Test stack is kept") else Null)
            && f.url == (if Undone(status) then Null
                         else UrlField(if a.probe.Answer? && a.probe.value.url.Some? then a.probe.value.url else a.stack.value.url))
            && !f.deploy.Absent?
  {
    hide IsActive, IsInProgress, IsFailedTest, IsRollbackOrDelete, Words;
    UndoneByWords(a.stack.value.status);
    if a.probe.Thrown? { NothingSeen(); }
  }

  lemma NothingSeen()
    ensures !IsActive(NoStatus) && !IsInProgress(NoStatus) && !IsFailedTest(NoStatus)
  {
  }

  lemma UndoneByWords(s: StackStatus)
    ensures Undone(s) <==> IsRollbackOrDelete(s)
  {
  }

  /**
   A refresh reports a failure exactly when the stack has a rollback, a deletion or a failed creation on
   record, in flight or not, unless it is gone, or one of the two sources failed and neither is active or in
   progress.  The error is then the stack's own reason, or that the stack is kept; where nothing failed there is none.
   */
  lemma RefreshSeesFailed(item: Item, useCaseId: Option<string>, testName: Option<string>, a: SyncAnswers, now: string)
    requires Good(item) && At(item, InTesting) && a.found.Answer? && a.stack.Answer? && KnownId(useCaseId, testName, a.found).Some?
    ensures var after, status := Refreshed(item, useCaseId, testName, a, now), a.stack.value.status;
            && (DeployIs(after, Failed) <==> status != StackDeleted && (Undone(status) || OnlyFailed(a)))
            && (DeployIs(after, Deploying) <==> !Undone(status) && !SomeActive(a) && !OnlyFailed(a))
            && TextOf(after, TestingError) == if status == StackDeleted then None else if Undone(status) then Some(a.stack.value.reason)
                                              else if OnlyFailed(a) then Some("Test stack is kept") else None
  {
    hide WithTesting, SyncFields, Undone, SomeActive, OnlyFailed;
    var known := KnownId(useCaseId, testName, a.found);
    var linked := LinkedItem(item, useCaseId, known, now);
    if useCaseId.None? { UpdateReads(item, Linked(known.value), now); }
    SyncByCases(known.value, a);
    UpdateReads(linked, SyncFields(known, a), now);
    TextsRead(linked, SyncFields(known, a), now);
  }

  /** The runtime URL is the probe's, or else the stack's, and none with a stack in no state to have one. */
  lemma RefreshShowsUrl(item: Item, useCaseId: Option<string>, testName: Option<string>, a: SyncAnswers, now: string)
    requires Good(item) && At(item, InTesting) && a.found.Answer? && a.stack.Answer? && KnownId(useCaseId, testName, a.found).Some?
    ensures var url := TextOf(Refreshed(item, useCaseId, testName, a, now), TestingRuntimeUrl);
            if Undone(a.stack.value.status) then url == None
            else if a.probe.Answer? && a.probe.value.url.Some? then url == a.probe.value.url
            else url == a.stack.value.url
  {
    hide WithTesting, SyncFields, Undone, SomeActive, OnlyFailed;
    var known := KnownId(useCaseId, testName, a.found);
    SyncByCases(known.value, a);
    TextsRead(LinkedItem(item, useCaseId, known, now), SyncFields(known, a), now);
  }

  /** A refresh of a template without a use case links the one found under its test name, or waits for it. */
  lemma RefreshLinks(item: Item, useCaseId: Option<string>, testName: Option<string>, a: SyncAnswers, now: string)
    requires Good(item) && At(item, InTesting) && useCaseId.None? && a.found.Answer? && a.stack.Answer?
    ensures var after := Refreshed(item, useCaseId, testName, a, now);
            if testName.Some? && a.found.value.Some?
            then TextOf(after, TestingUseCaseId) == if a.stack.value.status == StackDeleted then None else a.found.value
            else DeployIs(after, Deploying) && TestingError in after && TextOf(after, TestingUseCaseId) == TextOf(item, TestingUseCaseId)
  {
    hide WithTesting;
    var known := KnownId(useCaseId, testName, a.found);
    var linked := LinkedItem(item, useCaseId, known, now);
    if known.Some? {
      UpdateReads(item, Linked(known.value), now);
      TextsRead(item, Linked(known.value), now);
    }
    UpdateReads(linked, SyncFields(known, a), now);
    TextsRead(linked, SyncFields(known, a), now);
    ErrorAndUrlRead(linked, SyncFields(known, a), now);
  }

  /** What a new template shows: what it was created from, and nothing of a test. */
  lemma NewReads(id: Id, slug: string, useCaseType: string, marketing: string, devops: DevopsDoc,
                 wizard: Option<string>, ratings: Option<string>, now: string)
    ensures var item := NewTemplate(id, slug, useCaseType, marketing, devops, wizard, ratings, now);
            && Shows(item, TemplateId, id) && Shows(item, Slug, slug) && Shows(item, UseCaseType, useCaseType)
            && Shows(item, Marketing, marketing) && item[Devops] == Config(devops)
            && Shows(item, CreatedAt, now) && Shows(item, UpdatedAt, now)
            && (if wizard.Some? then Shows(item, WizardPayload, wizard.value) else WizardPayload !in item)
            && (if ratings.Some? then Shows(item, Ratings, ratings.value) else Ratings !in item)
  {
  }

  predicate Shows(item: Item, a: Attr, text: string) {
    a in item && item[a] == Text(text)
  }

  ghost predicate ShowsEdit(before: Item, after: Item, a: Attr, text: Option<string>) {
    TextOf(after, a) == if text.Some? then text else TextOf(before, a)
  }

  /** An edit stores the documents it carries, and of the others nothing. */
  lemma EditReads(item: Item, e: Edit, retest: bool, now: string)
    requires Typed(item)
    ensures var after := Edited(item, e, retest, now);
            && Shows(after, Marketing, e.marketing) && Shows(after, UpdatedAt, now)
            && ShowsEdit(item, after, Slug, e.slug) && ShowsEdit(item, after, UseCaseType, e.useCaseType)
            && ShowsEdit(item, after, WizardPayload, e.wizard)
            && Devops in after && after[Devops] == (if e.devops.Some? then Config(e.devops.value) else item[Devops])
  {
  }

  /** Ratings are kept, dropped or replaced; the status and the rest of a test session are left alone. */
  lemma EditKeepsRest(item: Item, e: Edit, retest: bool, now: string)
    requires Typed(item)
    ensures var after := Edited(item, e, retest, now);
            && after[Status] == item[Status]
            && (e.ratings.Absent? ==> (Ratings in after <==> Ratings in item) && TextOf(after, Ratings) == TextOf(item, Ratings))
            && (e.ratings == Null ==> Ratings !in after)
            && (e.ratings.To? ==> Shows(after, Ratings, e.ratings.value))
            && TextOf(after, TestingUseCaseId) == TextOf(item, TestingUseCaseId)
            && TextOf(after, TestingUseCaseName) == TextOf(item, TestingUseCaseName)
  {
  }

  /** Test deployments of templates of one slug have different names if their ids differ in the first eight characters other than hyphens. */
  lemma TestNamesDiffer(slug: string, one: string, other: string, more: string, rest: string)
    requires |one| == |other| == 8 && '-' !in one && '-' !in other && |slug| <= 182
    ensures TestName(slug, one + more) == TestName(slug, other + rest) <==> one == other
  {
    HyphensAreDropped(one, more);
    HyphensAreDropped(other, rest);
    CutKeepsStart(one, WithoutHyphens(more));
    CutKeepsStart(other, WithoutHyphens(rest));
    var pre := "tpl-test-" + slug + "-";
    assert (pre + one)[|pre|..] == one && (pre + other)[|pre|..] == other;
    UncutName(pre + one);
    UncutName(pre + other);
  }

  lemma UncutName(s: string)
    requires |s| <= 200
    ensures Take(s, 200) == s
  {
    CutKeepsStart(s, seq(200 - |s|, i => ' '));
  }

  /** A test name begins with the slug, and is cut behind 200 characters. */
  lemma TestNameBeginsWithSlug(slug: string, id: Id)
    ensures |TestName(slug, id)| <= 200 && (|slug| <= 191 ==> "tpl-test-" + slug <= TestName(slug, id))
  {
  }

  /**
   The status sets call six statuses in flight and say they must not be treated as failed.  A
   refresh does treat them as failed when the stack's record shows one, exactly for those that
   name a rollback, whatever the probe says.
   */
  lemma InFlightRollbackIsReportedFailed(stack: Stack, probe: Probe)
    requires IsInProgress(stack.status)
    ensures Verdict(stack, probe).deploy == To(Failed) <==> MentionsRollback(stack.status)
  {
  }

  lemma InFlightRollbackExample(probe: Probe)
    ensures IsInProgress(RollbackInProgress)
    ensures Verdict(Stack(RollbackInProgress, "rolling back", None), probe).deploy == To(Failed)
  {
  }

  /** Starting a test, whatever came of it, and cancelling it leaves the draft as it was. */
  lemma {:induction false} CancelUndoesStart(draft: Item, started: Item, id: Id, a: StartAnswers, then': string, now: string)
    requires Good(draft) && At(draft, Draft) && StartedFromDraft(draft, started, id, a, then')
    ensures WithTesting(started, LeaveTesting(Draft), now) == draft[UpdatedAt := Text(now)]
  {
    hide WithTesting, Verdict;
    var name := TestName(draft[Slug].text, id);
    match a.existing.value {
      case Some(x) =>
        var begun := WithTesting(draft, Begin(name, To(x), Null, then'), then');
        TestingKeepsRest(draft, Begin(name, To(x), Null, then'), then');
        TestingKeepsRest(begun, SyncFields(Some(x), a.sync), then');
      case None =>
        var begun := WithTesting(draft, Begin(name, Absent, Null, then'), then');
        TestingKeepsRest(draft, Begin(name, Absent, Null, then'), then');
        if a.deploy.Answer? && a.resolved.Answer? { TestingKeepsRest(begun, Redeployed(a.resolved.value), then'); }
        if a.afterError.Answer? && a.afterError.value.Some? {
          TestingKeepsRest(begun, Recovered(name, a.afterError.value.value, DeployError(a), then'), then');
        }
    }
    LeavingForgets(draft, started, now);
  }

  /** A devops edit during testing always costs the validation and marks the deployment stale. */
  lemma DevopsEditInvalidates(item: Item, e: Edit, now: string)
    requires Good(item) && At(item, InTesting) && e.devops.Some?
    ensures var after := Edited(item, e, true, now);
            && At(after, InTesting) && DeployIs(after, Stale) && TestingValidatedAt !in after
            && (after[Devops] == Config(e.devops.value) && !e.devops.value.orchestrator ==> !ReadyToPublish(after))
  {
  }
}
