/**
 The partial updates the templates API writes: optional changes of the testing state, the
 operator's edit, the validation stamp, publish and decommission.  Each builder method pushes
 its fields one by one and is proved to build an expression that the service accepts and that
 does, to every item, the record update written out beside it.
 */
module TemplateUpdates {
  import opened Calls
  import opened UpdateExpressions

  // ---------- Optional changes of the testing state ----------

  datatype TestingFields = TestingFields(
    status: Option<Lifecycle> := None,
    name: Field<string> := Absent,
    useCaseId: Field<string> := Absent,
    deploy: Field<Deploy> := Absent,
    url: Field<string> := Absent,
    error: Field<string> := Absent,
    startedAt: Field<string> := Absent,
    clearValidation: bool := false)

  function AsText(f: Field<string>): Field<Value> {
    match f
    case Absent => Absent
    case Null => Null
    case To(v) => To(Text(v))
  }

  function AsDeploy(f: Field<Deploy>): Field<Value> {
    match f
    case Absent => Absent
    case Null => Null
    case To(v) => To(Test(v))
  }

  function AsClear(clear: bool): Field<Value> {
    if clear then Null else Absent
  }

  function AsStage(f: Option<Lifecycle>): Field<Value> {
    match f
    case None => Absent
    case Some(v) => To(Stage(v))
  }

  /** The pushes of one partial update of the testing state, in the order they are made. */
  ghost function IdentityPushes(f: TestingFields, now: string): List<Push> {
    Snoc(Snoc(Snoc(Snoc(Nil,
      Push(Ua, UpdatedAt, To(Text(now)))),
      Push(St, Status, AsStage(f.status))),
      Push(Tun, TestingUseCaseName, AsText(f.name))),
      Push(Tuc, TestingUseCaseId, AsText(f.useCaseId)))
  }

  ghost function ObservedPushes(ps: List<Push>, f: TestingFields): List<Push> {
    Snoc(Snoc(Snoc(ps,
      Push(Tds, TestingDeployStatus, AsDeploy(f.deploy))),
      Push(Tru, TestingRuntimeUrl, AsText(f.url))),
      Push(Terr, TestingError, AsText(f.error)))
  }

  ghost function SessionPushes(ps: List<Push>, f: TestingFields): List<Push> {
    Snoc(Snoc(ps,
      Push(Tsa, TestingStartedAt, AsText(f.startedAt))),
      Push(Tva, TestingValidatedAt, AsClear(f.clearValidation)))
  }

  ghost function TestingPushes(f: TestingFields, now: string): List<Push> {
    SessionPushes(ObservedPushes(IdentityPushes(f, now), f), f)
  }

  method PushIdentity(b: UpdateBuilder, f: TestingFields, now: string)
    requires b.Valid() && b.pushes.Nil?
    modifies b
    ensures b.Valid() && b.pushes == IdentityPushes(f, now)
  {
    b.AddBoth(Push(Ua, UpdatedAt, To(Text(now))),
              Push(St, Status, AsStage(f.status)));
    b.AddBoth(Push(Tun, TestingUseCaseName, AsText(f.name)),
              Push(Tuc, TestingUseCaseId, AsText(f.useCaseId)));
  }

  method PushObserved(b: UpdateBuilder, f: TestingFields)
    requires b.Valid() && b.pushes.Snoc? && b.pushes.last.tag == Tuc
    modifies b
    ensures b.Valid() && b.pushes == ObservedPushes(old(b.pushes), f)
  {
    b.AddBoth(Push(Tds, TestingDeployStatus, AsDeploy(f.deploy)),
              Push(Tru, TestingRuntimeUrl, AsText(f.url)));
    b.Add(Push(Terr, TestingError, AsText(f.error)));
  }

  method PushSession(b: UpdateBuilder, f: TestingFields)
    requires b.Valid() && b.pushes.Snoc? && b.pushes.last.tag == Terr
    modifies b
    ensures b.Valid() && b.pushes == SessionPushes(old(b.pushes), f)
  {
    b.AddBoth(Push(Tsa, TestingStartedAt, AsText(f.startedAt)),
              Push(Tva, TestingValidatedAt, AsClear(f.clearValidation)));
  }

  method PushTesting(b: UpdateBuilder, f: TestingFields, now: string)
    requires b.Valid() && b.pushes.Nil?
    modifies b
    ensures b.Valid() && b.pushes == TestingPushes(f, now) && b.pushes.Snoc? && b.pushes.last.tag == Tva
  {
    PushIdentity(b, f, now);
    PushObserved(b, f);
    PushSession(b, f);
  }

  /** The change the update makes to each attribute. */
  ghost function TestingChange(f: TestingFields, now: string, a: Attr): Field<Value> {
    match a
    case UpdatedAt => To(Text(now))
    case Status => AsStage(f.status)
    case TestingUseCaseName => AsText(f.name)
    case TestingUseCaseId => AsText(f.useCaseId)
    case TestingDeployStatus => AsDeploy(f.deploy)
    case TestingRuntimeUrl => AsText(f.url)
    case TestingError => AsText(f.error)
    case TestingStartedAt => AsText(f.startedAt)
    case TestingValidatedAt => AsClear(f.clearValidation)
    case _ => Absent
  }

  lemma IdentityLookup(f: TestingFields, now: string, a: Attr)
    ensures Lookup(IdentityPushes(f, now), a) ==
            match a
            case UpdatedAt => To(Text(now))
            case Status => AsStage(f.status)
            case TestingUseCaseName => AsText(f.name)
            case TestingUseCaseId => AsText(f.useCaseId)
            case _ => Absent
  {
    var p4 := IdentityPushes(f, now);
    assert Lookup(p4.init.init.init, a) == if a == UpdatedAt then To(Text(now)) else Absent;
    assert Lookup(p4.init.init, a) == if a == Status then p4.init.init.last.field else Lookup(p4.init.init.init, a);
    assert Lookup(p4.init, a) == if a == TestingUseCaseName then p4.init.last.field else Lookup(p4.init.init, a);
  }

  lemma ObservedLookup(ps: List<Push>, f: TestingFields, a: Attr)
    ensures Lookup(ObservedPushes(ps, f), a) ==
            match a
            case TestingDeployStatus => AsDeploy(f.deploy)
            case TestingRuntimeUrl => AsText(f.url)
            case TestingError => AsText(f.error)
            case _ => Lookup(ps, a)
  {
    var p3 := ObservedPushes(ps, f);
    assert Lookup(p3.init.init, a) == if a == TestingDeployStatus then AsDeploy(f.deploy) else Lookup(ps, a);
    assert Lookup(p3.init, a) == if a == TestingRuntimeUrl then p3.init.last.field else Lookup(p3.init.init, a);
  }

  lemma TestingLookup(f: TestingFields, now: string, a: Attr)
    ensures Lookup(TestingPushes(f, now), a) == TestingChange(f, now, a)
  {
    var ps := IdentityPushes(f, now);
    IdentityLookup(f, now, a);
    ObservedLookup(ps, f, a);
    SessionLookup(ObservedPushes(ps, f), f, a);
  }

  lemma SessionLookup(ps: List<Push>, f: TestingFields, a: Attr)
    ensures Lookup(SessionPushes(ps, f), a) ==
            match a
            case TestingStartedAt => AsText(f.startedAt)
            case TestingValidatedAt => AsClear(f.clearValidation)
            case _ => Lookup(ps, a)
  {
  }

  /** The item after a partial update of the testing state, written out attribute by attribute. */
  ghost function WithTesting(item: Item, f: TestingFields, now: string): Item {
    map a: Attr | TestingChange(f, now, a).To? || (TestingChange(f, now, a).Absent? && a in item) ::
      if TestingChange(f, now, a).To? then TestingChange(f, now, a).value else item[a]
  }

  /**
   The expression built for any combination of absent, null and set fields is accepted by the
   service and does the direct update to every item.
   */
  method BuildTestingUpdate(f: TestingFields, now: string) returns (u: Update)
    ensures Accepted(u)
    ensures forall item: Item :: Evaluate(u, item) == WithTesting(item, f, now)
  {
    var b := new UpdateBuilder();
    PushTesting(b, f, now);
    b.Compiled();
    u := b.expression;
    forall item: Item ensures Evaluate(u, item) == WithTesting(item, f, now) {
      TestingAmend(f, now, item);
    }
  }

  lemma TestingAmend(f: TestingFields, now: string, item: Item)
    ensures Amend(TestingPushes(f, now), item) == WithTesting(item, f, now)
  {
    forall a: Attr ensures Lookup(TestingPushes(f, now), a) == TestingChange(f, now, a) {
      TestingLookup(f, now, a);
    }
  }

  // ---------- The operator's edit ----------

  /** The edit of a draft or of a template in testing, with the merged marketing document. */
  datatype Edit = Edit(
    marketing: string,
    slug: Option<string>,
    useCaseType: Option<string>,
    devops: Option<DevopsDoc>,
    wizard: Option<string>,
    ratings: Field<string>)

  function OptText(o: Option<string>): Field<Value> {
    match o
    case None => Absent
    case Some(v) => To(Text(v))
  }

  function OptConfig(o: Option<DevopsDoc>): Field<Value> {
    match o
    case None => Absent
    case Some(d) => To(Config(d))
  }

  ghost function DocumentPushes(e: Edit, now: string): List<Push> {
    Snoc(Snoc(Snoc(Snoc(Snoc(Nil,
      Push(Ua, UpdatedAt, To(Text(now)))),
      Push(Mk, Marketing, To(Text(e.marketing)))),
      Push(Sl, Slug, OptText(e.slug))),
      Push(Ut, UseCaseType, OptText(e.useCaseType))),
      Push(Dv, Devops, OptConfig(e.devops)))
  }

  /** `retest`: devops is edited while the template is in testing. */
  ghost function RetestPushes(ps: List<Push>, e: Edit, retest: bool): List<Push> {
    Snoc(Snoc(Snoc(Snoc(ps,
      Push(Tds, TestingDeployStatus, if retest then To(Test(Stale)) else Absent)),
      Push(Wp, WizardPayload, OptText(e.wizard))),
      Push(Tva, TestingValidatedAt, AsClear(retest))),
      Push(Rt, Ratings, AsText(e.ratings)))
  }

  ghost function EditChange(e: Edit, retest: bool, now: string, a: Attr): Field<Value> {
    match a
    case UpdatedAt => To(Text(now))
    case Marketing => To(Text(e.marketing))
    case Slug => OptText(e.slug)
    case UseCaseType => OptText(e.useCaseType)
    case Devops => OptConfig(e.devops)
    case TestingDeployStatus => if retest then To(Test(Stale)) else Absent
    case WizardPayload => OptText(e.wizard)
    case TestingValidatedAt => AsClear(retest)
    case Ratings => AsText(e.ratings)
    case _ => Absent
  }

  lemma DocumentLookup(e: Edit, now: string, a: Attr)
    ensures Lookup(DocumentPushes(e, now), a) ==
            match a
            case UpdatedAt => To(Text(now))
            case Marketing => To(Text(e.marketing))
            case Slug => OptText(e.slug)
            case UseCaseType => OptText(e.useCaseType)
            case Devops => OptConfig(e.devops)
            case _ => Absent
  {
    var p4 := DocumentPushes(e, now).init;
    assert Lookup(p4.init.init.init, a) == if a == UpdatedAt then To(Text(now)) else Absent;
    assert Lookup(p4.init.init, a) == if a == Marketing then To(Text(e.marketing)) else Lookup(p4.init.init.init, a);
    assert Lookup(p4.init, a) == if a == Slug then OptText(e.slug) else Lookup(p4.init.init, a);
    assert Lookup(p4, a) == if a == UseCaseType then OptText(e.useCaseType) else Lookup(p4.init, a);
  }

  lemma RetestLookup(ps: List<Push>, e: Edit, retest: bool, a: Attr)
    ensures Lookup(RetestPushes(ps, e, retest), a) ==
            match a
            case TestingDeployStatus => if retest then To(Test(Stale)) else Absent
            case WizardPayload => OptText(e.wizard)
            case TestingValidatedAt => AsClear(retest)
            case Ratings => AsText(e.ratings)
            case _ => Lookup(ps, a)
  {
    var p3 := RetestPushes(ps, e, retest).init;
    assert Lookup(p3.init.init, a) == if a == TestingDeployStatus then p3.init.init.last.field else Lookup(ps, a);
    assert Lookup(p3.init, a) == if a == WizardPayload then OptText(e.wizard) else Lookup(p3.init.init, a);
    assert Lookup(p3, a) == if a == TestingValidatedAt then AsClear(retest) else Lookup(p3.init, a);
  }

  ghost function Edited(item: Item, e: Edit, retest: bool, now: string): Item {
    map a: Attr | EditChange(e, retest, now, a).To? || (EditChange(e, retest, now, a).Absent? && a in item) ::
      if EditChange(e, retest, now, a).To? then EditChange(e, retest, now, a).value else item[a]
  }

  lemma EditAmend(e: Edit, retest: bool, now: string, item: Item)
    ensures Amend(RetestPushes(DocumentPushes(e, now), e, retest), item) == Edited(item, e, retest, now)
  {
    forall a: Attr ensures Lookup(RetestPushes(DocumentPushes(e, now), e, retest), a) == EditChange(e, retest, now, a) {
      DocumentLookup(e, now, a);
      RetestLookup(DocumentPushes(e, now), e, retest, a);
    }
  }

  method PushDocuments(b: UpdateBuilder, e: Edit, now: string)
    requires b.Valid() && b.pushes.Nil?
    modifies b
    ensures b.Valid() && b.pushes == DocumentPushes(e, now)
  {
    b.AddBoth(Push(Ua, UpdatedAt, To(Text(now))),
              Push(Mk, Marketing, To(Text(e.marketing))));
    b.AddBoth(Push(Sl, Slug, OptText(e.slug)),
              Push(Ut, UseCaseType, OptText(e.useCaseType)));
    b.Add(Push(Dv, Devops, OptConfig(e.devops)));
  }

  method PushRetest(b: UpdateBuilder, e: Edit, retest: bool)
    requires b.Valid() && b.pushes.Snoc? && b.pushes.last.tag == Dv
    modifies b
    ensures b.Valid() && b.pushes == RetestPushes(old(b.pushes), e, retest)
  {
    b.AddBoth(Push(Tds, TestingDeployStatus, if retest then To(Test(Stale)) else Absent),
              Push(Wp, WizardPayload, OptText(e.wizard)));
    b.AddBoth(Push(Tva, TestingValidatedAt, AsClear(retest)),
              Push(Rt, Ratings, AsText(e.ratings)));
  }

  method BuildEditUpdate(e: Edit, testing: bool, now: string) returns (u: Update)
    ensures Accepted(u)
    ensures forall item: Item :: Evaluate(u, item) == Edited(item, e, testing && e.devops.Some?, now)
  {
    var retest := testing && e.devops.Some?;
    var b := new UpdateBuilder();
    PushDocuments(b, e, now);
    PushRetest(b, e, retest);
    b.Compiled();
    u := b.expression;
    forall item: Item ensures Evaluate(u, item) == Edited(item, e, retest, now) {
      EditAmend(e, retest, now, item);
    }
  }

  // ---------- Stamp, publish and decommission ----------

  method BuildStampUpdate(now: string) returns (u: Update)
    ensures Accepted(u)
    ensures forall item: Item :: Evaluate(u, item) == item[UpdatedAt := Text(now)][TestingValidatedAt := Text(now)]
  {
    var b := new UpdateBuilder();
    b.AddBoth(Push(Ua, UpdatedAt, To(Text(now))),
              Push(Tva, TestingValidatedAt, To(Text(now))));
    b.Compiled();
    u := b.expression;
    ghost var ps := b.pushes;
    forall item: Item ensures Evaluate(u, item) == item[UpdatedAt := Text(now)][TestingValidatedAt := Text(now)] {
      forall a: Attr ensures Lookup(ps, a) == if a == TestingValidatedAt then To(Text(now)) else if a == UpdatedAt then To(Text(now)) else Absent {
        assert Lookup(ps.init, a) == if a == UpdatedAt then To(Text(now)) else Absent;
      }
    }
  }

  method BuildMarketingUpdate(marketing: string, now: string) returns (u: Update)
    ensures Accepted(u)
    ensures forall item: Item :: Evaluate(u, item) == item[UpdatedAt := Text(now)][Marketing := Text(marketing)]
  {
    var b := new UpdateBuilder();
    b.AddBoth(Push(Ua, UpdatedAt, To(Text(now))),
              Push(Mk, Marketing, To(Text(marketing))));
    b.Compiled();
    u := b.expression;
    ghost var ps := b.pushes;
    forall item: Item ensures Evaluate(u, item) == item[UpdatedAt := Text(now)][Marketing := Text(marketing)] {
      forall a: Attr ensures Lookup(ps, a) == if a == Marketing then To(Text(marketing)) else if a == UpdatedAt then To(Text(now)) else Absent {
        assert Lookup(ps.init, a) == if a == UpdatedAt then To(Text(now)) else Absent;
      }
    }
  }

  /** Leaving testing: the given status, and every testing attribute dropped. */
  function LeaveTesting(to: Lifecycle): TestingFields {
    TestingFields(Some(to), Null, Null, Null, Null, Null, Null, true)
  }

  method BuildPublishUpdate(actor: string, now: string) returns (u: Update)
    ensures Accepted(u)
    ensures forall item: Item :: Evaluate(u, item) ==
              WithTesting(item, LeaveTesting(Published), now)[PublishedAt := Text(now)][PublishedBy := Text(actor)]
  {
    var b := new UpdateBuilder();
    var f := LeaveTesting(Published);
    PushTesting(b, f, now);
    PublishAmend(b.pushes, f, actor, now);
    b.AddBoth(Push(Pa, PublishedAt, To(Text(now))),
              Push(Pb, PublishedBy, To(Text(actor))));
    b.Compiled();
    u := b.expression;
  }

  lemma PublishAmend(ps: List<Push>, f: TestingFields, actor: string, now: string)
    requires ps == TestingPushes(f, now)
    ensures forall item: Item ::
              Amend(Snoc(Snoc(ps, Push(Pa, PublishedAt, To(Text(now)))), Push(Pb, PublishedBy, To(Text(actor)))), item)
              == WithTesting(item, f, now)[PublishedAt := Text(now)][PublishedBy := Text(actor)]
  {
    var all := Snoc(Snoc(ps, Push(Pa, PublishedAt, To(Text(now)))), Push(Pb, PublishedBy, To(Text(actor))));
    forall a: Attr
      ensures Lookup(all, a) == if a == PublishedBy then To(Text(actor)) else if a == PublishedAt then To(Text(now)) else TestingChange(f, now, a)
    {
      TestingLookup(f, now, a);
      assert Lookup(all.init, a) == if a == PublishedAt then To(Text(now)) else Lookup(ps, a);
    }
  }

  method BuildUnpublishUpdate(actor: string, now: string) returns (u: Update)
    ensures Accepted(u)
    ensures forall item: Item :: Evaluate(u, item) ==
              item[UpdatedAt := Text(now)][Status := Stage(Archived)][UnpublishedAt := Text(now)][UnpublishedBy := Text(actor)]
  {
    var b := new UpdateBuilder();
    b.AddBoth(Push(Ua, UpdatedAt, To(Text(now))),
              Push(St, Status, To(Stage(Archived))));
    b.AddBoth(Push(Uua, UnpublishedAt, To(Text(now))),
              Push(Uub, UnpublishedBy, To(Text(actor))));
    b.Compiled();
    u := b.expression;
    UnpublishAmend(b.pushes, actor, now);
  }

  lemma UnpublishAmend(ps: List<Push>, actor: string, now: string)
    requires ps == Snoc(Snoc(Snoc(Snoc(Nil, Push(Ua, UpdatedAt, To(Text(now)))), Push(St, Status, To(Stage(Archived)))),
                     Push(Uua, UnpublishedAt, To(Text(now)))), Push(Uub, UnpublishedBy, To(Text(actor))))
    ensures forall item: Item :: Amend(ps, item) ==
              item[UpdatedAt := Text(now)][Status := Stage(Archived)][UnpublishedAt := Text(now)][UnpublishedBy := Text(actor)]
  {
    forall a: Attr
      ensures Lookup(ps, a) ==
              match a
              case UpdatedAt => To(Text(now))
              case Status => To(Stage(Archived))
              case UnpublishedAt => To(Text(now))
              case UnpublishedBy => To(Text(actor))
              case _ => Absent
    {
      assert Lookup(ps.init.init.init, a) == if a == UpdatedAt then To(Text(now)) else Absent;
      assert Lookup(ps.init.init, a) == if a == Status then To(Stage(Archived)) else Lookup(ps.init.init.init, a);
    }
  }
}
